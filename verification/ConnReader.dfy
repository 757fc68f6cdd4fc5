/**
 * The read half of tunnel.Conn and its readCredit as the objects they are (backend/tunnel/conn.go: Read,
 * consumeFrame, onStreamMessage; backend/tunnel/read_credit.go). Every method performs steps of Downstream, with
 * the other goroutines' steps interleaved wherever the code can be overtaken; `trace` is the run so far, so
 * everything proved of Downstream's runs holds of this object at every call boundary.
 */
module ConnReader {
  import opened Bytes
  import opened TunnelFlow
  import opened Downstream
  import opened Overtaking

  datatype Role = ReaderRole | DispatcherRole | LoopRole

  /** A step that belongs to the goroutine playing `role`. */
  predicate Mine(role: Role, a: Action)
  {
    match role
    case ReaderRole => a.ByReader?
    case DispatcherRole => a.ByDispatcher?
    case LoopRole => a.ByLoop?
  }

  lemma DispatcherUntouched(s: State, a: Action)
    requires Enabled(s, a) && !a.ByDispatcher?
    ensures Next(s, a).d == s.d && Next(s, a).log == s.log
  {
    match a
    case ByWorker(w) => WorkerFrame(s, w);
    case ByReader(r) => ReaderFrame(s, r);
    case ByLoop(l) => LoopFrame(s, l);
    case Close =>
    case ChannelDies =>
  }

  lemma ReaderLeavesLoop(s: State, a: ReadStep)
    requires ReaderMay(s, a)
    ensures ReaderDoes(s, a).g.loop == s.g.loop
  {
  }

  lemma LoopUntouched(s: State, a: Action)
    requires Enabled(s, a) && !a.ByLoop?
    ensures Next(s, a).g.loop == s.g.loop
  {
    match a
    case ByWorker(w) => WorkerFrame(s, w);
    case ByDispatcher(d) => DispatcherFrame(s, d);
    case ByReader(r) => ReaderLeavesLoop(s, r);
    case Close =>
    case ChannelDies =>
  }

  /** What the goroutine playing `role` alone can change. */
  predicate Undisturbed(role: Role, s: State, t: State)
  {
    match role
    case ReaderRole => t.r == s.r
    case DispatcherRole => t.d == s.d && t.log == s.log
    case LoopRole => t.g.loop == s.g.loop
  }

  lemma OthersLeaveAlone(role: Role, s: State, a: Action)
    requires Enabled(s, a) && !Mine(role, a)
    ensures Undisturbed(role, s, Next(s, a))
  {
    match role
    case ReaderRole => ReaderUntouched(s, a);
    case DispatcherRole => DispatcherUntouched(s, a);
    case LoopRole => LoopUntouched(s, a);
  }

  /** copy(b, data). */
  method Copy(b: array<byte>, data: bytes) returns (n: nat)
    modifies b
    ensures n == Min(b.Length, |data|)
    ensures b[..n] == data[..n] && b[n..] == old(b[n..])
  {
    n := 0;
    while n < b.Length && n < |data|
      invariant n <= b.Length && n <= |data|
      invariant b[..n] == data[..n] && b[n..] == old(b[n..])
    {
      assert b[n..] == [b[n]] + b[n + 1..];
      b[n] := data[n];
      n := n + 1;
    }
  }

  /** The arms of the select Read parks on. */
  datatype Arm = OnData | OnEnd | OnClosed | OnDead | OnDeadline | OnTimer

  /** What happens around one iteration of Read: the others' steps before each of its own, whether the deadline has
      passed, and which arm of the select it takes. */
  datatype Around = Around(top: seq<Action>, poll: seq<Action>, check: seq<Action>, park: seq<Action>, accrue: seq<Action>,
                           poke: seq<Action>, expired: bool, arm: Arm)

  /** What Read returns; Unfinished is a call that has not returned by the end of the schedule it was given. */
  datatype ReadResult = Got(n: nat) | ErrClosed | ErrEnd(end: End) | ErrDeadline | Unfinished

  /** In a state a run leads to, every buffered frame has bytes in it. */
  lemma BufferedFramesHaveBytes(acts: seq<Action>)
    requires ValidRun(START, acts)
    ensures var s := After(START, acts); forall i :: 0 <= i < |s.readBuf| ==> s.readBuf[i].data != []
  {
    Reachable(acts);
    BufferTail(After(START, acts));
  }

  lemma BufferTail(s: State)
    requires BytesInv(s) && SizeInv(s)
    ensures forall i :: 0 <= i < |s.readBuf| ==> s.readBuf[i].data != []
  {
    var k := |s.log| - |s.readBuf|;
    forall i | 0 <= i < |s.readBuf| ensures s.readBuf[i].data != [] {
      assert s.readBuf[i] == s.log[k + i];
    }
  }

  lemma TakesHead(s: State, a: ReadStep)
    requires ReaderMay(s, a) && (a.TryBuf? || a.TakeParked?) && s.readBuf != []
    ensures ReaderDoes(s, a) == Dequeue(s, s.r.pc.n)
  {
  }

  /** The read half of a conn; `world` holds the goroutines around it, the worker and the network. */
  class Reader {
    var readPart: bytes
    var readBuf: seq<Frame>
    var terminal: Option<End>
    var closed: bool
    var pending: nat
    var signal: bool
    var world: State
    ghost var trace: seq<Action>

    constructor ()
      ensures Valid() && Value() == START && trace == []
    {
      readPart, readBuf, terminal, closed, pending, signal := [], [], None, false, 0, false;
      world, trace := START, [];
    }

    function Value(): State
      reads this
    {
      world.(r := world.r.(part := readPart), readBuf := readBuf, terminal := terminal, closed := closed,
             g := world.g.(pending := pending, signal := signal))
    }

    /** The object's state is the one its trace, a run of Downstream, leads to. */
    ghost predicate Valid()
      reads this
    {
      ValidRun(START, trace) && Value() == After(START, trace)
    }

    method Store(s: State)
      modifies this
      ensures Value() == s && trace == old(trace)
    {
      readPart, readBuf, terminal, closed, pending, signal := s.r.part, s.readBuf, s.terminal, s.closed, s.g.pending, s.g.signal;
      world := s;
    }

    /** Other goroutines run: whichever of `env` are not `role`'s and possible happen, in order. */
    method Interleave(role: Role, env: seq<Action>)
      requires Valid()
      modifies this
      ensures Valid() && old(trace) <= trace && Undisturbed(role, old(Value()), Value())
    {
      var s := Value();
      for i := 0 to |env|
        invariant ValidRun(START, trace) && s == After(START, trace) && old(trace) <= trace && Undisturbed(role, old(Value()), s)
      {
        if Enabled(s, env[i]) && !Mine(role, env[i]) {
          OthersLeaveAlone(role, s, env[i]);
          RunSnoc(START, trace, env[i]);
          s := Next(s, env[i]);
          trace := trace + [env[i]];
        }
      }
      Store(s);
    }

    /** A step of Read that changes nothing but where it stands. */
    method MoveTo(ghost a: ReadStep, pc: Pc)
      requires Valid() && ReaderMay(Value(), a) && ReaderDoes(Value(), a) == Move(Value(), pc)
      modifies this
      ensures Valid() && trace == old(trace) + [ByReader(a)] && Value() == Move(old(Value()), pc)
    {
      RunSnoc(START, trace, ByReader(a));
      world := world.(r := world.r.(pc := pc));
      trace := trace + [ByReader(a)];
    }

    /** Read's first look: closed, or bytes left over from the last frame. */
    method TopOfLoop(b: array<byte>) returns (res: ReadResult)
      requires Valid() && Value().r.pc == AtTop(b.Length) && b.Length > 0
      modifies this, b
      ensures Valid() && trace == old(trace) + [ByReader(TopCheck)]
      ensures res == if old(closed) then ErrClosed else if old(readPart) != [] then Got(Min(b.Length, |old(readPart)|)) else Unfinished
      ensures Delivered(old(Value()).r, Value().r, res, b[..], old(b[..]))
      ensures res == Unfinished ==> Value().r.pc == PollBuf(b.Length)
    {
      if closed {
        MoveTo(TopCheck, Free);
        return ErrClosed;
      }
      if |readPart| > 0 {
        RunSnoc(START, trace, ByReader(TopCheck));
        var n := Copy(b, readPart);
        world := world.(r := Downstream.Reader(Free, [], world.r.returned + readPart[..n]));
        readPart := readPart[n..];
        trace := trace + [ByReader(TopCheck)];
        return Got(n);
      }
      MoveTo(TopCheck, PollBuf(b.Length));
      return Unfinished;
    }

    /** consumeFrame's copy: the head of readBuf leaves it, and what does not fit in b is parked in readPart. */
    method CopyHead(b: array<byte>) returns (n: nat)
      requires readBuf != []
      modifies this`readBuf, this`readPart, b
      ensures n == Min(b.Length, |old(readBuf)[0].data|) && b[..n] == old(readBuf)[0].data[..n] && b[n..] == old(b[n..])
      ensures readBuf == old(readBuf)[1..]
      ensures readPart == if n < |old(readBuf)[0].data| then old(readBuf)[0].data[n..] else old(readPart)
    {
      var data := readBuf[0].data;
      readBuf := readBuf[1..];
      n := Copy(b, data);
      if n < |data| {
        readPart := data[n..];
      }
    }

    lemma HeadHasBytes()
      requires Valid() && readBuf != []
      ensures readBuf[0].data != []
    {
      BufferedFramesHaveBytes(trace);
      assert After(START, trace).readBuf == readBuf;
      assert After(START, trace).readBuf[0].data != [];
    }

    /** A frame leaves readBuf for the caller, by the poll or by the park. */
    method TakeFrame(b: array<byte>, ghost a: ReadStep) returns (n: nat)
      requires Valid() && ReaderMay(Value(), a) && (a.TryBuf? || a.TakeParked?) && readBuf != []
      requires b.Length > 0 && Value().r.pc.n == b.Length
      modifies this, b
      ensures Valid() && trace == old(trace) + [ByReader(a)]
      ensures 0 < n <= b.Length && b[n..] == old(b[n..])
      ensures Value().r.pc == MustAccrue && Value().r.returned == old(Value()).r.returned + b[..n]
    {
      RunSnoc(START, trace, ByReader(a));
      HeadHasBytes();
      TakesHead(Value(), a);
      n := CopyHead(b);
      world := world.(r := world.r.(pc := MustAccrue, returned := world.r.returned + b[..n]));
      trace := trace + [ByReader(a)];
    }

    /** consume(1), its locked part: reports whether a batch is due. */
    method Accrue() returns (ready: bool)
      requires Valid() && Value().r.pc == MustAccrue
      modifies this
      ensures Valid() && trace == old(trace) + [ByReader(AccrueCredit)] && ready == (pending >= READ_CREDIT_BATCH)
      ensures pending == old(pending) + 1 && Value().r == old(Value()).r.(pc := if ready then MustPoke else Free)
    {
      RunSnoc(START, trace, ByReader(AccrueCredit));
      pending := pending + 1;
      ready := pending >= READ_CREDIT_BATCH;
      world := world.(r := world.r.(pc := if ready then MustPoke else Free));
      trace := trace + [ByReader(AccrueCredit)];
    }

    /** consume(1): the accrual, then a poke of the grant loop when a batch is due. */
    method Consume(around: Around)
      requires Valid() && Value().r.pc == MustAccrue
      modifies this
      ensures Valid() && old(trace) <= trace
      ensures Value().r == old(Value()).r.(pc := Free)
    {
      Interleave(ReaderRole, around.accrue);
      var ready := Accrue();
      if ready {
        Interleave(ReaderRole, around.poke);
        Poke();
      }
    }

    /** The non-blocking send on the one-slot signal. */
    method Poke()
      requires Valid() && Value().r.pc == MustPoke
      modifies this
      ensures Valid() && trace == old(trace) + [ByReader(PokeLoop)] && signal && Value().r == old(Value()).r.(pc := Free)
    {
      RunSnoc(START, trace, ByReader(PokeLoop));
      if !signal {
        signal := true;
      }
      world := world.(r := world.r.(pc := Free));
      trace := trace + [ByReader(PokeLoop)];
    }

    /** Read's non-blocking poll of readBuf. */
    method PollBuffer(b: array<byte>, around: Around) returns (res: ReadResult)
      requires Valid() && Value().r.pc == PollBuf(b.Length) && b.Length > 0
      modifies this, b
      ensures Valid() && old(trace) <= trace
      ensures Delivered(old(Value()).r, Value().r, res, b[..], old(b[..])) && (res.Got? || res == Unfinished)
      ensures res == Unfinished ==> Value().r == old(Value()).r.(pc := PollTerminal(b.Length))
    {
      if readBuf != [] {
        var n := TakeFrame(b, TryBuf);
        Consume(around);
        return Got(n);
      }
      MoveTo(TryBuf, PollTerminal(b.Length));
      return Unfinished;
    }

    /** Read's non-blocking poll of terminal, and the deadline check that follows a miss. */
    method PollEnd(n: nat, expired: bool) returns (res: ReadResult)
      requires Valid() && Value().r.pc == PollTerminal(n)
      modifies this
      ensures Valid() && old(trace) <= trace
      ensures res == if old(terminal).Some? then ErrEnd(old(terminal).value) else if expired then ErrDeadline else Unfinished
      ensures terminal == old(terminal) && Value().r == old(Value()).r.(pc := if res == Unfinished then Parked(n) else Free)
    {
      if terminal.Some? {
        MoveTo(TryTerminal, Free);
        return ErrEnd(terminal.value);
      }
      if expired {
        MoveTo(Expire, Free);
        return ErrDeadline;
      }
      MoveTo(TryTerminal, Parked(n));
      return Unfinished;
    }

    /** The channel died under a parked Read: it latches the error and looks once more. */
    method WakeOnDeath(n: nat)
      requires Valid() && Value().r.pc == Parked(n) && world.dead
      modifies this
      ensures Valid() && trace == old(trace) + [ByReader(WakeDead)] && Value().r == old(Value()).r.(pc := AtTop(n)) && terminal.Some?
    {
      RunSnoc(START, trace, ByReader(WakeDead));
      terminal := Latch(terminal, UnexpectedEof);
      world := world.(r := world.r.(pc := AtTop(n)));
      trace := trace + [ByReader(WakeDead)];
    }

    /** The park's data arm. */
    method ParkOnData(b: array<byte>, around: Around) returns (res: ReadResult)
      requires Valid() && Value().r.pc == Parked(b.Length) && b.Length > 0
      modifies this, b
      ensures Valid() && old(trace) <= trace
      ensures Delivered(old(Value()).r, Value().r, res, b[..], old(b[..])) && (res.Got? || res == Unfinished)
      ensures res == Unfinished ==> Value().r.pc == Parked(b.Length)
    {
      if readBuf == [] {
        return Unfinished;
      }
      var n := TakeFrame(b, TakeParked);
      Consume(around);
      return Got(n);
    }

    /** The select Read parks on; an arm that is not ready leaves it parked. */
    method Park(b: array<byte>, around: Around) returns (res: ReadResult)
      requires Valid() && Value().r.pc == Parked(b.Length) && b.Length > 0
      modifies this, b
      ensures Valid() && old(trace) <= trace
      ensures Delivered(old(Value()).r, Value().r, res, b[..], old(b[..])) && !res.ErrEnd?
      ensures res == Unfinished ==> Value().r.pc == AtTop(b.Length) || Value().r.pc == Parked(b.Length)
    {
      match around.arm
      case OnData =>
        res := ParkOnData(b, around);
      case OnEnd =>
        if terminal.Some? {
          MoveTo(WakeTerminal, AtTop(b.Length));
        }
        return Unfinished;
      case OnClosed =>
        if closed {
          MoveTo(WakeClosed, Free);
          return ErrClosed;
        }
        return Unfinished;
      case OnDead =>
        if world.dead {
          WakeOnDeath(b.Length);
        }
        return Unfinished;
      case OnDeadline =>
        MoveTo(WakeDeadline, AtTop(b.Length));
        return Unfinished;
      case OnTimer =>
        MoveTo(TimeOut, Free);
        return ErrDeadline;
    }

    /** Read's loop from its top to the poll of readBuf. */
    method TopAndPoll(b: array<byte>, around: Around) returns (res: ReadResult)
      requires Valid() && Value().r.pc == AtTop(b.Length) && b.Length > 0
      modifies this, b
      ensures Valid() && old(trace) <= trace
      ensures Delivered(old(Value()).r, Value().r, res, b[..], old(b[..]))
      ensures res == Unfinished ==> Value().r.pc == PollTerminal(b.Length)
    {
      Interleave(ReaderRole, around.top);
      res := TopOfLoop(b);
      if res != Unfinished {
        return;
      }
      Interleave(ReaderRole, around.poll);
      res := PollBuffer(b, around);
    }

    /** Read's loop from the poll of terminal to the end of its park. */
    method EndAndPark(b: array<byte>, around: Around) returns (res: ReadResult)
      requires Valid() && Value().r.pc == PollTerminal(b.Length) && b.Length > 0
      modifies this, b
      ensures Valid() && old(trace) <= trace
      ensures Delivered(old(Value()).r, Value().r, res, b[..], old(b[..]))
      ensures res == Unfinished ==> Value().r.pc == AtTop(b.Length) || Value().r.pc == Parked(b.Length)
    {
      Interleave(ReaderRole, around.check);
      res := PollEnd(b.Length, around.expired);
      if res != Unfinished {
        return;
      }
      Interleave(ReaderRole, around.park);
      res := Park(b, around);
    }

    /** One iteration of Read's loop. */
    method ReadOnce(b: array<byte>, around: Around) returns (res: ReadResult)
      requires Valid() && Value().r.pc == AtTop(b.Length) && b.Length > 0
      modifies this, b
      ensures Valid() && old(trace) <= trace
      ensures Delivered(old(Value()).r, Value().r, res, b[..], old(b[..]))
      ensures res == Unfinished ==> Value().r.pc == AtTop(b.Length) || Value().r.pc == Parked(b.Length)
    {
      res := TopAndPoll(b, around);
      if res != Unfinished {
        return;
      }
      res := EndAndPark(b, around);
    }

    /**
     * Read: whatever the others do around it, the bytes it hands over are the next ones of the stream and land in
     * the front of b; a call that returns an error has handed over none. arounds[k] is what happens around its
     * k-th iteration.
     */
    method Read(b: array<byte>, arounds: seq<Around>) returns (res: ReadResult)
      requires Valid() && Value().r.pc.Free?
      modifies this, b
      ensures Valid() && old(trace) <= trace
      ensures b.Length == 0 ==> res == Got(0) && Value() == old(Value())
      ensures b.Length > 0 ==> Delivered(old(Value()).r, Value().r, res, b[..], old(b[..]))
    {
      if b.Length == 0 {
        return Got(0);
      }
      MoveTo(BeginRead(b.Length), AtTop(b.Length));
      var k := 0;
      while k < |arounds|
        invariant k <= |arounds| && Valid() && old(trace) <= trace && Value().r.pc == AtTop(b.Length)
        invariant Value().r.returned == old(Value()).r.returned && b[..] == old(b[..])
      {
        res := ReadOnce(b, arounds[k]);
        if res != Unfinished || world.r.pc.Parked? {
          return;
        }
        k := k + 1;
      }
      return Unfinished;
    }

    // ----- readCredit.loop -----

    /** The loop receives the signal. */
    method WakeLoop()
      requires Valid() && world.g.loop.Waiting? && signal
      modifies this
      ensures Valid() && trace == old(trace) + [ByLoop(Wake)] && !signal && Value().g.loop == Woken && pending == old(pending)
    {
      RunSnoc(START, trace, ByLoop(Wake));
      signal := false;
      world := world.(g := world.g.(loop := Woken));
      trace := trace + [ByLoop(Wake)];
    }

    /** The loop's locked section: whatever has accrued by now becomes one grant. */
    method TakePending() returns (grant: nat)
      requires Valid() && world.g.loop == Woken
      modifies this
      ensures Valid() && trace == old(trace) + [ByLoop(TakeGrant)] && grant == old(pending) && pending == 0
      ensures Value().g.loop == (if grant > 0 then Loop.Sending(grant) else Waiting)
    {
      RunSnoc(START, trace, ByLoop(TakeGrant));
      grant := pending;
      pending := 0;
      world := world.(g := world.g.(loop := if grant > 0 then Loop.Sending(grant) else Waiting));
      trace := trace + [ByLoop(TakeGrant)];
    }

    /** sendReadCredit: the grant is on its way, or it is lost with a conn or channel that is going away. */
    method DispatchGrant(sent: bool) returns (ok: bool)
      requires Valid() && world.g.loop.Sending?
      modifies this
      ensures Valid() && old(trace) <= trace && Value().g.loop == Waiting
      ensures ok <==> sent && !old(Value()).dead
      ensures ok ==> Value().grants == old(Value()).grants + [old(Value()).g.loop.grant]
      ensures !ok ==> Value().grants == old(Value()).grants && (Value().dead || closed)
      ensures old(closed) ==> Value().dead == old(Value()).dead
    {
      ok := sent && !world.dead;
      var kills := !closed && !world.dead;
      ghost var a := if ok then SendGrant else GrantFails(kills);
      RunSnoc(START, trace, ByLoop(a));
      var g := world.g.loop.grant;
      if ok {
        world := world.(g := world.g.(loop := Waiting), grants := world.grants + [g]);
      } else {
        world := world.(g := world.g.(loop := Waiting), lost := world.lost + g, dead := world.dead || kills);
      }
      trace := trace + [ByLoop(a)];
    }

    /**
     * One turn of the grant loop as a run of Downstream: everything consumed by the moment it looks, however much was
     * consumed after the signal, goes out as one grant. `woken` and `sending` are what happens around its steps.
     */
    method GrantTurn(woken: seq<Action>, sending: seq<Action>, sent: bool) returns (grant: nat, ghost looked: seq<Action>)
      requires Valid() && world.g.loop.Waiting? && signal
      modifies this
      ensures Valid() && old(trace) <= looked && looked + [ByLoop(TakeGrant)] <= trace && Value().g.loop == Waiting
      ensures ValidRun(START, looked) && grant == After(START, looked).g.pending
    {
      WakeLoop();
      Interleave(LoopRole, woken);
      looked := trace;
      grant := TakePending();
      if grant > 0 {
        Interleave(LoopRole, sending);
        var ok := DispatchGrant(sent);
      }
    }

    // ----- onStreamMessage -----

    /** A message that arrives after a close or an end is ignored. */
    method IgnoreHead()
      requires Valid() && world.d.Idle? && world.transit != [] && (closed || terminal.Some?)
      modifies this
      ensures Valid() && trace == old(trace) + [ByDispatcher(Deliver)]
      ensures Value().d.Idle? && Value().log == old(Value()).log && closed == old(closed) && terminal == old(terminal)
    {
      RunSnoc(START, trace, ByDispatcher(Deliver));
      var head := world.transit[0];
      world := world.(transit := world.transit[1..], lost := world.lost + Weight(head), dropped := world.dropped || head.Data?);
      trace := trace + [ByDispatcher(Deliver)];
    }

    /** A message that arrives before them is taken. */
    method TakeHead() returns (m: Msg)
      requires Valid() && world.d.Idle? && world.transit != [] && !closed && terminal.None?
      modifies this
      ensures Valid() && trace == old(trace) + [ByDispatcher(Deliver)] && m == old(world).transit[0]
      ensures Value().d == Checked(m) && Value().log == old(Value()).log && closed == old(closed) && terminal == old(terminal)
    {
      RunSnoc(START, trace, ByDispatcher(Deliver));
      m := world.transit[0];
      world := world.(transit := world.transit[1..], d := Checked(m));
      trace := trace + [ByDispatcher(Deliver)];
    }

    /** The end is latched; the first one sticks. */
    method LatchTerminal()
      requires Valid() && FinalHeld(world.d)
      modifies this
      ensures Valid() && trace == old(trace) + [ByDispatcher(LatchEnd)]
      ensures terminal == Latch(old(terminal), old(world).d.msg.end) && Value().d.Idle? && Value().log == old(Value()).log
    {
      RunSnoc(START, trace, ByDispatcher(LatchEnd));
      terminal := Latch(terminal, world.d.msg.end);
      world := world.(d := Idle);
      trace := trace + [ByDispatcher(LatchEnd)];
    }

    /** A frame over the chunk bound ends the stream instead of being delivered. */
    method LatchTooLarge()
      requires Valid() && DispatcherMay(Value(), LatchOversize)
      modifies this
      ensures Valid() && trace == old(trace) + [ByDispatcher(LatchOversize)]
      ensures terminal == Latch(old(terminal), StreamError) && Value().d.Idle? && Value().log == old(Value()).log
    {
      RunSnoc(START, trace, ByDispatcher(LatchOversize));
      terminal := Latch(terminal, StreamError);
      world := world.(d := Idle, lost := world.lost + 1, dropped := true);
      trace := trace + [ByDispatcher(LatchOversize)];
    }

    /** The select's arm for a closed conn or a dead channel. */
    method Abandon()
      requires Valid() && DispatcherMay(Value(), AbandonFrame)
      modifies this
      ensures Valid() && trace == old(trace) + [ByDispatcher(AbandonFrame)]
      ensures Value().d.Idle? && Value().log == old(Value()).log && closed == old(closed) && Value().dead == old(Value()).dead
    {
      RunSnoc(START, trace, ByDispatcher(AbandonFrame));
      world := world.(d := Idle, lost := world.lost + 1, dropped := true);
      trace := trace + [ByDispatcher(AbandonFrame)];
    }

    /** The select's arm that takes the frame. */
    method EnqueueFrame()
      requires Valid() && DispatcherMay(Value(), Enqueue)
      modifies this
      ensures Valid() && trace == old(trace) + [ByDispatcher(Enqueue)]
      ensures Value().d.Idle? && Value().log == old(Value()).log + [old(Value()).d.msg.f]
    {
      RunSnoc(START, trace, ByDispatcher(Enqueue));
      var f := world.d.msg.f;
      readBuf := readBuf + [f];
      world := world.(d := Idle, log := world.log + [f], skipped := world.skipped || world.dropped);
      trace := trace + [ByDispatcher(Enqueue)];
    }

    /** In a state its trace leads to, a frame in the dispatcher's hands finds room. */
    lemma CanDispose()
      requires Valid() && world.d.Checked? && world.d.msg.Data?
      ensures DispatcherMay(Value(), Enqueue)
    {
      Reachable(trace);
      DispatcherNeverStuck(Value());
    }

    /**
     * onStreamMessage on the message at the head of the queue: its frame is enqueued, or nothing is; a frame it takes
     * is refused only by a conn or channel that is going away, an end is latched, and the buffer always has room.
     * `mid` is what happens between its check and its effect, and `leave` whether its select prefers to leave.
     */
    method OnStreamMessage(mid: seq<Action>, leave: bool) returns (accepted: bool)
      requires Valid() && world.d.Idle? && world.transit != []
      modifies this
      ensures Valid() && old(trace) <= trace && Value().d.Idle?
      ensures var m := old(world).transit[0];
              && (accepted ==> m.Data? && !old(closed) && old(terminal).None? && Value().log == old(Value()).log + [m.f])
              && (!accepted ==> Value().log == old(Value()).log)
              && (m.Data? && !accepted ==> closed || Value().dead || terminal.Some?)
              && (m.Final? && !old(closed) && old(terminal).None? ==> terminal.Some?)
    {
      if closed || terminal.Some? {
        IgnoreHead();
        return false;
      }
      var m := TakeHead();
      Interleave(DispatcherRole, mid);
      if m.Final? {
        LatchTerminal();
        return false;
      }
      if |m.f.data| > MAX_CHUNK_BYTES {
        LatchTooLarge();
        return false;
      }
      CanDispose();
      if leave && (closed || world.dead) {
        Abandon();
        return false;
      }
      EnqueueFrame();
      return true;
    }
  }

  /**
   * What a result means for the caller's buffer and for the record of bytes returned: Got(n) is n more of them, in
   * the buffer's first n places; anything else has touched neither.
   */
  ghost predicate Delivered(before: Downstream.Reader, after: Downstream.Reader, res: ReadResult, b: bytes, was: bytes)
  {
    && |b| == |was|
    && (res.Got? ==> 0 < res.n <= |b| && after.returned == before.returned + b[..res.n] && b[res.n..] == was[res.n..])
    && (!res.Got? ==> after.returned == before.returned && b == was)
    && (res != Unfinished ==> after.pc.Free?)
  }
}

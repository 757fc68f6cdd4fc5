/**
 * The read half of a tunnel conn with the worker half that feeds it: the worker's target read loop
 * and creditWindow (backend/internal/worker/service), the client's onStreamMessage and Read
 * (backend/tunnel/conn.go) and the batched credit loop (backend/tunnel/read_credit.go). Each action
 * is one critical section or channel operation; the properties hold over every interleaving.
 */
module Downstream {
  import opened Bytes
  import opened TunnelFlow

  /** The num-th data frame of the conn. */
  datatype Frame = Frame(num: nat, data: bytes)

  datatype End = Eof | StreamError | UnexpectedEof

  datatype Msg = Data(f: Frame) | Final(end: End)

  datatype Stage = Reading | InHand(data: bytes) | Credited(data: bytes) | Stopped

  /** The worker: its read loop's stage, its read-send credit, and every data frame it ever sent. */
  datatype Worker = Worker(stage: Stage, credit: nat, sent: seq<Frame>)

  datatype Loop = Waiting | Woken | Sending(grant: nat) | Ended

  /** readCredit: frames consumed but not granted, the one-slot signal, and where the loop stands. */
  datatype Granter = Granter(pending: nat, signal: bool, loop: Loop)
  {
    /** The locked section of consume; the caller must poke the loop when a batch has accrued. */
    function Accrue(frames: nat): Granter
    {
      this.(pending := pending + frames)
    }

    predicate Ready()
    {
      pending >= READ_CREDIT_BATCH
    }

    function Poke(): Granter
    {
      this.(signal := true)
    }

    /** The loop's locked section: the whole of pending becomes one grant, unless there is none. */
    function Take(): Granter
    {
      this.(pending := 0, loop := if pending > 0 then Sending(pending) else Waiting)
    }
  }

  /** onStreamMessage, between its closed/terminal check and its effect. */
  datatype Dispatcher = Idle | Checked(msg: Msg)

  /** Where the holder of readMu stands in Read. */
  datatype Pc = Free | AtTop(n: nat) | PollBuf(n: nat) | PollTerminal(n: nat) | Parked(n: nat) | MustAccrue | MustPoke

  datatype Reader = Reader(pc: Pc, part: bytes, returned: bytes)

  datatype State = State(w: Worker, g: Granter, r: Reader, d: Dispatcher, transit: seq<Msg>, grants: seq<nat>,
                         readBuf: seq<Frame>, log: seq<Frame>, terminal: Option<End>, closed: bool, dead: bool,
                         lost: nat, dropped: bool, skipped: bool)

  const START: State := State(Worker(Reading, INITIAL_READ_WINDOW, []), Granter(0, false, Waiting), Reader(Free, [], []), Idle,
                              [], [], [], [], None, false, false, 0, false, false)

  /** The worker's read loop and its credit window. */
  datatype WorkerStep =
    | TargetRead(data: bytes) | Acquire | SendData | SendDataFails | SendEnd(end: End) | Stop | ApplyGrant(k: nat) | IgnoreGrant(k: nat)

  /** The conn's stream dispatcher, running onStreamMessage. */
  datatype DispatchStep = Deliver | Enqueue | AbandonFrame | LatchOversize | LatchEnd

  /** The caller of Read. */
  datatype ReadStep =
    | BeginRead(n: nat) | TopCheck | TryBuf | TryTerminal | Expire | TakeParked | WakeTerminal | WakeClosed | WakeDead
    | WakeDeadline | TimeOut | AccrueCredit | PokeLoop

  /** The goroutine that sends the grants. */
  datatype LoopStep = Wake | TakeGrant | SendGrant | GrantFails(kills: bool) | LoopEnds

  datatype Action = ByWorker(w: WorkerStep) | ByDispatcher(d: DispatchStep) | ByReader(r: ReadStep) | ByLoop(l: LoopStep) | Close | ChannelDies

  predicate WorkerMay(s: State, a: WorkerStep)
  {
    match a
    case TargetRead(data) => s.w.stage.Reading? && 0 < |data| <= MAX_CHUNK_BYTES
    case Acquire => s.w.stage.InHand? && s.w.credit > 0
    case SendData => s.w.stage.Credited?
    case SendDataFails => s.w.stage.Credited?
    case SendEnd(e) => s.w.stage.Reading? && !e.UnexpectedEof?
    case Stop => true
    case ApplyGrant(k) => k < |s.grants|
    case IgnoreGrant(k) => k < |s.grants| && s.w.stage.Stopped?
  }

  predicate DispatcherMay(s: State, a: DispatchStep)
  {
    match a
    case Deliver => s.d.Idle? && s.transit != []
    case Enqueue => s.d.Checked? && s.d.msg.Data? && |s.d.msg.f.data| <= MAX_CHUNK_BYTES && |s.readBuf| < READ_BUF_FRAMES
    case AbandonFrame => s.d.Checked? && s.d.msg.Data? && |s.d.msg.f.data| <= MAX_CHUNK_BYTES && (s.closed || s.dead)
    case LatchOversize => s.d.Checked? && s.d.msg.Data? && |s.d.msg.f.data| > MAX_CHUNK_BYTES
    case LatchEnd => s.d.Checked? && s.d.msg.Final?
  }

  predicate ReaderMay(s: State, a: ReadStep)
  {
    match a
    case BeginRead(n) => s.r.pc.Free? && n > 0
    case TopCheck => s.r.pc.AtTop?
    case TryBuf => s.r.pc.PollBuf?
    case TryTerminal => s.r.pc.PollTerminal?
    case Expire => s.r.pc.PollTerminal? && s.terminal.None?
    case TakeParked => s.r.pc.Parked? && s.readBuf != []
    case WakeTerminal => s.r.pc.Parked? && s.terminal.Some?
    case WakeClosed => s.r.pc.Parked? && s.closed
    case WakeDead => s.r.pc.Parked? && s.dead
    case WakeDeadline => s.r.pc.Parked?
    case TimeOut => s.r.pc.Parked?
    case AccrueCredit => s.r.pc.MustAccrue?
    case PokeLoop => s.r.pc.MustPoke?
  }

  predicate LoopMay(s: State, a: LoopStep)
  {
    match a
    case Wake => s.g.loop.Waiting? && s.g.signal
    case TakeGrant => s.g.loop.Woken?
    case SendGrant => s.g.loop.Sending? && !s.dead
    case GrantFails(kills) => s.g.loop.Sending? && (s.closed || s.dead || kills)
    case LoopEnds => s.g.loop.Waiting? && (s.closed || s.dead)
  }

  predicate Enabled(s: State, a: Action)
  {
    match a
    case ByWorker(w) => WorkerMay(s, w)
    case ByDispatcher(d) => DispatcherMay(s, d)
    case ByReader(r) => ReaderMay(s, r)
    case ByLoop(l) => LoopMay(s, l)
    case Close => true
    case ChannelDies => true
  }

  /** creditWindow.add: a grant is clamped to the window the conn started with. */
  function Clamp(credit: nat, grant: nat): (r: nat)
    ensures r <= INITIAL_READ_WINDOW && r <= credit + grant
    ensures r == credit + grant || r == INITIAL_READ_WINDOW
  {
    if credit + grant > INITIAL_READ_WINDOW then INITIAL_READ_WINDOW else credit + grant
  }

  /** latchedErr.Set: the first end sticks. */
  function Latch(t: Option<End>, e: End): Option<End>
  {
    if t.Some? then t else Some(e)
  }

  function Weight(m: Msg): nat
  {
    if m.Data? then 1 else 0
  }

  function Move(s: State, pc: Pc): State
  {
    s.(r := s.r.(pc := pc))
  }

  function Min(a: nat, b: nat): nat
  {
    if a < b then a else b
  }

  /** Up to n bytes of readPart reach the caller. */
  function ReadPart(r: Reader, n: nat): Reader
  {
    var k := Min(n, |r.part|);
    Reader(Free, r.part[k..], r.returned + r.part[..k])
  }

  /** consumeFrame up to its credit call: the head of readBuf is copied out, a remainder is parked in readPart. */
  function Dequeue(s: State, n: nat): State
    requires s.readBuf != []
  {
    var data := s.readBuf[0].data;
    var k := Min(n, |data|);
    s.(r := Reader(MustAccrue, if k < |data| then data[k..] else s.r.part, s.r.returned + data[..k]), readBuf := s.readBuf[1..])
  }

  function WorkerDoes(s: State, a: WorkerStep): State
    requires WorkerMay(s, a)
  {
    var w := s.w;
    match a
    case TargetRead(data) => s.(w := w.(stage := InHand(data)))
    case Acquire => s.(w := w.(stage := Credited(w.stage.data), credit := w.credit - 1))
    case SendData =>
      var f := Frame(|w.sent|, w.stage.data);
      s.(w := w.(stage := Reading, sent := w.sent + [f]), transit := s.transit + [Data(f)])
    case SendDataFails => s.(w := w.(stage := Stopped), lost := s.lost + 1)
    case SendEnd(e) => s.(w := w.(stage := Stopped), transit := s.transit + [Final(e)])
    case Stop => s.(w := w.(stage := Stopped), lost := s.lost + (if w.stage.Credited? then 1 else 0))
    case ApplyGrant(k) => s.(w := w.(credit := Clamp(w.credit, s.grants[k])), grants := s.grants[..k] + s.grants[k + 1..])
    case IgnoreGrant(k) => s.(lost := s.lost + s.grants[k], grants := s.grants[..k] + s.grants[k + 1..])
  }

  function DispatcherDoes(s: State, a: DispatchStep): State
    requires DispatcherMay(s, a)
  {
    match a
    case Deliver =>
      if s.closed || s.terminal.Some?
      then s.(transit := s.transit[1..], lost := s.lost + Weight(s.transit[0]), dropped := s.dropped || s.transit[0].Data?)
      else s.(transit := s.transit[1..], d := Checked(s.transit[0]))
    case Enqueue => s.(d := Idle, readBuf := s.readBuf + [s.d.msg.f], log := s.log + [s.d.msg.f], skipped := s.skipped || s.dropped)
    case AbandonFrame => s.(d := Idle, lost := s.lost + 1, dropped := true)
    case LatchOversize => s.(d := Idle, lost := s.lost + 1, dropped := true, terminal := Latch(s.terminal, StreamError))
    case LatchEnd => s.(d := Idle, terminal := Latch(s.terminal, s.d.msg.end))
  }

  function ReaderDoes(s: State, a: ReadStep): State
    requires ReaderMay(s, a)
  {
    var r := s.r;
    match a
    case BeginRead(n) => Move(s, AtTop(n))
    case TopCheck =>
      if s.closed then Move(s, Free)
      else if |r.part| > 0 then s.(r := ReadPart(r, r.pc.n))
      else Move(s, PollBuf(r.pc.n))
    case TryBuf => if s.readBuf != [] then Dequeue(s, r.pc.n) else Move(s, PollTerminal(r.pc.n))
    case TryTerminal => Move(s, if s.terminal.Some? then Free else Parked(r.pc.n))
    case Expire => Move(s, Free)
    case TakeParked => Dequeue(s, r.pc.n)
    case WakeTerminal => Move(s, AtTop(r.pc.n))
    case WakeClosed => Move(s, Free)
    case WakeDead => Move(s.(terminal := Latch(s.terminal, UnexpectedEof)), AtTop(r.pc.n))
    case WakeDeadline => Move(s, AtTop(r.pc.n))
    case TimeOut => Move(s, Free)
    case AccrueCredit => Move(s.(g := s.g.Accrue(1)), if s.g.Accrue(1).Ready() then MustPoke else Free)
    case PokeLoop => Move(s.(g := s.g.Poke()), Free)
  }

  function LoopDoes(s: State, a: LoopStep): State
    requires LoopMay(s, a)
  {
    var g := s.g;
    match a
    case Wake => s.(g := g.(signal := false, loop := Woken))
    case TakeGrant => s.(g := g.Take())
    case SendGrant => s.(g := g.(loop := Waiting), grants := s.grants + [g.loop.grant])
    case GrantFails(kills) => s.(g := g.(loop := Waiting), lost := s.lost + g.loop.grant, dead := s.dead || kills)
    case LoopEnds => s.(g := g.(loop := Ended))
  }

  function Next(s: State, a: Action): State
    requires Enabled(s, a)
  {
    match a
    case ByWorker(w) => WorkerDoes(s, w)
    case ByDispatcher(d) => DispatcherDoes(s, d)
    case ByReader(r) => ReaderDoes(s, r)
    case ByLoop(l) => LoopDoes(s, l)
    case Close => s.(closed := true)
    case ChannelDies => s.(dead := true)
  }

  // ----- What each goroutine leaves alone -----

  lemma WorkerFrame(s: State, a: WorkerStep)
    requires WorkerMay(s, a)
    ensures var t := WorkerDoes(s, a);
            && t == s.(w := t.w, transit := t.transit, grants := t.grants, lost := t.lost)
            && (s.w.stage.Stopped? ==> t.w.stage.Stopped? && t.transit == s.transit && t.w.sent == s.w.sent)
  {
  }

  lemma DispatcherFrame(s: State, a: DispatchStep)
    requires DispatcherMay(s, a)
    ensures var t := DispatcherDoes(s, a);
            && t.w == s.w && t.g == s.g && t.r == s.r && t.grants == s.grants && t.closed == s.closed && t.dead == s.dead
            && (a != Enqueue ==> t.log == s.log && t.readBuf == s.readBuf && t.skipped == s.skipped)
  {
  }

  lemma ReaderFrame(s: State, a: ReadStep)
    requires ReaderMay(s, a)
    ensures var t := ReaderDoes(s, a);
            t == s.(g := t.g, r := t.r, readBuf := t.readBuf, terminal := if a.WakeDead? then Latch(s.terminal, UnexpectedEof) else s.terminal)
  {
  }

  lemma LoopFrame(s: State, a: LoopStep)
    requires LoopMay(s, a)
    ensures var t := LoopDoes(s, a);
            t == s.(g := t.g, grants := t.grants, lost := t.lost, dead := t.dead) && (s.dead ==> t.dead)
  {
  }

  // ----- Credit conservation -----

  function Total(grants: seq<nat>): nat
  {
    if grants == [] then 0 else grants[0] + Total(grants[1..])
  }

  lemma {:induction false} TotalAppend(a: seq<nat>, b: seq<nat>)
    ensures Total(a + b) == Total(a) + Total(b)
  {
    if a == [] {
      assert a + b == b;
    } else {
      assert (a + b)[1..] == a[1..] + b;
      TotalAppend(a[1..], b);
    }
  }

  lemma TotalRemove(a: seq<nat>, k: nat)
    requires k < |a|
    ensures Total(a) == a[k] + Total(a[..k] + a[k + 1..])
  {
    assert a == a[..k] + a[k..] && a[k..][1..] == a[k + 1..];
    TotalAppend(a[..k], a[k..]);
    TotalAppend(a[..k], a[k + 1..]);
  }

  /** The data frames among the messages, in order. */
  function DataOf(msgs: seq<Msg>): seq<Frame>
  {
    if msgs == [] then [] else (if msgs[0].Data? then [msgs[0].f] else []) + DataOf(msgs[1..])
  }

  lemma {:induction false} DataOfSnoc(msgs: seq<Msg>, m: Msg)
    ensures DataOf(msgs + [m]) == DataOf(msgs) + DataOf([m])
    ensures DataOf([m]) == if m.Data? then [m.f] else []
  {
    assert [m][1..] == [];
    if msgs == [] {
      assert msgs + [m] == [m];
    } else {
      var all, rest := msgs + [m], msgs[1..];
      assert all[0] == msgs[0] && all[1..] == rest + [m];
      DataOfSnoc(rest, m);
      var head := if msgs[0].Data? then [msgs[0].f] else [];
      assert head + (DataOf(rest) + DataOf([m])) == (head + DataOf(rest)) + DataOf([m]);
    }
  }

  function Held(d: Dispatcher): seq<Frame>
  {
    if d.Checked? && d.msg.Data? then [d.msg.f] else []
  }

  /** Data frames that have left the worker but not reached readBuf. */
  function Rest(s: State): seq<Frame>
  {
    Held(s.d) + DataOf(s.transit)
  }

  /** Every place one unit of the window can be. */
  function Accounted(s: State): nat
  {
    s.w.credit + (if s.w.stage.Credited? then 1 else 0) + |Rest(s)| + |s.readBuf|
    + (if s.r.pc.MustAccrue? then 1 else 0) + s.g.pending + (if s.g.loop.Sending? then s.g.loop.grant else 0) + Total(s.grants)
  }

  /** Nothing has ended the download direction. */
  predicate Open(s: State)
  {
    !s.closed && !s.dead && s.terminal.None? && !s.w.stage.Stopped?
  }

  predicate CreditInv(s: State)
  {
    Accounted(s) + s.lost == INITIAL_READ_WINDOW && (Open(s) ==> s.lost == 0)
  }

  lemma WorkerMoves(s: State, a: WorkerStep)
    requires WorkerMay(s, a)
    ensures Rest(WorkerDoes(s, a)) == Rest(s) + (if a.SendData? then [Frame(|s.w.sent|, s.w.stage.data)] else [])
  {
    if a.SendData? {
      DataOfSnoc(s.transit, Data(Frame(|s.w.sent|, s.w.stage.data)));
    } else if a.SendEnd? {
      DataOfSnoc(s.transit, Final(a.end));
    } else {
      assert WorkerDoes(s, a).transit == s.transit;
    }
  }

  lemma DeliverMoves(s: State)
    requires DispatcherMay(s, Deliver)
    ensures var t := DispatcherDoes(s, Deliver);
            if Drops(s, Deliver) then Rest(s) != [] && Rest(t) == Rest(s)[1..] else Rest(t) == Rest(s)
  {
    assert Rest(s) == DataOf(s.transit);
  }

  /** The dispatcher enqueues the oldest frame, drops it, or moves no frame at all. */
  lemma DispatcherMoves(s: State, a: DispatchStep)
    requires DispatcherMay(s, a)
    ensures var t := DispatcherDoes(s, a);
            if a.Enqueue? then Rest(s) == [s.d.msg.f] + Rest(t) && t.lost == s.lost
            else if Drops(s, a) then Rest(s) != [] && Rest(t) == Rest(s)[1..] && t.lost == s.lost + 1 && t.dropped
            else Rest(t) == Rest(s) && t.lost == s.lost && t.dropped == s.dropped
  {
    if a.Deliver? {
      DeliverMoves(s);
    } else {
      assert s.d.msg.Data? ==> Rest(s)[0] == s.d.msg.f && Rest(s)[1..] == DataOf(s.transit);
    }
  }

  predicate Drops(s: State, a: DispatchStep)
  {
    a.AbandonFrame? || a.LatchOversize? || (a.Deliver? && s.transit != [] && s.transit[0].Data? && (s.closed || s.terminal.Some?))
  }

  lemma WorkerKeepsCredit(s: State, a: WorkerStep)
    requires CreditInv(s) && WorkerMay(s, a)
    ensures CreditInv(WorkerDoes(s, a))
  {
    WorkerMoves(s, a);
    if a.ApplyGrant? || a.IgnoreGrant? {
      TotalRemove(s.grants, a.k);
    }
  }

  lemma LoopKeepsCredit(s: State, a: LoopStep)
    requires CreditInv(s) && LoopMay(s, a)
    ensures CreditInv(LoopDoes(s, a))
  {
    if a.SendGrant? {
      TotalAppend(s.grants, [s.g.loop.grant]);
    }
  }

  lemma DispatcherKeepsCredit(s: State, a: DispatchStep)
    requires CreditInv(s) && DispatcherMay(s, a)
    ensures CreditInv(DispatcherDoes(s, a))
  {
    DispatcherMoves(s, a);
    DispatcherFrame(s, a);
  }

  lemma ReaderKeepsCredit(s: State, a: ReadStep)
    requires CreditInv(s) && ReaderMay(s, a)
    ensures CreditInv(ReaderDoes(s, a))
  {
    ReaderFrame(s, a);
    assert Rest(ReaderDoes(s, a)) == Rest(s);
  }

  // ----- No lost wakeup -----

  predicate WakeInv(s: State)
  {
    && (s.g.Ready() ==> s.g.signal || s.r.pc.MustPoke? || s.g.loop.Woken? || s.g.loop.Ended?)
    && (s.g.loop.Ended? ==> s.closed || s.dead)
    && (s.r.pc.AtTop? || s.r.pc.PollBuf? || s.r.pc.PollTerminal? || s.r.pc.Parked? ==> s.r.pc.n > 0)
  }

  lemma ReaderKeepsWake(s: State, a: ReadStep)
    requires WakeInv(s) && ReaderMay(s, a)
    ensures WakeInv(ReaderDoes(s, a))
  {
  }

  lemma LoopKeepsWake(s: State, a: LoopStep)
    requires WakeInv(s) && LoopMay(s, a)
    ensures WakeInv(LoopDoes(s, a))
  {
  }

  // ----- Bytes -----

  function Payload(frames: seq<Frame>): bytes
  {
    if frames == [] then [] else Payload(frames[..|frames| - 1]) + frames[|frames| - 1].data
  }

  function Read(s: State): seq<Frame>
    requires |s.readBuf| <= |s.log|
  {
    s.log[..|s.log| - |s.readBuf|]
  }

  /** readBuf is the tail of what was enqueued; what Read returned, then readPart, is the rest. */
  ghost predicate BytesInv(s: State)
  {
    && |s.readBuf| <= |s.log|
    && s.readBuf == s.log[|s.log| - |s.readBuf|..]
    && s.r.returned + s.r.part == Payload(Read(s))
    && (s.r.pc.PollBuf? || s.r.pc.PollTerminal? || s.r.pc.Parked? ==> s.r.part == [])
  }

  lemma DequeueKeepsBytes(s: State, n: nat)
    requires BytesInv(s) && s.readBuf != [] && s.r.part == []
    ensures BytesInv(Dequeue(s, n))
  {
    var k, t := |s.log| - |s.readBuf|, Dequeue(s, n);
    assert Read(t) == s.log[..k + 1] && s.log[..k + 1][..k] == s.log[..k] && s.readBuf[0] == s.log[k];
    assert t.readBuf == s.log[k..][1..] == s.log[k + 1..];
    var data, m := s.readBuf[0].data, Min(n, |s.readBuf[0].data|);
    assert s.r.returned + [] == s.r.returned;
    assert (s.r.returned + data[..m]) + data[m..] == s.r.returned + data;
  }

  lemma EnqueueKeepsBytes(s: State)
    requires BytesInv(s) && DispatcherMay(s, Enqueue)
    ensures BytesInv(DispatcherDoes(s, Enqueue))
  {
    var t := DispatcherDoes(s, Enqueue);
    var k := |s.log| - |s.readBuf|;
    assert Read(t) == Read(s);
    assert t.log[k..] == s.log[k..] + [s.d.msg.f];
  }

  lemma SameBytes(s: State, t: State)
    requires BytesInv(s) && t.log == s.log && t.readBuf == s.readBuf && t.r == s.r
    ensures BytesInv(t)
  {
  }

  lemma PartAddsUp(r: Reader, n: nat)
    ensures ReadPart(r, n).returned + ReadPart(r, n).part == r.returned + r.part
  {
    var k := Min(n, |r.part|);
    assert r.part == r.part[..k] + r.part[k..];
  }

  /** Moving bytes from readPart to the caller, or moving on inside Read, keeps the account. */
  lemma MovedBytes(s: State, t: State)
    requires BytesInv(s) && t.log == s.log && t.readBuf == s.readBuf && t.r.returned + t.r.part == s.r.returned + s.r.part
    requires t.r.pc.PollBuf? || t.r.pc.PollTerminal? || t.r.pc.Parked? ==> t.r.part == []
    ensures BytesInv(t)
  {
    assert Read(t) == Read(s);
  }

  lemma PartKeepsBytes(s: State)
    requires BytesInv(s) && ReaderMay(s, TopCheck)
    ensures BytesInv(ReaderDoes(s, TopCheck))
  {
    PartAddsUp(s.r, s.r.pc.n);
    MovedBytes(s, ReaderDoes(s, TopCheck));
  }

  lemma MoveKeepsBytes(s: State, a: ReadStep)
    requires BytesInv(s) && ReaderMay(s, a) && !a.TopCheck? && !a.TakeParked? && !(a.TryBuf? && s.readBuf != [])
    ensures BytesInv(ReaderDoes(s, a))
  {
    var t := ReaderDoes(s, a);
    assert t.log == s.log && t.readBuf == s.readBuf && t.r.part == s.r.part && t.r.returned == s.r.returned;
    MovedBytes(s, t);
  }

  lemma ReaderKeepsBytes(s: State, a: ReadStep)
    requires BytesInv(s) && ReaderMay(s, a)
    ensures BytesInv(ReaderDoes(s, a))
  {
    if a.TakeParked? || (a.TryBuf? && s.readBuf != []) {
      DequeueKeepsBytes(s, s.r.pc.n);
    } else if a.TopCheck? {
      PartKeepsBytes(s);
    } else {
      MoveKeepsBytes(s, a);
    }
  }

  lemma DispatcherKeepsBytes(s: State, a: DispatchStep)
    requires BytesInv(s) && DispatcherMay(s, a)
    ensures BytesInv(DispatcherDoes(s, a))
  {
    if a.Enqueue? {
      EnqueueKeepsBytes(s);
    } else {
      DispatcherFrame(s, a);
      SameBytes(s, DispatcherDoes(s, a));
    }
  }

  // ----- Order -----

  /** Sent frames are numbered 0, 1, 2, ...; until one is dropped, none is missing, repeated or out of place. */
  ghost predicate InOrder(sent: seq<Frame>, log: seq<Frame>, rest: seq<Frame>, dropped: bool, skipped: bool)
  {
    && (forall i :: 0 <= i < |sent| ==> sent[i].num == i)
    && (!dropped ==> log + rest == sent)
    && (!skipped ==> log <= sent)
  }

  /** A frame enqueued after another was dropped does not have the number its position calls for. */
  ghost predicate Gapped(sent: seq<Frame>, log: seq<Frame>, rest: seq<Frame>, dropped: bool, skipped: bool)
  {
    && (forall i, j :: 0 <= i < j < |rest| ==> rest[i].num < rest[j].num)
    && (forall i :: 0 <= i < |rest| ==> rest[i].num < |sent|)
    && (!skipped ==> (dropped ==> |log| < |sent|) && forall i :: 0 <= i < |rest| ==> rest[i].num >= |log| + (if dropped then 1 else 0))
    && (skipped ==> exists i :: 0 <= i < |log| && log[i].num != i)
  }

  ghost predicate FlowInv(s: State)
  {
    && InOrder(s.w.sent, s.log, Rest(s), s.dropped, s.skipped)
    && Gapped(s.w.sent, s.log, Rest(s), s.dropped, s.skipped)
  }

  /** Frames are only ever dropped by a conn that is going away, and only a dead channel lets one through afterwards. */
  predicate DropInv(s: State)
  {
    && (s.dropped ==> s.closed || s.dead || s.terminal.Some?)
    && (s.dropped && !s.dead ==> s.d.Idle?)
    && (s.skipped ==> s.dropped && s.dead)
  }

  /** The worker's end-of-stream is the last message it sends. */
  predicate EndInv(s: State)
  {
    && (forall i :: 0 <= i < |s.transit| && s.transit[i].Final? ==> i == |s.transit| - 1 && s.w.stage.Stopped?)
    && (s.d.Checked? && s.d.msg.Final? ==> s.transit == [] && s.w.stage.Stopped?)
    && (s.terminal == Some(Eof) ==> s.transit == [] && s.d.Idle? && s.w.stage.Stopped? && (s.dropped ==> s.dead))
  }

  lemma SendKeepsFlow(sent: seq<Frame>, log: seq<Frame>, rest: seq<Frame>, dropped: bool, skipped: bool, f: Frame)
    requires InOrder(sent, log, rest, dropped, skipped) && Gapped(sent, log, rest, dropped, skipped) && f.num == |sent|
    ensures InOrder(sent + [f], log, rest + [f], dropped, skipped) && Gapped(sent + [f], log, rest + [f], dropped, skipped)
  {
    assert log + (rest + [f]) == log + rest + [f];
  }

  lemma EnqueueKeepsOrder(sent: seq<Frame>, log: seq<Frame>, rest: seq<Frame>, dropped: bool, skipped: bool, f: Frame)
    requires InOrder(sent, log, [f] + rest, dropped, skipped)
    ensures InOrder(sent, log + [f], rest, dropped, skipped || dropped)
  {
    assert log + [f] + rest == log + ([f] + rest);
  }

  lemma EnqueueKeepsGap(sent: seq<Frame>, log: seq<Frame>, rest: seq<Frame>, dropped: bool, skipped: bool)
    requires Gapped(sent, log, rest, dropped, skipped) && rest != []
    ensures Gapped(sent, log + [rest[0]], rest[1..], dropped, skipped || dropped)
  {
    var longer := log + [rest[0]];
    assert forall i :: 0 < i < |rest| ==> rest[0].num < rest[i].num;
    if skipped {
      var i :| 0 <= i < |log| && log[i].num != i;
      assert longer[i].num != i;
    } else if dropped {
      assert rest[0].num > |log|;
      assert longer[|log|].num != |log|;
    }
  }

  lemma DropKeepsFlow(sent: seq<Frame>, log: seq<Frame>, rest: seq<Frame>, dropped: bool, skipped: bool)
    requires InOrder(sent, log, rest, dropped, skipped) && Gapped(sent, log, rest, dropped, skipped) && rest != []
    ensures InOrder(sent, log, rest[1..], true, skipped) && Gapped(sent, log, rest[1..], true, skipped)
  {
    assert rest[0].num < |sent|;
    assert forall i :: 1 <= i < |rest| ==> rest[0].num < rest[i].num;
  }

  lemma WorkerKeepsFlow(s: State, a: WorkerStep)
    requires FlowInv(s) && WorkerMay(s, a)
    ensures FlowInv(WorkerDoes(s, a))
  {
    WorkerMoves(s, a);
    WorkerFrame(s, a);
    if a.SendData? {
      SendKeepsFlow(s.w.sent, s.log, Rest(s), s.dropped, s.skipped, Frame(|s.w.sent|, s.w.stage.data));
    } else {
      assert WorkerDoes(s, a).w.sent == s.w.sent && Rest(s) + [] == Rest(s);
    }
  }

  lemma DispatcherKeepsFlow(s: State, a: DispatchStep)
    requires FlowInv(s) && DispatcherMay(s, a)
    ensures FlowInv(DispatcherDoes(s, a))
  {
    DispatcherMoves(s, a);
    DispatcherFrame(s, a);
    if a.Enqueue? {
      var rest := Rest(DispatcherDoes(s, a));
      EnqueueKeepsOrder(s.w.sent, s.log, rest, s.dropped, s.skipped, s.d.msg.f);
      EnqueueKeepsGap(s.w.sent, s.log, Rest(s), s.dropped, s.skipped);
      assert Rest(s)[0] == s.d.msg.f && Rest(s)[1..] == rest;
    } else if Drops(s, a) {
      DropKeepsFlow(s.w.sent, s.log, Rest(s), s.dropped, s.skipped);
    }
  }

  lemma WorkerKeepsEnd(s: State, a: WorkerStep)
    requires EndInv(s) && WorkerMay(s, a)
    ensures EndInv(WorkerDoes(s, a))
  {
    WorkerFrame(s, a);
  }

  lemma DispatcherKeepsEnd(s: State, a: DispatchStep)
    requires DropInv(s) && EndInv(s) && DispatcherMay(s, a)
    ensures DropInv(DispatcherDoes(s, a)) && EndInv(DispatcherDoes(s, a))
  {
  }

  // ----- Sizes -----

  predicate Fits(m: Msg)
  {
    m.Data? ==> 0 < |m.f.data| <= MAX_CHUNK_BYTES
  }

  ghost predicate SizeInv(s: State)
  {
    && (s.w.stage.InHand? || s.w.stage.Credited? ==> 0 < |s.w.stage.data| <= MAX_CHUNK_BYTES)
    && (forall i :: 0 <= i < |s.transit| ==> Fits(s.transit[i]))
    && (s.d.Checked? ==> Fits(s.d.msg))
    && (forall i :: 0 <= i < |s.log| ==> 0 < |s.log[i].data| <= MAX_CHUNK_BYTES)
  }

  lemma WorkerKeepsSize(s: State, a: WorkerStep)
    requires SizeInv(s) && WorkerMay(s, a)
    ensures SizeInv(WorkerDoes(s, a))
  {
  }

  lemma DispatcherKeepsSize(s: State, a: DispatchStep)
    requires SizeInv(s) && DispatcherMay(s, a)
    ensures SizeInv(DispatcherDoes(s, a))
  {
  }

  // ----- Over every run -----

  ghost predicate Inv(s: State)
  {
    CreditInv(s) && WakeInv(s) && BytesInv(s) && FlowInv(s) && DropInv(s) && EndInv(s) && SizeInv(s)
  }

  lemma KeepsCredit(s: State, a: Action)
    requires CreditInv(s) && Enabled(s, a)
    ensures CreditInv(Next(s, a))
  {
    match a
    case ByWorker(w) => WorkerKeepsCredit(s, w);
    case ByDispatcher(d) => DispatcherKeepsCredit(s, d);
    case ByReader(r) => ReaderKeepsCredit(s, r);
    case ByLoop(l) => LoopKeepsCredit(s, l);
    case Close =>
    case ChannelDies =>
  }

  lemma KeepsWake(s: State, a: Action)
    requires WakeInv(s) && Enabled(s, a)
    ensures WakeInv(Next(s, a))
  {
    match a
    case ByWorker(w) => WorkerFrame(s, w);
    case ByDispatcher(d) => DispatcherFrame(s, d);
    case ByReader(r) => ReaderKeepsWake(s, r);
    case ByLoop(l) => LoopKeepsWake(s, l);
    case Close =>
    case ChannelDies =>
  }

  lemma KeepsBytes(s: State, a: Action)
    requires BytesInv(s) && Enabled(s, a)
    ensures BytesInv(Next(s, a))
  {
    match a
    case ByWorker(w) =>
      WorkerFrame(s, w);
      SameBytes(s, WorkerDoes(s, w));
    case ByDispatcher(d) => DispatcherKeepsBytes(s, d);
    case ByReader(r) => ReaderKeepsBytes(s, r);
    case ByLoop(l) =>
      LoopFrame(s, l);
      SameBytes(s, LoopDoes(s, l));
    case Close =>
    case ChannelDies =>
  }

  lemma KeepsFlow(s: State, a: Action)
    requires FlowInv(s) && Enabled(s, a)
    ensures FlowInv(Next(s, a))
  {
    match a
    case ByWorker(w) => WorkerKeepsFlow(s, w);
    case ByDispatcher(d) => DispatcherKeepsFlow(s, d);
    case ByReader(r) => ReaderFrame(s, r);
    case ByLoop(l) => LoopFrame(s, l);
    case Close =>
    case ChannelDies =>
  }

  lemma KeepsEnd(s: State, a: Action)
    requires DropInv(s) && EndInv(s) && Enabled(s, a)
    ensures DropInv(Next(s, a)) && EndInv(Next(s, a))
  {
    match a
    case ByWorker(w) =>
      WorkerKeepsEnd(s, w);
      WorkerFrame(s, w);
    case ByDispatcher(d) => DispatcherKeepsEnd(s, d);
    case ByReader(r) => ReaderFrame(s, r);
    case ByLoop(l) => LoopFrame(s, l);
    case Close =>
    case ChannelDies =>
  }

  lemma KeepsSize(s: State, a: Action)
    requires SizeInv(s) && Enabled(s, a)
    ensures SizeInv(Next(s, a))
  {
    match a
    case ByWorker(w) => WorkerKeepsSize(s, w);
    case ByDispatcher(d) => DispatcherKeepsSize(s, d);
    case ByReader(r) => ReaderFrame(s, r);
    case ByLoop(l) => LoopFrame(s, l);
    case Close =>
    case ChannelDies =>
  }

  lemma NextKeepsInv(s: State, a: Action)
    requires Inv(s) && Enabled(s, a)
    ensures Inv(Next(s, a))
  {
    KeepsCredit(s, a);
    KeepsWake(s, a);
    KeepsBytes(s, a);
    KeepsFlow(s, a);
    KeepsEnd(s, a);
    KeepsSize(s, a);
  }

  ghost predicate ValidRun(s: State, acts: seq<Action>)
    decreases |acts|
  {
    acts == [] || (Enabled(s, acts[0]) && ValidRun(Next(s, acts[0]), acts[1..]))
  }

  ghost function After(s: State, acts: seq<Action>): State
    requires ValidRun(s, acts)
    decreases |acts|
  {
    if acts == [] then s else After(Next(s, acts[0]), acts[1..])
  }

  lemma {:induction false} RunKeepsInv(s: State, acts: seq<Action>)
    requires Inv(s) && ValidRun(s, acts)
    ensures Inv(After(s, acts))
    decreases |acts|
  {
    if acts != [] {
      NextKeepsInv(s, acts[0]);
      RunKeepsInv(Next(s, acts[0]), acts[1..]);
    }
  }

  /** Some run leads to s. */
  ghost predicate Reached(s: State)
  {
    exists acts :: ValidRun(START, acts) && After(START, acts) == s
  }

  lemma ReachedInv(s: State)
    requires Reached(s)
    ensures Inv(s)
  {
    var acts :| ValidRun(START, acts) && After(START, acts) == s;
    Reachable(acts);
  }

  lemma ReachedNext(s: State, a: Action)
    requires Reached(s) && Enabled(s, a)
    ensures Reached(Next(s, a))
  {
    var acts :| ValidRun(START, acts) && After(START, acts) == s;
    RunSnoc(START, acts, a);
  }

  lemma Reachable(acts: seq<Action>)
    requires ValidRun(START, acts)
    ensures Inv(After(START, acts))
  {
    assert Inv(START);
    RunKeepsInv(START, acts);
  }

  lemma TotalBounds(grants: seq<nat>, k: nat)
    requires k < |grants|
    ensures grants[k] <= Total(grants)
  {
    TotalRemove(grants, k);
  }

  lemma {:induction false} PayloadBound(frames: seq<Frame>)
    requires forall i :: 0 <= i < |frames| ==> |frames[i].data| <= MAX_CHUNK_BYTES
    ensures |Payload(frames)| <= |frames| * MAX_CHUNK_BYTES
  {
    if frames != [] {
      PayloadBound(frames[..|frames| - 1]);
    }
  }

  /** The units of the window, and what follows from counting them. */
  ghost predicate CreditFacts(t: State)
  {
    && Accounted(t) + t.lost == INITIAL_READ_WINDOW
    && (Open(t) ==> Accounted(t) == INITIAL_READ_WINDOW)
    && |Payload(t.readBuf)| <= INITIAL_READ_WINDOW * MAX_CHUNK_BYTES
    && (t.d.Checked? && t.d.msg.Data? ==> DispatcherMay(t, Enqueue) && !DispatcherMay(t, LatchOversize))
    && (forall k :: 0 <= k < |t.grants| ==> Clamp(t.w.credit, t.grants[k]) == t.w.credit + t.grants[k])
  }

  lemma InvGivesCreditFacts(t: State)
    requires CreditInv(t) && BytesInv(t) && SizeInv(t)
    ensures CreditFacts(t)
  {
    BufferIsBounded(t);
    ClampNeverBites(t);
  }

  /**
   * Read credit is conserved. In every reachable state each of the 128 units is somewhere or was lost
   * with an ending conn; while the conn is open none is lost. So readBuf never holds more than 128
   * frames (4 MiB), enqueueing never waits for space, the worker's clamp never bites, and the chunk
   * bound never trips.
   */
  lemma CreditConserved(acts: seq<Action>)
    requires ValidRun(START, acts)
    ensures CreditFacts(After(START, acts))
  {
    Reachable(acts);
    InvGivesCreditFacts(After(START, acts));
  }

  lemma BufferIsBounded(t: State)
    requires CreditInv(t) && BytesInv(t) && SizeInv(t)
    ensures |Payload(t.readBuf)| <= INITIAL_READ_WINDOW * MAX_CHUNK_BYTES
    ensures t.d.Checked? && t.d.msg.Data? ==> DispatcherMay(t, Enqueue) && !DispatcherMay(t, LatchOversize)
  {
    PayloadBound(t.readBuf);
    assert |t.readBuf| <= INITIAL_READ_WINDOW;
    assert t.d.Checked? && t.d.msg.Data? ==> |Rest(t)| >= 1 && Fits(t.d.msg);
  }

  lemma ClampNeverBites(t: State)
    requires CreditInv(t)
    ensures forall k :: 0 <= k < |t.grants| ==> Clamp(t.w.credit, t.grants[k]) == t.w.credit + t.grants[k]
  {
    forall k | 0 <= k < |t.grants| ensures Clamp(t.w.credit, t.grants[k]) == t.w.credit + t.grants[k] {
      TotalBounds(t.grants, k);
    }
  }

  /** Nothing moves by itself: no message, grant or signal is on its way and no goroutine is mid-step. */
  ghost predicate Quiescent(s: State)
  {
    && (forall a: DispatchStep :: !DispatcherMay(s, a))
    && (forall a: LoopStep :: !LoopMay(s, a))
    && !ReaderMay(s, AccrueCredit) && !ReaderMay(s, PokeLoop)
    && s.grants == [] && !WorkerMay(s, SendData)
  }

  /** No wakeup is lost: an open conn that is drained and quiet has returned all but a partial batch. */
  lemma DrainedWorkerHasCredit(acts: seq<Action>)
    requires ValidRun(START, acts)
    requires var t := After(START, acts); Open(t) && Quiescent(t) && t.readBuf == []
    ensures After(START, acts).w.credit >= INITIAL_READ_WINDOW - (READ_CREDIT_BATCH - 1) == 113
  {
    Reachable(acts);
    QuietIsSettled(After(START, acts));
  }

  /** A dispatcher holding a message can always dispose of it. */
  lemma DispatcherNeverStuck(t: State)
    requires CreditInv(t) && SizeInv(t) && t.d.Checked?
    ensures DispatcherMay(t, Enqueue) || DispatcherMay(t, LatchEnd)
  {
    if t.d.msg.Data? {
      assert |Rest(t)| >= 1 && Fits(t.d.msg);
    }
  }

  lemma QuietDispatcher(t: State)
    requires CreditInv(t) && SizeInv(t) && forall a: DispatchStep :: !DispatcherMay(t, a)
    ensures Rest(t) == []
  {
    assert !DispatcherMay(t, Deliver) && !DispatcherMay(t, LatchEnd) && !DispatcherMay(t, Enqueue);
    if t.d.Checked? {
      DispatcherNeverStuck(t);
    }
  }

  lemma QuietIsSettled(t: State)
    requires CreditInv(t) && WakeInv(t) && SizeInv(t) && Open(t) && Quiescent(t)
    ensures Rest(t) == [] && !t.w.stage.Credited? && !t.r.pc.MustAccrue? && !t.g.Ready() && !t.g.loop.Sending?
  {
    QuietDispatcher(t);
    assert !LoopMay(t, Wake) && !LoopMay(t, TakeGrant) && !LoopMay(t, SendGrant);
  }

  lemma {:induction false} PayloadAppend(a: seq<Frame>, b: seq<Frame>)
    ensures Payload(a + b) == Payload(a) + Payload(b)
    decreases |b|
  {
    if b == [] {
      assert a + b == a;
    } else {
      assert (a + b)[..|a + b| - 1] == a + b[..|b| - 1];
      PayloadAppend(a, b[..|b| - 1]);
    }
  }

  lemma BytesAddUp(t: State)
    requires BytesInv(t)
    ensures t.r.returned + t.r.part + Payload(t.readBuf) == Payload(t.log)
  {
    assert t.log == Read(t) + t.readBuf;
    PayloadAppend(Read(t), t.readBuf);
  }

  /** Read stream exactness, for any buffer sizes: returned, then readPart, then readBuf, is what was enqueued. */
  lemma ReadStreamExact(acts: seq<Action>)
    requires ValidRun(START, acts)
    ensures var t := After(START, acts);
            t.r.returned + t.r.part + Payload(t.readBuf) == Payload(t.log)
  {
    Reachable(acts);
    BytesAddUp(After(START, acts));
  }

  /** What was skipped or dropped shows in the frames themselves: the log is no prefix, or something is missing from it. */
  lemma FlagsShow(t: State)
    requires FlowInv(t)
    ensures t.skipped <==> !(t.log <= t.w.sent)
    ensures t.dropped <==> t.log + Rest(t) != t.w.sent
  {
    if t.skipped {
      var i :| 0 <= i < |t.log| && t.log[i].num != i;
      assert |t.log| <= |t.w.sent| ==> t.w.sent[i].num == i;
      assert (t.log + Rest(t))[i] == t.log[i];
    } else if t.dropped {
      var n, all := |t.log|, t.log + Rest(t);
      assert t.w.sent[n].num == n;
      assert Rest(t) != [] ==> all[n] == Rest(t)[0] && Rest(t)[0].num > n;
    }
  }

  /** While the channel lives, what the client receives is a prefix of what the worker sent. */
  lemma InOrderWhileAlive(acts: seq<Action>)
    requires ValidRun(START, acts) && !After(START, acts).dead
    ensures After(START, acts).log <= After(START, acts).w.sent
  {
    Reachable(acts);
  }

  /** While the channel lives, a clean EOF comes after every byte: what Read returned and still holds is all that was sent. */
  lemma EofWhileAliveIsComplete(acts: seq<Action>)
    requires ValidRun(START, acts) && !After(START, acts).dead && After(START, acts).terminal == Some(Eof)
    ensures var t := After(START, acts); t.log == t.w.sent && t.r.returned + t.r.part + Payload(t.readBuf) == Payload(t.w.sent)
  {
    Reachable(acts);
    ReadStreamExact(acts);
    var t := After(START, acts);
    assert Rest(t) == [];
    assert t.log + [] == t.log;
  }

  /**
   * Once an end is latched and the dispatcher holds no frame, nothing more is enqueued in any continuation, so
   * every later Read iteration drains readBuf before it reports the end.
   */
  lemma {:induction false} ReadAfterEndDrains(s: State, later: seq<Action>)
    requires Frozen(s) && ValidRun(s, later)
    ensures var t := After(s, later); t.log == s.log && (t.r.pc.PollTerminal? ==> t.readBuf == [])
    decreases |later|
  {
    if later != [] {
      EndFreezesLog(s, later[0]);
      ReadAfterEndDrains(Next(s, later[0]), later[1..]);
    }
  }

  /** An end is latched and no frame can reach readBuf; a reader between its polls has found it empty. */
  predicate Frozen(s: State)
  {
    s.terminal.Some? && Held(s.d) == [] && (s.r.pc.PollTerminal? ==> s.readBuf == [])
  }

  lemma DispatcherStaysFrozen(s: State, a: DispatchStep)
    requires Frozen(s) && DispatcherMay(s, a)
    ensures Frozen(DispatcherDoes(s, a)) && DispatcherDoes(s, a).log == s.log
  {
    DispatcherFrame(s, a);
  }

  lemma ReaderStaysFrozen(s: State, a: ReadStep)
    requires Frozen(s) && ReaderMay(s, a)
    ensures Frozen(ReaderDoes(s, a)) && ReaderDoes(s, a).log == s.log
  {
    ReaderFrame(s, a);
  }

  lemma EndFreezesLog(s: State, a: Action)
    requires Frozen(s) && Enabled(s, a)
    ensures Frozen(Next(s, a)) && Next(s, a).log == s.log
  {
    match a
    case ByWorker(w) => WorkerFrame(s, w);
    case ByDispatcher(d) => DispatcherStaysFrozen(s, d);
    case ByReader(r) => ReaderStaysFrozen(s, r);
    case ByLoop(l) => LoopFrame(s, l);
    case Close =>
    case ChannelDies =>
  }

  // ----- What can go wrong, by example -----

  lemma {:induction false} RunSnoc(s: State, acts: seq<Action>, a: Action)
    requires ValidRun(s, acts) && Enabled(After(s, acts), a)
    ensures ValidRun(s, acts + [a]) && After(s, acts + [a]) == Next(After(s, acts), a)
    decreases |acts|
  {
    if acts != [] {
      assert (acts + [a])[1..] == acts[1..] + [a];
      RunSnoc(Next(s, acts[0]), acts[1..], a);
    }
  }

  lemma Do(acts: seq<Action>, a: Action) returns (more: seq<Action>)
    requires ValidRun(START, acts) && Enabled(After(START, acts), a)
    ensures ValidRun(START, more) && After(START, more) == Next(After(START, acts), a)
  {
    RunSnoc(START, acts, a);
    more := acts + [a];
  }

  lemma SendOne(acts: seq<Action>, x: byte) returns (more: seq<Action>)
    requires ValidRun(START, acts) && After(START, acts).w.stage.Reading? && After(START, acts).w.credit > 0
    ensures ValidRun(START, more)
    ensures var s, f := After(START, acts), Frame(|After(START, acts).w.sent|, [x]);
            After(START, more) == s.(w := Worker(Reading, s.w.credit - 1, s.w.sent + [f]), transit := s.transit + [Data(f)])
  {
    more := Do(acts, ByWorker(TargetRead([x])));
    more := Do(more, ByWorker(Acquire));
    more := Do(more, ByWorker(SendData));
  }

  /** On a live channel, Read can report EOF while a frame that preceded it waits in readBuf. */
  lemma EofCanOvertakeData() returns (acts: seq<Action>)
    ensures ValidRun(START, acts)
    ensures var t := After(START, acts);
            !t.dead && !t.closed && t.r.pc.PollTerminal? && t.terminal == Some(Eof) && t.readBuf == t.w.sent == [Frame(0, [7])]
  {
    acts := SendOne([], 7);
    acts := Do(acts, ByReader(BeginRead(1)));
    acts := Do(acts, ByReader(TopCheck));
    acts := Do(acts, ByReader(TryBuf));
    acts := Do(acts, ByDispatcher(Deliver));
    acts := Do(acts, ByDispatcher(Enqueue));
    acts := Do(acts, ByWorker(SendEnd(Eof)));
    acts := Do(acts, ByDispatcher(Deliver));
    acts := Do(acts, ByDispatcher(LatchEnd));
  }

  /** When the channel dies with two frames queued, the first can be abandoned and the second delivered. */
  lemma DeadChannelCanSkipAFrame() returns (acts: seq<Action>)
    ensures ValidRun(START, acts)
    ensures var t := After(START, acts); !t.closed && t.readBuf == t.log == [Frame(1, [8])] && !(t.log <= t.w.sent)
  {
    acts := SendOne([], 7);
    acts := SendOne(acts, 8);
    acts := Do(acts, ByDispatcher(Deliver));
    acts := Do(acts, ChannelDies);
    acts := Do(acts, ByDispatcher(AbandonFrame));
    acts := Do(acts, ByDispatcher(Deliver));
    acts := Do(acts, ByDispatcher(Enqueue));
    var t := After(START, acts);
    assert t.log[0] != t.w.sent[0];
  }

  /** When the channel dies with the last frame and the EOF queued, Read can report a clean EOF without that frame. */
  lemma DeadChannelCanFakeCleanEof() returns (acts: seq<Action>)
    ensures ValidRun(START, acts)
    ensures var t := After(START, acts);
            !t.closed && t.r.pc.PollTerminal? && t.terminal == Some(Eof) && t.readBuf == [] && t.r.returned == [] && t.w.sent == [Frame(0, [7])]
  {
    acts := SendOne([], 7);
    acts := Do(acts, ByWorker(SendEnd(Eof)));
    acts := Do(acts, ByDispatcher(Deliver));
    acts := Do(acts, ChannelDies);
    acts := Do(acts, ByDispatcher(AbandonFrame));
    acts := Do(acts, ByDispatcher(Deliver));
    acts := Do(acts, ByDispatcher(LatchEnd));
    acts := Do(acts, ByReader(BeginRead(1)));
    acts := Do(acts, ByReader(TopCheck));
    acts := Do(acts, ByReader(TryBuf));
  }
}

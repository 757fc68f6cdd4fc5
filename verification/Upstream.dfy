/**
 * The write half of a tunnel conn together with the worker half it talks to: client
 * backend/tunnel/conn.go (Write, CloseWrite, Close, awaitWriteAck, sendRemoteClose), worker
 * backend/internal/worker/service (writeSeqGate, writeData, closeConn). Each action is one
 * critical section or channel operation; the properties hold over every interleaving.
 */
module Upstream {
  import opened Bytes
  import opened TunnelFlow

  /** A SendTunnelData frame; `call` names the Write or CloseWrite that sent it. */
  datatype Frame = Frame(num: nat, data: bytes, closeWrite: bool, call: nat)

  /** Where the holder of writeMu stands inside sendFrameLocked. */
  datatype Pc = AtTop | Parked | Holding | Sending

  datatype Writer =
    | Free
    | Writing(buf: bytes, written: nat, pc: Pc)
    | HalfClosing(pc: Pc)
  {
    predicate At(p: Pc)
    {
      !Free? && pc == p
    }

    predicate HoldsSlot()
    {
      At(Holding) || At(Sending)
    }

    /** The bytes of the running Write that are already on the wire. */
    function SentPart(): bytes
    {
      if Writing? && written <= |buf| then buf[..written] else []
    }

    /** The payload of the frame being sent. */
    function Chunk(): bytes
    {
      if !Writing? || written > |buf| then []
      else if |buf| - written > MAX_CHUNK_BYTES then buf[written..written + MAX_CHUNK_BYTES]
      else buf[written..]
    }
  }

  datatype Waiter = Waiting | Finishing

  /** sendRemoteClose: asked for, sequence chosen (ordered under writeMu, or forced to 0), sent. */
  datatype Closing = NotAsked | Asked | Chosen(num: nat, ordered: bool) | CloseSent(num: nat, ordered: bool)

  datatype Client = Client(writeSeq: nat, closeWriteSent: bool, window: nat, nak: bool, closed: bool,
                           writer: Writer, call: nat, waiters: map<nat, Waiter>, closing: Closing, reported: bytes)

  /** One SendTunnelData handler goroutine on the worker. */
  datatype Handler = Arrived | Turn | Done(ok: bool)

  datatype Worker = Worker(next: nat, claimed: bool, closed: bool, graceful: bool, handlers: map<nat, Handler>,
                           dispatched: nat, target: bytes, broken: bool, halfClosed: bool, rejected: bool)

  datatype State = State(c: Client, w: Worker, wire: seq<Frame>, acks: map<nat, bool>, dead: bool)

  const START: State := State(Client(0, false, 0, false, false, Free, 0, map[], NotAsked, []),
                              Worker(0, false, false, false, map[], 0, [], false, false, false), [], map[], false)

  function Payload(wire: seq<Frame>): bytes
    decreases |wire|
  {
    if wire == [] then [] else Payload(wire[..|wire| - 1]) + wire[|wire| - 1].data
  }

  /** The holder of writeMu, the ack waiters, and Close. */
  datatype ClientStep =
    | BeginWrite(buf: bytes) | BeginCloseWrite | Check | AcquireSlot | GiveUp | Recheck
    | SendOk | SendFail(kills: bool)
    | WakeOnAck(num: nat) | WakeOnTeardown(num: nat) | Release(num: nat)
    | CloseConn | ReadSeq | ReadSeqTimeout | SendClose

  datatype WorkerStep =
    | Dispatch | TakeTurn(i: nat) | RejectTurn(i: nat) | TurnClosed(i: nat)
    | ApplyOk(i: nat) | ApplyFail(i: nat, partial: nat) | Respond(i: nat)
    | GracefulClose | ForceClose

  datatype Action = ByClient(c: ClientStep) | ByWorker(w: WorkerStep) | ChannelDies

  /** waitTurn's reject arm: behind the gate, a claimed duplicate, or too far ahead. */
  predicate Rejects(w: Worker, num: nat)
  {
    num < w.next || (w.next == num && w.claimed) || num - w.next > MAX_WRITE_SEQ_LOOKAHEAD
  }

  predicate HandlerIs(w: Worker, i: nat, h: Handler)
  {
    i in w.handlers && w.handlers[i] == h
  }

  predicate ClientMay(s: State, a: ClientStep)
  {
    var c := s.c;
    match a
    case BeginWrite(buf) => c.writer.Free? && buf != []
    case BeginCloseWrite => c.writer.Free? && !c.closeWriteSent && !c.closed
    case Check => c.writer.At(AtTop)
    case AcquireSlot => c.writer.At(Parked) && c.window < WRITE_WINDOW_FRAMES
    case GiveUp => c.writer.At(Parked)
    case Recheck => c.writer.At(Holding)
    case SendOk => c.writer.At(Sending) && !s.dead
    case SendFail(_) => c.writer.At(Sending)
    case WakeOnAck(n) => n in c.waiters && c.waiters[n] == Waiting && n in s.acks
    case WakeOnTeardown(n) => n in c.waiters && c.waiters[n] == Waiting && (c.closed || s.dead)
    case Release(n) => n in c.waiters && c.waiters[n] == Finishing
    case CloseConn => !c.closed
    case ReadSeq => c.closing.Asked? && c.writer.Free?
    case ReadSeqTimeout => c.closing.Asked?
    case SendClose => c.closing.Chosen? && !s.dead
  }

  predicate WorkerMay(s: State, a: WorkerStep)
  {
    var c, w := s.c, s.w;
    match a
    case Dispatch => w.dispatched < |s.wire|
    case TakeTurn(i) => i < |s.wire| && HandlerIs(w, i, Arrived) && !w.closed && w.next == s.wire[i].num && !w.claimed
    case RejectTurn(i) => i < |s.wire| && HandlerIs(w, i, Arrived) && !w.closed && Rejects(w, s.wire[i].num)
    case TurnClosed(i) => HandlerIs(w, i, Arrived) && w.closed
    case ApplyOk(i) => i < |s.wire| && HandlerIs(w, i, Turn) && !w.broken && |s.wire[i].data| <= MAX_CHUNK_BYTES
    case ApplyFail(i, n) => i < |s.wire| && HandlerIs(w, i, Turn) && n <= |s.wire[i].data|
    case Respond(i) => i in w.handlers && w.handlers[i].Done?
    case GracefulClose => !w.closed && c.closing.CloseSent? && w.next >= c.closing.num
    case ForceClose => !w.closed
  }

  predicate Enabled(s: State, a: Action)
  {
    match a
    case ByClient(c) => ClientMay(s, c)
    case ByWorker(w) => WorkerMay(s, w)
    case ChannelDies => true
  }

  /** The running call returns; a Write reports what it put on the wire. */
  function EndCall(c: Client): Client
  {
    c.(writer := Free, reported := c.reported + c.writer.SentPart())
  }

  function Move(c: Client, p: Pc): Client
    requires !c.writer.Free?
  {
    c.(writer := c.writer.(pc := p))
  }

  /** The frame is on the wire: its slot now belongs to a new ack waiter. */
  function SentFrame(c: Client): Client
    requires !c.writer.Free?
  {
    var d := c.(writeSeq := c.writeSeq + 1, waiters := c.waiters[c.writeSeq := Waiting]);
    if c.writer.HalfClosing? then EndCall(d.(closeWriteSent := true))
    else
      var e := d.(writer := c.writer.(written := c.writer.written + |c.writer.Chunk()|, pc := AtTop));
      if e.writer.written >= |e.writer.buf| then EndCall(e) else e
  }

  function SetHandler(w: Worker, i: nat, h: Handler): Worker
  {
    w.(handlers := w.handlers[i := h])
  }

  /** advance: the turn is released whether or not the write succeeded. */
  function Advance(w: Worker, i: nat, ok: bool): Worker
  {
    SetHandler(w.(next := w.next + 1, claimed := false), i, Done(ok))
  }

  function ClientDoes(s: State, a: ClientStep): State
    requires ClientMay(s, a)
  {
    var c := s.c;
    match a
    case BeginWrite(buf) => s.(c := c.(writer := Writing(buf, 0, AtTop), call := c.call + 1))
    case BeginCloseWrite => s.(c := c.(writer := HalfClosing(AtTop), call := c.call + 1))
    case Check => s.(c := if (c.closeWriteSent && c.writer.Writing?) || c.nak then EndCall(c) else Move(c, Parked))
    case AcquireSlot => s.(c := Move(c.(window := c.window + 1), Holding))
    case GiveUp => s.(c := EndCall(c))
    case Recheck => s.(c := if c.closed || c.nak then EndCall(c.(window := if c.window > 0 then c.window - 1 else 0)) else Move(c, Sending))
    case SendOk => s.(c := SentFrame(c), wire := s.wire + [Frame(c.writeSeq, c.writer.Chunk(), c.writer.HalfClosing?, c.call)])
    case SendFail(kills) => s.(c := EndCall(c.(window := if c.window > 0 then c.window - 1 else 0)), dead := s.dead || kills)
    case WakeOnAck(n) => s.(c := c.(waiters := c.waiters[n := Finishing], nak := c.nak || !s.acks[n]), acks := s.acks - {n})
    case WakeOnTeardown(n) => s.(c := c.(waiters := c.waiters[n := Finishing]))
    case Release(n) => s.(c := c.(waiters := c.waiters - {n}, window := if c.window > 0 then c.window - 1 else 0))
    case CloseConn => s.(c := c.(closed := true, closing := if c.closing.NotAsked? then Asked else c.closing))
    case ReadSeq => s.(c := c.(closing := Chosen(c.writeSeq, true)))
    case ReadSeqTimeout => s.(c := c.(closing := Chosen(0, false)))
    case SendClose => s.(c := c.(closing := CloseSent(c.closing.num, c.closing.ordered)))
  }

  function WorkerDoes(s: State, a: WorkerStep): State
    requires WorkerMay(s, a)
  {
    var w := s.w;
    match a
    case Dispatch => s.(w := SetHandler(w.(dispatched := w.dispatched + 1), w.dispatched, if w.closed then Done(false) else Arrived))
    case TakeTurn(i) => s.(w := SetHandler(w.(claimed := true), i, Turn))
    case RejectTurn(i) => s.(w := SetHandler(w.(rejected := true), i, Done(false)))
    case TurnClosed(i) => s.(w := SetHandler(w, i, Done(false)))
    case ApplyOk(i) => s.(w := Advance(w.(target := w.target + s.wire[i].data, halfClosed := w.halfClosed || s.wire[i].closeWrite), i, true))
    case ApplyFail(i, n) => s.(w := Advance(w.(target := if w.broken then w.target else w.target + s.wire[i].data[..n], broken := true), i, false))
    case Respond(i) => s.(acks := s.acks[i := w.handlers[i].ok], w := w.(handlers := w.handlers - {i}))
    case GracefulClose => s.(w := w.(closed := true, graceful := true))
    case ForceClose => s.(w := w.(closed := true))
  }

  function Next(s: State, a: Action): State
    requires Enabled(s, a)
  {
    match a
    case ByClient(c) => ClientDoes(s, c)
    case ByWorker(w) => WorkerDoes(s, w)
    case ChannelDies => s.(dead := true)
  }

  // ----- Invariants -----

  /** Every slot in use belongs to a live ack waiter or to the frame being sent. */
  ghost predicate WindowInv(s: State)
  {
    && s.c.window == |s.c.waiters| + (if s.c.writer.HoldsSlot() then 1 else 0)
    && s.c.window <= WRITE_WINDOW_FRAMES
  }

  predicate FrameOk(f: Frame, i: nat)
  {
    f.num == i && |f.data| <= MAX_CHUNK_BYTES && (if f.closeWrite then f.data == [] else f.data != [])
  }

  /** Frames are numbered 0, 1, 2, ...; calls are contiguous; a half-close is the last frame there is. */
  ghost predicate WireInv(s: State)
  {
    var c, wire := s.c, s.wire;
    && |wire| == c.writeSeq
    && (forall i :: 0 <= i < |wire| ==> FrameOk(wire[i], i) && wire[i].call <= c.call)
    && (forall i, j :: 0 <= i < j < |wire| ==> wire[i].call <= wire[j].call)
    && (forall i :: 0 <= i < |wire| - 1 ==> !wire[i].closeWrite)
    && (c.closeWriteSent <==> wire != [] && wire[|wire| - 1].closeWrite)
    && (c.writer.HalfClosing? ==> !c.closeWriteSent)
    && (c.writer.Writing? && !c.writer.At(AtTop) ==> !c.closeWriteSent)
    && (c.writer.Writing? ==> c.writer.written < |c.writer.buf|)
  }

  /** What is on the wire is what Write calls reported, plus what the running one has sent so far. */
  ghost predicate BytesInv(s: State)
  {
    Payload(s.wire) == s.c.reported + s.c.writer.SentPart()
  }

  /** The first Close asks for the remote close. An ordered one carries the number of frames ever sent, and none can follow it. */
  ghost predicate CloseInv(s: State)
  {
    var c := s.c;
    && (c.closed <==> !c.closing.NotAsked?)
    && ((c.closing.Chosen? || c.closing.CloseSent?) && c.closing.ordered ==> c.closing.num == c.writeSeq && !c.writer.At(Sending))
  }

  predicate HandlerOk(w: Worker, i: nat, h: Handler)
  {
    match h
    case Arrived => i >= w.next
    case Turn => i == w.next && w.claimed
    case Done(_) => w.closed || i < w.next
  }

  /** The worker's gate: one handler per turn, in order, and nobody behind it. */
  ghost predicate GateInv(s: State)
  {
    var w := s.w;
    && w.dispatched <= |s.wire|
    && w.next <= w.dispatched
    && (forall i :: i in w.handlers ==> i < w.dispatched && HandlerOk(w, i, w.handlers[i]))
    && (w.claimed ==> HandlerIs(w, w.next, Turn))
    && (!w.closed ==> forall i :: i in s.acks ==> i < w.next)
    && (!w.closed ==> forall i :: w.next <= i < w.dispatched ==> i in w.handlers)
  }

  /** While conn, channel and worker are up, every frame the gate has not passed still holds its slot. */
  ghost predicate FlightInv(s: State)
  {
    var c, w := s.c, s.w;
    && (!c.closed && !s.dead && !w.closed ==>
          && (forall n :: w.next <= n < c.writeSeq ==> n in c.waiters)
          && (forall n :: n in c.waiters && c.waiters[n] == Finishing ==> n < w.next))
    && (!w.closed ==> c.writeSeq <= w.next + WRITE_WINDOW_FRAMES)
    && (!w.closed && !s.dead && c.writer.At(Sending) ==> c.writeSeq < w.next + WRITE_WINDOW_FRAMES)
    && (forall n :: n in c.waiters ==> n < c.writeSeq)
  }

  /** The target has seen a prefix of the wire: exactly the frames the gate passed, until a write to it fails. */
  ghost predicate TargetInv(s: State)
  {
    var w := s.w;
    && w.next <= |s.wire|
    && (!w.broken ==> w.target == Payload(s.wire[..w.next]))
    && w.target <= Payload(s.wire)
    && (w.halfClosed ==> s.c.closeWriteSent && w.next == |s.wire| && w.target == Payload(s.wire))
    && (w.graceful && s.c.closing.CloseSent? && s.c.closing.ordered ==> w.next == |s.wire|)
    && (w.graceful ==> s.c.closing.CloseSent?)
    && !w.rejected
  }

  ghost predicate Inv(s: State)
  {
    WindowInv(s) && WireInv(s) && BytesInv(s) && CloseInv(s) && GateInv(s) && FlightInv(s) && TargetInv(s)
  }

  // ----- Every action keeps them -----

  lemma SlotFor(waiters: map<nat, Waiter>, n: nat, h: Waiter)
    ensures |waiters[n := h]| == |waiters| + (if n in waiters then 0 else 1)
    ensures n in waiters ==> |waiters - {n}| == |waiters| - 1
  {
    assert waiters[n := h].Keys == waiters.Keys + {n};
    assert (waiters - {n}).Keys == waiters.Keys - {n};
    assert |waiters.Keys| == |waiters| && |waiters[n := h].Keys| == |waiters[n := h]| && |(waiters - {n}).Keys| == |waiters - {n}|;
  }

  lemma WorkerFrame(s: State, a: WorkerStep)
    requires WorkerMay(s, a)
    ensures WorkerDoes(s, a) == s.(w := WorkerDoes(s, a).w, acks := WorkerDoes(s, a).acks)
    ensures WorkerDoes(s, a).w.next >= s.w.next && (s.w.closed ==> WorkerDoes(s, a).w.closed)
  {
  }

  lemma ClientFrame(s: State, a: ClientStep)
    requires ClientMay(s, a)
    ensures var t := ClientDoes(s, a);
            t.w == s.w && (s.dead ==> t.dead) && (s.c.closed ==> t.c.closed) && (forall i :: i in t.acks ==> i in s.acks)
            && (a != SendOk ==> t.wire == s.wire && t.c.writeSeq == s.c.writeSeq && t.c.closeWriteSent == s.c.closeWriteSent)
  {
  }

  /** The steps of the ack waiters and of the send itself, which move slots between owners. */
  predicate MovesSlot(a: ClientStep)
  {
    a.SendOk? || a.WakeOnAck? || a.WakeOnTeardown? || a.Release?
  }

  lemma SendKeepsWindow(s: State)
    requires WindowInv(s) && s.c.writeSeq !in s.c.waiters && ClientMay(s, SendOk)
    ensures WindowInv(ClientDoes(s, SendOk))
  {
    SlotFor(s.c.waiters, s.c.writeSeq, Waiting);
  }

  lemma WakeKeepsWindow(s: State, a: ClientStep)
    requires WindowInv(s) && ClientMay(s, a) && (a.WakeOnAck? || a.WakeOnTeardown?)
    ensures WindowInv(ClientDoes(s, a))
  {
    SlotFor(s.c.waiters, a.num, Finishing);
  }

  lemma ReleaseKeepsWindow(s: State, n: nat)
    requires WindowInv(s) && ClientMay(s, Release(n))
    ensures WindowInv(ClientDoes(s, Release(n)))
  {
    SlotFor(s.c.waiters, n, Finishing);
  }

  lemma WaiterKeepsWindow(s: State, a: ClientStep)
    requires WindowInv(s) && s.c.writeSeq !in s.c.waiters && ClientMay(s, a) && MovesSlot(a)
    ensures WindowInv(ClientDoes(s, a))
  {
    match a
    case SendOk => SendKeepsWindow(s);
    case WakeOnAck(_) => WakeKeepsWindow(s, a);
    case WakeOnTeardown(_) => WakeKeepsWindow(s, a);
    case Release(n) => ReleaseKeepsWindow(s, n);
  }

  lemma WriterKeepsWindow(s: State, a: ClientStep)
    requires WindowInv(s) && ClientMay(s, a) && !MovesSlot(a)
    ensures WindowInv(ClientDoes(s, a))
  {
    assert ClientDoes(s, a).c.waiters == s.c.waiters;
  }

  lemma ClientKeepsWindow(s: State, a: ClientStep)
    requires WindowInv(s) && FlightInv(s) && ClientMay(s, a)
    ensures WindowInv(ClientDoes(s, a))
  {
    if MovesSlot(a) {
      WaiterKeepsWindow(s, a);
    } else {
      WriterKeepsWindow(s, a);
    }
  }

  lemma SendKeepsWire(s: State)
    requires WireInv(s) && ClientMay(s, SendOk)
    ensures WireInv(ClientDoes(s, SendOk))
  {
    var n, t := |s.wire|, ClientDoes(s, SendOk);
    var f := t.wire[n];
    assert t.wire == s.wire + [f] && FrameOk(f, n);
    assert forall i :: 0 <= i < n ==> t.wire[i] == s.wire[i];
  }

  lemma ClientKeepsWire(s: State, a: ClientStep)
    requires WireInv(s) && ClientMay(s, a) && a != SendOk
    ensures WireInv(ClientDoes(s, a))
  {
    ClientFrame(s, a);
  }

  lemma PayloadSnoc(wire: seq<Frame>, f: Frame)
    ensures Payload(wire + [f]) == Payload(wire) + f.data
  {
    assert (wire + [f])[..|wire|] == wire;
  }

  lemma ChunkExtends(w: Writer)
    requires w.Writing? ==> w.written <= |w.buf|
    ensures w.SentPart() + w.Chunk() == if w.Writing? then w.buf[..w.written + |w.Chunk()|] else []
  {
  }

  /** Sending a frame adds its chunk to what the call has sent, reported at once if the call ends with it. */
  lemma SentFrameReports(c: Client)
    requires !c.writer.Free? && (c.writer.Writing? ==> c.writer.written <= |c.writer.buf|)
    ensures SentFrame(c).reported + SentFrame(c).writer.SentPart() == (c.reported + c.writer.SentPart()) + c.writer.Chunk()
  {
    ChunkExtends(c.writer);
    assert (c.reported + c.writer.SentPart()) + c.writer.Chunk() == c.reported + (c.writer.SentPart() + c.writer.Chunk());
    assert SentFrame(c).reported + [] == SentFrame(c).reported;
  }

  lemma SendKeepsBytes(s: State)
    requires BytesInv(s) && WireInv(s) && ClientMay(s, SendOk)
    ensures BytesInv(ClientDoes(s, SendOk))
  {
    PayloadSnoc(s.wire, Frame(s.c.writeSeq, s.c.writer.Chunk(), s.c.writer.HalfClosing?, s.c.call));
    SentFrameReports(s.c);
  }

  lemma ClientKeepsBytes(s: State, a: ClientStep)
    requires BytesInv(s) && ClientMay(s, a) && a != SendOk
    ensures BytesInv(ClientDoes(s, a))
  {
    ClientFrame(s, a);
    assert s.c.reported + s.c.writer.SentPart() + [] == s.c.reported + s.c.writer.SentPart();
  }

  lemma ClientKeepsClose(s: State, a: ClientStep)
    requires CloseInv(s) && ClientMay(s, a)
    ensures CloseInv(ClientDoes(s, a))
  {
  }

  lemma ApplyKeepsGate(s: State, a: WorkerStep)
    requires GateInv(s) && WorkerMay(s, a) && (a.ApplyOk? || a.ApplyFail?)
    ensures GateInv(WorkerDoes(s, a))
  {
    var t := WorkerDoes(s, a).w;
    assert a.i == s.w.next && t.next == a.i + 1 && !t.claimed && t.dispatched == s.w.dispatched && t.closed == s.w.closed;
    assert t.handlers == s.w.handlers[a.i := Done(a.ApplyOk?)];
  }

  lemma HandlerKeepsGate(s: State, i: nat, h: Handler)
    requires GateInv(s) && HandlerIs(s.w, i, Arrived)
    requires (h == Turn && i == s.w.next && !s.w.claimed) || (h.Done? && s.w.closed)
    ensures GateInv(s.(w := SetHandler(s.w.(claimed := s.w.claimed || h == Turn), i, h)))
  {
    var t := SetHandler(s.w.(claimed := s.w.claimed || h == Turn), i, h);
  }

  lemma DispatchKeepsGate(s: State)
    requires GateInv(s) && WorkerMay(s, Dispatch)
    ensures GateInv(WorkerDoes(s, Dispatch))
  {
    assert s.w.dispatched !in s.w.handlers;
  }

  lemma EndingKeepsGate(s: State, a: WorkerStep)
    requires GateInv(s) && WorkerMay(s, a) && (a.Respond? || a.GracefulClose? || a.ForceClose?)
    ensures GateInv(WorkerDoes(s, a))
  {
  }

  lemma TurnKeepsGate(s: State, a: WorkerStep)
    requires GateInv(s) && FlightInv(s) && WireInv(s) && WorkerMay(s, a)
    requires a.TakeTurn? || a.TurnClosed? || a.RejectTurn?
    ensures GateInv(WorkerDoes(s, a))
  {
    if a.TakeTurn? {
      assert FrameOk(s.wire[a.i], a.i);
      HandlerKeepsGate(s, a.i, Turn);
    } else if a.TurnClosed? {
      HandlerKeepsGate(s, a.i, Done(false));
    } else {
      NeverRejects(s, a.i);
    }
  }

  lemma WorkerKeepsGate(s: State, a: WorkerStep)
    requires GateInv(s) && FlightInv(s) && WireInv(s) && WorkerMay(s, a)
    ensures GateInv(WorkerDoes(s, a))
  {
    if a.Dispatch? {
      DispatchKeepsGate(s);
    } else if a.TakeTurn? || a.TurnClosed? || a.RejectTurn? {
      TurnKeepsGate(s, a);
    } else if a.ApplyOk? || a.ApplyFail? {
      ApplyKeepsGate(s, a);
    } else {
      EndingKeepsGate(s, a);
    }
  }

  lemma ClientKeepsGate(s: State, a: ClientStep)
    requires GateInv(s) && ClientMay(s, a)
    ensures GateInv(ClientDoes(s, a))
  {
    ClientFrame(s, a);
    assert |ClientDoes(s, a).wire| >= |s.wire|;
  }

  /** The point of the window: no frame this client sends is ever one the worker's gate refuses. */
  lemma NeverRejects(s: State, i: nat)
    requires GateInv(s) && FlightInv(s) && WireInv(s)
    requires !s.w.closed && i < |s.wire| && HandlerIs(s.w, i, Arrived)
    ensures !Rejects(s.w, s.wire[i].num)
  {
    assert FrameOk(s.wire[i], i);
  }

  ghost function Span(lo: nat, hi: nat): (r: set<nat>)
    requires lo <= hi
    ensures |r| == hi - lo && forall n: nat :: n in r <==> lo <= n < hi
    decreases hi
  {
    if lo == hi then {} else Span(lo, hi - 1) + {hi - 1}
  }

  /** With everything up, unpassed frames are covered by waiters, so they are fewer than the slots in use. */
  lemma UnpassedFit(s: State)
    requires GateInv(s) && FlightInv(s) && WireInv(s) && !s.c.closed && !s.dead && !s.w.closed
    ensures s.c.writeSeq - s.w.next <= |s.c.waiters|
  {
    var unpassed := Span(s.w.next, s.c.writeSeq);
    assert unpassed <= s.c.waiters.Keys;
    SubsetSize(unpassed, s.c.waiters.Keys);
  }

  lemma WaiterKeepsFlight(s: State, a: ClientStep)
    requires FlightInv(s) && GateInv(s) && WireInv(s) && ClientMay(s, a) && MovesSlot(a)
    ensures FlightInv(ClientDoes(s, a))
  {
  }

  /** Where the writer stands matters to the flight only when it is about to send. */
  lemma SameFlight(s: State, t: State)
    requires FlightInv(s) && t.w == s.w && t.c.waiters == s.c.waiters && t.c.writeSeq == s.c.writeSeq
    requires (s.c.closed ==> t.c.closed) && (s.dead ==> t.dead)
    requires !t.w.closed && !t.dead && t.c.writer.At(Sending) ==> t.c.writeSeq < t.w.next + WRITE_WINDOW_FRAMES
    ensures FlightInv(t)
  {
  }

  lemma WritersLeaveWaiters(s: State, a: ClientStep)
    requires ClientMay(s, a) && !MovesSlot(a)
    ensures var t := ClientDoes(s, a);
            t.c.waiters == s.c.waiters && (t.c.writer.At(Sending) ==> s.c.writer.At(Sending) || (a.Recheck? && !s.c.closed))
  {
  }

  lemma WriterKeepsFlight(s: State, a: ClientStep)
    requires FlightInv(s) && WindowInv(s) && GateInv(s) && WireInv(s) && ClientMay(s, a) && !MovesSlot(a)
    ensures FlightInv(ClientDoes(s, a))
  {
    ClientFrame(s, a);
    WritersLeaveWaiters(s, a);
    if a.Recheck? && !s.c.closed && !s.dead && !s.w.closed {
      UnpassedFit(s);
    }
    SameFlight(s, ClientDoes(s, a));
  }

  lemma ClientKeepsFlight(s: State, a: ClientStep)
    requires FlightInv(s) && WindowInv(s) && GateInv(s) && WireInv(s) && ClientMay(s, a)
    ensures FlightInv(ClientDoes(s, a))
  {
    if MovesSlot(a) {
      WaiterKeepsFlight(s, a);
    } else {
      WriterKeepsFlight(s, a);
    }
  }

  lemma {:induction false} PayloadPrefix(wire: seq<Frame>, k: nat)
    requires k <= |wire|
    ensures Payload(wire[..k]) <= Payload(wire)
    decreases |wire|
  {
    if k < |wire| {
      assert wire[..|wire| - 1][..k] == wire[..k];
      PayloadPrefix(wire[..|wire| - 1], k);
    } else {
      assert wire[..k] == wire;
    }
  }

  lemma SendKeepsTarget(s: State)
    requires TargetInv(s) && WireInv(s) && CloseInv(s) && ClientMay(s, SendOk)
    ensures TargetInv(ClientDoes(s, SendOk))
  {
    var t := ClientDoes(s, SendOk);
    PayloadSnoc(s.wire, t.wire[|s.wire|]);
    assert t.wire == s.wire + [t.wire[|s.wire|]];
    assert t.wire[..s.w.next] == s.wire[..s.w.next];
  }

  lemma ApplyOkKeepsTarget(s: State, i: nat)
    requires TargetInv(s) && WireInv(s) && GateInv(s) && WorkerMay(s, ApplyOk(i))
    ensures TargetInv(WorkerDoes(s, ApplyOk(i)))
  {
    ApplyReaches(s, i);
  }

  lemma ApplyFailKeepsTarget(s: State, i: nat, partial: nat)
    requires TargetInv(s) && WireInv(s) && GateInv(s) && WorkerMay(s, ApplyFail(i, partial))
    ensures TargetInv(WorkerDoes(s, ApplyFail(i, partial)))
  {
    ApplyReaches(s, i);
    assert s.wire[i].data[..partial] <= s.wire[i].data;
  }

  lemma ClientKeepsTarget(s: State, a: ClientStep)
    requires TargetInv(s) && CloseInv(s) && ClientMay(s, a) && a != SendOk
    ensures TargetInv(ClientDoes(s, a))
  {
    ClientFrame(s, a);
  }

  lemma OtherWorkKeepsTarget(s: State, a: WorkerStep)
    requires TargetInv(s) && CloseInv(s) && WorkerMay(s, a) && s.c.writeSeq == |s.wire|
    requires !a.ApplyOk? && !a.ApplyFail? && !a.RejectTurn?
    ensures TargetInv(WorkerDoes(s, a))
  {
  }

  lemma WorkerKeepsTarget(s: State, a: WorkerStep)
    requires TargetInv(s) && WireInv(s) && CloseInv(s) && GateInv(s) && FlightInv(s) && WorkerMay(s, a)
    ensures TargetInv(WorkerDoes(s, a))
  {
    match a
    case ApplyOk(i) => ApplyOkKeepsTarget(s, i);
    case ApplyFail(i, partial) => ApplyFailKeepsTarget(s, i, partial);
    case RejectTurn(i) => NeverRejects(s, i);
    case _ => OtherWorkKeepsTarget(s, a);
  }

  /** Frame i, whose turn it is, is the next piece of the wire. */
  lemma ApplyReaches(s: State, i: nat)
    requires GateInv(s) && i < |s.wire| && HandlerIs(s.w, i, Turn)
    ensures i == s.w.next
    ensures Payload(s.wire[..i + 1]) == Payload(s.wire[..i]) + s.wire[i].data <= Payload(s.wire)
    ensures i == |s.wire| - 1 ==> s.wire[..i + 1] == s.wire
  {
    assert s.wire[..i + 1] == s.wire[..i] + [s.wire[i]];
    PayloadSnoc(s.wire[..i], s.wire[i]);
    PayloadPrefix(s.wire, i + 1);
  }

  lemma ClientKeepsInv(s: State, a: ClientStep)
    requires Inv(s) && ClientMay(s, a)
    ensures Inv(ClientDoes(s, a))
  {
    ClientKeepsWindow(s, a);
    ClientKeepsClose(s, a);
    ClientKeepsGate(s, a);
    ClientKeepsFlight(s, a);
    if a == SendOk {
      SendKeepsWire(s);
      SendKeepsBytes(s);
      SendKeepsTarget(s);
    } else {
      ClientKeepsWire(s, a);
      ClientKeepsBytes(s, a);
      ClientKeepsTarget(s, a);
    }
  }

  lemma WorkerKeepsInv(s: State, a: WorkerStep)
    requires Inv(s) && WorkerMay(s, a)
    ensures Inv(WorkerDoes(s, a))
  {
    WorkerFrame(s, a);
    WorkerKeepsGate(s, a);
    WorkerKeepsTarget(s, a);
  }

  lemma NextKeepsInv(s: State, a: Action)
    requires Inv(s) && Enabled(s, a)
    ensures Inv(Next(s, a))
  {
    match a
    case ByClient(c) => ClientKeepsInv(s, c);
    case ByWorker(w) => WorkerKeepsInv(s, w);
    case ChannelDies =>
  }

  // ----- Over every run -----

  ghost predicate ValidRun(s: State, acts: seq<Action>)
    decreases |acts|
  {
    acts == [] || (Enabled(s, acts[0]) && ValidRun(Next(s, acts[0]), acts[1..]))
  }

  ghost function After(s: State, acts: seq<Action>): State
    requires ValidRun(s, acts)
    decreases |acts|
  {
    if acts == [] then s else After(Next(s, acts[0]), acts[1..])
  }

  lemma {:induction false} RunKeepsInv(s: State, acts: seq<Action>)
    requires Inv(s) && ValidRun(s, acts)
    ensures Inv(After(s, acts))
    decreases |acts|
  {
    if acts != [] {
      NextKeepsInv(s, acts[0]);
      RunKeepsInv(Next(s, acts[0]), acts[1..]);
    }
  }

  lemma {:induction false} RunSnoc(s: State, acts: seq<Action>, a: Action)
    requires ValidRun(s, acts) && Enabled(After(s, acts), a)
    ensures ValidRun(s, acts + [a]) && After(s, acts + [a]) == Next(After(s, acts), a)
    decreases |acts|
  {
    if acts != [] {
      assert (acts + [a])[1..] == acts[1..] + [a];
      RunSnoc(Next(s, acts[0]), acts[1..], a);
    }
  }

  lemma StartInv()
    ensures Inv(START)
  {
  }

  /**
   * Send-window conservation: in every reachable state the slots in use are exactly the running
   * waiters plus the writer's own, at most 64, so at most 64 x 32 KiB are unacknowledged; and no
   * frame is ever beyond the worker's lookahead.
   */
  lemma WindowConserved(acts: seq<Action>)
    requires ValidRun(START, acts)
    ensures var t := After(START, acts);
            && t.c.window == |t.c.waiters| + (if t.c.writer.HoldsSlot() then 1 else 0) <= WRITE_WINDOW_FRAMES
            && (forall n :: n in t.c.waiters ==> n < |t.wire| && |t.wire[n].data| <= MAX_CHUNK_BYTES)
            && !t.w.rejected
            && (!t.w.closed ==> |t.wire| <= t.w.next + WRITE_WINDOW_FRAMES)
  {
    StartInv();
    RunKeepsInv(START, acts);
    WaitersNameFrames(After(START, acts));
  }

  lemma WaitersNameFrames(t: State)
    requires WireInv(t) && FlightInv(t)
    ensures forall n :: n in t.c.waiters ==> n < |t.wire| && |t.wire[n].data| <= MAX_CHUNK_BYTES
  {
    forall n | n in t.c.waiters ensures n < |t.wire| && |t.wire[n].data| <= MAX_CHUNK_BYTES {
      assert FrameOk(t.wire[n], n);
    }
  }

  /**
   * Write stream exactness: whatever is interleaved, the payloads on the wire are the bytes the
   * Write calls reported, in lock order, plus what the running call has already sent; frames are
   * numbered without gap or repeat, respect the chunk bound, keep one call's chunks together, and
   * nothing follows a half-close.
   */
  lemma WriteStreamExact(acts: seq<Action>)
    requires ValidRun(START, acts)
    ensures var t := After(START, acts);
            && Payload(t.wire) == t.c.reported + t.c.writer.SentPart()
            && (forall i :: 0 <= i < |t.wire| ==> FrameOk(t.wire[i], i))
            && (forall i, j :: 0 <= i < j < |t.wire| ==> t.wire[i].call <= t.wire[j].call)
            && (forall i :: 0 <= i < |t.wire| && t.wire[i].closeWrite ==> i == |t.wire| - 1)
            && (t.c.closeWriteSent <==> exists i :: 0 <= i < |t.wire| && t.wire[i].closeWrite)
  {
    StartInv();
    RunKeepsInv(START, acts);
    var t := After(START, acts);
    if t.c.closeWriteSent {
      assert t.wire[|t.wire| - 1].closeWrite;
    }
  }

  /**
   * What the target sees: always a prefix of what was sent; exactly the applied frames while its
   * writes succeed; and its end-of-stream only after every byte.
   */
  lemma TargetSeesPrefix(acts: seq<Action>)
    requires ValidRun(START, acts)
    ensures var t := After(START, acts);
            && t.w.target <= t.c.reported + t.c.writer.SentPart()
            && t.w.next <= |t.wire|
            && (!t.w.broken ==> t.w.target == Payload(t.wire[..t.w.next]))
            && (t.w.halfClosed ==> t.w.target == t.c.reported + t.c.writer.SentPart())
  {
    StartInv();
    RunKeepsInv(START, acts);
  }

  /**
   * Graceful close covers everything: an ordered CloseTunnelConn carries the number of frames ever
   * sent, now and in every continuation, so no frame follows it; and when the worker honours it the
   * target has received every byte, unless a write to the target failed.
   */
  lemma GracefulCloseCoversAll(acts: seq<Action>, later: seq<Action>)
    requires ValidRun(START, acts) && ValidRun(After(START, acts), later)
    requires var s := After(START, acts); s.c.closing.CloseSent? && s.c.closing.ordered
    ensures var s, t := After(START, acts), After(After(START, acts), later);
            && s.c.closing.num == |s.wire|
            && t.wire == s.wire && t.c.closing == s.c.closing
            && (t.w.graceful && !t.w.broken ==> t.w.target == Payload(t.wire))
  {
    StartInv();
    RunKeepsInv(START, acts);
    var s := After(START, acts);
    OrderedCloseIsLast(s, later);
    RunKeepsInv(s, later);
    var t := After(s, later);
    assert t.wire[..|t.wire|] == t.wire;
  }

  lemma {:induction false} OrderedCloseIsLast(s: State, acts: seq<Action>)
    requires Inv(s) && ValidRun(s, acts) && s.c.closing.CloseSent? && s.c.closing.ordered
    ensures After(s, acts).wire == s.wire && After(s, acts).c.closing == s.c.closing
    decreases |acts|
  {
    if acts != [] {
      NextKeepsInv(s, acts[0]);
      OrderedCloseStep(s, acts[0]);
      OrderedCloseIsLast(Next(s, acts[0]), acts[1..]);
    }
  }

  lemma OrderedCloseStep(s: State, a: Action)
    requires CloseInv(s) && Enabled(s, a) && s.c.closing.CloseSent? && s.c.closing.ordered
    ensures Next(s, a).wire == s.wire && Next(s, a).c.closing == s.c.closing
  {
    match a
    case ByClient(c) => ClientFrame(s, c);
    case ByWorker(w) => WorkerFrame(s, w);
    case ChannelDies =>
  }
}

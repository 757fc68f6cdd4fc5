/**
 * How a write stream ends (backend/tunnel/conn.go Close, sendRemoteClose, awaitWriteAck and the writeErr latch;
 * backend/internal/worker/service writeSeqGate, writeData, closeConn): Close asks for the remote close once and can
 * always get it out, the worker can always finish what it was sent, and acknowledgements are honest.
 */
module WriteEnd {
  import opened Upstream
  import opened Draining

  // ----- Acknowledgements -----

  /** Frame i and every frame before it have reached the target. */
  ghost predicate Arrived(s: State, i: nat)
  {
    i < s.w.next <= |s.wire| && Payload(s.wire[..i + 1]) <= s.w.target
  }

  predicate Failed(s: State)
  {
    s.w.broken || s.w.closed
  }

  ghost predicate Honest(s: State, i: nat, ok: bool)
  {
    if ok then Arrived(s, i) else Failed(s)
  }

  /** What a handler concluded, and what it answered, is true; and the conn is latched for a reason. */
  ghost predicate AnswersInv(s: State)
  {
    && (forall i :: i in s.w.handlers && s.w.handlers[i].Done? ==> Honest(s, i, s.w.handlers[i].ok))
    && (forall i :: i in s.acks ==> Honest(s, i, s.acks[i]))
    && (s.c.nak ==> Failed(s))
  }

  /** The half-close reaches the target as soon as the gate has passed it. */
  predicate EofInv(s: State)
  {
    s.c.closeWriteSent && s.w.next == |s.wire| && !s.w.broken ==> s.w.halfClosed
  }

  lemma StaysHonest(s: State, t: State, i: nat, ok: bool)
    requires Honest(s, i, ok) && s.wire <= t.wire && s.w.next <= t.w.next <= |t.wire| && s.w.target <= t.w.target
    requires Failed(s) ==> Failed(t)
    ensures Honest(t, i, ok)
  {
    if ok {
      assert t.wire[..i + 1] == s.wire[..i + 1];
    }
  }

  /** Answers stay honest when the step adds none but honest ones. */
  lemma StepKeepsAnswers(s: State, t: State)
    requires AnswersInv(s) && s.wire <= t.wire && s.w.next <= t.w.next <= |t.wire| && s.w.target <= t.w.target
    requires (Failed(s) ==> Failed(t)) && (t.c.nak ==> Failed(t))
    requires forall i :: i in t.w.handlers && t.w.handlers[i].Done? && !HandlerIs(s.w, i, t.w.handlers[i]) ==> Honest(t, i, t.w.handlers[i].ok)
    requires forall i :: i in t.acks ==> (i in s.acks && s.acks[i] == t.acks[i]) || HandlerIs(s.w, i, Done(t.acks[i]))
    ensures AnswersInv(t)
  {
    forall i | i in t.w.handlers && t.w.handlers[i].Done? ensures Honest(t, i, t.w.handlers[i].ok) {
      if HandlerIs(s.w, i, t.w.handlers[i]) {
        StaysHonest(s, t, i, t.w.handlers[i].ok);
      }
    }
    forall i | i in t.acks ensures Honest(t, i, t.acks[i]) {
      StaysHonest(s, t, i, t.acks[i]);
    }
  }

  lemma ClientKeepsAnswers(s: State, a: ClientStep)
    requires AnswersInv(s) && TargetInv(s) && ClientMay(s, a)
    ensures AnswersInv(ClientDoes(s, a))
  {
    ClientFrame(s, a);
    if a.WakeOnAck? {
      assert Honest(s, a.num, s.acks[a.num]);
    }
    StepKeepsAnswers(s, ClientDoes(s, a));
  }

  lemma ApplyKeepsAnswers(s: State, a: WorkerStep)
    requires AnswersInv(s) && TargetInv(s) && GateInv(s) && WorkerMay(s, a) && (a.ApplyOk? || a.ApplyFail?)
    ensures AnswersInv(WorkerDoes(s, a))
  {
    ApplyReaches(s, a.i);
    StepKeepsAnswers(s, WorkerDoes(s, a));
  }

  lemma WorkerKeepsAnswers(s: State, a: WorkerStep)
    requires AnswersInv(s) && Inv(s) && WorkerMay(s, a)
    ensures AnswersInv(WorkerDoes(s, a))
  {
    match a
    case ApplyOk(_) => ApplyKeepsAnswers(s, a);
    case ApplyFail(_, _) => ApplyKeepsAnswers(s, a);
    case RejectTurn(i) => NeverRejects(s, i);
    case _ => StepKeepsAnswers(s, WorkerDoes(s, a));
  }

  lemma ClientKeepsEof(s: State, a: ClientStep)
    requires EofInv(s) && TargetInv(s) && ClientMay(s, a)
    ensures EofInv(ClientDoes(s, a))
  {
    ClientFrame(s, a);
  }

  lemma WorkerKeepsEof(s: State, a: WorkerStep)
    requires EofInv(s) && WireInv(s) && GateInv(s) && WorkerMay(s, a)
    ensures EofInv(WorkerDoes(s, a))
  {
  }

  lemma KeepsAnswers(s: State, a: Action)
    requires Inv(s) && AnswersInv(s) && EofInv(s) && Enabled(s, a)
    ensures AnswersInv(Next(s, a)) && EofInv(Next(s, a))
  {
    match a
    case ByClient(c) =>
      ClientKeepsAnswers(s, c);
      ClientKeepsEof(s, c);
    case ByWorker(w) =>
      WorkerKeepsAnswers(s, w);
      WorkerKeepsEof(s, w);
    case ChannelDies => StepKeepsAnswers(s, Next(s, a));
  }

  lemma {:induction false} RunKeepsAnswers(s: State, acts: seq<Action>)
    requires Inv(s) && AnswersInv(s) && EofInv(s) && ValidRun(s, acts)
    ensures Inv(After(s, acts)) && AnswersInv(After(s, acts)) && EofInv(After(s, acts))
    decreases |acts|
  {
    if acts != [] {
      NextKeepsInv(s, acts[0]);
      KeepsAnswers(s, acts[0]);
      RunKeepsAnswers(Next(s, acts[0]), acts[1..]);
    }
  }

  /**
   * Acknowledgements are honest, in every reachable state: an ok answer for frame i means that every byte up to and
   * including frame i has reached the target; a failure answer, or a latched conn, means that a write to the target
   * failed or the worker's conn is closed; and once the gate has passed a half-close the target has its end of stream.
   */
  lemma AcksAreHonest(acts: seq<Action>)
    requires ValidRun(START, acts)
    ensures var t := After(START, acts);
            && (forall i :: i in t.acks && t.acks[i] ==> i < |t.wire| && Payload(t.wire[..i + 1]) <= t.w.target)
            && (forall i :: i in t.acks && !t.acks[i] ==> t.w.broken || t.w.closed)
            && (t.c.nak ==> t.w.broken || t.w.closed)
            && (t.c.closeWriteSent && t.w.next == |t.wire| && !t.w.broken ==> t.w.halfClosed)
  {
    StartInv();
    RunKeepsAnswers(START, acts);
    var t := After(START, acts);
    forall i | i in t.acks && t.acks[i] ensures i < |t.wire| && Payload(t.wire[..i + 1]) <= t.w.target {
      assert Honest(t, i, t.acks[i]);
    }
    forall i | i in t.acks && !t.acks[i] ensures t.w.broken || t.w.closed {
      assert Honest(t, i, t.acks[i]);
    }
  }

  // ----- The latch -----

  /** The frames sent, and the one being sent. */
  function Committed(s: State): nat
  {
    |s.wire| + if s.c.writer.At(Sending) then 1 else 0
  }

  lemma LatchedClient(s: State, a: ClientStep)
    requires ClientMay(s, a) && s.c.nak
    ensures var t := ClientDoes(s, a); t.c.nak && s.wire <= t.wire && Committed(t) <= Committed(s)
  {
  }

  lemma LatchedStep(s: State, a: Action)
    requires Enabled(s, a) && s.c.nak
    ensures var t := Next(s, a); t.c.nak && s.wire <= t.wire && Committed(t) <= Committed(s)
  {
    match a
    case ByClient(c) => LatchedClient(s, c);
    case ByWorker(w) => WorkerFrame(s, w);
    case ChannelDies =>
  }

  lemma {:induction false} LatchedRun(s: State, acts: seq<Action>)
    requires ValidRun(s, acts) && s.c.nak
    ensures var t := After(s, acts); t.c.nak && s.wire <= t.wire && Committed(t) <= Committed(s)
    decreases |acts|
  {
    if acts != [] {
      LatchedStep(s, acts[0]);
      LatchedRun(Next(s, acts[0]), acts[1..]);
    }
  }

  /**
   * A refusal is final: once a waiter has seen a failure answer, no continuation puts another frame on the wire, except
   * the one that was being sent at that moment.
   */
  lemma NakStopsWrites(s: State, n: nat, later: seq<Action>)
    requires Enabled(s, ByClient(WakeOnAck(n))) && !s.acks[n]
    requires ValidRun(Next(s, ByClient(WakeOnAck(n))), later)
    ensures var t := After(Next(s, ByClient(WakeOnAck(n))), later);
            s.wire <= t.wire && |t.wire| <= |s.wire| + (if s.c.writer.At(Sending) then 1 else 0)
  {
    LatchedRun(Next(s, ByClient(WakeOnAck(n))), later);
  }

  // ----- Close -----

  lemma ClosedStep(s: State, a: Action)
    requires Enabled(s, a) && s.c.closed
    ensures var t := Next(s, a); t.c.closed && (s.c.closing.CloseSent? ==> t.c.closing == s.c.closing)
  {
    match a
    case ByClient(c) => ClosedClient(s, c);
    case ByWorker(w) => WorkerFrame(s, w);
    case ChannelDies =>
  }

  lemma ClosedClient(s: State, a: ClientStep)
    requires ClientMay(s, a) && s.c.closed
    ensures var t := ClientDoes(s, a); t.c.closed && (s.c.closing.CloseSent? ==> t.c.closing == s.c.closing)
  {
  }

  /**
   * Close asks exactly once: in every reachable state the remote close has been asked for exactly when the conn is
   * closed, and from then on no Close asks again and a close that was sent is never sent anew.
   */
  lemma CloseAsksOnce(acts: seq<Action>, later: seq<Action>)
    requires ValidRun(START, acts) && ValidRun(After(START, acts), later)
    ensures var s, t := After(START, acts), After(After(START, acts), later);
            && (s.c.closed <==> !s.c.closing.NotAsked?)
            && (s.c.closed ==> t.c.closed && !Enabled(t, ByClient(CloseConn)))
            && (s.c.closing.CloseSent? ==> t.c.closing == s.c.closing)
  {
    StartInv();
    RunKeepsInv(START, acts);
    if After(START, acts).c.closed {
      ClosedRun(After(START, acts), later);
    }
  }

  lemma {:induction false} ClosedRun(s: State, acts: seq<Action>)
    requires ValidRun(s, acts) && s.c.closed
    ensures var t := After(s, acts); t.c.closed && (s.c.closing.CloseSent? ==> t.c.closing == s.c.closing)
    decreases |acts|
  {
    if acts != [] {
      ClosedStep(s, acts[0]);
      ClosedRun(Next(s, acts[0]), acts[1..]);
    }
  }

  /** A step of the client in which nothing times out and no send fails. */
  predicate Willing(a: Action)
  {
    a.ByClient? && !a.c.SendFail? && !a.c.ReadSeqTimeout?
  }

  ghost predicate AllWilling(acts: seq<Action>)
  {
    forall i :: 0 <= i < |acts| ==> Willing(acts[i])
  }

  /** How many steps the holder of writeMu is from letting go of it, once the conn is closed. */
  function ToFree(w: Writer): nat
  {
    if w.Free? then 0 else match w.pc case Holding => 1 case Parked => 1 case AtTop => 2 case Sending => 3
  }

  /** A closed conn's writer lets go of writeMu: it ends at its next check, or puts the frame in hand on the wire first. */
  lemma WriterLetsGo(s: State) returns (a: ClientStep)
    requires s.c.closed && !s.dead && !s.c.writer.Free?
    ensures ClientMay(s, a) && Willing(ByClient(a))
    ensures var t := ClientDoes(s, a);
            && ToFree(t.c.writer) < ToFree(s.c.writer) && t.c.closed && !t.dead && t.w == s.w && t.c.closing == s.c.closing
            && s.wire <= t.wire && Committed(t) <= Committed(s)
  {
    a := match s.c.writer.pc case AtTop => Check case Parked => GiveUp case Holding => Recheck case Sending => SendOk;
  }

  lemma {:induction false} FreeWriter(s: State) returns (acts: seq<Action>)
    requires Reached(s) && s.c.closed && !s.dead
    ensures ValidRun(s, acts) && AllWilling(acts)
    ensures var t := After(s, acts);
            && Reached(t) && t.c.writer.Free? && !t.dead && t.w == s.w && t.c.closing == s.c.closing
            && s.wire <= t.wire && |t.wire| <= Committed(s)
    decreases ToFree(s.c.writer)
  {
    if s.c.writer.Free? {
      acts := [];
    } else {
      var a := WriterLetsGo(s);
      var t := ClientDoes(s, a);
      ReachedNext(s, ByClient(a));
      var rest := FreeWriter(t);
      acts := Prepend(s, ByClient(a), t, rest);
    }
  }

  lemma Snoc(s: State, acts: seq<Action>, a: Action) returns (more: seq<Action>)
    requires ValidRun(s, acts) && Enabled(After(s, acts), a) && Reached(After(s, acts))
    ensures more == acts + [a] && ValidRun(s, more) && After(s, more) == Next(After(s, acts), a) && Reached(After(s, more))
  {
    RunSnoc(s, acts, a);
    ReachedNext(After(s, acts), a);
    more := acts + [a];
  }

  lemma OrderedClose(s: State) returns (acts: seq<Action>)
    requires Reached(s) && s.c.closing.Asked? && s.c.closed && !s.dead
    ensures ValidRun(s, acts) && AllWilling(acts)
    ensures var t := After(s, acts);
            && Reached(t) && t.c.closing == CloseSent(|t.wire|, true) && t.c.writer.Free? && !t.dead && t.w == s.w
            && s.wire <= t.wire && |t.wire| <= Committed(s)
  {
    acts := FreeWriter(s);
    ReachedInv(After(s, acts));
    acts := Snoc(s, acts, ByClient(ReadSeq));
    acts := Snoc(s, acts, ByClient(SendClose));
  }

  /**
   * A close gets out: from every reachable state with the conn closed and the channel alive, client steps alone, none
   * of them failing, lead to a sent CloseTunnelConn. If its number was still to be chosen, the close is ordered and
   * counts every frame ever sent; the wire gains at most the frame that was being sent.
   */
  lemma CloseGetsOut(acts: seq<Action>) returns (more: seq<Action>)
    requires ValidRun(START, acts) && After(START, acts).c.closed && !After(START, acts).dead
    ensures ValidRun(After(START, acts), more) && AllWilling(more)
    ensures var s, t := After(START, acts), After(After(START, acts), more);
            && t.c.closing.CloseSent? && s.wire <= t.wire && |t.wire| <= |s.wire| + (if s.c.writer.At(Sending) then 1 else 0)
            && (s.c.closing.Asked? ==> t.c.closing == CloseSent(|t.wire|, true))
            && (s.c.closing.Chosen? || s.c.closing.CloseSent? ==> t.c.closing.num == s.c.closing.num && t.c.closing.ordered == s.c.closing.ordered)
  {
    var s := After(START, acts);
    assert Reached(s);
    ReachedInv(s);
    match s.c.closing
    case Asked => more := OrderedClose(s);
    case Chosen(_, _) =>
      assert ValidRun(s, []) && After(s, []) == s;
      more := Snoc(s, [], ByClient(SendClose));
    case CloseSent(_, _) => more := [];
  }

  // ----- The worker finishes -----

  predicate Working(a: Action)
  {
    a.ByWorker? && !a.w.ForceClose?
  }

  ghost predicate AllWorking(acts: seq<Action>)
  {
    forall i :: 0 <= i < |acts| ==> Working(acts[i])
  }

  lemma PassOne(s: State) returns (a: Action, t: State)
    requires Reached(s) && !s.w.closed && s.w.next < |s.wire|
    ensures Enabled(s, a) && Working(a) && t == Next(s, a) && Reached(t)
    ensures t.wire == s.wire && t.c == s.c && !t.w.closed && t.w.broken == s.w.broken && InRange(t)
    ensures || t.w.dispatched > s.w.dispatched
            || (t.w.dispatched == s.w.dispatched && t.w.next > s.w.next)
            || (t.w.dispatched == s.w.dispatched && t.w.next == s.w.next && Unclaimed(t) < Unclaimed(s))
  {
    ReachedInv(s);
    var w := WorkerPasses(s);
    a := ByWorker(w);
    t := Next(s, a);
    ReachedNext(s, a);
  }

  /** Worker steps alone take the gate past every frame on the wire. */
  lemma {:induction false} GatePassesAll(s: State) returns (acts: seq<Action>)
    requires Reached(s) && !s.w.closed && InRange(s)
    ensures ValidRun(s, acts) && AllWorking(acts)
    ensures var t := After(s, acts);
            Reached(t) && t.w.next == |t.wire| && t.wire == s.wire && t.c == s.c && !t.w.closed && t.w.broken == s.w.broken
    decreases |s.wire| - s.w.dispatched, |s.wire| - s.w.next, Unclaimed(s)
  {
    if s.w.next == |s.wire| {
      acts := [];
    } else {
      var a, t := PassOne(s);
      var rest := GatePassesAll(t);
      acts := Prepend(s, a, t, rest);
    }
  }

  lemma ReachedAnswers(s: State)
    requires Reached(s)
    ensures AnswersInv(s) && EofInv(s)
  {
    var acts :| ValidRun(START, acts) && After(START, acts) == s;
    StartInv();
    RunKeepsAnswers(START, acts);
  }

  // ----- A call gets through -----

  /** Conn, channel and worker are up and the target takes its writes. */
  predicate Healthy(s: State)
  {
    Up(s) && !s.w.broken
  }

  /** The running call's own steps, none of them failing, and the acknowledging of frames. */
  predicate Sends(a: Action)
  {
    Acknowledging(a) || (a.ByClient? && (a.c.Check? || a.c.AcquireSlot? || a.c.Recheck? || a.c.SendOk?))
  }

  ghost predicate AllSend(acts: seq<Action>)
  {
    forall i :: 0 <= i < |acts| ==> Sends(acts[i])
  }

  /** How far the call is from its next frame. */
  function ToSend(p: Pc): nat
  {
    match p case Sending => 0 case Holding => 1 case Parked => 2 case AtTop => 3
  }

  function Unsent(w: Writer): nat
  {
    if w.Writing? && w.written <= |w.buf| then |w.buf| - w.written else 0
  }

  /** t is s with its call closer to the end: nothing else about the stream has changed. */
  ghost predicate Onward(s: State, t: State)
    requires !s.c.writer.Free?
  {
    && Reached(t) && Healthy(t) && !t.c.closeWriteSent && t.c.reported == s.c.reported && !t.c.writer.Free?
    && t.c.writer.Writing? == s.c.writer.Writing? && (s.c.writer.Writing? ==> t.c.writer.buf == s.c.writer.buf)
    && (Unsent(t.c.writer) < Unsent(s.c.writer) || (Unsent(t.c.writer) == Unsent(s.c.writer) && ToSend(t.c.writer.pc) < ToSend(s.c.writer.pc)))
  }

  /** The call of s has returned in t, with all of it on the wire. */
  ghost predicate Completed(s: State, t: State)
  {
    && Reached(t) && Healthy(t) && t.c.writer.Free?
    && t.c.reported == s.c.reported + (if s.c.writer.Writing? then s.c.writer.buf else [])
    && t.c.closeWriteSent == s.c.writer.HalfClosing?
  }

  lemma Passing(s: State)
    requires Reached(s) && Healthy(s) && !s.c.closeWriteSent && (s.c.writer.At(AtTop) || s.c.writer.At(Holding))
    ensures var a := ByClient(if s.c.writer.At(AtTop) then Check else Recheck); Enabled(s, a) && Onward(s, Next(s, a))
  {
    ReachedAnswers(s);
    ReachedNext(s, ByClient(if s.c.writer.At(AtTop) then Check else Recheck));
  }

  lemma SendingOne(s: State)
    requires Reached(s) && Healthy(s) && !s.c.closeWriteSent && s.c.writer.At(Sending)
    ensures var t := Next(s, ByClient(SendOk)); Onward(s, t) || Completed(s, t)
  {
    ReachedInv(s);
    ReachedNext(s, ByClient(SendOk));
    var w := s.c.writer;
    if w.Writing? {
      assert w.buf[..|w.buf|] == w.buf;
    }
  }

  lemma TakingASlot(s: State) returns (acts: seq<Action>)
    requires Reached(s) && Healthy(s) && !s.c.closeWriteSent && s.c.writer.At(Parked)
    ensures ValidRun(s, acts) && AllSend(acts) && Onward(s, After(s, acts))
  {
    ReachedInv(s);
    acts := Drain(s);
    ReachedInv(After(s, acts));
    acts := Snoc(s, acts, ByClient(AcquireSlot));
  }

  lemma CallMoves(s: State) returns (acts: seq<Action>)
    requires Reached(s) && Healthy(s) && !s.c.closeWriteSent && !s.c.writer.Free?
    ensures ValidRun(s, acts) && AllSend(acts) && (Onward(s, After(s, acts)) || Completed(s, After(s, acts)))
  {
    if s.c.writer.At(Parked) {
      acts := TakingASlot(s);
    } else {
      var a := if s.c.writer.At(AtTop) then Check else if s.c.writer.At(Holding) then Recheck else SendOk;
      if a == SendOk {
        SendingOne(s);
      } else {
        Passing(s);
      }
      assert ValidRun(s, []) && After(s, []) == s;
      acts := Snoc(s, [], ByClient(a));
    }
  }

  lemma {:induction false} CompleteCall(s: State) returns (acts: seq<Action>)
    requires Reached(s) && Healthy(s) && !s.c.closeWriteSent && !s.c.writer.Free?
    ensures ValidRun(s, acts) && AllSend(acts) && Completed(s, After(s, acts))
    decreases Unsent(s.c.writer), ToSend(s.c.writer.pc)
  {
    acts := CallMoves(s);
    var t := After(s, acts);
    if !Completed(s, t) {
      var rest := CompleteCall(t);
      RunConcat(s, acts, rest);
      acts := acts + rest;
    }
  }

  lemma EverythingArrives(s: State) returns (acts: seq<Action>)
    requires Reached(s) && !s.w.closed && !s.w.broken && s.c.writer.Free?
    ensures ValidRun(s, acts) && AllWorking(acts)
    ensures var t := After(s, acts); t.c == s.c && t.w.target == t.c.reported && (t.c.closeWriteSent ==> t.w.halfClosed)
  {
    ReachedInv(s);
    acts := GatePassesAll(s);
    var t := After(s, acts);
    ReachedInv(t);
    ReachedAnswers(t);
    assert t.wire[..|t.wire|] == t.wire;
    assert t.c.reported + [] == t.c.reported;
  }

  /**
   * A call gets through: from every reachable state with conn, channel and worker up, the target healthy, no half-close
   * sent and a Write or CloseWrite running, that call's own steps and acknowledgements lead to its return with every
   * byte of its buffer reported, or the half-close sent; and worker steps then bring all that was ever reported, and
   * the end of stream, to the target.
   */
  lemma CallGetsThrough(acts: seq<Action>) returns (send: seq<Action>, serve: seq<Action>)
    requires ValidRun(START, acts)
    requires var s := After(START, acts); Healthy(s) && !s.c.closeWriteSent && !s.c.writer.Free?
    ensures ValidRun(After(START, acts), send) && AllSend(send)
    ensures ValidRun(After(After(START, acts), send), serve) && AllWorking(serve)
    ensures var s, t := After(START, acts), After(After(After(START, acts), send), serve);
            && t.c.writer.Free? && t.c.reported == s.c.reported + (if s.c.writer.Writing? then s.c.writer.buf else [])
            && t.w.target == t.c.reported && (s.c.writer.HalfClosing? ==> t.c.closeWriteSent && t.w.halfClosed)
  {
    var s := After(START, acts);
    assert Reached(s);
    send := CompleteCall(s);
    serve := EverythingArrives(After(s, send));
  }

  // ----- A close is honoured -----

  /**
   * A close is honoured: from every reachable state with the close asked for and channel and worker up, client steps
   * without failures and then worker steps lead to the graceful close of the worker's conn. If no write to the target
   * had failed, the target then has every byte that was ever put on the wire, and its end of stream if one was sent.
   */
  lemma CloseIsHonoured(acts: seq<Action>) returns (close: seq<Action>, serve: seq<Action>)
    requires ValidRun(START, acts)
    requires var s := After(START, acts); s.c.closing.Asked? && !s.dead && !s.w.closed
    ensures ValidRun(After(START, acts), close) && AllWilling(close)
    ensures ValidRun(After(After(START, acts), close), serve) && AllWorking(serve)
    ensures var s, t := After(START, acts), After(After(After(START, acts), close), serve);
            && t.w.graceful && t.w.closed && s.wire <= t.wire
            && (!s.w.broken ==> t.w.target == Payload(t.wire) == t.c.reported && (t.c.closeWriteSent ==> t.w.halfClosed))
  {
    var s := After(START, acts);
    assert Reached(s);
    ReachedInv(s);
    close := OrderedClose(s);
    serve := Serve(After(s, close));
  }

  lemma Serve(s: State) returns (acts: seq<Action>)
    requires Reached(s) && !s.w.closed && s.c.closing == CloseSent(|s.wire|, true) && s.c.writer.Free?
    ensures ValidRun(s, acts) && AllWorking(acts)
    ensures var t := After(s, acts);
            && t.w.graceful && t.w.closed && t.wire == s.wire
            && (!s.w.broken ==> t.w.target == Payload(t.wire) == t.c.reported && (t.c.closeWriteSent ==> t.w.halfClosed))
  {
    ReachedInv(s);
    acts := GatePassesAll(s);
    var u := After(s, acts);
    acts := Snoc(s, acts, ByWorker(GracefulClose));
    var t := After(s, acts);
    ReachedInv(t);
    ReachedAnswers(t);
    assert t.wire[..|t.wire|] == t.wire;
    assert t.c.reported + [] == t.c.reported;
  }
}

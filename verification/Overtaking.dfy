/**
 * Read polls readBuf and then, in a separate step, terminal (backend/tunnel/conn.go). When can the end
 * overtake data in between? Exactly characterised on the state in which the reader stands between the polls.
 */
module Overtaking {
  import opened Downstream
  import opened Refill

  /** The reader, standing between its polls, will report the end although data is buffered. */
  predicate Overtaken(s: State)
  {
    s.terminal.Some? && s.readBuf != []
  }

  ghost predicate NoReader(acts: seq<Action>)
  {
    forall i :: 0 <= i < |acts| ==> !acts[i].ByReader?
  }

  predicate FinalHeld(d: Dispatcher)
  {
    d.Checked? && d.msg.Final?
  }

  predicate HasFinal(transit: seq<Msg>)
  {
    exists i :: 0 <= i < |transit| && transit[i].Final?
  }

  predicate HasData(s: State)
  {
    s.readBuf != [] || Rest(s) != []
  }

  /** The grant loop can still send a positive grant without the reader. */
  predicate CanGrant(s: State)
  {
    && !s.dead && !s.g.loop.Ended?
    && ((s.g.loop.Sending? && s.g.loop.grant > 0) || (s.g.pending > 0 && (s.g.signal || s.g.loop.Woken?)))
  }

  /** The worker can still come by a credit without the reader. */
  predicate Fed(s: State)
  {
    Supply(s) > 0 || CanGrant(s)
  }

  /**
   * The exact condition. After the end is latched: a frame is buffered or in the dispatcher's hands. With the
   * end in the dispatcher's hands: a frame is buffered. Otherwise the conn is not closed, and either the worker
   * has finished with data and the end both under way, or it runs and can still put both on the way.
   */
  predicate CanOvertake(s: State)
  {
    if s.terminal.Some? then s.readBuf != [] || Held(s.d) != []
    else if FinalHeld(s.d) then s.readBuf != []
    else
      && !s.closed
      && match s.w.stage
         case Stopped => HasFinal(s.transit) && HasData(s)
         case Reading => HasData(s) || Fed(s)
         case InHand(_) => Fed(s)
         case Credited(_) => true
  }

  // ----- Necessary: no step but the reader's can create the possibility -----

  lemma WorkerCannotAdd(s: State, a: WorkerStep)
    requires EndInv(s) && WorkerMay(s, a) && CanOvertake(WorkerDoes(s, a))
    ensures CanOvertake(s)
  {
    WorkerMoves(s, a);
    if a.ApplyGrant? || a.IgnoreGrant? {
      TotalRemove(s.grants, a.k);
    }
  }

  lemma DeliverCannotAdd(s: State)
    requires EndInv(s) && DispatcherMay(s, Deliver) && CanOvertake(DispatcherDoes(s, Deliver))
    ensures CanOvertake(s)
  {
    DeliverMoves(s);
  }

  lemma EnqueueCannotAdd(s: State)
    requires DispatcherMay(s, Enqueue) && CanOvertake(DispatcherDoes(s, Enqueue))
    ensures CanOvertake(s)
  {
    DispatcherMoves(s, Enqueue);
  }

  lemma DispatcherCannotAdd(s: State, a: DispatchStep)
    requires EndInv(s) && SizeInv(s) && DispatcherMay(s, a) && CanOvertake(DispatcherDoes(s, a))
    ensures CanOvertake(s)
  {
    match a
    case Deliver => DeliverCannotAdd(s);
    case Enqueue => EnqueueCannotAdd(s);
    case AbandonFrame => DispatcherMoves(s, a);
    case LatchOversize =>
    case LatchEnd =>
  }

  lemma LoopCannotAdd(s: State, a: LoopStep)
    requires LoopMay(s, a) && CanOvertake(LoopDoes(s, a))
    ensures CanOvertake(s)
  {
    if a.SendGrant? {
      TotalAppend(s.grants, [s.g.loop.grant]);
    }
  }

  lemma CannotAdd(s: State, a: Action)
    requires EndInv(s) && SizeInv(s) && Enabled(s, a) && !a.ByReader? && CanOvertake(Next(s, a))
    ensures CanOvertake(s)
  {
    match a
    case ByWorker(w) => WorkerCannotAdd(s, w);
    case ByDispatcher(d) => DispatcherCannotAdd(s, d);
    case ByLoop(l) => LoopCannotAdd(s, l);
    case Close =>
    case ChannelDies =>
  }

  // ----- Sufficient: the others can always bring it about -----

  function FeedCost(s: State): nat
  {
    if s.w.credit > 0 then 0 else if Total(s.grants) > 0 then 1 else 1 + LoopCost(s.g)
  }

  function StageCost(s: State): nat
  {
    match s.w.stage
    case Stopped => 0
    case Reading => if HasData(s) then 3 else 8 + FeedCost(s)
    case InHand(_) => 7 + FeedCost(s)
    case Credited(_) => 6
  }

  /** How far the end is from overtaking. */
  function Distance(s: State): nat
  {
    if s.terminal.Some? then |Held(s.d)| else 1 + Undelivered(s) + StageCost(s)
  }

  /** One step towards it. */
  ghost predicate Advances(s: State, a: Action)
  {
    Enabled(s, a) && !a.ByReader? && CanOvertake(Next(s, a)) && Distance(Next(s, a)) < Distance(s)
  }

  lemma EnqueueAdvances(s: State)
    requires CreditInv(s) && SizeInv(s) && CanOvertake(s) && !Overtaken(s) && s.d.Checked? && s.d.msg.Data?
    ensures Advances(s, ByDispatcher(Enqueue))
  {
    DispatcherNeverStuck(s);
    DispatcherMoves(s, Enqueue);
  }

  lemma LatchAdvances(s: State)
    requires CanOvertake(s) && !Overtaken(s) && FinalHeld(s.d)
    ensures Advances(s, ByDispatcher(LatchEnd))
  {
  }

  /** If the message at the head is the end, no data is under way. */
  lemma DeliversInOrder(s: State)
    requires EndInv(s) && s.d.Idle? && s.transit != []
    ensures s.transit[0].Final? ==> Rest(s) == []
  {
    if s.transit[0].Final? {
      assert s.transit[1..] == [] && DataOf(s.transit) == [] + DataOf(s.transit[1..]);
    }
  }

  lemma DeliverAdvances(s: State)
    requires EndInv(s) && CanOvertake(s) && s.terminal.None? && s.d.Idle? && s.transit != []
    ensures Advances(s, ByDispatcher(Deliver))
  {
    DeliversInOrder(s);
    DispatcherMoves(s, Deliver);
    var t := DispatcherDoes(s, Deliver);
    if s.w.stage.Stopped? && !FinalHeld(t.d) {
      var i :| 0 <= i < |s.transit| && s.transit[i].Final?;
      assert t.transit[i - 1].Final?;
    }
  }

  lemma WorkerAdvances(s: State) returns (a: Action)
    requires CanOvertake(s) && s.terminal.None? && s.d.Idle? && s.transit == []
    requires s.w.stage.Credited? || s.w.credit > 0 || (s.w.stage.Reading? && HasData(s))
    ensures Advances(s, a)
  {
    assert !s.w.stage.Stopped?;
    assert Rest(s) == [];
    match s.w.stage
    case Reading =>
      var w := if HasData(s) then SendEnd(Eof) else TargetRead([0]);
      WorkerMoves(s, w);
      assert HasData(s) ==> WorkerDoes(s, w).transit[0].Final?;
      a := ByWorker(w);
    case InHand(_) =>
      WorkerMoves(s, Acquire);
      a := ByWorker(Acquire);
    case Credited(_) =>
      WorkerMoves(s, SendData);
      a := ByWorker(SendData);
  }

  /** Between messages, the worker is short of credit. */
  predicate Starved(s: State)
  {
    && CanOvertake(s) && s.terminal.None? && s.d.Idle? && s.transit == []
    && !s.w.stage.Credited? && s.w.credit == 0 && !(s.w.stage.Reading? && HasData(s))
  }

  lemma GrantAdvances(s: State) returns (a: Action)
    requires Starved(s) && Total(s.grants) > 0
    ensures Advances(s, a)
  {
    var k := SomeGrant(s.grants);
    TotalRemove(s.grants, k);
    a := ByWorker(ApplyGrant(k));
  }

  lemma SendAdvances(s: State)
    requires Starved(s) && Total(s.grants) == 0 && s.g.loop.Sending?
    ensures Advances(s, ByLoop(SendGrant))
  {
    TotalAppend(s.grants, [s.g.loop.grant]);
  }

  lemma WakeAdvances(s: State) returns (a: Action)
    requires Starved(s) && Total(s.grants) == 0 && !s.g.loop.Sending?
    ensures Advances(s, a)
  {
    a := ByLoop(if s.g.loop.Woken? then TakeGrant else Wake);
  }

  lemma Advance(s: State) returns (a: Action, t: State)
    requires Inv(s) && CanOvertake(s) && !Overtaken(s)
    ensures Enabled(s, a) && t == Next(s, a) && !a.ByReader? && Inv(t) && CanOvertake(t) && Distance(t) < Distance(s)
  {
    if FinalHeld(s.d) {
      LatchAdvances(s);
      a := ByDispatcher(LatchEnd);
    } else if s.d.Checked? {
      EnqueueAdvances(s);
      a := ByDispatcher(Enqueue);
    } else if s.transit != [] {
      DeliverAdvances(s);
      a := ByDispatcher(Deliver);
    } else if s.w.stage.Credited? || s.w.credit > 0 || (s.w.stage.Reading? && HasData(s)) {
      a := WorkerAdvances(s);
    } else if Total(s.grants) > 0 {
      a := GrantAdvances(s);
    } else if s.g.loop.Sending? {
      SendAdvances(s);
      a := ByLoop(SendGrant);
    } else {
      a := WakeAdvances(s);
    }
    t := Next(s, a);
    NextKeepsInv(s, a);
  }

  lemma {:induction false} Overtake(s: State) returns (acts: seq<Action>)
    requires Inv(s) && CanOvertake(s)
    ensures ValidRun(s, acts) && NoReader(acts) && Overtaken(After(s, acts))
    decreases Distance(s)
  {
    if Overtaken(s) {
      acts := [];
    } else {
      var a, t := Advance(s);
      var rest := Overtake(t);
      acts := Prepend(s, a, t, rest);
    }
  }

  lemma {:induction false} OnlyIf(s: State, acts: seq<Action>)
    requires Inv(s) && ValidRun(s, acts) && NoReader(acts) && Overtaken(After(s, acts))
    ensures CanOvertake(s)
    decreases |acts|
  {
    if acts != [] {
      NextKeepsInv(s, acts[0]);
      assert forall i :: 0 <= i < |acts[1..]| ==> acts[1..][i] == acts[i + 1];
      OnlyIf(Next(s, acts[0]), acts[1..]);
      CannotAdd(s, acts[0]);
    }
  }

  lemma {:induction false} ReaderWaits(s: State, acts: seq<Action>)
    requires ValidRun(s, acts) && NoReader(acts)
    ensures After(s, acts).r == s.r
    decreases |acts|
  {
    if acts != [] {
      assert forall i :: 0 <= i < |acts[1..]| ==> acts[1..][i] == acts[i + 1];
      assert !acts[0].ByReader?;
      ReaderWaits(Next(s, acts[0]), acts[1..]);
      ReaderUntouched(s, acts[0]);
    }
  }

  lemma ReaderUntouched(s: State, a: Action)
    requires Enabled(s, a) && !a.ByReader?
    ensures Next(s, a).r == s.r
  {
    match a
    case ByWorker(w) => WorkerFrame(s, w);
    case ByDispatcher(d) => DispatcherFrame(s, d);
    case ByLoop(l) => LoopFrame(s, l);
    case Close =>
    case ChannelDies =>
  }

  /** This iteration of Read, standing at s between its polls, reports the end over data that is still buffered. */
  ghost predicate ReportsOverData(s: State, later: seq<Action>)
  {
    && ValidRun(s, later) && NoReader(later)
    && var t := After(s, later);
       ReaderMay(t, TryTerminal) && ReaderDoes(t, TryTerminal).r.pc.Free? && t.terminal.Some? && t.readBuf != []
  }

  /**
   * In every reachable state in which a Read iteration stands between its polls, there is an interleaving in
   * which it reports the end over buffered data if and only if CanOvertake holds of that state.
   */
  lemma TerminalBeforeDrainedIff(acts: seq<Action>)
    requires ValidRun(START, acts) && After(START, acts).r.pc.PollTerminal?
    ensures (exists later :: ReportsOverData(After(START, acts), later)) <==> CanOvertake(After(START, acts))
  {
    Reachable(acts);
    var s := After(START, acts);
    if CanOvertake(s) {
      var later := Overtake(s);
      ReaderWaits(s, later);
      assert ReportsOverData(s, later);
    }
    if later :| ReportsOverData(s, later) {
      OnlyIf(s, later);
    }
  }

  /** The condition, read off the state in which the poll finds readBuf empty, with the worker finished. */
  lemma ConditionAtThePoll(s: State)
    requires EndInv(s) && s.r.pc.PollBuf? && s.readBuf == [] && s.w.stage.Stopped?
    ensures CanOvertake(ReaderDoes(s, TryBuf))
            <==> (s.terminal.Some? && Held(s.d) != []) || (s.terminal.None? && !s.closed && Rest(s) != [] && HasFinal(s.transit))
  {
    var t := ReaderDoes(s, TryBuf);
    assert Rest(t) == Rest(s);
    if FinalHeld(s.d) {
      assert s.transit == [];
    }
  }

  /**
   * The same, seen from the moment the poll finds readBuf empty, with the worker finished: some interleaving
   * then reports the end over data if and only if the end is latched and a frame is in the dispatcher's hands, or
   * the end and a frame before it are both still under way to a conn that is not closed.
   */
  lemma AtThePoll(acts: seq<Action>)
    requires ValidRun(START, acts)
    requires var s := After(START, acts); s.r.pc.PollBuf? && s.readBuf == [] && s.w.stage.Stopped?
    ensures var s := After(START, acts);
            (exists later :: ReportsOverData(ReaderDoes(s, TryBuf), later))
            <==> (s.terminal.Some? && Held(s.d) != []) || (s.terminal.None? && !s.closed && Rest(s) != [] && HasFinal(s.transit))
  {
    Reachable(acts);
    ConditionAtThePoll(After(START, acts));
    RunSnoc(START, acts, ByReader(TryBuf));
    TerminalBeforeDrainedIff(acts + [ByReader(TryBuf)]);
  }
}

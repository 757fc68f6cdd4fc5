/**
 * desktop/go/operation_gate.go and the waitCounter of desktop/go/drain.go: admission, once-guarded
 * completion, and bounded drains that wait on a channel. One action per critical section.
 */
module OperationGate {
  import opened Bytes

  /** The sync.Once of one admitted operation: its done func not called, running, or run. */
  datatype Once = Live | Firing | Fired

  /** A drain, from the moment it sampled doneChan; `upTo` operations had been admitted by then. */
  datatype Drain = Parked(chan: nat, upTo: nat) | Drained(chan: nat, upTo: nat) | TimedOut

  /** Channels are numbered; shut[c] says whether channel c is closed. */
  datatype Counter = Counter(n: nat, zero: Option<nat>, shut: seq<bool>)

  datatype State = State(closed: bool, cancelled: bool, wc: Counter, ops: seq<Once>, drains: seq<Drain>, panicked: bool)

  const START: State := State(false, false, Counter(0, None, []), [], [], false)

  datatype Action = Begin | Close(cancels: bool) | CallDone(op: nat) | RunDone(op: nat) | Sample | Notice(d: nat) | GiveUp(d: nat)

  predicate Enabled(s: State, a: Action)
  {
    match a
    case Begin => true
    case Close(_) => true
    case CallDone(op) => op < |s.ops|
    case RunDone(op) => op < |s.ops| && s.ops[op] == Firing
    case Sample => true
    case Notice(d) => d < |s.drains| && s.drains[d].Parked? && s.drains[d].chan < |s.wc.shut| && s.wc.shut[s.drains[d].chan]
    case GiveUp(d) => d < |s.drains| && s.drains[d].Parked?
  }

  /** waitCounter.done on a counter that is not zero. */
  function Decrement(c: Counter): Counter
    requires c.n > 0
  {
    if c.n == 1 && c.zero.Some? && c.zero.value < |c.shut|
    then Counter(0, None, c.shut[c.zero.value := true])
    else c.(n := c.n - 1)
  }

  /** waitCounter.doneChan: the channel handed out. */
  function ChanFor(c: Counter): nat
  {
    if c.n > 0 && c.zero.Some? then c.zero.value else |c.shut|
  }

  function AfterSample(c: Counter): Counter
  {
    if c.n == 0 then c.(shut := c.shut + [true])
    else if c.zero.None? then c.(zero := Some(|c.shut|), shut := c.shut + [false])
    else c
  }

  function Next(s: State, a: Action): State
    requires Enabled(s, a)
  {
    match a
    case Begin => if s.closed then s else s.(wc := s.wc.(n := s.wc.n + 1), ops := s.ops + [Live])
    case Close(cancels) => s.(closed := true, cancelled := s.cancelled || cancels)
    case CallDone(op) => if s.ops[op] == Live then s.(ops := s.ops[op := Firing]) else s
    case RunDone(op) =>
      if s.wc.n == 0 then s.(panicked := true)
      else s.(ops := s.ops[op := Fired], wc := Decrement(s.wc))
    case Sample => s.(wc := AfterSample(s.wc), drains := s.drains + [Parked(ChanFor(s.wc), |s.ops|)])
    case Notice(d) => s.(drains := s.drains[d := Drained(s.drains[d].chan, s.drains[d].upTo)])
    case GiveUp(d) => s.(drains := s.drains[d := TimedOut])
  }

  // ----- Counting unfinished operations -----

  function Unfinished(ops: seq<Once>): (n: nat)
    ensures n == 0 <==> forall i :: 0 <= i < |ops| ==> ops[i] == Fired
  {
    if ops == [] then 0
    else Unfinished(ops[..|ops| - 1]) + (if ops[|ops| - 1] == Fired then 0 else 1)
  }

  lemma UnfinishedSnoc(ops: seq<Once>, o: Once)
    ensures Unfinished(ops + [o]) == Unfinished(ops) + (if o == Fired then 0 else 1)
  {
    assert (ops + [o])[..|ops|] == ops;
  }

  lemma {:induction false} UnfinishedUpdate(ops: seq<Once>, i: nat, o: Once)
    requires i < |ops|
    ensures Unfinished(ops[i := o]) + (if ops[i] == Fired then 0 else 1) == Unfinished(ops) + (if o == Fired then 0 else 1)
  {
    var last := |ops| - 1;
    if i == last {
      assert ops[i := o][..last] == ops[..last];
    } else {
      assert ops[i := o][..last] == ops[..last][i := o];
      UnfinishedUpdate(ops[..last], i, o);
    }
  }

  // ----- Invariant -----

  /** A drain waits on the counter's current channel, or on one that closed when everything before it was done. */
  predicate DrainOk(s: State, d: Drain)
  {
    !d.TimedOut? ==>
      && d.chan < |s.wc.shut| && d.upTo <= |s.ops|
      && (if s.wc.shut[d.chan] then forall i :: 0 <= i < d.upTo ==> s.ops[i] == Fired else s.wc.zero == Some(d.chan))
      && (d.Drained? ==> s.wc.shut[d.chan])
  }

  predicate CountInv(s: State)
  {
    && s.wc.n == Unfinished(s.ops)
    && (s.wc.zero.Some? ==> s.wc.n > 0 && s.wc.zero.value < |s.wc.shut| && !s.wc.shut[s.wc.zero.value])
    && !s.panicked
  }

  predicate Inv(s: State)
  {
    CountInv(s) && forall d :: 0 <= d < |s.drains| ==> DrainOk(s, s.drains[d])
  }

  lemma BeginKeepsCount(s: State)
    requires CountInv(s)
    ensures CountInv(Next(s, Begin))
  {
    UnfinishedSnoc(s.ops, Live);
  }

  lemma BeginKeepsDrain(s: State, d: Drain)
    requires DrainOk(s, d)
    ensures DrainOk(Next(s, Begin), d)
  {
  }

  lemma BeginKeepsInv(s: State)
    requires Inv(s)
    ensures Inv(Next(s, Begin))
  {
    BeginKeepsCount(s);
    forall d | 0 <= d < |s.drains| ensures DrainOk(Next(s, Begin), s.drains[d]) {
      BeginKeepsDrain(s, s.drains[d]);
    }
  }

  lemma CallDoneKeepsInv(s: State, op: nat)
    requires Inv(s) && op < |s.ops|
    ensures Inv(Next(s, CallDone(op)))
  {
    UnfinishedUpdate(s.ops, op, Firing);
    var t := Next(s, CallDone(op));
    forall d | 0 <= d < |t.drains| ensures DrainOk(t, t.drains[d]) {
      assert DrainOk(s, s.drains[d]);
    }
  }

  /** The counter is never zero here, so done never panics. */
  lemma RunDoneKeepsInv(s: State, op: nat)
    requires Inv(s) && Enabled(s, RunDone(op))
    ensures Inv(Next(s, RunDone(op))) && s.wc.n > 0
  {
    UnfinishedUpdate(s.ops, op, Fired);
    assert s.wc.n > 0;
    var t := Next(s, RunDone(op));
    forall d | 0 <= d < |t.drains| ensures DrainOk(t, t.drains[d]) {
      assert DrainOk(s, s.drains[d]);
    }
  }

  lemma SampleKeepsInv(s: State)
    requires Inv(s)
    ensures Inv(Next(s, Sample))
  {
    var t := Next(s, Sample);
    forall d | 0 <= d < |s.drains| ensures DrainOk(t, s.drains[d]) {
      assert DrainOk(s, s.drains[d]);
    }
    assert DrainOk(t, t.drains[|s.drains|]);
  }

  lemma NextKeepsInv(s: State, a: Action)
    requires Inv(s) && Enabled(s, a)
    ensures Inv(Next(s, a))
  {
    match a
    case Begin => BeginKeepsInv(s);
    case CallDone(op) => CallDoneKeepsInv(s, op);
    case RunDone(op) => RunDoneKeepsInv(s, op);
    case Sample => SampleKeepsInv(s);
    case _ =>
      var t := Next(s, a);
      forall d | 0 <= d < |t.drains| ensures DrainOk(t, t.drains[d]) {
        assert DrainOk(s, s.drains[d]);
      }
  }

  // ----- Over every run -----

  ghost predicate ValidRun(s: State, acts: seq<Action>)
    decreases |acts|
  {
    acts == [] || (Enabled(s, acts[0]) && ValidRun(Next(s, acts[0]), acts[1..]))
  }

  ghost function After(s: State, acts: seq<Action>): State
    requires ValidRun(s, acts)
    decreases |acts|
  {
    if acts == [] then s else After(Next(s, acts[0]), acts[1..])
  }

  lemma {:induction false} RunKeepsInv(s: State, acts: seq<Action>)
    requires Inv(s) && ValidRun(s, acts)
    ensures Inv(After(s, acts))
    decreases |acts|
  {
    if acts != [] {
      NextKeepsInv(s, acts[0]);
      RunKeepsInv(Next(s, acts[0]), acts[1..]);
    }
  }

  /**
   * The counter is the number of admitted operations whose done has not run, however often done is
   * called; done never panics; and a drain that reports success has outlived every operation admitted
   * before it sampled the counter.
   */
  lemma CounterIsExact(acts: seq<Action>)
    requires ValidRun(START, acts)
    ensures var t := After(START, acts);
            && t.wc.n == Unfinished(t.ops) && !t.panicked
            && forall d, i :: 0 <= d < |t.drains| && t.drains[d].Drained? && 0 <= i < t.drains[d].upTo && i < |t.ops| ==> t.ops[i] == Fired
  {
    RunKeepsInv(START, acts);
    var t := After(START, acts);
    assert forall d :: 0 <= d < |t.drains| ==> DrainOk(t, t.drains[d]);
  }

  /** Once the gate is closed, and its cancel has run with it, nothing is admitted any more. */
  lemma {:induction false} NothingAdmittedAfterClose(s: State, acts: seq<Action>)
    requires s.closed && ValidRun(s, acts)
    ensures var t := After(s, acts); t.closed && |t.ops| == |s.ops| && (s.cancelled ==> t.cancelled)
    decreases |acts|
  {
    if acts != [] {
      NothingAdmittedAfterClose(Next(s, acts[0]), acts[1..]);
    }
  }

  /** Closing the gate is final, whatever the state: from that very step on nothing is admitted, and a cancel that came with it stays. */
  lemma CloseIsFinal(s: State, cancels: bool, later: seq<Action>)
    requires ValidRun(Next(s, Close(cancels)), later)
    ensures var t := After(Next(s, Close(cancels)), later);
            t.closed && |t.ops| == |s.ops| && (cancels || s.cancelled ==> t.cancelled)
  {
    NothingAdmittedAfterClose(Next(s, Close(cancels)), later);
  }

  /** While the gate is open, each Begin admits one operation. */
  lemma OpenGateAdmits(s: State)
    requires Inv(s) && !s.closed
    ensures var t := Next(s, Begin); t.ops == s.ops + [Live] && t.wc.n == Unfinished(s.ops) + 1
  {
  }

  /** The operations' own steps. */
  ghost predicate AllCompleting(acts: seq<Action>)
  {
    forall i :: 0 <= i < |acts| ==> acts[i].CallDone? || acts[i].RunDone?
  }

  lemma FinishOne(s: State, op: nat) returns (acts: seq<Action>, t: State)
    requires Inv(s) && op < |s.ops| && s.ops[op] != Fired
    ensures ValidRun(s, acts) && AllCompleting(acts) && t == After(s, acts)
    ensures Inv(t) && Unfinished(t.ops) < Unfinished(s.ops) && t.drains == s.drains && |t.ops| == |s.ops|
  {
    var u := Next(s, CallDone(op));
    NextKeepsInv(s, CallDone(op));
    UnfinishedUpdate(s.ops, op, Firing);
    RunDoneKeepsInv(u, op);
    UnfinishedUpdate(u.ops, op, Fired);
    t := Next(u, RunDone(op));
    acts := [CallDone(op), RunDone(op)];
    assert acts[1..] == [RunDone(op)] && [RunDone(op)][1..] == [];
    assert ValidRun(t, []) && After(t, []) == t;
    assert ValidRun(u, [RunDone(op)]) && After(u, [RunDone(op)]) == t;
  }

  lemma {:induction false} RunConcat(s: State, first: seq<Action>, second: seq<Action>)
    requires ValidRun(s, first) && ValidRun(After(s, first), second)
    ensures ValidRun(s, first + second) && After(s, first + second) == After(After(s, first), second)
    decreases |first|
  {
    if first == [] {
      assert first + second == second;
    } else {
      assert (first + second)[1..] == first[1..] + second;
      RunConcat(Next(s, first[0]), first[1..], second);
    }
  }

  lemma {:induction false} FinishAll(s: State) returns (acts: seq<Action>)
    requires Inv(s)
    ensures ValidRun(s, acts) && AllCompleting(acts)
    ensures var t := After(s, acts); Inv(t) && t.wc.n == 0 == Unfinished(t.ops) && t.drains == s.drains
    decreases Unfinished(s.ops)
  {
    if Unfinished(s.ops) == 0 {
      acts := [];
    } else {
      var op :| 0 <= op < |s.ops| && s.ops[op] != Fired;
      var first, t := FinishOne(s, op);
      var rest := FinishAll(t);
      RunConcat(s, first, rest);
      acts := first + rest;
    }
  }

  /**
   * Drains end: from every reachable state, once the admitted operations call and run their done funcs, the counter
   * is zero and every drain still parked finds its channel closed.
   */
  lemma DrainsEnd(acts: seq<Action>) returns (more: seq<Action>)
    requires ValidRun(START, acts)
    ensures ValidRun(After(START, acts), more) && AllCompleting(more)
    ensures var s, t := After(START, acts), After(After(START, acts), more);
            && t.wc.n == 0 && t.drains == s.drains
            && forall d :: 0 <= d < |s.drains| && s.drains[d].Parked? ==> Enabled(t, Notice(d)) && Next(t, Notice(d)).drains[d].Drained?
  {
    RunKeepsInv(START, acts);
    var s := After(START, acts);
    more := FinishAll(s);
    var t := After(s, more);
    forall d | 0 <= d < |s.drains| && s.drains[d].Parked? ensures Enabled(t, Notice(d)) && Next(t, Notice(d)).drains[d].Drained? {
      assert DrainOk(t, t.drains[d]);
    }
  }

  lemma {:induction false} DrainsAreKept(s: State, acts: seq<Action>, d: nat)
    requires d < |s.drains| && ValidRun(s, acts)
    ensures var t := After(s, acts);
            d < |t.drains| && (!t.drains[d].TimedOut? ==> !s.drains[d].TimedOut? && t.drains[d].upTo == s.drains[d].upTo)
    decreases |acts|
  {
    if acts != [] {
      DrainsAreKept(Next(s, acts[0]), acts[1..], d);
    }
  }

  /** Shutdown's order, close and then drain: if that drain reports success, every operation ever admitted has finished. */
  lemma DrainAfterCloseCoversAll(before: seq<Action>, later: seq<Action>)
    requires ValidRun(START, before) && After(START, before).closed
    requires ValidRun(Next(After(START, before), Sample), later)
    ensures var s := After(START, before);
            var t := After(Next(s, Sample), later);
            |s.drains| < |t.drains| && (t.drains[|s.drains|].Drained? ==> Unfinished(t.ops) == 0 == t.wc.n)
  {
    RunKeepsInv(START, before);
    var s := After(START, before);
    var u := Next(s, Sample);
    NextKeepsInv(s, Sample);
    RunKeepsInv(u, later);
    NothingAdmittedAfterClose(u, later);
    DrainsAreKept(u, later, |s.drains|);
    var t := After(u, later);
    assert DrainOk(t, t.drains[|s.drains|]);
  }

  /** Without the close first, a drain can report success while an operation admitted after its sample still runs. */
  lemma OpenGateDrainCanMissWork() returns (acts: seq<Action>)
    ensures ValidRun(START, acts)
    ensures var t := After(START, acts); !t.closed && |t.drains| == 1 && t.drains[0].Drained? && t.wc.n == 1
  {
    var s1 := Next(START, Sample);
    var s2 := Next(s1, Notice(0));
    var s3 := Next(s2, Begin);
    assert ValidRun(s3, []) && After(s3, []) == s3;
    assert [Notice(0), Begin][1..] == [Begin] && [Begin][1..] == [];
    assert ValidRun(s2, [Begin]) && After(s2, [Begin]) == s3;
    assert ValidRun(s1, [Notice(0), Begin]) && After(s1, [Notice(0), Begin]) == s3;
    acts := [Sample, Notice(0), Begin];
    assert acts[1..] == [Notice(0), Begin];
  }

  // ----- The objects -----

  /** waitCounter, with the channels it has handed out. */
  class WaitCounter {
    var n: nat
    var zero: Option<nat>
    var shut: seq<bool>

    constructor ()
      ensures Value() == START.wc
    {
      n, zero, shut := 0, None, [];
    }

    function Value(): Counter
      reads this
    {
      Counter(n, zero, shut)
    }

    method Add()
      modifies this
      ensures Value() == old(Value()).(n := old(n) + 1)
    {
      n := n + 1;
    }

    /** Panics, before changing anything, exactly when the counter is zero. */
    method Done() returns (panics: bool)
      requires zero.Some? ==> zero.value < |shut|
      modifies this
      ensures panics <==> old(n) == 0
      ensures Value() == if panics then old(Value()) else Decrement(old(Value()))
    {
      if n == 0 {
        return true;
      }
      n := n - 1;
      if n == 0 && zero.Some? {
        shut := shut[zero.value := true];
        zero := None;
      }
      return false;
    }

    method DoneChan() returns (chan: nat)
      requires zero.Some? ==> zero.value < |shut|
      modifies this
      ensures chan == ChanFor(old(Value())) && Value() == AfterSample(old(Value()))
      ensures chan < |shut| && (old(n) == 0 <==> shut[chan] && chan == |old(shut)|)
    {
      if n == 0 {
        chan := |shut|;
        shut := shut + [true];
        return;
      }
      if zero.None? {
        zero := Some(|shut|);
        shut := shut + [false];
      }
      return zero.value;
    }
  }

  /** operationGate: every method is one action of the model, so every run of it keeps Inv. */
  class Gate {
    var closed: bool
    var cancelled: bool
    var ops: seq<Once>
    ghost var drains: seq<Drain>
    const wc: WaitCounter

    constructor ()
      ensures Value() == START && Inv(Value())
    {
      closed, cancelled, ops, drains := false, false, [], [];
      wc := new WaitCounter();
    }

    ghost function Value(): State
      reads this, wc
    {
      State(closed, cancelled, wc.Value(), ops, drains, false)
    }

    /** begin: admits, handing out the done func numbered `op`, exactly when the gate is open. */
    method BeginOperation() returns (admitted: bool, op: nat)
      requires Inv(Value())
      modifies this, wc
      ensures Value() == Next(old(Value()), Begin) && Inv(Value())
      ensures admitted <==> !old(closed)
      ensures admitted ==> op < |ops| && ops[op] == Live && wc.n == old(wc.n) + 1
    {
      BeginKeepsInv(Value());
      if closed {
        return false, 0;
      }
      wc.Add();
      ops := ops + [Live];
      return true, |ops| - 1;
    }

    method CloseGate(cancels: bool)
      requires Inv(Value())
      modifies this
      ensures Value() == Next(old(Value()), Close(cancels)) && Inv(Value())
    {
      NextKeepsInv(Value(), Close(cancels));
      closed := true;
      cancelled := cancelled || cancels;
    }

    /** The done func: only its first call reaches the counter, which it never finds at zero. */
    method Done(op: nat)
      requires Inv(Value()) && op < |ops| && ops[op] != Firing
      modifies this, wc
      ensures Inv(Value()) && ops == old(ops)[op := Fired]
      ensures wc.n == old(wc.n) - (if old(ops)[op] == Fired then 0 else 1)
    {
      if ops[op] == Live {
        ghost var s := Value();
        CallDoneKeepsInv(s, op);
        RunDoneKeepsInv(Next(s, CallDone(op)), op);
        ops := ops[op := Firing];
        var panics := wc.Done();
        ops := ops[op := Fired];
        assert Value() == Next(Next(s, CallDone(op)), RunDone(op));
      }
    }

    /** The sampling half of drain. */
    method StartDrain() returns (chan: nat)
      requires Inv(Value())
      modifies this, wc
      ensures Value() == Next(old(Value()), Sample) && Inv(Value())
      ensures chan < |wc.shut| && (wc.shut[chan] <==> Unfinished(ops) == 0)
    {
      SampleKeepsInv(Value());
      chan := wc.DoneChan();
      drains := drains + [Parked(chan, |ops|)];
    }
  }
}

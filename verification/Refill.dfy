/**
 * Progress of the read half (backend/tunnel/conn.go, read_credit.go): from every open state the client alone
 * -- dispatcher, reader and grant loop -- can bring credit back to the worker.
 */
module Refill {
  import opened Bytes
  import opened Downstream

  /** A step of the client's own goroutines. */
  predicate ByClient(a: Action)
  {
    a.ByDispatcher? || a.ByReader? || a.ByLoop?
  }

  ghost predicate AllByClient(acts: seq<Action>)
  {
    forall i :: 0 <= i < |acts| ==> ByClient(acts[i])
  }

  /** Credit the worker has, or that is on its way to it. */
  function Supply(s: State): nat
  {
    s.w.credit + Total(s.grants)
  }

  function LoopCost(g: Granter): nat
  {
    (if g.signal then 4 else 0) + (match g.loop case Woken => 3 case Sending(_) => 1 case _ => 0)
  }

  function PcCost(pc: Pc): nat
  {
    match pc
    case MustAccrue => 7
    case MustPoke => 6
    case Free => 5
    case AtTop(_) => 4
    case PollBuf(_) => 3
    case PollTerminal(_) => 2
    case Parked(_) => 1
  }

  function Undelivered(s: State): nat
  {
    2 * |s.transit| + (if s.d.Checked? then 1 else 0)
  }

  /** What the client does next to return credit; None once there is nothing left to return. */
  function ClientTurn(s: State): Option<Action>
  {
    if s.d.Checked? then Some(ByDispatcher(Enqueue))
    else if s.transit != [] then Some(ByDispatcher(Deliver))
    else if s.g.loop.Sending? then Some(ByLoop(SendGrant))
    else if s.g.loop.Woken? then Some(ByLoop(TakeGrant))
    else if s.g.signal then Some(ByLoop(Wake))
    else if s.r.pc.MustAccrue? then Some(ByReader(AccrueCredit))
    else if s.r.pc.MustPoke? then Some(ByReader(PokeLoop))
    else if s.readBuf == [] then None
    else match s.r.pc
      case Free => Some(ByReader(BeginRead(1)))
      case AtTop(_) => Some(ByReader(TopCheck))
      case PollBuf(_) => Some(ByReader(TryBuf))
      case PollTerminal(_) => Some(ByReader(TryTerminal))
      case _ => Some(ByReader(TakeParked))
  }

  /** t is closer than s to having returned all credit. */
  predicate Closer(t: State, s: State)
  {
    || Undelivered(t) < Undelivered(s)
    || (Undelivered(t) == Undelivered(s) && |t.readBuf| < |s.readBuf|)
    || (Undelivered(t) == Undelivered(s) && |t.readBuf| == |s.readBuf| && |t.r.part| < |s.r.part|)
    || (Undelivered(t) == Undelivered(s) && |t.readBuf| == |s.readBuf| && |t.r.part| == |s.r.part| && PcCost(t.r.pc) < PcCost(s.r.pc))
    || (Undelivered(t) == Undelivered(s) && |t.readBuf| == |s.readBuf| && |t.r.part| == |s.r.part| && PcCost(t.r.pc) == PcCost(s.r.pc)
        && LoopCost(t.g) < LoopCost(s.g))
  }

  /** What the client's turns leave alone. */
  predicate SameWorker(s: State, t: State)
  {
    t.w == s.w && t.closed == s.closed && t.dead == s.dead && t.terminal == s.terminal
  }

  lemma DispatcherTurn(s: State)
    requires CreditInv(s) && SizeInv(s) && EndInv(s) && Open(s) && (s.d.Checked? || s.transit != [])
    ensures var a := ClientTurn(s);
            a.Some? && Enabled(s, a.value) && ByClient(a.value) && Closer(Next(s, a.value), s) && SameWorker(s, Next(s, a.value))
  {
    if s.d.Checked? {
      DispatcherNeverStuck(s);
    }
  }

  lemma LoopTurn(s: State)
    requires WakeInv(s) && Open(s) && s.d.Idle? && s.transit == [] && (s.g.loop.Sending? || s.g.loop.Woken? || s.g.signal)
    ensures var a := ClientTurn(s);
            a.Some? && Enabled(s, a.value) && ByClient(a.value) && Closer(Next(s, a.value), s) && SameWorker(s, Next(s, a.value))
  {
  }

  lemma ReaderTurn(s: State)
    requires WakeInv(s) && Open(s) && s.d.Idle? && s.transit == [] && s.g.loop.Waiting? && !s.g.signal && ClientTurn(s).Some?
    ensures var a := ClientTurn(s);
            a.Some? && Enabled(s, a.value) && ByClient(a.value) && Closer(Next(s, a.value), s) && SameWorker(s, Next(s, a.value))
  {
  }

  /** With nothing left to do, all but a partial batch is with the worker or on its way. */
  lemma NothingLeft(s: State)
    requires Reached(s) && Open(s) && ClientTurn(s).None?
    ensures Supply(s) >= 112
  {
    ReachedInv(s);
    CountWhatIsLeft(s);
  }

  lemma CountWhatIsLeft(s: State)
    requires CreditInv(s) && WakeInv(s) && Open(s) && ClientTurn(s).None?
    ensures Supply(s) >= 112
  {
    assert s.readBuf == [] && s.g.loop.Waiting? && !s.g.signal && !s.g.Ready();
    assert Rest(s) == [];
  }

  lemma TakeTurn(s: State) returns (a: Action, t: State)
    requires Reached(s) && Open(s) && ClientTurn(s).Some?
    ensures Enabled(s, a) && ByClient(a) && t == Next(s, a) && Reached(t) && SameWorker(s, t) && Closer(t, s)
  {
    ReachedInv(s);
    a := ClientTurn(s).value;
    if s.d.Checked? || s.transit != [] {
      DispatcherTurn(s);
    } else if s.g.loop.Sending? || s.g.loop.Woken? || s.g.signal {
      LoopTurn(s);
    } else {
      ReaderTurn(s);
    }
    t := Next(s, a);
    ReachedNext(s, a);
  }

  /** A run from t, preceded by the step that leads to t. */
  lemma Prepend(s: State, a: Action, t: State, rest: seq<Action>) returns (acts: seq<Action>)
    requires Enabled(s, a) && t == Next(s, a) && ValidRun(t, rest)
    ensures acts == [a] + rest && ValidRun(s, acts) && After(s, acts) == After(t, rest)
  {
    acts := [a] + rest;
    assert acts[1..] == rest;
  }

  lemma {:induction false} RunAppend(s: State, first: seq<Action>, second: seq<Action>)
    requires ValidRun(s, first) && ValidRun(After(s, first), second)
    ensures ValidRun(s, first + second) && After(s, first + second) == After(After(s, first), second)
    decreases |first|
  {
    if first == [] {
      assert first + second == second;
    } else {
      assert (first + second)[1..] == first[1..] + second;
      RunAppend(Next(s, first[0]), first[1..], second);
    }
  }

  /** From every open state the client's own steps lead to one in which the worker has, or will get, at least 112 credits. */
  lemma {:induction false} CreditReturns(s: State) returns (acts: seq<Action>)
    requires Reached(s) && Open(s)
    ensures ValidRun(s, acts) && AllByClient(acts)
    ensures var t := After(s, acts); Reached(t) && SameWorker(s, t) && Supply(t) >= 112
    decreases Undelivered(s), |s.readBuf|, |s.r.part|, PcCost(s.r.pc), LoopCost(s.g)
  {
    if ClientTurn(s).None? {
      NothingLeft(s);
      acts := [];
    } else {
      var a, t := TakeTurn(s);
      var rest := CreditReturns(t);
      acts := Prepend(s, a, t, rest);
    }
  }

  lemma {:induction false} SomeGrant(grants: seq<nat>) returns (k: nat)
    requires Total(grants) > 0
    ensures k < |grants| && grants[k] > 0
  {
    if grants[0] > 0 {
      k := 0;
    } else {
      k := SomeGrant(grants[1..]);
      k := k + 1;
    }
  }

  /**
   * A worker at zero credit is never abandoned: from every reachable open state, steps of the client's own
   * goroutines followed by the arrival of one grant give it credit again.
   */
  lemma StarvedWorkerIsFed(acts: seq<Action>) returns (more: seq<Action>, k: nat)
    requires ValidRun(START, acts)
    requires Open(After(START, acts)) && After(START, acts).w.credit == 0
    ensures ValidRun(After(START, acts), more) && AllByClient(more)
    ensures var t := After(After(START, acts), more);
            Enabled(t, ByWorker(ApplyGrant(k))) && WorkerDoes(t, ApplyGrant(k)).w.credit > 0
  {
    var s := After(START, acts);
    assert Reached(s);
    more := CreditReturns(s);
    k := SomeGrant(After(s, more).grants);
  }
}

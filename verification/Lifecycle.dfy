/**
 * The desktop app's mode transitions and shutdown (desktop/go/app.go): ConnectSolo, ConnectDistributed
 * and SwitchMode serialised by the transition gate, Shutdown that may give up on that gate, and the
 * solo runtimes they start and must stop. One action per critical section.
 */
module Lifecycle {
  import opened Bytes

  datatype Kind = Switch | Solo | Distributed

  /**
   * Where a transition stands: admitted, past the gate, starting a solo runtime, holding one it started,
   * rolling one back, probing a hub, about to disconnect, stopping what it disconnected, returned.
   */
  datatype Stage =
    | Admitted | Gated | Starting | Started(r: nat) | RollingBack(r: nat) | Probing | Clearing | Stopping(solo: Option<nat>) | Ended
  {
    predicate Inside()
    {
      !Admitted? && !Ended?
    }

    function InHand(): Option<nat>
    {
      match this
      case Started(r) => Some(r)
      case RollingBack(r) => Some(r)
      case Stopping(solo) => solo
      case _ => None
    }
  }

  datatype Transition = Transition(kind: Kind, stage: Stage)

  datatype Connection = Connection(solo: Option<nat>)

  datatype Gate = Unheld | HeldBy(i: nat) | HeldByShutdown

  datatype Shutdown = NotAsked | Cancelled | Ready | TornDown(solo: Option<nat>) | Finished

  /** stops[r] counts how often runtime r was stopped; `overwrote` records an install over another connection. */
  datatype State = State(conn: Option<Connection>, gate: Gate, shut: Shutdown, moves: seq<Transition>, stops: seq<nat>, overwrote: bool)

  const START: State := State(None, Unheld, NotAsked, [], [], false)

  /** `late` marks a section that had passed its shutdown check when the context was cancelled. */
  datatype Action =
    | Begin(kind: Kind) | TakeGate(i: nat) | Validate(i: nat, late: bool) | Fail(i: nat) | StartOk(i: nat) | Abort(i: nat)
    | CommitSolo(i: nat, late: bool) | CommitDistributed(i: nat, late: bool) | Disconnect(i: nat) | StopRuntime(i: nat)
    | CancelApp | ShutdownGate(got: bool) | Teardown | ShutdownStop

  predicate IsCancelled(s: State)
  {
    !s.shut.NotAsked?
  }

  predicate Torn(s: State)
  {
    s.shut.TornDown? || s.shut.Finished?
  }

  predicate LateOk(s: State, late: bool)
  {
    late ==> IsCancelled(s) && !Torn(s)
  }

  predicate Passes(s: State, late: bool)
  {
    !IsCancelled(s) || late
  }

  predicate At(s: State, i: nat, stage: Stage)
  {
    i < |s.moves| && s.moves[i].stage == stage
  }

  predicate Enabled(s: State, a: Action)
  {
    match a
    case Begin(_) => !IsCancelled(s)
    case TakeGate(i) => At(s, i, Admitted) && s.gate.Unheld?
    case Validate(i, late) => At(s, i, Gated) && LateOk(s, late)
    case Fail(i) => At(s, i, Gated) || At(s, i, Starting) || At(s, i, Probing)
    case StartOk(i) => At(s, i, Starting)
    case Abort(i) => i < |s.moves| && s.moves[i].stage.Started?
    case CommitSolo(i, late) => i < |s.moves| && s.moves[i].stage.Started? && LateOk(s, late)
    case CommitDistributed(i, late) => At(s, i, Probing) && LateOk(s, late)
    case Disconnect(i) => At(s, i, Clearing)
    case StopRuntime(i) => i < |s.moves| && (s.moves[i].stage.RollingBack? || s.moves[i].stage.Stopping?)
    case CancelApp => s.shut.NotAsked?
    case ShutdownGate(got) => s.shut.Cancelled? && (got <==> s.gate.Unheld?)
    case Teardown => s.shut.Ready?
    case ShutdownStop => s.shut.TornDown?
  }

  function Goto(s: State, i: nat, stage: Stage): State
    requires i < |s.moves|
  {
    s.(moves := s.moves[i := s.moves[i].(stage := stage)])
  }

  /** The transition returns, releasing the gate. */
  function Return(s: State, i: nat): State
    requires i < |s.moves|
  {
    Goto(s.(gate := Unheld), i, Ended)
  }

  function Stop(s: State, solo: Option<nat>): State
  {
    if solo.Some? && solo.value < |s.stops| then s.(stops := s.stops[solo.value := s.stops[solo.value] + 1]) else s
  }

  function SoloOf(conn: Option<Connection>): Option<nat>
  {
    if conn.Some? then conn.value.solo else None
  }

  function InstallConnection(s: State, c: Connection): State
  {
    s.(conn := Some(c), overwrote := s.overwrote || s.conn.Some?)
  }

  function Next(s: State, a: Action): State
    requires Enabled(s, a)
  {
    match a
    case Begin(kind) => s.(moves := s.moves + [Transition(kind, Admitted)])
    case TakeGate(i) => Goto(s.(gate := HeldBy(i)), i, Gated)
    case Validate(i, late) =>
      if !Passes(s, late) then Return(s, i)
      else if s.moves[i].kind == Switch then Goto(s, i, Clearing)
      else if s.conn.Some? then Return(s, i)
      else Goto(s, i, if s.moves[i].kind == Solo then Starting else Probing)
    case Fail(i) => Return(s, i)
    case StartOk(i) => Goto(s.(stops := s.stops + [0]), i, Started(|s.stops|))
    case Abort(i) => Goto(s, i, RollingBack(s.moves[i].stage.r))
    case CommitSolo(i, late) =>
      if Passes(s, late) then Return(InstallConnection(s, Connection(Some(s.moves[i].stage.r))), i)
      else Goto(s, i, RollingBack(s.moves[i].stage.r))
    case CommitDistributed(i, late) =>
      if Passes(s, late) && s.conn.None? then Return(InstallConnection(s, Connection(None)), i) else Return(s, i)
    case Disconnect(i) => Goto(s.(conn := None), i, Stopping(SoloOf(s.conn)))
    case StopRuntime(i) => Return(Stop(s, s.moves[i].stage.InHand()), i)
    case CancelApp => s.(shut := Cancelled)
    case ShutdownGate(got) => s.(shut := Ready, gate := if got then HeldByShutdown else s.gate)
    case Teardown => s.(conn := None, shut := TornDown(SoloOf(s.conn)))
    case ShutdownStop => Stop(s.(shut := Finished, gate := if s.gate.HeldByShutdown? then Unheld else s.gate), s.shut.solo)
  }

  // ----- Invariants -----

  /** The gate admits one transition at a time; one that validated an empty connection still sees it empty. */
  predicate GateInv(s: State)
  {
    && (forall i :: 0 <= i < |s.moves| ==> (s.moves[i].stage.Inside() <==> s.gate == HeldBy(i)))
    && (s.gate.HeldBy? ==> s.gate.i < |s.moves|)
    && (s.gate.HeldBy? && NeedsEmpty(s.moves[s.gate.i].stage) ==> s.conn.None?)
    && (Torn(s) ==> s.conn.None?)
    && (s.gate.HeldByShutdown? ==> s.shut.Ready? || s.shut.TornDown?)
    && !s.overwrote
  }

  predicate NeedsEmpty(stage: Stage)
  {
    stage.Starting? || stage.Started? || stage.Probing?
  }

  /** The runtime in the hands of the transition that holds the gate. */
  function InHand(s: State): Option<nat>
  {
    if s.gate.HeldBy? && s.gate.i < |s.moves| then s.moves[s.gate.i].stage.InHand() else None
  }

  function WithShutdown(s: State): Option<nat>
  {
    if s.shut.TornDown? then s.shut.solo else None
  }

  /** Exactly one of: installed, in the gate holder's hands, in Shutdown's hands, stopped once. */
  predicate Accounted(s: State, r: nat)
    requires r < |s.stops|
  {
    var a, b, c := SoloOf(s.conn) == Some(r), InHand(s) == Some(r), WithShutdown(s) == Some(r);
    && (s.stops[r] == 0 <==> a || b || c)
    && !(a && b) && !(a && c) && !(b && c)
    && s.stops[r] <= 1
  }

  predicate RuntimeInv(s: State)
  {
    && (forall r :: 0 <= r < |s.stops| ==> Accounted(s, r))
    && (SoloOf(s.conn).Some? ==> SoloOf(s.conn).value < |s.stops|)
    && (InHand(s).Some? ==> InHand(s).value < |s.stops|)
    && (WithShutdown(s).Some? ==> WithShutdown(s).value < |s.stops|)
  }

  predicate Inv(s: State)
  {
    GateInv(s) && RuntimeInv(s)
  }

  predicate ByShutdown(a: Action)
  {
    a.CancelApp? || a.ShutdownGate? || a.Teardown? || a.ShutdownStop?
  }

  lemma ShutdownKeepsGate(s: State, a: Action)
    requires GateInv(s) && Enabled(s, a) && ByShutdown(a)
    ensures GateInv(Next(s, a))
  {
  }

  /** The gate's holder moves on, staying inside. */
  lemma GotoKeepsGate(s: State, i: nat, stage: Stage)
    requires GateInv(s) && i < |s.moves| && s.moves[i].stage.Inside() && stage.Inside() && (NeedsEmpty(stage) ==> s.conn.None?)
    ensures GateInv(Goto(s, i, stage))
  {
  }

  lemma ReturnKeepsGate(s: State, i: nat)
    requires GateInv(s) && i < |s.moves| && s.moves[i].stage.Inside()
    ensures GateInv(Return(s, i))
  {
  }

  /** Any connection can be replaced by none, and none by any until the teardown, when the holder no longer needs it empty. */
  lemma ConnKeepsGate(s: State, i: nat, conn: Option<Connection>)
    requires GateInv(s) && i < |s.moves| && s.moves[i].stage.Inside() && (conn.Some? ==> !Torn(s))
    ensures GateInv(Return(s.(conn := conn), i))
  {
  }

  lemma EnteringKeepsGate(s: State, a: Action)
    requires GateInv(s) && Enabled(s, a) && (a.Begin? || a.TakeGate?)
    ensures GateInv(Next(s, a))
  {
  }

  lemma TransitionKeepsGate(s: State, a: Action)
    requires GateInv(s) && Enabled(s, a) && !ByShutdown(a)
    ensures GateInv(Next(s, a))
  {
    match a
    case Begin(_) => EnteringKeepsGate(s, a);
    case TakeGate(_) => EnteringKeepsGate(s, a);
    case Validate(i, late) =>
      if !Passes(s, late) || (s.moves[i].kind != Switch && s.conn.Some?) {
        ReturnKeepsGate(s, i);
      } else {
        GotoKeepsGate(s, i, Next(s, a).moves[i].stage);
      }
    case Fail(i) => ReturnKeepsGate(s, i);
    case StartOk(i) => GotoKeepsGate(s.(stops := s.stops + [0]), i, Started(|s.stops|));
    case Abort(i) => GotoKeepsGate(s, i, RollingBack(s.moves[i].stage.r));
    case CommitSolo(i, late) =>
      if Passes(s, late) {
        ConnKeepsGate(s, i, Some(Connection(Some(s.moves[i].stage.r))));
      } else {
        GotoKeepsGate(s, i, RollingBack(s.moves[i].stage.r));
      }
    case CommitDistributed(i, late) =>
      ConnKeepsGate(s, i, if Passes(s, late) && s.conn.None? then Some(Connection(None)) else s.conn);
    case Disconnect(i) => GotoKeepsGate(s.(conn := None), i, Stopping(SoloOf(s.conn)));
    case StopRuntime(i) => ReturnKeepsGate(Stop(s, s.moves[i].stage.InHand()), i);
  }

  /** What a transition's step does to the runtime in hand. */
  lemma HandsOver(s: State, a: Action)
    requires GateInv(s) && Enabled(s, a) && !ByShutdown(a)
    ensures var t := Next(s, a);
            && t.shut == s.shut
            && match a
               case StartOk(_) => InHand(s) == None && InHand(t) == Some(|s.stops|) && t.conn == s.conn && t.stops == s.stops + [0]
               case CommitSolo(_, late) =>
                 t.stops == s.stops && InHand(s).Some?
                 && if Passes(s, late) then InHand(t) == None && SoloOf(t.conn) == InHand(s) && s.conn.None? else InHand(t) == InHand(s) && t.conn == s.conn
               case CommitDistributed(_, _) => t.stops == s.stops && InHand(s) == InHand(t) == None && SoloOf(t.conn) == SoloOf(s.conn)
               case Disconnect(_) => t.stops == s.stops && InHand(s) == None && InHand(t) == SoloOf(s.conn) && t.conn == None
               case StopRuntime(_) => InHand(t) == None && t.conn == s.conn && t == Stop(s, InHand(s)).(gate := t.gate, moves := t.moves)
               case _ => t.stops == s.stops && t.conn == s.conn && InHand(t) == InHand(s)
  {
  }

  lemma TransitionKeepsRuntime(s: State, a: Action)
    requires Inv(s) && Enabled(s, a) && !ByShutdown(a)
    ensures RuntimeInv(Next(s, a))
  {
    HandsOver(s, a);
    var t := Next(s, a);
    forall r | 0 <= r < |t.stops| ensures Accounted(t, r) {
      assert r < |s.stops| ==> Accounted(s, r);
    }
  }

  lemma ShutdownKeepsRuntime(s: State, a: Action)
    requires Inv(s) && Enabled(s, a) && ByShutdown(a)
    ensures RuntimeInv(Next(s, a))
  {
    var t := Next(s, a);
    assert InHand(t) == InHand(s);
    forall r | 0 <= r < |t.stops| ensures Accounted(t, r) {
      assert Accounted(s, r);
    }
  }

  lemma NextKeepsInv(s: State, a: Action)
    requires Inv(s) && Enabled(s, a)
    ensures Inv(Next(s, a))
  {
    if ByShutdown(a) {
      ShutdownKeepsGate(s, a);
      ShutdownKeepsRuntime(s, a);
    } else {
      TransitionKeepsGate(s, a);
      TransitionKeepsRuntime(s, a);
    }
  }

  // ----- Over every run -----

  ghost predicate ValidRun(s: State, acts: seq<Action>)
    decreases |acts|
  {
    acts == [] || (Enabled(s, acts[0]) && ValidRun(Next(s, acts[0]), acts[1..]))
  }

  ghost function After(s: State, acts: seq<Action>): State
    requires ValidRun(s, acts)
    decreases |acts|
  {
    if acts == [] then s else After(Next(s, acts[0]), acts[1..])
  }

  lemma {:induction false} RunKeepsInv(s: State, acts: seq<Action>)
    requires Inv(s) && ValidRun(s, acts)
    ensures Inv(After(s, acts))
    decreases |acts|
  {
    if acts != [] {
      NextKeepsInv(s, acts[0]);
      RunKeepsInv(Next(s, acts[0]), acts[1..]);
    }
  }

  lemma {:induction false} RunSnoc(s: State, acts: seq<Action>, a: Action)
    requires ValidRun(s, acts) && Enabled(After(s, acts), a)
    ensures ValidRun(s, acts + [a]) && After(s, acts + [a]) == Next(After(s, acts), a)
    decreases |acts|
  {
    if acts != [] {
      assert (acts + [a])[1..] == acts[1..] + [a];
      RunSnoc(Next(s, acts[0]), acts[1..], a);
    }
  }

  /** Some run leads to s. */
  ghost predicate Reached(s: State)
  {
    exists acts :: ValidRun(START, acts) && After(START, acts) == s
  }

  lemma ReachedInv(s: State)
    requires Reached(s)
    ensures Inv(s)
  {
    var acts :| ValidRun(START, acts) && After(START, acts) == s;
    RunKeepsInv(START, acts);
  }

  lemma ReachedNext(s: State, a: Action)
    requires Reached(s) && Enabled(s, a)
    ensures Reached(Next(s, a))
  {
    var acts :| ValidRun(START, acts) && After(START, acts) == s;
    RunSnoc(START, acts, a);
  }

  /**
   * Lifecycle safety over every run: no install ever replaces a connection; at most one transition is
   * past the gate; and every solo runtime ever started is installed, or in the hands of the one
   * transition past the gate, or in Shutdown's, or was stopped exactly once -- and only one of these.
   */
  lemma RuntimesConserved(acts: seq<Action>)
    requires ValidRun(START, acts)
    ensures var t := After(START, acts);
            && !t.overwrote
            && (forall i, j :: 0 <= i < |t.moves| && 0 <= j < |t.moves| && t.moves[i].stage.Inside() && t.moves[j].stage.Inside() ==> i == j)
            && (forall r :: 0 <= r < |t.stops| ==> Accounted(t, r))
  {
    RunKeepsInv(START, acts);
  }

  /** Once Shutdown is through and every transition has returned, every runtime ever started was stopped exactly once. */
  lemma EverythingStopped(acts: seq<Action>)
    requires ValidRun(START, acts)
    requires var t := After(START, acts); t.shut.Finished? && forall i :: 0 <= i < |t.moves| ==> !t.moves[i].stage.Inside()
    ensures var t := After(START, acts); t.conn.None? && forall r :: 0 <= r < |t.stops| ==> t.stops[r] == 1
  {
    RunKeepsInv(START, acts);
    var t := After(START, acts);
    forall r | 0 <= r < |t.stops| ensures t.stops[r] == 1 {
      assert Accounted(t, r);
    }
  }

  /** After Shutdown's teardown, with or without the gate, no step of any schedule installs a connection. */
  lemma {:induction false} NothingInstalledAfterTeardown(s: State, acts: seq<Action>)
    requires Inv(s) && Torn(s) && ValidRun(s, acts)
    ensures var t := After(s, acts); Torn(t) && t.conn.None?
    decreases |acts|
  {
    if acts != [] {
      NextKeepsInv(s, acts[0]);
      NothingInstalledAfterTeardown(Next(s, acts[0]), acts[1..]);
    }
  }

  // ----- What each operation achieves -----

  lemma Do(s: State, acts: seq<Action>, a: Action) returns (more: seq<Action>)
    requires ValidRun(s, acts) && Enabled(After(s, acts), a)
    ensures more == acts + [a] && ValidRun(s, more) && After(s, more) == Next(After(s, acts), a)
  {
    RunSnoc(s, acts, a);
    more := acts + [a];
  }

  /** Transition i has returned and left the gate free. */
  predicate Returned(t: State, i: nat)
  {
    At(t, i, Ended) && t.gate.Unheld?
  }

  /** SwitchMode, past the gate, ends with no connection, and the runtime that connection had was stopped exactly once. */
  lemma SwitchDisconnects(s: State, i: nat) returns (acts: seq<Action>)
    requires Reached(s) && !IsCancelled(s) && At(s, i, Gated) && s.moves[i].kind == Switch
    ensures acts == [Validate(i, false), Disconnect(i), StopRuntime(i)] && ValidRun(s, acts)
    ensures var t := After(s, acts);
            && Returned(t, i) && t.conn.None? && t.shut == s.shut && |t.stops| == |s.stops|
            && forall r :: 0 <= r < |s.stops| ==> t.stops[r] == s.stops[r] + if SoloOf(s.conn) == Some(r) then 1 else 0
  {
    ReachedInv(s);
    acts := Do(s, [], Validate(i, false));
    acts := Do(s, acts, Disconnect(i));
    acts := Do(s, acts, StopRuntime(i));
  }

  /** ConnectSolo, past the gate: with nothing connected it starts a runtime and installs it, otherwise it changes nothing. */
  lemma SoloConnects(s: State, i: nat) returns (acts: seq<Action>)
    requires Reached(s) && !IsCancelled(s) && At(s, i, Gated) && s.moves[i].kind == Solo
    ensures acts == if s.conn.None? then [Validate(i, false), StartOk(i), CommitSolo(i, false)] else [Validate(i, false)]
    ensures ValidRun(s, acts) && Returned(After(s, acts), i)
    ensures var t := After(s, acts);
            if s.conn.None? then t.conn == Some(Connection(Some(|s.stops|))) && t.stops == s.stops + [0] else t.conn == s.conn && t.stops == s.stops
  {
    acts := Do(s, [], Validate(i, false));
    if s.conn.None? {
      acts := Do(s, acts, StartOk(i));
      acts := Do(s, acts, CommitSolo(i, false));
    }
  }

  /** ConnectDistributed likewise, with no runtime of its own. */
  lemma DistributedConnects(s: State, i: nat) returns (acts: seq<Action>)
    requires Reached(s) && !IsCancelled(s) && At(s, i, Gated) && s.moves[i].kind == Distributed
    ensures acts == if s.conn.None? then [Validate(i, false), CommitDistributed(i, false)] else [Validate(i, false)]
    ensures ValidRun(s, acts) && Returned(After(s, acts), i)
    ensures var t := After(s, acts); t.conn == (if s.conn.None? then Some(Connection(None)) else s.conn) && t.stops == s.stops
  {
    acts := Do(s, [], Validate(i, false));
    if s.conn.None? {
      acts := Do(s, acts, CommitDistributed(i, false));
    }
  }

  /**
   * Shutdown always gets through, with the gate or without it: from every reachable state it cancels, takes the gate if
   * it is free, tears down and stops; the connection is gone, and the runtime it had was stopped exactly once.
   */
  lemma ShutdownGetsThrough(s: State) returns (acts: seq<Action>)
    requires Reached(s) && s.shut.NotAsked?
    ensures acts == [CancelApp, ShutdownGate(s.gate.Unheld?), Teardown, ShutdownStop] && ValidRun(s, acts)
    ensures var t := After(s, acts);
            && t.shut.Finished? && t.conn.None? && t.gate == s.gate && t.moves == s.moves && |t.stops| == |s.stops|
            && forall r :: 0 <= r < |s.stops| ==> t.stops[r] == s.stops[r] + if SoloOf(s.conn) == Some(r) then 1 else 0
  {
    ReachedInv(s);
    acts := Do(s, [], CancelApp);
    acts := Do(s, acts, ShutdownGate(s.gate.Unheld?));
    acts := Do(s, acts, Teardown);
    acts := Do(s, acts, ShutdownStop);
  }

  /** A connect that started a runtime and cannot install it, cancelled or failed, stops it exactly once and returns. */
  lemma RollBackStops(s: State, i: nat, r: nat) returns (acts: seq<Action>)
    requires Reached(s) && At(s, i, Started(r))
    ensures acts == [if IsCancelled(s) then CommitSolo(i, false) else Abort(i), StopRuntime(i)] && ValidRun(s, acts)
    ensures var t := After(s, acts); Returned(t, i) && t.conn == s.conn && r < |s.stops| && s.stops[r] == 0 && t.stops == s.stops[r := 1]
  {
    ReachedInv(s);
    assert InHand(s) == Some(r) && Accounted(s, r);
    acts := Do(s, [], if IsCancelled(s) then CommitSolo(i, false) else Abort(i));
    acts := Do(s, acts, StopRuntime(i));
  }

  // ----- The gate is needed -----

  /** The machine with the transition gate taken out: any admitted transition may go ahead. */
  predicate EnabledUngated(s: State, a: Action)
  {
    if a.TakeGate? then At(s, a.i, Admitted) else Enabled(s, a)
  }

  function NextUngated(s: State, a: Action): State
    requires EnabledUngated(s, a)
  {
    if a.TakeGate? then Goto(s.(gate := HeldBy(a.i)), a.i, Gated) else Next(s, a)
  }

  ghost predicate ValidUngated(s: State, acts: seq<Action>)
    decreases |acts|
  {
    acts == [] || (EnabledUngated(s, acts[0]) && ValidUngated(NextUngated(s, acts[0]), acts[1..]))
  }

  ghost function AfterUngated(s: State, acts: seq<Action>): State
    requires ValidUngated(s, acts)
    decreases |acts|
  {
    if acts == [] then s else AfterUngated(NextUngated(s, acts[0]), acts[1..])
  }

  lemma {:induction false} UngatedSnoc(s: State, acts: seq<Action>, a: Action)
    requires ValidUngated(s, acts) && EnabledUngated(AfterUngated(s, acts), a)
    ensures ValidUngated(s, acts + [a]) && AfterUngated(s, acts + [a]) == NextUngated(AfterUngated(s, acts), a)
    decreases |acts|
  {
    if acts != [] {
      assert (acts + [a])[1..] == acts[1..] + [a];
      UngatedSnoc(NextUngated(s, acts[0]), acts[1..], a);
    }
  }

  lemma DoUngated(acts: seq<Action>, a: Action) returns (more: seq<Action>)
    requires ValidUngated(START, acts) && EnabledUngated(AfterUngated(START, acts), a)
    ensures ValidUngated(START, more) && AfterUngated(START, more) == NextUngated(AfterUngated(START, acts), a)
  {
    UngatedSnoc(START, acts, a);
    more := acts + [a];
  }

  /** Two solo connects past the gate at once. */
  lemma TwoInside() returns (acts: seq<Action>)
    ensures ValidUngated(START, acts)
    ensures AfterUngated(START, acts) == State(None, HeldBy(1), NotAsked, [Transition(Solo, Gated), Transition(Solo, Gated)], [], false)
  {
    acts := DoUngated([], Begin(Solo));
    acts := DoUngated(acts, Begin(Solo));
    acts := DoUngated(acts, TakeGate(0));
    acts := DoUngated(acts, TakeGate(1));
  }

  /** Two solo connects that have both started their runtimes. */
  lemma TwoStarted() returns (acts: seq<Action>)
    ensures ValidUngated(START, acts)
    ensures AfterUngated(START, acts)
            == State(None, HeldBy(1), NotAsked, [Transition(Solo, Started(0)), Transition(Solo, Started(1))], [0, 0], false)
  {
    acts := TwoInside();
    acts := DoUngated(acts, Validate(0, false));
    acts := DoUngated(acts, Validate(1, false));
    acts := DoUngated(acts, StartOk(0));
    acts := DoUngated(acts, StartOk(1));
  }

  /**
   * The solo commit relies on the gate: without it, two connects commit one over the other, and the first
   * runtime keeps running with nobody left to stop it.
   */
  lemma CommitReliesOnTheGate() returns (acts: seq<Action>)
    ensures ValidUngated(START, acts)
    ensures var t := AfterUngated(START, acts);
            && t.overwrote && t.conn == Some(Connection(Some(1)))
            && |t.stops| == 2 && t.stops[0] == 0 && !Accounted(t, 0)
            && forall i :: 0 <= i < |t.moves| ==> t.moves[i].stage == Ended
  {
    acts := TwoStarted();
    acts := DoUngated(acts, CommitSolo(0, false));
    acts := DoUngated(acts, CommitSolo(1, false));
  }

  // ----- The object -----

  /** App's connection state: each method is one critical section, proved to be the action it models. */
  class App {
    var conn: Option<Connection>
    var gate: Gate
    var shut: Shutdown
    var moves: seq<Transition>
    var stops: seq<nat>

    constructor ()
      ensures Value() == START && Inv(Value())
    {
      conn, gate, shut, moves, stops := None, Unheld, NotAsked, [], [];
    }

    function Value(): State
      reads this
    {
      State(conn, gate, shut, moves, stops, false)
    }

    /** disconnectLocked: empties the connection and hands back the runtime to stop. */
    method DisconnectLocked() returns (solo: Option<nat>)
      modifies this`conn
      ensures conn == None && solo == SoloOf(old(conn))
    {
      var connection := conn;
      conn := None;
      if connection.None? {
        return None;
      }
      return connection.value.solo;
    }

    /**
     * commitSoloConnection: refused when shutting down, when the config cannot be saved, or when the
     * connection's context is already cancelled; the caller then rolls the runtime back. It does not look at conn.
     */
    method CommitSoloConnection(i: nat, saved: bool, live: bool) returns (committed: bool)
      requires Inv(Value()) && i < |moves| && moves[i].stage.Started?
      modifies this
      ensures Value() == Next(old(Value()), if saved && live then CommitSolo(i, false) else Abort(i)) && Inv(Value())
      ensures committed <==> !IsCancelled(old(Value())) && saved && live
      ensures committed ==> conn == Some(Connection(Some(old(moves)[i].stage.r))) && old(conn).None?
      ensures !committed ==> conn == old(conn) && moves[i].stage == RollingBack(old(moves)[i].stage.r)
    {
      NextKeepsInv(Value(), CommitSolo(i, false));
      NextKeepsInv(Value(), Abort(i));
      var r := moves[i].stage.r;
      if !shut.NotAsked? || !saved || !live {
        moves := moves[i := moves[i].(stage := RollingBack(r))];
        return false;
      }
      conn := Some(Connection(Some(r)));
      gate := Unheld;
      moves := moves[i := moves[i].(stage := Ended)];
      return true;
    }

    /**
     * The second critical section of ConnectDistributed: looks again, and gives up when the probe's context
     * is gone, the config cannot be saved, or the new connection's context is already cancelled.
     */
    method CommitDistributedConnection(i: nat, probed: bool, saved: bool, live: bool) returns (committed: bool)
      requires Inv(Value()) && At(Value(), i, Probing)
      modifies this
      ensures Value() == Next(old(Value()), if probed && saved && live then CommitDistributed(i, false) else Fail(i)) && Inv(Value())
      ensures committed <==> !IsCancelled(old(Value())) && probed && saved && live
      ensures committed ==> conn == Some(Connection(None)) && old(conn).None?
      ensures !committed ==> conn == old(conn)
    {
      NextKeepsInv(Value(), CommitDistributed(i, false));
      NextKeepsInv(Value(), Fail(i));
      committed := shut.NotAsked? && conn.None? && probed && saved && live;
      if committed {
        conn := Some(Connection(None));
      }
      gate := Unheld;
      moves := moves[i := moves[i].(stage := Ended)];
    }

    /** SwitchMode's disconnect. */
    method SwitchDisconnect(i: nat)
      requires Inv(Value()) && At(Value(), i, Clearing)
      modifies this
      ensures Value() == Next(old(Value()), Disconnect(i)) && Inv(Value())
    {
      NextKeepsInv(Value(), Disconnect(i));
      var solo := DisconnectLocked();
      moves := moves[i := moves[i].(stage := Stopping(solo))];
    }

    /** Shutdown's teardown. */
    method ShutdownTeardown()
      requires Inv(Value()) && shut.Ready?
      modifies this
      ensures Value() == Next(old(Value()), Teardown) && Inv(Value())
    {
      NextKeepsInv(Value(), Teardown);
      var solo := DisconnectLocked();
      shut := TornDown(solo);
    }

    /** stopSolo at the end of a rollback or a disconnect, then the deferred endTransition. */
    method StopAndReturn(i: nat)
      requires Inv(Value()) && i < |moves| && (moves[i].stage.RollingBack? || moves[i].stage.Stopping?)
      modifies this
      ensures Value() == Next(old(Value()), StopRuntime(i)) && Inv(Value())
      ensures var solo := old(moves)[i].stage.InHand();
              solo.Some? ==> solo.value < |stops| == |old(stops)| && old(stops)[solo.value] == 0 && stops[solo.value] == 1
    {
      NextKeepsInv(Value(), StopRuntime(i));
      var solo := moves[i].stage.InHand();
      assert InHand(Value()) == solo;
      assert solo.Some? ==> Accounted(Value(), solo.value);
      if solo.Some? {
        stops := stops[solo.value := stops[solo.value] + 1];
      }
      gate := Unheld;
      moves := moves[i := moves[i].(stage := Ended)];
    }
  }
}

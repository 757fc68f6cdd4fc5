/**
 * The desktop relays (desktop/go/channel_relay.go, orgevents_relay.go and the relay half of app.go):
 * a two-phase open that decides under lifecycleMu, dials without it, and decides again to install,
 * racing with other opens, closes, relay deaths, mode transitions and shutdown. One action per
 * critical section. The channel relay adopts a live predecessor, the org-events relay restarts it.
 */
module Relay {
  import opened Bytes

  datatype Policy = Adopt | Restart

  datatype Stage = Requested | Dialing | Dialed | Finished

  /**
   * One call of openRelay, for wrapper `id`, on the connection it snapshotted. Its index in `opens` also
   * names the lifetime context and the socket it creates, and the relay it installs.
   */
  datatype Open = Open(id: nat, conn: nat, stage: Stage)
  {
    predicate InFlight()
    {
      stage == Dialing || stage == Dialed
    }
  }

  /** A frame relay `relay` could not deliver, with the owner id emitForOwner read when it was emitted. */
  datatype Fault = Fault(relay: nat, owner: nat)

  /**
   * The installed connection and relay, each relay's owner field, the opens, the uncancelled lifetimes
   * and unclosed sockets, whether Shutdown has cancelled the app's context, and whether its teardown ran.
   */
  datatype State = State(conn: Option<nat>, conns: nat, slot: Option<nat>, owner: map<nat, nat>, opens: seq<Open>,
                         ctxLive: set<nat>, wsLive: set<nat>, stopped: bool, torn: bool, faults: seq<Fault>)

  const START: State := State(None, 0, None, map[], [], {}, {}, false, false, [])

  /**
   * A section marked `late` had passed its shutdown check when the context was cancelled: cancelling takes
   * no lifecycle lock, only the teardown does.
   */
  datatype Action =
    | Request(id: nat) | Prepare(k: nat, late: bool) | DialOk(k: nat) | DialFails(k: nat) | GiveUp(k: nat) | Install(k: nat, late: bool)
    | CloseRelay(id: nat) | Die(k: nat) | EmitFails(k: nat) | CloseUndeliverable(f: nat)
    | Connect(late: bool) | StopConnection | Disconnect | CancelApp | Teardown

  predicate At(s: State, k: nat, stage: Stage)
  {
    k < |s.opens| && s.opens[k].stage == stage
  }

  predicate Enabled(s: State, a: Action)
  {
    match a
    case Request(_) => true
    case Prepare(k, late) => At(s, k, Requested) && (late ==> s.stopped && !s.torn)
    case DialOk(k) => At(s, k, Dialing)
    case DialFails(k) => At(s, k, Dialing)
    case GiveUp(k) => At(s, k, Dialed)
    case Install(k, late) => At(s, k, Dialed) && (late ==> s.stopped && !s.torn)
    case CloseRelay(_) => true
    case Die(k) => k in s.owner
    case EmitFails(k) => k in s.owner
    case CloseUndeliverable(f) => f < |s.faults|
    case Connect(late) => s.conn.None? && (s.stopped ==> late && !s.torn)
    case StopConnection => s.conn.Some?
    case Disconnect => true
    case CancelApp => true
    case Teardown => s.stopped
  }

  datatype Verdict = Proceed | TakeOver | Superseded

  predicate HasRelay(s: State)
  {
    s.slot.Some? && s.slot.value in s.owner
  }

  /** The relay policy: what an open for `id` does about the relay that is installed. */
  function Decide(p: Policy, s: State, id: nat): Verdict
  {
    if !HasRelay(s) then Proceed
    else if p == Adopt && s.slot.value !in s.ctxLive then Proceed
    else if s.owner[s.slot.value] > id then Superseded
    else if p == Adopt then TakeOver
    else Proceed
  }

  /** detach and clear the slot: cancel the relay's lifetime, close its socket. */
  function Detach(s: State): State
  {
    if s.slot.None? then s else s.(slot := None, ctxLive := s.ctxLive - {s.slot.value}, wsLive := s.wsLive - {s.slot.value})
  }

  function Stamp(s: State, id: nat): State
    requires HasRelay(s)
  {
    s.(owner := s.owner[s.slot.value := id])
  }

  function SetStage(s: State, k: nat, stage: Stage): State
    requires k < |s.opens|
  {
    s.(opens := s.opens[k := s.opens[k].(stage := stage)])
  }

  /** Every way an open ends without installing: whatever it created is released. */
  function Abandon(s: State, k: nat): State
    requires k < |s.opens|
  {
    SetStage(s.(ctxLive := s.ctxLive - {k}, wsLive := s.wsLive - {k}), k, Finished)
  }

  /** The first critical section of openRelay. */
  function Prepared(p: Policy, s: State, k: nat, late: bool): State
    requires k < |s.opens|
  {
    if (s.stopped && !late) || s.conn.None? then SetStage(s, k, Finished)
    else
      match Decide(p, s, s.opens[k].id)
      case Superseded => SetStage(s, k, Finished)
      case TakeOver => SetStage(Stamp(s, s.opens[k].id), k, Finished)
      case Proceed =>
        var d := Detach(s);
        d.(opens := d.opens[k := Open(d.opens[k].id, s.conn.value, Dialing)], ctxLive := d.ctxLive + (if s.stopped then {} else {k}))
  }

  /** The second critical section: re-check, decide again, replace, commit. */
  function Installed(p: Policy, s: State, k: nat, late: bool): State
    requires k < |s.opens|
  {
    if (s.stopped && !late) || s.conn != Some(s.opens[k].conn) then Abandon(s, k)
    else
      match Decide(p, s, s.opens[k].id)
      case Superseded => Abandon(s, k)
      case TakeOver => Abandon(Stamp(s, s.opens[k].id), k)
      case Proceed =>
        var d := Detach(s);
        SetStage(d.(slot := Some(k), owner := d.owner[k := d.opens[k].id]), k, Finished)
  }

  /** CloseChannelRelay, CloseOrgEventsRelay and the undeliverable-frame close: only the owner's relay goes. */
  function ClosedFor(s: State, id: nat): State
  {
    if HasRelay(s) && s.owner[s.slot.value] == id then Detach(s) else s
  }

  /** connection.stop cancels every lifetime derived from the connection. */
  function Stopped(s: State): State
  {
    s.(ctxLive := set k | k in s.ctxLive && !(k < |s.opens| && s.conn == Some(s.opens[k].conn)))
  }

  function Next(p: Policy, s: State, a: Action): State
    requires Enabled(s, a)
  {
    match a
    case Request(id) => s.(opens := s.opens + [Open(id, 0, Requested)])
    case Prepare(k, late) => Prepared(p, s, k, late)
    case DialOk(k) => SetStage(s.(wsLive := s.wsLive + {k}), k, Dialed)
    case DialFails(k) => Abandon(s, k)
    case GiveUp(k) => Abandon(s, k)
    case Install(k, late) => Installed(p, s, k, late)
    case CloseRelay(id) => ClosedFor(s, id)
    case Die(k) => s.(ctxLive := s.ctxLive - {k})
    case EmitFails(k) => s.(faults := s.faults + [Fault(k, s.owner[k])])
    case CloseUndeliverable(f) => ClosedFor(s, s.faults[f].owner)
    case Connect(_) => s.(conn := Some(s.conns), conns := s.conns + 1)
    case StopConnection => Stopped(s)
    case Disconnect => Detach(Stopped(s)).(conn := None)
    case CancelApp => s.(stopped := true, ctxLive := {})
    case Teardown => Detach(Stopped(s)).(conn := None, torn := true)
  }

  // ----- Resources -----

  predicate SlotOk(s: State)
  {
    s.slot.Some? ==> At(s, s.slot.value, Finished) && s.slot.value in s.owner && s.conn == Some(s.opens[s.slot.value].conn)
  }

  /** The unclosed sockets are the installed relay's and those of the opens between dial and install. */
  ghost predicate SocketsOk(s: State)
  {
    && (forall k :: k in s.wsLive ==> s.slot == Some(k) || At(s, k, Dialed))
    && (forall k :: 0 <= k < |s.opens| && s.opens[k].stage == Dialed ==> k in s.wsLive)
    && (s.slot.Some? ==> s.slot.value in s.wsLive)
  }

  /** Every uncancelled lifetime belongs to the installed relay or to an open in flight; none outlives its connection or the app. */
  ghost predicate LifetimesOk(s: State)
  {
    && (forall k :: k in s.ctxLive ==> k < |s.opens| && s.conn == Some(s.opens[k].conn))
    && (forall k :: k in s.ctxLive ==> s.slot == Some(k) || At(s, k, Dialing) || At(s, k, Dialed))
    && (s.stopped ==> s.ctxLive == {})
    && (s.torn ==> s.stopped && s.conn.None?)
  }

  /** A relay exists only for a finished open; under Restart its owner never changes. */
  ghost predicate OwnersOk(p: Policy, s: State)
  {
    && (forall k :: k in s.owner ==> At(s, k, Finished))
    && (p == Restart ==> forall k :: k in s.owner ==> k < |s.opens| && s.owner[k] == s.opens[k].id)
    && (forall f :: 0 <= f < |s.faults| ==> s.faults[f].relay in s.owner)
    && (p == Restart ==> forall f :: 0 <= f < |s.faults| ==> s.faults[f].relay in s.owner && s.faults[f].owner == s.owner[s.faults[f].relay])
  }

  ghost predicate Inv(p: Policy, s: State)
  {
    SlotOk(s) && SocketsOk(s) && LifetimesOk(s) && OwnersOk(p, s)
  }

  lemma DetachKeepsInv(p: Policy, s: State)
    requires Inv(p, s)
    ensures Inv(p, Detach(s)) && Detach(s).slot.None?
  {
  }

  lemma StampKeepsInv(s: State, id: nat)
    requires Inv(Adopt, s) && HasRelay(s)
    ensures Inv(Adopt, Stamp(s, id))
  {
  }

  lemma CommitKeepsInv(p: Policy, s: State, k: nat)
    requires Inv(p, s) && s.slot.None? && At(s, k, Dialed) && s.conn == Some(s.opens[k].conn)
    ensures Inv(p, SetStage(s.(slot := Some(k), owner := s.owner[k := s.opens[k].id]), k, Finished))
  {
  }

  lemma AbandonKeepsInv(p: Policy, s: State, k: nat)
    requires Inv(p, s) && (At(s, k, Dialing) || At(s, k, Dialed))
    ensures Inv(p, Abandon(s, k))
  {
  }

  lemma RefuseKeepsInv(p: Policy, s: State, k: nat)
    requires Inv(p, s) && At(s, k, Requested)
    ensures Inv(p, SetStage(s, k, Finished))
  {
  }

  lemma BeginDialKeepsInv(p: Policy, s: State, k: nat)
    requires Inv(p, s) && s.slot.None? && s.conn.Some? && At(s, k, Requested)
    ensures Inv(p, s.(opens := s.opens[k := Open(s.opens[k].id, s.conn.value, Dialing)], ctxLive := s.ctxLive + (if s.stopped then {} else {k})))
  {
  }

  lemma PrepareKeepsInv(p: Policy, s: State, k: nat, late: bool)
    requires Inv(p, s) && At(s, k, Requested)
    ensures Inv(p, Prepared(p, s, k, late))
  {
    if (s.stopped && !late) || s.conn.None? {
      RefuseKeepsInv(p, s, k);
    } else {
      match Decide(p, s, s.opens[k].id)
      case Superseded => RefuseKeepsInv(p, s, k);
      case TakeOver =>
        StampKeepsInv(s, s.opens[k].id);
        RefuseKeepsInv(p, Stamp(s, s.opens[k].id), k);
      case Proceed =>
        DetachKeepsInv(p, s);
        BeginDialKeepsInv(p, Detach(s), k);
    }
  }

  lemma InstallKeepsInv(p: Policy, s: State, k: nat, late: bool)
    requires Inv(p, s) && At(s, k, Dialed)
    ensures Inv(p, Installed(p, s, k, late))
  {
    if (s.stopped && !late) || s.conn != Some(s.opens[k].conn) {
      AbandonKeepsInv(p, s, k);
    } else {
      match Decide(p, s, s.opens[k].id)
      case Superseded => AbandonKeepsInv(p, s, k);
      case TakeOver =>
        StampKeepsInv(s, s.opens[k].id);
        AbandonKeepsInv(p, Stamp(s, s.opens[k].id), k);
      case Proceed =>
        DetachKeepsInv(p, s);
        CommitKeepsInv(p, Detach(s), k);
    }
  }

  lemma CloseKeepsInv(p: Policy, s: State, id: nat)
    requires Inv(p, s)
    ensures Inv(p, ClosedFor(s, id))
  {
    DetachKeepsInv(p, s);
  }

  lemma RestKeepsInv(p: Policy, s: State, a: Action)
    requires Inv(p, s) && Enabled(s, a)
    requires a.Request? || a.DialOk? || a.Die? || a.EmitFails? || a.Connect? || a.CancelApp?
    ensures Inv(p, Next(p, s, a))
  {
  }

  lemma StopKeepsInv(p: Policy, s: State)
    requires Inv(p, s)
    ensures Inv(p, Stopped(s))
  {
  }

  lemma NextKeepsInv(p: Policy, s: State, a: Action)
    requires Inv(p, s) && Enabled(s, a)
    ensures Inv(p, Next(p, s, a))
  {
    match a
    case Prepare(k, late) => PrepareKeepsInv(p, s, k, late);
    case Install(k, late) => InstallKeepsInv(p, s, k, late);
    case DialFails(k) => AbandonKeepsInv(p, s, k);
    case GiveUp(k) => AbandonKeepsInv(p, s, k);
    case CloseRelay(id) => CloseKeepsInv(p, s, id);
    case CloseUndeliverable(f) => CloseKeepsInv(p, s, s.faults[f].owner);
    case StopConnection => StopKeepsInv(p, s);
    case Disconnect =>
      StopKeepsInv(p, s);
      DetachKeepsInv(p, Stopped(s));
    case Teardown =>
      StopKeepsInv(p, s);
      DetachKeepsInv(p, Stopped(s));
    case _ => RestKeepsInv(p, s, a);
  }

  // ----- Over every run -----

  ghost predicate ValidRun(p: Policy, s: State, acts: seq<Action>)
    decreases |acts|
  {
    acts == [] || (Enabled(s, acts[0]) && ValidRun(p, Next(p, s, acts[0]), acts[1..]))
  }

  ghost function After(p: Policy, s: State, acts: seq<Action>): State
    requires ValidRun(p, s, acts)
    decreases |acts|
  {
    if acts == [] then s else After(p, Next(p, s, acts[0]), acts[1..])
  }

  lemma {:induction false} RunKeepsInv(p: Policy, s: State, acts: seq<Action>)
    requires Inv(p, s) && ValidRun(p, s, acts)
    ensures Inv(p, After(p, s, acts))
    decreases |acts|
  {
    if acts != [] {
      NextKeepsInv(p, s, acts[0]);
      RunKeepsInv(p, Next(p, s, acts[0]), acts[1..]);
    }
  }

  /**
   * Resources are conserved, whatever the schedule and whichever way an open ends: the unclosed sockets are exactly the
   * installed relay's and those of the opens between dial and install, and every uncancelled lifetime is the installed
   * relay's or that of an open in flight, on the connection that is up.
   */
  lemma ResourcesConserved(p: Policy, acts: seq<Action>)
    requires ValidRun(p, START, acts)
    ensures var t := After(p, START, acts);
            && (forall k: nat :: k in t.wsLive <==> t.slot == Some(k) || At(t, k, Dialed))
            && (forall k :: k in t.ctxLive ==> t.slot == Some(k) || At(t, k, Dialing) || At(t, k, Dialed))
            && (forall k :: k in t.ctxLive ==> k < |t.opens| && t.conn == Some(t.opens[k].conn))
            && (t.slot.Some? ==> t.conn.Some?)
            && ((forall k :: 0 <= k < |t.opens| ==> !t.opens[k].InFlight()) && t.slot.None? ==> t.wsLive == {} == t.ctxLive)
  {
    RunKeepsInv(p, START, acts);
  }

  /** Stopping a connection, alone or in a disconnect or a teardown, cancels every lifetime; the last two also empty the slot. */
  lemma StopEndsLifetimes(p: Policy, s: State, a: Action)
    requires Reached(p, s) && Enabled(s, a) && (a.StopConnection? || a.Disconnect? || a.Teardown?)
    ensures var t := Next(p, s, a);
            && t.ctxLive == {} && (a.StopConnection? ==> t.conn == s.conn && t.slot == s.slot && t.wsLive == s.wsLive)
            && (!a.StopConnection? ==> t.conn.None? && t.slot.None? && t.torn == (s.torn || a.Teardown?))
  {
    ReachedInv(p, s);
  }

  /** Once Shutdown's teardown has run, no step of any schedule installs a relay or a connection, or keeps a lifetime alive. */
  lemma {:induction false} NothingInstalledAfterTeardown(p: Policy, s: State, acts: seq<Action>)
    requires Inv(p, s) && s.torn && ValidRun(p, s, acts)
    ensures var t := After(p, s, acts); t.torn && t.slot.None? && t.conn.None? && t.ctxLive == {}
    decreases |acts|
  {
    if acts != [] {
      NextKeepsInv(p, s, acts[0]);
      NothingInstalledAfterTeardown(p, Next(p, s, acts[0]), acts[1..]);
    }
  }

  // ----- Ownership -----

  /** In every reachable state, a close or an undeliverable-frame teardown that names another owner changes nothing at all. */
  lemma ForeignCloseIsNoOp(p: Policy, acts: seq<Action>, a: Action)
    requires ValidRun(p, START, acts) && Enabled(After(p, START, acts), a) && (a.CloseRelay? || a.CloseUndeliverable?)
    ensures var s := After(p, START, acts);
            var named := if a.CloseRelay? then a.id else s.faults[a.f].owner;
            && (s.slot.Some? ==> s.slot.value in s.owner)
            && if s.slot.Some? && s.owner[s.slot.value] == named
               then Next(p, s, a) == Detach(s) && Next(p, s, a).slot.None? && s.slot.value !in Next(p, s, a).wsLive + Next(p, s, a).ctxLive
               else Next(p, s, a) == s
  {
    RunKeepsInv(p, START, acts);
  }

  /** A close, or an undeliverable-frame teardown, whose owner id is not the installed relay's. */
  predicate Foreign(s: State, a: Action)
  {
    || (a.CloseRelay? && !(HasRelay(s) && s.owner[s.slot.value] == a.id))
    || (a.CloseUndeliverable? && a.f < |s.faults| && !(HasRelay(s) && s.owner[s.slot.value] == s.faults[a.f].owner))
  }

  /** The run without its foreign closes, each judged in the state it would have run in. */
  ghost function WithoutForeign(p: Policy, s: State, acts: seq<Action>): seq<Action>
    requires ValidRun(p, s, acts)
    decreases |acts|
  {
    if acts == [] then []
    else (if Foreign(s, acts[0]) then [] else [acts[0]]) + WithoutForeign(p, Next(p, s, acts[0]), acts[1..])
  }

  /** Stale closes never matter: deleting every one of them from any schedule leaves a schedule with the same outcome. */
  lemma {:induction false} ForeignClosesNeverMatter(p: Policy, s: State, acts: seq<Action>)
    requires ValidRun(p, s, acts)
    ensures ValidRun(p, s, WithoutForeign(p, s, acts))
    ensures After(p, s, WithoutForeign(p, s, acts)) == After(p, s, acts)
    decreases |acts|
  {
    if acts != [] {
      var t, a := Next(p, s, acts[0]), acts[0];
      ForeignClosesNeverMatter(p, t, acts[1..]);
      var rest := WithoutForeign(p, t, acts[1..]);
      if Foreign(s, a) {
        assert t == s && [] + rest == rest;
      } else {
        assert ([a] + rest)[1..] == rest;
      }
    }
  }

  // ----- What an open does about the installed relay -----

  /** Open k ended without a relay of its own: nothing it created is left, and the slot is as it was. */
  predicate Through(s: State, t: State, k: nat)
  {
    At(t, k, Finished) && t.slot == s.slot && t.wsLive == s.wsLive - {k} && t.ctxLive == s.ctxLive - {k}
  }

  /** The relay that was installed is gone, with its lifetime and its socket. */
  predicate Gone(s: State, t: State)
  {
    s.slot.Some? ==> s.slot != t.slot && s.slot.value !in t.wsLive + t.ctxLive
  }

  /**
   * The first decision, in every reachable state with a connection: a newer owner refuses the open; an adopting
   * policy hands a live relay to it; otherwise, and always when an adopting policy finds its relay dead, the slot is
   * emptied and the open dials on the connection.
   */
  lemma PrepareOutcome(p: Policy, s: State, k: nat)
    requires Reached(p, s) && s.conn.Some? && !s.stopped && At(s, k, Requested)
    ensures var t, id := Next(p, s, Prepare(k, false)), s.opens[k].id;
            var counts := s.slot.Some? && (p == Adopt ==> s.slot.value in s.ctxLive);
            && (s.slot.Some? ==> s.slot.value in s.owner)
            && (counts && s.owner[s.slot.value] > id ==> Through(s, t, k) && t.owner == s.owner)
            && (counts && s.owner[s.slot.value] <= id && p == Adopt ==> Through(s, t, k) && t.owner == s.owner[s.slot.value := id])
            && (!counts || (s.owner[s.slot.value] <= id && p == Restart) ==>
                  t.slot.None? && Gone(s, t) && t.owner == s.owner && k in t.ctxLive && At(t, k, Dialing) && s.conn == Some(t.opens[k].conn))
  {
    ReachedInv(p, s);
  }

  /** The second decision, on the connection the open dialed on; on any other the open gives up. */
  lemma InstallOutcome(p: Policy, s: State, k: nat)
    requires Reached(p, s) && !s.stopped && At(s, k, Dialed)
    ensures var t, id := Next(p, s, Install(k, false)), s.opens[k].id;
            var counts := s.slot.Some? && (p == Adopt ==> s.slot.value in s.ctxLive);
            && (s.slot.Some? ==> s.slot.value in s.owner)
            && (s.conn != Some(s.opens[k].conn) || (counts && s.owner[s.slot.value] > id) ==> Through(s, t, k) && t.owner == s.owner)
            && (s.conn == Some(s.opens[k].conn) && counts && s.owner[s.slot.value] <= id && p == Adopt ==>
                  Through(s, t, k) && t.owner == s.owner[s.slot.value := id])
            && (s.conn == Some(s.opens[k].conn) && (!counts || (s.owner[s.slot.value] <= id && p == Restart)) ==>
                  t.slot == Some(k) && Gone(s, t) && t.owner == s.owner[k := id] && k in t.wsLive && At(t, k, Finished))
  {
    ReachedInv(p, s);
    InstallKeepsInv(p, s, k, false);
  }

  /**
   * A dead relay is replaced whoever owns it: once the installed relay of an adopting policy has died, the next open
   * empties the slot and dials, and a dialed one installs itself.
   */
  lemma DeadRelayIsReplaced(s: State, k: nat)
    requires Reached(Adopt, s) && s.conn.Some? && !s.stopped && s.slot.Some? && Enabled(s, Die(s.slot.value))
    ensures var dead := Next(Adopt, s, Die(s.slot.value));
            && (At(s, k, Requested) ==>
                  var t := Next(Adopt, dead, Prepare(k, false)); t.slot.None? && At(t, k, Dialing) && s.slot.value !in t.wsLive)
            && (At(s, k, Dialed) && s.conn == Some(s.opens[k].conn) ==>
                  var t := Next(Adopt, dead, Install(k, false));
                  t.slot == Some(k) && k in t.owner && t.owner[k] == s.opens[k].id && s.slot.value !in t.wsLive)
  {
    var dead := Next(Adopt, s, Die(s.slot.value));
    ReachedNext(Adopt, s, Die(s.slot.value));
    if At(s, k, Requested) {
      PrepareOutcome(Adopt, dead, k);
    } else if At(s, k, Dialed) {
      InstallOutcome(Adopt, dead, k);
    }
  }

  // ----- Newest wins -----

  /** Nothing but opens, whose dials succeed. */
  predicate Calm(a: Action)
  {
    a.Request? || a.Prepare? || a.DialOk? || a.Install?
  }

  ghost predicate AllCalm(acts: seq<Action>)
  {
    forall i :: 0 <= i < |acts| ==> Calm(acts[i])
  }

  /** The installed relay counts: an adopting policy only counts a live one, a restarting policy does not ask. */
  predicate Standing(p: Policy, s: State)
  {
    HasRelay(s) && (p == Adopt ==> s.slot.value in s.ctxLive)
  }

  /** Somebody at least as new as `id` owns the relay, or is about to. */
  ghost predicate Covered(p: Policy, s: State, id: nat)
  {
    || (Standing(p, s) && s.owner[s.slot.value] >= id)
    || exists j :: 0 <= j < |s.opens| && s.opens[j].InFlight() && s.opens[j].id >= id
  }

  /** The ids competing for the relay: the opens from index `first` on, and the owner there was at the start. */
  predicate Contender(s: State, first: nat, initial: Option<nat>, id: nat)
  {
    initial == Some(id) || exists j :: first <= j < |s.opens| && s.opens[j].id == id
  }

  /** The slot holds a live relay, or still the one that was dead from the start. */
  predicate LiveOr(s: State, dead: Option<nat>)
  {
    s.slot.Some? ==> s.slot.value in s.owner && (s.slot.value in s.ctxLive || s.slot == dead)
  }

  /** The connection stays up, no relay dies, and the owner of a relay that counts is a contender. */
  ghost predicate CalmShape(p: Policy, s: State, first: nat, initial: Option<nat>, dead: Option<nat>)
  {
    && s.conn.Some? && !s.stopped && first <= |s.opens| && LiveOr(s, dead)
    && (Standing(p, s) ==> Contender(s, first, initial, s.owner[s.slot.value]))
    && (forall j :: 0 <= j < first ==> s.opens[j].stage == Finished)
    && (forall j :: 0 <= j < |s.opens| && s.opens[j].InFlight() ==> s.conn == Some(s.opens[j].conn) && j in s.ctxLive)
  }

  /** Every contender that is through is covered. */
  ghost predicate AllCovered(p: Policy, s: State, first: nat, initial: Option<nat>)
  {
    && (initial.Some? ==> Covered(p, s, initial.value))
    && (forall j :: first <= j < |s.opens| && s.opens[j].stage == Finished ==> Covered(p, s, s.opens[j].id))
  }

  /** Cover passes from s to t when the relay's owner and the opens in flight are succeeded by newer ones. */
  lemma CoverPasses(p: Policy, s: State, t: State, id: nat)
    requires Covered(p, s, id)
    requires Standing(p, s) ==> Covered(p, t, s.owner[s.slot.value])
    requires forall j :: 0 <= j < |s.opens| && s.opens[j].InFlight() ==> Covered(p, t, s.opens[j].id)
    ensures Covered(p, t, id)
  {
    if Standing(p, s) && s.owner[s.slot.value] >= id {
      CoverWeakens(p, t, s.owner[s.slot.value], id);
    } else {
      var j :| 0 <= j < |s.opens| && s.opens[j].InFlight() && s.opens[j].id >= id;
      CoverWeakens(p, t, s.opens[j].id, id);
    }
  }

  lemma CoverWeakens(p: Policy, t: State, high: nat, low: nat)
    requires Covered(p, t, high) && low <= high
    ensures Covered(p, t, low)
  {
  }

  /** t is s after a step of open k alone, and whoever covered an id in s is succeeded in t. */
  ghost predicate Succeeds(p: Policy, s: State, t: State, k: nat)
  {
    && k < |s.opens| && |t.opens| == |s.opens|
    && (forall j :: 0 <= j < |s.opens| ==> t.opens[j].id == s.opens[j].id && (j != k ==> t.opens[j] == s.opens[j]))
    && (Standing(p, s) ==> Covered(p, t, s.owner[s.slot.value]))
    && (forall j :: 0 <= j < |s.opens| && s.opens[j].InFlight() ==> Covered(p, t, s.opens[j].id))
    && (t.opens[k].stage == Finished ==> Covered(p, t, t.opens[k].id))
  }

  lemma StepKeepsCover(p: Policy, s: State, t: State, k: nat, first: nat, initial: Option<nat>)
    requires AllCovered(p, s, first, initial) && Succeeds(p, s, t, k)
    ensures AllCovered(p, t, first, initial)
  {
    if initial.Some? {
      CoverPasses(p, s, t, initial.value);
    }
    forall j | first <= j < |t.opens| && t.opens[j].stage == Finished ensures Covered(p, t, t.opens[j].id) {
      if j != k {
        CoverPasses(p, s, t, s.opens[j].id);
      }
    }
  }

  lemma StillInFlight(p: Policy, s: State, t: State, k: nat)
    requires k < |s.opens| == |t.opens|
    requires forall j :: 0 <= j < |s.opens| ==> t.opens[j].id == s.opens[j].id && (j != k ==> t.opens[j] == s.opens[j])
    ensures forall j :: 0 <= j < |s.opens| && j != k && s.opens[j].InFlight() ==> Covered(p, t, s.opens[j].id)
    ensures t.opens[k].InFlight() ==> Covered(p, t, t.opens[k].id)
  {
    forall j | 0 <= j < |s.opens| && j != k && s.opens[j].InFlight() ensures Covered(p, t, s.opens[j].id) {
      assert t.opens[j].InFlight() && t.opens[j].id >= s.opens[j].id;
    }
    if t.opens[k].InFlight() {
      assert t.opens[k].id >= t.opens[k].id;
    }
  }

  lemma PrepareSucceeds(p: Policy, s: State, k: nat, first: nat, initial: Option<nat>, dead: Option<nat>)
    requires Inv(p, s) && CalmShape(p, s, first, initial, dead) && At(s, k, Requested)
    ensures Succeeds(p, s, Prepared(p, s, k, false), k)
  {
    var t := Prepared(p, s, k, false);
    StillInFlight(p, s, t, k);
    if Standing(p, s) && Decide(p, s, s.opens[k].id) == Proceed {
      CoverWeakens(p, t, s.opens[k].id, s.owner[s.slot.value]);
    }
  }

  lemma DialSucceeds(p: Policy, s: State, k: nat)
    requires Inv(p, s) && At(s, k, Dialing)
    ensures Succeeds(p, s, Next(p, s, DialOk(k)), k)
  {
    StillInFlight(p, s, Next(p, s, DialOk(k)), k);
  }

  lemma InstallSucceeds(p: Policy, s: State, k: nat, first: nat, initial: Option<nat>, dead: Option<nat>)
    requires Inv(p, s) && CalmShape(p, s, first, initial, dead) && At(s, k, Dialed)
    ensures Succeeds(p, s, Installed(p, s, k, false), k)
  {
    StillInFlight(p, s, Installed(p, s, k, false), k);
    assert s.opens[k].InFlight();
  }

  lemma ContenderKept(s: State, t: State, first: nat, initial: Option<nat>, id: nat)
    requires Contender(s, first, initial, id) && |s.opens| <= |t.opens|
    requires forall j :: 0 <= j < |s.opens| ==> t.opens[j].id == s.opens[j].id
    ensures Contender(t, first, initial, id)
  {
    if initial != Some(id) {
      var j :| first <= j < |s.opens| && s.opens[j].id == id;
      assert t.opens[j].id == id;
    }
  }

  /** A step of open k alone keeps the competition's shape if the slot it leaves is in order. */
  lemma StepKeepsShape(p: Policy, s: State, t: State, k: nat, first: nat, initial: Option<nat>, dead: Option<nat>)
    requires CalmShape(p, s, first, initial, dead) && first <= k < |s.opens| == |t.opens| && t.conn == s.conn && t.stopped == s.stopped
    requires forall j :: 0 <= j < |s.opens| ==> t.opens[j].id == s.opens[j].id && (j != k ==> t.opens[j] == s.opens[j])
    requires forall j :: j in s.ctxLive && 0 <= j < |s.opens| && j != k && s.opens[j].InFlight() ==> j in t.ctxLive
    requires t.opens[k].InFlight() ==> t.conn == Some(t.opens[k].conn) && k in t.ctxLive
    requires LiveOr(t, dead)
    requires Standing(p, t) ==> t.owner[t.slot.value] == s.opens[k].id || (Standing(p, s) && t.owner[t.slot.value] == s.owner[s.slot.value])
    ensures CalmShape(p, t, first, initial, dead)
  {
    if Standing(p, t) {
      if t.owner[t.slot.value] == s.opens[k].id {
        assert t.opens[k].id == t.owner[t.slot.value];
      } else {
        ContenderKept(s, t, first, initial, s.owner[s.slot.value]);
      }
    }
  }

  lemma PrepareKeepsShape(p: Policy, s: State, k: nat, first: nat, initial: Option<nat>, dead: Option<nat>)
    requires Inv(p, s) && CalmShape(p, s, first, initial, dead) && At(s, k, Requested)
    ensures CalmShape(p, Prepared(p, s, k, false), first, initial, dead)
  {
    StepKeepsShape(p, s, Prepared(p, s, k, false), k, first, initial, dead);
  }

  lemma InstallKeepsShape(p: Policy, s: State, k: nat, first: nat, initial: Option<nat>, dead: Option<nat>)
    requires Inv(p, s) && CalmShape(p, s, first, initial, dead) && At(s, k, Dialed)
    ensures CalmShape(p, Installed(p, s, k, false), first, initial, dead)
  {
    StepKeepsShape(p, s, Installed(p, s, k, false), k, first, initial, dead);
  }

  lemma CalmKeepsShape(p: Policy, s: State, a: Action, first: nat, initial: Option<nat>, dead: Option<nat>)
    requires Inv(p, s) && CalmShape(p, s, first, initial, dead) && Enabled(s, a) && Calm(a)
    ensures CalmShape(p, Next(p, s, a), first, initial, dead)
  {
    match a
    case Request(_) =>
      if Standing(p, s) {
        ContenderKept(s, Next(p, s, a), first, initial, s.owner[s.slot.value]);
      }
    case Prepare(k, _) => PrepareKeepsShape(p, s, k, first, initial, dead);
    case DialOk(k) => StepKeepsShape(p, s, Next(p, s, a), k, first, initial, dead);
    case Install(k, _) => InstallKeepsShape(p, s, k, first, initial, dead);
  }

  lemma CalmKeepsCover(p: Policy, s: State, a: Action, first: nat, initial: Option<nat>, dead: Option<nat>)
    requires Inv(p, s) && CalmShape(p, s, first, initial, dead) && AllCovered(p, s, first, initial) && Enabled(s, a) && Calm(a)
    ensures AllCovered(p, Next(p, s, a), first, initial)
  {
    var t := Next(p, s, a);
    match a
    case Request(id) =>
      StillInFlightAfterRequest(p, s, t);
      if initial.Some? {
        CoverPasses(p, s, t, initial.value);
      }
      forall j | first <= j < |t.opens| && t.opens[j].stage == Finished ensures Covered(p, t, t.opens[j].id) {
        CoverPasses(p, s, t, s.opens[j].id);
      }
    case Prepare(k, _) =>
      PrepareSucceeds(p, s, k, first, initial, dead);
      StepKeepsCover(p, s, t, k, first, initial);
    case DialOk(k) =>
      DialSucceeds(p, s, k);
      StepKeepsCover(p, s, t, k, first, initial);
    case Install(k, _) =>
      InstallSucceeds(p, s, k, first, initial, dead);
      StepKeepsCover(p, s, t, k, first, initial);
  }

  lemma StillInFlightAfterRequest(p: Policy, s: State, t: State)
    requires |t.opens| == |s.opens| + 1 && t.opens[..|s.opens|] == s.opens
    ensures forall j :: 0 <= j < |s.opens| && s.opens[j].InFlight() ==> Covered(p, t, s.opens[j].id)
  {
    forall j | 0 <= j < |s.opens| && s.opens[j].InFlight() ensures Covered(p, t, s.opens[j].id) {
      assert t.opens[j] == t.opens[..|s.opens|][j];
    }
  }

  lemma {:induction false} CalmRun(p: Policy, s: State, acts: seq<Action>, first: nat, initial: Option<nat>, dead: Option<nat>)
    requires Inv(p, s) && CalmShape(p, s, first, initial, dead) && AllCovered(p, s, first, initial) && ValidRun(p, s, acts) && AllCalm(acts)
    ensures var t := After(p, s, acts); CalmShape(p, t, first, initial, dead) && AllCovered(p, t, first, initial)
    decreases |acts|
  {
    if acts != [] {
      NextKeepsInv(p, s, acts[0]);
      CalmKeepsShape(p, s, acts[0], first, initial, dead);
      CalmKeepsCover(p, s, acts[0], first, initial, dead);
      CalmRun(p, Next(p, s, acts[0]), acts[1..], first, initial, dead);
    }
  }

  /**
   * Newest wins, under either policy and whatever the schedule: start from any state with a connection and no open
   * under way, with no relay, a live one or one that died; run any opens, with successful dials and nothing else; once
   * they are all through, the relay is owned by the largest id among them and the previous owner, who does not count
   * where the policy adopts and its relay was dead. An adopting policy ends with a live relay; a restarting one too,
   * unless it kept the relay that was dead from the start.
   */
  lemma NewestOwns(p: Policy, s: State, acts: seq<Action>)
    requires Inv(p, s) && s.conn.Some? && !s.stopped
    requires forall j :: 0 <= j < |s.opens| ==> s.opens[j].stage == Finished
    requires ValidRun(p, s, acts) && AllCalm(acts)
    requires var t := After(p, s, acts); forall j :: 0 <= j < |t.opens| ==> t.opens[j].stage == Finished
    ensures var counts := s.slot.Some? && (p == Restart || s.slot.value in s.ctxLive);
            var initial := if counts then Some(s.owner[s.slot.value]) else None;
            var t := After(p, s, acts);
            && (counts || |t.opens| > |s.opens| ==>
                  && HasRelay(t) && (t.slot.value in t.ctxLive || (p == Restart && t.slot == s.slot))
                  && Contender(t, |s.opens|, initial, t.owner[t.slot.value])
                  && (forall id: nat :: Contender(t, |s.opens|, initial, id) ==> id <= t.owner[t.slot.value]))
            && (|t.opens| == |s.opens| ==> t == s)
  {
    var initial: Option<nat> := if Standing(p, s) then Some(s.owner[s.slot.value]) else None;
    var first, t := |s.opens|, After(p, s, acts);
    CalmRun(p, s, acts, first, initial, s.slot);
    SettledOwner(p, t, first, initial, s.slot);
    if |t.opens| == |s.opens| {
      NoOpensNoChange(p, s, acts);
    }
  }

  /** Opens only accumulate, and without a new one, with the old ones through, a calm run has no steps at all. */
  lemma {:induction false} NoOpensNoChange(p: Policy, s: State, acts: seq<Action>)
    requires ValidRun(p, s, acts) && AllCalm(acts)
    ensures |After(p, s, acts).opens| >= |s.opens|
    ensures |After(p, s, acts).opens| == |s.opens| && (forall j :: 0 <= j < |s.opens| ==> s.opens[j].stage == Finished) ==> acts == []
    decreases |acts|
  {
    if acts != [] {
      NoOpensNoChange(p, Next(p, s, acts[0]), acts[1..]);
    }
  }

  lemma SettledOwner(p: Policy, t: State, first: nat, initial: Option<nat>, dead: Option<nat>)
    requires CalmShape(p, t, first, initial, dead) && AllCovered(p, t, first, initial)
    requires forall j :: 0 <= j < |t.opens| ==> t.opens[j].stage == Finished
    ensures initial.Some? || |t.opens| > first ==> Standing(p, t)
    ensures Standing(p, t) ==> forall id: nat :: Contender(t, first, initial, id) ==> id <= t.owner[t.slot.value]
  {
    if |t.opens| > first {
      assert Covered(p, t, t.opens[first].id);
    }
    forall id: nat | Contender(t, first, initial, id) ensures Standing(p, t) && id <= t.owner[t.slot.value] {
      if initial != Some(id) {
        var j :| first <= j < |t.opens| && t.opens[j].id == id;
        assert Covered(p, t, t.opens[j].id);
      }
    }
  }

  // ----- Undeliverable frames -----

  /** This step hands the installed relay k to a wrapper with another id: an open adopts it, at either decision. */
  predicate TakesOver(p: Policy, s: State, a: Action, k: nat)
  {
    && (a.Prepare? || a.Install?) && a.k < |s.opens| && s.slot == Some(k) && k in s.owner
    && !(s.stopped && !a.late) && (if a.Prepare? then s.conn.Some? else s.conn == Some(s.opens[a.k].conn))
    && Decide(p, s, s.opens[a.k].id) == TakeOver && s.opens[a.k].id != s.owner[k]
  }

  /** Somewhere along the run relay k is handed to a wrapper with another id. */
  ghost predicate TakenOver(p: Policy, s: State, acts: seq<Action>, k: nat)
    requires ValidRun(p, s, acts)
    decreases |acts|
  {
    acts != [] && (TakesOver(p, s, acts[0], k) || TakenOver(p, Next(p, s, acts[0]), acts[1..], k))
  }

  lemma PrepareOwner(p: Policy, s: State, a: Action, k: nat)
    requires OwnersOk(p, s) && SlotOk(s) && Enabled(s, a) && a.Prepare? && k in s.owner
    ensures var t := Next(p, s, a);
            k in t.owner && t.owner[k] >= s.owner[k] && (t.owner[k] > s.owner[k] <==> TakesOver(p, s, a, k))
  {
  }

  lemma InstallOwner(p: Policy, s: State, a: Action, k: nat)
    requires OwnersOk(p, s) && SlotOk(s) && Enabled(s, a) && a.Install? && k in s.owner
    ensures var t := Next(p, s, a);
            k in t.owner && t.owner[k] >= s.owner[k] && (t.owner[k] > s.owner[k] <==> TakesOver(p, s, a, k))
  {
    assert a.k !in s.owner;
  }

  lemma OwnersUntouched(p: Policy, s: State, a: Action)
    requires Enabled(s, a) && !a.Prepare? && !a.Install?
    ensures Next(p, s, a).owner == s.owner
  {
  }

  lemma OwnerStep(p: Policy, s: State, a: Action, k: nat)
    requires OwnersOk(p, s) && SlotOk(s) && Enabled(s, a) && k in s.owner
    ensures var t := Next(p, s, a);
            k in t.owner && t.owner[k] >= s.owner[k] && (t.owner[k] > s.owner[k] <==> TakesOver(p, s, a, k))
  {
    if a.Prepare? {
      PrepareOwner(p, s, a, k);
    } else if a.Install? {
      InstallOwner(p, s, a, k);
    } else {
      OwnersUntouched(p, s, a);
    }
  }

  /** Owners only grow, and an owner stays the same along a run exactly when nobody with another id takes the relay over. */
  lemma {:induction false} OwnerKeptIff(p: Policy, s: State, acts: seq<Action>, k: nat)
    requires Inv(p, s) && ValidRun(p, s, acts) && k in s.owner
    ensures var t := After(p, s, acts);
            k in t.owner && t.owner[k] >= s.owner[k] && (t.owner[k] == s.owner[k] <==> !TakenOver(p, s, acts, k))
    decreases |acts|
  {
    if acts != [] {
      NextKeepsInv(p, s, acts[0]);
      OwnerStep(p, s, acts[0], k);
      OwnerKeptIff(p, Next(p, s, acts[0]), acts[1..], k);
    }
  }

  lemma {:induction false} FaultsAreKept(p: Policy, s: State, acts: seq<Action>)
    requires ValidRun(p, s, acts)
    ensures s.faults <= After(p, s, acts).faults
    decreases |acts|
  {
    if acts != [] {
      FaultsAreKept(p, Next(p, s, acts[0]), acts[1..]);
    }
  }

  /** s, with the fault of a frame that relay k emitted there and that could not be delivered. */
  function Faulted(s: State, k: nat): State
    requires k in s.owner
  {
    s.(faults := s.faults + [Fault(k, s.owner[k])])
  }

  /**
   * A frame that relay k emits in state s cannot be delivered, and later, with k still installed, its teardown runs.
   * It closes k exactly when nobody with another id has taken k over since the frame was emitted. A restarting
   * relay is never taken over, so there it always does.
   */
  lemma FaultClosesItsRelayIff(p: Policy, s: State, k: nat, later: seq<Action>)
    requires Inv(p, s) && k in s.owner
    requires ValidRun(p, Faulted(s, k), later)
    requires After(p, Faulted(s, k), later).slot == Some(k)
    ensures Next(p, s, EmitFails(k)) == Faulted(s, k)
    ensures var f, t := |s.faults|, After(p, Faulted(s, k), later);
            && Enabled(t, CloseUndeliverable(f))
            && (Next(p, t, CloseUndeliverable(f)).slot.None? <==> !TakenOver(p, Faulted(s, k), later, k))
            && (p == Restart ==> Next(p, t, CloseUndeliverable(f)).slot.None?)
  {
    var u := Next(p, s, EmitFails(k));
    NextKeepsInv(p, s, EmitFails(k));
    RunKeepsInv(p, u, later);
    OwnerKeptIff(p, u, later, k);
    FaultsAreKept(p, u, later);
    assert u.faults[|s.faults|] == Fault(k, s.owner[k]);
  }

  lemma {:induction false} RunSnoc(p: Policy, s: State, acts: seq<Action>, a: Action)
    requires ValidRun(p, s, acts) && Enabled(After(p, s, acts), a)
    ensures ValidRun(p, s, acts + [a]) && After(p, s, acts + [a]) == Next(p, After(p, s, acts), a)
    decreases |acts|
  {
    if acts != [] {
      assert (acts + [a])[1..] == acts[1..] + [a];
      RunSnoc(p, Next(p, s, acts[0]), acts[1..], a);
    }
  }

  /** Some run leads to s. */
  ghost predicate Reached(p: Policy, s: State)
  {
    exists acts :: ValidRun(p, START, acts) && After(p, START, acts) == s
  }

  lemma ReachedInv(p: Policy, s: State)
    requires Reached(p, s)
    ensures Inv(p, s)
  {
    var acts :| ValidRun(p, START, acts) && After(p, START, acts) == s;
    RunKeepsInv(p, START, acts);
  }

  lemma ReachedNext(p: Policy, s: State, a: Action)
    requires Reached(p, s) && Enabled(s, a)
    ensures Reached(p, Next(p, s, a))
  {
    var acts :| ValidRun(p, START, acts) && After(p, START, acts) == s;
    RunSnoc(p, START, acts, a);
  }

  lemma Do(p: Policy, acts: seq<Action>, a: Action) returns (more: seq<Action>)
    requires ValidRun(p, START, acts) && Enabled(After(p, START, acts), a)
    ensures ValidRun(p, START, more) && After(p, START, more) == Next(p, After(p, START, acts), a)
  {
    RunSnoc(p, START, acts, a);
    more := acts + [a];
  }

  lemma OpenFirst() returns (acts: seq<Action>)
    ensures ValidRun(Adopt, START, acts)
    ensures After(Adopt, START, acts) == State(Some(0), 1, Some(0), map[0 := 1], [Open(1, 0, Finished)], {0}, {0}, false, false, [])
  {
    acts := Do(Adopt, [], Connect(false));
    acts := Do(Adopt, acts, Request(1));
    acts := Do(Adopt, acts, Prepare(0, false));
    acts := Do(Adopt, acts, DialOk(0));
    acts := Do(Adopt, acts, Install(0, false));
  }

  /**
   * The adopting relay's owner is not stable: a frame lost just before a takeover leaves the very relay
   * that lost it installed, with its stream broken.
   */
  lemma AdoptedRelayCanKeepAGap() returns (acts: seq<Action>)
    ensures ValidRun(Adopt, START, acts)
    ensures var t := After(Adopt, START, acts);
            |t.faults| == 1 && t.slot == Some(t.faults[0].relay) && Next(Adopt, t, CloseUndeliverable(0)) == t
  {
    acts := OpenFirst();
    acts := Do(Adopt, acts, EmitFails(0));
    acts := Do(Adopt, acts, Request(2));
    acts := Do(Adopt, acts, Prepare(1, false));
  }

  // ----- The object -----

  /** The relay half of App: each method is one critical section, proved to be the action it models. */
  class RelayHost {
    const policy: Policy
    var conn: Option<nat>
    var conns: nat
    var slot: Option<nat>
    var owner: map<nat, nat>
    var opens: seq<Open>
    var ctxLive: set<nat>
    var wsLive: set<nat>
    var stopped: bool
    var torn: bool
    var faults: seq<Fault>

    constructor (p: Policy)
      ensures policy == p && Value() == START && Inv(p, Value())
    {
      policy := p;
      conn, conns, slot, owner, opens := None, 0, None, map[], [];
      ctxLive, wsLive, stopped, torn, faults := {}, {}, false, false, [];
    }

    function Value(): State
      reads this
    {
      State(conn, conns, slot, owner, opens, ctxLive, wsLive, stopped, torn, faults)
    }

    /** closeChannelRelay, closeOrgEventsRelay: detach and clear. */
    method CloseCurrent()
      modifies this`slot, this`ctxLive, this`wsLive
      ensures Value() == Detach(old(Value()))
    {
      if slot.Some? {
        ctxLive := ctxLive - {slot.value};
        wsLive := wsLive - {slot.value};
        slot := None;
      }
    }

    /** adoptLiveRelay or rejectIfSuperseded: takes the relay over where the policy says so. */
    method ApplyPolicy(id: nat) returns (verdict: Verdict)
      modifies this`owner
      ensures verdict == Decide(policy, old(Value()), id)
      ensures verdict == Superseded <==> slot.Some? && slot.value in old(owner) && (policy == Adopt ==> slot.value in ctxLive) && old(owner)[slot.value] > id
      ensures verdict == TakeOver <==> slot.Some? && slot.value in old(owner) && policy == Adopt && slot.value in ctxLive && old(owner)[slot.value] <= id
      ensures Value() == if verdict == TakeOver then Stamp(old(Value()), id) else old(Value())
    {
      if slot.None? || slot.value !in owner {
        return Proceed;
      }
      if policy == Adopt && slot.value !in ctxLive {
        return Proceed;
      }
      if owner[slot.value] > id {
        return Superseded;
      }
      if policy == Adopt {
        owner := owner[slot.value := id];
        return TakeOver;
      }
      return Proceed;
    }

    /** openRelay up to the dial; reports whether to dial. */
    method PrepareOpen(k: nat) returns (dial: bool)
      requires Inv(policy, Value()) && At(Value(), k, Requested)
      modifies this
      ensures Value() == Next(policy, old(Value()), Prepare(k, false)) && Inv(policy, Value())
      ensures dial <==> At(Value(), k, Dialing)
    {
      PrepareKeepsInv(policy, Value(), k, false);
      var verdict := Proceed;
      if !stopped && conn.Some? {
        verdict := ApplyPolicy(opens[k].id);
      }
      dial := !stopped && conn.Some? && verdict == Proceed;
      if dial {
        CloseCurrent();
        opens := opens[k := Open(opens[k].id, conn.value, Dialing)];
        ctxLive := ctxLive + {k};
      } else {
        opens := opens[k := opens[k].(stage := Finished)];
      }
    }

    /** openRelay after a successful dial; reports whether the new relay was installed. */
    method InstallOpen(k: nat) returns (installed: bool)
      requires Inv(policy, Value()) && At(Value(), k, Dialed)
      modifies this
      ensures Value() == Next(policy, old(Value()), Install(k, false)) && Inv(policy, Value())
      ensures installed ==> slot == Some(k) && k in owner && owner[k] == old(opens)[k].id
      ensures !installed ==> k !in wsLive && k !in ctxLive
    {
      InstallKeepsInv(policy, Value(), k, false);
      var current := !stopped && conn == Some(opens[k].conn);
      var verdict := Superseded;
      if current {
        verdict := ApplyPolicy(opens[k].id);
      }
      installed := verdict == Proceed;
      if installed {
        CommitOpen(k);
      } else {
        AbandonOpen(k);
      }
    }

    /** closePrior and commit. */
    method CommitOpen(k: nat)
      requires k < |opens|
      modifies this`slot, this`owner, this`ctxLive, this`wsLive, this`opens
      ensures var d := Detach(old(Value())); Value() == SetStage(d.(slot := Some(k), owner := d.owner[k := d.opens[k].id]), k, Finished)
    {
      CloseCurrent();
      slot := Some(k);
      owner := owner[k := opens[k].id];
      opens := opens[k := opens[k].(stage := Finished)];
    }

    /** Every abandon path after the dial: cancel the lifetime, close the socket. */
    method AbandonOpen(k: nat)
      requires k < |opens|
      modifies this`ctxLive, this`wsLive, this`opens
      ensures Value() == Abandon(old(Value()), k)
    {
      ctxLive := ctxLive - {k};
      wsLive := wsLive - {k};
      opens := opens[k := opens[k].(stage := Finished)];
    }

    /** closeRelayIfOwner, and the locked part of closeUndeliverableRelay. */
    method CloseIfOwner(id: nat) returns (closed: bool)
      requires Inv(policy, Value())
      modifies this
      ensures Value() == Next(policy, old(Value()), CloseRelay(id)) && Inv(policy, Value())
      ensures closed <==> old(slot).Some? && old(slot).value in old(owner) && old(owner)[old(slot).value] == id
      ensures !closed ==> Value() == old(Value())
    {
      CloseKeepsInv(policy, Value(), id);
      closed := conn.Some? && slot.Some? && slot.value in owner && owner[slot.value] == id;
      if closed {
        CloseCurrent();
      }
    }
  }
}

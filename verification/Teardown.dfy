/**
 * One app: the connection (Lifecycle), both relays (Relay, once per policy) and the tunnel manager (ChannelCache)
 * run side by side, and disconnectLocked tears all of them down under one hold of lifecycleMu
 * (desktop/go/app.go). While it runs, no other section of lifecycleMu does, but everything else goes on.
 */
module Teardown {
  import opened Bytes
  import L = Lifecycle
  import R = Relay
  import C = ChannelCache

  /** disconnectLocked is running, on behalf of a mode switch or of Shutdown; or it is not. */
  datatype Section = Idle | Closing(how: L.Action)

  datatype State = State(life: L.State, chan: R.State, org: R.State, cache: C.State, section: Section)

  const START: State := State(L.START, R.START, R.START, C.START, Idle)

  datatype Action =
    | Life(l: L.Action) | Chan(r: R.Action) | Org(r: R.Action) | Manager(c: C.Action)
    | Install(l: L.Action) | Stop | Cancel | BeginTeardown(how: L.Action) | EndTeardown

  /** Steps of the transitions that touch neither the connection nor the app's context. */
  predicate LifeOnly(a: L.Action)
  {
    !a.CommitSolo? && !a.CommitDistributed? && !a.Disconnect? && !a.Teardown? && !a.CancelApp?
  }

  predicate RelayOnly(a: R.Action)
  {
    !a.Connect? && !a.StopConnection? && !a.Disconnect? && !a.CancelApp? && !a.Teardown?
  }

  /** Relay steps that are sections of lifecycleMu. */
  predicate UnderLock(a: R.Action)
  {
    a.Prepare? || a.Install? || a.CloseRelay? || a.CloseUndeliverable?
  }

  /** A commit that installs a connection rather than giving up. */
  predicate Installs(s: L.State, a: L.Action)
  {
    && ((a.CommitSolo? && L.Passes(s, a.late)) || (a.CommitDistributed? && L.Passes(s, a.late) && s.conn.None?))
  }

  predicate RelayMay(s: State, r: R.State, a: R.Action)
  {
    RelayOnly(a) && R.Enabled(r, a) && (s.section.Closing? ==> !UnderLock(a))
  }

  predicate Enabled(s: State, a: Action)
  {
    match a
    case Life(l) => LifeOnly(l) && L.Enabled(s.life, l)
    case Chan(r) => RelayMay(s, s.chan, r)
    case Org(r) => RelayMay(s, s.org, r)
    case Manager(c) => !C.ByApp(c) && C.Enabled(s.cache, c)
    case Install(l) => s.section.Idle? && (l.CommitSolo? || l.CommitDistributed?) && L.Enabled(s.life, l)
    case Stop => s.life.conn.Some?
    case Cancel => L.Enabled(s.life, L.CancelApp)
    case BeginTeardown(how) => s.section.Idle? && (how.Disconnect? || how.Teardown?) && L.Enabled(s.life, how)
    case EndTeardown => s.section.Closing? && L.Enabled(s.life, s.section.how)
  }

  /** The relay's share of an install, a stop and a teardown, wherever the relay's own machine allows them. */
  function RelayDo(p: R.Policy, r: R.State, a: R.Action): R.State
  {
    if R.Enabled(r, a) then R.Next(p, r, a) else r
  }

  function CacheDo(c: C.State, a: C.Action): C.State
  {
    if C.Enabled(c, a) then C.Next(c, a) else c
  }

  function Next(s: State, a: Action): State
    requires Enabled(s, a)
  {
    match a
    case Life(l) => s.(life := L.Next(s.life, l))
    case Chan(r) => s.(chan := R.Next(R.Adopt, s.chan, r))
    case Org(r) => s.(org := R.Next(R.Restart, s.org, r))
    case Manager(c) => s.(cache := C.Next(s.cache, c))
    case Install(l) =>
      if Installs(s.life, l) then
        var c := R.Connect(L.IsCancelled(s.life));
        State(L.Next(s.life, l), RelayDo(R.Adopt, s.chan, c), RelayDo(R.Restart, s.org, c), CacheDo(C.Next(s.cache, C.Reset), C.Connect), Idle)
      else s.(life := L.Next(s.life, l))
    case Stop =>
      s.(chan := RelayDo(R.Adopt, s.chan, R.StopConnection), org := RelayDo(R.Restart, s.org, R.StopConnection),
         cache := CacheDo(s.cache, C.StopConnection))
    case Cancel =>
      s.(life := L.Next(s.life, L.CancelApp), chan := R.Next(R.Adopt, s.chan, R.CancelApp), org := R.Next(R.Restart, s.org, R.CancelApp))
    case BeginTeardown(how) =>
      var d := if how.Teardown? then R.Teardown else R.Disconnect;
      State(s.life, RelayDo(R.Adopt, s.chan, d), RelayDo(R.Restart, s.org, d),
            C.Next(CacheDo(CacheDo(s.cache, C.Lock), C.StopConnection), C.Sweep), Closing(how))
    case EndTeardown =>
      State(L.Next(s.life, s.section.how), s.chan, s.org, CacheDo(CacheDo(C.Next(s.cache, C.Reset), C.Uninstall), C.Unlock), Idle)
  }

  // ----- The joint invariant -----

  /** Each part is in a state its own machine reaches, so everything proved of its runs holds of it. */
  ghost predicate EachReached(s: State)
  {
    L.Reached(s.life) && R.Reached(R.Adopt, s.chan) && R.Reached(R.Restart, s.org) && C.Reached(s.cache)
  }

  /** The relay agrees with the app on the connection, on the cancellation, and on whether the teardown has run. */
  predicate RelayAgrees(s: State, r: R.State)
  {
    && r.stopped == L.IsCancelled(s.life)
    && r.torn == (L.Torn(s.life) || (s.section.Closing? && s.section.how.Teardown?))
    && (if s.section.Idle? then r.conn.Some? == s.life.conn.Some? else r.conn.None?)
  }

  /** Nothing registered and nothing able to register. */
  predicate Cleared(c: C.State)
  {
    c.tunnels == {} && C.AllOver(c)
  }

  predicate CacheAgrees(s: State)
  {
    && s.cache.app.locked == s.section.Closing?
    && (s.section.Idle? ==> s.cache.app.installed.Some? == s.life.conn.Some?)
    && (s.section.Closing? || s.life.conn.None? ==> Cleared(s.cache))
  }

  ghost predicate Inv(s: State)
  {
    && EachReached(s) && RelayAgrees(s, s.chan) && RelayAgrees(s, s.org) && CacheAgrees(s)
    && (s.section.Closing? ==> (s.section.how.Disconnect? || s.section.how.Teardown?) && L.Enabled(s.life, s.section.how))
  }

  // ----- What each part's steps leave alone -----

  /** A transition's own step leaves the connection and the shutdown alone, and whoever waits to end a teardown still can. */
  lemma LifeFrame(s: L.State, a: L.Action)
    requires (LifeOnly(a) || a.CancelApp?) && L.Enabled(s, a)
    ensures var t := L.Next(s, a);
            && t.conn == s.conn && L.IsCancelled(t) == (L.IsCancelled(s) || a.CancelApp?) && L.Torn(t) == L.Torn(s)
            && (forall how: L.Action :: (how.Disconnect? || how.Teardown?) && L.Enabled(s, how) ==> L.Enabled(t, how))
  {
  }

  lemma RelayFrame(p: R.Policy, s: R.State, a: R.Action)
    requires RelayOnly(a) && R.Enabled(s, a)
    ensures var t := R.Next(p, s, a); t.conn == s.conn && t.stopped == s.stopped && t.torn == s.torn
  {
  }

  lemma ManagerFrame(s: C.State, a: C.Action)
    requires !C.ByApp(a) && C.Enabled(s, a)
    ensures C.Next(s, a).app == s.app && (Cleared(s) ==> Cleared(C.Next(s, a)))
  {
  }

  /** The relay's share of an install, a stop and a teardown. */
  lemma RelayDoes(p: R.Policy, r: R.State, a: R.Action)
    requires R.Reached(p, r)
    ensures var t := RelayDo(p, r, a);
            && R.Reached(p, t)
            && (a == R.Connect(r.stopped) && r.conn.None? && !r.torn ==> t.conn.Some? && t.stopped == r.stopped && !t.torn)
            && (a.StopConnection? ==> t.conn == r.conn && t.stopped == r.stopped && t.torn == r.torn)
            && (a.Disconnect? || (a.Teardown? && r.stopped) ==> t.conn.None? && t.stopped == r.stopped && t.torn == (r.torn || a.Teardown?))
  {
    if R.Enabled(r, a) {
      R.ReachedNext(p, r, a);
    }
  }

  /** The manager's share of them. */
  lemma CacheDoes(c: C.State, a: C.Action)
    requires C.Reached(c)
    ensures var t := CacheDo(c, a);
            && C.Reached(t)
            && (a.Connect? && !c.app.locked && c.app.installed.None? ==> !t.app.locked && t.app.installed.Some?)
            && (a.StopConnection? ==> t.app.locked == c.app.locked && t.app.installed == c.app.installed && (Cleared(c) ==> Cleared(t)))
  {
    if C.Enabled(c, a) {
      C.ReachedNext(c, a);
    }
  }

  lemma PartsKeepInv(s: State, a: Action)
    requires Inv(s) && Enabled(s, a) && (a.Life? || a.Chan? || a.Org? || a.Manager?)
    ensures Inv(Next(s, a))
  {
    match a
    case Life(l) =>
      L.ReachedNext(s.life, l);
      LifeFrame(s.life, l);
    case Chan(r) =>
      R.ReachedNext(R.Adopt, s.chan, r);
      RelayFrame(R.Adopt, s.chan, r);
    case Org(r) =>
      R.ReachedNext(R.Restart, s.org, r);
      RelayFrame(R.Restart, s.org, r);
    case Manager(c) =>
      C.ReachedNext(s.cache, c);
      ManagerFrame(s.cache, c);
  }

  lemma CommitFrame(s: L.State, a: L.Action)
    requires L.Reached(s) && L.Enabled(s, a) && (a.CommitSolo? || a.CommitDistributed?)
    ensures var t := L.Next(s, a);
            && L.IsCancelled(t) == L.IsCancelled(s) && L.Torn(t) == L.Torn(s)
            && (if Installs(s, a) then s.conn.None? && t.conn.Some? && !L.Torn(s) else t.conn == s.conn)
  {
    L.ReachedInv(s);
  }

  lemma InstallKeepsInv(s: State, l: L.Action)
    requires Inv(s) && Enabled(s, Install(l))
    ensures Inv(Next(s, Install(l)))
  {
    L.ReachedNext(s.life, l);
    CommitFrame(s.life, l);
    if Installs(s.life, l) {
      RelayDoes(R.Adopt, s.chan, R.Connect(s.chan.stopped));
      RelayDoes(R.Restart, s.org, R.Connect(s.org.stopped));
      C.ReachedNext(s.cache, C.Reset);
      CacheDoes(C.Next(s.cache, C.Reset), C.Connect);
    }
  }

  lemma StopKeepsInv(s: State)
    requires Inv(s) && Enabled(s, Stop)
    ensures Inv(Next(s, Stop))
  {
    RelayDoes(R.Adopt, s.chan, R.StopConnection);
    RelayDoes(R.Restart, s.org, R.StopConnection);
    CacheDoes(s.cache, C.StopConnection);
  }

  lemma RelayCancels(p: R.Policy, r: R.State)
    requires R.Reached(p, r)
    ensures var t := R.Next(p, r, R.CancelApp); R.Reached(p, t) && t.conn == r.conn && t.stopped && t.torn == r.torn
  {
    R.ReachedNext(p, r, R.CancelApp);
  }

  lemma CancelKeepsInv(s: State)
    requires Inv(s) && Enabled(s, Cancel)
    ensures Inv(Next(s, Cancel))
  {
    L.ReachedNext(s.life, L.CancelApp);
    LifeFrame(s.life, L.CancelApp);
    RelayCancels(R.Adopt, s.chan);
    RelayCancels(R.Restart, s.org);
  }

  /** Under the lock, stopping the connection and sweeping the tunnels leaves the manager cleared. */
  lemma SweepClears(c: C.State)
    requires C.Reached(c) && !c.app.locked
    ensures var t := C.Next(CacheDo(CacheDo(c, C.Lock), C.StopConnection), C.Sweep);
            C.Reached(t) && Cleared(t) && t.app.locked && t.app.installed == c.app.installed
  {
    var u := CacheDo(c, C.Lock);
    CacheDoes(c, C.Lock);
    C.ReachedInv(u);
    C.DisconnectingEndsAll(u);
    CacheDoes(u, C.StopConnection);
    C.ReachedNext(CacheDo(u, C.StopConnection), C.Sweep);
  }

  lemma BeginKeepsInv(s: State, how: L.Action)
    requires Inv(s) && Enabled(s, BeginTeardown(how))
    ensures Inv(Next(s, BeginTeardown(how)))
  {
    var d := if how.Teardown? then R.Teardown else R.Disconnect;
    RelayDoes(R.Adopt, s.chan, d);
    RelayDoes(R.Restart, s.org, d);
    SweepClears(s.cache);
  }

  lemma ResetClears(c: C.State)
    requires C.Reached(c) && Cleared(c) && c.app.locked
    ensures var t := CacheDo(CacheDo(C.Next(c, C.Reset), C.Uninstall), C.Unlock);
            C.Reached(t) && Cleared(t) && !t.app.locked && t.app.installed.None?
  {
    var u := C.Next(c, C.Reset);
    C.ReachedNext(c, C.Reset);
    CacheDoes(u, C.Uninstall);
    CacheDoes(CacheDo(u, C.Uninstall), C.Unlock);
  }

  lemma EndKeepsInv(s: State)
    requires Inv(s) && Enabled(s, EndTeardown)
    ensures Inv(Next(s, EndTeardown))
  {
    L.ReachedNext(s.life, s.section.how);
    ResetClears(s.cache);
  }

  lemma NextKeepsInv(s: State, a: Action)
    requires Inv(s) && Enabled(s, a)
    ensures Inv(Next(s, a))
  {
    match a
    case Install(l) => InstallKeepsInv(s, l);
    case Stop => StopKeepsInv(s);
    case Cancel => CancelKeepsInv(s);
    case BeginTeardown(how) => BeginKeepsInv(s, how);
    case EndTeardown => EndKeepsInv(s);
    case _ => PartsKeepInv(s, a);
  }

  // ----- Over every run -----

  ghost predicate ValidRun(s: State, acts: seq<Action>)
    decreases |acts|
  {
    acts == [] || (Enabled(s, acts[0]) && ValidRun(Next(s, acts[0]), acts[1..]))
  }

  ghost function After(s: State, acts: seq<Action>): State
    requires ValidRun(s, acts)
    decreases |acts|
  {
    if acts == [] then s else After(Next(s, acts[0]), acts[1..])
  }

  lemma {:induction false} RunKeepsInv(s: State, acts: seq<Action>)
    requires Inv(s) && ValidRun(s, acts)
    ensures Inv(After(s, acts))
    decreases |acts|
  {
    if acts != [] {
      NextKeepsInv(s, acts[0]);
      RunKeepsInv(Next(s, acts[0]), acts[1..]);
    }
  }

  lemma StartInv()
    ensures Inv(START)
  {
    assert L.ValidRun(L.START, []) && L.After(L.START, []) == L.START;
    assert R.ValidRun(R.Adopt, R.START, []) && R.After(R.Adopt, R.START, []) == R.START;
    assert R.ValidRun(R.Restart, R.START, []) && R.After(R.Restart, R.START, []) == R.START;
    assert C.ValidRun(C.START, []) && C.After(C.START, []) == C.START;
  }

  /** No connection, no relay, no tunnel, no lifetime of a relay or of an open, and no connection lifetime that could still carry one. */
  predicate Nothing(s: State)
  {
    && s.life.conn.None? && s.chan.slot.None? && s.org.slot.None? && s.chan.ctxLive == {} == s.org.ctxLive
    && s.cache.tunnels == {} && C.AllOver(s.cache)
  }

  lemma NoConnectionIsNothing(t: State)
    requires Inv(t) && t.life.conn.None?
    ensures Nothing(t)
  {
    R.ReachedInv(R.Adopt, t.chan);
    R.ReachedInv(R.Restart, t.org);
  }

  /**
   * The parts stand and fall together: in every reachable state without a connection there is no relay of either
   * kind, no tunnel and no live lifetime; and a teardown in progress can always end, and then leaves exactly that.
   */
  lemma NoConnectionNothingElse(acts: seq<Action>)
    requires ValidRun(START, acts)
    ensures After(START, acts).life.conn.None? ==> Nothing(After(START, acts))
    ensures After(START, acts).section.Closing? ==>
              Enabled(After(START, acts), EndTeardown) && Nothing(Next(After(START, acts), EndTeardown))
  {
    StartInv();
    RunKeepsInv(START, acts);
    EndsInNothing(After(START, acts));
  }

  lemma EndsInNothing(t: State)
    requires Inv(t)
    ensures t.life.conn.None? ==> Nothing(t)
    ensures t.section.Closing? ==> Enabled(t, EndTeardown) && Nothing(Next(t, EndTeardown))
  {
    if t.life.conn.None? {
      NoConnectionIsNothing(t);
    }
    if t.section.Closing? {
      EndKeepsInv(t);
      NoConnectionIsNothing(Next(t, EndTeardown));
    }
  }

  lemma TornStep(s: State, a: Action)
    requires Inv(s) && Enabled(s, a) && L.Torn(s.life)
    ensures L.Torn(Next(s, a).life)
  {
  }

  /** After Shutdown's teardown, in every continuation: no connection, no relay, no tunnel, no lifetime, ever again. */
  lemma {:induction false} ShutdownIsFinal(s: State, acts: seq<Action>)
    requires Inv(s) && L.Torn(s.life) && ValidRun(s, acts)
    ensures Nothing(After(s, acts))
    decreases |acts|
  {
    if acts == [] {
      L.ReachedInv(s.life);
      NoConnectionIsNothing(s);
    } else {
      NextKeepsInv(s, acts[0]);
      TornStep(s, acts[0]);
      ShutdownIsFinal(Next(s, acts[0]), acts[1..]);
    }
  }
}

/**
 * The epoch-fenced, single-flight channel cache of desktop/go/tunnel.go (getOrOpenChannel,
 * runChannelOpen, removeClosedChannel, resetChannels) with the tunnels registered beside it
 * (CreateTunnel, DeleteTunnel, CloseAll). One action per critical section or goroutine step.
 */
module ChannelCache {
  import opened Bytes

  /** Hub and worker, and the revision of the manager the channel belongs to. */
  datatype Key = Key(peer: nat, rev: nat)

  /** runChannelOpen: dialing, back with an outcome, or through; Rejecting still has to close what it opened. */
  datatype Stage = Running | Back(ch: Option<nat>) | Rejecting(rejected: nat) | Through

  datatype Open = Open(key: Key, stage: Stage)
  {
    predicate Unfinished()
    {
      stage.Running? || stage.Back?
    }
  }

  datatype Standing = Pending | Registered | Removed | Refused

  /** One CreateTunnel call: the revision and the connection it started under, and whether its request is still wanted. */
  datatype Create = Create(rev: nat, conn: nat, wanted: bool, standing: Standing)

  /**
   * The app around the manager: connections are numbered, stopped[c] says whether c's lifetime is over,
   * `installed` is the current one, and `locked` says whether a lifecycle section holds lifecycleMu.
   */
  datatype App = App(stopped: seq<bool>, installed: Option<nat>, locked: bool)
  {
    predicate Live(c: nat)
    {
      c < |stopped| && !stopped[c]
    }
  }

  /** closed[c] says whether channel c is closed; toClose holds channels dropped by a reset but not closed yet. */
  datatype State = State(rev: nat, channels: map<Key, nat>, inflight: map<Key, nat>, opens: seq<Open>, closed: seq<bool>,
                         toClose: set<nat>, creates: seq<Create>, tunnels: set<nat>, app: App)

  const START: State := State(1, map[], map[], [], [], {}, [], {}, App([], None, false))

  datatype Action =
    | Lookup(peer: nat, rev: nat) | OpenOk(o: nat) | OpenFails(o: nat) | Finish(o: nat) | CloseRejected(o: nat)
    | ChannelDies(c: nat) | Evict(key: Key, c: nat) | Reset | CloseDropped(c: nat)
    | BeginCreate(conn: nat) | CancelCreate(i: nat) | Register(i: nat) | Delete(i: nat) | Sweep
    | Lock | Unlock | Connect | StopConnection | Uninstall

  predicate IsClosed(s: State, c: nat)
  {
    c < |s.closed| && s.closed[c]
  }

  predicate Enabled(s: State, a: Action)
  {
    match a
    case Lookup(_, _) => true
    case OpenOk(o) => o < |s.opens| && s.opens[o].stage.Running?
    case OpenFails(o) => o < |s.opens| && s.opens[o].stage.Running?
    case Finish(o) => o < |s.opens| && s.opens[o].stage.Back?
    case CloseRejected(o) => o < |s.opens| && s.opens[o].stage.Rejecting?
    case ChannelDies(c) => c < |s.closed|
    case Evict(_, c) => IsClosed(s, c)
    case Reset => true
    case CloseDropped(c) => c in s.toClose && c < |s.closed|
    case BeginCreate(c) => c < |s.app.stopped|
    case CancelCreate(i) => i < |s.creates|
    case Register(i) => i < |s.creates| && s.creates[i].standing == Pending
    case Delete(i) => i in s.tunnels && i < |s.creates|
    case Sweep => true
    case Lock => !s.app.locked
    case Unlock => s.app.locked
    case Connect => !s.app.locked && s.app.installed.None?
    case StopConnection => s.app.installed.Some? && s.app.installed.value < |s.app.stopped|
    case Uninstall => s.app.locked && s.app.installed.Some? && !s.app.Live(s.app.installed.value)
  }

  function Lookedup(s: State, peer: nat, rev: nat): State
  {
    var key := Key(peer, s.rev);
    if rev != s.rev then s
    else if key in s.channels && !IsClosed(s, s.channels[key]) then s
    else
      var d := s.(channels := s.channels - {key});
      if key in d.inflight then d
      else d.(inflight := d.inflight[key := |d.opens|], opens := d.opens + [Open(key, Running)])
  }

  function SetStage(s: State, o: nat, stage: Stage): State
    requires o < |s.opens|
  {
    s.(opens := s.opens[o := s.opens[o].(stage := stage)])
  }

  /** The locked section of runChannelOpen. */
  function Finished(s: State, o: nat): State
    requires o < |s.opens| && s.opens[o].stage.Back?
  {
    var key, ch := s.opens[o].key, s.opens[o].stage.ch;
    var d := if key in s.inflight && s.inflight[key] == o then s.(inflight := s.inflight - {key}) else s;
    if ch.None? then SetStage(d, o, Through)
    else if key.rev != s.rev then SetStage(d, o, Rejecting(ch.value))
    else SetStage(d.(channels := d.channels[key := ch.value]), o, Through)
  }

  function SetStanding(s: State, i: nat, standing: Standing): State
    requires i < |s.creates|
  {
    s.(creates := s.creates[i := s.creates[i].(standing := standing)])
  }

  predicate MayRegister(s: State, i: nat)
    requires i < |s.creates|
  {
    s.creates[i].wanted && s.app.Live(s.creates[i].conn) && s.creates[i].rev == s.rev
  }

  function Next(s: State, a: Action): State
    requires Enabled(s, a)
  {
    match a
    case Lookup(peer, rev) => Lookedup(s, peer, rev)
    case OpenOk(o) => SetStage(s.(closed := s.closed + [false]), o, Back(Some(|s.closed|)))
    case OpenFails(o) => SetStage(s, o, Back(None))
    case Finish(o) => Finished(s, o)
    case CloseRejected(o) =>
      var c := s.opens[o].stage.rejected;
      SetStage(s.(closed := if c < |s.closed| then s.closed[c := true] else s.closed), o, Through)
    case ChannelDies(c) => s.(closed := s.closed[c := true])
    case Evict(key, c) => if key in s.channels && s.channels[key] == c then s.(channels := s.channels - {key}) else s
    case Reset => s.(rev := s.rev + 1, toClose := s.toClose + s.channels.Values, channels := map[], inflight := map[])
    case CloseDropped(c) => s.(closed := s.closed[c := true], toClose := s.toClose - {c})
    case BeginCreate(c) => s.(creates := s.creates + [Create(s.rev, c, true, Pending)])
    case CancelCreate(i) => s.(creates := s.creates[i := s.creates[i].(wanted := false)])
    case Register(i) =>
      if MayRegister(s, i) then SetStanding(s.(tunnels := s.tunnels + {i}), i, Registered) else SetStanding(s, i, Refused)
    case Delete(i) => SetStanding(s.(tunnels := s.tunnels - {i}), i, Removed)
    case Sweep => s.(tunnels := {}, creates := seq(|s.creates|, i requires 0 <= i < |s.creates| =>
        if s.creates[i].standing == Registered then s.creates[i].(standing := Removed) else s.creates[i]))
    case Lock => s.(app := s.app.(locked := true))
    case Unlock => s.(app := s.app.(locked := false))
    case Connect => s.(app := s.app.(installed := Some(|s.app.stopped|), stopped := s.app.stopped + [false]))
    case StopConnection => s.(app := s.app.(stopped := s.app.stopped[s.app.installed.value := true]))
    case Uninstall => s.(app := s.app.(installed := None))
  }

  // ----- The cache -----

  /** Every cached key is of the current revision, and none is in flight as well. */
  ghost predicate CacheInv(rev: nat, channels: map<Key, nat>, inflight: map<Key, nat>)
  {
    forall key :: key in channels ==> key.rev == rev && key !in inflight
  }

  /** Every key in flight is of the current revision and names its unfinished open. */
  ghost predicate InflightInv(rev: nat, inflight: map<Key, nat>, opens: seq<Open>)
  {
    forall key :: key in inflight ==>
      key.rev == rev && inflight[key] < |opens| && opens[inflight[key]].key == key && opens[inflight[key]].Unfinished()
  }

  /** An unfinished open of the current revision is the one in flight for its key. */
  ghost predicate CurrentInv(rev: nat, inflight: map<Key, nat>, opens: seq<Open>)
  {
    forall o :: 0 <= o < |opens| ==>
      && opens[o].key.rev <= rev
      && (opens[o].Unfinished() && opens[o].key.rev == rev ==> opens[o].key in inflight && inflight[opens[o].key] == o)
  }

  ghost predicate OnePerKey(opens: seq<Open>)
  {
    forall o, q :: 0 <= o < q < |opens| && opens[o].Unfinished() && opens[q].Unfinished() ==> opens[o].key != opens[q].key
  }

  ghost predicate KeysInv(s: State)
  {
    && CacheInv(s.rev, s.channels, s.inflight) && InflightInv(s.rev, s.inflight, s.opens)
    && CurrentInv(s.rev, s.inflight, s.opens) && OnePerKey(s.opens)
  }

  predicate InHands(s: State, o: nat, c: nat)
  {
    o < |s.opens| && (s.opens[o].stage == Back(Some(c)) || s.opens[o].stage == Rejecting(c))
  }

  /** Channel c is closed, waiting to be closed, cached, or in the hands of the goroutine that opened it. */
  ghost predicate Accounted(s: State, c: nat)
  {
    IsClosed(s, c) || c in s.toClose || c in s.channels.Values || exists o: nat :: InHands(s, o, c)
  }

  ghost predicate ChannelInv(s: State)
  {
    && (forall c :: 0 <= c < |s.closed| ==> Accounted(s, c))
    && (forall o: nat, c: nat :: InHands(s, o, c) ==> c < |s.closed|)
    && (forall key :: key in s.channels ==> s.channels[key] < |s.closed|)
    && (forall c :: c in s.toClose ==> c < |s.closed|)
  }

  ghost predicate TunnelInv(s: State)
  {
    && (forall i :: i in s.tunnels ==> i < |s.creates| && s.creates[i].standing == Registered)
    && (forall i :: 0 <= i < |s.creates| && s.creates[i].standing == Registered ==> i in s.tunnels)
    && (forall i :: 0 <= i < |s.creates| ==> s.creates[i].rev <= s.rev)
  }

  /** Only the installed connection's lifetime can be live. */
  ghost predicate AppInv(s: State)
  {
    && (forall c: nat :: s.app.Live(c) ==> s.app.installed == Some(c))
    && (s.app.installed.Some? ==> s.app.installed.value < |s.app.stopped|)
  }

  ghost predicate Inv(s: State)
  {
    KeysInv(s) && ChannelInv(s) && TunnelInv(s) && AppInv(s)
  }

  lemma StartKeeps(rev: nat, inflight: map<Key, nat>, opens: seq<Open>, key: Key)
    requires InflightInv(rev, inflight, opens) && CurrentInv(rev, inflight, opens) && OnePerKey(opens) && key.rev == rev && key !in inflight
    ensures var more, flying := opens + [Open(key, Running)], inflight[key := |opens|];
            InflightInv(rev, flying, more) && CurrentInv(rev, flying, more) && OnePerKey(more)
  {
  }

  lemma LookupKeeps(s: State, peer: nat, rev: nat)
    requires KeysInv(s)
    ensures KeysInv(Lookedup(s, peer, rev))
  {
    var key := Key(peer, s.rev);
    if key !in s.inflight {
      StartKeeps(s.rev, s.inflight, s.opens, key);
    }
  }

  /** Replacing open o's stage keeps the keys in order if an open that stops being unfinished also leaves inflight. */
  lemma StageKeeps(rev: nat, inflight: map<Key, nat>, opens: seq<Open>, o: nat, stage: Stage)
    requires InflightInv(rev, inflight, opens) && CurrentInv(rev, inflight, opens) && OnePerKey(opens) && o < |opens|
    requires Open(opens[o].key, stage).Unfinished() ==> opens[o].Unfinished()
    ensures var less := if Open(opens[o].key, stage).Unfinished() || opens[o].key !in inflight || inflight[opens[o].key] != o then inflight else inflight - {opens[o].key};
            var after := opens[o := opens[o].(stage := stage)];
            InflightInv(rev, less, after) && CurrentInv(rev, less, after) && OnePerKey(after)
  {
  }

  /** Inserting never overwrites: a current open finds its key absent from the cache. */
  lemma FinishKeeps(s: State, o: nat)
    requires KeysInv(s) && Enabled(s, Finish(o))
    ensures KeysInv(Finished(s, o))
    ensures s.opens[o].key.rev == s.rev ==> s.opens[o].key !in s.channels
  {
    StageKeeps(s.rev, s.inflight, s.opens, o, Finished(s, o).opens[o].stage);
    assert s.opens[o].key.rev == s.rev ==> s.opens[o].key in s.inflight;
  }

  lemma ResetKeeps(s: State)
    requires KeysInv(s)
    ensures KeysInv(Next(s, Reset))
  {
    assert forall o :: 0 <= o < |s.opens| ==> s.opens[o].key.rev <= s.rev;
  }

  lemma KeepsKeys(s: State, a: Action)
    requires KeysInv(s) && Enabled(s, a)
    ensures KeysInv(Next(s, a))
  {
    match a
    case Lookup(peer, rev) => LookupKeeps(s, peer, rev);
    case OpenOk(o) => StageKeeps(s.rev, s.inflight, s.opens, o, Back(Some(|s.closed|)));
    case OpenFails(o) => StageKeeps(s.rev, s.inflight, s.opens, o, Back(None));
    case Finish(o) => FinishKeeps(s, o);
    case CloseRejected(o) =>
      StageKeeps(s.rev, s.inflight, s.opens, o, Through);
      assert s.opens[o].key !in s.inflight || s.inflight[s.opens[o].key] != o;
    case Reset => ResetKeeps(s);
    case _ =>
      assert Next(s, a).opens == s.opens && Next(s, a).inflight == s.inflight && Next(s, a).rev == s.rev;
  }

  // ----- Channels and tunnels -----

  /** Whoever answers for channel c still does after a step that touches no open's hands and loses no cached channel. */
  lemma StillAccounted(s: State, t: State, c: nat)
    requires Accounted(s, c) && t.opens == s.opens && (c in s.toClose ==> c in t.toClose || IsClosed(t, c))
    requires IsClosed(s, c) ==> IsClosed(t, c)
    requires c in s.channels.Values ==> c in t.channels.Values || c in t.toClose || IsClosed(t, c)
    ensures Accounted(t, c)
  {
    if o: nat :| InHands(s, o, c) {
      assert InHands(t, o, c);
    }
  }

  /** Removing a key whose channel is closed loses nobody. */
  lemma DropClosed(channels: map<Key, nat>, key: Key, c: nat)
    requires c in channels.Values
    ensures c in (channels - {key}).Values || (key in channels && channels[key] == c)
  {
    var k :| k in channels && channels[k] == c;
    if k != key {
      assert k in channels - {key};
    }
  }

  lemma LookupAccounts(s: State, peer: nat, rev: nat, c: nat)
    requires Accounted(s, c)
    ensures Accounted(Lookedup(s, peer, rev), c)
  {
    var t, key := Lookedup(s, peer, rev), Key(peer, s.rev);
    if c in s.channels.Values {
      DropClosed(s.channels, key, c);
    }
    if o: nat :| InHands(s, o, c) {
      assert InHands(t, o, c);
    }
  }

  lemma OpenAccounts(s: State, o: nat, stage: Stage, closed: seq<bool>, c: nat)
    requires o < |s.opens| && s.opens[o].stage.Running? && s.closed <= closed
    requires if c < |s.closed| then Accounted(s, c) else stage == Back(Some(c))
    ensures Accounted(SetStage(s.(closed := closed), o, stage), c)
  {
    var t := SetStage(s.(closed := closed), o, stage);
    if c >= |s.closed| {
      assert InHands(t, o, c);
    } else if q: nat :| InHands(s, q, c) {
      assert q != o && InHands(t, q, c);
    }
  }

  lemma FinishAccounts(s: State, o: nat, c: nat)
    requires KeysInv(s) && Enabled(s, Finish(o)) && Accounted(s, c)
    ensures Accounted(Finished(s, o), c)
  {
    FinishKeeps(s, o);
    var t, key, ch := Finished(s, o), s.opens[o].key, s.opens[o].stage.ch;
    if c in s.channels.Values {
      var k :| k in s.channels && s.channels[k] == c;
      assert k in t.channels && t.channels[k] == c;
    }
    if q: nat :| InHands(s, q, c) {
      if q != o {
        assert InHands(t, q, c);
      } else if key.rev != s.rev {
        assert InHands(t, o, c);
      } else {
        assert t.channels[key] == c;
      }
    }
  }

  lemma CloseAccounts(s: State, o: nat, c: nat)
    requires ChannelInv(s) && Enabled(s, CloseRejected(o)) && Accounted(s, c)
    ensures Accounted(Next(s, CloseRejected(o)), c)
  {
    var t := Next(s, CloseRejected(o));
    assert InHands(s, o, s.opens[o].stage.rejected);
    if q: nat :| InHands(s, q, c) {
      if q != o {
        assert InHands(t, q, c);
      }
    }
  }

  lemma StepAccounts(s: State, a: Action, c: nat)
    requires KeysInv(s) && ChannelInv(s) && Enabled(s, a) && c < |Next(s, a).closed|
    ensures Accounted(Next(s, a), c)
  {
    assert c < |s.closed| ==> Accounted(s, c);
    match a
    case Lookup(peer, rev) => LookupAccounts(s, peer, rev, c);
    case OpenOk(o) => OpenAccounts(s, o, Back(Some(|s.closed|)), s.closed + [false], c);
    case OpenFails(o) => OpenAccounts(s, o, Back(None), s.closed, c);
    case Finish(o) => FinishAccounts(s, o, c);
    case CloseRejected(o) => CloseAccounts(s, o, c);
    case Evict(key, d) =>
      if c in s.channels.Values {
        DropClosed(s.channels, key, c);
      }
      StillAccounted(s, Next(s, a), c);
    case _ => StillAccounted(s, Next(s, a), c);
  }

  lemma HandsHoldChannels(s: State, a: Action)
    requires ChannelInv(s) && Enabled(s, a)
    ensures forall o: nat, c: nat :: InHands(Next(s, a), o, c) ==> c < |Next(s, a).closed|
  {
    var t := Next(s, a);
    forall o: nat, c: nat | InHands(t, o, c) ensures c < |t.closed| {
      if c != |s.closed| || !a.OpenOk? {
        assert InHands(s, o, c);
      }
    }
  }

  lemma CachedAreChannels(s: State, a: Action)
    requires ChannelInv(s) && Enabled(s, a)
    ensures forall key :: key in Next(s, a).channels ==> Next(s, a).channels[key] < |Next(s, a).closed|
    ensures forall c :: c in Next(s, a).toClose ==> c < |Next(s, a).closed|
  {
    if a.Finish? && s.opens[a.o].stage.ch.Some? {
      assert InHands(s, a.o, s.opens[a.o].stage.ch.value);
    }
  }

  lemma KeepsChannels(s: State, a: Action)
    requires KeysInv(s) && ChannelInv(s) && Enabled(s, a)
    ensures ChannelInv(Next(s, a))
  {
    HandsHoldChannels(s, a);
    CachedAreChannels(s, a);
    forall c: nat | c < |Next(s, a).closed| ensures Accounted(Next(s, a), c) {
      StepAccounts(s, a, c);
    }
  }

  lemma SweepKeepsTunnels(s: State)
    requires TunnelInv(s)
    ensures TunnelInv(Next(s, Sweep))
  {
  }

  lemma CreateKeepsTunnels(s: State, a: Action)
    requires TunnelInv(s) && Enabled(s, a) && (a.BeginCreate? || a.CancelCreate? || a.Register? || a.Delete?)
    ensures TunnelInv(Next(s, a))
  {
  }

  lemma KeepsTunnels(s: State, a: Action)
    requires TunnelInv(s) && Enabled(s, a)
    ensures TunnelInv(Next(s, a))
  {
    if a.Sweep? {
      SweepKeepsTunnels(s);
    } else if a.BeginCreate? || a.CancelCreate? || a.Register? || a.Delete? {
      CreateKeepsTunnels(s, a);
    } else {
      assert Next(s, a).creates == s.creates && Next(s, a).tunnels == s.tunnels && Next(s, a).rev >= s.rev;
    }
  }

  predicate ByApp(a: Action)
  {
    a.Lock? || a.Unlock? || a.Connect? || a.StopConnection? || a.Uninstall?
  }

  lemma KeepsApp(s: State, a: Action)
    requires AppInv(s) && Enabled(s, a)
    ensures AppInv(Next(s, a))
  {
    if !ByApp(a) {
      assert Next(s, a).app == s.app;
    }
  }

  lemma NextKeepsInv(s: State, a: Action)
    requires Inv(s) && Enabled(s, a)
    ensures Inv(Next(s, a))
  {
    KeepsKeys(s, a);
    KeepsChannels(s, a);
    KeepsTunnels(s, a);
    KeepsApp(s, a);
  }

  // ----- Over every run -----

  ghost predicate ValidRun(s: State, acts: seq<Action>)
    decreases |acts|
  {
    acts == [] || (Enabled(s, acts[0]) && ValidRun(Next(s, acts[0]), acts[1..]))
  }

  ghost function After(s: State, acts: seq<Action>): State
    requires ValidRun(s, acts)
    decreases |acts|
  {
    if acts == [] then s else After(Next(s, acts[0]), acts[1..])
  }

  lemma {:induction false} RunKeepsInv(s: State, acts: seq<Action>)
    requires Inv(s) && ValidRun(s, acts)
    ensures Inv(After(s, acts))
    decreases |acts|
  {
    if acts != [] {
      NextKeepsInv(s, acts[0]);
      RunKeepsInv(Next(s, acts[0]), acts[1..]);
    }
  }

  /**
   * The cache under epochs, over every run: both maps hold only current keys, a key is cached or in
   * flight but not both, at most one open runs per key, and every channel ever opened is cached, in its
   * opener's hands, handed over to be closed, or closed.
   */
  lemma CacheIsFenced(acts: seq<Action>)
    requires ValidRun(START, acts)
    ensures var t := After(START, acts);
            && (forall key :: key in t.channels || key in t.inflight ==> key.rev == t.rev)
            && (forall key :: key in t.channels ==> key !in t.inflight)
            && OnePerKey(t.opens)
            && (forall c :: 0 <= c < |t.closed| ==> Accounted(t, c))
  {
    RunKeepsInv(START, acts);
  }

  /** In every reachable state, an open that caches its channel overwrites nothing, and only a current one is cached. */
  lemma InsertNeverOverwrites(acts: seq<Action>, o: nat)
    requires ValidRun(START, acts) && Enabled(After(START, acts), Finish(o))
    ensures var s := After(START, acts);
            var t, key := Finished(s, o), s.opens[o].key;
            && (t.channels == s.channels || (key !in s.channels && key.rev == s.rev && t.channels == s.channels[key := t.channels[key]]))
            && (t.channels != s.channels <==> s.opens[o].stage.ch.Some? && key.rev == s.rev)
            && (s.opens[o].stage.ch.Some? && key.rev != s.rev ==> t.opens[o].stage == Rejecting(s.opens[o].stage.ch.value))
  {
    RunKeepsInv(START, acts);
    var s := After(START, acts);
    FinishKeeps(s, o);
    assert s.opens[o].stage.ch.Some? && s.opens[o].key.rev == s.rev ==> s.opens[o].key in Finished(s, o).channels;
  }

  lemma RegistersOnlyCurrent(s: State, a: Action, i: nat)
    requires Enabled(s, a) && i !in s.tunnels && i in Next(s, a).tunnels
    ensures a == Register(i) && MayRegister(s, i)
  {
  }

  /**
   * A tunnel that a run adds was registered by its own create, at a moment (after k steps) when the revision
   * it was created under was current, its connection's lifetime was live and its request still wanted.
   */
  lemma {:induction false} TunnelsRegisterCurrent(s: State, acts: seq<Action>, i: nat) returns (k: nat)
    requires ValidRun(s, acts) && i !in s.tunnels && i in After(s, acts).tunnels
    ensures k < |acts| && acts[k] == Register(i) && ValidRun(s, acts[..k])
    ensures var u := After(s, acts[..k]); i < |u.creates| && MayRegister(u, i)
    decreases |acts|
  {
    var t := Next(s, acts[0]);
    if i in t.tunnels {
      RegistersOnlyCurrent(s, acts[0], i);
      k := 0;
      assert acts[..0] == [];
    } else {
      var j := TunnelsRegisterCurrent(t, acts[1..], i);
      k := j + 1;
      assert acts[..k][1..] == acts[1..][..j];
    }
  }

  // ----- CloseAll -----

  predicate Unlocks(acts: seq<Action>)
  {
    exists k :: 0 <= k < |acts| && acts[k].Unlock?
  }

  /**
   * CloseAll as it runs: sweep the tunnels, let anything at all interleave, reset the channels. `mine` says that
   * its own caller holds lifecycleMu; then, and only then, the lock is not released in between.
   */
  ghost predicate CloseAllRun(s: State, mine: bool, between: seq<Action>)
  {
    ValidRun(Next(s, Sweep), between) && (mine ==> !Unlocks(between))
  }

  ghost function AfterCloseAll(s: State, mine: bool, between: seq<Action>): State
    requires CloseAllRun(s, mine, between)
  {
    Next(After(Next(s, Sweep), between), Reset)
  }

  /** Every connection's lifetime is over. */
  predicate AllOver(s: State)
  {
    forall c :: 0 <= c < |s.app.stopped| ==> s.app.stopped[c]
  }

  /** No lifetime is live, and none can start while the lock is held. */
  predicate Fenced(s: State)
  {
    s.app.locked && AllOver(s)
  }

  lemma FencedStep(s: State, a: Action)
    requires Enabled(s, a) && Fenced(s) && s.tunnels == {} && !a.Unlock?
    ensures Fenced(Next(s, a)) && Next(s, a).tunnels == {}
  {
    if !ByApp(a) {
      assert Next(s, a).app == s.app;
    }
  }

  lemma {:induction false} FencedStays(s: State, acts: seq<Action>)
    requires ValidRun(s, acts) && Fenced(s) && s.tunnels == {} && !Unlocks(acts)
    ensures After(s, acts).tunnels == {}
    decreases |acts|
  {
    if acts != [] {
      assert !acts[0].Unlock?;
      FencedStep(s, acts[0]);
      assert forall k :: 0 <= k < |acts[1..]| ==> acts[1..][k] == acts[k + 1];
      FencedStays(Next(s, acts[0]), acts[1..]);
    }
  }

  lemma {:induction false} RunSnoc(s: State, acts: seq<Action>, a: Action)
    requires ValidRun(s, acts) && Enabled(After(s, acts), a)
    ensures ValidRun(s, acts + [a]) && After(s, acts + [a]) == Next(After(s, acts), a)
    decreases |acts|
  {
    if acts != [] {
      assert (acts + [a])[1..] == acts[1..] + [a];
      RunSnoc(Next(s, acts[0]), acts[1..], a);
    }
  }

  /** Some run leads to s. */
  ghost predicate Reached(s: State)
  {
    exists acts :: ValidRun(START, acts) && After(START, acts) == s
  }

  lemma ReachedInv(s: State)
    requires Reached(s)
    ensures Inv(s)
  {
    var acts :| ValidRun(START, acts) && After(START, acts) == s;
    RunKeepsInv(START, acts);
  }

  lemma ReachedNext(s: State, a: Action)
    requires Reached(s) && Enabled(s, a)
    ensures Reached(Next(s, a))
  {
    var acts :| ValidRun(START, acts) && After(START, acts) == s;
    RunSnoc(START, acts, a);
  }

  lemma Do(s: State, acts: seq<Action>, a: Action) returns (more: seq<Action>)
    requires ValidRun(s, acts) && Enabled(After(s, acts), a)
    ensures ValidRun(s, more) && After(s, more) == Next(After(s, acts), a)
    ensures more == acts + [a]
  {
    RunSnoc(s, acts, a);
    more := acts + [a];
  }

  /** With no lock in the way, the app can always come to have a live connection. */
  lemma CanConnect(s: State) returns (acts: seq<Action>)
    requires AppInv(s) && !s.app.locked
    ensures ValidRun(s, acts)
    ensures var t := After(s, acts); t.app.installed.Some? && t.app.Live(t.app.installed.value) && t.tunnels == s.tunnels && t.creates == s.creates
  {
    acts := [];
    if s.app.installed.Some? && !s.app.Live(s.app.installed.value) {
      acts := Do(s, acts, Lock);
      acts := Do(s, acts, Uninstall);
      acts := Do(s, acts, Unlock);
    }
    if After(s, acts).app.installed.None? {
      acts := Do(s, acts, Connect);
    }
  }

  /** While a connection is live, a tunnel can be created on it. */
  lemma CanRegister(s: State, acts: seq<Action>, c: nat) returns (more: seq<Action>, i: nat)
    requires ValidRun(s, acts) && After(s, acts).app.Live(c)
    ensures ValidRun(s, more) && more == acts + [BeginCreate(c), Register(i)]
    ensures var t := After(s, more); i in t.tunnels && i < |t.creates| && t.creates[i].rev == t.rev
  {
    i := |After(s, acts).creates|;
    more := Do(s, acts, BeginCreate(c));
    more := Do(s, more, Register(i));
  }

  /** Once no lock is in the way, by itself or because its holder lets go of it, the app can come to have a live connection. */
  lemma CanConnectLater(s: State) returns (acts: seq<Action>)
    requires AppInv(s)
    ensures ValidRun(s, acts)
    ensures var t := After(s, acts); t.app.installed.Some? && t.app.Live(t.app.installed.value)
  {
    if s.app.locked {
      var u := Next(s, Unlock);
      var rest := CanConnect(u);
      acts := [Unlock] + rest;
      assert acts[1..] == rest;
    } else {
      acts := CanConnect(s);
    }
  }

  /**
   * A failing interleaving: a create begins and registers between the two critical sections. What survives
   * belongs to a revision that is gone.
   */
  lemma TunnelCanOutliveCloseAll(s: State, mine: bool) returns (between: seq<Action>, i: nat)
    requires Inv(s) && (mine ==> s.app.locked) && !(mine && AllOver(s))
    ensures CloseAllRun(s, mine, between)
    ensures var t := AfterCloseAll(s, mine, between); i in t.tunnels && i < |t.creates| && t.creates[i].rev < t.rev
  {
    var u := Next(s, Sweep);
    if mine {
      var c :| 0 <= c < |s.app.stopped| && !s.app.stopped[c];
      between, i := CanRegister(u, [], c);
      assert between == [BeginCreate(c), Register(i)];
    } else {
      var acts := CanConnectLater(u);
      between, i := CanRegister(u, acts, After(u, acts).app.installed.value);
    }
  }

  /**
   * CloseAll leaves no tunnel behind, whatever interleaves, exactly when its own caller holds lifecycleMu and
   * every connection's lifetime is over. That some other section holds the lock does not help.
   */
  lemma CloseAllLeavesNothingIff(s: State, mine: bool)
    requires Inv(s) && (mine ==> s.app.locked)
    ensures (forall between :: CloseAllRun(s, mine, between) ==> AfterCloseAll(s, mine, between).tunnels == {}) <==> mine && AllOver(s)
  {
    if mine && AllOver(s) {
      forall between | CloseAllRun(s, mine, between) ensures AfterCloseAll(s, mine, between).tunnels == {} {
        FencedStays(Next(s, Sweep), between);
      }
    } else {
      var between, i := TunnelCanOutliveCloseAll(s, mine);
      assert CloseAllRun(s, mine, between) && i in AfterCloseAll(s, mine, between).tunnels;
    }
  }

  /** disconnectLocked, up to its CloseAll: the installed connection, if any, is stopped. */
  function Disconnecting(s: State): State
  {
    if Enabled(s, StopConnection) then Next(s, StopConnection) else s
  }

  /** disconnectLocked meets the condition: under its own lock, stopping the installed connection leaves no lifetime live. */
  lemma DisconnectClosesAll(acts: seq<Action>, between: seq<Action>)
    requires ValidRun(START, acts) && After(START, acts).app.locked
    requires CloseAllRun(Disconnecting(After(START, acts)), true, between)
    ensures AllOver(Disconnecting(After(START, acts)))
    ensures AfterCloseAll(Disconnecting(After(START, acts)), true, between).tunnels == {}
  {
    RunKeepsInv(START, acts);
    var s := After(START, acts);
    var u := Disconnecting(s);
    if u != s {
      NextKeepsInv(s, StopConnection);
    }
    DisconnectingEndsAll(s);
    CloseAllLeavesNothingIff(u, true);
  }

  lemma DisconnectingEndsAll(s: State)
    requires AppInv(s)
    ensures AllOver(Disconnecting(s))
  {
    var u := Disconnecting(s);
    forall c | 0 <= c < |u.app.stopped| ensures u.app.stopped[c] {
      assert !s.app.Live(c) || s.app.installed == Some(c);
    }
  }

  /**
   * ResetTunnels calls CloseAll without taking the lock: from every reachable state, whoever else may hold it, some
   * interleaving leaves a tunnel behind.
   */
  lemma ResetTunnelsCanLeaveATunnel(acts: seq<Action>) returns (between: seq<Action>)
    requires ValidRun(START, acts)
    ensures CloseAllRun(After(START, acts), false, between) && AfterCloseAll(After(START, acts), false, between).tunnels != {}
  {
    RunKeepsInv(START, acts);
    var i;
    between, i := TunnelCanOutliveCloseAll(After(START, acts), false);
  }

  // ----- A lookup is served -----

  /** An open channel is cached for the peer under the current revision. */
  predicate Serves(s: State, peer: nat)
  {
    var key := Key(peer, s.rev);
    key in s.channels && s.channels[key] < |s.closed| && !s.closed[s.channels[key]]
  }

  /** A channel that closed leaves the cache, alone, by eviction or at the next lookup, which waits on an open instead. */
  lemma ClosedChannelLeaves(s: State, key: Key)
    requires Reached(s) && key in s.channels && IsClosed(s, s.channels[key])
    ensures Next(s, Evict(key, s.channels[key])).channels == s.channels - {key}
    ensures var t := Next(s, Lookup(key.peer, s.rev));
            && t.channels == s.channels - {key} && key in t.inflight
            && t.inflight[key] < |t.opens| && t.opens[t.inflight[key]].key == key && t.opens[t.inflight[key]].Unfinished()
  {
    ReachedInv(s);
    LookupKeeps(s, key.peer, s.rev);
  }

  /** Channels that a reset dropped, and ones opened too late, can be closed, and are closed by it. */
  lemma DroppedGetClosed(s: State, c: nat, o: nat)
    requires Reached(s)
    ensures c in s.toClose ==> Enabled(s, CloseDropped(c)) && IsClosed(Next(s, CloseDropped(c)), c)
    ensures InHands(s, o, c) && s.opens[o].stage.Rejecting? ==> Enabled(s, CloseRejected(o)) && IsClosed(Next(s, CloseRejected(o)), c)
  {
    ReachedInv(s);
  }

  lemma DoReached(s: State, acts: seq<Action>, a: Action) returns (more: seq<Action>)
    requires ValidRun(s, acts) && Reached(After(s, acts)) && Enabled(After(s, acts), a)
    ensures more == acts + [a] && ValidRun(s, more) && After(s, more) == Next(After(s, acts), a) && Reached(After(s, more))
  {
    ReachedNext(After(s, acts), a);
    more := Do(s, acts, a);
  }

  /** With no open under way for the peer, the lookup starts one, and when that succeeds its channel is cached. */
  lemma FreshOpenServes(s: State, acts: seq<Action>, peer: nat) returns (more: seq<Action>)
    requires ValidRun(s, acts) && Reached(After(s, acts))
    requires var u := After(s, acts); !Serves(u, peer) && Key(peer, u.rev) !in u.inflight
    ensures ValidRun(s, more) && Serves(After(s, more), peer) && After(s, more).rev == After(s, acts).rev
  {
    var u := After(s, acts);
    ReachedInv(u);
    more := DoReached(s, acts, Lookup(peer, u.rev));
    more := DoReached(s, more, OpenOk(|u.opens|));
    more := DoReached(s, more, Finish(|u.opens|));
  }

  /** An open under way for the peer comes back and finishes, and is then no longer in flight. */
  lemma OpenComesBack(s: State, peer: nat) returns (acts: seq<Action>)
    requires Reached(s) && Key(peer, s.rev) in s.inflight
    ensures ValidRun(s, acts) && Reached(After(s, acts)) && After(s, acts).rev == s.rev && Key(peer, s.rev) !in After(s, acts).inflight
  {
    ReachedInv(s);
    var o := s.inflight[Key(peer, s.rev)];
    acts := [];
    if s.opens[o].stage.Running? {
      acts := DoReached(s, acts, OpenOk(o));
    }
    acts := DoReached(s, acts, Finish(o));
  }

  /**
   * Every lookup can be served: from every reachable state, under the current revision, lookups and opens that succeed
   * lead to an open channel cached for the peer; and as long as it is, a lookup leaves everything as it is.
   */
  lemma LookupIsServed(s: State, peer: nat) returns (acts: seq<Action>)
    requires Reached(s)
    ensures ValidRun(s, acts) && After(s, acts).rev == s.rev && Serves(After(s, acts), peer)
    ensures Next(After(s, acts), Lookup(peer, s.rev)) == After(s, acts)
  {
    acts := [];
    if !Serves(s, peer) {
      if Key(peer, s.rev) in s.inflight {
        acts := OpenComesBack(s, peer);
      }
      if !Serves(After(s, acts), peer) {
        acts := FreshOpenServes(s, acts, peer);
      }
    }
  }

  // ----- The object -----

  /** TunnelManager: each method is one critical section, proved to be the action it models. */
  class TunnelManager {
    var rev: nat
    var channels: map<Key, nat>
    var inflight: map<Key, nat>
    var opens: seq<Open>
    var closed: seq<bool>
    var toClose: set<nat>
    var creates: seq<Create>
    var tunnels: set<nat>
    var app: App

    constructor ()
      ensures Value() == START && Inv(Value())
    {
      rev, channels, inflight, opens := 1, map[], map[], [];
      closed, toClose, creates, tunnels, app := [], {}, [], {}, START.app;
    }

    function Value(): State
      reads this
    {
      State(rev, channels, inflight, opens, closed, toClose, creates, tunnels, app)
    }

    /** getOrOpenChannel up to its wait: a live cached channel, or the open to wait for, or a refusal. */
    method GetOrOpenChannel(peer: nat, revision: nat) returns (ch: Option<nat>, wait: Option<nat>)
      requires Inv(Value())
      modifies this
      ensures Value() == Next(old(Value()), Lookup(peer, revision)) && Inv(Value())
      ensures revision != old(rev) ==> ch.None? && wait.None?
      ensures revision == old(rev) ==> (ch.Some? <==> wait.None?)
      ensures ch.Some? ==> Key(peer, rev) in channels && channels[Key(peer, rev)] == ch.value && !IsClosed(Value(), ch.value)
      ensures wait.Some? ==> wait.value < |opens| && opens[wait.value].key == Key(peer, rev) && opens[wait.value].Unfinished()
    {
      NextKeepsInv(Value(), Lookup(peer, revision));
      if revision != rev {
        return None, None;
      }
      var key := Key(peer, rev);
      if key in channels {
        var c := channels[key];
        if !(c < |closed| && closed[c]) {
          return Some(c), None;
        }
      }
      channels := channels - {key};
      if key !in inflight {
        inflight := inflight[key := |opens|];
        opens := opens + [Open(key, Running)];
      }
      return None, Some(inflight[key]);
    }

    /** The locked section of runChannelOpen; returns the channel it must close itself, if any. */
    method FinishOpen(o: nat) returns (reject: Option<nat>)
      requires Inv(Value()) && o < |opens| && opens[o].stage.Back?
      modifies this
      ensures Value() == Next(old(Value()), Finish(o)) && Inv(Value())
      ensures reject.Some? <==> old(opens)[o].stage.ch.Some? && old(opens)[o].key.rev != rev
      ensures forall key :: key in old(channels) ==> key in channels && channels[key] == old(channels)[key]
    {
      NextKeepsInv(Value(), Finish(o));
      FinishKeeps(Value(), o);
      var key, ch := opens[o].key, opens[o].stage.ch;
      reject := if key.rev != rev then ch else None;
      if key in inflight && inflight[key] == o {
        inflight := inflight - {key};
      }
      if ch.Some? && reject.None? {
        channels := channels[key := ch.value];
      }
      opens := opens[o := opens[o].(stage := if reject.Some? then Rejecting(reject.value) else Through)];
    }

    /** removeClosedChannel, once the channel is done. */
    method RemoveClosedChannel(key: Key, c: nat)
      requires Inv(Value()) && IsClosed(Value(), c)
      modifies this
      ensures Value() == Next(old(Value()), Evict(key, c)) && Inv(Value())
      ensures channels == if key in old(channels) && old(channels)[key] == c then old(channels) - {key} else old(channels)
    {
      NextKeepsInv(Value(), Evict(key, c));
      if key in channels && channels[key] == c {
        channels := channels - {key};
      }
    }

    /** The locked section of resetChannels. */
    method ResetChannels()
      requires Inv(Value())
      modifies this
      ensures Value() == Next(old(Value()), Reset) && Inv(Value())
      ensures channels == map[] && inflight == map[] && old(channels).Values <= toClose
    {
      NextKeepsInv(Value(), Reset);
      rev := rev + 1;
      toClose := toClose + channels.Values;
      channels := map[];
      inflight := map[];
    }

    /** The locked section of DeleteTunnel; reports whether the tunnel was there. */
    method DeleteTunnel(i: nat) returns (ok: bool)
      requires Inv(Value())
      modifies this
      ensures Inv(Value()) && (ok <==> i in old(tunnels)) && tunnels == old(tunnels) - {i}
      ensures Value() == if ok then Next(old(Value()), Delete(i)) else old(Value())
    {
      ok := i in tunnels;
      if ok {
        NextKeepsInv(Value(), Delete(i));
        tunnels := tunnels - {i};
        creates := creates[i := creates[i].(standing := Removed)];
      }
    }

    /** The registration step of CreateTunnel. */
    method RegisterTunnel(i: nat) returns (ok: bool)
      requires Inv(Value()) && i < |creates| && creates[i].standing == Pending
      modifies this
      ensures Value() == Next(old(Value()), Register(i)) && Inv(Value())
      ensures ok <==> old(creates)[i].wanted && app.Live(old(creates)[i].conn) && old(creates)[i].rev == rev
      ensures ok <==> i in tunnels
    {
      NextKeepsInv(Value(), Register(i));
      ok := creates[i].wanted && app.Live(creates[i].conn) && creates[i].rev == rev;
      if ok {
        tunnels := tunnels + {i};
      }
      creates := creates[i := creates[i].(standing := if ok then Registered else Refused)];
    }
  }
}

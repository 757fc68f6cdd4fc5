/**
 * On a dying channel the dispatcher's select may abandon a frame and still take what follows it
 * (backend/tunnel/conn.go). When can the byte stream come to have a gap, and when can a clean EOF come to hide
 * bytes? Both exactly characterised on the present state, over every continuation.
 */
module Gaps {
  import opened Bytes
  import opened Downstream
  import opened Refill
  import opened Overtaking

  /** The frames enqueued are not a prefix of the frames sent. */
  ghost predicate Broken(s: State)
  {
    !(s.log <= s.w.sent)
  }

  /** Some frame that was sent is neither enqueued nor under way. */
  ghost predicate Missing(s: State)
  {
    s.log + Rest(s) != s.w.sent
  }

  /** Frames that can still reach the dispatcher without another grant. */
  function Coming(s: State): nat
  {
    |Rest(s)| + (if s.w.stage.Stopped? then 0 else Supply(s) + (if s.w.stage.Credited? then 1 else 0))
  }

  /**
   * The exact condition for a gap: there is one; or a frame is missing and the dispatcher holds another; or the
   * conn still accepts frames and enough of them can come -- two, or one if a frame is missing already. While
   * channel and worker are up, enough can always come.
   */
  ghost predicate CanBreak(s: State)
  {
    || Broken(s)
    || (Missing(s) && Held(s.d) != [])
    || (!s.closed && s.terminal.None?
        && ((!s.dead && !s.w.stage.Stopped?) || Coming(s) >= if Missing(s) then 1 else 2))
  }

  /** The same, read off the model's record of what was dropped and skipped. */
  predicate CanSkip(s: State)
  {
    || s.skipped
    || (s.dropped && Held(s.d) != [])
    || (!s.closed && s.terminal.None?
        && ((!s.dead && !s.w.stage.Stopped?) || Coming(s) >= if s.dropped then 1 else 2))
  }

  lemma SkippingIsBreaking(s: State)
    requires FlowInv(s)
    ensures CanBreak(s) <==> CanSkip(s)
  {
    FlagsShow(s);
  }

  // ----- Necessary -----

  lemma WorkerCannotSkip(s: State, a: WorkerStep)
    requires CreditInv(s) && WorkerMay(s, a) && CanSkip(WorkerDoes(s, a))
    ensures CanSkip(s)
  {
    WorkerMoves(s, a);
    WorkerFrame(s, a);
    if a.ApplyGrant? || a.IgnoreGrant? {
      TotalRemove(s.grants, a.k);
    }
  }

  lemma DispatcherCannotSkip(s: State, a: DispatchStep)
    requires DropInv(s) && SizeInv(s) && DispatcherMay(s, a) && CanSkip(DispatcherDoes(s, a))
    ensures CanSkip(s)
  {
    DispatcherMoves(s, a);
    DispatcherFrame(s, a);
  }

  lemma ClientCannotSkip(s: State, a: Action)
    requires Enabled(s, a) && (a.ByReader? || a.ByLoop?) && CanSkip(Next(s, a))
    ensures CanSkip(s)
  {
    if a.ByReader? {
      ReaderFrame(s, a.r);
    } else {
      LoopFrame(s, a.l);
      if a.l.SendGrant? {
        TotalAppend(s.grants, [s.g.loop.grant]);
      }
    }
  }

  lemma CannotSkip(s: State, a: Action)
    requires CreditInv(s) && DropInv(s) && SizeInv(s) && Enabled(s, a) && CanSkip(Next(s, a))
    ensures CanSkip(s)
  {
    match a
    case ByWorker(w) => WorkerCannotSkip(s, w);
    case ByDispatcher(d) => DispatcherCannotSkip(s, d);
    case ByReader(_) => ClientCannotSkip(s, a);
    case ByLoop(_) => ClientCannotSkip(s, a);
    case Close =>
    case ChannelDies =>
  }

  lemma {:induction false} SkipOnlyIf(s: State, acts: seq<Action>)
    requires Inv(s) && ValidRun(s, acts) && After(s, acts).skipped
    ensures CanSkip(s)
    decreases |acts|
  {
    if acts != [] {
      NextKeepsInv(s, acts[0]);
      SkipOnlyIf(Next(s, acts[0]), acts[1..]);
      CannotSkip(s, acts[0]);
    }
  }

  // ----- Sufficient -----

  function SkipRank(s: State): nat
  {
    if s.d.Checked? then 0
    else if s.transit != [] then 1
    else match s.w.stage
      case Stopped => 0
      case Credited(_) => 2
      case InHand(_) => 3
      case Reading => 4
  }

  function SkipDistance(s: State): nat
  {
    (if s.dropped then 0 else 10) + |s.grants| + SkipRank(s)
  }

  /** Dead, not skipped yet, but able to. */
  predicate Doomed(s: State)
  {
    s.dead && !s.skipped && CanSkip(s)
  }

  ghost predicate SkipsNext(s: State, a: Action)
  {
    Enabled(s, a) && (Next(s, a).skipped || (Doomed(Next(s, a)) && SkipDistance(Next(s, a)) < SkipDistance(s)))
  }

  lemma HeldSkips(s: State) returns (a: Action)
    requires CreditInv(s) && SizeInv(s) && EndInv(s) && Doomed(s) && s.d.Checked?
    ensures SkipsNext(s, a)
  {
    DispatcherNeverStuck(s);
    var d := if s.dropped then Enqueue else AbandonFrame;
    DispatcherMoves(s, d);
    a := ByDispatcher(d);
  }

  lemma DeliverSkips(s: State)
    requires EndInv(s) && Doomed(s) && s.d.Idle? && s.transit != []
    ensures SkipsNext(s, ByDispatcher(Deliver))
  {
    DeliversInOrder(s);
    DispatcherMoves(s, Deliver);
  }

  lemma WorkerSkips(s: State) returns (a: Action)
    requires Doomed(s) && s.d.Idle? && s.transit == []
    ensures SkipsNext(s, a)
  {
    assert Rest(s) == [];
    if s.w.stage.InHand? && s.w.credit == 0 {
      a := GrantSkips(s);
    } else {
      var w := match s.w.stage case Reading => TargetRead([0]) case InHand(_) => Acquire case _ => SendData;
      WorkerMoves(s, w);
      a := ByWorker(w);
    }
  }

  lemma GrantSkips(s: State) returns (a: Action)
    requires Doomed(s) && s.d.Idle? && s.transit == [] && Rest(s) == [] && s.w.stage.InHand? && s.w.credit == 0
    ensures SkipsNext(s, a)
  {
    var k := SomeGrant(s.grants);
    TotalRemove(s.grants, k);
    a := ByWorker(ApplyGrant(k));
  }

  lemma SkipStep(s: State) returns (a: Action, t: State)
    requires Inv(s) && Doomed(s)
    ensures Enabled(s, a) && t == Next(s, a) && Inv(t) && (t.skipped || (Doomed(t) && SkipDistance(t) < SkipDistance(s)))
  {
    if s.d.Checked? {
      a := HeldSkips(s);
    } else if s.transit != [] {
      DeliverSkips(s);
      a := ByDispatcher(Deliver);
    } else {
      a := WorkerSkips(s);
    }
    t := Next(s, a);
    NextKeepsInv(s, a);
  }

  lemma {:induction false} SkipWhenDead(s: State) returns (acts: seq<Action>)
    requires Inv(s) && (s.skipped || Doomed(s))
    ensures ValidRun(s, acts) && After(s, acts).skipped
    decreases SkipDistance(s)
  {
    if s.skipped {
      acts := [];
    } else {
      var a, t := SkipStep(s);
      var rest := [];
      if !t.skipped {
        rest := SkipWhenDead(t);
      }
      acts := Prepend(s, a, t, rest);
    }
  }

  /** The channel dies with credit to spare. */
  lemma DieWithSupply(s: State) returns (acts: seq<Action>, t: State)
    requires Reached(s) && Open(s)
    ensures ValidRun(s, acts) && After(s, acts) == t
    ensures Inv(t) && t.dead && !t.closed && t.terminal.None? && !t.dropped && t.w == s.w && Supply(t) >= 112
  {
    var first := CreditReturns(s);
    var u := After(s, first);
    ReachedInv(u);
    t := Next(u, ChannelDies);
    NextKeepsInv(u, ChannelDies);
    RunSnoc(s, first, ChannelDies);
    acts := first + [ChannelDies];
  }

  lemma Skip(s: State) returns (acts: seq<Action>)
    requires Reached(s) && CanSkip(s)
    ensures ValidRun(s, acts) && After(s, acts).skipped
  {
    ReachedInv(s);
    if s.skipped || s.dead {
      acts := SkipWhenDead(s);
    } else {
      var first, t := [ChannelDies], Next(s, ChannelDies);
      if s.w.stage.Stopped? {
        NextKeepsInv(s, ChannelDies);
        first := Prepend(s, ChannelDies, t, []);
      } else {
        first, t := DieWithSupply(s);
      }
      var rest := SkipWhenDead(t);
      RunAppend(s, first, rest);
      acts := first + rest;
    }
  }

  /** A continuation that puts a gap into the byte stream. */
  ghost predicate Breaks(s: State, later: seq<Action>)
  {
    ValidRun(s, later) && Broken(After(s, later))
  }

  lemma Break(s: State) returns (later: seq<Action>)
    requires Reached(s) && CanBreak(s)
    ensures Breaks(s, later)
  {
    ReachedInv(s);
    SkippingIsBreaking(s);
    later := Skip(s);
    RunKeepsInv(s, later);
    FlagsShow(After(s, later));
  }

  lemma BreakOnlyIf(s: State, later: seq<Action>)
    requires Inv(s) && Breaks(s, later)
    ensures CanBreak(s)
  {
    RunKeepsInv(s, later);
    FlagsShow(After(s, later));
    SkipOnlyIf(s, later);
    SkippingIsBreaking(s);
  }

  /**
   * In every reachable state: some continuation puts a gap into the byte stream if and only if CanBreak holds,
   * so order is kept in every continuation exactly when it does not.
   */
  lemma InOrderIff(acts: seq<Action>)
    requires ValidRun(START, acts)
    ensures (exists later :: Breaks(After(START, acts), later)) <==> CanBreak(After(START, acts))
  {
    var s := After(START, acts);
    assert Reached(s);
    ReachedInv(s);
    if CanBreak(s) {
      var later := Break(s);
    }
    if later :| Breaks(s, later) {
      BreakOnlyIf(s, later);
    }
  }

  // ----- A clean EOF that hides bytes -----

  /** Read will report a clean end of stream although some frame that was sent never arrived. */
  ghost predicate Truncated(s: State)
  {
    s.terminal == Some(Eof) && s.log != s.w.sent
  }

  predicate EofComing(transit: seq<Msg>)
  {
    exists i :: 0 <= i < |transit| && transit[i] == Final(Eof)
  }

  /** The worker can still send a frame: while the channel is up it always can. */
  predicate Sendable(s: State)
  {
    !s.dead || Supply(s) > 0
  }

  /**
   * The exact condition for a clean EOF to come to hide bytes, in terms of whether a frame is missing by now.
   * With an end latched, or in the dispatcher's hands: it is the clean one and a frame is missing. Otherwise the
   * conn is not closed, and either the clean end is under way with a frame missing or before it, or the worker
   * runs and can still send a frame and the end.
   */
  predicate CanTruncate(s: State, missing: bool)
  {
    if s.terminal.Some? then s.terminal == Some(Eof) && missing
    else if FinalHeld(s.d) then s.d.msg.end == Eof && missing
    else
      && !s.closed
      && match s.w.stage
         case Stopped => EofComing(s.transit) && (missing || Rest(s) != [])
         case Reading => missing || Rest(s) != [] || Sendable(s)
         case InHand(_) => Sendable(s)
         case Credited(_) => true
  }

  predicate CanHide(s: State)
  {
    CanTruncate(s, s.dropped)
  }

  lemma WorkerCannotHide(s: State, a: WorkerStep)
    requires EndInv(s) && WorkerMay(s, a) && CanHide(WorkerDoes(s, a))
    ensures CanHide(s)
  {
    WorkerMoves(s, a);
    if a.ApplyGrant? || a.IgnoreGrant? {
      TotalRemove(s.grants, a.k);
    }
  }

  lemma DeliverCannotHide(s: State)
    requires EndInv(s) && DispatcherMay(s, Deliver) && CanHide(DispatcherDoes(s, Deliver))
    ensures CanHide(s)
  {
    DeliverMoves(s);
  }

  lemma DisposeCannotHide(s: State, a: DispatchStep)
    requires EndInv(s) && SizeInv(s) && DispatcherMay(s, a) && (a.Enqueue? || a.AbandonFrame? || a.LatchOversize?)
    requires CanHide(DispatcherDoes(s, a))
    ensures CanHide(s)
  {
    DispatcherMoves(s, a);
  }

  lemma DispatcherCannotHide(s: State, a: DispatchStep)
    requires EndInv(s) && SizeInv(s) && DispatcherMay(s, a) && CanHide(DispatcherDoes(s, a))
    ensures CanHide(s)
  {
    if a.Deliver? {
      DeliverCannotHide(s);
    } else if !a.LatchEnd? {
      DisposeCannotHide(s, a);
    }
  }

  lemma ClientCannotHide(s: State, a: Action)
    requires Enabled(s, a) && (a.ByReader? || a.ByLoop?) && CanHide(Next(s, a))
    ensures CanHide(s)
  {
    if a.ByReader? {
      ReaderFrame(s, a.r);
    } else {
      LoopFrame(s, a.l);
      if a.l.SendGrant? {
        TotalAppend(s.grants, [s.g.loop.grant]);
      }
    }
  }

  lemma CannotHide(s: State, a: Action)
    requires EndInv(s) && SizeInv(s) && Enabled(s, a) && CanHide(Next(s, a))
    ensures CanHide(s)
  {
    match a
    case ByWorker(w) => WorkerCannotHide(s, w);
    case ByDispatcher(d) => DispatcherCannotHide(s, d);
    case ByReader(_) => ClientCannotHide(s, a);
    case ByLoop(_) => ClientCannotHide(s, a);
    case Close =>
    case ChannelDies =>
  }

  lemma {:induction false} HideOnlyIf(s: State, acts: seq<Action>)
    requires Inv(s) && ValidRun(s, acts) && CanHide(After(s, acts))
    ensures CanHide(s)
    decreases |acts|
  {
    if acts != [] {
      NextKeepsInv(s, acts[0]);
      HideOnlyIf(Next(s, acts[0]), acts[1..]);
      CannotHide(s, acts[0]);
    }
  }

  function HideCost(s: State): nat
  {
    var feed := if s.w.credit > 0 then 0 else 1;
    match s.w.stage
    case Stopped => 0
    case Reading => if s.dropped || Rest(s) != [] then 3 else 8 + feed
    case InHand(_) => 7 + feed
    case Credited(_) => 6
  }

  function HideDistance(s: State): nat
  {
    if s.terminal.Some? then 0 else 1 + Undelivered(s) + HideCost(s)
  }

  /** Dead, or with nothing left but to latch the end; and able to hide. */
  predicate Hiding(s: State)
  {
    CanHide(s) && (s.dead || s.terminal.Some? || FinalHeld(s.d))
  }

  ghost predicate HidesNext(s: State, a: Action)
  {
    Enabled(s, a) && Hiding(Next(s, a)) && HideDistance(Next(s, a)) < HideDistance(s)
  }

  lemma HeldHides(s: State) returns (a: Action)
    requires EndInv(s) && SizeInv(s) && Hiding(s) && s.terminal.None? && s.d.Checked?
    ensures HidesNext(s, a)
  {
    var d := if s.d.msg.Final? then LatchEnd else AbandonFrame;
    assert Fits(s.d.msg);
    DispatcherMoves(s, d);
    a := ByDispatcher(d);
  }

  lemma DeliverHides(s: State)
    requires EndInv(s) && Hiding(s) && s.terminal.None? && s.d.Idle? && s.transit != []
    ensures HidesNext(s, ByDispatcher(Deliver))
  {
    DeliversInOrder(s);
    DispatcherMoves(s, Deliver);
    var t := DispatcherDoes(s, Deliver);
    if s.w.stage.Stopped? {
      var i :| 0 <= i < |s.transit| && s.transit[i] == Final(Eof);
      assert i > 0 ==> t.transit[i - 1] == Final(Eof);
    } else {
      assert !FinalHeld(t.d);
    }
  }

  lemma WorkerHides(s: State) returns (a: Action)
    requires Hiding(s) && s.terminal.None? && s.d.Idle? && s.transit == []
    ensures HidesNext(s, a)
  {
    assert Rest(s) == [];
    if s.w.stage.InHand? && s.w.credit == 0 {
      a := GrantHides(s);
    } else {
      var w := match s.w.stage
        case Reading => if s.dropped then SendEnd(Eof) else TargetRead([0])
        case InHand(_) => Acquire
        case _ => SendData;
      WorkerMoves(s, w);
      assert w.SendEnd? ==> WorkerDoes(s, w).transit[0] == Final(Eof);
      a := ByWorker(w);
    }
  }

  lemma GrantHides(s: State) returns (a: Action)
    requires Hiding(s) && s.terminal.None? && s.d.Idle? && s.transit == [] && s.w.stage.InHand? && s.w.credit == 0
    ensures HidesNext(s, a)
  {
    var k := SomeGrant(s.grants);
    TotalRemove(s.grants, k);
    a := ByWorker(ApplyGrant(k));
  }

  lemma HideStep(s: State) returns (a: Action, t: State)
    requires Inv(s) && Hiding(s) && s.terminal.None?
    ensures Enabled(s, a) && t == Next(s, a) && Inv(t) && Hiding(t) && HideDistance(t) < HideDistance(s)
  {
    if s.d.Checked? {
      a := HeldHides(s);
    } else if s.transit != [] {
      DeliverHides(s);
      a := ByDispatcher(Deliver);
    } else {
      a := WorkerHides(s);
    }
    t := Next(s, a);
    NextKeepsInv(s, a);
  }

  lemma {:induction false} HideWhenDead(s: State) returns (acts: seq<Action>)
    requires Inv(s) && Hiding(s)
    ensures ValidRun(s, acts) && After(s, acts).terminal.Some? && CanHide(After(s, acts))
    decreases HideDistance(s)
  {
    if s.terminal.Some? {
      acts := [];
    } else {
      var a, t := HideStep(s);
      var rest := HideWhenDead(t);
      acts := Prepend(s, a, t, rest);
    }
  }

  lemma Hide(s: State) returns (acts: seq<Action>)
    requires Reached(s) && CanHide(s)
    ensures ValidRun(s, acts) && After(s, acts).terminal.Some? && CanHide(After(s, acts))
  {
    ReachedInv(s);
    if Hiding(s) {
      acts := HideWhenDead(s);
    } else {
      var first, t := [ChannelDies], Next(s, ChannelDies);
      if s.w.stage.Stopped? {
        NextKeepsInv(s, ChannelDies);
        first := Prepend(s, ChannelDies, t, []);
      } else {
        first, t := DieWithSupply(s);
      }
      var rest := HideWhenDead(t);
      RunAppend(s, first, rest);
      acts := first + rest;
    }
  }

  /** With the end latched, what the flags say is what the frames show. */
  lemma HiddenIsTruncated(s: State)
    requires FlowInv(s) && EndInv(s)
    ensures s.terminal.Some? ==> (CanHide(s) <==> Truncated(s))
    ensures CanHide(s) <==> CanTruncate(s, Missing(s))
  {
    FlagsShow(s);
    if s.terminal == Some(Eof) {
      assert Rest(s) == [];
      assert s.log + [] == s.log;
    }
  }

  /** A continuation that ends in a clean EOF with bytes missing. */
  ghost predicate Truncates(s: State, later: seq<Action>)
  {
    ValidRun(s, later) && Truncated(After(s, later))
  }

  lemma Truncate(s: State) returns (later: seq<Action>)
    requires Reached(s) && CanTruncate(s, Missing(s))
    ensures Truncates(s, later)
  {
    ReachedInv(s);
    HiddenIsTruncated(s);
    later := Hide(s);
    RunKeepsInv(s, later);
    HiddenIsTruncated(After(s, later));
  }

  lemma TruncateOnlyIf(s: State, later: seq<Action>)
    requires Inv(s) && Truncates(s, later)
    ensures CanTruncate(s, Missing(s))
  {
    RunKeepsInv(s, later);
    HiddenIsTruncated(After(s, later));
    HideOnlyIf(s, later);
    HiddenIsTruncated(s);
  }

  /**
   * In every reachable state: some continuation ends in a clean EOF with bytes missing if and only if
   * CanTruncate holds, so a clean EOF can be trusted in every continuation exactly when it does not.
   */
  lemma CleanEofIff(acts: seq<Action>)
    requires ValidRun(START, acts)
    ensures var s := After(START, acts); (exists later :: Truncates(s, later)) <==> CanTruncate(s, Missing(s))
  {
    var s := After(START, acts);
    assert Reached(s);
    ReachedInv(s);
    if CanTruncate(s, Missing(s)) {
      var later := Truncate(s);
    }
    if later :| Truncates(s, later) {
      TruncateOnlyIf(s, later);
    }
  }
}

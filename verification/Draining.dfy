/**
 * Progress of the write half (backend/tunnel/conn.go awaitWriteAck; backend/internal/worker/service writeSeqGate):
 * while conn, channel and worker are up, the worker and the ack waiters alone can give every slot of the send
 * window back.
 */
module Draining {
  import opened Upstream

  /** Conn, channel and worker are up. */
  predicate Up(s: State)
  {
    !s.c.closed && !s.dead && !s.w.closed
  }

  /** Every frame still waited for is on its way: not dispatched yet, in a handler's hands, or acknowledged. */
  ghost predicate AckInv(s: State)
  {
    forall n :: n in s.c.waiters && s.c.waiters[n] == Waiting ==> n >= s.w.dispatched || n in s.w.handlers || n in s.acks
  }

  lemma ClientKeepsAcks(s: State, a: ClientStep)
    requires AckInv(s) && WireInv(s) && GateInv(s) && ClientMay(s, a)
    ensures AckInv(ClientDoes(s, a))
  {
    ClientFrame(s, a);
    if !MovesSlot(a) {
      WritersLeaveWaiters(s, a);
    }
  }

  lemma WorkerKeepsAcks(s: State, a: WorkerStep)
    requires AckInv(s) && WorkerMay(s, a)
    ensures AckInv(WorkerDoes(s, a))
  {
  }

  lemma KeepsAcks(s: State, a: Action)
    requires Inv(s) && AckInv(s) && Enabled(s, a)
    ensures AckInv(Next(s, a))
  {
    match a
    case ByClient(c) => ClientKeepsAcks(s, c);
    case ByWorker(w) => WorkerKeepsAcks(s, w);
    case ChannelDies =>
  }

  /** Some run leads to s. */
  ghost predicate Reached(s: State)
  {
    exists acts :: ValidRun(START, acts) && After(START, acts) == s
  }

  lemma {:induction false} RunKeepsAcks(s: State, acts: seq<Action>)
    requires Inv(s) && AckInv(s) && ValidRun(s, acts)
    ensures Inv(After(s, acts)) && AckInv(After(s, acts))
    decreases |acts|
  {
    if acts != [] {
      NextKeepsInv(s, acts[0]);
      KeepsAcks(s, acts[0]);
      RunKeepsAcks(Next(s, acts[0]), acts[1..]);
    }
  }

  lemma ReachedInv(s: State)
    requires Reached(s)
    ensures Inv(s) && AckInv(s)
  {
    var acts :| ValidRun(START, acts) && After(START, acts) == s;
    StartInv();
    RunKeepsAcks(START, acts);
  }

  lemma ReachedNext(s: State, a: Action)
    requires Reached(s) && Enabled(s, a)
    ensures Reached(Next(s, a))
  {
    var acts :| ValidRun(START, acts) && After(START, acts) == s;
    RunSnoc(START, acts, a);
  }

  /** A step of the worker, or of an ack waiter whose ack has come. */
  predicate Acknowledging(a: Action)
  {
    (a.ByWorker? && !a.w.GracefulClose? && !a.w.ForceClose?) || (a.ByClient? && (a.c.WakeOnAck? || a.c.Release?))
  }

  ghost predicate AllAcknowledging(acts: seq<Action>)
  {
    forall i :: 0 <= i < |acts| ==> Acknowledging(acts[i])
  }

  /** What acknowledging leaves alone. */
  predicate SameSender(s: State, t: State)
  {
    && t.c.writer == s.c.writer && t.c.writeSeq == s.c.writeSeq && t.c.reported == s.c.reported && t.wire == s.wire && Up(t) == Up(s)
    && t.c.closeWriteSent == s.c.closeWriteSent && t.w.broken == s.w.broken
  }

  function Unclaimed(s: State): nat
  {
    if s.w.claimed then 0 else 1
  }

  /** t is closer than s to having every frame acknowledged and every slot given back. */
  predicate Closer(t: State, s: State)
    requires s.w.dispatched <= |s.wire| && t.w.dispatched <= |t.wire| && s.w.next <= |s.wire| && t.w.next <= |t.wire| && |t.wire| == |s.wire|
  {
    var d, e := |s.wire| - s.w.dispatched, |t.wire| - t.w.dispatched;
    var n, m := |s.wire| - s.w.next, |t.wire| - t.w.next;
    || e < d
    || (e == d && m < n)
    || (e == d && m == n && Unclaimed(t) < Unclaimed(s))
    || (e == d && m == n && Unclaimed(t) == Unclaimed(s) && |t.w.handlers| < |s.w.handlers|)
    || (e == d && m == n && Unclaimed(t) == Unclaimed(s) && |t.w.handlers| == |s.w.handlers| && |t.acks| < |s.acks|)
    || (e == d && m == n && Unclaimed(t) == Unclaimed(s) && |t.w.handlers| == |s.w.handlers| && |t.acks| == |s.acks|
        && |t.c.waiters| < |s.c.waiters|)
  }

  lemma RemoveShrinks<V>(m: map<nat, V>, k: nat)
    requires k in m
    ensures |m - {k}| == |m| - 1
  {
    assert (m - {k}).Keys == m.Keys - {k};
    assert |m.Keys| == |m| && |(m - {k}).Keys| == |m - {k}|;
  }

  /** One step towards it. */
  ghost predicate Helps(s: State, a: Action)
  {
    Enabled(s, a) && Acknowledging(a) && SameSender(s, Next(s, a))
  }

  /** Frames not passed by the gate: the worker dispatches, takes the next turn or applies it. */
  lemma WorkerPasses(s: State) returns (a: WorkerStep)
    requires Inv(s) && !s.w.closed && s.w.next < |s.wire|
    ensures WorkerMay(s, a) && (a.Dispatch? || a.TakeTurn? || a.ApplyOk? || a.ApplyFail?)
    ensures var t := WorkerDoes(s, a);
            && t.wire == s.wire && t.c == s.c && t.dead == s.dead && !t.w.closed && t.w.broken == s.w.broken && InRange(t)
            && (|| t.w.dispatched > s.w.dispatched
                || (t.w.dispatched == s.w.dispatched && t.w.next > s.w.next)
                || (t.w.dispatched == s.w.dispatched && t.w.next == s.w.next && Unclaimed(t) < Unclaimed(s)))
  {
    if s.w.claimed {
      a := if s.w.broken then ApplyFail(s.w.next, 0) else ApplyOk(s.w.next);
      assert FrameOk(s.wire[s.w.next], s.w.next);
    } else if s.w.next < s.w.dispatched {
      a := TakeTurn(s.w.next);
      assert s.w.next in s.w.handlers && HandlerOk(s.w, s.w.next, s.w.handlers[s.w.next]);
      assert FrameOk(s.wire[s.w.next], s.w.next);
    } else {
      a := Dispatch;
    }
  }

  /** All frames passed: the handlers that are left are done, and respond. */
  lemma ResponseHelps(s: State, i: nat)
    requires Inv(s) && Up(s) && s.w.next == |s.wire| && i in s.w.handlers
    ensures Helps(s, ByWorker(Respond(i))) && GateInv(WorkerDoes(s, Respond(i))) && Closer(WorkerDoes(s, Respond(i)), s)
  {
    assert HandlerOk(s.w, i, s.w.handlers[i]);
    RemoveShrinks(s.w.handlers, i);
    WorkerKeepsGate(s, Respond(i));
  }

  /** All responses sent: the waiters that are left wake on their acks and give their slots back. */
  lemma WaiterHelps(s: State, n: nat) returns (a: ClientStep)
    requires Inv(s) && AckInv(s) && Up(s) && s.w.next == |s.wire| && s.w.handlers == map[] && n in s.c.waiters
    ensures Helps(s, ByClient(a)) && GateInv(ClientDoes(s, a)) && Closer(ClientDoes(s, a), s)
  {
    if s.c.waiters[n] == Waiting {
      a := WakeOnAck(n);
      assert n in s.acks;
      RemoveShrinks(s.acks, n);
    } else {
      a := Release(n);
      RemoveShrinks(s.c.waiters, n);
    }
    ClientKeepsGate(s, a);
  }

  lemma Help(s: State) returns (a: Action, t: State)
    requires Reached(s) && Up(s) && s.c.waiters != map[]
    ensures Enabled(s, a) && Acknowledging(a) && t == Next(s, a) && Reached(t) && SameSender(s, t)
    ensures InRange(s) && InRange(t) && Closer(t, s)
  {
    ReachedInv(s);
    if s.w.next < |s.wire| {
      var w := WorkerPasses(s);
      a := ByWorker(w);
    } else if s.w.handlers != map[] {
      var i :| i in s.w.handlers;
      ResponseHelps(s, i);
      a := ByWorker(Respond(i));
    } else {
      var n :| n in s.c.waiters;
      var c := WaiterHelps(s, n);
      a := ByClient(c);
    }
    t := Next(s, a);
    ReachedNext(s, a);
  }

  predicate InRange(s: State)
  {
    s.w.dispatched <= |s.wire| && s.w.next <= |s.wire|
  }

  lemma Prepend(s: State, a: Action, t: State, rest: seq<Action>) returns (acts: seq<Action>)
    requires Enabled(s, a) && t == Next(s, a) && ValidRun(t, rest)
    ensures acts == [a] + rest && ValidRun(s, acts) && After(s, acts) == After(t, rest)
  {
    acts := [a] + rest;
    assert acts[1..] == rest;
  }

  lemma {:induction false} RunConcat(s: State, first: seq<Action>, second: seq<Action>)
    requires ValidRun(s, first) && ValidRun(After(s, first), second)
    ensures ValidRun(s, first + second) && After(s, first + second) == After(After(s, first), second)
    decreases |first|
  {
    if first == [] {
      assert first + second == second;
    } else {
      assert (first + second)[1..] == first[1..] + second;
      RunConcat(Next(s, first[0]), first[1..], second);
    }
  }

  lemma {:induction false} Drain(s: State) returns (acts: seq<Action>)
    requires Reached(s) && Up(s) && InRange(s)
    ensures ValidRun(s, acts) && AllAcknowledging(acts)
    ensures var t := After(s, acts); Reached(t) && SameSender(s, t) && t.c.waiters == map[]
    decreases |s.wire| - s.w.dispatched, |s.wire| - s.w.next, Unclaimed(s), |s.w.handlers|, |s.acks|, |s.c.waiters|
  {
    if s.c.waiters == map[] {
      acts := [];
    } else {
      var a, t := Help(s);
      var rest := Drain(t);
      acts := Prepend(s, a, t, rest);
    }
  }

  /**
   * The window drains: from every reachable state with conn, channel and worker up, steps of the worker and of the
   * ack waiters alone lead to one in which the only slot in use is the writer's own, with the wire as it was.
   */
  lemma WindowDrains(acts: seq<Action>) returns (more: seq<Action>)
    requires ValidRun(START, acts) && Up(After(START, acts))
    ensures ValidRun(After(START, acts), more) && AllAcknowledging(more)
    ensures var s, t := After(START, acts), After(After(START, acts), more);
            SameSender(s, t) && t.c.waiters == map[] && t.c.window == if t.c.writer.HoldsSlot() then 1 else 0
  {
    var s := After(START, acts);
    assert Reached(s);
    ReachedInv(s);
    more := Drain(s);
    ReachedInv(After(s, more));
  }
}

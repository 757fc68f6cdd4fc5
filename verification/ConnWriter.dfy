/**
 * The write half of tunnel.Conn as the object it is (backend/tunnel/conn.go: Write, CloseWrite,
 * sendFrameLocked). Every method performs steps of Upstream, with the other goroutines' steps interleaved
 * wherever the code can be overtaken; `trace` is the run so far, so everything proved of Upstream's runs holds
 * of this object at every call boundary.
 */
module ConnWriter {
  import opened Bytes
  import opened TunnelFlow
  import opened Upstream

  /** A step of the goroutine that holds writeMu; all other steps belong to others. */
  predicate ByWriter(a: Action)
  {
    a.ByClient? && (a.c.BeginWrite? || a.c.BeginCloseWrite? || a.c.Check? || a.c.AcquireSlot? || a.c.GiveUp? || a.c.Recheck?
                    || a.c.SendOk? || a.c.SendFail?)
  }

  /** What only the holder of writeMu changes. */
  datatype View = View(writer: Upstream.Writer, call: nat, reported: bytes, writeSeq: nat, closeWriteSent: bool, wire: seq<Frame>)
  {
    function At(p: Pc): View
      requires !writer.Free?
    {
      this.(writer := writer.(pc := p))
    }

    /** The call has returned, reporting what it had sent. */
    function Over(): View
    {
      this.(writer := Free, reported := reported + writer.SentPart())
    }

    /** The running call's next frame. */
    function NextFrame(): Frame
    {
      Frame(writeSeq, writer.Chunk(), writer.HalfClosing?, call)
    }

    /** That frame is on the wire. */
    function Sent(): View
      requires !writer.Free?
    {
      var v := this.(wire := wire + [NextFrame()], writeSeq := writeSeq + 1);
      if writer.HalfClosing? then v.(closeWriteSent := true).Over()
      else
        var w := writer.(written := writer.written + |writer.Chunk()|, pc := AtTop);
        if w.written >= |w.buf| then v.(writer := w).Over() else v.(writer := w)
    }
  }

  function ViewOf(s: State): View
  {
    View(s.c.writer, s.c.call, s.c.reported, s.c.writeSeq, s.c.closeWriteSent, s.wire)
  }

  /** A frame's passage through sendFrameLocked does not show in where it ends. */
  lemma PassageHidden(v: View, p: Pc, q: Pc)
    requires !v.writer.Free?
    ensures v.At(p).At(q) == v.At(q) && v.At(p).Sent() == v.Sent() && v.At(p).Over() == v.Over()
  {
    var w := v.At(p).writer;
    assert w.Chunk() == v.writer.Chunk() && w.SentPart() == v.writer.SentPart() && w.HalfClosing? == v.writer.HalfClosing?;
  }

  lemma OthersKeepView(s: State, a: Action)
    requires Enabled(s, a) && !ByWriter(a)
    ensures ViewOf(Next(s, a)) == ViewOf(s) && (s.c.closed ==> Next(s, a).c.closed)
  {
    match a
    case ByClient(c) => ClientFrame(s, c);
    case ByWorker(w) => WorkerFrame(s, w);
    case ChannelDies =>
  }

  lemma SendView(s: State)
    requires ClientMay(s, SendOk)
    ensures ViewOf(ClientDoes(s, SendOk)) == ViewOf(s).Sent()
  {
  }

  /**
   * What happens around one frame: the others' steps while it waits for a slot, while it holds one, and while
   * it is being sent; whether it gets the slot, and what becomes of the send.
   */
  datatype Fate = Fate(waiting: seq<Action>, holding: seq<Action>, sending: seq<Action>, slot: bool, sent: bool, kills: bool)

  /** A wait that ends without a slot. */
  const CUT_SHORT: Fate := Fate([], [], [], false, false, false)

  /** The frames of `wire` past `base` carry exactly b[..written] for `call`, numbered on, each full unless it completes b. */
  ghost predicate Wrote(base: seq<Frame>, wire: seq<Frame>, b: bytes, written: nat, call: nat)
  {
    && written <= |b| && base <= wire
    && Payload(wire) == Payload(base) + b[..written]
    && (forall i :: |base| <= i < |wire| ==> FrameOk(wire[i], i) && wire[i].call == call && !wire[i].closeWrite)
    && (forall i :: |base| <= i < |wire| ==> |wire[i].data| == MAX_CHUNK_BYTES || (i == |wire| - 1 && written == |b|))
  }

  lemma FailView(s: State, kills: bool)
    requires ClientMay(s, SendFail(kills))
    ensures ViewOf(ClientDoes(s, SendFail(kills))) == ViewOf(s).Over()
  {
  }

  /** chunk is the next piece of b: as much as a frame takes, or all that is left. */
  predicate NextChunk(b: bytes, written: nat, chunk: bytes)
  {
    && 0 < |chunk| <= MAX_CHUNK_BYTES && written + |chunk| <= |b| && chunk == b[written..written + |chunk|]
    && (|chunk| == MAX_CHUNK_BYTES || written + |chunk| == |b|)
  }

  lemma ChunkIsNext(w: Upstream.Writer)
    requires w.Writing? && w.written < |w.buf|
    ensures NextChunk(w.buf, w.written, w.Chunk())
  {
  }

  lemma WroteOneMore(base: seq<Frame>, wire: seq<Frame>, b: bytes, written: nat, call: nat, chunk: bytes)
    requires Wrote(base, wire, b, written, call) && NextChunk(b, written, chunk)
    ensures Wrote(base, wire + [Frame(|wire|, chunk, false, call)], b, written + |chunk|, call)
  {
    PayloadSnoc(wire, Frame(|wire|, chunk, false, call));
    assert b[..written] + chunk == b[..written + |chunk|];
    assert Payload(base) + b[..written] + chunk == Payload(base) + (b[..written] + chunk);
    assert FrameOk(Frame(|wire|, chunk, false, call), |wire|);
  }

  /** A Write of b stands after `written` bytes, with everything before them on the wire and nothing reported yet. */
  ghost predicate Midway(v: View, base: seq<Frame>, before: bytes, b: bytes, written: nat)
  {
    && v.writer == Writing(b, written, AtTop) && written < |b| && v.reported == before
    && v.writeSeq == |v.wire| && Wrote(base, v.wire, b, written, v.call)
  }

  /** A Write of b is over, having put `written` bytes on the wire and reported them. */
  ghost predicate Finished(v: View, base: seq<Frame>, before: bytes, b: bytes, written: nat)
  {
    v.writer.Free? && written <= |b| && v.reported == before + b[..written] && Wrote(base, v.wire, b, written, v.call)
  }

  /** One more frame takes a Write further, or to its end. */
  lemma FrameTakesFurther(v: View, base: seq<Frame>, before: bytes, b: bytes, written: nat)
    requires Midway(v, base, before, b, written)
    ensures var n := |v.writer.Chunk()|;
            && 0 < n <= |b| - written
            && (if written + n == |b| then Finished(v.Sent(), base, before, b, |b|) else Midway(v.Sent(), base, before, b, written + n))
  {
    ChunkIsNext(v.writer);
    WroteOneMore(base, v.wire, b, written, v.call, v.writer.Chunk());
  }

  lemma OverReports(v: View, base: seq<Frame>, before: bytes, b: bytes, written: nat)
    requires Midway(v, base, before, b, written)
    ensures Finished(v.Over(), base, before, b, written)
  {
  }

  /** In a state a run leads to, the next number is the length of the wire. */
  lemma NumbersFollow(acts: seq<Action>)
    requires ValidRun(START, acts)
    ensures After(START, acts).c.writeSeq == |After(START, acts).wire|
  {
    StartInv();
    RunKeepsInv(START, acts);
  }

  /** The write half of a conn; `world` holds the goroutines around it, the worker and the wire. */
  class Writer {
    var writeSeq: nat
    var closeWriteSent: bool
    var window: nat
    var nak: bool
    var closed: bool
    var world: State
    ghost var trace: seq<Action>

    constructor ()
      ensures Valid() && Value() == START && trace == []
    {
      writeSeq, closeWriteSent, window, nak, closed := 0, false, 0, false, false;
      world, trace := START, [];
    }

    function Value(): State
      reads this
    {
      world.(c := world.c.(writeSeq := writeSeq, closeWriteSent := closeWriteSent, window := window, nak := nak, closed := closed))
    }

    /** The object's state is the one its trace, a run of Upstream, leads to. */
    ghost predicate Valid()
      reads this
    {
      ValidRun(START, trace) && Value() == After(START, trace)
    }

    method Store(s: State)
      modifies this
      ensures Value() == s && trace == old(trace)
    {
      writeSeq, closeWriteSent, window, nak, closed := s.c.writeSeq, s.c.closeWriteSent, s.c.window, s.c.nak, s.c.closed;
      world := s;
    }

    /** Other goroutines run: whichever of `env` are theirs and possible happen, in order. */
    method Interleave(env: seq<Action>)
      requires Valid()
      modifies this
      ensures Valid() && old(trace) <= trace && ViewOf(Value()) == old(ViewOf(Value())) && (old(closed) ==> closed)
    {
      var s := Value();
      for i := 0 to |env|
        invariant ValidRun(START, trace) && s == After(START, trace) && old(trace) <= trace
        invariant ViewOf(s) == old(ViewOf(Value())) && (old(closed) ==> s.c.closed)
      {
        if Enabled(s, env[i]) && !ByWriter(env[i]) {
          OthersKeepView(s, env[i]);
          RunSnoc(START, trace, env[i]);
          s := Next(s, env[i]);
          trace := trace + [env[i]];
        }
      }
      Store(s);
    }

    /** The holder of writeMu moves on inside sendFrameLocked. */
    method MoveTo(p: Pc)
      requires !world.c.writer.Free?
      modifies this`world
      ensures world == old(world).(c := Move(old(world).c, p))
    {
      world := world.(c := Move(world.c, p));
    }

    /** The running call returns, reporting what it put on the wire. */
    method Return()
      modifies this`world
      ensures world == old(world).(c := EndCall(old(world).c))
    {
      world := world.(c := EndCall(world.c));
    }

    /** The entry checks of sendFrameLocked. */
    method CheckLatches() returns (go: bool)
      requires Valid() && Value().c.writer.At(AtTop)
      modifies this
      ensures Valid() && trace == old(trace) + [ByClient(Check)]
      ensures go <==> !(old(closeWriteSent) && old(Value()).c.writer.Writing?) && !old(nak)
      ensures closed == old(closed)
      ensures var v := old(ViewOf(Value())); ViewOf(Value()) == if go then v.At(Parked) else v.Over()
    {
      RunSnoc(START, trace, ByClient(Check));
      go := !(closeWriteSent && world.c.writer.Writing?) && !nak;
      if go {
        MoveTo(Parked);
      } else {
        Return();
      }
      trace := trace + [ByClient(Check)];
    }

    /** acquireSendSlot: takes a slot if one is free and the wait is not cut short. */
    method AcquireSendSlot(slot: bool) returns (go: bool)
      requires Valid() && Value().c.writer.At(Parked)
      modifies this
      ensures go <==> slot && old(window) < WRITE_WINDOW_FRAMES
      ensures closed == old(closed)
      ensures Valid() && trace == old(trace) + [ByClient(if go then AcquireSlot else GiveUp)]
      ensures var v := old(ViewOf(Value())); ViewOf(Value()) == if go then v.At(Holding) else v.Over()
    {
      go := slot && window < WRITE_WINDOW_FRAMES;
      ghost var a := if go then AcquireSlot else GiveUp;
      RunSnoc(START, trace, ByClient(a));
      if go {
        window := window + 1;
        MoveTo(Holding);
      } else {
        Return();
      }
      trace := trace + [ByClient(a)];
    }

    /** The second look at the latches, with the slot held; giving up gives the slot back. */
    method RecheckLatches() returns (go: bool)
      requires Valid() && Value().c.writer.At(Holding)
      modifies this
      ensures go <==> !old(closed) && !old(nak)
      ensures Valid() && trace == old(trace) + [ByClient(Recheck)]
      ensures var v := old(ViewOf(Value())); ViewOf(Value()) == if go then v.At(Sending) else v.Over()
    {
      RunSnoc(START, trace, ByClient(Recheck));
      go := !closed && !nak;
      if go {
        MoveTo(Sending);
      } else {
        window := if window > 0 then window - 1 else 0;
        Return();
      }
      trace := trace + [ByClient(Recheck)];
    }

    /** SendRPCNoWait succeeded: the sequence advances and the slot passes to a new ack waiter. */
    method FrameIsOut()
      requires Valid() && Value().c.writer.At(Sending) && !world.dead
      modifies this
      ensures Valid() && trace == old(trace) + [ByClient(SendOk)] && ViewOf(Value()) == old(ViewOf(Value())).Sent()
    {
      RunSnoc(START, trace, ByClient(SendOk));
      SendView(Value());
      var c := Value().c;
      var f := Frame(writeSeq, c.writer.Chunk(), c.writer.HalfClosing?, c.call);
      writeSeq := writeSeq + 1;
      if c.writer.HalfClosing? {
        closeWriteSent := true;
      }
      world := world.(c := SentFrame(c), wire := world.wire + [f]);
      trace := trace + [ByClient(SendOk)];
    }

    /** SendRPCNoWait failed: nothing is on the wire and the slot is given back. */
    method SendFailed(kills: bool)
      requires Valid() && Value().c.writer.At(Sending)
      modifies this
      ensures Valid() && trace == old(trace) + [ByClient(SendFail(kills))] && ViewOf(Value()) == old(ViewOf(Value())).Over()
    {
      RunSnoc(START, trace, ByClient(SendFail(kills)));
      FailView(Value(), kills);
      window := if window > 0 then window - 1 else 0;
      world := world.(c := EndCall(world.c), dead := world.dead || kills);
      trace := trace + [ByClient(SendFail(kills))];
    }

    /** sendFrameLocked from its entry to holding a slot. */
    method TakeSlot(fate: Fate) returns (go: bool)
      requires Valid() && Value().c.writer.At(AtTop)
      modifies this
      ensures Valid() && old(trace) <= trace && (old(closed) ==> closed)
      ensures var v := old(ViewOf(Value())); ViewOf(Value()) == if go then v.At(Holding) else v.Over()
      ensures (old(closeWriteSent) && old(Value()).c.writer.Writing?) || old(nak) ==> !go
    {
      ghost var v := ViewOf(Value());
      go := CheckLatches();
      if !go {
        return;
      }
      PassageHidden(v, Parked, Holding);
      Interleave(fate.waiting);
      go := AcquireSendSlot(fate.slot);
    }

    /** sendFrameLocked with the slot held. */
    method SendHolding(fate: Fate) returns (sent: bool)
      requires Valid() && Value().c.writer.At(Holding)
      modifies this
      ensures Valid() && old(trace) <= trace
      ensures var v := old(ViewOf(Value())); ViewOf(Value()) == if sent then v.Sent() else v.Over()
      ensures old(closed) ==> !sent
    {
      ghost var v := ViewOf(Value());
      Interleave(fate.holding);
      sent := RecheckLatches();
      if !sent {
        return;
      }
      PassageHidden(v, Sending, Sending);
      Interleave(fate.sending);
      sent := fate.sent && !world.dead;
      if sent {
        FrameIsOut();
      } else {
        SendFailed(fate.kills);
      }
    }

    /**
     * sendFrameLocked: either the running call's next frame is on the wire, with the next number, or nothing is
     * and the call is over. Data is refused for good after a half-close, a NAK or a close.
     */
    method SendFrameLocked(fate: Fate) returns (sent: bool)
      requires Valid() && Value().c.writer.At(AtTop)
      modifies this
      ensures Valid() && old(trace) <= trace
      ensures var v := old(ViewOf(Value())); ViewOf(Value()) == if sent then v.Sent() else v.Over()
      ensures (old(closeWriteSent) && old(Value()).c.writer.Writing?) || old(nak) || old(closed) ==> !sent
    {
      PassageHidden(ViewOf(Value()), Holding, Holding);
      var go := TakeSlot(fate);
      if !go {
        return false;
      }
      sent := SendHolding(fate);
    }

    /** Write and CloseWrite take writeMu and enter. */
    method Enter(a: ClientStep)
      requires Valid() && ClientMay(Value(), a) && (a.BeginWrite? || a.BeginCloseWrite?)
      modifies this
      ensures Valid() && trace == old(trace) + [ByClient(a)]
      ensures ViewOf(Value()) == old(ViewOf(Value())).(writer := if a.BeginWrite? then Writing(a.buf, 0, AtTop) else HalfClosing(AtTop),
                                                       call := old(Value()).c.call + 1)
      ensures closed == old(closed) && nak == old(nak)
    {
      RunSnoc(START, trace, ByClient(a));
      world := world.(c := world.c.(writer := if a.BeginWrite? then Writing(a.buf, 0, AtTop) else HalfClosing(AtTop), call := world.c.call + 1));
      trace := trace + [ByClient(a)];
    }

    /** One turn of Write's loop: its next chunk is on the wire, or the Write is over. */
    method SendChunk(b: bytes, written: nat, fate: Fate, ghost base: seq<Frame>, ghost before: bytes) returns (sent: bool, n: nat)
      requires Valid() && Midway(ViewOf(Value()), base, before, b, written)
      modifies this
      ensures Valid() && old(trace) <= trace
      ensures old(closeWriteSent) || old(nak) || old(closed) ==> !sent
      ensures sent ==> 0 < n <= |b| - written
      ensures sent && written + n < |b| ==> Midway(ViewOf(Value()), base, before, b, written + n)
      ensures sent && written + n == |b| ==> Finished(ViewOf(Value()), base, before, b, |b|)
      ensures !sent ==> Finished(ViewOf(Value()), base, before, b, written)
    {
      FrameTakesFurther(ViewOf(Value()), base, before, b, written);
      OverReports(ViewOf(Value()), base, before, b, written);
      n := |world.c.writer.Chunk()|;
      sent := SendFrameLocked(fate);
    }

    /** Write takes writeMu; nothing of b is on the wire yet. */
    method EnterWrite(b: bytes)
      requires Valid() && Value().c.writer.Free? && b != []
      modifies this
      ensures Valid() && old(trace) <= trace && closed == old(closed) && nak == old(nak) && closeWriteSent == old(closeWriteSent)
      ensures Midway(ViewOf(Value()), old(Value()).wire, old(Value()).c.reported, b, 0)
    {
      NumbersFollow(trace);
      Enter(BeginWrite(b));
    }

    /**
     * Write: the frames added carry exactly the bytes reported, numbered on from the last frame, full except
     * possibly the final one; it fails exactly when the conn was closed or it reports less than it was given.
     * fates[k] is what happens around its k-th frame.
     */
    method Write(b: bytes, fates: seq<Fate>) returns (written: nat, ok: bool)
      requires Valid() && Value().c.writer.Free?
      modifies this
      ensures Valid() && old(trace) <= trace
      ensures ok <==> !old(closed) && written == |b|
      ensures Finished(ViewOf(Value()), old(Value()).wire, old(Value()).c.reported, b, written)
      ensures old(closed) || old(closeWriteSent) || old(nak) ==> written == 0
    {
      written := 0;
      if closed || |b| == 0 {
        return 0, !closed;
      }
      ghost var base, before := world.wire, world.c.reported;
      ghost var refused := nak || closeWriteSent;
      EnterWrite(b);
      var k := 0;
      while true
        invariant Valid() && old(trace) <= trace && Midway(ViewOf(Value()), base, before, b, written)
        invariant if k == 0 then written == 0 && (refused ==> nak || closeWriteSent) else !refused
        decreases |b| - written
      {
        var sent, n := SendChunk(b, written, if k < |fates| then fates[k] else CUT_SHORT, base, before);
        if !sent {
          return written, false;
        }
        written := written + n;
        if written == |b| {
          return written, true;
        }
        k := k + 1;
      }
    }

    /** CloseWrite: at most one half-close frame is ever sent, it is the last frame, and a failed attempt can be retried. */
    method CloseWrite(fate: Fate) returns (ok: bool)
      requires Valid() && Value().c.writer.Free?
      modifies this
      ensures Valid() && old(trace) <= trace && Value().c.writer.Free?
      ensures old(closeWriteSent) ==> ok && Value() == old(Value())
      ensures !old(closeWriteSent) ==> closeWriteSent == ok && (old(closed) || old(nak) ==> !ok)
      ensures !old(closeWriteSent) && ok ==>
                Value().wire == old(Value()).wire + [Frame(|old(Value()).wire|, [], true, old(Value()).c.call + 1)]
      ensures !ok ==> Value().wire == old(Value()).wire
      ensures Value().c.reported == old(Value()).c.reported
    {
      if closeWriteSent {
        return true;
      }
      if closed {
        return false;
      }
      NumbersFollow(trace);
      Enter(BeginCloseWrite);
      ok := SendFrameLocked(fate);
      assert old(Value()).c.reported + [] == old(Value()).c.reported;
    }
  }
}

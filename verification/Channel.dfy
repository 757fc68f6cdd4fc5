/**
 * tunnel.Channel as an object: the maps its methods mutate under ch.mu, with the chunk buffers as
 * separate heap objects that are updated in place. Every method is proved to perform the matching
 * action of Reassembly.
 */
module Channel {
  import opened Bytes
  import opened ChannelWire
  import opened Reassembly

  // ----- The id counter always finds a free id -----

  ghost function IdsUpTo(n: nat): (ids: set<nat>)
    ensures forall x: nat :: x in ids <==> 0 < x <= n
  {
    if n == 0 then {} else IdsUpTo(n - 1) + {n}
  }

  lemma {:induction false} IdsUpToSize(n: nat)
    ensures |IdsUpTo(n)| == n
  {
    if n > 0 {
      IdsUpToSize(n - 1);
    }
  }

  /** Pigeonhole: fewer handlers than nonzero 64-bit ids leave one free. */
  lemma FreeIdExists(handlers: set<nat>) returns (free: nat)
    requires |handlers| < UINT64_SPAN - 1
    ensures 0 < free < UINT64_SPAN && free !in handlers
  {
    var all := IdsUpTo(UINT64_SPAN - 1);
    IdsUpToSize(UINT64_SPAN - 1);
    if all <= handlers {
      SubsetSize(all, handlers);
      assert false;
    }
    free :| free in all && free !in handlers;
  }

  lemma AheadOne(from: nat, steps: nat)
    ensures Ahead(from, steps + 1) == (Ahead(from, steps) + 1) % UINT64_SPAN
  {
  }

  /** A MORE chunk on an id that has a live buffer: it joins the buffer, or poisons it. */
  ghost function Joined(s: Rx, id: nat, data: bytes): (Rx, Outcome)
    requires id in s.bufs
  {
    var b := Extend(s.bufs[id], data);
    if b.total > CAP then (Put(s, id, TOMBSTONE), Oversize) else (Put(s, id, b), Buffered)
  }

  lemma FirstChunkJoins(s: Rx, id: nat, data: bytes)
    requires id !in s.bufs && id in s.Handlers() && |s.Live()| < MAX_LIVE
    ensures Joined(Put(s, id, EMPTY_BUF), id, data) == Reassemble(s, id, true, data)
  {
    assert s.bufs[id := EMPTY_BUF][id := TOMBSTONE] == s.bufs[id := TOMBSTONE];
    var b := Extend(EMPTY_BUF, data);
    assert s.bufs[id := EMPTY_BUF][id := b] == s.bufs[id := b];
  }

  /** What registering under the first free id does to the state. */
  lemma RegisterIs(s: Rx, id: nat, response: bool, stream: bool)
    requires !s.closed && FirstFree(s.lastReqId, s.Handlers(), id)
    ensures Enabled(s, DoRegister(id, response, stream))
    ensures Next(s, DoRegister(id, response, stream)).0
            == s.(lastReqId := id, pending := s.pending + (if response then {id} else {}), streams := s.streams + (if stream then {id} else {}))
  {
  }

  class Channel {
    var nextReqId: nat
    var pending: set<nat>
    var streamCbs: set<nat>
    var reassembly: map<nat, ChunkBuffer>
    var closed: bool
    ghost var bufs: map<nat, Buf>  // the contents of the buffers that `reassembly` points to
    ghost var drained: bool

    /** Every buffer belongs to one id, so an in-place update of one never shows in another. */
    ghost predicate Valid()
      reads this, reassembly.Values
    {
      && nextReqId < UINT64_SPAN
      && bufs.Keys == reassembly.Keys
      && forall id :: id in reassembly ==> reassembly[id].Value() == bufs[id] && reassembly[id].owner == id
    }

    ghost function Abs(): Rx
      reads this
    {
      Rx(nextReqId, pending, streamCbs, bufs, closed, drained)
    }

    constructor ()
      ensures Valid() && Abs() == OPENED
    {
      nextReqId, pending, streamCbs, reassembly, closed := 0, {}, {}, map[], false;
      bufs, drained := map[], false;
    }

    method HasHandler(id: nat) returns (r: bool)
      ensures r == (id in Abs().Handlers())
    {
      if id in pending {
        return true;
      }
      return id in streamCbs;
    }

    /** allocateReqIDLocked. */
    method AllocateReqId() returns (id: nat)
      requires nextReqId < UINT64_SPAN && |pending + streamCbs| < UINT64_SPAN - 1
      modifies this`nextReqId
      ensures id == nextReqId < UINT64_SPAN
      ensures FirstFree(old(nextReqId), pending + streamCbs, id)
    {
      ghost var free := FreeIdExists(pending + streamCbs);
      ghost var from, steps: nat := nextReqId, 0;
      while true
        invariant nextReqId < UINT64_SPAN && nextReqId == Ahead(from, steps)
        invariant forall j :: 1 <= j <= steps ==> Ahead(from, j) == 0 || Ahead(from, j) in pending + streamCbs
        decreases if nextReqId < free then free - nextReqId else free - nextReqId + UINT64_SPAN
      {
        AheadOne(from, steps);
        nextReqId, steps := (nextReqId + 1) % UINT64_SPAN, steps + 1;
        if nextReqId == 0 {
          continue;
        }
        var taken := HasHandler(nextReqId);
        if !taken {
          return nextReqId;
        }
      }
    }

    /** The locked part of SendRPCNoWait: refused once closed, otherwise a fresh id with its handlers installed. */
    method RegisterRequest(response: bool, stream: bool) returns (r: Option<nat>)
      requires Valid() && |pending + streamCbs| < UINT64_SPAN - 1
      modifies this
      ensures Valid()
      ensures r.None? <==> old(closed)
      ensures r.None? ==> Abs() == old(Abs())
      ensures r.Some? ==> var a := DoRegister(r.value, response, stream);
                          Enabled(old(Abs()), a) && Abs() == Next(old(Abs()), a).0
      ensures r.Some? ==> r.value !in old(pending) + old(streamCbs) && reassembly == old(reassembly)
      ensures r.Some? ==> pending == old(pending) + (if response then {r.value} else {})
      ensures r.Some? ==> streamCbs == old(streamCbs) + (if stream then {r.value} else {})
    {
      if closed {
        return None;
      }
      ghost var before := Abs();
      var id := AllocateReqId();
      RegisterIs(before, id, response, stream);
      InstallHandlers(id, response, stream);
      return Some(id);
    }

    /** The two map insertions of a registration. */
    method InstallHandlers(id: nat, response: bool, stream: bool)
      modifies this`pending, this`streamCbs
      ensures pending == old(pending) + (if response then {id} else {})
      ensures streamCbs == old(streamCbs) + (if stream then {id} else {})
    {
      if response {
        pending := pending + {id};
      }
      if stream {
        streamCbs := streamCbs + {id};
      }
    }

    method UnregisterRequest(id: nat, response: bool, stream: bool)
      requires Valid()
      modifies this
      ensures Valid() && Abs() == Next(old(Abs()), DoUnregister(id, response, stream)).0
      ensures pending == old(pending) - (if response then {id} else {}) && streamCbs == old(streamCbs) - (if stream then {id} else {})
      ensures reassembly == if id in pending + streamCbs then old(reassembly) else old(reassembly) - {id}
    {
      if response {
        pending := pending - {id};
      }
      if stream {
        streamCbs := streamCbs - {id};
      }
      var handled := HasHandler(id);
      if !handled {
        DropReassembly(id);
      }
    }

    /** dropReassemblyLocked. */
    method DropReassembly(id: nat)
      requires Valid()
      modifies this`reassembly, this`bufs
      ensures Valid() && Abs() == Drop(old(Abs()), id)
      ensures reassembly == old(reassembly) - {id}
    {
      reassembly := reassembly - {id};
      bufs := bufs - {id};
    }

    /** startReassemblyLocked. */
    method Start(id: nat)
      requires Valid() && id !in reassembly
      modifies this`reassembly, this`bufs
      ensures Valid() && Abs() == Put(old(Abs()), id, EMPTY_BUF)
      ensures id in reassembly && fresh(reassembly[id]) && reassembly == old(reassembly)[id := reassembly[id]]
    {
      var buf := new ChunkBuffer(id);
      reassembly := reassembly[id := buf];
      bufs := bufs[id := EMPTY_BUF];
    }

    /** AppendChunk on the id's own buffer. */
    method Append(id: nat, data: bytes) returns (breached: bool)
      requires Valid() && id in reassembly
      modifies reassembly[id], this`bufs
      ensures Valid() && Abs() == Put(old(Abs()), id, Extend(old(bufs)[id], data))
      ensures breached == (bufs[id].total > CAP)
    {
      var _, over := reassembly[id].AppendChunk(data, CAP);
      bufs := bufs[id := Extend(bufs[id], data)];
      breached := over;
    }

    /** The part of poisonReassemblyLocked for an id that has no entry: it gets one, already poisoned. */
    method StartPoisoned(id: nat)
      requires Valid() && id !in reassembly
      modifies this`reassembly, this`bufs
      ensures Valid() && Abs() == Put(old(Abs()), id, TOMBSTONE)
    {
      var buf := new ChunkBuffer(id);
      buf.Poison();
      reassembly := reassembly[id := buf];
      bufs := bufs[id := TOMBSTONE];
    }

    /** liveReassemblyLocked. */
    method LiveReassembly() returns (live: nat)
      requires Valid()
      ensures live == |Abs().Live()|
    {
      var tombstones;
      live, tombstones := CountByState(reassembly);
      assert Accumulating(reassembly) == LiveIds(bufs);
    }

    /** A first chunk: refused without a handler or a free slot, otherwise an empty buffer is started. */
    method Admit(id: nat) returns (refusal: Option<Outcome>)
      requires Valid() && id !in reassembly
      modifies this`reassembly, this`bufs
      ensures Valid()
      ensures var s := old(Abs());
              if id !in s.Handlers() then refusal == Some(DropUnknownId) && Abs() == s
              else if |s.Live()| >= MAX_LIVE then refusal == Some(TooManyIncomplete) && Abs() == Put(s, id, TOMBSTONE)
              else refusal == None && Abs() == Put(s, id, EMPTY_BUF)
                   && id in reassembly && fresh(reassembly[id]) && reassembly == old(reassembly)[id := reassembly[id]]
    {
      var handled := HasHandler(id);
      if !handled {
        return Some(DropUnknownId);
      }
      var live := LiveReassembly();
      if live >= MAX_LIVE {
        StartPoisoned(id);
        return Some(TooManyIncomplete);
      }
      Start(id);
      return None;
    }

    /** A MORE chunk joins the id's buffer, or turns it into a tombstone when the cap is breached. */
    method AppendOrPoison(id: nat, data: bytes) returns (out: Outcome)
      requires Valid() && id in reassembly
      modifies reassembly[id], this`bufs
      ensures Valid() && (Abs(), out) == Joined(old(Abs()), id, data)
    {
      var _, breached := reassembly[id].AppendChunk(data, CAP);
      if breached {
        reassembly[id].Poison();
        bufs := bufs[id := TOMBSTONE];
        return Oversize;
      }
      bufs := bufs[id := Extend(bufs[id], data)];
      return Buffered;
    }

    /** The MORE branch of reassembleLocked. */
    method BufferMore(id: nat, data: bytes) returns (out: Outcome)
      requires Valid() && (id in reassembly ==> !reassembly[id].poisoned)
      modifies this`reassembly, this`bufs, reassembly.Values
      ensures Valid() && (Abs(), out) == Reassemble(old(Abs()), id, true, data)
    {
      if id in reassembly {
        out := AppendOrPoison(id, data);
        return;
      }
      ghost var s := Abs();
      var refusal := Admit(id);
      if refusal.Some? {
        return refusal.value;
      }
      FirstChunkJoins(s, id, data);
      out := AppendOrPoison(id, data);
    }

    /**
     * The final-chunk branch of reassembleLocked. A chunked delivery hands out the buffer itself,
     * already removed from the map, for the caller to join after unlocking.
     */
    method FinishMessage(id: nat, data: bytes) returns (out: Outcome, buf: ChunkBuffer?)
      requires Valid() && (id in reassembly ==> !reassembly[id].poisoned)
      modifies this`reassembly, this`bufs, reassembly.Values
      ensures Valid() && Abs() == Reassemble(old(Abs()), id, false, data).0
      ensures (if buf == null then out else Deliver(Concat(buf.parts))) == Reassemble(old(Abs()), id, false, data).1
    {
      if id !in reassembly {
        return if |data| > CAP then Oversize else Deliver(data), null;
      }
      var last := reassembly[id];
      ghost var s0 := Abs();
      var breached := Append(id, data);
      assert last.Value() == Extend(s0.bufs[id], data);
      DropReassembly(id);
      assert bufs == s0.bufs - {id};
      if breached {
        return Oversize, null;
      }
      return Buffered, last;
    }

    /** reassembleLocked: the whole decision, taken under the lock. */
    method ReassembleLocked(id: nat, more: bool, data: bytes) returns (out: Outcome, buf: ChunkBuffer?)
      requires Valid()
      modifies this`reassembly, this`bufs, reassembly.Values
      ensures Valid() && Abs() == Reassemble(old(Abs()), id, more, data).0
      ensures (if buf == null then out else Deliver(Concat(buf.parts))) == Reassemble(old(Abs()), id, more, data).1
    {
      if id in reassembly && reassembly[id].poisoned {
        if !more {
          DropReassembly(id);
        }
        return Buffered, null;
      }
      if more {
        out := BufferMore(id, data);
        return out, null;
      }
      out, buf := FinishMessage(id, data);
    }

    /** reassemble: out-of-spec flags are dropped, and the join happens after the lock is released. */
    method ReassembleFrame(id: nat, flags: int, data: bytes) returns (out: Outcome)
      requires Valid()
      modifies this`reassembly, this`bufs, reassembly.Values
      ensures Valid() && (Abs(), out) == Next(old(Abs()), Arrive(id, flags, data))
    {
      var (more, valid) := ChunkContinuation(flags);
      if !valid {
        return DropBadFlags;
      }
      var decided, buf := ReassembleLocked(id, more, data);
      if buf == null {
        return decided;
      }
      var joined := buf.Join();
      return Deliver(joined);
    }

    /** Close, first half: the compare-and-swap that decides who tears the channel down. */
    method BeginClose() returns (won: bool)
      modifies this`closed
      ensures won == !old(closed) && closed && Abs() == Next(old(Abs()), CloseFlag).0
    {
      won := !closed;
      closed := true;
    }

    /** Close, second half: the maps are replaced under the lock. */
    method FinishClose()
      requires Valid() && closed
      modifies this
      ensures Valid() && Abs() == Next(old(Abs()), CloseMaps).0
      ensures pending == {} && streamCbs == {} && reassembly == map[]
    {
      pending := {};
      streamCbs := {};
      reassembly := map[];
      bufs, drained := map[], true;
    }
  }
}

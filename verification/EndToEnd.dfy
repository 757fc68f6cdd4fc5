/**
 * From one end of a channel to the other: messages are split, their chunks interleaved in any
 * order that keeps each id's own order, encrypted in transport order, decrypted by recvLoop and
 * reassembled. Every message comes out exactly once, whole, and nothing is left behind.
 */
module EndToEnd {
  import opened Bytes
  import opened Cipher
  import opened ChannelWire
  import opened Reassembly

  /** One chunk in transport order. */
  datatype Item = Item(id: nat, chunk: Chunk)

  /** The chunks of one id, in the order they travel. */
  function Proj(sched: seq<Item>, id: nat): seq<Chunk>
    decreases |sched|
  {
    if sched == [] then []
    else
      var last := sched[|sched| - 1];
      Proj(sched[..|sched| - 1], id) + (if last.id == id then [last.chunk] else [])
  }

  // ----- Wire -----

  /** The frames carry the schedule, chunk by chunk, under consecutive counter values from c.n. */
  ghost predicate Spells(a: Aead, c: Key, frames: seq<Frame>, sched: seq<Item>)
  {
    && |frames| == |sched|
    && forall i :: 0 <= i < |sched| ==> Carries(a, c.(n := c.n + i), sched[i].id, frames[i], sched[i].chunk)
  }

  datatype Emitted = Emitted(cipher: Key, frames: seq<Frame>, ok: bool)

  /** The sender's cipher encrypts the items one by one, in transport order, stopping for good at the first refusal. */
  function Emit(a: Aead, c: Key, sched: seq<Item>): Emitted
    decreases |sched|
  {
    if sched == [] then Emitted(c, [], true)
    else
      var last, sofar := sched[|sched| - 1], Emit(a, c, sched[..|sched| - 1]);
      if !sofar.ok then sofar
      else
        var (next, out) := Encrypt(a, sofar.cipher, last.chunk.data);
        if out.Err? then Emitted(next, sofar.frames, false)
        else Emitted(next, sofar.frames + [Frame(last.id, FlagsOf(last.chunk), out.value)], true)
  }

  predicate Encryptable(sched: seq<Item>)
  {
    forall i :: 0 <= i < |sched| ==> |sched[i].chunk.data| <= MAX_PLAINTEXT_SIZE
  }

  lemma SpellsSnoc(a: Aead, c: Key, frames: seq<Frame>, sched: seq<Item>, f: Frame, item: Item)
    requires Spells(a, c, frames, sched) && Carries(a, c.(n := c.n + |sched|), item.id, f, item.chunk)
    ensures Spells(a, c, frames + [f], sched + [item])
  {
  }

  /** Encryption succeeds exactly while the counter lasts, and then every frame opens, at its own counter, to its chunk. */
  lemma {:induction false} EmitSpells(a: Aead, c: Key, sched: seq<Item>)
    requires a.Lawful() && Encryptable(sched)
    ensures var e := Emit(a, c, sched);
            && (e.ok <==> sched == [] || c.n + |sched| <= UINT32_SPAN)
            && (e.ok ==> e.cipher == c.(n := c.n + |sched|) && Spells(a, c, e.frames, sched))
    decreases |sched|
  {
    if sched != [] {
      var n := |sched| - 1;
      var front, last, sofar := sched[..n], sched[n], Emit(a, c, sched[..n]);
      EmitSpells(a, c, front);
      if sofar.ok && Encrypt(a, sofar.cipher, last.chunk.data).1.Ok? {
        DecryptUndoesEncrypt(a, sofar.cipher, last.chunk.data);
        var f := Frame(last.id, FlagsOf(last.chunk), Encrypt(a, sofar.cipher, last.chunk.data).1.value);
        SpellsSnoc(a, c, sofar.frames, front, f, last);
        Unsnoc(sched);
      }
    }
  }

  /** One id's chunks as a schedule. */
  function Items(id: nat, chunks: seq<Chunk>): (r: seq<Item>)
    ensures |r| == |chunks| && forall i :: 0 <= i < |r| ==> r[i] == Item(id, chunks[i])
  {
    seq(|chunks|, i requires 0 <= i < |chunks| => Item(id, chunks[i]))
  }

  /** What SendChannelFrames puts on the wire, when it succeeds, carries its message's chunks. */
  lemma SentSpells(a: Aead, c: Key, id: nat, message: bytes, writeFails: set<nat>)
    requires a.Lawful() && Transmit(a, c, id, SplitMessage(message), 0, writeFails).result.Ok?
    ensures Spells(a, c, Transmit(a, c, id, SplitMessage(message), 0, writeFails).frames, Items(id, SplitMessage(message)))
  {
    SplitMessageSpells(message);
    TransmitOutcome(a, c, id, SplitMessage(message), 0, writeFails);
  }

  datatype Receiver = Receiver(cipher: Key, rx: Rx, delivered: seq<(nat, bytes)>, alive: bool)

  /** One turn of recvLoop: decrypt or give up, reassemble, dispatch a complete message. */
  function Turn(a: Aead, r: Receiver, f: Frame): Receiver
  {
    if !r.alive then r
    else
      var (c, plain) := Decrypt(a, r.cipher, f.ciphertext);
      if plain.Err? then r.(alive := false)
      else
        var (s, out) := Next(r.rx, Arrive(f.id, f.flags, plain.value));
        Receiver(c, s, r.delivered + (if out.Deliver? then [(f.id, out.payload)] else []), true)
  }

  function Receive(a: Aead, r: Receiver, frames: seq<Frame>): Receiver
    decreases |frames|
  {
    if frames == [] then r else Turn(a, Receive(a, r, frames[..|frames| - 1]), frames[|frames| - 1])
  }

  /** recvLoop: reads until the frames end or one does not decrypt. */
  method RecvLoop(a: Aead, start: Receiver, frames: seq<Frame>) returns (r: Receiver)
    requires start.alive
    ensures r == Receive(a, start, frames)
    ensures r.alive <==> forall i :: 0 <= i < |frames| ==> OpensAt(a, start.cipher, frames, i)
  {
    AliveIff(a, start, frames);
    r := start;
    for i := 0 to |frames|
      invariant r.alive && r == Receive(a, start, frames[..i])
    {
      assert frames[..i + 1][..i] == frames[..i];
      var (c, plain) := Decrypt(a, r.cipher, frames[i].ciphertext);
      if plain.Err? {
        r := r.(alive := false);
        DeadStaysDead(a, start, frames, i + 1);
        return;
      }
      var (s, out) := Next(r.rx, Arrive(frames[i].id, frames[i].flags, plain.value));
      r := Receiver(c, s, if out.Deliver? then r.delivered + [(frames[i].id, out.payload)] else r.delivered + [], true);
    }
    assert frames[..|frames|] == frames;
  }

  lemma {:induction false} DeadStaysDead(a: Aead, r: Receiver, frames: seq<Frame>, k: nat)
    requires k <= |frames| && !Receive(a, r, frames[..k]).alive
    ensures Receive(a, r, frames) == Receive(a, r, frames[..k])
    decreases |frames|
  {
    if k == |frames| {
      assert frames[..k] == frames;
    } else {
      assert frames[..|frames| - 1][..k] == frames[..k];
      DeadStaysDead(a, r, frames[..|frames| - 1], k);
    }
  }

  /** Frame i of a stream opens, at the counter value that is its own. */
  predicate OpensAt(a: Aead, c: Key, frames: seq<Frame>, i: nat)
  {
    i < |frames| && Decrypt(a, c.(n := c.n + i), frames[i].ciphertext).1.Ok?
  }

  /** The loop goes on exactly as long as every frame opens under the key at its own counter. */
  lemma {:induction false} AliveIff(a: Aead, r: Receiver, frames: seq<Frame>)
    requires r.alive
    ensures var t := Receive(a, r, frames);
            && (t.alive <==> forall i :: 0 <= i < |frames| ==> OpensAt(a, r.cipher, frames, i))
            && (t.alive ==> t.cipher == r.cipher.(n := r.cipher.n + |frames|))
    decreases |frames|
  {
    if frames != [] {
      var n := |frames| - 1;
      AliveIff(a, r, frames[..n]);
      assert forall i :: 0 <= i < n ==> (OpensAt(a, r.cipher, frames[..n], i) <==> OpensAt(a, r.cipher, frames, i));
      var p := Receive(a, r, frames[..n]);
      if p.alive {
        assert Turn(a, p, frames[n]).alive <==> OpensAt(a, r.cipher, frames, n);
      }
    }
  }

  /**
   * The first frame that does not open ends the channel: whatever follows it, nothing more is delivered, buffered or
   * decrypted.
   */
  lemma FirstBadFrameIsTheLast(a: Aead, r: Receiver, frames: seq<Frame>, k: nat)
    requires r.alive && k < |frames| && !OpensAt(a, r.cipher, frames, k)
    requires forall i :: 0 <= i < k ==> OpensAt(a, r.cipher, frames, i)
    ensures var before := Receive(a, r, frames[..k]);
            before.alive && Receive(a, r, frames) == before.(alive := false)
  {
    AliveIff(a, r, frames[..k]);
    assert forall i :: 0 <= i < k ==> (OpensAt(a, r.cipher, frames[..k], i) <==> OpensAt(a, r.cipher, frames, i));
    assert frames[..k + 1][..k] == frames[..k];
    DeadStaysDead(a, r, frames, k + 1);
  }

  // ----- What a chunk sequence spells -----

  predicate IsOpen(chunks: seq<Chunk>)
  {
    chunks != [] && chunks[|chunks| - 1].more
  }

  /** Bytes since the last final chunk. */
  function Partial(chunks: seq<Chunk>): bytes
    decreases |chunks|
  {
    if !IsOpen(chunks) then [] else Partial(chunks[..|chunks| - 1]) + chunks[|chunks| - 1].data
  }

  /** The messages completed so far. */
  function Completed(chunks: seq<Chunk>): seq<bytes>
    decreases |chunks|
  {
    if chunks == [] then []
    else
      var front, last := chunks[..|chunks| - 1], chunks[|chunks| - 1];
      Completed(front) + (if last.more then [] else [Partial(front) + last.data])
  }

  /** No message ever grows past the cap. */
  predicate Fits(chunks: seq<Chunk>)
    decreases |chunks|
  {
    chunks == [] ||
    (Fits(chunks[..|chunks| - 1]) && |Partial(chunks[..|chunks| - 1]) + chunks[|chunks| - 1].data| <= CAP)
  }

  /** What one more chunk does to the chunk sequence of its id. */
  lemma SnocChunk(chunks: seq<Chunk>, c: Chunk)
    ensures var more := chunks + [c];
            && IsOpen(more) == c.more
            && Partial(more) == (if c.more then Partial(chunks) + c.data else [])
            && Completed(more) == Completed(chunks) + (if c.more then [] else [Partial(chunks) + c.data])
            && (Fits(more) <==> Fits(chunks) && |Partial(chunks) + c.data| <= CAP)
  {
    PrefixOfSnoc(chunks, c);
  }

  /** The bytes of a chunk sequence. */
  function Text(m: seq<Chunk>): bytes
  {
    if m == [] then [] else m[0].data + Text(m[1..])
  }

  lemma {:induction false} TextIsConcat(m: seq<Chunk>)
    ensures Text(m) == Concat(DataOf(m))
  {
    if m == [] {
      assert DataOf(m) == [];
    } else {
      TextIsConcat(m[1..]);
      assert DataOf(m) == [m[0].data] + DataOf(m[1..]);
      ConcatCons(m[0].data, DataOf(m[1..]));
    }
  }

  /** One more chunk that is not the last of its message. */
  lemma MoreChunk(front: seq<Chunk>, c: Chunk, whole: bytes)
    requires Fits(front) && c.more && Partial(front) + c.data == whole && |whole| <= CAP
    ensures Fits(front + [c]) && Completed(front + [c]) == Completed(front) && Partial(front + [c]) == whole
  {
    SnocChunk(front, c);
    assert Completed(front) + [] == Completed(front);
  }

  /** The last chunk of a message. */
  lemma LastChunk(front: seq<Chunk>, c: Chunk, whole: bytes)
    requires Fits(front) && !c.more && Partial(front) + c.data == whole && |whole| <= CAP
    ensures !IsOpen(front + [c]) && Fits(front + [c]) && Completed(front + [c]) == Completed(front) + [whole]
  {
    SnocChunk(front, c);
  }

  /** The rest of a message, from any point inside it, completes exactly that message. */
  lemma {:induction false} MessageCompletes(front: seq<Chunk>, m: seq<Chunk>, whole: bytes)
    requires Fits(front) && IsMessage(m) && Partial(front) + Text(m) == whole && |whole| <= CAP
    ensures !IsOpen(front + m) && Fits(front + m) && Completed(front + m) == Completed(front) + [whole]
    decreases |m|
  {
    var head, tail, got := m[0], m[1..], Partial(front) + m[0].data;
    assert got + Text(tail) == whole;
    if tail == [] {
      LastChunk(front, head, got);
      Regroup(front, m);
      assert got == whole;
    } else {
      MoreChunk(front, head, got);
      MessageCompletes(front + [head], tail, whole);
      Regroup(front, m);
    }
  }

  function Splits(messages: seq<bytes>): (r: seq<seq<Chunk>>)
    ensures |r| == |messages| && forall i :: 0 <= i < |r| ==> r[i] == SplitMessage(messages[i])
  {
    seq(|messages|, i requires 0 <= i < |messages| => SplitMessage(messages[i]))
  }

  lemma SplitsSnoc(messages: seq<bytes>)
    requires messages != []
    ensures var n := |messages| - 1; Concat(Splits(messages)) == Concat(Splits(messages[..n])) + SplitMessage(messages[n])
  {
    var n := |messages| - 1;
    assert Splits(messages) == Splits(messages[..n]) + [SplitMessage(messages[n])];
    ConcatSnoc(Splits(messages[..n]), SplitMessage(messages[n]));
  }

  lemma SplitCompletes(before: seq<Chunk>, message: bytes)
    requires !IsOpen(before) && Fits(before) && |message| <= CAP
    ensures var chunks := before + SplitMessage(message);
            !IsOpen(chunks) && Fits(chunks) && Completed(chunks) == Completed(before) + [message]
  {
    SplitMessageSpells(message);
    TextIsConcat(SplitMessage(message));
    assert Partial(before) + message == message;
    MessageCompletes(before, SplitMessage(message), message);
  }

  lemma {:induction false} SplitsComplete(messages: seq<bytes>)
    requires WithinCap(messages)
    ensures var chunks := Concat(Splits(messages));
            !IsOpen(chunks) && Fits(chunks) && Completed(chunks) == messages
    decreases |messages|
  {
    if messages != [] {
      var n := |messages| - 1;
      SplitsComplete(messages[..n]);
      SplitsSnoc(messages);
      SplitCompletes(Concat(Splits(messages[..n])), messages[n]);
      Unsnoc(messages);
    }
  }

  // ----- The schedule drives the receiver -----

  /** The ids with an incomplete message after the schedule. */
  function OpenIds(sched: seq<Item>): (r: set<nat>)
    decreases |sched|
  {
    if sched == [] then {}
    else
      var last := sched[|sched| - 1];
      var before := OpenIds(sched[..|sched| - 1]);
      if last.chunk.more then before + {last.id} else before - {last.id}
  }

  lemma {:induction false} OpenIdsMeaning(sched: seq<Item>, id: nat)
    ensures id in OpenIds(sched) <==> IsOpen(Proj(sched, id))
    decreases |sched|
  {
    if sched != [] {
      OpenIdsMeaning(sched[..|sched| - 1], id);
    }
  }

  /** The hypotheses: handlers live, per-id content within the cap, at most four messages incomplete at any time. */
  ghost predicate Calm(s: Rx, sched: seq<Item>)
  {
    && (forall i :: 0 <= i < |sched| ==> sched[i].id in s.Handlers() && |sched[i].chunk.data| <= MAX_PLAINTEXT_SIZE)
    && (forall id: nat :: Fits(Proj(sched, id)))
    && (forall k :: 0 <= k <= |sched| ==> |OpenIds(sched[..k])| <= MAX_LIVE)
  }

  function DeliveredTo(delivered: seq<(nat, bytes)>, id: nat): seq<bytes>
    decreases |delivered|
  {
    if delivered == [] then []
    else
      var last := delivered[|delivered| - 1];
      DeliveredTo(delivered[..|delivered| - 1], id) + (if last.0 == id then [last.1] else [])
  }

  /** The receiver's state is exactly what the schedule so far spells. */
  ghost predicate Tracks(r: Receiver, c: Key, s: Rx, sched: seq<Item>)
  {
    && r.alive && r.cipher == c.(n := c.n + |sched|)
    && Inv(r.rx) && r.rx.Handlers() == s.Handlers()
    && forall id: nat :: TracksId(r.rx, r.delivered, Proj(sched, id), id)
  }

  lemma CalmPrefix(s: Rx, sched: seq<Item>)
    requires Calm(s, sched) && sched != []
    ensures Calm(s, sched[..|sched| - 1])
  {
    var front := sched[..|sched| - 1];
    forall k | 0 <= k <= |front| ensures |OpenIds(front[..k])| <= MAX_LIVE {
      assert front[..k] == sched[..k];
    }
    forall id: nat ensures Fits(Proj(front, id)) {
      assert Fits(Proj(sched, id));
      if sched[|sched| - 1].id == id {
        assert Proj(sched, id)[..|Proj(sched, id)| - 1] == Proj(front, id);
      } else {
        assert Proj(sched, id) == Proj(front, id);
      }
    }
  }

  /** A message may start whenever it will be at most the fourth incomplete one. */
  lemma Admitted(s: Rx, sched: seq<Item>, rx: Rx)
    requires Calm(s, sched) && sched != []
    requires var front := sched[..|sched| - 1]; rx.Live() == OpenIds(front)
    requires var last := sched[|sched| - 1]; last.chunk.more && last.id !in rx.Live()
    ensures |rx.Live()| < MAX_LIVE
  {
    assert sched[..|sched|] == sched;
    assert OpenIds(sched) == rx.Live() + {sched[|sched| - 1].id};
  }

  lemma LiveIsOpen(r: Receiver, c: Key, s: Rx, sched: seq<Item>)
    requires Tracks(r, c, s, sched)
    ensures r.rx.Live() == OpenIds(sched)
  {
    forall id: nat ensures id in r.rx.Live() <==> id in OpenIds(sched) {
      OpenIdsMeaning(sched, id);
      assert TracksId(r.rx, r.delivered, Proj(sched, id), id);
    }
  }

  lemma ArriveKeepsOthers(s: Rx, id: nat, more: bool, data: bytes, other: nat)
    requires other != id
    ensures SeatOf(Reassemble(s, id, more, data).0, other) == SeatOf(s, other)
  {
  }

  function SeatFor(chunks: seq<Chunk>): Seat
  {
    if IsOpen(chunks) then Filling(Partial(chunks)) else Idle
  }

  /** One more chunk that fits, seen by a seat that is filling with `got` or idle. */
  lemma SeatMoves(open: bool, got: bytes, c: Chunk, admitted: bool)
    requires (!open ==> got == []) && |got + c.data| <= CAP && (c.more && !open ==> admitted)
    ensures SeatStep(if open then Filling(got) else Idle, admitted, c)
            == (if c.more then (Filling(got + c.data), Buffered) else (Idle, Deliver(got + c.data)))
  {
  }

  /** One more chunk, seen by the seat of its id. */
  lemma SeatFollows(chunks: seq<Chunk>, c: Chunk, admitted: bool)
    requires Fits(chunks + [c]) && (c.more && !IsOpen(chunks) ==> admitted)
    ensures SeatStep(SeatFor(chunks), admitted, c)
            == (SeatFor(chunks + [c]), if c.more then Buffered else Deliver(Partial(chunks) + c.data))
  {
    SnocChunk(chunks, c);
    SeatMoves(IsOpen(chunks), Partial(chunks), c, admitted);
  }

  lemma ReassembleKeepsHandlers(s: Rx, id: nat, more: bool, data: bytes)
    ensures Reassemble(s, id, more, data).0.Handlers() == s.Handlers()
  {
  }

  lemma DeliveredSnoc(delivered: seq<(nat, bytes)>, d: (nat, bytes), id: nat)
    ensures DeliveredTo(delivered + [d], id) == DeliveredTo(delivered, id) + (if d.0 == id then [d.1] else [])
  {
    assert (delivered + [d])[..|delivered|] == delivered;
  }

  /** The part of Tracks about one id. */
  predicate TracksId(rx: Rx, delivered: seq<(nat, bytes)>, chunks: seq<Chunk>, id: nat)
  {
    && SeatOf(rx, id) == SeatFor(chunks)
    && DeliveredTo(delivered, id) == Completed(chunks)
  }

  lemma ChunkTracks(r: Receiver, c: Key, s: Rx, sched: seq<Item>)
    requires sched != [] && Calm(s, sched) && Tracks(r, c, s, sched[..|sched| - 1])
    ensures var last := sched[|sched| - 1];
            var (t, out) := Reassemble(r.rx, last.id, last.chunk.more, last.chunk.data);
            var delivered := r.delivered + (if out.Deliver? then [(last.id, out.payload)] else []);
            && Inv(t) && t.Handlers() == s.Handlers()
            && forall id: nat :: TracksId(t, delivered, Proj(sched, id), id)
  {
    var front, last := sched[..|sched| - 1], sched[|sched| - 1];
    var id, chunk, chunks := last.id, last.chunk, Proj(front, last.id);
    LiveIsOpen(r, c, s, front);
    OpenIdsMeaning(front, id);
    assert Proj(sched, id) == chunks + [chunk];
    if chunk.more && !IsOpen(chunks) {
      Admitted(s, sched, r.rx);
    }
    assert Fits(Proj(sched, id));
    assert TracksId(r.rx, r.delivered, chunks, id);
    ArrivalIsSeatStep(r.rx, id, chunk.more, chunk.data);
    SeatFollows(chunks, chunk, |r.rx.Live()| < MAX_LIVE);
    ReassembleKeepsInv(r.rx, id, chunk.more, chunk.data);
    ReassembleKeepsHandlers(r.rx, id, chunk.more, chunk.data);
    SnocChunk(chunks, chunk);
    var (t, out) := Reassemble(r.rx, id, chunk.more, chunk.data);
    var delivered := r.delivered + (if out.Deliver? then [(id, out.payload)] else []);
    forall other: nat ensures TracksId(t, delivered, Proj(sched, other), other) {
      if out.Deliver? {
        DeliveredSnoc(r.delivered, (id, out.payload), other);
      } else {
        assert delivered == r.delivered;
      }
      if other != id {
        assert Proj(sched, other) == Proj(front, other);
        assert TracksId(r.rx, r.delivered, Proj(front, other), other);
        ArriveKeepsOthers(r.rx, id, chunk.more, chunk.data, other);
      }
    }
  }

  lemma TurnIs(a: Aead, r: Receiver, f: Frame, next: Key, chunk: Chunk)
    requires r.alive && Carries(a, r.cipher, f.id, f, chunk) && next == r.cipher.(n := r.cipher.n + 1)
    ensures var (t, out) := Reassemble(r.rx, f.id, chunk.more, chunk.data);
            Turn(a, r, f) == Receiver(next, t, r.delivered + (if out.Deliver? then [(f.id, out.payload)] else []), true)
  {
  }

  lemma TurnTracks(a: Aead, c: Key, s: Rx, sched: seq<Item>, r: Receiver, f: Frame)
    requires sched != [] && Calm(s, sched) && Tracks(r, c, s, sched[..|sched| - 1])
    requires var last := sched[|sched| - 1]; f.id == last.id && Carries(a, r.cipher, f.id, f, last.chunk)
    ensures Tracks(Turn(a, r, f), c, s, sched)
  {
    ChunkTracks(r, c, s, sched);
    TurnIs(a, r, f, c.(n := c.n + |sched|), sched[|sched| - 1].chunk);
  }

  lemma NothingTracks(c: Key, s: Rx)
    requires Inv(s) && s.bufs == map[]
    ensures Tracks(Receiver(c, s, [], true), c, s, [])
  {
  }

  lemma SpellsPrefix(a: Aead, c: Key, frames: seq<Frame>, sched: seq<Item>)
    requires Spells(a, c, frames, sched) && sched != []
    ensures var n := |sched| - 1;
            Spells(a, c, frames[..n], sched[..n]) && Carries(a, c.(n := c.n + n), sched[n].id, frames[n], sched[n].chunk)
  {
  }

  lemma {:induction false} ReceiveTracks(a: Aead, c: Key, s: Rx, frames: seq<Frame>, sched: seq<Item>)
    requires Spells(a, c, frames, sched) && Inv(s) && s.bufs == map[] && Calm(s, sched)
    ensures Tracks(Receive(a, Receiver(c, s, [], true), frames), c, s, sched)
    decreases |sched|
  {
    if sched == [] {
      NothingTracks(c, s);
    } else {
      var n := |sched| - 1;
      CalmPrefix(s, sched);
      SpellsPrefix(a, c, frames, sched);
      ReceiveTracks(a, c, s, frames[..n], sched[..n]);
      ReceiveStep(a, c, s, frames, sched, Receiver(c, s, [], true));
    }
  }

  lemma ReceiveStep(a: Aead, c: Key, s: Rx, frames: seq<Frame>, sched: seq<Item>, start: Receiver)
    requires |frames| == |sched| > 0 && Calm(s, sched)
    requires var n := |sched| - 1;
             Carries(a, c.(n := c.n + n), sched[n].id, frames[n], sched[n].chunk) && Tracks(Receive(a, start, frames[..n]), c, s, sched[..n])
    ensures Tracks(Receive(a, start, frames), c, s, sched)
  {
    var n := |sched| - 1;
    TurnTracks(a, c, s, sched, Receive(a, start, frames[..n]), frames[n]);
  }

  function MessagesFor(messages: map<nat, seq<bytes>>, id: nat): seq<bytes>
  {
    if id in messages then messages[id] else []
  }

  /** The schedule is an interleaving of exactly these messages: each id's chunks spell its messages in order. */
  ghost predicate Interleaves(sched: seq<Item>, messages: map<nat, seq<bytes>>)
  {
    forall id: nat :: Proj(sched, id) == Concat(Splits(MessagesFor(messages, id)))
  }

  predicate WithinCap(messages: seq<bytes>)
  {
    forall i :: 0 <= i < |messages| ==> |messages[i]| <= CAP
  }

  /**
   * The messages are within the cap, their ids have live handlers, and the schedule interleaves them in any
   * way that keeps per-id order and never has more than four messages incomplete.
   */
  ghost predicate Deliverable(s: Rx, sched: seq<Item>, messages: map<nat, seq<bytes>>)
  {
    && Inv(s) && s.bufs == map[]
    && Interleaves(sched, messages)
    && (forall id :: id in messages ==> id in s.Handlers() && WithinCap(messages[id]))
    && (forall k :: 0 <= k <= |sched| ==> |OpenIds(sched[..k])| <= MAX_LIVE)
  }

  /** From frames that carry the schedule, the receiver hands each id exactly its messages and keeps no buffer. */
  lemma SpelledDelivered(a: Aead, c: Key, s: Rx, frames: seq<Frame>, sched: seq<Item>, messages: map<nat, seq<bytes>>)
    requires Spells(a, c, frames, sched) && Deliverable(s, sched, messages)
    ensures var r := Receive(a, Receiver(c, s, [], true), frames);
            && r.alive && r.cipher == c.(n := c.n + |sched|)
            && Inv(r.rx) && r.rx.Handlers() == s.Handlers() && r.rx.bufs == map[]
            && forall id: nat :: DeliveredTo(r.delivered, id) == MessagesFor(messages, id)
  {
    CalmFromMessages(s, sched, messages);
    ReceiveTracks(a, c, s, frames, sched);
    AllDelivered(Receive(a, Receiver(c, s, [], true), frames), c, s, sched, messages);
  }

  /**
   * End-to-end delivery. For any messages within the cap, on any ids with live handlers, in any
   * interleaving that keeps per-id order and never has more than four messages incomplete: encrypted in
   * transport order and decrypted in the same order, each id receives exactly its messages, whole and in
   * order, the two ciphers end in step, and no buffer remains.
   */
  lemma EveryMessageDelivered(a: Aead, c: Key, s: Rx, sched: seq<Item>, messages: map<nat, seq<bytes>>)
    requires a.Lawful() && (sched == [] || c.n + |sched| <= UINT32_SPAN)
    requires Deliverable(s, sched, messages)
    ensures var e := Emit(a, c, sched);
            var r := Receive(a, Receiver(c, s, [], true), e.frames);
            && e.ok && |e.frames| == |sched|
            && r.alive && r.cipher == e.cipher
            && r.rx.bufs == map[]
            && forall id: nat :: DeliveredTo(r.delivered, id) == MessagesFor(messages, id)
  {
    CalmFromMessages(s, sched, messages);
    EmitSpells(a, c, sched);
    SpelledDelivered(a, c, s, Emit(a, c, sched).frames, sched, messages);
  }

  lemma {:induction false} CalmPrefixes(s: Rx, sched: seq<Item>, k: nat)
    requires Calm(s, sched) && k <= |sched|
    ensures Calm(s, sched[..k])
    decreases |sched|
  {
    if k == |sched| {
      assert sched[..k] == sched;
    } else {
      CalmPrefix(s, sched);
      CalmPrefixes(s, sched[..|sched| - 1], k);
      assert sched[..|sched| - 1][..k] == sched[..k];
    }
  }

  /**
   * No sooner and no later: after any number k of the encrypted frames, each id has been handed exactly the
   * messages whose last chunk is among them, and the live buffers are exactly the ids whose message is incomplete.
   */
  lemma DeliveredAtFinalFrame(a: Aead, c: Key, s: Rx, sched: seq<Item>, messages: map<nat, seq<bytes>>, k: nat)
    requires a.Lawful() && (sched == [] || c.n + |sched| <= UINT32_SPAN) && k <= |sched|
    requires Deliverable(s, sched, messages)
    ensures |Emit(a, c, sched).frames| == |sched|
    ensures var r := Receive(a, Receiver(c, s, [], true), Emit(a, c, sched).frames[..k]);
            && (forall id: nat :: DeliveredTo(r.delivered, id) == Completed(Proj(sched[..k], id)))
            && r.rx.Live() == OpenIds(sched[..k])
  {
    CalmFromMessages(s, sched, messages);
    EmitSpells(a, c, sched);
    CalmPrefixes(s, sched, k);
    var frames := Emit(a, c, sched).frames;
    ReceiveTracks(a, c, s, frames[..k], sched[..k]);
    var r := Receive(a, Receiver(c, s, [], true), frames[..k]);
    LiveIsOpen(r, c, s, sched[..k]);
    forall id: nat ensures DeliveredTo(r.delivered, id) == Completed(Proj(sched[..k], id)) {
      assert TracksId(r.rx, r.delivered, Proj(sched[..k], id), id);
    }
  }

  lemma AllDelivered(r: Receiver, c: Key, s: Rx, sched: seq<Item>, messages: map<nat, seq<bytes>>)
    requires Tracks(r, c, s, sched) && Interleaves(sched, messages)
    requires forall id :: id in messages ==> WithinCap(messages[id])
    ensures r.rx.bufs == map[] && forall id: nat :: DeliveredTo(r.delivered, id) == MessagesFor(messages, id)
  {
    forall id: nat ensures id !in r.rx.bufs && DeliveredTo(r.delivered, id) == MessagesFor(messages, id) {
      assert TracksId(r.rx, r.delivered, Proj(sched, id), id);
      SplitsComplete(MessagesFor(messages, id));
    }
    assert r.rx.bufs.Keys == {};
  }

  lemma CalmFromMessages(s: Rx, sched: seq<Item>, messages: map<nat, seq<bytes>>)
    requires Deliverable(s, sched, messages)
    ensures Calm(s, sched)
  {
    forall id: nat ensures Fits(Proj(sched, id)) {
      SplitsComplete(MessagesFor(messages, id));
    }
    forall i | 0 <= i < |sched| ensures sched[i].id in s.Handlers() && |sched[i].chunk.data| <= MAX_PLAINTEXT_SIZE {
      ItemIsProjected(sched, i);
      SplitsAreSmall(MessagesFor(messages, sched[i].id), sched[i].chunk);
    }
  }

  lemma {:induction false} ItemIsProjected(sched: seq<Item>, i: nat)
    requires i < |sched|
    ensures sched[i].chunk in Proj(sched, sched[i].id)
    decreases |sched|
  {
    if i < |sched| - 1 {
      ItemIsProjected(sched[..|sched| - 1], i);
    }
  }

  lemma {:induction false} SplitsAreSmall(messages: seq<bytes>, chunk: Chunk)
    requires chunk in Concat(Splits(messages))
    ensures |chunk.data| <= MAX_PLAINTEXT_SIZE
    decreases |messages|
  {
    if messages != [] {
      var n := |messages| - 1;
      SplitsSnoc(messages);
      if chunk in Concat(Splits(messages[..n])) {
        SplitsAreSmall(messages[..n], chunk);
      } else {
        SplitMessageSpells(messages[n]);
      }
    }
  }

  // ----- What the senders of one channel emit -----

  /** One SendChannelFrames call; `writeFails` are the writes of it that fail. */
  datatype Send = Send(id: nat, message: bytes, writeFails: set<nat>)

  /** Sends take the channel's permit in turn; a failed one cancels the channel, so nothing follows it. */
  function SendAll(a: Aead, c: Key, sends: seq<Send>): Emitted
    decreases |sends|
  {
    if sends == [] then Emitted(c, [], true)
    else
      var last, sofar := sends[|sends| - 1], SendAll(a, c, sends[..|sends| - 1]);
      if !sofar.ok then sofar
      else
        var t := Transmit(a, sofar.cipher, last.id, SplitMessage(last.message), 0, last.writeFails);
        Emitted(t.cipher, sofar.frames + t.frames, t.result.Ok?)
  }

  function Pairs(sends: seq<Send>): seq<(nat, bytes)>
  {
    seq(|sends|, i requires 0 <= i < |sends| => (sends[i].id, sends[i].message))
  }

  lemma {:induction false} ReceiveAppend(a: Aead, r: Receiver, f: seq<Frame>, g: seq<Frame>)
    ensures Receive(a, r, f + g) == Receive(a, Receive(a, r, f), g)
    decreases |g|
  {
    if g == [] {
      assert f + g == f;
    } else {
      var n := |g| - 1;
      ReceiveAppend(a, r, f, g[..n]);
      assert (f + g)[..|f + g| - 1] == f + g[..n];
    }
  }

  /** What was delivered before makes no difference to what is delivered next. */
  lemma {:induction false} EarlierDeliveries(a: Aead, r: Receiver, d: seq<(nat, bytes)>, frames: seq<Frame>)
    ensures var t := Receive(a, r, frames); Receive(a, r.(delivered := d + r.delivered), frames) == t.(delivered := d + t.delivered)
    decreases |frames|
  {
    if frames != [] {
      var n := |frames| - 1;
      EarlierDeliveries(a, r, d, frames[..n]);
      var t := Receive(a, r, frames[..n]);
      TurnKeepsEarlier(a, t, d, frames[n]);
    }
  }

  lemma TurnKeepsEarlier(a: Aead, t: Receiver, d: seq<(nat, bytes)>, f: Frame)
    ensures var u := Turn(a, t, f); Turn(a, t.(delivered := d + t.delivered), f) == u.(delivered := d + u.delivered)
  {
    if t.alive && Decrypt(a, t.cipher, f.ciphertext).1.Ok? {
      var out := Next(t.rx, Arrive(f.id, f.flags, Decrypt(a, t.cipher, f.ciphertext).1.value)).1;
      var more := if out.Deliver? then [(f.id, out.payload)] else [];
      assert d + (t.delivered + more) == d + t.delivered + more;
    }
  }

  lemma {:induction false} ProjItems(id: nat, chunks: seq<Chunk>, other: nat)
    ensures Proj(Items(id, chunks), other) == if other == id then chunks else []
    decreases |chunks|
  {
    var items := Items(id, chunks);
    if chunks != [] {
      var n := |chunks| - 1;
      assert items[..n] == Items(id, chunks[..n]);
      ProjItems(id, chunks[..n], other);
      Unsnoc(chunks);
    }
  }

  lemma {:induction false} OneIdOpens(sched: seq<Item>, id: nat)
    requires forall i :: 0 <= i < |sched| ==> sched[i].id == id
    ensures OpenIds(sched) <= {id}
    decreases |sched|
  {
    if sched != [] {
      OneIdOpens(sched[..|sched| - 1], id);
    }
  }

  lemma OneMessageSplits(id: nat, message: bytes, other: nat)
    ensures Proj(Items(id, SplitMessage(message)), other) == Concat(Splits(MessagesFor(map[id := [message]], other)))
  {
    ProjItems(id, SplitMessage(message), other);
    if other == id {
      assert Splits([message]) == [SplitMessage(message)];
      ConcatOne(SplitMessage(message));
    }
  }

  lemma OneIdOpensOnce(sched: seq<Item>, id: nat, k: nat)
    requires k <= |sched| && forall i :: 0 <= i < |sched| ==> sched[i].id == id
    ensures |OpenIds(sched[..k])| <= 1
  {
    OneIdOpens(sched[..k], id);
    SubsetSize(OpenIds(sched[..k]), {id});
  }

  lemma OneMessageInterleaves(s: Rx, id: nat, message: bytes)
    requires Inv(s) && s.bufs == map[] && id in s.Handlers() && |message| <= CAP
    ensures Deliverable(s, Items(id, SplitMessage(message)), map[id := [message]])
  {
    var sched := Items(id, SplitMessage(message));
    forall other: nat ensures Proj(sched, other) == Concat(Splits(MessagesFor(map[id := [message]], other))) {
      OneMessageSplits(id, message, other);
    }
    forall k | 0 <= k <= |sched| ensures |OpenIds(sched[..k])| <= MAX_LIVE {
      OneIdOpensOnce(sched, id, k);
    }
  }

  lemma LastIsSeen(delivered: seq<(nat, bytes)>)
    requires delivered != []
    ensures DeliveredTo(delivered, delivered[|delivered| - 1].0) != []
  {
  }

  /** A delivery list is settled by what each id sees of it, when only one id sees anything, once. */
  lemma OnlyDelivery(delivered: seq<(nat, bytes)>, id: nat, message: bytes)
    requires forall other: nat :: DeliveredTo(delivered, other) == if other == id then [message] else []
    ensures delivered == [(id, message)]
  {
    assert DeliveredTo(delivered, id) == [message];
    var n := |delivered| - 1;
    var front, last := delivered[..n], delivered[n];
    LastIsSeen(delivered);
    assert last.0 == id;
    forall other: nat ensures DeliveredTo(front, other) == [] {
      assert DeliveredTo(delivered, other) == DeliveredTo(front, other) + (if last.0 == other then [last.1] else []);
    }
    assert [] + [last.1] == [message];
    assert last.1 == [message][0];
    if front != [] {
      LastIsSeen(front);
    }
  }

  /** The receiver is in step with cipher c, has delivered exactly d, and has no message incomplete. */
  ghost predicate Settled(r: Receiver, c: Key, s: Rx, d: seq<(nat, bytes)>)
  {
    r.alive && r.cipher == c && r.delivered == d && Inv(r.rx) && r.rx.Handlers() == s.Handlers() && r.rx.bufs == map[]
  }

  function Sending(a: Aead, c: Key, send: Send): Sent
  {
    Transmit(a, c, send.id, SplitMessage(send.message), 0, send.writeFails)
  }

  lemma SendingSpells(a: Aead, c: Key, send: Send)
    requires a.Lawful() && Sending(a, c, send).result.Ok?
    ensures var sched := Items(send.id, SplitMessage(send.message));
            Spells(a, c, Sending(a, c, send).frames, sched) && Sending(a, c, send).cipher == c.(n := c.n + |sched|)
  {
    SplitMessageSpells(send.message);
    TransmitOutcome(a, c, send.id, SplitMessage(send.message), 0, send.writeFails);
    SentSpells(a, c, send.id, send.message, send.writeFails);
  }

  lemma FirstSendSettles(a: Aead, c: Key, s: Rx, send: Send)
    requires a.Lawful() && Inv(s) && s.bufs == map[] && send.id in s.Handlers() && |send.message| <= CAP && Sending(a, c, send).result.Ok?
    ensures Settled(Receive(a, Receiver(c, s, [], true), Sending(a, c, send).frames), Sending(a, c, send).cipher, s, [(send.id, send.message)])
  {
    SendingSpells(a, c, send);
    OneMessageInterleaves(s, send.id, send.message);
    OneMessageSettles(a, c, s, Sending(a, c, send).frames, send.id, send.message);
  }

  lemma OneMessageSettles(a: Aead, c: Key, s: Rx, frames: seq<Frame>, id: nat, message: bytes)
    requires Spells(a, c, frames, Items(id, SplitMessage(message))) && Deliverable(s, Items(id, SplitMessage(message)), map[id := [message]])
    ensures Settled(Receive(a, Receiver(c, s, [], true), frames), c.(n := c.n + |SplitMessage(message)|), s, [(id, message)])
  {
    SpelledDelivered(a, c, s, frames, Items(id, SplitMessage(message)), map[id := [message]]);
    OnlyDelivery(Receive(a, Receiver(c, s, [], true), frames).delivered, id, message);
  }

  /** One successful send, received from any point at which no message is incomplete. */
  lemma OneSendSettles(a: Aead, c: Key, s: Rx, r: Receiver, d: seq<(nat, bytes)>, send: Send)
    requires a.Lawful() && Settled(r, c, s, d) && send.id in s.Handlers() && |send.message| <= CAP && Sending(a, c, send).result.Ok?
    ensures Settled(Receive(a, r, Sending(a, c, send).frames), Sending(a, c, send).cipher, s, d + [(send.id, send.message)])
  {
    var start := Receiver(c, r.rx, [], true);
    FirstSendSettles(a, c, r.rx, send);
    EarlierDeliveries(a, start, d, Sending(a, c, send).frames);
    assert d + start.delivered == d;
    assert r == start.(delivered := d);
  }

  lemma SendAllSnoc(a: Aead, c: Key, sends: seq<Send>)
    requires sends != [] && SendAll(a, c, sends).ok
    ensures var n := |sends| - 1;
            var sofar := SendAll(a, c, sends[..n]);
            var t := Sending(a, sofar.cipher, sends[n]);
            && sofar.ok && t.result.Ok?
            && SendAll(a, c, sends) == Emitted(t.cipher, sofar.frames + t.frames, true)
            && Pairs(sends) == Pairs(sends[..n]) + [(sends[n].id, sends[n].message)]
  {
  }

  /**
   * What the channel's senders emit: any successful SendChannelFrames calls, one after another under the
   * send permit, are received as exactly those messages, in exactly that order across all ids; the ciphers
   * end in step and no buffer remains.
   */
  lemma {:induction false} SerialSendsDelivered(a: Aead, c: Key, s: Rx, sends: seq<Send>)
    requires a.Lawful() && Inv(s) && s.bufs == map[] && SendAll(a, c, sends).ok
    requires forall i :: 0 <= i < |sends| ==> sends[i].id in s.Handlers() && |sends[i].message| <= CAP
    ensures var e := SendAll(a, c, sends); Settled(Receive(a, Receiver(c, s, [], true), e.frames), e.cipher, s, Pairs(sends))
    decreases |sends|
  {
    if sends != [] {
      var n, start := |sends| - 1, Receiver(c, s, [], true);
      SendAllSnoc(a, c, sends);
      SerialSendsDelivered(a, c, s, sends[..n]);
      var sofar := SendAll(a, c, sends[..n]);
      ReceiveAppend(a, start, sofar.frames, Sending(a, sofar.cipher, sends[n]).frames);
      OneSendSettles(a, sofar.cipher, s, Receive(a, start, sofar.frames), Pairs(sends[..n]), sends[n]);
    }
  }

  /**
   * Registration opens the way: on any channel with no message incomplete, register a request with a handler of either
   * kind, and a reply within the cap, sent on the id it was given, is delivered whole.
   */
  lemma RegisteredReplyArrives(a: Aead, c: Key, s: Rx, id: nat, response: bool, stream: bool, reply: Send)
    requires a.Lawful() && Inv(s) && s.bufs == map[] && Enabled(s, DoRegister(id, response, stream)) && (response || stream)
    requires reply.id == id && |reply.message| <= CAP && Sending(a, c, reply).result.Ok?
    ensures var t := Next(s, DoRegister(id, response, stream)).0;
            Settled(Receive(a, Receiver(c, t, [], true), Sending(a, c, reply).frames), Sending(a, c, reply).cipher, t, [(id, reply.message)])
  {
    NextKeepsInv(s, DoRegister(id, response, stream));
    FirstSendSettles(a, c, Next(s, DoRegister(id, response, stream)).0, reply);
  }
}

/**
 * The chunked wire format of backend/channelwire: how one plaintext becomes encrypted frames, how
 * a receiver reads the MORE flag, and the buffer it accumulates chunks in.
 */
module ChannelWire {
  import opened Bytes
  import opened Cipher

  const MAX_PLAINTEXT_PER_CHUNK: nat := 65535 - 16
  const MAX_INNER_PAYLOAD_BYTES: nat := 16 * 1024 * 1024
  const DEFAULT_MAX_MESSAGE_SIZE: nat := MAX_INNER_PAYLOAD_BYTES + 1024 * 1024
  const DEFAULT_MAX_INCOMPLETE_CHUNKED: nat := 4

  // ----- Flags -----

  const FLAGS_UNSPECIFIED: int := 0
  const FLAGS_MORE: int := 1
  const FLAGS_CLOSE: int := 2

  /** proto3 enums are open, so any integer may arrive; all but the three named ones are dropped. */
  function ChunkContinuation(flags: int): (r: (bool, bool))
    ensures r.1 <==> flags in {FLAGS_UNSPECIFIED, FLAGS_MORE, FLAGS_CLOSE}
    ensures r.0 ==> r.1 && flags != FLAGS_UNSPECIFIED && flags != FLAGS_CLOSE
    ensures flags == FLAGS_MORE ==> r.0
  {
    if flags == FLAGS_MORE then (true, true)
    else if flags == FLAGS_UNSPECIFIED || flags == FLAGS_CLOSE then (false, true)
    else (false, false)
  }

  // ----- Splitting a message -----

  datatype Chunk = Chunk(more: bool, data: bytes)

  function FlagsOf(c: Chunk): (flags: int)
    ensures ChunkContinuation(flags) == (c.more, true)
  {
    if c.more then FLAGS_MORE else FLAGS_UNSPECIFIED
  }

  function SplitMessage(plaintext: bytes): (r: seq<Chunk>)
    ensures |r| >= 1
    decreases |plaintext|
  {
    if |plaintext| <= MAX_PLAINTEXT_PER_CHUNK then [Chunk(false, plaintext)]
    else [Chunk(true, plaintext[..MAX_PLAINTEXT_PER_CHUNK])] + SplitMessage(plaintext[MAX_PLAINTEXT_PER_CHUNK..])
  }

  function DataOf(chunks: seq<Chunk>): (r: seq<bytes>)
    ensures |r| == |chunks|
    ensures forall i :: 0 <= i < |r| ==> r[i] == chunks[i].data
  {
    seq(|chunks|, i requires 0 <= i < |chunks| => chunks[i].data)
  }

  /** A chunk sequence that spells one message: MORE on every chunk but the last. */
  predicate IsMessage(chunks: seq<Chunk>)
  {
    && |chunks| >= 1
    && !chunks[|chunks| - 1].more
    && forall i :: 0 <= i < |chunks| - 1 ==> chunks[i].more
  }

  /** SplitMessage loses nothing, marks exactly the last chunk final, and fits every chunk in a Noise message. */
  lemma {:induction false} SplitMessageSpells(plaintext: bytes)
    ensures var chunks := SplitMessage(plaintext);
            && IsMessage(chunks)
            && Concat(DataOf(chunks)) == plaintext
            && (forall i :: 0 <= i < |chunks| ==> |chunks[i].data| <= MAX_PLAINTEXT_PER_CHUNK)
            && (forall i :: 0 <= i < |chunks| - 1 ==> |chunks[i].data| == MAX_PLAINTEXT_PER_CHUNK)
            && (plaintext != [] ==> chunks[|chunks| - 1].data != [])
    decreases |plaintext|
  {
    var chunks := SplitMessage(plaintext);
    if |plaintext| <= MAX_PLAINTEXT_PER_CHUNK {
      assert DataOf(chunks) == [plaintext];
      ConcatOne(plaintext);
    } else {
      var head, tail := plaintext[..MAX_PLAINTEXT_PER_CHUNK], plaintext[MAX_PLAINTEXT_PER_CHUNK..];
      SplitMessageSpells(tail);
      FullChunkFirst(head, SplitMessage(tail));
      assert head + tail == plaintext;
    }
  }

  /** A full MORE chunk in front of a message's chunks makes a longer message. */
  lemma FullChunkFirst(head: bytes, rest: seq<Chunk>)
    requires |head| == MAX_PLAINTEXT_PER_CHUNK && IsMessage(rest)
    requires forall i :: 0 <= i < |rest| ==> |rest[i].data| <= MAX_PLAINTEXT_PER_CHUNK
    requires forall i :: 0 <= i < |rest| - 1 ==> |rest[i].data| == MAX_PLAINTEXT_PER_CHUNK
    ensures var chunks := [Chunk(true, head)] + rest;
            && IsMessage(chunks) && Concat(DataOf(chunks)) == head + Concat(DataOf(rest))
            && (forall i :: 0 <= i < |chunks| ==> |chunks[i].data| <= MAX_PLAINTEXT_PER_CHUNK)
            && (forall i :: 0 <= i < |chunks| - 1 ==> |chunks[i].data| == MAX_PLAINTEXT_PER_CHUNK)
            && chunks[|chunks| - 1] == rest[|rest| - 1]
  {
    assert DataOf([Chunk(true, head)] + rest) == [head] + DataOf(rest);
    ConcatCons(head, DataOf(rest));
  }

  // ----- Sending -----

  datatype Frame = Frame(id: nat, flags: int, ciphertext: bytes)

  datatype SendFault = EncryptFailed | WriteFailed

  datatype Sent = Sent(cipher: Key, frames: seq<Frame>, result: Result<(), SendFault>)

  /** Sending `chunks` one by one, the first being attempt number k; `writeFails` are the writes that fail. */
  function Transmit(a: Aead, c: Key, id: nat, chunks: seq<Chunk>, k: nat, writeFails: set<nat>): (r: Sent)
    decreases |chunks|
  {
    if chunks == [] then Sent(c, [], Ok(()))
    else
      var (next, out) := Encrypt(a, c, chunks[0].data);
      if out.Err? then Sent(next, [], Err(EncryptFailed))
      else if k in writeFails then Sent(next, [], Err(WriteFailed))
      else
        var rest := Transmit(a, next, id, chunks[1..], k + 1, writeFails);
        rest.(frames := [Frame(id, FlagsOf(chunks[0]), out.value)] + rest.frames)
  }

  lemma DecryptUndoesEncrypt(a: Aead, c: Key, p: bytes)
    requires a.Lawful() && Encrypt(a, c, p).1.Ok?
    ensures Decrypt(a, c, Encrypt(a, c, p).1.value) == (Encrypt(a, c, p).0, Ok(p))
  {
  }

  /** What one frame on the wire must be: the chunk's flag, and its data under the counter's value. */
  predicate Carries(a: Aead, c: Key, id: nat, f: Frame, chunk: Chunk)
  {
    && f.id == id
    && ChunkContinuation(f.flags) == (chunk.more, true)
    && Decrypt(a, c, f.ciphertext) == (c.(n := c.n + 1), Ok(chunk.data))
  }

  /**
   * A transmission succeeds exactly when no write fails and the counter does not run out, and then
   * every chunk is on the wire; a failed one stops after a proper prefix of the chunks. Each frame
   * that went out carries its chunk's flag and opens, at its own counter value, to its chunk's data.
   */
  lemma {:induction false} TransmitOutcome(a: Aead, c: Key, id: nat, chunks: seq<Chunk>, k: nat, writeFails: set<nat>)
    requires a.Lawful()
    requires forall i :: 0 <= i < |chunks| ==> |chunks[i].data| <= MAX_PLAINTEXT_SIZE
    ensures var s := Transmit(a, c, id, chunks, k, writeFails);
            && |s.frames| <= |chunks|
            && (s.result.Ok? ==> |s.frames| == |chunks| && s.cipher == c.(n := c.n + |chunks|))
            && (s.result.Err? ==> |s.frames| < |chunks|)
            && (s.result.Ok? <==> (forall i :: k <= i < k + |chunks| ==> i !in writeFails) && (chunks == [] || c.n + |chunks| <= UINT32_SPAN))
            && forall i :: 0 <= i < |s.frames| ==> Carries(a, c.(n := c.n + i), id, s.frames[i], chunks[i])
    decreases |chunks|
  {
    if chunks != [] {
      var (next, out) := Encrypt(a, c, chunks[0].data);
      if out.Ok? && k !in writeFails {
        DecryptUndoesEncrypt(a, c, chunks[0].data);
        var rest := Transmit(a, next, id, chunks[1..], k + 1, writeFails);
        TransmitOutcome(a, next, id, chunks[1..], k + 1, writeFails);
        var s := Transmit(a, c, id, chunks, k, writeFails);
        forall i | 0 <= i < |s.frames| ensures Carries(a, c.(n := c.n + i), id, s.frames[i], chunks[i]) {
          if i > 0 {
            assert s.frames[i] == rest.frames[i - 1] && chunks[i] == chunks[1..][i - 1];
            assert next.(n := next.n + (i - 1)) == c.(n := c.n + i);
          }
        }
      }
    }
  }

  /** What is left to send when the loop stands at `offset`. */
  ghost function Left(a: Aead, c: Key, id: nat, plaintext: bytes, offset: nat, k: nat, writeFails: set<nat>): Sent
    requires offset <= |plaintext|
  {
    Transmit(a, c, id, SplitMessage(plaintext[offset..]), k, writeFails)
  }

  /** One turn of the sending loop peels exactly one chunk off what is left. */
  lemma LeftPeels(a: Aead, c: Key, id: nat, plaintext: bytes, offset: nat, k: nat, writeFails: set<nat>)
    requires offset <= |plaintext|
    ensures var more := offset + MAX_PLAINTEXT_PER_CHUNK < |plaintext|;
            var end := if more then offset + MAX_PLAINTEXT_PER_CHUNK else |plaintext|;
            var (next, out) := Encrypt(a, c, plaintext[offset..end]);
            var s := Left(a, c, id, plaintext, offset, k, writeFails);
            if out.Err? then s == Sent(next, [], Err(EncryptFailed))
            else if k in writeFails then s == Sent(next, [], Err(WriteFailed))
            else
              var frame := Frame(id, if more then FLAGS_MORE else FLAGS_UNSPECIFIED, out.value);
              if more then
                var rest := Left(a, next, id, plaintext, end, k + 1, writeFails);
                s == Sent(rest.cipher, [frame] + rest.frames, rest.result)
              else s == Sent(next, [frame], Ok(()))
  {
    var more := offset + MAX_PLAINTEXT_PER_CHUNK < |plaintext|;
    var end := if more then offset + MAX_PLAINTEXT_PER_CHUNK else |plaintext|;
    var left := SplitMessage(plaintext[offset..]);
    assert plaintext[offset..][..end - offset] == plaintext[offset..end];
    assert left[0] == Chunk(more, plaintext[offset..end]);
    if more {
      assert plaintext[offset..][MAX_PLAINTEXT_PER_CHUNK..] == plaintext[end..];
      assert left[1..] == SplitMessage(plaintext[end..]);
    } else {
      assert left[1..] == [];
      var (next, out) := Encrypt(a, c, left[0].data);
      if out.Ok? && k !in writeFails {
        var rest := Transmit(a, next, id, left[1..], k + 1, writeFails);
        var frame := Frame(id, FlagsOf(left[0]), out.value);
        assert rest == Sent(next, [], Ok(()));
        assert [frame] + rest.frames == [frame];
      }
    }
  }

  /** One encrypting sender and the frames it has put on the wire so far. */
  class FrameSender {
    const cipher: CipherState
    var wire: seq<Frame>

    constructor (cipher: CipherState)
      ensures this.cipher == cipher && wire == []
    {
      this.cipher, this.wire := cipher, [];
    }

    /** SendChannelFrames: the loop over `offset` transmits exactly the chunks of SplitMessage. */
    method SendChannelFrames(id: nat, plaintext: bytes, writeFails: set<nat>) returns (r: Result<(), SendFault>)
      modifies this, cipher
      ensures var s := Transmit(cipher.aead, old(cipher.State()), id, SplitMessage(plaintext), 0, writeFails);
              cipher.State() == s.cipher && wire == old(wire) + s.frames && r == s.result
    {
      ghost var all := Left(cipher.aead, cipher.State(), id, plaintext, 0, 0, writeFails);
      var offset, attempt := 0, 0;
      assert plaintext[0..] == plaintext;
      while true
        invariant 0 <= offset <= |plaintext|
        invariant var rest := Left(cipher.aead, cipher.State(), id, plaintext, offset, attempt, writeFails);
                  all.cipher == rest.cipher && all.result == rest.result && old(wire) + all.frames == wire + rest.frames
        decreases |plaintext| - offset
      {
        var end, more := offset + MAX_PLAINTEXT_PER_CHUNK, true;
        if end >= |plaintext| {
          end, more := |plaintext|, false;
        }
        LeftPeels(cipher.aead, cipher.State(), id, plaintext, offset, attempt, writeFails);
        var ciphertext := cipher.EncryptNext(plaintext[offset..end]);
        if ciphertext.Err? {
          return Err(EncryptFailed);
        }
        if attempt in writeFails {
          return Err(WriteFailed);
        }
        wire := wire + [Frame(id, if more then FLAGS_MORE else FLAGS_UNSPECIFIED, ciphertext.value)];
        offset, attempt := end, attempt + 1;
        if !more {
          return Ok(());
        }
      }
    }
  }

  // ----- The receive buffer -----

  datatype Buf = Buf(parts: seq<bytes>, total: nat, poisoned: bool)

  const EMPTY_BUF: Buf := Buf([], 0, false)
  const TOMBSTONE: Buf := Buf([], 0, true)

  function Extend(b: Buf, chunk: bytes): (r: Buf)
  {
    b.(parts := b.parts + [chunk], total := b.total + |chunk|)
  }

  class ChunkBuffer {
    var parts: seq<bytes>
    var total: nat
    var poisoned: bool
    ghost const owner: nat  // the correlation id the buffer was started for

    constructor (ghost owner: nat)
      ensures Value() == EMPTY_BUF && this.owner == owner
    {
      parts, total, poisoned := [], 0, false;
      this.owner := owner;
    }

    function Value(): Buf
      reads this
    {
      Buf(parts, total, poisoned)
    }

    method Poison()
      modifies this
      ensures Value() == TOMBSTONE
    {
      poisoned := true;
      parts := [];
      total := 0;
    }

    method AppendChunk(chunk: bytes, limit: nat) returns (newTotal: nat, breached: bool)
      modifies this
      ensures Value() == Extend(old(Value()), chunk)
      ensures newTotal == total && breached == (newTotal > limit)
    {
      parts := parts + [chunk];
      total := total + |chunk|;
      newTotal, breached := total, total > limit;
    }

    method Join() returns (out: bytes)
      ensures out == Concat(parts)
    {
      out := [];
      for i := 0 to |parts|
        invariant out == Concat(parts[..i])
      {
        assert parts[..i + 1] == parts[..i] + [parts[i]];
        ConcatSnoc(parts[..i], parts[i]);
        out := out + parts[i];
      }
      assert parts[..|parts|] == parts;
    }
  }

  function LiveIds(bufs: map<nat, Buf>): (r: set<nat>)
  {
    set id | id in bufs && !bufs[id].poisoned
  }

  ghost function Accumulating(buffers: map<nat, ChunkBuffer>): set<nat>
    reads buffers.Values
  {
    set id | id in buffers && !buffers[id].poisoned
  }

  /** CountByState: the loop's two tallies are the sizes of the two halves of the map. */
  method CountByState(buffers: map<nat, ChunkBuffer>) returns (live: nat, tombstones: nat)
    ensures live == |Accumulating(buffers)|
    ensures live + tombstones == |buffers|
  {
    live, tombstones := 0, 0;
    var rest := buffers.Keys;
    ghost var seen: set<nat> := {};
    ghost var accumulating := Accumulating(buffers);
    while rest != {}
      invariant rest !! seen && rest + seen == buffers.Keys
      invariant live == |accumulating * seen|
      invariant live + tombstones == |seen|
      decreases |rest|
    {
      var id :| id in rest;
      if buffers[id].poisoned {
        tombstones := tombstones + 1;
        assert accumulating * (seen + {id}) == accumulating * seen;
      } else {
        live := live + 1;
        assert accumulating * (seen + {id}) == accumulating * seen + {id};
      }
      rest, seen := rest - {id}, seen + {id};
    }
    assert seen == buffers.Keys;
    assert accumulating * seen == accumulating;
  }
}

/**
 * The post-handshake cipher of backend/internal/noise/noise.go: a key, a 64-bit counter that is
 * truncated to 32 bits for the AEAD nonce, and a hard limit that refuses before the truncation
 * could repeat a nonce.
 */
module Cipher {
  import opened Bytes

  const HARD_NONCE_LIMIT: nat := 0xFFFF_FFFF
  const UINT32_SPAN: nat := 0x1_0000_0000
  const MAX_PLAINTEXT_SIZE: nat := 65535 - 16
  const AEAD_OVERHEAD: nat := 16

  /**
   * aeadEncrypt and aeadDecrypt: an AEAD taking (key, 32-bit counter, associated data, text), known
   * only by its correctness laws; its strength is not modelled.
   */
  datatype Aead = Aead(seal: (bytes, nat, bytes, bytes) -> bytes,
                       open: (bytes, nat, bytes, bytes) -> Option<bytes>)
  {
    ghost predicate Lawful()
    {
      && (forall k, n, ad, p :: open(k, n, ad, seal(k, n, ad, p)) == Some(p))
      && (forall k, n, ad, p :: |seal(k, n, ad, p)| == |p| + AEAD_OVERHEAD)
    }
  }

  /** ChaCha20-Poly1305 itself, which takes a 12-byte nonce. */
  datatype ChaChaPoly = ChaChaPoly(seal: (bytes, bytes, bytes, bytes) -> bytes,
                                   open: (bytes, bytes, bytes, bytes) -> Option<bytes>)
  {
    ghost predicate Lawful()
    {
      && (forall k, n, ad, p :: open(k, n, ad, seal(k, n, ad, p)) == Some(p))
      && (forall k, n, ad, p :: |seal(k, n, ad, p)| == |p| + AEAD_OVERHEAD)
    }

    /** aeadEncrypt and aeadDecrypt encode the counter the same way before calling the cipher. */
    function WithCounter(): Aead
    {
      Aead((k, n: nat, ad, p) => seal(k, NonceBytes(n), ad, p), (k, n: nat, ad, c) => open(k, NonceBytes(n), ad, c))
    }
  }

  lemma CounterKeepsLaws(c: ChaChaPoly)
    requires c.Lawful()
    ensures c.WithCounter().Lawful()
  {
    var a := c.WithCounter();
    forall k, n: nat, ad, p
      ensures a.open(k, n, ad, a.seal(k, n, ad, p)) == Some(p)
      ensures |a.seal(k, n, ad, p)| == |p| + AEAD_OVERHEAD
    {
      assert a.seal(k, n, ad, p) == c.seal(k, NonceBytes(n), ad, p);
    }
  }

  /** The low `k` bytes of n, least significant first. */
  function LittleEndian(n: nat, k: nat): (r: bytes)
    ensures |r| == k
    decreases k
  {
    if k == 0 then [] else [(n % 256) as byte] + LittleEndian(n / 256, k - 1)
  }

  /** The 12-byte ChaChaPoly nonce: four zero bytes, the 32-bit counter little-endian, four zero bytes. */
  function NonceBytes(nonce: nat): (r: bytes)
    ensures |r| == 12
  {
    Zeros(4) + LittleEndian(nonce, 4) + Zeros(4)
  }

  /** Go's uint32(n) conversion of a 64-bit counter. */
  function Truncate32(n: nat): (r: nat)
    ensures r < UINT32_SPAN
  {
    n % UINT32_SPAN
  }

  function Pow256(k: nat): nat
  {
    if k == 0 then 1 else 256 * Pow256(k - 1)
  }

  lemma {:induction false} LittleEndianInjective(a: nat, b: nat, k: nat)
    requires a < Pow256(k) && b < Pow256(k)
    requires LittleEndian(a, k) == LittleEndian(b, k)
    ensures a == b
    decreases k
  {
    if k > 0 {
      var x, y := LittleEndian(a, k), LittleEndian(b, k);
      assert x[0] == y[0] && x[1..] == y[1..];
      LittleEndianInjective(a / 256, b / 256, k - 1);
    }
  }

  lemma NonceBytesInjective(a: nat, b: nat)
    requires a < UINT32_SPAN && b < UINT32_SPAN
    requires NonceBytes(a) == NonceBytes(b)
    ensures a == b
  {
    assert LittleEndian(a, 4) == NonceBytes(a)[4..8] == NonceBytes(b)[4..8] == LittleEndian(b, 4);
    assert Pow256(4) == UINT32_SPAN by {
      assert Pow256(2) == 65536;
    }
    LittleEndianInjective(a, b, 4);
  }

  datatype Fault = PlaintextTooLarge | NonceExhausted | NotAuthentic

  datatype Key = Key(k: bytes, n: nat)

  function Encrypt(a: Aead, c: Key, plaintext: bytes): (Key, Result<bytes, Fault>)
  {
    if |plaintext| > MAX_PLAINTEXT_SIZE then (c, Err(PlaintextTooLarge))
    else if c.n > HARD_NONCE_LIMIT then (c, Err(NonceExhausted))
    else (c.(n := c.n + 1), Ok(a.seal(c.k, Truncate32(c.n), [], plaintext)))
  }

  function Decrypt(a: Aead, c: Key, ciphertext: bytes): (Key, Result<bytes, Fault>)
  {
    if c.n > HARD_NONCE_LIMIT then (c, Err(NonceExhausted))
    else match a.open(c.k, Truncate32(c.n), [], ciphertext)
      case None => (c, Err(NotAuthentic))
      case Some(p) => (c.(n := c.n + 1), Ok(p))
  }

  /** CipherState: the key and counter that Encrypt and Decrypt update in place. */
  class CipherState {
    const aead: Aead
    const k: bytes
    var n: nat

    constructor (aead: Aead, k: bytes)
      ensures this.aead == aead && State() == Key(k, 0)
    {
      this.aead, this.k, this.n := aead, k, 0;
    }

    function State(): Key
      reads this
    {
      Key(k, n)
    }

    method EncryptNext(plaintext: bytes) returns (r: Result<bytes, Fault>)
      modifies this
      ensures (State(), r) == Encrypt(aead, old(State()), plaintext)
    {
      if |plaintext| > MAX_PLAINTEXT_SIZE {
        return Err(PlaintextTooLarge);
      }
      if n > HARD_NONCE_LIMIT {
        return Err(NonceExhausted);
      }
      var ct := aead.seal(k, Truncate32(n), [], plaintext);
      n := n + 1;
      return Ok(ct);
    }

    method DecryptNext(ciphertext: bytes) returns (r: Result<bytes, Fault>)
      modifies this
      ensures (State(), r) == Decrypt(aead, old(State()), ciphertext)
    {
      if n > HARD_NONCE_LIMIT {
        return Err(NonceExhausted);
      }
      match aead.open(k, Truncate32(n), [], ciphertext) {
        case None => return Err(NotAuthentic);
        case Some(p) =>
          n := n + 1;
          return Ok(p);
      }
    }
  }

  // ----- Nonce discipline over whole runs -----

  /** The cipher after asking it to encrypt every plaintext in turn, whatever it answers. */
  function AfterEncrypting(a: Aead, c: Key, plaintexts: seq<bytes>): (r: Key)
    decreases |plaintexts|
  {
    if plaintexts == [] then c
    else AfterEncrypting(a, Encrypt(a, c, plaintexts[0]).0, plaintexts[1..])
  }

  /** The truncated counters handed to the AEAD along that run, refused requests contributing none. */
  function NoncesUsed(a: Aead, c: Key, plaintexts: seq<bytes>): (r: seq<nat>)
    ensures forall i :: 0 <= i < |r| ==> r[i] < UINT32_SPAN
    decreases |plaintexts|
  {
    if plaintexts == [] then []
    else
      var (next, out) := Encrypt(a, c, plaintexts[0]);
      (if out.Ok? then [Truncate32(c.n)] else []) + NoncesUsed(a, next, plaintexts[1..])
  }

  /** The i-th nonce of a run is counter c.n + i, never truncated. */
  lemma {:induction false} NoncesAreConsecutive(a: Aead, c: Key, plaintexts: seq<bytes>)
    ensures var used := NoncesUsed(a, c, plaintexts);
            && AfterEncrypting(a, c, plaintexts) == c.(n := c.n + |used|)
            && (used != [] ==> c.n + |used| <= UINT32_SPAN)
            && forall i :: 0 <= i < |used| ==> used[i] == c.n + i
    decreases |plaintexts|
  {
    if plaintexts != [] {
      var (next, out) := Encrypt(a, c, plaintexts[0]);
      NoncesAreConsecutive(a, next, plaintexts[1..]);
    }
  }

  /** No run of one cipher ever feeds the AEAD the same 12-byte nonce twice, despite the truncation. */
  lemma NonceNeverReused(a: Aead, c: Key, plaintexts: seq<bytes>)
    ensures var used := NoncesUsed(a, c, plaintexts);
            && |used| <= UINT32_SPAN
            && forall i, j :: 0 <= i < j < |used| ==> NonceBytes(used[i]) != NonceBytes(used[j])
  {
    var used := NoncesUsed(a, c, plaintexts);
    NoncesAreConsecutive(a, c, plaintexts);
    forall i, j | 0 <= i < j < |used| ensures NonceBytes(used[i]) != NonceBytes(used[j]) {
      if NonceBytes(used[i]) == NonceBytes(used[j]) {
        NonceBytesInjective(used[i], used[j]);
      }
    }
  }

  /**
   * A fresh cipher that has used 2^32 nonces refuses every later request, on every continuation,
   * and one that has used fewer still accepts any plaintext of legal size.
   */
  lemma ExhaustedExactlyAfterSpan(a: Aead, k: bytes, plaintexts: seq<bytes>, later: bytes)
    ensures var c := AfterEncrypting(a, Key(k, 0), plaintexts);
            var used := |NoncesUsed(a, Key(k, 0), plaintexts)|;
            && c.n == used
            && (Encrypt(a, c, later).1.Ok? <==> used < UINT32_SPAN && |later| <= MAX_PLAINTEXT_SIZE)
            && (used == UINT32_SPAN ==> Encrypt(a, c, later).0 == c && Decrypt(a, c, later) == (c, Err(NonceExhausted)))
  {
    NoncesAreConsecutive(a, Key(k, 0), plaintexts);
  }

  /** A request is refused exactly when the plaintext is too large or the counter is spent, and a refusal leaves no trace. */
  lemma RefusedWithoutTrace(a: Aead, c: Key, p: bytes)
    ensures Encrypt(a, c, p).1.Err? <==> |p| > MAX_PLAINTEXT_SIZE || c.n >= UINT32_SPAN
    ensures Encrypt(a, c, p).0 == c <==> Encrypt(a, c, p).1.Err?
    ensures Decrypt(a, c, p).1.Ok? <==> c.n < UINT32_SPAN && a.open(c.k, c.n, [], p).Some?
    ensures Decrypt(a, c, p).0 == c <==> Decrypt(a, c, p).1.Err?
  {
  }

  // ----- Lockstep of a sending and a receiving cipher -----

  /** Ciphertexts of the whole run, or the first fault. */
  function EncryptAll(a: Aead, c: Key, plaintexts: seq<bytes>): (r: Result<seq<bytes>, Fault>)
    decreases |plaintexts|
  {
    if plaintexts == [] then Ok([])
    else
      var (next, out) := Encrypt(a, c, plaintexts[0]);
      if out.Err? then Err(out.error)
      else match EncryptAll(a, next, plaintexts[1..])
        case Err(e) => Err(e)
        case Ok(rest) => Ok([out.value] + rest)
  }

  /**
   * What a receiver extracts from a stream in which it is offered ciphertexts one by one and
   * skips those that do not authenticate.
   */
  function Accepted(a: Aead, c: Key, stream: seq<bytes>): (r: (Key, seq<bytes>))
    decreases |stream|
  {
    if stream == [] then (c, [])
    else
      var (next, out) := Decrypt(a, c, stream[0]);
      var (last, rest) := Accepted(a, next, stream[1..]);
      (last, (if out.Ok? then [out.value] else []) + rest)
  }

  /** `stream` is `genuine` with extra ciphertexts mixed in, none of which opens where it arrives. */
  ghost predicate MixedWithRejects(a: Aead, c: Key, genuine: seq<bytes>, stream: seq<bytes>)
    decreases |stream|
  {
    if stream == [] then genuine == []
    else
      || (genuine != [] && stream[0] == genuine[0]
          && MixedWithRejects(a, Decrypt(a, c, stream[0]).0, genuine[1..], stream[1..]))
      || (Decrypt(a, c, stream[0]).1.Err? && MixedWithRejects(a, c, genuine, stream[1..]))
  }

  /**
   * Lockstep: two ciphers with equal key and counter stay equal over any run, the receiver gets
   * back exactly the plaintexts in order, and ciphertexts it rejects in between cost nothing.
   */
  lemma {:induction false} LockstepDelivery(a: Aead, c: Key, plaintexts: seq<bytes>, stream: seq<bytes>)
    requires a.Lawful()
    requires EncryptAll(a, c, plaintexts).Ok?
    requires MixedWithRejects(a, c, EncryptAll(a, c, plaintexts).value, stream)
    ensures Accepted(a, c, stream) == (AfterEncrypting(a, c, plaintexts), plaintexts)
    decreases |stream|
  {
    var cts := EncryptAll(a, c, plaintexts).value;
    if stream != [] {
      var (next, out) := Decrypt(a, c, stream[0]);
      if cts != [] && stream[0] == cts[0] && MixedWithRejects(a, next, cts[1..], stream[1..]) {
        assert EncryptAll(a, Encrypt(a, c, plaintexts[0]).0, plaintexts[1..]).value == cts[1..];
        LockstepDelivery(a, next, plaintexts[1..], stream[1..]);
        assert plaintexts == [plaintexts[0]] + plaintexts[1..];
      } else {
        LockstepDelivery(a, c, plaintexts, stream[1..]);
        assert [] + Accepted(a, c, stream[1..]).1 == Accepted(a, c, stream[1..]).1;
      }
    }
  }

  /** However long the stream, a receiver accepts no more than its counter has left, and its counter tells how many. */
  lemma {:induction false} AcceptsAtMostSpan(a: Aead, c: Key, stream: seq<bytes>)
    ensures var (last, got) := Accepted(a, c, stream);
            last == c.(n := c.n + |got|) && (got != [] ==> last.n <= UINT32_SPAN)
    decreases |stream|
  {
    if stream != [] {
      AcceptsAtMostSpan(a, Decrypt(a, c, stream[0]).0, stream[1..]);
    }
  }
}

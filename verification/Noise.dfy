/**
 * The Noise_NK handshakes of backend/internal/noise/noise.go, hybrid (X25519 + ML-KEM + SLH-DSA)
 * and classical, over primitives known only by their correctness laws.
 */
module Noise {
  import opened Bytes
  import opened Cipher

  const DH_LEN: nat := 32
  const KEY_LEN: nat := 32
  const HASH_LEN: nat := 64
  const NOISE_MSG_LEN: nat := DH_LEN + AEAD_OVERHEAD
  const MLKEM_CIPHERTEXT_SIZE: nat := 1568
  const SLHDSA_SIGNATURE_SIZE: nat := 49856

  /** "Noise_NK_25519_ChaChaPoly_BLAKE2b", 33 bytes, padded with zeros to the hash length. */
  const PROTOCOL_NAME: bytes :=
    [78, 111, 105, 115, 101, 95, 78, 75, 95, 50, 53, 53, 49, 57, 95, 67, 104, 97, 67, 104, 97,
     80, 111, 108, 121, 95, 66, 76, 65, 75, 69, 50, 98] + Zeros(HASH_LEN - 33)

  datatype Fault = WrongSize | BadKey | BadPayload | BadSignature

  datatype Suite = Suite(
    aead: Aead,
    hash: bytes -> bytes,
    hmac: (bytes, bytes) -> bytes,
    dhPublic: bytes -> bytes,
    dh: (bytes, bytes) -> Option<bytes>,
    kemPublic: bytes -> bytes,
    encap: (bytes, bytes) -> Option<(bytes, bytes)>,
    decap: (bytes, bytes) -> Option<bytes>,
    sigPublic: bytes -> bytes,
    sign: (bytes, bytes, bytes) -> bytes,
    verify: (bytes, bytes, bytes) -> bool)
  {
    ghost predicate Lawful()
    {
      && aead.Lawful()
      && (forall m :: |hash(m)| == HASH_LEN)
      && (forall k, m :: |hmac(k, m)| == HASH_LEN)
      && (forall x :: |dhPublic(x)| == DH_LEN)
      && (forall x, y :: dh(x, dhPublic(y)).Some? && dh(x, dhPublic(y)) == dh(y, dhPublic(x)))
      && (forall d, coins :: KemRoundTrip(d, coins))
      && (forall s, m, coins :: |sign(s, m, coins)| == SLHDSA_SIGNATURE_SIZE && verify(sigPublic(s), m, sign(s, m, coins)))
    }

    ghost predicate KemRoundTrip(d: bytes, coins: bytes)
    {
      var e := encap(kemPublic(d), coins);
      e.Some? && |e.value.1| == MLKEM_CIPHERTEXT_SIZE && decap(d, e.value.1) == Some(e.value.0)
    }

    /** noiseHKDF: extract, then two expansions. */
    function Hkdf(chainingKey: bytes, ikm: bytes): (bytes, bytes)
    {
      var temp := hmac(chainingKey, ikm);
      var out1 := hmac(temp, [1]);
      (out1, hmac(temp, out1 + [2]))
    }

    /** computeTranscript: what the responder signs. */
    function Transcript(h: bytes, ct: bytes, secret: bytes): bytes
    {
      hash(h + ct + secret)
    }
  }

  /** The laws are consistent: some suite satisfies all of them. */
  lemma LawfulSuiteExists() returns (s: Suite)
    ensures s.Lawful()
  {
    s := Suite(
      Aead((k, n, ad, p) => p + Zeros(AEAD_OVERHEAD),
           (k, n, ad, c) => if |c| >= AEAD_OVERHEAD then Some(c[..|c| - AEAD_OVERHEAD]) else None),
      m => Zeros(HASH_LEN), (k, m) => Zeros(HASH_LEN),
      x => Zeros(DH_LEN), (x, p) => Some([]),
      d => [], (e, coins) => Some(([], Zeros(MLKEM_CIPHERTEXT_SIZE))), (d, c) => Some([]),
      k => [], (k, m, coins) => Zeros(SLHDSA_SIGNATURE_SIZE), (k, m, sig) => true);
    forall k, n, ad, p ensures s.aead.open(k, n, ad, s.aead.seal(k, n, ad, p)) == Some(p) {
      assert (p + Zeros(AEAD_OVERHEAD))[..|p|] == p;
    }
    forall d, coins ensures s.KemRoundTrip(d, coins) {
      assert s.encap(s.kemPublic(d), coins) == Some(([], Zeros(MLKEM_CIPHERTEXT_SIZE)));
    }
  }

  // ----- Symmetric state: specification -----

  datatype Sym = Sym(h: bytes, ck: bytes, hasK: bool, k: bytes, n: nat)

  const ZERO_KEY: bytes := Zeros(KEY_LEN)

  function NewSym(): Sym
  {
    Sym(PROTOCOL_NAME, PROTOCOL_NAME, false, ZERO_KEY, 0)
  }

  function FirstKey(long: bytes): bytes
  {
    if |long| >= KEY_LEN then long[..KEY_LEN] else long
  }

  function MixHash(su: Suite, s: Sym, data: bytes): Sym
  {
    s.(h := su.hash(s.h + data))
  }

  function MixKey(su: Suite, s: Sym, ikm: bytes): Sym
  {
    var (ck, temp) := su.Hkdf(s.ck, ikm);
    s.(ck := ck, k := FirstKey(temp), n := 0, hasK := true)
  }

  function BumpNonce(s: Sym): Sym
  {
    s.(n := Truncate32(s.n + 1))
  }

  function EncryptAndHash(su: Suite, s: Sym, plaintext: bytes): (Sym, bytes)
  {
    if !s.hasK then (MixHash(su, s, plaintext), plaintext)
    else
      var ct := su.aead.seal(s.k, Truncate32(s.n), s.h, plaintext);
      (BumpNonce(MixHash(su, s, ct)), ct)
  }

  function DecryptAndHash(su: Suite, s: Sym, ciphertext: bytes): (Sym, Option<bytes>)
  {
    if !s.hasK then (MixHash(su, s, ciphertext), Some(ciphertext))
    else match su.aead.open(s.k, Truncate32(s.n), s.h, ciphertext)
      case None => (s, None)
      case Some(p) => (BumpNonce(MixHash(su, s, ciphertext)), Some(p))
  }

  function Split(su: Suite, ck: bytes): (Key, Key)
  {
    var (t1, t2) := su.Hkdf(ck, []);
    (Key(FirstKey(t1), 0), Key(FirstKey(t2), 0))
  }

  function HybridSplit(su: Suite, ck: bytes, secret: bytes): (Key, Key)
  {
    Split(su, su.Hkdf(ck, secret).0)
  }

  /** Decrypting undoes encrypting and leaves both sides in the same symmetric state. */
  lemma HashRoundTrip(su: Suite, s: Sym, plaintext: bytes)
    requires su.Lawful()
    ensures var (s1, ct) := EncryptAndHash(su, s, plaintext);
            DecryptAndHash(su, s, ct) == (s1, Some(plaintext)) && (s.hasK ==> |ct| == |plaintext| + AEAD_OVERHEAD)
  {
  }

  // ----- Symmetric state: the object the handshakes update in place -----

  class SymmetricState {
    const su: Suite
    var h: bytes
    var ck: bytes
    var hasK: bool
    var k: bytes
    var n: nat

    constructor (su: Suite)
      ensures this.su == su && Value() == NewSym()
    {
      this.su := su;
      this.h, this.ck := PROTOCOL_NAME, PROTOCOL_NAME;
      this.hasK, this.k, this.n := false, ZERO_KEY, 0;
    }

    function Value(): Sym
      reads this
    {
      Sym(h, ck, hasK, k, n)
    }

    method Mix(data: bytes)
      modifies this
      ensures Value() == MixHash(su, old(Value()), data)
    {
      h := su.hash(h + data);
    }

    method MixSecret(ikm: bytes)
      modifies this
      ensures Value() == MixKey(su, old(Value()), ikm)
    {
      var (next, temp) := su.Hkdf(ck, ikm);
      ck := next;
      k := FirstKey(temp);
      n := 0;
      hasK := true;
    }

    method Seal(plaintext: bytes) returns (out: bytes)
      modifies this
      ensures (Value(), out) == EncryptAndHash(su, old(Value()), plaintext)
    {
      if !hasK {
        Mix(plaintext);
        return plaintext;
      }
      out := su.aead.seal(k, Truncate32(n), h, plaintext);
      Mix(out);
      n := Truncate32(n + 1);
    }

    method Open(ciphertext: bytes) returns (out: Option<bytes>)
      modifies this
      ensures (Value(), out) == DecryptAndHash(su, old(Value()), ciphertext)
    {
      if !hasK {
        Mix(ciphertext);
        return Some(ciphertext);
      }
      out := su.aead.open(k, Truncate32(n), h, ciphertext);
      if out.Some? {
        Mix(ciphertext);
        n := Truncate32(n + 1);
      }
    }

    /** clear: every secret the state held is overwritten. */
    method Clear()
      modifies this
      ensures Value() == Sym(Zeros(|old(h)|), Zeros(|old(ck)|), false, Zeros(|old(k)|), 0)
    {
      ck := Zeros(|ck|);
      k := Zeros(|k|);
      h := Zeros(|h|);
      hasK := false;
      n := 0;
    }
  }

  // ----- Handshakes: specification -----

  datatype Session = Session(send: Key, receive: Key)
  datatype Pending = Pending(ss: Sym, ePriv: bytes, secret: bytes, ct: bytes)
  datatype KeyPair = KeyPair(dhPriv: bytes, kemPriv: bytes, sigPriv: bytes)

  function Prologue(su: Suite, rs: bytes): Sym
  {
    MixHash(su, MixHash(su, NewSym(), []), rs)
  }

  /** Write one message of the pattern: own ephemeral, a DH, an empty payload. */
  function WriteTurn(su: Suite, s: Sym, ePriv: bytes, remote: bytes): Result<(Sym, bytes), Fault>
  {
    var ePub := su.dhPublic(ePriv);
    match su.dh(ePriv, remote)
    case None => Err(BadKey)
    case Some(shared) =>
      var (s1, ct) := EncryptAndHash(su, MixKey(su, MixHash(su, s, ePub), shared), []);
      Ok((s1, ePub + ct))
  }

  /** Read one message: the peer's ephemeral, the matching DH with `priv`, its payload. */
  function ReadTurn(su: Suite, s: Sym, priv: bytes, message: bytes): Result<Sym, Fault>
    requires |message| == NOISE_MSG_LEN
  {
    var re := message[..DH_LEN];
    match su.dh(priv, re)
    case None => Err(BadKey)
    case Some(shared) =>
      var (s1, payload) := DecryptAndHash(su, MixKey(su, MixHash(su, s, re), shared), message[DH_LEN..]);
      if payload.None? then Err(BadPayload) else Ok(s1)
  }

  function ClassicalInitiator1(su: Suite, rs: bytes, ePriv: bytes): Result<(Pending, bytes), Fault>
  {
    match WriteTurn(su, Prologue(su, rs), ePriv, rs)
    case Err(e) => Err(e)
    case Ok((s, m)) => Ok((Pending(s, ePriv, [], []), m))
  }

  function ClassicalResponder(su: Suite, dhPriv: bytes, message1: bytes, ePriv: bytes): Result<(bytes, Session), Fault>
  {
    if |message1| != NOISE_MSG_LEN then Err(WrongSize)
    else match ReadTurn(su, Prologue(su, su.dhPublic(dhPriv)), dhPriv, message1)
      case Err(e) => Err(e)
      case Ok(s) =>
        match WriteTurn(su, s, ePriv, message1[..DH_LEN])
        case Err(e) => Err(e)
        case Ok((s2, m2)) =>
          var (c1, c2) := Split(su, s2.ck);
          Ok((m2, Session(c1, c2)))
  }

  function ClassicalInitiator2(su: Suite, hs: Pending, message2: bytes): Result<Session, Fault>
  {
    if |message2| != NOISE_MSG_LEN then Err(WrongSize)
    else match ReadTurn(su, hs.ss, hs.ePriv, message2)
      case Err(e) => Err(e)
      case Ok(s) =>
        var (c1, c2) := Split(su, s.ck);
        Ok(Session(c2, c1))
  }

  function HybridInitiator1(su: Suite, rs: bytes, kemPub: bytes, ePriv: bytes, coins: bytes): Result<(Pending, bytes), Fault>
  {
    match WriteTurn(su, Prologue(su, rs), ePriv, rs)
    case Err(e) => Err(e)
    case Ok((s, m)) =>
      match su.encap(kemPub, coins)
      case None => Err(BadKey)
      case Some((secret, ct)) => Ok((Pending(MixHash(su, s, ct), ePriv, secret, ct), m + ct))
  }

  function HybridResponder(su: Suite, kp: KeyPair, message1: bytes, ePriv: bytes, coins: bytes): Result<(bytes, Session), Fault>
  {
    if |message1| != NOISE_MSG_LEN + MLKEM_CIPHERTEXT_SIZE then Err(WrongSize)
    else
      var noiseMsg1, ct := message1[..NOISE_MSG_LEN], message1[NOISE_MSG_LEN..];
      match ReadTurn(su, Prologue(su, su.dhPublic(kp.dhPriv)), kp.dhPriv, noiseMsg1)
      case Err(e) => Err(e)
      case Ok(s) =>
        match WriteTurn(su, MixHash(su, s, ct), ePriv, noiseMsg1[..DH_LEN])
        case Err(e) => Err(e)
        case Ok((s2, m2)) =>
          match su.decap(kp.kemPriv, ct)
          case None => Err(BadKey)
          case Some(secret) =>
            var sig := su.sign(kp.sigPriv, su.Transcript(s2.h, ct, secret), coins);
            var (c1, c2) := HybridSplit(su, s2.ck, secret);
            Ok((m2 + sig, Session(c1, c2)))
  }

  function HybridInitiator2(su: Suite, hs: Pending, message2: bytes, sigPub: bytes): Result<Session, Fault>
  {
    if |message2| != NOISE_MSG_LEN + SLHDSA_SIGNATURE_SIZE then Err(WrongSize)
    else
      match ReadTurn(su, hs.ss, hs.ePriv, message2[..NOISE_MSG_LEN])
      case Err(e) => Err(e)
      case Ok(s) =>
        if !su.verify(sigPub, su.Transcript(s.h, hs.ct, hs.secret), message2[NOISE_MSG_LEN..]) then Err(BadSignature)
        else
          var (c1, c2) := HybridSplit(su, s.ck, hs.secret);
          Ok(Session(c2, c1))
  }

  // ----- Agreement -----

  /**
   * One turn of the pattern: whatever key pair the reader uses, reading what the writer wrote
   * succeeds and leaves both with the same hash, chaining key, cipher key and nonce.
   */
  lemma TurnAgrees(su: Suite, s: Sym, ePriv: bytes, readerPriv: bytes)
    requires su.Lawful()
    ensures var w := WriteTurn(su, s, ePriv, su.dhPublic(readerPriv));
            && w.Ok?
            && |w.value.1| == NOISE_MSG_LEN
            && w.value.1[..DH_LEN] == su.dhPublic(ePriv)
            && ReadTurn(su, s, readerPriv, w.value.1) == Ok(w.value.0)
  {
    var ePub := su.dhPublic(ePriv);
    var shared := su.dh(ePriv, su.dhPublic(readerPriv)).value;
    var keyed := MixKey(su, MixHash(su, s, ePub), shared);
    var (s1, ct) := EncryptAndHash(su, keyed, []);
    HashRoundTrip(su, keyed, []);
    var m := ePub + ct;
    assert m[..DH_LEN] == ePub && m[DH_LEN..] == ct;
  }

  /** What both handshakes promise: the two sessions are mirror images, both counters at zero. */
  predicate Mirrored(initiator: Session, responder: Session)
  {
    && initiator.send == responder.receive
    && initiator.receive == responder.send
    && initiator.send.n == 0 && initiator.receive.n == 0
  }

  lemma ClassicalAgreement(su: Suite, dhPriv: bytes, eInit: bytes, eResp: bytes)
    requires su.Lawful()
    ensures var i1 := ClassicalInitiator1(su, su.dhPublic(dhPriv), eInit);
            i1.Ok? &&
            var r := ClassicalResponder(su, dhPriv, i1.value.1, eResp);
            r.Ok? &&
            var i2 := ClassicalInitiator2(su, i1.value.0, r.value.0);
            i2.Ok? && Mirrored(i2.value, r.value.1)
  {
    var s0 := Prologue(su, su.dhPublic(dhPriv));
    TurnAgrees(su, s0, eInit, dhPriv);
    TurnAgrees(su, WriteTurn(su, s0, eInit, su.dhPublic(dhPriv)).value.0, eResp, eInit);
  }

  lemma HybridAgreement(su: Suite, kp: KeyPair, eInit: bytes, kemCoins: bytes, eResp: bytes, sigCoins: bytes)
    requires su.Lawful()
    ensures var i1 := HybridInitiator1(su, su.dhPublic(kp.dhPriv), su.kemPublic(kp.kemPriv), eInit, kemCoins);
            i1.Ok? &&
            var r := HybridResponder(su, kp, i1.value.1, eResp, sigCoins);
            r.Ok? &&
            var i2 := HybridInitiator2(su, i1.value.0, r.value.0, su.sigPublic(kp.sigPriv));
            i2.Ok? && Mirrored(i2.value, r.value.1)
  {
    var s0 := Prologue(su, su.dhPublic(kp.dhPriv));
    TurnAgrees(su, s0, eInit, kp.dhPriv);
    var (s1, m) := WriteTurn(su, s0, eInit, su.dhPublic(kp.dhPriv)).value;
    assert su.KemRoundTrip(kp.kemPriv, kemCoins);
    var (secret, ct) := su.encap(su.kemPublic(kp.kemPriv), kemCoins).value;
    assert (m + ct)[..NOISE_MSG_LEN] == m && (m + ct)[NOISE_MSG_LEN..] == ct;
    var s2 := MixHash(su, s1, ct);
    TurnAgrees(su, s2, eResp, eInit);
    var (s3, m2) := WriteTurn(su, s2, eResp, su.dhPublic(eInit)).value;
    var sig := su.sign(kp.sigPriv, su.Transcript(s3.h, ct, secret), sigCoins);
    assert (m2 + sig)[..NOISE_MSG_LEN] == m2 && (m2 + sig)[NOISE_MSG_LEN..] == sig;
  }

  /** After either handshake, anything either end sends in order reaches the other unchanged. */
  lemma MirroredSessionsCarry(su: Suite, a: Session, b: Session, plaintexts: seq<bytes>, stream: seq<bytes>)
    requires su.Lawful() && Mirrored(a, b)
    requires EncryptAll(su.aead, a.send, plaintexts).Ok?
    requires MixedWithRejects(su.aead, b.receive, EncryptAll(su.aead, a.send, plaintexts).value, stream)
    ensures Accepted(su.aead, b.receive, stream) == (AfterEncrypting(su.aead, a.send, plaintexts), plaintexts)
  {
    LockstepDelivery(su.aead, a.send, plaintexts, stream);
  }

  // ----- Handshakes: the imperative code -----

  method StartPrologue(su: Suite, rs: bytes) returns (ss: SymmetricState)
    ensures fresh(ss) && ss.su == su && ss.Value() == Prologue(su, rs)
  {
    ss := new SymmetricState(su);
    ss.Mix([]);
    ss.Mix(rs);
  }

  method Write(ss: SymmetricState, ePriv: bytes, remote: bytes) returns (r: Result<bytes, Fault>)
    modifies ss
    ensures match WriteTurn(ss.su, old(ss.Value()), ePriv, remote)
            case Err(e) => r == Err(e)
            case Ok((s, m)) => r == Ok(m) && ss.Value() == s
  {
    var ePub := ss.su.dhPublic(ePriv);
    ss.Mix(ePub);
    var shared := ss.su.dh(ePriv, remote);
    if shared.None? {
      return Err(BadKey);
    }
    ss.MixSecret(shared.value);
    var payload := ss.Seal([]);
    return Ok(ePub + payload);
  }

  method Read(ss: SymmetricState, priv: bytes, message: bytes) returns (r: Option<Fault>)
    requires |message| == NOISE_MSG_LEN
    modifies ss
    ensures match ReadTurn(ss.su, old(ss.Value()), priv, message)
            case Err(e) => r == Some(e)
            case Ok(s) => r == None && ss.Value() == s
  {
    var re := message[..DH_LEN];
    ss.Mix(re);
    var shared := ss.su.dh(priv, re);
    if shared.None? {
      return Some(BadKey);
    }
    ss.MixSecret(shared.value);
    var payload := ss.Open(message[DH_LEN..]);
    return if payload.None? then Some(BadPayload) else None;
  }

  /** ResponderHandshake. */
  method RespondHybrid(su: Suite, kp: KeyPair, message1: bytes, ePriv: bytes, coins: bytes)
    returns (r: Result<(bytes, Session), Fault>)
    ensures r == HybridResponder(su, kp, message1, ePriv, coins)
  {
    if |message1| != NOISE_MSG_LEN + MLKEM_CIPHERTEXT_SIZE {
      return Err(WrongSize);
    }
    var noiseMsg1, ct := message1[..NOISE_MSG_LEN], message1[NOISE_MSG_LEN..];
    var ss := StartPrologue(su, su.dhPublic(kp.dhPriv));
    var fault := Read(ss, kp.dhPriv, noiseMsg1);
    if fault.Some? {
      return Err(fault.value);
    }
    ss.Mix(ct);
    var m2 := Write(ss, ePriv, noiseMsg1[..DH_LEN]);
    if m2.Err? {
      return Err(m2.error);
    }
    var secret := su.decap(kp.kemPriv, ct);
    if secret.None? {
      return Err(BadKey);
    }
    var sig := su.sign(kp.sigPriv, su.Transcript(ss.h, ct, secret.value), coins);
    var (send, receive) := HybridSplit(su, ss.ck, secret.value);
    ss.Clear();
    return Ok((m2.value + sig, Session(send, receive)));
  }

  /** InitiatorHandshake1; the state it returns is finished by FinishHybrid. */
  method InitiateHybrid(su: Suite, rs: bytes, kemPub: bytes, ePriv: bytes, coins: bytes)
    returns (ss: SymmetricState, r: Result<(Pending, bytes), Fault>)
    ensures r == HybridInitiator1(su, rs, kemPub, ePriv, coins)
    ensures fresh(ss) && ss.su == su && (r.Ok? ==> ss.Value() == r.value.0.ss)
  {
    ss := StartPrologue(su, rs);
    var m := Write(ss, ePriv, rs);
    if m.Err? {
      return ss, Err(m.error);
    }
    var e := su.encap(kemPub, coins);
    if e.None? {
      return ss, Err(BadKey);
    }
    ss.Mix(e.value.1);
    return ss, Ok((Pending(ss.Value(), ePriv, e.value.0, e.value.1), m.value + e.value.1));
  }

  /** InitiatorHandshake2. */
  method FinishHybrid(ss: SymmetricState, hs: Pending, message2: bytes, sigPub: bytes) returns (r: Result<Session, Fault>)
    requires ss.Value() == hs.ss
    modifies ss
    ensures r == HybridInitiator2(ss.su, hs, message2, sigPub)
  {
    if |message2| != NOISE_MSG_LEN + SLHDSA_SIGNATURE_SIZE {
      return Err(WrongSize);
    }
    var fault := Read(ss, hs.ePriv, message2[..NOISE_MSG_LEN]);
    if fault.Some? {
      return Err(fault.value);
    }
    if !ss.su.verify(sigPub, ss.su.Transcript(ss.h, hs.ct, hs.secret), message2[NOISE_MSG_LEN..]) {
      return Err(BadSignature);
    }
    var (c1, c2) := HybridSplit(ss.su, ss.ck, hs.secret);
    ss.Clear();
    return Ok(Session(c2, c1));
  }

  /** ClassicalResponderHandshake. */
  method RespondClassical(su: Suite, dhPriv: bytes, message1: bytes, ePriv: bytes) returns (r: Result<(bytes, Session), Fault>)
    ensures r == ClassicalResponder(su, dhPriv, message1, ePriv)
  {
    if |message1| != NOISE_MSG_LEN {
      return Err(WrongSize);
    }
    var ss := StartPrologue(su, su.dhPublic(dhPriv));
    var fault := Read(ss, dhPriv, message1);
    if fault.Some? {
      return Err(fault.value);
    }
    var m2 := Write(ss, ePriv, message1[..DH_LEN]);
    if m2.Err? {
      return Err(m2.error);
    }
    var (send, receive) := Split(su, ss.ck);
    ss.Clear();
    return Ok((m2.value, Session(send, receive)));
  }

  /** ClassicalInitiatorHandshake1. */
  method InitiateClassical(su: Suite, rs: bytes, ePriv: bytes)
    returns (ss: SymmetricState, r: Result<(Pending, bytes), Fault>)
    ensures r == ClassicalInitiator1(su, rs, ePriv)
    ensures fresh(ss) && ss.su == su && (r.Ok? ==> ss.Value() == r.value.0.ss)
  {
    ss := StartPrologue(su, rs);
    var m := Write(ss, ePriv, rs);
    if m.Err? {
      return ss, Err(m.error);
    }
    return ss, Ok((Pending(ss.Value(), ePriv, [], []), m.value));
  }

  /** ClassicalInitiatorHandshake2. */
  method FinishClassical(ss: SymmetricState, hs: Pending, message2: bytes) returns (r: Result<Session, Fault>)
    requires ss.Value() == hs.ss
    modifies ss
    ensures r == ClassicalInitiator2(ss.su, hs, message2)
  {
    if |message2| != NOISE_MSG_LEN {
      return Err(WrongSize);
    }
    var fault := Read(ss, hs.ePriv, message2);
    if fault.Some? {
      return Err(fault.value);
    }
    var (c1, c2) := Split(ss.su, ss.ck);
    ss.Clear();
    return Ok(Session(c2, c1));
  }
}

/**
 * What the handshakes of backend/internal/noise/noise.go put on the wire and derive, written out over the primitives
 * alone: every hash, every key derivation, every AEAD call and every refusal, for any message a peer may send.
 */
module NoiseScript {
  import opened Bytes
  import opened Cipher
  import opened Noise

  // ----- One turn -----

  /** A written turn: the key comes from the chaining key and the DH output, the payload is sealed over the hash of the ephemeral. */
  lemma TurnWritten(su: Suite, s: Sym, ePriv: bytes, remote: bytes)
    requires su.Lawful()
    ensures match su.dh(ePriv, remote)
            case None => WriteTurn(su, s, ePriv, remote) == Err(BadKey)
            case Some(shared) =>
              var h, t := su.hash(s.h + su.dhPublic(ePriv)), su.hmac(s.ck, shared);
              var ck := su.hmac(t, [1]);
              var k := su.hmac(t, ck + [2])[..KEY_LEN];
              var c := su.aead.seal(k, 0, h, []);
              WriteTurn(su, s, ePriv, remote) == Ok((Sym(su.hash(h + c), ck, true, k, 1), su.dhPublic(ePriv) + c))
  {
  }

  /** A read turn: refused exactly when the DH fails or the payload does not open under that key, over that hash, at nonce 0. */
  lemma TurnRead(su: Suite, s: Sym, priv: bytes, m: bytes)
    requires su.Lawful() && |m| == NOISE_MSG_LEN
    ensures match su.dh(priv, m[..DH_LEN])
            case None => ReadTurn(su, s, priv, m) == Err(BadKey)
            case Some(shared) =>
              var h, t := su.hash(s.h + m[..DH_LEN]), su.hmac(s.ck, shared);
              var ck := su.hmac(t, [1]);
              var k := su.hmac(t, ck + [2])[..KEY_LEN];
              ReadTurn(su, s, priv, m) ==
              if su.aead.open(k, 0, h, m[DH_LEN..]).None? then Err(BadPayload) else Ok(Sym(su.hash(h + m[DH_LEN..]), ck, true, k, 1))
  {
  }

  lemma PrologueIs(su: Suite, rs: bytes)
    ensures Prologue(su, rs) == Sym(su.hash(su.hash(PROTOCOL_NAME) + rs), PROTOCOL_NAME, false, Zeros(KEY_LEN), 0)
  {
    assert PROTOCOL_NAME + [] == PROTOCOL_NAME;
  }

  // ----- The session keys -----

  /** Without a KEM secret: the responder sends under the first expansion of the chaining key and receives under the second. */
  ghost predicate KeyedBy(su: Suite, ck: bytes, send: Key, receive: Key)
    requires su.Lawful()
  {
    var t := su.hmac(ck, []);
    send == Key(su.hmac(t, [1])[..KEY_LEN], 0) && receive == Key(su.hmac(t, su.hmac(t, [1]) + [2])[..KEY_LEN], 0)
  }

  lemma SplitKeys(su: Suite, ck: bytes)
    requires su.Lawful()
    ensures KeyedBy(su, ck, Split(su, ck).0, Split(su, ck).1)
  {
  }

  /** With one, it is mixed into the chaining key first. */
  lemma HybridSplitKeys(su: Suite, ck: bytes, secret: bytes)
    requires su.Lawful()
    ensures KeyedBy(su, su.hmac(su.hmac(ck, secret), [1]), HybridSplit(su, ck, secret).0, HybridSplit(su, ck, secret).1)
  {
  }

  // ----- The responder, on any first message -----

  /**
   * r is the responder's answer once the first message was read into hash h and chaining key ck: the KEM ciphertext
   * joins the hash, its own ephemeral and a sealed empty payload follow, and the signature covers hash, ciphertext and secret.
   */
  ghost predicate Answers(su: Suite, kp: KeyPair, h: bytes, ck: bytes, re: bytes, ct: bytes, ePriv: bytes, coins: bytes,
                          r: Result<(bytes, Session), Noise.Fault>)
    requires su.Lawful()
  {
    match su.dh(ePriv, re)
    case None => r == Err(BadKey)
    case Some(ee) =>
      var h2, t2 := su.hash(su.hash(h + ct) + su.dhPublic(ePriv)), su.hmac(ck, ee);
      var ck2 := su.hmac(t2, [1]);
      var c2 := su.aead.seal(su.hmac(t2, ck2 + [2])[..KEY_LEN], 0, h2, []);
      match su.decap(kp.kemPriv, ct)
      case None => r == Err(BadKey)
      case Some(secret) =>
        && r.Ok?
        && r.value.0 == su.dhPublic(ePriv) + c2 + su.sign(kp.sigPriv, su.hash(su.hash(h2 + c2) + ct + secret), coins)
        && KeyedBy(su, su.hmac(su.hmac(ck2, secret), [1]), r.value.1.send, r.value.1.receive)
  }

  lemma HybridAnswers(su: Suite, kp: KeyPair, message1: bytes, ePriv: bytes, coins: bytes, s: Sym)
    requires su.Lawful() && |message1| == NOISE_MSG_LEN + MLKEM_CIPHERTEXT_SIZE
    requires ReadTurn(su, Prologue(su, su.dhPublic(kp.dhPriv)), kp.dhPriv, message1[..NOISE_MSG_LEN]) == Ok(s)
    ensures Answers(su, kp, s.h, s.ck, message1[..DH_LEN], message1[NOISE_MSG_LEN..], ePriv, coins, HybridResponder(su, kp, message1, ePriv, coins))
  {
    var re, s1 := message1[..NOISE_MSG_LEN][..DH_LEN], MixHash(su, s, message1[NOISE_MSG_LEN..]);
    assert re == message1[..DH_LEN];
    TurnWritten(su, s1, ePriv, re);
    var wrote, secret := WriteTurn(su, s1, ePriv, re), su.decap(kp.kemPriv, message1[NOISE_MSG_LEN..]);
    if wrote.Ok? && secret.Some? {
      HybridSplitKeys(su, wrote.value.0.ck, secret.value);
    }
  }

  /**
   * The responder on any first message: a wrong size, an ephemeral the DH refuses, a payload that does not open and a
   * ciphertext the KEM refuses are each refused, and nothing else is.
   */
  lemma HybridResponderIs(su: Suite, kp: KeyPair, message1: bytes, ePriv: bytes, coins: bytes)
    requires su.Lawful()
    ensures var r := HybridResponder(su, kp, message1, ePriv, coins);
            if |message1| != DH_LEN + AEAD_OVERHEAD + MLKEM_CIPHERTEXT_SIZE then r == Err(WrongSize)
            else
              var re, c1, ct := message1[..DH_LEN], message1[DH_LEN..NOISE_MSG_LEN], message1[NOISE_MSG_LEN..];
              var h1 := su.hash(su.hash(su.hash(PROTOCOL_NAME) + su.dhPublic(kp.dhPriv)) + re);
              match su.dh(kp.dhPriv, re)
              case None => r == Err(BadKey)
              case Some(es) =>
                var t1 := su.hmac(PROTOCOL_NAME, es);
                var ck1 := su.hmac(t1, [1]);
                if su.aead.open(su.hmac(t1, ck1 + [2])[..KEY_LEN], 0, h1, c1).None? then r == Err(BadPayload)
                else Answers(su, kp, su.hash(h1 + c1), ck1, re, ct, ePriv, coins, r)
  {
    if |message1| == NOISE_MSG_LEN + MLKEM_CIPHERTEXT_SIZE {
      var m1, s0 := message1[..NOISE_MSG_LEN], Prologue(su, su.dhPublic(kp.dhPriv));
      assert m1[..DH_LEN] == message1[..DH_LEN] && m1[DH_LEN..] == message1[DH_LEN..NOISE_MSG_LEN];
      PrologueIs(su, su.dhPublic(kp.dhPriv));
      TurnRead(su, s0, kp.dhPriv, m1);
      if ReadTurn(su, s0, kp.dhPriv, m1).Ok? {
        HybridAnswers(su, kp, message1, ePriv, coins, ReadTurn(su, s0, kp.dhPriv, m1).value);
      }
    }
  }

  lemma ClassicalResponderIs(su: Suite, dhPriv: bytes, message1: bytes, ePriv: bytes)
    requires su.Lawful()
    ensures var r := ClassicalResponder(su, dhPriv, message1, ePriv);
            if |message1| != DH_LEN + AEAD_OVERHEAD then r == Err(WrongSize)
            else
              var re, c1 := message1[..DH_LEN], message1[DH_LEN..];
              var h1 := su.hash(su.hash(su.hash(PROTOCOL_NAME) + su.dhPublic(dhPriv)) + re);
              match su.dh(dhPriv, re)
              case None => r == Err(BadKey)
              case Some(es) =>
                var t1 := su.hmac(PROTOCOL_NAME, es);
                var ck1 := su.hmac(t1, [1]);
                if su.aead.open(su.hmac(t1, ck1 + [2])[..KEY_LEN], 0, h1, c1).None? then r == Err(BadPayload)
                else
                  var h2 := su.hash(su.hash(h1 + c1) + su.dhPublic(ePriv));
                  match su.dh(ePriv, re)
                  case None => r == Err(BadKey)
                  case Some(ee) =>
                    var t2 := su.hmac(ck1, ee);
                    var ck2 := su.hmac(t2, [1]);
                    && r.Ok?
                    && r.value.0 == su.dhPublic(ePriv) + su.aead.seal(su.hmac(t2, ck2 + [2])[..KEY_LEN], 0, h2, [])
                    && KeyedBy(su, ck2, r.value.1.send, r.value.1.receive)
  {
    if |message1| == NOISE_MSG_LEN {
      var s0 := Prologue(su, su.dhPublic(dhPriv));
      PrologueIs(su, su.dhPublic(dhPriv));
      TurnRead(su, s0, dhPriv, message1);
      var read := ReadTurn(su, s0, dhPriv, message1);
      if read.Ok? {
        TurnWritten(su, read.value, ePriv, message1[..DH_LEN]);
        var wrote := WriteTurn(su, read.value, ePriv, message1[..DH_LEN]);
        if wrote.Ok? {
          SplitKeys(su, wrote.value.0.ck);
        }
      }
    }
  }

  // ----- The initiator -----

  lemma HybridInitiator1Is(su: Suite, rs: bytes, kemPub: bytes, ePriv: bytes, coins: bytes)
    requires su.Lawful()
    ensures var r := HybridInitiator1(su, rs, kemPub, ePriv, coins);
            match su.dh(ePriv, rs)
            case None => r == Err(BadKey)
            case Some(es) =>
              var h1 := su.hash(su.hash(su.hash(PROTOCOL_NAME) + rs) + su.dhPublic(ePriv));
              var t1 := su.hmac(PROTOCOL_NAME, es);
              var ck1 := su.hmac(t1, [1]);
              var k1 := su.hmac(t1, ck1 + [2])[..KEY_LEN];
              var c1 := su.aead.seal(k1, 0, h1, []);
              match su.encap(kemPub, coins)
              case None => r == Err(BadKey)
              case Some((secret, ct)) =>
                r == Ok((Pending(Sym(su.hash(su.hash(h1 + c1) + ct), ck1, true, k1, 1), ePriv, secret, ct), su.dhPublic(ePriv) + c1 + ct))
  {
    PrologueIs(su, rs);
    TurnWritten(su, Prologue(su, rs), ePriv, rs);
  }

  lemma ClassicalInitiator1Is(su: Suite, rs: bytes, ePriv: bytes)
    requires su.Lawful()
    ensures var r := ClassicalInitiator1(su, rs, ePriv);
            match su.dh(ePriv, rs)
            case None => r == Err(BadKey)
            case Some(es) =>
              var h1 := su.hash(su.hash(su.hash(PROTOCOL_NAME) + rs) + su.dhPublic(ePriv));
              var t1 := su.hmac(PROTOCOL_NAME, es);
              var ck1 := su.hmac(t1, [1]);
              var k1 := su.hmac(t1, ck1 + [2])[..KEY_LEN];
              var c1 := su.aead.seal(k1, 0, h1, []);
              r == Ok((Pending(Sym(su.hash(h1 + c1), ck1, true, k1, 1), ePriv, [], []), su.dhPublic(ePriv) + c1))
  {
    PrologueIs(su, rs);
    TurnWritten(su, Prologue(su, rs), ePriv, rs);
  }

  /**
   * The initiator on any second message: a wrong size, an ephemeral the DH refuses, a payload that does not open and a
   * signature that does not verify over hash, ciphertext and secret are each refused, and nothing else is.
   */
  lemma HybridInitiator2Is(su: Suite, hs: Pending, message2: bytes, sigPub: bytes)
    requires su.Lawful()
    ensures var r := HybridInitiator2(su, hs, message2, sigPub);
            if |message2| != DH_LEN + AEAD_OVERHEAD + SLHDSA_SIGNATURE_SIZE then r == Err(WrongSize)
            else
              var re, c2, sig := message2[..DH_LEN], message2[DH_LEN..NOISE_MSG_LEN], message2[NOISE_MSG_LEN..];
              var h := su.hash(hs.ss.h + re);
              match su.dh(hs.ePriv, re)
              case None => r == Err(BadKey)
              case Some(ee) =>
                var t := su.hmac(hs.ss.ck, ee);
                var ck := su.hmac(t, [1]);
                if su.aead.open(su.hmac(t, ck + [2])[..KEY_LEN], 0, h, c2).None? then r == Err(BadPayload)
                else if !su.verify(sigPub, su.hash(su.hash(h + c2) + hs.ct + hs.secret), sig) then r == Err(BadSignature)
                else r.Ok? && KeyedBy(su, su.hmac(su.hmac(ck, hs.secret), [1]), r.value.receive, r.value.send)
  {
    if |message2| == NOISE_MSG_LEN + SLHDSA_SIGNATURE_SIZE {
      var m2 := message2[..NOISE_MSG_LEN];
      assert m2[..DH_LEN] == message2[..DH_LEN] && m2[DH_LEN..] == message2[DH_LEN..NOISE_MSG_LEN];
      TurnRead(su, hs.ss, hs.ePriv, m2);
      var read := ReadTurn(su, hs.ss, hs.ePriv, m2);
      if read.Ok? {
        HybridSplitKeys(su, read.value.ck, hs.secret);
      }
    }
  }

  lemma ClassicalInitiator2Is(su: Suite, hs: Pending, message2: bytes)
    requires su.Lawful()
    ensures var r := ClassicalInitiator2(su, hs, message2);
            if |message2| != DH_LEN + AEAD_OVERHEAD then r == Err(WrongSize)
            else
              var re, c2 := message2[..DH_LEN], message2[DH_LEN..];
              var h := su.hash(hs.ss.h + re);
              match su.dh(hs.ePriv, re)
              case None => r == Err(BadKey)
              case Some(ee) =>
                var t := su.hmac(hs.ss.ck, ee);
                var ck := su.hmac(t, [1]);
                if su.aead.open(su.hmac(t, ck + [2])[..KEY_LEN], 0, h, c2).None? then r == Err(BadPayload)
                else r.Ok? && KeyedBy(su, ck, r.value.receive, r.value.send)
  {
    if |message2| == NOISE_MSG_LEN {
      TurnRead(su, hs.ss, hs.ePriv, message2);
      var read := ReadTurn(su, hs.ss, hs.ePriv, message2);
      if read.Ok? {
        SplitKeys(su, read.value.ck);
      }
    }
  }

  // ----- The KEM secret matters -----

  /**
   * The keys of an honest hybrid handshake: with `ee` and `es` the two DH outputs and `secret` the encapsulated one,
   * both ends hold the keys derived from all three.
   */
  lemma HybridKeys(su: Suite, kp: KeyPair, eInit: bytes, kemCoins: bytes, eResp: bytes, sigCoins: bytes)
    requires su.Lawful()
    ensures su.KemRoundTrip(kp.kemPriv, kemCoins)
    ensures var i1 := HybridInitiator1(su, su.dhPublic(kp.dhPriv), su.kemPublic(kp.kemPriv), eInit, kemCoins);
            i1.Ok? &&
            var r := HybridResponder(su, kp, i1.value.1, eResp, sigCoins);
            r.Ok? &&
            var i2 := HybridInitiator2(su, i1.value.0, r.value.0, su.sigPublic(kp.sigPriv));
            i2.Ok? &&
            var es, ee := su.dh(eInit, su.dhPublic(kp.dhPriv)).value, su.dh(eResp, su.dhPublic(eInit)).value;
            var secret := su.encap(su.kemPublic(kp.kemPriv), kemCoins).value.0;
            var ck1 := su.hmac(su.hmac(PROTOCOL_NAME, es), [1]);
            var ck2 := su.hmac(su.hmac(ck1, ee), [1]);
            var ck3 := su.hmac(su.hmac(ck2, secret), [1]);
            KeyedBy(su, ck3, r.value.1.send, r.value.1.receive) && KeyedBy(su, ck3, i2.value.receive, i2.value.send)
  {
    HybridAgreement(su, kp, eInit, kemCoins, eResp, sigCoins);
    assert su.KemRoundTrip(kp.kemPriv, kemCoins);
    var i1 := HybridInitiator1(su, su.dhPublic(kp.dhPriv), su.kemPublic(kp.kemPriv), eInit, kemCoins).value;
    HybridInitiator1Is(su, su.dhPublic(kp.dhPriv), su.kemPublic(kp.kemPriv), eInit, kemCoins);
    FirstMessageParts(su, kp, eInit, kemCoins);
    HybridResponderIs(su, kp, i1.1, eResp, sigCoins);
  }

  lemma FirstMessageParts(su: Suite, kp: KeyPair, eInit: bytes, kemCoins: bytes)
    requires su.Lawful()
    ensures var i1 := HybridInitiator1(su, su.dhPublic(kp.dhPriv), su.kemPublic(kp.kemPriv), eInit, kemCoins);
            && su.KemRoundTrip(kp.kemPriv, kemCoins) && i1.Ok?
            && |i1.value.1| == NOISE_MSG_LEN + MLKEM_CIPHERTEXT_SIZE
            && i1.value.1[..DH_LEN] == su.dhPublic(eInit)
            && i1.value.1[NOISE_MSG_LEN..] == su.encap(su.kemPublic(kp.kemPriv), kemCoins).value.1
  {
    HybridAgreement(su, kp, eInit, kemCoins, [], []);
    assert su.KemRoundTrip(kp.kemPriv, kemCoins);
    HybridInitiator1Is(su, su.dhPublic(kp.dhPriv), su.kemPublic(kp.kemPriv), eInit, kemCoins);
  }

  /** The first byte, or 0. */
  function First(m: bytes): byte
  {
    if m == [] then 0 else m[0]
  }

  function Sum(a: byte, b: byte): byte
  {
    if a as int + b as int < 256 then a + b else (a as int + b as int - 256) as byte
  }

  /** A lawful suite whose hmac adds the first bytes, and whose KEM hands out the first byte of its coins. */
  function AddingSuite(): Suite
  {
    Suite(
      Aead((k, n, ad, p) => p + Zeros(AEAD_OVERHEAD),
           (k, n, ad, c) => if |c| >= AEAD_OVERHEAD then Some(c[..|c| - AEAD_OVERHEAD]) else None),
      m => Zeros(HASH_LEN), (k, m) => [Sum(First(k), First(m))] + Zeros(HASH_LEN - 1),
      x => Zeros(DH_LEN), (x, p) => Some([]),
      d => [], (e, coins) => Some(([First(coins)], [First(coins)] + Zeros(MLKEM_CIPHERTEXT_SIZE - 1))), (d, c) => Some([First(c)]),
      k => [], (k, m, coins) => Zeros(SLHDSA_SIGNATURE_SIZE), (k, m, sig) => true)
  }

  lemma AddingSuiteLawful()
    ensures AddingSuite().Lawful()
  {
    var s := AddingSuite();
    forall k, n, ad, p ensures s.aead.open(k, n, ad, s.aead.seal(k, n, ad, p)) == Some(p) {
      assert (p + Zeros(AEAD_OVERHEAD))[..|p|] == p;
    }
    forall d, coins ensures s.KemRoundTrip(d, coins) {
      assert s.encap(s.kemPublic(d), coins) == Some(([First(coins)], [First(coins)] + Zeros(MLKEM_CIPHERTEXT_SIZE - 1)));
    }
  }

  /** The key bytes of that suite are sums that contain the secret. */
  lemma AddedKeys(ck: bytes, secret: bytes, send: Key, receive: Key)
    requires AddingSuite().Lawful()
    requires var su := AddingSuite(); KeyedBy(su, su.hmac(su.hmac(ck, secret), [1]), send, receive)
    ensures |send.k| == |receive.k| == KEY_LEN
    ensures var t := Sum(Sum(Sum(First(ck), First(secret)), 1), 0); send.k[0] == Sum(t, 1) && receive.k[0] == Sum(t, Sum(t, 1))
  {
    var su := AddingSuite();
    var mixed := su.hmac(su.hmac(ck, secret), [1]);
    var t := su.hmac(mixed, []);
    assert First(mixed) == Sum(Sum(First(ck), First(secret)), 1);
    assert First(t) == Sum(First(mixed), 0) && First(su.hmac(t, [1])) == Sum(First(t), 1);
  }

  /**
   * The session keys depend on the KEM secret: in some lawful suite, whatever chaining key the two DH outputs led to,
   * two secrets give different keys in both directions.
   */
  lemma KemSecretSeparatesKeys(ck: bytes) returns (su: Suite, a: bytes, b: bytes)
    ensures su.Lawful()
    ensures HybridSplit(su, ck, a).0.k != HybridSplit(su, ck, b).0.k && HybridSplit(su, ck, a).1.k != HybridSplit(su, ck, b).1.k
  {
    su, a, b := AddingSuite(), [0], [1];
    AddingSuiteLawful();
    HybridSplitKeys(su, ck, a);
    HybridSplitKeys(su, ck, b);
    var (sendA, receiveA) := HybridSplit(su, ck, a);
    var (sendB, receiveB) := HybridSplit(su, ck, b);
    AddedKeys(ck, a, sendA, receiveA);
    AddedKeys(ck, b, sendB, receiveB);
  }
}

/**
 Decrypting a PKCS#8 EncryptedPrivateKeyInfo (AsyncSecureSession.cpp): section 3 of
 RFC 5958 wrapped in PBES2 (appendix A.4 of RFC 8018), PBKDF2 with hmacWithSHA256 and
 aes-256-cbc only.

 HMAC and AES-CBC stay arbitrary functions.  The decoder is a function of the input
 (Decode), carried out by an imperative walk over DER cursors (DecryptKey), and proved to
 invert an encoder written here from the standards.
 */
module Pbes2 {
  import opened Common
  import opened Der
  import Pbkdf2

  const BLOCK: nat := 16

  datatype Crypto = Crypto(
    prf: (Bytes, Bytes) -> Bytes,
    encrypt: (Bytes, Bytes, Bytes) -> Bytes,
    decrypt: (Bytes, Bytes, Bytes) -> Bytes)

  /** CBC keeps lengths, and decryption inverts encryption on whole blocks. */
  ghost predicate CbcInverts(c: Crypto)
  {
    forall key, iv, x :: |x| % BLOCK == 0 ==>
      |c.encrypt(key, iv, x)| == |x| && c.decrypt(key, iv, c.encrypt(key, iv, x)) == x
  }

  ghost predicate CbcKeepsLength(c: Crypto)
  {
    forall key, iv, x :: |c.decrypt(key, iv, x)| == |x|
  }

  // ---- PKCS#7 padding (section 6.3 of RFC 5652) ----

  function PadLength(n: nat): (k: nat)
    ensures 1 <= k <= BLOCK && (n + k) % BLOCK == 0
  {
    BLOCK - n % BLOCK
  }

  function Pad(data: Bytes): (r: Bytes)
    ensures |r| == |data| + PadLength(|data|)
  {
    data + seq(PadLength(|data|), i => PadLength(|data|) as byte)
  }

  /** The last `pad` octets all say `pad`. */
  predicate PaddedBy(data: Bytes, pad: nat)
  {
    pad <= |data| && forall i :: |data| - pad <= i < |data| ==> data[i] as nat == pad
  }

  /** `brssl_strip_pkcs7`: the unpadded length, 0 for "invalid". */
  function StripLength(data: Bytes): (n: nat)
    ensures n <= |data|
  {
    if |data| == 0 || |data| % BLOCK != 0 then 0
    else
      var pad := data[|data| - 1] as nat;
      if pad == 0 || pad > BLOCK || pad > |data| || !PaddedBy(data, pad) then 0 else |data| - pad
  }

  /** Stripping inverts padding; for the empty plaintext the answer 0 reads as "invalid". */
  lemma StripInvertsPad(data: Bytes)
    ensures StripLength(Pad(data)) == |data|
    ensures Pad(data)[..|data|] == data
  {
    var p := Pad(data);
    var k := PadLength(|data|);
    assert p[|p| - 1] == k as byte;
    assert PaddedBy(p, k);
  }

  /** A nonzero answer is given exactly to the padding of a nonempty text. */
  lemma PadInvertsStrip(data: Bytes)
    ensures StripLength(data) > 0 <==> exists x: Bytes :: x != [] && Pad(x) == data
    ensures StripLength(data) > 0 ==> Pad(data[..StripLength(data)]) == data
  {
    var n := StripLength(data);
    if n > 0 {
      var x := data[..n];
      var pad := |data| - n;
      PadLengthUnique(n, pad);
      assert Pad(x) == data;
    }
    if x: Bytes :| x != [] && Pad(x) == data {
      StripInvertsPad(x);
    }
  }

  lemma PadLengthUnique(n: nat, k: nat)
    requires 1 <= k <= BLOCK && (n + k) % BLOCK == 0
    ensures PadLength(n) == k
  {
  }

  method StripPkcs7(data: Bytes) returns (n: nat)
    ensures n == StripLength(data)
  {
    if |data| == 0 || |data| % BLOCK != 0 {
      return 0;
    }
    var pad := data[|data| - 1] as nat;
    if pad == 0 || pad > BLOCK || pad > |data| {
      return 0;
    }
    var i := 1;
    while i <= pad
      invariant 1 <= i <= pad + 1
      invariant forall j :: |data| - i < j < |data| ==> data[j] as nat == pad
    {
      if data[|data| - i] as nat != pad {
        return 0;
      }
      i := i + 1;
    }
    n := |data| - pad;
  }

  // ---- The envelope ----

  const TAG_INTEGER: byte := 0x02
  const TAG_OCTETS: byte := 0x04
  const TAG_OID: byte := 0x06
  const TAG_SEQUENCE: byte := 0x30

  const OID_PBES2: Bytes := [0x2a, 0x86, 0x48, 0x86, 0xf7, 0x0d, 0x01, 0x05, 0x0d]
  const OID_PBKDF2: Bytes := [0x2a, 0x86, 0x48, 0x86, 0xf7, 0x0d, 0x01, 0x05, 0x0c]
  const OID_HMAC_SHA256: Bytes := [0x2a, 0x86, 0x48, 0x86, 0xf7, 0x0d, 0x02, 0x09]
  const OID_AES256_CBC: Bytes := [0x60, 0x86, 0x48, 0x01, 0x65, 0x03, 0x04, 0x01, 0x2a]

  datatype Reason =
    | EmptyPassword | NotASequence | MissingAlgorithmSeq | MissingAlgorithmOid | UnsupportedAlgorithm
    | MissingParams | MissingKdfSeq | UnsupportedKdf | ParamsOmitted | BadPbkdf2Params | BadSalt
    | BadIterationCount | BadKeyLength | BadPrfSeq | UnsupportedPrf | MissingCipherSeq | MissingCipherOid
    | UnsupportedCipher | MissingIv | IvLengthMismatch | MissingEncryptedData | Pbkdf2Failed | OutOfMemory
    | CbcFailed | BadPadding

  datatype Result<+T> = Ok(value: T) | Err(reason: Reason)
  {
    predicate IsFailure() { Err? }

    function PropagateFailure<U>(): Result<U>
      requires Err?
    {
      Err(reason)
    }

    function Extract(): T
      requires Ok?
    {
      value
    }
  }

  /** The next element, if it has the wanted tag. */
  function Expect(s: Bytes, tag: byte, otherwise: Reason): Result<(Bytes, Bytes)>
  {
    match Take(s)
    case None => Err(otherwise)
    case Some(e) => if e.tag == tag then Ok((e.value, e.rest)) else Err(otherwise)
  }

  function ExpectOid(s: Bytes, oid: Bytes, otherwise: Reason): Result<Bytes>
  {
    var (v, rest) :- Expect(s, TAG_OID, otherwise);
    if v == oid then Ok(rest) else Err(otherwise)
  }

  /** The optional key length, skipped, and the required PRF. */
  function ReadPrf(s: Bytes): Result<()>
  {
    var rest :- SkipKeyLength(s);
    if PeekTag(rest) != TAG_SEQUENCE then Err(UnsupportedPrf)
    else
      var (prf, _) :- Expect(rest, TAG_SEQUENCE, BadPrfSeq);
      var _ :- ExpectOid(prf, OID_HMAC_SHA256, UnsupportedPrf);
      Ok(())
  }

  function SkipKeyLength(s: Bytes): Result<Bytes>
  {
    if PeekTag(s) == TAG_INTEGER then
      var (_, rest) :- Expect(s, TAG_INTEGER, BadKeyLength);
      Ok(rest)
    else Ok(s)
  }

  /** PBKDF2-params: salt, iteration count of at most four octets, optional key length, PRF. */
  function ReadKdfParams(kp: Bytes): Result<(Bytes, nat)>
  {
    var (salt, afterSalt) :- Expect(kp, TAG_OCTETS, BadSalt);
    var (count, afterCount) :- Expect(afterSalt, TAG_INTEGER, BadIterationCount);
    if |count| == 0 || |count| > 4 then Err(BadIterationCount)
    else
      var _ :- ReadPrf(afterCount);
      Ok((salt, BigEndian(count)))
  }

  /** keyDerivationFunc. */
  function ReadKdf(kdf: Bytes): Result<(Bytes, nat)>
  {
    var rest :- ExpectOid(kdf, OID_PBKDF2, UnsupportedKdf);
    if PeekTag(rest) != TAG_SEQUENCE then Err(ParamsOmitted)
    else
      var (kp, _) :- Expect(rest, TAG_SEQUENCE, BadPbkdf2Params);
      ReadKdfParams(kp)
  }

  /** encryptionScheme: the initialisation vector. */
  function ReadCipher(enc: Bytes): Result<Bytes>
  {
    var (oid, rest) :- Expect(enc, TAG_OID, MissingCipherOid);
    if oid != OID_AES256_CBC then Err(UnsupportedCipher)
    else
      var (iv, _) :- Expect(rest, TAG_OCTETS, MissingIv);
      if |iv| != 16 then Err(IvLengthMismatch) else Ok(iv)
  }

  datatype Envelope = Envelope(salt: Bytes, iters: nat, iv: Bytes, cipherText: Bytes)

  /** The PBES2 parameters: salt, iteration count and initialisation vector. */
  function ReadParams(params: Bytes): Result<(Bytes, nat, Bytes)>
  {
    var (kdf, afterKdf) :- Expect(params, TAG_SEQUENCE, MissingKdfSeq);
    var (salt, iters) :- ReadKdf(kdf);
    var (enc, _) :- Expect(afterKdf, TAG_SEQUENCE, MissingCipherSeq);
    var iv :- ReadCipher(enc);
    Ok((salt, iters, iv))
  }

  function ReadAlgorithm(alg: Bytes): Result<(Bytes, nat, Bytes)>
  {
    var (oid, rest) :- Expect(alg, TAG_OID, MissingAlgorithmOid);
    if oid != OID_PBES2 then Err(UnsupportedAlgorithm)
    else
      var (params, _) :- Expect(rest, TAG_SEQUENCE, MissingParams);
      ReadParams(params)
  }

  /** The walk over the whole structure. */
  function ReadEnvelope(der: Bytes): Result<Envelope>
  {
    var (main, _) :- Expect(der, TAG_SEQUENCE, NotASequence);
    var (alg, data) :- Expect(main, TAG_SEQUENCE, MissingAlgorithmSeq);
    var (salt, iters, iv) :- ReadAlgorithm(alg);
    var (ct, _) :- Expect(data, TAG_OCTETS, MissingEncryptedData);
    Ok(Envelope(salt, iters, iv, ct))
  }

  /** From the envelope to the plaintext. */
  ghost function Open(c: Crypto, e: Envelope, password: Bytes, memory: bool): Result<Bytes>
    requires Pbkdf2.Digests(c.prf)
  {
    if e.iters == 0 then Err(Pbkdf2Failed)
    else if !memory then Err(OutOfMemory)
    else if |e.cipherText| == 0 || |e.cipherText| % BLOCK != 0 then Err(CbcFailed)
    else
      var dk := Pbkdf2.DerivedKey(c.prf, password, e.salt, e.iters, 32);
      var plain := c.decrypt(dk, e.iv, e.cipherText);
      var n := StripLength(plain);
      if n == 0 then Err(BadPadding) else Ok(plain[..n])
  }

  /** `brssl_pbes2_decrypt`; `memory` is whether its malloc succeeds. */
  ghost function Decode(c: Crypto, der: Bytes, password: Bytes, memory: bool): Result<Bytes>
    requires Pbkdf2.Digests(c.prf)
  {
    if password == [] then Err(EmptyPassword)
    else
      var e :- ReadEnvelope(der);
      Open(c, e, password, memory)
  }

  // ---- The walk over cursors ----

  method ExpectElement(d: BrsslDer, tag: byte, otherwise: Reason) returns (r: Result<Bytes>)
    requires d.Valid()
    modifies d
    ensures d.Valid()
    ensures match Expect(old(d.Window()), tag, otherwise)
      case Ok((v, rest)) => r == Ok(v) && d.Window() == rest
      case Err(e) => r == Err(e)
  {
    var ok, t, val, vlen := d.TakeElement();
    if !ok || t != tag {
      return Err(otherwise);
    }
    r := Ok(d.buf[val..val + vlen]);
  }

  /** A cursor over the contents of an element. */
  method Enter(v: Bytes) returns (d: BrsslDer)
    ensures fresh(d) && d.Valid() && d.Window() == v
  {
    d := new BrsslDer(v, 0, |v|);
  }

  method TakeOid(d: BrsslDer, oid: Bytes, otherwise: Reason) returns (r: Result<()>)
    requires d.Valid()
    modifies d
    ensures d.Valid()
    ensures match ExpectOid(old(d.Window()), oid, otherwise)
      case Ok(rest) => r == Ok(()) && d.Window() == rest
      case Err(e) => r == Err(e)
  {
    var v :- ExpectElement(d, TAG_OID, otherwise);
    r := if v == oid then Ok(()) else Err(otherwise);
  }

  method TakePrf(kp: BrsslDer) returns (r: Result<()>)
    requires kp.Valid()
    modifies kp
    ensures r == ReadPrf(old(kp.Window()))
  {
    var tag := kp.PeekNextTag();
    if tag == TAG_INTEGER {
      var _ :- ExpectElement(kp, TAG_INTEGER, BadKeyLength);
    }
    tag := kp.PeekNextTag();
    if tag != TAG_SEQUENCE {
      return Err(UnsupportedPrf);
    }
    var v :- ExpectElement(kp, TAG_SEQUENCE, BadPrfSeq);
    var prf := Enter(v);
    r := TakeOid(prf, OID_HMAC_SHA256, UnsupportedPrf);
  }

  /** The iteration count: at most four octets, most significant first, as an unsigned number. */
  method CountFrom(v: Bytes) returns (iters: nat)
    requires |v| <= 4
    ensures iters == BigEndian(v) < MAX_LEN
  {
    iters := 0;
    var i := 0;
    while i < |v|
      invariant 0 <= i <= |v|
      invariant iters == BigEndian(v[..i])
    {
      assert v[..i + 1][..i] == v[..i];
      iters := iters * 256 + v[i] as nat;
      i := i + 1;
    }
    assert v[..i] == v;
    BigEndianBound(v);
    PowerGrows(|v|, 4);
    FourOctets();
  }

  method TakeKdfParams(kp: BrsslDer) returns (r: Result<(Bytes, nat)>)
    requires kp.Valid()
    modifies kp
    ensures r == ReadKdfParams(old(kp.Window()))
  {
    var salt :- ExpectElement(kp, TAG_OCTETS, BadSalt);
    var v :- ExpectElement(kp, TAG_INTEGER, BadIterationCount);
    if |v| == 0 || |v| > 4 {
      return Err(BadIterationCount);
    }
    var iters := CountFrom(v);
    var _ :- TakePrf(kp);
    r := Ok((salt, iters));
  }

  method TakeKdf(kdf: BrsslDer) returns (r: Result<(Bytes, nat)>)
    requires kdf.Valid()
    modifies kdf
    ensures r == ReadKdf(old(kdf.Window()))
  {
    var _ :- TakeOid(kdf, OID_PBKDF2, UnsupportedKdf);
    var tag := kdf.PeekNextTag();
    if tag != TAG_SEQUENCE {
      return Err(ParamsOmitted);
    }
    var v :- ExpectElement(kdf, TAG_SEQUENCE, BadPbkdf2Params);
    var kp := Enter(v);
    r := TakeKdfParams(kp);
  }

  method TakeCipher(enc: BrsslDer) returns (r: Result<Bytes>)
    requires enc.Valid()
    modifies enc
    ensures r == ReadCipher(old(enc.Window()))
  {
    var oid :- ExpectElement(enc, TAG_OID, MissingCipherOid);
    if oid != OID_AES256_CBC {
      return Err(UnsupportedCipher);
    }
    var iv :- ExpectElement(enc, TAG_OCTETS, MissingIv);
    r := if |iv| != 16 then Err(IvLengthMismatch) else Ok(iv);
  }

  /** The PBES2 parameters: derivation function, then cipher. */
  method TakeParams(params: BrsslDer) returns (r: Result<(Bytes, nat, Bytes)>)
    requires params.Valid()
    modifies params
    ensures r == ReadParams(old(params.Window()))
  {
    var v :- ExpectElement(params, TAG_SEQUENCE, MissingKdfSeq);
    var kdf := Enter(v);
    var si :- TakeKdf(kdf);
    v :- ExpectElement(params, TAG_SEQUENCE, MissingCipherSeq);
    var enc := Enter(v);
    var iv :- TakeCipher(enc);
    r := Ok((si.0, si.1, iv));
  }

  method TakeAlgorithm(alg: BrsslDer) returns (r: Result<(Bytes, nat, Bytes)>)
    requires alg.Valid()
    modifies alg
    ensures r == ReadAlgorithm(old(alg.Window()))
  {
    var oid :- ExpectElement(alg, TAG_OID, MissingAlgorithmOid);
    if oid != OID_PBES2 {
      return Err(UnsupportedAlgorithm);
    }
    var v :- ExpectElement(alg, TAG_SEQUENCE, MissingParams);
    var params := Enter(v);
    r := TakeParams(params);
  }

  method TakeEnvelope(der: Bytes) returns (r: Result<Envelope>)
    ensures r == ReadEnvelope(der)
  {
    var top := Enter(der);
    var v :- ExpectElement(top, TAG_SEQUENCE, NotASequence);
    var main := Enter(v);
    v :- ExpectElement(main, TAG_SEQUENCE, MissingAlgorithmSeq);
    var alg := Enter(v);
    var p :- TakeAlgorithm(alg);
    var ct :- ExpectElement(main, TAG_OCTETS, MissingEncryptedData);
    r := Ok(Envelope(p.0, p.1, p.2, ct));
  }

  /** `brssl_pbes2_decrypt`, from the DER to the plaintext. */
  method DecryptKey(c: Crypto, der: Bytes, password: Bytes, memory: bool) returns (r: Result<Bytes>)
    requires Pbkdf2.Digests(c.prf) && CbcKeepsLength(c)
    ensures r == Decode(c, der, password, memory)
  {
    if password == [] {
      return Err(EmptyPassword);
    }
    var e :- TakeEnvelope(der);
    var dk := new byte[32];
    var ok := Pbkdf2.Derive(c.prf, password, e.salt, e.iters, dk);
    if !ok {
      return Err(Pbkdf2Failed);
    }
    if !memory {
      return Err(OutOfMemory);
    }
    if |e.cipherText| == 0 || |e.cipherText| % BLOCK != 0 {
      return Err(CbcFailed);
    }
    var plain := c.decrypt(dk[..], e.iv, e.cipherText);
    var n := StripPkcs7(plain);
    r := if n == 0 then Err(BadPadding) else Ok(plain[..n]);
  }

  // ---- The encoder ----

  /** DER INTEGER contents of a non-negative number: shortest, with a clear top bit. */
  function IntegerContents(n: nat): Bytes
  {
    var d := Digits(n);
    if d == [] || d[0] >= 0x80 then [0] + d else d
  }

  /** hmacWithSHA256 with its NULL parameters. */
  function PrfIdentifier(): Bytes
  {
    Encode(TAG_OID, OID_HMAC_SHA256) + Encode(0x05, [])
  }

  function OptionalLength(keyLength: Option<nat>): Bytes
  {
    match keyLength case None => [] case Some(n) => Encode(TAG_INTEGER, IntegerContents(n))
  }

  function KdfParams(salt: Bytes, iters: nat, keyLength: Option<nat>): Bytes
  {
    Encode(TAG_OCTETS, salt)
    + (Encode(TAG_INTEGER, IntegerContents(iters))
       + (OptionalLength(keyLength) + Encode(TAG_SEQUENCE, PrfIdentifier())))
  }

  function Kdf(salt: Bytes, iters: nat, keyLength: Option<nat>): Bytes
  {
    Encode(TAG_OID, OID_PBKDF2) + Encode(TAG_SEQUENCE, KdfParams(salt, iters, keyLength))
  }

  function Cipher(iv: Bytes): Bytes
  {
    Encode(TAG_OID, OID_AES256_CBC) + Encode(TAG_OCTETS, iv)
  }

  function Algorithm(e: Envelope, keyLength: Option<nat>): Bytes
  {
    Encode(TAG_OID, OID_PBES2)
    + Encode(TAG_SEQUENCE, Encode(TAG_SEQUENCE, Kdf(e.salt, e.iters, keyLength)) + Encode(TAG_SEQUENCE, Cipher(e.iv)))
  }

  /** The contents of the outermost SEQUENCE. */
  function Contents(e: Envelope, keyLength: Option<nat>): Bytes
  {
    Encode(TAG_SEQUENCE, Algorithm(e, keyLength)) + Encode(TAG_OCTETS, e.cipherText)
  }

  function WriteEnvelope(e: Envelope, keyLength: Option<nat>): Bytes
  {
    Encode(TAG_SEQUENCE, Contents(e, keyLength))
  }

  /** Encrypting a key: pad, derive, encrypt. */
  ghost function Seal(c: Crypto, plain: Bytes, password: Bytes, salt: Bytes, iters: nat, iv: Bytes): Envelope
    requires Pbkdf2.Digests(c.prf) && iters > 0
  {
    Envelope(salt, iters, iv, c.encrypt(Pbkdf2.DerivedKey(c.prf, password, salt, iters, 32), iv, Pad(plain)))
  }

  // ---- What the encoder writes, octet by octet ----

  /** The arcs of an object identifier's contents (section 8.19 of X.690). */
  function Arcs(s: Bytes): seq<nat>
  {
    var v := Subidentifiers(s, 0);
    if v == [] then [] else (if v[0] < 40 then [0, v[0]] else if v[0] < 80 then [1, v[0] - 40] else [2, v[0] - 80]) + v[1..]
  }

  /** Base 128, most significant first, with a set top bit on every octet of a number but its last. */
  function Subidentifiers(s: Bytes, high: nat): seq<nat>
  {
    if s == [] then []
    else if s[0] >= 0x80 then Subidentifiers(s[1..], (high + (s[0] as nat - 0x80)) * 128)
    else [high + s[0] as nat] + Subidentifiers(s[1..], 0)
  }

  lemma Subidentifier(b: byte, rest: Bytes, high: nat)
    ensures Subidentifiers([b] + rest, high)
         == if b >= 0x80 then Subidentifiers(rest, (high + (b as nat - 0x80)) * 128) else [high + b as nat] + Subidentifiers(rest, 0)
  {
    assert ([b] + rest)[1..] == rest;
  }

  lemma Arc840(rest: Bytes)
    ensures Subidentifiers([0x86, 0x48] + rest, 0) == [840] + Subidentifiers(rest, 0)
  {
    Subidentifier(0x86, [0x48] + rest, 0);
    Subidentifier(0x48, rest, 768);
    assert [0x86, 0x48] + rest == [0x86] + ([0x48] + rest);
  }

  lemma Arc113549(rest: Bytes)
    ensures Subidentifiers([0x86, 0xf7, 0x0d] + rest, 0) == [113549] + Subidentifiers(rest, 0)
  {
    Subidentifier(0x86, [0xf7] + ([0x0d] + rest), 0);
    Subidentifier(0xf7, [0x0d] + rest, 768);
    Subidentifier(0x0d, rest, 113536);
    assert [0x86, 0xf7, 0x0d] + rest == [0x86] + ([0xf7] + ([0x0d] + rest));
  }

  /** The arcs that the first three identifiers share, and what follows them. */
  lemma RsaArcs(rest: Bytes)
    ensures Subidentifiers([0x2a, 0x86, 0x48, 0x86, 0xf7, 0x0d] + rest, 0) == [42, 840, 113549] + Subidentifiers(rest, 0)
  {
    var r1 := [0x86, 0xf7, 0x0d] + rest;
    var r2 := [0x86, 0x48] + r1;
    Subidentifier(0x2a, r2, 0);
    Arc840(r1);
    Arc113549(rest);
    RsaPieces(rest);
  }

  lemma RsaPieces(rest: Bytes)
    ensures [0x2a, 0x86, 0x48, 0x86, 0xf7, 0x0d] + rest == [0x2a] + ([0x86, 0x48] + ([0x86, 0xf7, 0x0d] + rest))
  {
  }

  function Numbers(s: Bytes): (r: seq<nat>)
    ensures |r| == |s|
  {
    seq(|s|, i requires 0 <= i < |s| => s[i] as nat)
  }

  lemma {:induction false} SmallArcs(s: Bytes)
    requires forall i :: 0 <= i < |s| ==> s[i] < 0x80
    ensures Subidentifiers(s, 0) == Numbers(s)
  {
    if s != [] {
      SmallArcs(s[1..]);
      assert Numbers(s) == [s[0] as nat] + Numbers(s[1..]);
    }
  }

  /** id-PBES2, id-PBKDF2, id-hmacWithSHA256 and id-aes256-CBC, by their registered numbers. */
  lemma KnownOids()
    ensures Arcs(OID_PBES2) == [1, 2, 840, 113549, 1, 5, 13]
    ensures Arcs(OID_PBKDF2) == [1, 2, 840, 113549, 1, 5, 12]
    ensures Arcs(OID_HMAC_SHA256) == [1, 2, 840, 113549, 2, 9]
    ensures Arcs(OID_AES256_CBC) == [2, 16, 840, 1, 101, 3, 4, 1, 42]
  {
    var head: Bytes := [0x2a, 0x86, 0x48, 0x86, 0xf7, 0x0d];
    SmallTail(head, [1, 5, 13]);
    SmallTail(head, [1, 5, 12]);
    SmallTail(head, [2, 9]);
    assert OID_PBES2 == head + [1, 5, 13] && OID_PBKDF2 == head + [1, 5, 12] && OID_HMAC_SHA256 == head + [2, 9];
    NistArcs();
  }

  lemma SmallTail(head: Bytes, tail: Bytes)
    requires head == [0x2a, 0x86, 0x48, 0x86, 0xf7, 0x0d]
    requires forall i :: 0 <= i < |tail| ==> tail[i] < 0x80
    ensures Arcs(head + tail) == [1, 2, 840, 113549] + Numbers(tail)
  {
    RsaArcs(tail);
    SmallArcs(tail);
  }

  lemma NistArcs()
    ensures Arcs(OID_AES256_CBC) == [2, 16, 840, 1, 101, 3, 4, 1, 42]
  {
    var tail: Bytes := [0x01, 0x65, 0x03, 0x04, 0x01, 0x2a];
    SmallArcs(tail);
    assert Numbers(tail) == [1, 101, 3, 4, 1, 42];
    NistHead(tail);
    NistPieces(tail);
  }

  lemma NistPieces(tail: Bytes)
    requires tail == [0x01, 0x65, 0x03, 0x04, 0x01, 0x2a]
    ensures OID_AES256_CBC == [0x60] + ([0x86, 0x48] + tail)
  {
  }

  lemma NistHead(tail: Bytes)
    ensures Arcs([0x60] + ([0x86, 0x48] + tail)) == [2, 16, 840] + Subidentifiers(tail, 0)
  {
    Subidentifier(0x60, [0x86, 0x48] + tail, 0);
    Arc840(tail);
  }

  /** An element with a one-octet length, written out. */
  function Tlv(tag: byte, len: byte, value: Bytes): Bytes
  {
    [tag, len] + value
  }

  lemma ShortTlv(tag: byte, len: byte, value: Bytes)
    requires |value| == len as nat < 0x80
    ensures Encode(tag, value) == Tlv(tag, len, value)
  {
    ShortForm(tag, value);
  }

  /** PBKDF2 with two octets of salt, 2048 iterations, a 32-octet key length and hmacWithSHA256. */
  function KnownKdf(): Bytes
  {
    Tlv(0x06, 0x09, OID_PBKDF2)
    + Tlv(0x30, 0x19, Tlv(0x04, 0x02, [1, 2])
                      + (Tlv(0x02, 0x02, [0x08, 0x00])
                         + (Tlv(0x02, 0x01, [0x20])
                            + Tlv(0x30, 0x0c, Tlv(0x06, 0x08, OID_HMAC_SHA256) + Tlv(0x05, 0x00, [])))))
  }

  lemma KdfIsKnown()
    ensures Kdf([1, 2], 2048, Some(32)) == KnownKdf()
  {
    KnownLengths();
    OneDigit(32);
    assert IntegerContents(2048) == [0x08, 0x00] && IntegerContents(32) == [0x20];
    ShortTlv(0x06, 0x08, OID_HMAC_SHA256);
    ShortTlv(0x05, 0x00, []);
    ShortTlv(0x30, 0x0c, PrfIdentifier());
    ShortTlv(0x02, 0x02, [0x08, 0x00]);
    ShortTlv(0x02, 0x01, [0x20]);
    ShortTlv(0x04, 0x02, [1, 2]);
    ShortTlv(0x30, 0x19, KdfParams([1, 2], 2048, Some(32)));
    ShortTlv(0x06, 0x09, OID_PBKDF2);
  }

  /** One whole EncryptedPrivateKeyInfo as it goes over the wire: that derivation, and one block of cipher text. */
  lemma KnownEnvelope(iv: Bytes, ct: Bytes)
    requires |iv| == 16 && |ct| == 16
    ensures WriteEnvelope(Envelope([1, 2], 2048, iv, ct), Some(32))
         == Tlv(0x30, 0x68,
                Tlv(0x30, 0x54,
                    Tlv(0x06, 0x09, OID_PBES2)
                    + Tlv(0x30, 0x47,
                          Tlv(0x30, 0x26, KnownKdf())
                          + Tlv(0x30, 0x1d, Tlv(0x06, 0x09, OID_AES256_CBC) + Tlv(0x04, 0x10, iv))))
                + Tlv(0x04, 0x10, ct))
  {
    var e := Envelope([1, 2], 2048, iv, ct);
    KdfIsKnown();
    ShortTlv(0x06, 0x09, OID_AES256_CBC);
    ShortTlv(0x04, 0x10, iv);
    ShortTlv(0x30, 0x1d, Cipher(iv));
    ShortTlv(0x30, 0x26, KnownKdf());
    ShortTlv(0x30, 0x47, Encode(0x30, KnownKdf()) + Encode(0x30, Cipher(iv)));
    ShortTlv(0x06, 0x09, OID_PBES2);
    ShortTlv(0x30, 0x54, Algorithm(e, Some(32)));
    ShortTlv(0x04, 0x10, ct);
    ShortTlv(0x30, 0x68, Contents(e, Some(32)));
  }

  // ---- Reading inverts writing ----

  lemma ExpectInvertsEncode(tag: byte, value: Bytes, rest: Bytes, otherwise: Reason)
    requires |value| < MAX_LEN && tag != 0x1f
    ensures Expect(Encode(tag, value) + rest, tag, otherwise) == Ok((value, rest))
    ensures Encode(tag, value) + [] == Encode(tag, value)
    ensures PeekTag(Encode(tag, value) + rest) == tag
  {
    TakeInvertsEncode(tag, value, rest);
  }

  /** A leading zero octet does not change the value. */
  lemma {:induction false} LeadingZero(s: Bytes)
    ensures BigEndian([0] + s) == BigEndian(s)
  {
    if s != [] {
      assert ([0] + s)[..|s|] == [0] + s[..|s| - 1];
      LeadingZero(s[..|s| - 1]);
    } else {
      assert ([0] + s)[..0] == [];
    }
  }

  /** A number lies between what its leading digit and its length say. */
  lemma {:induction false} LeadingDigit(s: Bytes)
    requires s != []
    ensures s[0] as nat * Power256(|s| - 1) <= BigEndian(s) < (s[0] as nat + 1) * Power256(|s| - 1)
  {
    if |s| > 1 {
      var init := s[..|s| - 1];
      LeadingDigit(init);
      assert init[0] == s[0];
      ScaleBounds(s[0] as nat, Power256(|s| - 2), BigEndian(init), s[|s| - 1] as nat);
    } else {
      assert s[..0] == [];
    }
  }

  lemma ScaleBounds(d: nat, p: nat, x: nat, low: nat)
    requires d * p <= x < (d + 1) * p && low < 256
    ensures d * (256 * p) <= x * 256 + low < (d + 1) * (256 * p)
  {
    assert d * (256 * p) == 256 * (d * p);
    assert (d + 1) * (256 * p) == 256 * ((d + 1) * p);
  }

  const SIGN_LIMIT: nat := 0x8000_0000

  /** A non-negative INTEGER takes at most four octets exactly below 2^31, and reads back. */
  lemma IntegerRoundTrip(n: nat)
    ensures BigEndian(IntegerContents(n)) == n
    ensures IntegerContents(n) != []
    ensures |IntegerContents(n)| <= 4 <==> n < SIGN_LIMIT
  {
    var d := Digits(n);
    DigitsRoundTrip(n);
    LeadingZero(d);
    if d != [] {
      LeadingDigit(d);
      IntegerSize(n, d);
    }
  }

  lemma MulMonotone(a: nat, b: nat, p: nat)
    requires a <= b
    ensures a * p <= b * p
  {
  }

  lemma IntegerSize(n: nat, d: Bytes)
    requires d == Digits(n) != [] && d[0] != 0
    requires d[0] as nat * Power256(|d| - 1) <= n < (d[0] as nat + 1) * Power256(|d| - 1)
    ensures |IntegerContents(n)| <= 4 <==> n < SIGN_LIMIT
  {
    if |d| > 4 {
      ManyDigits(n, d[0] as nat, |d| - 1);
    } else if |d| == 4 {
      FourDigits(n, d[0] as nat);
    } else {
      FewDigits(n, d[0] as nat, |d| - 1);
    }
  }

  lemma ManyDigits(n: nat, first: nat, k: nat)
    requires first > 0 && k >= 4 && first * Power256(k) <= n
    ensures n >= MAX_LEN
  {
    PowerGrows(4, k);
    FourOctets();
    MulMonotone(1, first, Power256(k));
  }

  lemma FourDigits(n: nat, first: nat)
    requires first * Power256(3) <= n < (first + 1) * Power256(3)
    ensures n < SIGN_LIMIT <==> first < 0x80
  {
    SmallPowers();
  }

  lemma FewDigits(n: nat, first: nat, k: nat)
    requires k <= 2 && first < 256 && n < (first + 1) * Power256(k)
    ensures n < 0x100_0000
  {
    PowerGrows(k, 2);
    SmallPowers();
    MulMonotone(first + 1, 256, Power256(k));
  }

  lemma SmallPowers()
    ensures Power256(2) == 0x1_0000 && Power256(3) == 0x100_0000
  {
    assert Power256(1) == 256;
    assert Power256(2) == 0x1_0000;
  }

  /** What follows the iteration count reads back: the optional key length, then the PRF. */
  lemma PrfRoundTrip(keyLength: Option<nat>)
    requires |OptionalLength(keyLength)| < MAX_LEN
    ensures ReadPrf(OptionalLength(keyLength) + Encode(TAG_SEQUENCE, PrfIdentifier())) == Ok(())
  {
    var prf := Encode(TAG_SEQUENCE, PrfIdentifier());
    if keyLength.Some? {
      ExpectInvertsEncode(TAG_INTEGER, IntegerContents(keyLength.value), prf, BadKeyLength);
    } else {
      assert OptionalLength(keyLength) + prf == prf;
    }
    ExpectInvertsEncode(TAG_SEQUENCE, PrfIdentifier(), [], BadPrfSeq);
    ExpectInvertsEncode(TAG_OID, OID_HMAC_SHA256, Encode(0x05, []), UnsupportedPrf);
  }

  lemma KdfParamsRoundTrip(salt: Bytes, iters: nat, keyLength: Option<nat>)
    requires |KdfParams(salt, iters, keyLength)| < MAX_LEN
    ensures ReadKdfParams(KdfParams(salt, iters, keyLength))
         == if iters < SIGN_LIMIT then Ok((salt, iters)) else Err(BadIterationCount)
  {
    var tail := OptionalLength(keyLength) + Encode(TAG_SEQUENCE, PrfIdentifier());
    ExpectInvertsEncode(TAG_OCTETS, salt, Encode(TAG_INTEGER, IntegerContents(iters)) + tail, BadSalt);
    IntegerRoundTrip(iters);
    ExpectInvertsEncode(TAG_INTEGER, IntegerContents(iters), tail, BadIterationCount);
    PrfRoundTrip(keyLength);
  }

  lemma KdfRoundTrip(salt: Bytes, iters: nat, keyLength: Option<nat>)
    requires |Kdf(salt, iters, keyLength)| < MAX_LEN
    ensures ReadKdf(Kdf(salt, iters, keyLength))
         == if iters < SIGN_LIMIT then Ok((salt, iters)) else Err(BadIterationCount)
  {
    var kp := KdfParams(salt, iters, keyLength);
    ExpectInvertsEncode(TAG_OID, OID_PBKDF2, Encode(TAG_SEQUENCE, kp), UnsupportedKdf);
    ExpectInvertsEncode(TAG_SEQUENCE, kp, [], BadPbkdf2Params);
    KdfParamsRoundTrip(salt, iters, keyLength);
  }

  lemma CipherRoundTrip(iv: Bytes)
    requires |iv| < MAX_LEN
    ensures ReadCipher(Cipher(iv)) == if |iv| == 16 then Ok(iv) else Err(IvLengthMismatch)
  {
    ExpectInvertsEncode(TAG_OID, OID_AES256_CBC, Encode(TAG_OCTETS, iv), MissingCipherOid);
    ExpectInvertsEncode(TAG_OCTETS, iv, [], MissingIv);
  }

  /** The envelope reads back, except that an iteration count of 2^31 or more is refused. */
  lemma EnvelopeRoundTrip(e: Envelope, keyLength: Option<nat>)
    requires |Contents(e, keyLength)| < MAX_LEN && |e.iv| == 16
    ensures ReadEnvelope(WriteEnvelope(e, keyLength))
         == if e.iters < SIGN_LIMIT then Ok(e) else Err(BadIterationCount)
  {
    var kdf, cipher := Kdf(e.salt, e.iters, keyLength), Cipher(e.iv);
    var params := Encode(TAG_SEQUENCE, kdf) + Encode(TAG_SEQUENCE, cipher);
    var alg := Algorithm(e, keyLength);
    ExpectInvertsEncode(TAG_SEQUENCE, Contents(e, keyLength), [], NotASequence);
    ExpectInvertsEncode(TAG_SEQUENCE, alg, Encode(TAG_OCTETS, e.cipherText), MissingAlgorithmSeq);
    ExpectInvertsEncode(TAG_OID, OID_PBES2, Encode(TAG_SEQUENCE, params), MissingAlgorithmOid);
    ExpectInvertsEncode(TAG_SEQUENCE, params, [], MissingParams);
    ExpectInvertsEncode(TAG_SEQUENCE, kdf, Encode(TAG_SEQUENCE, cipher), MissingKdfSeq);
    KdfRoundTrip(e.salt, e.iters, keyLength);
    ExpectInvertsEncode(TAG_SEQUENCE, cipher, [], MissingCipherSeq);
    CipherRoundTrip(e.iv);
    ExpectInvertsEncode(TAG_OCTETS, e.cipherText, [], MissingEncryptedData);
  }

  /** What follows the salt and the iteration count decides. */
  lemma ParamsUpTo(salt: Bytes, iters: nat, tail: Bytes)
    requires iters < SIGN_LIMIT && |salt| < MAX_LEN
    ensures ReadKdfParams(Encode(TAG_OCTETS, salt) + (Encode(TAG_INTEGER, IntegerContents(iters)) + tail))
         == match ReadPrf(tail) case Ok(_) => Ok((salt, iters)) case Err(e) => Err(e)
  {
    IntegerRoundTrip(iters);
    ExpectInvertsEncode(TAG_OCTETS, salt, Encode(TAG_INTEGER, IntegerContents(iters)) + tail, BadSalt);
    ExpectInvertsEncode(TAG_INTEGER, IntegerContents(iters), tail, BadIterationCount);
  }

  /** Anything but hmacWithSHA256 is refused, and so is a PRF left out, which would mean hmacWithSHA1. */
  lemma OtherPrfRefused(salt: Bytes, iters: nat, oid: Bytes, rest: Bytes)
    requires iters < SIGN_LIMIT && oid != OID_HMAC_SHA256
    requires |salt| < MAX_LEN && |oid| < MAX_LEN && |Encode(TAG_OID, oid) + rest| < MAX_LEN
    ensures var start := Encode(TAG_INTEGER, IntegerContents(iters));
      && ReadKdfParams(Encode(TAG_OCTETS, salt) + (start + [])) == Err(UnsupportedPrf)
      && ReadKdfParams(Encode(TAG_OCTETS, salt) + (start + Encode(TAG_SEQUENCE, Encode(TAG_OID, oid) + rest))) == Err(UnsupportedPrf)
  {
    ParamsUpTo(salt, iters, []);
    var prf := Encode(TAG_OID, oid) + rest;
    ParamsUpTo(salt, iters, Encode(TAG_SEQUENCE, prf));
    OtherPrf(oid, rest);
  }

  lemma OtherPrf(oid: Bytes, rest: Bytes)
    requires oid != OID_HMAC_SHA256 && |oid| < MAX_LEN && |Encode(TAG_OID, oid) + rest| < MAX_LEN
    ensures ReadPrf(Encode(TAG_SEQUENCE, Encode(TAG_OID, oid) + rest)) == Err(UnsupportedPrf)
  {
    ExpectInvertsEncode(TAG_SEQUENCE, Encode(TAG_OID, oid) + rest, [], BadPrfSeq);
    ExpectInvertsEncode(TAG_OID, oid, rest, UnsupportedPrf);
  }

  /** Any other cipher, derivation function or scheme is refused as such, whatever follows it. */
  lemma OtherSchemesRefused(oid: Bytes, rest: Bytes)
    requires |oid| < MAX_LEN
    ensures oid != OID_AES256_CBC ==> ReadCipher(Encode(TAG_OID, oid) + rest) == Err(UnsupportedCipher)
    ensures oid != OID_PBKDF2 ==> ReadKdf(Encode(TAG_OID, oid) + rest) == Err(UnsupportedKdf)
    ensures oid != OID_PBES2 ==> ReadAlgorithm(Encode(TAG_OID, oid) + rest) == Err(UnsupportedAlgorithm)
  {
    ExpectInvertsEncode(TAG_OID, oid, rest, MissingCipherOid);
    ExpectInvertsEncode(TAG_OID, oid, rest, UnsupportedKdf);
    ExpectInvertsEncode(TAG_OID, oid, rest, MissingAlgorithmOid);
  }

  /**
   Opening after one iteration, written out: the key is one PRF output under the password,
   over the salt and the block number 1; it decrypts the cipher text under the IV; the text
   is what the padding leaves of it.
   */
  lemma OpenWrittenOut(c: Crypto, salt: Bytes, iv: Bytes, ct: Bytes, password: Bytes)
    requires Pbkdf2.Digests(c.prf) && |ct| > 0 && |ct| % BLOCK == 0
    ensures var text := c.decrypt(c.prf(password, salt + [0, 0, 0, 1]), iv, ct);
      Open(c, Envelope(salt, 1, iv, ct), password, true)
      == if StripLength(text) == 0 then Err(BadPadding) else Ok(text[..StripLength(text)])
  {
    Pbkdf2.FirstBlock(c.prf, password, salt);
  }

  /** Opening what was sealed under the same password gives the text back, unless it was empty. */
  lemma OpenInvertsSeal(c: Crypto, plain: Bytes, password: Bytes, salt: Bytes, iters: nat, iv: Bytes)
    requires Pbkdf2.Digests(c.prf) && CbcInverts(c) && iters > 0
    ensures Open(c, Seal(c, plain, password, salt, iters, iv), password, true)
         == if plain == [] then Err(BadPadding) else Ok(plain)
  {
    var e := Seal(c, plain, password, salt, iters, iv);
    var dk := Pbkdf2.DerivedKey(c.prf, password, salt, iters, 32);
    StripInvertsPad(plain);
    assert c.decrypt(dk, iv, e.cipherText) == Pad(plain);
    assert |e.cipherText| == |Pad(plain)| > 0;
  }

  /**
   The round trip.  For every password, salt, positive iteration count, 16-octet IV and
   optional key length, decoding what was encoded under the same password returns the
   plaintext if and only if the plaintext is not empty and the iteration count is below
   2^31; otherwise it reports exactly which of the two failed.
   */
  lemma KeyRoundTrip(c: Crypto, plain: Bytes, password: Bytes, salt: Bytes, iters: nat, iv: Bytes, keyLength: Option<nat>)
    requires Pbkdf2.Digests(c.prf) && CbcInverts(c)
    requires password != [] && iters > 0 && |iv| == 16
    requires |Contents(Seal(c, plain, password, salt, iters, iv), keyLength)| < MAX_LEN
    ensures var der := WriteEnvelope(Seal(c, plain, password, salt, iters, iv), keyLength);
      Decode(c, der, password, true)
      == if iters >= SIGN_LIMIT then Err(BadIterationCount) else if plain == [] then Err(BadPadding) else Ok(plain)
  {
    var e := Seal(c, plain, password, salt, iters, iv);
    EnvelopeRoundTrip(e, keyLength);
    OpenInvertsSeal(c, plain, password, salt, iters, iv);
  }
}

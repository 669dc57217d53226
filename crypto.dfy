/**
 * The WeCom callback envelope: the sorted-concatenation signature, the
 * PKCS#7 padding of section 6.3 of RFC 5652 with a 32-byte block, and the
 * frame random16 ‖ BE32(len) ‖ msg ‖ receiverID that is padded, AES-CBC
 * encrypted with the key's first 16 bytes as IV, and base64 encoded.
 *
 * AES-CBC, base64 and SHA-1 are foreign library calls here: they are the
 * function-valued fields of `Primitives`, and `Lawful` states the only
 * facts the model relies on (decoding inverts encoding, CBC decryption
 * inverts CBC encryption on whole blocks and keeps the length).
 */
module Crypto {
  import opened Wrappers
  import Ordering

  type Byte = x: int | 0 <= x < 256

  const AesBlockSize: nat := 16
  const Pkcs7BlockSize: nat := 32
  /** random16 plus the 4-byte length */
  const HeaderLen: nat := 20
  const Uint32Modulus: nat := 0x1_0000_0000

  datatype Primitives = Primitives(
    base64Encode: seq<Byte> -> string,
    base64Decode: string -> Option<seq<Byte>>,
    /** key, iv, data */
    cbcEncrypt: (seq<Byte>, seq<Byte>, seq<Byte>) -> seq<Byte>,
    cbcDecrypt: (seq<Byte>, seq<Byte>, seq<Byte>) -> seq<Byte>,
    /** lower-case hex of the SHA-1 digest of the string's bytes */
    sha1Hex: string -> string)

  ghost predicate Lawful(p: Primitives) {
    && (forall b :: p.base64Decode(p.base64Encode(b)) == Some(b))
    && (forall k, iv, x :: |x| % AesBlockSize == 0 ==> |p.cbcEncrypt(k, iv, x)| == |x|)
    && (forall k, iv, x :: |x| % AesBlockSize == 0 ==> p.cbcDecrypt(k, iv, p.cbcEncrypt(k, iv, x)) == x)
  }

  datatype CryptoConfig = CryptoConfig(token: string, encodingAesKey: string, receiverId: seq<Byte>)

  /** The configured instance; its fields never change after NewCrypto. */
  datatype Crypto = Crypto(token: string, aesKey: seq<Byte>, receiverId: seq<Byte>)

  datatype ConfigError = Incomplete | KeyNotBase64 | KeyLength(n: nat)

  /** aes.NewCipher accepts 16-, 24- and 32-byte keys. */
  predicate ValidAesKey(k: seq<Byte>) {
    |k| == 16 || |k| == 24 || |k| == 32
  }

  /** NewCrypto: all three settings present and the key decodes to 32 bytes. */
  function NewCrypto(p: Primitives, cfg: CryptoConfig): (r: Result<Crypto, ConfigError>)
    ensures r.Ok? <==>
      && cfg.token != "" && cfg.encodingAesKey != "" && cfg.receiverId != []
      && p.base64Decode(cfg.encodingAesKey + "=").Some?
      && |p.base64Decode(cfg.encodingAesKey + "=").value| == 32
    ensures r.Ok? ==> r.value.token == cfg.token && r.value.receiverId == cfg.receiverId
    ensures r.Ok? ==> ValidAesKey(r.value.aesKey)
  {
    if cfg.token == "" || cfg.encodingAesKey == "" || cfg.receiverId == [] then Err(Incomplete)
    else match p.base64Decode(cfg.encodingAesKey + "=")
      case None => Err(KeyNotBase64)
      case Some(key) =>
        if |key| != 32 then Err(KeyLength(|key|))
        else Ok(Crypto(cfg.token, key, cfg.receiverId))
  }

  // ---------------------------------------------------------------------
  // Signature

  function ConcatAll(items: seq<string>): string {
    if items == [] then "" else items[0] + ConcatAll(items[1..])
  }

  /** signature: SHA-1 hex of the four inputs, sorted and concatenated. */
  function Signature(p: Primitives, token: string, timestamp: string, nonce: string, encrypted: string): string {
    p.sha1Hex(ConcatAll(Ordering.SortStrings([token, timestamp, nonce, encrypted])))
  }

  /** Any reordering of the four inputs gives the same signature. */
  lemma SignatureOrderInsensitive(p: Primitives, a: string, b: string, c: string, d: string,
                                  w: string, x: string, y: string, z: string)
    requires multiset{a, b, c, d} == multiset{w, x, y, z}
    ensures Signature(p, a, b, c, d) == Signature(p, w, x, y, z)
  {
    assert multiset([a, b, c, d]) == multiset{a, b, c, d};
    assert multiset([w, x, y, z]) == multiset{w, x, y, z};
    Ordering.SortIgnoresOrder([a, b, c, d], [w, x, y, z]);
  }

  /** VerifySignature: the recomputed signature equals the presented one exactly. */
  predicate VerifySignature(p: Primitives, c: Crypto, msgSignature: string, timestamp: string, nonce: string, encrypted: string) {
    Signature(p, c.token, timestamp, nonce, encrypted) == msgSignature
  }

  /**
   * The verdict does not depend on which of the four inputs plays which
   * role: any arrangement of (token, timestamp, nonce, encrypted) hashes to
   * the value VerifySignature compares against.
   */
  lemma VerifySignatureOrderInsensitive(p: Primitives, c: Crypto, sig: string, timestamp: string, nonce: string,
                                        encrypted: string, w: string, x: string, y: string, z: string)
    requires multiset{c.token, timestamp, nonce, encrypted} == multiset{w, x, y, z}
    ensures VerifySignature(p, c, sig, timestamp, nonce, encrypted) <==> sig == Signature(p, w, x, y, z)
  {
    SignatureOrderInsensitive(p, c.token, timestamp, nonce, encrypted, w, x, y, z);
  }

  // ---------------------------------------------------------------------
  // PKCS#7 with the protocol's 32-byte block (the only block size the
  // source passes to pkcs7Pad and pkcs7Unpad)

  function Repeat(v: Byte, n: nat): (r: seq<Byte>)
    ensures |r| == n && forall i :: 0 <= i < n ==> r[i] == v
  {
    seq(n, _ => v)
  }

  /** pkcs7Pad: appends 1..32 bytes, each equal to the number appended. */
  function Pkcs7Pad(b: seq<Byte>): (r: seq<Byte>)
    ensures |b| < |r| <= |b| + Pkcs7BlockSize && r[..|b|] == b
    ensures forall i :: |b| <= i < |r| ==> r[i] == |r| - |b|
    ensures |r| % Pkcs7BlockSize == 0
    ensures |b| % Pkcs7BlockSize == 0 ==> |r| == |b| + Pkcs7BlockSize
  {
    var padding := Pkcs7BlockSize - |b| % Pkcs7BlockSize;
    b + Repeat(padding as Byte, padding)
  }

  datatype PadError = InvalidData | InvalidPadding

  /** The last `padding` bytes of b all equal `padding`. */
  predicate PaddingBytesOk(b: seq<Byte>, padding: nat)
    requires padding <= |b|
  {
    forall j :: |b| - padding <= j < |b| ==> b[j] == padding
  }

  /** What pkcs7Unpad returns (the loop of the source is the method below). */
  function Pkcs7Unpadded(b: seq<Byte>): (r: Result<seq<Byte>, PadError>)
    ensures r.Ok? ==> |r.value| < |b| && r.value == b[..|r.value|]
  {
    if |b| == 0 || |b| % Pkcs7BlockSize != 0 then Err(InvalidData)
    else
      var padding := b[|b| - 1];
      if padding == 0 || padding > Pkcs7BlockSize then Err(InvalidPadding)
      else if !PaddingBytesOk(b, padding) then Err(InvalidPadding)
      else Ok(b[..|b| - padding])
  }

  /** pkcs7Unpad, with its byte-checking loop. */
  method Pkcs7Unpad(b: seq<Byte>) returns (r: Result<seq<Byte>, PadError>)
    ensures r == Pkcs7Unpadded(b)
  {
    if |b| == 0 || |b| % Pkcs7BlockSize != 0 {
      return Err(InvalidData);
    }
    var padding := b[|b| - 1];
    if padding == 0 || padding > Pkcs7BlockSize {
      return Err(InvalidPadding);
    }
    var i := 0;
    while i < padding
      invariant 0 <= i <= padding
      invariant forall j :: |b| - i <= j < |b| ==> b[j] == padding
    {
      if b[|b| - 1 - i] != padding {
        return Err(InvalidPadding);
      }
      i := i + 1;
    }
    return Ok(b[..|b| - padding]);
  }

  /** Unpadding undoes padding, for every byte string. */
  lemma UnpadPad(b: seq<Byte>)
    ensures Pkcs7Unpadded(Pkcs7Pad(b)) == Ok(b)
  {
    var r := Pkcs7Pad(b);
    assert r[|r| - 1] == |r| - |b|;
    assert r[..|r| - (|r| - |b|)] == b;
  }

  /** Whatever unpadding accepts is exactly the padding of what it returns. */
  lemma PadUnpad(b: seq<Byte>)
    requires Pkcs7Unpadded(b).Ok?
    ensures Pkcs7Pad(Pkcs7Unpadded(b).value) == b
  {
    var m := Pkcs7Unpadded(b).value;
    var padding := b[|b| - 1];
    assert |m| == |b| - padding;
    var r := Pkcs7Pad(m);
    assert |r| == |b|;
    forall j | 0 <= j < |b| ensures r[j] == b[j] {
      if j >= |m| { assert r[j] == padding; }
    }
  }

  // ---------------------------------------------------------------------
  // Frame layout

  /** binary.BigEndian.PutUint32 */
  function BigEndian32(n: nat): (r: seq<Byte>)
    requires n < Uint32Modulus
    ensures |r| == 4
  {
    [n / 0x100_0000, (n / 0x1_0000) % 0x100, (n / 0x100) % 0x100, n % 0x100]
  }

  /** binary.BigEndian.Uint32 */
  function ReadBigEndian32(b: seq<Byte>): (n: nat)
    requires |b| == 4
    ensures n < Uint32Modulus
  {
    var b0: int, b1: int, b2: int, b3: int := b[0], b[1], b[2], b[3];
    ((b0 * 0x100 + b1) * 0x100 + b2) * 0x100 + b3
  }

  lemma ReadBigEndian32OfBigEndian32(n: nat)
    requires n < Uint32Modulus
    ensures ReadBigEndian32(BigEndian32(n)) == n
  {
    var b := BigEndian32(n);
    var b0: int, b1: int, b2: int := b[0], b[1], b[2];
    assert b0 * 0x100 + b1 == n / 0x1_0000;
    assert (b0 * 0x100 + b1) * 0x100 + b2 == n / 0x100;
  }

  /** The plaintext frame Encrypt builds; the length is written as a uint32. */
  function Frame(random16: seq<Byte>, msg: seq<Byte>, receiverId: seq<Byte>): seq<Byte> {
    random16 + BigEndian32(|msg| % Uint32Modulus) + msg + receiverId
  }

  datatype DecryptError =
    | Base64Error
    | KeyError
    | NotBlockAligned
    | BadPadding(pad: PadError)
    | PlaintextTooShort
    | MsgLenOutOfRange
    | ReceiverIdMismatch

  /**
   * The frame checks of Decrypt after unpadding. A frame is accepted only
   * when it is exactly Frame(random16, msg, receiverId) for the message it
   * returns and the configured receiver ID.
   */
  function ParseFrame(plain: seq<Byte>, receiverId: seq<Byte>): (r: Result<seq<Byte>, DecryptError>)
    ensures r.Ok? ==> |plain| >= HeaderLen && plain == Frame(plain[..16], r.value, receiverId)
    ensures r.Err? ==> r.error in {PlaintextTooShort, MsgLenOutOfRange, ReceiverIdMismatch}
  {
    if |plain| < HeaderLen then Err(PlaintextTooShort)
    else
      var msgLen := ReadBigEndian32(plain[16..20]);
      if HeaderLen + msgLen > |plain| then Err(MsgLenOutOfRange)
      else if plain[HeaderLen + msgLen..] != receiverId then Err(ReceiverIdMismatch)
      else
        var msg := plain[HeaderLen..HeaderLen + msgLen];
        assert BigEndian32(|msg| % Uint32Modulus) == plain[16..20] by {
          ReadBigEndian32Injective(plain[16..20]);
        }
        assert plain == plain[..16] + plain[16..20] + msg + plain[HeaderLen + msgLen..];
        Ok(msg)
  }

  lemma ReadBigEndian32Injective(b: seq<Byte>)
    requires |b| == 4
    ensures BigEndian32(ReadBigEndian32(b)) == b
  {
    var n := ReadBigEndian32(b);
    var b0: int, b1: int, b2: int := b[0], b[1], b[2];
    assert n / 0x100 == (b0 * 0x100 + b1) * 0x100 + b2;
    assert n / 0x1_0000 == b0 * 0x100 + b1;
    assert n / 0x100_0000 == b0;
  }

  /** A frame built for `receiverId` parses back to its message. */
  lemma ParseFrameOfFrame(random16: seq<Byte>, msg: seq<Byte>, receiverId: seq<Byte>)
    requires |random16| == 16 && |msg| < Uint32Modulus
    ensures ParseFrame(Frame(random16, msg, receiverId), receiverId) == Ok(msg)
  {
    var f := Frame(random16, msg, receiverId);
    assert f[16..20] == BigEndian32(|msg|);
    ReadBigEndian32OfBigEndian32(|msg|);
    assert f[HeaderLen..HeaderLen + |msg|] == msg;
    assert f[HeaderLen + |msg|..] == receiverId;
  }

  /** A frame built for one receiver ID is refused under any other. */
  lemma ParseFrameOtherReceiver(random16: seq<Byte>, msg: seq<Byte>, a: seq<Byte>, b: seq<Byte>)
    requires |random16| == 16 && |msg| < Uint32Modulus && a != b
    ensures ParseFrame(Frame(random16, msg, a), b) == Err(ReceiverIdMismatch)
  {
    var f := Frame(random16, msg, a);
    assert f[16..20] == BigEndian32(|msg|);
    ReadBigEndian32OfBigEndian32(|msg|);
    assert f[HeaderLen + |msg|..] == a;
  }

  // ---------------------------------------------------------------------
  // Decrypt and Encrypt

  function Iv(key: seq<Byte>): seq<Byte>
    requires ValidAesKey(key)
  {
    key[..AesBlockSize]
  }

  /**
   * The first half of Decrypt: base64, key and block-alignment checks, CBC
   * decryption and unpadding, giving the frame.
   */
  function OpenEnvelope(p: Primitives, c: Crypto, encryptedBase64: string): (r: Result<seq<Byte>, DecryptError>)
    ensures p.base64Decode(encryptedBase64).None? ==> r == Err(Base64Error)
    ensures (p.base64Decode(encryptedBase64).Some? && ValidAesKey(c.aesKey)
             && |p.base64Decode(encryptedBase64).value| % AesBlockSize != 0) ==> r == Err(NotBlockAligned)
    ensures r.Ok? ==> && ValidAesKey(c.aesKey) && p.base64Decode(encryptedBase64).Some?
                      && Pkcs7Pad(r.value) == p.cbcDecrypt(c.aesKey, Iv(c.aesKey), p.base64Decode(encryptedBase64).value)
  {
    match p.base64Decode(encryptedBase64)
    case None => Err(Base64Error)
    case Some(ciphertext) =>
      if !ValidAesKey(c.aesKey) then Err(KeyError)
      else if |ciphertext| % AesBlockSize != 0 then Err(NotBlockAligned)
      else
        var plain := p.cbcDecrypt(c.aesKey, Iv(c.aesKey), ciphertext);
        match Pkcs7Unpadded(plain)
        case Err(e) => Err(BadPadding(e))
        case Ok(frame) => PadUnpad(plain); Ok(frame)
  }

  /** Decrypt: the envelope is opened, then the frame is checked. */
  function Decrypt(p: Primitives, c: Crypto, encryptedBase64: string): (r: Result<seq<Byte>, DecryptError>)
    ensures OpenEnvelope(p, c, encryptedBase64).Err? ==> r == Err(OpenEnvelope(p, c, encryptedBase64).error)
    ensures r.Ok? ==> var frame := OpenEnvelope(p, c, encryptedBase64).value;
                      |frame| >= HeaderLen && frame == Frame(frame[..16], r.value, c.receiverId)
  {
    match OpenEnvelope(p, c, encryptedBase64)
    case Err(e) => Err(e)
    case Ok(frame) => ParseFrame(frame, c.receiverId)
  }

  datatype EncryptError = Random16Length | EncryptKeyError

  /** Encrypt: frame, pad to 32 bytes, CBC-encrypt, base64. */
  function Encrypt(p: Primitives, c: Crypto, plaintext: seq<Byte>, random16: seq<Byte>): (r: Result<string, EncryptError>)
    ensures |random16| != 16 ==> r == Err(Random16Length)
    ensures r.Err? <==> |random16| != 16 || !ValidAesKey(c.aesKey)
  {
    if |random16| != 16 then Err(Random16Length)
    else if !ValidAesKey(c.aesKey) then Err(EncryptKeyError)
    else
      var payload := Pkcs7Pad(Frame(random16, plaintext, c.receiverId));
      Ok(p.base64Encode(p.cbcEncrypt(c.aesKey, Iv(c.aesKey), payload)))
  }

  /** Decrypt(Encrypt(m, r)) == m for every 16-byte r under the same instance. */
  lemma DecryptEncrypt(p: Primitives, c: Crypto, msg: seq<Byte>, random16: seq<Byte>)
    requires Lawful(p) && ValidAesKey(c.aesKey)
    requires |random16| == 16 && |msg| < Uint32Modulus
    ensures Encrypt(p, c, msg, random16).Ok?
    ensures Decrypt(p, c, Encrypt(p, c, msg, random16).value) == Ok(msg)
  {
    var frame := Frame(random16, msg, c.receiverId);
    var payload := Pkcs7Pad(frame);
    var ct := p.cbcEncrypt(c.aesKey, Iv(c.aesKey), payload);
    assert |payload| % AesBlockSize == 0;
    assert p.base64Decode(p.base64Encode(ct)) == Some(ct);
    assert p.cbcDecrypt(c.aesKey, Iv(c.aesKey), ct) == payload;
    UnpadPad(frame);
    ParseFrameOfFrame(random16, msg, c.receiverId);
  }

  /**
   * Ciphertext made by an instance with another receiver ID (same key) is
   * always refused with ReceiverIdMismatch.
   */
  lemma DecryptForeignReceiver(p: Primitives, a: Crypto, b: Crypto, msg: seq<Byte>, random16: seq<Byte>)
    requires Lawful(p) && ValidAesKey(a.aesKey) && b.aesKey == a.aesKey
    requires a.receiverId != b.receiverId
    requires |random16| == 16 && |msg| < Uint32Modulus
    ensures Encrypt(p, a, msg, random16).Ok?
    ensures Decrypt(p, b, Encrypt(p, a, msg, random16).value) == Err(ReceiverIdMismatch)
  {
    var frame := Frame(random16, msg, a.receiverId);
    var payload := Pkcs7Pad(frame);
    var ct := p.cbcEncrypt(a.aesKey, Iv(a.aesKey), payload);
    assert |payload| % AesBlockSize == 0;
    assert p.base64Decode(p.base64Encode(ct)) == Some(ct);
    assert p.cbcDecrypt(b.aesKey, Iv(b.aesKey), ct) == payload;
    UnpadPad(frame);
    ParseFrameOtherReceiver(random16, msg, a.receiverId, b.receiverId);
  }

  // ---------------------------------------------------------------------
  // The length guard as the source writes it

  datatype FrameOutcome = Parsed(result: Result<seq<Byte>, DecryptError>) | SlicePanic

  /**
   * The frame checks with `20+msgLen` computed in uint32 arithmetic before
   * the conversion to int, as in the source. When the sum wraps below 20
   * the guard passes and `plain[20:20+msgLen]` has its low bound above its
   * high bound, which panics in Go.
   */
  function ParseFrameAsWritten(plain: seq<Byte>, receiverId: seq<Byte>): FrameOutcome {
    if |plain| < HeaderLen then Parsed(Err(PlaintextTooShort))
    else
      var msgLen := ReadBigEndian32(plain[16..20]);
      var end := (HeaderLen + msgLen) % Uint32Modulus;
      if end > |plain| then Parsed(Err(MsgLenOutOfRange))
      else if end < HeaderLen then SlicePanic
      else if plain[end..] != receiverId then Parsed(Err(ReceiverIdMismatch))
      else Parsed(Ok(plain[HeaderLen..end]))
  }

  /** A 20-byte frame declaring 0xFFFFFFFF message bytes panics as written and is refused when corrected. */
  lemma MsgLenWrapPanics(receiverId: seq<Byte>)
    ensures var plain := Repeat(0, 16) + [0xFF, 0xFF, 0xFF, 0xFF];
            ParseFrameAsWritten(plain, receiverId) == SlicePanic
            && ParseFrame(plain, receiverId) == Err(MsgLenOutOfRange)
  {
    var plain := Repeat(0, 16) + [0xFF, 0xFF, 0xFF, 0xFF];
    assert plain[16..20] == [0xFF, 0xFF, 0xFF, 0xFF];
  }

  /** Whenever the declared length leaves room for the uint32 sum, both readings agree. */
  lemma ParseFrameAgreesWithoutWrap(plain: seq<Byte>, receiverId: seq<Byte>)
    requires |plain| < HeaderLen || ReadBigEndian32(plain[16..20]) < Uint32Modulus - HeaderLen
    ensures ParseFrameAsWritten(plain, receiverId) == Parsed(ParseFrame(plain, receiverId))
  {
  }
}

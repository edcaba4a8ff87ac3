/** The message-push channel: signatures, and the framing, padding and CBC encryption of messages
    (pay/xpay_push.go). AES is any block permutation and SHA-1 any function. */
module PushCryptos {
  import opened Text
  import opened Base64

  type Bytes = seq<Byte>

  // ---- exclusive or ---------------------------------------------------------------------------------------

  function Pow2(n: nat): nat {
    if n == 0 then 1 else 2 * Pow2(n - 1)
  }

  function XorBits(a: nat, b: nat, n: nat): (r: nat)
    ensures r < Pow2(n)
  {
    if n == 0 then 0 else 2 * XorBits(a / 2, b / 2, n - 1) + (a % 2 + b % 2) % 2
  }

  /** A digit put behind a number comes apart again; adding a bit twice, modulo 2, gives the bit back. */
  lemma Bits(q: nat, a: nat, b: nat, r: nat)
    requires r == 2 * q + (a % 2 + b % 2) % 2
    ensures r / 2 == q && (r % 2 + b % 2) % 2 == a % 2 && 2 * (a / 2) + a % 2 == a
  {
    assert r % 2 == (a % 2 + b % 2) % 2;
  }

  lemma {:induction false} XorBitsTwice(a: nat, b: nat, n: nat)
    requires a < Pow2(n)
    ensures XorBits(XorBits(a, b, n), b, n) == a
  {
    if n > 0 {
      XorBitsTwice(a / 2, b / 2, n - 1);
      XorUnfold(a, b, n);
      XorUnfold(XorBits(a, b, n), b, n);
      Bits(XorBits(a / 2, b / 2, n - 1), a, b, XorBits(a, b, n));
      hide *;
    }
  }

  lemma XorUnfold(a: nat, b: nat, n: nat)
    requires n > 0
    ensures XorBits(a, b, n) == 2 * XorBits(a / 2, b / 2, n - 1) + (a % 2 + b % 2) % 2
  {
  }

  lemma ByteRange()
    ensures Pow2(8) == 256
  {
    assert Pow2(2) == 4 && Pow2(4) == 16 && Pow2(6) == 64;
  }

  function Xor(a: Byte, b: Byte): Byte {
    ByteRange();
    XorBits(a, b, 8)
  }

  /** The second block is cut or zero-extended to the first's length. */
  function XorBlock(a: Bytes, b: Bytes): (r: Bytes)
    ensures |r| == |a|
  {
    seq(|a|, i requires 0 <= i < |a| => Xor(a[i], if i < |b| then b[i] else 0))
  }

  lemma XorTwice(a: Bytes, b: Bytes)
    ensures XorBlock(XorBlock(a, b), b) == a
  {
    ByteRange();
    forall i | 0 <= i < |a| ensures XorBlock(XorBlock(a, b), b)[i] == a[i] {
      XorBitsTwice(a[i], if i < |b| then b[i] else 0, 8);
    }
  }

  // ---- cipher block chaining (section 6.2 of NIST SP 800-38A) ------------------------------------------------

  const BLOCK := 16

  datatype Cipher = Cipher(enc: Bytes -> Bytes, dec: Bytes -> Bytes)

  predicate Block(b: Bytes) {
    |b| == BLOCK
  }

  ghost predicate Permutation(c: Cipher) {
    forall b: Bytes {:trigger Block(b)} ::
      Block(b) ==> |c.enc(b)| == BLOCK && |c.dec(b)| == BLOCK && c.dec(c.enc(b)) == b && c.enc(c.dec(b)) == b
  }

  function CBCEncrypt(c: Cipher, iv: Bytes, pt: Bytes): Bytes
    decreases |pt|
  {
    if |pt| < BLOCK then [] else
      var b := c.enc(XorBlock(pt[..BLOCK], iv));
      b + CBCEncrypt(c, b, pt[BLOCK..])
  }

  function CBCDecrypt(c: Cipher, iv: Bytes, ct: Bytes): Bytes
    decreases |ct|
  {
    if |ct| < BLOCK then [] else
      XorBlock(c.dec(ct[..BLOCK]), iv) + CBCDecrypt(c, ct[..BLOCK], ct[BLOCK..])
  }

  /** On whole blocks decryption undoes encryption. */
  lemma {:induction false} DecryptEncrypt(c: Cipher, iv: Bytes, pt: Bytes)
    requires Permutation(c) && |pt| % BLOCK == 0
    decreases |pt|
    ensures |CBCEncrypt(c, iv, pt)| == |pt| && CBCDecrypt(c, iv, CBCEncrypt(c, iv, pt)) == pt
  {
    if |pt| >= BLOCK {
      var x := XorBlock(pt[..BLOCK], iv);
      assert Block(x);
      var b := c.enc(x);
      DecryptEncrypt(c, b, pt[BLOCK..]);
      XorTwice(pt[..BLOCK], iv);
      var ct := b + CBCEncrypt(c, b, pt[BLOCK..]);
      assert ct[..BLOCK] == b && ct[BLOCK..] == CBCEncrypt(c, b, pt[BLOCK..]);
      assert pt == pt[..BLOCK] + pt[BLOCK..];
    }
  }

  /** And encryption undoes decryption: every block-aligned text is the ciphertext of exactly one plaintext. */
  lemma {:induction false} EncryptDecrypt(c: Cipher, iv: Bytes, ct: Bytes)
    requires Permutation(c) && |ct| % BLOCK == 0
    decreases |ct|
    ensures |CBCDecrypt(c, iv, ct)| == |ct| && CBCEncrypt(c, iv, CBCDecrypt(c, iv, ct)) == ct
  {
    if |ct| >= BLOCK {
      assert Block(ct[..BLOCK]);
      EncryptDecrypt(c, ct[..BLOCK], ct[BLOCK..]);
      var d := c.dec(ct[..BLOCK]);
      XorTwice(d, iv);
      var pt := XorBlock(d, iv) + CBCDecrypt(c, ct[..BLOCK], ct[BLOCK..]);
      assert pt[..BLOCK] == XorBlock(d, iv) && pt[BLOCK..] == CBCDecrypt(c, ct[..BLOCK], ct[BLOCK..]);
      assert ct == ct[..BLOCK] + ct[BLOCK..];
    }
  }

  // ---- framing ----------------------------------------------------------------------------------------------

  const LIMIT := 0x1_0000_0000

  function Low(n: nat): Byte {
    n % 256
  }

  /** `uint32(n)` in network byte order. */
  function BE32(n: nat): (r: Bytes)
    ensures |r| == 4
  {
    [Low(n / 16777216), Low(n / 65536), Low(n / 256), Low(n)]
  }

  function Uint32(b: Bytes): nat
    requires |b| == 4
  {
    b[0] as int * 16777216 + b[1] as int * 65536 + b[2] as int * 256 + b[3] as int
  }

  /** The low digit of a number in base 256, and the rest. */
  lemma Digit(n: nat)
    ensures n == n / 256 * 256 + n % 256 && n % 256 < 256
  {
  }

  lemma DigitsBelow(q: nat, r: nat)
    requires r < 256
    ensures (q * 256 + r) / 256 == q && (q * 256 + r) % 256 == r
  {
  }

  lemma Shifts(n: nat)
    ensures n / 65536 == n / 256 / 256 && n / 16777216 == n / 256 / 256 / 256
  {
  }

  lemma RemainderIs(n: nat, q: nat, r: nat)
    requires n == q * LIMIT + r && r < LIMIT
    ensures n % LIMIT == r
  {
  }

  lemma LengthRoundTrip(n: nat)
    ensures Uint32(BE32(n)) == n % LIMIT
  {
    var q3 := n / 256;
    var q2 := q3 / 256;
    var q1 := q2 / 256;
    Shifts(n);
    assert Uint32(BE32(n)) == q1 % 256 * 16777216 + q2 % 256 * 65536 + q3 % 256 * 256 + n % 256;
    Digit(n); Digit(q3); Digit(q2); Digit(q1);
    hide *;
    RemainderIs(n, q1 / 256, q1 % 256 * 16777216 + q2 % 256 * 65536 + q3 % 256 * 256 + n % 256);
  }

  lemma FourBytes(x: Byte, y: Byte, z: Byte, w: Byte)
    ensures var n := x as int * 16777216 + y as int * 65536 + z as int * 256 + w as int;
            n < LIMIT && Low(n / 16777216) == x && Low(n / 65536) == y && Low(n / 256) == z && Low(n) == w
  {
    var n1: nat := x as int * 256 + y as int;
    var n2: nat := n1 * 256 + z as int;
    var n: nat := n2 * 256 + w as int;
    DigitsBelow(x, y);
    DigitsBelow(n1, z);
    DigitsBelow(n2, w);
    Shifts(n);
  }

  lemma LengthInjective(b: Bytes)
    requires |b| == 4
    ensures BE32(Uint32(b)) == b && Uint32(b) < LIMIT
  {
    FourBytes(b[0], b[1], b[2], b[3]);
  }

  function Body(random: Bytes, msg: Bytes, appID: Bytes): Bytes {
    random + BE32(|msg|) + msg + appID
  }

  function Padding(length: nat): (r: Bytes)
    ensures 1 <= |r| <= 32 && (length + |r|) % 32 == 0 && forall i :: 0 <= i < |r| ==> r[i] == |r|
  {
    var pad := 32 - length % 32;
    seq(pad, _ => pad)
  }

  function Framed(random: Bytes, msg: Bytes, appID: Bytes): Bytes {
    Body(random, msg, appID) + Padding(|Body(random, msg, appID)|)
  }

  /** The plaintext is 16 bytes, the message's length, the message, the app ID, and 1 to 32 bytes of which
      the last counts them. */
  ghost predicate SplitsAs(pt: Bytes, appID: Bytes, msg: Bytes, random: Bytes, app: Bytes, tail: Bytes) {
    && pt == random + BE32(|msg|) + msg + app + tail
    && |random| == 16 && |msg| < LIMIT && (appID == [] || app == appID)
    && 1 <= |tail| <= 32 && tail[|tail| - 1] == |tail|
  }

  ghost predicate Splits(pt: Bytes, appID: Bytes, msg: Bytes) {
    exists random, app, tail :: SplitsAs(pt, appID, msg, random, app, tail)
  }

  /** Where the parts of a split plaintext lie. */
  lemma SplitPlaces(pt: Bytes, appID: Bytes, msg: Bytes, random: Bytes, app: Bytes, tail: Bytes)
    requires SplitsAs(pt, appID, msg, random, app, tail)
    ensures var pad := |tail|; var n := |msg|;
            && |pt| >= 21 && pt[|pt| - 1] == pad && 20 + n <= |pt| - pad
            && Uint32(pt[16..20]) == n && pt[20..20 + n] == msg && pt[20 + n..|pt| - pad] == app
  {
    var n := |msg|;
    LengthRoundTrip(n);
    hide BE32, Uint32;
    var front := random + BE32(n);
    assert pt == front + msg + app + tail && |front| == 20;
    assert pt[16..20] == front[16..20] == BE32(n);
    assert pt[20..20 + n] == msg;
    assert pt[20 + n..|pt| - |tail|] == app;
  }

  /** A plaintext splits in at most one way. */
  lemma SplitUnique(pt: Bytes, appID: Bytes, msg: Bytes, msg': Bytes)
    requires Splits(pt, appID, msg) && Splits(pt, appID, msg')
    ensures msg == msg'
  {
    var r, a, t :| SplitsAs(pt, appID, msg, r, a, t);
    var r', a', t' :| SplitsAs(pt, appID, msg', r', a', t');
    SplitPlaces(pt, appID, msg, r, a, t);
    SplitPlaces(pt, appID, msg', r', a', t');
  }

  lemma SplitFromPlaces(pt: Bytes, appID: Bytes, pad: nat, n: nat)
    requires |pt| >= 1 && pt[|pt| - 1] == pad && 1 <= pad <= 32 && 20 + n + pad <= |pt|
    requires Uint32(pt[16..20]) == n && (appID == [] || pt[20 + n..|pt| - pad] == appID)
    ensures Splits(pt, appID, pt[20..20 + n])
  {
    var end := |pt| - pad;
    LengthInjective(pt[16..20]);
    assert pt == pt[..16] + pt[16..20] + pt[20..20 + n] + pt[20 + n..end] + pt[end..];
    assert SplitsAs(pt, appID, pt[20..20 + n], pt[..16], pt[20 + n..end], pt[end..]);
  }

  // ---- encrypting and decrypting messages ----------------------------------------------------------------------

  datatype PushCrypto = PushCrypto(token: string, appID: Bytes, key: Option<Bytes>)

  datatype Error = BadKey | NoKey | BadCiphertext | BadPadding | TooShort | BadLength | WrongApp | BadSignature | BadEnvelope

  predicate Valid(c: PushCrypto) {
    c.key.Some? ==> |c.key.value| == 32
  }

  /** `NewPushCrypto`: no key, or one of 43 base64 digits, line breaks aside. */
  method NewPushCrypto(token: string, encodingAESKey: string, appID: Bytes) returns (r: Result<PushCrypto, Error>)
    ensures r.Ok? <==> encodingAESKey == "" || (|Strip(encodingAESKey)| == 43 && Digits(Strip(encodingAESKey)))
    ensures r.Ok? ==> Valid(r.value) && r.value.token == token && r.value.appID == appID && (r.value.key.Some? <==> encodingAESKey != "")
    ensures r.Ok? && encodingAESKey != "" ==> r.value.key == Decode(encodingAESKey + "=")
  {
    if encodingAESKey == "" { return Ok(PushCrypto(token, appID, None)); }
    var k := Decode(encodingAESKey + "=");
    StripAppend(encodingAESKey, "=");
    assert Strip("=") == "=";
    PaddedOnce(Strip(encodingAESKey), 10);
    hide DecodeSolid, Digits, Strip;
    if k.None? || |k.value| != 32 { return Err(BadKey); }
    return Ok(PushCrypto(token, appID, k));
  }

  lemma {:induction false} StripAppend(s: string, t: string)
    ensures Strip(s + t) == Strip(s) + Strip(t)
  {
    if s == "" {
      assert s + t == t;
    } else {
      StripAppend(s[1..], t);
      assert (s + t)[1..] == s[1..] + t && (s + t)[0] == s[0];
      StripUnfold(s);
      StripUnfold(s + t);
      hide Strip;
    }
  }

  lemma StripUnfold(s: string)
    requires s != ""
    ensures Strip(s) == (if s[0] == '\n' || s[0] == '\r' then "" else [s[0]]) + Strip(s[1..])
  {
  }

  function Sealed(aes: Bytes -> Cipher, key: Bytes, plain: Bytes): string
    requires |key| == 32
  {
    Encode(CBCEncrypt(aes(key), key[..16], plain))
  }

  /** `Encrypt`; `drawn` stands for the bytes drawn when the caller brings no 16 of its own. */
  method Encrypt(c: PushCrypto, aes: Bytes -> Cipher, msg: Bytes, random: Bytes,
                 drawn: Bytes) returns (r: Result<string, Error>)
    requires Valid(c) && |drawn| == 16
    ensures r == if c.key.None? then Err(NoKey)
                 else Ok(Sealed(aes, c.key.value, Framed(if |random| == 16 then random else drawn, msg, c.appID)))
  {
    if c.key.None? { return Err(NoKey); }
    var key := c.key.value;
    var prefix := random;
    if |random| != 16 { prefix := drawn; }
    var b: Bytes := prefix;
    b := b + BE32(|msg|);
    b := b + msg;
    b := b + c.appID;
    var pad := 32 - |b| % 32;
    b := b + seq(pad, _ => pad);
    return Ok(Encode(CBCEncrypt(aes(key), key[..16], b)));
  }

  /** The text decrypts to the message. */
  ghost predicate Yields(c: PushCrypto, aes: Bytes -> Cipher, text: string, msg: Bytes)
    requires Valid(c)
  {
    && c.key.Some? && Decode(text).Some?
    && var key, ct := c.key.value, Decode(text).value;
       |ct| > 0 && |ct| % BLOCK == 0 && Splits(CBCDecrypt(aes(key), key[..16], ct), c.appID, msg)
  }

  /** `Decrypt`: for any text whatever it reads only within bounds, and it succeeds exactly when the text is
      whole blocks of base64 whose plaintext splits. The padding bytes before the last are not looked at. */
  method Decrypt(c: PushCrypto, aes: Bytes -> Cipher, text: string) returns (r: Result<Bytes, Error>)
    requires Valid(c) && (c.key.Some? ==> Permutation(aes(c.key.value)))
    ensures r.Ok? ==> Yields(c, aes, text, r.value)
    ensures r.Err? ==> forall msg :: !Yields(c, aes, text, msg)
  {
    if c.key.None? { return Err(NoKey); }
    var key := c.key.value;
    var ct := Decode(text);
    if ct.None? || |ct.value| == 0 || |ct.value| % BLOCK != 0 { return Err(BadCiphertext); }
    EncryptDecrypt(aes(key), key[..16], ct.value);
    var pt := CBCDecrypt(aes(key), key[..16], ct.value);
    hide CBCDecrypt, Decode, Permutation;
    r := Unframe(pt, c.appID);
  }

  /** The part of `Decrypt` after the cipher: strip the padding, read the length, cut and compare. */
  method Unframe(plain: Bytes, appID: Bytes) returns (r: Result<Bytes, Error>)
    requires |plain| > 0
    ensures r.Ok? ==> Splits(plain, appID, r.value)
    ensures r.Err? ==> forall msg :: !Splits(plain, appID, msg)
  {
    var pt := plain;
    var pad := pt[|pt| - 1];
    forall msg | Splits(plain, appID, msg)
      ensures 1 <= pad <= 32 && |plain| - pad >= 20
      ensures var n := Uint32(plain[16..20]); 20 + n <= |plain| - pad && (appID == [] || plain[20 + n..|plain| - pad] == appID)
    {
      var random, app, tail :| SplitsAs(plain, appID, msg, random, app, tail);
      SplitPlaces(plain, appID, msg, random, app, tail);
    }
    if pad < 1 || pad > 32 || pad > |pt| { return Err(BadPadding); }
    pt := pt[..|pt| - pad];
    if |pt| < 20 { return Err(TooShort); }
    var n := Uint32(pt[16..20]);
    assert pt[16..20] == plain[16..20];
    if 20 + n > |pt| { return Err(BadLength); }
    var msg, app := pt[20..20 + n], pt[20 + n..];
    assert msg == plain[20..20 + n] && app == plain[20 + n..|plain| - pad];
    if appID != [] && app != appID { return Err(WrongApp); }
    SplitFromPlaces(plain, appID, pad, n);
    return Ok(msg);
  }

  /** The length that fits the length field. */
  function Stored(msg: Bytes): (n: nat)
    ensures n <= |msg| && (n == |msg| <==> |msg| < LIMIT)
  {
    |msg| % LIMIT
  }

  /** How a framed message splits: as itself below 2^32 bytes; beyond, only without an app ID, and cut to
      the length modulo 2^32. */
  lemma FramedSplits(random: Bytes, msg: Bytes, appID: Bytes, m: Bytes)
    requires |random| == 16
    ensures Splits(Framed(random, msg, appID), appID, m) <==>
            if |msg| < LIMIT then m == msg else appID == [] && m == msg[..Stored(msg)]
  {
    hide Splits, Framed, Stored;
    var n := Stored(msg);
    assert |msg| < LIMIT ==> n == |msg| && msg[..n] == msg;
    if Splits(Framed(random, msg, appID), appID, m) { FramedSplitsOnly(random, msg, appID, m); }
    if |msg| < LIMIT || appID == [] { FramedSplitsWell(random, msg, appID); }
  }

  lemma FramedSplitsWell(random: Bytes, msg: Bytes, appID: Bytes)
    requires |random| == 16 && (|msg| < LIMIT || appID == [])
    ensures Splits(Framed(random, msg, appID), appID, msg[..Stored(msg)])
  {
    FramedPlaces(random, msg, appID);
    hide Framed, Body, Padding, BE32, Uint32, Splits, Stored;
    var n, pad := Stored(msg), |Padding(|Body(random, msg, appID)|)|;
    assert |msg| < LIMIT ==> msg[n..] + appID == appID;
    SplitFromPlaces(Framed(random, msg, appID), appID, pad, n);
  }

  lemma FramedSplitsOnly(random: Bytes, msg: Bytes, appID: Bytes, m: Bytes)
    requires |random| == 16 && Splits(Framed(random, msg, appID), appID, m)
    ensures m == msg[..Stored(msg)] && (|msg| < LIMIT || appID == [])
  {
    FramedPlaces(random, msg, appID);
    hide Framed, Body, Padding, BE32, Uint32, Stored;
    var r, a, t :| SplitsAs(Framed(random, msg, appID), appID, m, r, a, t);
    SplitPlaces(Framed(random, msg, appID), appID, m, r, a, t);
    hide SplitsAs;
    assert |msg[Stored(msg)..] + appID| == |msg| - Stored(msg) + |appID|;
  }

  lemma FramedPlaces(random: Bytes, msg: Bytes, appID: Bytes)
    requires |random| == 16
    ensures var pt, pad := Framed(random, msg, appID), Padding(|Body(random, msg, appID)|);
            var n := Stored(msg);
            && 1 <= |pad| <= 32 && |pt| == 20 + |msg| + |appID| + |pad| && pt[|pt| - 1] == |pad| && Uint32(pt[16..20]) == n
            && pt[20..20 + n] == msg[..n] && pt[20 + n..|pt| - |pad|] == msg[n..] + appID
  {
    var pt, pad := Framed(random, msg, appID), Padding(|Body(random, msg, appID)|);
    var n := Stored(msg);
    LengthRoundTrip(|msg|);
    assert pt[16..20] == BE32(|msg|);
    assert pt[20..20 + n] == msg[..n];
    assert pt[20 + n..|pt| - |pad|] == msg[n..] + appID;
  }

  /** Decrypting what was encrypted gives the message back exactly when it is shorter than 2^32 bytes. */
  lemma DecryptsToItself(c: PushCrypto, aes: Bytes -> Cipher, random: Bytes, msg: Bytes, m: Bytes)
    requires Valid(c) && c.key.Some? && Permutation(aes(c.key.value)) && |random| == 16
    ensures Yields(c, aes, Sealed(aes, c.key.value, Framed(random, msg, c.appID)), m) <==>
            if |msg| < LIMIT then m == msg else c.appID == [] && m == msg[..Stored(msg)]
    ensures Yields(c, aes, Sealed(aes, c.key.value, Framed(random, msg, c.appID)), msg) <==> |msg| < LIMIT
  {
    FramedSplits(random, msg, c.appID, m);
    FramedSplits(random, msg, c.appID, msg);
    FramedBlocks(random, msg, c.appID);
    hide Framed, CBCEncrypt, CBCDecrypt, Decode, Encode, Splits, Permutation, Stored;
    var key := c.key.value;
    var pt := Framed(random, msg, c.appID);
    DecryptEncrypt(aes(key), key[..16], pt);
    DecodeEncode(CBCEncrypt(aes(key), key[..16], pt));
  }

  lemma FramedBlocks(random: Bytes, msg: Bytes, appID: Bytes)
    ensures |Framed(random, msg, appID)| > 0 && |Framed(random, msg, appID)| % BLOCK == 0
  {
    var n := |Body(random, msg, appID)|;
    assert |Framed(random, msg, appID)| == n + |Padding(n)|;
    hide Framed, Body, Padding;
    HalfOf32(n + |Padding(n)|);
  }

  lemma HalfOf32(n: nat)
    requires n % 32 == 0
    ensures n % BLOCK == 0
  {
  }

  // ---- signatures, and opening a pushed body --------------------------------------------------------------------

  function Concat(parts: seq<string>): string {
    if parts == [] then "" else parts[0] + Concat(parts[1..])
  }

  /** `PushSignature`; `sha1` maps a text to the hexadecimal form of its digest. */
  function Signature(sha1: string -> string, parts: seq<string>): string {
    sha1(Concat(SortStrings(parts)))
  }

  /** The order in which the parts are given does not matter. */
  lemma SignatureIgnoresOrder(sha1: string -> string, parts: seq<string>, parts': seq<string>)
    requires multiset(parts) == multiset(parts')
    ensures Signature(sha1, parts) == Signature(sha1, parts')
  {
    SortStringsSorts(parts);
    SortStringsSorts(parts');
    SortedUnique(SortStrings(parts), SortStrings(parts'));
  }

  datatype PushQuery = PushQuery(
    signature: string, timestamp: string, nonce: string, echostr: string, encryptType: string, msgSignature: string)

  /** `VerifyURL`. */
  method VerifyURL(c: PushCrypto, sha1: string -> string, q: PushQuery) returns (r: Result<string, Error>)
    ensures r == if Signature(sha1, [q.nonce, q.timestamp, c.token]) == q.signature then Ok(q.echostr) else Err(BadSignature)
  {
    SignatureIgnoresOrder(sha1, [q.nonce, q.timestamp, c.token], [c.token, q.timestamp, q.nonce]);
    if Signature(sha1, [c.token, q.timestamp, q.nonce]) != q.signature { return Err(BadSignature); }
    return Ok(q.echostr);
  }

  /** Which messages a pushed body may be opened as: the plaintext of a signed ciphertext or, outside the
      encrypted modes, the body itself under the plain signature. */
  ghost predicate Authentic(c: PushCrypto, aes: Bytes -> Cipher, sha1: string -> string, q: PushQuery, body: Bytes,
                            encrypt: string, msg: Bytes)
    requires Valid(c)
  {
    if encrypt != "" then
      q.msgSignature == Signature(sha1, [c.token, q.timestamp, q.nonce, encrypt]) && Yields(c, aes, encrypt, msg)
    else
      && q.signature == Signature(sha1, [c.token, q.timestamp, q.nonce]) && msg == body
      && q.encryptType != "aes" && (c.key.None? || q.encryptType == "")
  }

  /** `Open`; `parse` reads the Encrypt field of an XML or JSON envelope. It hands out a message exactly when
      the message is authentic. */
  method Open(c: PushCrypto, aes: Bytes -> Cipher, sha1: string -> string, parse: Bytes -> Option<string>,
              q: PushQuery, body: Bytes)
    returns (r: Result<Bytes, Error>)
    requires Valid(c) && (c.key.Some? ==> Permutation(aes(c.key.value)))
    ensures parse(body).None? ==> r == Err(BadEnvelope)
    ensures r.Ok? ==> parse(body).Some? && Authentic(c, aes, sha1, q, body, parse(body).value, r.value)
    ensures r.Err? && parse(body).Some? ==> forall msg :: !Authentic(c, aes, sha1, q, body, parse(body).value, msg)
  {
    var envelope := parse(body);
    if envelope.None? { return Err(BadEnvelope); }
    var encrypt := envelope.value;
    if encrypt != "" {
      if Signature(sha1, [c.token, q.timestamp, q.nonce, encrypt]) != q.msgSignature { return Err(BadSignature); }
      hide Yields, Signature, Permutation;
      var msg := Decrypt(c, aes, encrypt);
      if msg.Err? { return Err(BadSignature); }
      return msg;
    }
    if q.encryptType == "aes" || Signature(sha1, [c.token, q.timestamp, q.nonce]) != q.signature { return Err(BadSignature); }
    if c.key.Some? && q.encryptType != "" { return Err(BadSignature); }
    return Ok(body);
  }

  /** A body sealed and signed by one end is opened as the same message, and no other, by the other end. */
  lemma SealedOpens(c: PushCrypto, aes: Bytes -> Cipher, sha1: string -> string, q: PushQuery, body: Bytes,
                    random: Bytes, msg: Bytes, m: Bytes)
    requires Valid(c) && c.key.Some? && Permutation(aes(c.key.value)) && |random| == 16 && |msg| < LIMIT
    requires var text := Sealed(aes, c.key.value, Framed(random, msg, c.appID));
             q.msgSignature == Signature(sha1, [text, q.nonce, q.timestamp, c.token])
    ensures Authentic(c, aes, sha1, q, body, Sealed(aes, c.key.value, Framed(random, msg, c.appID)), m) <==> m == msg
  {
    var text := Sealed(aes, c.key.value, Framed(random, msg, c.appID));
    SealedIsText(aes, c.key.value, Framed(random, msg, c.appID), random, msg, c.appID);
    hide Framed, Sealed, Splits, Permutation, Signature, Yields, Valid;
    SameFour(text, q.nonce, q.timestamp, c.token);
    SignatureIgnoresOrder(sha1, [text, q.nonce, q.timestamp, c.token], [c.token, q.timestamp, q.nonce, text]);
    DecryptsToItself(c, aes, random, msg, m);
  }

  lemma SameFour(a: string, b: string, c: string, d: string)
    ensures multiset([a, b, c, d]) == multiset([d, c, b, a])
  {
  }

  lemma SealedIsText(aes: Bytes -> Cipher, key: Bytes, plain: Bytes, random: Bytes, msg: Bytes, appID: Bytes)
    requires |key| == 32 && Permutation(aes(key)) && plain == Framed(random, msg, appID)
    ensures Sealed(aes, key, plain) != ""
  {
    FramedBlocks(random, msg, appID);
    hide Framed, CBCEncrypt, Permutation;
    DecryptEncrypt(aes(key), key[..16], plain);
  }
}

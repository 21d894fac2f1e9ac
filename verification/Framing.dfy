/**
 The byte layout of an encrypted blob (core/src/crypto.rs).

 The primitives are parameters: a `Suite` of functions with the few laws the layout
 needs. Nothing here says anything about secrecy.
 */
module Framing {
  type byte = x: int | 0 <= x < 256
  type Bytes = seq<byte>

  const WIRE_VERSION: byte := 2
  const NONCE_LEN := 24
  const TAG_LEN := 16
  const OVERHEAD: nat := 1 + 32 + NONCE_LEN + 32 + 64 + 4 + TAG_LEN
  const MIN_BLOB_LEN := OVERHEAD
  const MAX_BLOB_LEN := 42 * 1024 * 1024
  const MAX_PLAINTEXT_LEN := 1024 * 1024
  const STEP: nat := 65536
  const BUCKETS: seq<nat> := [256, 512, 1024, 2048, 4096, 8192, 16384, 32768, 65536]

  // ---- padding ----

  /** A length the wire may show. */
  predicate Permitted(n: nat) {
    n in BUCKETS || (n > STEP && n % STEP == 0)
  }

  /** The next permitted length; above 65536 always a longer one. */
  function PaddedLen(actual: nat): (n: nat)
    ensures Permitted(n)
    ensures actual <= n
    ensures STEP < actual ==> actual < n
  {
    if actual <= 256 then 256 else if actual <= 512 then 512 else if actual <= 1024 then 1024
    else if actual <= 2048 then 2048 else if actual <= 4096 then 4096 else if actual <= 8192 then 8192
    else if actual <= 16384 then 16384 else if actual <= 32768 then 32768 else if actual <= 65536 then 65536
    else (actual / STEP + 1) * STEP
  }

  /** Padding goes no further than it must: no permitted length in between is skipped. */
  lemma PaddedLenIsLeast(actual: nat, n: nat)
    requires Permitted(n) && actual <= n && (STEP < actual ==> actual < n)
    ensures PaddedLen(actual) <= n
  {
    if STEP < actual {
      assert n == (n / STEP) * STEP;
      assert n / STEP <= actual / STEP ==> n <= actual;
      assert actual / STEP + 1 <= n / STEP;
      assert (actual / STEP + 1) * STEP <= (n / STEP) * STEP;
    }
  }

  lemma PaddedLenIsMonotone(a: nat, b: nat)
    requires a <= b
    ensures PaddedLen(a) <= PaddedLen(b)
  {
    PaddedLenIsLeast(a, PaddedLen(b));
  }

  /** A longer blob fits under the receiver's ceiling exactly when it is shorter than it:
      a blob that already has the ceiling's length is padded past it. */
  lemma PaddedFitsCeiling(actual: nat)
    ensures PaddedLen(actual) <= MAX_BLOB_LEN <==> actual < MAX_BLOB_LEN
  {
    assert MAX_BLOB_LEN == 672 * STEP;
    if actual < MAX_BLOB_LEN {
      assert Permitted(MAX_BLOB_LEN);
      PaddedLenIsLeast(actual, MAX_BLOB_LEN);
    }
  }

  /** The scan over the buckets, then the round-up. */
  method PadTo(actual: nat) returns (n: nat)
    ensures n == PaddedLen(actual)
  {
    if actual == 0 { return BUCKETS[0]; }
    for i := 0 to |BUCKETS|
      invariant forall j :: 0 <= j < i ==> BUCKETS[j] < actual
    {
      if actual <= BUCKETS[i] { return BUCKETS[i]; }
    }
    assert BUCKETS[8] < actual;
    var remainder := actual % STEP;
    if remainder == 0 { n := actual + STEP; } else { n := actual + STEP - remainder; }
  }

  // ---- big-endian length field ----

  function ToBe(n: nat): (b: Bytes)
    requires n < 0x1_0000_0000
    ensures |b| == 4
  {
    [n / 0x100_0000, n / 0x1_0000 % 256, n / 0x100 % 256, n % 256]
  }

  function FromBe(b: Bytes): nat
    requires |b| == 4
  {
    (b[0] as int) * 0x100_0000 + (b[1] as int) * 0x1_0000 + (b[2] as int) * 0x100 + b[3] as int
  }

  lemma BeRoundTrip(n: nat)
    requires n < 0x1_0000_0000
    ensures FromBe(ToBe(n)) == n
  {
    var a, b, c := n / 0x100, n / 0x1_0000, n / 0x100_0000;
    assert n == a * 0x100 + n % 0x100;
    assert a == b * 0x100 + a % 0x100 by { assert a / 0x100 == b; }
    assert b == c * 0x100 + b % 0x100 by { assert b / 0x100 == c; }
  }

  // ---- the primitives ----

  datatype Option<T> = None | Some(value: T)

  datatype Error = Encrypt | BlobTooShort | BlobTooLong | Decrypt | BadSignature | BadKey | Decompress

  datatype Result<T> = Ok(value: T) | Err(error: Error)

  /** A key pair in both its signing and its key-agreement form. */
  datatype Identity = Identity(secret: Bytes, pub: Bytes, xPriv: Bytes, xPub: Bytes)

  datatype Suite = Suite(
    compress: Bytes -> Bytes,
    decompress: Bytes -> Option<Bytes>,
    basePoint: Bytes -> Bytes,
    agree: (Bytes, Bytes) -> Option<Bytes>,
    toX: Bytes -> Option<Bytes>,
    derive: (Bytes, Bytes, Bytes) -> Bytes,
    seal: (Bytes, Bytes, Bytes, Bytes) -> Bytes,
    open: (Bytes, Bytes, Bytes, Bytes) -> Option<Bytes>,
    sign: (Bytes, Bytes) -> Bytes,
    verify: (Bytes, Bytes, Bytes) -> bool)

  /** What the random source hands out during one encryption. */
  datatype Random = Random(ephemeral: Bytes, padding: nat -> Bytes, nonce: Bytes)

  ghost predicate Lawful(c: Suite) {
    && (forall p :: Decompresses(c, p))
    && (forall k, n, a, m :: Opens(c, k, n, a, m))
    && (forall s, m :: |c.sign(s, m)| == 64)
    && (forall e :: |c.basePoint(e)| == 32)
  }

  ghost predicate Decompresses(c: Suite, p: Bytes) {
    |p| <= MAX_PLAINTEXT_LEN ==> c.decompress(c.compress(p)) == Some(p) && |c.compress(p)| <= 2 * |p| + 1024
  }

  ghost predicate Opens(c: Suite, k: Bytes, n: Bytes, a: Bytes, m: Bytes) {
    c.open(k, n, a, c.seal(k, n, a, m)) == Some(m) && |c.seal(k, n, a, m)| == |m| + TAG_LEN
  }

  ghost predicate Genuine(c: Suite, id: Identity) {
    && |id.pub| == 32
    && c.toX(id.pub) == Some(id.xPub)
    && (forall e :: c.agree(e, id.xPub) == c.agree(id.xPriv, c.basePoint(e)))
    && (forall m :: c.verify(id.pub, m, c.sign(id.secret, m)))
  }

  ghost predicate WellFormed(r: Random) {
    |r.nonce| == NONCE_LEN && forall n :: |r.padding(n)| == n
  }

  // ---- encrypt and decrypt ----

  const MSG_TAG: Bytes := [115, 107, 114, 101, 112, 107, 97, 45, 109, 115, 103, 45, 118, 50, 58]

  /** What the cipher authenticates beside the ciphertext. */
  function Aad(version: byte, ephPub: Bytes, nonce: Bytes, recipientPub: Bytes): Bytes {
    [version] + ephPub + nonce + recipientPub
  }

  /** Everything after the sender's key and signature. */
  function Body(compressed: Bytes, padding: Bytes): Bytes {
    ToBe(|compressed| % 0x1_0000_0000) + compressed + padding
  }

  function Inner(c: Suite, sender: Identity, recipientPub: Bytes, body: Bytes): Bytes {
    sender.pub + c.sign(sender.secret, MSG_TAG + recipientPub + body) + body
  }

  function EncryptBlob(c: Suite, sender: Identity, recipientPub: Bytes, plaintext: Bytes, r: Random): Result<Bytes> {
    if |plaintext| > MAX_PLAINTEXT_LEN then Err(Encrypt)
    else
      var ephPub := c.basePoint(r.ephemeral);
      var x := c.toX(recipientPub);
      if x.None? then Err(BadKey)
      else
        var raw := c.agree(r.ephemeral, x.value);
        if raw.None? then Err(BadKey)
        else
          var key := c.derive(raw.value, ephPub, x.value);
          var compressed := c.compress(plaintext);
          var unpadded := OVERHEAD + |compressed|;
          var body := Body(compressed, r.padding(PaddedLen(unpadded) - unpadded));
          var inner := Inner(c, sender, recipientPub, body);
          Ok([WIRE_VERSION] + ephPub + r.nonce + c.seal(key, r.nonce, Aad(WIRE_VERSION, ephPub, r.nonce, recipientPub), inner))
  }

  datatype Decrypted = Decrypted(plaintext: Bytes, sender: Bytes)

  function DecryptInner(c: Suite, recipient: Identity, inner: Bytes): Result<Decrypted> {
    if |inner| < 100 then Err(BlobTooShort)
    else
      var n := FromBe(inner[96..100]);
      if n > |inner| - 100 then Err(Decrypt)
      else if !c.verify(inner[..32], MSG_TAG + recipient.pub + inner[96..], inner[32..96]) then Err(BadSignature)
      else
        var p := c.decompress(inner[100..100 + n]);
        if p.None? || |p.value| > MAX_PLAINTEXT_LEN then Err(Decompress)
        else Ok(Decrypted(p.value, inner[..32]))
  }

  function DecryptBlob(c: Suite, recipient: Identity, blob: Bytes): Result<Decrypted> {
    if |blob| < MIN_BLOB_LEN then Err(BlobTooShort)
    else if |blob| > MAX_BLOB_LEN then Err(BlobTooLong)
    else if blob[0] != WIRE_VERSION then Err(Decrypt)
    else
      var ephPub, nonce := blob[1..33], blob[33..57];
      var raw := c.agree(recipient.xPriv, ephPub);
      if raw.None? then Err(BadKey)
      else
        var key := c.derive(raw.value, ephPub, recipient.xPub);
        var inner := c.open(key, nonce, Aad(blob[0], ephPub, nonce, recipient.pub), blob[57..]);
        if inner.None? then Err(Decrypt) else DecryptInner(c, recipient, inner.value)
  }

  /** The length field recovers the data whatever bytes the padding is made of. */
  lemma InnerRoundTrip(c: Suite, sender: Identity, recipient: Identity, plaintext: Bytes, padding: Bytes)
    requires Lawful(c) && Genuine(c, sender) && |plaintext| <= MAX_PLAINTEXT_LEN
    ensures DecryptInner(c, recipient, Inner(c, sender, recipient.pub, Body(c.compress(plaintext), padding)))
         == Ok(Decrypted(plaintext, sender.pub))
  {
    assert Decompresses(c, plaintext);
    var compressed := c.compress(plaintext);
    var body := Body(compressed, padding);
    var signature := c.sign(sender.secret, MSG_TAG + recipient.pub + body);
    var inner := Inner(c, sender, recipient.pub, body);
    Cut(sender.pub, signature, body);
    assert |compressed| % 0x1_0000_0000 == |compressed|;
    Cut(ToBe(|compressed|), compressed, padding);
    Recut(inner, 96, 0, 4);
    Recut(inner, 96, 4, 4 + |compressed|);
    BeRoundTrip(|compressed|);
  }

  lemma Cut(a: Bytes, b: Bytes, c: Bytes)
    ensures (a + b + c)[..|a|] == a
    ensures (a + b + c)[|a|..|a| + |b|] == b
    ensures (a + b + c)[|a| + |b|..] == c
  {
  }

  lemma Recut(s: Bytes, i: nat, j: nat, k: nat)
    requires i <= |s| && j <= k <= |s| - i
    ensures s[i..][j..k] == s[i + j..i + k]
  {
  }

  /** Encryption refuses nothing but an over-long plaintext or an unusable key, and the
      blob's length is a permitted one that depends on the compressed length alone. */
  lemma BlobShape(c: Suite, sender: Identity, recipientPub: Bytes, plaintext: Bytes, r: Random)
    requires Lawful(c) && WellFormed(r) && |sender.pub| == 32
    requires c.toX(recipientPub).Some? && c.agree(r.ephemeral, c.toX(recipientPub).value).Some?
    ensures |plaintext| <= MAX_PLAINTEXT_LEN <==> EncryptBlob(c, sender, recipientPub, plaintext, r).Ok?
    ensures |plaintext| <= MAX_PLAINTEXT_LEN ==>
      var blob := EncryptBlob(c, sender, recipientPub, plaintext, r).value;
      && |blob| == PaddedLen(OVERHEAD + |c.compress(plaintext)|)
      && Permitted(|blob|) && MIN_BLOB_LEN <= |blob| <= MAX_BLOB_LEN
  {
    if |plaintext| <= MAX_PLAINTEXT_LEN {
      assert Decompresses(c, plaintext);
      var ephPub := c.basePoint(r.ephemeral);
      var x := c.toX(recipientPub).value;
      var key := c.derive(c.agree(r.ephemeral, x).value, ephPub, x);
      var compressed := c.compress(plaintext);
      var unpadded := OVERHEAD + |compressed|;
      PaddedFitsCeiling(unpadded);
      var body := Body(compressed, r.padding(PaddedLen(unpadded) - unpadded));
      assert Opens(c, key, r.nonce, Aad(WIRE_VERSION, ephPub, r.nonce, recipientPub), Inner(c, sender, recipientPub, body));
    }
  }

  /** Decrypting what was encrypted gives back the plaintext and the sender, for every
      plaintext up to the cap and every choice of ephemeral key, padding and nonce. */
  lemma BlobRoundTrip(c: Suite, sender: Identity, recipient: Identity, plaintext: Bytes, r: Random)
    requires Lawful(c) && WellFormed(r) && Genuine(c, sender) && Genuine(c, recipient)
    requires |plaintext| <= MAX_PLAINTEXT_LEN
    requires c.agree(r.ephemeral, recipient.xPub).Some?
    ensures EncryptBlob(c, sender, recipient.pub, plaintext, r).Ok?
    ensures DecryptBlob(c, recipient, EncryptBlob(c, sender, recipient.pub, plaintext, r).value)
         == Ok(Decrypted(plaintext, sender.pub))
  {
    BlobShape(c, sender, recipient.pub, plaintext, r);
    assert Decompresses(c, plaintext);
    var ephPub := c.basePoint(r.ephemeral);
    var key := c.derive(c.agree(r.ephemeral, recipient.xPub).value, ephPub, recipient.xPub);
    var compressed := c.compress(plaintext);
    var unpadded := OVERHEAD + |compressed|;
    var padding := r.padding(PaddedLen(unpadded) - unpadded);
    var inner := Inner(c, sender, recipient.pub, Body(compressed, padding));
    var sealed := c.seal(key, r.nonce, Aad(WIRE_VERSION, ephPub, r.nonce, recipient.pub), inner);
    var blob := EncryptBlob(c, sender, recipient.pub, plaintext, r).value;
    assert Opens(c, key, r.nonce, Aad(WIRE_VERSION, ephPub, r.nonce, recipient.pub), inner);
    assert blob == [WIRE_VERSION] + ephPub + r.nonce + sealed;
    Cut([WIRE_VERSION] + ephPub, r.nonce, sealed);
    assert blob[1..33] == ephPub;
    InnerRoundTrip(c, sender, recipient, plaintext, padding);
  }

  // ---- what decryption accepts ----

  /** The recipient's key opens the blob, header and addressee included, to these bytes. */
  ghost predicate Opened(c: Suite, recipient: Identity, blob: Bytes, inner: Bytes) {
    && MIN_BLOB_LEN <= |blob| <= MAX_BLOB_LEN && blob[0] == 2
    && var ephPub, nonce := blob[1..33], blob[33..57];
    && c.agree(recipient.xPriv, ephPub).Some?
    && c.open(c.derive(c.agree(recipient.xPriv, ephPub).value, ephPub, recipient.xPub), nonce,
              [2] + ephPub + nonce + recipient.pub, blob[57..]) == Some(inner)
  }

  /** The bytes are a sender, the sender's signature of all the rest for this recipient, and
      a rest whose first four bytes say how much of it decompresses to the plaintext. */
  ghost predicate Vouched(c: Suite, recipient: Identity, inner: Bytes, d: Decrypted, signature: Bytes, rest: Bytes) {
    && inner == d.sender + signature + rest && |d.sender| == 32 && |signature| == 64 && |rest| >= 4
    && c.verify(d.sender, MSG_TAG + recipient.pub + rest, signature)
    && var n := (rest[0] as int) * 16777216 + (rest[1] as int) * 65536 + (rest[2] as int) * 256 + rest[3] as int;
    && n <= |rest| - 4
    && c.decompress(rest[4..4 + n]) == Some(d.plaintext) && |d.plaintext| <= MAX_PLAINTEXT_LEN
  }

  lemma VouchedParts(c: Suite, recipient: Identity, inner: Bytes, d: Decrypted, signature: Bytes, rest: Bytes)
    requires Vouched(c, recipient, inner, d, signature, rest)
    ensures DecryptInner(c, recipient, inner) == Ok(d)
  {
    Cut(d.sender, signature, rest);
    Recut(inner, 96, 0, 4);
    var n := FromBe(rest[..4]);
    Recut(inner, 96, 4, 4 + n);
    assert inner[96..100] == rest[..4];
  }

  lemma InnerIsVouched(c: Suite, recipient: Identity, inner: Bytes)
    requires DecryptInner(c, recipient, inner).Ok?
    ensures Vouched(c, recipient, inner, DecryptInner(c, recipient, inner).value, inner[32..96], inner[96..])
  {
    var rest := inner[96..];
    assert inner == inner[..32] + inner[32..96] + rest;
    Recut(inner, 96, 0, 4);
    var n := FromBe(inner[96..100]);
    Recut(inner, 96, 4, 4 + n);
  }

  /** Decryption gives a plaintext and a sender exactly when the recipient's key opens the
      blob to bytes that sender signed for this recipient. */
  lemma DecryptsExactly(c: Suite, recipient: Identity, blob: Bytes, d: Decrypted)
    ensures DecryptBlob(c, recipient, blob) == Ok(d)
       <==> exists inner, signature, rest :: Opened(c, recipient, blob, inner) && Vouched(c, recipient, inner, d, signature, rest)
  {
    if DecryptBlob(c, recipient, blob) == Ok(d) {
      var ephPub, nonce := blob[1..33], blob[33..57];
      var key := c.derive(c.agree(recipient.xPriv, ephPub).value, ephPub, recipient.xPub);
      var inner := c.open(key, nonce, Aad(blob[0], ephPub, nonce, recipient.pub), blob[57..]).value;
      assert Opened(c, recipient, blob, inner);
      InnerIsVouched(c, recipient, inner);
    }
    if inner, signature, rest :| Opened(c, recipient, blob, inner) && Vouched(c, recipient, inner, d, signature, rest) {
      VouchedParts(c, recipient, inner, d, signature, rest);
    }
  }

  /** What is opened and not signed as it says is refused. */
  lemma ForgeryIsRefused(c: Suite, recipient: Identity, blob: Bytes, inner: Bytes)
    requires Opened(c, recipient, blob, inner)
    requires |inner| < 100 || !c.verify(inner[..32], MSG_TAG + recipient.pub + inner[96..], inner[32..96])
    ensures DecryptBlob(c, recipient, blob).Err?
  {
    if DecryptBlob(c, recipient, blob).Ok? { InnerIsVouched(c, recipient, inner); }
  }

  /** Only what a key's owner signed verifies under the key. */
  ghost predicate Unforgeable(c: Suite, signed: set<(Bytes, Bytes)>) {
    forall pub, m, signature :: c.verify(pub, m, signature) ==> (pub, m) in signed
  }

  /** With unforgeable signatures, whoever is named as the sender signed this plaintext's
      bytes for this recipient and for no other: passed on to another key they are refused. */
  lemma SenderMeantRecipient(c: Suite, recipient: Identity, blob: Bytes, signed: set<(Bytes, Bytes)>)
    requires Unforgeable(c, signed) && |recipient.pub| == 32 && DecryptBlob(c, recipient, blob).Ok?
    ensures var d := DecryptBlob(c, recipient, blob).value;
      exists rest :: (d.sender, MSG_TAG + recipient.pub + rest) in signed
        && forall other, more :: |other| == 32 && MSG_TAG + other + more == MSG_TAG + recipient.pub + rest ==> other == recipient.pub
  {
    var d := DecryptBlob(c, recipient, blob).value;
    DecryptsExactly(c, recipient, blob, d);
    var inner, signature, rest :| Opened(c, recipient, blob, inner) && Vouched(c, recipient, inner, d, signature, rest);
    forall other, more | |other| == 32 && MSG_TAG + other + more == MSG_TAG + recipient.pub + rest ensures other == recipient.pub {
      Cut(MSG_TAG, other, more);
      Cut(MSG_TAG, recipient.pub, rest);
    }
  }

  const AUTH_TAG: Bytes := [115, 107, 114, 101, 112, 107, 97, 45, 97, 117, 116, 104, 45, 118, 49, 58]

  /** No signature of a message is one of a login: the two tags part at the ninth byte. */
  lemma TagsApart(a: Bytes, b: Bytes)
    ensures MSG_TAG + a != AUTH_TAG + b
  {
    assert (MSG_TAG + a)[8] == 109 && (AUTH_TAG + b)[8] == 97;
  }

  // ---- what one outbox item weighs on the wire ----

  /** Hex characters of the blob of a payload that compresses to `n` bytes. */
  function HexWeight(n: nat): (w: nat)
    ensures w >= 512
  {
    PaddedLenIsMonotone(0, OVERHEAD + n);
    2 * PaddedLen(OVERHEAD + n)
  }

  /** It is two characters for each byte of the blob that encryption makes of the item. */
  lemma HexIsOfTheBlob(c: Suite, sender: Identity, recipientPub: Bytes, plaintext: Bytes, r: Random)
    requires Lawful(c) && WellFormed(r) && |sender.pub| == 32
    requires EncryptBlob(c, sender, recipientPub, plaintext, r).Ok?
    ensures HexWeight(|c.compress(plaintext)|) == 2 * |EncryptBlob(c, sender, recipientPub, plaintext, r).value|
  {
    BlobShape(c, sender, recipientPub, plaintext, r);
  }
}

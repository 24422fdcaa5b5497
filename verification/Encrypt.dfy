/** Envelope encryption: a wrapped data key, a nonce and the sealed data, in one length-prefixed frame. */
module Encrypt {
  import opened Producer

  type Byte = x: int | 0 <= x < 256
  type Bytes = seq<Byte>

  // ---- The ciphers, as functions with a round trip and a length ---------------------------------

  /** A key encryptor (RSA-OAEP or SM2, with its own randomness `rnd`) and an AEAD. */
  datatype Cipher = Cipher(
    keyLen: nat, nonceSize: nat, tag: nat, wrappedMax: nat,
    wrap: (Bytes, int) -> Bytes, unwrap: Bytes -> Option<Bytes>,
    seal: (Bytes, Bytes, Bytes) -> Bytes, open: (Bytes, Bytes, Bytes) -> Option<Bytes>)

  ghost predicate Sound(c: Cipher) {
    && c.nonceSize < 256 && c.tag > 0 && c.wrappedMax < 65536
    && (forall key: Bytes, rnd: int :: |key| == c.keyLen ==>
          |c.wrap(key, rnd)| <= c.wrappedMax && c.unwrap(c.wrap(key, rnd)) == Some(key))
    && (forall key: Bytes, nonce: Bytes, plain: Bytes :: |key| == c.keyLen && |nonce| == c.nonceSize ==>
          |c.seal(key, nonce, plain)| == |plain| + c.tag
              && c.open(key, nonce, c.seal(key, nonce, plain)) == Some(plain))
    && (forall key: Bytes, nonce: Bytes, sealed: Bytes :: c.open(key, nonce, sealed).Some? ==>
          |c.open(key, nonce, sealed).value| <= |sealed|)
  }

  // ---- The frame ------------------------------------------------------------------------------------

  function Frame(cipherkey: Bytes, nonce: Bytes, sealed: Bytes): Bytes {
    [(|cipherkey| / 256) % 256, |cipherkey| % 256, |nonce| % 256] + cipherkey + nonce + sealed
  }

  datatype ParseError = TooShort | Malformed | BadKey | BadData
  datatype Result<+T> = Ok(value: T) | Err(error: ParseError)

  function Parse(data: Bytes): Result<(Bytes, Bytes, Bytes)> {
    if |data| < 3 then Err(TooShort)
    else
      var keyLen: nat, nonceLen: nat := (data[0] as int) * 256 + data[1] as int, data[2];
      if 3 + keyLen + nonceLen >= |data| then Err(Malformed)
      else
        var rest := data[3..];
        Ok((rest[..keyLen], rest[keyLen..keyLen + nonceLen], rest[keyLen + nonceLen..]))
  }

  function Decrypt(c: Cipher, data: Bytes): Result<Bytes> {
    match Parse(data)
    case Err(e) => Err(e)
    case Ok((cipherkey, nonce, sealed)) =>
      match c.unwrap(cipherkey)
      case None => Err(BadKey)
      case Some(key) =>
        match c.open(key, nonce, sealed)
        case None => Err(BadData)
        case Some(plain) => Ok(plain)
  }

  /** The frame parses back exactly when its lengths fit their fields and some sealed data follows. */
  lemma ParseOfFrame(cipherkey: Bytes, nonce: Bytes, sealed: Bytes)
    ensures Parse(Frame(cipherkey, nonce, sealed)) == Ok((cipherkey, nonce, sealed)) <==>
            |cipherkey| < 65536 && |nonce| < 256 && sealed != []
  {
    var data := Frame(cipherkey, nonce, sealed);
    var body := cipherkey + nonce + sealed;
    assert data[3..] == body;
    var k: nat, n: nat := (data[0] as int) * 256 + data[1] as int, data[2];
    if |cipherkey| < 65536 {
      assert k == |cipherkey|;
      if |nonce| < 256 {
        assert body[..k] == cipherkey && body[k..k+n] == nonce && body[k+n..] == sealed;
      }
    }
    if Parse(data) == Ok((cipherkey, nonce, sealed)) {
      assert |body[..k]| == k && |body[k..k+n]| == n;
      assert k < 65536;
    }
  }

  /** A frame, byte by byte: the length of the wrapped key in two bytes, that of the nonce in one, the key, the
      nonce, the sealed data. */
  lemma FrameIs(cipherkey: Bytes, nonce: Bytes, sealed: Bytes)
    requires |cipherkey| < 65536 && |nonce| < 256
    ensures var data := Frame(cipherkey, nonce, sealed);
      && |data| == 3 + |cipherkey| + |nonce| + |sealed|
      && (data[0] as int) * 256 + data[1] as int == |cipherkey| && data[2] as int == |nonce|
      && data[3..3 + |cipherkey|] == cipherkey
      && data[3 + |cipherkey|..3 + |cipherkey| + |nonce|] == nonce && data[3 + |cipherkey| + |nonce|..] == sealed
  {}

  /** Bytes parse as a key, a nonce and sealed data exactly if they are such a frame; all others are too short for
      the lengths or malformed. */
  lemma ParseIff(data: Bytes, cipherkey: Bytes, nonce: Bytes, sealed: Bytes)
    ensures Parse(data) == Ok((cipherkey, nonce, sealed)) <==>
            |cipherkey| < 65536 && |nonce| < 256 && sealed != [] && data == Frame(cipherkey, nonce, sealed)
    ensures Parse(data) == Err(TooShort) <==> |data| < 3
    ensures Parse(data).Err? ==> Parse(data).error == TooShort || Parse(data).error == Malformed
  {
    ParseOfFrame(cipherkey, nonce, sealed);
    if Parse(data) == Ok((cipherkey, nonce, sealed)) {
      var rest := data[3..];
      assert rest == rest[..|cipherkey|] + rest[|cipherkey|..|cipherkey| + |nonce|] + rest[|cipherkey| + |nonce|..];
      assert data == data[..3] + rest;
      assert data[..3] == [(|cipherkey| / 256) % 256, |cipherkey| % 256, |nonce| % 256];
    }
  }

  /** What decrypts is a frame whose key unwraps and whose data opens under it; anything else is an error that
      says which of the three failed. */
  lemma DecryptIff(c: Cipher, data: Bytes, plain: Bytes)
    ensures Decrypt(c, data) == Ok(plain) <==>
            exists cipherkey: Bytes, nonce: Bytes, sealed: Bytes ::
              && Parse(data) == Ok((cipherkey, nonce, sealed)) && c.unwrap(cipherkey).Some?
              && c.open(c.unwrap(cipherkey).value, nonce, sealed) == Some(plain)
    ensures Decrypt(c, data) == Err(BadKey) <==> Parse(data).Ok? && c.unwrap(Parse(data).value.0).None?
    ensures Decrypt(c, data) == Err(TooShort) || Decrypt(c, data) == Err(Malformed) <==> Parse(data).Err?
  {
    ParseIff(data, [], [], []);
    if Decrypt(c, data) == Ok(plain) {
      var (cipherkey, nonce, sealed) := Parse(data).value;
      assert Parse(data) == Ok((cipherkey, nonce, sealed));
    }
  }

  method CopyAt(buf: array<Byte>, at: nat, data: Bytes)
    requires at + |data| <= buf.Length
    modifies buf
    ensures buf[..] == old(buf[..at]) + data + old(buf[at + |data|..])
  {
    forall i | 0 <= i < |data| { buf[at + i] := data[i]; }
  }

  lemma CopyTakes(before: Bytes, after: Bytes, at: nat, data: Bytes)
    requires at + |data| <= |before| && after == before[..at] + data + before[at + |data|..]
    ensures after[..at + |data|] == before[..at] + data
  {}

  /** Fills one buffer: three length bytes, the wrapped key, the nonce, the sealed data. */
  method Encrypt(c: Cipher, key: Bytes, nonce: Bytes, rnd: int, plain: Bytes) returns (out: Bytes)
    requires Sound(c) && |key| == c.keyLen && |nonce| == c.nonceSize
    ensures out == Encrypted(c, key, nonce, rnd, plain)
  {
    var cipherkey := c.wrap(key, rnd);
    var headerSize := 3 + |cipherkey| + |nonce|;
    var sealed := c.seal(key, nonce, plain);
    var buf := new Byte[headerSize + |plain| + c.tag];
    var head: Bytes := [(|cipherkey| / 256) % 256, |cipherkey| % 256, |nonce| % 256];
    ghost var b0 := buf[..];
    CopyAt(buf, 0, head);
    ghost var b1 := buf[..];
    CopyTakes(b0, b1, 0, head);
    CopyAt(buf, 3, cipherkey);
    ghost var b2 := buf[..];
    CopyTakes(b1, b2, 3, cipherkey);
    CopyAt(buf, 3 + |cipherkey|, nonce);
    ghost var b3 := buf[..];
    CopyTakes(b2, b3, 3 + |cipherkey|, nonce);
    CopyAt(buf, headerSize, sealed);
    CopyTakes(b3, buf[..], headerSize, sealed);
    assert buf[..headerSize + |sealed|] == buf[..][..headerSize + |sealed|];
    assert [] + head == head;
    out := buf[..headerSize + |sealed|];
  }

  function Encrypted(c: Cipher, key: Bytes, nonce: Bytes, rnd: int, plain: Bytes): Bytes {
    Frame(c.wrap(key, rnd), nonce, c.seal(key, nonce, plain))
  }

  /** Decryption undoes encryption, and the frame is never longer than the advertised overhead. */
  lemma DecryptEncrypt(c: Cipher, key: Bytes, nonce: Bytes, rnd: int, plain: Bytes)
    requires Sound(c) && |key| == c.keyLen && |nonce| == c.nonceSize
    ensures Decrypt(c, Encrypted(c, key, nonce, rnd, plain)) == Ok(plain)
    ensures |Encrypted(c, key, nonce, rnd, plain)| <= |plain| + MaxOverhead(c)
  {
    ParseOfFrame(c.wrap(key, rnd), nonce, c.seal(key, nonce, plain));
  }

  /** No smaller bound would do: a key wrapped at its longest uses the whole overhead. */
  lemma OverheadIsLeast(c: Cipher, key: Bytes, nonce: Bytes, rnd: int, plain: Bytes)
    requires Sound(c) && |key| == c.keyLen && |nonce| == c.nonceSize && |c.wrap(key, rnd)| == c.wrappedMax
    ensures |Encrypted(c, key, nonce, rnd, plain)| == |plain| + MaxOverhead(c)
  {}

  function MaxOverhead(c: Cipher): nat {
    2 + 1 + c.wrappedMax + c.nonceSize + c.tag
  }

  // ---- The length of an SM2 wrapped key ---------------------------------------------------------------

  function Pow256(k: nat): nat {
    if k == 0 then 1 else 256 * Pow256(k - 1)
  }

  /** Big-endian octets of n, as few as possible (section 8.1.3.5 of ITU-T X.690). */
  function Octets(n: nat): (r: Bytes)
    ensures |r| >= 1 && n < Pow256(|r|) && (|r| > 1 ==> Pow256(|r| - 1) <= n)
  {
    if n < 256 then [n] else Octets(n / 256) + [n % 256]
  }

  /** Definite-form length octets (sections 8.1.3.4 and 8.1.3.5 of ITU-T X.690). */
  function LengthOctets(n: nat): Bytes
    requires |Octets(n)| < 128
  {
    if n < 128 then [n] else [128 + |Octets(n)|] + Octets(n)
  }

  /** The number that octets stand for, the most significant one first. */
  function Value(b: Bytes): nat {
    if b == [] then 0 else 256 * Value(b[..|b| - 1]) + b[|b| - 1] as int
  }

  lemma {:induction false} OctetsAre(n: nat)
    ensures Value(Octets(n)) == n && (|Octets(n)| > 1 ==> Octets(n)[0] > 0)
  {
    if n < 256 {
      assert Octets(n)[..0] == [];
    } else {
      OctetsAre(n / 256);
      assert Octets(n)[..|Octets(n)| - 1] == Octets(n / 256);
      if |Octets(n / 256)| == 1 { assert Octets(n / 256)[..0] == []; }
    }
  }

  /** A length below 128 is one octet, any other an octet with its top bit set that counts those behind it, which
      are the length without leading zeros. */
  lemma {:induction false} LengthIs(n: nat)
    requires |Octets(n)| < 128
    ensures var r := LengthOctets(n);
      if n < 128 then r == [n]
      else |r| > 1 && r[0] as int == 128 + |r| - 1 && Value(r[1..]) == n && r[1] > 0
  {
    OctetsAre(n);
    if n >= 128 {
      assert LengthOctets(n)[1..] == Octets(n);
      if |Octets(n)| == 1 { assert Octets(n)[..0] == []; }
    }
  }

  function TLV(tag: Byte, content: Bytes): Bytes
    requires |Octets(|content|)| < 128
  {
    [tag] + LengthOctets(|content|) + content
  }

  lemma {:induction false} Pow256Grows(a: nat, b: int)
    requires b >= 0
    ensures a <= b ==> Pow256(a) <= Pow256(b)
    decreases if a <= b then b - a else 0
  {
    if a < b { Pow256Grows(a, b - 1); }
  }

  /** The loop that counts the octets of a length. */
  method Asn1LenLen(contentLen: nat) returns (r: nat)
    requires |Octets(contentLen)| < 128
    ensures r == |LengthOctets(contentLen)|
  {
    var n, v := 1, contentLen;
    while v > 255
      invariant n >= 1 && v >= 0 && |Octets(contentLen)| == n - 1 + |Octets(v)|
      decreases v
    {
      v := v / 256;
      n := n + 1;
    }
    if contentLen < 128 { return 1; }
    return 1 + n;
  }

  function TLVLen(contentLen: nat): nat
    requires |Octets(contentLen)| < 128
  {
    1 + |LengthOctets(contentLen)| + contentLen
  }

  /** The content octets of a non-negative INTEGER: a leading zero keeps the sign (section 8.3 of X.690). */
  function IntegerContent(x: nat): Bytes {
    if Octets(x)[0] >= 128 then [0] + Octets(x) else Octets(x)
  }

  lemma {:induction false} IntegerContentBound(x: nat, coordLen: nat)
    requires coordLen >= 1 && x < Pow256(coordLen)
    ensures |IntegerContent(x)| <= coordLen + 1
  {
    Pow256Grows(coordLen, |Octets(x)| - 1);
  }

  lemma {:induction false} TLVLenMonotone(a: nat, b: nat)
    requires a <= b && |Octets(b)| < 128
    ensures |Octets(a)| <= |Octets(b)| && TLVLen(a) <= TLVLen(b)
  {
    Pow256Grows(|Octets(b)|, |Octets(a)| - 1);
  }

  lemma {:induction false} FewOctets(n: nat, k: nat)
    requires k >= 1 && n < Pow256(k)
    ensures |Octets(n)| <= k
  {
    Pow256Grows(k, |Octets(n)| - 1);
  }

  const SM3_SIZE := 32

  /** The bound computed for an SM2 key: two integers, a hash and the wrapped data key, all at their longest. */
  function Sm2WrappedMax(coordLen: nat, keyLen: nat): nat
    requires coordLen < 1000 && keyLen < 1000
  {
    Small(coordLen + 1);
    Small(SM3_SIZE);
    Small(keyLen);
    Small(TLVLen(coordLen + 1) + TLVLen(coordLen + 1) + TLVLen(SM3_SIZE) + TLVLen(keyLen));
    TLVLen(TLVLen(coordLen + 1) + TLVLen(coordLen + 1) + TLVLen(SM3_SIZE) + TLVLen(keyLen))
  }

  lemma {:induction false} Small(n: nat)
    requires n < 65536
    ensures |Octets(n)| <= 2 && TLVLen(n) <= n + 4
  {
    assert Pow256(2) == 65536 by { assert Pow256(1) == 256 * Pow256(0); assert Pow256(2) == 256 * Pow256(1); }
    FewOctets(n, 2);
  }

  function Sm2Content(x: nat, y: nat, hash: Bytes, c2: Bytes): Bytes
    requires |Octets(|IntegerContent(x)|)| < 128 && |Octets(|IntegerContent(y)|)| < 128
    requires |Octets(|hash|)| < 128 && |Octets(|c2|)| < 128
  {
    TLV(2, IntegerContent(x)) + TLV(2, IntegerContent(y)) + TLV(4, hash) + TLV(4, c2)
  }

  /** Whatever the two coordinates of the ephemeral point, the ASN.1 form of an SM2 ciphertext of a
      data key fits the bound. */
  lemma {:induction false} Sm2Fits(x: nat, y: nat, hash: Bytes, c2: Bytes, coordLen: nat)
    requires 1 <= coordLen < 1000 && |c2| < 1000 && |hash| == SM3_SIZE
    requires x < Pow256(coordLen) && y < Pow256(coordLen)
    ensures |Octets(|IntegerContent(x)|)| < 128 && |Octets(|IntegerContent(y)|)| < 128
    ensures |Octets(|hash|)| < 128 && |Octets(|c2|)| < 128
    ensures |Octets(|Sm2Content(x, y, hash, c2)|)| < 128
    ensures |TLV(48, Sm2Content(x, y, hash, c2))| <= Sm2WrappedMax(coordLen, |c2|)
  {
    IntegerContentBound(x, coordLen);
    IntegerContentBound(y, coordLen);
    Small(coordLen + 1);
    Small(|hash|);
    Small(|c2|);
    TLVLenMonotone(|IntegerContent(x)|, coordLen + 1);
    TLVLenMonotone(|IntegerContent(y)|, coordLen + 1);
    var most := TLVLen(coordLen + 1) + TLVLen(coordLen + 1) + TLVLen(SM3_SIZE) + TLVLen(|c2|);
    Small(most);
    TLVLenMonotone(|Sm2Content(x, y, hash, c2)|, most);
  }

  /** Nor would a smaller one here: two coordinates of full length with their top bits set use all of it. */
  lemma {:induction false} Sm2BoundIsLeast(x: nat, y: nat, hash: Bytes, c2: Bytes, coordLen: nat)
    requires 1 <= coordLen < 1000 && |c2| < 1000 && |hash| == SM3_SIZE
    requires |Octets(x)| == coordLen && |Octets(y)| == coordLen && Octets(x)[0] >= 128 && Octets(y)[0] >= 128
    requires |Octets(|IntegerContent(x)|)| < 128 && |Octets(|IntegerContent(y)|)| < 128
    requires |Octets(|hash|)| < 128 && |Octets(|c2|)| < 128 && |Octets(|Sm2Content(x, y, hash, c2)|)| < 128
    ensures |TLV(48, Sm2Content(x, y, hash, c2))| == Sm2WrappedMax(coordLen, |c2|)
  {
    assert |IntegerContent(x)| == |IntegerContent(y)| == coordLen + 1;
    hide Octets, LengthOctets, IntegerContent;
  }
}

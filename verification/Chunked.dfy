/** The chunked encryption format: fixed-overhead chunks, written and read by two stateful streams. */
module Chunked {
  import opened Producer
  import opened Encrypt

  const PLAIN: nat := 1048576
  const HEADER: nat := 4

  /** The data encryptor as the format sees it; the first argument of `enc` stands for the fresh key
      and nonce of each call, `place` is where the plaintext ends up when decrypted in place. */
  datatype Codec = Codec(overhead: nat, enc: (nat, Bytes) -> Bytes, dec: Bytes -> Option<Bytes>, place: Bytes -> nat)

  ghost predicate Fits(k: Codec) {
    && k.overhead < 0x7000_0000
    && (forall i: nat, p: Bytes :: p != [] && |p| <= PLAIN ==>
          |k.enc(i, p)| <= |p| + k.overhead && k.dec(k.enc(i, p)) == Some(p))
    && forall ct: Bytes :: k.dec(ct).Some? ==> k.place(ct) + |k.dec(ct).value| <= |ct|
  }

  function Envelope(c: Cipher, key: nat -> Bytes, nonce: nat -> Bytes, rnd: nat -> int): Codec {
    Codec(MaxOverhead(c),
          (i: nat, p: Bytes) => Encrypted(c, key(i), nonce(i), rnd(i), p),
          (data: Bytes) => match Decrypt(c, data) case Ok(p) => Some(p) case Err(_) => None,
          (data: Bytes) => match Parse(data) case Ok((_, _, sealed)) => |data| - |sealed| case Err(_) => 0)
  }

  /** The envelope encryption is a codec whose output never exceeds the capacity of a chunk. */
  lemma EnvelopeFits(c: Cipher, key: nat -> Bytes, nonce: nat -> Bytes, rnd: nat -> int)
    requires Sound(c) && c.tag < 65536
    requires forall i: nat :: |key(i)| == c.keyLen && |nonce(i)| == c.nonceSize
    ensures Fits(Envelope(c, key, nonce, rnd))
  {
    var k := Envelope(c, key, nonce, rnd);
    forall i: nat, p: Bytes ensures |k.enc(i, p)| <= |p| + k.overhead && k.dec(k.enc(i, p)) == Some(p) {
      DecryptEncrypt(c, key(i), nonce(i), rnd(i), p);
    }
    forall ct: Bytes | k.dec(ct).Some? ensures k.place(ct) + |k.dec(ct).value| <= |ct| {
      DecryptInPlace(c, ct);
    }
  }

  /** The plaintext fits where the sealed data stood. */
  lemma DecryptInPlace(c: Cipher, data: Bytes)
    requires Sound(c) && Decrypt(c, data).Ok?
    ensures Parse(data).Ok? && |Decrypt(c, data).value| <= |Parse(data).value.2| <= |data|
  {
    var (cipherkey, nonce, sealed) := Parse(data).value;
    var key := c.unwrap(cipherkey).value;
    assert c.open(key, nonce, sealed) == Some(Decrypt(c, data).value);
  }

  // ---- The format ------------------------------------------------------------------------------------

  function BigEndian32(n: nat): (b: Bytes)
    requires n < 0x1_0000_0000
    ensures |b| == 4
  {
    [n / 0x100_0000, n / 0x1_0000 % 256, n / 0x100 % 256, n % 256]
  }

  function Uint32(b: Bytes): nat
    requires |b| == 4
  {
    (b[0] as int) * 0x100_0000 + (b[1] as int) * 0x1_0000 + (b[2] as int) * 0x100 + b[3] as int
  }

  lemma Uint32OfBigEndian(n: nat)
    requires n < 0x1_0000_0000
    ensures Uint32(BigEndian32(n)) == n
  {
    assert n / 0x100 == n / 0x1_0000 * 256 + n / 0x100 % 256;
    assert n / 0x1_0000 == n / 0x100_0000 * 256 + n / 0x1_0000 % 256;
  }

  function Zeros(n: nat): (z: Bytes)
    ensures |z| == n
  {
    seq(n, _ => 0)
  }

  function EncSize(k: Codec): nat {
    PLAIN + HEADER + k.overhead
  }

  /** One chunk: the ciphertext length, the ciphertext, zeros up to the fixed overhead. */
  function Chunk(k: Codec, ct: Bytes, plainLen: nat): (c: Bytes)
    requires |ct| <= plainLen + k.overhead < 0x1_0000_0000
    ensures |c| == HEADER + plainLen + k.overhead
  {
    BigEndian32(|ct|) + ct + Zeros(plainLen + k.overhead - |ct|)
  }

  datatype ReadError = TruncatedHeader | TruncatedData | BadCiphertext

  /** What a reader makes of the bytes of one chunk. */
  function OpenChunk(k: Codec, chunk: Bytes): (r: (Option<Bytes>, Option<ReadError>)) {
    if |chunk| < HEADER then (None, Some(TruncatedHeader))
    else
      var ctLen := Uint32(chunk[..HEADER]);
      if HEADER + ctLen > |chunk| then (None, Some(TruncatedData))
      else
        match k.dec(chunk[HEADER..HEADER + ctLen])
        case None => (None, Some(BadCiphertext))
        case Some(p) => (Some(p), None)
  }

  lemma OpenOfChunk(k: Codec, i: nat, p: Bytes)
    requires Fits(k) && p != [] && |p| <= PLAIN
    ensures OpenChunk(k, Chunk(k, k.enc(i, p), |p|)) == (Some(p), None)
  {
    var ct := k.enc(i, p);
    var c := Chunk(k, ct, |p|);
    Uint32OfBigEndian(|ct|);
    assert c[..HEADER] == BigEndian32(|ct|) && c[HEADER..HEADER + |ct|] == ct;
  }

  // ---- What the bytes are ------------------------------------------------------------------------------------

  /** The first four bytes as a number, the most significant one first. */
  function First4(b: Bytes): nat
    requires |b| >= 4
  {
    (b[0] as int) * 16777216 + (b[1] as int) * 65536 + (b[2] as int) * 256 + b[3] as int
  }

  /** A chunk, byte by byte: four bytes with the length of the ciphertext, the ciphertext, and zeros. */
  lemma ChunkIs(k: Codec, ct: Bytes, plainLen: nat)
    requires |ct| <= plainLen + k.overhead < 0x1_0000_0000
    ensures var c := Chunk(k, ct, plainLen);
      && |c| == 4 + plainLen + k.overhead && First4(c) == |ct| && c[4..4 + |ct|] == ct
      && forall i :: 4 + |ct| <= i < |c| ==> c[i] == 0
  {
    Uint32OfBigEndian(|ct|);
    var c := Chunk(k, ct, plainLen);
    assert c[..4] == BigEndian32(|ct|);
    assert c[0] == c[..4][0] && c[1] == c[..4][1] && c[2] == c[..4][2] && c[3] == c[..4][3];
  }

  /** Bytes open to a plaintext exactly if they begin with the length of a ciphertext, hold that much after it, and
      that decrypts to it. */
  lemma OpenIff(k: Codec, c: Bytes, p: Bytes)
    ensures OpenChunk(k, c).0 == Some(p) <==>
            |c| >= 4 && 4 + First4(c) <= |c| && k.dec(c[4..4 + First4(c)]) == Some(p)
    ensures OpenChunk(k, c).1 == Some(TruncatedHeader) <==> |c| < 4
    ensures OpenChunk(k, c).1 == Some(TruncatedData) <==> |c| >= 4 && 4 + First4(c) > |c|
    ensures OpenChunk(k, c).1.None? <==> OpenChunk(k, c).0.Some?
  {
    if |c| >= 4 { assert Uint32(c[..4]) == First4(c); }
  }

  function Min(a: nat, b: nat): nat {
    if a <= b then a else b
  }

  /** `c` is a chunk holding p under some key and nonce. */
  ghost predicate IsChunk(k: Codec, c: Bytes, p: Bytes)
    requires Fits(k) && p != [] && |p| <= PLAIN
  {
    exists i: nat :: c == Chunk(k, k.enc(i, p), |p|)
  }

  /** `data` is some chunk stream of `plain`: full chunks and possibly a shorter last one. */
  ghost predicate IsStream(k: Codec, data: Bytes, plain: Bytes)
    requires Fits(k)
    decreases |plain|
  {
    if plain == [] then data == []
    else
      var m := Min(|plain|, PLAIN);
      var n := HEADER + m + k.overhead;
      n <= |data| && IsChunk(k, data[..n], plain[..m]) && IsStream(k, data[n..], plain[m..])
  }

  /** What the writer produces of `plain`, its calls to the encryptor numbered from i. */
  ghost function Encoded(k: Codec, i: nat, plain: Bytes): Bytes
    requires Fits(k)
    decreases |plain|
  {
    if plain == [] then []
    else
      var m := Min(|plain|, PLAIN);
      Chunk(k, k.enc(i, plain[..m]), m) + Encoded(k, i + 1, plain[m..])
  }

  /** A chunk in front of a stream makes a stream, if it is full or the last one. */
  lemma {:induction false} StreamCons(k: Codec, c: Bytes, p: Bytes, data: Bytes, plain: Bytes)
    requires Fits(k) && IsStream(k, data, plain)
    requires p != [] && (|p| == PLAIN || (|p| < PLAIN && plain == [])) && IsChunk(k, c, p)
    ensures IsStream(k, c + data, p + plain)
  {
    assert |c| == HEADER + |p| + k.overhead;
    assert (c + data)[..|c|] == c && (c + data)[|c|..] == data;
    assert (p + plain)[..|p|] == p && (p + plain)[|p|..] == plain;
    assert Min(|p + plain|, PLAIN) == |p|;
  }

  lemma {:induction false} EncodedIsStream(k: Codec, i: nat, plain: Bytes)
    requires Fits(k)
    ensures IsStream(k, Encoded(k, i, plain), plain)
    decreases |plain|
  {
    if plain != [] {
      var m := Min(|plain|, PLAIN);
      EncodedIsStream(k, i + 1, plain[m..]);
      var c := Chunk(k, k.enc(i, plain[..m]), m);
      assert IsChunk(k, c, plain[..m]);
      StreamCons(k, c, plain[..m], Encoded(k, i + 1, plain[m..]), plain[m..]);
      assert plain[..m] + plain[m..] == plain;
    }
  }

  lemma EncodedCons(k: Codec, i: nat, plain: Bytes)
    requires Fits(k) && plain != []
    ensures var m := Min(|plain|, 1048576);
      var c := Chunk(k, k.enc(i, plain[..m]), m);
      Encoded(k, i, plain) == c + Encoded(k, i + 1, plain[m..]) && |c| == 4 + m + k.overhead
  {}

  lemma Behind(a: Bytes, b: Bytes, from: nat, to: nat)
    requires from <= to <= |b|
    ensures (a + b)[|a| + from..|a| + to] == b[from..to]
  {}

  /** The j-th MiB of a plaintext. */
  function Mib(plain: Bytes, j: nat): Bytes
    requires j * 1048576 < |plain|
  {
    plain[j * 1048576..Min(|plain|, (j + 1) * 1048576)]
  }

  lemma MibOfRest(plain: Bytes, j: nat)
    requires j > 0 && j * 1048576 < |plain|
    ensures (j - 1) * 1048576 < |plain[1048576..]| && Mib(plain[1048576..], j - 1) == Mib(plain, j)
  {}

  lemma OneMore(j: nat, e: nat)
    requires j > 0
    ensures (j - 1) * e + e == j * e
  {}

  /** The stored form, byte by byte: chunk j begins at j times 1 MiB plus its overhead and holds the j-th MiB of the
      plaintext, encrypted by a call of its own; there is nothing after the last one. */
  lemma {:induction false} EncodedIs(k: Codec, i: nat, plain: Bytes, j: nat)
    requires Fits(k) && j * 1048576 < |plain|
    ensures var p, at := Mib(plain, j), j * (1048576 + 4 + k.overhead);
      var end := at + 4 + |p| + k.overhead;
      && end <= |Encoded(k, i, plain)| && Encoded(k, i, plain)[at..end] == Chunk(k, k.enc(i + j, p), |p|)
      && ((j + 1) * 1048576 >= |plain| ==> |Encoded(k, i, plain)| == end)
    decreases j
  {
    hide Chunk, Encoded, Mib;
    EncodedCons(k, i, plain);
    var m, e := Min(|plain|, 1048576), 1048576 + 4 + k.overhead;
    var c, rest := Chunk(k, k.enc(i, plain[..m]), m), Encoded(k, i + 1, plain[m..]);
    if j == 0 {
      assert Mib(plain, 0) == plain[..m] by { FirstMib(plain); }
      assert 0 * e == 0 && (c + rest)[0..|c|] == c;
      if m == |plain| { assert plain[m..] == []; NothingEncoded(k, i + 1); }
    } else {
      EncodedIs(k, i + 1, plain[m..], j - 1);
      MibOfRest(plain, j);
      OneMore(j, e);
      Behind(c, rest, (j - 1) * e, (j - 1) * e + 4 + |Mib(plain, j)| + k.overhead);
    }
  }

  lemma FirstMib(plain: Bytes)
    requires plain != []
    ensures Mib(plain, 0) == plain[..Min(|plain|, 1048576)]
  {}

  lemma {:induction false} NothingEncoded(k: Codec, i: nat)
    requires Fits(k)
    ensures Encoded(k, i, []) == []
  {}

  ghost predicate Whole(n: nat) {
    n % PLAIN == 0
  }

  lemma WholeStep(n: nat)
    requires Whole(n) && n > 0
    ensures n >= PLAIN && Whole(n - PLAIN)
  {}

  /** Streams of whole chunks compose: this is what lets parts be encrypted on their own. */
  lemma {:induction false} StreamConcat(k: Codec, d1: Bytes, p1: Bytes, d2: Bytes, p2: Bytes)
    requires Fits(k) && IsStream(k, d1, p1) && IsStream(k, d2, p2) && Whole(|p1|)
    ensures IsStream(k, d1 + d2, p1 + p2)
    decreases |p1|
  {
    if p1 == [] {
      assert d1 + d2 == d2 && p1 + p2 == p2;
    } else {
      WholeStep(|p1|);
      var n := EncSize(k);
      assert IsChunk(k, d1[..n], p1[..PLAIN]) && IsStream(k, d1[n..], p1[PLAIN..]);
      StreamConcat(k, d1[n..], p1[PLAIN..], d2, p2);
      StreamCons(k, d1[..n], p1[..PLAIN], d1[n..] + d2, p1[PLAIN..] + p2);
      Regroup(d1, n, d2);
      Regroup(p1, PLAIN, p2);
    }
  }

  lemma Regroup(a: Bytes, n: nat, b: Bytes)
    requires n <= |a|
    ensures a[..n] + (a[n..] + b) == a + b
  {}

  // ---- Sizes -------------------------------------------------------------------------------------------

  /** The plaintext size read off the stored size. */
  function CalcPlainSize(k: Codec, encSize: int): int {
    if encSize <= 0 then 0
    else if encSize <= HEADER + k.overhead then encSize
    else
      var full, rem := encSize / EncSize(k), encSize % EncSize(k);
      full * PLAIN + if rem > HEADER + k.overhead then rem - (HEADER + k.overhead) else 0
  }

  lemma AddOneChunk(k: Codec, n: nat)
    ensures (n + EncSize(k)) / EncSize(k) == n / EncSize(k) + 1 && (n + EncSize(k)) % EncSize(k) == n % EncSize(k)
  {
    var e := EncSize(k);
    var q, r := n / e, n % e;
    assert n + e == (q + 1) * e + r by { assert (q + 1) * e == q * e + e; }
    DivUnique(n + e, e, q + 1, r);
  }

  lemma DivUnique(n: nat, e: nat, q: nat, r: nat)
    requires e > 0 && r < e && n == q * e + r
    ensures n / e == q && n % e == r
  {
    var q', r' := n / e, n % e;
    var d := q - q';
    assert q' * e + r' == n;
    assert d * e == r' - r by { assert d * e == q * e - q' * e; }
    assert (-d) * e == -(d * e);
    if d >= 1 { Multiple(d, e); }
    if d <= -1 { Multiple(-d, e); }
  }

  lemma Multiple(a: int, e: nat)
    requires a >= 1
    ensures a * e >= e
  {
    assert a * e == (a - 1) * e + e;
  }

  /** The computed size is the true one for every stream, the empty one included. */
  lemma {:induction false} CalcPlainSizeExact(k: Codec, data: Bytes, plain: Bytes)
    requires Fits(k) && IsStream(k, data, plain)
    ensures CalcPlainSize(k, |data|) == |plain|
    decreases |plain|
  {
    if plain != [] {
      var m := Min(|plain|, PLAIN);
      var n := HEADER + m + k.overhead;
      CalcPlainSizeExact(k, data[n..], plain[m..]);
      if m == PLAIN {
        AddOneChunk(k, |data[n..]|);
        if plain[m..] != [] {
          assert |data[n..]| > HEADER + k.overhead;
          assert (|data| - n) / EncSize(k) * PLAIN + PLAIN == |data| / EncSize(k) * PLAIN;
        } else {
          assert |data| == n;
          DivUnique(n, EncSize(k), 1, 0);
        }
      } else {
        assert plain[m..] == [];
        DivUnique(|data|, EncSize(k), 0, |data|);
      }
    }
  }
}

/** Ranged reads of a chunked object return the same range of the plaintext. */
module ChunkRanges {
  import opened Producer
  import opened Encrypt
  import opened Chunked
  import opened ChunkStreams
  import opened ChunkReads

  /** The bytes a ranged read of plain data returns; a limit of zero or less means to the end. */
  function Range(data: Bytes, off: nat, limit: int): Bytes {
    if limit <= 0 then Drop(data, off) else Take(Drop(data, off), limit)
  }

  lemma RangeIs(data: Bytes, off: nat, limit: int)
    ensures Range(data, off, limit) ==
            if off >= |data| then [] else if limit <= 0 || off + limit >= |data| then data[off..]
            else data[off..off + limit]
  {}

  // ---- Streams cut at chunk boundaries -----------------------------------------------------------------

  /** c times n, by addition. */
  function Times(c: nat, n: nat): nat {
    if c == 0 then 0 else Times(c - 1, n) + n
  }

  lemma {:induction false} TimesIs(c: nat, n: nat)
    ensures Times(c, n) == c * n
  {
    if c > 0 {
      TimesIs(c - 1, n);
      assert c * n == (c - 1) * n + n;
    }
  }

  lemma DropMore(s: Bytes, a: nat, b: nat)
    ensures Drop(Drop(s, a), b) == Drop(s, a + b)
  {}

  lemma TakeFront(s: Bytes, a: nat, b: nat)
    requires a <= |s|
    ensures Take(s, a + b) == s[..a] + Take(s[a..], b)
  {}

  lemma {:induction false} EmptyStream(k: Codec)
    requires Fits(k)
    ensures IsStream(k, [], [])
  {}

  lemma {:induction false} NothingMore(k: Codec, data: Bytes, plain: Bytes)
    requires Fits(k) && IsStream(k, data, plain)
    ensures plain == [] ==> data == []
  {}

  lemma {:induction false} SplitHead(k: Codec, data: Bytes, plain: Bytes)
    requires Fits(k) && IsStream(k, data, plain) && plain != []
    ensures var m := Min(|plain|, PLAIN); var n := HEADER + m + k.overhead;
      && n <= |data| && IsChunk(k, data[..n], plain[..m]) && IsStream(k, data[n..], plain[m..])
      && (m < PLAIN ==> n == |data|)
  {
    var m := Min(|plain|, PLAIN);
    NothingMore(k, data[HEADER + m + k.overhead..], plain[m..]);
  }

  /** A stream of at most one chunk is no longer than one chunk. */
  lemma {:induction false} ShortStream(k: Codec, data: Bytes, plain: Bytes)
    requires Fits(k) && IsStream(k, data, plain) && |plain| <= PLAIN
    ensures |data| <= EncSize(k)
  {
    hide IsStream;
    NothingMore(k, data, plain);
    if plain != [] {
      SplitHead(k, data, plain);
      NothingMore(k, data[HEADER + |plain| + k.overhead..], plain[|plain|..]);
    }
  }

  lemma {:induction false} DropOne(k: Codec, data: Bytes, plain: Bytes)
    requires Fits(k) && IsStream(k, data, plain)
    ensures IsStream(k, Drop(data, EncSize(k)), Drop(plain, PLAIN))
  {
    hide IsStream;
    NothingMore(k, data, plain);
    EmptyStream(k);
    if plain != [] { SplitHead(k, data, plain); }
  }

  /** Dropping whole chunks from the stored bytes drops that much plaintext. */
  lemma {:induction false} DropChunks(k: Codec, data: Bytes, plain: Bytes, c: nat)
    requires Fits(k) && IsStream(k, data, plain)
    ensures IsStream(k, Drop(data, Times(c, EncSize(k))), Drop(plain, Times(c, PLAIN)))
    decreases c
  {
    hide IsStream, IsChunk, Fits;
    if c == 0 {
      assert Drop(data, 0) == data && Drop(plain, 0) == plain;
    } else {
      DropOne(k, data, plain);
      DropChunks(k, Drop(data, EncSize(k)), Drop(plain, PLAIN), c - 1);
      DropMore(data, EncSize(k), Times(c - 1, EncSize(k)));
      DropMore(plain, PLAIN, Times(c - 1, PLAIN));
    }
  }

  lemma TakeAll(s: Bytes, n: nat)
    requires |s| <= n
    ensures Take(s, n) == s
  {}

  /** Whole chunks at the front of the stored bytes hold that much plaintext. */
  lemma {:induction false} TakeChunks(k: Codec, data: Bytes, plain: Bytes, c: nat)
    requires Fits(k) && IsStream(k, data, plain)
    ensures IsStream(k, Take(data, Times(c, EncSize(k))), Take(plain, Times(c, PLAIN)))
    decreases c
  {
    hide IsStream, IsChunk, Fits;
    if c == 0 {
      EmptyStream(k);
      assert Take(data, 0) == [] && Take(plain, 0) == [];
    } else if |plain| <= PLAIN {
      ShortStream(k, data, plain);
      TakeAll(data, Times(c, EncSize(k)));
      TakeAll(plain, Times(c, PLAIN));
    } else {
      var e, n, m := EncSize(k), Times(c - 1, EncSize(k)), Times(c - 1, PLAIN);
      SplitHead(k, data, plain);
      TakeChunks(k, data[e..], plain[PLAIN..], c - 1);
      StreamCons(k, data[..e], plain[..PLAIN], Take(data[e..], n), Take(plain[PLAIN..], m));
      TakeFront(data, e, n);
      TakeFront(plain, PLAIN, m);
    }
  }

  // ---- What the reader makes of a stream -----------------------------------------------------------------

  lemma OpenHead(k: Codec, c: Bytes, p: Bytes)
    requires Fits(k) && p != [] && |p| <= PLAIN && IsChunk(k, c, p)
    ensures OpenChunk(k, c).0 == Some(p)
  {
    var i: nat :| c == Chunk(k, k.enc(i, p), |p|);
    OpenOfChunk(k, i, p);
  }

  /** The first chunk as the reader sees it. */
  lemma {:induction false} HeadIs(k: Codec, data: Bytes, plain: Bytes)
    requires Fits(k) && IsStream(k, data, plain) && plain != []
    ensures var m := Min(|plain|, PLAIN); var n := Min(|data|, EncSize(k));
      && n == HEADER + m + k.overhead && OpenChunk(k, data[..n]).0 == Some(plain[..m])
      && IsStream(k, data[n..], plain[m..])
  {
    hide IsStream, OpenChunk, IsChunk;
    SplitHead(k, data, plain);
    var m := Min(|plain|, PLAIN);
    OpenHead(k, data[..HEADER + m + k.overhead], plain[..m]);
  }

  lemma SkipFront(plain: Bytes, m: nat, skip: nat)
    requires m <= |plain| && (skip < m || m == |plain|)
    ensures Drop(plain, skip) == Drop(plain[..m], skip) + plain[m..]
  {}

  /** A sound stream is delivered without its first `skip` bytes, and ends cleanly. */
  lemma {:induction false} DecodedStream(k: Codec, data: Bytes, plain: Bytes, skip: nat)
    requires Fits(k) && IsStream(k, data, plain) && skip < PLAIN
    ensures Decoded(k, data, false, skip) == (Drop(plain, skip), EOF)
    decreases |plain|
  {
    hide IsStream;
    NothingMore(k, data, plain);
    if plain != [] {
      HeadIs(k, data, plain);
      var m := Min(|plain|, PLAIN);
      DecodedStream(k, data[Min(|data|, EncSize(k))..], plain[m..], 0);
      SkipFront(plain, m, skip);
    }
  }

  // ---- What the reader makes of a broken stream ---------------------------------------------------------------

  /** What follows whole chunks is read after their plaintext. */
  lemma {:induction false} DecodedAfter(k: Codec, data: Bytes, plain: Bytes, rest: Bytes, failing: bool)
    requires Fits(k) && IsStream(k, data, plain) && |plain| % PLAIN == 0
    ensures var tail := Decoded(k, rest, failing, 0);
      Decoded(k, data + rest, failing, 0) == (plain + tail.0, tail.1)
    decreases |plain|
  {
    hide IsStream, IsChunk, Decoded, OpenChunk, Fits;
    NothingMore(k, data, plain);
    if plain == [] {
      assert data + rest == rest && plain + Decoded(k, rest, failing, 0).0 == Decoded(k, rest, failing, 0).0;
    } else {
      WholeStep(|plain|);
      HeadIs(k, data, plain);
      var e := EncSize(k);
      DecodedAfter(k, data[e..], plain[PLAIN..], rest, failing);
      assert (data + rest)[..e] == data[..e] && (data + rest)[e..] == data[e..] + rest;
      assert Min(|data + rest|, e) == e;
      DecodedOne(k, data + rest, failing, plain[..PLAIN]);
      Regroup(plain, PLAIN, Decoded(k, rest, failing, 0).0);
    }
  }

  /** One whole chunk that opens. */
  lemma {:induction false} DecodedOne(k: Codec, input: Bytes, failing: bool, p: Bytes)
    requires |input| >= EncSize(k) && OpenChunk(k, input[..EncSize(k)]).0 == Some(p)
    ensures var rest := Decoded(k, input[EncSize(k)..], failing, 0);
      Decoded(k, input, failing, 0) == (p + rest.0, rest.1)
  {
    assert p[0..] == p;
  }

  /** Bytes that do not open, after whole chunks that do: the plaintext of those is read, and then an error. */
  lemma {:induction false} CorruptIsReported(k: Codec, data: Bytes, plain: Bytes, bad: Bytes)
    requires Fits(k) && IsStream(k, data, plain) && |plain| % PLAIN == 0
    requires bad != [] && OpenChunk(k, bad[..Min(|bad|, EncSize(k))]).0.None?
    ensures Decoded(k, data + bad, false, 0) == (plain, Failure)
  {
    DecodedAfter(k, data, plain, bad, false);
    assert plain + [] == plain;
  }

  /** A first chunk that opens is skipped into, and a skip past all it holds ends the reading. */
  lemma {:induction false} SkipIs(k: Codec, input: Bytes, p: Bytes, skip: nat)
    requires |input| >= EncSize(k) && OpenChunk(k, input[..EncSize(k)]).0 == Some(p)
    ensures skip >= |p| && skip > 0 ==> Decoded(k, input, false, skip) == ([], EOF)
    ensures skip < |p| ==> Decoded(k, input, false, skip).0 == p[skip..] + Decoded(k, input[EncSize(k)..], false, 0).0
  {}

  /** A source that fails inside a chunk: the chunks before it are read, and then the error. */
  lemma {:induction false} FailureIsReported(k: Codec, data: Bytes, plain: Bytes, part: Bytes)
    requires Fits(k) && IsStream(k, data, plain) && |plain| % PLAIN == 0 && |part| < EncSize(k)
    ensures Decoded(k, data + part, true, 0) == (plain, Failure)
  {
    DecodedAfter(k, data, plain, part, true);
    assert plain + [] == plain;
  }

  lemma {:induction false} CutChunk(k: Codec, chunk: Bytes, q: Bytes, t: nat)
    requires Fits(k) && q != [] && |q| <= PLAIN && IsChunk(k, chunk, q) && t <= |chunk|
    ensures |chunk| >= 4
    ensures Decoded(k, chunk[..t], false, 0) ==
            if t == 0 then ([], EOF) else if t < 4 || t < 4 + First4(chunk) then ([], Failure) else (q, EOF)
  {
    hide IsChunk, Fits, OpenChunk;
    ChunkLength(k, chunk, q);
    OpenHead(k, chunk, q);
    OpenIff(k, chunk, q);
    var cut := chunk[..t];
    OpenIff(k, cut, q);
    if t >= 4 {
      assert First4(cut) == First4(chunk);
      if t >= 4 + First4(chunk) { assert cut[4..4 + First4(chunk)] == chunk[4..4 + First4(chunk)]; }
    }
    if t > 0 { DecodedLast(k, cut); }
  }

  lemma ChunkLength(k: Codec, chunk: Bytes, q: Bytes)
    requires Fits(k) && q != [] && |q| <= PLAIN && IsChunk(k, chunk, q)
    ensures 4 <= |chunk| <= EncSize(k)
  {}

  /** Input of no more than one chunk. */
  lemma {:induction false} DecodedLast(k: Codec, input: Bytes)
    requires 0 < |input| <= EncSize(k)
    ensures var p := OpenChunk(k, input).0;
      Decoded(k, input, false, 0) == if p.Some? then (p.value, EOF) else ([], Failure)
  {
    hide OpenChunk;
    assert input[..|input|] == input && input[|input|..] == [];
    var p := OpenChunk(k, input).0;
    if p.Some? { assert p.value[0..] + [] == p.value; }
  }

  /** A stored object cut short, after whole chunks and t bytes of the next: the whole chunks are read, and then the
      end is reported if the cut is between chunks, an error if it takes ciphertext away, and the whole next chunk
      and then the end if it takes only padding away. So a cut between chunks is never noticed. */
  lemma {:induction false} CutIs(k: Codec, head: Bytes, p: Bytes, chunk: Bytes, q: Bytes, t: nat)
    requires Fits(k) && IsStream(k, head, p) && |p| % PLAIN == 0
    requires q != [] && |q| <= PLAIN && IsChunk(k, chunk, q) && t <= |chunk|
    ensures |chunk| >= 4
    ensures Decoded(k, head + chunk[..t], false, 0) ==
            if t == 0 then (p, EOF) else if t < 4 || t < 4 + First4(chunk) then (p, Failure) else (p + q, EOF)
  {
    hide Decoded, IsStream, IsChunk, Fits;
    CutChunk(k, chunk, q, t);
    DecodedAfter(k, head, p, chunk[..t], false);
    assert p + [] == p;
  }

  // ---- The ranged read -------------------------------------------------------------------------------------

  /** Reads to the end of the limit or of the stream, the i-th time with a buffer of `sizes(i)` bytes,
      while others use the free buffers of the pool. */
  method ReadAll(r: ChunkDecryptReader, limit: int, sizes: nat -> nat) returns (out: Bytes, err: Status)
    requires r.Valid() && forall i: nat :: sizes(i) > 0
    modifies r.Repr()
    ensures r.Valid() && fresh(r.Repr() - old(r.Repr()))
    ensures r.pool.lent - r.Owned() == old(r.pool.lent - r.Owned())
    ensures var all := old(r.Pending());
      if limit <= 0 then (out, err) == all
      else out == Take(all.0, limit) && err == if |all.0| < limit then all.1 else EOF
  {
    hide Decoded;
    out, err := [], Fine;
    var i := 0;
    while err == Fine && (limit <= 0 || |out| < limit)
      invariant r.Valid() && fresh(r.Repr() - old(r.Repr()))
      invariant r.pool.lent - r.Owned() == old(r.pool.lent - r.Owned())
      invariant limit > 0 ==> |out| <= limit
      invariant err == Fine ==> Delivers(out, r.Pending(), old(r.Pending()))
      invariant err != Fine ==> (out, err) == old(r.Pending()) && (limit > 0 ==> |out| < limit)
      decreases err == Fine, |r.input|, |r.Pending().0|
    {
      var p := new Byte[sizes(i)];
      var m := if limit > 0 then Min(sizes(i), limit - |out|) else sizes(i);
      ghost var before := r.Pending().0;
      var n;
      n, err := r.Read(p, m);
      if err == Fine { Associate(out, p[..n], r.Pending().0); } else { assert out + [] == out; }
      out := out + p[..n];
      r.pool.Scribble();
      i := i + 1;
    }
    if err == Fine { err := EOF; }
  }

  /** The part of the stored object that a read of `limit` bytes from `off` fetches. */
  function Fetched(k: Codec, stored: Bytes, off: nat, limit: int): Bytes {
    var startChunk := off / PLAIN;
    var encOff := startChunk * EncSize(k);
    var encLimit := if limit > 0 then ((off + limit - 1) / PLAIN - startChunk + 1) * EncSize(k) else -1;
    Range(stored, encOff, encLimit)
  }

  /** What is fetched begins with the chunk that the range begins in and is as many chunks as the range touches, or
      all the rest for a range without end. */
  lemma FetchedIs(k: Codec, stored: Bytes, off: nat, limit: int, from: nat, n: nat)
    requires from == off / 1048576 * (1048576 + 4 + k.overhead)
    requires limit > 0 ==> n == ((off + limit - 1) / 1048576 - off / 1048576 + 1) * (1048576 + 4 + k.overhead)
    ensures Fetched(k, stored, off, limit) ==
            if from >= |stored| then [] else if limit <= 0 then stored[from..]
            else stored[from..Min(|stored|, from + n)]
  {
    hide Range, Fetched;
    if limit > 0 { Multiple((off + limit - 1) / 1048576 - off / 1048576 + 1, EncSize(k)); }
    FetchedChunks(k, stored, off, limit, from, if limit > 0 then n else -1);
    FrontOf(stored, from, if limit > 0 then n else -1);
  }

  lemma FetchedChunks(k: Codec, stored: Bytes, off: nat, limit: int, from: nat, n: int)
    requires from == off / 1048576 * EncSize(k)
    requires n == if limit > 0 then ((off + limit - 1) / 1048576 - off / 1048576 + 1) * EncSize(k) else -1
    ensures Fetched(k, stored, off, limit) == Range(stored, from, n)
  {
    hide Range;
  }

  lemma FrontOf(stored: Bytes, from: nat, n: int)
    ensures Range(stored, from, n) ==
            if from >= |stored| then [] else stored[from..if n <= 0 then |stored| else Min(|stored|, from + n)]
  {}

  lemma RangeOfRange(plain: Bytes, start: nat, count: nat, skip: nat, limit: nat)
    requires skip + limit <= count
    ensures Take(Drop(Take(Drop(plain, start), count), skip), limit) == Take(Drop(plain, start + skip), limit)
  {
    DropMore(plain, start, skip);
  }

  /** What is fetched decodes, after the skip and up to the limit, to the range asked for. */
  lemma {:induction false} FetchedDecodes(k: Codec, stored: Bytes, plain: Bytes, off: nat, limit: int)
    requires Fits(k) && IsStream(k, stored, plain)
    ensures var all := Decoded(k, Fetched(k, stored, off, limit), false, off % PLAIN);
      all.1 == EOF && Range(plain, off, limit) == if limit <= 0 then all.0 else Take(all.0, limit)
  {
    hide IsStream;
    hide Decoded;
    var start, skip := off / PLAIN, off % PLAIN;
    TimesIs(start, EncSize(k));
    TimesIs(start, PLAIN);
    DropChunks(k, stored, plain, start);
    var d, p := Drop(stored, Times(start, EncSize(k))), Drop(plain, Times(start, PLAIN));
    if limit <= 0 {
      DecodedStream(k, d, p, skip);
      DropMore(plain, start * PLAIN, skip);
    } else {
      var count := (off + limit - 1) / PLAIN - start + 1;
      TimesIs(count, EncSize(k));
      TimesIs(count, PLAIN);
      Multiple(count, EncSize(k));
      TakeChunks(k, d, p, count);
      DecodedStream(k, Take(d, Times(count, EncSize(k))), Take(p, Times(count, PLAIN)), skip);
      RangeOfRange(plain, start * PLAIN, count * PLAIN, skip, limit);
    }
  }

  /** A ranged read of a sound object, for any offset and limit and any sizes of the caller's buffers:
      exactly the range of the plaintext, and every buffer is back in the pool after Close. */
  method Get(k: Codec, pool: Pool, stored: Bytes, ghost plain: Bytes, off: nat, limit: int, sizes: nat -> nat)
    returns (out: Bytes, err: Status)
    requires Fits(k) && IsStream(k, stored, plain) && forall i: nat :: sizes(i) > 0
    requires pool.Valid() && pool.size == EncSize(k)
    modifies pool, pool.free
    ensures out == Range(plain, off, limit) && err == EOF
    ensures pool.Valid() && pool.lent == old(pool.lent)
  {
    hide IsStream, Decoded, Fits, Range, Fetched;
    var startChunk := off / PLAIN;
    var r := new ChunkDecryptReader(k, pool, Fetched(k, stored, off, limit), false, off - startChunk * PLAIN);
    FetchedDecodes(k, stored, plain, off, limit);
    out, err := ReadAll(r, limit, sizes);
    r.Close();
  }

  /** Written through the encrypting reader and read back through the decrypting one, with any sizes of
      buffers on either side, a plaintext comes back in any range, and its size is known from the stored one. */
  method PutThenGet(k: Codec, plainPool: Pool, encPool: Pool, plain: Bytes, off: nat, limit: int,
                    writeSizes: nat -> nat, readSizes: nat -> nat)
    returns (out: Bytes, size: int)
    requires Fits(k) && forall i: nat :: writeSizes(i) > 0 && readSizes(i) > 0
    requires plainPool.Valid() && plainPool.size == PLAIN && encPool.Valid() && encPool.size == EncSize(k)
    requires plainPool.free !! encPool.free
    modifies plainPool, plainPool.free, encPool, encPool.free
    ensures out == Range(plain, off, limit) && size == |plain|
    ensures out == if off >= |plain| then [] else if limit <= 0 || off + limit >= |plain| then plain[off..]
                   else plain[off..off + limit]
  {
    hide IsStream, Encoded, Fits, Range;
    RangeIs(plain, off, limit);
    var w := new ChunkEncryptReader(k, plainPool, plain, false);
    var stored, err := ReadAllEncrypted(w, writeSizes);
    EncodedIsStream(k, 0, plain);
    CalcPlainSizeExact(k, stored, plain);
    size := CalcPlainSize(k, |stored|);
    out, err := Get(k, encPool, stored, plain, off, limit, readSizes);
  }
}

/** Reading the chunked format: decryption in place in pooled buffers, and ranged reads. */
module ChunkReads {
  import opened Producer
  import opened Encrypt
  import opened Chunked
  import opened ChunkStreams

  // ---- What a reader delivers --------------------------------------------------------------------------

  /** The bytes the stored bytes stand for after skipping some of the first chunk, and how the reading
      ends; corrupt and truncated input included. */
  ghost function Decoded(k: Codec, input: Bytes, failing: bool, skip: nat): (r: (Bytes, Status))
    ensures r.1 != Fine
    decreases |input|
  {
    if |input| < EncSize(k) && failing then ([], Failure)
    else if input == [] then ([], EOF)
    else
      var n := Min(|input|, EncSize(k));
      match OpenChunk(k, input[..n]).0
      case None => ([], Failure)
      case Some(plain) =>
        if skip > 0 && skip >= |plain| then ([], EOF)
        else
          var rest := Decoded(k, input[n..], failing, 0);
          (plain[skip..] + rest.0, rest.1)
  }

  function Drop(s: Bytes, n: nat): Bytes {
    if n <= |s| then s[n..] else []
  }

  function Take(s: Bytes, n: nat): Bytes {
    if n <= |s| then s[..n] else s
  }

  class ChunkDecryptReader {
    const k: Codec
    const pool: Pool
    const failing: bool
    var input: Bytes
    var skip: nat
    /** The plaintext not yet handed out is chunkBuf[lo..hi]: it lies in a pooled buffer. */
    var chunkBuf: array?<Byte>
    var lo: nat
    var hi: nat

    ghost function Owned(): set<array<Byte>>
      reads this
    {
      if chunkBuf == null then {} else {chunkBuf}
    }

    ghost function Repr(): set<object>
      reads this, pool
    {
      {this, pool} + pool.free + Owned()
    }

    ghost predicate Sane()
      reads this, pool
    {
      && Fits(k) && pool.Valid() && pool.size == EncSize(k)
      && Owned() <= pool.lent
      && (chunkBuf != null ==> lo <= hi <= chunkBuf.Length && skip == 0)
    }

    ghost predicate Valid()
      reads this, pool
    {
      Sane() && (chunkBuf != null ==> lo < hi)
    }

    ghost function Buffered(): Bytes
      requires Sane()
      reads this, pool, chunkBuf
    {
      if chunkBuf == null then [] else chunkBuf[lo..hi]
    }

    /** What is still to be delivered, and how it ends. */
    ghost function Pending(): (Bytes, Status)
      requires Sane()
      reads this, pool, chunkBuf
    {
      var rest := Decoded(k, input, failing, skip);
      (Buffered() + rest.0, rest.1)
    }

    constructor (k: Codec, pool: Pool, input: Bytes, failing: bool, skip: nat)
      requires Fits(k) && pool.Valid() && pool.size == EncSize(k)
      ensures Valid() && this.k == k && this.pool == pool && Owned() == {}
      ensures Pending() == Decoded(k, input, failing, skip)
      ensures fresh(this)
    {
      this.k, this.pool, this.failing, this.input, this.skip := k, pool, failing, input, skip;
      chunkBuf, lo, hi := null, 0, 0;
      new;
      assert Buffered() == [];
      assert Pending().0 == Decoded(k, input, failing, skip).0;
    }

    method PutChunkBuf()
      requires Sane()
      modifies this`chunkBuf, pool
      ensures Valid() && Owned() == {}
      ensures pool.lent == old(pool.lent - Owned()) && pool.free == old(pool.free + Owned())
    {
      if chunkBuf != null {
        pool.Put(chunkBuf);
        chunkBuf := null;
      }
    }

    /** Hands out the next bytes for any size m of the caller's buffer. A pooled buffer is held exactly
        while part of its plaintext is undelivered; every other buffer taken has gone back. */
    method Read(p: array<Byte>, m: nat) returns (n: nat, err: Status)
      requires Valid() && m <= p.Length && p !in pool.free + pool.lent
      modifies Repr(), p
      ensures Valid() && fresh(Repr() - old(Repr()))
      ensures n <= m && pool.lent - Owned() == old(pool.lent - Owned())
      ensures err == Fine ==> Delivers(p[..n], Pending(), old(Pending()))
      ensures err != Fine ==> n == 0 && Owned() == {} && old(Pending()) == ([], err)
      ensures |input| <= old(|input|)
      ensures err == Fine && m > 0 && |input| == old(|input|) ==> n > 0
    {
      if chunkBuf != null {
        n := ReadHeld(p, m);
        return n, Fine;
      }
      ghost var before := Decoded(k, input, failing, skip);
      assert Pending() == before by { assert Buffered() == []; assert Pending().0 == before.0; }
      var cb, from, to;
      cb, from, to, err := OpenNext();
      if err != Fine { pool.Put(cb); return 0, err; }
      n := Start(p, m, cb, from, to);
    }

    /** Hands out from the buffer in hand; the last of it sends the buffer back. */
    method ReadHeld(p: array<Byte>, m: nat) returns (n: nat)
      requires Valid() && m <= p.Length && p !in pool.free + pool.lent && chunkBuf != null
      modifies this`chunkBuf, this`lo, pool, p
      ensures Valid() && Owned() <= old(Owned()) && pool.free == old(pool.free) + (old(Owned()) - Owned())
      ensures n <= m && pool.lent - Owned() == old(pool.lent - Owned()) && (m > 0 ==> n > 0)
      ensures Delivers(p[..n], Pending(), old(Pending()))
    {
      hide Decoded, Fits;
      ghost var was := Buffered();
      n := HandOut(p, m, chunkBuf, lo, hi);
      lo := lo + n;
      assert was == p[..n] + Buffered();
      Associate(p[..n], Buffered(), Decoded(k, input, failing, skip).0);
      if lo == hi { PutChunkBuf(); }
    }

    /** Hands out from a chunk just opened, and keeps its buffer only for what is left of it. */
    method Start(p: array<Byte>, m: nat, cb: array<Byte>, from: nat, to: nat) returns (n: nat)
      requires Valid() && m <= p.Length && p !in pool.free + pool.lent && chunkBuf == null && skip == 0
      requires cb in pool.lent && from <= to <= cb.Length
      modifies this`chunkBuf, this`lo, this`hi, pool, p
      ensures Valid() && Owned() <= {cb} && pool.free == old(pool.free) + ({cb} - Owned())
      ensures n <= m && pool.lent - Owned() == old(pool.lent) - {cb}
      ensures Delivers(p[..n], Pending(),
          (old(cb[from..to]) + Decoded(k, input, failing, 0).0, Decoded(k, input, failing, 0).1))
    {
      hide Decoded, Fits;
      ghost var all := cb[from..to];
      n := HandOut(p, m, cb, from, to);
      if from + n < to {
        chunkBuf, lo, hi := cb, from + n, to;
      } else {
        pool.Put(cb);
      }
      assert all == p[..n] + Buffered();
      Associate(p[..n], Buffered(), Decoded(k, input, failing, skip).0);
    }

    /** Takes a buffer, fills it with the next stored chunk and decrypts it in place: the plaintext to
        deliver is then cb[from..to]. */
    method OpenNext() returns (cb: array<Byte>, from: nat, to: nat, err: Status)
      requires Valid() && chunkBuf == null
      modifies this`input, this`skip, pool, pool.free
      ensures Valid() && chunkBuf == null
      ensures cb !in old(pool.lent) && pool.lent == old(pool.lent) + {cb}
      ensures pool.free == old(pool.free) - {cb} && (cb in old(pool.free) || fresh(cb))
      ensures from <= to <= cb.Length && |input| <= old(|input|)
      ensures err == Fine ==> |input| < old(|input|) && skip == 0
      ensures err == Fine ==> Delivers(cb[from..to], Decoded(k, input, failing, 0),
          old(Decoded(k, input, failing, skip)))
      ensures err != Fine ==> old(Decoded(k, input, failing, skip)) == ([], err)
    {
      cb := pool.Get();
      from, to := 0, 0;
      var size := Min(|input|, EncSize(k));
      if size < EncSize(k) && failing { input := []; return cb, 0, 0, Failure; }
      if size == 0 { return cb, 0, 0, EOF; }
      forall i | 0 <= i < size { cb[i] := input[i]; }
      assert cb[..size] == input[..size];
      input := input[size..];
      var ok;
      from, to, ok := OpenInPlace(k, cb, size);
      if !ok { return cb, 0, 0, Failure; }
      var s := skip;
      skip := 0;
      if s > 0 && s >= to - from { return cb, 0, 0, EOF; }
      ghost var plain := cb[from..to];
      from, err := from + s, Fine;
      assert cb[from..to] == plain[s..];
    }

    /** Gives the buffer back, once, however far the reading got. */
    method Close()
      requires Valid()
      modifies this, pool
      ensures pool.Valid() && pool.lent == old(pool.lent - Owned()) && Owned() == {}
    {
      PutChunkBuf();
    }
  }

  ghost predicate Delivers(front: Bytes, rest: (Bytes, Status), all: (Bytes, Status)) {
    front + rest.0 == all.0 && rest.1 == all.1
  }

  /** Checks the chunk in cb[..size] and decrypts it where it lies. */
  method OpenInPlace(k: Codec, cb: array<Byte>, size: nat) returns (from: nat, to: nat, ok: bool)
    requires Fits(k) && size <= cb.Length
    modifies cb
    ensures from <= to <= cb.Length
    ensures var content := OpenChunk(k, old(cb[..size])).0;
      ok == content.Some? && (ok ==> cb[from..to] == content.value)
  {
    from, to, ok := 0, 0, false;
    if size < HEADER { return; }
    assert cb[..size][..HEADER] == cb[..HEADER];
    var ctLen := Uint32(cb[..HEADER]);
    if HEADER + ctLen > size { return; }
    var ct := cb[HEADER..HEADER + ctLen];
    assert cb[..size][HEADER..HEADER + ctLen] == ct;
    var unsealed := k.dec(ct);
    if unsealed.None? { return; }
    var plain := unsealed.value;
    from := HEADER + k.place(ct);
    to, ok := from + |plain|, true;
    forall i | 0 <= i < |plain| { cb[from + i] := plain[i]; }
    assert cb[from..to] == plain;
  }

  /** Copies as much of b[lo..hi] into p[..m] as fits. */
  method HandOut(p: array<Byte>, m: nat, b: array<Byte>, lo: nat, hi: nat) returns (n: nat)
    requires m <= p.Length && lo <= hi <= b.Length && b != p
    modifies p
    ensures n == Min(m, hi - lo) && p[..n] == b[lo..lo + n]
  {
    n := Min(m, hi - lo);
    forall i | 0 <= i < n { p[i] := b[lo + i]; }
  }
}

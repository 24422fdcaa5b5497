/** The two stateful readers of the chunked format and the ranged reads built on them. */
module ChunkStreams {
  import opened Producer
  import opened Encrypt
  import opened Chunked

  datatype Status = Fine | EOF | Failure

  /** A pool of equally long buffers; `lent` are those handed out and not yet given back. */
  class Pool {
    const size: nat
    var free: set<array<Byte>>
    ghost var lent: set<array<Byte>>

    ghost predicate Valid()
      reads this
    {
      free !! lent && forall b :: b in free + lent ==> b.Length == size
    }

    constructor (size: nat)
      ensures Valid() && this.size == size && free == {} && lent == {}
    {
      this.size, free, lent := size, {}, {};
    }

    method Get() returns (b: array<Byte>)
      requires Valid()
      modifies this
      ensures Valid() && b !in old(lent) && lent == old(lent) + {b}
      ensures free == old(free) - {b} && (b in old(free) || fresh(b))
    {
      if free != {} {
        b :| b in free;
        free := free - {b};
      } else {
        b := new Byte[size];
      }
      lent := lent + {b};
    }

    /** A buffer goes back only while it is lent out: giving it back twice is ruled out. */
    method Put(b: array<Byte>)
      requires Valid() && b in lent
      modifies this
      ensures Valid() && lent == old(lent) - {b} && free == old(free) + {b}
    {
      free, lent := free + {b}, lent - {b};
    }

    /** What everybody else may do with the buffers in the pool. */
    method Scribble()
      requires Valid()
      modifies free
    {
      modify free;
    }
  }

  // ---- Writing --------------------------------------------------------------------------------------------

  class ChunkEncryptReader {
    const k: Codec
    const pool: Pool
    const failing: bool
    var input: Bytes
    var buf: Bytes
    var done: bool
    /** Counts the encryptor calls; each draws its own key and nonce. */
    var calls: nat

    ghost predicate Valid()
      reads this, pool
    {
      Fits(k) && pool.Valid() && pool.size == PLAIN && (done ==> input == [] && !failing)
    }

    /** The bytes the caller has yet to read. */
    ghost function Pending(): Bytes
      requires Fits(k)
      reads this
    {
      buf + Encoded(k, calls, input)
    }

    constructor (k: Codec, pool: Pool, input: Bytes, failing: bool)
      requires Fits(k) && pool.Valid() && pool.size == PLAIN
      ensures Valid() && this.k == k && this.pool == pool && this.failing == failing
      ensures Pending() == Encoded(k, 0, input)
    {
      this.k, this.pool, this.failing, this.input := k, pool, failing, input;
      buf, done, calls := [], false, 0;
      new;
      assert Pending() == Encoded(k, 0, input);
    }

    /** Hands out the next bytes of the stream, for any size of p; a source error is passed on. */
    method Read(p: array<Byte>) returns (n: nat, err: Status)
      requires Valid() && p !in pool.free
      modifies this, pool, pool.free, p
      ensures Valid() && n <= p.Length
      ensures p[..n] + Pending() == old(Pending())
      ensures err == EOF ==> old(Pending()) == [] && !failing
      ensures err == Failure ==> failing && input == []
      ensures err == Fine && p.Length > 0 ==> n > 0
      ensures pool.lent == old(pool.lent) && fresh(pool.free - old(pool.free))
    {
      if buf != [] {
        n := Hand(p, buf);
        Rejoin(buf, n, Encoded(k, calls, input));
        buf := buf[n..];
        return n, Fine;
      }
      if done { return 0, EOF; }
      var chunk;
      chunk, err := SealNext();
      n := Hand(p, chunk);
      buf := chunk[n..];
      Rejoin(chunk, n, Encoded(k, calls, input));
    }

    /** Reads, encrypts and frames the next piece of the source. */
    method SealNext() returns (chunk: Bytes, err: Status)
      requires Valid() && buf == [] && !done
      modifies this, pool, pool.free
      ensures Valid() && buf == [] && pool.lent == old(pool.lent) && fresh(pool.free - old(pool.free))
      ensures chunk + Encoded(k, calls, input) == old(Encoded(k, calls, input))
      ensures err == EOF ==> old(input) == [] && !failing
      ensures err == Failure ==> failing && input == []
      ensures err == Fine ==> chunk != []
    {
      hide Chunk;
      var plain := pool.Get();
      var m := Min(|input|, PLAIN);
      forall i | 0 <= i < m { plain[i] := input[i]; }
      assert plain[..m] == input[..m];
      if m == 0 {
        pool.Put(plain);
        done := !failing;
        return [], if failing then Failure else EOF;
      }
      chunk := Chunk(k, k.enc(calls, plain[..m]), m);
      input, calls := input[m..], calls + 1;
      err := Fine;
      if m < PLAIN {
        if failing { err := Failure; } else { done := true; }
      }
      pool.Put(plain);
    }
  }

  lemma Rejoin(a: Bytes, n: nat, b: Bytes)
    requires n <= |a|
    ensures a[..n] + (a[n..] + b) == a + b
  {}

  /** Copies as much of data into p as fits. */
  method Hand(p: array<Byte>, data: Bytes) returns (n: nat)
    modifies p
    ensures n == Min(p.Length, |data|) && p[..n] == data[..n]
  {
    n := Min(p.Length, |data|);
    forall i | 0 <= i < n { p[i] := data[i]; }
  }

  lemma Associate(a: Bytes, b: Bytes, c: Bytes)
    ensures (a + b) + c == a + (b + c)
  {}

  /** Reads everything, the i-th time with a buffer of `sizes(i)` bytes. */
  method ReadAllEncrypted(r: ChunkEncryptReader, sizes: nat -> nat) returns (out: Bytes, err: Status)
    requires r.Valid() && forall i: nat :: sizes(i) > 0
    modifies r, r.pool, r.pool.free
    ensures err == if r.failing then Failure else EOF
    ensures !r.failing ==> out == old(r.Pending())
    ensures r.pool.Valid() && r.pool.lent == old(r.pool.lent)
  {
    out, err := [], Fine;
    var i := 0;
    while err == Fine
      invariant r.Valid() && fresh(r.pool.free - old(r.pool.free)) && r.pool.lent == old(r.pool.lent)
      invariant out + r.Pending() == old(r.Pending())
      invariant err == EOF ==> r.Pending() == [] && !r.failing
      invariant err == Failure ==> r.failing
      decreases |r.Pending()| + if err == Fine then 1 else 0
    {
      var p := new Byte[sizes(i)];
      var n;
      n, err := r.Read(p);
      Associate(out, p[..n], r.Pending());
      out := out + p[..n];
      i := i + 1;
    }
  }
}

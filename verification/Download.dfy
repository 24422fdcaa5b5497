/** The parallel downloader: blocks fetched in any order, delivered in order, within a token budget. */
module Download {
  import opened Encrypt
  import C = Chunked
  import P = PartSizes
  import opened ChunkStreams

  /** The start of the block that holds an offset. */
  function Floor(off: nat, bs: nat): nat
    requires bs > 0
  {
    off / bs * bs
  }

  ghost predicate Start(off: nat, bs: nat)
    requires bs > 0
  {
    Floor(off, bs) == off
  }

  lemma FloorIs(off: nat, bs: nat)
    requires bs > 0
    ensures Floor(off, bs) <= off < Floor(off, bs) + bs && Start(Floor(off, bs), bs) && Start(0, bs)
  {
    P.DivBounds(off, bs);
    C.DivUnique(off / bs * bs, bs, off / bs, 0);
  }

  lemma NextStart(off: nat, bs: nat)
    requires bs > 0 && Start(off, bs)
    ensures Start(off + bs, bs)
  {
    assert off + bs == (off / bs + 1) * bs;
    C.DivUnique(off + bs, bs, off / bs + 1, 0);
  }

  /** Different starts are at least one block apart. */
  lemma Apart(a: nat, b: nat, bs: nat)
    requires bs > 0 && Start(a, bs) && Start(b, bs) && a < b
    ensures a + bs <= b
  {
    if b / bs <= a / bs { P.MulMono(b / bs, a / bs, bs); }
    P.MulMono(a / bs + 1, b / bs, bs);
    assert (a / bs + 1) * bs == a / bs * bs + bs;
  }

  /** Another unfinished block starts only after the reader's. */
  lemma Later(off: nat, o: nat, k: nat, bs: nat, size: nat)
    requires bs > 0 && Start(o, bs) && Start(k, bs) && k != o && o <= off < o + bs && off < k + bs && k < size
    ensures C.Min(o + bs, size) <= k
  {
    hide Start;
    if o < k { Apart(o, k, bs); } else { Apart(k, o, bs); }
  }

  function Block(data: Bytes, bs: nat, o: nat): Bytes {
    if o <= |data| then data[o..C.Min(o + bs, |data|)] else []
  }

  /** A launched block the reader is not done with. */
  ghost predicate Known(size: nat, bs: nat, launched: nat, off: nat, o: nat)
    requires bs > 0
  {
    Start(o, bs) && o < launched && o < size && off < C.Min(o + bs, size)
  }

  /** Blocks in flight and saved blocks are the launched ones the reader is not done with: all of them
      unless there was an error. */
  ghost predicate Ordered(data: Bytes, bs: nat, launched: nat, off: nat, err: bool, inflight: set<nat>,
                          buffers: map<nat, Bytes>) {
    && bs > 0 && Start(launched, bs) && off <= |data| && off <= launched
    && (forall o :: o in inflight ==> o !in buffers && Known(|data|, bs, launched, off, o))
    && (forall o :: o in buffers ==> Known(|data|, bs, launched, off, o) && buffers[o] == Block(data, bs, o))
    && (!err ==> forall o: nat :: Known(|data|, bs, launched, off, o) ==> o in inflight || o in buffers)
  }

  lemma OrderedLaunch(data: Bytes, bs: nat, launched: nat, off: nat, err: bool, inflight: set<nat>,
                      buffers: map<nat, Bytes>)
    requires Ordered(data, bs, launched, off, err, inflight, buffers) && launched < |data|
    ensures launched !in inflight
    ensures Ordered(data, bs, launched + bs, off, err, inflight + {launched}, buffers)
  {
    hide Start;
    NextStart(launched, bs);
    forall k: nat | Start(k, bs) && launched < k ensures k >= launched + bs { Apart(launched, k, bs); }
  }

  lemma OrderedFinish(data: Bytes, bs: nat, launched: nat, off: nat, err: bool, inflight: set<nat>,
                      buffers: map<nat, Bytes>, o: nat)
    requires Ordered(data, bs, launched, off, err, inflight, buffers) && o in inflight
    ensures o !in buffers && Ordered(data, bs, launched, off, true, inflight - {o}, buffers)
    ensures Ordered(data, bs, launched, off, err, inflight - {o}, buffers[o := Block(data, bs, o)])
  {
    hide Start, Block;
  }

  lemma OffWithin(data: Bytes, bs: nat, launched: nat, off: nat, err: bool, inflight: set<nat>,
                  buffers: map<nat, Bytes>)
    requires Ordered(data, bs, launched, off, err, inflight, buffers)
    ensures off <= |data|
  {}

  /** The saved block the reader stands in. */
  lemma ReadersBlock(data: Bytes, bs: nat, launched: nat, off: nat, err: bool, inflight: set<nat>,
                     buffers: map<nat, Bytes>, o: nat)
    requires Ordered(data, bs, launched, off, err, inflight, buffers) && o in buffers && o <= off
    ensures buffers[o] == Block(data, bs, o) == data[o..C.Min(o + bs, |data|)] && o <= off < C.Min(o + bs, |data|)
  {
    hide Start;
  }

  /** No other block is touched by what is left of the reader's. */
  lemma OthersLater(data: Bytes, bs: nat, launched: nat, off: nat, err: bool, inflight: set<nat>,
                    buffers: map<nat, Bytes>, o: nat)
    requires Ordered(data, bs, launched, off, err, inflight, buffers) && o in buffers && o <= off
    ensures Start(o, bs) && o + bs <= launched
    ensures forall k: nat :: Known(|data|, bs, launched, off, k) && k != o ==> C.Min(o + bs, |data|) <= k
  {
    hide Start;
    ReadersBlock(data, bs, launched, off, err, inflight, buffers, o);
    forall k: nat | Known(|data|, bs, launched, off, k) && k != o
      ensures C.Min(o + bs, |data|) <= k
    {
      Later(off, o, k, bs, |data|);
    }
    Apart(o, launched, bs);
  }

  lemma OrderedWithin(data: Bytes, bs: nat, launched: nat, off: nat, off': nat, err: bool, inflight: set<nat>,
                      buffers: map<nat, Bytes>, o: nat)
    requires Ordered(data, bs, launched, off, err, inflight, buffers) && o in buffers && o <= off
    requires off <= off' < C.Min(o + bs, |data|)
    ensures Ordered(data, bs, launched, off', err, inflight, buffers)
  {
    hide Start, Block;
    OthersLater(data, bs, launched, off, err, inflight, buffers, o);
  }

  lemma OrderedPast(data: Bytes, bs: nat, launched: nat, off: nat, err: bool, inflight: set<nat>,
                    buffers: map<nat, Bytes>, o: nat)
    requires Ordered(data, bs, launched, off, err, inflight, buffers) && o in buffers && o <= off
    ensures Ordered(data, bs, launched, C.Min(o + bs, |data|), err, inflight, buffers - {o})
  {
    hide Start, Block;
    OthersLater(data, bs, launched, off, err, inflight, buffers, o);
  }

  /** When the reader is at the end nothing is left. */
  lemma OrderedEnd(data: Bytes, bs: nat, launched: nat, off: nat, err: bool, inflight: set<nat>,
                   buffers: map<nat, Bytes>)
    requires Ordered(data, bs, launched, off, err, inflight, buffers) && off == |data|
    ensures inflight == {} && buffers == map[]
  {
    hide Start;
    forall k: nat ensures !Known(|data|, bs, launched, off, k) {}
    assert buffers.Keys == {};
  }

  /** The reader's next block is saved or in flight, or the launcher is right at it and all else is done. */
  lemma OrderedNext(data: Bytes, bs: nat, launched: nat, off: nat, inflight: set<nat>, buffers: map<nat, Bytes>)
    requires Ordered(data, bs, launched, off, false, inflight, buffers) && off < |data|
    ensures var o := Floor(off, bs);
      o in buffers || o in inflight || (o == launched && inflight == {} && buffers == map[])
  {
    hide Floor, Start;
    var o := Floor(off, bs);
    FloorIs(off, bs);
    if o < launched {
      assert Known(|data|, bs, launched, off, o);
    } else {
      forall k: nat | Start(k, bs) && k < launched ensures k + bs <= launched { Apart(k, launched, bs); }
      assert buffers.Keys == {};
    }
  }

  lemma SliceOfSlice(data: Bytes, lo: nat, hi: nat, off: nat, n: nat)
    requires lo <= off && off + n <= hi <= |data|
    ensures data[lo..hi][off - lo..][..n] == data[off..off + n]
  {}

  lemma Glue(data: Bytes, a: nat, b: nat)
    requires a <= b <= |data|
    ensures data[..a] + data[a..b] == data[..b]
  {}

  datatype Fetch = Fetched | Broken | Skipped

  class ParallelDownloader {
    const data: Bytes
    const blockSize: nat
    const capacity: nat
    /** The loop variable of the launching loop. */
    var launched: nat
    var inflight: set<nat>
    var buffers: map<nat, Bytes>
    var off: nat
    var err: bool
    var closed: bool
    /** Tokens in the channel, and those the reader is about to take out. */
    var tokens: nat
    var owed: nat
    ghost var lost: nat

    /** Every token belongs to a block in flight, a saved one, one the reader has just finished, or to a
        block dropped by Close. */
    ghost predicate Budget()
      reads this
    {
      tokens == |inflight| + |buffers| + owed + lost && tokens <= capacity && (lost > 0 ==> closed)
    }

    ghost predicate Valid()
      reads this
    {
      && blockSize > 0 && capacity > 0 && Budget()
      && Ordered(data, blockSize, launched, off, err, inflight, buffers)
      && (closed ==> err && buffers == map[])
    }

    constructor (data: Bytes, blockSize: nat, capacity: nat)
      requires blockSize > 0 && capacity > 0
      ensures Valid() && this.data == data && this.blockSize == blockSize && off == 0 && tokens == 0 && !err
          && lost == 0
      ensures fresh(this) && owed == 0 && launched == 0 && inflight == {} && buffers == map[]
          && this.capacity == capacity
    {
      this.data, this.blockSize, this.capacity := data, blockSize, capacity;
      launched, inflight, buffers, off, err, closed, tokens, owed, lost := 0, {}, map[], 0, false, false, 0, 0, 0;
      FloorIs(0, blockSize);
    }

    // ---- The atomic steps of the launcher, the fetchers and the reader --------------------------------

    predicate CanLaunch()
      reads this
    {
      launched < |data| && tokens < capacity
    }

    /** The reader's next block is there. */
    predicate CanRead()
      requires blockSize > 0
      reads this
    {
      off < |data| && Floor(off, blockSize) in buffers
    }

    /** The launcher puts a token in the channel and starts a fetcher. */
    method Launch()
      requires Valid() && CanLaunch()
      modifies this
      ensures Valid() && launched == old(launched) + blockSize && inflight == old(inflight) + {old(launched)}
      ensures off == old(off) && err == old(err) && owed == old(owed) && lost == old(lost) && buffers == old(buffers)
    {
      hide Ordered;
      OrderedLaunch(data, blockSize, launched, off, err, inflight, buffers);
      tokens, inflight, launched := tokens + 1, inflight + {launched}, launched + blockSize;
    }

    /** A fetcher ends: its block is saved, or it gives its token back. It skips the fetch only when it
        sees an error. */
    method Finish(o: nat, f: Fetch)
      requires Valid() && o in inflight && (f.Skipped? ==> err)
      modifies this
      ensures Valid() && inflight == old(inflight) - {o}
      ensures launched == old(launched) && off == old(off) && owed == old(owed) && lost == old(lost)
      ensures err == (old(err) || f.Broken?) && closed == old(closed)
      ensures buffers == if f.Fetched? && !closed then old(buffers)[o := Block(data, blockSize, o)] else old(buffers)
    {
      hide Ordered;
      OrderedFinish(data, blockSize, launched, off, err, inflight, buffers, o);
      inflight := inflight - {o};
      if f.Broken? { err := true; }
      if f.Fetched? && !closed {
        buffers := buffers[o := Block(data, blockSize, o)];
      } else {
        tokens := tokens - 1;
      }
    }

    /** Called when the reader would not wait. Hands out the next bytes; the last of a block frees it,
        and its token is taken out right after. */
    method Read(b: array<Byte>) returns (n: nat, st: Status)
      requires Valid() && owed == 0 && (CanRead() || off >= |data| || err || b.Length == 0)
      modifies this`off, this`buffers, this`owed, b
      ensures Valid() && owed <= 1 && buffers.Keys <= old(buffers).Keys
      ensures n > 0 ==> Floor(old(off), blockSize) in old(buffers) && off <= Floor(old(off), blockSize) + blockSize
      ensures n <= b.Length && off == old(off) + n <= |data| && b[..n] == data[old(off)..off]
      ensures st == Fine && b.Length > 0 ==> n > 0
      ensures st == EOF ==> off == |data|
      ensures st == Failure ==> err
      ensures st != Fine ==> n == 0
    {
      hide Ordered, Floor, Start, Block;
      OffWithin(data, blockSize, launched, off, err, inflight, buffers);
      if b.Length == 0 { return 0, Fine; }
      if off >= |data| { return 0, EOF; }
      var o := Floor(off, blockSize);
      FloorIs(off, blockSize);
      if o !in buffers { return 0, Failure; }
      ReadersBlock(data, blockSize, launched, off, err, inflight, buffers, o);
      n := Hand(b, buffers[o][off - o..]);
      SliceOfSlice(data, o, C.Min(o + blockSize, |data|), off, n);
      Advance(o, n);
      st := Fine;
    }

    /** Moves past n bytes of the reader's block; at its end the block is deleted. */
    method Advance(o: nat, n: nat)
      requires Valid() && owed == 0 && o in buffers && o <= off && off + n <= o + |buffers[o]|
      modifies this`off, this`buffers, this`owed
      ensures Valid() && off == old(off) + n && owed <= 1 && buffers.Keys <= old(buffers).Keys
    {
      hide Ordered, Block;
      ReadersBlock(data, blockSize, launched, off, err, inflight, buffers, o);
      if off + n < o + |buffers[o]| {
        OrderedWithin(data, blockSize, launched, off, off + n, err, inflight, buffers, o);
        off := off + n;
      } else {
        OrderedPast(data, blockSize, launched, off, err, inflight, buffers, o);
        off, buffers, owed := off + n, buffers - {o}, 1;
      }
    }

    /** The reader takes the token of a finished block out of the channel. */
    method Release()
      requires Valid() && owed > 0
      modifies this`owed, this`tokens
      ensures Valid() && owed == old(owed) - 1 && tokens == old(tokens) - 1
    {
      owed, tokens := owed - 1, tokens - 1;
    }

    /** Saved blocks are dropped; their tokens stay in the channel. */
    method Close()
      requires Valid()
      modifies this
      ensures Valid() && closed && err && off == old(off) && launched == old(launched) && inflight == old(inflight)
      ensures owed == old(owed) && tokens == old(tokens) && lost == old(lost + |buffers|)
    {
      lost := lost + |buffers|;
      buffers, err, closed := map[], true, true;
    }

    // ---- What every schedule gives -------------------------------------------------------------------------

    /** Unless there is an error, the reader's next block is there, on its way, or can be launched as soon
        as the reader has given back its token: nothing ever waits for ever. */
    lemma NeverStuck()
      requires Valid() && !err && off < |data| && owed <= 1
      ensures CanRead() || Floor(off, blockSize) in inflight
          || (launched == Floor(off, blockSize) && (CanLaunch() || owed > 0))
    {
      OrderedNext(data, blockSize, launched, off, inflight, buffers);
      FloorIs(off, blockSize);
    }

    /** When the reader is done, or closed and nothing is in flight, all tokens are back but those of the
        blocks that Close dropped. */
    lemma TokensBack()
      requires Valid() && owed == 0 && (off == |data| || (closed && inflight == {}))
      ensures tokens == lost
    {
      if off == |data| { OrderedEnd(data, blockSize, launched, off, err, inflight, buffers); }
    }
  }

  /** A block that cannot be fetched is not saved and the reader has not come past its start. */
  ghost predicate Blocked(bs: nat, launched: nat, size: nat, fails: nat -> bool, off: nat, saved: set<nat>)
    requires bs > 0
  {
    forall o: nat :: Start(o, bs) && launched <= o < size && fails(o) ==> o !in saved && off <= o
  }

  /** No block that is still to be launched fails. */
  ghost predicate NoneFails(bs: nat, launched: nat, size: nat, fails: nat -> bool)
    requires bs > 0
  {
    forall o: nat :: Start(o, bs) && launched <= o < size ==> !fails(o)
  }

  /** Reading in a saved block does not go past a blocked one. */
  lemma StaysBlocked(bs: nat, launched: nat, size: nat, fails: nat -> bool, off: nat, off': nat, saved: set<nat>,
                     saved': set<nat>)
    requires bs > 0 && Blocked(bs, launched, size, fails, off, saved) && saved' <= saved
    requires off' != off ==> Floor(off, bs) in saved && off <= off' <= Floor(off, bs) + bs
    ensures Blocked(bs, launched, size, fails, off', saved')
  {
    hide Start, Floor;
    FloorIs(off, bs);
    forall o: nat | Start(o, bs) && launched <= o < size && fails(o) ensures off' <= o {
      if off' != off && o != Floor(off, bs) { Apart(Floor(off, bs), o, bs); }
    }
  }

  /** A block in flight that fails is one of those that were still to be launched. */
  lemma OneFails(data: Bytes, bs: nat, from: nat, launched: nat, off: nat, err: bool, inflight: set<nat>,
                 buffers: map<nat, Bytes>, o: nat, fails: nat -> bool)
    requires Ordered(data, bs, launched, off, err, inflight, buffers) && o in inflight && from <= o
    ensures Start(o, bs) && o < |data| && (fails(o) ==> !NoneFails(bs, from, |data|, fails))
  {
    hide Start;
    assert Known(|data|, bs, launched, off, o);
  }

  /** A fetcher comes to its end: it skips the fetch, perhaps, if it sees an error. */
  method FetchOne(d: ParallelDownloader, o: nat, early: bool, fails: nat -> bool, ghost from: nat)
    requires d.Valid() && o in d.inflight && from <= o
        && Blocked(d.blockSize, from, |d.data|, fails, d.off, d.buffers.Keys)
    modifies d
    ensures d.Valid() && d.inflight == old(d.inflight) - {o}
    ensures d.launched == old(d.launched) && d.off == old(d.off) && d.owed == old(d.owed) && d.lost == old(d.lost)
    ensures d.err && !old(d.err) ==> !NoneFails(d.blockSize, from, |d.data|, fails)
    ensures Blocked(d.blockSize, from, |d.data|, fails, d.off, d.buffers.Keys)
  {
    hide Ordered, Floor, Start, ParallelDownloader.Budget, NoneFails, Blocked, Block;
    OneFails(d.data, d.blockSize, from, d.launched, d.off, d.err, d.inflight, d.buffers, o, fails);
    SavedBlocked(d.blockSize, from, |d.data|, fails, d.off, d.buffers.Keys, o);
    ghost var saved := d.buffers.Keys;
    d.Finish(o, if early && d.err then Skipped else if fails(o) then Broken else Fetched);
    assert d.buffers.Keys == saved || d.buffers.Keys == saved + {o};
  }

  /** One call of the reader. */
  method ReadOnce(d: ParallelDownloader, size: nat, fails: nat -> bool, ghost from: nat)
      returns (part: Bytes, st: Status)
    requires d.Valid() && d.owed == 0 && size > 0 && (d.CanRead() || (d.err && d.off < |d.data|))
    requires Blocked(d.blockSize, from, |d.data|, fails, d.off, d.buffers.Keys)
    modifies d`off, d`buffers, d`owed
    ensures d.Valid() && d.owed <= 1 && d.off == old(d.off) + |part| <= |d.data| && part == d.data[old(d.off)..d.off]
    ensures st == Failure ==> d.err
    ensures st == Fine ==> part != []
    ensures st != EOF
    ensures Blocked(d.blockSize, from, |d.data|, fails, d.off, d.buffers.Keys)
  {
    hide Ordered, Floor, Start, ParallelDownloader.Budget, Blocked;
    ghost var off, saved := d.off, d.buffers.Keys;
    var b := new Byte[size];
    var n;
    n, st := d.Read(b);
    StaysBlocked(d.blockSize, from, |d.data|, fails, off, d.off, saved, d.buffers.Keys);
    part := b[..n];
  }

  /** Reads everything under every schedule of the launcher, the fetchers and the reader, the i-th time
      with a buffer of `sizes(i)` bytes; the fetch of block o fails if `fails(o)`. Whatever the schedule, the
      read succeeds exactly if no block that it launches fails. */
  method Drain(d: ParallelDownloader, fails: nat -> bool, sizes: nat -> nat) returns (out: Bytes, ok: bool)
    requires d.Valid() && d.off == 0 && !d.err && d.owed == 0 && d.lost == 0 && d.inflight == {}
    requires forall i: nat :: sizes(i) > 0
    modifies d
    ensures d.Valid() && |out| <= |d.data| && out == d.data[..|out|]
    ensures ok ==> out == d.data && d.tokens == 0
    ensures ok <==> NoneFails(d.blockSize, old(d.launched), |d.data|, fails)
  {
    hide Ordered, Floor, Start, ParallelDownloader.Budget, NoneFails, Blocked;
    out, ok := [], true;
    ghost var from := d.launched;
    NothingBlocked(d.data, d.blockSize, from, d.off, d.err, d.inflight, d.buffers, fails);
    var i := 0;
    while ok && (d.off < |d.data| || d.owed > 0)
      invariant d.Valid() && d.off == |out| <= |d.data| && out == d.data[..|out|] && d.owed <= 1 && d.lost == 0
      invariant d.err || !ok ==> !NoneFails(d.blockSize, from, |d.data|, fails)
      invariant from <= d.launched && forall o :: o in d.inflight ==> from <= o
      invariant Blocked(d.blockSize, from, |d.data|, fails, d.off, d.buffers.Keys)
      decreases ok, |d.data| + d.blockSize - d.launched, |d.inflight|, |d.data| - d.off, d.owed
    {
      if !d.err && d.off < |d.data| { d.NeverStuck(); }
      if {
        case d.CanLaunch() => d.Launch();
        case d.inflight != {} =>
          var o :| o in d.inflight;
          var early: bool := *;
          FetchOne(d, o, early, fails, from);
        case d.owed > 0 => d.Release();
        case d.owed == 0 && (d.CanRead() || (d.err && d.off < |d.data|)) =>
          var part, st := ReadOnce(d, sizes(i), fails, from);
          Glue(d.data, |out|, d.off);
          out, ok, i := out + part, st != Failure, i + 1;
      }
    }
    if ok {
      d.TokensBack();
      NoneWasBlocked(d.blockSize, from, |d.data|, fails, d.off, d.buffers.Keys);
    }
  }

  lemma NothingBlocked(data: Bytes, bs: nat, launched: nat, off: nat, err: bool, inflight: set<nat>,
                       buffers: map<nat, Bytes>, fails: nat -> bool)
    requires Ordered(data, bs, launched, off, err, inflight, buffers)
    ensures Blocked(bs, launched, |data|, fails, off, buffers.Keys)
  {
    forall o: nat | o in buffers ensures o < launched { assert Known(|data|, bs, launched, off, o); }
  }

  lemma SavedBlocked(bs: nat, launched: nat, size: nat, fails: nat -> bool, off: nat, saved: set<nat>, o: nat)
    requires bs > 0 && Blocked(bs, launched, size, fails, off, saved)
    ensures !fails(o) ==> Blocked(bs, launched, size, fails, off, saved + {o})
  {}

  lemma NoneWasBlocked(bs: nat, launched: nat, size: nat, fails: nat -> bool, off: nat, saved: set<nat>)
    requires bs > 0 && Blocked(bs, launched, size, fails, off, saved) && off >= size
    ensures NoneFails(bs, launched, size, fails)
  {}

  /** A downloader closed before its one block is read: the token of the block stays in the channel. */
  method ClosedEarly() returns (d: ParallelDownloader)
    ensures d.Valid() && d.closed && d.off == 0 && d.owed == 0 && d.inflight == {} && d.lost == 1 && d.tokens == 1
  {
    d := new ParallelDownloader([0], 1, 1);
    d.Launch();
    d.Finish(0, Fetched);
    assert d.inflight == {};
    d.Close();
    d.TokensBack();
  }
}

/** The single-producer pipeline, from two stores to the tasks: deletions stay safe under any failure. */
module Pipeline {
  import opened Keys
  import opened Producer
  import opened MergeJoin
  import opened Listing
  import C = Convergence
  import D = Decisions

  /** One side of the pipeline: the store, its true keys after the start key, and what Head answered
      for the start key itself, which a listing does not return. */
  datatype Side = Side(store: Store, head: Option<Obj>)

  /** What the stages before the producer deliver in full: the start object and the bounded listing,
      filtered. */
  ghost function Full(head: Option<Obj>, all: seq<Obj>, end: Key, keep: Obj -> bool): seq<Obj> {
    Kept(StartOf(head) + UpTo(all, end), keep)
  }

  ghost predicate StartsBefore(head: Option<Obj>, all: seq<Obj>) {
    head.Some? ==> forall i :: 0 <= i < |all| ==> Less(head.value.key, all[i].key)
  }

  lemma FullSorted(head: Option<Obj>, all: seq<Obj>, end: Key, keep: Obj -> bool)
    requires Sorted(all) && StartsBefore(head, all)
    ensures Sorted(Full(head, all, end, keep))
  {
    KeptSorted(StartOf(head) + UpTo(all, end), keep);
  }

  lemma {:induction false} UpToIs(all: seq<Obj>, end: Key, o: Obj)
    requires Sorted(all)
    ensures o in UpTo(all, end) <==> o in all && (end == "" || !Less(end, o.key))
  {
    if all != [] {
      assert all == [all[0]] + all[1..];
      if end != "" && Less(end, all[0].key) {
        if i :| 0 < i < |all| && all[i] == o { LessTransitive(end, all[0].key, o.key); }
      } else {
        UpToIs(all[1..], end, o);
      }
    }
  }

  /** Those are, in ascending order, the start object and the keys after it that do not pass the end, as far as the
      filter keeps them. */
  lemma {:induction false} FullIs(head: Option<Obj>, all: seq<Obj>, end: Key, keep: Obj -> bool, o: Obj)
    requires Sorted(all) && StartsBefore(head, all)
    ensures Sorted(Full(head, all, end, keep))
    ensures o in Full(head, all, end, keep) <==>
            (head == Some(o) || (o in all && (end == "" || !Less(end, o.key)))) && keep(o)
  {
    FullSorted(head, all, end, keep);
    KeptIsSubset(StartOf(head) + UpTo(all, end), keep, o);
    UpToIs(all, end, o);
  }

  /** The delivered source with its gate rows, extended to the whole listing by those of `rest`. */
  ghost function Whole(src: seq<Gated>, full: seq<Obj>, rest: Key -> Option<Record>): (g: seq<Gated>)
    ensures Covers(g, full)
  {
    seq(|full|, i requires 0 <= i < |full| =>
      Gated(Entry(full[i]), if i < |src| && src[i].item.Entry? then src[i].rec else rest(full[i].key)))
  }

  /** One gated object for each object of the listing. */
  ghost predicate Covers(g: seq<Gated>, full: seq<Obj>) {
    |g| == |full| && forall i :: 0 <= i < |g| ==> g[i].item == Entry(full[i])
  }

  lemma PrefetchedIsFeed(src: seq<Gated>, items: seq<Item>, full: seq<Obj>, db: Key -> Option<Record>,
                         rest: Key -> Option<Record>)
    requires Prefetched(src, items, db) && Delivers(items, full)
    ensures SrcFeed(src, Whole(src, full, rest))
  {
    var whole := Whole(src, full, rest);
    if items == Items(full) {
      assert src == whole;
    } else {
      var n := |items| - 1;
      assert items[..n] == Items(full)[..n];
      forall i | 0 <= i < n ensures src[..n][i] == whole[i] {
        assert items[i] == items[..n][i] == Entry(full[i]);
      }
      assert src[..n] == whole[..n];
      assert src[n].item == items[n];
    }
  }

  lemma LiveOfCovers(c: Config, a: seq<Gated>, full: seq<Obj>)
    requires Covers(a, full)
    ensures Live(c, a) == Live(c, Ungated(full))
  {
    var b := Ungated(full);
    forall k | k in Live(c, a) ensures k in Live(c, b) {
      var i :| 0 <= i < |a| && !Ignored(c, a[i].item.obj) && k == a[i].item.obj.key;
      assert b[i].item == a[i].item;
    }
    forall k | k in Live(c, b) ensures k in Live(c, a) {
      var i :| 0 <= i < |b| && !Ignored(c, b[i].item.obj) && k == b[i].item.obj.key;
      assert b[i].item == a[i].item;
    }
  }

  /** A deletion is safe when its key is on the destination, is not kept alive by the full source,
      and the source either listed to its end or delivered a greater key before the decision. */
  ghost predicate Safe(c: Config, seen: seq<Item>, full: seq<Obj>, dfull: seq<Obj>, k: Key) {
    && k !in Live(c, Ungated(full))
    && (exists i :: 0 <= i < |dfull| && dfull[i].key == k && Deletable(c, dfull[i]))
    && (seen == Items(full) || exists i :: 0 <= i < |seen| && seen[i].Entry? && Less(k, seen[i].obj.key))
  }

  /** One side: the listing and its filter. */
  method ListSide(side: Side, end: Key, keep: Obj -> bool, ghost budget: nat, ghost all: seq<Obj>)
    returns (items: seq<Item>, err: bool)
    requires Exhausted(side.store, budget) && Honest(side.store, all)
    ensures !err ==> Delivers(items, Full(side.head, all, end, keep))
    ensures Reliable(side.store, 3) ==> !err && items == Items(Full(side.head, all, end, keep))
  {
    hide Delivers, Exhausted, Honest, Reliable, Items, Emitted, Stuck, Unordered;
    ghost var sent;
    items, err, sent := ListAll(side.head, side.store, end, budget, all);
    if err { return; }
    items := Filter(items, keep, StartOf(side.head) + UpTo(all, end));
  }

  // ---- The gate rows ------------------------------------------------------------------------------------------

  /** Each object goes on with the row that the gate table has for it or, if a query can fail, with none; and
      with none if the gate is not asked. */
  ghost predicate RightRows(c: Config, g: seq<Gated>, db: Key -> Option<Record>, fails: nat -> bool) {
    forall i :: 0 <= i < |g| && g[i].item.Entry? ==>
      if c.gate && !c.forceUpdate && !c.ignoreExisting
      then g[i].rec == db(g[i].item.obj.key) || (g[i].rec == None && exists n: nat :: fails(n))
      else g[i].rec == None
  }

  ghost function Missing(c: Config, db: Key -> Option<Record>): Key -> Option<Record> {
    k => if c.gate && !c.forceUpdate && !c.ignoreExisting then db(k) else None
  }

  /** The stage before the producer. */
  method AddRows(c: Config, items: seq<Item>, db: Key -> Option<Record>, timer: nat -> bool, fails: nat -> bool)
    returns (gated: seq<Gated>)
    requires forall i :: 0 <= i < |items| - 1 ==> items[i].Entry?
    ensures Prefetched(gated, items, db) && RightRows(c, gated, db, fails)
  {
    if UseFirstGate(c) {
      gated := Prefetch(items, db, timer, fails);
    } else {
      gated := PassThrough(items, db);
    }
  }

  lemma RowsOfWhole(c: Config, gated: seq<Gated>, full: seq<Obj>, db: Key -> Option<Record>, fails: nat -> bool)
    requires RightRows(c, gated, db, fails) && forall i :: 0 <= i < |gated| && i < |full| && gated[i].item.Entry? ==>
               gated[i].item.obj == full[i]
    ensures RightRows(c, Whole(gated, full, Missing(c, db)), db, fails)
  {}

  // ---- All stages together ------------------------------------------------------------------------------------

  /** Both listings, their filters and the gate prefetch feeding the producer. The stores may fail at
      any call, pages may split anywhere, the prefetch may batch and fail as it likes. What is done is the first of
      what two complete listings call for, and all of that on success; `rows` is the whole source with its rows. */
  method SingleProducer(src: Side, dst: Side, end: Key, keep: Obj -> bool, c: Config,
                        db: Key -> Option<Record>, timer: nat -> bool, fails: nat -> bool,
                        ghost budget: nat, ghost srcAll: seq<Obj>, ghost dstAll: seq<Obj>)
    returns (trace: seq<Action>, ok: bool, seen: seq<Item>, ghost rows: seq<Gated>)
    requires Exhausted(src.store, budget) && Exhausted(dst.store, budget)
    requires Honest(src.store, srcAll) && Honest(dst.store, dstAll)
    requires StartsBefore(src.head, srcAll) && StartsBefore(dst.head, dstAll)
    ensures var full, dfull := Full(src.head, srcAll, end, keep), Full(dst.head, dstAll, end, keep);
            var against := if c.forceUpdate then [] else dfull;
            && Covers(rows, full) && RightRows(c, rows, db, fails)
            && trace <= Merge(rows, Items(against), c).trace
            && (ok ==> trace == Merge(rows, Items(against), c).trace && SrcPart(trace) == Fates(c, rows, against))
    ensures var full, dfull := Full(src.head, srcAll, end, keep), Full(dst.head, dstAll, end, keep);
            && (ok && C.Plain(c) ==> CopiesMissing(trace, full, dfull))
            && (forall a :: a in trace && Deletes(a) ==> Safe(c, seen, full, dfull, a.key))
            && (ok ==> seen == Items(full))
            && (ok && c.deleteDst && !c.forceUpdate ==> Deletions(trace) == Doomed(c, Live(c, Ungated(full)), dfull))
            && (Reliable(src.store, 3) && (c.forceUpdate || Reliable(dst.store, 3)) ==> ok)
  {
    hide Delivers, Exhausted, Reliable, Items, Merge, Safe, Full, Prefetched, AllRows, RightRows, CopiesMissing;
    ghost var full, dfull := Full(src.head, srcAll, end, keep), Full(dst.head, dstAll, end, keep);
    SideSorted(src.head, srcAll, end, keep);
    SideSorted(dst.head, dstAll, end, keep);
    trace, ok, seen, rows := [], false, [], Whole([], full, Missing(c, db));
    NoRowsYet(c, full, db, fails);
    var err, dstItems := false, [];
    NothingDelivered();
    seen, err := ListSide(src, end, keep, budget, srcAll);
    if err { return [], false, [], rows; }
    if !c.forceUpdate {
      dstItems, err := ListSide(dst, end, keep, budget, dstAll);
      if err { return [], false, [], rows; }
    }
    DeliversEntries(seen, full);
    var gated := AddRows(c, seen, db, timer, fails);
    trace, ok := Produce(gated, dstItems, c);
    rows := Whole(gated, full, Missing(c, db));
    Produced(c, gated, seen, dstItems, full, if c.forceUpdate then [] else dfull, db, fails);
    if c.forceUpdate { SafeOfNone(c, seen, full, dfull); }
    if ok && C.Plain(c) { PlainCopies(c, rows, full, dfull, db, fails); }
  }

  /** A source key is copied exactly if the destination lacks it or has it with another size. */
  ghost predicate CopiesMissing(trace: seq<Action>, full: seq<Obj>, dfull: seq<Obj>) {
    forall k: Key :: Send(k, Copy) in trace <==>
      exists o :: o in full && o.key == k && forall d :: d in dfull && d.key == k ==> d.size != o.size
  }

  lemma {:induction false} PlainCopies(c: Config, rows: seq<Gated>, full: seq<Obj>, dfull: seq<Obj>,
                                       db: Key -> Option<Record>, fails: nat -> bool)
    requires C.Plain(c) && Sorted(full) && Sorted(dfull) && Covers(rows, full) && RightRows(c, rows, db, fails)
    ensures CopiesMissing(Merge(rows, Items(dfull), c).trace, full, dfull)
  {
    hide Merge;
    assert rows == Ungated(full);
    var t := Merge(rows, Items(dfull), c).trace;
    forall k: Key
      ensures Send(k, Copy) in t <==>
              exists o :: o in full && o.key == k && forall d :: d in dfull && d.key == k ==> d.size != o.size
    {
      C.CopiedExactly(c, full, dfull, k);
      forall d | d in dfull && d.key == k ensures Lookup(dfull, k) == Some(d) {
        var i :| 0 <= i < |dfull| && dfull[i] == d;
        C.LookupUnique(dfull, i);
      }
      assert C.Copied(t, k) <==> Send(k, Copy) in t;
    }
  }

  lemma NoRowsYet(c: Config, full: seq<Obj>, db: Key -> Option<Record>, fails: nat -> bool)
    ensures RightRows(c, Whole([], full, Missing(c, db)), db, fails)
  {}

  lemma SideSorted(head: Option<Obj>, all: seq<Obj>, end: Key, keep: Obj -> bool)
    requires Sorted(all) && StartsBefore(head, all)
    ensures Sorted(Full(head, all, end, keep))
  {
    FullSorted(head, all, end, keep);
  }

  lemma NothingDelivered()
    ensures Items([]) == [] && Delivers([], [])
  {}

  lemma SafeOfNone(c: Config, seen: seq<Item>, full: seq<Obj>, dfull: seq<Obj>)
    ensures forall k :: Safe(c, seen, full, [], k) ==> Safe(c, seen, full, dfull, k)
  {}

  /** What the join makes of two delivered listings. */
  lemma {:induction false} Produced(c: Config, gated: seq<Gated>, seen: seq<Item>, dst: seq<Item>, full: seq<Obj>,
                                    dfull: seq<Obj>, db: Key -> Option<Record>, fails: nat -> bool)
    requires Sorted(full) && Sorted(dfull) && Prefetched(gated, seen, db) && RightRows(c, gated, db, fails)
    requires Delivers(seen, full) && Delivers(dst, dfull)
    ensures var r, rows := Merge(gated, dst, c), Whole(gated, full, Missing(c, db));
            && RightRows(c, rows, db, fails)
            && r.trace <= Merge(rows, Items(dfull), c).trace
            && (r.ok ==> r == Merge(rows, Items(dfull), c) && SrcPart(r.trace) == Fates(c, rows, dfull))
            && (forall a :: a in r.trace && Deletes(a) ==> Safe(c, seen, full, dfull, a.key))
            && (r.ok ==> seen == Items(full))
            && (r.ok && c.deleteDst ==> Deletions(r.trace) == Doomed(c, Live(c, Ungated(full)), dfull))
            && (seen == Items(full) && dst == Items(dfull) ==> r.ok)
  {
    hide Merge, Ignored, Deletable, Less;
    var r, rows := Merge(gated, dst, c), Whole(gated, full, Missing(c, db));
    PrefetchedIsFeed(gated, seen, full, db, Missing(c, db));
    SeenIsFull(gated, seen, full, db);
    RowsOfWhole(c, gated, full, db, fails);
    LiveOfCovers(c, rows, full);
    DeletionSafety(gated, rows, dst, dfull, c);
    D.BrokenOff(gated, rows, dst, dfull, c);
    Exactness(rows, dfull, c);
    forall a | a in r.trace && Deletes(a) ensures Safe(c, seen, full, dfull, a.key) {
      assert SafeDeletion(c, gated, rows, dfull, a.key);
      FromGated(c, gated, rows, seen, full, a.key, db);
    }
    if seen == Items(full) && dst == Items(dfull) { assert gated == rows; }
    if r.ok {
      forall i | 0 <= i < |full| ensures seen[i] == Items(full)[i] { assert gated[i] == rows[i]; }
    }
  }

  lemma SeenIsFull(gated: seq<Gated>, seen: seq<Item>, full: seq<Obj>, db: Key -> Option<Record>)
    requires Prefetched(gated, seen, db) && Delivers(seen, full)
    ensures forall i :: 0 <= i < |gated| && i < |full| && gated[i].item.Entry? ==> gated[i].item.obj == full[i]
  {
    forall i | 0 <= i < |gated| && i < |full| && gated[i].item.Entry? ensures gated[i].item.obj == full[i] {
      if seen != Items(full) { assert seen[..|seen|-1][i] == seen[i] == Items(full)[i]; }
    }
  }

  lemma DeliversEntries(items: seq<Item>, full: seq<Obj>)
    requires Delivers(items, full)
    ensures forall i :: 0 <= i < |items| - 1 ==> items[i].Entry?
  {
    if items != Items(full) {
      forall i | 0 <= i < |items| - 1 ensures items[i].Entry? {
        assert items[..|items|-1][i] == items[i] == Items(full)[i];
      }
    }
  }

  lemma FromGated(c: Config, gated: seq<Gated>, whole: seq<Gated>, seen: seq<Item>, full: seq<Obj>, k: Key,
                  db: Key -> Option<Record>)
    requires Prefetched(gated, seen, db) && Covers(whole, full)
    requires gated == whole || exists i :: 0 <= i < |gated| && gated[i].item.Entry? && Less(k, gated[i].item.obj.key)
    ensures seen == Items(full) || exists i :: 0 <= i < |seen| && seen[i].Entry? && Less(k, seen[i].obj.key)
  {
    if gated == whole {
      forall i | 0 <= i < |full| ensures seen[i] == Items(full)[i] { assert gated[i] == whole[i]; }
    } else {
      var i :| 0 <= i < |gated| && gated[i].item.Entry? && Less(k, gated[i].item.obj.key);
      assert seen[i] == gated[i].item;
    }
  }

  /** The stage used without a first gate: every object goes on with no row. */
  method PassThrough(input: seq<Item>, ghost db: Key -> Option<Record>) returns (out: seq<Gated>)
    ensures Prefetched(out, input, db) && forall i :: 0 <= i < |out| ==> out[i] == Gated(input[i], None)
  {
    out := [];
    while |out| < |input|
      invariant |out| <= |input| && Prefetched(out, input[..|out|], db)
      invariant forall i :: 0 <= i < |out| ==> out[i] == Gated(input[i], None)
    {
      out := out + [Gated(input[|out|], None)];
    }
    assert input[..|out|] == input;
  }

  // ---- Where deletion safety ends: the start key ------------------------------------------------

  /** The start key is looked up by one Head call, and a failed call reads as "no such key". With both
      listings complete, a deletable destination key that the source keeps alive is deleted exactly
      when it is the source's start key and that call failed. */
  lemma {:induction false} LostStartKey(c: Config, start: Obj, answered: bool, srcAll: seq<Obj>, ds: seq<Obj>, d: Obj)
    requires Sorted(srcAll) && Sorted(ds) && StartsBefore(Some(start), srcAll) && !Ignored(c, start)
    requires d in ds && Deletable(c, d) && d.key in Live(c, Ungated([start] + srcAll))
    ensures var delivered := (if answered then [start] else []) + srcAll;
            d.key in Deletions(Merge(Ungated(delivered), Items(ds), c).trace) <==> !answered && d.key == start.key
  {
    LiveOfStart(c, start, srcAll);
    if answered {
      DeletedUnlessLive(c, [start] + srcAll, ds, d);
    } else {
      assert [] + srcAll == srcAll;
      DeletedUnlessLive(c, srcAll, ds, d);
    }
  }

  lemma LiveOfStart(c: Config, start: Obj, srcAll: seq<Obj>)
    requires StartsBefore(Some(start), srcAll) && !Ignored(c, start)
    ensures Live(c, Ungated([start] + srcAll)) == Live(c, Ungated(srcAll)) + {start.key}
    ensures start.key !in Live(c, Ungated(srcAll))
  {
    assert Ungated([start] + srcAll)[1..] == Ungated(srcAll);
    LiveStep(c, Ungated([start] + srcAll));
    BelowIsNotLive(c, Ungated(srcAll), start.key);
  }

  lemma {:induction false} DeletedUnlessLive(c: Config, delivered: seq<Obj>, ds: seq<Obj>, d: Obj)
    requires Sorted(delivered) && Sorted(ds) && d in ds && Deletable(c, d)
    ensures d.key in Deletions(Merge(Ungated(delivered), Items(ds), c).trace) <==> d.key !in Live(c, Ungated(delivered))
  {
    SortedUngated(delivered);
    Exactness(Ungated(delivered), ds, c);
    C.DoomedMembers(c, Live(c, Ungated(delivered)), ds, d.key);
    var i :| 0 <= i < |ds| && ds[i] == d;
  }
}

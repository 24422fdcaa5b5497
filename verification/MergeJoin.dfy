/** The streaming join decides exactly what a per-key lookup would, and never deletes a live key. */
module MergeJoin {
  import opened Keys
  import opened Producer

  // ---- Listings ------------------------------------------------------------------------------

  ghost predicate Clean(src: seq<Gated>) {
    forall i :: 0 <= i < |src| ==> src[i].item.Entry?
  }

  ghost predicate SortedSrc(src: seq<Gated>)
    requires Clean(src)
  {
    forall i, j :: 0 <= i < j < |src| ==> Less(src[i].item.obj.key, src[j].item.obj.key)
  }

  ghost predicate Sorted(ds: seq<Obj>) {
    forall i, j :: 0 <= i < j < |ds| ==> Less(ds[i].key, ds[j].key)
  }

  function Items(ds: seq<Obj>): seq<Item> {
    seq(|ds|, i requires 0 <= i < |ds| => Entry(ds[i]))
  }

  /** What a channel delivers of a full source listing: all of it, or a prefix and the failure mark. */
  ghost predicate SrcFeed(src: seq<Gated>, full: seq<Gated>) {
    src == full || (src != [] && src[|src|-1].item.Broken? && src[..|src|-1] <= full)
  }

  ghost predicate DstFeed(dst: seq<Item>, full: seq<Obj>) {
    dst == Items(full) || (dst != [] && dst[|dst|-1].Broken? && dst[..|dst|-1] <= Items(full))
  }

  ghost function Ungated(src: seq<Obj>): (g: seq<Gated>)
    ensures |g| == |src| && forall i :: 0 <= i < |g| ==> g[i] == Gated(Entry(src[i]), None)
  {
    seq(|src|, i requires 0 <= i < |src| => Gated(Entry(src[i]), None))
  }

  ghost predicate HasKey(src: seq<Obj>, k: Key) {
    exists i :: 0 <= i < |src| && src[i].key == k
  }

  lemma SortedUngated(src: seq<Obj>)
    requires Sorted(src)
    ensures Clean(Ungated(src)) && SortedSrc(Ungated(src))
  {}

  // ---- The reference: one lookup per key -----------------------------------------------------

  ghost function Lookup(ds: seq<Obj>, k: Key): (r: Option<Obj>)
    ensures r.Some? ==> r.value in ds && r.value.key == k
    ensures r.None? ==> forall i :: 0 <= i < |ds| ==> ds[i].key != k
  {
    if ds == [] then None else if ds[0].key == k then Some(ds[0]) else Lookup(ds[1..], k)
  }

  ghost function Fate(c: Config, g: Gated, ds: seq<Obj>): Action
    requires g.item.Entry?
  {
    var o := g.item.obj;
    if Ignored(c, o) then Ignore(o.key) else Decide(c, o, Lookup(ds, o.key), g.rec)
  }

  ghost function Fates(c: Config, src: seq<Gated>, ds: seq<Obj>): seq<Action>
    requires Clean(src)
  {
    seq(|src|, i requires 0 <= i < |src| => Fate(c, src[i], ds))
  }

  /** The keys the source keeps alive: those of the objects that are not passed over. */
  ghost function Live(c: Config, src: seq<Gated>): set<Key> {
    set i | 0 <= i < |src| && src[i].item.Entry? && !Ignored(c, src[i].item.obj) :: src[i].item.obj.key
  }

  ghost predicate Deletable(c: Config, d: Obj) {
    c.deleteDst && c.checkpointKey != Some(d.key) && (c.dirs || !d.isDir)
  }

  ghost function Doomed(c: Config, live: set<Key>, ds: seq<Obj>): seq<Key> {
    if ds == [] then []
    else (if ds[0].key !in live && Deletable(c, ds[0]) then [ds[0].key] else []) + Doomed(c, live, ds[1..])
  }

  // ---- The two readings of a trace -----------------------------------------------------------

  predicate AboutSrc(a: Action) {
    a.Ignore? || a.Skip? || a.DelaySrc? || (a.Send? && a.kind != DeleteDst)
  }

  predicate Deletes(a: Action) {
    a.DelayDst? || (a.Send? && a.kind == DeleteDst)
  }

  function SrcPart(t: seq<Action>): seq<Action> {
    if t == [] then [] else (if AboutSrc(t[0]) then [t[0]] else []) + SrcPart(t[1..])
  }

  function Deletions(t: seq<Action>): seq<Key> {
    if t == [] then [] else (if Deletes(t[0]) then [t[0].key] else []) + Deletions(t[1..])
  }

  lemma {:induction false} PartsOfConcat(a: seq<Action>, b: seq<Action>)
    ensures SrcPart(a + b) == SrcPart(a) + SrcPart(b)
    ensures Deletions(a + b) == Deletions(a) + Deletions(b)
  {
    if a == [] {
      assert a + b == b;
    } else {
      var ab, s, d := a + b, if AboutSrc(a[0]) then [a[0]] else [], if Deletes(a[0]) then [a[0].key] else [];
      assert ab[0] == a[0] && ab[1..] == a[1..] + b;
      PartsOfConcat(a[1..], b);
      assert SrcPart(ab) == s + (SrcPart(a[1..]) + SrcPart(b)) == (s + SrcPart(a[1..])) + SrcPart(b);
      assert Deletions(ab) == d + (Deletions(a[1..]) + Deletions(b)) == (d + Deletions(a[1..])) + Deletions(b);
    }
  }

  lemma {:induction false} PartsOfBefore(a: seq<Action>, rest: Outcome)
    ensures SrcPart(Before(a, rest).trace) == SrcPart(a) + SrcPart(rest.trace)
    ensures Deletions(Before(a, rest).trace) == Deletions(a) + Deletions(rest.trace)
  {
    PartsOfConcat(a, rest.trace);
  }

  lemma PartsOfExtras(c: Config, d: Obj)
    ensures SrcPart(Extras(c, d)) == []
    ensures Deletions(Extras(c, d)) == if Deletable(c, d) then [d.key] else []
  {}

  /** A decision about a source object carries its key and never deletes on the destination. */
  lemma DecisionIsAboutSrc(c: Config, o: Obj, d: Option<Obj>, rec: Option<Record>)
    requires d.Some? ==> d.value.key == o.key
    ensures AboutSrc(Decide(c, o, d, rec)) && !Deletes(Decide(c, o, d, rec)) && Decide(c, o, d, rec).key == o.key
  {}

  // ---- How the reference changes when a head is consumed -------------------------------------

  lemma {:induction false} LookupAbove(ds: seq<Obj>, k: Key)
    requires Sorted(ds) && (ds != [] ==> Less(k, ds[0].key))
    ensures Lookup(ds, k) == None
  {
    if Lookup(ds, k).Some? {
      var i :| 0 <= i < |ds| && ds[i].key == k;
      if i > 0 { LessTransitive(k, ds[0].key, ds[i].key); }
      LessIrreflexive(k);
    }
  }

  lemma FatesDropDst(c: Config, src: seq<Gated>, ds: seq<Obj>)
    requires Clean(src) && ds != []
    requires forall i :: 0 <= i < |src| ==> Less(ds[0].key, src[i].item.obj.key)
    ensures Fates(c, src, ds) == Fates(c, src, ds[1..])
  {
    forall i | 0 <= i < |src| ensures Lookup(ds, src[i].item.obj.key) == Lookup(ds[1..], src[i].item.obj.key) {
      LessIrreflexive(ds[0].key);
    }
  }

  lemma {:induction false} AllAbove(src: seq<Gated>, k: Key)
    requires Clean(src) && SortedSrc(src) && src != [] && Less(k, src[0].item.obj.key)
    ensures forall i :: 0 <= i < |src| ==> Less(k, src[i].item.obj.key)
  {
    forall i | 0 < i < |src| ensures Less(k, src[i].item.obj.key) {
      LessTransitive(k, src[0].item.obj.key, src[i].item.obj.key);
    }
  }

  lemma LiveStep(c: Config, src: seq<Gated>)
    requires src != []
    ensures src[0].item.Entry? && !Ignored(c, src[0].item.obj) ==>
        Live(c, src) == Live(c, src[1..]) + {src[0].item.obj.key}
    ensures src[0].item.Broken? || Ignored(c, src[0].item.obj) ==> Live(c, src) == Live(c, src[1..])
  {
    forall k | k in Live(c, src)
      ensures k in Live(c, src[1..]) || (src[0].item.Entry? && !Ignored(c, src[0].item.obj) && k == src[0].item.obj.key)
    {
      var i :| 0 <= i < |src| && src[i].item.Entry? && !Ignored(c, src[i].item.obj) && k == src[i].item.obj.key;
      if i > 0 { assert src[1..][i-1] == src[i]; }
    }
    forall k | k in Live(c, src[1..]) ensures k in Live(c, src) {
      var i :| 0 <= i < |src| - 1 && src[1..][i].item.Entry? && !Ignored(c, src[1..][i].item.obj)
          && k == src[1..][i].item.obj.key;
      assert src[i+1] == src[1..][i];
    }
  }

  lemma {:induction false} DoomedAgree(c: Config, live: set<Key>, live': set<Key>, ds: seq<Obj>)
    requires forall i :: 0 <= i < |ds| ==> (ds[i].key in live <==> ds[i].key in live')
    ensures Doomed(c, live, ds) == Doomed(c, live', ds)
  {
    if ds != [] {
      assert forall i :: 0 <= i < |ds[1..]| ==> ds[1..][i] == ds[i+1];
      DoomedAgree(c, live, live', ds[1..]);
    }
  }

  lemma {:induction false} BelowIsNotLive(c: Config, src: seq<Gated>, k: Key)
    requires Clean(src) && forall i :: 0 <= i < |src| ==> Less(k, src[i].item.obj.key)
    ensures k !in Live(c, src)
  {
    LessIrreflexive(k);
  }

  lemma DropEntries(ds: seq<Obj>)
    requires ds != []
    ensures Items(ds)[0] == Entry(ds[0]) && Items(ds)[1..] == Items(ds[1..])
  {}

  lemma FatesHead(c: Config, src: seq<Gated>, ds: seq<Obj>)
    requires Clean(src) && src != []
    ensures Clean(src[1..]) && Fates(c, src, ds) == [Fate(c, src[0], ds)] + Fates(c, src[1..], ds)
  {}

  // ---- Exactness -----------------------------------------------------------------------------

  ghost predicate Exact(src: seq<Gated>, ds: seq<Obj>, c: Config, r: Outcome)
    requires Clean(src)
  {
    && r.ok
    && SrcPart(r.trace) == Fates(c, src, ds)
    && Deletions(r.trace) == Doomed(c, Live(c, src), ds)
  }

  /** With both listings complete and ascending, the join is one lookup per source key in source
      order, plus one deletion for each destination key the source does not keep alive. */
  lemma {:induction false} Exactness(src: seq<Gated>, ds: seq<Obj>, c: Config)
    requires Clean(src) && SortedSrc(src) && Sorted(ds)
    ensures Exact(src, ds, c, Merge(src, Items(ds), c))
    decreases |src| + |ds|
  {
    if src == [] {
      if ds != [] {
        DropEntries(ds);
        if c.deleteDst {
          ExactnessExtra(src, ds, c);
        } else {
          NothingDoomed(c, Live(c, src), ds);
        }
      }
    } else if Ignored(c, src[0].item.obj) {
      var o := src[0].item.obj;
      LiveStep(c, src);
      FatesHead(c, src, ds);
      Exactness(src[1..], ds, c);
      PartsOfBefore([Ignore(o.key)], Merge(src[1..], Items(ds), c));
    } else if ds != [] && Less(ds[0].key, src[0].item.obj.key) {
      ExactnessExtra(src, ds, c);
    } else if ds != [] && !Less(src[0].item.obj.key, ds[0].key) {
      LessTotal(src[0].item.obj.key, ds[0].key);
      ExactnessSame(src, ds, c);
    } else {
      ExactnessOnlySrc(src, ds, c);
    }
  }

  lemma {:induction false} ExactnessExtra(src: seq<Gated>, ds: seq<Obj>, c: Config)
    requires Clean(src) && SortedSrc(src) && Sorted(ds) && ds != []
    requires if src == [] then c.deleteDst
             else !Ignored(c, src[0].item.obj) && Less(ds[0].key, src[0].item.obj.key)
    ensures Exact(src, ds, c, Merge(src, Items(ds), c))
    decreases |src| + |ds|, 0
  {
    DropEntries(ds);
    if src != [] { AllAbove(src, ds[0].key); }
    FatesDropDst(c, src, ds);
    BelowIsNotLive(c, src, ds[0].key);
    PartsOfExtras(c, ds[0]);
    PartsOfBefore(Extras(c, ds[0]), Merge(src, Items(ds[1..]), c));
    Exactness(src, ds[1..], c);
  }

  lemma {:induction false} ExactnessSame(src: seq<Gated>, ds: seq<Obj>, c: Config)
    requires Clean(src) && SortedSrc(src) && Sorted(ds) && src != [] && ds != []
    requires !Ignored(c, src[0].item.obj) && src[0].item.obj.key == ds[0].key
    ensures Exact(src, ds, c, Merge(src, Items(ds), c))
    decreases |src| + |ds|, 0
  {
    var o, d := src[0].item.obj, ds[0];
    DropEntries(ds);
    LessIrreflexive(o.key);
    FatesHead(c, src, ds);
    LiveStep(c, src);
    DecisionIsAboutSrc(c, o, Some(d), src[0].rec);
    FatesDropDst(c, src[1..], ds);
    PartsOfBefore([Decide(c, o, Some(d), src[0].rec)], Merge(src[1..], Items(ds[1..]), c));
    forall i | 0 <= i < |ds[1..]| ensures ds[1..][i].key != o.key { LessIrreflexive(o.key); }
    DoomedAgree(c, Live(c, src), Live(c, src[1..]), ds[1..]);
    Exactness(src[1..], ds[1..], c);
  }

  lemma {:induction false} ExactnessOnlySrc(src: seq<Gated>, ds: seq<Obj>, c: Config)
    requires Clean(src) && SortedSrc(src) && Sorted(ds) && src != []
    requires !Ignored(c, src[0].item.obj) && (ds != [] ==> Less(src[0].item.obj.key, ds[0].key))
    ensures Exact(src, ds, c, Merge(src, Items(ds), c))
    decreases |src| + |ds|, 0
  {
    var o := src[0].item.obj;
    if ds != [] { DropEntries(ds); LessAsymmetric(o.key, ds[0].key); }
    FatesHead(c, src, ds);
    LiveStep(c, src);
    LookupAbove(ds, o.key);
    DecisionIsAboutSrc(c, o, None, src[0].rec);
    PartsOfBefore([Decide(c, o, None, src[0].rec)], Merge(src[1..], Items(ds), c));
    DoomedAgree(c, Live(c, src), Live(c, src[1..]), ds);
    Exactness(src[1..], ds, c);
  }

  lemma {:induction false} NothingDoomed(c: Config, live: set<Key>, ds: seq<Obj>)
    requires !c.deleteDst
    ensures Doomed(c, live, ds) == []
  {
    if ds != [] { NothingDoomed(c, live, ds[1..]); }
  }

  // ---- Safety of deletions when listings fail -------------------------------------------------

  /** A deleted key is a destination key outside the whole source listing, whatever part of that
      listing was delivered, and the producer had already seen the source go past it. */
  ghost predicate SafeDeletion(c: Config, src: seq<Gated>, full: seq<Gated>, dfull: seq<Obj>, k: Key) {
    && k !in Live(c, full)
    && (exists i :: 0 <= i < |dfull| && dfull[i].key == k && Deletable(c, dfull[i]))
    && (src == full || exists i :: 0 <= i < |src| && src[i].item.Entry? && Less(k, src[i].item.obj.key))
  }

  ghost predicate AllSafe(c: Config, src: seq<Gated>, full: seq<Gated>, dfull: seq<Obj>, t: seq<Action>) {
    forall a :: a in t && Deletes(a) ==> SafeDeletion(c, src, full, dfull, a.key)
  }

  lemma SafeAfterSrc(c: Config, src: seq<Gated>, full: seq<Gated>, dfull: seq<Obj>, k: Key)
    requires src != [] && full != [] && src[0] == full[0] && src[0].item.Entry?
    requires SafeDeletion(c, src[1..], full[1..], dfull, k)
    requires Ignored(c, full[0].item.obj) || k != full[0].item.obj.key
    ensures SafeDeletion(c, src, full, dfull, k)
  {
    LiveStep(c, full);
    if src[1..] == full[1..] {
      assert src == [src[0]] + src[1..] && full == [full[0]] + full[1..];
    } else {
      var i :| 0 <= i < |src[1..]| && src[1..][i].item.Entry? && Less(k, src[1..][i].item.obj.key);
      assert src[i+1] == src[1..][i];
    }
  }

  lemma SafeAfterDst(c: Config, src: seq<Gated>, full: seq<Gated>, dfull: seq<Obj>, k: Key)
    requires dfull != [] && SafeDeletion(c, src, full, dfull[1..], k)
    ensures SafeDeletion(c, src, full, dfull, k)
  {
    var i :| 0 <= i < |dfull[1..]| && dfull[1..][i].key == k && Deletable(c, dfull[1..][i]);
    assert dfull[i+1] == dfull[1..][i];
  }

  lemma FeedSteps(src: seq<Gated>, full: seq<Gated>)
    requires SrcFeed(src, full) && Clean(full) && src != [] && src[0].item.Entry?
    ensures full != [] && src[0] == full[0] && SrcFeed(src[1..], full[1..]) && Clean(full[1..])
  {
    if src != full {
      assert src[..|src|-1][0] == src[0];
      assert src[1..][..|src[1..]|-1] == src[..|src|-1][1..];
    }
  }

  lemma DstFeedSteps(dst: seq<Item>, full: seq<Obj>)
    requires DstFeed(dst, full) && dst != [] && dst[0].Entry?
    ensures full != [] && dst[0] == Entry(full[0]) && DstFeed(dst[1..], full[1..])
  {
    if dst != Items(full) {
      assert dst[..|dst|-1][0] == dst[0] && Items(full)[0] == dst[0];
      DropEntries(full);
      assert dst[1..][..|dst[1..]|-1] == dst[..|dst|-1][1..];
    }
  }

  /** Deletion safety: wherever either listing breaks off, every deletion made is a safe one, and
      the producer reports success only after a complete source listing. */
  lemma {:induction false} DeletionSafety(src: seq<Gated>, full: seq<Gated>, dst: seq<Item>, dfull: seq<Obj>, c: Config)
    requires Clean(full) && SortedSrc(full) && Sorted(dfull)
    requires SrcFeed(src, full) && DstFeed(dst, dfull)
    ensures AllSafe(c, src, full, dfull, Merge(src, dst, c).trace)
    ensures Merge(src, dst, c).ok ==> src == full && (c.deleteDst ==> dst == Items(dfull))
    decreases |src| + |dst|
  {
    if src == [] {
      if c.deleteDst && dst != [] && dst[0].Entry? {
        DstFeedSteps(dst, dfull);
        DeletionSafety(src, full, dst[1..], dfull[1..], c);
        ExtraIsSafe(src, full, dst, dfull, c);
      }
    } else if src[0].item.Entry? {
      FeedSteps(src, full);
      var o := src[0].item.obj;
      if Ignored(c, o) {
        DeletionSafety(src[1..], full[1..], dst, dfull, c);
        forall a | a in Merge(src[1..], dst, c).trace && Deletes(a) ensures SafeDeletion(c, src, full, dfull, a.key) {
          SafeAfterSrc(c, src, full, dfull, a.key);
        }
        Whole(src, full);
      } else if dst != [] && dst[0].Broken? {
      } else if dst != [] && Less(dst[0].obj.key, o.key) {
        DstFeedSteps(dst, dfull);
        DeletionSafety(src, full, dst[1..], dfull[1..], c);
        ExtraIsSafe(src, full, dst, dfull, c);
      } else {
        SafetyDecided(src, full, dst, dfull, c);
      }
    }
  }

  lemma Whole(src: seq<Gated>, full: seq<Gated>)
    requires src != [] && full != [] && src[0] == full[0]
    ensures src[1..] == full[1..] ==> src == full
  {
    assert src == [src[0]] + src[1..] && full == [full[0]] + full[1..];
  }

  lemma {:induction false} ExtraIsSafe(src: seq<Gated>, full: seq<Gated>, dst: seq<Item>, dfull: seq<Obj>, c: Config)
    requires Clean(full) && SortedSrc(full) && SrcFeed(src, full)
    requires dst != [] && dfull != [] && dst[0] == Entry(dfull[0]) && DstFeed(dst[1..], dfull[1..])
    requires src == [] || (src[0].item.Entry? && Less(dfull[0].key, src[0].item.obj.key))
    requires AllSafe(c, src, full, dfull[1..], Merge(src, dst[1..], c).trace)
    requires Merge(src, dst, c) == Before(Extras(c, dfull[0]), Merge(src, dst[1..], c))
    ensures AllSafe(c, src, full, dfull, Merge(src, dst, c).trace)
    ensures dst[1..] == Items(dfull[1..]) ==> dst == Items(dfull)
  {
    forall a | a in Merge(src, dst, c).trace && Deletes(a) ensures SafeDeletion(c, src, full, dfull, a.key) {
      if a in Merge(src, dst[1..], c).trace {
        SafeAfterDst(c, src, full, dfull, a.key);
      } else {
        assert a in Extras(c, dfull[0]);
        if src != [] {
          FeedSteps(src, full);
          AllAbove(full, dfull[0].key);
          BelowIsNotLive(c, full, dfull[0].key);
        }
      }
    }
    DropEntries(dfull);
    assert dst == [dst[0]] + dst[1..] && Items(dfull) == [Items(dfull)[0]] + Items(dfull)[1..];
  }

  lemma {:induction false} SafetyDecided(src: seq<Gated>, full: seq<Gated>, dst: seq<Item>, dfull: seq<Obj>, c: Config)
    requires Clean(full) && SortedSrc(full) && Sorted(dfull)
    requires SrcFeed(src, full) && DstFeed(dst, dfull) && src != [] && src[0].item.Entry?
    requires !Ignored(c, src[0].item.obj)
    requires dst != [] ==> dst[0].Entry? && !Less(dst[0].obj.key, src[0].item.obj.key)
    ensures AllSafe(c, src, full, dfull, Merge(src, dst, c).trace)
    ensures Merge(src, dst, c).ok ==> src == full && (c.deleteDst ==> dst == Items(dfull))
    decreases |src| + |dst|, 0
  {
    FeedSteps(src, full);
    var o := src[0].item.obj;
    MergeDecide(src, dst, o, c);
    var here := dst != [] && dst[0].obj.key == o.key;
    if dst != [] { DstFeedSteps(dst, dfull); LessTotal(o.key, dst[0].obj.key); }
    var dst', dfull' := if here then dst[1..] else dst, if here then dfull[1..] else dfull;
    DeletionSafety(src[1..], full[1..], dst', dfull', c);
    DecisionIsAboutSrc(c, o, if here then Some(dst[0].obj) else None, src[0].rec);
    forall a | a in Merge(src[1..], dst', c).trace && Deletes(a) ensures SafeDeletion(c, src, full, dfull, a.key) {
      var i :| 0 <= i < |dfull'| && dfull'[i].key == a.key;
      if dst != [] && (i > 0 || here) {
        assert dfull'[i] == dfull[if here then i + 1 else i];
        if !here { LessTransitive(o.key, dfull[0].key, dfull[i].key); }
      }
      LessIrreflexive(o.key);
      SafeAfterSrc(c, src, full, dfull', a.key);
      if here { SafeAfterDst(c, src, full, dfull, a.key); }
    }
    Whole(src, full);
    if here {
      DropEntries(dfull);
      assert dst == [dst[0]] + dst[1..] && Items(dfull) == [Items(dfull)[0]] + Items(dfull)[1..];
    }
  }
}

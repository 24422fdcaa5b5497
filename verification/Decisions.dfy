/** Which action each object gets, flag by flag, read off the trace of the producer. */
module Decisions {
  import opened Keys
  import opened Producer
  import opened MergeJoin
  import C = Convergence
  import T = Traces

  /** Nanoseconds in a second: flags and gate compare times by whole seconds. */
  const S := 1_000_000_000

  /** Two complete listings, in ascending order. */
  ghost predicate Listings(src: seq<Gated>, ds: seq<Obj>) {
    Clean(src) && SortedSrc(src) && Sorted(ds)
  }

  // ---- When an object gets which action ------------------------------------------------------------------

  /** A directory passed over: directories are not wanted, and it is not a link that is kept as one. */
  ghost predicate PassedOver(c: Config, o: Obj) {
    o.isDir && !c.dirs && !(c.links && o.isSymlink)
  }

  /** The gate table has a success for this version of the object or a later one, and is asked. */
  ghost predicate OnRecord(c: Config, o: Obj, rec: Option<Record>) {
    && c.gate && !c.forceUpdate && !c.ignoreExisting
    && rec.Some? && rec.value.success && o.mtime / S <= rec.value.mtime / S
  }

  /** An object that is compared with what the destination has. */
  ghost predicate Compared(c: Config, o: Obj, d: Option<Obj>, rec: Option<Record>) {
    !PassedOver(c, o) && !OnRecord(c, o, rec) && d.Some? && !c.ignoreExisting
  }

  /** Both sides count as equal, or under the gates the source as newer: the flags say what is done then. */
  ghost predicate Matches(c: Config, o: Obj, d: Obj) {
    if c.gate then c.forceUpdate || d.mtime < o.mtime
    else !c.forceUpdate && if c.update then o.mtime / S == d.mtime / S else o.size == d.size
  }

  ghost predicate Copies(c: Config, o: Obj, d: Option<Obj>, rec: Option<Record>) {
    || (!PassedOver(c, o) && !OnRecord(c, o, rec) && d.None? && !c.existing)
    || (Compared(c, o, d, rec) &&
        if c.gate
        then Matches(c, o, d.value) && !c.checkAll && !c.deleteSrc && (c.perms ==> o.perms == d.value.perms)
        else c.forceUpdate || if c.update then o.mtime / S > d.value.mtime / S else o.size != d.value.size)
  }

  ghost predicate Checks(c: Config, o: Obj, d: Option<Obj>, rec: Option<Record>) {
    Compared(c, o, d, rec) && Matches(c, o, d.value) && c.checkAll
  }

  ghost predicate RemovesSource(c: Config, o: Obj, d: Option<Obj>, rec: Option<Record>) {
    Compared(c, o, d, rec) && Matches(c, o, d.value) && !c.checkAll && c.deleteSrc
  }

  ghost predicate CopiesPerms(c: Config, o: Obj, d: Option<Obj>, rec: Option<Record>) {
    && Compared(c, o, d, rec) && Matches(c, o, d.value) && !c.checkAll && !c.deleteSrc
    && c.perms && o.perms != d.value.perms
  }

  /** The second gate keeps what the destination has. */
  ghost predicate Protects(c: Config, o: Obj, d: Option<Obj>, rec: Option<Record>) {
    Compared(c, o, d, rec) && c.gate && !c.forceUpdate && d.value.mtime >= o.mtime
  }

  lemma {:induction false} OneOfThem(c: Config, src: seq<Gated>, ds: seq<Obj>, i: nat, a: Action)
    requires Listings(src, ds) && i < |src| && AboutSrc(a) && a.key == src[i].item.obj.key
    ensures a in Merge(src, Items(ds), c).trace <==> a == Fate(c, src[i], ds)
  {
    var t := Merge(src, Items(ds), c).trace;
    Exactness(src, ds, c);
    C.SrcPartMembers(t, a);
    if a in t {
      var j :| 0 <= j < |src| && Fates(c, src, ds)[j] == a;
      FateKey(c, src[j], ds);
      if i < j { LessIrreflexive(a.key); } else if j < i { LessIrreflexive(a.key); }
    }
    if a == Fate(c, src[i], ds) { assert Fates(c, src, ds)[i] == a; }
  }

  lemma FateKey(c: Config, g: Gated, ds: seq<Obj>)
    requires g.item.Entry?
    ensures Fate(c, g, ds).key == g.item.obj.key && AboutSrc(Fate(c, g, ds))
  {
    DecisionIsAboutSrc(c, g.item.obj, Lookup(ds, g.item.obj.key), g.rec);
  }

  /** The action of every source object, whatever the flags: each kind of action exactly under its condition. */
  lemma {:induction false} DecidedIff(c: Config, src: seq<Gated>, ds: seq<Obj>, i: nat)
    requires Listings(src, ds) && i < |src|
    ensures var t, o, rec := Merge(src, Items(ds), c).trace, src[i].item.obj, src[i].rec;
      var k, d := o.key, Lookup(ds, o.key);
      && (Ignore(k) in t <==> PassedOver(c, o))
      && (Send(k, Copy) in t <==> Copies(c, o, d, rec))
      && (Send(k, Checksum) in t <==> Checks(c, o, d, rec))
      && (Send(k, DeleteSrc) in t <==> RemovesSource(c, o, d, rec) && !o.isDir)
      && (DelaySrc(k) in t <==> RemovesSource(c, o, d, rec) && o.isDir)
      && (Send(k, CopyPerms) in t <==> CopiesPerms(c, o, d, rec))
      && (Skip(k, true) in t <==> Protects(c, o, d, rec) && c.gateBuffer && d.value.size != 0)
      && (Skip(k, false) in t <==>
            !PassedOver(c, o) && !Copies(c, o, d, rec) && !Checks(c, o, d, rec) && !RemovesSource(c, o, d, rec)
            && !CopiesPerms(c, o, d, rec) && !(Protects(c, o, d, rec) && c.gateBuffer && d.value.size != 0))
  {
    var k := src[i].item.obj.key;
    OneOfThem(c, src, ds, i, Ignore(k));
    OneOfThem(c, src, ds, i, Send(k, Copy));
    OneOfThem(c, src, ds, i, Send(k, Checksum));
    OneOfThem(c, src, ds, i, Send(k, DeleteSrc));
    OneOfThem(c, src, ds, i, DelaySrc(k));
    OneOfThem(c, src, ds, i, Send(k, CopyPerms));
    OneOfThem(c, src, ds, i, Skip(k, true));
    OneOfThem(c, src, ds, i, Skip(k, false));
  }

  // ---- Flag by flag -----------------------------------------------------------------------------------------

  /** Every source object gets one action, in the order of the listing. */
  lemma {:induction false} OneEach(c: Config, src: seq<Gated>, ds: seq<Obj>)
    requires Listings(src, ds)
    ensures var t := SrcPart(Merge(src, Items(ds), c).trace);
      |t| == |src| && forall i :: 0 <= i < |src| ==> t[i].key == src[i].item.obj.key
  {
    Exactness(src, ds, c);
    forall i | 0 <= i < |src| ensures Fates(c, src, ds)[i].key == src[i].item.obj.key { FateKey(c, src[i], ds); }
  }

  /** The situation in which a flag is looked at: two listings, one object that is not passed over. */
  ghost predicate At(c: Config, src: seq<Gated>, ds: seq<Obj>, i: nat, o: Obj, d: Option<Obj>) {
    && Listings(src, ds) && i < |src| && src[i].item.obj == o && d == Lookup(ds, o.key)
    && (o.isDir ==> c.dirs || (c.links && o.isSymlink))
  }

  /** The gate row: an object that the destination lacks is sent unless the last attempt on record succeeded
      with this version or a later one, in whole seconds. */
  lemma {:induction false} GateRowIff(c: Config, src: seq<Gated>, ds: seq<Obj>, i: nat, o: Obj)
    requires At(c, src, ds, i, o, None) && c.gate && !c.forceUpdate && !c.ignoreExisting && !c.existing
    ensures var t, rec := Merge(src, Items(ds), c).trace, src[i].rec;
      var done := rec.Some? && rec.value.success && o.mtime / S <= rec.value.mtime / S;
      (Send(o.key, Copy) in t <==> !done) && (Skip(o.key, false) in t <==> done)
  {
    DecidedIff(c, src, ds, i);
  }

  /** The same row keeps an object that the destination has from being compared at all. */
  lemma {:induction false} GateRowSkips(c: Config, src: seq<Gated>, ds: seq<Obj>, i: nat, o: Obj, d: Option<Obj>)
    requires At(c, src, ds, i, o, d) && c.gate && !c.forceUpdate && !c.ignoreExisting
    requires var rec := src[i].rec; rec.Some? && rec.value.success && o.mtime / S <= rec.value.mtime / S
    ensures Skip(o.key, false) in Merge(src, Items(ds), c).trace
  {
    DecidedIff(c, src, ds, i);
  }

  /** --existing: what the destination lacks is copied exactly without it. */
  lemma {:induction false} ExistingIff(c: Config, src: seq<Gated>, ds: seq<Obj>, i: nat, o: Obj)
    requires At(c, src, ds, i, o, None) && (c.gate ==> src[i].rec.None?)
    ensures var t := Merge(src, Items(ds), c).trace;
      (Send(o.key, Copy) in t <==> !c.existing) && (Skip(o.key, false) in t <==> c.existing)
  {
    DecidedIff(c, src, ds, i);
  }

  /** --ignore-existing: nothing happens to what the destination has, whatever the other flags. */
  lemma {:induction false} IgnoreExisting(c: Config, src: seq<Gated>, ds: seq<Obj>, i: nat, o: Obj, d: Obj)
    requires At(c, src, ds, i, o, Some(d)) && c.ignoreExisting
    ensures Skip(o.key, false) in Merge(src, Items(ds), c).trace
  {
    DecidedIff(c, src, ds, i);
  }

  /** --update: the later one by whole seconds wins. */
  lemma {:induction false} UpdateIff(c: Config, src: seq<Gated>, ds: seq<Obj>, i: nat, o: Obj, d: Obj)
    requires At(c, src, ds, i, o, Some(d)) && !c.gate && !c.forceUpdate && !c.ignoreExisting && c.update
    ensures var t := Merge(src, Items(ds), c).trace;
      && (Send(o.key, Copy) in t <==> o.mtime / S > d.mtime / S)
      && (o.mtime / S < d.mtime / S ==> Skip(o.key, false) in t)
  {
    DecidedIff(c, src, ds, i);
  }

  /** Without it, sizes are compared. */
  lemma {:induction false} SizeIff(c: Config, src: seq<Gated>, ds: seq<Obj>, i: nat, o: Obj, d: Obj)
    requires At(c, src, ds, i, o, Some(d)) && !c.gate && !c.forceUpdate && !c.ignoreExisting && !c.update
    ensures Send(o.key, Copy) in Merge(src, Items(ds), c).trace <==> o.size != d.size
  {
    DecidedIff(c, src, ds, i);
  }

  /** --force-update: everything is copied, the source as new as it may be. */
  lemma {:induction false} ForceUpdate(c: Config, src: seq<Gated>, ds: seq<Obj>, i: nat, o: Obj, d: Option<Obj>)
    requires At(c, src, ds, i, o, d) && !c.gate && c.forceUpdate && !c.ignoreExisting && !c.existing
    ensures Send(o.key, Copy) in Merge(src, Items(ds), c).trace
  {
    DecidedIff(c, src, ds, i);
  }

  /** The second gate: what the destination has is left alone exactly if it is as new or newer, by the
      nanosecond, and the update is not forced. */
  lemma {:induction false} SecondGateIff(c: Config, src: seq<Gated>, ds: seq<Obj>, i: nat, o: Obj, d: Obj)
    requires At(c, src, ds, i, o, Some(d)) && c.gate && !c.ignoreExisting && src[i].rec.None?
    ensures var t := Merge(src, Items(ds), c).trace;
      (exists recorded :: Skip(o.key, recorded) in t) <==> d.mtime >= o.mtime && !c.forceUpdate
  {
    DecidedIff(c, src, ds, i);
    var t := Merge(src, Items(ds), c).trace;
    assert d.mtime >= o.mtime && !c.forceUpdate ==> Skip(o.key, c.gateBuffer && d.size != 0) in t;
  }

  /** --check-all, then --delete-src, then --perms decide what happens to an object that counts as equal. */
  lemma {:induction false} MatchedIff(c: Config, src: seq<Gated>, ds: seq<Obj>, i: nat, o: Obj, d: Obj)
    requires At(c, src, ds, i, o, Some(d)) && !c.gate && !c.forceUpdate && !c.ignoreExisting
    requires if c.update then o.mtime / S == d.mtime / S else o.size == d.size
    ensures var t := Merge(src, Items(ds), c).trace;
      && (Send(o.key, Checksum) in t <==> c.checkAll)
      && (Send(o.key, DeleteSrc) in t <==> !c.checkAll && c.deleteSrc && !o.isDir)
      && (DelaySrc(o.key) in t <==> !c.checkAll && c.deleteSrc && o.isDir)
      && (Send(o.key, CopyPerms) in t <==> !c.checkAll && !c.deleteSrc && c.perms && o.perms != d.perms)
      && (Skip(o.key, false) in t <==> !c.checkAll && !c.deleteSrc && (c.perms ==> o.perms == d.perms))
  {
    DecidedIff(c, src, ds, i);
  }

  // ---- Objects that only the destination has -----------------------------------------------------------------

  /** No source object that is not passed over has the key. */
  ghost predicate Extraneous(c: Config, src: seq<Gated>, k: Key)
    requires Clean(src)
  {
    forall i :: 0 <= i < |src| && !PassedOver(c, src[i].item.obj) ==> src[i].item.obj.key != k
  }

  /** The producer comes to the key: it goes through the whole destination to delete, else no further than the
      last source object that is not passed over. */
  ghost predicate Reached(c: Config, src: seq<Gated>, k: Key)
    requires Clean(src)
  {
    c.deleteDst || exists i :: 0 <= i < |src| && !PassedOver(c, src[i].item.obj) && Less(k, src[i].item.obj.key)
  }

  /** What is done to an object that only the destination has. */
  ghost predicate Disposes(c: Config, d: Obj, a: Action) {
    c.checkpointKey != Some(d.key) &&
    a == if !c.deleteDst || (d.isDir && !c.dirs) then Extra(d.key)
         else if d.isDir then DelayDst(d.key) else Send(d.key, DeleteDst)
  }

  lemma {:induction false} ExtraneousStep(c: Config, src: seq<Gated>, k: Key)
    requires Clean(src) && src != []
    ensures var o := src[0].item.obj;
      && (Extraneous(c, src, k) <==> Extraneous(c, src[1..], k) && (PassedOver(c, o) || o.key != k))
      && (Reached(c, src, k) <==> Reached(c, src[1..], k) || (!PassedOver(c, o) && Less(k, o.key)))
  {
    forall i | 0 < i < |src| ensures src[i] == src[1..][i - 1] {}
    if Reached(c, src, k) && !c.deleteDst {
      var i :| 0 <= i < |src| && !PassedOver(c, src[i].item.obj) && Less(k, src[i].item.obj.key);
      if i > 0 { assert src[1..][i - 1] == src[i]; }
    }
    if Reached(c, src[1..], k) && !c.deleteDst {
      var i :| 0 <= i < |src| - 1 && !PassedOver(c, src[1..][i].item.obj) && Less(k, src[1..][i].item.obj.key);
      assert src[i + 1] == src[1..][i];
    }
  }

  /** The action is that of a destination object that no source object keeps alive and that is reached. */
  ghost predicate Disposed(c: Config, src: seq<Gated>, ds: seq<Obj>, a: Action)
    requires Clean(src)
  {
    exists n :: 0 <= n < |ds| && Disposes(c, ds[n], a) && Extraneous(c, src, ds[n].key) && Reached(c, src, ds[n].key)
  }

  lemma DisposedTail(c: Config, src: seq<Gated>, ds: seq<Obj>, a: Action)
    requires Clean(src) && ds != []
    ensures Disposed(c, src, ds, a) <==>
            (Disposes(c, ds[0], a) && Extraneous(c, src, ds[0].key) && Reached(c, src, ds[0].key))
            || Disposed(c, src, ds[1..], a)
  {
    if Disposed(c, src, ds, a) {
      var n :| 0 <= n < |ds| && Disposes(c, ds[n], a) && Extraneous(c, src, ds[n].key) && Reached(c, src, ds[n].key);
      if n > 0 { assert ds[1..][n - 1] == ds[n]; }
    }
    if Disposed(c, src, ds[1..], a) {
      var n :| 0 <= n < |ds| - 1 && Disposes(c, ds[1..][n], a) && Extraneous(c, src, ds[1..][n].key)
               && Reached(c, src, ds[1..][n].key);
      assert ds[n + 1] == ds[1..][n];
    }
  }

  lemma ExtrasDispose(c: Config, d: Obj, a: Action)
    ensures a in Extras(c, d) <==> Disposes(c, d, a)
  {}

  lemma InBefore(e: seq<Action>, rest: Outcome, a: Action)
    ensures a in Before(e, rest).trace <==> a in e || a in rest.trace
  {}

  /** A key below all source keys belongs to the destination alone. */
  lemma {:induction false} BelowAll(c: Config, src: seq<Gated>, k: Key)
    requires Clean(src) && SortedSrc(src) && (src != [] ==> Less(k, src[0].item.obj.key))
    ensures Extraneous(c, src, k)
    ensures src != [] && !PassedOver(c, src[0].item.obj) ==> Reached(c, src, k)
  {
    if src != [] { AllAbove(src, k); }
    LessIrreflexive(k);
  }

  /** What lies above the first source key is judged by the rest of the source. */
  lemma AboveFirst(c: Config, src: seq<Gated>, ds: seq<Obj>, a: Action)
    requires Clean(src) && src != []
    requires PassedOver(c, src[0].item.obj) || T.DstAbove(ds, src[0].item.obj.key)
    ensures Disposed(c, src, ds, a) <==> Disposed(c, src[1..], ds, a)
  {
    hide Disposes, Extraneous, Reached;
    forall n | 0 <= n < |ds|
      ensures Extraneous(c, src, ds[n].key) && Reached(c, src, ds[n].key) <==>
              Extraneous(c, src[1..], ds[n].key) && Reached(c, src[1..], ds[n].key)
    {
      ExtraneousStep(c, src, ds[n].key);
      if Less(src[0].item.obj.key, ds[n].key) { LessAsymmetric(src[0].item.obj.key, ds[n].key); }
    }
  }

  /** The actions on the destination side are those of the objects that only the destination has, of all that
      the producer comes to and of no other. */
  lemma {:induction false} DisposedIff(c: Config, src: seq<Gated>, ds: seq<Obj>, a: Action)
    requires Listings(src, ds) && !AboutSrc(a)
    ensures a in Merge(src, Items(ds), c).trace <==> Disposed(c, src, ds, a)
    decreases |src| + |ds|
  {
    hide Disposes, Extraneous, Disposed;
    if ds != [] { DropEntries(ds); DisposedTail(c, src, ds, a); ExtrasDispose(c, ds[0], a); }
    if src == [] {
      if ds == [] || !c.deleteDst { NoneReached(c, ds, a); } else {
        BelowAll(c, src, ds[0].key);
        InBefore(Extras(c, ds[0]), Merge(src, Items(ds[1..]), c), a);
        DisposedIff(c, src, ds[1..], a);
      }
    } else if Ignored(c, src[0].item.obj) {
      AboveFirst(c, src, ds, a);
      DisposedIff(c, src[1..], ds, a);
    } else if ds != [] && Less(ds[0].key, src[0].item.obj.key) {
      BelowAll(c, src, ds[0].key);
      InBefore(Extras(c, ds[0]), Merge(src, Items(ds[1..]), c), a);
      DisposedIff(c, src, ds[1..], a);
    } else {
      DisposedDecided(c, src, ds, a);
    }
  }

  lemma NoneReached(c: Config, ds: seq<Obj>, a: Action)
    requires ds == [] || !c.deleteDst
    ensures !Disposed(c, [], ds, a)
  {}

  lemma {:induction false} DisposedDecided(c: Config, src: seq<Gated>, ds: seq<Obj>, a: Action)
    requires Listings(src, ds) && !AboutSrc(a) && src != [] && !Ignored(c, src[0].item.obj)
    requires ds != [] ==> !Less(ds[0].key, src[0].item.obj.key)
    ensures a in Merge(src, Items(ds), c).trace <==> Disposed(c, src, ds, a)
    decreases |src| + |ds|, 0
  {
    hide Disposes, Reached, Disposed;
    var o := src[0].item.obj;
    if ds != [] { DropEntries(ds); LessTotal(o.key, ds[0].key); DisposedTail(c, src, ds, a); }
    var here := ds != [] && ds[0].key == o.key;
    var ds' := if here then ds[1..] else ds;
    var d := if here then Some(ds[0]) else None;
    MergeDecide(src, Items(ds), o, c);
    DecisionIsAboutSrc(c, o, d, src[0].rec);
    InBefore([Decide(c, o, d, src[0].rec)], Merge(src[1..], Items(ds'), c), a);
    T.DstAboveOf(ds', o.key);
    AboveFirst(c, src, ds', a);
    DisposedIff(c, src[1..], ds', a);
  }

  // ---- What a listing that breaks off changes -----------------------------------------------------------------

  /** Wherever either listing breaks off, the producer has done the first of what it does with both complete, and
      all of it when it reports success. */
  lemma {:induction false} BrokenOff(src: seq<Gated>, full: seq<Gated>, dst: seq<Item>, dfull: seq<Obj>, c: Config)
    requires T.Feeds(src, full, dst, dfull)
    ensures var r, all := Merge(src, dst, c), Merge(full, Items(dfull), c);
      r.trace <= all.trace && (r.ok ==> r == all) && all.ok
    decreases |src| + |dst|
  {
    hide Merge, T.Feeds, Less;
    var s := T.StepOf(src, dst, c);
    T.MergeStep(src, dst, c);
    T.FeedsMeans(src, full, dst, dfull);
    Complete(full, dfull, c);
    if s.End? {
      EndsTogether(src, full, dst, dfull, c);
    } else {
      SameStep(src, full, dst, dfull, c);
      T.FeedsStep(src, full, dst, dfull, c);
      T.MergeStep(full, Items(dfull), c);
      BrokenOff(T.SrcLeft(src, s), T.SrcLeft(full, s), T.DstLeft(dst, s), T.DstLeft(dfull, s), c);
    }
  }

  lemma {:induction false} Complete(full: seq<Gated>, dfull: seq<Obj>, c: Config)
    requires Listings(full, dfull)
    ensures Merge(full, Items(dfull), c).ok
  {
    Exactness(full, dfull, c);
  }

  lemma {:induction false} EndsTogether(src: seq<Gated>, full: seq<Gated>, dst: seq<Item>, dfull: seq<Obj>, c: Config)
    requires T.Feeds(src, full, dst, dfull) && T.StepOf(src, dst, c).End?
    ensures var r := Merge(src, dst, c); r.trace == [] && (r.ok ==> r == Merge(full, Items(dfull), c))
  {}

  lemma SameStep(src: seq<Gated>, full: seq<Gated>, dst: seq<Item>, dfull: seq<Obj>, c: Config)
    requires T.Feeds(src, full, dst, dfull) && !T.StepOf(src, dst, c).End?
    ensures var s := T.StepOf(src, dst, c);
      && T.StepOf(full, Items(dfull), c) == s && T.ActionsOf(full, Items(dfull), c) == T.ActionsOf(src, dst, c)
      && T.DstLeft(Items(dfull), s) == Items(T.DstLeft(dfull, s))
  {
    if dfull != [] { DropEntries(dfull); }
    if src != [] { FeedSteps(src, full); }
    if dst != [] && dst[0].Entry? { DstFeedSteps(dst, dfull); }
  }
}

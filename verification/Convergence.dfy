/** What a whole run achieves: carrying out its tasks, in any order, leaves nothing for a second run. */
module Convergence {
  import opened Keys
  import opened Producer
  import opened MergeJoin

  /** The default policy: compare by presence and size, handle directories, no other flag set. */
  predicate Plain(c: Config) {
    && c.dirs && !c.gate && !c.update && !c.forceUpdate && !c.existing && !c.ignoreExisting
    && !c.checkAll && !c.perms && !c.deleteSrc
  }

  /** `ds` is the sorted listing of the store `m`. */
  ghost predicate Lists(ds: seq<Obj>, m: map<Key, Obj>) {
    && Sorted(ds)
    && (forall i :: 0 <= i < |ds| ==> ds[i].key in m && m[ds[i].key] == ds[i])
    && (forall k :: k in m ==> exists i :: 0 <= i < |ds| && ds[i].key == k)
  }

  ghost predicate Copied(t: seq<Action>, k: Key) {
    exists i :: 0 <= i < |t| && t[i] == Send(k, Copy)
  }

  /** The destination once every task of `t` has succeeded; no order among the tasks is assumed.
      A copy stores the size it read, but may stamp its own time and permissions. */
  ghost predicate CarriedOut(t: seq<Action>, src: seq<Obj>, before: map<Key, Obj>, after: map<Key, Obj>) {
    forall k: Key ::
      if Copied(t, k) then
        var o := Lookup(src, k);
        k in after && after[k].key == k && (o.Some? ==> after[k].size == o.value.size)
      else if k in Deletions(t) then k !in after
      else (k in after <==> k in before) && (k in after ==> after[k] == before[k])
  }

  lemma {:induction false} SrcPartMembers(t: seq<Action>, a: Action)
    ensures a in SrcPart(t) <==> a in t && AboutSrc(a)
  {
    if t != [] { SrcPartMembers(t[1..], a); assert t == [t[0]] + t[1..]; }
  }

  lemma {:induction false} DeletionsMembers(t: seq<Action>, k: Key)
    ensures k in Deletions(t) <==> exists a :: a in t && Deletes(a) && a.key == k
  {
    if t != [] {
      DeletionsMembers(t[1..], k);
      assert t == [t[0]] + t[1..];
      if Deletes(t[0]) && t[0].key == k { assert t[0] in t; }
      if a :| a in t && Deletes(a) && a.key == k { assert a == t[0] || a in t[1..]; }
    }
  }

  lemma {:induction false} DoomedMembers(c: Config, live: set<Key>, ds: seq<Obj>, k: Key)
    ensures k in Doomed(c, live, ds) <==>
            k !in live && exists i :: 0 <= i < |ds| && ds[i].key == k && Deletable(c, ds[i])
  {
    if ds != [] {
      DoomedMembers(c, live, ds[1..], k);
      if i :| 0 <= i < |ds| && ds[i].key == k && Deletable(c, ds[i]) {
        if i > 0 { assert ds[1..][i-1] == ds[i]; }
      }
      if i :| 0 <= i < |ds[1..]| && ds[1..][i].key == k && Deletable(c, ds[1..][i]) {
        assert ds[i+1] == ds[1..][i];
      }
    }
  }

  lemma {:induction false} LookupUnique(ds: seq<Obj>, i: nat)
    requires Sorted(ds) && i < |ds|
    ensures Lookup(ds, ds[i].key) == Some(ds[i])
  {
    var d := Lookup(ds, ds[i].key).value;
    var j :| 0 <= j < |ds| && ds[j] == d;
    if j < i { LessIrreflexive(d.key); } else if i < j { LessIrreflexive(d.key); }
  }

  lemma {:induction false} LookupListed(ds: seq<Obj>, m: map<Key, Obj>, k: Key)
    requires Lists(ds, m)
    ensures Lookup(ds, k) == if k in m then Some(m[k]) else None
  {
    if i :| 0 <= i < |ds| && ds[i].key == k { LookupUnique(ds, i); }
  }

  lemma LiveIsAll(c: Config, src: seq<Obj>, k: Key)
    requires c.dirs
    ensures k in Live(c, Ungated(src)) <==> HasKey(src, k)
  {
    if i :| 0 <= i < |src| && src[i].key == k {
      assert Ungated(src)[i].item.obj.key == k;
    }
  }

  /** Which source keys the first run copies: those missing on the other side or of another size. */
  lemma {:induction false} CopiedExactly(c: Config, src: seq<Obj>, ds: seq<Obj>, k: Key)
    requires Plain(c) && Sorted(src) && Sorted(ds)
    ensures Copied(Merge(Ungated(src), Items(ds), c).trace, k) <==>
            exists i :: 0 <= i < |src| && src[i].key == k &&
                        (Lookup(ds, k) == None || Lookup(ds, k).value.size != src[i].size)
  {
    var t := Merge(Ungated(src), Items(ds), c).trace;
    SortedUngated(src);
    Exactness(Ungated(src), ds, c);
    SrcPartMembers(t, Send(k, Copy));
    if Copied(t, k) {
      var i :| 0 <= i < |src| && Fates(c, Ungated(src), ds)[i] == Send(k, Copy);
      assert src[i].key == k;
    }
    if i :| 0 <= i < |src| && src[i].key == k && (Lookup(ds, k) == None || Lookup(ds, k).value.size != src[i].size) {
      assert Fates(c, Ungated(src), ds)[i] == Send(k, Copy);
    }
  }

  lemma {:induction false} DeletedExactly(c: Config, src: seq<Obj>, ds: seq<Obj>, k: Key)
    requires Plain(c) && Sorted(src) && Sorted(ds)
    ensures k in Deletions(Merge(Ungated(src), Items(ds), c).trace) <==>
            c.deleteDst && c.checkpointKey != Some(k) && !HasKey(src, k) && HasKey(ds, k)
  {
    SortedUngated(src);
    Exactness(Ungated(src), ds, c);
    DoomedMembers(c, Live(c, Ungated(src)), ds, k);
    LiveIsAll(c, src, k);
    if HasKey(ds, k) { var i :| 0 <= i < |ds| && ds[i].key == k; }
  }

  /** After a run whose tasks all succeed, a second run over the same source finds nothing to send,
      and with delete-dst the two key sets agree, save for the checkpoint object. */
  lemma {:induction false} SecondRunIsIdle(c: Config, src: seq<Obj>, ds: seq<Obj>, before: map<Key, Obj>,
                        after: map<Key, Obj>, ds2: seq<Obj>)
    requires Plain(c) && Sorted(src)
    requires Lists(ds, before) && Lists(ds2, after)
    requires CarriedOut(Merge(Ungated(src), Items(ds), c).trace, src, before, after)
    ensures forall a :: a in Merge(Ungated(src), Items(ds2), c).trace ==> a.Skip? || a.Extra?
    ensures c.deleteDst ==> forall k :: c.checkpointKey != Some(k) ==> (k in after <==> HasKey(src, k))
  {
    var t := Merge(Ungated(src), Items(ds), c).trace;
    forall i | 0 <= i < |src|
      ensures Lookup(ds2, src[i].key).Some? && Lookup(ds2, src[i].key).value.size == src[i].size
    {
      var k := src[i].key;
      CopiedExactly(c, src, ds, k);
      DeletedExactly(c, src, ds, k);
      LookupListed(ds, before, k);
      LookupListed(ds2, after, k);
      LookupUnique(src, i);
    }
    forall k | c.deleteDst && c.checkpointKey != Some(k) ensures k in after <==> HasKey(src, k) {
      CopiedExactly(c, src, ds, k);
      DeletedExactly(c, src, ds, k);
      LookupListed(ds, before, k);
      LookupListed(ds2, after, k);
      if HasKey(src, k) { var i :| 0 <= i < |src| && src[i].key == k; }
    }
    SecondTrace(c, src, ds2, after);
  }

  lemma {:induction false} SecondTrace(c: Config, src: seq<Obj>, ds2: seq<Obj>, after: map<Key, Obj>)
    requires Plain(c) && Sorted(src) && Lists(ds2, after)
    requires forall i :: 0 <= i < |src| ==>
        Lookup(ds2, src[i].key).Some? && Lookup(ds2, src[i].key).value.size == src[i].size
    requires c.deleteDst ==> forall k :: c.checkpointKey != Some(k) ==> (k in after <==> HasKey(src, k))
    ensures forall a :: a in Merge(Ungated(src), Items(ds2), c).trace ==> a.Skip? || a.Extra?
  {
    var t := Merge(Ungated(src), Items(ds2), c).trace;
    SortedUngated(src);
    Exactness(Ungated(src), ds2, c);
    forall a | a in t ensures a.Skip? || a.Extra? {
      SrcPartMembers(t, a);
      if AboutSrc(a) {
        var i :| 0 <= i < |src| && Fates(c, Ungated(src), ds2)[i] == a;
      } else if Deletes(a) {
        DeletionsMembers(t, a.key);
        DeletedExactly(c, src, ds2, a.key);
      }
    }
  }

  // ---- Deleting the source -----------------------------------------------------------------------

  /** Actions that delete a source object without looking at the destination again. */
  predicate DeletesSource(a: Action) {
    a.DelaySrc? || (a.Send? && a.kind == DeleteSrc)
  }

  /** The flags and times under which objects of different size count as equal. */
  predicate TakenForEqual(c: Config, o: Obj, d: Obj, rec: Option<Record>) {
    && !c.ignoreExisting && !c.checkAll
    && if c.gate
       then c.forceUpdate ||
              (d.mtime < o.mtime && !(rec.Some? && rec.value.success && o.mtime / SECOND <= rec.value.mtime / SECOND))
       else c.update && !c.forceUpdate && o.mtime / SECOND == d.mtime / SECOND
  }

  /** With --delete-src, a source object whose destination copy has another size is deleted exactly if the second
      gate lets it through, or without gates if --update finds both of the same second. */
  lemma {:induction false} SourceDeletedUnequalIff(c: Config, src: seq<Gated>, ds: seq<Obj>, i: nat)
    requires Clean(src) && SortedSrc(src) && Sorted(ds) && i < |src| && !Ignored(c, src[i].item.obj)
    requires var d := Lookup(ds, src[i].item.obj.key); d.Some? && d.value.size != src[i].item.obj.size
    ensures var o := src[i].item.obj;
            var fates := SrcPart(Merge(src, Items(ds), c).trace);
            |fates| == |src| && (DeletesSource(fates[i]) <==>
                c.deleteSrc && TakenForEqual(c, o, Lookup(ds, o.key).value, src[i].rec))
  {
    Exactness(src, ds, c);
  }

  /** So without gates and --update a source object is deleted only if the destination has one of the same key
      and size. */
  lemma {:induction false} SourceDeletedIfEqual(c: Config, src: seq<Gated>, ds: seq<Obj>, i: nat)
    requires Clean(src) && SortedSrc(src) && Sorted(ds) && i < |src| && !c.gate && !c.update
    ensures var o := src[i].item.obj;
            var fates := SrcPart(Merge(src, Items(ds), c).trace);
            |fates| == |src| && (DeletesSource(fates[i]) ==>
              Lookup(ds, o.key).Some? && Lookup(ds, o.key).value.size == o.size && c.deleteSrc)
  {
    Exactness(src, ds, c);
  }

  // ---- The gates -------------------------------------------------------------------------------

  /** With the gates on and no forced update, a destination object at least as new as the source one
      is never overwritten, re-marked or used to justify deleting the source, whatever the other
      flags and whatever the gate table says. */
  lemma {:induction false} GateProtectsNewer(src: seq<Gated>, ds: seq<Obj>, c: Config, i: nat)
    requires Clean(src) && SortedSrc(src) && Sorted(ds) && i < |src|
    requires c.gate && !c.forceUpdate && !Ignored(c, src[i].item.obj)
    requires Lookup(ds, src[i].item.obj.key).Some?
    requires Lookup(ds, src[i].item.obj.key).value.mtime >= src[i].item.obj.mtime
    ensures var fates := SrcPart(Merge(src, Items(ds), c).trace); |fates| == |src| && fates[i].Skip?
  {
    Exactness(src, ds, c);
  }
}

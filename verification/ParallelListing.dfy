/** Listing directory by directory, in parallel, decides the same as one flat listing. */
module ParallelListing {
  import opened Keys
  import opened Producer
  import opened MergeJoin
  import opened Listing
  import D = Decisions
  import C = Convergence
  import Filters
  import DirTree

  /** What a run is asked to do: the flags, the gate table and the filter. */
  datatype Job = Job(c: Config, db: Key -> Option<Record>, keep: Obj -> bool)

  /** The work a producer hands out, whatever its order: decisions on source keys and deletions. */
  datatype Work = Work(decisions: multiset<Action>, deletions: multiset<Key>)

  function Sum(a: Work, b: Work): Work {
    Work(a.decisions + b.decisions, a.deletions + b.deletions)
  }

  const NOTHING: Work := Work(multiset{}, multiset{})

  function Gate(j: Job, src: seq<Obj>): (g: seq<Gated>)
    ensures |g| == |src| && forall i :: 0 <= i < |g| ==> g[i] == Gated(Entry(src[i]), j.db(src[i].key))
  {
    seq(|src|, i requires 0 <= i < |src| => Gated(Entry(src[i]), j.db(src[i].key)))
  }

  function AllItems(ds: seq<Obj>): (r: seq<Item>)
    ensures r == Items(ds)
  {
    seq(|ds|, i requires 0 <= i < |ds| => Entry(ds[i]))
  }

  function WorkOf(t: seq<Action>): Work {
    Work(multiset(SrcPart(t)), multiset(Deletions(t)))
  }

  /** The work of one producer over two flat listings. */
  ghost function FlatRun(j: Job, src: seq<Obj>, dst: seq<Obj>): Work {
    WorkOf(Merge(Gate(j, Kept(src, j.keep)), Items(Kept(dst, j.keep)), j.c).trace)
  }

  method ProduceAll(j: Job, src: seq<Obj>, dst: seq<Obj>) returns (w: Work)
    ensures w == FlatRun(j, src, dst)
  {
    var trace, ok := Produce(Gate(j, Kept(src, j.keep)), AllItems(Kept(dst, j.keep)), j.c);
    w := WorkOf(trace);
  }

  // ---- The same work, key by key -----------------------------------------------------------------------

  ghost function FateOf(j: Job, o: Obj, dst: seq<Obj>): Action {
    Fate(j.c, Gated(Entry(o), j.db(o.key)), Kept(dst, j.keep))
  }

  ghost function Decisions(j: Job, src: seq<Obj>, dst: seq<Obj>): multiset<Action> {
    if src == [] then multiset{}
    else (if j.keep(src[0]) then multiset{FateOf(j, src[0], dst)} else multiset{}) + Decisions(j, src[1..], dst)
  }

  ghost predicate Alive(j: Job, src: seq<Obj>, k: Key) {
    exists o :: o in src && j.keep(o) && !Ignored(j.c, o) && o.key == k
  }

  ghost predicate Dies(j: Job, src: seq<Obj>, d: Obj) {
    j.keep(d) && Deletable(j.c, d) && !Alive(j, src, d.key)
  }

  ghost function Deaths(j: Job, src: seq<Obj>, dst: seq<Obj>): multiset<Key> {
    if dst == [] then multiset{}
    else (if Dies(j, src, dst[0]) then multiset{dst[0].key} else multiset{}) + Deaths(j, src, dst[1..])
  }

  ghost function WorkOn(j: Job, src: seq<Obj>, dst: seq<Obj>): Work {
    Work(Decisions(j, src, dst), Deaths(j, src, dst))
  }

  lemma FatesCons(j: Job, o: Obj, rest: seq<Obj>, ds: seq<Obj>)
    ensures multiset(Fates(j.c, Gate(j, [o] + rest), ds)) ==
            multiset{Fate(j.c, Gated(Entry(o), j.db(o.key)), ds)} + multiset(Fates(j.c, Gate(j, rest), ds))
  {
    var g := Gate(j, [o] + rest);
    hide Fate;
    assert g[0] == Gated(Entry(o), j.db(o.key)) && g[1..] == Gate(j, rest);
    FatesHead(j.c, g, ds);
  }

  lemma {:induction false} DecisionsAreFates(j: Job, src: seq<Obj>, dst: seq<Obj>)
    ensures multiset(Fates(j.c, Gate(j, Kept(src, j.keep)), Kept(dst, j.keep))) == Decisions(j, src, dst)
  {
    hide Fates, Fate;
    if src == [] {
      NoFates(j, Kept(dst, j.keep));
    } else {
      DecisionsAreFates(j, src[1..], dst);
      KeptHead(src, j.keep);
      if j.keep(src[0]) { FatesCons(j, src[0], Kept(src[1..], j.keep), Kept(dst, j.keep)); }
    }
  }

  lemma NoFates(j: Job, ds: seq<Obj>)
    ensures Fates(j.c, Gate(j, []), ds) == []
  {}

  lemma {:induction false} LiveIsAlive(j: Job, src: seq<Obj>, k: Key)
    ensures k in Live(j.c, Gate(j, Kept(src, j.keep))) <==> Alive(j, src, k)
  {
    var s := Kept(src, j.keep);
    if Alive(j, src, k) {
      var o :| o in src && j.keep(o) && !Ignored(j.c, o) && o.key == k;
      KeptIsSubset(src, j.keep, o);
      var i :| 0 <= i < |s| && s[i] == o;
      assert Gate(j, s)[i].item.obj == o;
    }
    if k in Live(j.c, Gate(j, s)) {
      var i :| 0 <= i < |s| && !Ignored(j.c, Gate(j, s)[i].item.obj) && Gate(j, s)[i].item.obj.key == k;
      KeptIsSubset(src, j.keep, s[i]);
    }
  }

  lemma {:induction false} DoomedCons(c: Config, live: set<Key>, d: Obj, rest: seq<Obj>)
    ensures multiset(Doomed(c, live, [d] + rest)) ==
            (if d.key !in live && Deletable(c, d) then multiset{d.key} else multiset{})
            + multiset(Doomed(c, live, rest))
  {
    assert ([d] + rest)[1..] == rest;
  }

  lemma {:induction false} DeathsAreDoomed(j: Job, src: seq<Obj>, dst: seq<Obj>, live: set<Key>)
    requires forall k :: k in live <==> Alive(j, src, k)
    ensures multiset(Doomed(j.c, live, Kept(dst, j.keep))) == Deaths(j, src, dst)
  {
    hide Alive;
    if dst == [] {
    } else {
      DeathsAreDoomed(j, src, dst[1..], live);
      KeptHead(dst, j.keep);
      if j.keep(dst[0]) { DoomedCons(j.c, live, dst[0], Kept(dst[1..], j.keep)); }
    }
  }

  /** One flat producer does the work of a lookup per key. */
  lemma FlatWork(j: Job, src: seq<Obj>, dst: seq<Obj>)
    requires Sorted(src) && Sorted(dst)
    ensures FlatRun(j, src, dst) == WorkOn(j, src, dst)
  {
    KeptSorted(src, j.keep);
    KeptSorted(dst, j.keep);
    var g := Gate(j, Kept(src, j.keep));
    Exactness(g, Kept(dst, j.keep), j.c);
    DecisionsAreFates(j, src, dst);
    forall k ensures k in Live(j.c, g) <==> Alive(j, src, k) { LiveIsAlive(j, src, k); }
    DeathsAreDoomed(j, src, dst, Live(j.c, g));
  }

  lemma {:induction false} InFlatRun(j: Job, src: seq<Obj>, dst: seq<Obj>, a: Action)
    ensures a in FlatRun(j, src, dst).decisions <==>
            a in Merge(Gate(j, Kept(src, j.keep)), Items(Kept(dst, j.keep)), j.c).trace && AboutSrc(a)
  {
    C.SrcPartMembers(Merge(Gate(j, Kept(src, j.keep)), Items(Kept(dst, j.keep)), j.c).trace, a);
  }

  /** What that work is, for each kept source object: the action that the flags call for. */
  lemma {:induction false} FlatMeans(j: Job, src: seq<Obj>, dst: seq<Obj>, o: Obj)
    requires Sorted(src) && Sorted(dst) && o in src && j.keep(o)
    ensures var w, k, d, rec := FlatRun(j, src, dst), o.key, Lookup(Kept(dst, j.keep), o.key), j.db(o.key);
      && (Ignore(k) in w.decisions <==> D.PassedOver(j.c, o))
      && (Send(k, Copy) in w.decisions <==> D.Copies(j.c, o, d, rec))
      && (Send(k, Checksum) in w.decisions <==> D.Checks(j.c, o, d, rec))
      && (Send(k, DeleteSrc) in w.decisions <==> D.RemovesSource(j.c, o, d, rec) && !o.isDir)
      && (DelaySrc(k) in w.decisions <==> D.RemovesSource(j.c, o, d, rec) && o.isDir)
      && (Send(k, CopyPerms) in w.decisions <==> D.CopiesPerms(j.c, o, d, rec))
  {
    hide FlatRun, Merge, D.PassedOver, D.Copies, D.Checks, D.RemovesSource, D.CopiesPerms, D.Protects;
    var kept, k := Kept(src, j.keep), o.key;
    var g := Gate(j, kept);
    KeptIsSubset(src, j.keep, o);
    KeptSorted(src, j.keep);
    KeptSorted(dst, j.keep);
    var i :| 0 <= i < |kept| && kept[i] == o;
    D.DecidedIff(j.c, g, Kept(dst, j.keep), i);
    InFlatRun(j, src, dst, Ignore(k));
    InFlatRun(j, src, dst, Send(k, Copy));
    InFlatRun(j, src, dst, Send(k, Checksum));
    InFlatRun(j, src, dst, Send(k, DeleteSrc));
    InFlatRun(j, src, dst, DelaySrc(k));
    InFlatRun(j, src, dst, Send(k, CopyPerms));
  }

  /** The work names only kept source objects and is no more than one action for each. */
  lemma {:induction false} FlatNames(j: Job, src: seq<Obj>, dst: seq<Obj>)
    requires Sorted(src) && Sorted(dst)
    ensures var w := FlatRun(j, src, dst);
      && |w.decisions| == |Kept(src, j.keep)|
      && forall a :: a in w.decisions ==> exists o :: o in src && j.keep(o) && a.key == o.key
  {
    hide Merge;
    var kept, dkept := Kept(src, j.keep), Kept(dst, j.keep);
    var g := Gate(j, kept);
    var t := SrcPart(Merge(g, Items(dkept), j.c).trace);
    KeptSorted(src, j.keep);
    KeptSorted(dst, j.keep);
    D.OneEach(j.c, g, dkept);
    forall a | a in t ensures exists o :: o in src && j.keep(o) && a.key == o.key {
      var i :| 0 <= i < |t| && t[i] == a;
      KeptIsSubset(src, j.keep, kept[i]);
    }
  }

  /** It deletes what is kept on the destination, may be deleted and is no key of a kept source object that
      counts. */
  lemma FlatDeletes(j: Job, src: seq<Obj>, dst: seq<Obj>, k: Key)
    requires Sorted(src) && Sorted(dst)
    ensures k in FlatRun(j, src, dst).deletions <==>
            && j.c.deleteDst && j.c.checkpointKey != Some(k)
            && (exists d :: d in dst && d.key == k && j.keep(d) && (d.isDir ==> j.c.dirs))
            && !exists o :: o in src && o.key == k && j.keep(o) && !D.PassedOver(j.c, o)
  {
    hide Merge, Live, Doomed;
    var kept, dkept := Kept(src, j.keep), Kept(dst, j.keep);
    var g := Gate(j, kept);
    KeptSorted(src, j.keep);
    KeptSorted(dst, j.keep);
    Exactness(g, dkept, j.c);
    C.DoomedMembers(j.c, Live(j.c, g), dkept, k);
    LiveIsAlive(j, src, k);
    SomeDeletable(j, dst, k);
  }

  lemma {:induction false} SomeDeletable(j: Job, dst: seq<Obj>, k: Key)
    ensures var dkept := Kept(dst, j.keep);
      (exists i :: 0 <= i < |dkept| && dkept[i].key == k && Deletable(j.c, dkept[i])) <==>
      j.c.deleteDst && j.c.checkpointKey != Some(k)
      && exists d :: d in dst && d.key == k && j.keep(d) && (d.isDir ==> j.c.dirs)
  {
    var dkept := Kept(dst, j.keep);
    if d :| d in dst && d.key == k && j.keep(d) && (d.isDir ==> j.c.dirs) {
      KeptIsSubset(dst, j.keep, d);
      var i :| 0 <= i < |dkept| && dkept[i] == d;
    }
    if i :| 0 <= i < |dkept| && dkept[i].key == k && Deletable(j.c, dkept[i]) {
      KeptIsSubset(dst, j.keep, dkept[i]);
    }
  }

  // ---- Work splits along any division of the keys ---------------------------------------------------------

  function Within(ds: seq<Obj>, p: Key -> bool): seq<Obj> {
    Kept(ds, (o: Obj) => p(o.key))
  }

  lemma WithinHead(ds: seq<Obj>, p: Key -> bool)
    ensures ds == [] ==> Within(ds, p) == []
    ensures ds != [] ==> Within(ds, p) == if p(ds[0].key) then [ds[0]] + Within(ds[1..], p) else Within(ds[1..], p)
  {}

  lemma {:induction false} LookupWithin(j: Job, dst: seq<Obj>, p: Key -> bool, k: Key)
    requires p(k)
    ensures Lookup(Kept(Within(dst, p), j.keep), k) == Lookup(Kept(dst, j.keep), k)
  {
    hide Kept, Lookup, Within;
    WithinHead(dst, p);
    if dst != [] {
      LookupWithin(j, dst[1..], p, k);
      KeptHead(dst, j.keep);
      LookupCons(dst[0], Kept(dst[1..], j.keep), k);
      if p(dst[0].key) {
        KeptCons(dst[0], Within(dst[1..], p), j.keep);
        LookupCons(dst[0], Kept(Within(dst[1..], p), j.keep), k);
      }
    }
  }

  lemma {:induction false} KeptHead(ds: seq<Obj>, keep: Obj -> bool)
    requires ds != []
    ensures Kept(ds, keep) == if keep(ds[0]) then [ds[0]] + Kept(ds[1..], keep) else Kept(ds[1..], keep)
  {}

  lemma {:induction false} KeptCons(d: Obj, ds: seq<Obj>, keep: Obj -> bool)
    ensures Kept([d] + ds, keep) == if keep(d) then [d] + Kept(ds, keep) else Kept(ds, keep)
  {
    assert ([d] + ds)[1..] == ds;
  }

  lemma {:induction false} LookupCons(d: Obj, ds: seq<Obj>, k: Key)
    ensures Lookup([d] + ds, k) == if d.key == k then Some(d) else Lookup(ds, k)
  {
    assert ([d] + ds)[1..] == ds;
  }

  lemma WithinIs(ds: seq<Obj>, p: Key -> bool)
    ensures forall o :: o in Within(ds, p) <==> o in ds && p(o.key)
    ensures Sorted(ds) ==> Sorted(Within(ds, p))
  {
    var keep := (o: Obj) => p(o.key);
    assert Within(ds, p) == Kept(ds, keep);
    forall o ensures o in Within(ds, p) <==> o in ds && p(o.key) { KeptIsSubset(ds, keep, o); }
    if Sorted(ds) { KeptSorted(ds, keep); }
  }

  lemma AliveWithin(j: Job, src: seq<Obj>, p: Key -> bool, k: Key)
    requires p(k)
    ensures Alive(j, Within(src, p), k) <==> Alive(j, src, k)
  {
    WithinIs(src, p);
  }

  lemma {:induction false} DecisionsSplit(j: Job, src: seq<Obj>, dst: seq<Obj>, p: Key -> bool, q: Key -> bool)
    requires forall k :: q(k) <==> !p(k)
    ensures Decisions(j, src, dst) ==
            Decisions(j, Within(src, p), Within(dst, p)) + Decisions(j, Within(src, q), Within(dst, q))
  {
    hide Within, Fate;
    WithinHead(src, p);
    WithinHead(src, q);
    if src != [] {
      DecisionsSplit(j, src[1..], dst, p, q);
      var k := src[0].key;
      if p(k) { LookupWithin(j, dst, p, k); } else { LookupWithin(j, dst, q, k); }
      SameFate(j, src[0], dst, if p(k) then Within(dst, p) else Within(dst, q));
      DecisionsCons(j, src[0], Within(src[1..], if p(k) then p else q),
                    if p(k) then Within(dst, p) else Within(dst, q));
    }
  }

  lemma {:induction false} SameFate(j: Job, o: Obj, dst: seq<Obj>, dst': seq<Obj>)
    requires Lookup(Kept(dst, j.keep), o.key) == Lookup(Kept(dst', j.keep), o.key)
    ensures FateOf(j, o, dst) == FateOf(j, o, dst')
  {}

  lemma {:induction false} DecisionsCons(j: Job, o: Obj, src: seq<Obj>, dst: seq<Obj>)
    ensures Decisions(j, [o] + src, dst) ==
            (if j.keep(o) then multiset{FateOf(j, o, dst)} else multiset{}) + Decisions(j, src, dst)
  {
    assert ([o] + src)[1..] == src;
  }

  lemma {:induction false} DeathsSplit(j: Job, src: seq<Obj>, dst: seq<Obj>, p: Key -> bool, q: Key -> bool)
    requires forall k :: q(k) <==> !p(k)
    ensures Deaths(j, src, dst) == Deaths(j, Within(src, p), Within(dst, p)) + Deaths(j, Within(src, q), Within(dst, q))
  {
    hide Within, Alive;
    WithinHead(dst, p);
    WithinHead(dst, q);
    if dst != [] {
      DeathsSplit(j, src, dst[1..], p, q);
      var k := dst[0].key;
      if p(k) {
        AliveWithin(j, src, p, k);
        DeathsCons(j, Within(src, p), dst[0], Within(dst[1..], p));
      } else {
        AliveWithin(j, src, q, k);
        DeathsCons(j, Within(src, q), dst[0], Within(dst[1..], q));
      }
    }
  }

  lemma {:induction false} DeathsCons(j: Job, src: seq<Obj>, d: Obj, dst: seq<Obj>)
    ensures Deaths(j, src, [d] + dst) == (if Dies(j, src, d) then multiset{d.key} else multiset{}) + Deaths(j, src, dst)
  {
    assert ([d] + dst)[1..] == dst;
  }

  /** Keys that are looked at apart need nothing from each other. */
  lemma WorkSplit(j: Job, src: seq<Obj>, dst: seq<Obj>, p: Key -> bool, q: Key -> bool)
    requires forall k :: q(k) <==> !p(k)
    ensures WorkOn(j, src, dst) ==
            Sum(WorkOn(j, Within(src, p), Within(dst, p)), WorkOn(j, Within(src, q), Within(dst, q)))
  {
    DecisionsSplit(j, src, dst, p, q);
    DeathsSplit(j, src, dst, p, q);
  }

  // ---- Listing with a delimiter -------------------------------------------------------------------------------

  /** The common prefix under which a delimited listing of p shows k, or None when it shows k itself. */
  function Class(p: Key, k: Key): Option<Key> {
    if !(p <= k) then None
    else
      var i := DirTree.IndexOf(k[|p|..], '/');
      if i < 0 then None else Some(k[..|p| + i + 1])
  }

  function Here(p: Key): Key -> bool {
    k => Class(p, k).None?
  }

  function In(q: Key): Key -> bool {
    k => q <= k
  }

  function NotIn(q: Key): Key -> bool {
    k => !(q <= k)
  }

  /** The keys below common prefixes of p that are not among those dealt with. */
  function Left(p: Key, processing: set<Key>): Key -> bool {
    k => Class(p, k).Some? && Class(p, k).value !in processing
  }

  /** q is a directory right below p. */
  predicate Child(p: Key, q: Key) {
    p <= q && |p| < |q| && q[|q| - 1] == '/' && '/' !in q[|p|..|q| - 1]
  }

  lemma {:induction false} FirstIs(s: Key, c: char, n: nat)
    requires n < |s| && s[n] == c && c !in s[..n]
    ensures DirTree.IndexOf(s, c) == n
  {
    if n > 0 {
      assert s[..n][0] == s[0] && s[..n][1..] == s[1..][..n - 1];
      FirstIs(s[1..], c, n - 1);
    }
  }

  lemma ClassIs(p: Key, q: Key, k: Key)
    requires p <= k && Child(p, q)
    ensures Class(p, k) == Some(q) <==> q <= k
  {
    var rest := k[|p|..];
    var i := DirTree.IndexOf(rest, '/');
    if q <= k {
      var n := |q| - |p| - 1;
      assert rest[n] == q[|q| - 1] == '/' && rest[..n] == q[|p|..|q| - 1];
      FirstIs(rest, '/', n);
      assert i == n && k[..|p| + i + 1] == q;
    } else if i >= 0 {
      assert k[..|p| + i + 1] <= k;
    }
  }

  /** The directories right below p are the common prefixes that keys can be shown under. */
  lemma ChildIff(p: Key, q: Key)
    ensures Child(p, q) <==> exists k: Key :: Class(p, k) == Some(q)
  {
    if Child(p, q) { ClassIs(p, q, q); }
    if k: Key :| Class(p, k) == Some(q) {
      ClassEnds(p, k);
      var i := DirTree.IndexOf(k[|p|..], '/');
      assert q == k[..|p| + i + 1] && q[|p|..|q| - 1] == k[|p|..][..i];
    }
  }

  /** What the delimited listings of a store report: every prefix that has keys, once or several times,
      from the source and, when extras are to be deleted, from the destination. */
  ghost predicate Covers(j: Job, arrive: Key -> seq<Key>, src: seq<Obj>, dst: seq<Obj>) {
    && (forall p: Key, o: Obj :: o in src && Class(p, o.key).Some? ==> Class(p, o.key).value in arrive(p))
    && (j.c.deleteDst ==> forall p: Key, o: Obj :: o in dst && Class(p, o.key).Some? ==>
        Class(p, o.key).value in arrive(p))
    && (forall p: Key, q: Key :: q in arrive(p) ==> Child(p, q))
  }

  ghost predicate AllUnder(p: Key, ds: seq<Obj>) {
    forall o :: o in ds ==> p <= o.key
  }

  lemma {:induction false} WithinWithin(ds: seq<Obj>, a: Key -> bool, b: Key -> bool, both: Key -> bool)
    requires forall o :: o in ds ==> (both(o.key) <==> a(o.key) && b(o.key))
    ensures Within(Within(ds, a), b) == Within(ds, both)
  {
    hide Within;
    WithinHead(ds, a);
    WithinHead(ds, both);
    if ds == [] {
      WithinHead(Within(ds, a), b);
    } else {
      WithinWithin(ds[1..], a, b, both);
      WithinHead([ds[0]] + Within(ds[1..], a), b);
      assert ([ds[0]] + Within(ds[1..], a))[1..] == Within(ds[1..], a);
    }
  }

  /** Taking one more prefix out of what is left. */
  lemma TakeOut(p: Key, q: Key, processing: set<Key>, ds: seq<Obj>)
    requires AllUnder(p, ds) && Child(p, q) && q !in processing
    ensures Within(Within(ds, Left(p, processing)), In(q)) == Within(ds, In(q))
    ensures Within(Within(ds, Left(p, processing)), NotIn(q)) == Within(ds, Left(p, processing + {q}))
  {
    forall o | o in ds ensures Class(p, o.key) == Some(q) <==> q <= o.key { ClassIs(p, q, o.key); }
    WithinWithin(ds, Left(p, processing), In(q), In(q));
    WithinWithin(ds, Left(p, processing), NotIn(q), Left(p, processing + {q}));
  }

  // ---- Nothing is lost -------------------------------------------------------------------------------------------

  lemma {:induction false} NoDecisions(j: Job, src: seq<Obj>, dst: seq<Obj>)
    requires forall o :: o in src ==> !j.keep(o)
    ensures Decisions(j, src, dst) == multiset{}
  {
    if src != [] { NoDecisions(j, src[1..], dst); }
  }

  lemma {:induction false} NoDeaths(j: Job, src: seq<Obj>, dst: seq<Obj>)
    requires forall o :: o in dst ==> !j.keep(o) || !j.c.deleteDst
    ensures Deaths(j, src, dst) == multiset{}
  {
    if dst != [] { NoDeaths(j, src, dst[1..]); }
  }

  lemma NoWork(j: Job, src: seq<Obj>, dst: seq<Obj>)
    requires forall o :: o in src ==> !j.keep(o)
    requires forall o :: o in dst ==> !j.keep(o) || !j.c.deleteDst
    ensures WorkOn(j, src, dst) == NOTHING
  {
    NoDecisions(j, src, dst);
    NoDeaths(j, src, dst);
  }

  lemma Sums(a: Work, b: Work, c: Work)
    ensures Sum(Sum(a, b), c) == Sum(a, Sum(b, c)) && Sum(NOTHING, a) == a && Sum(a, NOTHING) == a
  {}

  /** Once every reported prefix has been dealt with, no work is left. */
  lemma NoneLeft(j: Job, arrive: Key -> seq<Key>, p: Key, src: seq<Obj>, dst: seq<Obj>, processing: set<Key>)
    requires Covers(j, arrive, src, dst) && forall q :: q in arrive(p) ==> q in processing
    ensures WorkOn(j, Within(src, Left(p, processing)), Within(dst, Left(p, processing))) == NOTHING
  {
    WithinIs(src, Left(p, processing));
    WithinIs(dst, Left(p, processing));
    NoWork(j, Within(src, Left(p, processing)), Within(dst, Left(p, processing)));
  }

  lemma CoversWithin(j: Job, arrive: Key -> seq<Key>, q: Key, src: seq<Obj>, dst: seq<Obj>)
    requires Covers(j, arrive, src, dst)
    ensures Covers(j, arrive, Within(src, In(q)), Within(dst, In(q)))
    ensures AllUnder(q, Within(src, In(q))) && AllUnder(q, Within(dst, In(q)))
  {
    WithinIs(src, In(q));
    WithinIs(dst, In(q));
  }

  /** The work on the objects that a delimited listing shows, and on the rest. */
  lemma HereAndLeft(j: Job, p: Key, src: seq<Obj>, dst: seq<Obj>)
    ensures WorkOn(j, src, dst) == Sum(WorkOn(j, Within(src, Here(p)), Within(dst, Here(p))),
                                       WorkOn(j, Within(src, Left(p, {})), Within(dst, Left(p, {}))))
  {
    WorkSplit(j, src, dst, Here(p), Left(p, {}));
  }

  ghost function LeftWork(j: Job, p: Key, processing: set<Key>, src: seq<Obj>, dst: seq<Obj>): Work {
    WorkOn(j, Within(src, Left(p, processing)), Within(dst, Left(p, processing)))
  }

  /** What is left before and after a prefix is dealt with. */
  lemma LeftStep(j: Job, p: Key, q: Key, processing: set<Key>, src: seq<Obj>, dst: seq<Obj>)
    requires AllUnder(p, src) && AllUnder(p, dst) && Child(p, q) && q !in processing
    ensures LeftWork(j, p, processing, src, dst) ==
            Sum(WorkOn(j, Within(src, In(q)), Within(dst, In(q))), LeftWork(j, p, processing + {q}, src, dst))
  {
    hide WorkOn, Within;
    TakeOut(p, q, processing, src);
    TakeOut(p, q, processing, dst);
    WorkSplit(j, Within(src, Left(p, processing)), Within(dst, Left(p, processing)), In(q), NotIn(q));
  }

  // ---- What the walk reaches -----------------------------------------------------------------------------------

  /** A key that is below no excluded prefix among those that a walk from p down to the depth comes to. */
  ghost predicate Reaches(g: Filters.Glob, rules: seq<Filters.Rule>, p: Key, depth: nat, k: Key)
    decreases depth
  {
    depth > 0 && Class(p, k).Some? ==>
      Filters.LeveledPath(g, rules, Class(p, k).value) && Reaches(g, rules, Class(p, k).value, depth - 1, k)
  }

  ghost function Reached(g: Filters.Glob, rules: seq<Filters.Rule>, p: Key, depth: nat): Key -> bool {
    k => Reaches(g, rules, p, depth, k)
  }

  ghost function Missed(g: Filters.Glob, rules: seq<Filters.Rule>, p: Key, depth: nat): Key -> bool {
    k => !Reaches(g, rules, p, depth, k)
  }

  /** The work on the keys that are reached. */
  ghost function WorkReached(j: Job, g: Filters.Glob, rules: seq<Filters.Rule>, p: Key, depth: nat, src: seq<Obj>,
                             dst: seq<Obj>): Work {
    WorkOn(j, Within(src, Reached(g, rules, p, depth)), Within(dst, Reached(g, rules, p, depth)))
  }

  /** Below an included child all is reached that is reached from the child, below an excluded one nothing. */
  lemma ReachedBelow(g: Filters.Glob, rules: seq<Filters.Rule>, p: Key, q: Key, depth: nat, ds: seq<Obj>)
    requires depth > 0 && AllUnder(p, ds) && Child(p, q)
    ensures Within(Within(ds, Reached(g, rules, p, depth)), In(q)) ==
            if Filters.LeveledPath(g, rules, q) then Within(Within(ds, In(q)), Reached(g, rules, q, depth - 1)) else []
  {
    var r, both := Reached(g, rules, p, depth), (k: Key) => q <= k && Reaches(g, rules, p, depth, k);
    forall o | o in ds && q <= o.key ensures Class(p, o.key) == Some(q) { ClassIs(p, q, o.key); }
    WithinWithin(ds, r, In(q), both);
    if Filters.LeveledPath(g, rules, q) {
      WithinWithin(ds, In(q), Reached(g, rules, q, depth - 1), both);
    } else {
      NoneWithin(ds, both);
    }
  }

  lemma {:induction false} NoneWithin(ds: seq<Obj>, p: Key -> bool)
    requires forall o :: o in ds ==> !p(o.key)
    ensures Within(ds, p) == []
  {
    WithinHead(ds, p);
    if ds != [] { NoneWithin(ds[1..], p); }
  }

  /** What a delimited listing shows itself is always reached. */
  lemma HereIsReached(g: Filters.Glob, rules: seq<Filters.Rule>, p: Key, depth: nat, ds: seq<Obj>)
    ensures Within(Within(ds, Reached(g, rules, p, depth)), Here(p)) == Within(ds, Here(p))
    ensures depth == 0 ==> Within(ds, Reached(g, rules, p, depth)) == ds
  {
    WithinWithin(ds, Reached(g, rules, p, depth), Here(p), Here(p));
    if depth == 0 { AllWithin(ds, Reached(g, rules, p, depth)); }
  }

  lemma {:induction false} AllWithin(ds: seq<Obj>, p: Key -> bool)
    requires forall o :: o in ds ==> p(o.key)
    ensures Within(ds, p) == ds
  {
    WithinHead(ds, p);
    if ds != [] { AllWithin(ds[1..], p); }
  }

  lemma CoversReached(j: Job, arrive: Key -> seq<Key>, p: Key, f: Key -> bool, src: seq<Obj>, dst: seq<Obj>)
    requires Covers(j, arrive, src, dst) && AllUnder(p, src) && AllUnder(p, dst)
    ensures Covers(j, arrive, Within(src, f), Within(dst, f)) && AllUnder(p, Within(src, f))
        && AllUnder(p, Within(dst, f))
  {
    WithinIs(src, f);
    WithinIs(dst, f);
  }

  /** What the listings of the destination show: with --force-update it is not listed. */
  function Shown(j: Job, dst: seq<Obj>): seq<Obj> {
    if j.c.forceUpdate then [] else dst
  }

  /** One prefix: a single producer at the given depth, else its own objects and, each once, the prefixes
      below it that the rules do not exclude. Together they do the work of one producer over the keys all of whose
      directories down to the depth pass the rules, whatever the order in which prefixes are reported. */
  method StartProducer(j: Job, g: Filters.Glob, rules: seq<Filters.Rule>, p: Key, depth: nat, src: seq<Obj>,
                       dst: seq<Obj>, arrive: Key -> seq<Key>)
    returns (w: Work)
    requires Sorted(src) && Sorted(dst) && AllUnder(p, src) && AllUnder(p, dst) && Covers(j, arrive, src, dst)
    ensures w == WorkReached(j, g, rules, p, depth, src, Shown(j, dst))
    ensures var pass := Passing(g, rules, p, depth);
            w == FlatRun(j, Within(src, pass), if j.c.forceUpdate then [] else Within(dst, pass))
  {
    hide FlatRun, WorkReached, Covers;
    ShownIs(j, arrive, p, src, dst);
    WithinHead([], Passing(g, rules, p, depth));
    ReachedIsPassing(j, g, rules, p, depth, src, Shown(j, dst));
    w := ListPrefix(j, g, rules, p, depth, src, Shown(j, dst), arrive);
  }

  lemma ShownIs(j: Job, arrive: Key -> seq<Key>, p: Key, src: seq<Obj>, dst: seq<Obj>)
    requires Sorted(src) && Sorted(dst) && AllUnder(p, src) && AllUnder(p, dst) && Covers(j, arrive, src, dst)
    ensures Sorted(Shown(j, dst)) && AllUnder(p, Shown(j, dst)) && Covers(j, arrive, src, Shown(j, dst))
  {}

  method ListPrefix(j: Job, g: Filters.Glob, rules: seq<Filters.Rule>, p: Key, depth: nat, src: seq<Obj>,
                    dst: seq<Obj>, arrive: Key -> seq<Key>)
    returns (w: Work)
    requires Sorted(src) && Sorted(dst) && AllUnder(p, src) && AllUnder(p, dst) && Covers(j, arrive, src, dst)
    ensures w == WorkReached(j, g, rules, p, depth, src, dst)
    decreases depth, 1
  {
    hide FlatRun, Covers, WorkOn, Sorted, Within, LeftWork, Sum, Child, AllUnder, Reached, Filters.LeveledPath;
    HereIsReached(g, rules, p, depth, src);
    HereIsReached(g, rules, p, depth, dst);
    if depth == 0 {
      FlatWork(j, src, dst);
      w := ProduceAll(j, src, dst);
      return;
    }
    ghost var f := Reached(g, rules, p, depth);
    ghost var src', dst' := Within(src, f), Within(dst, f);
    CoversReached(j, arrive, p, f, src, dst);
    w := ProduceHere(j, p, src, dst, src', dst');
    var processing: set<Key>, i := {}, 0;
    while i < |arrive(p)|
      invariant 0 <= i <= |arrive(p)| && forall n :: 0 <= n < i ==> arrive(p)[n] in processing
      invariant Sum(w, LeftWork(j, p, processing, src', dst')) == WorkOn(j, src', dst')
    {
      var q := arrive(p)[i];
      i := i + 1;
      if q !in processing {
        ReportedIsChild(j, arrive, src, dst, p, q);
        LeftStep(j, p, q, processing, src', dst');
        var below := ListChild(j, g, rules, p, q, depth, src, dst, arrive);
        processing := processing + {q};
        Sums(w, below, LeftWork(j, p, processing, src', dst'));
        w := Sum(w, below);
      }
    }
    NoneLeftWork(j, arrive, p, src', dst', processing);
    Sums(w, NOTHING, NOTHING);
  }

  /** One prefix below: what it holds is listed on its own, or not at all if the rules exclude it. */
  method ListChild(j: Job, g: Filters.Glob, rules: seq<Filters.Rule>, p: Key, q: Key, depth: nat, src: seq<Obj>,
                   dst: seq<Obj>, arrive: Key -> seq<Key>)
    returns (w: Work)
    requires Sorted(src) && Sorted(dst) && AllUnder(p, src) && AllUnder(p, dst) && Covers(j, arrive, src, dst)
    requires depth > 0 && Child(p, q)
    ensures var f := Reached(g, rules, p, depth);
            w == WorkOn(j, Within(Within(src, f), In(q)), Within(Within(dst, f), In(q)))
    decreases depth, 0
  {
    hide FlatRun, Covers, WorkOn, Sorted, Within, Child, AllUnder, Reached, Filters.LeveledPath;
    ReachedBelow(g, rules, p, q, depth, src);
    ReachedBelow(g, rules, p, q, depth, dst);
    var included := Filters.MatchLeveledPath(g, rules, q);
    if included {
      CoversWithin(j, arrive, q, src, dst);
      WithinIs(src, In(q));
      WithinIs(dst, In(q));
      w := ListPrefix(j, g, rules, q, depth - 1, Within(src, In(q)), Within(dst, In(q)), arrive);
    } else {
      NoWork(j, [], []);
      w := NOTHING;
    }
  }

  /** The objects that the delimited listing itself shows. */
  method ProduceHere(j: Job, p: Key, src: seq<Obj>, dst: seq<Obj>, ghost src': seq<Obj>, ghost dst': seq<Obj>)
      returns (w: Work)
    requires Sorted(src) && Sorted(dst)
    requires Within(src', Here(p)) == Within(src, Here(p)) && Within(dst', Here(p)) == Within(dst, Here(p))
    ensures Sum(w, LeftWork(j, p, {}, src', dst')) == WorkOn(j, src', dst')
  {
    hide FlatRun, WorkOn, Sorted, Within, Sum;
    HereAndLeft(j, p, src', dst');
    WithinIs(src, Here(p));
    WithinIs(dst, Here(p));
    FlatWork(j, Within(src, Here(p)), Within(dst, Here(p)));
    w := ProduceAll(j, Within(src, Here(p)), Within(dst, Here(p)));
  }

  lemma NoneLeftWork(j: Job, arrive: Key -> seq<Key>, p: Key, src: seq<Obj>, dst: seq<Obj>, processing: set<Key>)
    requires Covers(j, arrive, src, dst) && forall q :: q in arrive(p) ==> q in processing
    ensures LeftWork(j, p, processing, src, dst) == NOTHING
  {
    hide Covers, WorkOn, Within;
    NoneLeft(j, arrive, p, src, dst, processing);
  }

  lemma ReportedIsChild(j: Job, arrive: Key -> seq<Key>, src: seq<Obj>, dst: seq<Obj>, p: Key, q: Key)
    requires Covers(j, arrive, src, dst) && q in arrive(p)
    ensures Child(p, q)
  {}

  // ---- Which keys are reached ---------------------------------------------------------------------------------------

  function Slashes(s: string): nat {
    if s == "" then 0 else (if s[0] == '/' then 1 else 0) + Slashes(s[1..])
  }

  lemma {:induction false} SlashesOfConcat(a: string, b: string)
    ensures Slashes(a + b) == Slashes(a) + Slashes(b)
  {
    if a == "" { assert a + b == b; } else { SlashesOfConcat(a[1..], b); assert (a + b)[1..] == a[1..] + b; }
  }

  lemma {:induction false} NoSlashes(s: string)
    ensures Slashes(s) == 0 <==> '/' !in s
  {
    if s != "" { NoSlashes(s[1..]); assert s == [s[0]] + s[1..]; }
  }

  /** None of the directories that the key lies in, from below p down to the depth, is excluded. */
  ghost predicate Passable(g: Filters.Glob, rules: seq<Filters.Rule>, p: Key, depth: nat, k: Key) {
    forall n: nat :: IsDirWithin(p, depth, k, n) ==> Filters.Passes(g, rules, k[..n])
  }

  /** The first n characters of the key are a directory below p, no more than `depth` levels down. */
  predicate IsDirWithin(p: Key, depth: nat, k: Key, n: nat) {
    |p| < n <= |k| && k[n - 1] == '/' && Slashes(k[|p|..n]) <= depth
  }

  lemma {:induction false} IndexAtMost(s: Key, c: char, n: nat)
    requires n < |s| && s[n] == c
    ensures 0 <= DirTree.IndexOf(s, c) <= n
  {
    if n > 0 { IndexAtMost(s[1..], c, n - 1); }
  }

  lemma ShallowDir(p: Key, k: Key, n: nat)
    requires p <= k && |p| < n <= |k| && k[n - 1] == '/'
    ensures Class(p, k).Some? && |Class(p, k).value| <= n && Class(p, k).value == k[..|Class(p, k).value|]
    ensures var m := |Class(p, k).value|;
      |p| < m && k[m - 1] == '/' && Slashes(k[|p|..n]) == 1 + Slashes(k[m..n]) && Slashes(k[|p|..m]) == 1
  {
    var rest := k[|p|..];
    assert rest[n - 1 - |p|] == '/';
    var i := DirTree.IndexOf(rest, '/');
    IndexAtMost(rest, '/', n - 1 - |p|);
    var m := |p| + i + 1;
    assert k[|p|..m] == rest[..i] + "/" by { assert rest[i] == '/'; }
    NoSlashes(rest[..i]);
    SlashesOfConcat(rest[..i], "/");
    assert Slashes("/") == 1 by { assert "/"[1..] == ""; }
    assert k[|p|..n] == k[|p|..m] + k[m..n];
    SlashesOfConcat(k[|p|..m], k[m..n]);
  }

  lemma ClassIsPrefix(p: Key, k: Key)
    ensures Class(p, k).Some? ==> var q := Class(p, k).value;
      p <= k && |p| < |q| <= |k| && q == k[..|q|] && k[|q| - 1] == '/'
  {
    ClassEnds(p, k);
  }

  /** The walk reaches a key exactly if it can pass all its directories down to the depth. */
  lemma {:induction false} ReachesIff(g: Filters.Glob, rules: seq<Filters.Rule>, p: Key, depth: nat, k: Key)
    requires p <= k
    ensures Reaches(g, rules, p, depth, k) <==> Passable(g, rules, p, depth, k)
    decreases depth
  {
    hide Filters.LeveledPath, Filters.Passes, Class, Slashes;
    ClassIsPrefix(p, k);
    if depth == 0 || Class(p, k).None? {
      forall n: nat ensures !IsDirWithin(p, depth, k, n) {
        if |p| < n <= |k| && k[n - 1] == '/' { ShallowDir(p, k, n); }
      }
    } else {
      var q := Class(p, k).value;
      ShallowDir(p, k, |q|);
      Filters.LeveledIs(g, rules, q);
      ReachesIff(g, rules, q, depth - 1, k);
      assert IsDirWithin(p, depth, k, |q|);
      forall n: nat ensures IsDirWithin(p, depth, k, n) <==> n == |q| || IsDirWithin(q, depth - 1, k, n) {
        if |p| < n <= |k| && k[n - 1] == '/' {
          ShallowDir(p, k, n);
          if n == |q| { assert k[|q|..n] == ""; }
        }
      }
    }
  }

  ghost function Passing(g: Filters.Glob, rules: seq<Filters.Rule>, p: Key, depth: nat): Key -> bool {
    k => Passable(g, rules, p, depth, k)
  }

  lemma {:induction false} SameWithin(ds: seq<Obj>, p: Key -> bool, q: Key -> bool)
    requires forall o :: o in ds ==> (p(o.key) <==> q(o.key))
    ensures Within(ds, p) == Within(ds, q)
  {
    WithinHead(ds, p);
    WithinHead(ds, q);
    if ds != [] { SameWithin(ds[1..], p, q); }
  }

  lemma ReachedIsPassing(j: Job, g: Filters.Glob, rules: seq<Filters.Rule>, p: Key, depth: nat, src: seq<Obj>,
                         dst: seq<Obj>)
    requires Sorted(src) && Sorted(dst) && AllUnder(p, src) && AllUnder(p, dst)
    ensures WorkReached(j, g, rules, p, depth, src, dst) ==
            FlatRun(j, Within(src, Passing(g, rules, p, depth)), Within(dst, Passing(g, rules, p, depth)))
  {
    hide FlatRun, WorkOn, Passable, Reaches, Within;
    forall o: Obj | o in src + dst ensures Reaches(g, rules, p, depth, o.key) <==> Passable(g, rules, p, depth, o.key) {
      ReachesIff(g, rules, p, depth, o.key);
    }
    var f := Passing(g, rules, p, depth);
    SameWithin(src, Reached(g, rules, p, depth), f);
    SameWithin(dst, Reached(g, rules, p, depth), f);
    WithinIs(src, f);
    WithinIs(dst, f);
    FlatWork(j, Within(src, f), Within(dst, f));
  }

  // ---- When that is all the work -----------------------------------------------------------------------------------

  lemma {:induction false} DecisionsEmptyIff(j: Job, src: seq<Obj>, dst: seq<Obj>)
    ensures Decisions(j, src, dst) == multiset{} <==> forall o :: o in src ==> !j.keep(o)
  {
    if src != [] {
      DecisionsEmptyIff(j, src[1..], dst);
      assert src == [src[0]] + src[1..];
      if j.keep(src[0]) { assert FateOf(j, src[0], dst) in Decisions(j, src, dst); }
    }
  }

  lemma {:induction false} DeathsEmptyIff(j: Job, src: seq<Obj>, dst: seq<Obj>)
    ensures Deaths(j, src, dst) == multiset{} <==> forall d :: d in dst ==> !Dies(j, src, d)
  {
    hide Dies;
    if dst != [] {
      DeathsEmptyIff(j, src, dst[1..]);
      assert dst == [dst[0]] + dst[1..];
      if Dies(j, src, dst[0]) { assert dst[0].key in Deaths(j, src, dst); }
    }
  }

  lemma OnlyNothingAddsNothing<T>(a: multiset<T>, b: multiset<T>)
    ensures a + b == a <==> b == multiset{}
  {
    if a + b == a {
      forall x ensures b[x] == 0 { assert (a + b)[x] == a[x] + b[x]; }
    }
  }

  /** No kept source object and no dying destination object lies below an excluded prefix that is reached. */
  ghost predicate NothingMissed(j: Job, f: Key -> bool, src: seq<Obj>, dst: seq<Obj>) {
    && (forall o :: o in src && j.keep(o) ==> f(o.key))
    && (forall d :: d in dst && Dies(j, src, d) ==> f(d.key))
  }

  /** The parallel listing does the work of one flat producer exactly if no kept source object and no dying
      destination object lies below a prefix that the walk excludes. */
  lemma ReachedIsAllIff(j: Job, g: Filters.Glob, rules: seq<Filters.Rule>, p: Key, depth: nat, src: seq<Obj>,
                        dst: seq<Obj>)
    requires Sorted(src) && Sorted(dst)
    ensures WorkReached(j, g, rules, p, depth, src, dst) == FlatRun(j, src, dst) <==>
            NothingMissed(j, Reached(g, rules, p, depth), src, dst)
  {
    hide FlatRun, Decisions, Deaths, Within, Dies, Reaches, Sorted;
    var f, m := Reached(g, rules, p, depth), Missed(g, rules, p, depth);
    FlatWork(j, src, dst);
    WorkSplit(j, src, dst, f, m);
    var done, lost := WorkReached(j, g, rules, p, depth, src, dst), WorkOn(j, Within(src, m), Within(dst, m));
    OnlyNothingAddsNothing(done.decisions, lost.decisions);
    OnlyNothingAddsNothing(done.deletions, lost.deletions);
    DecisionsEmptyIff(j, Within(src, m), Within(dst, m));
    DeathsEmptyIff(j, Within(src, m), Within(dst, m));
    WithinIs(src, m);
    WithinIs(dst, m);
    forall d | d in dst && !f(d.key)
      ensures Dies(j, Within(src, m), d) <==> Dies(j, src, d)
    {
      DiesWithin(j, src, m, d);
    }
  }

  lemma DiesWithin(j: Job, src: seq<Obj>, p: Key -> bool, d: Obj)
    requires p(d.key)
    ensures Dies(j, Within(src, p), d) <==> Dies(j, src, d)
  {
    AliveWithin(j, src, p, d.key);
  }

  /** The filter keeps only what the level-wise rules allow. */
  ghost predicate Leveled(j: Job, g: Filters.Glob, rules: seq<Filters.Rule>) {
    forall o: Obj :: j.keep(o) ==> Filters.LeveledPath(g, rules, o.key)
  }

  lemma ClassEnds(p: Key, k: Key)
    ensures Class(p, k).Some? ==> var q := Class(p, k).value; q <= k && q != "" && q[|q| - 1] == '/'
  {
    if Class(p, k).Some? {
      var i := DirTree.IndexOf(k[|p|..], '/');
      assert k[..|p| + i + 1][|p| + i] == k[|p|..][i];
    }
  }

  lemma {:induction false} AllowedIsReached(g: Filters.Glob, rules: seq<Filters.Rule>, p: Key, depth: nat, k: Key)
    requires Filters.LeveledPath(g, rules, k)
    ensures Reaches(g, rules, p, depth, k)
    decreases depth
  {
    if depth > 0 && Class(p, k).Some? {
      var q := Class(p, k).value;
      ClassEnds(p, k);
      if !Filters.LeveledPath(g, rules, q) {
        assert Filters.Last(q) == q[|q| - 1];
        Filters.ExcludedBelow(g, rules, q, k);
      }
      AllowedIsReached(g, rules, q, depth - 1, k);
    }
  }

  /** With level-wise rules nothing is missed: directory by directory is the same as one flat listing. */
  lemma LeveledIsFlat(j: Job, g: Filters.Glob, rules: seq<Filters.Rule>, p: Key, depth: nat, src: seq<Obj>,
                      dst: seq<Obj>)
    requires Sorted(src) && Sorted(dst) && Leveled(j, g, rules)
    ensures WorkReached(j, g, rules, p, depth, src, dst) == FlatRun(j, src, dst) == WorkOn(j, src, dst)
  {
    hide FlatRun, WorkReached, WorkOn, Sorted;
    var f := Reached(g, rules, p, depth);
    forall o: Obj | j.keep(o) ensures f(o.key) { AllowedIsReached(g, rules, p, depth, o.key); }
    assert NothingMissed(j, f, src, dst);
    ReachedIsAllIff(j, g, rules, p, depth, src, dst);
    FlatWork(j, src, dst);
  }

  /** With rules that match whole paths, a directory can be excluded and a file in it not: a parallel listing
      loses the file. */
  lemma FullPathLosesWork(j: Job, g: Filters.Glob, o: Obj)
    requires g("a", "a") && g("", "") && !g("", "b") && o.key == "a/b"
    requires forall x: Obj :: j.keep(x) <==> Filters.FullPath(g, [Filters.Rule("a/", false)], x.key)
    ensures WorkReached(j, g, [Filters.Rule("a/", false)], "", 1, [o], []) != FlatRun(j, [o], [])
  {
    hide FlatRun, WorkReached, Filters.FullPath, Filters.LeveledPath;
    var rules := [Filters.Rule("a/", false)];
    Filters.FullPathDiffers(g);
    FirstIs("a/b", '/', 1);
    assert "a/b"[|""|..] == "a/b" && "a/b"[..2] == "a/";
    assert Class("", "a/b") == Some("a/");
    assert !Reaches(g, rules, "", 1, "a/b");
    assert o in [o];
    ReachedIsAllIff(j, g, rules, "", 1, [o], []);
  }
}

/** A store spread over shards by a hash of the key, listed by a heap over the shards' listings. */
module Sharding {
  import opened Keys
  import opened Producer
  import opened MergeJoin
  import opened Listing

  // ---- Point operations ------------------------------------------------------------------------------------

  /** The shards hold every key where the hash places it. */
  ghost predicate Placed<V>(stores: seq<map<Key, V>>, hash: Key -> nat) {
    stores != [] && forall i, k :: 0 <= i < |stores| && k in stores[i] ==> hash(k) % |stores| == i
  }

  /** All shards as one map. */
  ghost function View<V>(stores: seq<map<Key, V>>): map<Key, V> {
    if stores == [] then map[] else View(stores[..|stores| - 1]) + stores[|stores| - 1]
  }

  lemma {:induction false} ViewIs<V>(stores: seq<map<Key, V>>, hash: Key -> nat, n: nat, k: Key)
    requires Placed(stores, hash) && n <= |stores|
    ensures var i := hash(k) % |stores|;
      if i < n && k in stores[i] then k in View(stores[..n]) && View(stores[..n])[k] == stores[i][k]
          else k !in View(stores[..n])
  {
    if n > 0 {
      ViewIs(stores, hash, n - 1, k);
      assert stores[..n][..n - 1] == stores[..n - 1];
    }
  }

  class Sharded<V(==)> {
    var stores: seq<map<Key, V>>
    const hash: Key -> nat

    ghost predicate Valid()
      reads this
    {
      Placed(stores, hash)
    }

    ghost function All(): map<Key, V>
      reads this
    {
      View(stores)
    }

    constructor (shards: nat, hash: Key -> nat)
      requires shards > 0
      ensures Valid() && All() == map[] && this.hash == hash
    {
      this.hash := hash;
      stores := seq(shards, _ => map[]);
      new;
      forall k ensures k !in All() {
        ViewIs(stores, hash, shards, k);
        assert stores[..shards] == stores;
      }
      assert All().Keys == {};
    }

    function Pick(key: Key): (i: nat)
      requires stores != []
      reads this
      ensures i < |stores|
    {
      hash(key) % |stores|
    }

    method Put(key: Key, v: V)
      requires Valid()
      modifies this`stores
      ensures Valid() && All() == old(All())[key := v]
      ensures DifferIn(old(stores), stores, hash, key)
    {
      var i := Pick(key);
      ghost var was := stores;
      stores := stores[i := stores[i][key := v]];
      SameElsewhere(was, stores, hash, key);
    }

    method Delete(key: Key)
      requires Valid()
      modifies this`stores
      ensures Valid() && All() == old(All()) - {key}
      ensures DifferIn(old(stores), stores, hash, key)
    {
      var i := Pick(key);
      ghost var was := stores;
      stores := stores[i := stores[i] - {key}];
      SameElsewhere(was, stores, hash, key);
    }

    /** A point read asks one shard and finds what the whole store has. */
    method Get(key: Key) returns (v: Option<V>)
      requires Valid()
      ensures v == if key in All() then Some(All()[key]) else None
    {
      var i := Pick(key);
      ViewIs(stores, hash, |stores|, key);
      assert stores[..|stores|] == stores;
      v := if key in stores[i] then Some(stores[i][key]) else None;
    }
  }

  /** Only one key of one shard, its own, differs. */
  ghost predicate DifferIn<V>(was: seq<map<Key, V>>, stores: seq<map<Key, V>>, hash: Key -> nat, key: Key) {
    && was != [] && |stores| == |was|
    && (forall i :: 0 <= i < |was| && i != hash(key) % |was| ==> stores[i] == was[i])
    && stores[hash(key) % |was|] - {key} == was[hash(key) % |was|] - {key}
  }

  lemma OtherKey<V>(was: seq<map<Key, V>>, stores: seq<map<Key, V>>, hash: Key -> nat, key: Key, k: Key)
    requires DifferIn(was, stores, hash, key) && k != key
    ensures forall i :: 0 <= i < |was| ==>
              (k in stores[i] <==> k in was[i]) && (k in was[i] ==> stores[i][k] == was[i][k])
  {
    var p := hash(key) % |was|;
    assert k in stores[p] <==> k in stores[p] - {key};
    assert k in was[p] <==> k in was[p] - {key};
    if k in was[p] { assert (stores[p] - {key})[k] == (was[p] - {key})[k]; }
  }

  lemma StillPlaced<V>(was: seq<map<Key, V>>, stores: seq<map<Key, V>>, hash: Key -> nat, key: Key)
    requires Placed(was, hash) && DifferIn(was, stores, hash, key)
    ensures Placed(stores, hash)
  {
    forall i, k | 0 <= i < |stores| && k in stores[i] ensures hash(k) % |stores| == i {
      if k != key { OtherKey(was, stores, hash, key, k); }
    }
  }

  /** What the whole has under a key is what its shard has. */
  lemma {:induction false} ViewAt<V>(stores: seq<map<Key, V>>, hash: Key -> nat, k: Key)
    requires Placed(stores, hash)
    ensures var s := stores[hash(k) % |stores|];
      (k in View(stores) <==> k in s) && (k in s ==> View(stores)[k] == s[k])
  {
    ViewIs(stores, hash, |stores|, k);
    assert stores[..|stores|] == stores;
  }

  /** Changing one key in its own shard changes that key of the whole. */
  lemma {:induction false} SameElsewhere<V>(was: seq<map<Key, V>>, stores: seq<map<Key, V>>, hash: Key -> nat, key: Key)
    requires Placed(was, hash) && DifferIn(was, stores, hash, key)
    ensures Placed(stores, hash)
    ensures var s := stores[hash(key) % |stores|];
      View(stores) == if key in s then View(was)[key := s[key]] else View(was) - {key}
  {
    hide View, Placed, DifferIn;
    StillPlaced(was, stores, hash, key);
    NoneEmpty(was, stores, hash, key);
    ViewAt(stores, hash, key);
    forall k | k != key
      ensures (k in View(stores) <==> k in View(was)) && (k in View(was) ==> View(stores)[k] == View(was)[k])
    {
      OtherKey(was, stores, hash, key, k);
      ViewAt(was, hash, k);
      ViewAt(stores, hash, k);
    }
  }

  lemma NoneEmpty<V>(was: seq<map<Key, V>>, stores: seq<map<Key, V>>, hash: Key -> nat, key: Key)
    requires DifferIn(was, stores, hash, key)
    ensures |was| == |stores| > 0
  {}

  // ---- Listing one shard -----------------------------------------------------------------------------------

  const LIST_RETRIES := 10

  /** A shard that answers, when it answers at all, with the true keys after the marker. */
  ghost predicate Faithful(store: Store, all: seq<Obj>) {
    && Sorted(all)
    && forall n: nat, sent: seq<Obj> :: sent <= all ==> FaithfulPage(store(n, LastKey(sent)), all, sent)
  }

  ghost predicate FaithfulPage(r: Response, all: seq<Obj>, sent: seq<Obj>) {
    r.Page? ==> sent + r.objs <= all && if r.hasMore then sent + r.objs != [] else sent + r.objs == all
  }

  lemma FaithfulStep(all: seq<Obj>, sent: seq<Obj>, objs: seq<Obj>, hasMore: bool, part: seq<Obj>, stop: Stop)
    requires Sorted(all) && FaithfulPage(Page(objs, hasMore), all, sent) && part <= objs
    requires stop.NotYet? ==> part == objs
    requires stop.Disorder? ==> |part| < |objs| && sent + part != [] &&
                                !Less((sent + part)[|sent + part| - 1].key, objs[|part|].key)
    ensures !stop.Disorder? && sent + part <= all && (stop.NotYet? && !hasMore ==> sent + part == all)
  {
    var q := |sent + part|;
    assert (sent + objs)[..q] == sent + part && all[..q] == sent + part;
    if |part| < |objs| { assert all[q] == (sent + objs)[q] == objs[|part|]; }
    if sent + part != [] { assert (sent + part)[q - 1] == all[q - 1]; }
  }

  /** What a shard's channel carries: its whole listing, or a part of it and the failure mark, after the
      shard refused to go on from there. */
  ghost predicate Carries(ch: seq<Item>, store: Store, all: seq<Obj>) {
    Delivers(ch, all) && (ch == Items(all) || Stuck(store, Taken(ch), 10))
  }

  /** The first answered call among the n-th and its retries. */
  ghost function FirstAnswered(store: Store, n: nat, marker: Option<Key>, retries: nat): (r: Option<nat>)
    ensures r.None? <==> Refused(store, n, marker, retries)
    ensures r.Some? ==> store(r.value, marker).Page?
    decreases retries
  {
    if store(n, marker).Page? then Some(n)
    else if retries == 0 then None
    else FirstAnswered(store, n + 1, marker, retries - 1)
  }

  lemma {:induction false} FirstAnsweredIs(store: Store, n: nat, marker: Option<Key>, retries: nat, i: nat)
    requires n <= i <= n + retries && store(i, marker).Page? && forall j: nat :: n <= j < i ==> store(j, marker).Failed?
    ensures FirstAnswered(store, n, marker, retries) == Some(i)
    decreases retries
  {
    if n < i { FirstAnsweredIs(store, n + 1, marker, retries - 1, i); }
  }

  /** The objects of the answered calls, each asked for what follows those before it. */
  ghost function SentBy(store: Store, calls: seq<nat>): seq<Obj> {
    if calls == [] then []
    else
      var sent := SentBy(store, calls[..|calls| - 1]);
      match store(calls[|calls| - 1], LastKey(sent))
      case Page(objs, _) => sent + objs
      case Failed => sent
  }

  ghost function LastPage(store: Store, calls: seq<nat>): Response
    requires calls != []
  {
    store(calls[|calls| - 1], LastKey(SentBy(store, calls[..|calls| - 1])))
  }

  /** The calls that a listing gets answered: the first one, and then as long as more is promised the first
      answered one for each marker. */
  ghost predicate Trail(store: Store, calls: seq<nat>)
    decreases |calls|
  {
    && calls != [] && LastPage(store, calls).Page?
    && var n, front := calls[|calls| - 1], calls[..|calls| - 1];
       if front == [] then n == 0
       else Trail(store, front) && LastPage(store, front).hasMore && NextCall(store, front) == Some(n)
  }

  /** The call that is answered after these. */
  ghost function NextCall(store: Store, calls: seq<nat>): Option<nat>
    requires calls != []
  {
    FirstAnswered(store, calls[|calls| - 1] + 1, LastKey(SentBy(store, calls)), 10)
  }

  /** More is promised, but the next call and all its retries fail. */
  ghost predicate GivesUp(store: Store, calls: seq<nat>) {
    Trail(store, calls) && LastPage(store, calls).hasMore && NextCall(store, calls).None?
  }

  /** A listing of the shard comes to a point where it is refused with objects still to come. */
  ghost predicate Loses(store: Store, all: seq<Obj>) {
    exists calls :: GivesUp(store, calls) && SentBy(store, calls) != all
  }

  /** A store answers in one way: of two trails one goes on from the other. */
  lemma {:induction false} TrailsAgree(store: Store, a: seq<nat>, b: seq<nat>)
    requires Trail(store, a) && Trail(store, b) && |a| <= |b|
    ensures a == b[..|a|]
    decreases |b|
  {
    hide SentBy, LastPage, NextCall, FirstAnswered;
    var front := b[..|b| - 1];
    if |a| < |b| {
      TrailsAgree(store, a, front);
      assert front[..|a|] == b[..|a|];
    } else {
      if |a| > 1 {
        TrailsAgree(store, a[..|a| - 1], front);
        assert a[..|a| - 1] == front;
      }
      assert a == a[..|a| - 1] + [a[|a| - 1]] && b == front + [b[|b| - 1]];
      assert b[..|a|] == b;
    }
  }

  /** A trail that goes on has an answered call after every part of it. */
  lemma {:induction false} TrailGoesOn(store: Store, a: seq<nat>, b: seq<nat>)
    requires Trail(store, b) && 0 < |a| < |b| && a == b[..|a|]
    ensures LastPage(store, a).Page? && LastPage(store, a).hasMore && NextCall(store, a).Some?
    decreases |b|
  {
    var front := b[..|b| - 1];
    if |a| == |front| {
      assert a == front;
    } else {
      assert front[..|a|] == b[..|a|];
      TrailGoesOn(store, a, front);
    }
  }

  ghost predicate Ended(store: Store, calls: seq<nat>) {
    Trail(store, calls) && (!LastPage(store, calls).hasMore || GivesUp(store, calls))
  }

  /** What a listing has sent when it ends, it lacks nothing of the shard unless the shard loses something. */
  lemma {:induction false} EndedIff(store: Store, all: seq<Obj>, calls: seq<nat>)
    requires Ended(store, calls) && (!LastPage(store, calls).hasMore ==> SentBy(store, calls) == all)
    ensures SentBy(store, calls) == all <==> !Loses(store, all)
  {
    hide FirstAnswered, SentBy, NextCall, Trail;
    if other :| GivesUp(store, other) && SentBy(store, other) != all {
      NonEmptyTrail(store, other);
      NonEmptyTrail(store, calls);
      if |other| <= |calls| { TrailsAgree(store, other, calls); } else { TrailsAgree(store, calls, other); }
      if |other| < |calls| { TrailGoesOn(store, other, calls); }
      if |calls| < |other| { TrailGoesOn(store, calls, other); }
    }
  }

  lemma {:induction false} NonEmptyTrail(store: Store, calls: seq<nat>)
    requires Trail(store, calls)
    ensures calls != [] && calls[..|calls|] == calls
  {}

  /** The paged listing of one shard, in ascending order. It breaks off only where the shard refuses a marker
      eleven times in a row or leaves the order, and a faithful shard that refuses nothing is listed in full. */
  method ListShard(store: Store, ghost budget: nat, ghost all: seq<Obj>)
    returns (out: seq<Item>, err: bool, ghost calls: seq<nat>)
    requires Exhausted(store, budget)
    ensures err <==> store(0, None).Failed?
    ensures !err ==> Emitted(Taken(out), "")
    ensures !err ==> out == Items(Taken(out)) ||
                     (out == Items(Taken(out)) + [Broken]
                         && (Stuck(store, Taken(out), 10) || Unordered(store, Taken(out))))
    ensures !err && Faithful(store, all) ==> Carries(out, store, all)
    ensures Faithful(store, all) && Reliable(store, 10) ==> !err && out == Items(all)
    ensures !err && Faithful(store, all) ==> (Taken(out) == all <==> !Loses(store, all))
  {
    hide SentBy, Trail, NextCall, FirstAnswered, LastPage, GivesUp, Loses;
    hide Taken, FromStore, Delivers, Emitted, Sorted, Stuck, Unordered;
    out, err, calls := [], false, [0];
    var r, n: nat := store(0, None), 1;
    if r.Failed? { return [], true, []; }
    ghost var sent: seq<Obj> := [];
    FirstCall(store);
    NothingSent();
    FirstPage(store, all);
    PageFromStore(store, 0, None);
    var last: Option<Key> := None;
    while true
      invariant r.Page? && FromStore(store, r.objs) && (r.hasMore ==> n <= budget)
      invariant Emitted(sent, "") && last == LastKey(sent) && out == Items(sent)
      invariant Faithful(store, all) ==> sent <= all && FaithfulPage(r, all, sent)
      invariant calls != [] && Trail(store, calls) && r == LastPage(store, calls) && n == calls[|calls| - 1] + 1
      invariant r.Page? ==> SentBy(store, calls) == sent + r.objs
      decreases if r.hasMore then budget - n + 1 else 0
    {
      var part, stop := SendPage(r.objs, last, "", sent);
      if Faithful(store, all) { FaithfulStep(all, sent, r.objs, r.hasMore, part, stop); }
      ItemsOfConcat(sent, part);
      TakenOfSent(sent + part);
      last := if part == [] then last else Some(part[|part| - 1].key);
      assert part == [] ==> sent + part == sent;
      ghost var before := sent;
      sent, out := sent + part, out + Items(part);
      if stop.Disorder? {
        OutOfOrder(store, sent, r.objs, |part|);
        return out + [Broken], false, calls;
      }
      if !r.hasMore {
        if Faithful(store, all) {
          WholeDelivers(all);
          EndsHere(store, all, calls);
        }
        break;
      }
      ghost var n0 := n;
      r, n := Continue(store, n, last, LIST_RETRIES, budget);
      if r.Failed? {
        IsStuck(store, sent, n0);
        if Faithful(store, all) {
          PrefixDelivers(sent, all);
          EndsHere(store, all, calls);
        }
        return out + [Broken], false, calls;
      }
      NextAnswered(store, calls, n0, n - 1);
      calls := calls + [n - 1];
      PageFromStore(store, n - 1, last);
      if Faithful(store, all) { NextPageIs(store, all, sent, n - 1); }
    }
  }

  lemma FirstCall(store: Store)
    requires store(0, None).Page?
    ensures Trail(store, [0]) && LastPage(store, [0]) == store(0, None)
        && SentBy(store, [0]) == [] + store(0, None).objs
  {
    assert [0][..0] == [];
    assert SentBy(store, [0][..0]) == [];
  }

  /** One more answered call. */
  lemma {:induction false} NextAnswered(store: Store, calls: seq<nat>, n0: nat, i: nat)
    requires Trail(store, calls) && LastPage(store, calls).hasMore && n0 == calls[|calls| - 1] + 1
    requires n0 <= i <= n0 + 10 && store(i, LastKey(SentBy(store, calls))).Page?
    requires forall j: nat :: n0 <= j < i ==> store(j, LastKey(SentBy(store, calls))).Failed?
    ensures var more, r := calls + [i], store(i, LastKey(SentBy(store, calls)));
            Trail(store, more) && LastPage(store, more) == r && SentBy(store, more) == SentBy(store, calls) + r.objs
  {
    var more := calls + [i];
    assert more[..|more| - 1] == calls && more[|more| - 1] == i;
    FirstAnsweredIs(store, n0, LastKey(SentBy(store, calls)), 10, i);
  }

  lemma {:induction false} EndsHere(store: Store, all: seq<Obj>, calls: seq<nat>)
    requires Trail(store, calls)
    requires !LastPage(store, calls).hasMore
        || Refused(store, calls[|calls| - 1] + 1, LastKey(SentBy(store, calls)), 10)
    requires !LastPage(store, calls).hasMore ==> SentBy(store, calls) == all
    ensures SentBy(store, calls) == all <==> !Loses(store, all)
  {
    hide Loses;
    EndedIff(store, all, calls);
  }

  lemma NothingSent()
    ensures Emitted([], "") && LastKey([]) == None && Items([]) == []
  {}

  lemma FirstPage(store: Store, all: seq<Obj>)
    ensures Faithful(store, all) ==> FaithfulPage(store(0, None), all, [])
  {
    assert Faithful(store, all) ==> FaithfulPage(store(0, LastKey([])), all, []);
  }

  lemma NextPageIs(store: Store, all: seq<Obj>, sent: seq<Obj>, n: nat)
    requires Faithful(store, all) && sent <= all
    ensures FaithfulPage(store(n, LastKey(sent)), all, sent)
  {}

  lemma WholeDelivers(all: seq<Obj>)
    ensures Delivers(Items(all), all)
  {}

  lemma IsStuck(store: Store, sent: seq<Obj>, n: nat)
    requires Refused(store, n, LastKey(sent), 10)
    ensures Stuck(store, sent, 10)
  {}

  lemma OutOfOrder(store: Store, sent: seq<Obj>, objs: seq<Obj>, i: nat)
    requires FromStore(store, objs) && i < |objs| && sent != [] && !Less(sent[|sent| - 1].key, objs[i].key)
    ensures Unordered(store, sent)
  {
    OneFromStore(store, objs, objs[i]);
  }

  lemma TakenOfSent(sent: seq<Obj>)
    ensures Taken(Items(sent)) == sent && Taken(Items(sent) + [Broken]) == sent
  {
    TakenOfItems(sent, []);
    TakenOfItems(sent, [Broken]);
    assert Items(sent) + [] == Items(sent) && sent + [] == sent;
  }

  /** What is read of a channel: up to its end or its first failure mark. */
  function Taken(ch: seq<Item>): seq<Obj> {
    if ch == [] || ch[0].Broken? then [] else [ch[0].obj] + Taken(ch[1..])
  }

  lemma {:induction false} TakenOfItems(objs: seq<Obj>, tail: seq<Item>)
    ensures Taken(Items(objs) + tail) == objs + Taken(tail)
  {
    if objs == [] {
      assert Items(objs) + tail == tail;
    } else {
      var ch := Items(objs) + tail;
      TakenOfItems(objs[1..], tail);
      assert ch[0] == Entry(objs[0]) && ch[1..] == Items(objs[1..]) + tail;
      assert [objs[0]] + (objs[1..] + Taken(tail)) == objs + Taken(tail);
    }
  }

  // ---- Merging the shards ------------------------------------------------------------------------------------

  /** The object at the front of a shard's channel, and the channel behind it. */
  datatype Head = Head(o: Obj, ch: seq<Item>)

  function Rest(h: Head): seq<Obj> {
    [h.o] + Taken(h.ch)
  }

  ghost predicate InHeads(heads: seq<Head>, o: Obj) {
    exists i :: 0 <= i < |heads| && o in Rest(heads[i])
  }

  ghost predicate InShards(chans: seq<seq<Item>>, o: Obj) {
    exists i :: 0 <= i < |chans| && o in Taken(chans[i])
  }

  /** Every shard ascends and no key is in two of them. */
  ghost predicate Apart(lists: seq<seq<Obj>>) {
    && (forall i :: 0 <= i < |lists| ==> Sorted(lists[i]))
    && (forall i, j, a, b :: 0 <= i < |lists| && 0 <= j < |lists| && i != j && a in lists[i] && b in lists[j] ==>
        a.key != b.key)
  }

  ghost function Rests(heads: seq<Head>): seq<seq<Obj>> {
    seq(|heads|, i requires 0 <= i < |heads| => Rest(heads[i]))
  }

  /** What was sent ascends and lies before all that is left. */
  ghost predicate Ahead(out: seq<Obj>, heads: seq<Head>) {
    Sorted(out) && forall a, b :: a in out && InHeads(heads, b) ==> Less(a.key, b.key)
  }

  lemma {:induction false} MinExists(heads: seq<Head>)
    requires heads != []
    ensures exists i :: 0 <= i < |heads| && forall j :: 0 <= j < |heads| ==> !Less(heads[j].o.key, heads[i].o.key)
  {
    var front := heads[..|heads| - 1];
    var last := heads[|heads| - 1];
    LessIrreflexive(last.o.key);
    if front != [] {
      MinExists(front);
      var i :| 0 <= i < |front| && forall j :: 0 <= j < |front| ==> !Less(front[j].o.key, front[i].o.key);
      if Less(last.o.key, front[i].o.key) {
        forall j | 0 <= j < |heads| ensures !Less(heads[j].o.key, last.o.key) {
          if j < |front| && Less(heads[j].o.key, last.o.key) {
            LessTransitive(front[j].o.key, last.o.key, front[i].o.key);
          }
        }
      } else {
        assert heads[i] == front[i];
        forall j | 0 <= j < |heads| ensures !Less(heads[j].o.key, heads[i].o.key) {
          if j < |front| { assert heads[j] == front[j]; }
        }
      }
    } else {
      assert heads[0] == last;
    }
  }

  /** The heap's pop: some head with a least key, and the others in whatever order the heap leaves them. */
  method Pop(heads: seq<Head>) returns (n: Head, rest: seq<Head>, ghost i: nat)
    requires heads != []
    ensures i < |heads| && n == heads[i] && rest == heads[..i] + heads[i + 1..]
    ensures forall j :: 0 <= j < |heads| ==> !Less(heads[j].o.key, n.o.key)
  {
    MinExists(heads);
    var k: nat :| k < |heads| && forall j :: 0 <= j < |heads| ==> !Less(heads[j].o.key, heads[k].o.key);
    n, rest, i := heads[k], heads[..k] + heads[k + 1..], k;
  }

  /** The head that replaces one just sent, if its shard has more. */
  function Refill(rest: seq<Head>, n: Head): seq<Head> {
    if n.ch != [] && n.ch[0].Entry? then rest + [Head(n.ch[0].obj, n.ch[1..])] else rest
  }

  /** Where the heads after a pop come from. */
  function Origin(i: nat, n: nat, x: nat): nat {
    if x < i then x else if x < n - 1 then x + 1 else i
  }

  lemma RefillOrigin(heads: seq<Head>, i: nat, x: nat)
    requires i < |heads| && x < |Refill(heads[..i] + heads[i + 1..], heads[i])|
    ensures var heads' := Refill(heads[..i] + heads[i + 1..], heads[i]); var y := Origin(i, |heads|, x);
      y < |heads| && Rest(heads'[x]) == if y == i then Rest(heads[i])[1..] else Rest(heads[y])
  {
    hide Rest;
    RestTail(heads[i]);
    assert |heads[..i] + heads[i + 1..]| == |heads| - 1;
  }

  lemma RestTail(n: Head)
    ensures Rest(n) == [n.o] + Taken(n.ch) && Rest(n)[1..] == Taken(n.ch)
    ensures n.ch != [] && n.ch[0].Entry? ==> Rest(Head(n.ch[0].obj, n.ch[1..])) == Taken(n.ch)
    ensures Taken(n.ch) != [] ==> n.ch != [] && n.ch[0].Entry?
  {}

  /** What is left after sending n is all that was left but n itself. */
  lemma RefillIs(heads: seq<Head>, i: nat)
    requires i < |heads| && Apart(Rests(heads))
    ensures var heads' := Refill(heads[..i] + heads[i + 1..], heads[i]);
      && Apart(Rests(heads'))
      && forall o :: InHeads(heads, o) <==> o == heads[i].o || InHeads(heads', o)
  {
    var heads' := Refill(heads[..i] + heads[i + 1..], heads[i]);
    var n := |heads|;
    forall x: nat | x < |heads'|
      ensures Sorted(Rest(heads'[x])) && forall o :: o in Rest(heads'[x]) ==> o in Rest(heads[Origin(i, n, x)])
    {
      RefillOrigin(heads, i, x);
      assert Sorted(Rests(heads)[Origin(i, n, x)]);
    }
    forall x: nat, y: nat, a, b | x < |heads'| && y < |heads'| && x != y && a in Rest(heads'[x]) && b in Rest(heads'[y])
      ensures a.key != b.key
    {
      assert a in Rests(heads)[Origin(i, n, x)] && b in Rests(heads)[Origin(i, n, y)];
    }
    forall o ensures InHeads(heads, o) <==> o == heads[i].o || InHeads(heads', o) {
      RefillHolds(heads, i, o);
    }
  }

  lemma RefillHolds(heads: seq<Head>, i: nat, o: Obj)
    requires i < |heads|
    ensures InHeads(heads, o) <==> o == heads[i].o || InHeads(Refill(heads[..i] + heads[i + 1..], heads[i]), o)
  {
    hide Taken, Rest;
    RestTail(heads[i]);
    var rest := heads[..i] + heads[i + 1..];
    var heads' := Refill(rest, heads[i]);
    if InHeads(heads', o) {
      var x: nat :| x < |heads'| && o in Rest(heads'[x]);
      RefillOrigin(heads, i, x);
      assert o in Rest(heads[Origin(i, |heads|, x)]);
    }
    if InHeads(heads, o) && o != heads[i].o {
      var y: nat :| y < |heads| && o in Rest(heads[y]);
      if y == i {
        assert o in Taken(heads[i].ch);
        assert o in Rest(heads'[|rest|]);
      } else {
        assert heads'[if y < i then y else y - 1] == heads[y];
      }
    }
  }

  /** The head popped lies before everything that is left. */
  lemma LeastFirst(heads: seq<Head>, i: nat)
    requires i < |heads| && Apart(Rests(heads))
    requires forall j :: 0 <= j < |heads| ==> !Less(heads[j].o.key, heads[i].o.key)
    ensures forall b :: InHeads(Refill(heads[..i] + heads[i + 1..], heads[i]), b) ==> Less(heads[i].o.key, b.key)
  {
    var heads' := Refill(heads[..i] + heads[i + 1..], heads[i]);
    forall b | InHeads(heads', b) ensures Less(heads[i].o.key, b.key) {
      var x: nat :| x < |heads'| && b in Rest(heads'[x]);
      RefillOrigin(heads, i, x);
      var y := Origin(i, |heads|, x);
      assert Sorted(Rests(heads)[y]) && Rests(heads)[y] == Rest(heads[y]);
      if y == i {
        var z :| 0 <= z < |Rest(heads[i])[1..]| && Rest(heads[i])[1..][z] == b;
        assert Rest(heads[i])[z + 1] == b && Rest(heads[i])[0] == heads[i].o;
      } else {
        var z :| 0 <= z < |Rest(heads[y])| && Rest(heads[y])[z] == b;
        assert Rest(heads[y])[0] == heads[y].o && heads[y].o in Rests(heads)[y] && heads[i].o in Rests(heads)[i];
        LessTotal(heads[i].o.key, heads[y].o.key);
        if z > 0 { LessTransitive(heads[i].o.key, heads[y].o.key, b.key); }
      }
    }
  }

  ghost function Total(heads: seq<Head>): nat {
    if heads == [] then 0 else |Rest(heads[0])| + Total(heads[1..])
  }

  lemma {:induction false} TotalConcat(a: seq<Head>, b: seq<Head>)
    ensures Total(a + b) == Total(a) + Total(b)
  {
    if a == [] {
      assert a + b == b;
    } else {
      TotalConcat(a[1..], b);
      assert (a + b)[1..] == a[1..] + b;
    }
  }

  lemma RefillShrinks(heads: seq<Head>, i: nat)
    requires i < |heads|
    ensures Total(Refill(heads[..i] + heads[i + 1..], heads[i])) < Total(heads)
  {
    var n := heads[i];
    TotalConcat(heads[..i], heads[i + 1..]);
    assert heads == heads[..i] + ([n] + heads[i + 1..]) && ([n] + heads[i + 1..])[1..] == heads[i + 1..];
    TotalConcat(heads[..i], [n] + heads[i + 1..]);
    if n.ch != [] && n.ch[0].Entry? {
      var h := Head(n.ch[0].obj, n.ch[1..]);
      TotalConcat(heads[..i] + heads[i + 1..], [h]);
      assert Rest(h) == Taken(n.ch) && [h][1..] == [];
    }
  }

  ghost function AllTaken(chans: seq<seq<Item>>): seq<seq<Obj>> {
    seq(|chans|, i requires 0 <= i < |chans| => Taken(chans[i]))
  }

  /** The first head of every shard that has one. */
  method Heads(chans: seq<seq<Item>>) returns (heads: seq<Head>)
    requires Apart(AllTaken(chans))
    ensures Apart(Rests(heads)) && forall o :: InHeads(heads, o) <==> InShards(chans, o)
  {
    heads := [];
    ghost var from: seq<nat> := [];
    var i := 0;
    while i < |chans|
      invariant 0 <= i <= |chans| && |from| == |heads|
      invariant forall x :: 0 <= x < |heads| ==> from[x] < i && Rest(heads[x]) == Taken(chans[from[x]])
      invariant forall x, y :: 0 <= x < y < |heads| ==> from[x] < from[y]
      invariant forall c: nat :: c < i && Taken(chans[c]) != [] ==> c in from
    {
      if chans[i] != [] && chans[i][0].Entry? {
        heads, from := heads + [Head(chans[i][0].obj, chans[i][1..])], from + [i];
      }
      i := i + 1;
    }
    FromShards(chans, heads, from);
  }

  lemma FromShards(chans: seq<seq<Item>>, heads: seq<Head>, from: seq<nat>)
    requires Apart(AllTaken(chans)) && |from| == |heads|
    requires forall x :: 0 <= x < |heads| ==> from[x] < |chans| && Rest(heads[x]) == Taken(chans[from[x]])
    requires forall x, y :: 0 <= x < y < |heads| ==> from[x] < from[y]
    requires forall c: nat :: c < |chans| && Taken(chans[c]) != [] ==> c in from
    ensures Apart(Rests(heads)) && forall o :: InHeads(heads, o) <==> InShards(chans, o)
  {
    hide Taken, Rest;
    forall x | 0 <= x < |heads| ensures Rests(heads)[x] == AllTaken(chans)[from[x]] {}
    forall o | InShards(chans, o) ensures InHeads(heads, o) {
      var c: nat :| c < |chans| && o in Taken(chans[c]);
      assert c in from;
      var x :| 0 <= x < |heads| && from[x] == c;
      assert o in Rest(heads[x]);
    }
    forall o | InHeads(heads, o) ensures InShards(chans, o) {
      var x :| 0 <= x < |heads| && o in Rest(heads[x]);
      assert o in Taken(chans[from[x]]);
    }
  }

  lemma Appended(out: seq<Obj>, o: Obj)
    requires Sorted(out) && forall a :: a in out ==> Less(a.key, o.key)
    ensures Sorted(out + [o])
  {}

  /** The merge: ascending, each object once, exactly what was read of the shards' channels. */
  method MergeShards(chans: seq<seq<Item>>) returns (out: seq<Obj>)
    requires Apart(AllTaken(chans))
    ensures Sorted(out)
    ensures forall o :: o in out <==> InShards(chans, o)
  {
    hide InShards, Apart, InHeads, Refill;
    var heads := Heads(chans);
    out := [];
    while heads != []
      invariant Apart(Rests(heads)) && Sorted(out)
      invariant forall a, b :: a in out && InHeads(heads, b) ==> Less(a.key, b.key)
      invariant forall o :: o in out || InHeads(heads, o) <==> InShards(chans, o)
      decreases Total(heads)
    {
      var n, rest;
      ghost var i;
      n, rest, i := Pop(heads);
      RefillIs(heads, i);
      LeastFirst(heads, i);
      RefillShrinks(heads, i);
      Appended(out, n.o);
      out := out + [n.o];
      heads := Refill(rest, n);
    }
    forall o ensures !InHeads([], o) { NoHeads(o); }
  }

  lemma NoHeads(o: Obj)
    ensures !InHeads([], o)
  {}

  // ---- The whole listing ----------------------------------------------------------------------------------------

  /** A shard's channel carries the shard's listing, or a part of it before the failure mark. */
  lemma {:induction false} TakenOfDelivered(ch: seq<Item>, full: seq<Obj>)
    requires Delivers(ch, full)
    ensures Taken(ch) <= full && (ch == Items(full) ==> Taken(ch) == full)
  {
    if ch == Items(full) {
      TakenOfItems(full, []);
      assert Items(full) + [] == ch && full + [] == full;
    } else {
      var n := |ch| - 1;
      assert ch[..n] == Items(full[..n]) && ch == Items(full[..n]) + [Broken];
      TakenOfItems(full[..n], [Broken]);
    }
  }

  /** All shards hold different keys, and each lists its own in order. */
  ghost predicate Spread(shards: seq<Store>, full: seq<seq<Obj>>, hash: Key -> nat) {
    && |full| == |shards| > 0
    && (forall i :: 0 <= i < |shards| ==> Faithful(shards[i], full[i]))
    && (forall i, o :: 0 <= i < |full| && o in full[i] ==> hash(o.key) % |full| == i)
  }

  ghost predicate Within(objs: seq<Obj>, out: seq<Obj>) {
    forall o :: o in objs ==> o in out
  }

  /** Lists all shards, each with its own retries, and merges what they give: in ascending order, only objects
      of the store, and all of a shard exactly if its listing does not come to a point where it is refused with
      objects still to come; so all of the store if no shard refuses to be listed. */
  method ListAll(shards: seq<Store>, hash: Key -> nat, ghost budget: nat, ghost full: seq<seq<Obj>>)
    returns (out: seq<Obj>, err: bool, chans: seq<seq<Item>>)
    requires Spread(shards, full, hash) && forall i :: 0 <= i < |shards| ==> Exhausted(shards[i], budget)
    ensures err <==> exists i :: 0 <= i < |shards| && shards[i](0, None).Failed?
    ensures !err ==> |chans| == |full| && forall i :: 0 <= i < |full| ==> Carries(chans[i], shards[i], full[i])
    ensures !err ==> Sorted(out) && forall o :: o in out ==> exists i :: 0 <= i < |full| && o in full[i]
    ensures !err ==> forall i :: 0 <= i < |full| ==>
              (Within(full[i], out) <==> Taken(chans[i]) == full[i])
                  && (Within(full[i], out) <==> !Loses(shards[i], full[i]))
    ensures (forall i :: 0 <= i < |shards| ==> Reliable(shards[i], 10)) ==>
              !err && forall i :: 0 <= i < |full| ==> Within(full[i], out)
  {
    hide Exhausted, Faithful, Delivers, Stuck, Taken, Emitted, Unordered, Loses;
    out, err, chans := [], false, [];
    ghost var whole := forall i :: 0 <= i < |shards| ==> Reliable(shards[i], 10);
    while |chans| < |shards|
      invariant |chans| <= |shards|
      invariant forall i :: 0 <= i < |chans| ==> Carries(chans[i], shards[i], full[i]) && !shards[i](0, None).Failed?
      invariant whole ==> forall i :: 0 <= i < |chans| ==> chans[i] == Items(full[i])
      invariant forall i :: 0 <= i < |chans| ==> (Taken(chans[i]) == full[i] <==> !Loses(shards[i], full[i]))
    {
      var i := |chans|;
      var ch, failed;
      ghost var calls;
      ch, failed, calls := ListShard(shards[i], budget, full[i]);
      if failed { return [], true, chans; }
      chans := chans + [ch];
    }
    ChannelsApart(shards, full, hash, chans);
    out := MergeShards(chans);
    forall i | 0 <= i < |full| ensures Within(full[i], out) <==> Taken(chans[i]) == full[i] {
      ShardIsListed(shards, full, hash, chans, i, out);
    }
    if whole {
      forall i | 0 <= i < |full| ensures Taken(chans[i]) == full[i] { TakenOfSent(full[i]); }
    }
  }

  ghost predicate AllCarry(shards: seq<Store>, full: seq<seq<Obj>>, hash: Key -> nat, chans: seq<seq<Item>>) {
    Spread(shards, full, hash) && |chans| == |full| && forall i :: 0 <= i < |chans| ==> Delivers(chans[i], full[i])
  }

  /** A shard's channel gives the front of the shard, whose keys are in no other shard. */
  lemma ChannelIs(shards: seq<Store>, full: seq<seq<Obj>>, hash: Key -> nat, chans: seq<seq<Item>>, i: nat)
    requires AllCarry(shards, full, hash, chans) && i < |chans|
    ensures Taken(chans[i]) <= full[i] && Sorted(full[i]) && Sorted(Taken(chans[i]))
    ensures forall o :: o in Taken(chans[i]) ==> o in full[i] && hash(o.key) % |full| == i
  {
    hide Delivers;
    TakenOfDelivered(chans[i], full[i]);
    assert Faithful(shards[i], full[i]);
    forall o | o in Taken(chans[i]) ensures o in full[i] && hash(o.key) % |full| == i {
      var z :| 0 <= z < |Taken(chans[i])| && Taken(chans[i])[z] == o;
      assert full[i][z] == o;
    }
  }

  /** All of a shard is read exactly if its channel left nothing of it. */
  lemma ShardIsListed(shards: seq<Store>, full: seq<seq<Obj>>, hash: Key -> nat, chans: seq<seq<Item>>, i: nat,
                      out: seq<Obj>)
    requires AllCarry(shards, full, hash, chans) && i < |full| && forall o :: o in out <==> InShards(chans, o)
    ensures Within(full[i], out) <==> Taken(chans[i]) == full[i]
  {
    hide Delivers, Taken, Faithful;
    var n := |Taken(chans[i])|;
    ChannelIs(shards, full, hash, chans, i);
    if Within(full[i], out) && n < |full[i]| {
      var o := full[i][n];
      assert o in full[i] && InShards(chans, o);
      var j :| 0 <= j < |chans| && o in Taken(chans[j]);
      ChannelIs(shards, full, hash, chans, j);
      var z :| 0 <= z < n && Taken(chans[i])[z] == o;
      assert full[i][z] == o;
      LessIrreflexive(o.key);
    }
  }

  lemma ChannelsApart(shards: seq<Store>, full: seq<seq<Obj>>, hash: Key -> nat, chans: seq<seq<Item>>)
    requires AllCarry(shards, full, hash, chans)
    ensures Apart(AllTaken(chans))
    ensures forall o :: InShards(chans, o) ==> exists i :: 0 <= i < |full| && o in full[i]
  {
    hide Delivers, AllCarry, Taken;
    assert |chans| == |full| by { Counted(shards, full, hash, chans); }
    forall i: nat | i < |chans|
      ensures Sorted(Taken(chans[i])) && forall o :: o in Taken(chans[i]) ==> o in full[i] && hash(o.key) % |full| == i
    {
      ChannelIs(shards, full, hash, chans, i);
    }
  }

  lemma Counted(shards: seq<Store>, full: seq<seq<Obj>>, hash: Key -> nat, chans: seq<seq<Item>>)
    requires AllCarry(shards, full, hash, chans)
    ensures |chans| == |full|
  {}

  // ---- A shard that loses a key ------------------------------------------------------------------------------------

  function Small(k: Key): Obj {
    Obj(k, 0, 0, false, false, 0)
  }

  /** A shard with the keys a and b that answers its first call with one of them and then fails. */
  function Flaky(): Store {
    (n: nat, marker: Option<Key>) => if n == 0 && marker.None? then Page([Small("a")], true) else Failed
  }

  lemma FlakyIsFaithful()
    ensures Faithful(Flaky(), [Small("a"), Small("b")]) && Exhausted(Flaky(), 1)
  {
    hide Trail, SentBy, LastPage, NextCall;
    var store, all := Flaky(), [Small("a"), Small("b")];
    assert Less("a", "b");
    assert all[..1] == [Small("a")];
    forall n: nat, sent: seq<Obj> | sent <= all ensures FaithfulPage(store(n, LastKey(sent)), all, sent) {
      if LastKey(sent).None? { assert [] + [Small("a")] == [Small("a")]; }
    }
  }

  /** Its listing ends without an error and without the key b. */
  lemma FlakyLosesAKey()
    ensures Faithful(Flaky(), [Small("a"), Small("b")]) && Exhausted(Flaky(), 1)
    ensures !Flaky()(0, None).Failed? && Loses(Flaky(), [Small("a"), Small("b")])
  {
    hide Faithful, Exhausted;
    var store, all := Flaky(), [Small("a"), Small("b")];
    FlakyIsFaithful();
    FirstCall(store);
    assert [] + [Small("a")] == [Small("a")];
    assert Refused(store, 1, LastKey(SentBy(store, [0])), 10);
    assert GivesUp(store, [0]) && SentBy(store, [0]) != all;
  }
}

/** The stages between a store and the producer: paged listing with retries, filter, gate prefetch. */
module Listing {
  import opened Keys
  import opened Producer
  import opened MergeJoin

  /** One answer of the store to a List call. */
  datatype Response = Failed | Page(objs: seq<Obj>, hasMore: bool)

  /** A store as seen by one listing: what its n-th List call answers for a marker. */
  type Store = (nat, Option<Key>) -> Response

  const RETRIES := 3

  /** The objects of a page without a repeated marker at its head. */
  function Fresh(objs: seq<Obj>, marker: Key): seq<Obj> {
    if objs != [] && objs[0].key == marker then objs[1..] else objs
  }

  predicate Past(end: Key, k: Key) {
    end != "" && Less(end, k)
  }

  /** The part of a sorted listing that does not pass `end`; the empty end is no bound. */
  function UpTo(all: seq<Obj>, end: Key): (r: seq<Obj>)
    ensures r <= all
  {
    if all == [] || Past(end, all[0].key) then [] else [all[0]] + UpTo(all[1..], end)
  }

  function LastKey(sent: seq<Obj>): Option<Key> {
    if sent == [] then None else Some(sent[|sent|-1].key)
  }

  /** The answer to a call that has `sent` behind it is a page of the keys that follow, the last one sent
      repeated in front or not; it claims to be the last one only when it reaches the end, and a first page
      with more to come is not empty. */
  ghost predicate Serves(r: Response, all: seq<Obj>, sent: seq<Obj>) {
    r.Page? ==>
      var added := if sent != [] && r.objs != [] && r.objs[0].key == sent[|sent|-1].key then r.objs[1..] else r.objs;
      sent + added <= all && if r.hasMore then sent + added != [] else sent + added == all
  }

  /** A store that answers, when it answers at all, with the true keys after the marker. */
  ghost predicate Honest(store: Store, all: seq<Obj>) {
    && Sorted(all)
    && forall n: nat, sent: seq<Obj> :: sent <= all ==> Serves(store(n, LastKey(sent)), all, sent)
  }

  /** After `budget` calls no answer promises more: it bounds the length of the listing. */
  ghost predicate Exhausted(store: Store, budget: nat) {
    forall n: nat, m: Option<Key> :: n >= budget ==> store(n, m).Failed? || !store(n, m).hasMore
  }

  /** The call with this number and all its retries fail for this marker. */
  ghost predicate Refused(store: Store, n: nat, marker: Option<Key>, retries: nat) {
    forall i: nat :: n <= i <= n + retries ==> store(i, marker).Failed?
  }

  /** A store whose first call is answered and that refuses no marker. */
  ghost predicate Reliable(store: Store, retries: nat) {
    store(0, None).Page? && forall n: nat, m: Option<Key> :: !Refused(store, n, m, retries)
  }

  ghost predicate Holds(store: Store, n: nat, m: Option<Key>, objs: seq<Obj>) {
    store(n, m).Page? && forall o :: o in objs ==> o in store(n, m).objs
  }

  /** The objects come from one answer of the store. */
  ghost predicate FromStore(store: Store, objs: seq<Obj>) {
    exists n: nat, m: Option<Key> :: Holds(store, n, m, objs)
  }

  /** An answer of the store holds a key that does not follow what was sent. */
  ghost predicate Unordered(store: Store, sent: seq<Obj>) {
    sent != [] && exists o :: FromStore(store, [o]) && !Less(sent[|sent|-1].key, o.key)
  }

  /** The store refuses to go on from what was sent. */
  ghost predicate Stuck(store: Store, sent: seq<Obj>, retries: nat) {
    exists n: nat :: Refused(store, n, LastKey(sent), retries)
  }

  /** `out` carries some of `full` and then the failure mark, or all of `full`. */
  ghost predicate Delivers(out: seq<Item>, full: seq<Obj>) {
    DstFeed(out, full)
  }

  lemma ItemsOfConcat(a: seq<Obj>, b: seq<Obj>)
    ensures Items(a + b) == Items(a) + Items(b)
  {}

  lemma PrefixDelivers(sent: seq<Obj>, full: seq<Obj>)
    requires sent <= full
    ensures Delivers(Items(sent) + [Broken], full)
  {
    var out := Items(sent) + [Broken];
    assert out[..|out|-1] == Items(sent);
  }

  lemma {:induction false} UpToGrows(all: seq<Obj>, end: Key, p: nat)
    requires Sorted(all) && p <= |all|
    requires forall i :: 0 <= i < p ==> !Past(end, all[i].key)
    ensures all[..p] <= UpTo(all, end)
    ensures p == |all| || Past(end, all[p].key) ==> UpTo(all, end) == all[..p]
  {
    hide Less;
    if p > 0 {
      UpToGrows(all[1..], end, p - 1);
      ConsTake(all, p);
      ConsPrefix(all[0], all[1..][..p-1], UpTo(all[1..], end));
    }
  }

  lemma ConsTake<T>(all: seq<T>, p: nat)
    requires 0 < p <= |all|
    ensures all[..p] == [all[0]] + all[1..][..p-1]
  {}

  lemma ConsPrefix<T>(x: T, a: seq<T>, b: seq<T>)
    requires a <= b
    ensures [x] + a <= [x] + b
  {}

  /** What a listing may have sent at any time, whatever the store answered. */
  ghost predicate Emitted(sent: seq<Obj>, end: Key) {
    Sorted(sent) && forall i :: 0 <= i < |sent| ==> !Past(end, sent[i].key)
  }

  datatype Stop = NotYet | PastEnd | Disorder

  /** Sends a page up to the end bound or the first key that does not ascend. */
  method SendPage(objs: seq<Obj>, last: Option<Key>, end: Key, ghost before: seq<Obj>)
    returns (sent: seq<Obj>, stop: Stop)
    requires Emitted(before, end) && last == LastKey(before)
    ensures Emitted(before + sent, end) && sent <= objs
    ensures stop.NotYet? ==> sent == objs
    ensures stop.PastEnd? ==> |sent| < |objs| && Past(end, objs[|sent|].key)
    ensures stop.Disorder? ==> |sent| < |objs| && before + sent != [] &&
                               !Less((before + sent)[|before + sent|-1].key, objs[|sent|].key)
  {
    sent, stop := [], NotYet;
    var lastkey := last;
    assert before + sent == before;
    while |sent| < |objs|
      invariant sent <= objs && Emitted(before + sent, end) && lastkey == LastKey(before + sent)
      decreases |objs| - |sent|
    {
      var o := objs[|sent|];
      if lastkey.Some? && !Less(lastkey.value, o.key) { stop := Disorder; return; }
      if Past(end, o.key) { stop := PastEnd; return; }
      EmittedGrows(before + sent, o, end);
      assert before + (sent + [o]) == (before + sent) + [o];
      sent := sent + [o];
      lastkey := Some(o.key);
    }
  }

  lemma EmittedGrows(sent: seq<Obj>, o: Obj, end: Key)
    requires Emitted(sent, end) && !Past(end, o.key)
    requires sent != [] ==> Less(sent[|sent|-1].key, o.key)
    ensures Emitted(sent + [o], end)
  {
    forall i | 0 <= i < |sent| ensures Less(sent[i].key, o.key) {
      if i < |sent| - 1 { LessTransitive(sent[i].key, sent[|sent|-1].key, o.key); }
    }
  }

  /** Asks for the next page, trying the same request again so many times. */
  method Continue(store: Store, n0: nat, marker: Option<Key>, retries: nat, ghost budget: nat)
      returns (r: Response, n: nat)
    requires Exhausted(store, budget)
    ensures n0 < n <= n0 + 1 + retries && r == store(n - 1, marker) && (r.Page? && r.hasMore ==> n <= budget)
    ensures forall i: nat :: n0 <= i < n - 1 ==> store(i, marker).Failed?
    ensures r.Failed? ==> n == n0 + 1 + retries
  {
    r, n := store(n0, marker), n0 + 1;
    var count := 0;
    while r.Failed? && count < retries
      invariant n == n0 + 1 + count && r == store(n - 1, marker) && count <= retries
      invariant forall i: nat :: n0 <= i < n - 1 ==> store(i, marker).Failed?
    {
      r, n := store(n, marker), n + 1;
      count := count + 1;
    }
  }

  /** `sent` and then the page at hand are the next keys of an honest store. */
  ghost predicate OnTrack(all: seq<Obj>, sent: seq<Obj>, objs: seq<Obj>, hasMore: bool) {
    sent + objs <= all && if hasMore then sent + objs != [] else sent + objs == all
  }

  lemma {:induction false} OnTrackStep(all: seq<Obj>, before: seq<Obj>, objs: seq<Obj>, hasMore: bool,
                                       sent: seq<Obj>, stop: Stop, end: Key)
    requires Sorted(all) && OnTrack(all, before, objs, hasMore) && sent <= objs && Emitted(before + sent, end)
    requires stop.Disorder? ==> |sent| < |objs| && before + sent != [] &&
                                !Less((before + sent)[|before + sent|-1].key, objs[|sent|].key)
    requires stop.PastEnd? ==> |sent| < |objs| && Past(end, objs[|sent|].key)
    requires stop.NotYet? ==> sent == objs
    ensures !stop.Disorder? && before + sent <= UpTo(all, end) && before + sent <= all
    ensures stop.PastEnd? || !hasMore ==> UpTo(all, end) == before + sent
  {
    var q := |before + sent|;
    assert (before + objs)[..q] == before + sent;
    assert all[..q] == before + sent;
    if |sent| < |objs| { assert all[q] == (before + objs)[q] == objs[|sent|]; }
    if before + sent != [] { assert (before + sent)[q-1] == all[q-1]; }
    UpToGrows(all, end, q);
  }

  function StartOf(start: Option<Obj>): seq<Obj> {
    if start.Some? then [start.value] else []
  }

  datatype Verdict = More(objs: seq<Obj>, hasMore: bool) | Complete | Abandoned

  /** A listing between two pages: what has been sent of an honest store's keys, and what comes next. */
  ghost predicate Tracking(all: seq<Obj>, sent: seq<Obj>, end: Key, v: Verdict) {
    match v
    case More(objs, hasMore) => OnTrack(all, sent, objs, hasMore) && sent <= UpTo(all, end)
    case Complete => sent == UpTo(all, end)
    case Abandoned => sent <= UpTo(all, end)
  }

  /** Fetches the page after what was sent, without a repeated marker; gives up after four failures. */
  method NextPage(store: Store, n0: nat, last: Option<Key>, end: Key, ghost budget: nat, ghost all: seq<Obj>,
                  ghost sent: seq<Obj>)
    returns (verdict: Verdict, n: nat)
    requires Exhausted(store, budget) && last == LastKey(sent)
    ensures n > n0 && !verdict.Complete? && (verdict.More? && verdict.hasMore ==> n <= budget)
    ensures verdict.More? ==> FromStore(store, verdict.objs)
    ensures verdict.Abandoned? ==> Stuck(store, sent, 3)
    ensures Honest(store, all) && sent != [] && sent <= all && sent <= UpTo(all, end) ==>
        Tracking(all, sent, end, verdict)
  {
    var r;
    r, n := Continue(store, n0, last, RETRIES, budget);
    if r.Failed? {
      assert Refused(store, n0, last, 3);
      return Abandoned, n;
    }
    assert Honest(store, all) && sent <= all ==> Serves(store(n - 1, LastKey(sent)), all, sent);
    verdict := More(Fresh(r.objs, if last.None? then "" else last.value), r.hasMore);
    assert Holds(store, n - 1, last, verdict.objs);
  }

  /** One page: send it, and unless it was the last one fetch the next. */
  method Round(store: Store, n0: nat, objs: seq<Obj>, hasMore: bool, last: Option<Key>, end: Key,
               ghost budget: nat, ghost all: seq<Obj>, ghost sent: seq<Obj>)
    returns (part: seq<Obj>, verdict: Verdict, n: nat, ghost now: seq<Obj>)
    requires Exhausted(store, budget)
    requires Emitted(sent, end) && last == LastKey(sent) && FromStore(store, objs)
    ensures now == sent + part && Emitted(now, end)
    ensures verdict.More? ==> hasMore && n0 < n && FromStore(store, verdict.objs) && (verdict.hasMore ==> n <= budget)
    ensures verdict.Abandoned? ==> Stuck(store, now, 3) || Unordered(store, now)
    ensures verdict.Abandoned? && Honest(store, all) && OnTrack(all, sent, objs, hasMore) ==> Stuck(store, now, 3)
    ensures Honest(store, all) && OnTrack(all, sent, objs, hasMore) ==> Tracking(all, now, end, verdict)
  {
    ghost var honest := Honest(store, all) && OnTrack(all, sent, objs, hasMore);
    var stop;
    part, stop := SendPage(objs, last, end, sent);
    now, n := sent + part, n0;
    if honest { OnTrackStep(all, sent, objs, hasMore, part, stop, end); }
    if stop.Disorder? {
      OneFromStore(store, objs, objs[|part|]);
      verdict := Abandoned;
      return;
    }
    if stop.PastEnd? || !hasMore { verdict := Complete; return; }
    var last' := if part == [] then last else Some(part[|part|-1].key);
    assert last' == LastKey(now) by { if part == [] { assert sent + part == sent; } }
    verdict, n := NextPage(store, n0, last', end, budget, all, now);
  }

  lemma PageFromStore(store: Store, n: nat, m: Option<Key>)
    requires store(n, m).Page?
    ensures FromStore(store, store(n, m).objs)
  {
    assert Holds(store, n, m, store(n, m).objs);
  }

  lemma OneFromStore(store: Store, objs: seq<Obj>, o: Obj)
    requires FromStore(store, objs) && o in objs
    ensures FromStore(store, [o])
  {
    var n: nat, m: Option<Key> :| Holds(store, n, m, objs);
    assert Holds(store, n, m, [o]);
  }

  /** The paged listing. `start` is the object found under the start key. Whatever the store
      answers, the keys after it ascend within the bound, and the listing breaks off only where the store
      refuses or leaves the order; an honest store's keys `all` are delivered, in full unless it refuses. */
  method ListAll(start: Option<Obj>, store: Store, end: Key, ghost budget: nat, ghost all: seq<Obj>)
    returns (out: seq<Item>, err: bool, ghost sent: seq<Obj>)
    requires Exhausted(store, budget)
    ensures err <==> store(0, None).Failed?
    ensures !err ==> Emitted(sent, end)
    ensures !err ==> out == Items(StartOf(start) + sent) ||
                     (out == Items(StartOf(start) + sent) + [Broken]
                         && (Stuck(store, sent, 3) || Unordered(store, sent)))
    ensures !err && Honest(store, all) ==> Delivers(out, StartOf(start) + UpTo(all, end))
    ensures Honest(store, all) && Reliable(store, 3) ==> !err && out == Items(StartOf(start) + UpTo(all, end))
  {
    out, err, sent := Items(StartOf(start)), false, [];
    var r, n: nat := store(0, None), 1;
    if r.Failed? { return [], true, []; }
    assert Honest(store, all) ==> Serves(store(0, LastKey([])), all, []);
    assert Honest(store, all) ==> [] + r.objs == r.objs;
    var verdict, last: Option<Key> := More(r.objs, r.hasMore), None;
    assert StartOf(start) + sent == StartOf(start);
    assert Holds(store, 0, None, r.objs);
    while verdict.More?
      invariant Emitted(sent, end) && last == LastKey(sent) && out == Items(StartOf(start) + sent)
      invariant Honest(store, all) ==> Tracking(all, sent, end, verdict)
      invariant verdict.More? ==> FromStore(store, verdict.objs) && (verdict.hasMore ==> n <= budget)
      invariant verdict.Abandoned? ==> Stuck(store, sent, 3) || Unordered(store, sent)
      invariant verdict.Abandoned? && Honest(store, all) ==> Stuck(store, sent, 3)
      decreases if verdict.More? then (if verdict.hasMore then budget - n + 2 else 1) else 0
    {
      var part;
      ghost var now;
      part, verdict, n, now := Round(store, n, verdict.objs, verdict.hasMore, last, end, budget, all, sent);
      if part == [] { assert now == sent; } else { last := Some(part[|part|-1].key); }
      OutGrows(start, sent, part);
      out, sent := out + Items(part), now;
    }
    if verdict.Abandoned? {
      if Honest(store, all) { PrefixDelivers(StartOf(start) + sent, StartOf(start) + UpTo(all, end)); }
      out := out + [Broken];
    }
  }

  lemma OutGrows(start: Option<Obj>, sent: seq<Obj>, part: seq<Obj>)
    ensures Items(StartOf(start) + sent) + Items(part) == Items(StartOf(start) + (sent + part))
  {
    ItemsOfConcat(StartOf(start) + sent, part);
    assert StartOf(start) + sent + part == StartOf(start) + (sent + part);
  }

  // ---- Filter --------------------------------------------------------------------------------

  function Kept(ds: seq<Obj>, keep: Obj -> bool): seq<Obj> {
    if ds == [] then [] else (if keep(ds[0]) then [ds[0]] else []) + Kept(ds[1..], keep)
  }

  /** The filter stage: drops what is excluded, forwards a failure mark and stops there. */
  method Filter(items: seq<Item>, keep: Obj -> bool, ghost full: seq<Obj>) returns (out: seq<Item>)
    requires Delivers(items, full)
    ensures Delivers(out, Kept(full, keep))
    ensures items == Items(full) ==> out == Items(Kept(full, keep))
    ensures items != Items(full) ==> 0 < |items| <= |full| + 1 && out == Items(Kept(full[..|items|-1], keep)) + [Broken]
  {
    hide Delivers, Kept, Items;
    out := [];
    NothingKept(full, keep);
    ghost var sent, rest, i := [], full, 0;
    ghost var whole := items == Items(full);
    var ch := items;
    while ch != []
      invariant Delivers(ch, rest) && i + |ch| == |items| && i <= |full| && rest == full[i..]
          && (whole <==> ch == Items(rest))
      invariant out == Items(sent) && Kept(full, keep) == sent + Kept(rest, keep) && sent == Kept(full[..i], keep)
      decreases |ch|
    {
      if ch[0].Broken? {
        PrefixDelivers(sent, Kept(full, keep));
        BrokenIsLast(ch, rest);
        return out + [Broken];
      }
      DeliversSteps(ch, rest);
      KeptSnoc(full, keep, i);
      KeptStep(full, rest, keep, sent);
      OneItem(rest[0]);
      if keep(ch[0].obj) {
        ItemsOfConcat(sent, [rest[0]]);
        out := out + [ch[0]];
        sent := sent + [rest[0]];
      }
      ch, rest, i := ch[1..], rest[1..], i + 1;
    }
    EndsDelivered(rest, sent);
    NothingKept([], keep);
    assert full[..i] == full;
    assert sent + [] == sent;
  }

  lemma {:induction false} NothingKept(full: seq<Obj>, keep: Obj -> bool)
    ensures Kept([], keep) == [] && Items([]) == [] && [] + Kept(full, keep) == Kept(full, keep) && full[..0] == []
        && full[0..] == full
  {}

  lemma {:induction false} KeptStep(full: seq<Obj>, rest: seq<Obj>, keep: Obj -> bool, sent: seq<Obj>)
    requires rest != [] && Kept(full, keep) == sent + Kept(rest, keep)
    ensures Kept(full, keep) == (sent + if keep(rest[0]) then [rest[0]] else []) + Kept(rest[1..], keep)
  {
    hide Kept;
    var one, tail := if keep(rest[0]) then [rest[0]] else [], Kept(rest[1..], keep);
    KeptHead(rest, keep);
    Associative(sent, one, tail);
  }

  lemma {:induction false} KeptHead(ds: seq<Obj>, keep: Obj -> bool)
    requires ds != []
    ensures Kept(ds, keep) == (if keep(ds[0]) then [ds[0]] else []) + Kept(ds[1..], keep)
  {}

  lemma Associative<T>(a: seq<T>, b: seq<T>, c: seq<T>)
    ensures a + (b + c) == (a + b) + c
  {}

  lemma OneItem(o: Obj)
    ensures Items([o]) == [Entry(o)]
  {}

  lemma {:induction false} KeptSnoc(ds: seq<Obj>, keep: Obj -> bool, i: nat)
    requires i < |ds|
    ensures Kept(ds[..i+1], keep) == Kept(ds[..i], keep) + if keep(ds[i]) then [ds[i]] else []
  {
    if i == 0 {
      assert ds[..1] == [ds[0]] && ds[..1][1..] == [];
    } else {
      KeptSnoc(ds[1..], keep, i - 1);
      assert ds[..i+1][1..] == ds[1..][..i] && ds[..i][1..] == ds[1..][..i-1];
    }
  }

  lemma BrokenIsLast(ch: seq<Item>, full: seq<Obj>)
    requires Delivers(ch, full) && ch != [] && ch[0].Broken?
    ensures |ch| == 1 && ch != Items(full)
  {
    if full != [] { assert Items(full)[0] == Entry(full[0]); }
  }

  lemma DeliversSteps(ch: seq<Item>, full: seq<Obj>)
    requires Delivers(ch, full) && ch != [] && ch[0].Entry?
    ensures full != [] && ch[0] == Entry(full[0]) && Delivers(ch[1..], full[1..])
    ensures ch == Items(full) <==> ch[1..] == Items(full[1..])
  {
    DstFeedSteps(ch, full);
    DropEntries(full);
    assert ch == [ch[0]] + ch[1..] && Items(full) == [Items(full)[0]] + Items(full)[1..];
  }

  lemma EndsDelivered(rest: seq<Obj>, sent: seq<Obj>)
    requires Delivers([], rest)
    ensures rest == [] && Delivers(Items(sent), sent)
  {}

  lemma {:induction false} KeptIsSubset(ds: seq<Obj>, keep: Obj -> bool, d: Obj)
    ensures d in Kept(ds, keep) <==> d in ds && keep(d)
  {
    if ds != [] { KeptIsSubset(ds[1..], keep, d); assert ds == [ds[0]] + ds[1..]; }
  }

  lemma {:induction false} KeptSorted(ds: seq<Obj>, keep: Obj -> bool)
    requires Sorted(ds)
    ensures Sorted(Kept(ds, keep))
  {
    if ds != [] {
      KeptSorted(ds[1..], keep);
      var tail := Kept(ds[1..], keep);
      forall i | 0 <= i < |tail| ensures Less(ds[0].key, tail[i].key) {
        KeptIsSubset(ds[1..], keep, tail[i]);
        var j :| 0 <= j < |ds[1..]| && ds[1..][j] == tail[i];
        assert ds[j+1] == tail[i];
      }
    }
  }

  // ---- Gate prefetch -------------------------------------------------------------------------

  const BATCH := 500

  /** `out` is `items` in order, each object with its true gate row or with none. */
  ghost predicate Prefetched(out: seq<Gated>, items: seq<Item>, db: Key -> Option<Record>) {
    && |out| == |items|
    && forall i :: 0 <= i < |out| ==>
         && out[i].item == items[i]
         && (out[i].rec == None || (items[i].Entry? && out[i].rec == db(items[i].obj.key)))
  }

  /** No object lacks the row the table has for it. */
  ghost predicate AllRows(out: seq<Gated>, db: Key -> Option<Record>) {
    forall i :: 0 <= i < |out| && out[i].item.Entry? ==> out[i].rec == db(out[i].item.obj.key)
  }

  /** Sends one batch with its rows; a failed query sends it without any. */
  method Flush(batch: seq<Item>, db: Key -> Option<Record>, queryFails: bool) returns (sent: seq<Gated>)
    requires forall i :: 0 <= i < |batch| ==> batch[i].Entry?
    ensures Prefetched(sent, batch, db)
    ensures if queryFails then forall i :: 0 <= i < |sent| ==> sent[i].rec == None else AllRows(sent, db)
  {
    sent := [];
    while |sent| < |batch|
      invariant |sent| <= |batch| && Prefetched(sent, batch[..|sent|], db)
      invariant if queryFails then forall i :: 0 <= i < |sent| ==> sent[i].rec == None else AllRows(sent, db)
    {
      var item := batch[|sent|];
      sent := sent + [Gated(item, if queryFails then None else db(item.obj.key))];
    }
  }

  /** The batching loop. `timer(i)` says that the flush timer fires before item i arrives and
      `fails(n)` that the query made after n items fails: both are arbitrary. */
  method Prefetch(input: seq<Item>, db: Key -> Option<Record>, timer: nat -> bool, fails: nat -> bool)
    returns (out: seq<Gated>)
    requires forall i :: 0 <= i < |input| - 1 ==> input[i].Entry?
    ensures Prefetched(out, input, db)
    ensures (forall n: nat :: !fails(n)) ==> AllRows(out, db)
  {
    hide Prefetched, AllRows;
    out := [];
    NoRows(db);
    ghost var sound := forall n: nat :: !fails(n);
    var batch: seq<Item> := [];
    var i := 0;
    while i < |input|
      invariant i <= |input| && |out| + |batch| == i && batch == input[|out|..i]
      invariant forall j :: 0 <= j < |batch| ==> batch[j].Entry?
      invariant Prefetched(out, input[..|out|], db)
      invariant sound ==> AllRows(out, db)
    {
      assert sound ==> !fails(i);
      if timer(i) || |batch| == BATCH {
        out, batch := FlushInto(out, batch, db, fails(i), input);
        assert |out| == i;
      }
      if input[i].Broken? {
        out, batch := FlushInto(out, batch, db, fails(i), input);
        EndsBroken(out, input, db);
        return out + [Gated(Broken, None)];
      }
      assert input[|out|..i] + [input[i]] == input[|out|..i + 1];
      batch := batch + [input[i]];
      i := i + 1;
    }
    out, batch := FlushInto(out, batch, db, fails(i), input);
    assert input[..|out|] == input;
  }

  lemma NoRows(db: Key -> Option<Record>)
    ensures Prefetched([], [], db) && AllRows([], db)
  {}

  lemma EndsBroken(out: seq<Gated>, input: seq<Item>, db: Key -> Option<Record>)
    requires |input| == |out| + 1 && input[|out|].Broken? && Prefetched(out, input[..|out|], db)
    ensures Prefetched(out + [Gated(Broken, None)], input, db)
    ensures AllRows(out, db) ==> AllRows(out + [Gated(Broken, None)], db)
  {
    forall i | 0 <= i < |out| ensures input[i] == input[..|out|][i] {}
  }

  method FlushInto(out: seq<Gated>, batch: seq<Item>, db: Key -> Option<Record>, queryFails: bool,
                   ghost input: seq<Item>)
    returns (out': seq<Gated>, batch': seq<Item>)
    requires |out| + |batch| <= |input| && batch == input[|out|..|out| + |batch|]
    requires forall j :: 0 <= j < |batch| ==> batch[j].Entry?
    requires Prefetched(out, input[..|out|], db)
    ensures batch' == [] && |out'| == |out| + |batch| && Prefetched(out', input[..|out'|], db)
    ensures AllRows(out, db) && !queryFails ==> AllRows(out', db)
  {
    var sent := Flush(batch, db, queryFails);
    out', batch' := out + sent, [];
  }
}

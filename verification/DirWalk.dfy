/** The concurrent directory walk: ten prefetchers list ahead of one consumer. */
module DirWalk {
  import opened Keys
  import opened DirTree

  const CONCURRENT: nat := 10

  /** A store: the pages in which it answers the listing of a directory, and which answers fail. */
  datatype Store = Store(pages: Key -> seq<seq<Node>>, fails: (Key, nat) -> bool)

  function Joined(pages: seq<seq<Node>>): seq<Node> {
    if pages == [] then [] else Joined(pages[..|pages| - 1]) + pages[|pages| - 1]
  }

  /** The pages of every directory below p are its children; only a last page may be empty. */
  ghost predicate Serves(st: Store, p: Key, f: seq<Node>)
    decreases f
  {
    forall i :: 0 <= i < |f| && Entered(p, f[i]) ==>
      && st.pages(f[i].key) != [] && Joined(st.pages(f[i].key)) == f[i].children
      && (|st.pages(f[i].key)| > 1 ==> st.pages(f[i].key)[0] != [])
      && Serves(st, f[i].key, f[i].children)
  }

  /** What one prefetcher and the consumer share, and the loop variable of the prefetcher. */
  datatype Slot = Slot(pos: nat, ready: bool, entries: seq<Node>, hasMore: bool, err: bool)

  predicate Stops(f: seq<Node>, i: nat, end: Key)
    requires i < |f|
  {
    end != "" && !Less(f[i].key, end)
  }

  /** The entries that both sides list. */
  predicate Due(p: Key, f: seq<Node>, start: Key, end: Key, i: nat) {
    i < |f| && Wanted(p, f[i], start) && !Stops(f, i, end)
  }

  /** Once past the end, always past it: this is where both sides need the listing to be in order. */
  lemma {:induction false} StopsUpward(p: Key, f: seq<Node>, end: Key, i: nat, j: nat)
    requires WellFormed(p, f) && i <= j < |f| && Stops(f, i, end)
    ensures Stops(f, j, end)
  {
    if i < j && Less(f[j].key, end) { LessTransitive(f[i].key, f[j].key, end); }
  }

  /** Seen from a consumer at entry i: a published listing is the next one due from this prefetcher; if
      none is published, the prefetcher has not passed any that is still due. */
  ghost predicate InStep(st: Store, p: Key, f: seq<Node>, start: Key, end: Key, c: nat, s: Slot, i: nat) {
    && s.pos % CONCURRENT == c
    && (forall j: nat :: s.pos <= j < i && j % CONCURRENT == c ==> !Due(p, f, start, end, j))
    && (!s.ready ==> forall j: nat :: i <= j < s.pos && j % CONCURRENT == c ==> !Due(p, f, start, end, j))
    && (s.ready ==>
          && s.pos >= CONCURRENT && i <= s.pos - CONCURRENT && Due(p, f, start, end, s.pos - CONCURRENT)
          && (forall j: nat :: i <= j < s.pos - CONCURRENT && j % CONCURRENT == c ==> !Due(p, f, start, end, j))
          && Publishes(st, s, f[s.pos - CONCURRENT].key))
  }

  /** The slot holds the first answer to the listing of k. */
  ghost predicate Publishes(st: Store, s: Slot, k: Key) {
    && s.err == st.fails(k, 0)
    && (!s.err ==> st.pages(k) != [] && s.entries == st.pages(k)[0] && s.hasMore == (|st.pages(k)| > 1))
  }

  /** Passing an entry that is not due. */
  lemma PassStep(st: Store, p: Key, f: seq<Node>, start: Key, end: Key, c: nat, s: Slot, i: nat)
    requires InStep(st, p, f, start, end, c, s, i) && !s.ready && !Due(p, f, start, end, s.pos)
    ensures InStep(st, p, f, start, end, c, s.(pos := s.pos + CONCURRENT), i)
  {
    hide Due;
    forall j: nat | s.pos <= j < s.pos + CONCURRENT && j % CONCURRENT == c
      ensures j == s.pos
    {
      SameClass(s.pos, j, c);
    }
  }

  /** Publishing an entry that is due. */
  lemma PublishStep(st: Store, p: Key, f: seq<Node>, start: Key, end: Key, c: nat, s: Slot, t: Slot, i: nat)
    requires InStep(st, p, f, start, end, c, s, i) && !s.ready && Due(p, f, start, end, s.pos)
    requires t.ready && t.pos == s.pos + CONCURRENT && Publishes(st, t, f[s.pos].key)
    ensures InStep(st, p, f, start, end, c, t, i)
  {
    hide Publishes;
    assert i <= s.pos;
  }

  lemma {:induction false} ServesAt(st: Store, p: Key, f: seq<Node>, i: nat)
    requires Serves(st, p, f) && i < |f| && Entered(p, f[i])
    ensures st.pages(f[i].key) != [] && Joined(st.pages(f[i].key)) == f[i].children
    ensures Serves(st, f[i].key, f[i].children)
  {}

  /** A prefetcher runs up to its next publication, or to the end. */
  method Prefetch(st: Store, p: Key, f: seq<Node>, start: Key, end: Key, ghost c: nat, s: Slot, ghost i: nat)
      returns (t: Slot)
    requires WellFormed(p, f) && InStep(st, p, f, start, end, c, s, i) && !s.ready && Serves(st, p, f)
    ensures InStep(st, p, f, start, end, c, t, i)
    ensures Due(p, f, start, end, i) && i % CONCURRENT == c ==> t.ready
  {
    hide InStep, WellFormed, Serves;
    t := s;
    while t.pos < |f|
      invariant InStep(st, p, f, start, end, c, t, i) && !t.ready
    {
      if Stops(f, t.pos, end) {
        if t.pos <= i < |f| { StopsUpward(p, f, end, t.pos, i); }
        NotPassed(st, p, f, start, end, c, t, i);
        return;
      }
      var key := f[t.pos].key;
      if Wanted(p, f[t.pos], start) {
        ServesAt(st, p, f, t.pos);
        var failed := st.fails(key, 0);
        var pages := st.pages(key);
        ghost var before := t;
        t := Slot(t.pos + CONCURRENT, true, if failed then [] else pages[0], !failed && |pages| > 1, failed);
        PublishStep(st, p, f, start, end, c, before, t, i);
        return;
      }
      PassStep(st, p, f, start, end, c, t, i);
      t := t.(pos := t.pos + CONCURRENT);
    }
    NotPassed(st, p, f, start, end, c, t, i);
  }

  /** What is due now has not been passed by a prefetcher that has published nothing. */
  lemma NotPassed(st: Store, p: Key, f: seq<Node>, start: Key, end: Key, c: nat, s: Slot, i: nat)
    requires InStep(st, p, f, start, end, c, s, i) && !s.ready
    ensures Due(p, f, start, end, i) && i % CONCURRENT == c ==> s.pos <= i
  {}

  /** The consumer takes what was published: the first page and all further ones. */
  method Take(st: Store, p: Key, f: seq<Node>, start: Key, end: Key, ghost c: nat, s: Slot, i: nat)
    returns (t: Slot, children: seq<Node>, ok: bool)
    requires InStep(st, p, f, start, end, c, s, i) && s.ready && Due(p, f, start, end, i) && i % CONCURRENT == c
    requires Serves(st, p, f)
    ensures ok ==> children == f[i].children && InStep(st, p, f, start, end, c, t, i + 1)
    ensures !ok ==> exists m: nat :: st.fails(f[i].key, m)
  {
    ghost var j := s.pos - CONCURRENT;
    SameClass(i, j, c);
    t := s;
    if s.err { return t, [], false; }
    var pages := st.pages(f[i].key);
    var m := 1;
    children := s.entries;
    assert Joined(pages[..1]) == Joined(pages[..1][..0]) + pages[0] == pages[0];
    while m < |pages|
      invariant t.pos == s.pos && 1 <= m <= |pages| && children == Joined(pages[..m]) && t.hasMore == (m < |pages|)
    {
      if st.fails(f[i].key, m) { return t, [], false; }
      assert pages[..m + 1][..m] == pages[..m];
      children, m := children + pages[m], m + 1;
      t := t.(hasMore := m < |pages|);
    }
    assert pages[..m] == pages;
    t, ok := Slot(t.pos, false, [], false, false), true;
  }

  lemma SameClass(i: nat, j: nat, c: nat)
    requires i % CONCURRENT == c && j % CONCURRENT == c
    ensures i < j ==> i + CONCURRENT <= j
  {}

  /** Moving past an entry that is not due from this prefetcher. */
  lemma SkipStep(st: Store, p: Key, f: seq<Node>, start: Key, end: Key, c: nat, s: Slot, i: nat)
    requires InStep(st, p, f, start, end, c, s, i) && (i % CONCURRENT != c || !Due(p, f, start, end, i))
    ensures InStep(st, p, f, start, end, c, s, i + 1)
  {
    hide Due, Publishes;
  }

  ghost predicate AllInStep(st: Store, p: Key, f: seq<Node>, start: Key, end: Key, threads: seq<Slot>, i: nat) {
    |threads| == CONCURRENT && forall c: nat :: c < CONCURRENT ==> InStep(st, p, f, start, end, c, threads[c], i)
  }

  /** Some prefetchers run ahead, any of them any number of times. */
  method RunAhead(st: Store, p: Key, f: seq<Node>, start: Key, end: Key, threads: seq<Slot>, ghost i: nat)
      returns (threads': seq<Slot>)
    requires WellFormed(p, f) && Serves(st, p, f) && AllInStep(st, p, f, start, end, threads, i)
    ensures AllInStep(st, p, f, start, end, threads', i)
  {
    hide InStep, WellFormed, Serves;
    threads' := threads;
    var times: nat := *;
    while times > 0
      invariant AllInStep(st, p, f, start, end, threads', i)
    {
      var c: nat :| c < CONCURRENT;
      if !threads'[c].ready {
        var t := Prefetch(st, p, f, start, end, c, threads'[c], i);
        threads' := threads'[c := t];
      }
      times := times - 1;
    }
  }

  /** Waits for the prefetcher of entry i and takes the whole listing of it. */
  method ListDue(st: Store, p: Key, f: seq<Node>, start: Key, end: Key, threads: seq<Slot>, i: nat)
    returns (threads': seq<Slot>, children: seq<Node>, ok: bool)
    requires WellFormed(p, f) && Serves(st, p, f) && AllInStep(st, p, f, start, end, threads, i)
        && Due(p, f, start, end, i)
    ensures ok ==> children == f[i].children && AllInStep(st, p, f, start, end, threads', i + 1)
    ensures !ok ==> exists m: nat :: st.fails(f[i].key, m)
  {
    hide InStep, WellFormed, Serves, Due;
    threads' := threads;
    var c := i % CONCURRENT;
    if !threads'[c].ready {
      var t := Prefetch(st, p, f, start, end, c, threads'[c], i);
      threads' := threads'[c := t];
    }
    var taken;
    taken, children, ok := Take(st, p, f, start, end, c, threads'[c], i);
    if ok {
      forall d: nat | d < CONCURRENT && d != c ensures InStep(st, p, f, start, end, d, threads'[d], i + 1) {
        SkipStep(st, p, f, start, end, d, threads'[d], i);
      }
      threads' := threads'[c := taken];
    }
  }

  lemma AllSkip(st: Store, p: Key, f: seq<Node>, start: Key, end: Key, threads: seq<Slot>, i: nat)
    requires AllInStep(st, p, f, start, end, threads, i) && !Due(p, f, start, end, i)
    ensures AllInStep(st, p, f, start, end, threads, i + 1)
  {
    hide InStep, Due;
    forall c: nat | c < CONCURRENT ensures InStep(st, p, f, start, end, c, threads[c], i + 1) {
      SkipStep(st, p, f, start, end, c, threads[c], i);
    }
  }

  lemma AllStart(st: Store, p: Key, f: seq<Node>, start: Key, end: Key, threads: seq<Slot>)
    requires |threads| == CONCURRENT && forall c: nat :: c < CONCURRENT ==>
        threads[c] == Slot(c, false, [], false, false)
    ensures AllInStep(st, p, f, start, end, threads, 0)
  {}

  /** The walk from entry i on. */
  lemma {:induction false} WalkFrom(p: Key, f: seq<Node>, start: Key, end: Key, i: nat)
    requires i <= |f|
    ensures i == |f| || Stops(f, i, end) ==> Walk(p, f[i..], start, end) == []
    ensures i < |f| && !Stops(f, i, end) ==>
              Walk(p, f[i..], start, end) == Visit(p, f[i], start, end) + Walk(p, f[i + 1..], start, end)
  {
    if i < |f| { assert f[i..][1..] == f[i + 1..]; }
  }

  /** Sending part of what is due leaves a prefix of the whole. */
  lemma Extended(sent: seq<Key>, part: seq<Key>, visit: seq<Key>, rest: seq<Key>)
    requires part <= visit
    ensures sent + part <= sent + (visit + rest)
    ensures part == visit ==> (sent + part) + rest == sent + (visit + rest)
  {}

  /** The consumer of one directory, with its own ten prefetchers. Whatever runs ahead, it sends what the
      sequential walk sends; after a failed listing, a part of it. */
  method WalkDir(st: Store, p: Key, f: seq<Node>, start: Key, end: Key) returns (out: seq<Key>, ok: bool)
    requires WellFormed(p, f) && Serves(st, p, f)
    ensures out <= Walk(p, f, start, end) && (ok ==> out == Walk(p, f, start, end))
    ensures !ok ==> exists k: Key, m: nat :: st.fails(k, m)
    decreases f, 1
  {
    hide Walk, Visit, AllInStep, WellFormed, Serves;
    var threads := seq(CONCURRENT, c requires 0 <= c => Slot(c, false, [], false, false));
    AllStart(st, p, f, start, end, threads);
    out, ok := [], true;
    var i := 0;
    assert f[0..] == f;
    while i < |f|
      invariant i <= |f| && ok && AllInStep(st, p, f, start, end, threads, i)
      invariant out + Walk(p, f[i..], start, end) == Walk(p, f, start, end)
    {
      WalkFrom(p, f, start, end, i);
      if Stops(f, i, end) { return; }
      threads := RunAhead(st, p, f, start, end, threads, i);
      var sent;
      sent, threads, ok := VisitEntry(st, p, f, start, end, threads, i);
      Extended(out, sent, Visit(p, f[i], start, end), Walk(p, f[i + 1..], start, end));
      out := out + sent;
      if !ok { return; }
      i := i + 1;
    }
    WalkFrom(p, f, start, end, i);
  }

  /** Sends one entry and, if it is a directory of interest, what lies below it. */
  method VisitEntry(st: Store, p: Key, f: seq<Node>, start: Key, end: Key, threads: seq<Slot>, i: nat)
    returns (sent: seq<Key>, threads': seq<Slot>, ok: bool)
    requires WellFormed(p, f) && Serves(st, p, f) && i < |f| && !Stops(f, i, end)
        && AllInStep(st, p, f, start, end, threads, i)
    ensures sent <= Visit(p, f[i], start, end) && (ok ==> sent == Visit(p, f[i], start, end))
    ensures ok ==> AllInStep(st, p, f, start, end, threads', i + 1)
    ensures !ok ==> exists k: Key, m: nat :: st.fails(k, m)
    decreases f, 0
  {
    hide Walk, AllInStep, WellFormed, Serves;
    threads', ok := threads, true;
    sent := if !Less(f[i].key, start) then [f[i].key] else [];
    if Wanted(p, f[i], start) {
      var children, below;
      threads', children, ok := ListDue(st, p, f, start, end, threads, i);
      if !ok { return; }
      ServesAt(st, p, f, i);
      WellFormedAt(p, f, i);
      below, ok := WalkDir(st, f[i].key, children, start, end);
      sent := sent + below;
    } else {
      AllSkip(st, p, f, start, end, threads, i);
    }
  }

  lemma {:induction false} WellFormedAt(p: Key, f: seq<Node>, i: nat)
    requires WellFormed(p, f) && i < |f| && Entered(p, f[i])
    ensures WellFormed(f[i].key, f[i].children)
  {}

  /** The whole listing, from the root listed after the marker. */
  method ListAllWithDelimiter(st: Store, prefix: Key, f: seq<Node>, start: Key, end: Key)
      returns (out: seq<Key>, ok: bool)
    requires WellFormed(prefix, f) && Serves(st, prefix, After(f, Marker(prefix, start)))
    ensures out <= Listed(prefix, f, start, end) && (ok ==> out == Listed(prefix, f, start, end))
    ensures ok ==> Ascending(out) && forall k :: k in out <==>
              && InTree(prefix, f, k) && !Less(k, start) && (end == "" || Less(k, end))
              && (k == start && start != "" ==> prefix <= start && '/' in start[|prefix|..])
    ensures !ok ==> exists k: Key, m: nat :: st.fails(k, m)
  {
    hide InTree, WellFormed;
    ListedIs(prefix, f, start, end);
    AfterIs(prefix, f, Marker(prefix, start));
    out, ok := WalkDir(st, prefix, After(f, Marker(prefix, start)), start, end);
  }
}

/** A hierarchical store and what a sequential walk of it delivers. */
module DirTree {
  import opened Keys

  datatype Node = File(key: Key) | Dir(key: Key, children: seq<Node>)

  /** Listing p shows the entry p itself as a directory that is not entered again. */
  predicate Entered(p: Key, e: Node) {
    e.Dir? && e.key != p
  }

  /** Siblings below p: in ascending order, none inside another, a directory's name with its slash, and
      their children likewise. */
  ghost predicate WellFormed(p: Key, f: seq<Node>)
    decreases f
  {
    && (forall i :: 0 <= i < |f| ==> p <= f[i].key)
    && (forall i, j :: 0 <= i < j < |f| ==> Less(f[i].key, f[j].key))
    && (forall i, j :: 0 <= i < j < |f| && Entered(p, f[i]) ==> !(f[i].key <= f[j].key))
    && (forall i :: 0 <= i < |f| && Entered(p, f[i]) ==> WellFormed(f[i].key, f[i].children) && NotItself(f[i]))
    && (forall i :: 0 <= i < |f| && Entered(p, f[i]) ==> '/' in f[i].key[|p|..])
  }

  /** The listing of a directory below the root leaves the directory itself out. */
  ghost predicate NotItself(d: Node)
    requires d.Dir?
  {
    forall i :: 0 <= i < |d.children| ==> d.children[i].key != d.key
  }

  /** All keys of a listing, directories before what they hold. */
  function Preorder(p: Key, f: seq<Node>): seq<Key>
    decreases f
  {
    if f == [] then []
    else Subtree(p, f[0]) + Preorder(p, f[1..])
  }

  function Subtree(p: Key, e: Node): seq<Key>
    decreases e
  {
    [e.key] + if Entered(p, e) then Preorder(e.key, e.children) else []
  }

  // ---- Being in the tree ---------------------------------------------------------------------------------

  /** The i-th node of a chain has the next one among its children, and is not the listing's entry for the
      directory itself, below which nothing is listed again. */
  ghost predicate Link(p: Key, c: seq<Node>, i: nat)
    requires i < |c| - 1
  {
    c[i].Dir? && c[i].key != (if i == 0 then p else c[i - 1].key) && c[i + 1] in c[i].children
  }

  /** Nodes from the root listing down. */
  ghost predicate Chain(p: Key, f: seq<Node>, c: seq<Node>)
    requires c != []
  {
    c[0] in f && forall i :: 0 <= i < |c| - 1 ==> Link(p, c, i)
  }

  ghost predicate InTree(p: Key, f: seq<Node>, k: Key) {
    exists c: seq<Node> :: c != [] && Chain(p, f, c) && c[|c| - 1].key == k
  }

  lemma {:induction false} InSome(p: Key, f: seq<Node>, k: Key)
    ensures k in Preorder(p, f) <==> exists i :: 0 <= i < |f| && k in Subtree(p, f[i])
  {
    hide Subtree;
    if f != [] {
      InSome(p, f[1..], k);
      if i :| 0 <= i < |f| && k in Subtree(p, f[i]) {
        if i > 0 { assert f[1..][i - 1] == f[i]; }
      }
      if i :| 0 <= i < |f[1..]| && k in Subtree(p, f[1..][i]) { assert f[i + 1] == f[1..][i]; }
    }
  }

  lemma ChainTail(p: Key, f: seq<Node>, c: seq<Node>)
    requires |c| > 1 && Chain(p, f, c)
    ensures Entered(p, c[0]) && Chain(c[0].key, c[0].children, c[1..])
  {
    assert Link(p, c, 0);
    var r := c[1..];
    forall i | 0 <= i < |r| - 1 ensures Link(c[0].key, r, i) {
      assert Link(p, c, i + 1);
      assert r[i] == c[i + 1] && r[i + 1] == c[i + 2] && (i > 0 ==> r[i - 1] == c[i]);
    }
  }

  lemma ChainCons(p: Key, f: seq<Node>, e: Node, c: seq<Node>)
    requires e in f && Entered(p, e) && c != [] && Chain(e.key, e.children, c)
    ensures Chain(p, f, [e] + c)
  {
    var r := [e] + c;
    forall i | 0 <= i < |r| - 1 ensures Link(p, r, i) {
      if i > 0 {
        assert Link(e.key, c, i - 1);
        assert r[i] == c[i - 1] && r[i + 1] == c[i] && (i > 1 ==> r[i - 1] == c[i - 2]);
      }
    }
  }

  /** The keys of a listing are those of the nodes that a chain from the root comes to. */
  lemma {:induction false} PreorderIs(p: Key, f: seq<Node>, k: Key)
    ensures k in Preorder(p, f) <==> InTree(p, f, k)
  {
    if k in Preorder(p, f) { ChainTo(p, f, k); }
    if c: seq<Node> :| c != [] && Chain(p, f, c) && c[|c| - 1].key == k { AlongChain(p, f, c); }
  }

  lemma {:induction false} ChainTo(p: Key, f: seq<Node>, k: Key)
    requires k in Preorder(p, f)
    ensures InTree(p, f, k)
    decreases f
  {
    hide Chain, Preorder;
    InSome(p, f, k);
    var i :| 0 <= i < |f| && k in Subtree(p, f[i]);
    var e := f[i];
    if k == e.key {
      OneLink(p, f, e);
      assert [e] != [];
    } else {
      ChainTo(e.key, e.children, k);
      var c: seq<Node> :| c != [] && Chain(e.key, e.children, c) && c[|c| - 1].key == k;
      ChainCons(p, f, e, c);
      assert ([e] + c)[|[e] + c| - 1] == c[|c| - 1];
    }
  }

  lemma {:induction false} AlongChain(p: Key, f: seq<Node>, c: seq<Node>)
    requires c != [] && Chain(p, f, c)
    ensures c[|c| - 1].key in Preorder(p, f)
    decreases |c|
  {
    hide Preorder;
    InSome(p, f, c[|c| - 1].key);
    var i :| 0 <= i < |f| && f[i] == c[0];
    if |c| > 1 {
      ChainTail(p, f, c);
      AlongChain(c[0].key, c[0].children, c[1..]);
    }
    assert c[|c| - 1].key in Subtree(p, f[i]);
  }

  lemma OneLink(p: Key, f: seq<Node>, e: Node)
    requires e in f
    ensures Chain(p, f, [e])
  {}

  // ---- Walking it ----------------------------------------------------------------------------------------

  predicate InRange(k: Key, start: Key, end: Key) {
    !Less(k, start) && (end == "" || Less(k, end))
  }

  function Select(s: seq<Key>, start: Key, end: Key): seq<Key> {
    if s == [] then []
    else (if InRange(s[0], start, end) then [s[0]] else []) + Select(s[1..], start, end)
  }

  /** Selecting keeps exactly the keys in range, in their order. */
  lemma {:induction false} SelectIs(s: seq<Key>, start: Key, end: Key)
    ensures forall k :: k in Select(s, start, end) <==> k in s && InRange(k, start, end)
    ensures Ascending(s) ==> Ascending(Select(s, start, end))
  {
    if s != [] {
      SelectIs(s[1..], start, end);
      assert s == [s[0]] + s[1..];
      if Ascending(s) {
        forall k | k in s[1..] ensures Less(s[0], k) {
          var i :| 0 <= i < |s[1..]| && s[1..][i] == k;
          assert s[i + 1] == k;
        }
        AscendingConcat(if InRange(s[0], start, end) then [s[0]] else [], Select(s[1..], start, end));
      }
    }
  }

  /** The walk, one entry after another: it stops at the end key, does not enter directories that lie
      before the start key, and leaves out entries below it. */
  function Walk(p: Key, f: seq<Node>, start: Key, end: Key): seq<Key>
    decreases f
  {
    if f == [] || (end != "" && !Less(f[0].key, end)) then []
    else Visit(p, f[0], start, end) + Walk(p, f[1..], start, end)
  }

  function Visit(p: Key, e: Node, start: Key, end: Key): seq<Key>
    decreases e
  {
    (if !Less(e.key, start) then [e.key] else [])
    + if Wanted(p, e, start) then Walk(e.key, e.children, start, end) else []
  }

  /** Whether the walk lists below this entry. */
  predicate Wanted(p: Key, e: Node, start: Key) {
    (!Less(e.key, start) || e.key <= start) && Entered(p, e)
  }

  // ---- The keys of a tree --------------------------------------------------------------------------------

  ghost predicate Ascending(s: seq<Key>) {
    forall i, j :: 0 <= i < j < |s| ==> Less(s[i], s[j])
  }

  ghost predicate Below(s: seq<Key>, p: Key) {
    forall k :: k in s ==> p <= k
  }

  lemma {:induction false} KeysBelow(p: Key, f: seq<Node>)
    requires WellFormed(p, f)
    ensures Below(Preorder(p, f), p)
    decreases f, 0
  {
    if f != [] {
      TailWellFormed(p, f);
      KeysBelow(p, f[1..]);
      SubtreeBelow(p, f);
    }
  }

  lemma {:induction false} TailWellFormed(p: Key, f: seq<Node>)
    requires WellFormed(p, f) && f != []
    ensures WellFormed(p, f[1..])
  {}

  lemma {:induction false} SubtreeBelow(p: Key, f: seq<Node>)
    requires WellFormed(p, f) && f != []
    ensures Below(Subtree(p, f[0]), p)
    ensures Entered(p, f[0]) ==> Below(Subtree(p, f[0]), f[0].key)
    decreases f[0], 1
  {
    if Entered(p, f[0]) {
      KeysBelow(f[0].key, f[0].children);
    }
  }

  lemma {:induction false} AllAbove(p: Key, f: seq<Node>, k: Key)
    requires WellFormed(p, f) && forall i :: 0 <= i < |f| ==> Less(k, f[i].key)
    ensures forall q :: q in Preorder(p, f) ==> Less(k, q)
  {
    if f != [] {
      TailWellFormed(p, f);
      AllAbove(p, f[1..], k);
      SubtreeBelow(p, f);
      forall q | q in Subtree(p, f[0]) ensures Less(k, q) {
        if q != f[0].key {
          PrefixAtMost(f[0].key, q);
          LessTransitive(k, f[0].key, q);
        }
      }
    }
  }

  /** A whole subtree lies before its later siblings and what they hold. */
  lemma {:induction false} SubtreeBefore(p: Key, f: seq<Node>, k: Key)
    requires WellFormed(p, f) && f != [] && k in Subtree(p, f[0])
    ensures forall q :: q in Preorder(p, f[1..]) ==> Less(k, q)
  {
    TailWellFormed(p, f);
    SubtreeBelow(p, f);
    forall i | 0 <= i < |f[1..]| ensures Less(k, f[1..][i].key) {
      assert f[1..][i] == f[i + 1];
      if k != f[0].key { PrefixBlockBefore(f[0].key, k, f[i + 1].key); }
    }
    AllAbove(p, f[1..], k);
  }

  lemma AscendingConcat(a: seq<Key>, b: seq<Key>)
    requires Ascending(a) && Ascending(b) && forall k, q :: k in a && q in b ==> Less(k, q)
    ensures Ascending(a + b)
  {}

  /** The keys of a well-formed listing come out in ascending order, so each once. */
  lemma {:induction false} PreorderAscends(p: Key, f: seq<Node>)
    requires WellFormed(p, f)
    ensures Ascending(Preorder(p, f))
    decreases f
  {
    if f != [] {
      TailWellFormed(p, f);
      PreorderAscends(p, f[1..]);
      forall k, q | k in Subtree(p, f[0]) && q in Preorder(p, f[1..]) ensures Less(k, q) { SubtreeBefore(p, f, k); }
      if Entered(p, f[0]) {
        PreorderAscends(f[0].key, f[0].children);
        ChildrenAbove(f[0]);
        AllAbove(f[0].key, f[0].children, f[0].key);
        AscendingConcat([f[0].key], Preorder(f[0].key, f[0].children));
      }
      AscendingConcat(Subtree(p, f[0]), Preorder(p, f[1..]));
    }
  }

  lemma ChildrenAbove(d: Node)
    requires d.Dir? && WellFormed(d.key, d.children) && NotItself(d)
    ensures forall i :: 0 <= i < |d.children| ==> Less(d.key, d.children[i].key)
  {
    forall i | 0 <= i < |d.children| ensures Less(d.key, d.children[i].key) { PrefixAtMost(d.key, d.children[i].key); }
  }

  // ---- The walk delivers the keys in range ----------------------------------------------------------------

  lemma {:induction false} SelectConcat(a: seq<Key>, b: seq<Key>, start: Key, end: Key)
    ensures Select(a + b, start, end) == Select(a, start, end) + Select(b, start, end)
  {
    hide InRange;
    if a == [] {
      assert a + b == b;
    } else {
      assert (a + b)[0] == a[0];
      SelectConcat(a[1..], b, start, end);
      assert (a + b)[1..] == a[1..] + b;
    }
  }

  lemma {:induction false} SelectNone(s: seq<Key>, start: Key, end: Key)
    requires forall k :: k in s ==> !InRange(k, start, end)
    ensures Select(s, start, end) == []
  {
    if s != [] {
      assert s[0] in s && forall k :: k in s[1..] ==> k in s;
      SelectNone(s[1..], start, end);
    }
  }

  lemma {:induction false} NotBelow(a: Key, b: Key)
    ensures !Less(b, a) <==> AtMost(a, b)
  {
    LessTotal(a, b);
    if AtMost(a, b) && Less(b, a) { LessAsymmetric(b, a); }
  }

  /** Nothing at or after an entry past the end is in range. */
  lemma {:induction false} PastEnd(p: Key, f: seq<Node>, start: Key, end: Key)
    requires WellFormed(p, f) && f != [] && end != "" && !Less(f[0].key, end)
    ensures Select(Preorder(p, f), start, end) == []
  {
    PreorderAscends(p, f);
    var s := Preorder(p, f);
    assert s == Subtree(p, f[0]) + Preorder(p, f[1..]) && s[0] == f[0].key;
    forall k | k in s ensures !InRange(k, start, end) {
      var i :| 0 <= i < |s| && s[i] == k;
      if i > 0 && Less(k, end) { LessTransitive(s[0], k, end); }
    }
    SelectNone(s, start, end);
  }

  /** A directory before the start key that is no prefix of it holds nothing in range. */
  lemma {:induction false} NothingBelow(p: Key, f: seq<Node>, start: Key, end: Key)
    requires WellFormed(p, f) && f != [] && Entered(p, f[0]) && Less(f[0].key, start) && !(f[0].key <= start)
    ensures Select(Subtree(p, f[0]), start, end) == []
  {
    SubtreeBelow(p, f);
    forall k | k in Subtree(p, f[0]) ensures !InRange(k, start, end) {
      NotBelow(start, k);
      if !Less(k, start) { PrefixConvex(f[0].key, f[0].key, start, k); }
    }
    SelectNone(Subtree(p, f[0]), start, end);
  }

  lemma {:induction false} WalkSelects(p: Key, f: seq<Node>, start: Key, end: Key)
    requires WellFormed(p, f)
    ensures Walk(p, f, start, end) == Select(Preorder(p, f), start, end)
    decreases f, 0
  {
    if f == [] {
    } else if end != "" && !Less(f[0].key, end) {
      PastEnd(p, f, start, end);
    } else {
      TailWellFormed(p, f);
      WalkSelects(p, f[1..], start, end);
      VisitSelects(p, f, start, end);
      SelectConcat(Subtree(p, f[0]), Preorder(p, f[1..]), start, end);
    }
  }

  lemma {:induction false} VisitSelects(p: Key, f: seq<Node>, start: Key, end: Key)
    requires WellFormed(p, f) && f != [] && (end == "" || Less(f[0].key, end))
    ensures Visit(p, f[0], start, end) == Select(Subtree(p, f[0]), start, end)
    decreases f[0], 1
  {
    var e := f[0];
    if Wanted(p, e, start) {
      WalkSelects(e.key, e.children, start, end);
      SelectConcat([e.key], Preorder(e.key, e.children), start, end);
    } else if Entered(p, e) {
      NothingBelow(p, f, start, end);
    }
  }

  // ---- Where the walk starts ---------------------------------------------------------------------------------

  function IndexOf(s: Key, c: char): (i: int)
    ensures i < 0 ==> c !in s
    ensures i >= 0 ==> i < |s| && s[i] == c && c !in s[..i]
  {
    if s == "" then -1
    else if s[0] == c then 0
    else
      var r := IndexOf(s[1..], c);
      if r < 0 then r else
        assert s[..r + 1] == [s[0]] + s[1..][..r];
        r + 1
  }

  /** The key after which the root is listed: the start key cut before its first slash past the prefix. */
  function Marker(prefix: Key, start: Key): Key {
    if start != "" && prefix <= start && IndexOf(start[|prefix|..], '/') >= 0
    then prefix + start[|prefix|..][..IndexOf(start[|prefix|..], '/')]
    else start
  }

  /** The entries of a listing after a marker. */
  function After(f: seq<Node>, marker: Key): seq<Node> {
    if f == [] || marker == "" || Less(marker, f[0].key) then f else After(f[1..], marker)
  }

  lemma SlashInherited(p: Key, d: Key, s: Key)
    ensures p <= d && d <= s && '/' in d[|p|..] ==> '/' in s[|p|..]
  {
    if p <= d && d <= s && '/' in d[|p|..] {
      assert s[|p|..][..|d| - |p|] == d[|p|..];
    }
  }

  /** The keys below an entry that the marker skips are out of range, but for the start key itself. */
  lemma {:induction false} SkippedSubtree(p: Key, f: seq<Node>, start: Key, k: Key)
    requires WellFormed(p, f) && f != [] && !Less(Marker(p, start), f[0].key) && Marker(p, start) != ""
    requires k in Subtree(p, f[0]) && !Less(k, start)
    ensures k == start && Marker(p, start) == start
  {
    var m, d := Marker(p, start), f[0].key;
    NotBelow(d, m);
    NotBelow(start, k);
    SubtreeBelow(p, f);
    if m == start {
      if k != d {
        PrefixConvex(d, d, start, k);
        SlashInherited(p, d, start);
        assert false;
      } else if d != start { LessAsymmetric(d, start); }
    } else {
      assert m <= start;
      PrefixAtMost(m, start);
      if k == d {
        if k != start { LessTransitive(m, start, k); }
        if d != m { LessAsymmetric(d, m); }
        LessIrreflexive(d);
        assert false;
      }
      if start != k { LessTransitive(m, start, k); }
      PrefixConvex(d, d, m, k);
      SlashInherited(p, d, m);
    }
  }

  lemma {:induction false} SkippedKeys(p: Key, f: seq<Node>, start: Key, k: Key)
    requires WellFormed(p, f) && k in Preorder(p, f) && !Less(k, start)
    ensures k in Preorder(p, After(f, Marker(p, start))) || (k == start && Marker(p, start) == start != "")
  {
    var m := Marker(p, start);
    if f != [] && m != "" && !Less(m, f[0].key) {
      TailWellFormed(p, f);
      if k in Subtree(p, f[0]) { SkippedSubtree(p, f, start, k); } else { SkippedKeys(p, f[1..], start, k); }
    }
  }

  lemma {:induction false} AfterIs(p: Key, f: seq<Node>, marker: Key)
    requires WellFormed(p, f)
    ensures WellFormed(p, After(f, marker))
    ensures forall k :: k in Preorder(p, After(f, marker)) ==> k in Preorder(p, f)
    ensures marker != "" ==> forall k :: k in Preorder(p, After(f, marker)) ==> Less(marker, k)
  {
    if f != [] {
      TailWellFormed(p, f);
      if marker != "" && !Less(marker, f[0].key) {
        AfterIs(p, f[1..], marker);
      } else if marker != "" {
        forall i | 0 <= i < |f| ensures Less(marker, f[i].key) {
          if i > 0 { LessTransitive(marker, f[0].key, f[i].key); }
        }
        AllAbove(p, f, marker);
      }
    }
  }

  /** What the whole listing delivers: in ascending order, exactly the keys from start to before end,
      without the start key itself when it has no slash past the prefix. */
  function Listed(prefix: Key, f: seq<Node>, start: Key, end: Key): seq<Key> {
    Walk(prefix, After(f, Marker(prefix, start)), start, end)
  }

  lemma {:induction false} ListedIs(prefix: Key, f: seq<Node>, start: Key, end: Key)
    requires WellFormed(prefix, f)
    ensures Ascending(Listed(prefix, f, start, end))
    ensures forall k :: k in Listed(prefix, f, start, end) <==>
              && InTree(prefix, f, k) && !Less(k, start) && (end == "" || Less(k, end))
              && (k == start && start != "" ==> prefix <= start && '/' in start[|prefix|..])
  {
    hide InTree;
    forall k ensures k in Preorder(prefix, f) <==> InTree(prefix, f, k) { PreorderIs(prefix, f, k); }
    var m := Marker(prefix, start);
    var rest := After(f, m);
    AfterIs(prefix, f, m);
    WalkSelects(prefix, rest, start, end);
    PreorderAscends(prefix, rest);
    SelectIs(Preorder(prefix, rest), start, end);
    KeysBelow(prefix, f);
    MarkerIs(prefix, start);
    forall k | k in Preorder(prefix, f) && InRange(k, start, end)
      ensures k in Preorder(prefix, rest) <==> !(k == start == m != "")
    {
      SkippedKeys(prefix, f, start, k);
      if k in Preorder(prefix, rest) && k == m { LessIrreflexive(k); }
    }
  }

  lemma MarkerIs(prefix: Key, start: Key)
    ensures prefix <= start && start != "" ==> (Marker(prefix, start) == start <==> '/' !in start[|prefix|..])
    ensures !(prefix <= start) || start == "" ==> Marker(prefix, start) == start
  {
    if start != "" && prefix <= start && IndexOf(start[|prefix|..], '/') >= 0 {
      assert |Marker(prefix, start)| < |start|;
    }
  }
}

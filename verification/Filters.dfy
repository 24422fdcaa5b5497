/** Include and exclude rules matched level by level, as rsync does. */
module Filters {
  import opened Keys

  datatype Rule = Rule(pattern: string, includes: bool)

  /** `path.Match` on one pattern and one name. */
  type Glob = (string, string) -> bool

  function Split(s: string): (r: seq<string>)
    ensures r != []
  {
    if s == "" then [""]
    else if s[0] == '/' then [""] + Split(s[1..])
    else Prepend(s[0], Split(s[1..]))
  }

  function Prepend(c: char, parts: seq<string>): (r: seq<string>)
    requires parts != []
    ensures |r| == |parts|
  {
    [[c] + parts[0]] + parts[1..]
  }

  lemma PrependConcat(c: char, a: seq<string>, b: seq<string>)
    requires a != []
    ensures Prepend(c, a + b) == Prepend(c, a) + b
  {}

  function Join(parts: seq<string>): string {
    if parts == [] then ""
    else if |parts| == 1 then parts[0]
    else parts[0] + "/" + Join(parts[1..])
  }

  function Find(p: string, sub: string): (i: int)
    ensures -1 <= i && (i >= 0 ==> i + |sub| <= |p| && sub <= p[i..])
  {
    if sub <= p then 0
    else if p == "" then -1
    else
      var r := Find(p[1..], sub);
      if r < 0 then -1 else r + 1
  }

  function Last<T>(s: seq<T>): T
    requires s != []
  {
    s[|s| - 1]
  }

  // ---- The matchers --------------------------------------------------------------------------------------

  predicate MatchTwoStar(g: Glob, p: string, s: seq<string>)
    decreases |p|, 1
  {
    if s == [] then p == "*"
    else
      var idx := Find(p, "**");
      if idx < 0 then g(p, Join(s))
      else
        g(p[..idx + 1], s[0])
        && (MatchTwoStar(g, p[..idx] + p[idx + 1..], s)
            || exists i: nat | 1 <= i <= |s| :: MatchTwoStar(g, p[idx + 1..], s[i..]))
  }

  predicate MatchPrefix(g: Glob, p: seq<string>, s: seq<string>)
    decreases |p|
  {
    if p == [] || s == [] then |p| == |s|
    else if p[0] == "***" then true
    else if Find(p[0], "**") >= 0 then
      exists i: nat | 1 <= i <= |s| :: MatchTwoStar(g, p[0], s[..i]) && MatchPrefix(g, p[1..], s[i..])
    else g(p[0], s[0]) && MatchPrefix(g, p[1..], s[1..])
  }

  predicate MatchSuffix(g: Glob, p: seq<string>, s: seq<string>)
    decreases |p|
  {
    if p == [] then true
    else if s == [] then |p| == 1 && (Last(p) == "***" || Last(p) == "**")
    else
      var front := p[..|p| - 1];
      if Last(p) == "***" then exists i: nat | i < |s| :: MatchSuffix(g, front, s[..i])
      else if Find(Last(p), "**") >= 0 then
        exists i: nat | i < |s| :: MatchTwoStar(g, Last(p), s[i..]) && MatchSuffix(g, front, s[..i])
      else g(Last(p), Last(s)) && MatchSuffix(g, front, s[..|s| - 1])
  }

  /** Whether a rule matches the path down to one level; `inner` says that the key goes on below it. */
  predicate RuleMatches(g: Glob, rule: Rule, level: seq<string>, inner: bool)
    requires level != []
  {
    var p := Split(rule.pattern);
    var ps := if inner && (Last(p) == "" || Last(p) == "***") then level + [""] else level;
    if p[0] == "" then MatchPrefix(g, if ps[0] != "" then p[1..] else p, ps)
    else MatchSuffix(g, p, ps)
  }

  /** The first rule that matches decides. */
  predicate Allowed(g: Glob, rules: seq<Rule>, level: seq<string>, inner: bool)
    requires level != []
  {
    if rules == [] then true
    else if RuleMatches(g, rules[0], level, inner) then rules[0].includes
    else Allowed(g, rules[1..], level, inner)
  }

  ghost predicate LeveledPath(g: Glob, rules: seq<Rule>, key: Key) {
    var parts := Split(key);
    forall i: nat :: i < |parts| && parts[i] != "" ==> Allowed(g, rules, parts[..i + 1], i < |parts| - 1)
  }

  // ---- What patterns mean --------------------------------------------------------------------------------

  ghost predicate HasStars(c: string) {
    exists i :: 0 <= i < |c| - 1 && c[i] == '*' && c[i + 1] == '*'
  }

  /** What one component of a pattern takes of a path: one name, or with a double star one or more. */
  ghost predicate Takes(g: Glob, c: string, names: seq<string>) {
    if HasStars(c) then names != [] && MatchTwoStar(g, c, names) else |names| == 1 && g(c, names[0])
  }

  ghost predicate Climbing(at: seq<nat>, n: nat) {
    at != [] && (forall i :: 0 <= i < |at| - 1 ==> at[i] <= at[i + 1]) && at[|at| - 1] <= n
  }

  /** An anchored pattern and a path cut at these places: the pieces are taken by one component after another,
      to the end or up to a triple star, which takes the rest if there is one. */
  ghost predicate Anchored(g: Glob, p: seq<string>, s: seq<string>, at: seq<nat>) {
    && Climbing(at, |s|) && at[0] == 0
    && var n := |at| - 1;
       && n <= |p| && (if n < |p| then p[n] == "***" && at[n] < |s| else at[n] == |s|)
       && forall i :: 0 <= i < n ==> p[i] != "***" && Takes(g, p[i], Piece(s, at, i))
  }

  ghost function Piece(s: seq<string>, at: seq<nat>, i: nat): seq<string>
    requires Climbing(at, |s|) && i < |at| - 1
  {
    Ordered(at, |s|, i + 1);
    s[at[i]..at[i + 1]]
  }

  lemma {:induction false} Ordered(at: seq<nat>, n: nat, i: nat)
    requires Climbing(at, n) && i < |at|
    ensures at[i] <= n
    decreases |at| - i
  {
    if i < |at| - 1 { Ordered(at, n, i + 1); }
  }

  /** An unanchored pattern takes the end of a path; its first component may be a star that takes nothing. */
  ghost predicate Floating(g: Glob, p: seq<string>, s: seq<string>, at: seq<nat>) {
    && |at| == |p| + 1 && Climbing(at, |s|) && at[|p|] == |s|
    && forall i :: 0 <= i < |p| ==> Fills(g, p, s, at, i)
  }

  ghost predicate Fills(g: Glob, p: seq<string>, s: seq<string>, at: seq<nat>, i: nat)
    requires Climbing(at, |s|) && i < |p| && i < |at| - 1
  {
    || (i == 0 && at[1] == 0 && (p[0] == "***" || p[0] == "**"))
    || if p[i] == "***" then at[i] < at[i + 1] else Takes(g, p[i], Piece(s, at, i))
  }

  /** A pattern fits a path: anchored at its root if the pattern begins with a slash, else at its end. */
  ghost predicate Fits(g: Glob, p: seq<string>, path: seq<string>)
    requires p != [] && path != []
  {
    if p[0] != "" then exists at: seq<nat> :: Floating(g, p, path, at)
    else if path[0] != "" then exists at: seq<nat> :: Anchored(g, p[1..], path, at)
    else exists at: seq<nat> :: Anchored(g, p, path, at)
  }

  /** A pattern and the path down to one level; `inner` says that the key goes on below it, which a pattern for
      directories needs. */
  ghost predicate Hits(g: Glob, pattern: string, level: seq<string>, inner: bool)
    requires level != []
  {
    var p := Split(pattern);
    Fits(g, p, if inner && (Last(p) == "" || Last(p) == "***") then level + [""] else level)
  }

  ghost predicate HitsAt(g: Glob, pattern: string, parts: seq<string>, i: nat)
    requires i < |parts|
  {
    Hits(g, pattern, parts[..i + 1], i < |parts| - 1)
  }

  /** A key passes if at every level that has a name the first rule to hit, if any does, includes. */
  ghost predicate Passes(g: Glob, rules: seq<Rule>, key: Key) {
    var parts := Split(key);
    forall i: nat :: i < |parts| && parts[i] != "" ==> FirstIncludes(g, rules, parts, i)
  }

  ghost predicate FirstIncludes(g: Glob, rules: seq<Rule>, parts: seq<string>, i: nat)
    requires i < |parts|
  {
    forall n: nat :: n < |rules| && IsFirst(g, rules, n, parts, i) ==> rules[n].includes
  }

  ghost predicate IsFirst(g: Glob, rules: seq<Rule>, n: nat, parts: seq<string>, i: nat)
    requires n < |rules| && i < |parts|
  {
    HitsAt(g, rules[n].pattern, parts, i) && forall m :: 0 <= m < n ==> !HitsAt(g, rules[m].pattern, parts, i)
  }

  lemma StarsFirst(p: string, i: nat)
    requires i < |p| - 1 && p[i] == '*' && p[i + 1] == '*'
    ensures i == 0 ==> "**" <= p
  {
    if i == 0 { assert p[..2] == "**"; }
  }

  lemma {:induction false} FindStars(p: string)
    ensures Find(p, "**") >= 0 <==> HasStars(p)
  {
    if p != "" && !("**" <= p) {
      FindStars(p[1..]);
      if HasStars(p) {
        var i :| 0 <= i < |p| - 1 && p[i] == '*' && p[i + 1] == '*';
        StarsFirst(p, i);
        assert p[1..][i - 1] == '*' && p[1..][i] == '*';
      }
      if HasStars(p[1..]) {
        var i :| 0 <= i < |p| - 2 && p[1..][i] == '*' && p[1..][i + 1] == '*';
        assert p[i + 1] == '*' && p[i + 2] == '*';
      }
    } else if p != "" {
      assert p[0] == '*' && p[1] == '*';
    }
  }

  function Shifted(at: seq<nat>, d: int): (r: seq<nat>)
    requires forall i :: 0 <= i < |at| ==> at[i] + d >= 0
    ensures |r| == |at| && forall i :: 0 <= i < |r| ==> r[i] == at[i] + d
  {
    seq(|at|, i requires 0 <= i < |at| => at[i] + d)
  }

  lemma ConsClimbs(at: seq<nat>, n: nat, size: nat)
    requires n <= size && Climbing(at, size - n)
    ensures Climbing([0] + Shifted(at, n), size)
  {
    var r := [0] + Shifted(at, n);
    forall i | 0 <= i < |r| - 1 ensures r[i] <= r[i + 1] { if i > 0 { assert at[i - 1] <= at[i]; } }
  }

  lemma ConsPiece(s: seq<string>, n: nat, at: seq<nat>, i: nat)
    requires n <= |s| && Climbing(at, |s| - n) && i < |at| - 1
    ensures Climbing([0] + Shifted(at, n), |s|)
    ensures Piece(s, [0] + Shifted(at, n), i + 1) == Piece(s[n..], at, i)
  {
    ConsClimbs(at, n, |s|);
    var r := [0] + Shifted(at, n);
    assert r[i + 1] == at[i] + n && r[i + 2] == at[i + 1] + n;
    Ordered(at, |s| - n, i + 1);
    SliceOfRest(s, n, at[i], at[i + 1]);
  }

  /** A component in front. */
  lemma AnchoredCons(g: Glob, p: seq<string>, s: seq<string>, n: nat, at: seq<nat>)
    requires p != [] && p[0] != "***" && n <= |s| && Takes(g, p[0], s[..n]) && Anchored(g, p[1..], s[n..], at)
    ensures Anchored(g, p, s, [0] + Shifted(at, n))
  {
    hide Takes, Climbing, Piece;
    var r := [0] + Shifted(at, n);
    assert at != [] by { AtNotEmpty(at, |s[n..]|); }
    ConsClimbs(at, n, |s|);
    forall i | 0 <= i < |r| - 1 ensures p[i] != "***" && Takes(g, p[i], Piece(s, r, i)) {
      if i > 0 {
        assert p[1..][i - 1] == p[i];
        ConsPiece(s, n, at, i - 1);
      } else {
        FirstPiece(s, r);
        assert r[1] == n;
      }
    }
  }

  lemma AtNotEmpty(at: seq<nat>, n: nat)
    requires Climbing(at, n)
    ensures at != [] && at[|at| - 1] <= n
  {}

  lemma FirstPiece(s: seq<string>, at: seq<nat>)
    requires Climbing(at, |s|) && |at| > 1 && at[0] == 0
    ensures at[1] <= |s| && Piece(s, at, 0) == s[..at[1]]
  {
    Ordered(at, |s|, 1);
  }

  lemma TailPiece(s: seq<string>, at: seq<nat>, i: nat)
    requires Climbing(at, |s|) && |at| > 1 && i < |at| - 2 && at[1] <= |s|
    ensures Piece(s[at[1]..], TailCuts(at, |s|), i) == Piece(s, at, i + 1)
  {
    var n, r := at[1], TailCuts(at, |s|);
    Ordered(r, |s| - n, i + 1);
    Ordered(at, |s|, i + 2);
    SliceOfRest(s, n, r[i], r[i + 1]);
  }

  lemma SliceOfRest(s: seq<string>, n: nat, a: nat, b: nat)
    requires n <= |s| && a <= b <= |s| - n
    ensures s[n..][a..b] == s[n + a..n + b]
  {}

  lemma AnchoredTail(g: Glob, p: seq<string>, s: seq<string>, at: seq<nat>)
    requires Anchored(g, p, s, at) && |at| > 1
    ensures p != [] && p[0] != "***" && at[1] <= |s| && Takes(g, p[0], s[..at[1]])
    ensures exists at': seq<nat> :: Anchored(g, p[1..], s[at[1]..], at')
  {
    hide Takes, Piece;
    FirstPiece(s, at);
    var n := at[1];
    var r := TailCuts(at, |s|);
    forall i | 0 <= i < |r| - 1 ensures p[1..][i] != "***" && Takes(g, p[1..][i], Piece(s[n..], r, i)) {
      assert Takes(g, p[i + 1], Piece(s, at, i + 1));
      TailPiece(s, at, i);
    }
    assert Anchored(g, p[1..], s[n..], r);
  }

  /** The cuts after the first, seen from there. */
  ghost function TailCuts(at: seq<nat>, n: nat): (r: seq<nat>)
    requires Climbing(at, n) && |at| > 1
    ensures at[1] <= n && Climbing(r, n - at[1]) && |r| == |at| - 1 && r[0] == 0
    ensures forall i :: 0 <= i < |r| ==> r[i] + at[1] == at[i + 1]
  {
    Ordered(at, n, 1);
    assert forall i :: 1 <= i < |at| ==> at[1] <= at[i] by {
      forall i | 1 <= i < |at| ensures at[1] <= at[i] { Climbs(at, n, 1, i); }
    }
    seq(|at| - 1, i requires 0 <= i < |at| - 1 => at[i + 1] - at[1])
  }

  lemma {:induction false} Climbs(at: seq<nat>, n: nat, i: nat, j: nat)
    requires Climbing(at, n) && i <= j < |at|
    ensures at[i] <= at[j]
  {
    if i < j { Climbs(at, n, i, j - 1); }
  }

  /** Matching from the front is cutting the path into pieces for the components. */
  lemma {:induction false} PrefixIs(g: Glob, p: seq<string>, s: seq<string>)
    ensures MatchPrefix(g, p, s) <==> exists at: seq<nat> :: Anchored(g, p, s, at)
  {
    hide MatchTwoStar, Find, HasStars;
    if p != [] { FindStars(p[0]); }
    if MatchPrefix(g, p, s) {
      PrefixCuts(g, p, s);
    }
    if at: seq<nat> :| Anchored(g, p, s, at) {
      if |at| > 1 {
        AnchoredTail(g, p, s, at);
        PrefixIs(g, p[1..], s[at[1]..]);
      }
    }
  }

  lemma {:induction false} PrefixCuts(g: Glob, p: seq<string>, s: seq<string>)
    requires MatchPrefix(g, p, s)
    ensures exists at: seq<nat> :: Anchored(g, p, s, at)
  {
    hide MatchTwoStar, Find, HasStars;
    if p == [] || s == [] || p[0] == "***" {
      var at: seq<nat> := [0];
      assert Anchored(g, p, s, at);
    } else {
      FindStars(p[0]);
      var n := 1;
      if HasStars(p[0]) {
        n :| 1 <= n <= |s| && MatchTwoStar(g, p[0], s[..n]) && MatchPrefix(g, p[1..], s[n..]);
      }
      PrefixCuts(g, p[1..], s[n..]);
      var at: seq<nat> :| Anchored(g, p[1..], s[n..], at);
      AnchoredCons(g, p, s, n, at);
    }
  }

  lemma FillsInit(g: Glob, p: seq<string>, s: seq<string>, at: seq<nat>, i: nat, k: nat)
    requires |at| == |p| + 1 && Climbing(at, |s|) && i < k < |p|
    ensures at[k] <= |s| && Climbing(at[..k + 1], at[k])
    ensures Fills(g, p, s, at, i) <==> Fills(g, p[..k], s[..at[k]], at[..k + 1], i)
  {
    hide Takes;
    Ordered(at, |s|, k);
    var r := at[..k + 1];
    assert r[i] == at[i] && r[i + 1] == at[i + 1] && p[..k][i] == p[i] && r[1] == at[1] && p[..k][0] == p[0];
    Ordered(r, at[k], i + 1);
    assert s[..at[k]][r[i]..r[i + 1]] == s[at[i]..at[i + 1]];
  }

  lemma FloatingSnoc(g: Glob, p: seq<string>, s: seq<string>, n: nat, at: seq<nat>)
    requires p != [] && n <= |s| && Floating(g, p[..|p| - 1], s[..n], at)
    requires if Last(p) == "***" then n < |s| else Takes(g, Last(p), s[n..])
    ensures Floating(g, p, s, at + [|s|])
  {
    hide Takes, Fills;
    var r, k := at + [|s|], |p| - 1;
    assert Climbing(r, |s|);
    assert r[..k + 1] == at && r[k] == n;
    forall i | 0 <= i < |p| ensures Fills(g, p, s, r, i) {
      if i < k { FillsInit(g, p, s, r, i, k); } else { LastFills(g, p, s, r); }
    }
  }

  lemma LastFills(g: Glob, p: seq<string>, s: seq<string>, at: seq<nat>)
    requires |at| == |p| + 1 && p != [] && Climbing(at, |s|) && at[|p|] == |s|
    ensures var n := at[|p| - 1];
      n <= |s| && (Fills(g, p, s, at, |p| - 1) <==>
        (|p| == 1 && at[1] == 0 && (p[0] == "***" || p[0] == "**"))
        || if Last(p) == "***" then n < |s| else Takes(g, Last(p), s[n..]))
  {
    hide Takes;
    Ordered(at, |s|, |p| - 1);
    assert Piece(s, at, |p| - 1) == s[at[|p| - 1]..];
  }

  lemma FloatingInit(g: Glob, p: seq<string>, s: seq<string>, at: seq<nat>)
    requires p != [] && Floating(g, p, s, at) && !(|p| == 1 && at[1] == 0)
    ensures var n := at[|p| - 1];
      && n <= |s| && (if Last(p) == "***" then n < |s| else Takes(g, Last(p), s[n..]))
      && Floating(g, p[..|p| - 1], s[..n], at[..|p|])
  {
    hide Takes, Fills;
    var k := |p| - 1;
    Ordered(at, |s|, k);
    LastFills(g, p, s, at);
    assert Climbing(at[..|p|], at[k]);
    forall i | 0 <= i < k ensures Fills(g, p[..k], s[..at[k]], at[..|p|], i) { FillsInit(g, p, s, at, i, k); }
  }

  /** Matching from the end is cutting the end of the path into pieces for the components. */
  lemma {:induction false} SuffixIs(g: Glob, p: seq<string>, s: seq<string>)
    ensures MatchSuffix(g, p, s) <==> exists at: seq<nat> :: Floating(g, p, s, at)
  {
    hide MatchTwoStar, Find, HasStars;
    if MatchSuffix(g, p, s) {
      SuffixCuts(g, p, s);
    }
    if at: seq<nat> :| Floating(g, p, s, at) {
      if p != [] {
        FindStars(Last(p));
        if |p| == 1 && at[1] == 0 {
          OneStar(g, p, s, at);
        } else {
          FloatingInit(g, p, s, at);
          SuffixIs(g, p[..|p| - 1], s[..at[|p| - 1]]);
        }
      }
    }
  }

  lemma OneStar(g: Glob, p: seq<string>, s: seq<string>, at: seq<nat>)
    requires |p| == 1 && Floating(g, p, s, at) && at[1] == 0
    ensures s == [] && (p[0] == "***" || p[0] == "**")
  {
    assert Fills(g, p, s, at, 0) && at[0] <= at[1];
  }

  lemma {:induction false} SuffixCuts(g: Glob, p: seq<string>, s: seq<string>)
    requires MatchSuffix(g, p, s)
    ensures exists at: seq<nat> :: Floating(g, p, s, at)
  {
    hide MatchTwoStar, Find, HasStars;
    if p == [] {
      var at: seq<nat> := [|s|];
      assert Floating(g, p, s, at);
    } else if s == [] {
      var at: seq<nat> := [0, 0];
      assert Floating(g, p, s, at);
    } else {
      FindStars(Last(p));
      var front, n := p[..|p| - 1], |s| - 1;
      if Last(p) == "***" {
        n :| 0 <= n < |s| && MatchSuffix(g, front, s[..n]);
      } else if HasStars(Last(p)) {
        n :| 0 <= n < |s| && MatchTwoStar(g, Last(p), s[n..]) && MatchSuffix(g, front, s[..n]);
      }
      SuffixCuts(g, front, s[..n]);
      var at: seq<nat> :| Floating(g, front, s[..n], at);
      FloatingSnoc(g, p, s, n, at);
    }
  }

  lemma {:induction false} FitsIs(g: Glob, p: seq<string>, path: seq<string>)
    requires p != [] && path != []
    ensures Fits(g, p, path) <==>
            if p[0] == "" then MatchPrefix(g, if path[0] != "" then p[1..] else p, path) else MatchSuffix(g, p, path)
  {
    hide MatchPrefix, MatchSuffix, Anchored, Floating;
    PrefixIs(g, p[1..], path);
    PrefixIs(g, p, path);
    SuffixIs(g, p, path);
  }

  lemma RuleIs(g: Glob, rule: Rule, level: seq<string>, inner: bool)
    requires level != []
    ensures RuleMatches(g, rule, level, inner) <==> Hits(g, rule.pattern, level, inner)
  {
    hide MatchPrefix, MatchSuffix, Fits, Split;
    var p := Split(rule.pattern);
    FitsIs(g, p, level);
    FitsIs(g, p, level + [""]);
  }

  /** The rules decide a level by the first one that hits. */
  lemma {:induction false} AllowedIs(g: Glob, rules: seq<Rule>, parts: seq<string>, i: nat)
    requires i < |parts|
    ensures Allowed(g, rules, parts[..i + 1], i < |parts| - 1) <==> FirstIncludes(g, rules, parts, i)
  {
    hide RuleMatches, Hits;
    if rules != [] {
      RuleIs(g, rules[0], parts[..i + 1], i < |parts| - 1);
      AllowedIs(g, rules[1..], parts, i);
      if HitsAt(g, rules[0].pattern, parts, i) {
        assert IsFirst(g, rules, 0, parts, i);
      } else {
        forall n: nat | n < |rules[1..]|
          ensures IsFirst(g, rules[1..], n, parts, i) <==> IsFirst(g, rules, n + 1, parts, i)
        {
          FirstOfRest(g, rules, n, parts, i);
        }
        forall n: nat | n < |rules| && IsFirst(g, rules, n, parts, i)
          ensures n > 0 && IsFirst(g, rules[1..], n - 1, parts, i) && rules[1..][n - 1] == rules[n] {}
      }
    }
  }

  lemma FirstOfRest(g: Glob, rules: seq<Rule>, n: nat, parts: seq<string>, i: nat)
    requires rules != [] && n < |rules| - 1 && i < |parts|
    requires !HitsAt(g, rules[0].pattern, parts, i)
    ensures IsFirst(g, rules[1..], n, parts, i) <==> IsFirst(g, rules, n + 1, parts, i)
  {
    hide Hits;
    forall m | 1 <= m <= n + 1 ensures rules[1..][m - 1] == rules[m] {}
  }

  lemma LeveledIs(g: Glob, rules: seq<Rule>, key: Key)
    ensures LeveledPath(g, rules, key) <==> Passes(g, rules, key)
  {
    hide Allowed, FirstIncludes, Split;
    var parts := Split(key);
    forall i: nat | i < |parts|
      ensures Allowed(g, rules, parts[..i + 1], i < |parts| - 1) <==> FirstIncludes(g, rules, parts, i)
    {
      AllowedIs(g, rules, parts, i);
    }
  }

  method MatchLeveledPath(g: Glob, rules: seq<Rule>, key: Key) returns (ok: bool)
    ensures ok <==> LeveledPath(g, rules, key)
    ensures ok <==> Passes(g, rules, key)
  {
    hide RuleMatches, Passes;
    LeveledIs(g, rules, key);
    var parts := Split(key);
    var i := 0;
    while i < |parts|
      invariant 0 <= i <= |parts|
      invariant forall j: nat :: j < i && parts[j] != "" ==> Allowed(g, rules, parts[..j + 1], j < |parts| - 1)
    {
      if parts[i] != "" {
        var n, decided := 0, false;
        while n < |rules| && !decided
          invariant 0 <= n <= |rules|
          invariant if decided then Allowed(g, rules, parts[..i + 1], i < |parts| - 1)
                    else Allowed(g, rules, parts[..i + 1], i < |parts| - 1)
                         == Allowed(g, rules[n..], parts[..i + 1], i < |parts| - 1)
          decreases |rules| - n, !decided
        {
          if RuleMatches(g, rules[n], parts[..i + 1], i < |parts| - 1) {
            if !rules[n].includes { return false; }
            decided := true;
          } else {
            n := n + 1;
          }
        }
      }
      i := i + 1;
    }
    return true;
  }

  // ---- An excluded directory excludes everything below it -----------------------------------------------------

  lemma {:induction false} SplitConcat(d: string, r: string)
    ensures Split(d + "/" + r) == Split(d) + Split(r)
  {
    var whole := d + "/" + r;
    if d == "" {
      assert whole == "/" + r && whole[1..] == r;
    } else {
      hide Prepend;
      SplitConcat(d[1..], r);
      PrependConcat(d[0], Split(d[1..]), Split(r));
      assert whole[0] == d[0] && whole[1..] == d[1..] + "/" + r;
    }
  }

  /** Levels that a directory shares with a key below it are judged alike. */
  lemma ExcludedBelow(g: Glob, rules: seq<Rule>, dir: Key, k: Key)
    requires dir != "" && Last(dir) == '/' && dir <= k
    ensures LeveledPath(g, rules, k) ==> LeveledPath(g, rules, dir)
  {
    hide Allowed;
    var d, r := dir[..|dir| - 1], k[|dir|..];
    assert dir == d + "/" + "" && k == d + "/" + r;
    SplitConcat(d, "");
    SplitConcat(d, r);
    var parts, all := Split(dir), Split(k);
    if LeveledPath(g, rules, k) {
      forall i: nat | i < |parts| && parts[i] != "" ensures Allowed(g, rules, parts[..i + 1], i < |parts| - 1) {
        assert parts == Split(d) + [""] && i < |Split(d)| && parts[i] == all[i];
        assert parts[..i + 1] == all[..i + 1];
      }
    }
  }

  // ---- What the matchers mean --------------------------------------------------------------------------------

  ghost predicate NoStars(p: seq<string>) {
    forall i :: 0 <= i < |p| ==> Find(p[i], "**") < 0
  }

  lemma StarsHaveTwo()
    ensures Find("***", "**") >= 0 && Find("**", "**") == 0
  {}

  /** Without double stars an anchored pattern matches component by component. */
  lemma {:induction false} PlainPrefix(g: Glob, p: seq<string>, s: seq<string>)
    requires NoStars(p)
    ensures MatchPrefix(g, p, s) <==> |p| == |s| && forall i :: 0 <= i < |p| ==> g(p[i], s[i])
  {
    hide MatchTwoStar, Find;
    StarsHaveTwo();
    if p != [] && s != [] {
      PlainPrefix(g, p[1..], s[1..]);
      assert p == [p[0]] + p[1..] && s == [s[0]] + s[1..];
    }
  }

  ghost predicate EndsMatch(g: Glob, p: seq<string>, s: seq<string>) {
    |p| <= |s| && forall i :: 0 <= i < |p| ==> g(p[i], s[|s| - |p| + i])
  }

  lemma EndsMatchStep(g: Glob, p: seq<string>, s: seq<string>)
    requires p != [] && s != []
    ensures EndsMatch(g, p, s) <==> g(Last(p), Last(s)) && EndsMatch(g, p[..|p| - 1], s[..|s| - 1])
  {}

  /** And an unanchored one matches the last components. */
  lemma {:induction false} PlainSuffix(g: Glob, p: seq<string>, s: seq<string>)
    requires NoStars(p)
    ensures MatchSuffix(g, p, s) <==> EndsMatch(g, p, s)
  {
    hide MatchTwoStar, Find;
    StarsHaveTwo();
    if p != [] {
      assert Last(p) == p[|p| - 1];
      if s != [] {
        hide EndsMatch;
        EndsMatchStep(g, p, s);
        PlainSuffix(g, p[..|p| - 1], s[..|s| - 1]);
      }
    }
  }

  /** A final triple star takes everything below what its front matches, and not the front itself. */
  lemma {:induction false} TripleStarPrefix(g: Glob, p: seq<string>, s: seq<string>)
    requires NoStars(p)
    ensures MatchPrefix(g, p + ["***"], s) <==> |s| > |p| && forall i :: 0 <= i < |p| ==> g(p[i], s[i])
  {
    hide MatchTwoStar, Find;
    StarsHaveTwo();
    if p != [] && s != [] {
      TripleStarPrefix(g, p[1..], s[1..]);
      assert (p + ["***"])[1..] == p[1..] + ["***"];
      assert p == [p[0]] + p[1..] && s == [s[0]] + s[1..];
    }
  }

  /** A double star alone matches any path of one or more names. */
  lemma {:induction false} DoubleStarMatches(g: Glob, s: seq<string>)
    requires s != [] && g("*", s[0])
    ensures MatchTwoStar(g, "**", s)
  {
    assert Find("**", "**") == 0;
    assert "**"[..1] == "*" && "**"[1..] == "*" && s[|s|..] == [];
    assert MatchTwoStar(g, "**"[0 + 1..], s[|s|..]);
  }

  // ---- One rule that excludes, without double stars ---------------------------------------------------------------

  /** The components of a key are its names between slashes. */
  lemma {:induction false} SplitIs(k: string)
    ensures Join(Split(k)) == k && forall i :: 0 <= i < |Split(k)| ==> '/' !in Split(k)[i]
  {
    if k != "" {
      SplitIs(k[1..]);
      var rest := Split(k[1..]);
      if k[0] == '/' {
        assert ([""] + rest)[1..] == rest;
      } else if |rest| > 1 {
        assert Prepend(k[0], rest)[1..] == rest[1..];
      }
    }
  }

  /** What `path.Match` does with the empty pattern. */
  ghost predicate Sane(g: Glob) {
    forall name: string :: g("", name) <==> name == ""
  }

  /** The names from n on match the components of the pattern. */
  ghost predicate MatchesAt(g: Glob, w: seq<string>, names: seq<string>, n: nat) {
    n + |w| <= |names| && forall j :: 0 <= j < |w| ==> g(w[j], names[n + j])
  }

  ghost predicate Excluded(g: Glob, pattern: string, key: Key) {
    !Passes(g, [Rule(pattern, false)], key)
  }

  lemma {:induction false} OneRule(g: Glob, pattern: string, key: Key)
    ensures Excluded(g, pattern, key) <==>
            var parts := Split(key);
            exists i: nat :: i < |parts| && parts[i] != "" && HitsAt(g, pattern, parts, i)
  {
    hide HitsAt, Split, FirstIncludes;
    var rules, parts := [Rule(pattern, false)], Split(key);
    forall i: nat | i < |parts|
      ensures FirstIncludes(g, rules, parts, i) <==> !HitsAt(g, pattern, parts, i)
    {
      OneIncludes(g, pattern, parts, i);
    }
  }

  lemma OneIncludes(g: Glob, pattern: string, parts: seq<string>, i: nat)
    requires i < |parts|
    ensures FirstIncludes(g, [Rule(pattern, false)], parts, i) <==> !HitsAt(g, pattern, parts, i)
  {
    hide HitsAt;
    var rules := [Rule(pattern, false)];
    assert rules[0].pattern == pattern;
    assert IsFirst(g, rules, 0, parts, i) <==> HitsAt(g, pattern, parts, i);
  }

  /** A pattern with a slash in front excludes what its components match one by one from the root, and all below. */
  lemma {:induction false} AnchoredIff(g: Glob, w: seq<string>, pattern: string, key: Key)
    requires Split(pattern) == [""] + w && w != [] && Last(w) != "" && NoStars(w) && Split(key)[0] != ""
    ensures Excluded(g, pattern, key) <==> MatchesAt(g, w, Split(key), 0) && Split(key)[|w| - 1] != ""
  {
    hide MatchPrefix, MatchSuffix, Find, Split;
    OneRule(g, pattern, key);
    var p, parts := Split(pattern), Split(key);
    assert Last(p) == Last(w) && p[1..] == w;
    LastIsPlain(w);
    forall i: nat | i < |parts|
      ensures HitsAt(g, pattern, parts, i) <==> i + 1 == |w| && MatchesAt(g, w, parts, 0)
    {
      FitsIs(g, p, parts[..i + 1]);
      PlainPrefix(g, w, parts[..i + 1]);
    }
  }

  lemma LastIsPlain(w: seq<string>)
    requires w != [] && NoStars(w)
    ensures Last(w) != "***"
  {
    StarsHaveTwo();
    assert Last(w) == w[|w| - 1];
  }

  /** Without it, what its components match anywhere. */
  lemma {:induction false} FloatingIff(g: Glob, w: seq<string>, pattern: string, key: Key)
    requires Split(pattern) == w && w[0] != "" && Last(w) != "" && NoStars(w)
    ensures Excluded(g, pattern, key) <==>
            exists n: nat :: MatchesAt(g, w, Split(key), n) && Split(key)[n + |w| - 1] != ""
  {
    hide MatchPrefix, MatchSuffix, Find, Split;
    OneRule(g, pattern, key);
    var parts := Split(key);
    LastIsPlain(w);
    forall i: nat | i < |parts|
      ensures HitsAt(g, pattern, parts, i) <==> i + 1 >= |w| && MatchesAt(g, w, parts, i + 1 - |w|)
    {
      FitsIs(g, w, parts[..i + 1]);
      PlainSuffix(g, w, parts[..i + 1]);
    }
    if n: nat :| MatchesAt(g, w, parts, n) && parts[n + |w| - 1] != "" {
      assert HitsAt(g, pattern, parts, n + |w| - 1);
    }
  }

  /** A slash at the end restricts a pattern to names that the key goes on below: directories. */
  lemma {:induction false} DirectoryIff(g: Glob, w: seq<string>, pattern: string, key: Key)
    requires Sane(g) && Split(pattern) == w + [""] && w != [] && w[0] != "" && NoStars(w)
    ensures Excluded(g, pattern, key) <==>
            exists n: nat :: MatchesAt(g, w, Split(key), n) && n + |w| < |Split(key)| && Split(key)[n + |w| - 1] != ""
  {
    hide MatchPrefix, MatchSuffix, Find, Split;
    OneRule(g, pattern, key);
    var p, parts := Split(pattern), Split(key);
    assert Last(p) == "" && p[0] == w[0];
    EmptyPlain(w);
    forall i: nat | i < |parts| && parts[i] != ""
      ensures HitsAt(g, pattern, parts, i) <==>
              i < |parts| - 1 && i + 1 >= |w| && MatchesAt(g, w, parts, i + 1 - |w|)
    {
      var path := if i < |parts| - 1 then parts[..i + 1] + [""] else parts[..i + 1];
      FitsIs(g, p, path);
      PlainSuffix(g, p, path);
      DirectoryEnds(g, w, parts, i);
    }
    if n: nat :| MatchesAt(g, w, parts, n) && n + |w| < |parts| && parts[n + |w| - 1] != "" {
      assert HitsAt(g, pattern, parts, n + |w| - 1);
    }
  }

  lemma EmptyPlain(w: seq<string>)
    requires NoStars(w)
    ensures NoStars(w + [""])
  {
    FindShort("");
  }

  lemma DirectoryEnds(g: Glob, w: seq<string>, parts: seq<string>, i: nat)
    requires Sane(g) && i < |parts| && parts[i] != "" && w != []
    ensures EndsMatch(g, w + [""], if i < |parts| - 1 then parts[..i + 1] + [""] else parts[..i + 1]) <==>
            i < |parts| - 1 && i + 1 >= |w| && MatchesAt(g, w, parts, i + 1 - |w|)
  {
    var p := w + [""];
    var path := if i < |parts| - 1 then parts[..i + 1] + [""] else parts[..i + 1];
    assert p[|w|] == "";
    if EndsMatch(g, p, path) {
      assert g(p[|w|], path[|path| - 1]);
      forall j | 0 <= j < |w| ensures g(w[j], parts[i + 1 - |w| + j]) { assert g(p[j], path[|path| - |p| + j]); }
    }
    if i < |parts| - 1 && i + 1 >= |w| && MatchesAt(g, w, parts, i + 1 - |w|) {
      forall j | 0 <= j < |p| ensures g(p[j], path[|path| - |p| + j]) {
        if j < |w| { assert g(w[j], parts[i + 1 - |w| + j]); }
      }
    }
  }

  /** A triple star at the end of an anchored pattern excludes what lies below its front and the front itself as a
      directory, but not a file of that name. */
  lemma {:induction false} TripleStarIff(g: Glob, w: seq<string>, pattern: string, key: Key)
    requires Split(pattern) == [""] + w + ["***"] && w != [] && NoStars(w) && Split(key)[0] != ""
    requires forall i :: 0 <= i < |Split(key)| - 1 ==> Split(key)[i] != ""
    ensures Excluded(g, pattern, key) <==> MatchesAt(g, w, Split(key), 0) && |w| < |Split(key)|
  {
    hide MatchPrefix, MatchSuffix, Find, Split;
    OneRule(g, pattern, key);
    var p, parts := Split(pattern), Split(key);
    assert Last(p) == "***" && p[0] == "" && p[1..] == w + ["***"];
    forall i: nat | i < |parts| && parts[i] != ""
      ensures HitsAt(g, pattern, parts, i) <==>
              MatchesAt(g, w, parts[..i + 1], 0) && |w| < if i < |parts| - 1 then i + 2 else i + 1
    {
      var path := if i < |parts| - 1 then parts[..i + 1] + [""] else parts[..i + 1];
      FitsIs(g, p, path);
      TripleStarPrefix(g, w, path);
      if |w| <= i + 1 { forall j | 0 <= j < |w| ensures path[j] == parts[j] == parts[..i + 1][j] {} }
    }
    if MatchesAt(g, w, parts, 0) && |w| < |parts| {
      var i := |w| - 1;
      assert MatchesAt(g, w, parts[..i + 1], 0);
      assert HitsAt(g, pattern, parts, i);
    }
    if i: nat :| i < |parts| && parts[i] != "" && HitsAt(g, pattern, parts, i) {
      forall j | 0 <= j < |w| ensures g(w[j], parts[j]) { assert g(w[j], parts[..i + 1][j]); }
    }
  }

  // ---- One double star inside a component -------------------------------------------------------------------------

  ghost predicate OneStarPair(a: string, b: string) {
    !HasStars(a + "*" + b) && !HasStars("*" + b)
  }

  /** A component with one double star in the middle matches a path whose first name its front matches and whose
      rest, as a whole or from some later name on, a single star and its back match; with nothing behind the
      stars it matches any rest. */
  lemma {:induction false} TwoStarIs(g: Glob, a: string, b: string, s: seq<string>)
    requires OneStarPair(a, b) && s != []
    ensures MatchTwoStar(g, a + "**" + b, s) <==>
            g(a + "*", s[0]) && (g(a + "*" + b, Join(s)) || b == ""
                                 || exists i: nat :: 1 <= i < |s| && g("*" + b, Join(s[i..])))
  {
    hide Join, MatchTwoStar, Find, HasStars;
    var p := a + "**" + b;
    PairAt(a, b);
    FirstPair(g, p, s);
    assert p[..|a| + 1] == a + "*" && p[..|a|] + p[|a| + 1..] == a + "*" + b && p[|a| + 1..] == "*" + b;
    NoPair(g, a + "*" + b, s);
    assert "*" + b == "*" <==> b == "" by { assert |"*" + b| == 1 + |b|; }
    forall i: nat | 1 <= i <= |s|
      ensures MatchTwoStar(g, "*" + b, s[i..]) <==> if i < |s| then g("*" + b, Join(s[i..])) else b == ""
    {
      NoPair(g, "*" + b, s[i..]);
    }
    if b == "" { assert MatchTwoStar(g, "*" + b, s[|s|..]); }
  }

  lemma {:induction false} FirstPair(g: Glob, p: string, s: seq<string>)
    requires s != [] && Find(p, "**") >= 0
    ensures var idx := Find(p, "**");
      MatchTwoStar(g, p, s) <==>
        g(p[..idx + 1], s[0])
        && (MatchTwoStar(g, p[..idx] + p[idx + 1..], s)
            || exists i: nat :: 1 <= i <= |s| && MatchTwoStar(g, p[idx + 1..], s[i..]))
  {}

  lemma {:induction false} NoPair(g: Glob, p: string, s: seq<string>)
    requires !HasStars(p)
    ensures MatchTwoStar(g, p, s) <==> if s == [] then p == "*" else g(p, Join(s))
  {
    FindStars(p);
  }

  lemma TwoInFront(p: string)
    ensures "**" <= p <==> |p| >= 2 && p[0] == '*' && p[1] == '*'
  {}

  lemma StarsBehind(p: string)
    requires p != ""
    ensures HasStars(p[1..]) ==> HasStars(p)
  {
    if i :| 0 <= i < |p| - 2 && p[1..][i] == '*' && p[1..][i + 1] == '*' {
      assert p[i + 1] == '*' && p[i + 2] == '*';
    }
  }

  lemma {:induction false} PairAt(a: string, b: string)
    requires !HasStars(a + "*" + b)
    ensures Find(a + "**" + b, "**") == |a|
  {
    var p := a + "**" + b;
    if a != "" {
      assert (a + "*" + b)[0] == a[0] && (a + "*" + b)[1] == (a[1..] + "*" + b)[0];
      TwoInFront(p);
      assert p[1..] == a[1..] + "**" + b && (a + "*" + b)[1..] == a[1..] + "*" + b;
      StarsBehind(a + "*" + b);
      PairAt(a[1..], b);
    }
  }

  // ---- Matching whole paths ------------------------------------------------------------------------------------

  predicate FullPath(g: Glob, rules: seq<Rule>, key: Key) {
    var ps := Split(key);
    if rules == [] then true
    else
      var p := Split(rules[0].pattern);
      if (if p[0] == "" then MatchPrefix(g, if ps[0] != "" then p[1..] else p, ps) else MatchSuffix(g, p, ps))
      then rules[0].includes
      else FullPath(g, rules[1..], key)
  }

  /** Matched as a whole, a key passes if the first rule to fit it, if any does, includes. */
  lemma {:induction false} FullPathIs(g: Glob, rules: seq<Rule>, key: Key)
    ensures FullPath(g, rules, key) <==>
            forall n: nat :: n < |rules| && FitsFirst(g, rules, n, key) ==> rules[n].includes
  {
    hide Fits, Split, MatchPrefix, MatchSuffix;
    if rules != [] {
      FitsIs(g, Split(rules[0].pattern), Split(key));
      FullPathIs(g, rules[1..], key);
      if Fits(g, Split(rules[0].pattern), Split(key)) {
        assert FitsFirst(g, rules, 0, key);
      } else {
        forall n: nat | n < |rules[1..]|
          ensures FitsFirst(g, rules[1..], n, key) <==> FitsFirst(g, rules, n + 1, key)
        {
          forall m | 1 <= m <= n + 1 ensures rules[1..][m - 1] == rules[m] {}
        }
        forall n: nat | n < |rules| && FitsFirst(g, rules, n, key)
          ensures n > 0 && FitsFirst(g, rules[1..], n - 1, key) && rules[1..][n - 1] == rules[n] {}
      }
    }
  }

  ghost predicate FitsFirst(g: Glob, rules: seq<Rule>, n: nat, key: Key)
    requires n < |rules|
  {
    && Fits(g, Split(rules[n].pattern), Split(key))
    && forall m :: 0 <= m < n ==> !Fits(g, Split(rules[m].pattern), Split(key))
  }

  /** Matched as whole paths, a key can pass although the level-wise rules exclude its directory. */
  lemma FullPathDiffers(g: Glob)
    requires g("a", "a") && g("", "") && !g("", "b")
    ensures FullPath(g, [Rule("a/", false)], "a/b") && !LeveledPath(g, [Rule("a/", false)], "a/")
  {
    hide MatchSuffix, MatchPrefix, Split, Find;
    SplitWord("");
    SplitWord("a");
    SplitWord("b");
    SplitConcat("a", "");
    SplitConcat("a", "b");
    assert "a" + "/" + "" == "a/" && "a" + "/" + "b" == "a/b";
    PlainSuffix(g, ["a", ""], ["a", ""]) by { FindShort("a"); FindShort(""); }
    PlainSuffix(g, ["a", ""], ["a", "b"]) by { FindShort("a"); FindShort(""); }
    assert !EndsMatch(g, ["a", ""], ["a", "b"]) by { assert ["a", ""][1] == "" && ["a", "b"][1] == "b"; }
    assert Split("a/") == ["a", ""] && Split("a/b") == ["a", "b"] && "a" != "";
    assert [Rule("a/", false)][1..] == [];
    assert FullPath(g, [Rule("a/", false)][1..], "a/b");
    var parts := Split("a/");
    assert parts == ["a", ""] && parts[..0 + 1] == ["a"] && ["a"] + [""] == ["a", ""];
    assert parts[0] != "" && !Allowed(g, [Rule("a/", false)], parts[..0 + 1], 0 < |parts| - 1);
  }

  lemma {:induction false} FindShort(p: string)
    requires |p| < 2
    ensures Find(p, "**") < 0
  {}

  lemma {:induction false} SplitWord(w: string)
    requires '/' !in w
    ensures Split(w) == [w]
  {
    if w != "" {
      SplitWord(w[1..]);
      assert [w[0]] + w[1..] == w;
    }
  }
}

/** The order in which a producer comes to its keys, and what that means for a cut of its trace. */
module Traces {
  import opened Keys
  import opened Producer
  import opened MergeJoin
  import C = Convergence

  /** Actions that move the last listed key of the checkpoint. */
  predicate Records(a: Action) {
    a.Ignore? || a.Skip? || a.DelaySrc? || a.Send?
  }

  // ---- Source keys ----------------------------------------------------------------------------------

  /** The source keys come in order, every recorded key is below those still to come, and a clean
      end leaves none. */
  ghost predicate InOrder(t: seq<Action>, todo: set<Key>, ok: bool)
    decreases |t|
  {
    if t == [] then ok ==> todo == {}
    else
      var k := t[0].key;
      if AboutSrc(t[0]) then k in todo && (forall u :: u in todo - {k} ==> Less(k, u))
          && InOrder(t[1..], todo - {k}, ok)
      else (t[0].Send? ==> forall u :: u in todo ==> Less(k, u)) && InOrder(t[1..], todo, ok)
  }

  ghost function SrcKeys(g: seq<Gated>): set<Key>
    requires Clean(g)
  {
    set i | 0 <= i < |g| :: g[i].item.obj.key
  }

  lemma SrcKeysStep(g: seq<Gated>)
    requires Clean(g) && SortedSrc(g) && g != []
    ensures Clean(g[1..]) && SortedSrc(g[1..])
    ensures SrcKeys(g[1..]) == SrcKeys(g) - {g[0].item.obj.key} && g[0].item.obj.key in SrcKeys(g)
    ensures forall u :: u in SrcKeys(g[1..]) ==> Less(g[0].item.obj.key, u)
  {
    var k := g[0].item.obj.key;
    forall u | u in SrcKeys(g[1..]) ensures u in SrcKeys(g) && Less(k, u) && u != k {
      var i :| 0 <= i < |g[1..]| && g[1..][i].item.obj.key == u;
      assert g[i+1] == g[1..][i];
      LessIrreflexive(k);
    }
    forall u | u in SrcKeys(g) && u != k ensures u in SrcKeys(g[1..]) {
      var i :| 0 <= i < |g| && g[i].item.obj.key == u;
      assert g[1..][i-1] == g[i];
    }
  }

  /** Every trace of the producer is in order, whatever the destination listing delivers. */
  lemma {:induction false} MergeInOrder(src: seq<Gated>, full: seq<Gated>, dst: seq<Item>, c: Config)
    requires Clean(full) && SortedSrc(full) && SrcFeed(src, full)
    ensures InOrder(Merge(src, dst, c).trace, SrcKeys(full), Merge(src, dst, c).ok)
    decreases |src| + |dst|
  {
    if src == [] {
      if c.deleteDst && dst != [] && dst[0].Entry? {
        MergeInOrder(src, full, dst[1..], c);
        InOrderExtra(c, dst[0].obj, Merge(src, dst[1..], c), SrcKeys(full));
      }
    } else if src[0].item.Entry? {
      FeedSteps(src, full);
      SrcKeysStep(full);
      var o := src[0].item.obj;
      if Ignored(c, o) {
        MergeInOrder(src[1..], full[1..], dst, c);
        InOrderCons(Ignore(o.key), Merge(src[1..], dst, c), SrcKeys(full));
      } else if dst != [] && dst[0].Broken? {
      } else if dst != [] && Less(dst[0].obj.key, o.key) {
        MergeInOrder(src, full, dst[1..], c);
        AllAbove(full, dst[0].obj.key);
        InOrderExtra(c, dst[0].obj, Merge(src, dst[1..], c), SrcKeys(full));
      } else {
        MergeDecide(src, dst, o, c);
        var here := dst != [] && dst[0].obj.key == o.key;
        var d := if here then Some(dst[0].obj) else None;
        var dst' := if here then dst[1..] else dst;
        MergeInOrder(src[1..], full[1..], dst', c);
        DecisionIsAboutSrc(c, o, d, src[0].rec);
        InOrderCons(Decide(c, o, d, src[0].rec), Merge(src[1..], dst', c), SrcKeys(full));
      }
    }
  }

  lemma {:induction false} InOrderCons(a: Action, rest: Outcome, todo: set<Key>)
    requires AboutSrc(a) && a.key in todo && (forall u :: u in todo - {a.key} ==> Less(a.key, u))
    requires InOrder(rest.trace, todo - {a.key}, rest.ok)
    ensures InOrder(Before([a], rest).trace, todo, rest.ok)
  {
    assert ([a] + rest.trace)[1..] == rest.trace;
  }

  lemma {:induction false} InOrderExtra(c: Config, d: Obj, rest: Outcome, todo: set<Key>)
    requires InOrder(rest.trace, todo, rest.ok) && forall u :: u in todo ==> Less(d.key, u)
    ensures InOrder(Before(Extras(c, d), rest).trace, todo, rest.ok)
  {
    if Extras(c, d) == [] {
      assert [] + rest.trace == rest.trace;
    } else {
      assert (Extras(c, d) + rest.trace)[1..] == rest.trace;
    }
  }

  // ---- One step of the join --------------------------------------------------------------------------

  /** What one step of the join does to a delivered part of two full listings. */
  datatype Step = End | PassDir(o: Obj) | Dispose(d: Obj) | DecideOne(o: Obj, here: bool)

  ghost function StepOf(src: seq<Gated>, dst: seq<Item>, c: Config): Step {
    if src == [] then (if !c.deleteDst || dst == [] || dst[0].Broken? then End else Dispose(dst[0].obj))
    else if src[0].item.Broken? then End
    else if Ignored(c, src[0].item.obj) then PassDir(src[0].item.obj)
    else if dst == [] then DecideOne(src[0].item.obj, false)
    else if dst[0].Broken? then End
    else if Less(dst[0].obj.key, src[0].item.obj.key) then Dispose(dst[0].obj)
    else DecideOne(src[0].item.obj, dst[0].obj.key == src[0].item.obj.key)
  }

  ghost function SrcLeft(src: seq<Gated>, s: Step): seq<Gated> {
    if s.Dispose? || s.End? || src == [] then src else src[1..]
  }

  ghost function DstLeft<T>(dst: seq<T>, s: Step): seq<T> {
    if dst != [] && (s.Dispose? || (s.DecideOne? && s.here)) then dst[1..] else dst
  }

  ghost function ActionsOf(src: seq<Gated>, dst: seq<Item>, c: Config): seq<Action> {
    match StepOf(src, dst, c)
    case End => []
    case PassDir(o) => [Ignore(o.key)]
    case Dispose(d) => Extras(c, d)
    case DecideOne(o, here) => [Decide(c, o, if here then Some(dst[0].obj) else None, src[0].rec)]
  }

  lemma {:induction false} MergeStep(src: seq<Gated>, dst: seq<Item>, c: Config)
    ensures var s := StepOf(src, dst, c);
      if s.End? then Merge(src, dst, c).trace == []
      else
        && Merge(src, dst, c) == Before(ActionsOf(src, dst, c), Merge(SrcLeft(src, s), DstLeft(dst, s), c))
        && |SrcLeft(src, s)| + |DstLeft(dst, s)| < |src| + |dst|
  {
    var s := StepOf(src, dst, c);
    if s.DecideOne? { MergeDecide(src, dst, s.o, c); }
  }

  /** The situation of two delivered parts of full, ascending listings. */
  ghost predicate Feeds(src: seq<Gated>, full: seq<Gated>, dst: seq<Item>, dfull: seq<Obj>) {
    Clean(full) && SortedSrc(full) && Sorted(dfull) && SrcFeed(src, full) && DstFeed(dst, dfull)
  }

  lemma FeedsStep(src: seq<Gated>, full: seq<Gated>, dst: seq<Item>, dfull: seq<Obj>, c: Config)
    requires Feeds(src, full, dst, dfull)
    ensures var s := StepOf(src, dst, c);
      && Feeds(SrcLeft(src, s), SrcLeft(full, s), DstLeft(dst, s), DstLeft(dfull, s))
      && (s.PassDir? || s.DecideOne? ==> full != [] && src != [] && full[0] == src[0] && full[0].item == Entry(s.o))
      && (s.Dispose? || (s.DecideOne? && s.here) ==> dfull != [] && dst[0] == Entry(dfull[0]))
      && (s.Dispose? ==> s.d == dfull[0])
  {
    var s := StepOf(src, dst, c);
    if s.PassDir? || s.DecideOne? { FeedSteps(src, full); }
    if s.Dispose? || (s.DecideOne? && s.here) { DstFeedSteps(dst, dfull); }
  }

  ghost predicate SrcAbove(full: seq<Gated>, k: Key)
    requires Clean(full)
  {
    forall i :: 0 <= i < |full| ==> Less(k, full[i].item.obj.key)
  }

  ghost predicate DstAbove(dfull: seq<Obj>, k: Key) {
    forall i :: 0 <= i < |dfull| ==> Less(k, dfull[i].key)
  }

  lemma {:induction false} DstAboveOf(ds: seq<Obj>, k: Key)
    requires Sorted(ds) && (ds != [] ==> Less(k, ds[0].key))
    ensures DstAbove(ds, k)
  {
    forall i | 0 < i < |ds| ensures Less(k, ds[i].key) { LessTransitive(k, ds[0].key, ds[i].key); }
  }

  /** What is left after a step lies above the key of the step: all of it, but for the destination side of
      a directory passed over. */
  lemma StepOrder(src: seq<Gated>, full: seq<Gated>, dst: seq<Item>, dfull: seq<Obj>, c: Config)
    requires Feeds(src, full, dst, dfull)
    ensures var s := StepOf(src, dst, c);
      && (s.Dispose? ==> DstAbove(DstLeft(dfull, s), s.d.key) && SrcAbove(full, s.d.key))
      && (s.DecideOne? ==> SrcAbove(SrcLeft(full, s), s.o.key) && DstAbove(DstLeft(dfull, s), s.o.key))
      && (s.DecideOne? && !s.here ==> DstAbove(dfull, s.o.key))
      && (s.PassDir? ==> SrcAbove(SrcLeft(full, s), s.o.key))
  {
    var s := StepOf(src, dst, c);
    FeedsStep(src, full, dst, dfull, c);
    if s.Dispose? {
      if src != [] { FeedSteps(src, full); AllAbove(full, s.d.key); }
    } else if s.DecideOne? {
      if dst != [] {
        DstFeedSteps(dst, dfull);
        LessTotal(s.o.key, dst[0].obj.key);
        if !s.here { DstAboveOf(dfull, s.o.key); }
      }
    }
  }

  lemma ActionKeys(src: seq<Gated>, dst: seq<Item>, c: Config)
    ensures var s := StepOf(src, dst, c);
      forall a :: a in ActionsOf(src, dst, c) ==>
        if s.Dispose? then a.key == s.d.key && !AboutSrc(a) else !s.End? && a.key == s.o.key && AboutSrc(a)
  {
    var s := StepOf(src, dst, c);
    if s.DecideOne? {
      DecisionIsAboutSrc(c, s.o, if s.here then Some(dst[0].obj) else None, src[0].rec);
    }
  }

  /** A trace names only keys of what is left. */
  lemma {:induction false} TraceAbove(src: seq<Gated>, full: seq<Gated>, dst: seq<Item>, dfull: seq<Obj>, c: Config,
                                      k: Key)
    requires Feeds(src, full, dst, dfull) && SrcAbove(full, k) && DstAbove(dfull, k)
    ensures Above(Merge(src, dst, c).trace, k)
    decreases |src| + |dst|
  {
    hide Merge, Feeds;
    var s := StepOf(src, dst, c);
    MergeStep(src, dst, c);
    if !s.End? {
      FeedsStep(src, full, dst, dfull, c);
      ActionKeys(src, dst, c);
      TraceAbove(SrcLeft(src, s), SrcLeft(full, s), DstLeft(dst, s), DstLeft(dfull, s), c, k);
    }
  }

  // ---- Keys climb ----------------------------------------------------------------------------------------

  ghost predicate Above(t: seq<Action>, k: Key) {
    forall a :: a in t ==> Less(k, a.key)
  }

  /** Whatever follows a recorded key is greater, unless a directory was passed over. */
  ghost predicate Climbs(t: seq<Action>) {
    t == [] || (Climbs(t[1..]) && (Records(t[0]) && !t[0].Ignore? ==> Above(t[1..], t[0].key)))
  }

  lemma {:induction false} ClimbsBefore(e: seq<Action>, t: seq<Action>)
    requires Climbs(t) && |e| <= 1 && (e != [] && Records(e[0]) && !e[0].Ignore? ==> Above(t, e[0].key))
    ensures Climbs(e + t)
  {
    if e == [] { assert e + t == t; } else { assert (e + t)[1..] == t; }
  }

  lemma {:induction false} MergeClimbs(src: seq<Gated>, full: seq<Gated>, dst: seq<Item>, dfull: seq<Obj>, c: Config)
    requires Feeds(src, full, dst, dfull)
    ensures Climbs(Merge(src, dst, c).trace)
    decreases |src| + |dst|
  {
    hide Merge, Feeds, Climbs;
    var s := StepOf(src, dst, c);
    MergeStep(src, dst, c);
    if s.End? {
      NoClimb();
    } else {
      FeedsStep(src, full, dst, dfull, c);
      StepOrder(src, full, dst, dfull, c);
      ActionKeys(src, dst, c);
      var src', full', dst', dfull' := SrcLeft(src, s), SrcLeft(full, s), DstLeft(dst, s), DstLeft(dfull, s);
      MergeClimbs(src', full', dst', dfull', c);
      if s.Dispose? { TraceAbove(src', full', dst', dfull', c, s.d.key); }
      if s.DecideOne? { TraceAbove(src', full', dst', dfull', c, s.o.key); }
      ClimbsBefore(ActionsOf(src, dst, c), Merge(src', dst', c).trace);
    }
  }

  lemma NoClimb()
    ensures Climbs([])
  {}

  lemma {:induction false} ClimbsAt(t: seq<Action>, m: nat)
    requires Climbs(t) && m < |t| && Records(t[m]) && !t[m].Ignore?
    ensures Above(t[m+1..], t[m].key)
  {
    if m > 0 {
      ClimbsAt(t[1..], m - 1);
      assert t[1..][m - 1] == t[m] && t[1..][m..] == t[m+1..];
    }
  }

  /** Whatever a trace says after a recorded key lies above it, unless that is the key of a passed-over
      directory: a listing never comes back to what it has passed. */
  lemma {:induction false} PassedForGood(src: seq<Gated>, full: seq<Gated>, dst: seq<Item>, dfull: seq<Obj>,
                                         c: Config, m: nat)
    requires Feeds(src, full, dst, dfull)
    requires var t := Merge(src, dst, c).trace; m < |t| && Records(t[m]) && !t[m].Ignore?
    ensures var t := Merge(src, dst, c).trace; Above(t[m+1..], t[m].key)
  {
    MergeClimbs(src, full, dst, dfull, c);
    ClimbsAt(Merge(src, dst, c).trace, m);
  }

  // ---- Destination keys to be deleted --------------------------------------------------------------------

  /** The keys `x` are deleted in order, every recorded key but those of passed-over directories is below
      those still to come, and a clean end leaves none. */
  ghost predicate InOrderX(t: seq<Action>, x: set<Key>, ok: bool)
    decreases |t|
  {
    if t == [] then ok ==> x == {}
    else
      var k := t[0].key;
      if Deletes(t[0]) && k in x then (forall u :: u in x - {k} ==> Less(k, u)) && InOrderX(t[1..], x - {k}, ok)
      else (Records(t[0]) && !t[0].Ignore? ==> forall u :: u in x ==> Less(k, u)) && InOrderX(t[1..], x, ok)
  }

  ghost predicate Listed(c: Config, x: set<Key>, dfull: seq<Obj>) {
    forall k :: k in x ==> exists i :: 0 <= i < |dfull| && dfull[i].key == k && Deletable(c, dfull[i])
  }

  lemma ListedTail(c: Config, x: set<Key>, dfull: seq<Obj>)
    requires Sorted(dfull) && dfull != [] && Listed(c, x, dfull)
    ensures Listed(c, x - {dfull[0].key}, dfull[1..]) && (dfull[0].key in x ==> Deletable(c, dfull[0]))
  {
    forall k | k in x - {dfull[0].key}
      ensures exists i :: 0 <= i < |dfull[1..]| && dfull[1..][i].key == k && Deletable(c, dfull[1..][i])
    {
      var i :| 0 <= i < |dfull| && dfull[i].key == k && Deletable(c, dfull[i]);
      assert dfull[1..][i - 1] == dfull[i];
    }
    if dfull[0].key in x {
      var i :| 0 <= i < |dfull| && dfull[i].key == dfull[0].key && Deletable(c, dfull[i]);
      LessIrreflexive(dfull[0].key);
    }
  }

  lemma {:induction false} ListedAbove(c: Config, x: set<Key>, dfull: seq<Obj>, k: Key)
    requires Listed(c, x, dfull) && DstAbove(dfull, k)
    ensures forall u :: u in x ==> Less(k, u)
  {
    forall u | u in x ensures Less(k, u) {
      var i :| 0 <= i < |dfull| && dfull[i].key == u && Deletable(c, dfull[i]);
    }
  }

  lemma {:induction false} InOrderXDelete(a: Action, t: seq<Action>, x: set<Key>, ok: bool)
    requires Deletes(a) && a.key in x && (forall u :: u in x - {a.key} ==> Less(a.key, u))
    requires InOrderX(t, x - {a.key}, ok)
    ensures InOrderX([a] + t, x, ok)
  {
    hide Less;
    assert ([a] + t)[1..] == t;
  }

  lemma {:induction false} InOrderXOther(a: Action, t: seq<Action>, x: set<Key>, ok: bool)
    requires !(Deletes(a) && a.key in x) && (Records(a) && !a.Ignore? ==> forall u :: u in x ==> Less(a.key, u))
    requires InOrderX(t, x, ok)
    ensures InOrderX([a] + t, x, ok)
  {
    hide Less;
    assert ([a] + t)[1..] == t;
  }

  lemma ExtrasOf(c: Config, d: Obj)
    ensures var e := Extras(c, d);
            && |e| <= 1 && (e != [] ==> e[0].key == d.key)
            && (Deletable(c, d) ==> e != [] && Deletes(e[0]))
  {}

  lemma BeforeIs(e: seq<Action>, rest: Outcome)
    ensures Before(e, rest) == Outcome(e + rest.trace, rest.ok)
  {}

  lemma {:induction false} InOrderXExtra(c: Config, d: Obj, rest: Outcome, x: set<Key>)
    requires d.key in x ==> Deletable(c, d)
    requires InOrderX(rest.trace, x - {d.key}, rest.ok) && forall u :: u in x - {d.key} ==> Less(d.key, u)
    ensures InOrderX(Before(Extras(c, d), rest).trace, x, rest.ok)
  {
    hide *;
    var e := Extras(c, d);
    ExtrasOf(c, d);
    BeforeIs(e, rest);
    if d.key !in x { assert x - {d.key} == x; }
    if e == [] {
      assert e + rest.trace == rest.trace;
    } else {
      assert e == [e[0]];
      if d.key in x { InOrderXDelete(e[0], rest.trace, x, rest.ok); }
      else { InOrderXOther(e[0], rest.trace, x, rest.ok); }
    }
  }

  /** Every trace is in order for the destination keys that the source does not keep alive, wherever either
      listing breaks off. */
  lemma {:induction false} MergeInOrderX(src: seq<Gated>, full: seq<Gated>, dst: seq<Item>, dfull: seq<Obj>,
                                         c: Config, x: set<Key>)
    requires Feeds(src, full, dst, dfull) && Listed(c, x, dfull) && Live(c, full) !! x
    ensures InOrderX(Merge(src, dst, c).trace, x, Merge(src, dst, c).ok)
    decreases |src| + |dst|
  {
    hide Merge, Feeds, InOrderX, StepOf;
    var s := StepOf(src, dst, c);
    MergeStep(src, dst, c);
    if s.End? {
      EndOfX(src, full, dst, dfull, c, x);
    } else {
      FeedsStep(src, full, dst, dfull, c);
      StepOrder(src, full, dst, dfull, c);
      var src', full', dst', dfull' := SrcLeft(src, s), SrcLeft(full, s), DstLeft(dst, s), DstLeft(dfull, s);
      var e := ActionsOf(src, dst, c);
      FeedsMeans(src, full, dst, dfull);
      if full != [] { LiveStep(c, full); }
      if s.Dispose? {
        ListedTail(c, x, dfull);
        MergeInOrderX(src', full', dst', dfull', c, x - {s.d.key});
        ListedAbove(c, x - {s.d.key}, dfull', s.d.key);
        InOrderXExtra(c, s.d, Merge(src', dst', c), x);
      } else if s.PassDir? {
        PassedIsIgnored(src, dst, c);
        MergeInOrderX(src', full', dst', dfull', c, x);
        InOrderXOther(e[0], Merge(src', dst', c).trace, x, Merge(src', dst', c).ok);
      } else {
        ActionKeys(src, dst, c);
        DecidedIsLive(src, dst, c);
        if s.here { ListedTail(c, x, dfull); SameKey(src, dst, c); assert x - {dfull[0].key} == x; }
        MergeInOrderX(src', full', dst', dfull', c, x);
        ListedAbove(c, x, dfull', s.o.key);
        InOrderXOther(e[0], Merge(src', dst', c).trace, x, Merge(src', dst', c).ok);
      }
    }
  }

  lemma FeedsMeans(src: seq<Gated>, full: seq<Gated>, dst: seq<Item>, dfull: seq<Obj>)
    requires Feeds(src, full, dst, dfull)
    ensures Clean(full) && SortedSrc(full) && Sorted(dfull)
  {}

  lemma PassedIsIgnored(src: seq<Gated>, dst: seq<Item>, c: Config)
    requires StepOf(src, dst, c).PassDir?
    ensures ActionsOf(src, dst, c) == [Ignore(StepOf(src, dst, c).o.key)]
    ensures Ignored(c, StepOf(src, dst, c).o)
  {}

  lemma DecidedIsLive(src: seq<Gated>, dst: seq<Item>, c: Config)
    requires StepOf(src, dst, c).DecideOne?
    ensures !Ignored(c, StepOf(src, dst, c).o)
  {}

  lemma SameKey(src: seq<Gated>, dst: seq<Item>, c: Config)
    ensures var s := StepOf(src, dst, c); s.DecideOne? && s.here ==>
        dst != [] && dst[0].Entry? && dst[0].obj.key == s.o.key
  {}

  lemma {:induction false} EndOfX(src: seq<Gated>, full: seq<Gated>, dst: seq<Item>, dfull: seq<Obj>, c: Config,
                                  x: set<Key>)
    requires Feeds(src, full, dst, dfull) && StepOf(src, dst, c).End? && Listed(c, x, dfull)
    ensures InOrderX(Merge(src, dst, c).trace, x, Merge(src, dst, c).ok)
  {
    assert Merge(src, dst, c).trace == [];
    forall k | k in x ensures !Merge(src, dst, c).ok {
      var i :| 0 <= i < |dfull| && dfull[i].key == k && Deletable(c, dfull[i]);
    }
  }

  // ---- A cut of a trace ----------------------------------------------------------------------------------

  /** The action that set the last listed key. */
  function LastRecording(t: seq<Action>): Option<Action> {
    if t == [] then None
    else if Records(t[|t|-1]) then Some(t[|t|-1])
    else LastRecording(t[..|t|-1])
  }

  lemma {:induction false} LastRecordingAt(t: seq<Action>)
    requires LastRecording(t).Some?
    ensures exists m :: 0 <= m < |t| && t[m] == LastRecording(t).value && Records(t[m])
  {
    if !Records(t[|t|-1]) {
      LastRecordingAt(t[..|t|-1]);
      var m :| 0 <= m < |t| - 1 && t[..|t|-1][m] == LastRecording(t).value;
      assert t[m] == LastRecording(t).value;
    }
  }

  /** The keys to be deleted: deletable on the destination and not kept alive by the full source. */
  ghost function Dead(c: Config, full: seq<Gated>, dfull: seq<Obj>): set<Key> {
    set i | 0 <= i < |dfull| && Deletable(c, dfull[i]) && dfull[i].key !in Live(c, full) :: dfull[i].key
  }

  /** Up to the last listed key everything that is to be deleted has been sent or delayed. */
  ghost predicate CutCovers(t: seq<Action>, n: nat, dead: set<Key>)
    requires n <= |t|
  {
    var r := LastRecording(t[..n]);
    r.Some? ==> forall k :: k in dead && AtMost(k, r.value.key) ==> k in Deletions(t[..n])
  }

  /** The last recorded key is that of a passed-over directory, with a deletion below it still to come. */
  ghost predicate Overtaken(t: seq<Action>, n: nat, dead: set<Key>)
    requires n <= |t|
  {
    var r := LastRecording(t[..n]);
    r.Some? && r.value.Ignore? && exists k :: k in dead && AtMost(k, r.value.key) && k !in Deletions(t[..n])
  }

  lemma {:induction false} InOrderXCut(t: seq<Action>, x: set<Key>, ok: bool, m: nat, n: nat, k: Key)
    requires InOrderX(t, x, ok) && m < n <= |t| && Records(t[m]) && !t[m].Ignore? && k in x
    ensures k in Deletions(t[..n]) || Less(t[m].key, k)
  {
    hide Less;
    assert t[..n][0] == t[0] && t[..n][1..] == t[1..][..n-1];
    if m > 0 && !(Deletes(t[0]) && k == t[0].key) {
      var x' := if Deletes(t[0]) && t[0].key in x then x - {t[0].key} else x;
      InOrderXCut(t[1..], x', ok, m - 1, n - 1, k);
    }
  }

  /** A checkpoint taken at any point of the producer, with listings that may break off anywhere, covers the
      keys to be deleted up to its last listed key exactly if that key is not the one of a passed-over
      directory with such a key below it still to come. */
  lemma {:induction false} CutIff(src: seq<Gated>, full: seq<Gated>, dst: seq<Item>, dfull: seq<Obj>, c: Config, n: nat)
    requires Feeds(src, full, dst, dfull) && n <= |Merge(src, dst, c).trace|
    ensures var t := Merge(src, dst, c).trace;
            CutCovers(t, n, Dead(c, full, dfull)) <==> !Overtaken(t, n, Dead(c, full, dfull))
  {
    hide Merge, Feeds, InOrderX, Less;
    var r, dead := Merge(src, dst, c), Dead(c, full, dfull);
    MergeInOrderX(src, full, dst, dfull, c, dead);
    var t := r.trace;
    var a := LastRecording(t[..n]);
    if a.Some? && !a.value.Ignore? {
      LastRecordingAt(t[..n]);
      var m :| 0 <= m < n && t[..n][m] == a.value && Records(t[m]);
      forall k | k in dead && AtMost(k, a.value.key) ensures k in Deletions(t[..n]) {
        InOrderXCut(t, dead, r.ok, m, n, k);
        NotBelow(k, a.value.key);
      }
    }
  }

  ghost predicate Unique(ks: seq<Key>) {
    forall i, j :: 0 <= i < j < |ks| ==> ks[i] != ks[j]
  }

  lemma {:induction false} DoomedUnique(c: Config, live: set<Key>, ds: seq<Obj>)
    requires Sorted(ds)
    ensures Unique(Doomed(c, live, ds))
  {
    if ds != [] {
      DoomedUnique(c, live, ds[1..]);
      var rest := Doomed(c, live, ds[1..]);
      forall j | 0 <= j < |rest| ensures rest[j] != ds[0].key {
        C.DoomedMembers(c, live, ds[1..], rest[j]);
        var i :| 0 <= i < |ds[1..]| && ds[1..][i].key == rest[j];
        assert ds[i+1] == ds[1..][i];
        LessIrreflexive(rest[j]);
      }
    }
  }

  /** For complete listings "still to come" is what it says: a key to be deleted that is not among the
      deletions before the cut is among those after it, and no other is. */
  lemma {:induction false} StillToCome(src: seq<Gated>, ds: seq<Obj>, c: Config, n: nat, k: Key)
    requires Clean(src) && SortedSrc(src) && Sorted(ds) && n <= |Merge(src, Items(ds), c).trace|
    ensures var t := Merge(src, Items(ds), c).trace;
            k in Dead(c, src, ds) && k !in Deletions(t[..n]) <==> k in Deletions(t[n..])
  {
    hide Merge;
    var t := Merge(src, Items(ds), c).trace;
    Exactness(src, ds, c);
    C.DoomedMembers(c, Live(c, src), ds, k);
    DoomedUnique(c, Live(c, src), ds);
    CutSplits(t, n);
    if k in Deletions(t[..n]) && k in Deletions(t[n..]) { TwiceListed(Deletions(t[..n]), Deletions(t[n..]), k); }
  }

  lemma Rejoined<T>(t: seq<T>, n: nat)
    requires n <= |t|
    ensures t[..n] + t[n..] == t
  {}

  lemma {:induction false} CutSplits(t: seq<Action>, n: nat)
    requires n <= |t|
    ensures Deletions(t) == Deletions(t[..n]) + Deletions(t[n..])
  {
    hide *;
    PartsOfConcat(t[..n], t[n..]);
    Rejoined(t, n);
  }

  lemma {:induction false} NotBelow(k: Key, l: Key)
    ensures AtMost(k, l) ==> !Less(l, k)
  {
    if Less(k, l) { LessAsymmetric(k, l); }
    LessIrreflexive(l);
  }

  lemma TwiceListed(a: seq<Key>, b: seq<Key>, k: Key)
    requires k in a && k in b
    ensures !Unique(a + b)
  {
    var i :| 0 <= i < |a| && a[i] == k;
    var j :| 0 <= j < |b| && b[j] == k;
    assert (a + b)[i] == (a + b)[|a| + j];
  }

  /** The flag that rules it out: with --dirs no directory is passed over, so every cut covers. */
  lemma {:induction false} CutCoversWithDirs(src: seq<Gated>, full: seq<Gated>, dst: seq<Item>, dfull: seq<Obj>,
                                             c: Config, n: nat)
    requires Feeds(src, full, dst, dfull) && n <= |Merge(src, dst, c).trace| && c.dirs
    ensures CutCovers(Merge(src, dst, c).trace, n, Dead(c, full, dfull))
  {
    hide Merge, Feeds, Dead;
    var t := Merge(src, dst, c).trace;
    CutIff(src, full, dst, dfull, c, n);
    TraceKinds(src, dst, c);
    if LastRecording(t[..n]).Some? {
      LastRecordingAt(t[..n]);
      var m :| 0 <= m < n && t[..n][m] == LastRecording(t[..n]).value;
      assert t[m] in t;
    }
  }

  /** Which flags each passing or delaying action needs. */
  lemma {:induction false} TraceKinds(src: seq<Gated>, dst: seq<Item>, c: Config)
    ensures forall a :: a in Merge(src, dst, c).trace ==> Allowed(a, c)
    decreases |src| + |dst|
  {
    hide Merge, ActionsOf, StepOf;
    var s := StepOf(src, dst, c);
    MergeStep(src, dst, c);
    StepKinds(src, dst, c);
    if !s.End? { TraceKinds(SrcLeft(src, s), DstLeft(dst, s), c); }
  }

  predicate Allowed(a: Action, c: Config) {
    (a.Ignore? ==> !c.dirs) && (a.DelaySrc? ==> c.deleteSrc) && (a.DelayDst? ==> c.deleteDst && c.dirs)
  }

  lemma StepKinds(src: seq<Gated>, dst: seq<Item>, c: Config)
    ensures forall a :: a in ActionsOf(src, dst, c) ==> Allowed(a, c)
  {}
}

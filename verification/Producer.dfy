/** The streaming merge-join of two sorted listings that decides what happens to each key. */
module Producer {
  import opened Keys

  datatype Option<+T> = None | Some(value: T)

  /** The part of an object's metadata that decisions look at; `mtime` is in nanoseconds. */
  datatype Obj = Obj(key: Key, size: int, mtime: int, isDir: bool, isSymlink: bool, perms: int)

  /** What a listing channel carries: an object, or the nil that says the listing has failed. */
  datatype Item = Entry(obj: Obj) | Broken

  /** A row of the gate table: the source mtime of the last attempt and whether it succeeded. */
  datatype Record = Record(success: bool, mtime: int)

  /** A source item after the prefetch stage, with its gate row when one was found. */
  datatype Gated = Gated(item: Item, rec: Option<Record>)

  datatype Config = Config(
    dirs: bool, links: bool, deleteSrc: bool, deleteDst: bool,
    existing: bool, ignoreExisting: bool, forceUpdate: bool, update: bool,
    checkAll: bool, perms: bool,
    gate: bool, gateBuffer: bool, checkpointKey: Option<Key>)

  datatype Kind = Copy | Checksum | DeleteSrc | CopyPerms | DeleteDst

  /** One externally visible decision of the producer, in the order in which it makes them. */
  datatype Action =
    | Ignore(key: Key)                  // a source directory passed over without --dirs
    | Skip(key: Key, recorded: bool)    // nothing to do; recorded says whether a gate row is written
    | Send(key: Key, kind: Kind)        // pending in the checkpoint, then queued for the workers
    | DelaySrc(key: Key)                // a source directory to delete at the very end
    | DelayDst(key: Key)                // a destination directory to delete at the very end
    | Extra(key: Key)                   // a destination key left alone, counted only

  datatype Outcome = Outcome(trace: seq<Action>, ok: bool)

  const SECOND := 1_000_000_000

  function Unix(t: int): int {
    t / SECOND
  }

  // ---- The two gates ------------------------------------------------------------------------

  datatype GateResult = GateSkip | GateNeedSecondGate | GateMissing

  function FirstGate(o: Obj, rec: Option<Record>, forceUpdate: bool): GateResult {
    if forceUpdate then GateNeedSecondGate
    else if rec.None? then GateMissing
    else if !rec.value.success then GateNeedSecondGate
    else if Unix(o.mtime) <= Unix(rec.value.mtime) then GateSkip
    else GateNeedSecondGate
  }

  predicate SecondGateSends(o: Obj, d: Obj, forceUpdate: bool) {
    forceUpdate || d.mtime < o.mtime
  }

  predicate UseFirstGate(c: Config) {
    c.gate && !c.forceUpdate && !c.ignoreExisting
  }

  // ---- What a single key deserves, given both sides -----------------------------------------

  predicate Ignored(c: Config, o: Obj) {
    !c.dirs && o.isDir && (!c.links || !o.isSymlink)
  }

  /** An object believed equal on both sides still gets the marker its flags ask for. */
  function Marked(c: Config, o: Obj, d: Obj, otherwise: Action): Action {
    if c.checkAll then Send(o.key, Checksum)
    else if c.deleteSrc then (if o.isDir then DelaySrc(o.key) else Send(o.key, DeleteSrc))
    else if c.perms && o.perms != d.perms then Send(o.key, CopyPerms)
    else otherwise
  }

  predicate Differs(c: Config, o: Obj, d: Obj) {
    || c.forceUpdate
    || (c.update && Unix(o.mtime) > Unix(d.mtime))
    || (!c.update && o.size != d.size)
  }

  /** The decision for a source object from the destination object of the same key, if any. */
  function Decide(c: Config, o: Obj, d: Option<Obj>, rec: Option<Record>): Action {
    if UseFirstGate(c) && FirstGate(o, rec, c.forceUpdate) == GateSkip then Skip(o.key, false)
    else if d.None? then (if c.existing then Skip(o.key, false) else Send(o.key, Copy))
    else if c.ignoreExisting then Skip(o.key, false)
    else if c.gate then
      if SecondGateSends(o, d.value, c.forceUpdate)
      then Marked(c, o, d.value, Send(o.key, Copy))
      else Skip(o.key, c.gateBuffer && d.value.size != 0)
    else if Differs(c, o, d.value) then Send(o.key, Copy)
    else if c.update && Unix(o.mtime) < Unix(d.value.mtime) then Skip(o.key, false)
    else Marked(c, o, d.value, Skip(o.key, false))
  }

  /** What happens to a destination key that the source does not have. */
  function Extras(c: Config, d: Obj): seq<Action> {
    if c.checkpointKey == Some(d.key) then []
    else if !c.deleteDst || (!c.dirs && d.isDir) then [Extra(d.key)]
    else if d.isDir then [DelayDst(d.key)]
    else [Send(d.key, DeleteDst)]
  }

  // ---- The join, as one recursion over the two heads ----------------------------------------

  function Merge(src: seq<Gated>, dst: seq<Item>, c: Config): Outcome
    decreases |src| + |dst|
  {
    if src == [] then
      if !c.deleteDst || dst == [] then Outcome([], true)
      else if dst[0].Broken? then Outcome([], false)
      else Before(Extras(c, dst[0].obj), Merge(src, dst[1..], c))
    else if src[0].item.Broken? then Outcome([], false)
    else
      var o := src[0].item.obj;
      if Ignored(c, o) then Before([Ignore(o.key)], Merge(src[1..], dst, c))
      else if dst == [] then Before([Decide(c, o, None, src[0].rec)], Merge(src[1..], dst, c))
      else if dst[0].Broken? then Outcome([], false)
      else
        var d := dst[0].obj;
        if Less(d.key, o.key) then Before(Extras(c, d), Merge(src, dst[1..], c))
        else if Less(o.key, d.key) then Before([Decide(c, o, None, src[0].rec)], Merge(src[1..], dst, c))
        else Before([Decide(c, o, Some(d), src[0].rec)], Merge(src[1..], dst[1..], c))
  }

  function Before(actions: seq<Action>, rest: Outcome): Outcome {
    Outcome(actions + rest.trace, rest.ok)
  }

  // ---- The loop of the source, with its held destination object -----------------------------

  method HandleExtraObject(d: Obj, c: Config) returns (actions: seq<Action>)
    ensures actions == Extras(c, d)
  {
    if c.checkpointKey == Some(d.key) { return []; }
    if !c.deleteDst || (!c.dirs && d.isDir) { return [Extra(d.key)]; }
    if d.isDir { return [DelayDst(d.key)]; }
    return [Send(d.key, DeleteDst)];
  }

  lemma BeforeAssociative(a: seq<Action>, b: seq<Action>, rest: Outcome)
    ensures Before(a, Before(b, rest)) == Before(a + b, rest)
  {
    assert a + (b + rest.trace) == (a + b) + rest.trace;
  }

  /** The destination items not yet disposed of: the held one, then those still in the channel. */
  ghost function Ahead(held: Option<Obj>, ch: seq<Item>): seq<Item> {
    if held.Some? then [Entry(held.value)] + ch else ch
  }

  lemma AheadOfHeld(held: Option<Obj>, ch: seq<Item>)
    requires held.Some?
    ensures Ahead(held, ch) != [] && Ahead(held, ch)[0] == Entry(held.value) && Ahead(held, ch)[1..] == ch
  {}

  /** One step of the join on a source key, once no smaller destination key is left. */
  lemma MergeDecide(src: seq<Gated>, dst: seq<Item>, o: Obj, c: Config)
    requires src != [] && src[0].item == Entry(o) && !Ignored(c, o)
    requires dst != [] ==> dst[0].Entry? && !Less(dst[0].obj.key, o.key)
    ensures var here := dst != [] && dst[0].obj.key == o.key;
            Merge(src, dst, c) == Before([Decide(c, o, if here then Some(dst[0].obj) else None, src[0].rec)],
                                         Merge(src[1..], if here then dst[1..] else dst, c))
  {
    if dst != [] { LessTotal(o.key, dst[0].obj.key); LessIrreflexive(o.key); }
  }

  /** Advances the destination cursor to the first key not below `o`, disposing of what it passes. */
  method Align(o: Obj, c: Config, held0: Option<Obj>, ch0: seq<Item>, ghost src: seq<Gated>)
    returns (held: Option<Obj>, ch: seq<Item>, actions: seq<Action>, ok: bool)
    requires src != [] && src[0].item == Entry(o) && !Ignored(c, o)
    ensures ok ==> if held.Some? then !Less(held.value.key, o.key) else ch == []
    ensures ok ==> Merge(src, Ahead(held0, ch0), c) == Before(actions, Merge(src, Ahead(held, ch), c))
    ensures !ok ==> Merge(src, Ahead(held0, ch0), c) == Outcome(actions, false)
  {
    held, ch, actions, ok := held0, ch0, [], true;
    if held.Some? && Less(held.value.key, o.key) {
      AheadOfHeld(held, ch);
      actions := HandleExtraObject(held.value, c);
      held := None;
    }
    while held.None? && ch != []
      invariant held.Some? ==> !Less(held.value.key, o.key)
      invariant Merge(src, Ahead(held0, ch0), c) == Before(actions, Merge(src, Ahead(held, ch), c))
      decreases |ch|, held.None?
    {
      var item := ch[0];
      if item.Broken? { return None, ch[1..], actions, false; }
      if !Less(item.obj.key, o.key) {
        assert Ahead(None, ch) == Ahead(Some(item.obj), ch[1..]);
        held := Some(item.obj);
      } else {
        var more := HandleExtraObject(item.obj, c);
        BeforeAssociative(actions, more, Merge(src, ch[1..], c));
        actions := actions + more;
      }
      ch := ch[1..];
    }
  }

  /** The producer: a nil on either channel stops it, a clean end disposes of the remaining extras. */
  method Produce(srckeys: seq<Gated>, dstkeys: seq<Item>, c: Config) returns (trace: seq<Action>, ok: bool)
    ensures Outcome(trace, ok) == Merge(srckeys, dstkeys, c)
  {
    trace, ok := [], true;
    var held: Option<Obj>, src, dst := None, srckeys, dstkeys;
    while src != []
      invariant ok && Merge(srckeys, dstkeys, c) == Before(trace, Merge(src, Ahead(held, dst), c))
      decreases |src|
    {
      if src[0].item.Broken? { return trace, false; }
      var o, rec := src[0].item.obj, src[0].rec;
      if Ignored(c, o) {
        BeforeAssociative(trace, [Ignore(o.key)], Merge(src[1..], Ahead(held, dst), c));
        trace := trace + [Ignore(o.key)];
      } else {
        var passed;
        held, dst, passed, ok := Align(o, c, held, dst, src);
        if !ok { return trace + passed, false; }
        BeforeAssociative(trace, passed, Merge(src, Ahead(held, dst), c));
        trace := trace + passed;
        var here := held.Some? && o.key == held.value.key;
        var decision := DecideHere(o, rec, held, c, here);
        MergeDecide(src, Ahead(held, dst), o, c);
        if here {
          AheadOfHeld(held, dst);
          held := None;
        }
        BeforeAssociative(trace, [decision], Merge(src[1..], Ahead(held, dst), c));
        trace := trace + [decision];
      }
      src := src[1..];
    }
    if c.deleteDst {
      if held.Some? {
        AheadOfHeld(held, dst);
        var more := HandleExtraObject(held.value, c);
        BeforeAssociative(trace, more, Merge([], dst, c));
        trace := trace + more;
        held := None;
      }
      while dst != []
        invariant Merge(srckeys, dstkeys, c) == Before(trace, Merge([], dst, c))
        decreases |dst|
      {
        if dst[0].Broken? { return trace, false; }
        var more := HandleExtraObject(dst[0].obj, c);
        BeforeAssociative(trace, more, Merge([], dst[1..], c));
        trace := trace + more;
        dst := dst[1..];
      }
    }
  }

  /** The branches of the loop body for one aligned key. */
  method DecideHere(o: Obj, rec: Option<Record>, held: Option<Obj>, c: Config, here: bool) returns (a: Action)
    requires here ==> held.Some?
    ensures a == Decide(c, o, if here then held else None, rec)
  {
    if UseFirstGate(c) && FirstGate(o, rec, c.forceUpdate) == GateSkip { return Skip(o.key, false); }
    if !here {
      if c.existing { return Skip(o.key, false); }
      return Send(o.key, Copy);
    }
    var d := held.value;
    if c.ignoreExisting { return Skip(o.key, false); }
    if c.gate {
      if SecondGateSends(o, d, c.forceUpdate) { return Marked(c, o, d, Send(o.key, Copy)); }
      return Skip(o.key, c.gateBuffer && d.size != 0);
    }
    if Differs(c, o, d) { return Send(o.key, Copy); }
    if c.update && Unix(o.mtime) < Unix(d.mtime) { return Skip(o.key, false); }
    return Marked(c, o, d, Skip(o.key, false));
  }
}

/** What every run of the checkpointed process keeps: no source key, and no key to be deleted on the
    destination, is missed over crashes and restarts. */
module Resume {
  import opened Keys
  import opened Producer
  import opened MergeJoin
  import opened Traces
  import opened Checkpoint
  import opened CrashResume
  import opened ResumeOrder

  // ---- The invariant -------------------------------------------------------------------------------

  /** One side of the work: the keys in question, those dealt with, and those the producer has yet to reach. */
  datatype Side = Side(target: set<Key>, done: set<Key>, todo: set<Key>)

  ghost function All(env: Env): set<Key> {
    KeysOf(env.full)
  }

  ghost function SrcSide(env: Env, s: State): Side {
    Side(All(env), s.handled, s.todo)
  }

  /** On the destination a key is dealt with when it is deleted or in the list of delayed deletions. */
  ghost function DstSide(env: Env, s: State): Side {
    Side(env.extras, s.gone + SetOf(s.dstDelay), s.xtodo)
  }

  /** With --dirs, where no directory is passed over: keys to be deleted that the source does not have. */
  ghost predicate WellDst(env: Env) {
    env.c.dirs && "" !in env.extras && env.extras !! All(env)
  }

  /** Every key is dealt with, to come, held by the checkpoint and, unless a task failed, in a worker's hands. */
  ghost predicate SideInv(x: Side, s: State) {
    && (s.stranded || x.target <= x.done + x.todo + Held(s.mgr.prefixes))
    && (s.stranded || s.failures > 0 || x.target <= x.done + x.todo + Active(s.jobs) + MidSend(s))
    && Upcoming(x.todo, s.mgr.prefixes, s.recorded)
  }

  /** What is to come lies after the last listed key; nothing is, once the listing is done. */
  ghost predicate Upcoming(todo: set<Key>, ps: map<Key, PrefixState>, recorded: bool) {
    && (forall u :: u in todo ==> LastOf(ps) == "" || Less(LastOf(ps), u))
    && (ListDone(ps) || (recorded && ROOT !in ps) ==> todo == {})
  }

  /** Only keys that the source has are copied, and of those only handled ones are deleted opposite. */
  ghost predicate KindOk(env: Env, handled: set<Key>, k: Key, kind: Kind) {
    if kind == DeleteDst then k in All(env) ==> k in handled else k in All(env)
  }

  ghost predicate KindsOk(env: Env, handled: set<Key>, ps: map<Key, PrefixState>) {
    forall k, kind :: kind in TaskKinds(ps, k) ==> KindOk(env, handled, k, kind)
  }

  ghost predicate JobOk(env: Env, s: State, j: Job) {
    && KindOk(env, s.handled, j.key, j.kind)
    && (j.phase.Succeeded? || j.phase.Logged? ==> if j.kind == DeleteDst then j.key in s.gone else j.key in s.handled)
    && (j.phase.Erred? ==> s.failures > 0)
  }

  ghost predicate JobsOk(env: Env, s: State) {
    forall i :: 0 <= i < |s.jobs| ==> JobOk(env, s, s.jobs[i])
  }

  ghost predicate TraceInv(env: Env, s: State) {
    && InOrder(Rest(s), s.todo, s.ok) && (WellDst(env) ==> InOrderX(Rest(s), s.xtodo, s.ok))
    && s.todo <= All(env) && (forall a :: a in s.prog ==> Allowed(a, env.c))
    && (s.stage > 0 && s.prog != [] && s.prog[0].Send? ==> KindOk(env, s.handled, s.prog[0].key, s.prog[0].kind))
  }

  /** A process that lists nothing although nothing had been recorded does no work at all. */
  ghost predicate StrandedInv(s: State) {
    s.stranded ==>
      s.fin && s.jobs == [] && s.todo == {} && s.xtodo == {} && ROOT !in s.mgr.prefixes && !s.recorded
      && s.handled == s.entry
  }

  /** Every key is dealt with, outstanding in the checkpoint, or still to be listed by a restart. */
  ghost predicate Covers(target: set<Key>, done: set<Key>, ps: map<Key, PrefixState>, recorded: bool) {
    && (ROOT in ps ==> forall k :: k in target ==>
          k in done || k in Held(ps) || (!ListDone(ps) && (LastOf(ps) == "" || Less(LastOf(ps), k))))
    && (ROOT !in ps && recorded ==> target <= done)
  }

  ghost predicate ReadOk(env: Env, ps: map<Key, PrefixState>, recorded: bool, handled: set<Key>, gone: set<Key>) {
    && KindsOk(env, handled, ps) && Covers(All(env), handled, ps, recorded)
    && (WellDst(env) ==> Covers(env.extras, gone, ps, recorded))
  }

  ghost predicate SavedOk(env: Env, d: Saved, handled: set<Key>, gone: set<Key>) {
    ReadOk(env, d.snap.prefixes, d.recorded, handled, gone + SetOf(d.snap.dstDelay)) && d.snap.uploads == map[]
  }

  ghost predicate SaverInv(env: Env, saver: Saver, handled: set<Key>, gone: set<Key>, dstDelay: seq<Key>) {
    match saver
    case Idle => true
    case HasPrefixes(ps, _, _, recorded) => ReadOk(env, ps, recorded, handled, gone + SetOf(dstDelay))
    case HasSrcDelay(ps, _, _, recorded, _, _) => ReadOk(env, ps, recorded, handled, gone + SetOf(dstDelay))
    case Ready(d) => SavedOk(env, d, handled, gone)
  }

  ghost predicate Sides(env: Env, s: State) {
    SideInv(SrcSide(env, s), s) && (WellDst(env) ==> SideInv(DstSide(env, s), s))
  }

  ghost predicate LiveInv(env: Env, s: State) {
    && LiveOrder(s) && Sides(env, s) && TraceInv(env, s) && StrandedInv(s)
    && JobsOk(env, s) && KindsOk(env, s.handled, s.mgr.prefixes)
    && SaverInv(env, s.saver, s.handled, s.gone, s.dstDelay)
  }

  /** Completion with everything dealt with, or of a stranded process, which dealt with nothing. */
  ghost predicate DoneInv(env: Env, s: State) {
    if s.stranded then s.handled == s.entry
    else All(env) <= s.handled && (WellDst(env) ==> env.extras <= s.gone + SetOf(s.dstDelay))
  }

  ghost predicate Inv(env: Env, s: State) {
    && OrderInv(s)
    && (s.mode.Running? ==> LiveInv(env, s))
    && (s.disk.Some? ==> SavedOk(env, s.disk.value, s.handled, s.gone))
    && (s.mode.Completed? ==> DoneInv(env, s))
  }

  // ---- The saver's reads stay good -------------------------------------------------------------------

  lemma KindsGrow(env: Env, ps: map<Key, PrefixState>, ps': map<Key, PrefixState>, handled: set<Key>,
                  handled': set<Key>)
    requires KindsOk(env, handled, ps) && handled <= handled' && Within(ps, ps')
    ensures KindsOk(env, handled', ps')
  {}

  lemma ReadGrows(env: Env, ps: map<Key, PrefixState>, recorded: bool, handled: set<Key>, gone: set<Key>,
                  handled': set<Key>, gone': set<Key>)
    requires ReadOk(env, ps, recorded, handled, gone) && handled <= handled' && gone <= gone'
    ensures ReadOk(env, ps, recorded, handled', gone')
  {
    hide Less, Held, LastOf, ListDone, TaskKinds;
  }

  lemma SaverGrows(env: Env, saver: Saver, handled: set<Key>, gone: set<Key>, dstDelay: seq<Key>,
                   handled': set<Key>, gone': set<Key>, dstDelay': seq<Key>)
    requires SaverInv(env, saver, handled, gone, dstDelay)
    requires handled <= handled' && gone <= gone' && SetOf(dstDelay) <= SetOf(dstDelay')
    ensures SaverInv(env, saver, handled', gone', dstDelay')
  {
    hide ReadOk;
    match saver
    case Idle =>
    case HasPrefixes(ps, _, _, r) => ReadGrows(env, ps, r, handled, gone + SetOf(dstDelay), handled',
                                           gone' + SetOf(dstDelay'));
    case HasSrcDelay(ps, _, _, r, _, _) => ReadGrows(env, ps, r, handled, gone + SetOf(dstDelay), handled',
                                           gone' + SetOf(dstDelay'));
    case Ready(d) => SavedGrows(env, d, handled, gone, handled', gone');
  }

  lemma SavedGrows(env: Env, d: Saved, handled: set<Key>, gone: set<Key>, handled': set<Key>, gone': set<Key>)
    requires SavedOk(env, d, handled, gone) && handled <= handled' && gone <= gone'
    ensures SavedOk(env, d, handled', gone')
  {
    hide ReadOk;
    var more := SetOf(d.snap.dstDelay);
    ReadGrows(env, d.snap.prefixes, d.recorded, handled, gone + more, handled', gone' + more);
  }

  lemma SideCovers(x: Side, s: State)
    requires SideInv(x, s) && (s.stranded ==> ROOT !in s.mgr.prefixes && !s.recorded)
    ensures Covers(x.target, x.done, s.mgr.prefixes, s.recorded)
  {
    hide Less;
  }

  /** The state as a save or a restart would find it. */
  lemma CoversNow(env: Env, s: State)
    requires LiveInv(env, s)
    ensures ReadOk(env, s.mgr.prefixes, s.recorded, s.handled, s.gone + SetOf(s.dstDelay))
  {
    hide LiveOrder, SideInv, Covers, TraceInv, JobsOk, KindsOk, SaverInv;
    SideCovers(SrcSide(env, s), s);
    if WellDst(env) { SideCovers(DstSide(env, s), s); }
  }

  // ---- The producer ------------------------------------------------------------------------------------

  /** A key is recorded: what was to come is dealt with, held, or lies after it. */
  lemma RecordKeepsSide(x: Side, s: State, x': Side, s': State)
    requires SideInv(x, s) && !s.stranded && x'.target == x.target && x.done <= x'.done
    requires x.todo <= x'.done + x'.todo + MidSend(s') && MidSend(s) == {} && s'.jobs == s.jobs
        && s'.failures == s.failures
    requires Held(s.mgr.prefixes) + MidSend(s') <= Held(s'.mgr.prefixes) && ROOT in s'.mgr.prefixes
        && !ListDone(s'.mgr.prefixes)
    requires forall u :: u in x'.todo ==> Less(LastOf(s'.mgr.prefixes), u)
    ensures SideInv(x', s')
  {
    hide Less, Held, LastOf, ListDone, Active, MidSend;
  }

  /** The next action of the producer, taken off or about to be carried out in steps. */
  ghost predicate Due(s: State, a: Action) {
    !s.fin && s.prog != [] && s.prog[0] == a && s.stage == 0
  }

  lemma DueMeans(env: Env, s: State, a: Action)
    requires LiveInv(env, s) && Due(s, a)
    ensures !s.stranded && MidSend(s) == {} && Rest(s) == s.prog
    ensures Records(a) && WellDst(env) ==> forall u :: u in s.xtodo && !(Deletes(a) && u == a.key) ==> Less(a.key, u)
    ensures AboutSrc(a) ==> a.key in s.todo
    ensures Records(a) ==> forall u :: u in s.todo && !(AboutSrc(a) && u == a.key) ==> Less(a.key, u)
    ensures !ListDone(s.mgr.prefixes)
  {
    assert s.prog[0] in s.prog;
    hide Less, SideInv, JobsOk, KindsOk, SaverInv, TasksInv, FileInv, Climbs, Below;
  }

  /** The traces after the next action. */
  lemma Advance(env: Env, s: State, a: Action)
    requires LiveInv(env, s) && Due(s, a)
    ensures InOrder(s.prog[1..], if AboutSrc(a) then s.todo - {a.key} else s.todo, s.ok)
    ensures WellDst(env) ==> InOrderX(s.prog[1..], if Deletes(a) then s.xtodo - {a.key} else s.xtodo, s.ok)
  {
    hide Less, SideInv, JobsOk, KindsOk, SaverInv, TasksInv, FileInv, Climbs, Below;
    if a.key !in s.xtodo { assert s.xtodo - {a.key} == s.xtodo; }
  }

  lemma SetOfSnoc(ks: seq<Key>, k: Key)
    ensures SetOf(ks + [k]) == SetOf(ks) + {k}
  {}

  /** Jobs stay in order as keys are handled and deleted. */
  lemma JobsGrow(env: Env, s: State, s': State)
    requires JobsOk(env, s) && s'.jobs == s.jobs && s.handled <= s'.handled && s.gone <= s'.gone
        && s.failures <= s'.failures
    ensures JobsOk(env, s')
  {}

  lemma PassKeeps(env: Env, s: State)
    requires LiveInv(env, s) && s.prog != [] && Due(s, s.prog[0])
        && (s.prog[0].Ignore? || s.prog[0].Skip? || s.prog[0].DelaySrc?)
    ensures LiveInv(env, ProduceStep(env, s))
  {
    hide Less, SideInv, JobsOk, KindsOk, SaverInv, LiveOrder, InOrder, InOrderX, UpdateLast, Held, LastOf,
         ListDone, JobOk, KindOk;
    var a, s' := s.prog[0], ProduceStep(env, s);
    ProduceKeepsOrder(env, s);
    DueMeans(env, s, a);
    Advance(env, s, a);
    LiveSingle(s);
    UpdateLastEffect(s.mgr, a.key);
    RecordKeepsSide(SrcSide(env, s), s, SrcSide(env, s'), s');
    if WellDst(env) { RecordKeepsSide(DstSide(env, s), s, DstSide(env, s'), s'); }
    JobsGrow(env, s, s');
    KindsGrow(env, s.mgr.prefixes, s'.mgr.prefixes, s.handled, s'.handled);
    SaverGrows(env, s.saver, s.handled, s.gone, s.dstDelay, s'.handled, s'.gone, s'.dstDelay);
  }

  lemma LiveSingle(s: State)
    requires LiveOrder(s)
    ensures Single(s.mgr)
  {}

  /** A key that the producer has passed and that no task concerns is handled. */
  lemma DeletedIsHandled(env: Env, s: State, a: Action)
    requires LiveInv(env, s) && Due(s, a) && a.Send? && a.kind == DeleteDst
    ensures KindOk(env, s.handled, a.key, DeleteDst)
  {
    hide Less, JobsOk, KindsOk, SaverInv, InOrder, InOrderX, Climbs, Upcoming;
    DueMeans(env, s, a);
    NextKeyIsNew(s);
    LessIrreflexive(a.key);
  }

  lemma PendKeeps(env: Env, s: State)
    requires LiveInv(env, s) && s.prog != [] && Due(s, s.prog[0]) && s.prog[0].Send?
    ensures LiveInv(env, ProduceStep(env, s))
  {
    hide Less, SideInv, JobsOk, KindsOk, SaverInv, LiveOrder, InOrder, InOrderX, AddPending, Held, LastOf,
         ListDone, JobOk, KindOk;
    var a, s' := s.prog[0], ProduceStep(env, s);
    ProduceKeepsOrder(env, s);
    DueMeans(env, s, a);
    Advance(env, s, a);
    LiveSingle(s);
    AddPendingEffect(s.mgr, a.key, a.kind);
    RecordKeepsSide(SrcSide(env, s), s, SrcSide(env, s'), s');
    if WellDst(env) { RecordKeepsSide(DstSide(env, s), s, DstSide(env, s'), s'); }
    JobsGrow(env, s, s');
    PendKindOk(env, s, a);
    PendKindsOk(env, s.handled, s.mgr.prefixes, s'.mgr.prefixes, a.key, a.kind);
  }

  lemma PendKindOk(env: Env, s: State, a: Action)
    requires LiveInv(env, s) && Due(s, a) && a.Send?
    ensures KindOk(env, s.handled, a.key, a.kind)
  {
    hide LiveInv, Less;
    if a.kind == DeleteDst { DeletedIsHandled(env, s, a); } else { DueMeans(env, s, a); TodoIsAll(env, s); }
  }

  lemma TodoIsAll(env: Env, s: State)
    requires LiveInv(env, s)
    ensures s.todo <= All(env)
  {}

  lemma PendKindsOk(env: Env, handled: set<Key>, ps: map<Key, PrefixState>, ps': map<Key, PrefixState>, k: Key,
                    kind: Kind)
    requires KindsOk(env, handled, ps) && KindOk(env, handled, k, kind)
    requires forall x :: TaskKinds(ps', x) <= TaskKinds(ps, x) + if x == k then {kind} else {}
    ensures KindsOk(env, handled, ps')
  {}

  /** Nothing is recorded: what was to come is dealt with or still to come, and tasks only join the queue. */
  lemma QuietKeepsSide(x: Side, s: State, x': Side, s': State)
    requires SideInv(x, s) && x'.target == x.target && x.done <= x'.done && x'.todo <= x.todo <= x'.done + x'.todo
    requires s'.mgr.prefixes == s.mgr.prefixes && s'.recorded == s.recorded && s'.stranded == s.stranded
        && s'.failures == s.failures
    requires Active(s.jobs) + MidSend(s) <= Active(s'.jobs) + MidSend(s')
    ensures SideInv(x', s')
  {
    hide Less, Held, LastOf, ListDone, Active, MidSend;
  }

  lemma TrackKeeps(env: Env, s: State)
    requires LiveInv(env, s) && !s.fin && s.prog != [] && s.prog[0].Send? && s.stage == 1
    ensures LiveInv(env, ProduceStep(env, s))
  {
    hide Less, SideInv, JobsOk, KindsOk, SaverInv, LiveOrder, InOrder, InOrderX, Held, KindOk;
    var s' := ProduceStep(env, s);
    ProduceKeepsOrder(env, s);
    QuietKeepsSide(SrcSide(env, s), s, SrcSide(env, s'), s');
    if WellDst(env) { QuietKeepsSide(DstSide(env, s), s, DstSide(env, s'), s'); }
    JobsGrow(env, s, s');
  }

  lemma QueueKeeps(env: Env, s: State)
    requires LiveInv(env, s) && !s.fin && s.prog != [] && s.prog[0].Send? && s.stage > 1
    ensures LiveInv(env, ProduceStep(env, s))
  {
    hide Less, SideInv, JobsOk, KindsOk, SaverInv, LiveOrder, InOrder, InOrderX, Held, KindOk, Active;
    var s' := ProduceStep(env, s);
    var j := Job(s.prog[0].key, s.prog[0].kind, Queued, false);
    ProduceKeepsOrder(env, s);
    ActiveSnoc(s.jobs, j);
    QuietKeepsSide(SrcSide(env, s), s, SrcSide(env, s'), s');
    if WellDst(env) { QuietKeepsSide(DstSide(env, s), s, DstSide(env, s'), s'); }
    JobQueued(env, s, s', j);
  }

  lemma JobQueued(env: Env, s: State, s': State, j: Job)
    requires JobsOk(env, s) && s' == s.(jobs := s.jobs + [j], prog := s'.prog, stage := s'.stage)
    requires j.phase.Queued? && KindOk(env, s.handled, j.key, j.kind)
    ensures JobsOk(env, s')
  {
    forall i | 0 <= i < |s'.jobs| ensures JobOk(env, s', s'.jobs[i]) {
      if i < |s.jobs| { assert JobOk(env, s, s.jobs[i]); }
    }
  }

  lemma DelayKeeps(env: Env, s: State)
    requires LiveInv(env, s) && !s.fin && s.prog != [] && s.stage > 0 && s.prog[0].DelaySrc?
    ensures LiveInv(env, ProduceStep(env, s))
  {
    hide Less, SideInv, JobsOk, KindsOk, SaverInv, LiveOrder, InOrder, InOrderX, Held, KindOk;
    var s' := ProduceStep(env, s);
    ProduceKeepsOrder(env, s);
    QuietKeepsSide(SrcSide(env, s), s, SrcSide(env, s'), s');
    if WellDst(env) { QuietKeepsSide(DstSide(env, s), s, DstSide(env, s'), s'); }
    JobsGrow(env, s, s');
  }

  lemma ExtraKeeps(env: Env, s: State)
    requires LiveInv(env, s) && s.prog != [] && Due(s, s.prog[0]) && (s.prog[0].DelayDst? || s.prog[0].Extra?)
    ensures LiveInv(env, ProduceStep(env, s))
  {
    hide Less, SideInv, JobsOk, KindsOk, SaverInv, LiveOrder, InOrder, InOrderX, Held, KindOk, SetOf;
    var a, s' := s.prog[0], ProduceStep(env, s);
    ProduceKeepsOrder(env, s);
    DueMeans(env, s, a);
    Advance(env, s, a);
    SetOfSnoc(s.dstDelay, a.key);
    QuietKeepsSide(SrcSide(env, s), s, SrcSide(env, s'), s');
    if WellDst(env) { QuietKeepsSide(DstSide(env, s), s, DstSide(env, s'), s'); }
    JobsGrow(env, s, s');
    SaverGrows(env, s.saver, s.handled, s.gone, s.dstDelay, s'.handled, s'.gone, s'.dstDelay);
  }

  lemma EndKeepsSide(x: Side, s: State, s': State)
    requires SideInv(x, s) && x.todo == {} && s'.jobs == s.jobs && s'.failures == s.failures
        && s'.stranded == s.stranded
    requires Held(s'.mgr.prefixes) == Held(s.mgr.prefixes) && MidSend(s') == MidSend(s)
    ensures SideInv(x, s')
  {}

  lemma EndKeeps(env: Env, s: State)
    requires LiveInv(env, s) && !s.fin && s.prog == []
    ensures LiveInv(env, ProduceStep(env, s))
  {
    hide Less, SideInv, JobsOk, KindsOk, SaverInv, LiveOrder, MarkListDone, Held, KindOk;
    var s' := ProduceStep(env, s);
    ProduceKeepsOrder(env, s);
    LiveSingle(s);
    ListDoneEffect(s.mgr);
    JobsGrow(env, s, s');
    KindsGrow(env, s.mgr.prefixes, if s.ok then s'.mgr.prefixes else s.mgr.prefixes, s.handled, s'.handled);
    if s.ok {
      EndKeepsSide(SrcSide(env, s), s, s');
      if WellDst(env) { EndKeepsSide(DstSide(env, s), s, s'); }
    } else {
      QuietKeepsSide(SrcSide(env, s), s, SrcSide(env, s'), s');
      if WellDst(env) { QuietKeepsSide(DstSide(env, s), s, DstSide(env, s'), s'); }
    }
  }

  lemma ProduceKeeps(env: Env, s: State)
    requires LiveInv(env, s)
    ensures LiveInv(env, ProduceStep(env, s))
  {
    hide LiveInv;
    if !s.fin { ProduceCases(env, s); }
  }

  lemma ProduceCases(env: Env, s: State)
    requires LiveInv(env, s) && !s.fin
    ensures LiveInv(env, ProduceStep(env, s))
  {
    hide LiveInv, ProduceStep, ProgInv, TasksInv;
    StageShape(env, s);
    if s.prog == [] { EndKeeps(env, s); }
    else if s.prog[0].Send? {
      if s.stage == 0 { PendKeeps(env, s); } else if s.stage == 1 { TrackKeeps(env, s); } else { QueueKeeps(env, s); }
    }
    else if s.stage > 0 { DelayKeeps(env, s); }
    else if s.prog[0].DelaySrc? || s.prog[0].Ignore? || s.prog[0].Skip? { PassKeeps(env, s); }
    else { ExtraKeeps(env, s); }
  }

  lemma StageShape(env: Env, s: State)
    requires LiveInv(env, s)
    ensures s.stage > 0 ==> s.prog != [] && (s.prog[0].Send? || s.prog[0].DelaySrc?)
  {}

  // ---- The workers ---------------------------------------------------------------------------------------

  /** A worker's step leaves the producer alone; what leaves the checkpoint and the queue is dealt with. */
  lemma WorkKeepsSide(x: Side, s: State, x': Side, s': State, dropped: set<Key>)
    requires SideInv(x, s) && x'.target == x.target && x'.todo == x.todo && x.done <= x'.done
    requires s'.stranded == s.stranded && s'.recorded == s.recorded && MidSend(s') == MidSend(s)
        && s.failures <= s'.failures
    requires Held(s.mgr.prefixes) - dropped <= Held(s'.mgr.prefixes) && Active(s.jobs) - dropped <= Active(s'.jobs)
    requires dropped * x.target <= x'.done
    requires ROOT in s'.mgr.prefixes ==> ROOT in s.mgr.prefixes && LastOf(s'.mgr.prefixes) == LastOf(s.mgr.prefixes)
    requires ListDone(s'.mgr.prefixes) || (ROOT !in s'.mgr.prefixes && ROOT in s.mgr.prefixes) ==>
        ListDone(s.mgr.prefixes)
    ensures SideInv(x', s')
  {
    hide Less, Held, Active, MidSend;
  }

  /** After a failure the workers' hands no longer count. */
  lemma FailureKeepsSide(x: Side, s: State, s': State)
    requires SideInv(x, s) && s'.stranded == s.stranded && s'.recorded == s.recorded && s'.failures > 0
    requires Held(s'.mgr.prefixes) == Held(s.mgr.prefixes)
    requires (ROOT in s'.mgr.prefixes <==> ROOT in s.mgr.prefixes) && LastOf(s'.mgr.prefixes) == LastOf(s.mgr.prefixes)
    requires ListDone(s'.mgr.prefixes) ==> ListDone(s.mgr.prefixes)
    ensures SideInv(x, s')
  {
    hide Less, Held, Active, MidSend;
  }

  lemma JobChanged(env: Env, s: State, s': State, i: nat, j: Job)
    requires JobsOk(env, s) && i < |s.jobs| && s'.jobs == s.jobs[i := j]
    requires s.handled <= s'.handled && s.gone <= s'.gone && s.failures <= s'.failures
    requires JobOk(env, s', j)
    ensures JobsOk(env, s')
  {
    forall n | 0 <= n < |s'.jobs| ensures JobOk(env, s', s'.jobs[n]) {
      if n != i { assert JobOk(env, s, s.jobs[n]); }
    }
  }

  lemma JobAt(env: Env, s: State, i: nat)
    requires LiveInv(env, s) && i < |s.jobs|
    ensures JobOk(env, s, s.jobs[i]) && Distinct(s.jobs) && s.jobs[i].key in JobKeys(s.jobs) && !s.stranded
  {
    IsJob(s.jobs, i);
  }

  /** What a worker's step leaves alone. */
  lemma TraceAside(env: Env, s: State, s': State)
    requires TraceInv(env, s) && s'.prog == s.prog && s'.stage == s.stage && s'.todo == s.todo && s'.xtodo == s.xtodo
    requires s'.ok == s.ok && s.handled <= s'.handled
    ensures TraceInv(env, s')
  {}

  lemma TryKeeps(env: Env, s: State, i: nat, good: bool, equal: bool)
    requires LiveInv(env, s) && i < |s.jobs| && s.jobs[i].phase.Queued?
    ensures LiveInv(env, WorkStep(env, s, i, good, equal))
  {
    hide Less, SideInv, JobsOk, KindsOk, SaverInv, LiveOrder, TraceInv, Held, Active, Delays, KindOk, SetOf;
    var s' := WorkStep(env, s, i, good, equal);
    JobAt(env, s, i);
    WorkKeepsOrder(env, s, i, good, equal);
    ActiveUpdate(s.jobs, i, s'.jobs[i]);
    WorkKeepsSide(SrcSide(env, s), s, SrcSide(env, s'), s', {});
    if WellDst(env) { WorkKeepsSide(DstSide(env, s), s, DstSide(env, s'), s', {}); }
    KindGrows(env, s.handled, s'.handled, s.jobs[i].key, s.jobs[i].kind);
    JobChanged(env, s, s', i, s'.jobs[i]);
    TraceAside(env, s, s');
    KindsGrow(env, s.mgr.prefixes, s'.mgr.prefixes, s.handled, s'.handled);
    SaverGrows(env, s.saver, s.handled, s.gone, s.dstDelay, s'.handled, s'.gone, s'.dstDelay);
  }

  lemma KindGrows(env: Env, handled: set<Key>, handled': set<Key>, k: Key, kind: Kind)
    requires KindOk(env, handled, k, kind) && handled <= handled'
    ensures KindOk(env, handled', k, kind)
  {}

  lemma LogKeeps(env: Env, s: State, i: nat, good: bool, equal: bool)
    requires LiveInv(env, s) && i < |s.jobs| && s.jobs[i].phase.Succeeded?
    ensures LiveInv(env, WorkStep(env, s, i, good, equal))
  {
    hide Less, SideInv, JobsOk, KindsOk, SaverInv, LiveOrder, TraceInv, Held, Active, Delays, KindOk, SetOf;
    var s' := WorkStep(env, s, i, good, equal);
    JobAt(env, s, i);
    WorkKeepsOrder(env, s, i, good, equal);
    ActiveUpdate(s.jobs, i, s'.jobs[i]);
    WorkKeepsSide(SrcSide(env, s), s, SrcSide(env, s'), s', {});
    if WellDst(env) { WorkKeepsSide(DstSide(env, s), s, DstSide(env, s'), s', {}); }
    JobChanged(env, s, s', i, s'.jobs[i]);
    TraceAside(env, s, s');
  }

  /** A finished task takes nothing out of the checkpoint that is not dealt with, on either side. */
  lemma FinishedIsDone(env: Env, s: State, j: Job)
    requires JobOk(env, s, j) && j.phase.Logged?
    ensures {j.key} * All(env) <= s.handled
    ensures WellDst(env) ==> {j.key} * env.extras <= s.gone
  {}

  /** The workers have only what the checkpoint holds under its tracked keys. */
  lemma JobTracked(s: State, i: nat)
    requires LiveOrder(s) && i < |s.jobs| && !s.jobs[i].phase.Ended?
    ensures Single(s.mgr) && s.jobs[i].key in s.mgr.keyPrefix && s.jobs[i].key in Held(s.mgr.prefixes)
        && ROOT in s.mgr.prefixes
  {
    assert s.jobs[i].key in Active(s.jobs);
  }

  lemma CompleteKeeps(env: Env, s: State, i: nat, good: bool, equal: bool)
    requires LiveInv(env, s) && i < |s.jobs| && s.jobs[i].phase.Logged?
    ensures LiveInv(env, WorkStep(env, s, i, good, equal))
  {
    hide Less, SideInv, JobsOk, KindsOk, SaverInv, LiveOrder, TraceInv, Held, Active, Delays, KindOk, SetOf,
         MarkCompleted, LastOf, ListDone;
    var s' := WorkStep(env, s, i, good, equal);
    var k := s.jobs[i].key;
    JobAt(env, s, i);
    WorkKeepsOrder(env, s, i, good, equal);
    ActiveUpdate(s.jobs, i, s'.jobs[i]);
    JobTracked(s, i);
    CompletedEffect(s.mgr, k);
    FinishedIsDone(env, s, s.jobs[i]);
    WorkKeepsSide(SrcSide(env, s), s, SrcSide(env, s'), s', {k});
    if WellDst(env) { WorkKeepsSide(DstSide(env, s), s, DstSide(env, s'), s', {k}); }
    JobChanged(env, s, s', i, s'.jobs[i]);
    TraceAside(env, s, s');
    KindsGrow(env, s.mgr.prefixes, s'.mgr.prefixes, s.handled, s'.handled);
  }

  lemma FailKeeps(env: Env, s: State, i: nat, good: bool, equal: bool)
    requires LiveInv(env, s) && i < |s.jobs| && s.jobs[i].phase.Erred?
    ensures LiveInv(env, WorkStep(env, s, i, good, equal))
  {
    hide Less, SideInv, JobsOk, KindsOk, SaverInv, LiveOrder, TraceInv, Held, Active, Delays, KindOk, SetOf,
         MarkFailed, LastOf, ListDone;
    var s' := WorkStep(env, s, i, good, equal);
    var k := s.jobs[i].key;
    JobAt(env, s, i);
    WorkKeepsOrder(env, s, i, good, equal);
    JobTracked(s, i);
    FailedEffect(s.mgr, k);
    FailureKeepsSide(SrcSide(env, s), s, s');
    if WellDst(env) { FailureKeepsSide(DstSide(env, s), s, s'); }
    JobChanged(env, s, s', i, s'.jobs[i]);
    TraceAside(env, s, s');
    KindsGrow(env, s.mgr.prefixes, s'.mgr.prefixes, s.handled, s'.handled);
  }

  lemma WorkKeeps(env: Env, s: State, i: nat, good: bool, equal: bool)
    requires LiveInv(env, s) && i < |s.jobs|
    ensures LiveInv(env, WorkStep(env, s, i, good, equal))
  {
    match s.jobs[i].phase
    case Queued => TryKeeps(env, s, i, good, equal);
    case Succeeded => LogKeeps(env, s, i, good, equal);
    case Logged => CompleteKeeps(env, s, i, good, equal);
    case Erred => FailKeeps(env, s, i, good, equal);
    case Ended =>
  }

  // ---- Saving and stopping ---------------------------------------------------------------------------

  lemma SaveBeginKeeps(env: Env, s: State)
    requires Inv(env, s) && s.mode.Running?
    ensures Inv(env, Next(env, s, SaveBegin))
  {
    hide LiveOrder, SideInv, JobsOk, KindsOk, TraceInv, ReadOk, OrderInv;
    CoversNow(env, s);
    SaveKeepsOrder(env, s, SaveBegin);
    LiveIsOrdered(Next(env, s, SaveBegin));
    SaverAside(env, s, Next(env, s, SaveBegin));
  }

  lemma LiveIsOrdered(s: State)
    requires OrderInv(s) && s.mode.Running?
    ensures LiveOrder(s)
  {}

  /** A step of the saver changes nothing but the save in progress. */
  lemma SaverAside(env: Env, s: State, s': State)
    requires LiveInv(env, s) && s' == s.(saver := s'.saver, disk := s'.disk)
        && SaverInv(env, s'.saver, s.handled, s.gone, s.dstDelay)
    requires LiveOrder(s')
    ensures LiveInv(env, s')
  {
    hide LiveOrder, KindsOk, Held, Less, ReadOk;
  }

  lemma SaveReadsKeep(env: Env, s: State, l: Label)
    requires Inv(env, s) && s.mode.Running? && (l.SaveSrcDelay? || l.SaveDstDelay? || l.SavePut?)
    ensures Inv(env, Next(env, s, l))
  {
    hide LiveInv, ReadOk, OrderInv, DoneInv, SaverInv;
    var s' := Next(env, s, l);
    SaveKeepsOrder(env, s, l);
    LiveIsOrdered(s');
    SaverRead(env, s, l);
    SaverAside(env, s, s');
  }

  lemma SaverRead(env: Env, s: State, l: Label)
    requires LiveInv(env, s) && s.mode.Running? && (l.SaveSrcDelay? || l.SaveDstDelay? || l.SavePut?)
    ensures var s' := Next(env, s, l);
      && s' == s.(saver := s'.saver, disk := s'.disk) && SaverInv(env, s'.saver, s.handled, s.gone, s.dstDelay)
      && (s'.disk == s.disk || (s'.disk.Some? && SavedOk(env, s'.disk.value, s.handled, s.gone)))
  {
    hide LiveOrder, Sides, JobsOk, KindsOk, TraceInv, ReadOk, StrandedInv;
  }

  lemma CrashKeeps(env: Env, s: State)
    requires Inv(env, s) && s.mode.Running?
    ensures Inv(env, Next(env, s, Crash))
  {
    hide OrderInv, SavedOk, LiveInv;
    SaveKeepsOrder(env, s, Crash);
  }

  ghost predicate AllEnded(jobs: seq<Job>) {
    forall i :: 0 <= i < |jobs| ==> jobs[i].phase.Ended?
  }

  /** When all is listed and no task is left in hand, everything is dealt with. */
  lemma SideDone(x: Side, s: State)
    requires SideInv(x, s) && x.todo == {} && s.prog == [] && AllEnded(s.jobs) && s.failures == 0 && !s.stranded
    ensures x.target <= x.done
  {
    assert Active(s.jobs) == {};
  }

  lemma AtTheEnd(env: Env, s: State)
    requires LiveInv(env, s) && s.prog == [] && AllEnded(s.jobs) && s.failures == 0 && s.ok
    ensures DoneInv(env, s)
  {
    hide LiveOrder, SideInv, JobsOk, KindsOk;
    if !s.stranded {
      SideDone(SrcSide(env, s), s);
      if WellDst(env) { SideDone(DstSide(env, s), s); }
    }
  }

  lemma FinishKeeps(env: Env, s: State)
    requires Inv(env, s) && s.mode.Running?
    ensures Inv(env, Next(env, s, Finish))
  {
    hide LiveInv, OrderInv, ReadOk, DoneInv;
    FinishKeepsOrder(env, s);
    CoversNow(env, s);
    if s.prog == [] && AllEnded(s.jobs) && s.failures == 0 && s.ok {
      AtTheEnd(env, s);
      DoneStays(env, s, Next(env, s, Finish));
    }
  }

  lemma DoneStays(env: Env, s: State, s': State)
    requires DoneInv(env, s) && s' == s.(mode := s'.mode, disk := s'.disk, saver := s'.saver)
    ensures DoneInv(env, s')
  {}

  // ---- Starting ----------------------------------------------------------------------------------------

  /** The trace of a restart is in order for what it has to come to, on both sides. */
  lemma {:induction false} StartTraces(env: Env, gone: set<Key>, last: Key, l: Label)
    requires Well(env) && l.Start? && CanStart(env, gone, last, l.whole, l.src, l.dst, l.dfull)
    ensures var r := Merge(l.src, l.dst, env.c);
            && InOrder(r.trace, KeysOf(After(env.full, last)), r.ok)
            && (WellDst(env) ==> InOrderX(r.trace, ExtrasAfter(env, gone, last), r.ok))
            && KeysOf(After(env.full, last)) <= All(env)
            && (forall a :: a in r.trace ==> Allowed(a, env.c))
  {
    hide Merge, InOrder, InOrderX;
    StartFeeds(env, gone, last, l);
    StartKeys(env, gone, last, l);
    FeedsMeans(l.src, l.whole, l.dst, l.dfull);
    MergeInOrder(l.src, l.whole, l.dst, env.c);
    TraceKinds(l.src, l.dst, env.c);
    LiveIsListed(env.c, l.whole);
    if WellDst(env) { MergeInOrderX(l.src, l.whole, l.dst, l.dfull, env.c, ExtrasAfter(env, gone, last)); }
  }

  lemma LiveIsListed(c: Config, whole: seq<Gated>)
    requires Clean(whole)
    ensures Live(c, whole) <= SrcKeys(whole)
  {}

  lemma {:induction false} StartKeys(env: Env, gone: set<Key>, last: Key, l: Label)
    requires Well(env) && l.Start? && CanStart(env, gone, last, l.whole, l.src, l.dst, l.dfull)
    ensures Clean(l.whole) && SrcKeys(l.whole) == KeysOf(After(env.full, last)) <= All(env)
  {
    SuffixKeys(env, last);
    SameKeys(l.whole, After(env.full, last));
  }

  lemma {:induction false} SuffixKeys(env: Env, last: Key)
    requires Well(env)
    ensures KeysOf(After(env.full, last)) <= All(env)
    ensures last != "" ==> forall u :: u in KeysOf(After(env.full, last)) ==> Less(last, u)
  {
    hide After, Less;
    AfterIsSuffix(env.full, last);
    var rest := After(env.full, last);
    forall k | k in KeysOf(rest) ensures k in All(env) {
      var i :| 0 <= i < |rest| && rest[i].key == k;
      assert env.full[|env.full| - |rest| + i] == rest[i];
    }
  }

  lemma SameKeys(whole: seq<Gated>, rest: seq<Obj>)
    requires |whole| == |rest| && forall i :: 0 <= i < |whole| ==> whole[i].item == Entry(rest[i])
    ensures Clean(whole) && SrcKeys(whole) == KeysOf(rest)
  {
    forall k | k in SrcKeys(whole) ensures k in KeysOf(rest) {
      var i :| 0 <= i < |whole| && whole[i].item.obj.key == k;
      assert rest[i].key == k;
    }
    forall k | k in KeysOf(rest) ensures k in SrcKeys(whole) {
      var i :| 0 <= i < |rest| && rest[i].key == k;
      assert whole[i].item.obj.key == k;
    }
  }

  /** What a file covers is, after a restart from it, dealt with, queued again or listed again. */
  lemma RestartCovers(target: set<Key>, done: set<Key>, ps: map<Key, PrefixState>, held: set<Key>, todo: set<Key>)
    requires Covers(target, done, ps, true) && ROOT in ps && !ListDone(ps) && held == Held(ps) - {""} && "" !in target
    requires forall k :: k in target && k !in done && (LastOf(ps) == "" || Less(LastOf(ps), k)) ==> k in todo
    ensures target <= done + todo + held
  {
    hide Less, Held;
  }

  lemma {:induction false} BeginKeeps(env: Env, s: State, mgr: Mgr, jobs: seq<Job>, last: Key, l: Label, owed: set<Key>,
                   srcDelay: seq<Key>, dstDelay: seq<Key>, recorded: bool)
    requires Well(env) && Inv(env, s) && s.mode.Stopped? && l.Start?
    requires OrderInv(Begin(env, s, mgr, jobs, last, l, owed, srcDelay, dstDelay, recorded))
    requires !ListDone(mgr.prefixes) && LastOf(mgr.prefixes) == last && (recorded ==> ROOT in mgr.prefixes)
    requires All(env) <= s.handled + KeysOf(After(env.full, last)) + Held(mgr.prefixes)
    requires WellDst(env) ==>
        env.extras <= s.gone + SetOf(dstDelay) + ExtrasAfter(env, s.gone, last) + Held(mgr.prefixes)
    requires Active(jobs) == Held(mgr.prefixes) && KindsOk(env, s.handled, mgr.prefixes)
    requires forall j :: j in jobs ==> j.phase.Queued? && KindOk(env, s.handled, j.key, j.kind)
    ensures Inv(env, Begin(env, s, mgr, jobs, last, l, owed, srcDelay, dstDelay, recorded))
  {
    hide OrderInv, LiveOrder, KindsOk, Held, InOrder, InOrderX, Merge, After, Less, CanStart, SavedOk,
         Active, SetOf, LastOf, ListDone;
    var s' := Begin(env, s, mgr, jobs, last, l, owed, srcDelay, dstDelay, recorded);
    if CanStart(env, s.gone, last, l.whole, l.src, l.dst, l.dfull) {
      StartTraces(env, s.gone, last, l);
      SuffixKeys(env, last);
      LiveIsOrdered(s');
    }
  }

  lemma IdlingKeeps(env: Env, s: State, mgr: Mgr, jobs: seq<Job>, d: Saved, recorded: bool)
    requires Inv(env, s) && s.mode.Stopped? && OrderInv(Idling(s, mgr, jobs, d, recorded))
    requires !recorded ==> jobs == [] && ROOT !in mgr.prefixes
    requires recorded ==> All(env) <= s.handled + Held(mgr.prefixes)
    requires recorded && WellDst(env) ==> env.extras <= s.gone + SetOf(d.snap.dstDelay) + Held(mgr.prefixes)
    requires Active(jobs) == Held(mgr.prefixes) && KindsOk(env, s.handled, mgr.prefixes)
    requires forall j :: j in jobs ==> j.phase.Queued? && KindOk(env, s.handled, j.key, j.kind)
    ensures Inv(env, Idling(s, mgr, jobs, d, recorded))
  {
    hide OrderInv, LiveOrder, KindsOk, Held, Less, SavedOk, Active, SetOf, LastOf, ListDone, KindOk;
    LiveIsOrdered(Idling(s, mgr, jobs, d, recorded));
  }

  lemma FreshStart(env: Env, s: State, l: Label)
    requires Well(env) && Inv(env, s) && s.mode.Stopped? && l.Start?
    requires s.disk.None? || !Usable(s.disk.value.snap)
    ensures Inv(env, StartStep(env, s, l))
  {
    hide Inv, OrderInv, Begin, Usable;
    InvIsOrdered(env, s);
    StartKeepsOrder(env, s, l);
    AfterIsSuffix(env.full, "");
    NoJobs();
    BeginKeeps(env, s, EmptyMgr, [], "", l, {}, [], [], false);
  }

  lemma InvIsOrdered(env: Env, s: State)
    requires Inv(env, s)
    ensures OrderInv(s) && (s.disk.Some? ==> SavedOk(env, s.disk.value, s.handled, s.gone))
  {}

  /** The tasks taken over from a file. */
  lemma RestoredJobs(env: Env, handled: set<Key>, d: Saved)
    requires KindsOk(env, handled, d.snap.prefixes) && d.snap.prefixes.Keys <= {ROOT}
    ensures var (mgr, r) := Restore(Load(d.snap), ROOT);
      && KindsOk(env, handled, mgr.prefixes)
      && (r.Tasks? ==> forall j :: j in Requeue(r.tasks, r.tasks.Keys) ==>
          j.phase.Queued? && KindOk(env, handled, j.key, j.kind))
  {
    hide Restore, Load, Requeue, KindOk, TaskKinds;
    RestoreEffect(d.snap);
    var (mgr, r) := Restore(Load(d.snap), ROOT);
    if r.Tasks? {
      Requeued(r.tasks, r.tasks.Keys);
    } else {
      NoKinds(mgr.prefixes);
    }
  }

  lemma NoKinds(ps: map<Key, PrefixState>)
    requires ROOT !in ps
    ensures forall k :: TaskKinds(ps, k) == {}
  {}

  lemma RestoredListing(env: Env, s: State, l: Label, d: Saved, mgr: Mgr, r: Restored)
    requires Well(env) && Inv(env, s) && s.mode.Stopped? && l.Start? && s.disk == Some(d) && Usable(d.snap)
    requires (mgr, r) == Restore(Load(d.snap), ROOT) && r.Tasks? && !r.listDone
    ensures Inv(env, StartStep(env, s, l))
  {
    hide Inv, OrderInv, Begin, Restore, Load, Requeue, Held, Less, After, KindsOk, KindOk, LastOf, UpTo;
    InvIsOrdered(env, s);
    StartKeepsOrder(env, s, l);
    DiskFile(s);
    RestoredOrder(d);
    RestoreEffect(d.snap);
    RestoredJobs(env, s.handled, d);
    var jobs, last := Requeue(r.tasks, r.tasks.Keys), LastOf(mgr.prefixes);
    var ps, held := d.snap.prefixes, Held(mgr.prefixes);
    NonEmptyKeys(env);
    forall k | k in All(env) && (last == "" || Less(last, k))
      ensures k in KeysOf(After(env.full, last))
    {
      AfterCovers(env, last, k);
    }
    CoversRecorded(All(env), s.handled, ps, d.recorded);
    RestartCovers(All(env), s.handled, ps, held, KeysOf(After(env.full, last)));
    var gone := s.gone + SetOf(d.snap.dstDelay);
    if WellDst(env) {
      CoversRecorded(env.extras, gone, ps, d.recorded);
      RestartCovers(env.extras, gone, ps, held, ExtrasAfter(env, s.gone, last));
    }
    BeginKeeps(env, s, mgr, jobs, last, l, StillOwed(d), d.snap.srcDelay, d.snap.dstDelay, true);
  }

  lemma NonEmptyKeys(env: Env)
    requires Well(env)
    ensures "" !in All(env)
  {}

  lemma CoversRecorded(target: set<Key>, done: set<Key>, ps: map<Key, PrefixState>, recorded: bool)
    requires Covers(target, done, ps, recorded) && ROOT in ps
    ensures Covers(target, done, ps, true)
  {}

  /** A listing that was done: all keys are dealt with or among the tasks. */
  lemma DoneCovers(target: set<Key>, done: set<Key>, ps: map<Key, PrefixState>, recorded: bool, held: set<Key>)
    requires Covers(target, done, ps, recorded) && "" !in target
    requires if ROOT in ps then ListDone(ps) && held == Held(ps) - {""} else recorded
    ensures target <= done + held
  {
    hide Less, Held;
  }

  lemma RestoredIdling(env: Env, s: State, l: Label, d: Saved, mgr: Mgr, r: Restored)
    requires Well(env) && Inv(env, s) && s.mode.Stopped? && l.Start? && s.disk == Some(d) && Usable(d.snap)
    requires (mgr, r) == Restore(Load(d.snap), ROOT) && !(r.Tasks? && !r.listDone)
    ensures Inv(env, StartStep(env, s, l))
  {
    hide Inv, OrderInv, Idling, Restore, Load, Requeue, Held, Less, KindsOk, KindOk, LastOf, UpTo, ListDone;
    InvIsOrdered(env, s);
    StartKeepsOrder(env, s, l);
    DiskFile(s);
    RestoredOrder(d);
    RestoreEffect(d.snap);
    RestoredJobs(env, s.handled, d);
    NonEmptyKeys(env);
    var ps, held := d.snap.prefixes, Held(mgr.prefixes);
    var recorded := r.Tasks? || d.recorded;
    if recorded {
      DoneCovers(All(env), s.handled, ps, d.recorded, held);
      if WellDst(env) { DoneCovers(env.extras, s.gone + SetOf(d.snap.dstDelay), ps, d.recorded, held); }
    }
    IdlingKeeps(env, s, mgr, if r.Tasks? then Requeue(r.tasks, r.tasks.Keys) else [], d, recorded);
  }

  lemma StartKeeps(env: Env, s: State, l: Label)
    requires Well(env) && Inv(env, s) && s.mode.Stopped? && l.Start?
    ensures Inv(env, Next(env, s, l))
  {
    hide Inv, StartStep, Restore, Load;
    if s.disk.None? || !Usable(s.disk.value.snap) {
      FreshStart(env, s, l);
    } else {
      var (mgr, r) := Restore(Load(s.disk.value.snap), ROOT);
      if r.Tasks? && !r.listDone {
        RestoredListing(env, s, l, s.disk.value, mgr, r);
      } else {
        RestoredIdling(env, s, l, s.disk.value, mgr, r);
      }
    }
    assert Next(env, s, l) == StartStep(env, s, l);
  }

  // ---- Every step and every run --------------------------------------------------------------------------

  /** Producer and workers leave the file good. */
  lemma DiskAfter(env: Env, s: State, s': State)
    requires Inv(env, s) && s'.disk == s.disk && s'.mode.Running? && LiveInv(env, s') && OrderInv(s')
    requires s.handled <= s'.handled && s.gone <= s'.gone
    ensures Inv(env, s')
  {
    hide OrderInv, LiveInv, SavedOk;
    if s.disk.Some? { SavedGrows(env, s.disk.value, s.handled, s.gone, s'.handled, s'.gone); }
  }

  lemma ProduceGrows(env: Env, s: State)
    ensures s.handled <= ProduceStep(env, s).handled && s.gone <= ProduceStep(env, s).gone
  {
    hide MarkListDone, UpdateLast, AddPending, Track;
  }

  lemma WorkGrows(env: Env, s: State, i: nat, good: bool, equal: bool)
    requires i < |s.jobs|
    ensures var s' := WorkStep(env, s, i, good, equal); s.handled <= s'.handled && s.gone <= s'.gone
  {
    hide MarkCompleted, MarkFailed, Delays;
  }

  lemma ProducerKeeps(env: Env, s: State)
    requires Inv(env, s) && s.mode.Running?
    ensures Inv(env, Next(env, s, Produce))
  {
    hide OrderInv, LiveInv, ProduceStep, SavedOk;
    ProducerKeepsOrder(env, s);
    ProduceKeeps(env, s);
    ProduceFrame(env, s);
    ProduceGrows(env, s);
    if Next(env, s, Produce) != s { DiskAfter(env, s, ProduceStep(env, s)); }
  }

  lemma WorkerKeeps(env: Env, s: State, i: nat, good: bool, equal: bool)
    requires Inv(env, s) && s.mode.Running? && i < |s.jobs|
    ensures Inv(env, Next(env, s, Work(i, good, equal)))
  {
    hide OrderInv, LiveInv, WorkStep, SavedOk;
    WorkerKeepsOrder(env, s, i, good, equal);
    WorkKeeps(env, s, i, good, equal);
    WorkFrame(env, s, i, good, equal);
    WorkGrows(env, s, i, good, equal);
    if Next(env, s, Work(i, good, equal)) != s { DiskAfter(env, s, WorkStep(env, s, i, good, equal)); }
  }

  /** Every label keeps the invariant. */
  lemma NextKeeps(env: Env, s: State, l: Label)
    requires Well(env) && Inv(env, s)
    ensures Inv(env, Next(env, s, l))
  {
    hide Inv, ProduceStep, WorkStep, StartStep;
    match l {
      case Start(_, _, _, _) => if s.mode.Stopped? { StartKeeps(env, s, l); }
      case Produce => if s.mode.Running? { ProducerKeeps(env, s); }
      case Work(i, good, equal) => if s.mode.Running? && i < |s.jobs| { WorkerKeeps(env, s, i, good, equal); }
      case SaveBegin => if s.mode.Running? { SaveBeginKeeps(env, s); }
      case Crash => if s.mode.Running? { CrashKeeps(env, s); }
      case Finish => if s.mode.Running? { FinishKeeps(env, s); }
      case _ => if s.mode.Running? { SaveReadsKeep(env, s, l); }
    }
  }

  lemma InitInv(env: Env)
    ensures Inv(env, Init)
  {}

  lemma {:induction false} RunKeeps(env: Env, s: State, labels: seq<Label>)
    requires Well(env) && Inv(env, s)
    ensures Inv(env, Run(env, s, labels))
    decreases |labels|
  {
    hide Inv, Next;
    if labels != [] {
      NextKeeps(env, s, labels[0]);
      RunKeeps(env, Next(env, s, labels[0]), labels[1..]);
    }
  }
}

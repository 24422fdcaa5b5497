/** The promises of the checkpoint over whole runs, and exactly when it breaks them. */
module ResumeTheorems {
  import opened Keys
  import opened Producer
  import opened Traces
  import opened Checkpoint
  import opened CrashResume
  import opened ResumeOrder
  import opened Resume
  import opened ResumeDelays

  lemma {:induction false} Reached(env: Env, labels: seq<Label>)
    requires Well(env)
    ensures Inv(env, Run(env, Init, labels)) && DelaysInv(env, Run(env, Init, labels))
  {
    hide Inv, DelaysInv;
    InitInv(env);
    InitDelays(env);
    RunKeeps(env, Init, labels);
    RunKeepsDelays(env, Init, labels);
  }

  // ---- What a file covers ----------------------------------------------------------------------------

  /** In every checkpoint file a run can leave, each source key up to the last listed one is handled
      or among the pending or failed tasks; after a finished listing that holds for all of them. */
  lemma {:induction false} EveryCheckpointCovers(env: Env, labels: seq<Label>, k: Key)
    requires Well(env) && k in KeysOf(env.full)
    requires Run(env, Init, labels).disk.Some?
    requires ROOT in Run(env, Init, labels).disk.value.snap.prefixes
    ensures var s := Run(env, Init, labels);
            var ps := s.disk.value.snap.prefixes[ROOT];
            ps.listDone || (ps.last != "" && AtMost(k, ps.last)) ==> k in s.handled || k in ps.pending || k in ps.failed
  {
    hide Run, OrderInv, DelaysInv, LiveInv, KindsOk;
    Reached(env, labels);
    NotBelow(k, Run(env, Init, labels).disk.value.snap.prefixes[ROOT].last);
  }

  /** The same for destination keys that the source does not have, under --dirs: each of them is deleted,
      among the delayed deletions of the file, or among its tasks. */
  lemma {:induction false} EveryCheckpointCoversExtras(env: Env, labels: seq<Label>, k: Key)
    requires Well(env) && WellDst(env) && k in env.extras
    requires Run(env, Init, labels).disk.Some?
    requires ROOT in Run(env, Init, labels).disk.value.snap.prefixes
    ensures var s := Run(env, Init, labels);
            var snap := s.disk.value.snap;
            var ps := snap.prefixes[ROOT];
            ps.listDone || (ps.last != "" && AtMost(k, ps.last)) ==>
              k in s.gone || k in snap.dstDelay || k in ps.pending || k in ps.failed
  {
    hide Run, OrderInv, DelaysInv, LiveInv, KindsOk;
    Reached(env, labels);
    NotBelow(k, Run(env, Init, labels).disk.value.snap.prefixes[ROOT].last);
  }

  /** A file that names no prefix is right to have nothing listed, if anything had been recorded when the
      save read the prefixes: then every key is dealt with on both sides. */
  lemma {:induction false} FileWithoutPrefix(env: Env, labels: seq<Label>)
    requires Well(env) && Run(env, Init, labels).disk.Some?
    requires var d := Run(env, Init, labels).disk.value; d.recorded && ROOT !in d.snap.prefixes
    ensures var s := Run(env, Init, labels);
            && KeysOf(env.full) <= s.handled
            && (WellDst(env) ==> env.extras <= s.gone + SetOf(s.disk.value.snap.dstDelay))
  {
    hide Run, OrderInv, DelaysInv, LiveInv, KindsOk;
    Reached(env, labels);
  }

  // ---- Completion ------------------------------------------------------------------------------------

  /** A restart is stranded, with nothing to list and nothing to do, exactly when its file names no prefix
      but holds delayed deletions on the destination, and nothing had been recorded when the save read the
      prefixes; it then holds no delayed deletion of the source. */
  lemma {:induction false} RestartIff(env: Env, labels: seq<Label>, l: Label)
    requires Well(env) && l.Start?
    requires var s := Run(env, Init, labels); s.mode.Stopped? && Next(env, s, l).mode.Running?
    ensures var s := Run(env, Init, labels);
            Next(env, s, l).stranded <==>
              s.disk.Some? && var d := s.disk.value;
              ROOT !in d.snap.prefixes && d.snap.dstDelay != [] && !d.recorded
    ensures var s := Run(env, Init, labels); Next(env, s, l).stranded ==> s.disk.value.snap.srcDelay == []
  {
    hide Run, DelaysInv, LiveInv, ReadOk, Load, Restore, FileInv;
    Reached(env, labels);
    RecordedFirstRun(env, Init, labels);
    var s := Run(env, Init, labels);
    if s.disk.Some? {
      FileKeys(s.disk.value.snap.prefixes, s.disk.value.delayed);
      RestoreEffect(s.disk.value.snap);
    }
  }

  lemma FileKeys(ps: map<Key, PrefixState>, delayed: set<Key>)
    requires FileInv(ps, delayed)
    ensures ps.Keys <= {ROOT} && (ROOT !in ps <==> ps == map[])
  {}

  /** When a process reports completion, after any number of crashes and restarts, all source keys are
      handled if it was not stranded, and otherwise none beyond those handled before it started. */
  lemma {:induction false} CompletionIff(env: Env, labels: seq<Label>)
    requires Well(env) && Run(env, Init, labels).mode.Completed?
    ensures var s := Run(env, Init, labels);
            && (KeysOf(env.full) <= s.handled <==> !s.stranded || KeysOf(env.full) <= s.entry)
            && (s.stranded ==> s.handled == s.entry)
  {
    hide Run, OrderInv, DelaysInv, LiveInv;
    Reached(env, labels);
  }

  /** With --dirs, the keys to be deleted are then deleted or delayed to the very end as well. */
  lemma {:induction false} CompletionDeletes(env: Env, labels: seq<Label>)
    requires Well(env) && WellDst(env)
    requires var s := Run(env, Init, labels); s.mode.Completed? && !s.stranded
    ensures var s := Run(env, Init, labels); env.extras <= s.gone + SetOf(s.dstDelay)
  {
    hide Run, OrderInv, DelaysInv, LiveInv;
    Reached(env, labels);
  }

  // ---- What is recorded first ------------------------------------------------------------------------

  /** A process leaves nothing behind, on any list or in any queue, before it has recorded something; and while
      a save is reading, what it found unrecorded stays so. */
  ghost predicate RecordedFirst(s: State) {
    && (s.mode.Running? && !s.recorded ==> ROOT !in s.mgr.prefixes && s.stage == 0 && s.jobs == [] && s.srcDelay == [])
    && (s.mode.Running? && Reading(s.saver) && !s.saver.recorded ==> !s.recorded)
    && (s.saver.HasSrcDelay? && !s.saver.recorded ==> s.saver.srcDelay == [])
    && (s.saver.Ready? && !s.saver.saved.recorded ==> s.saver.saved.snap.srcDelay == [])
    && (s.disk.Some? && !s.disk.value.recorded ==> s.disk.value.snap.srcDelay == [])
  }

  lemma RecordedFirstStep(env: Env, s: State, l: Label)
    requires Well(env) && Inv(env, s) && RecordedFirst(s)
    ensures RecordedFirst(Next(env, s, l))
  {
    hide Inv, RecordedFirst, ProduceStep, WorkStep, StartStep, Waits, ProducerUpdates, WorkerUpdates;
    match l {
      case Start(_, _, _, _) =>
        if s.mode.Stopped? { RecordedFirstStart(env, s, l); assert Next(env, s, l) == StartStep(env, s, l); }
      case Produce => if s.mode.Running? { RecordedFirstProduce(env, s); }
      case Work(i, good, equal) => if s.mode.Running? && i < |s.jobs| { RecordedFirstWork(env, s, i, good, equal); }
      case _ => RecordedFirstSave(env, s, l);
    }
  }

  lemma RecordedFirstProduce(env: Env, s: State)
    requires RecordedFirst(s) && s.mode.Running?
    ensures RecordedFirst(Next(env, s, Produce))
  {
    hide ProduceStep, ProducerUpdates;
    ProduceFrame(env, s);
    ProduceRecords(env, s);
    if !ProducerUpdates(s) && s.stage == 0 { ProduceQuietly(env, s); }
  }

  lemma ProduceRecords(env: Env, s: State)
    ensures s.recorded || ProducerUpdates(s) ==> ProduceStep(env, s).recorded
  {
    hide MarkListDone, AddPending, UpdateLast, Track;
  }

  /** A statement of the producer that starts nothing and updates no prefix. */
  lemma ProduceQuietly(env: Env, s: State)
    requires !ProducerUpdates(s) && s.stage == 0
    ensures var t := ProduceStep(env, s);
      t.mgr == s.mgr && t.stage == 0 && t.jobs == s.jobs && t.srcDelay == s.srcDelay && t.recorded == s.recorded
  {
    hide MarkListDone, AddPending, UpdateLast, Track;
  }

  lemma RecordedFirstWork(env: Env, s: State, i: nat, good: bool, equal: bool)
    requires RecordedFirst(s) && s.mode.Running? && i < |s.jobs|
    ensures RecordedFirst(Next(env, s, Work(i, good, equal)))
  {
    hide WorkStep, WorkerUpdates;
    WorkFrame(env, s, i, good, equal);
    WorkRecords(env, s, i, good, equal);
  }

  lemma WorkRecords(env: Env, s: State, i: nat, good: bool, equal: bool)
    requires i < |s.jobs|
    ensures WorkStep(env, s, i, good, equal).recorded == s.recorded
  {
    hide MarkCompleted, MarkFailed, Delays;
  }

  lemma RecordedFirstSave(env: Env, s: State, l: Label)
    requires RecordedFirst(s) && !l.Start? && !l.Produce? && !l.Work?
    ensures RecordedFirst(Next(env, s, l))
  {
    hide OpenKey;
  }

  lemma RecordedFirstStart(env: Env, s: State, l: Label)
    requires Well(env) && Inv(env, s) && RecordedFirst(s) && s.mode.Stopped? && l.Start?
    ensures RecordedFirst(StartStep(env, s, l))
  {
    hide OrderInv, ReadOk, LiveInv, Load, Restore, Merge, CanStart, Requeue;
    if s.disk.Some? {
      InvFile(env, s);
      RestoreEffect(s.disk.value.snap);
    }
  }

  lemma InvFile(env: Env, s: State)
    requires Inv(env, s) && s.disk.Some?
    ensures s.disk.value.snap.prefixes.Keys <= {ROOT}
        && (ROOT !in s.disk.value.snap.prefixes ==> s.disk.value.snap.prefixes == map[])
  {
    FileKeys(s.disk.value.snap.prefixes, s.disk.value.delayed);
  }

  lemma {:induction false} RecordedFirstRun(env: Env, s: State, labels: seq<Label>)
    requires Well(env) && Inv(env, s) && RecordedFirst(s)
    ensures RecordedFirst(Run(env, s, labels))
    decreases |labels|
  {
    hide Inv, Next, RecordedFirst;
    if labels != [] {
      NextKeeps(env, s, labels[0]);
      RecordedFirstStep(env, s, labels[0]);
      RecordedFirstRun(env, Next(env, s, labels[0]), labels[1..]);
    }
  }

  /** While a save is between its reads, a statement that creates or removes the checkpoint's prefix waits, be it the
      producer's or a worker's, and every other statement goes on. */
  lemma HeldUpIff(env: Env, s: State, i: nat, good: bool, equal: bool)
    requires s.mode.Running? && i < |s.jobs|
    ensures var reading := s.saver.HasPrefixes? || s.saver.HasSrcDelay?;
      && (var t := ProduceStep(env, s);
          var records := if s.prog == [] then s.ok else s.stage == 0 && !s.prog[0].Extra? && !s.prog[0].DelayDst?;
          var waits := reading && !s.fin && records && !(ROOT in s.mgr.prefixes && ROOT in t.mgr.prefixes);
          Next(env, s, Produce) == if waits then s else t)
      && (var t := WorkStep(env, s, i, good, equal);
          var ends := (s.jobs[i].phase.Logged? || s.jobs[i].phase.Erred?) && s.jobs[i].key in s.mgr.keyPrefix;
          var waits := reading && ends && !(ROOT in s.mgr.prefixes && ROOT in t.mgr.prefixes);
          Next(env, s, Work(i, good, equal)) == if waits then s else t)
  {
    hide ProduceStep, WorkStep;
  }

  // ---- The flags that rule it out ----------------------------------------------------------------------

  /** No directory of the destination is to be deleted. */
  predicate KeepsDstDirs(c: Config) {
    !(c.deleteDst && c.dirs)
  }

  ghost predicate NothingDelayed(env: Env, s: State) {
    && s.dstDelay == [] && (forall a :: a in s.prog ==> Allowed(a, env.c))
    && (s.disk.Some? ==> s.disk.value.snap.dstDelay == [])
    && (s.saver.Ready? ==> s.saver.saved.snap.dstDelay == [])
  }

  lemma NothingDelayedStep(env: Env, s: State, l: Label)
    requires KeepsDstDirs(env.c) && NothingDelayed(env, s)
    ensures NothingDelayed(env, Next(env, s, l))
  {
    hide NothingDelayed, ProduceStep, WorkStep, StartStep, Waits, ProducerUpdates, WorkerUpdates;
    match l {
      case Start(_, _, _, _) =>
        if s.mode.Stopped? { NothingDelayedStart(env, s, l); assert Next(env, s, l) == StartStep(env, s, l); }
      case Produce => if s.mode.Running? { NothingDelayedProduce(env, s); }
      case Work(i, good, equal) => if s.mode.Running? && i < |s.jobs| { NothingDelayedWork(env, s, i, good, equal); }
      case _ => NothingDelayedSave(env, s, l);
    }
  }

  lemma NothingDelayedProduce(env: Env, s: State)
    requires KeepsDstDirs(env.c) && NothingDelayed(env, s)
    ensures NothingDelayed(env, ProduceStep(env, s))
  {
    hide ProduceStep;
    ProduceMoves(env, s);
    ProduceLists(env, s);
    ProduceFrame(env, s);
    if s.prog != [] {
      assert s.prog[0] in s.prog;
      assert forall a :: a in s.prog[1..] ==> a in s.prog;
    }
  }

  lemma NothingDelayedSave(env: Env, s: State, l: Label)
    requires NothingDelayed(env, s) && !l.Start? && !l.Produce? && !l.Work?
    ensures NothingDelayed(env, Next(env, s, l))
  {
    hide Allowed, OpenKey;
  }

  lemma NothingDelayedWork(env: Env, s: State, i: nat, good: bool, equal: bool)
    requires NothingDelayed(env, s) && i < |s.jobs|
    ensures NothingDelayed(env, WorkStep(env, s, i, good, equal))
  {
    hide WorkStep, Delays, Allowed;
    WorkAside(env, s, i, good, equal);
    WorkLists(env, s, i, good, equal);
    WorkFrame(env, s, i, good, equal);
  }

  lemma NothingDelayedStart(env: Env, s: State, l: Label)
    requires NothingDelayed(env, s) && l.Start?
    ensures NothingDelayed(env, StartStep(env, s, l))
  {
    hide Load, Restore, Merge, CanStart, Requeue, Allowed, Usable;
    TraceKinds(l.src, l.dst, env.c);
  }

  lemma {:induction false} NothingDelayedRun(env: Env, s: State, labels: seq<Label>)
    requires KeepsDstDirs(env.c) && NothingDelayed(env, s)
    ensures NothingDelayed(env, Run(env, s, labels))
    decreases |labels|
  {
    hide Next, NothingDelayed;
    if labels != [] {
      NothingDelayedStep(env, s, labels[0]);
      NothingDelayedRun(env, Next(env, s, labels[0]), labels[1..]);
    }
  }

  /** Unless --delete-dst is to delete directories no restart is stranded. */
  lemma {:induction false} NeverStranded(env: Env, labels: seq<Label>, l: Label)
    requires Well(env) && KeepsDstDirs(env.c) && l.Start?
    requires var s := Run(env, Init, labels); s.mode.Stopped? && Next(env, s, l).mode.Running?
    ensures !Next(env, Run(env, Init, labels), l).stranded
  {
    hide Next;
    NothingDelayedRun(env, Init, labels);
    RestartIff(env, labels, l);
  }

  lemma StrandedStep(env: Env, s: State, l: Label)
    requires !s.stranded
    ensures Next(env, s, l).stranded ==> l.Start? && s.mode.Stopped? && Next(env, s, l).mode.Running?
  {
    hide ProduceStep, WorkStep, Waits, ProducerUpdates, WorkerUpdates, Restore, Load, Merge, CanStart, Usable;
    ProduceAside(env, s);
    if l.Work? && l.job < |s.jobs| { WorkLists(env, s, l.job, l.good, l.equal); }
  }

  lemma {:induction false} RunSnoc(env: Env, s: State, labels: seq<Label>)
    requires labels != []
    ensures Run(env, s, labels) == Next(env, Run(env, s, labels[..|labels|-1]), labels[|labels|-1])
    decreases |labels|
  {
    hide Next;
    if |labels| > 1 {
      RunSnoc(env, Next(env, s, labels[0]), labels[1..]);
      assert labels[1..][..|labels|-2] == labels[..|labels|-1][1..];
    }
  }

  lemma {:induction false} RunNeverStranded(env: Env, labels: seq<Label>)
    requires Well(env) && KeepsDstDirs(env.c)
    ensures !Run(env, Init, labels).stranded
    decreases |labels|
  {
    hide Next;
    if labels != [] {
      var before, l := labels[..|labels|-1], labels[|labels|-1];
      RunNeverStranded(env, before);
      RunSnoc(env, Init, labels);
      StrandedStep(env, Run(env, Init, before), l);
      if Run(env, Init, labels).stranded { NeverStranded(env, before, l); }
    }
  }

  /** So without --delete-dst of directories a reported completion always means that every source key is
      handled, with --delete-src and --delete-src-after as well. */
  lemma {:induction false} CompletionWithoutDstDirs(env: Env, labels: seq<Label>)
    requires Well(env) && KeepsDstDirs(env.c) && Run(env, Init, labels).mode.Completed?
    ensures KeysOf(env.full) <= Run(env, Init, labels).handled
  {
    RunNeverStranded(env, labels);
    CompletionIff(env, labels);
  }

  // ---- Delayed deletions of source directories ---------------------------------------------------------

  /** A directory that a finished task left to be deleted when a save read the prefixes is in the saved
      file: its task is still outstanding there, or its deletion is in the delayed list. */
  lemma {:induction false} EverySnapshotKeepsOwedDirectories(env: Env, labels: seq<Label>, d: Key)
    requires Well(env) && Run(env, Init, labels).disk.Some?
    requires d in Run(env, Init, labels).disk.value.owed
    ensures var snap := Run(env, Init, labels).disk.value.snap;
            d in snap.srcDelay || (ROOT in snap.prefixes
                && (d in snap.prefixes[ROOT].pending || d in snap.prefixes[ROOT].failed))
  {
    hide Run, OrderInv, Inv, LiveDelays;
    Reached(env, labels);
  }

  /** When a successful task leaves the checkpoint, its key stays on the list of delayed deletions exactly if
      it was there at the start or the branch that the task took put it there. */
  lemma {:induction false} ProcessedKeptIff(env: Env, labels: seq<Label>, i: nat, good: bool, equal: bool)
    requires Well(env)
    requires var s := Run(env, Init, labels);
             && s.mode.Running? && i < |s.jobs| && s.jobs[i].phase.Logged?
             && Next(env, s, Work(i, good, equal)) != s
    ensures var s := Run(env, Init, labels);
            var t := Next(env, s, Work(i, good, equal));
            var k := s.jobs[i].key;
            && k !in Held(t.mgr.prefixes)
            && (k in t.srcDelay <==> k in s.base || Delays(env, s.jobs[i]))
  {
    hide Run, Inv, OrderInv, LiveOrder, MarkCompleted, Delays, OwedInv, SaverDelays;
    Reached(env, labels);
    var s := Run(env, Init, labels);
    Ordered(s);
    KeptNow(env, s, i);
    CompleteKeepsOrder(s, WorkStep(env, s, i, good, equal), i, s.jobs[i].(phase := Ended));
  }

  lemma KeptNow(env: Env, s: State, i: nat)
    requires LiveOrder(s) && LiveDelays(env, s) && i < |s.jobs| && s.jobs[i].phase.Logged?
    ensures s.jobs[i].key in s.srcDelay <==> s.jobs[i].key in s.base || Delays(env, s.jobs[i])
  {
    hide LiveOrder, Delays, OwedInv, SaverDelays, LeftBy;
    if s.jobs[i].key !in s.base { LeftIff(env, s, i); }
  }

  /** Under --delete-src-after alone the branch matters: a directory already present on the destination, whose
      permissions were copied or whose checksum agreed, is processed without its deletion being kept. */
  lemma {:induction false} KeptAfterCopyOnly(env: Env, labels: seq<Label>, i: nat, good: bool, equal: bool)
    requires Well(env) && env.deleteSrcAfter && !env.c.deleteSrc
    requires var s := Run(env, Init, labels);
             && s.mode.Running? && i < |s.jobs| && s.jobs[i].phase.Logged? && IsDir(env, s.jobs[i].key)
                 && s.jobs[i].key !in s.base
             && Next(env, s, Work(i, good, equal)) != s
    ensures var s := Run(env, Init, labels);
            var j := s.jobs[i];
            j.key in Next(env, s, Work(i, good, equal)).srcDelay <==> j.kind == Copy || (j.kind == Checksum && !j.equal)
  {
    hide Run, IsDir;
    ProcessedKeptIff(env, labels, i, good, equal);
  }

  /** Under --delete-src, of the directories the producer had delayed when a save read the prefixes, the saved
      list misses exactly the one whose entry it had yet to append when the list was read. */
  lemma {:induction false} SnapshotMissesOpenIff(env: Env, labels: seq<Label>, d: Key)
    requires Well(env) && Run(env, Init, labels).disk.Some?
    requires var f := Run(env, Init, labels).disk.value; d in f.delayed && d !in f.base
    ensures var f := Run(env, Init, labels).disk.value; d !in f.snap.srcDelay <==> f.open == Some(d)
  {
    hide Run, OrderInv, Inv, LiveDelays;
    Reached(env, labels);
  }

  /** The key `d` has no task and is not about to be named. */
  ghost predicate Away(d: Key, s: State) {
    (forall j :: j in s.jobs ==> j.key != d) && (forall a :: a in s.prog ==> a.key != d)
  }

  lemma AwayStep(env: Env, s: State, l: Label, d: Key)
    requires !l.Start? && Away(d, s)
    ensures Away(d, Next(env, s, l)) && (d in Next(env, s, l).srcDelay ==> d in s.srcDelay)
  {
    hide ProduceStep, WorkStep, OpenKey, Away;
    match l {
      case Produce => AwayProduce(env, s, d);
      case Work(i, good, equal) => if i < |s.jobs| { AwayWork(env, s, i, good, equal, d); }
      case _ => AwayMeans(d, s, Next(env, s, l));
    }
  }

  lemma AwayMeans(d: Key, s: State, s': State)
    requires Away(d, s) && (forall j :: j in s'.jobs ==> j in s.jobs) && (forall a :: a in s'.prog ==> a in s.prog)
    ensures Away(d, s')
  {}

  lemma AwayProduce(env: Env, s: State, d: Key)
    requires Away(d, s)
    ensures Away(d, ProduceStep(env, s)) && (d in ProduceStep(env, s).srcDelay ==> d in s.srcDelay)
  {
    hide ProduceStep;
    ProduceMoves(env, s);
    ProduceLists(env, s);
    if s.prog != [] {
      assert s.prog[0] in s.prog;
      assert forall a :: a in s.prog[1..] ==> a in s.prog;
    }
  }

  lemma AwayWork(env: Env, s: State, i: nat, good: bool, equal: bool, d: Key)
    requires Away(d, s) && i < |s.jobs|
    ensures Away(d, WorkStep(env, s, i, good, equal))
        && (d in WorkStep(env, s, i, good, equal).srcDelay ==> d in s.srcDelay)
  {
    hide WorkStep, Delays;
    WorkMoves(env, s, i, good, equal);
    WorkAside(env, s, i, good, equal);
    WorkLists(env, s, i, good, equal);
    assert s.jobs[i] in s.jobs;
  }

  lemma ListGrowsStep(env: Env, s: State, l: Label)
    requires !l.Start?
    ensures s.srcDelay <= Next(env, s, l).srcDelay
  {
    hide ProduceStep, WorkStep, Delays, OpenKey;
    ProduceLists(env, s);
    if l.Work? && l.job < |s.jobs| { WorkLists(env, s, l.job, l.good, l.equal); }
  }

  ghost predicate OneProcess(labels: seq<Label>) {
    forall l :: l in labels ==> !l.Start?
  }

  lemma {:induction false} ListRun(env: Env, s: State, labels: seq<Label>, d: Key)
    requires OneProcess(labels)
    ensures d in s.srcDelay ==> d in Run(env, s, labels).srcDelay
    ensures Away(d, s) && d !in s.srcDelay ==> d !in Run(env, s, labels).srcDelay
    decreases |labels|
  {
    hide Next, Away;
    if labels != [] {
      assert labels[0] in labels;
      ListGrowsStep(env, s, labels[0]);
      if Away(d, s) { AwayStep(env, s, labels[0], d); }
      ListRun(env, Next(env, s, labels[0]), labels[1..], d);
    }
  }

  /** A restart from a usable file lists after its last key and queues its tasks, so neither names `d`. */
  lemma RestartIsAway(env: Env, s: State, l: Label, d: Key)
    requires Well(env) && OrderInv(s) && s.mode.Stopped? && l.Start? && d in KeysOf(env.full)
    requires s.disk.Some? && Usable(s.disk.value.snap) && d in s.disk.value.delayed
    requires Next(env, s, l).mode.Running?
    ensures Away(d, Next(env, s, l)) && Next(env, s, l).srcDelay == s.disk.value.snap.srcDelay
  {
    hide Merge, Load, Restore, Requeue, CanStart, After, Less, OrderInv;
    var f := s.disk.value;
    DiskFile(s);
    RestoreEffect(f.snap);
    var (mgr, r) := Restore(Load(f.snap), ROOT);
    if r.Tasks? {
      Requeued(r.tasks, r.tasks.Keys);
      if !r.listDone {
        var last := LastOf(mgr.prefixes);
        StartFeeds(env, s.gone, last, l);
        LastIsSet(env, f, d, last);
        TraceAbove(l.src, l.whole, l.dst, l.dfull, env.c, last);
        forall a | a in Merge(l.src, l.dst, env.c).trace ensures a.key != d { NotBelow(d, last); }
      }
    }
  }

  lemma LastIsSet(env: Env, f: Saved, d: Key, last: Key)
    requires Well(env) && FileInv(f.snap.prefixes, f.delayed) && d in f.delayed && d in KeysOf(env.full)
    requires ROOT in f.snap.prefixes && last == LastOf(f.snap.prefixes)
    ensures AtMost(d, last) && last != ""
  {
    assert d in f.delayed + Held(f.snap.prefixes);
  }

  /** What that means for the deletion itself: a process restarted from the file has a delayed directory on
      its list at any time, in particular at completion, exactly if the file had it. */
  lemma {:induction false} DelayedAtCompletionIff(env: Env, labels: seq<Label>, l: Label, more: seq<Label>, d: Key)
    requires Well(env) && l.Start? && OneProcess(more) && d in KeysOf(env.full)
    requires var s := Run(env, Init, labels);
             && s.mode.Stopped? && s.disk.Some? && Usable(s.disk.value.snap) && d in s.disk.value.delayed
             && Next(env, s, l).mode.Running?
    ensures var s := Run(env, Init, labels);
            d in Run(env, Next(env, s, l), more).srcDelay <==> d in s.disk.value.snap.srcDelay
  {
    hide Run, Next, Inv, LiveDelays, Away;
    Reached(env, labels);
    var s := Run(env, Init, labels);
    RestartIsAway(env, s, l, d);
    ListRun(env, Next(env, s, l), more, d);
  }

  // ---- The flag that rules it out ------------------------------------------------------------------------

  ghost predicate NoneDelayed(env: Env, s: State) {
    && s.delayed == {} && (forall a :: a in s.prog ==> Allowed(a, env.c))
    && (s.disk.Some? ==> s.disk.value.delayed == {})
    && (s.saver.HasPrefixes? || s.saver.HasSrcDelay? ==> s.saver.delayed == {})
    && (s.saver.Ready? ==> s.saver.saved.delayed == {})
  }

  lemma NoneDelayedStep(env: Env, s: State, l: Label)
    requires !env.c.deleteSrc && NoneDelayed(env, s)
    ensures NoneDelayed(env, Next(env, s, l))
  {
    hide NoneDelayed, ProduceStep, WorkStep, StartStep;
    match l {
      case Start(_, _, _, _) =>
        if s.mode.Stopped? { NoneDelayedStart(env, s, l); assert Next(env, s, l) == StartStep(env, s, l); }
      case Produce => if s.mode.Running? { NoneDelayedProduce(env, s); }
      case Work(i, good, equal) => if s.mode.Running? && i < |s.jobs| { NoneDelayedWork(env, s, i, good, equal); }
      case _ => NoneDelayedSave(env, s, l);
    }
  }

  lemma NoneDelayedStart(env: Env, s: State, l: Label)
    requires NoneDelayed(env, s) && l.Start?
    ensures NoneDelayed(env, StartStep(env, s, l))
  {
    hide Load, Restore, Merge, CanStart, Requeue, Allowed, Usable;
    TraceKinds(l.src, l.dst, env.c);
  }

  lemma NoneDelayedProduce(env: Env, s: State)
    requires !env.c.deleteSrc && NoneDelayed(env, s)
    ensures NoneDelayed(env, ProduceStep(env, s))
  {
    hide ProduceStep, Allowed;
    ProduceMoves(env, s);
    ProduceLists(env, s);
    ProduceFrame(env, s);
    ProduceAside(env, s);
    NextIsNoDelay(env, s);
    if s.prog != [] { assert forall a :: a in s.prog[1..] ==> a in s.prog; }
  }

  lemma NextIsNoDelay(env: Env, s: State)
    requires !env.c.deleteSrc && NoneDelayed(env, s)
    ensures s.prog != [] ==> !s.prog[0].DelaySrc?
  {
    if s.prog != [] { assert s.prog[0] in s.prog; }
  }

  lemma NoneDelayedWork(env: Env, s: State, i: nat, good: bool, equal: bool)
    requires NoneDelayed(env, s) && i < |s.jobs|
    ensures NoneDelayed(env, WorkStep(env, s, i, good, equal))
  {
    hide WorkStep, Delays, Allowed;
    WorkMoves(env, s, i, good, equal);
    WorkAside(env, s, i, good, equal);
    WorkLists(env, s, i, good, equal);
    WorkFrame(env, s, i, good, equal);
  }

  lemma NoneDelayedSave(env: Env, s: State, l: Label)
    requires NoneDelayed(env, s) && !l.Start? && !l.Produce? && !l.Work?
    ensures NoneDelayed(env, Next(env, s, l))
  {
    hide Allowed, OpenKey;
  }

  lemma {:induction false} NoneDelayedRun(env: Env, s: State, labels: seq<Label>)
    requires !env.c.deleteSrc && NoneDelayed(env, s)
    ensures NoneDelayed(env, Run(env, s, labels))
    decreases |labels|
  {
    hide Next, NoneDelayed;
    if labels != [] {
      NoneDelayedStep(env, s, labels[0]);
      NoneDelayedRun(env, Next(env, s, labels[0]), labels[1..]);
    }
  }

  /** Without --delete-src the producer delays no source directory, so no file can miss one. */
  lemma {:induction false} NothingDelayedWithoutDeleteSrc(env: Env, labels: seq<Label>)
    requires !env.c.deleteSrc && Run(env, Init, labels).disk.Some?
    ensures Run(env, Init, labels).disk.value.delayed == {}
  {
    NoneDelayedRun(env, Init, labels);
  }

  // ---- The two ways a task or an extra key stays behind a file --------------------------------------------

  /** The tasks that a restart queues from a file are those it holds, save one under the empty key. */
  lemma TaskSurvivesIff(env: Env, s: State, l: Label, k: Key)
    requires l.Start? && s.mode.Stopped? && s.disk.Some? && s.disk.value.snap.prefixes.Keys == {ROOT}
    requires Next(env, s, l).mode.Running?
    ensures k in JobKeys(Next(env, s, l).jobs) <==> k in Held(s.disk.value.snap.prefixes) && k != ""
  {
    hide Merge, Load, Restore, Requeue, CanStart;
    var snap := s.disk.value.snap;
    assert ROOT in snap.prefixes;
    RestoreEffect(snap);
    var (mgr, r) := Restore(Load(snap), ROOT);
    Requeued(r.tasks, r.tasks.Keys);
    QueuedAreActive(Requeue(r.tasks, r.tasks.Keys));
  }

  /** A restart that lists again names only keys after the last listed one of its file: a key to be deleted
      that the cut of the trace left below it (Traces.CutIff) is not come to again. */
  lemma RestartListsAfter(env: Env, s: State, l: Label)
    requires Well(env) && OrderInv(s) && s.mode.Stopped? && l.Start? && s.disk.Some? && Usable(s.disk.value.snap)
    requires Next(env, s, l).mode.Running? && LastOf(s.disk.value.snap.prefixes) != ""
    ensures Above(Next(env, s, l).prog, LastOf(s.disk.value.snap.prefixes))
  {
    hide Merge, Load, Restore, Requeue, CanStart, After, Less, OrderInv;
    DiskFile(s);
    RestoreEffect(s.disk.value.snap);
    var (mgr, r) := Restore(Load(s.disk.value.snap), ROOT);
    if !r.listDone {
      var last := LastOf(mgr.prefixes);
      StartFeeds(env, s.gone, last, l);
      TraceAbove(l.src, l.whole, l.dst, l.dfull, env.c, last);
    }
  }
}

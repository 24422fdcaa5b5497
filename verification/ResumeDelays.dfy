/** What every run keeps of the list of source directories to be deleted at the end. */
module ResumeDelays {
  import opened Keys
  import opened Producer
  import opened Checkpoint
  import opened CrashResume
  import opened ResumeOrder

  // ---- The invariant -------------------------------------------------------------------------------

  /** A task for `k` that, done, left the directory `k` to be deleted. */
  ghost predicate LeftBy(env: Env, jobs: seq<Job>, k: Key) {
    exists i :: 0 <= i < |jobs| && jobs[i].key == k && (jobs[i].phase.Logged? || jobs[i].phase.Ended?)
             && Delays(env, jobs[i])
  }

  /** A successful task that is about to leave the directory `k` to be deleted. */
  ghost predicate ToLeave(env: Env, jobs: seq<Job>, k: Key) {
    exists i :: 0 <= i < |jobs| && jobs[i].key == k && jobs[i].phase.Succeeded? && Delays(env, jobs[i])
  }

  /** The list holds what it held at the start, what finished tasks left, and what the producer delayed; it
      lacks only the directory that the producer is about to append. */
  ghost predicate ListInv(env: Env, jobs: seq<Job>, list: seq<Key>, base: seq<Key>, delayed: set<Key>,
                          current: Option<Key>) {
    && (forall k :: k in list ==> k in base || (k in delayed && current != Some(k)) || LeftBy(env, jobs, k))
    && (forall k :: k in base ==> k in list)
    && (forall d :: d in delayed ==> d in list || current == Some(d))
    && (forall i :: 0 <= i < |jobs| && jobs[i].phase.Logged? && Delays(env, jobs[i]) ==> jobs[i].key in list)
  }

  ghost predicate OwedInv(env: Env, jobs: seq<Job>, list: seq<Key>, owed: set<Key>) {
    forall d :: d in owed ==> d in list || ToLeave(env, jobs, d)
  }

  ghost predicate OwedKept(ps: map<Key, PrefixState>, owed: set<Key>, list: seq<Key>) {
    forall d :: d in owed ==> d in list || d in Held(ps)
  }

  /** The delayed directories that were not on the list at the start: on it, but for the open one. */
  ghost predicate DelayedKept(delayed: set<Key>, list: seq<Key>, base: seq<Key>, current: Option<Key>) {
    forall d :: d in delayed && d !in base ==> (d in list <==> current != Some(d))
  }

  ghost predicate SavedDelays(d: Saved) {
    OwedKept(d.snap.prefixes, d.owed, d.snap.srcDelay) && DelayedKept(d.delayed, d.snap.srcDelay, d.base, d.open)
  }

  ghost predicate SaverDelays(saver: Saver, delayed: set<Key>, list: seq<Key>, base: seq<Key>) {
    match saver
    case Idle => true
    case HasPrefixes(ps, owed, delayed', _) => OwedKept(ps, owed, list) && delayed' <= delayed
    case HasSrcDelay(ps, owed, delayed', _, list', current) => OwedKept(ps, owed, list')
        && DelayedKept(delayed', list', base, current)
    case Ready(d) => SavedDelays(d)
  }

  ghost predicate LiveDelays(env: Env, s: State) {
    && ListInv(env, s.jobs, s.srcDelay, s.base, s.delayed, OpenKey(s)) && OwedInv(env, s.jobs, s.srcDelay, s.owed)
    && SaverDelays(s.saver, s.delayed, s.srcDelay, s.base)
  }

  ghost predicate DelaysInv(env: Env, s: State) {
    && OrderInv(s) && (s.mode.Running? ==> LiveDelays(env, s))
    && (s.disk.Some? ==> SavedDelays(s.disk.value))
  }

  // ---- What follows in a state -------------------------------------------------------------------------

  lemma DelayedNow(env: Env, s: State)
    requires LiveOrder(s) && LiveDelays(env, s)
    ensures DelayedKept(s.delayed, s.srcDelay, s.base, OpenKey(s))
  {
    forall d | d in s.delayed && LeftBy(env, s.jobs, d) ensures false {
      var i :| 0 <= i < |s.jobs| && s.jobs[i].key == d;
      IsJob(s.jobs, i);
    }
  }

  lemma OwedNow(env: Env, s: State)
    requires LiveOrder(s) && LiveDelays(env, s)
    ensures OwedKept(s.mgr.prefixes, s.owed, s.srcDelay)
  {
    hide Delays;
    forall d | d in s.owed && d !in s.srcDelay ensures d in Held(s.mgr.prefixes) {
      var i :| 0 <= i < |s.jobs| && s.jobs[i].key == d && s.jobs[i].phase.Succeeded?;
      JobIsHeld(s, i);
    }
  }

  lemma JobIsHeld(s: State, i: nat)
    requires LiveOrder(s) && i < |s.jobs| && !s.jobs[i].phase.Ended?
    ensures s.jobs[i].key in Held(s.mgr.prefixes)
  {
    assert s.jobs[i].key in Active(s.jobs);
  }

  /** Of the directory of a finished task: it is on the list exactly if its branch leaves it there. */
  lemma LeftIff(env: Env, s: State, i: nat)
    requires LiveOrder(s) && LiveDelays(env, s) && i < |s.jobs| && s.jobs[i].phase.Logged? && s.jobs[i].key !in s.base
    ensures s.jobs[i].key in s.srcDelay <==> Delays(env, s.jobs[i])
  {
    hide Delays;
    var k := s.jobs[i].key;
    IsJob(s.jobs, i);
    if k in s.srcDelay {
      assert LeftBy(env, s.jobs, k);
      var n :| 0 <= n < |s.jobs| && s.jobs[n].key == k && Delays(env, s.jobs[n]);
      assert n == i;
    }
  }

  // ---- The producer ------------------------------------------------------------------------------------

  lemma ListGrows(ps: map<Key, PrefixState>, owed: set<Key>, list: seq<Key>, list': seq<Key>)
    requires OwedKept(ps, owed, list) && list <= list'
    ensures OwedKept(ps, owed, list')
  {}

  lemma SaverDelaysGrow(saver: Saver, delayed: set<Key>, list: seq<Key>, base: seq<Key>, delayed': set<Key>,
                        list': seq<Key>)
    requires SaverDelays(saver, delayed, list, base) && delayed <= delayed' && list <= list'
    ensures SaverDelays(saver, delayed', list', base)
  {
    hide SavedDelays;
    if saver.HasPrefixes? { ListGrows(saver.prefixes, saver.owed, list, list'); }
  }

  /** Steps that delay nothing: the open key stays none and at most a queued task joins. */
  lemma QuietKeepsDelays(env: Env, s: State, s': State)
    requires LiveDelays(env, s) && OpenKey(s).None? && OpenKey(s').None?
    requires s'.srcDelay == s.srcDelay && s'.base == s.base && s'.delayed == s.delayed && s'.owed == s.owed
        && s'.saver == s.saver
    requires s'.jobs == s.jobs
        || (|s'.jobs| == |s.jobs| + 1 && s'.jobs[..|s.jobs|] == s.jobs && s'.jobs[|s.jobs|].phase.Queued?)
    ensures LiveDelays(env, s')
  {
    hide Delays, SaverDelays, OpenKey;
    forall i | 0 <= i < |s.jobs| ensures s'.jobs[i] == s.jobs[i] {
      if s'.jobs != s.jobs { assert s'.jobs[..|s.jobs|][i] == s.jobs[i]; }
    }
    forall k | LeftBy(env, s.jobs, k) ensures LeftBy(env, s'.jobs, k) {
      var i :| 0 <= i < |s.jobs| && s.jobs[i].key == k && (s.jobs[i].phase.Logged? || s.jobs[i].phase.Ended?)
          && Delays(env, s.jobs[i]);
      assert s'.jobs[i] == s.jobs[i];
    }
    forall k | ToLeave(env, s.jobs, k) ensures ToLeave(env, s'.jobs, k) {
      var i :| 0 <= i < |s.jobs| && s.jobs[i].key == k && s.jobs[i].phase.Succeeded? && Delays(env, s.jobs[i]);
      assert s'.jobs[i] == s.jobs[i];
    }
  }

  lemma DelayOpens(env: Env, s: State)
    requires LiveOrder(s) && LiveDelays(env, s) && !s.fin && s.prog != [] && s.prog[0].DelaySrc? && s.stage == 0
    ensures LiveDelays(env, ProduceStep(env, s))
  {
    hide Delays, SaverDelays, LeftBy, ToLeave, ProgInv, TasksInv, FileInv, UpdateLast;
    var s' := ProduceStep(env, s);
    NextKeyIsNew(s);
    SaverDelaysGrow(s.saver, s.delayed, s.srcDelay, s.base, s'.delayed, s'.srcDelay);
  }

  lemma DelayAppends(env: Env, s: State)
    requires LiveOrder(s) && LiveDelays(env, s) && !s.fin && s.prog != [] && s.prog[0].DelaySrc? && s.stage > 0
    ensures LiveDelays(env, ProduceStep(env, s))
  {
    hide Delays, SaverDelays, LeftBy, ToLeave, TasksInv, FileInv, Held, Below;
    var s' := ProduceStep(env, s);
    SaverDelaysGrow(s.saver, s.delayed, s.srcDelay, s.base, s'.delayed, s'.srcDelay);
  }

  lemma ProduceKeepsDelays(env: Env, s: State)
    requires LiveOrder(s) && LiveDelays(env, s)
    ensures LiveDelays(env, ProduceStep(env, s))
  {
    hide LiveOrder, LiveDelays, ProduceStep;
    if s.fin {
      assert ProduceStep(env, s) == s by { ProduceEnded(env, s); }
    } else if s.prog != [] && s.prog[0].DelaySrc? {
      if s.stage == 0 { DelayOpens(env, s); } else { DelayAppends(env, s); }
    } else {
      ProduceMoves(env, s);
      ProduceLists(env, s);
      ProduceFrame(env, s);
      ProduceAside(env, s);
      NoneOpen(env, s);
      QuietKeepsDelays(env, s, ProduceStep(env, s));
    }
  }

  lemma ProduceEnded(env: Env, s: State)
    requires s.fin
    ensures ProduceStep(env, s) == s
  {}

  lemma NoneOpen(env: Env, s: State)
    requires s.prog == [] || !s.prog[0].DelaySrc?
    ensures OpenKey(s).None? && OpenKey(ProduceStep(env, s)).None?
  {
    hide AddPending, MarkListDone, UpdateLast, Track;
  }

  // ---- The workers ---------------------------------------------------------------------------------------

  lemma LeftStays(env: Env, jobs: seq<Job>, i: nat, j: Job, k: Key)
    requires i < |jobs| && j.key == jobs[i].key
        && (jobs[i].phase.Logged? || jobs[i].phase.Ended? ==> j.phase.Ended? && j == jobs[i].(phase := Ended))
    requires LeftBy(env, jobs, k)
    ensures LeftBy(env, jobs[i := j], k)
  {
    var n :| 0 <= n < |jobs| && jobs[n].key == k && (jobs[n].phase.Logged? || jobs[n].phase.Ended?)
        && Delays(env, jobs[n]);
    assert jobs[i := j][n] == if n == i then j else jobs[n];
    if n == i { SameDelays(env, jobs[i], j); }
  }

  lemma SameDelays(env: Env, j: Job, j': Job)
    requires j.key == j'.key && j.kind == j'.kind && j.equal == j'.equal
    ensures Delays(env, j) == Delays(env, j')
  {}

  lemma ToLeaveStays(env: Env, jobs: seq<Job>, i: nat, j: Job, k: Key)
    requires i < |jobs| && !jobs[i].phase.Succeeded? && ToLeave(env, jobs, k)
    ensures ToLeave(env, jobs[i := j], k)
  {
    hide Delays;
    var n :| 0 <= n < |jobs| && jobs[n].key == k && jobs[n].phase.Succeeded? && Delays(env, jobs[n]);
    assert jobs[i := j][n] == jobs[n];
  }

  lemma TryKeepsDelays(env: Env, s: State, i: nat, good: bool, equal: bool)
    requires LiveDelays(env, s) && i < |s.jobs| && s.jobs[i].phase.Queued?
    ensures LiveDelays(env, WorkStep(env, s, i, good, equal))
  {
    hide Delays, SaverDelays, LeftBy, ToLeave;
    var s' := WorkStep(env, s, i, good, equal);
    var j := s'.jobs[i];
    forall k | LeftBy(env, s.jobs, k) ensures LeftBy(env, s'.jobs, k) { LeftStays(env, s.jobs, i, j, k); }
    forall k | ToLeave(env, s.jobs, k) ensures ToLeave(env, s'.jobs, k) { ToLeaveStays(env, s.jobs, i, j, k); }
    if good && Delays(env, j) { NewToLeave(env, s'.jobs, i); }
  }

  lemma NewToLeave(env: Env, jobs: seq<Job>, i: nat)
    requires i < |jobs| && jobs[i].phase.Succeeded? && Delays(env, jobs[i])
    ensures ToLeave(env, jobs, jobs[i].key)
  {}

  lemma NewLeft(env: Env, jobs: seq<Job>, i: nat)
    requires i < |jobs| && jobs[i].phase.Logged? && Delays(env, jobs[i])
    ensures LeftBy(env, jobs, jobs[i].key)
  {}

  lemma LogKeepsList(env: Env, s: State, i: nat, good: bool, equal: bool)
    requires LiveDelays(env, s) && i < |s.jobs| && s.jobs[i].phase.Succeeded?
    ensures var s' := WorkStep(env, s, i, good, equal);
            ListInv(env, s'.jobs, s'.srcDelay, s'.base, s'.delayed, OpenKey(s'))
  {
    hide Delays, SaverDelays, LeftBy, ToLeave, OwedInv;
    var s' := WorkStep(env, s, i, good, equal);
    var j := s'.jobs[i];
    SameDelays(env, s.jobs[i], j);
    forall k | LeftBy(env, s.jobs, k) ensures LeftBy(env, s'.jobs, k) { LeftStays(env, s.jobs, i, j, k); }
    if Delays(env, j) { NewLeft(env, s'.jobs, i); }
  }

  lemma LogKeepsOwed(env: Env, s: State, i: nat, good: bool, equal: bool)
    requires LiveDelays(env, s) && i < |s.jobs| && s.jobs[i].phase.Succeeded?
    ensures var s' := WorkStep(env, s, i, good, equal); OwedInv(env, s'.jobs, s'.srcDelay, s'.owed)
  {
    hide Delays, SaverDelays, LeftBy, ListInv;
    var s' := WorkStep(env, s, i, good, equal);
    forall k | k in s.owed && k !in s'.srcDelay ensures ToLeave(env, s'.jobs, k) {
      var n :| 0 <= n < |s.jobs| && s.jobs[n].key == k && s.jobs[n].phase.Succeeded? && Delays(env, s.jobs[n]);
      assert n != i;
      assert s'.jobs[n] == s.jobs[n];
    }
  }

  lemma LogKeepsDelays(env: Env, s: State, i: nat, good: bool, equal: bool)
    requires LiveDelays(env, s) && i < |s.jobs| && s.jobs[i].phase.Succeeded?
    ensures LiveDelays(env, WorkStep(env, s, i, good, equal))
  {
    hide Delays, SaverDelays, ListInv, OwedInv;
    var s' := WorkStep(env, s, i, good, equal);
    LogKeepsList(env, s, i, good, equal);
    LogKeepsOwed(env, s, i, good, equal);
    SaverDelaysGrow(s.saver, s.delayed, s.srcDelay, s.base, s'.delayed, s'.srcDelay);
  }

  lemma EndKeepsDelays(env: Env, s: State, i: nat, good: bool, equal: bool)
    requires LiveDelays(env, s) && i < |s.jobs| && (s.jobs[i].phase.Logged? || s.jobs[i].phase.Erred?)
    ensures LiveDelays(env, WorkStep(env, s, i, good, equal))
  {
    hide Delays, SaverDelays, LeftBy, ToLeave, MarkCompleted, MarkFailed;
    var s' := WorkStep(env, s, i, good, equal);
    var j := s'.jobs[i];
    forall k | LeftBy(env, s.jobs, k) ensures LeftBy(env, s'.jobs, k) { LeftStays(env, s.jobs, i, j, k); }
    forall k | ToLeave(env, s.jobs, k) ensures ToLeave(env, s'.jobs, k) { ToLeaveStays(env, s.jobs, i, j, k); }
  }

  lemma WorkKeepsDelays(env: Env, s: State, i: nat, good: bool, equal: bool)
    requires LiveDelays(env, s) && i < |s.jobs|
    ensures LiveDelays(env, WorkStep(env, s, i, good, equal))
  {
    match s.jobs[i].phase
    case Queued => TryKeepsDelays(env, s, i, good, equal);
    case Succeeded => LogKeepsDelays(env, s, i, good, equal);
    case Ended =>
    case _ => EndKeepsDelays(env, s, i, good, equal);
  }

  // ---- Saving, starting, runs ----------------------------------------------------------------------------

  lemma SaveKeepsDelays(env: Env, s: State, l: Label)
    requires DelaysInv(env, s) && s.mode.Running?
        && (l.SaveBegin? || l.SaveSrcDelay? || l.SaveDstDelay? || l.SavePut? || l.Crash?)
    ensures DelaysInv(env, Next(env, s, l))
  {
    hide OrderInv, LiveOrder, ListInv, OwedInv, OwedKept, DelayedKept;
    SaveKeepsOrder(env, s, l);
    Ordered(s);
    DelayedNow(env, s);
    OwedNow(env, s);
    if s.saver.HasPrefixes? { DelayedFewer(s.saver.delayed, s.delayed, s.srcDelay, s.base, OpenKey(s)); }
    OpenKeyAside(s, Next(env, s, l));
  }

  lemma Ordered(s: State)
    requires OrderInv(s) && s.mode.Running?
    ensures LiveOrder(s)
  {}

  lemma OpenKeyAside(s: State, s': State)
    requires s' == s.(saver := s'.saver, disk := s'.disk, mode := s'.mode)
    ensures OpenKey(s') == OpenKey(s)
  {}

  lemma DelayedFewer(delayed': set<Key>, delayed: set<Key>, list: seq<Key>, base: seq<Key>, current: Option<Key>)
    requires DelayedKept(delayed, list, base, current) && delayed' <= delayed
    ensures DelayedKept(delayed', list, base, current)
  {}

  lemma FinishKeepsDelays(env: Env, s: State)
    requires DelaysInv(env, s) && s.mode.Running?
    ensures DelaysInv(env, Next(env, s, Finish))
  {
    hide OrderInv, LiveOrder, LiveDelays, OwedKept, DelayedKept;
    FinishKeepsOrder(env, s);
    Ordered(s);
    DelayedNow(env, s);
    OwedNow(env, s);
  }

  lemma BeginKeepsDelays(env: Env, s: State, mgr: Mgr, jobs: seq<Job>, last: Key, l: Label, owed: set<Key>,
                         srcDelay: seq<Key>, dstDelay: seq<Key>, recorded: bool)
    requires DelaysInv(env, s) && s.mode.Stopped? && l.Start?
    requires OrderInv(Begin(env, s, mgr, jobs, last, l, owed, srcDelay, dstDelay, recorded))
    requires (forall j :: j in jobs ==> j.phase.Queued?) && forall d :: d in owed ==> d in srcDelay
    ensures DelaysInv(env, Begin(env, s, mgr, jobs, last, l, owed, srcDelay, dstDelay, recorded))
  {
    hide OrderInv, Merge, CanStart, SavedDelays, Delays;
  }

  lemma IdlingKeepsDelays(env: Env, s: State, mgr: Mgr, jobs: seq<Job>, d: Saved, recorded: bool)
    requires DelaysInv(env, s) && s.mode.Stopped? && OrderInv(Idling(s, mgr, jobs, d, recorded))
    requires forall j :: j in jobs ==> j.phase.Queued?
    ensures DelaysInv(env, Idling(s, mgr, jobs, d, recorded))
  {
    hide OrderInv, SavedDelays, Delays;
  }

  lemma StartKeepsDelays(env: Env, s: State, l: Label)
    requires Well(env) && DelaysInv(env, s) && s.mode.Stopped? && l.Start?
    ensures DelaysInv(env, StartStep(env, s, l))
  {
    hide DelaysInv, OrderInv, Begin, Idling, Restore, Load, Requeue, Usable;
    DelaysOrdered(env, s);
    StartKeepsOrder(env, s, l);
    if s.disk.None? || !Usable(s.disk.value.snap) {
      BeginKeepsDelays(env, s, EmptyMgr, [], "", l, {}, [], [], false);
    } else {
      var d := s.disk.value;
      DiskFile(s);
      RestoredOrder(d);
      RestoreEffect(d.snap);
      var (mgr, r) := Restore(Load(d.snap), ROOT);
      match r
      case Tasks(tasks, listDone, _) =>
        var jobs := Requeue(tasks, tasks.Keys);
        if listDone { IdlingKeepsDelays(env, s, mgr, jobs, d, true); }
        else { BeginKeepsDelays(env, s, mgr, jobs, LastOf(mgr.prefixes), l, StillOwed(d), d.snap.srcDelay,
               d.snap.dstDelay, true); }
      case _ => IdlingKeepsDelays(env, s, mgr, [], d, d.recorded);
    }
  }

  lemma DelaysOrdered(env: Env, s: State)
    requires DelaysInv(env, s)
    ensures OrderInv(s)
  {}

  lemma ProducerKeepsDelays(env: Env, s: State)
    requires DelaysInv(env, s) && s.mode.Running?
    ensures DelaysInv(env, Next(env, s, Produce))
  {
    hide OrderInv, LiveOrder, LiveDelays, ProduceStep, SavedDelays;
    ProducerKeepsOrder(env, s);
    Ordered(s);
    ProduceKeepsDelays(env, s);
    ProduceFrame(env, s);
  }

  lemma WorkerKeepsDelays(env: Env, s: State, i: nat, good: bool, equal: bool)
    requires DelaysInv(env, s) && s.mode.Running? && i < |s.jobs|
    ensures DelaysInv(env, Next(env, s, Work(i, good, equal)))
  {
    hide OrderInv, LiveOrder, LiveDelays, WorkStep, SavedDelays;
    WorkerKeepsOrder(env, s, i, good, equal);
    WorkKeepsDelays(env, s, i, good, equal);
    WorkFrame(env, s, i, good, equal);
  }

  lemma NextKeepsDelays(env: Env, s: State, l: Label)
    requires Well(env) && DelaysInv(env, s)
    ensures DelaysInv(env, Next(env, s, l))
  {
    hide DelaysInv, ProduceStep, WorkStep, StartStep;
    match l {
      case Start(_, _, _, _) =>
        if s.mode.Stopped? { StartKeepsDelays(env, s, l); assert Next(env, s, l) == StartStep(env, s, l); }
      case Produce => if s.mode.Running? { ProducerKeepsDelays(env, s); }
      case Work(i, good, equal) => if s.mode.Running? && i < |s.jobs| { WorkerKeepsDelays(env, s, i, good, equal); }
      case Finish => if s.mode.Running? { FinishKeepsDelays(env, s); }
      case _ => if s.mode.Running? { SaveKeepsDelays(env, s, l); }
    }
  }

  lemma InitDelays(env: Env)
    ensures DelaysInv(env, Init)
  {}

  lemma {:induction false} RunKeepsDelays(env: Env, s: State, labels: seq<Label>)
    requires Well(env) && DelaysInv(env, s)
    ensures DelaysInv(env, Run(env, s, labels))
    decreases |labels|
  {
    hide DelaysInv, Next;
    if labels != [] {
      NextKeepsDelays(env, s, labels[0]);
      RunKeepsDelays(env, Next(env, s, labels[0]), labels[1..]);
    }
  }
}

/** What every run keeps of tasks and order: the tasks in hand, those the checkpoint holds, and that all
    the producer has yet to say lies above everything it has left behind. */
module ResumeOrder {
  import opened Keys
  import opened Producer
  import opened MergeJoin
  import opened Traces
  import opened Checkpoint
  import opened CrashResume

  // ---- What the operations of the manager do to the root prefix -----------------------------------

  ghost predicate Single(m: Mgr) {
    m.prefixes.Keys <= {ROOT} && (forall k :: k in m.keyPrefix ==> m.keyPrefix[k] == ROOT) && !m.filesFrom
  }

  /** The tasks a set of prefixes has outstanding, pending or failed. */
  ghost function Held(ps: map<Key, PrefixState>): set<Key> {
    Outstanding(ps, ROOT)
  }

  ghost function LastOf(ps: map<Key, PrefixState>): Key {
    if ROOT in ps then ps[ROOT].last else ""
  }

  ghost predicate ListDone(ps: map<Key, PrefixState>) {
    ROOT in ps && ps[ROOT].listDone
  }

  /** The kinds under which a key is pending or failed. */
  ghost function TaskKinds(ps: map<Key, PrefixState>, k: Key): set<Kind> {
    Kinds(ps, ROOT, k)
  }

  /** The tasks of `ps'` are tasks of `ps` of the same kind. */
  ghost predicate Within(ps: map<Key, PrefixState>, ps': map<Key, PrefixState>) {
    forall k :: TaskKinds(ps', k) <= TaskKinds(ps, k)
  }

  lemma AddPendingEffect(m: Mgr, k: Key, kind: Kind)
    requires Single(m)
    ensures var m' := AddPending(m, ROOT, k, kind);
            && Single(m') && ROOT in m'.prefixes && m'.keyPrefix == m.keyPrefix
            && Held(m'.prefixes) == Held(m.prefixes) + {k} && LastOf(m'.prefixes) == k
            && (forall x :: TaskKinds(m'.prefixes, x) <= TaskKinds(m.prefixes, x) + if x == k then {kind} else {})
            && ListDone(m'.prefixes) == ListDone(m.prefixes)
  {
    var s := PrefixOf(m, ROOT);
    assert k in s.pending[k := kind];
  }

  lemma UpdateLastEffect(m: Mgr, k: Key)
    requires Single(m) && !ListDone(m.prefixes)
    ensures var m' := UpdateLast(m, ROOT, k);
            && Single(m') && ROOT in m'.prefixes && m'.keyPrefix == m.keyPrefix
            && Held(m'.prefixes) == Held(m.prefixes) && Within(m.prefixes, m'.prefixes)
            && LastOf(m'.prefixes) == k && !ListDone(m'.prefixes)
  {}

  lemma ListDoneEffect(m: Mgr)
    requires Single(m)
    ensures var m' := MarkListDone(m, ROOT);
            && Single(m') && m'.keyPrefix == m.keyPrefix
            && Held(m'.prefixes) == Held(m.prefixes) && Within(m.prefixes, m'.prefixes)
            && (ROOT in m'.prefixes ==> ROOT in m.prefixes && LastOf(m'.prefixes) == LastOf(m.prefixes))
            && (ROOT in m'.prefixes <==> Held(m.prefixes) != {})
  {
    if ROOT in m.prefixes {
      var s := m.prefixes[ROOT];
      assert s.pending == map[] <==> s.pending.Keys == {};
      assert s.failed == map[] <==> s.failed.Keys == {};
    }
  }

  lemma CompletedEffect(m: Mgr, k: Key)
    requires Single(m) && k in m.keyPrefix && ROOT in m.prefixes
    ensures var m' := MarkCompleted(m, k);
            && Single(m') && m'.keyPrefix == m.keyPrefix - {k}
            && Held(m'.prefixes) == Held(m.prefixes) - {k} && Within(m.prefixes, m'.prefixes)
            && (ROOT in m'.prefixes ==> LastOf(m'.prefixes) == LastOf(m.prefixes))
            && (ROOT !in m'.prefixes ==> ListDone(m.prefixes))
            && (ListDone(m'.prefixes) ==> ListDone(m.prefixes))
  {
    var s := m.prefixes[ROOT];
    assert (s.pending - {k}).Keys == s.pending.Keys - {k};
    assert (s.failed - {k}).Keys == s.failed.Keys - {k};
  }

  lemma FailedEffect(m: Mgr, k: Key)
    requires Single(m) && k in m.keyPrefix && k in Held(m.prefixes)
    ensures var m' := MarkFailed(m, k);
            && Single(m') && m'.keyPrefix == m.keyPrefix && ROOT in m'.prefixes
            && Held(m'.prefixes) == Held(m.prefixes) && Within(m.prefixes, m'.prefixes)
            && LastOf(m'.prefixes) == LastOf(m.prefixes) && ListDone(m'.prefixes) == ListDone(m.prefixes)
  {
    var s := m.prefixes[ROOT];
    if k in s.pending {
      assert k in s.failed[k := s.pending[k]];
    }
  }

  /** A restart takes over all outstanding tasks but one under the empty key. */
  lemma RestoreEffect(snap: Snapshot)
    requires snap.prefixes.Keys <= {ROOT}
    ensures var m := Load(snap); var (m', r) := Restore(m, ROOT);
            && Single(m')
            && (r.Tasks? <==> ROOT in snap.prefixes)
            && (!r.Tasks? ==> m' == m && r.NotFound? && ROOT !in m'.prefixes)
            && (r.Tasks? ==>
                  && ROOT in m'.prefixes
                  && r.listDone == ListDone(snap.prefixes) == ListDone(m'.prefixes)
                  && r.tasks.Keys == Held(m'.prefixes) == Held(snap.prefixes) - {""} == m'.keyPrefix.Keys
                  && Within(snap.prefixes, m'.prefixes)
                  && (forall k :: k in r.tasks ==> r.tasks[k] in TaskKinds(snap.prefixes, k))
                  && LastOf(m'.prefixes) == m.prefixes[ROOT].last == LastOf(snap.prefixes))
  {}

  // ---- The invariant -------------------------------------------------------------------------------

  ghost function JobKeys(jobs: seq<Job>): set<Key> {
    set j | j in jobs :: j.key
  }

  /** The task that is in the checkpoint already but not in the queue yet. */
  ghost function MidSend(s: State): set<Key> {
    if s.stage > 0 && s.prog != [] && s.prog[0].Send? then {s.prog[0].key} else {}
  }

  function Rest(s: State): seq<Action> {
    if s.stage > 0 && s.prog != [] then s.prog[1..] else s.prog
  }

  ghost predicate Below(ks: set<Key>, t: seq<Action>) {
    forall k :: k in ks ==> Above(t, k)
  }

  ghost predicate UpTo(ks: set<Key>, last: Key) {
    forall k :: k in ks ==> AtMost(k, last)
  }

  /** The tasks that workers have are those the checkpoint holds, each once and each tracked. */
  ghost predicate TasksInv(s: State) {
    && Single(s.mgr) && Distinct(s.jobs)
    && Active(s.jobs) <= Held(s.mgr.prefixes) <= JobKeys(s.jobs) + MidSend(s)
    && MidSend(s) <= Held(s.mgr.prefixes)
    && Active(s.jobs) <= s.mgr.keyPrefix.Keys && (s.stage == 2 ==> MidSend(s) <= s.mgr.keyPrefix.Keys)
    && JobKeys(s.jobs) !! s.delayed
  }

  /** A send or a delay in mid-course concerns a key that was never left behind before. */
  ghost predicate MidInv(s: State) {
    && s.prog != [] && s.prog[0].key !in JobKeys(s.jobs)
    && if s.prog[0].Send? then s.stage <= 2 && s.prog[0].key !in s.delayed
       else s.prog[0].DelaySrc? && s.stage == 1 && s.prog[0].key in s.delayed && s.prog[0].key !in Held(s.mgr.prefixes)
  }

  /** What the producer has yet to say lies above all tasks and delayed directories. */
  ghost predicate ProgInv(s: State) {
    && Climbs(Rest(s)) && Below(JobKeys(s.jobs) + s.delayed + Held(s.mgr.prefixes), Rest(s))
    && (s.stage > 0 ==> MidInv(s))
    && (s.fin ==> s.prog == []) && (ListDone(s.mgr.prefixes) ==> s.fin)
  }

  /** The last listed key has been reached by everything outstanding. */
  ghost predicate FileInv(ps: map<Key, PrefixState>, delayed: set<Key>) {
    && ps.Keys <= {ROOT} && delayed !! Held(ps)
    && (ROOT in ps ==> UpTo(delayed + Held(ps), LastOf(ps)))
  }

  ghost predicate SaverFile(saver: Saver) {
    match saver
    case Idle => true
    case HasPrefixes(ps, _, delayed, _) => FileInv(ps, delayed)
    case HasSrcDelay(ps, _, delayed, _, _, _) => FileInv(ps, delayed)
    case Ready(d) => FileInv(d.snap.prefixes, d.delayed)
  }

  ghost predicate LiveOrder(s: State) {
    TasksInv(s) && ProgInv(s) && FileInv(s.mgr.prefixes, s.delayed) && SaverFile(s.saver)
  }

  ghost predicate OrderInv(s: State) {
    && (s.mode.Running? ==> LiveOrder(s))
    && (s.disk.Some? ==> FileInv(s.disk.value.snap.prefixes, s.disk.value.delayed))
  }

  // ---- The producer ----------------------------------------------------------------------------------

  /** The key of an action that moves the last listed key is new. */
  lemma NextKeyIsNew(s: State)
    requires TasksInv(s) && ProgInv(s) && s.prog != [] && s.stage == 0
    ensures UpTo(s.delayed + Held(s.mgr.prefixes), s.prog[0].key)
    ensures s.prog[0].key !in JobKeys(s.jobs) + s.delayed + Held(s.mgr.prefixes)
  {
    assert s.prog[0] in Rest(s);
    LessIrreflexive(s.prog[0].key);
  }

  /** Taking the first action off keeps the rest above all keys, and above its own if it is recorded. */
  lemma Popped(s: State)
    requires ProgInv(s) && s.prog != [] && s.stage == 0
    ensures Climbs(s.prog[1..]) && Below(JobKeys(s.jobs) + s.delayed + Held(s.mgr.prefixes), s.prog[1..])
    ensures Records(s.prog[0]) && !s.prog[0].Ignore? ==> Above(s.prog[1..], s.prog[0].key)
  {}

  lemma PassKeepsOrder(env: Env, s: State)
    requires LiveOrder(s) && !s.fin && s.prog != [] && s.stage == 0 && (s.prog[0].Ignore? || s.prog[0].Skip?)
    ensures LiveOrder(ProduceStep(env, s))
  {
    hide Climbs, Less, UpdateLast, SaverFile, Active, JobKeys, Distinct, Held, LastOf, UpTo, Below;
    NextKeyIsNew(s);
    Popped(s);
    UpdateLastEffect(s.mgr, s.prog[0].key);
  }

  lemma OpenKeepsOrder(env: Env, s: State)
    requires LiveOrder(s) && !s.fin && s.prog != [] && s.stage == 0 && s.prog[0].DelaySrc?
    ensures LiveOrder(ProduceStep(env, s))
  {
    hide Climbs, Less, UpdateLast, SaverFile, Active, JobKeys, Distinct, Above;
    NextKeyIsNew(s);
    Popped(s);
    UpdateLastEffect(s.mgr, s.prog[0].key);
  }

  lemma DelayKeepsOrder(env: Env, s: State)
    requires LiveOrder(s) && !s.fin && s.prog != []
        && ((s.prog[0].DelaySrc? && s.stage > 0) || s.prog[0].DelayDst? || s.prog[0].Extra?)
    ensures LiveOrder(ProduceStep(env, s))
  {
    hide Climbs, Less, SaverFile;
    if s.stage == 0 { Popped(s); }
  }

  lemma PendKeepsOrder(env: Env, s: State)
    requires LiveOrder(s) && !s.fin && s.prog != [] && s.prog[0].Send? && s.stage == 0
    ensures LiveOrder(ProduceStep(env, s))
  {
    hide Climbs, Less, AddPending, SaverFile;
    NextKeyIsNew(s);
    Popped(s);
    AddPendingEffect(s.mgr, s.prog[0].key, s.prog[0].kind);
  }

  lemma TrackKeepsOrder(env: Env, s: State)
    requires LiveOrder(s) && !s.fin && s.prog != [] && s.prog[0].Send? && s.stage == 1
    ensures LiveOrder(ProduceStep(env, s))
  {
    hide Climbs, Less, SaverFile, UpTo, Below, Held, LastOf;
  }

  lemma QueueKeepsOrder(env: Env, s: State)
    requires LiveOrder(s) && !s.fin && s.prog != [] && s.prog[0].Send? && s.stage > 1
    ensures LiveOrder(ProduceStep(env, s))
  {
    hide Climbs, Less, SaverFile, UpTo, Held, LastOf, Active, JobKeys, Distinct, Above;
    var j := Job(s.prog[0].key, s.prog[0].kind, Queued, false);
    ActiveSnoc(s.jobs, j);
    QueuedJobs(s.jobs, j);
    assert j.key in Held(s.mgr.prefixes);
  }

  lemma QueuedJobs(jobs: seq<Job>, j: Job)
    requires Distinct(jobs) && j.key !in JobKeys(jobs)
    ensures Distinct(jobs + [j]) && JobKeys(jobs + [j]) == JobKeys(jobs) + {j.key}
  {
    forall i | 0 <= i < |jobs| ensures jobs[i].key in JobKeys(jobs) { assert jobs[i] in jobs; }
  }

  lemma ActiveSnoc(jobs: seq<Job>, j: Job)
    requires !j.phase.Ended?
    ensures Active(jobs + [j]) == Active(jobs) + {j.key}
  {
    forall k | k in Active(jobs) ensures k in Active(jobs + [j]) {
      var i :| 0 <= i < |jobs| && !jobs[i].phase.Ended? && jobs[i].key == k;
      assert (jobs + [j])[i] == jobs[i];
    }
    assert (jobs + [j])[|jobs|] == j;
  }

  lemma EndKeepsOrder(env: Env, s: State)
    requires LiveOrder(s) && !s.fin && s.prog == []
    ensures LiveOrder(ProduceStep(env, s))
  {
    hide MarkListDone, Less, SaverFile;
    ListDoneEffect(s.mgr);
  }

  lemma ProduceKeepsOrder(env: Env, s: State)
    requires LiveOrder(s)
    ensures LiveOrder(ProduceStep(env, s))
  {
    hide LiveOrder;
    if !s.fin { ProduceCases(env, s); }
  }

  lemma ProduceCases(env: Env, s: State)
    requires LiveOrder(s) && !s.fin
    ensures LiveOrder(ProduceStep(env, s))
  {
    hide ProduceStep;
    if s.prog == [] { EndKeepsOrder(env, s); }
    else if s.prog[0].Send? {
      if s.stage == 0 { PendKeepsOrder(env, s); }
      else if s.stage == 1 { TrackKeepsOrder(env, s); }
      else { QueueKeepsOrder(env, s); }
    }
    else if s.stage == 0 && (s.prog[0].Ignore? || s.prog[0].Skip?) { PassKeepsOrder(env, s); }
    else if s.stage == 0 && s.prog[0].DelaySrc? { OpenKeepsOrder(env, s); }
    else { DelayKeepsOrder(env, s); }
  }

  // ---- The workers -----------------------------------------------------------------------------------

  lemma ActiveUpdate(jobs: seq<Job>, i: nat, j: Job)
    requires i < |jobs| && !jobs[i].phase.Ended? && j.key == jobs[i].key && Distinct(jobs)
    ensures var jobs' := jobs[i := j];
            && Active(jobs') == (if j.phase.Ended? then Active(jobs) - {j.key} else Active(jobs))
            && JobKeys(jobs') == JobKeys(jobs) && Distinct(jobs') && j.key in Active(jobs)
  {
    var jobs' := jobs[i := j];
    forall k | k in Active(jobs) && (k != j.key || !j.phase.Ended?) ensures k in Active(jobs') {
      var n :| 0 <= n < |jobs| && !jobs[n].phase.Ended? && jobs[n].key == k;
      assert jobs'[n].key == k;
    }
    forall k | k in Active(jobs') ensures k in Active(jobs) && (j.phase.Ended? ==> k != j.key) {
      var n :| 0 <= n < |jobs'| && !jobs'[n].phase.Ended? && jobs'[n].key == k;
      assert jobs[n].key == k;
    }
    forall k | k in JobKeys(jobs) ensures k in JobKeys(jobs') {
      var n :| 0 <= n < |jobs| && jobs[n].key == k;
      assert jobs'[n].key == k;
    }
    forall k | k in JobKeys(jobs') ensures k in JobKeys(jobs) {
      var n :| 0 <= n < |jobs'| && jobs'[n].key == k;
      assert jobs[n].key == k;
    }
  }

  /** A step of a worker leaves the producer and the saver alone. */
  ghost predicate Aside(s: State, s': State) {
    s'.prog == s.prog && s'.stage == s.stage && s'.fin == s.fin && s'.delayed == s.delayed && s'.saver == s.saver
  }

  lemma AdvanceKeepsOrder(s: State, s': State, i: nat, j: Job)
    requires LiveOrder(s) && Aside(s, s') && s'.mgr == s.mgr
    requires i < |s.jobs| && !s.jobs[i].phase.Ended? && s'.jobs == s.jobs[i := j]
    requires j.key == s.jobs[i].key && !j.phase.Ended?
    ensures LiveOrder(s')
  {
    hide Climbs, Less, SaverFile, UpTo, Held, LastOf, Active, JobKeys, Distinct, Below;
    ActiveUpdate(s.jobs, i, j);
  }

  lemma CompleteKeepsOrder(s: State, s': State, i: nat, j: Job)
    requires LiveOrder(s) && Aside(s, s') && i < |s.jobs| && !s.jobs[i].phase.Ended? && s'.jobs == s.jobs[i := j]
    requires j.key == s.jobs[i].key && j.phase.Ended? && s'.mgr == MarkCompleted(s.mgr, j.key)
    ensures LiveOrder(s') && j.key !in Held(s'.mgr.prefixes)
  {
    hide Climbs, Less, SaverFile, LastOf, Active, Distinct, MarkCompleted, Below, UpTo, Held, JobKeys;
    ActiveUpdate(s.jobs, i, j);
    InHeld(s.mgr, j.key);
    CompletedEffect(s.mgr, j.key);
    IsJob(s.jobs, i);
    var held, held' := Held(s.mgr.prefixes), Held(s'.mgr.prefixes);
    assert s.delayed + held' <= s.delayed + held;
    FewerUpTo(s.delayed + held, s.delayed + held', LastOf(s.mgr.prefixes));
    FewerBelow(JobKeys(s.jobs) + s.delayed + held, JobKeys(s.jobs) + s.delayed + held', Rest(s));
  }

  lemma InHeld(m: Mgr, k: Key)
    requires k in Held(m.prefixes)
    ensures ROOT in m.prefixes
  {}

  lemma IsJob(jobs: seq<Job>, i: nat)
    requires i < |jobs|
    ensures jobs[i].key in JobKeys(jobs)
  {
    assert jobs[i] in jobs;
  }

  lemma FewerUpTo(ks: set<Key>, ks': set<Key>, last: Key)
    requires UpTo(ks, last) && ks' <= ks
    ensures UpTo(ks', last)
  {}

  lemma FewerBelow(ks: set<Key>, ks': set<Key>, t: seq<Action>)
    requires Below(ks, t) && ks' <= ks
    ensures Below(ks', t)
  {}

  lemma FailKeepsOrder(s: State, s': State, i: nat, j: Job)
    requires LiveOrder(s) && Aside(s, s') && i < |s.jobs| && !s.jobs[i].phase.Ended? && s'.jobs == s.jobs[i := j]
    requires j.key == s.jobs[i].key && j.phase.Ended? && s'.mgr == MarkFailed(s.mgr, j.key)
    ensures LiveOrder(s')
  {
    hide Climbs, Less, SaverFile, UpTo, Held, LastOf, Active, JobKeys, Distinct, Below, MarkFailed;
    ActiveUpdate(s.jobs, i, j);
    FailedEffect(s.mgr, j.key);
    InHeld(s.mgr, j.key);
  }

  lemma WorkKeepsOrder(env: Env, s: State, i: nat, good: bool, equal: bool)
    requires LiveOrder(s) && i < |s.jobs|
    ensures LiveOrder(WorkStep(env, s, i, good, equal))
  {
    hide LiveOrder, MarkCompleted, MarkFailed, Delays;
    var s' := WorkStep(env, s, i, good, equal);
    match s.jobs[i].phase
    case Logged => CompleteKeepsOrder(s, s', i, s'.jobs[i]);
    case Erred => FailKeepsOrder(s, s', i, s'.jobs[i]);
    case Ended =>
    case _ => AdvanceKeepsOrder(s, s', i, s'.jobs[i]);
  }

  // ---- Starting ----------------------------------------------------------------------------------------

  lemma {:induction false} AfterIsSuffix(full: seq<Obj>, last: Key)
    requires Sorted(full)
    ensures var r := After(full, last);
            && |r| <= |full| && r == full[|full|-|r|..] && Sorted(r)
            && (last == "" ==> r == full)
            && (forall i :: 0 <= i < |full| - |r| ==> last != "" && !Less(last, full[i].key))
            && (last != "" ==> forall i :: 0 <= i < |r| ==> Less(last, r[i].key))
  {
    if full == [] || last == "" {
    } else if Less(last, full[0].key) {
      forall i | 0 < i < |full| ensures Less(last, full[i].key) { LessTransitive(last, full[0].key, full[i].key); }
    } else {
      AfterIsSuffix(full[1..], last);
      var r := After(full[1..], last);
      assert full[1..][|full[1..]|-|r|..] == full[|full|-|r|..];
    }
  }

  lemma {:induction false} AfterCovers(env: Env, last: Key, k: Key)
    requires Well(env) && k in KeysOf(env.full) && (last == "" || Less(last, k))
    ensures k in KeysOf(After(env.full, last))
  {
    var i :| 0 <= i < |env.full| && env.full[i].key == k;
    AfterIsSuffix(env.full, last);
    var r := After(env.full, last);
    assert env.full[i] == r[i - (|env.full| - |r|)];
  }

  /** A started process has in front of it the trace of two listings after the last listed key. */
  lemma StartFeeds(env: Env, gone: set<Key>, last: Key, l: Label)
    requires Well(env) && l.Start? && CanStart(env, gone, last, l.whole, l.src, l.dst, l.dfull)
    ensures Feeds(l.src, l.whole, l.dst, l.dfull)
    ensures last != "" ==> SrcAbove(l.whole, last) && DstAbove(l.dfull, last)
  {
    AfterIsSuffix(env.full, last);
    var r := After(env.full, last);
    forall i, j | 0 <= i < j < |l.whole| ensures Less(l.whole[i].item.obj.key, l.whole[j].item.obj.key) {
      assert l.whole[i].item.obj == r[i] && l.whole[j].item.obj == r[j];
    }
  }

  lemma BeginKeepsOrder(env: Env, s: State, mgr: Mgr, jobs: seq<Job>, last: Key, l: Label, owed: set<Key>,
                        srcDelay: seq<Key>, dstDelay: seq<Key>, recorded: bool)
    requires Well(env) && OrderInv(s) && s.mode.Stopped? && l.Start?
    requires Single(mgr) && Distinct(jobs) && !ListDone(mgr.prefixes) && LastOf(mgr.prefixes) == last
    requires Active(jobs) == JobKeys(jobs) == Held(mgr.prefixes) <= mgr.keyPrefix.Keys
    requires UpTo(Held(mgr.prefixes), last) && "" !in Held(mgr.prefixes)
    ensures OrderInv(Begin(env, s, mgr, jobs, last, l, owed, srcDelay, dstDelay, recorded))
  {
    hide Climbs, Merge, Feeds, CanStart;
    if CanStart(env, s.gone, last, l.whole, l.src, l.dst, l.dfull) {
      StartFeeds(env, s.gone, last, l);
      MergeClimbs(l.src, l.whole, l.dst, l.dfull, env.c);
      if last != "" {
        TraceAbove(l.src, l.whole, l.dst, l.dfull, env.c, last);
        BelowLast(Held(mgr.prefixes), last, Merge(l.src, l.dst, env.c).trace);
      }
      assert JobKeys(jobs) + {} + Held(mgr.prefixes) == Held(mgr.prefixes);
      assert {} + Held(mgr.prefixes) == Held(mgr.prefixes);
    }
  }

  lemma BelowLast(ks: set<Key>, last: Key, t: seq<Action>)
    requires UpTo(ks, last) && Above(t, last)
    ensures Below(ks, t)
  {
    forall k, a | k in ks && a in t ensures Less(k, a.key) {
      if k != last { LessTransitive(k, last, a.key); }
    }
  }

  lemma NoJobs()
    ensures Active([]) == {} && JobKeys([]) == {}
  {}

  /** A restart that lists nothing. */
  lemma IdlingKeepsOrder(s: State, mgr: Mgr, jobs: seq<Job>, d: Saved, recorded: bool)
    requires OrderInv(s) && s.mode.Stopped? && Single(mgr) && Distinct(jobs)
    requires Active(jobs) == JobKeys(jobs) == Held(mgr.prefixes) <= mgr.keyPrefix.Keys
    requires UpTo(Held(mgr.prefixes), LastOf(mgr.prefixes))
    ensures OrderInv(Idling(s, mgr, jobs, d, recorded))
  {
    assert {} + Held(mgr.prefixes) == Held(mgr.prefixes);
  }

  /** The restored manager and its queue. */
  lemma RestoredOrder(d: Saved)
    requires FileInv(d.snap.prefixes, d.delayed)
    ensures var (mgr, r) := Restore(Load(d.snap), ROOT);
      var jobs := if r.Tasks? then Requeue(r.tasks, r.tasks.Keys) else [];
      && Single(mgr) && Distinct(jobs) && "" !in Held(mgr.prefixes)
      && Active(jobs) == JobKeys(jobs) == Held(mgr.prefixes) <= mgr.keyPrefix.Keys
      && UpTo(Held(mgr.prefixes), LastOf(mgr.prefixes))
      && forall j :: j in jobs ==> j.phase.Queued?
  {
    hide Restore, Load, Requeue;
    RestoreEffect(d.snap);
    NoJobs();
    var (mgr, r) := Restore(Load(d.snap), ROOT);
    if r.Tasks? {
      var jobs := Requeue(r.tasks, r.tasks.Keys);
      Requeued(r.tasks, r.tasks.Keys);
      QueuedAreActive(jobs);
    }
  }

  lemma QueuedAreActive(jobs: seq<Job>)
    requires forall j :: j in jobs ==> j.phase.Queued?
    ensures Active(jobs) == JobKeys(jobs)
  {
    forall k | k in Active(jobs) ensures k in JobKeys(jobs) {
      var i :| 0 <= i < |jobs| && jobs[i].key == k;
      assert jobs[i] in jobs;
    }
    forall k | k in JobKeys(jobs) ensures k in Active(jobs) {
      var i :| 0 <= i < |jobs| && jobs[i].key == k;
      assert jobs[i] in jobs;
    }
  }

  lemma StartKeepsOrder(env: Env, s: State, l: Label)
    requires Well(env) && OrderInv(s) && s.mode.Stopped? && l.Start?
    ensures OrderInv(StartStep(env, s, l))
  {
    hide OrderInv, Restore, Load, Requeue, Begin, Idling, Usable, UpTo;
    NoJobs();
    if s.disk.None? || !Usable(s.disk.value.snap) {
      EmptyOrder();
      BeginKeepsOrder(env, s, EmptyMgr, [], "", l, {}, [], [], false);
    } else {
      var d := s.disk.value;
      DiskFile(s);
      RestoredOrder(d);
      RestoreEffect(d.snap);
      var (mgr, r) := Restore(Load(d.snap), ROOT);
      match r
      case Tasks(tasks, listDone, _) =>
        var jobs := Requeue(tasks, tasks.Keys);
        if listDone { IdlingKeepsOrder(s, mgr, jobs, d, true); }
        else { BeginKeepsOrder(env, s, mgr, jobs, LastOf(mgr.prefixes), l, StillOwed(d), d.snap.srcDelay,
               d.snap.dstDelay, true); }
      case _ => IdlingKeepsOrder(s, mgr, [], d, d.recorded);
    }
  }

  lemma EmptyOrder()
    ensures Single(EmptyMgr) && Held(EmptyMgr.prefixes) == {} && UpTo({}, "") && Distinct([])
  {}

  lemma DiskFile(s: State)
    requires OrderInv(s) && s.disk.Some?
    ensures FileInv(s.disk.value.snap.prefixes, s.disk.value.delayed)
  {}

  // ---- Every step and every run --------------------------------------------------------------------------

  /** Producer and workers leave the mode, the file and the save in progress alone. */
  lemma ProduceFrame(env: Env, s: State)
    ensures var s' := ProduceStep(env, s); s'.disk == s.disk && s'.saver == s.saver && s'.mode == s.mode
  {
    hide MarkListDone, UpdateLast, AddPending, Track;
  }

  lemma WorkFrame(env: Env, s: State, i: nat, good: bool, equal: bool)
    requires i < |s.jobs|
    ensures var s' := WorkStep(env, s, i, good, equal); s'.disk == s.disk && s'.saver == s.saver && s'.mode == s.mode
  {
    hide MarkCompleted, MarkFailed, Delays;
  }

  /** The producer takes its actions one by one and queues a task for each send. */
  lemma ProduceMoves(env: Env, s: State)
    ensures var s' := ProduceStep(env, s);
      && (s'.prog == s.prog || (s.prog != [] && s'.prog == s.prog[1..]))
      && (s'.jobs == s.jobs || (s.prog != [] && s'.jobs == s.jobs + [Job(s.prog[0].key, NextKind(s), Queued, false)]))
  {
    hide MarkListDone, UpdateLast, AddPending, Track;
  }

  function NextKind(s: State): Kind {
    if s.prog != [] && s.prog[0].Send? then s.prog[0].kind else Copy
  }

  lemma ProduceAside(env: Env, s: State)
    ensures var s' := ProduceStep(env, s); s'.base == s.base && s'.owed == s.owed && s'.stranded == s.stranded
  {
    hide MarkListDone, UpdateLast, AddPending, Track;
  }

  /** The producer only ever appends to the lists of delayed deletions. */
  lemma ProduceLists(env: Env, s: State)
    ensures var s' := ProduceStep(env, s);
      && (s'.srcDelay == s.srcDelay
          || (s.prog != [] && s.prog[0].DelaySrc? && s'.srcDelay == s.srcDelay + [s.prog[0].key]))
      && (s'.dstDelay == s.dstDelay || (s.prog != [] && s.prog[0].DelayDst?))
      && (s'.delayed == s.delayed || (s.prog != [] && s.prog[0].DelaySrc?))
  {
    hide MarkListDone, UpdateLast, AddPending, Track;
  }

  lemma WorkMoves(env: Env, s: State, i: nat, good: bool, equal: bool)
    requires i < |s.jobs|
    ensures var s' := WorkStep(env, s, i, good, equal);
      |s'.jobs| == |s.jobs| && s'.jobs == s.jobs[i := s'.jobs[i]] && s'.jobs[i].key == s.jobs[i].key
  {
    hide MarkCompleted, MarkFailed, Delays;
    assert s.jobs[i := s.jobs[i]] == s.jobs;
  }

  lemma WorkAside(env: Env, s: State, i: nat, good: bool, equal: bool)
    requires i < |s.jobs|
    ensures Aside(s, WorkStep(env, s, i, good, equal))
  {
    hide MarkCompleted, MarkFailed, Delays;
  }

  lemma WorkLists(env: Env, s: State, i: nat, good: bool, equal: bool)
    requires i < |s.jobs|
    ensures var s' := WorkStep(env, s, i, good, equal);
      && s'.base == s.base && s'.stranded == s.stranded && s'.dstDelay == s.dstDelay
      && (s'.srcDelay == s.srcDelay || (Delays(env, s.jobs[i]) && s'.srcDelay == s.srcDelay + [s.jobs[i].key]))
  {
    hide MarkCompleted, MarkFailed, Delays;
  }

  lemma SaveKeepsOrder(env: Env, s: State, l: Label)
    requires OrderInv(s) && s.mode.Running?
        && (l.SaveBegin? || l.SaveSrcDelay? || l.SaveDstDelay? || l.SavePut? || l.Crash?)
    ensures OrderInv(Next(env, s, l))
  {
    hide LiveOrder, FileInv;
    LiveFile(s);
    if SaverFile(Next(env, s, l).saver) { SaverKeepsOrder(s, Next(env, s, l)); }
  }

  lemma FinishKeepsOrder(env: Env, s: State)
    requires OrderInv(s) && s.mode.Running?
    ensures OrderInv(Next(env, s, Finish))
  {
    hide LiveOrder, FileInv;
    LiveFile(s);
  }

  lemma LiveFile(s: State)
    requires LiveOrder(s)
    ensures FileInv(s.mgr.prefixes, s.delayed) && SaverFile(s.saver)
  {}

  lemma SaverKeepsOrder(s: State, s': State)
    requires LiveOrder(s) && SaverFile(s'.saver) && s' == s.(saver := s'.saver, disk := s'.disk, mode := s'.mode)
    ensures LiveOrder(s')
  {
    hide Climbs, Less, Below, UpTo, SaverFile;
  }

  lemma ProducerKeepsOrder(env: Env, s: State)
    requires OrderInv(s) && s.mode.Running?
    ensures OrderInv(Next(env, s, Produce))
  {
    hide ProduceStep, LiveOrder, FileInv;
    ProduceKeepsOrder(env, s);
    ProduceFrame(env, s);
  }

  lemma WorkerKeepsOrder(env: Env, s: State, i: nat, good: bool, equal: bool)
    requires OrderInv(s) && s.mode.Running? && i < |s.jobs|
    ensures OrderInv(Next(env, s, Work(i, good, equal)))
  {
    hide WorkStep, LiveOrder, FileInv;
    WorkKeepsOrder(env, s, i, good, equal);
    WorkFrame(env, s, i, good, equal);
  }

  lemma NextKeepsOrder(env: Env, s: State, l: Label)
    requires Well(env) && OrderInv(s)
    ensures OrderInv(Next(env, s, l))
  {
    hide ProduceStep, WorkStep, StartStep, OrderInv;
    match l {
      case Start(_, _, _, _) =>
        if s.mode.Stopped? { StartKeepsOrder(env, s, l); assert Next(env, s, l) == StartStep(env, s, l); }
      case Produce => if s.mode.Running? { ProducerKeepsOrder(env, s); }
      case Work(i, good, equal) => if s.mode.Running? && i < |s.jobs| { WorkerKeepsOrder(env, s, i, good, equal); }
      case Finish => if s.mode.Running? { FinishKeepsOrder(env, s); }
      case _ => if s.mode.Running? { SaveKeepsOrder(env, s, l); }
    }
  }

  lemma {:induction false} RunKeepsOrder(env: Env, s: State, labels: seq<Label>)
    requires Well(env) && OrderInv(s)
    ensures OrderInv(Run(env, s, labels))
    decreases |labels|
  {
    hide OrderInv, Next;
    if labels != [] {
      NextKeepsOrder(env, s, labels[0]);
      RunKeepsOrder(env, Next(env, s, labels[0]), labels[1..]);
    }
  }
}

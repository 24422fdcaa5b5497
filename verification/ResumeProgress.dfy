/** No run gets stuck: from every state a process can reach it can go on to its end. */
module ResumeProgress {
  import opened Keys
  import opened Producer
  import opened MergeJoin
  import opened Checkpoint
  import opened CrashResume
  import opened ResumeOrder
  import opened Resume
  import T = ResumeTheorems

  /** Running one run after another. */
  lemma {:induction false} RunConcat(env: Env, s: State, a: seq<Label>, b: seq<Label>)
    ensures Run(env, s, a + b) == Run(env, Run(env, s, a), b)
    decreases |a|
  {
    hide Next;
    if a == [] {
      assert a + b == b;
    } else {
      assert (a + b)[0] == a[0] && (a + b)[1..] == a[1..] + b;
      RunConcat(env, Next(env, s, a[0]), a[1..], b);
    }
  }

  ghost predicate Leads(env: Env, s: State, t: State) {
    exists labels: seq<Label> :: Run(env, s, labels) == t
  }

  lemma LeadsOn(env: Env, s: State, t: State, u: State)
    requires Leads(env, s, t) && Leads(env, t, u)
    ensures Leads(env, s, u)
  {
    hide Run;
    var a: seq<Label> :| Run(env, s, a) == t;
    var b: seq<Label> :| Run(env, t, b) == u;
    RunConcat(env, s, a, b);
  }

  lemma LeadsOne(env: Env, s: State, l: Label)
    ensures Leads(env, s, s) && Leads(env, s, Next(env, s, l))
  {
    hide Next;
    assert Run(env, s, []) == s;
    assert [l][1..] == [];
    assert Run(env, s, [l]) == Run(env, Next(env, s, l), []) == Next(env, s, l);
  }

  // ---- The saver ---------------------------------------------------------------------------------------

  lemma SaveSteps(env: Env, s: State)
    requires s.mode.Running?
    ensures var a := Next(env, s, SaveSrcDelay); a == s.(saver := a.saver) && !a.saver.HasPrefixes?
    ensures var b := Next(env, s, SaveDstDelay);
      b == s.(saver := b.saver) && (!s.saver.HasPrefixes? ==> !b.saver.HasPrefixes? && !b.saver.HasSrcDelay?)
    ensures var t := Next(env, s, SavePut);
      t == s.(saver := t.saver, disk := t.disk) && (s.saver.Idle? || s.saver.Ready? ==> t.saver == Idle)
  {}

  /** A save that has begun can be finished, which touches nothing but the file. */
  lemma SaverEnds(env: Env, s: State)
    requires Well(env) && Inv(env, s) && s.mode.Running?
    ensures exists t: State :: Leads(env, s, t) && Inv(env, t) && t == s.(saver := Idle, disk := t.disk)
  {
    hide Inv, Leads, Next;
    var a := Next(env, s, SaveSrcDelay);
    var b := Next(env, a, SaveDstDelay);
    var t := Next(env, b, SavePut);
    LeadsOne(env, s, SaveSrcDelay);
    LeadsOne(env, a, SaveDstDelay);
    LeadsOne(env, b, SavePut);
    LeadsOn(env, s, a, b);
    LeadsOn(env, s, b, t);
    NextKeeps(env, s, SaveSrcDelay);
    NextKeeps(env, a, SaveDstDelay);
    NextKeeps(env, b, SavePut);
    SaveSteps(env, s);
    SaveSteps(env, a);
    SaveSteps(env, b);
    assert t == s.(saver := Idle, disk := t.disk);
  }

  // ---- The producer --------------------------------------------------------------------------------------

  /** What the producer has left to do. */
  ghost function Ahead(s: State): nat {
    if s.fin then 0 else 1 + 4 * |s.prog| - Min(s.stage, 4 * |s.prog|)
  }

  function Min(a: nat, b: nat): nat {
    if a <= b then a else b
  }

  /** A statement under way is a send or a delay, at one of its steps. */
  ghost predicate InCourse(s: State) {
    s.stage > 0 ==> s.prog != [] && if s.prog[0].Send? then s.stage <= 2 else s.prog[0].DelaySrc? && s.stage == 1
  }

  lemma StageIs(env: Env, s: State)
    requires Inv(env, s) && s.mode.Running?
    ensures InCourse(s)
    ensures s.fin ==> s.prog == []
  {
    hide Held, Active, TraceInv, Sides, JobsOk, KindsOk, SaverInv, StrandedInv, TasksInv;
  }

  /** A statement of the producer, seen from what it has left. */
  lemma LessAhead(env: Env, s: State)
    requires !s.fin
    requires InCourse(s)
    ensures var t := ProduceStep(env, s); Ahead(t) < Ahead(s) && t.failures == s.failures && t.ok == s.ok
  {
    hide MarkListDone, AddPending, UpdateLast, Track;
  }

  lemma ProducerMoves(env: Env, s: State)
    requires Inv(env, s) && s.mode.Running? && s.saver.Idle? && !s.fin
    ensures var t := Next(env, s, Produce);
      && Ahead(t) < Ahead(s) && t.mode.Running? && t.saver.Idle? && t.failures == s.failures && t.ok == s.ok
      && t.stranded == s.stranded
  {
    hide Inv, Waits, ProduceStep, Ahead;
    StageIs(env, s);
    NoWaiting(s, ProduceStep(env, s));
    LessAhead(env, s);
    ProduceFrame(env, s);
    ProduceAside(env, s);
  }

  lemma NoWaiting(s: State, t: State)
    requires s.saver.Idle?
    ensures !Waits(s, t)
  {}

  lemma {:induction false} ProducerEnds(env: Env, s: State)
    requires Well(env) && Inv(env, s) && s.mode.Running? && s.saver.Idle?
    ensures exists t: State :: Leads(env, s, t) && Inv(env, t) && t.mode.Running? && t.saver.Idle? && t.fin
                               && t.failures == s.failures && t.ok == s.ok && t.stranded == s.stranded
    decreases Ahead(s)
  {
    hide Inv, Next, Leads;
    LeadsOne(env, s, Produce);
    if !s.fin {
      ProducerMoves(env, s);
      var next := Next(env, s, Produce);
      NextKeeps(env, s, Produce);
      ProducerEnds(env, next);
      var t: State :| Leads(env, next, t) && Inv(env, t) && t.mode.Running? && t.saver.Idle? && t.fin
                      && t.failures == next.failures && t.ok == next.ok && t.stranded == next.stranded;
      LeadsOn(env, s, next, t);
    }
  }

  // ---- The workers ---------------------------------------------------------------------------------------

  function Steps(p: Phase): nat {
    match p
    case Queued => 3
    case Succeeded => 2
    case Logged => 1
    case Erred => 1
    case Ended => 0
  }

  function StepsLeft(jobs: seq<Job>): nat {
    if jobs == [] then 0 else Steps(jobs[0].phase) + StepsLeft(jobs[1..])
  }

  lemma {:induction false} OneLess(jobs: seq<Job>, i: nat, j: Job)
    requires i < |jobs| && Steps(j.phase) < Steps(jobs[i].phase)
    ensures StepsLeft(jobs[i := j]) < StepsLeft(jobs)
  {
    if i == 0 {
      assert jobs[0 := j][1..] == jobs[1..];
    } else {
      assert jobs[i := j][1..] == jobs[1..][i - 1 := j] && jobs[i := j][0] == jobs[0];
      OneLess(jobs[1..], i - 1, j);
    }
  }

  lemma PhaseMoves(env: Env, s: State, i: nat)
    requires i < |s.jobs| && !s.jobs[i].phase.Ended?
    ensures var t := WorkStep(env, s, i, true, false);
      && t.jobs == s.jobs[i := t.jobs[i]] && Steps(t.jobs[i].phase) < Steps(s.jobs[i].phase)
      && t.failures == s.failures && t.ok == s.ok && t.fin == s.fin && t.prog == s.prog && t.stranded == s.stranded
  {
    hide MarkCompleted, MarkFailed, Delays;
  }

  /** Tasks that all go well are done and taken off the checkpoint. */
  lemma {:induction false} WorkersEnd(env: Env, s: State)
    requires Well(env) && Inv(env, s) && s.mode.Running? && s.saver.Idle? && s.fin
    ensures exists t: State :: Leads(env, s, t) && Inv(env, t) && t.mode.Running? && t.saver.Idle? && t.fin
                               && t.failures == s.failures && t.ok == s.ok && t.stranded == s.stranded
                               && AllEnded(t.jobs)
    decreases StepsLeft(s.jobs)
  {
    hide Inv, Next, Leads, WorkStep;
    LeadsOne(env, s, Produce);
    if i :| 0 <= i < |s.jobs| && !s.jobs[i].phase.Ended? {
      var next := WorkStep(env, s, i, true, false);
      PhaseMoves(env, s, i);
      WorkFrame(env, s, i, true, false);
      OneLess(s.jobs, i, next.jobs[i]);
      WorkIs(env, s, i);
      LeadsOne(env, s, Work(i, true, false));
      NextKeeps(env, s, Work(i, true, false));
      WorkersEnd(env, next);
      var t: State :| Leads(env, next, t) && Inv(env, t) && t.mode.Running? && t.saver.Idle? && t.fin
                      && t.failures == next.failures && t.ok == next.ok && t.stranded == next.stranded
                      && AllEnded(t.jobs);
      LeadsOn(env, s, next, t);
    }
  }

  lemma WorkIs(env: Env, s: State, i: nat)
    requires s.mode.Running? && s.saver.Idle? && i < |s.jobs|
    ensures Next(env, s, Work(i, true, false)) == WorkStep(env, s, i, true, false)
  {
    NoWaiting(s, WorkStep(env, s, i, true, false));
    hide WorkStep, Waits;
  }

  // ---- To the end ------------------------------------------------------------------------------------------

  lemma FinishIs(env: Env, s: State)
    requires s.mode.Running? && s.fin && s.prog == [] && AllEnded(s.jobs)
    ensures var t := Next(env, s, Finish);
      && (s.failures == 0 && s.ok ==> t.mode.Completed?)
      && (s.failures > 0 || !s.ok ==> t.mode.Stopped? && t.disk == Some(FinalSave(s)))
      && t.handled == s.handled && t.stranded == s.stranded
  {}

  /** No running process is stuck, whatever has happened to it before and whatever a save is at: it can go on to
      its end, completing if no task has failed and its listings are whole, and leaving a checkpoint if not. */
  lemma {:induction false} CanFinish(env: Env, labels: seq<Label>)
    requires Well(env) && Run(env, Init, labels).mode.Running?
    ensures var s := Run(env, Init, labels);
      exists more: seq<Label> ::
        var t := Run(env, Init, labels + more);
        if s.failures == 0 && s.ok then t.mode.Completed? && t.stranded == s.stranded
        else t.mode.Stopped? && t.disk.Some?
  {
    hide Run, Next, Inv, Leads;
    T.Reached(env, labels);
    var s := Run(env, Init, labels);
    SaverEnds(env, s);
    var a: State :| Leads(env, s, a) && Inv(env, a) && a == s.(saver := Idle, disk := a.disk);
    ProducerEnds(env, a);
    var b: State :| Leads(env, a, b) && Inv(env, b) && b.mode.Running? && b.saver.Idle? && b.fin
                    && b.failures == a.failures && b.ok == a.ok && b.stranded == a.stranded;
    LeadsOn(env, s, a, b);
    WorkersEnd(env, b);
    var c: State :| Leads(env, b, c) && Inv(env, c) && c.mode.Running? && c.saver.Idle? && c.fin
                    && c.failures == b.failures && c.ok == b.ok && c.stranded == b.stranded && AllEnded(c.jobs);
    LeadsOn(env, s, b, c);
    StageIs(env, c);
    FinishIs(env, c);
    LeadsOne(env, c, Finish);
    LeadsOn(env, s, c, Next(env, c, Finish));
    Continued(env, labels, Next(env, c, Finish));
  }

  lemma {:induction false} Continued(env: Env, labels: seq<Label>, t: State)
    requires Leads(env, Run(env, Init, labels), t)
    ensures exists more: seq<Label> :: Run(env, Init, labels + more) == t
  {
    hide Run;
    var more: seq<Label> :| Run(env, Run(env, Init, labels), more) == t;
    RunConcat(env, Init, labels, more);
  }

  /** After any crash or stop a restart with whole listings can run to completion, and then every source key has been
      handled, unless the restart is stranded. */
  lemma {:induction false} RestartCanComplete(env: Env, labels: seq<Label>, l: Label)
    requires Well(env) && l.Start? && Run(env, Init, labels).mode.Stopped?
    requires l.src == l.whole && l.dst == Items(l.dfull)
    requires var t := Next(env, Run(env, Init, labels), l); t.mode.Running? && !t.stranded
    ensures exists more: seq<Label> ::
              var t := Run(env, Init, labels + [l] + more); t.mode.Completed? && KeysOf(env.full) <= t.handled
  {
    hide Next, Inv;
    T.Reached(env, labels);
    var s := Run(env, Init, labels);
    StartsWhole(env, s, l);
    OneMore(env, labels, l);
    CanFinish(env, labels + [l]);
    var more: seq<Label> :| var t := Run(env, Init, labels + [l] + more); t.mode.Completed? && !t.stranded;
    T.CompletionIff(env, labels + [l] + more);
  }

  lemma {:induction false} OneMore(env: Env, labels: seq<Label>, l: Label)
    ensures Run(env, Init, labels + [l]) == Next(env, Run(env, Init, labels), l)
  {
    hide Next;
    RunConcat(env, Init, labels, [l]);
    assert [l][1..] == [];
    assert Run(env, Run(env, Init, labels), [l]) == Run(env, Next(env, Run(env, Init, labels), l), []);
  }

  /** Whole listings leave nothing to fail. */
  lemma StartsWhole(env: Env, s: State, l: Label)
    requires s.mode.Stopped? && l.Start? && l.src == l.whole && l.dst == Items(l.dfull) && Well(env)
    requires Next(env, s, l).mode.Running?
    ensures Next(env, s, l).failures == 0 && Next(env, s, l).ok
  {
    hide Begin, Requeue, Usable, StillOwed;
    if s.disk.None? || !Usable(s.disk.value.snap) {
      BeginsWhole(env, s, EmptyMgr, [], "", l, {}, [], [], false);
    } else {
      var d := s.disk.value;
      var (mgr, restored) := Restore(Load(d.snap), ROOT);
      if restored.Tasks? && !restored.listDone {
        BeginsWhole(env, s, mgr, Requeue(restored.tasks, restored.tasks.Keys), Load(d.snap).prefixes[ROOT].last, l,
                    StillOwed(d), d.snap.srcDelay, d.snap.dstDelay, true);
      }
    }
  }

  lemma BeginsWhole(env: Env, s: State, mgr: Mgr, jobs: seq<Job>, last: Key, l: Label, owed: set<Key>,
                    srcDelay: seq<Key>, dstDelay: seq<Key>, recorded: bool)
    requires s.mode.Stopped? && l.Start? && l.src == l.whole && l.dst == Items(l.dfull) && Well(env)
    ensures var t := Begin(env, s, mgr, jobs, last, l, owed, srcDelay, dstDelay, recorded);
      t.mode.Running? ==> t.failures == 0 && t.ok
  {
    hide Merge, CanStart;
    if CanStart(env, s.gone, last, l.whole, l.src, l.dst, l.dfull) { WholeOk(env, s, last, l); }
  }

  lemma WholeOk(env: Env, s: State, last: Key, l: Label)
    requires l.Start? && l.src == l.whole && l.dst == Items(l.dfull) && Well(env)
    requires CanStart(env, s.gone, last, l.whole, l.src, l.dst, l.dfull)
    ensures Merge(l.src, l.dst, env.c).ok
  {
    hide Merge;
    AfterIsSuffix(env.full, last);
    forall i | 0 <= i < |l.src| ensures l.src[i].item == Entry(After(env.full, last)[i]) {}
    Exactness(l.src, l.dfull, env.c);
  }
}

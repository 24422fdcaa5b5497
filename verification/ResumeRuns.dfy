/** Concrete runs in which a restart leaves something behind, one for each condition of ResumeTheorems. */
module ResumeRuns {
  import opened Keys
  import opened Producer
  import opened MergeJoin
  import opened Checkpoint
  import opened CrashResume

  const Flags := Config(true, false, false, false, false, false, false, false, false, false, false, false, None)

  function Dir(k: Key): Obj {
    Obj(k, 0, 0, true, false, 0)
  }

  function File(k: Key): Obj {
    Obj(k, 1, 0, false, false, 0)
  }

  function Fresh(src: seq<Gated>, dst: seq<Item>, dfull: seq<Obj>): Label {
    Start(src, src, dst, dfull)
  }

  /** Two labels, one after the other. */
  ghost function Then(env: Env, s: State, a: Label, b: Label): State {
    Next(env, Next(env, s, a), b)
  }

  /** A save without interference, then a crash. */
  ghost function SaveAndCrash(env: Env, s: State): State {
    Next(env, Then(env, Then(env, s, SaveBegin, SaveSrcDelay), SaveDstDelay, SavePut), Crash)
  }

  lemma SaveAndCrashLeaves(env: Env, s: State)
    requires s.mode.Running? && s.saver.Idle?
    ensures SaveAndCrash(env, s) == s.(mode := Stopped, disk := Some(FinalSave(s)))
  {
    var s1 := Next(env, s, SaveBegin);
    assert s1 == s.(saver := HasPrefixes(s.mgr.prefixes, s.owed, s.delayed, s.recorded)) && OpenKey(s1) == OpenKey(s);
    var s2 := Next(env, s1, SaveSrcDelay);
    assert s2 == s.(saver := HasSrcDelay(s.mgr.prefixes, s.owed, s.delayed, s.recorded, s.srcDelay, OpenKey(s)));
    var s3 := Next(env, s2, SaveDstDelay);
    assert s3 == s.(saver := Ready(FinalSave(s)));
    var s4 := Next(env, s3, SavePut);
    assert s4 == s.(disk := Some(FinalSave(s)));
  }

  /** The state of a process that has just started afresh on a trace. */
  ghost function Started(env: Env, t: Outcome): State {
    Init.(mode := Running, prog := t.trace, ok := t.ok, fin := false, todo := KeysOf(env.full), xtodo := env.extras)
  }

  lemma FreshStarts(env: Env, l: Label)
    requires l.Start? && CanStart(env, {}, "", l.whole, l.src, l.dst, l.dfull)
    ensures Next(env, Init, l) == Started(env, Merge(l.src, l.dst, env.c))
  {
    assert Next(env, Init, l) == StartStep(env, Init, l) == Begin(env, Init, EmptyMgr, [], "", l, {}, [], [], false);
    assert ExtrasAfter(env, {}, "") == env.extras;
    assert After(env.full, "") == env.full;
  }

  // ---- A stranded restart ------------------------------------------------------------------------------

  function OneFile(): Env {
    Env(Flags.(deleteDst := true), [File("b")], false, {"a"})
  }

  /** The first start of a process whose source is the file b, while the destination has directory a. */
  function FirstStart(): Label {
    Fresh([Gated(Entry(File("b")), None)], [Entry(Dir("a"))], [Dir("a")])
  }

  lemma FirstStartDelays()
    ensures var s := Next(OneFile(), Init, FirstStart());
            s.prog != [] && s.prog[0] == DelayDst("a") && exists t :: s == Started(OneFile(), t)
  {
    var env, l := OneFile(), FirstStart();
    assert Items([Dir("a")]) == [Entry(Dir("a"))];
    assert l.dfull[0].key == "a" && Deletable(env.c, l.dfull[0]);
    assert CanStart(env, {}, "", l.whole, l.src, l.dst, l.dfull);
    assert Less("a", "b");
    assert Merge(l.src, l.dst, env.c) == Before([DelayDst("a")], Merge(l.src, l.dst[1..], env.c));
    FreshStarts(env, l);
  }

  /** A file without prefixes but with delayed deletions: the restarted process has nothing to list,
      can complete at once, and handles no key. */
  lemma StrandedRestartCompletes(env: Env, s: State, d: Saved, l: Label)
    requires l.Start? && s.mode.Stopped? && s.disk == Some(d)
    requires ROOT !in d.snap.prefixes && Usable(d.snap)
    ensures var done := Then(env, s, l, Finish); done.mode.Completed? && done.handled == s.handled
  {
    var m := Load(d.snap);
    assert Restore(m, ROOT) == (m, NotFound);
    assert Next(env, s, l) == StartStep(env, s, l) == Idling(s, m, [], d, d.recorded);
  }

  lemma FirstSave()
    ensures var env := OneFile();
            var s := SaveAndCrash(env, Then(env, Init, FirstStart(), Produce));
            && s.mode.Stopped? && s.disk.Some? && s.handled == {}
            && s.disk.value.snap == Snapshot(map[], map[], [], ["a"])
  {
    var env := OneFile();
    FirstStartDelays();
    var s0 := Next(env, Init, FirstStart());
    var s1 := Next(env, s0, Produce);
    assert s1 == ProduceStep(env, s0) == Pop(s0).(dstDelay := [] + ["a"], xtodo := s0.xtodo - {"a"});
    SaveAndCrashLeaves(env, s1);
  }

  /** With delete-dst and dirs: the first extra is a directory, a save falls before the first source
      key is recorded, and the restarted process completes without ever listing the source. */
  lemma StrandedRunLosesASourceKey()
    ensures Well(OneFile()) && "b" in KeysOf(OneFile().full)
    ensures var env := OneFile();
            var saved := SaveAndCrash(env, Then(env, Init, FirstStart(), Produce));
            var done := Then(env, saved, FirstStart(), Finish);
            done.mode.Completed? && "b" !in done.handled
  {
    assert OneFile().full[0].key == "b";
    FirstSave();
    var saved := SaveAndCrash(OneFile(), Then(OneFile(), Init, FirstStart(), Produce));
    StrandedRestartCompletes(OneFile(), saved, saved.disk.value, FirstStart());
  }

  // ---- A lost delayed deletion ---------------------------------------------------------------------------

  function OneDir(): Env {
    Env(Flags.(deleteSrc := true), [Dir("a")], false, {})
  }

  function DirStart(): Label {
    Fresh([Gated(Entry(Dir("a")), None)], [Entry(Dir("a"))], [Dir("a")])
  }

  lemma DirStartDelays()
    ensures var s := Next(OneDir(), Init, DirStart());
            s.prog != [] && s.prog[0] == DelaySrc("a") && exists t :: s == Started(OneDir(), t)
  {
    var env, l := OneDir(), DirStart();
    assert Items([Dir("a")]) == [Entry(Dir("a"))];
    assert CanStart(env, {}, "", l.whole, l.src, l.dst, l.dfull);
    assert !Less("a", "a");
    assert Merge(l.src, l.dst, env.c) == Before([DelaySrc("a")], Merge(l.src[1..], l.dst[1..], env.c));
    FreshStarts(env, l);
  }

  lemma DirSave()
    ensures var env := OneDir();
            var s := SaveAndCrash(env, Then(env, Init, DirStart(), Produce));
            && s.mode.Stopped?
            && s.disk == Some(Saved(Snapshot(map[ROOT := NewPrefix.(last := "a")], map[], [], []), {}, {"a"}, true,
                Some("a"), []))
  {
    var env := OneDir();
    DirStartDelays();
    var s0 := Next(env, Init, DirStart());
    var s1 := Next(env, s0, Produce);
    assert s1 == ProduceStep(env, s0);
    assert s1.mgr.prefixes == map[ROOT := NewPrefix.(last := "a")] && OpenKey(s1) == Some("a");
    assert s1.delayed == {"a"} && s1.owed == {} && s1.srcDelay == [] && s1.dstDelay == [];
    SaveAndCrashLeaves(env, s1);
  }

  /** A restart with nothing left to list completes. */
  lemma {:induction false} NothingLeft(env: Env, s: State, d: Saved, last: Key)
    requires s.mode.Stopped? && s.disk == Some(d) && last != ""
    requires d.snap == Snapshot(map[ROOT := NewPrefix.(last := last)], map[], [], [])
    requires After(env.full, last) == [] && ExtrasAfter(env, s.gone, last) == {}
    ensures var done := Next(env, Then(env, s, Fresh([], [], []), Produce), Finish);
            done.mode.Completed? && done.srcDelay == [] && done.gone == s.gone && done.dstDelay == []
  {
    var l := Fresh([], [], []);
    assert Items([]) == [];
    assert CanStart(env, s.gone, last, [], [], [], []);
    var loaded := Load(d.snap);
    assert loaded.prefixes[ROOT] == NewPrefix.(last := last, isNew := false);
    var (mgr, r) := Restore(loaded, ROOT);
    assert r.Tasks? && r.tasks == map[] && !r.listDone;
    var s1 := Next(env, s, l);
    assert s1 == StartStep(env, s, l) == Begin(env, s, mgr, Requeue(map[], {}), last, l, StillOwed(d), [], [], true);
    assert s1.prog == [] && s1.srcDelay == [] && !s1.fin && s1.ok && s1.jobs == [] && s1.failures == 0;
    var s2 := Next(env, s1, Produce);
    assert s2 == ProduceStep(env, s1);
  }

  /** With delete-src: a save between the two statements that delay a directory loses its deletion,
      since the restart resumes after the directory and the file does not name it. */
  lemma OpenDirectoryIsLost()
    ensures var env := OneDir();
            var saved := SaveAndCrash(env, Then(env, Init, DirStart(), Produce));
            var done := Next(env, Then(env, saved, Fresh([], [], []), Produce), Finish);
            && saved.disk.Some? && "a" in saved.disk.value.delayed && saved.disk.value.open == Some("a")
            && done.mode.Completed? && done.srcDelay == []
  {
    DirSave();
    var env := OneDir();
    var saved := SaveAndCrash(env, Then(env, Init, DirStart(), Produce));
    assert !Less("a", "a");
    assert After(env.full, "a") == After(env.full[1..], "a") == [];
    NothingLeft(env, saved, saved.disk.value, "a");
  }

  // ---- A passed-over directory ---------------------------------------------------------------------------

  /** Without --dirs: the source has directory b/, the destination the file a. */
  function DirAndExtra(): Env {
    Env(Flags.(dirs := false, deleteDst := true), [Dir("b/")], false, {"a"})
  }

  function OvertakenStart(): Label {
    Fresh([Gated(Entry(Dir("b/")), None)], [Entry(File("a"))], [File("a")])
  }

  lemma OvertakenSave()
    ensures var env := DirAndExtra();
            var s := SaveAndCrash(env, Then(env, Init, OvertakenStart(), Produce));
            && s.mode.Stopped? && s.gone == {} && s.disk.Some?
            && s.disk.value.snap == Snapshot(map[ROOT := NewPrefix.(last := "b/")], map[], [], [])
  {
    var env, l := DirAndExtra(), OvertakenStart();
    assert Items([File("a")]) == [Entry(File("a"))];
    assert l.dfull[0].key == "a" && Deletable(env.c, l.dfull[0]);
    assert CanStart(env, {}, "", l.whole, l.src, l.dst, l.dfull);
    FreshStarts(env, l);
    var s0 := Next(env, Init, l);
    assert s0.prog[0] == Ignore("b/");
    var s1 := Next(env, s0, Produce);
    assert s1 == ProduceStep(env, s0) == Passed(Pop(s0), "b/");
    assert s1.mgr.prefixes == map[ROOT := NewPrefix.(last := "b/")];
    SaveAndCrashLeaves(env, s1);
  }

  /** The file a is to be deleted, the directory is recorded first, and after a save at that point the
      restart lists only what follows the directory: it completes with the file still there. */
  lemma OvertakenExtraIsKept()
    ensures Well(DirAndExtra()) && "a" in DirAndExtra().extras
    ensures var env := DirAndExtra();
            var saved := SaveAndCrash(env, Then(env, Init, OvertakenStart(), Produce));
            var done := Next(env, Then(env, saved, Fresh([], [], []), Produce), Finish);
            done.mode.Completed? && "a" !in done.gone && "a" !in done.dstDelay
  {
    OvertakenSave();
    var env := DirAndExtra();
    var saved := SaveAndCrash(env, Then(env, Init, OvertakenStart(), Produce));
    assert !Less("b/", "b/") by { LessIrreflexive("b/"); }
    assert After(env.full, "b/") == After(env.full[1..], "b/") == [];
    assert Less("a", "b/");
    LessAsymmetric("a", "b/");
    assert ExtrasAfter(env, saved.gone, "b/") == {};
    NothingLeft(env, saved, saved.disk.value, "b/");
  }

  // ---- One task ------------------------------------------------------------------------------------------

  /** The three steps of the producer that send a task. */
  ghost function Sent(env: Env, s: State): State {
    Next(env, Then(env, s, Produce, Produce), Produce)
  }

  /** A manager with one pending task. */
  function OneTask(k: Key, kind: Kind): Mgr {
    Mgr(map[ROOT := NewPrefix.(pending := map[k := kind], last := k)], map[k := ROOT], {}, map[], false)
  }

  lemma SentTask(env: Env, s: State, k: Key, kind: Kind)
    requires s.mode.Running? && s.saver.Idle? && !s.fin && s.stage == 0 && s.prog == [Send(k, kind)]
        && s.mgr == EmptyMgr && s.jobs == [] && kind != DeleteDst
    ensures Sent(env, s) == s.(prog := [], mgr := OneTask(k, kind), jobs := [Job(k, kind, Queued, false)],
        recorded := true, todo := s.todo - {k})
  {
    var s1 := Next(env, s, Produce);
    assert s1 == ProduceStep(env, s);
    assert s1.mgr == OneTask(k, kind).(keyPrefix := map[]);
    var s2 := Next(env, s1, Produce);
    assert s2 == ProduceStep(env, s1) == s1.(stage := 2, mgr := OneTask(k, kind));
    var s3 := Next(env, s2, Produce);
    assert s3 == ProduceStep(env, s2);
  }

  // ---- A directory processed without its deletion being kept ------------------------------------------------

  /** With --dirs, --perms and --delete-src-after: a directory that is on the destination already. */
  function PermsOnly(): Env {
    Env(Flags.(perms := true), [Dir("a/")], true, {})
  }

  function PermsStart(): Label {
    Fresh([Gated(Entry(Dir("a/")), None)], [Entry(Dir("a/").(perms := 1))], [Dir("a/").(perms := 1)])
  }

  lemma PermsStartSends()
    ensures Next(PermsOnly(), Init, PermsStart()) == Started(PermsOnly(), Outcome([Send("a/", CopyPerms)], true))
  {
    var env, l := PermsOnly(), PermsStart();
    assert Items(l.dfull) == l.dst;
    assert CanStart(env, {}, "", l.whole, l.src, l.dst, l.dfull);
    LessIrreflexive("a/");
    var o, d := Dir("a/"), Dir("a/").(perms := 1);
    assert Decide(env.c, o, Some(d), None) == Send("a/", CopyPerms);
    assert l.src[1..] == [] && l.dst[1..] == [];
    assert Merge(l.src, l.dst, env.c) == Before([Send("a/", CopyPerms)], Merge(l.src[1..], l.dst[1..], env.c));
    FreshStarts(env, l);
  }

  /** The worker's three steps on the task at hand. */
  ghost function Worked(env: Env, s: State): State {
    Next(env, Then(env, s, Work(0, true, false), Work(0, true, false)), Work(0, true, false))
  }

  lemma IdleSaver()
    ensures forall s: State, t: State :: s.saver.Idle? ==> !Waits(s, t)
  {}

  lemma PermsTaskDone(env: Env, s: State, k: Key)
    requires s.mode.Running? && s.saver.Idle? && s.mgr == OneTask(k, CopyPerms)
        && s.jobs == [Job(k, CopyPerms, Queued, false)]
    ensures var t := Worked(env, s);
            t == s.(jobs := [Job(k, CopyPerms, Ended, false)], handled := s.handled + {k},
                    mgr := Mgr(map[ROOT := NewPrefix.(last := k)], map[], {}, map[], false))
  {
    hide IsDir, Waits;
    var w := Work(0, true, false);
    IdleSaver();
    var s1 := Next(env, s, w);
    assert s1 == WorkStep(env, s, 0, true, false) == s.(jobs := [Job(k, CopyPerms, Succeeded, false)],
        handled := s.handled + {k});
    var s2 := Next(env, s1, w);
    assert s2 == WorkStep(env, s1, 0, true, false) == s1.(jobs := [Job(k, CopyPerms, Logged, false)]);
    PermsTaskCompletes(env, s2, k);
  }

  lemma PermsTaskCompletes(env: Env, s: State, k: Key)
    requires s.mode.Running? && s.saver.Idle? && s.mgr == OneTask(k, CopyPerms)
        && s.jobs == [Job(k, CopyPerms, Logged, false)]
    ensures Next(env, s, Work(0, true, false)) ==
            s.(jobs := [Job(k, CopyPerms, Ended, false)],
                mgr := Mgr(map[ROOT := NewPrefix.(last := k)], map[], {}, map[], false))
  {
    hide Waits;
    IdleSaver();
    assert map[k := CopyPerms] - {k} == map[] && map[k := ROOT] - {k} == map[];
    assert MarkCompleted(s.mgr, k) == Mgr(map[ROOT := NewPrefix.(last := k)], map[], {}, map[], false);
  }

  /** Its permissions are copied, its task completes, and the run ends without its deletion on the list. */
  lemma PermsDirectoryIsKept()
    ensures var env := PermsOnly();
            var s := Worked(env, Sent(env, Next(env, Init, PermsStart())));
            var done := Then(env, s, Produce, Finish);
            && IsDir(env, "a/") && s.jobs == [Job("a/", CopyPerms, Ended, false)]
            && done.mode.Completed? && "a/" in done.handled && "a/" !in done.srcDelay
  {
    hide Worked, Sent, Then, Merge;
    var env := PermsOnly();
    assert env.full[0] == Dir("a/");
    PermsStartSends();
    var s0 := Next(env, Init, PermsStart());
    SentTask(env, s0, "a/", CopyPerms);
    var s1 := Sent(env, s0);
    PermsTaskDone(env, s1, "a/");
    EndCompletes(env, Worked(env, s1));
  }

  lemma EndCompletes(env: Env, s: State)
    requires s.mode.Running? && s.saver.Idle? && !s.fin && s.prog == [] && s.ok && s.failures == 0
    requires forall i :: 0 <= i < |s.jobs| ==> s.jobs[i].phase.Ended?
    ensures var done := Then(env, s, Produce, Finish);
            done.mode.Completed? && done.handled == s.handled && done.srcDelay == s.srcDelay
  {
    hide MarkListDone;
    var t := Next(env, s, Produce);
    assert t == ProduceStep(env, s);
    assert t.fin && t.jobs == s.jobs && t.ok && t.failures == 0;
  }

  // ---- A task under the empty key ---------------------------------------------------------------------------

  /** The source is the one object with an empty key. */
  function EmptyKey(): Env {
    Env(Flags, [File("")], false, {})
  }

  function EmptyStart(): Label {
    Fresh([Gated(Entry(File("")), None)], [], [])
  }

  lemma EmptyStartSends()
    ensures Next(EmptyKey(), Init, EmptyStart()) == Started(EmptyKey(), Outcome([Send("", Copy)], true))
  {
    var env, l := EmptyKey(), EmptyStart();
    assert Items([]) == [];
    assert CanStart(env, {}, "", l.whole, l.src, l.dst, l.dfull);
    assert Merge(l.src, l.dst, env.c) == Before([Send("", Copy)], Merge([], [], env.c)) by { assert l.src[1..] == []; }
    FreshStarts(env, l);
  }

  /** The task is sent, the listing ends, a save and a crash: the restart finds a finished listing and no
      task, and completes with the key unhandled. */
  lemma EmptyKeyIsLost()
    ensures "" in KeysOf(EmptyKey().full)
    ensures var env := EmptyKey();
            var saved := SaveAndCrash(env, Next(env, Sent(env, Next(env, Init, EmptyStart())), Produce));
            var done := Then(env, saved, EmptyStart(), Finish);
            done.mode.Completed? && "" !in done.handled
  {
    var env, l := EmptyKey(), EmptyStart();
    assert env.full[0].key == "";
    EmptyStartSends();
    var s0 := Next(env, Init, l);
    SentTask(env, s0, "", Copy);
    var s1 := Sent(env, s0);
    var s2 := Next(env, s1, Produce);
    assert s2 == ProduceStep(env, s1);
    assert s2.mgr == OneTask("", Copy).(
        prefixes := map[ROOT := NewPrefix.(pending := map["" := Copy], last := "", listDone := true)]);
    SaveAndCrashLeaves(env, s2);
    RestartsWithout(env, SaveAndCrash(env, s2), l);
  }

  lemma RestartsWithout(env: Env, s: State, l: Label)
    requires s.mode.Stopped? && s.disk.Some? && l.Start?
    requires s.disk.value.snap.prefixes == map[ROOT := NewPrefix.(pending := map["" := Copy], last := "",
        listDone := true)]
    ensures var done := Then(env, s, l, Finish); done.mode.Completed? && done.handled == s.handled
  {
    var d := s.disk.value;
    assert Reloaded(map["" := Copy]) == map[] && Reloaded(map[]) == map[];
    var (mgr, r) := Restore(Load(d.snap), ROOT);
    assert r.Tasks? && r.tasks == map[] && r.listDone;
    assert Next(env, s, l) == StartStep(env, s, l) == Idling(s, mgr, [], d, true);
  }
}

/** Producer, workers and checkpoint saver of one process, over crashes and restarts: a transition
    system whose steps are the critical sections of the code, for the single-producer listing. */
module CrashResume {
  import opened Keys
  import opened Producer
  import opened MergeJoin
  import opened Checkpoint
  import T = Traces

  const ROOT: Key := ""

  /** What does not change over the runs: the flags, the filtered source listing, and destination keys
      that are to be deleted. */
  datatype Env = Env(c: Config, full: seq<Obj>, deleteSrcAfter: bool, extras: set<Key>)

  datatype Phase = Queued | Succeeded | Logged | Erred | Ended

  /** A task in the hands of a worker; `equal` is what a checksum task found. */
  datatype Job = Job(key: Key, kind: Kind, phase: Phase, equal: bool)

  /** The save in progress, with the history that belongs to what was read. */
  datatype Saver =
    | Idle
    | HasPrefixes(prefixes: map<Key, PrefixState>, owed: set<Key>, delayed: set<Key>, recorded: bool)
    | HasSrcDelay(prefixes: map<Key, PrefixState>, owed: set<Key>, delayed: set<Key>, recorded: bool,
                  srcDelay: seq<Key>, open: Option<Key>)
    | Ready(saved: Saved)

  /** A checkpoint file and its history: the directories whose deletion was owed and those delayed by the
      producer when the prefixes were read, whether anything had been recorded by then, the directory
      about to be recorded when the delayed list was read, and the list the process had started with. */
  datatype Saved = Saved(snap: Snapshot, owed: set<Key>, delayed: set<Key>, recorded: bool, open: Option<Key>,
      base: seq<Key>)

  datatype Mode = Running | Stopped | Completed

  /** `handled` and `gone` are the source keys dealt with and the destination keys deleted, `todo` and
      `xtodo` what this process has yet to come to, `entry` what was handled when it started. */
  datatype State = State(
    mode: Mode, disk: Option<Saved>, handled: set<Key>, gone: set<Key>,
    mgr: Mgr, prog: seq<Action>, stage: nat, ok: bool, fin: bool, todo: set<Key>, xtodo: set<Key>,
    jobs: seq<Job>, srcDelay: seq<Key>, dstDelay: seq<Key>, failures: nat,
    owed: set<Key>, delayed: set<Key>, recorded: bool, base: seq<Key>, stranded: bool, entry: set<Key>, saver: Saver)

  datatype Label =
    | Produce
    | Work(job: nat, good: bool, equal: bool)
    | SaveBegin | SaveSrcDelay | SaveDstDelay | SavePut
    | Crash
    | Start(whole: seq<Gated>, src: seq<Gated>, dst: seq<Item>, dfull: seq<Obj>)
    | Finish

  const EmptyMgr := Mgr(map[], map[], {}, map[], false)

  const Init := State(Stopped, None, {}, {}, EmptyMgr, [], 0, true, true, {}, {}, [], [], [], 0, {}, {}, false, [],
      false, {}, Idle)

  // ---- The two sides -----------------------------------------------------------------------------

  function KeysOf(full: seq<Obj>): set<Key> {
    set i | 0 <= i < |full| :: full[i].key
  }

  function SetOf(keys: seq<Key>): set<Key> {
    set k | k in keys
  }

  /** The listing of a restart: it begins after the last listed key, or afresh if there is none. */
  function After(full: seq<Obj>, last: Key): seq<Obj> {
    if full == [] || last == "" || Less(last, full[0].key) then full else After(full[1..], last)
  }

  /** The keys to be deleted that a listing after `last` still shows. */
  function ExtrasAfter(env: Env, gone: set<Key>, last: Key): set<Key> {
    set k | k in env.extras && k !in gone && (last == "" || Less(last, k))
  }

  ghost predicate IsDir(env: Env, k: Key) {
    exists i :: 0 <= i < |env.full| && env.full[i].key == k && env.full[i].isDir
  }

  /** Whether a task, done, leaves a source directory to be deleted at the end: after a copy, which a
      checksum task also makes when it finds a difference, or when it finds none and sources go at once. */
  ghost predicate Delays(env: Env, j: Job) {
    IsDir(env, j.key) &&
    if j.kind == Copy || (j.kind == Checksum && !j.equal) then env.deleteSrcAfter
    else j.kind == Checksum && env.c.deleteSrc
  }

  ghost predicate Well(env: Env) {
    && (forall i, j :: 0 <= i < j < |env.full| ==> Less(env.full[i].key, env.full[j].key))
    && (forall i :: 0 <= i < |env.full| ==> env.full[i].key != "")
  }

  // ---- The steps -------------------------------------------------------------------------------

  function Pop(s: State): State
    requires s.prog != []
  {
    s.(prog := s.prog[1..], stage := 0)
  }

  ghost function ProduceStep(env: Env, s: State): State {
    if s.fin then s
    else if s.prog == [] then
      if s.ok then s.(fin := true, mgr := MarkListDone(s.mgr, ROOT), recorded := true) else s.(fin := true)
    else
      var a := s.prog[0];
      match a
      case Ignore(k) => Passed(Pop(s), k)
      case Skip(k, _) => Passed(Pop(s), k)
      case Extra(_) => Pop(s)
      case DelayDst(k) => Pop(s).(dstDelay := s.dstDelay + [k], xtodo := s.xtodo - {k})
      case DelaySrc(k) =>
        if s.stage == 0 then Passed(s, k).(stage := 1, delayed := s.delayed + {k})
        else Pop(s).(srcDelay := s.srcDelay + [k])
      case Send(k, kind) =>
        if s.stage == 0 then
          s.(stage := 1, mgr := AddPending(s.mgr, ROOT, k, kind), recorded := true,
             todo := if kind == DeleteDst then s.todo else s.todo - {k},
             xtodo := if kind == DeleteDst then s.xtodo - {k} else s.xtodo)
        else if s.stage == 1 then s.(stage := 2, mgr := Track(s.mgr, ROOT, k))
        else Pop(s).(jobs := s.jobs + [Job(k, kind, Queued, false)])
  }

  /** A source key that needs no task is recorded as listed. */
  function Passed(s: State, k: Key): State {
    s.(mgr := UpdateLast(s.mgr, ROOT, k), todo := s.todo - {k}, handled := s.handled + {k}, recorded := true)
  }

  ghost function WorkStep(env: Env, s: State, i: nat, good: bool, equal: bool): State
    requires i < |s.jobs|
  {
    var j := s.jobs[i];
    match j.phase
    case Queued =>
      if good then
        var j' := j.(phase := Succeeded, equal := equal);
        s.(jobs := s.jobs[i := j'], owed := if Delays(env, j') then s.owed + {j.key} else s.owed,
           handled := if j.kind == DeleteDst then s.handled else s.handled + {j.key},
           gone := if j.kind == DeleteDst then s.gone + {j.key} else s.gone)
      else s.(jobs := s.jobs[i := j.(phase := Erred)], failures := s.failures + 1)
    case Succeeded =>
      s.(jobs := s.jobs[i := j.(phase := Logged)],
         srcDelay := if Delays(env, j) then s.srcDelay + [j.key] else s.srcDelay)
    case Logged => s.(jobs := s.jobs[i := j.(phase := Ended)], mgr := MarkCompleted(s.mgr, j.key))
    case Erred => s.(jobs := s.jobs[i := j.(phase := Ended)], mgr := MarkFailed(s.mgr, j.key))
    case Ended => s
  }

  function OpenKey(s: State): Option<Key> {
    if s.stage == 1 && s.prog != [] && s.prog[0].DelaySrc? then Some(s.prog[0].key) else None
  }

  function Stop(s: State): State {
    s.(mode := Stopped, saver := Idle)
  }

  ghost predicate CanStart(env: Env, gone: set<Key>, last: Key, whole: seq<Gated>, src: seq<Gated>, dst: seq<Item>,
                           dfull: seq<Obj>) {
    && |whole| == |After(env.full, last)|
    && (forall i :: 0 <= i < |whole| ==> whole[i].item == Entry(After(env.full, last)[i]))
    && SrcFeed(src, whole)
    && Sorted(dfull) && DstFeed(dst, dfull)
    && (last != "" ==> forall i :: 0 <= i < |dfull| ==> Less(last, dfull[i].key))
    && (forall k :: k in ExtrasAfter(env, gone, last) ==>
        exists i :: 0 <= i < |dfull| && dfull[i].key == k && Deletable(env.c, dfull[i]))
  }

  /** A process starts to list after `last`, with what it takes over from a file. */
  ghost function Begin(env: Env, s: State, mgr: Mgr, jobs: seq<Job>, last: Key, l: Label, owed: set<Key>,
                       srcDelay: seq<Key>, dstDelay: seq<Key>, recorded: bool): State
    requires l.Start?
  {
    if !CanStart(env, s.gone, last, l.whole, l.src, l.dst, l.dfull) then s
    else
      var r := Merge(l.src, l.dst, env.c);
      s.(mode := Running, mgr := mgr, prog := r.trace, stage := 0, ok := r.ok, fin := false,
         todo := KeysOf(After(env.full, last)), xtodo := ExtrasAfter(env, s.gone, last), jobs := jobs,
         srcDelay := srcDelay, dstDelay := dstDelay, failures := 0, owed := owed, delayed := {}, recorded := recorded,
         base := srcDelay, stranded := false, entry := s.handled, saver := Idle)
  }

  /** What stays owed from a file: its outstanding tasks owe anew when they are done again. */
  function StillOwed(d: Saved): set<Key> {
    set k | k in d.owed && k in d.snap.srcDelay
  }

  ghost function StartStep(env: Env, s: State, l: Label): State
    requires l.Start?
  {
    if s.disk.None? || !Usable(s.disk.value.snap) then Begin(env, s, EmptyMgr, [], "", l, {}, [], [], false)
    else
      var d := s.disk.value;
      var loaded := Load(d.snap);
      var (mgr, restored) := Restore(loaded, ROOT);
      match restored
      case Tasks(tasks, listDone, _) =>
        var jobs := Requeue(tasks, tasks.Keys);
        if !listDone
        then Begin(env, s, mgr, jobs, loaded.prefixes[ROOT].last, l, StillOwed(d),
                   d.snap.srcDelay, d.snap.dstDelay, true)
        else Idling(s, mgr, jobs, d, true)
      case _ => Idling(s, mgr, [], d, d.recorded)
  }

  /** A restart that has nothing to list; it is stranded if nothing had been recorded in its file. */
  function Idling(s: State, mgr: Mgr, jobs: seq<Job>, d: Saved, recorded: bool): State {
    s.(mode := Running, mgr := mgr, prog := [], stage := 0, ok := true, fin := true, todo := {}, xtodo := {},
       jobs := jobs, srcDelay := d.snap.srcDelay, dstDelay := d.snap.dstDelay, failures := 0, owed := StillOwed(d),
       delayed := {}, recorded := recorded, base := d.snap.srcDelay, stranded := !recorded,
       entry := s.handled, saver := Idle)
  }

  /** The keys some worker still has to deal with. */
  ghost function Active(jobs: seq<Job>): set<Key> {
    set i | 0 <= i < |jobs| && !jobs[i].phase.Ended? :: jobs[i].key
  }

  lemma ActiveCons(j: Job, jobs: seq<Job>)
    requires !j.phase.Ended?
    ensures Active([j] + jobs) == {j.key} + Active(jobs)
  {
    forall k | k in Active(jobs) ensures k in Active([j] + jobs) {
      var i :| 0 <= i < |jobs| && !jobs[i].phase.Ended? && jobs[i].key == k;
      assert ([j] + jobs)[i+1] == jobs[i];
    }
    assert ([j] + jobs)[0] == j;
  }

  /** The tasks of a restored prefix, queued in some order. */
  ghost function Requeue(tasks: map<Key, Kind>, keys: set<Key>): seq<Job>
    requires keys <= tasks.Keys
  {
    if keys == {} then []
    else
      var k :| k in keys;
      [Job(k, tasks[k], Queued, false)] + Requeue(tasks, keys - {k})
  }

  /** No two tasks in hand are for the same key. */
  ghost predicate Distinct(jobs: seq<Job>) {
    forall i, j :: 0 <= i < j < |jobs| ==> jobs[i].key != jobs[j].key
  }

  lemma {:induction false} Requeued(tasks: map<Key, Kind>, keys: set<Key>)
    requires keys <= tasks.Keys
    ensures Active(Requeue(tasks, keys)) == keys && Distinct(Requeue(tasks, keys))
    ensures forall j :: j in Requeue(tasks, keys) ==> j.phase == Queued && j.key in keys && j.kind == tasks[j.key]
  {
    if keys != {} {
      var jobs := Requeue(tasks, keys);
      var k := jobs[0].key;
      var rest := Requeue(tasks, keys - {k});
      assert jobs == [Job(k, tasks[k], Queued, false)] + rest;
      Requeued(tasks, keys - {k});
      ActiveCons(jobs[0], rest);
      DistinctCons(jobs[0], rest);
    }
  }

  lemma DistinctCons(j: Job, jobs: seq<Job>)
    requires Distinct(jobs) && forall x :: x in jobs ==> x.key != j.key
    ensures Distinct([j] + jobs)
  {
    forall m, n | 0 <= m < n <= |jobs| ensures ([j] + jobs)[m].key != ([j] + jobs)[n].key {
      assert jobs[n - 1] in jobs;
    }
  }

  ghost function FinalSave(s: State): Saved {
    Saved(Snapshot(s.mgr.prefixes, map[], s.srcDelay, s.dstDelay), s.owed, s.delayed, s.recorded, OpenKey(s), s.base)
  }

  // ---- The lock of the checkpoint -----------------------------------------------------------------

  /** A save holds the read lock from its first read to its last. */
  predicate Reading(saver: Saver) {
    saver.HasPrefixes? || saver.HasSrcDelay?
  }

  /** The next statement of the producer updates the prefix in the manager. */
  predicate ProducerUpdates(s: State) {
    !s.fin && if s.prog == [] then s.ok else s.stage == 0 && T.Records(s.prog[0])
  }

  predicate WorkerUpdates(s: State, j: Job) {
    (j.phase.Logged? || j.phase.Erred?) && j.key in s.mgr.keyPrefix
  }

  /** An update that creates or forgets the prefix needs the write lock, and waits while a save reads. */
  predicate Waits(s: State, t: State) {
    Reading(s.saver) && (ROOT !in s.mgr.prefixes || ROOT !in t.mgr.prefixes)
  }

  ghost function Next(env: Env, s: State, l: Label): State {
    if l.Start? then (if s.mode == Stopped then StartStep(env, s, l) else s)
    else if s.mode != Running then s
    else
      match l
      case Produce =>
        var t := ProduceStep(env, s);
        if ProducerUpdates(s) && Waits(s, t) then s else t
      case Work(i, good, equal) =>
        if i >= |s.jobs| then s
        else
          var t := WorkStep(env, s, i, good, equal);
          if WorkerUpdates(s, s.jobs[i]) && Waits(s, t) then s else t
      case SaveBegin => if s.saver.Idle? then s.(saver := HasPrefixes(s.mgr.prefixes, s.owed, s.delayed, s.recorded))
          else s
      case SaveSrcDelay =>
        if s.saver.HasPrefixes? then
          s.(saver := HasSrcDelay(s.saver.prefixes, s.saver.owed, s.saver.delayed, s.saver.recorded,
                                  s.srcDelay, OpenKey(s)))
        else s
      case SaveDstDelay =>
        if s.saver.HasSrcDelay? then
          s.(saver := Ready(Saved(Snapshot(s.saver.prefixes, map[], s.saver.srcDelay, s.dstDelay),
                                  s.saver.owed, s.saver.delayed, s.saver.recorded, s.saver.open, s.base)))
        else s
      case SavePut => if s.saver.Ready? then s.(disk := Some(s.saver.saved), saver := Idle) else s
      case Crash => Stop(s)
      case Finish =>
        if !(s.fin && s.prog == [] && forall i :: 0 <= i < |s.jobs| ==> s.jobs[i].phase.Ended?) then s
        else if s.failures == 0 && s.ok then s.(mode := Completed, disk := None, saver := Idle)
        else Stop(s).(disk := Some(FinalSave(s)))
      case Start(_, _, _, _) => s
  }

  ghost function Run(env: Env, s: State, labels: seq<Label>): State
    decreases |labels|
  {
    if labels == [] then s else Run(env, Next(env, s, labels[0]), labels[1..])
  }
}

/** The checkpoint manager: per-prefix progress, the pending and failed tasks, and their persistence. */
module Checkpoint {
  import opened Keys
  import opened Producer
  import U = Uploads

  datatype PrefixState = PrefixState(
    listDone: bool, last: Key, depth: int,
    pending: map<Key, Kind>, failed: map<Key, Kind>, isNew: bool)

  /** The manager's state; every method below is one critical section on it. */
  datatype Mgr = Mgr(
    prefixes: map<Key, PrefixState>, keyPrefix: map<Key, Key>, restored: set<Key>,
    uploads: U.Store, filesFrom: bool)

  const NewPrefix := PrefixState(false, "", 0, map[], map[], true)

  function PrefixOf(m: Mgr, prefix: Key): PrefixState {
    if prefix in m.prefixes then m.prefixes[prefix] else NewPrefix
  }

  /** A fully listed prefix with nothing outstanding is forgotten, unless it comes from a file list. */
  predicate Finished(s: PrefixState, filesFrom: bool) {
    s.listDone && s.pending == map[] && s.failed == map[] && !filesFrom
  }

  function Updated(m: Mgr, prefix: Key, s: PrefixState): Mgr {
    m.(prefixes := if Finished(s, m.filesFrom) then m.prefixes - {prefix} else m.prefixes[prefix := s])
  }

  function AddPending(m: Mgr, prefix: Key, key: Key, kind: Kind): Mgr {
    var s := PrefixOf(m, prefix);
    Updated(m, prefix, s.(pending := s.pending[key := kind], last := key))
  }

  function Track(m: Mgr, prefix: Key, key: Key): Mgr {
    m.(keyPrefix := m.keyPrefix[key := prefix])
  }

  function UpdateLast(m: Mgr, prefix: Key, key: Key): Mgr {
    Updated(m, prefix, PrefixOf(m, prefix).(last := key))
  }

  function MarkListDone(m: Mgr, prefix: Key): Mgr {
    Updated(m, prefix, PrefixOf(m, prefix).(listDone := true))
  }

  function MarkCompleted(m: Mgr, key: Key): Mgr {
    var m' := m.(uploads := m.uploads - {key});
    if key !in m.keyPrefix then m'
    else
      var prefix := m.keyPrefix[key];
      var s := PrefixOf(m, prefix);
      Updated(m'.(keyPrefix := m.keyPrefix - {key}), prefix,
              s.(pending := s.pending - {key}, failed := s.failed - {key}))
  }

  function MarkFailed(m: Mgr, key: Key): Mgr {
    if key !in m.keyPrefix then m
    else
      var prefix := m.keyPrefix[key];
      var s := PrefixOf(m, prefix);
      Updated(m, prefix,
              if key in s.pending then s.(pending := s.pending - {key}, failed := s.failed[key := s.pending[key]])
                  else s)
  }

  /** What a restart takes over of a prefix: its failed tasks become pending and all are queued again. */
  datatype Restored = NotFound | Already | Tasks(tasks: map<Key, Kind>, listDone: bool, depth: int)

  function Restore(m: Mgr, prefix: Key): (Mgr, Restored) {
    if prefix !in m.prefixes || m.prefixes[prefix].isNew then (m, NotFound)
    else if prefix in m.restored then (m, Already)
    else
      var s := m.prefixes[prefix];
      var tasks := s.pending + s.failed;
      (m.(restored := m.restored + {prefix},
          prefixes := m.prefixes[prefix := s.(pending := tasks, failed := map[])],
          keyPrefix := m.keyPrefix + map k | k in tasks :: prefix),
       Tasks(tasks, s.listDone, s.depth))
  }

  // ---- Persistence ---------------------------------------------------------------------------

  datatype Snapshot = Snapshot(prefixes: map<Key, PrefixState>, uploads: U.Store, srcDelay: seq<Key>,
      dstDelay: seq<Key>)

  /** A task map after a round trip through JSON: a task with an empty key does not come back. */
  function Reloaded(tasks: map<Key, Kind>): map<Key, Kind> {
    tasks - {""}
  }

  function ReloadedPrefix(s: PrefixState): PrefixState {
    s.(pending := Reloaded(s.pending), failed := Reloaded(s.failed), isNew := false)
  }

  function Load(snap: Snapshot): Mgr {
    Mgr(map p | p in snap.prefixes :: ReloadedPrefix(snap.prefixes[p]), map[], {}, snap.uploads, false)
  }

  /** A loaded checkpoint is used only if there is something in it. */
  predicate Usable(snap: Snapshot) {
    snap.prefixes != map[] || snap.uploads != map[] || snap.srcDelay != [] || snap.dstDelay != []
  }

  // ---- What callers rely on ------------------------------------------------------------------------------

  /** The tasks that a prefix has outstanding, pending or failed. */
  ghost function Outstanding(ps: map<Key, PrefixState>, prefix: Key): set<Key> {
    if prefix in ps then ps[prefix].pending.Keys + ps[prefix].failed.Keys else {}
  }

  /** The kinds under which a key is outstanding. */
  ghost function Kinds(ps: map<Key, PrefixState>, prefix: Key, key: Key): set<Kind> {
    if prefix !in ps then {}
    else
      var s := ps[prefix];
      (if key in s.pending then {s.pending[key]} else {}) + (if key in s.failed then {s.failed[key]} else {})
  }

  /** Nothing changes outside one prefix. */
  ghost predicate Elsewhere(m: Mgr, m': Mgr, prefix: Key) {
    && m'.prefixes - {prefix} == m.prefixes - {prefix}
    && m'.restored == m.restored && m'.filesFrom == m.filesFrom
  }

  /** A fully listed prefix outside a file list exists only as long as it has tasks. */
  lemma UpdatedIs(m: Mgr, prefix: Key, s: PrefixState)
    ensures var m' := Updated(m, prefix, s);
      && Elsewhere(m, m', prefix) && m'.keyPrefix == m.keyPrefix && m'.uploads == m.uploads
      && (prefix in m'.prefixes <==> !s.listDone || s.pending.Keys + s.failed.Keys != {} || m.filesFrom)
      && (prefix in m'.prefixes ==> m'.prefixes[prefix] == s)
      && Outstanding(m'.prefixes, prefix) == s.pending.Keys + s.failed.Keys
  {
    assert s.pending == map[] <==> s.pending.Keys == {};
    assert s.failed == map[] <==> s.failed.Keys == {};
    var m' := Updated(m, prefix, s);
    assert m'.prefixes - {prefix} == m.prefixes - {prefix};
  }

  /** A pending task is outstanding under its kind, and its key is the last listed one. */
  lemma PendingIsHeld(m: Mgr, prefix: Key, key: Key, kind: Kind)
    ensures var m' := AddPending(m, prefix, key, kind);
      && Elsewhere(m, m', prefix) && m'.keyPrefix == m.keyPrefix && m'.uploads == m.uploads
      && prefix in m'.prefixes && kind in Kinds(m'.prefixes, prefix, key)
      && m'.prefixes[prefix] == PrefixOf(m, prefix).(pending := m'.prefixes[prefix].pending, last := key)
      && Outstanding(m'.prefixes, prefix) == Outstanding(m.prefixes, prefix) + {key}
      && forall k :: k != key ==> Kinds(m'.prefixes, prefix, k) == Kinds(m.prefixes, prefix, k)
  {
    var s := PrefixOf(m, prefix);
    UpdatedIs(m, prefix, s.(pending := s.pending[key := kind], last := key));
    assert key in s.pending[key := kind];
  }

  /** Recording a listed key leaves all tasks alone. */
  lemma ListedIsRecorded(m: Mgr, prefix: Key, key: Key)
    ensures var m' := UpdateLast(m, prefix, key);
      && Elsewhere(m, m', prefix) && m'.keyPrefix == m.keyPrefix && m'.uploads == m.uploads
      && (forall k :: Kinds(m'.prefixes, prefix, k) == Kinds(m.prefixes, prefix, k))
      && (prefix in m'.prefixes ==> m'.prefixes[prefix] == PrefixOf(m, prefix).(last := key))
      && (prefix in m'.prefixes <==>
          !PrefixOf(m, prefix).listDone || Outstanding(m.prefixes, prefix) != {} || m.filesFrom)
  {
    UpdatedIs(m, prefix, PrefixOf(m, prefix).(last := key));
  }

  /** Once the listing is done, the prefix stays exactly as long as it has tasks, or for a file list. */
  lemma DoneIsForgotten(m: Mgr, prefix: Key)
    ensures var m' := MarkListDone(m, prefix);
      && Elsewhere(m, m', prefix) && m'.keyPrefix == m.keyPrefix && m'.uploads == m.uploads
      && (forall k :: Kinds(m'.prefixes, prefix, k) == Kinds(m.prefixes, prefix, k))
      && (prefix in m'.prefixes <==> Outstanding(m.prefixes, prefix) != {} || m.filesFrom)
      && (prefix in m'.prefixes ==> m'.prefixes[prefix] == PrefixOf(m, prefix).(listDone := true))
  {
    UpdatedIs(m, prefix, PrefixOf(m, prefix).(listDone := true));
  }

  /** A completed task is outstanding no more and its upload record gone; its prefix goes with the last task
      of a finished listing. */
  lemma CompletedIsGone(m: Mgr, key: Key)
    ensures var m' := MarkCompleted(m, key);
      && m'.uploads == m.uploads - {key} && m'.keyPrefix == m.keyPrefix - {key}
      && (key !in m.keyPrefix ==> m'.prefixes == m.prefixes)
      && (key in m.keyPrefix ==> var prefix := m.keyPrefix[key];
            && Elsewhere(m, m', prefix)
            && Outstanding(m'.prefixes, prefix) == Outstanding(m.prefixes, prefix) - {key}
            && (forall k :: k != key ==> Kinds(m'.prefixes, prefix, k) == Kinds(m.prefixes, prefix, k))
            && (prefix in m'.prefixes ==> var s := m'.prefixes[prefix];
                  s == PrefixOf(m, prefix).(pending := s.pending, failed := s.failed))
            && (prefix in m'.prefixes <==>
                !PrefixOf(m, prefix).listDone || Outstanding(m.prefixes, prefix) - {key} != {} || m.filesFrom))
  {
    if key in m.keyPrefix {
      var prefix := m.keyPrefix[key];
      var s := PrefixOf(m, prefix);
      var s' := s.(pending := s.pending - {key}, failed := s.failed - {key});
      UpdatedIs(m.(uploads := m.uploads - {key}, keyPrefix := m.keyPrefix - {key}), prefix, s');
      assert s'.pending.Keys == s.pending.Keys - {key} && s'.failed.Keys == s.failed.Keys - {key};
      forall k | k != key ensures Kinds(MarkCompleted(m, key).prefixes, prefix, k) == Kinds(m.prefixes, prefix, k) {
        assert k in s.pending || k in s.failed ==> k in Outstanding(MarkCompleted(m, key).prefixes, prefix);
      }
    } else {
      assert m.keyPrefix - {key} == m.keyPrefix;
    }
  }

  /** A failed task stays outstanding under its kind, no longer pending and still tracked. */
  lemma FailedIsKept(m: Mgr, key: Key)
    ensures var m' := MarkFailed(m, key);
      && m'.keyPrefix == m.keyPrefix && m'.uploads == m.uploads
      && (key !in m.keyPrefix ==> m' == m)
      && (key in m.keyPrefix && key in Outstanding(m.prefixes, m.keyPrefix[key]) ==> var prefix := m.keyPrefix[key];
            && Elsewhere(m, m', prefix) && prefix in m'.prefixes
            && Outstanding(m'.prefixes, prefix) == Outstanding(m.prefixes, prefix)
            && key in m'.prefixes[prefix].failed && key !in m'.prefixes[prefix].pending
            && (var s := m'.prefixes[prefix]; s == m.prefixes[prefix].(pending := s.pending, failed := s.failed))
            && (forall k :: k != key ==> Kinds(m'.prefixes, prefix, k) == Kinds(m.prefixes, prefix, k))
            && Kinds(m'.prefixes, prefix, key) <= Kinds(m.prefixes, prefix, key))
  {
    if key in m.keyPrefix && key in Outstanding(m.prefixes, m.keyPrefix[key]) {
      var prefix := m.keyPrefix[key];
      var s := PrefixOf(m, prefix);
      var s' := if key in s.pending then s.(pending := s.pending - {key}, failed := s.failed[key := s.pending[key]])
          else s;
      UpdatedIs(m, prefix, s');
      assert key in s'.failed;
    }
  }

  /** A restored prefix has exactly its outstanding tasks queued, each under one of its kinds, all pending and
      tracked; asking again gives nothing and changes nothing. */
  lemma RestoredOnce(m: Mgr, prefix: Key)
    ensures var (m', r) := Restore(m, prefix);
      && Elsewhere(m, m'.(restored := m.restored), prefix) && m'.uploads == m.uploads
      && (r.NotFound? <==> prefix !in m.prefixes || m.prefixes[prefix].isNew)
      && (!r.Tasks? ==> m' == m)
      && (r.Tasks? ==>
            && r.tasks.Keys == Outstanding(m.prefixes, prefix) == Outstanding(m'.prefixes, prefix)
            && (forall k :: k in r.tasks ==>
                r.tasks[k] in Kinds(m.prefixes, prefix, k) && k in m'.keyPrefix && m'.keyPrefix[k] == prefix)
            && m'.prefixes[prefix] == m.prefixes[prefix].(pending := r.tasks, failed := map[])
            && r.listDone == m.prefixes[prefix].listDone && r.depth == m.prefixes[prefix].depth
            && Restore(m', prefix) == (m', Already))
  {}

  /** The way of a task through a save, a crash and a restart: it is queued again exactly if it was
      outstanding and its key is not empty, and under a kind it was outstanding with. */
  lemma SavedAndRestored(m: Mgr, srcDelay: seq<Key>, dstDelay: seq<Key>, prefix: Key, key: Key)
    requires prefix in m.prefixes
    ensures var r := Restore(Load(Snapshot(m.prefixes, m.uploads, srcDelay, dstDelay)), prefix).1;
      && r.Tasks? && r.listDone == m.prefixes[prefix].listDone
      && (key in r.tasks <==> key in Outstanding(m.prefixes, prefix) && key != "")
      && (key in r.tasks ==> r.tasks[key] in Kinds(m.prefixes, prefix, key))
  {}

  // ---- The class -----------------------------------------------------------------------------

  class CheckpointManager {
    var prefixes: map<Key, PrefixState>
    var keyPrefix: map<Key, Key>
    var restored: set<Key>
    var uploads: U.Store
    const filesFrom: bool

    function Now(): Mgr
      reads this
    {
      Mgr(prefixes, keyPrefix, restored, uploads, filesFrom)
    }

    constructor (filesFrom: bool)
      ensures Now() == Mgr(map[], map[], {}, map[], filesFrom)
    {
      this.filesFrom := filesFrom;
      prefixes, keyPrefix, restored, uploads := map[], map[], {}, map[];
    }

    method UpdatePrefixState(prefix: Key, s: PrefixState)
      modifies this`prefixes
      ensures Now() == Updated(old(Now()), prefix, s)
    {
      if s.listDone && |s.pending| == 0 && |s.failed| == 0 && !filesFrom {
        prefixes := prefixes - {prefix};
      } else {
        prefixes := prefixes[prefix := s];
      }
    }

    method GetOrCreate(prefix: Key) returns (s: PrefixState)
      ensures s == PrefixOf(Now(), prefix)
    {
      s := if prefix in prefixes then prefixes[prefix] else NewPrefix;
    }

    method DoAddPending(prefix: Key, key: Key, kind: Kind)
      modifies this`prefixes
      ensures Now() == AddPending(old(Now()), prefix, key, kind)
    {
      var s := GetOrCreate(prefix);
      UpdatePrefixState(prefix, s.(pending := s.pending[key := kind], last := key));
    }

    method DoTrack(key: Key, prefix: Key)
      modifies this`keyPrefix
      ensures Now() == Track(old(Now()), prefix, key)
    {
      keyPrefix := keyPrefix[key := prefix];
    }

    method DoUpdateLast(prefix: Key, key: Key)
      modifies this`prefixes
      ensures Now() == UpdateLast(old(Now()), prefix, key)
    {
      var s := GetOrCreate(prefix);
      UpdatePrefixState(prefix, s.(last := key));
    }

    method DoMarkListDone(prefix: Key)
      modifies this`prefixes
      ensures Now() == MarkListDone(old(Now()), prefix)
    {
      var s := GetOrCreate(prefix);
      UpdatePrefixState(prefix, s.(listDone := true));
    }

    method DoMarkCompleted(key: Key)
      modifies this`prefixes, this`keyPrefix, this`uploads
      ensures Now() == MarkCompleted(old(Now()), key)
    {
      if key in keyPrefix {
        var prefix := keyPrefix[key];
        keyPrefix := keyPrefix - {key};
        var s := GetOrCreate(prefix);
        UpdatePrefixState(prefix, s.(pending := s.pending - {key}, failed := s.failed - {key}));
      }
      uploads := uploads - {key};
    }

    method DoMarkFailed(key: Key)
      modifies this`prefixes
      ensures Now() == MarkFailed(old(Now()), key)
    {
      if key !in keyPrefix { return; }
      var prefix := keyPrefix[key];
      var s := GetOrCreate(prefix);
      if key in s.pending {
        s := s.(pending := s.pending - {key}, failed := s.failed[key := s.pending[key]]);
      }
      UpdatePrefixState(prefix, s);
    }

    method RestorePrefix(prefix: Key) returns (r: Restored)
      modifies this`prefixes, this`keyPrefix, this`restored
      ensures (Now(), r) == Restore(old(Now()), prefix)
    {
      if prefix !in prefixes || prefixes[prefix].isNew { return NotFound; }
      if prefix in restored { return Already; }
      restored := restored + {prefix};
      var s := prefixes[prefix];
      var tasks := s.pending + s.failed;
      prefixes := prefixes[prefix := s.(pending := tasks, failed := map[])];
      keyPrefix := keyPrefix + map k | k in tasks :: prefix;
      r := Tasks(tasks, s.listDone, s.depth);
    }
  }
}

/** Reports from a worker on another host: posts that may be lost, applied without an acknowledgement,
    and sent again. */
module Cluster {
  import opened Keys
  import opened Producer
  import opened Uploads
  import opened Checkpoint

  type Dirty = map<Key, set<int>>

  datatype Report = Report(completed: seq<Key>, failed: seq<Key>, uploads: Store)

  // ---- What a post carries of the uploads in progress ---------------------------------------------------

  function Only<V>(m: map<int, V>, nums: set<int>): map<int, V> {
    map n | n in m && n in nums :: m[n]
  }

  function SentParts(u: Upload, nums: set<int>): Upload {
    u.(parts := Only(u.parts, nums), checksums := Only(u.checksums, nums * u.parts.Keys))
  }

  function SentOf(uploads: Store, dirty: Dirty): Store {
    map k | k in dirty && k in uploads && IsValid(uploads[k]) && Only(uploads[k].parts, dirty[k]) != map[]
      :: SentParts(uploads[k], dirty[k])
  }

  lemma NotEmpty(s: set<int>)
    ensures s == {} || exists n :: n in s
  {
    if forall n :: n !in s { assert s == {}; }
  }

  /** The dirty parts of one upload, with the checksums that are known. */
  method DirtyParts(u: Upload, dirty: set<int>) returns (parts: map<int, Part>, checksums: map<int, int>)
    ensures parts == Only(u.parts, dirty) && checksums == Only(u.checksums, dirty * u.parts.Keys)
  {
    parts, checksums := map[], map[];
    var todo := dirty;
    while todo != {}
      invariant todo <= dirty
      invariant parts == Only(u.parts, dirty - todo) && checksums == Only(u.checksums, (dirty - todo) * u.parts.Keys)
    {
      NotEmpty(todo);
      var num: int :| num in todo;
      todo := todo - {num};
      if num in u.parts {
        parts := parts[num := u.parts[num]];
        if num in u.checksums { checksums := checksums[num := u.checksums[num]]; }
      }
    }
    assert dirty - todo == dirty;
  }

  /** Builds the report's copy of every upload with dirty parts. */
  method GetMultipartUploads(uploads: Store, dirty: Dirty) returns (r: Store)
    ensures r == SentOf(uploads, dirty)
  {
    hide Only;
    r := map[];
    var todo := dirty.Keys;
    while todo != {}
      invariant todo <= dirty.Keys
      invariant r == SentOf(uploads, Done(dirty, todo))
    {
      var key :| key in todo;
      todo := todo - {key};
      if key in uploads && IsValid(uploads[key]) {
        var parts, checksums := DirtyParts(uploads[key], dirty[key]);
        if parts != map[] { r := r[key := uploads[key].(parts := parts, checksums := checksums)]; }
      }
    }
    assert Done(dirty, todo) == dirty;
  }

  ghost function Done<V>(m: map<Key, V>, todo: set<Key>): map<Key, V> {
    map k | k in m && k !in todo :: m[k]
  }

  /** The dirty marks after an acknowledgement: the sent part numbers go, by key. */
  function Cleared(dirty: Dirty, sent: Store): Dirty {
    map k | k in dirty && (k !in sent || dirty[k] - sent[k].parts.Keys != {})
      :: if k in sent then dirty[k] - sent[k].parts.Keys else dirty[k]
  }

  method ClearSentMultipartParts(dirty: Dirty, sent: Store) returns (r: Dirty)
    requires forall k :: k in dirty ==> dirty[k] != {}
    ensures r == Cleared(dirty, sent)
  {
    r := dirty;
    var todo := sent.Keys;
    while todo != {}
      invariant todo <= sent.Keys
      invariant r == Cleared(dirty, Done(sent, todo))
    {
      var key :| key in todo;
      todo := todo - {key};
      if key in r {
        var left := r[key] - sent[key].parts.Keys;
        r := if left == {} then r - {key} else r[key := left];
      }
    }
    assert Done(sent, todo) == sent;
  }

  /** What a report carries of an upload: every dirty part that is still recorded, as it is recorded, with its checksum
      if one is; and no upload without one, none that is not usable. */
  lemma SentIff(uploads: Store, dirty: Dirty, k: Key)
    ensures var r := SentOf(uploads, dirty);
      && (k in r <==>
            && k in uploads && k in dirty && uploads[k].id != "" && uploads[k].minPartSize > 0
            && uploads[k].maxCount > 0 && exists n :: n in dirty[k] && n in uploads[k].parts)
      && (k in r ==> var u, v := uploads[k], r[k];
            && v == u.(parts := v.parts, checksums := v.checksums)
            && (forall n :: n in v.parts <==> n in dirty[k] && n in u.parts)
            && (forall n :: n in v.parts ==> v.parts[n] == u.parts[n])
            && (forall n :: n in v.checksums <==> n in v.parts && n in u.checksums)
            && (forall n :: n in v.checksums ==> v.checksums[n] == u.checksums[n]))
  {
    if k in uploads && k in dirty {
      var sent := Only(uploads[k].parts, dirty[k]);
      if n :| n in dirty[k] && n in uploads[k].parts { assert n in sent; }
      if sent != map[] { NotEmpty(sent.Keys); var n :| n in sent.Keys; }
    }
  }

  /** A part number stays dirty exactly if it was and was not sent; a key stays as long as it has one. */
  lemma ClearedIff(dirty: Dirty, sent: Store, k: Key, n: int)
    requires forall k :: k in dirty ==> dirty[k] != {}
    ensures var r := Cleared(dirty, sent);
      && (k in r && n in r[k] <==> k in dirty && n in dirty[k] && !(k in sent && n in sent[k].parts))
      && (k in r ==> r[k] != {})
  {
    if k in dirty && k in sent && n in dirty[k] && n !in sent[k].parts {
      assert n in dirty[k] - sent[k].parts.Keys;
    }
  }

  // ---- What the manager makes of a report ----------------------------------------------------------------

  /** Every reported upload merged into the record of its key. */
  function PutAll(s: Store, reported: Store): Store {
    map k | k in s.Keys + reported.Keys && (k in s || IsValid(reported[k]))
      :: if k in reported && IsValid(reported[k]) then Put(s, k, reported[k])[k] else s[k]
  }

  function CompleteAll(m: Mgr, keys: seq<Key>): Mgr
    decreases |keys|
  {
    if keys == [] then m else CompleteAll(MarkCompleted(m, keys[0]), keys[1..])
  }

  function FailAll(m: Mgr, keys: seq<Key>): Mgr
    decreases |keys|
  {
    if keys == [] then m else FailAll(MarkFailed(m, keys[0]), keys[1..])
  }

  function Applied(m: Mgr, r: Report): Mgr {
    FailAll(CompleteAll(m.(uploads := PutAll(m.uploads, r.uploads)), r.completed), r.failed)
  }

  /** The handler of a post. */
  method HandleStats(mgr: CheckpointManager, r: Report)
    modifies mgr
    ensures mgr.Now() == Applied(old(mgr.Now()), r)
  {
    MergeUploads(mgr, r.uploads);
    CompleteKeys(mgr, r.completed);
    FailKeys(mgr, r.failed);
  }

  lemma NothingPut(s: Store)
    ensures PutAll(s, map[]) == s
  {}

  lemma PutOneMore(s: Store, reported: Store, key: Key, u: Upload)
    requires key !in reported
    ensures PutAll(s, reported[key := u]) == Put(PutAll(s, reported), key, u)
  {}

  method MergeUploads(mgr: CheckpointManager, uploads: Store)
    modifies mgr`uploads
    ensures mgr.uploads == PutAll(old(mgr.uploads), uploads)
  {
    hide Put, PutAll;
    var todo := uploads.Keys;
    assert Done(uploads, todo) == map[];
    NothingPut(mgr.uploads);
    while todo != {}
      invariant todo <= uploads.Keys
      invariant mgr.uploads == PutAll(old(mgr.uploads), Done(uploads, todo))
    {
      var key :| key in todo;
      PutOneMore(old(mgr.uploads), Done(uploads, todo), key, uploads[key]);
      ghost var rest := todo;
      todo := todo - {key};
      assert Done(uploads, todo) == Done(uploads, rest)[key := uploads[key]];
      mgr.uploads := Put(mgr.uploads, key, uploads[key]);
    }
    assert Done(uploads, todo) == uploads;
  }

  method CompleteKeys(mgr: CheckpointManager, keys: seq<Key>)
    modifies mgr
    ensures mgr.Now() == CompleteAll(old(mgr.Now()), keys)
  {
    hide MarkCompleted;
    var i := 0;
    while i < |keys|
      invariant 0 <= i <= |keys| && CompleteAll(old(mgr.Now()), keys) == CompleteAll(mgr.Now(), keys[i..])
    {
      mgr.DoMarkCompleted(keys[i]);
      i := i + 1;
    }
  }

  method FailKeys(mgr: CheckpointManager, keys: seq<Key>)
    modifies mgr
    ensures mgr.Now() == FailAll(old(mgr.Now()), keys)
  {
    hide MarkFailed;
    var i := 0;
    while i < |keys|
      invariant 0 <= i <= |keys| && FailAll(old(mgr.Now()), keys) == FailAll(mgr.Now(), keys[i..])
    {
      mgr.DoMarkFailed(keys[i]);
      i := i + 1;
    }
  }

  // ---- Key by key ----------------------------------------------------------------------------------------------

  /** How a task stands in a prefix: the kind under which it is pending, and under which it has failed. */
  ghost function Status(m: Mgr, prefix: Key, k: Key): (Option<Kind>, Option<Kind>) {
    if prefix !in m.prefixes then (None, None)
    else
      var s := m.prefixes[prefix];
      (if k in s.pending then Some(s.pending[k]) else None, if k in s.failed then Some(s.failed[k]) else None)
  }

  /** A failure turns a pending task into a failed one of the same kind. */
  ghost function Broken(was: (Option<Kind>, Option<Kind>)): (Option<Kind>, Option<Kind>) {
    if was.0.Some? then (None, was.0) else was
  }

  lemma CompletedStatus(m: Mgr, key: Key, prefix: Key, k: Key)
    ensures var n := MarkCompleted(m, key);
      && Status(n, prefix, k) == (if k == key && key in m.keyPrefix && m.keyPrefix[key] == prefix then (None, None)
                                  else Status(m, prefix, k))
      && n.keyPrefix == m.keyPrefix - {key} && n.uploads == m.uploads - {key}
  {
    if key in m.keyPrefix && m.keyPrefix[key] == prefix && prefix in m.prefixes {
      var s := m.prefixes[prefix];
      assert k != key && k in s.pending ==> k in s.pending - {key};
      assert k != key && k in s.failed ==> k in s.failed - {key};
    }
    if key !in m.keyPrefix { assert m.keyPrefix - {key} == m.keyPrefix; }
  }

  lemma FailedStatus(m: Mgr, key: Key, prefix: Key, k: Key)
    ensures var n := MarkFailed(m, key);
      && Status(n, prefix, k) == (if k == key && key in m.keyPrefix && m.keyPrefix[key] == prefix
                                  then Broken(Status(m, prefix, k)) else Status(m, prefix, k))
      && n.keyPrefix == m.keyPrefix && n.uploads == m.uploads
  {
    if key in m.keyPrefix && m.keyPrefix[key] == prefix && prefix in m.prefixes {
      var s := m.prefixes[prefix];
      if key in s.pending { assert key in s.failed[key := s.pending[key]]; }
      assert k in s.failed ==> s.failed != map[];
    }
  }

  lemma {:induction false} CompleteAllStatus(m: Mgr, keys: seq<Key>, prefix: Key, k: Key)
    ensures var n := CompleteAll(m, keys);
      && Status(n, prefix, k) == (if k in keys && k in m.keyPrefix && m.keyPrefix[k] == prefix then (None, None)
                                  else Status(m, prefix, k))
      && (k in n.keyPrefix <==> k in m.keyPrefix && k !in keys)
      && (k in n.keyPrefix ==> n.keyPrefix[k] == m.keyPrefix[k])
      && (k in n.uploads <==> k in m.uploads && k !in keys) && (k in n.uploads ==> n.uploads[k] == m.uploads[k])
    decreases |keys|
  {
    hide MarkCompleted, Status;
    if keys != [] {
      CompletedStatus(m, keys[0], prefix, k);
      CompleteAllStatus(MarkCompleted(m, keys[0]), keys[1..], prefix, k);
      assert keys == [keys[0]] + keys[1..];
    }
  }

  lemma {:induction false} FailAllStatus(m: Mgr, keys: seq<Key>, prefix: Key, k: Key)
    ensures var n := FailAll(m, keys);
      && Status(n, prefix, k) == (if k in keys && k in m.keyPrefix && m.keyPrefix[k] == prefix
                                  then Broken(Status(m, prefix, k)) else Status(m, prefix, k))
      && n.keyPrefix == m.keyPrefix && n.uploads == m.uploads
    decreases |keys|
  {
    hide MarkFailed, Status;
    if keys != [] {
      FailedStatus(m, keys[0], prefix, k);
      FailAllStatus(MarkFailed(m, keys[0]), keys[1..], prefix, k);
      assert keys == [keys[0]] + keys[1..];
    }
  }

  /** What a report does, key by key: a completed key is tracked and outstanding no more and has no upload, a failed
      one is failed where it was pending, every other key stands as it did; and of the uploads of keys not completed
      the reported ones are merged. */
  lemma AppliedKeyByKey(m: Mgr, r: Report, prefix: Key, k: Key)
    ensures var n := Applied(m, r);
      var tracked := k in m.keyPrefix && m.keyPrefix[k] == prefix;
      && Status(n, prefix, k) == (if k in r.completed && tracked then (None, None)
                                  else if k in r.failed && tracked then Broken(Status(m, prefix, k))
                                  else Status(m, prefix, k))
      && (k in n.keyPrefix <==> k in m.keyPrefix && k !in r.completed)
      && (k in n.keyPrefix ==> n.keyPrefix[k] == m.keyPrefix[k])
      && (k in r.completed ==> k !in n.uploads)
      && (k !in r.completed ==>
            var merged := if k in r.uploads then Put(m.uploads, k, r.uploads[k]) else m.uploads;
            (k in n.uploads <==> k in merged) && (k in n.uploads ==> n.uploads[k] == merged[k]))
  {
    hide CompleteAll, FailAll, Status;
    var u := m.(uploads := PutAll(m.uploads, r.uploads));
    UploadsAside(m, u.uploads, prefix, k);
    CompleteAllStatus(u, r.completed, prefix, k);
    FailAllStatus(CompleteAll(u, r.completed), r.failed, prefix, k);
  }

  lemma UploadsAside(m: Mgr, u: Store, prefix: Key, k: Key)
    ensures Status(m.(uploads := u), prefix, k) == Status(m, prefix, k)
  {}

  // ---- Sending a report again changes nothing -----------------------------------------------------------------

  /** Every tracked key is pending or failed in its prefix. */
  ghost predicate Tracked(m: Mgr) {
    forall k :: k in m.keyPrefix ==>
      && m.keyPrefix[k] in m.prefixes
      && (k in m.prefixes[m.keyPrefix[k]].pending || k in m.prefixes[m.keyPrefix[k]].failed)
  }

  /** A key reported as failed is not pending any more. */
  ghost predicate Settled(m: Mgr, k: Key) {
    k in m.keyPrefix && m.keyPrefix[k] in m.prefixes ==> k !in m.prefixes[m.keyPrefix[k]].pending
  }

  lemma CompletedKeeps(m: Mgr, key: Key)
    requires Tracked(m)
    ensures var n := MarkCompleted(m, key);
      && Tracked(n) && n.keyPrefix == m.keyPrefix - {key} && n.uploads == m.uploads - {key}
      && n.restored == m.restored && n.filesFrom == m.filesFrom
      && (key !in m.keyPrefix ==> n.prefixes == m.prefixes)
      && forall k :: Settled(m, k) ==> Settled(n, k)
  {
    var n := MarkCompleted(m, key);
    forall k | k in n.keyPrefix
      ensures n.keyPrefix[k] in n.prefixes
          && (k in n.prefixes[n.keyPrefix[k]].pending || k in n.prefixes[n.keyPrefix[k]].failed)
    {
      var s := m.prefixes[m.keyPrefix[k]];
      assert k in (s.pending - {key}) || k in (s.failed - {key});
    }
  }

  lemma FailedKeeps(m: Mgr, key: Key)
    requires Tracked(m)
    ensures var n := MarkFailed(m, key);
      && Tracked(n) && n.keyPrefix == m.keyPrefix && n.uploads == m.uploads
      && Settled(n, key) && (Settled(m, key) ==> n == m)
      && forall k :: Settled(m, k) ==> Settled(n, k)
  {
    if key in m.keyPrefix {
      var p := m.keyPrefix[key];
      var s := MarkFailed(m, key).prefixes;
      if Settled(m, key) {
        assert key in m.prefixes[p].failed && m.prefixes[p].failed != map[];
        assert s == m.prefixes[p := m.prefixes[p]] == m.prefixes;
      } else {
        assert p in s && key in s[p].failed && s[p].failed != map[];
      }
    }
  }

  /** The other operations of the manager keep that, too. */
  lemma OperationsTrack(m: Mgr, prefix: Key, key: Key, kind: Kind)
    requires Tracked(m)
    ensures Tracked(Track(AddPending(m, prefix, key, kind), prefix, key))
    ensures Tracked(UpdateLast(m, prefix, key)) && Tracked(MarkListDone(m, prefix)) && Tracked(Restore(m, prefix).0)
  {
    hide Tracked;
    AddTracked(m, prefix, key, kind);
    TouchTracked(m, prefix, PrefixOf(m, prefix).(last := key));
    TouchTracked(m, prefix, PrefixOf(m, prefix).(listDone := true));
    RestoreTracked(m, prefix);
  }

  lemma AddTracked(m: Mgr, prefix: Key, key: Key, kind: Kind)
    requires Tracked(m)
    ensures Tracked(Track(AddPending(m, prefix, key, kind), prefix, key))
  {
    var s := PrefixOf(m, prefix);
    assert key in s.pending[key := kind];
  }

  lemma TouchTracked(m: Mgr, prefix: Key, s: PrefixState)
    requires Tracked(m) && s.pending == PrefixOf(m, prefix).pending && s.failed == PrefixOf(m, prefix).failed
    ensures Tracked(Updated(m, prefix, s))
  {
    forall k | k in m.keyPrefix && m.keyPrefix[k] == prefix ensures s.pending != map[] || s.failed != map[] {
      assert k in s.pending || k in s.failed;
    }
  }

  lemma RestoreTracked(m: Mgr, prefix: Key)
    requires Tracked(m)
    ensures Tracked(Restore(m, prefix).0)
  {
    var n := Restore(m, prefix).0;
    if n != m {
      var s := m.prefixes[prefix];
      forall k | k in n.keyPrefix
        ensures n.keyPrefix[k] in n.prefixes
            && (k in n.prefixes[n.keyPrefix[k]].pending || k in n.prefixes[n.keyPrefix[k]].failed)
      {
        if k in s.pending + s.failed { assert n.keyPrefix[k] == prefix; }
        else { assert n.keyPrefix[k] == m.keyPrefix[k]; }
      }
    }
  }

  lemma {:induction false} CompleteAllTracks(m: Mgr, keys: seq<Key>)
    requires Tracked(m)
    ensures var n := CompleteAll(m, keys);
      Tracked(n) && forall k :: k in n.keyPrefix <==> k in m.keyPrefix && k !in keys
    decreases |keys|
  {
    hide MarkCompleted, Tracked, Settled;
    if keys != [] {
      CompletedKeeps(m, keys[0]);
      CompleteAllTracks(MarkCompleted(m, keys[0]), keys[1..]);
      assert keys == [keys[0]] + keys[1..];
    }
  }

  ghost function KeysIn(keys: seq<Key>): set<Key> {
    set k | k in keys
  }

  lemma KeysInCons(keys: seq<Key>)
    requires keys != []
    ensures KeysIn(keys) == {keys[0]} + KeysIn(keys[1..])
  {
    assert keys == [keys[0]] + keys[1..];
  }

  /** The uploads do not matter to the rest, and completing a key only takes its upload out. */
  lemma {:induction false} CompleteAllUploads(m: Mgr, u: Store, keys: seq<Key>)
    ensures CompleteAll(m.(uploads := u), keys) == CompleteAll(m, keys).(uploads := u - KeysIn(keys))
    decreases |keys|
  {
    hide MarkCompleted;
    if keys != [] {
      OneUpload(m, u, keys[0]);
      KeysInCons(keys);
      CompleteAllUploads(MarkCompleted(m, keys[0]), u - {keys[0]}, keys[1..]);
      assert u - KeysIn(keys) == u - {keys[0]} - KeysIn(keys[1..]);
    }
  }

  lemma OneUpload(m: Mgr, u: Store, key: Key)
    ensures MarkCompleted(m.(uploads := u), key) == MarkCompleted(m, key).(uploads := u - {key})
    ensures MarkFailed(m.(uploads := u), key) == MarkFailed(m, key).(uploads := u)
  {}

  lemma {:induction false} FailAllUploads(m: Mgr, u: Store, keys: seq<Key>)
    ensures FailAll(m.(uploads := u), keys) == FailAll(m, keys).(uploads := u)
    decreases |keys|
  {
    hide MarkFailed;
    if keys != [] {
      OneUpload(m, u, keys[0]);
      FailAllUploads(MarkFailed(m, keys[0]), u, keys[1..]);
    }
  }

  /** Completing keys that are not tracked touches nothing but their uploads. */
  lemma {:induction false} CompleteAllIdle(m: Mgr, keys: seq<Key>)
    requires forall k :: k in keys ==> k !in m.keyPrefix
    ensures CompleteAll(m, keys) == m.(uploads := m.uploads - KeysIn(keys))
    decreases |keys|
  {
    if keys != [] {
      KeysInCons(keys);
      CompleteAllIdle(MarkCompleted(m, keys[0]), keys[1..]);
      assert m.uploads - KeysIn(keys) == m.uploads - {keys[0]} - KeysIn(keys[1..]);
    }
  }

  lemma {:induction false} FailAllKeeps(m: Mgr, keys: seq<Key>)
    requires Tracked(m)
    ensures var n := FailAll(m, keys);
      && Tracked(n) && n.keyPrefix == m.keyPrefix
      && (forall k :: k in keys || Settled(m, k) ==> Settled(n, k))
      && ((forall k :: k in keys ==> Settled(m, k)) ==> n == m)
    decreases |keys|
  {
    hide MarkFailed, Tracked, Settled;
    if keys != [] {
      FailedKeeps(m, keys[0]);
      FailAllKeeps(MarkFailed(m, keys[0]), keys[1..]);
      assert keys == [keys[0]] + keys[1..];
    }
  }

  /** A failure and a completion can change places. */
  lemma FailThenComplete(m: Mgr, f: Key, x: Key)
    requires Tracked(m)
    ensures MarkCompleted(MarkFailed(m, f), x) == MarkFailed(MarkCompleted(m, x), f)
  {
    if f in m.keyPrefix && x in m.keyPrefix {
      if m.keyPrefix[f] == m.keyPrefix[x] { SamePrefix(m, f, x); } else { OtherPrefix(m, f, x); }
    }
  }

  /** A prefix after one of its tasks has failed, or is completed. */
  function FailIn(s: PrefixState, f: Key): PrefixState {
    if f in s.pending then s.(pending := s.pending - {f}, failed := s.failed[f := s.pending[f]]) else s
  }

  function CompleteIn(s: PrefixState, x: Key): PrefixState {
    s.(pending := s.pending - {x}, failed := s.failed - {x})
  }

  lemma InOnePrefix(s: PrefixState, f: Key, x: Key)
    requires f in s.pending || f in s.failed
    ensures f != x ==> CompleteIn(FailIn(s, f), x) == FailIn(CompleteIn(s, x), f)
    ensures CompleteIn(FailIn(s, f), f) == CompleteIn(s, f)
    ensures f in FailIn(s, f).failed && (f != x ==> f in CompleteIn(FailIn(s, f), x).failed)
  {
    if f in s.pending && f != x {
      assert s.pending - {f} - {x} == s.pending - {x} - {f};
      assert s.failed[f := s.pending[f]] - {x} == (s.failed - {x})[f := s.pending[f]];
    }
    if f in s.pending {
      assert s.pending - {f} - {f} == s.pending - {f};
      assert s.failed[f := s.pending[f]] - {f} == s.failed - {f};
    }
  }

  lemma SamePrefix(m: Mgr, f: Key, x: Key)
    requires Tracked(m) && f in m.keyPrefix && x in m.keyPrefix && m.keyPrefix[f] == m.keyPrefix[x]
    ensures MarkCompleted(MarkFailed(m, f), x) == MarkFailed(MarkCompleted(m, x), f)
  {
    var p := m.keyPrefix[f];
    var s := m.prefixes[p];
    InOnePrefix(s, f, x);
    hide Tracked;
    MarkedFailed(m, f, s);
    var m1 := MarkFailed(m, f);
    MarkedCompleted(m1, x, FailIn(s, f));
    MarkedCompleted(m, x, s);
    var m2 := MarkCompleted(m, x);
    if f != x {
      assert f in CompleteIn(s, x).pending || f in CompleteIn(s, x).failed;
      MarkedFailed(m2, f, CompleteIn(s, x));
    }
  }

  lemma MarkedFailed(m: Mgr, f: Key, s: PrefixState)
    requires f in m.keyPrefix && m.keyPrefix[f] in m.prefixes && s == m.prefixes[m.keyPrefix[f]]
        && (f in s.pending || f in s.failed)
    ensures MarkFailed(m, f) == m.(prefixes := m.prefixes[m.keyPrefix[f] := FailIn(s, f)])
  {
    assert f in FailIn(s, f).failed;
  }

  lemma MarkedCompleted(m: Mgr, x: Key, s: PrefixState)
    requires x in m.keyPrefix && m.keyPrefix[x] in m.prefixes && s == m.prefixes[m.keyPrefix[x]]
    ensures MarkCompleted(m, x) ==
            Updated(m.(uploads := m.uploads - {x}, keyPrefix := m.keyPrefix - {x}), m.keyPrefix[x], CompleteIn(s, x))
  {}

  lemma OtherPrefix(m: Mgr, f: Key, x: Key)
    requires Tracked(m) && f in m.keyPrefix && x in m.keyPrefix && m.keyPrefix[f] != m.keyPrefix[x]
    ensures MarkCompleted(MarkFailed(m, f), x) == MarkFailed(MarkCompleted(m, x), f)
  {
    var p, q := m.keyPrefix[f], m.keyPrefix[x];
    var s, t := m.prefixes[p], m.prefixes[q];
    hide Tracked;
    MarkedFailed(m, f, s);
    MarkedCompleted(m, x, t);
    MarkedCompleted(MarkFailed(m, f), x, t);
    MarkedFailed(MarkCompleted(m, x), f, s);
    assert m.prefixes[p := FailIn(s, f)] - {q} == (m.prefixes - {q})[p := FailIn(s, f)];
    assert m.prefixes[p := FailIn(s, f)][q := CompleteIn(t, x)] == m.prefixes[q := CompleteIn(t, x)][p := FailIn(s, f)];
  }

  lemma {:induction false} FailAllThenComplete(m: Mgr, failed: seq<Key>, x: Key)
    requires Tracked(m)
    ensures MarkCompleted(FailAll(m, failed), x) == FailAll(MarkCompleted(m, x), failed)
    decreases |failed|
  {
    hide MarkCompleted, MarkFailed, Tracked, Settled;
    if failed != [] {
      FailedKeeps(m, failed[0]);
      FailAllThenComplete(MarkFailed(m, failed[0]), failed[1..], x);
      FailThenComplete(m, failed[0], x);
    }
  }

  lemma {:induction false} FailAllThenCompleteAll(m: Mgr, failed: seq<Key>, keys: seq<Key>)
    requires Tracked(m)
    ensures CompleteAll(FailAll(m, failed), keys) == FailAll(CompleteAll(m, keys), failed)
    decreases |keys|
  {
    hide MarkCompleted, MarkFailed, Tracked, Settled, FailAll;
    if keys != [] {
      FailAllThenComplete(m, failed, keys[0]);
      CompletedKeeps(m, keys[0]);
      FailAllThenCompleteAll(MarkCompleted(m, keys[0]), failed, keys[1..]);
    }
  }

  lemma {:induction false} CompleteAllSplits(m: Mgr, a: seq<Key>, b: seq<Key>)
    ensures CompleteAll(m, a + b) == CompleteAll(CompleteAll(m, a), b)
    decreases |a|
  {
    hide MarkCompleted;
    if a == [] {
      assert a + b == b;
    } else {
      assert (a + b)[0] == a[0] && (a + b)[1..] == a[1..] + b;
      CompleteAllSplits(MarkCompleted(m, a[0]), a[1..], b);
    }
  }

  lemma {:induction false} FailAllSplits(m: Mgr, a: seq<Key>, b: seq<Key>)
    ensures FailAll(m, a + b) == FailAll(FailAll(m, a), b)
    decreases |a|
  {
    hide MarkFailed;
    if a == [] {
      assert a + b == b;
    } else {
      assert (a + b)[0] == a[0] && (a + b)[1..] == a[1..] + b;
      FailAllSplits(MarkFailed(m, a[0]), a[1..], b);
    }
  }

  /** What a report does to everything but the uploads. */
  function Marks(m: Mgr, r: Report): Mgr {
    FailAll(CompleteAll(m, r.completed), r.failed)
  }

  lemma AppliedIs(m: Mgr, r: Report)
    ensures Applied(m, r) == Marks(m, r).(uploads := PutAll(m.uploads, r.uploads) - KeysIn(r.completed))
  {
    hide CompleteAll, FailAll, PutAll;
    var u := PutAll(m.uploads, r.uploads);
    CompleteAllUploads(m, u, r.completed);
    FailAllUploads(CompleteAll(m, r.completed), u - KeysIn(r.completed), r.failed);
  }

  lemma MarksUploads(m: Mgr, u: Store, r: Report)
    ensures Marks(m.(uploads := u), r) == Marks(m, r).(uploads := u - KeysIn(r.completed))
  {
    hide CompleteAll, FailAll;
    CompleteAllUploads(m, u, r.completed);
    FailAllUploads(CompleteAll(m, r.completed), u - KeysIn(r.completed), r.failed);
  }

  /** The keys of a later report that begin with those of `r`. */
  ghost predicate Repeats(r: Report, r': Report) {
    r.completed <= r'.completed && r.failed <= r'.failed
  }

  /** Marks made twice, the second time with more, are those of the second time alone. */
  lemma MarksTwice(m: Mgr, r: Report, r': Report)
    requires Tracked(m) && Repeats(r, r')
    ensures Marks(Marks(m, r), r').(uploads := m.uploads) == Marks(m, r').(uploads := m.uploads)
  {
    hide CompleteAll, FailAll, Tracked, Settled;
    var more, later := r'.completed[|r.completed|..], r'.failed[|r.failed|..];
    assert r'.completed == r.completed + more && r'.failed == r.failed + later;
    CompleteAllTracks(m, r.completed);
    var b := CompleteAll(m, r.completed);
    FailAllKeeps(b, r.failed);
    var one := FailAll(b, r.failed);
    CompleteAllIdle(one, r.completed);
    CompleteAllSplits(one, r.completed, more);
    CompleteAllSplits(m, r.completed, more);
    var u := one.uploads - KeysIn(r.completed);
    CompleteAllUploads(one, u, more);
    FailAllThenCompleteAll(b, r.failed, more);
    CompleteAllTracks(b, more);
    var two := CompleteAll(b, more);
    FailAllUploads(FailAll(two, r.failed), u - KeysIn(more), r'.failed);
    FailAllSplits(FailAll(two, r.failed), r.failed, later);
    FailAllSplits(two, r.failed, later);
    FailAllKeeps(two, r.failed);
    FailAllKeeps(FailAll(two, r.failed), r.failed);
  }

  // ---- What becomes of the uploads ---------------------------------------------------------------------------

  /** The same upload with at least the same parts and checksums on record. */
  ghost predicate Extends(u: Upload, v: Upload) {
    v == u.(parts := v.parts, checksums := v.checksums) && u.parts.Keys <= v.parts.Keys
        && u.checksums.Keys <= v.checksums.Keys
  }

  /** The upload of one key goes on in a later report, or is a new one that the manager did not know before. */
  ghost predicate GoesOn(known: Store, r: Report, r': Report, k: Key)
    requires k in r.uploads
  {
    && k in r'.uploads && IsValid(r'.uploads[k])
    && var u, v := r.uploads[k], r'.uploads[k];
       if u.id == v.id then Extends(u, v) else k in known ==> known[k].id != v.id
  }

  ghost predicate UploadsGoOn(known: Store, r: Report, r': Report) {
    forall k :: k in r.uploads && IsValid(r.uploads[k]) && k !in r'.completed ==> GoesOn(known, r, r', k)
  }

  /** The record of the key has all that is reported. */
  ghost predicate Has(s: Store, k: Key, u: Upload) {
    k in s && s[k].id == u.id && s[k].parts + u.parts == s[k].parts && s[k].checksums + u.checksums == s[k].checksums
  }

  /** What the manager makes of a key's upload in both reports is what it makes of the later one; without one,
      it knew all before. */
  ghost predicate Absorbed(known: Store, r: Report, r': Report, k: Key) {
    k in r.uploads && IsValid(r.uploads[k]) && k !in r'.completed ==>
      var u := r.uploads[k];
      if k in r'.uploads && IsValid(r'.uploads[k])
      then Put(Put(known, k, u), k, r'.uploads[k])[k] == Put(known, k, r'.uploads[k])[k]
      else Has(known, k, u)
  }

  lemma GoesOnIsAbsorbed(known: Store, r: Report, r': Report, k: Key)
    requires k in r.uploads && IsValid(r.uploads[k]) && k !in r'.completed && GoesOn(known, r, r', k)
    ensures Absorbed(known, r, r', k)
  {
    var u, v := r.uploads[k], r'.uploads[k];
    if u.id == v.id {
      assert u.parts + v.parts == v.parts && u.checksums + v.checksums == v.checksums;
      if k in known && known[k].id == u.id {
        assert known[k].parts + u.parts + v.parts == known[k].parts + v.parts;
        assert known[k].checksums + u.checksums + v.checksums == known[k].checksums + v.checksums;
      }
    }
  }

  /** The uploads after both reports. */
  ghost function AfterBoth(known: Store, r: Report, r': Report): Store {
    PutAll(PutAll(known, r.uploads) - KeysIn(r.completed), r'.uploads) - KeysIn(r'.completed)
  }

  ghost predicate SameAt<V>(a: map<Key, V>, b: map<Key, V>, k: Key) {
    (k in a <==> k in b) && (k in a ==> a[k] == b[k])
  }

  lemma SameMaps<V>(a: map<Key, V>, b: map<Key, V>)
    requires forall k :: SameAt(a, b, k)
    ensures a == b
  {
    forall k ensures k in a <==> k in b { assert SameAt(a, b, k); }
    forall k | k in a ensures a[k] == b[k] { assert SameAt(a, b, k); }
  }

  lemma AbsorbedIff(known: Store, r: Report, r': Report, k: Key)
    requires Repeats(r, r')
    ensures SameAt(AfterBoth(known, r, r'), PutAll(known, r'.uploads) - KeysIn(r'.completed), k) <==>
        Absorbed(known, r, r', k)
    ensures (k in r.uploads && IsValid(r.uploads[k]) && k !in r'.completed
             && !(k in r'.uploads && IsValid(r'.uploads[k]))) ==>
              k in AfterBoth(known, r, r') && AfterBoth(known, r, r')[k] == Put(known, k, r.uploads[k])[k]
  {
    if k !in r'.completed {
      var once := PutAll(known, r.uploads) - KeysIn(r.completed);
      assert k !in r.completed;
      if k in r.uploads && IsValid(r.uploads[k]) {
        assert k in once && once[k] == Put(known, k, r.uploads[k])[k];
        if k in r'.uploads && IsValid(r'.uploads[k]) { PutAt(once, Put(known, k, r.uploads[k]), k, r'.uploads[k]); }
      } else {
        assert SameAt(once, known, k);
        if k in r'.uploads && IsValid(r'.uploads[k]) { PutAt(once, known, k, r'.uploads[k]); }
      }
    }
  }

  lemma PutAt(s: Store, s': Store, k: Key, u: Upload)
    requires IsValid(u) && SameAt(s, s', k)
    ensures k in Put(s, k, u) && k in Put(s', k, u) && Put(s, k, u)[k] == Put(s', k, u)[k]
  {}

  /** Of two reports, the second beginning with the keys of the first, both together leave all but the uploads as
      the second alone. */
  lemma RetryIs(m: Mgr, r: Report, r': Report)
    requires Tracked(m) && Repeats(r, r')
    ensures Applied(Applied(m, r), r') == Applied(m, r').(uploads := AfterBoth(m.uploads, r, r'))
        && Tracked(Applied(m, r))
  {
    hide Marks, PutAll, Tracked;
    AppliedIs(m, r);
    AppliedIs(m, r');
    var once := PutAll(m.uploads, r.uploads) - KeysIn(r.completed);
    AppliedIs(Marks(m, r).(uploads := once), r');
    MarksUploads(Marks(m, r), once, r');
    MarksTwice(m, r, r');
    MarksTracked(m, r);
    TrackedUploads(Marks(m, r), once);
  }

  /** A report that was applied but not acknowledged comes again with its keys in front of newer ones: applying
      both is the same as applying the later one alone exactly if the later one absorbs each upload. */
  lemma RetryAbsorbsIff(m: Mgr, r: Report, r': Report)
    requires Tracked(m) && Repeats(r, r')
    ensures Applied(Applied(m, r), r') == Applied(m, r') <==> forall k :: Absorbed(m.uploads, r, r', k)
  {
    hide Applied, PutAll, AfterBoth, Absorbed, Tracked, Repeats;
    RetryIs(m, r, r');
    AppliedUploads(m, r');
    var both, later := AfterBoth(m.uploads, r, r'), PutAll(m.uploads, r'.uploads) - KeysIn(r'.completed);
    forall k ensures SameAt(both, later, k) <==> Absorbed(m.uploads, r, r', k) { AbsorbedIff(m.uploads, r, r', k); }
    if forall k :: Absorbed(m.uploads, r, r', k) { SameMaps(both, later); }
  }

  lemma AppliedUploads(m: Mgr, r: Report)
    ensures Applied(m, r).uploads == PutAll(m.uploads, r.uploads) - KeysIn(r.completed)
  {
    AppliedIs(m, r);
  }

  /** In particular if the uploads go on. */
  lemma RetryAbsorbs(m: Mgr, r: Report, r': Report)
    requires Tracked(m) && Repeats(r, r') && UploadsGoOn(m.uploads, r, r')
    ensures Applied(Applied(m, r), r') == Applied(m, r') && Tracked(Applied(m, r))
  {
    hide Applied, Absorbed, Tracked, Repeats, GoesOn;
    forall k ensures Absorbed(m.uploads, r, r', k) { AbsorbsOne(m, r, r', k); }
    RetryAbsorbsIff(m, r, r');
    RetryIs(m, r, r');
  }

  lemma AbsorbsOne(m: Mgr, r: Report, r': Report, k: Key)
    requires UploadsGoOn(m.uploads, r, r')
    ensures Absorbed(m.uploads, r, r', k)
  {
    if k in r.uploads && IsValid(r.uploads[k]) && k !in r'.completed { GoesOnIsAbsorbed(m.uploads, r, r', k); }
  }

  /** An upload given up in between leaves the record of the first report behind, which the later one alone
      would not have made. */
  lemma StaysBehind(m: Mgr, r: Report, r': Report, k: Key)
    requires Tracked(m) && Repeats(r, r') && k in r.uploads && IsValid(r.uploads[k]) && k !in r'.completed
        && k !in r'.uploads
    ensures var both, later := Applied(Applied(m, r), r').uploads, Applied(m, r').uploads;
            && k in both && both[k] == Put(m.uploads, k, r.uploads[k])[k]
            && (k in later <==> k in m.uploads) && (k in later ==> later[k] == m.uploads[k])
  {
    hide Applied, AfterBoth, Tracked, Repeats;
    RetryIs(m, r, r');
    AppliedUploads(m, r');
    AbsorbedIff(m.uploads, r, r', k);
  }

  /** A report that takes effect only after the one that repeats it: nothing changes, exactly if the records of
      uploads that it does not complete are there with all it reports. */
  lemma LateIsIdleIff(m: Mgr, r: Report, r': Report)
    requires Tracked(m) && Repeats(r, r')
    ensures var m' := Applied(m, r');
      Applied(m', r) == m' <==>
        forall k :: k in r.uploads && IsValid(r.uploads[k]) && k !in r.completed ==> Has(m'.uploads, k, r.uploads[k])
  {
    hide Marks, PutAll, Tracked, Has;
    var m' := Applied(m, r');
    AppliedIs(m, r');
    AppliedIs(m', r);
    LateMarks(m, r, r', m'.uploads);
    var after := PutAll(m'.uploads, r.uploads) - KeysIn(r.completed);
    assert forall k :: k in r.completed ==> k !in m'.uploads;
    forall k ensures SameAt(after, m'.uploads, k) <==>
                     (k in r.uploads && IsValid(r.uploads[k]) && k !in r.completed ==> Has(m'.uploads, k, r.uploads[k]))
    {
      LateUpload(m'.uploads, r, k);
    }
    if forall k :: SameAt(after, m'.uploads, k) { SameMaps(after, m'.uploads); }
  }

  lemma LateUpload(s: Store, r: Report, k: Key)
    requires k in r.completed ==> k !in s
    ensures SameAt(PutAll(s, r.uploads) - KeysIn(r.completed), s, k) <==>
            (k in r.uploads && IsValid(r.uploads[k]) && k !in r.completed ==> Has(s, k, r.uploads[k]))
  {}

  /** The keys of the earlier report are all completed or failed already. */
  lemma LateMarks(m: Mgr, r: Report, r': Report, u: Store)
    requires Tracked(m) && Repeats(r, r')
    ensures Marks(Marks(m, r').(uploads := u), r) == Marks(m, r').(uploads := u - KeysIn(r.completed))
  {
    hide CompleteAll, FailAll, Tracked, Settled;
    CompleteAllTracks(m, r'.completed);
    var b := CompleteAll(m, r'.completed);
    FailAllKeeps(b, r'.failed);
    var one := FailAll(b, r'.failed).(uploads := u);
    TrackedUploads(FailAll(b, r'.failed), u);
    CompleteAllIdle(one, r.completed);
    forall k | k in r.failed ensures Settled(FailAll(b, r'.failed).(uploads := u - KeysIn(r.completed)), k) {
      SettledUploads(FailAll(b, r'.failed), u - KeysIn(r.completed), k);
    }
    TrackedUploads(FailAll(b, r'.failed), u - KeysIn(r.completed));
    FailAllKeeps(FailAll(b, r'.failed).(uploads := u - KeysIn(r.completed)), r.failed);
  }

  lemma SettledUploads(m: Mgr, u: Store, k: Key)
    requires Settled(m, k)
    ensures Settled(m.(uploads := u), k)
  {}

  lemma MarksTracked(m: Mgr, r: Report)
    requires Tracked(m)
    ensures Tracked(Marks(m, r))
  {
    hide Tracked, Settled;
    CompleteAllTracks(m, r.completed);
    FailAllKeeps(CompleteAll(m, r.completed), r.failed);
  }

  lemma TrackedUploads(m: Mgr, u: Store)
    requires Tracked(m)
    ensures Tracked(m.(uploads := u))
  {}

  /** In particular a report applied twice is a report applied once. */
  lemma RedeliveryIsIdle(m: Mgr, r: Report)
    requires Tracked(m)
    ensures Applied(Applied(m, r), r) == Applied(m, r)
    ensures Tracked(Applied(m, r))
  {
    RetryAbsorbs(m, r, r);
  }
}

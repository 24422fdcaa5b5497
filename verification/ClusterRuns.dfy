/** Every run of a worker that reports over lossy posts while it goes on working. */
module ClusterRuns {
  import opened Keys
  import opened Producer
  import opened Uploads
  import opened Checkpoint
  import opened Cluster

  // ---- The worker's buffers ------------------------------------------------------------------------------

  datatype Buffers = Buffers(completed: seq<Key>, failed: seq<Key>, uploads: Store, dirty: Dirty)

  function TakenReport(b: Buffers): Report {
    Report(b.completed, b.failed, SentOf(b.uploads, b.dirty))
  }

  function AfterTake(b: Buffers): Buffers {
    b.(completed := [], failed := [])
  }

  /** The post failed or was not answered: its keys go back in front of those finished meanwhile. */
  function AfterFailure(b: Buffers, r: Report): Buffers {
    b.(completed := r.completed + b.completed, failed := r.failed + b.failed)
  }

  function AfterOK(b: Buffers, r: Report): Buffers {
    b.(dirty := Cleared(b.dirty, r.uploads))
  }

  function WithDirty(d: Dirty, key: Key, num: int): Dirty {
    d[key := (if key in d then d[key] else {}) + {num}]
  }

  /** The globals of the worker process; each method is one of its critical sections. */
  class ReportBuffers {
    var completedKeysBuf: seq<Key>
    var failedKeysBuf: seq<Key>
    var uploads: Store
    var dirtyParts: Dirty

    function Now(): Buffers
      reads this
    {
      Buffers(completedKeysBuf, failedKeysBuf, uploads, dirtyParts)
    }

    ghost predicate Valid()
      reads this
    {
      forall k :: k in dirtyParts ==> dirtyParts[k] != {}
    }

    constructor ()
      ensures Valid() && Now() == Buffers([], [], map[], map[])
    {
      completedKeysBuf, failedKeysBuf, uploads, dirtyParts := [], [], map[], map[];
    }

    method MarkMultipartPart(key: Key, part: Part, chksum: int, calChksum: bool)
      requires Valid() && key in uploads && IsValid(uploads[key])
      modifies this
      ensures Valid()
      ensures Now() == old(Now()).(uploads := old(uploads)[key := AddPart(old(uploads)[key], part, chksum, calChksum)],
                                   dirty := WithDirty(old(dirtyParts), key, part.num))
    {
      uploads := uploads[key := AddPart(uploads[key], part, chksum, calChksum)];
      dirtyParts := WithDirty(dirtyParts, key, part.num);
    }

    method FinishMultipartUpload(key: Key)
      requires Valid()
      modifies this
      ensures Valid() && Now() == old(Now()).(uploads := old(uploads) - {key}, dirty := old(dirtyParts) - {key})
    {
      uploads, dirtyParts := uploads - {key}, dirtyParts - {key};
    }

    /** The first half of sending: the buffers are swapped out, the dirty parts copied. */
    method Take() returns (r: Report)
      requires Valid()
      modifies this
      ensures Valid() && r == TakenReport(old(Now())) && Now() == AfterTake(old(Now()))
      ensures r == Report(old(completedKeysBuf), old(failedKeysBuf), SentOf(uploads, dirtyParts))
      ensures completedKeysBuf == [] && failedKeysBuf == []
      ensures uploads == old(uploads) && dirtyParts == old(dirtyParts)
    {
      var completed, failed := completedKeysBuf, failedKeysBuf;
      completedKeysBuf, failedKeysBuf := [], [];
      var sent := GetMultipartUploads(uploads, dirtyParts);
      r := Report(completed, failed, sent);
    }

    /** The second half, once the post has been answered or has failed. */
    method Settle(r: Report, ok: bool)
      requires Valid()
      modifies this
      ensures Valid() && Now() == if ok then AfterOK(old(Now()), r) else AfterFailure(old(Now()), r)
      ensures uploads == old(uploads)
      ensures dirtyParts == if ok then Cleared(old(dirtyParts), r.uploads) else old(dirtyParts)
      ensures completedKeysBuf == (if ok then [] else r.completed) + old(completedKeysBuf)
      ensures failedKeysBuf == (if ok then [] else r.failed) + old(failedKeysBuf)
    {
      if ok {
        dirtyParts := ClearSentMultipartParts(dirtyParts, r.uploads);
      } else {
        completedKeysBuf, failedKeysBuf := r.completed + completedKeysBuf, r.failed + failedKeysBuf;
      }
    }
  }

  /** A part once marked is in the next report, with its checksum if there is one; all else is reported as before. */
  lemma MarkedIsReported(b: Buffers, key: Key, part: Part, chksum: int, cal: bool)
    requires key in b.uploads && IsValid(b.uploads[key])
    ensures var b' := b.(uploads := b.uploads[key := AddPart(b.uploads[key], part, chksum, cal)],
        dirty := WithDirty(b.dirty, key, part.num));
      var was, r := TakenReport(b).uploads, TakenReport(b').uploads;
      && key in r && part.num in r[key].parts && r[key].parts[part.num] == part && r[key].id == b.uploads[key].id
      && (cal ==> part.num in r[key].checksums && r[key].checksums[part.num] == chksum)
      && (forall n :: n != part.num && key in was && n in was[key].parts ==>
          n in r[key].parts && r[key].parts[n] == was[key].parts[n])
      && (forall n :: n != part.num && n in r[key].parts ==> key in was && n in was[key].parts)
      && (forall k :: k != key ==> (k in r <==> k in was) && (k in r ==> r[k] == was[k]))
  {
    var b' := b.(uploads := b.uploads[key := AddPart(b.uploads[key], part, chksum, cal)],
        dirty := WithDirty(b.dirty, key, part.num));
    assert part.num in Only(b'.uploads[key].parts, b'.dirty[key]);
    forall n | n != part.num && n in TakenReport(b').uploads[key].parts
      ensures key in TakenReport(b).uploads && n in TakenReport(b).uploads[key].parts
    {
      assert n in Only(b.uploads[key].parts, b.dirty[key]);
    }
  }

  /** An upload that is closed is reported no more; the others are as before. */
  lemma ClosedIsNotReported(b: Buffers, key: Key)
    ensures var b' := b.(uploads := b.uploads - {key}, dirty := b.dirty - {key});
            TakenReport(b').uploads == TakenReport(b).uploads - {key}
  {}

  // ---- Runs ------------------------------------------------------------------------------------------------

  /** A part as it was reported: which upload, which number, which content. */
  datatype Sent = Sent(key: Key, id: string, num: int, part: Part)

  /** The worker, the post under way, posts given up that may still arrive, and what has happened so far: keys
      finished and failed, reports the manager has applied, and what it has acknowledged. */
  datatype State = State(b: Buffers, post: Option<Report>, applied: bool, late: seq<Report>,
                         done: multiset<Key>, broken: multiset<Key>, log: seq<Report>,
                         ackedDone: multiset<Key>, ackedBroken: multiset<Key>, ackedParts: set<Sent>)

  datatype Label =
    | Finish(key: Key) | Fail(key: Key)
    | Fetch(key: Key, upload: Upload)                 // a task arrives with the manager's record of its upload
    | Ensure(key: Key, upload: Upload)                // a record is opened, without parts
    | Mark(key: Key, part: Part, chksum: int, cal: bool)
    | Stale(key: Key, num: int)                       // a part of an upload that is no longer recorded
    | Close(key: Key)                                 // the upload is complete or given up
    | Take | Apply | Answer(ok: bool)
    | Arrive(i: nat)                                  // a post that was given up takes effect after all

  function PartsOf(s: Store): set<Sent> {
    set k, n | k in s && n in s[k].parts :: Sent(k, s[k].id, n, s[k].parts[n])
  }

  ghost predicate Next(s: State, l: Label, t: State) {
    match l
    case Finish(k) => t == s.(b := s.b.(completed := s.b.completed + [k]), done := s.done + multiset{k})
    case Fail(k) => t == s.(b := s.b.(failed := s.b.failed + [k]), broken := s.broken + multiset{k})
    case Fetch(k, u) =>
      && IsValid(u)
      && t == s.(b := s.b.(uploads := Put(s.b.uploads, k, u)), ackedParts := s.ackedParts + PartsOf(map[k := u]))
    case Ensure(k, u) => u.parts == map[] && t == s.(b := s.b.(uploads := s.b.uploads[k := u]))
    case Mark(k, p, c, cal) =>
      && k in s.b.uploads && IsValid(s.b.uploads[k])
      && t == s.(b := s.b.(uploads := s.b.uploads[k := AddPart(s.b.uploads[k], p, c, cal)],
          dirty := WithDirty(s.b.dirty, k, p.num)))
    case Stale(k, n) => t == s.(b := s.b.(dirty := WithDirty(s.b.dirty, k, n)))
    case Close(k) => t == s.(b := s.b.(uploads := s.b.uploads - {k}, dirty := s.b.dirty - {k}))
    case Take => s.post.None? && t == s.(b := AfterTake(s.b), post := Some(TakenReport(s.b)), applied := false)
    case Apply => s.post.Some? && !s.applied && t == s.(applied := true, log := s.log + [s.post.value])
    case Answer(ok) =>
      && s.post.Some? && (ok ==> s.applied)
      && t == if ok
              then s.(b := AfterOK(s.b, s.post.value), post := None,
                      ackedDone := s.ackedDone + multiset(s.post.value.completed),
                      ackedBroken := s.ackedBroken + multiset(s.post.value.failed),
                      ackedParts := s.ackedParts + PartsOf(s.post.value.uploads))
              else s.(b := AfterFailure(s.b, s.post.value), post := None,
                      late := if s.applied then s.late else s.late + [s.post.value])
    case Arrive(i) => i < |s.late| && t == s.(late := s.late[..i] + s.late[i + 1..], log := s.log + [s.late[i]])
  }

  const INIT: State := State(Buffers([], [], map[], map[]), None, false, [], multiset{}, multiset{}, [], multiset{},
                             multiset{}, {})

  /** Every finished key is buffered, under way or acknowledged, as often as it finished and no oftener. */
  ghost predicate KeysCounted(s: State) {
    && s.done == multiset(s.b.completed) + Under(s, true) + s.ackedDone
    && s.broken == multiset(s.b.failed) + Under(s, false) + s.ackedBroken
  }

  /** What is acknowledged was applied. */
  ghost predicate KeysApplied(s: State) {
    && (forall k :: k in s.ackedDone ==> exists r :: r in s.log && k in r.completed)
    && (forall k :: k in s.ackedBroken ==> exists r :: r in s.log && k in r.failed)
    && (s.post.Some? && s.applied ==> s.post.value in s.log)
  }

  ghost predicate KeysHeld(s: State) {
    KeysCounted(s) && KeysApplied(s)
  }

  /** The keys of the post under way. */
  ghost function Under(s: State, completed: bool): multiset<Key> {
    if s.post.None? then multiset{} else multiset(if completed then s.post.value.completed else s.post.value.failed)
  }

  /** Every part of a live upload will be reported again or has been acknowledged. */
  ghost predicate PartsHeld(uploads: Store, dirty: Dirty, acked: set<Sent>) {
    forall k, n :: k in uploads && IsValid(uploads[k]) && n in uploads[k].parts ==>
      (k in dirty && n in dirty[k]) || Sent(k, uploads[k].id, n, uploads[k].parts[n]) in acked
  }

  /** Steps that leave the keys alone. */
  lemma SameKeys(s: State, l: Label, t: State)
    requires Next(s, l, t) && !l.Finish? && !l.Fail? && !l.Take? && !l.Answer?
    ensures t.b.completed == s.b.completed && t.b.failed == s.b.failed && t.post == s.post
    ensures t.done == s.done && t.broken == s.broken && t.ackedDone == s.ackedDone && t.ackedBroken == s.ackedBroken
  {
    hide Put, WithDirty, AddPart, IsValid, PartsOf;
  }

  lemma CountedStep(s: State, l: Label, t: State)
    requires Next(s, l, t) && KeysCounted(s)
    ensures KeysCounted(t)
  {
    hide Next, Cleared, SentOf;
    if l.Finish? || l.Fail? { FinishedKeys(s, l, t); }
    else if l.Take? { TakeIs(s, t); TakenCounted(s, t); }
    else if l.Answer? { AnsweredKeys(s, l.ok, t); }
    else { SameKeys(s, l, t); }
  }

  lemma FinishedKeys(s: State, l: Label, t: State)
    requires Next(s, l, t) && KeysCounted(s) && (l.Finish? || l.Fail?)
    ensures KeysCounted(t)
  {
    Joined(s.b.completed, [l.key]);
    Joined(s.b.failed, [l.key]);
  }

  lemma TakenCounted(s: State, t: State)
    requires Next(s, Take, t) && KeysCounted(s)
    ensures KeysCounted(t)
  {
    hide SentOf;
  }

  lemma AnswerIs(s: State, ok: bool, t: State)
    requires Next(s, Answer(ok), t)
    ensures s.post.Some? && t.post.None? && t.done == s.done && t.broken == s.broken
    ensures var r := s.post.value;
      if ok then
        && t.b.completed == s.b.completed && t.ackedDone == s.ackedDone + multiset(r.completed)
        && t.b.failed == s.b.failed && t.ackedBroken == s.ackedBroken + multiset(r.failed)
      else
        && t.b.completed == r.completed + s.b.completed && t.ackedDone == s.ackedDone
        && t.b.failed == r.failed + s.b.failed && t.ackedBroken == s.ackedBroken
  {
    hide Cleared, PartsOf;
  }

  lemma AnsweredKeys(s: State, ok: bool, t: State)
    requires Next(s, Answer(ok), t) && KeysCounted(s)
    ensures KeysCounted(t)
  {
    hide Next;
    AnswerIs(s, ok, t);
    Joined(s.post.value.completed, s.b.completed);
    Joined(s.post.value.failed, s.b.failed);
  }

  lemma Joined(a: seq<Key>, b: seq<Key>)
    ensures multiset(a + b) == multiset(a) + multiset(b)
  {}

  lemma AppliedStep(s: State, l: Label, t: State)
    requires Next(s, l, t) && KeysApplied(s)
    ensures KeysApplied(t)
  {
    hide Cleared, SentOf, PartsOf, Put, WithDirty, AddPart, IsValid, TakenReport;
    if l.Apply? { assert s.post.value in t.log; }
    forall r | r in s.log ensures r in t.log {}
  }

  lemma KeysStep(s: State, l: Label, t: State)
    requires Next(s, l, t) && KeysHeld(s)
    ensures KeysHeld(t)
  {
    CountedStep(s, l, t);
    AppliedStep(s, l, t);
  }

  // ---- When an acknowledgement keeps the parts --------------------------------------------------------------

  /** Where a sent part number is still live, it is the part that was sent, or one acknowledged before. */
  ghost predicate Current(uploads: Store, sent: Store, acked: set<Sent>) {
    forall k, n :: k in sent && n in sent[k].parts && k in uploads && IsValid(uploads[k]) && n in uploads[k].parts ==>
      || (uploads[k].id == sent[k].id && uploads[k].parts[n] == sent[k].parts[n])
      || Sent(k, uploads[k].id, n, uploads[k].parts[n]) in acked
  }

  /** An acknowledgement loses no part exactly when no sent part has been replaced since the post was
      taken; the marks go by key and number, without regard to the upload ID. */
  lemma AcknowledgementKeepsPartsIff(uploads: Store, dirty: Dirty, acked: set<Sent>, sent: Store)
    requires PartsHeld(uploads, dirty, acked)
    ensures PartsHeld(uploads, Cleared(dirty, sent), acked + PartsOf(sent)) <==> Current(uploads, sent, acked)
  {
    var dirty', acked' := Cleared(dirty, sent), acked + PartsOf(sent);
    forall k, n | k in uploads && IsValid(uploads[k]) && n in uploads[k].parts
      ensures var x := Sent(k, uploads[k].id, n, uploads[k].parts[n]);
        (k in dirty' && n in dirty'[k]) || x in acked' <==>
        !(k in sent && n in sent[k].parts) || (uploads[k].id == sent[k].id && uploads[k].parts[n] == sent[k].parts[n])
            || x in acked
    {
      var x := Sent(k, uploads[k].id, n, uploads[k].parts[n]);
      if k in dirty && n in dirty[k] && !(k in sent && n in sent[k].parts) {
        assert n in (if k in sent then dirty[k] - sent[k].parts.Keys else dirty[k]);
      }
    }
  }

  lemma PartsStep(s: State, l: Label, t: State)
    requires Next(s, l, t) && PartsHeld(s.b.uploads, s.b.dirty, s.ackedParts)
    requires l == Answer(true) ==> Current(s.b.uploads, s.post.value.uploads, s.ackedParts)
    ensures PartsHeld(t.b.uploads, t.b.dirty, t.ackedParts)
  {
    if l == Answer(true) {
      AcknowledgementKeepsPartsIff(s.b.uploads, s.b.dirty, s.ackedParts, s.post.value.uploads);
    } else if l.Fetch? {
      FetchKeepsParts(s, l.key, l.upload);
    }
  }

  lemma FetchKeepsParts(s: State, key: Key, u: Upload)
    requires IsValid(u) && PartsHeld(s.b.uploads, s.b.dirty, s.ackedParts)
    ensures PartsHeld(Put(s.b.uploads, key, u), s.b.dirty, s.ackedParts + PartsOf(map[key := u]))
  {
    var one := map[key := u];
    forall n | n in u.parts ensures Sent(key, u.id, n, u.parts[n]) in PartsOf(one) {
      assert key in one && one[key] == u;
    }
  }

  ghost predicate Run(states: seq<State>, labels: seq<Label>) {
    && |states| == |labels| + 1 && states[0] == INIT
    && forall i :: 0 <= i < |labels| ==> Next(states[i], labels[i], states[i + 1])
  }

  /** No acknowledgement of this run finds a sent part replaced. */
  ghost predicate Undisturbed(states: seq<State>, labels: seq<Label>)
    requires Run(states, labels)
  {
    forall i :: 0 <= i < |labels| && labels[i] == Answer(true) ==>
      states[i].post.Some? && Current(states[i].b.uploads, states[i].post.value.uploads, states[i].ackedParts)
  }

  /** Whatever posts are lost, applied without an answer or repeated, no finished or failed key is
      forgotten before the manager has applied it. */
  lemma {:induction false} NoKeyIsForgotten(states: seq<State>, labels: seq<Label>, i: nat)
    requires Run(states, labels) && i < |states|
    ensures KeysHeld(states[i])
  {
    if i > 0 {
      NoKeyIsForgotten(states, labels, i - 1);
      KeysStep(states[i - 1], labels[i - 1], states[i]);
    }
  }

  /** And, if no acknowledgement comes late, neither is any uploaded part. */
  lemma {:induction false} NoPartIsForgotten(states: seq<State>, labels: seq<Label>, i: nat)
    requires Run(states, labels) && Undisturbed(states, labels) && i < |states|
    ensures PartsHeld(states[i].b.uploads, states[i].b.dirty, states[i].ackedParts)
  {
    if i > 0 {
      NoPartIsForgotten(states, labels, i - 1);
      PartsStep(states[i - 1], labels[i - 1], states[i]);
    }
  }

  // ---- The report after one that failed -------------------------------------------------------------------------

  /** The upload of the key is as it was, with perhaps more parts, and the same part numbers are dirty. */
  ghost predicate GoesOnFrom(b: Buffers, k: Key, u: Upload, nums: set<int>) {
    k in b.uploads && Extends(u, b.uploads[k]) && k in b.dirty && nums <= b.dirty[k]
  }

  /** Steps that neither post nor answer; with a key, nor replace or close its upload. */
  predicate Works(l: Label) {
    !l.Take? && !l.Answer?
  }

  predicate Leaves(l: Label, k: Key) {
    (l.Fetch? || l.Ensure? || l.Close?) ==> l.key != k
  }

  lemma GoesOnStep(s: State, l: Label, t: State, k: Key, u: Upload, nums: set<int>)
    requires Next(s, l, t) && Leaves(l, k) && l != Answer(true) && GoesOnFrom(s.b, k, u, nums)
    ensures GoesOnFrom(t.b, k, u, nums)
  {
    hide Cleared, SentOf, PartsOf;
  }

  lemma {:induction false} GoesOnRun(states: seq<State>, labels: seq<Label>, i: nat, j: nat, k: Key, u: Upload,
                                     nums: set<int>)
    requires Run(states, labels) && i <= j < |states| && GoesOnFrom(states[i].b, k, u, nums)
    requires forall n :: i <= n < j ==> Leaves(labels[n], k) && labels[n] != Answer(true)
    ensures GoesOnFrom(states[j].b, k, u, nums)
    decreases j - i
  {
    hide Next, GoesOnFrom;
    if i < j {
      assert Next(states[i], labels[i], states[i + 1]);
      GoesOnStep(states[i], labels[i], states[i + 1], k, u, nums);
      GoesOnRun(states, labels, i + 1, j, k, u, nums);
    }
  }

  /** The keys of the report that failed stay in front. */
  ghost predicate InFront(b: Buffers, r: Report) {
    r.completed <= b.completed && r.failed <= b.failed
  }

  lemma {:induction false} InFrontRun(states: seq<State>, labels: seq<Label>, i: nat, j: nat, r: Report)
    requires Run(states, labels) && i <= j < |states| && InFront(states[i].b, r)
    requires forall n :: i <= n < j ==> Works(labels[n])
    ensures InFront(states[j].b, r)
    decreases j - i
  {
    hide Next;
    if i < j {
      assert Next(states[i], labels[i], states[i + 1]);
      InFrontStep(states[i], labels[i], states[i + 1], r);
      InFrontRun(states, labels, i + 1, j, r);
    }
  }

  lemma InFrontStep(s: State, l: Label, t: State, r: Report)
    requires Next(s, l, t) && Works(l) && InFront(s.b, r)
    ensures InFront(t.b, r)
  {
    hide Cleared, SentOf, PartsOf, Put, AddPart, WithDirty;
  }

  lemma {:induction false} PostStays(states: seq<State>, labels: seq<Label>, i: nat, j: nat)
    requires Run(states, labels) && i <= j < |states|
    requires forall n :: i <= n < j ==> Works(labels[n])
    ensures states[j].post == states[i].post
    decreases j - i
  {
    hide Next;
    if i < j {
      assert Next(states[i], labels[i], states[i + 1]);
      PostStep(states[i], labels[i], states[i + 1]);
      PostStays(states, labels, i + 1, j);
    }
  }

  lemma PostStep(s: State, l: Label, t: State)
    requires Next(s, l, t) && Works(l)
    ensures t.post == s.post
  {}

  /** What is reported of an upload and then, further on, again. */
  lemma SentGoesOn(b: Buffers, b': Buffers, k: Key, known: Store)
    requires k in TakenReport(b).uploads && GoesOnFrom(b', k, b.uploads[k], b.dirty[k])
    ensures GoesOn(known, TakenReport(b), TakenReport(b'), k)
  {
    var u, v, d, d' := b.uploads[k], b'.uploads[k], b.dirty[k], b'.dirty[k];
    NotEmpty(Only(u.parts, d).Keys);
    var n :| n in Only(u.parts, d);
    assert n in Only(v.parts, d');
  }

  /** A report is taken at step i, its post fails at step a, and the next report is taken at step j. The second
      begins with the keys of the first, and goes on with every upload that was neither closed nor replaced in
      between; for the others see Cluster.StaysBehind. */
  lemma NextReportRepeats(states: seq<State>, labels: seq<Label>, i: nat, a: nat, j: nat, known: Store)
    requires Run(states, labels) && i < a < j < |labels|
    requires labels[i].Take? && labels[a] == Answer(false) && labels[j].Take?
    requires forall n :: i < n < j && n != a ==> Works(labels[n])
    ensures states[i + 1].post.Some? && states[j + 1].post.Some?
    ensures var r, r' := states[i + 1].post.value, states[j + 1].post.value;
      && Repeats(r, r')
      && forall k :: k in r.uploads && (forall n :: i < n < j ==> Leaves(labels[n], k)) ==> GoesOn(known, r, r', k)
  {
    hide Next, GoesOn, TakenReport;
    assert Next(states[i], labels[i], states[i + 1]) && Next(states[a], labels[a], states[a + 1])
        && Next(states[j], labels[j], states[j + 1]);
    TakeIs(states[i], states[i + 1]);
    TakeIs(states[j], states[j + 1]);
    PostStays(states, labels, i + 1, a);
    FailIs(states[a], states[a + 1]);
    var r := states[i + 1].post.value;
    InFrontRun(states, labels, a + 1, j, r);
    TakenKeys(states[j].b, r);
    forall k | k in r.uploads && (forall n :: i < n < j ==> Leaves(labels[n], k))
      ensures GoesOn(known, r, states[j + 1].post.value, k)
    {
      TakenGoesOn(states[i].b, states[i + 1].b, k);
      GoesOnRun(states, labels, i + 1, j, k, states[i].b.uploads[k], states[i].b.dirty[k]);
      SentGoesOn(states[i].b, states[j].b, k, known);
    }
  }

  lemma TakeIs(s: State, t: State)
    requires Next(s, Take, t)
    ensures t.post == Some(TakenReport(s.b)) && t.b == AfterTake(s.b)
  {}

  lemma FailIs(s: State, t: State)
    requires Next(s, Answer(false), t)
    ensures s.post.Some? && t.b == AfterFailure(s.b, s.post.value) && InFront(t.b, s.post.value)
  {}

  lemma TakenKeys(b: Buffers, r: Report)
    requires InFront(b, r)
    ensures Repeats(r, TakenReport(b))
  {}

  lemma TakenGoesOn(b: Buffers, b': Buffers, k: Key)
    requires k in TakenReport(b).uploads && b' == AfterTake(b)
    ensures k in b.uploads && k in b.dirty && GoesOnFrom(b', k, b.uploads[k], b.dirty[k])
  {}

  // ---- An acknowledgement that comes late -----------------------------------------------------------------------

  function Last<T>(s: seq<T>): T
    requires s != []
  {
    s[|s| - 1]
  }

  const ONE := Upload("1", 1, 1, 1, 0, map[], map[])
  const TWO := Upload("2", 1, 1, 1, 0, map[], map[])
  const OLD := Part(1, 1, "a")
  const NEW := Part(1, 1, "b")

  /** A worker that has one upload with, perhaps, part 1 of it, and a post of it under way. */
  function With(u: Upload, marked: bool, post: Option<Report>, applied: bool, log: seq<Report>): State {
    var dirty := if marked then map["k" := {1}] else map[];
    State(Buffers([], [], map["k" := u], dirty), post, applied, [], multiset{}, multiset{}, log, multiset{},
          multiset{}, {})
  }

  /** The worker after it has closed its upload, and after the answer. */
  function GivenUp(r: Report): State {
    State(Buffers([], [], map[], map[]), Some(r), false, [], multiset{}, multiset{}, [], multiset{}, multiset{}, {})
  }

  function Answered(s: State, r: Report): State {
    State(AfterOK(s.b, r), None, true, [], multiset{}, multiset{}, [r], multiset{}, multiset{}, PartsOf(r.uploads))
  }

  lemma SentIs(u: Upload, part: Part)
    requires IsValid(u) && u.parts == map[1 := part] && u.checksums == map[]
    ensures SentOf(map["k" := u], map["k" := {1}]) == map["k" := u]
  {
    var uploads: Store, dirty: Dirty := map["k" := u], map["k" := {1}];
    assert Only(u.parts, {1}) == u.parts && Only(u.checksums, {1} * u.parts.Keys) == map[];
    assert 1 in Only(uploads["k"].parts, dirty["k"]);
    assert SentParts(u, {1}) == u;
  }

  /** A part is sent, its upload is given up and a new one uploads the same part number, then the answer
      arrives: the new part is neither dirty nor known to the manager. */
  lemma LateAnswerForgetsPart()
    ensures exists states: seq<State>, labels: seq<Label> ::
              Run(states, labels) && !PartsHeld(Last(states).b.uploads, Last(states).b.dirty, Last(states).ackedParts)
  {
    var one, two := ONE.(parts := map[1 := OLD]), TWO.(parts := map[1 := NEW]);
    var r := Report([], [], map["k" := one]);
    var s1, s2 := With(ONE, false, None, false, []), With(one, true, None, false, []);
    var s3 := With(one, true, Some(r), false, []);
    var s4 := GivenUp(r);
    var s5, s6 := With(TWO, false, Some(r), false, []), With(two, true, Some(r), false, []);
    var s7 := With(two, true, Some(r), true, [r]);
    var s8 := Answered(s7, r);
    hide Next, Run, PartsHeld, PartsOf, Cleared;
    FirstHalf(one, r, s1, s2, s3, s4);
    SecondHalf(two, r, s4, s5, s6, s7, s8);
    Forgotten(one, two, r.uploads);
    var states := [INIT, s1, s2, s3, s4] + [s5, s6, s7, s8];
    var labels := [Ensure("k", ONE), Mark("k", OLD, 0, false), Take, Close("k")]
                  + [Ensure("k", TWO), Mark("k", NEW, 0, false), Apply, Answer(true)];
    RunExists(INIT, s1, s2, s3, s4, s5, s6, s7, s8, Ensure("k", ONE), Mark("k", OLD, 0, false), Take, Close("k"),
              Ensure("k", TWO), Mark("k", NEW, 0, false), Apply, Answer(true));
    assert Run(states, labels) && Last(states) == s8;
  }

  lemma RunExists(s0: State, s1: State, s2: State, s3: State, s4: State, s5: State, s6: State, s7: State, s8: State,
                  a: Label, b: Label, c: Label, d: Label, e: Label, f: Label, g: Label, h: Label)
    requires s0 == INIT && Next(s0, a, s1) && Next(s1, b, s2) && Next(s2, c, s3) && Next(s3, d, s4)
    requires Next(s4, e, s5) && Next(s5, f, s6) && Next(s6, g, s7) && Next(s7, h, s8)
    ensures Run([s0, s1, s2, s3, s4] + [s5, s6, s7, s8], [a, b, c, d] + [e, f, g, h])
  {
    hide Next;
    var states, labels := [s0, s1, s2, s3, s4] + [s5, s6, s7, s8], [a, b, c, d] + [e, f, g, h];
    forall i | 0 <= i < |labels| ensures Next(states[i], labels[i], states[i + 1]) {
      if i < 4 { assert states[i + 1] == [s0, s1, s2, s3, s4][i + 1]; }
    }
  }

  lemma Forgotten(one: Upload, two: Upload, sent: Store)
    requires one == ONE.(parts := map[1 := OLD]) && two == TWO.(parts := map[1 := NEW]) && sent == map["k" := one]
    ensures !PartsHeld(map["k" := two], Cleared(map["k" := {1}], sent), PartsOf(sent))
  {
    var uploads: Store := map["k" := two];
    assert Cleared(map["k" := {1}], sent) == map[] by { assert {1} - one.parts.Keys == {}; }
    assert Sent("k", "2", 1, NEW) !in PartsOf(sent);
    assert "k" in uploads && IsValid(uploads["k"]) && 1 in uploads["k"].parts;
  }

  lemma FirstMark()
    ensures WithDirty(map[], "k", 1) == map["k" := {1}]
  {
    var none: set<int> := {};
    assert none + {1} == {1};
  }

  lemma FirstHalf(one: Upload, r: Report, s1: State, s2: State, s3: State, s4: State)
    requires one == ONE.(parts := map[1 := OLD]) && r == Report([], [], map["k" := one])
    requires s1 == With(ONE, false, None, false, []) && s2 == With(one, true, None, false, [])
    requires s3 == With(one, true, Some(r), false, [])
    requires s4 == GivenUp(r)
    ensures Next(INIT, Ensure("k", ONE), s1) && Next(s1, Mark("k", OLD, 0, false), s2) && Next(s2, Take, s3)
        && Next(s3, Close("k"), s4)
  {
    SentIs(one, OLD);
    FirstMark();
    assert s1.b.uploads["k" := one] == s2.b.uploads;
    assert s3.b.uploads - {"k"} == map[] && s3.b.dirty - {"k"} == map[];
  }

  lemma SecondHalf(two: Upload, r: Report, s4: State, s5: State, s6: State, s7: State, s8: State)
    requires two == TWO.(parts := map[1 := NEW]) && r.completed == [] && r.failed == []
    requires s4 == GivenUp(r)
    requires s5 == With(TWO, false, Some(r), false, []) && s6 == With(two, true, Some(r), false, [])
    requires s7 == With(two, true, Some(r), true, [r])
    requires s8 == Answered(s7, r)
    ensures Next(s4, Ensure("k", TWO), s5) && Next(s5, Mark("k", NEW, 0, false), s6) && Next(s6, Apply, s7)
        && Next(s7, Answer(true), s8)
  {
    FirstMark();
    assert s5.b.uploads["k" := two] == s6.b.uploads;
    assert {} + PartsOf(r.uploads) == PartsOf(r.uploads);
    assert multiset(r.completed) == multiset(r.failed) == multiset{};
  }
}

/** Copying a large object in parts, with the parts of an interrupted upload reused. */
module Multipart {
  import opened Keys
  import opened Producer
  import opened Uploads
  import opened PartSizes
  import E = Encrypt
  import C = Chunked

  type Bytes = E.Bytes

  /** How a destination keeps a part: as it is, or encrypted on its own. */
  datatype Format = Plain | Encrypted(k: C.Codec)

  ghost predicate Usable(f: Format) {
    f.Encrypted? ==> C.Fits(f.k)
  }

  /** The stored bytes stand for the plain ones. */
  ghost predicate Holds(f: Format, stored: Bytes, plain: Bytes)
    requires Usable(f)
  {
    match f
    case Plain => stored == plain
    case Encrypted(k) => C.IsStream(k, stored, plain)
  }

  /** Checksums of neighbouring ranges combine to that of the whole. */
  datatype Checksum = Checksum(of: Bytes -> int, combine: (int, int, nat) -> int)

  ghost predicate Combines(c: Checksum) {
    forall a: Bytes, b: Bytes :: c.combine(c.of(a), c.of(b), |b|) == c.of(a + b)
  }

  /** The destination's side: uploaded parts by upload ID and number, and complete objects. */
  datatype Dest = Dest(parts: map<string, map<int, Bytes>>, objects: map<Key, Bytes>)

  // ---- The pieces of one object -----------------------------------------------------------------------

  function Piece(data: Bytes, partSize: nat, i: nat): Bytes
    requires data != [] && partSize > 0 && i < Count(|data|, partSize)
  {
    PartsTile(|data|, partSize, i);
    data[i * partSize..i * partSize + PartLen(|data|, partSize, i)]
  }

  /** The end of the first i parts. */
  function Front(size: nat, partSize: nat, i: nat): (r: nat)
    requires size > 0 && partSize > 0 && i <= Count(size, partSize)
    ensures r <= size
  {
    if i == Count(size, partSize) then size
    else
      PartsTile(size, partSize, i);
      i * partSize
  }

  lemma FrontGrows(data: Bytes, partSize: nat, i: nat)
    requires data != [] && partSize > 0 && i < Count(|data|, partSize)
    ensures data[..Front(|data|, partSize, i)] + Piece(data, partSize, i) == data[..Front(|data|, partSize, i + 1)]
    ensures Front(|data|, partSize, 0) == 0 && Front(|data|, partSize, i) == i * partSize
  {
    PartsTile(|data|, partSize, i);
  }

  /** The part on the destination holds its range of the source. */
  ghost predicate PartSound(f: Format, dst: Dest, id: string, data: Bytes, partSize: nat, i: nat)
    requires Usable(f) && data != [] && partSize > 0 && i < Count(|data|, partSize)
  {
    id in dst.parts && i + 1 in dst.parts[id] && Holds(f, dst.parts[id][i + 1], Piece(data, partSize, i))
  }

  /** What a record of an upload promises: its parts are ranges of this very object, cut as a resumed
      copy cuts them, and its checksums are theirs. A record of another version, or of an upload the
      destination has dropped, promises nothing. */
  ghost predicate RecordSound(f: Format, c: Checksum, dst: Dest, u: Upload, data: Bytes, mtime: int)
    requires Usable(f)
  {
    data != [] && OfVersion(u, |data|, mtime) && u.id in dst.parts ==>
      var partSize := ChoosePartSize(u.minPartSize, u.maxCount, |data|);
      && (f.Encrypted? ==> u.minPartSize % MIB == 0)
      && (forall num :: num in u.parts ==>
            1 <= num <= Count(|data|, partSize) && u.parts[num].num == num
            && PartSound(f, dst, u.id, data, partSize, num - 1))
      && (forall num :: num in u.checksums ==>
          num in u.parts && u.checksums[num] == c.of(Piece(data, partSize, num - 1)))
  }

  // ---- Completing an upload ---------------------------------------------------------------------------

  /** The first i parts put together. */
  function Assembled(parts: map<int, Bytes>, i: nat): Bytes
    requires forall j :: 1 <= j <= i ==> j in parts
  {
    if i == 0 then [] else Assembled(parts, i - 1) + parts[i]
  }

  /** Whole-chunk parts compose, and so do plain ones. */
  lemma HoldsConcat(f: Format, a: Bytes, p: Bytes, b: Bytes, q: Bytes)
    requires Usable(f) && Holds(f, a, p) && Holds(f, b, q) && (f.Encrypted? ==> |p| % MIB == 0)
    ensures Holds(f, a + b, p + q)
  {
    if f.Encrypted? { C.StreamConcat(f.k, a, p, b, q); }
  }

  lemma MultipleOfMiB(i: nat, partSize: nat)
    requires partSize % MIB == 0
    ensures i * partSize % MIB == 0
  {
    var m := partSize / MIB;
    assert i * partSize == i * m * MIB by { assert partSize == m * MIB; }
    C.DivUnique(i * partSize, MIB, i * m, 0);
  }

  lemma NoFront(data: Bytes, partSize: nat)
    requires data != [] && partSize > 0
    ensures data[..Front(|data|, partSize, 0)] == []
  {
    PartsTile(|data|, partSize, 0);
  }

  lemma NothingHolds(f: Format)
    requires Usable(f)
    ensures Holds(f, [], [])
  {}

  /** Independently stored parts, put together, stand for the object. */
  lemma {:induction false} AssembledHolds(f: Format, dst: Dest, id: string, data: Bytes, partSize: nat, i: nat)
    requires Usable(f) && data != [] && partSize > 0 && i <= Count(|data|, partSize)
    requires f.Encrypted? ==> partSize % MIB == 0
    requires id in dst.parts
    requires forall j :: 0 <= j < i ==> PartSound(f, dst, id, data, partSize, j)
    ensures forall j :: 1 <= j <= i ==> j in dst.parts[id]
    ensures Holds(f, Assembled(dst.parts[id], i), data[..Front(|data|, partSize, i)])
  {
    forall j | 1 <= j <= i ensures j in dst.parts[id] { assert PartSound(f, dst, id, data, partSize, j - 1); }
    hide Holds, Count, Front, Piece;
    if i > 0 {
      AssembledHolds(f, dst, id, data, partSize, i - 1);
      FrontGrows(data, partSize, i - 1);
      if f.Encrypted? { MultipleOfMiB(i - 1, partSize); }
      assert PartSound(f, dst, id, data, partSize, i - 1);
      HoldsConcat(f, Assembled(dst.parts[id], i - 1), data[..Front(|data|, partSize, i - 1)],
                  dst.parts[id][i], Piece(data, partSize, i - 1));
    } else {
      NoFront(data, partSize);
      NothingHolds(f);
    }
  }

  // ---- Copying ------------------------------------------------------------------------------------------

  /** Stores a part body; the number stands for the randomness of the encryption. */
  ghost predicate Stores(f: Format, put: (nat, Bytes) -> Bytes) {
    Usable(f) && forall i: nat, body: Bytes :: Holds(f, put(i, body), body)
  }

  datatype CopyResult = Failed | Copied(chksum: int)

  /** What is known of the parts that are done. */
  ghost predicate Done(f: Format, c: Checksum, dst: Dest, id: string, data: Bytes, partSize: nat, i: nat,
                       calChksum: bool, sums: map<nat, int>)
    requires Usable(f) && data != [] && partSize > 0 && i < Count(|data|, partSize)
  {
    PartSound(f, dst, id, data, partSize, i) && (calChksum ==> i in sums && sums[i] == c.of(Piece(data, partSize, i)))
  }

  function WithPart(dst: Dest, id: string, num: nat, stored: Bytes): Dest
    requires id in dst.parts
  {
    dst.(parts := dst.parts[id := dst.parts[id][num := stored]])
  }

  /** Recording a part just uploaded keeps the record sound. */
  lemma MarkedSound(f: Format, c: Checksum, dst: Dest, u: Upload, data: Bytes, mtime: int, i: nat, stored: Bytes,
                    size: int, calChksum: bool)
    requires Usable(f) && data != [] && RecordSound(f, c, dst, u, data, mtime) && u.id in dst.parts
    requires IsMatched(u, |data|, mtime) && i < Count(|data|, ChoosePartSize(u.minPartSize, u.maxCount, |data|))
    requires Holds(f, stored, Piece(data, ChoosePartSize(u.minPartSize, u.maxCount, |data|), i))
    requires GetPart(u, i + 1, calChksum).None?
    ensures RecordSound(f, c, WithPart(dst, u.id, i + 1, stored),
      AddPart(u, Part(i + 1, size, ""), c.of(Piece(data, ChoosePartSize(u.minPartSize, u.maxCount, |data|), i)),
              calChksum), data, mtime)
  {}

  function Below(n: nat): (r: set<nat>)
    ensures forall i: nat :: i in r <==> i < n
  {
    if n == 0 then {} else Below(n - 1) + {n - 1}
  }

  /** A part the record has is done. */
  lemma SavedIsDone(f: Format, c: Checksum, dst: Dest, u: Upload, data: Bytes, mtime: int, i: nat, calChksum: bool,
                    sums: map<nat, int>)
    requires Usable(f) && data != [] && RecordSound(f, c, dst, u, data, mtime) && IsMatched(u, |data|, mtime)
        && u.id in dst.parts
    requires i < Count(|data|, ChoosePartSize(u.minPartSize, u.maxCount, |data|)) && GetPart(u, i + 1, calChksum).Some?
    ensures Done(f, c, dst, u.id, data, ChoosePartSize(u.minPartSize, u.maxCount, |data|), i, calChksum,
      sums[i := GetPart(u, i + 1, calChksum).value.1])
  {}

  /** All parts but the pending ones are done. */
  ghost predicate AllBut(f: Format, c: Checksum, dst: Dest, id: string, data: Bytes, partSize: nat, pending: set<nat>,
                         calChksum: bool, sums: map<nat, int>)
    requires Usable(f) && data != [] && partSize > 0
  {
    forall i: nat :: i < Count(|data|, partSize) && i !in pending ==>
        Done(f, c, dst, id, data, partSize, i, calChksum, sums)
  }

  lemma AllButAll(f: Format, c: Checksum, dst: Dest, id: string, data: Bytes, partSize: nat, pending: set<nat>,
                  calChksum: bool)
    requires Usable(f) && data != [] && partSize > 0 && pending == Below(Count(|data|, partSize))
    ensures AllBut(f, c, dst, id, data, partSize, pending, calChksum, map[])
  {}

  lemma AllButSaved(f: Format, c: Checksum, dst: Dest, id: string, data: Bytes, partSize: nat, pending: set<nat>,
                    i: nat, calChksum: bool, sums: map<nat, int>, sum: int)
    requires Usable(f) && data != [] && partSize > 0 && AllBut(f, c, dst, id, data, partSize, pending, calChksum, sums)
    requires i < Count(|data|, partSize) && Done(f, c, dst, id, data, partSize, i, calChksum, sums[i := sum])
    ensures AllBut(f, c, dst, id, data, partSize, pending - {i}, calChksum, sums[i := sum])
  {}

  /** Storing one part finishes it and leaves the others done. */
  lemma AllButStored(f: Format, c: Checksum, dst: Dest, id: string, data: Bytes, partSize: nat, pending: set<nat>,
                     i: nat, calChksum: bool, sums: map<nat, int>, stored: Bytes)
    requires Usable(f) && data != [] && partSize > 0 && id in dst.parts
    requires AllBut(f, c, dst, id, data, partSize, pending, calChksum, sums)
    requires i < Count(|data|, partSize) && Holds(f, stored, Piece(data, partSize, i))
    ensures AllBut(f, c, WithPart(dst, id, i + 1, stored), id, data, partSize, pending - {i}, calChksum,
      sums[i := c.of(Piece(data, partSize, i))])
  {
    hide Holds;
  }

  /** Nothing but the parts of one upload differs. */
  ghost predicate SameBut(id: string, dst: Dest, dst': Dest) {
    && dst'.objects == dst.objects && (id in dst'.parts <==> id in dst.parts)
    && dst'.parts - {id} == dst.parts - {id}
  }

  lemma SameButSelf(id: string, dst: Dest)
    ensures SameBut(id, dst, dst)
  {}

  lemma SameButPart(id: string, dst: Dest, dst': Dest, num: nat, stored: Bytes)
    requires SameBut(id, dst, dst') && id in dst'.parts
    ensures SameBut(id, dst, WithPart(dst', id, num, stored))
  {}

  /** A part that the record has or whose upload does not fail. */
  ghost predicate Available(u: Upload, calChksum: bool, resume: bool, fails: nat -> bool, i: nat) {
    !fails(i) || (resume && Recorded(u, i + 1, calChksum))
  }

  ghost predicate AllAvailable(u: Upload, calChksum: bool, resume: bool, fails: nat -> bool, n: nat, but: set<nat>) {
    forall i: nat :: i < n && i !in but ==> Available(u, calChksum, resume, fails, i)
  }

  lemma AvailableStep(u: Upload, calChksum: bool, resume: bool, fails: nat -> bool, n: nat, but: set<nat>, i: nat)
    requires i < n && i in but
    ensures AllAvailable(u, calChksum, resume, fails, n, but - {i}) <==>
            AllAvailable(u, calChksum, resume, fails, n, but) && Available(u, calChksum, resume, fails, i)
  {
    if AllAvailable(u, calChksum, resume, fails, n, but - {i}) {
      assert forall j: nat :: j < n && j !in but ==> j !in but - {i};
    }
  }

  lemma {:induction false} NoneRequired(u: Upload, calChksum: bool, resume: bool, fails: nat -> bool, n: nat)
    ensures AllAvailable(u, calChksum, resume, fails, n, Below(n))
  {}

  /** Recording one part leaves what is recorded of the others. */
  lemma OtherParts(u: Upload, p: Part, chksum: int, calChksum: bool, num: int)
    requires num != p.num
    ensures GetPart(AddPart(u, p, chksum, calChksum), num, calChksum) == GetPart(u, num, calChksum)
  {}

  /** A part that is taken from the record. */
  ghost predicate Taken(u: Upload, calChksum: bool, resume: bool, i: nat) {
    resume && Recorded(u, i + 1, calChksum)
  }

  /** What a copy makes of the stored parts: those on record and those that fail stay as they were, the others are
      stored anew, but for the pending ones. */
  ghost predicate PartsAre(was: map<int, Bytes>, parts: map<int, Bytes>, data: Bytes, partSize: nat, u: Upload,
                           calChksum: bool, resume: bool, put: (nat, Bytes) -> Bytes, fails: nat -> bool,
                           pending: set<nat>)
    requires data != [] && partSize > 0
  {
    forall num: int ::
      if 1 <= num <= Count(|data|, partSize) && num - 1 !in pending && !Taken(u, calChksum, resume, num - 1)
         && !fails(num - 1)
      then num in parts && parts[num] == put(num - 1, Piece(data, partSize, num - 1))
      else (num in parts <==> num in was) && (num in parts ==> parts[num] == was[num])
  }

  lemma PartsStart(was: map<int, Bytes>, data: Bytes, partSize: nat, u: Upload, calChksum: bool, resume: bool,
                   put: (nat, Bytes) -> Bytes, fails: nat -> bool)
    requires data != [] && partSize > 0
    ensures PartsAre(was, was, data, partSize, u, calChksum, resume, put, fails, Below(Count(|data|, partSize)))
  {}

  lemma PartsStep(was: map<int, Bytes>, parts: map<int, Bytes>, data: Bytes, partSize: nat, u: Upload,
                  calChksum: bool, resume: bool, put: (nat, Bytes) -> Bytes, fails: nat -> bool, pending: set<nat>,
                  i: nat)
    requires data != [] && partSize > 0 && i < Count(|data|, partSize) && i in pending
    requires PartsAre(was, parts, data, partSize, u, calChksum, resume, put, fails, pending)
    ensures var parts' := if Taken(u, calChksum, resume, i) || fails(i) then parts
                          else parts[i + 1 := put(i, Piece(data, partSize, i))];
      PartsAre(was, parts', data, partSize, u, calChksum, resume, put, fails, pending - {i})
  {
    hide Taken, Count, Piece;
  }

  /** What a copy makes of the record: it gains the parts that are stored anew. */
  ghost predicate RecordIs(u: Upload, u': Upload, calChksum: bool, fails: nat -> bool, n: nat, pending: set<nat>) {
    forall num: int, cal: bool ::
      && (Recorded(u, num, cal) ==> Recorded(u', num, cal))
      && (1 <= num <= n && num - 1 !in pending && !fails(num - 1) ==> Recorded(u', num, calChksum))
      && (Recorded(u', num, cal) ==> Recorded(u, num, cal) || (1 <= num <= n && !fails(num - 1)))
  }

  lemma RecordStep(u: Upload, u': Upload, calChksum: bool, fails: nat -> bool, n: nat, pending: set<nat>, i: nat,
                   p: Part, chksum: int)
    requires RecordIs(u, u', calChksum, fails, n, pending) && i < n && p.num == i + 1
    ensures fails(i) || Recorded(u', i + 1, calChksum) ==> RecordIs(u, u', calChksum, fails, n, pending - {i})
    ensures !fails(i) ==> RecordIs(u, AddPart(u', p, chksum, calChksum), calChksum, fails, n, pending - {i})
  {
    var v := AddPart(u', p, chksum, calChksum);
    forall num: int, cal: bool
      ensures (Recorded(u', num, cal) ==> Recorded(v, num, cal)) && Recorded(v, i + 1, calChksum)
      ensures Recorded(v, num, cal) ==> Recorded(u', num, cal) || num == i + 1
    {
      MarkedIsRecorded(u', p, chksum, calChksum, num, cal);
    }
    hide Recorded, AddPart;
  }

  /** Uploads the parts the record does not have, in any order; each may fail. The record is the
      caller's if there is one. It succeeds exactly if each part that fails is on record; parts on record stay as
      they are stored, and the record gains the others. */
  method CopyParts(f: Format, c: Checksum, data: Bytes, mtime: int, u: Upload, id: string, partSize: nat,
                   calChksum: bool, resume: bool, dst: Dest, put: (nat, Bytes) -> Bytes, fails: nat -> bool)
    returns (dst': Dest, u': Upload, sums: map<nat, int>, ok: bool)
    requires Stores(f, put) && data != [] && id in dst.parts && partSize > 0
    requires resume ==> IsMatched(u, |data|, mtime) && u.id == id && RecordSound(f, c, dst, u, data, mtime)
    requires resume ==> partSize == ChoosePartSize(u.minPartSize, u.maxCount, |data|)
    ensures SameBut(id, dst, dst')
    ensures u' == u.(parts := u'.parts, checksums := u'.checksums)
    ensures resume ==> RecordSound(f, c, dst', u', data, mtime)
    ensures ok ==> AllBut(f, c, dst', id, data, partSize, {}, calChksum, sums)
    ensures ok <==> forall i: nat :: i < Count(|data|, partSize) && fails(i) ==> resume && Recorded(u, i + 1, calChksum)
    ensures id in dst'.parts
    ensures PartsAre(dst.parts[id], dst'.parts[id], data, partSize, u, calChksum, resume, put, fails, {})
    ensures if resume then RecordIs(u, u', calChksum, fails, Count(|data|, partSize), {}) else u' == u
  {
    hide RecordSound, Done, Holds, AllBut, SameBut, AllAvailable, GetPart, AddPart, Count, PartsAre, RecordIs, Recorded;
    var n := Count(|data|, partSize);
    dst', u', sums, ok := dst, u, map[], true;
    var pending := Below(n);
    AllButAll(f, c, dst, id, data, partSize, pending, calChksum);
    SameButSelf(id, dst);
    NoneRequired(u, calChksum, resume, fails, n);
    PartsStart(dst.parts[id], data, partSize, u, calChksum, resume, put, fails);
    RecordStart(u, calChksum, fails, n, pending);
    while pending != {}
      invariant forall i :: i in pending ==> 0 <= i < n
      invariant id in dst'.parts && SameBut(id, dst, dst')
      invariant u' == u.(parts := u'.parts, checksums := u'.checksums)
      invariant resume ==> RecordSound(f, c, dst', u', data, mtime)
      invariant ok ==> AllBut(f, c, dst', id, data, partSize, pending, calChksum, sums)
      invariant ok <==> AllAvailable(u, calChksum, resume, fails, n, pending)
      invariant resume ==> forall j :: j in pending ==> GetPart(u', j + 1, calChksum) == GetPart(u, j + 1, calChksum)
      invariant PartsAre(dst.parts[id], dst'.parts[id], data, partSize, u, calChksum, resume, put, fails, pending)
      invariant if resume then RecordIs(u, u', calChksum, fails, n, pending) else u' == u
    {
      var i :| i in pending;
      AvailableStep(u, calChksum, resume, fails, n, pending, i);
      PartsStep(dst.parts[id], dst'.parts[id], data, partSize, u, calChksum, resume, put, fails, pending, i);
      if resume {
        GetPartIff(u, i + 1, calChksum);
        GetPartIff(u', i + 1, calChksum);
        RecordStep(u, u', calChksum, fails, n, pending, i, Part(i + 1, |Piece(data, partSize, i)|, ""),
                   c.of(Piece(data, partSize, i)));
      }
      var saved := if resume then GetPart(u', i + 1, calChksum) else None;
      if saved.Some? {
        SavedIsDone(f, c, dst', u', data, mtime, i, calChksum, sums);
        if ok { AllButSaved(f, c, dst', id, data, partSize, pending, i, calChksum, sums, saved.value.1); }
        sums := sums[i := saved.value.1];
      } else if fails(i) {
        ok := false;
      } else {
        var body := Piece(data, partSize, i);
        PartsTile(|data|, partSize, i);
        var stored, chksum := put(i, body), c.of(body);
        if resume {
          MarkedSound(f, c, dst', u', data, mtime, i, stored, |body|, calChksum);
          forall j | j in pending && j != i
              ensures GetPart(AddPart(u', Part(i + 1, |body|, ""), chksum, calChksum), j + 1, calChksum)
                      == GetPart(u, j + 1, calChksum) {
            OtherParts(u', Part(i + 1, |body|, ""), chksum, calChksum, j + 1);
          }
          AddedOnly(u', Part(i + 1, |body|, ""), chksum, calChksum);
          u' := AddPart(u', Part(i + 1, |body|, ""), chksum, calChksum);
        }
        if ok { AllButStored(f, c, dst', id, data, partSize, pending, i, calChksum, sums, stored); }
        SameButPart(id, dst, dst', i + 1, stored);
        dst' := WithPart(dst', id, i + 1, stored);
        sums := sums[i := chksum];
      }
      pending := pending - {i};
    }
    AllAvailableIs(u, calChksum, resume, fails, n);
  }

  lemma AllAvailableIs(u: Upload, calChksum: bool, resume: bool, fails: nat -> bool, n: nat)
    ensures AllAvailable(u, calChksum, resume, fails, n, {}) <==>
            forall i: nat :: i < n && fails(i) ==> resume && Recorded(u, i + 1, calChksum)
  {
    hide Recorded;
    assert forall i: nat :: Available(u, calChksum, resume, fails, i) <==>
                            (fails(i) ==> resume && Recorded(u, i + 1, calChksum));
  }

  lemma {:induction false} RecordStart(u: Upload, calChksum: bool, fails: nat -> bool, n: nat, pending: set<nat>)
    requires pending == Below(n)
    ensures RecordIs(u, u, calChksum, fails, n, pending)
  {}

  lemma AddedOnly(u: Upload, p: Part, chksum: int, calChksum: bool)
    ensures var u' := AddPart(u, p, chksum, calChksum); u' == u.(parts := u'.parts, checksums := u'.checksums)
  {}

  /** The checksum of the whole from those of the parts. */
  method CombineAll(c: Checksum, data: Bytes, partSize: nat, sums: map<nat, int>) returns (chksum: int)
    requires Combines(c) && data != [] && partSize > 0
    requires forall i: nat :: i < Count(|data|, partSize) ==> i in sums && sums[i] == c.of(Piece(data, partSize, i))
    ensures chksum == c.of(data)
  {
    var n := Count(|data|, partSize);
    chksum := sums[0];
    FrontGrows(data, partSize, 0);
    assert data[..Front(|data|, partSize, 1)] == Piece(data, partSize, 0);
    var i := 1;
    while i < n
      invariant 1 <= i <= n && chksum == c.of(data[..Front(|data|, partSize, i)])
    {
      FrontGrows(data, partSize, i);
      PartsTile(|data|, partSize, i);
      chksum := c.combine(chksum, sums[i], PartLen(|data|, partSize, i));
      i := i + 1;
    }
    assert data[..|data|] == data;
  }

  /** The objects and uploads of other keys stay as they were. */
  ghost predicate OthersKept(key: Key, id: string, store: Store, store': Store, dst: Dest, dst': Dest) {
    store' - {key} == store - {key} && dst'.parts - {id} == dst.parts - {id}
        && dst'.objects - {key} == dst.objects - {key}
  }

  /** A part that an earlier attempt at the same upload, of the same version of the object, has on record. */
  ghost predicate FromRecord(store: Store, key: Key, mtime: int, u: Upload, size: nat, calChksum: bool, resume: bool,
                             i: nat) {
    && resume && key in store && OfVersion(store[key], size, mtime) && store[key].id == u.id
    && Recorded(store[key], i + 1, calChksum)
  }

  /** When a copy in parts succeeds: the size fits, the upload exists, each part that fails is on record, and the
      last call succeeds. */
  ghost predicate Succeeds(store: Store, key: Key, mtime: int, u: Upload, size: nat, calChksum: bool, resume: bool,
                           maxPartSize: nat, known: bool, fails: nat -> bool, completes: bool)
    requires size > 0 && u.maxCount > 0 && u.minPartSize >= 0
  {
    && size <= maxPartSize * u.maxCount && known && completes
    && forall i: nat :: i < Count(size, ChoosePartSize(u.minPartSize, u.maxCount, size)) && fails(i) ==>
         FromRecord(store, key, mtime, u, size, calChksum, resume, i)
  }

  /** What a failed attempt leaves for the next one: a record of this upload that has every part it had and every
      part that did not fail. */
  ghost predicate Progress(store: Store, key: Key, mtime: int, u: Upload, size: nat, calChksum: bool,
                           fails: nat -> bool, u': Upload)
    requires size > 0 && u.maxCount > 0 && u.minPartSize >= 0
  {
    && OfVersion(u', size, mtime) && u'.id == u.id
    && forall i: nat :: i < Count(size, ChoosePartSize(u.minPartSize, u.maxCount, size)) ==>
         (fails(i) && !FromRecord(store, key, mtime, u, size, calChksum, true, i)) || Recorded(u', i + 1, calChksum)
  }

  /** In particular when no part fails. */
  lemma SucceedsIfNoneFails(store: Store, key: Key, mtime: int, u: Upload, size: nat, calChksum: bool, resume: bool,
                            maxPartSize: nat, fails: nat -> bool)
    requires size > 0 && u.maxCount > 0 && u.minPartSize >= 0 && size <= maxPartSize * u.maxCount
    requires forall i: nat :: !fails(i)
    ensures Succeeds(store, key, mtime, u, size, calChksum, resume, maxPartSize, true, fails, true)
  {}

  const MAX_BLOCK: nat := DEFAULT_PART_SIZE * 2
  const CHECKPOINT_THRESHOLD: nat := 4294967296

  /** The parts of one attempt: with `resume` the record of the upload is opened, used and kept. */
  method UploadParts(f: Format, c: Checksum, data: Bytes, key: Key, mtime: int, u: Upload, calChksum: bool,
                     resume: bool, partSize: nat, store: Store, dst: Dest, put: (nat, Bytes) -> Bytes,
                     fails: nat -> bool)
    returns (store': Store, dst': Dest, sums: map<nat, int>, ok: bool)
    requires Stores(f, put) && data != [] && u.id != "" && u.maxCount > 0 && u.minPartSize >= 0
    requires f.Encrypted? && u.id in dst.parts ==> u.minPartSize % MIB == 0
    requires partSize == ChoosePartSize(u.minPartSize, u.maxCount, |data|)
    requires key in store ==> RecordSound(f, c, dst, store[key], data, mtime)
    requires key in store && store[key].id == u.id ==> resume
    requires key in store && store[key].id == u.id && OfVersion(store[key], |data|, mtime) ==>
               u.minPartSize == store[key].minPartSize && u.maxCount == store[key].maxCount
    ensures store' - {key} == store - {key} && SameBut(u.id, dst, dst')
    ensures key in store' ==> RecordSound(f, c, dst', store'[key], data, mtime)
    ensures if resume then key in store' && OfVersion(store'[key], |data|, mtime) && store'[key].id == u.id
            else store' == store
    ensures resume && u.id in dst.parts ==> Progress(store, key, mtime, u, |data|, calChksum, fails, store'[key])
    ensures ok ==> u.id in dst'.parts && AllBut(f, c, dst', u.id, data, partSize, {}, calChksum, sums)
    ensures ok <==> u.id in dst.parts && forall i: nat :: i < Count(|data|, partSize) && fails(i) ==>
                      FromRecord(store, key, mtime, u, |data|, calChksum, resume, i)
  {
    hide Holds, RecordSound, AllBut, AllAvailable, PartsAre, RecordIs, Recorded, OfVersion, Ensure, Count;
    hide ChoosePartSize, IsMatched;
    store', dst', sums, ok := store, dst, map[], false;
    Stable(u.minPartSize, u.maxCount, |data|);
    if f.Encrypted? && u.id in dst.parts { WholeMiB(u.minPartSize, u.maxCount, |data|); }
    SameButSelf(u.id, dst);
    var state := u;
    if resume {
      var ensured := Ensure(store, key, |data|, mtime, partSize, u);
      store', state := ensured.0, ensured.1;
      EnsureIs(store, key, |data|, mtime, partSize, u);
      EnsuredSound(f, c, data, mtime, store, key, partSize, u, dst);
    }
    if u.id !in dst.parts {
      if resume { NoUploadSound(f, c, dst, state, data, mtime); }
      return;
    }
    ghost var begun := state;
    dst', state, sums, ok := CopyParts(f, c, data, mtime, state, u.id, partSize, calChksum, resume, dst, put, fails);
    if resume {
      store' := store'[key := state];
      FromOpened(store, key, mtime, u, |data|, calChksum, partSize, begun);
      StillOf(begun, state, |data|, mtime);
      KeptProgress(store, key, mtime, u, |data|, calChksum, fails, begun, state);
    } else if key in store {
      UntouchedSound(f, c, dst, dst', u.id, store[key], data, mtime);
    }
  }

  lemma StillOf(u: Upload, u': Upload, size: int, mtime: int)
    requires u' == u.(parts := u'.parts, checksums := u'.checksums)
    ensures OfVersion(u', size, mtime) <==> OfVersion(u, size, mtime)
  {}

  /** The record that is opened has what an earlier attempt recorded, and nothing else. */
  lemma FromOpened(store: Store, key: Key, mtime: int, u: Upload, size: nat, calChksum: bool, partSize: nat,
                   begun: Upload)
    requires begun == Ensure(store, key, size, mtime, partSize, u).1
    ensures forall i: nat :: Recorded(begun, i + 1, calChksum) <==>
              FromRecord(store, key, mtime, u, size, calChksum, true, i)
  {
    EnsureIs(store, key, size, mtime, partSize, u);
  }

  lemma KeptProgress(store: Store, key: Key, mtime: int, u: Upload, size: nat, calChksum: bool, fails: nat -> bool,
                     begun: Upload, state: Upload)
    requires size > 0 && u.maxCount > 0 && u.minPartSize >= 0
    requires OfVersion(state, size, mtime) && state.id == u.id
    requires RecordIs(begun, state, calChksum, fails, Count(size, ChoosePartSize(u.minPartSize, u.maxCount, size)), {})
    requires forall i: nat :: Recorded(begun, i + 1, calChksum) <==>
               FromRecord(store, key, mtime, u, size, calChksum, true, i)
    ensures Progress(store, key, mtime, u, size, calChksum, fails, state)
  {
    hide Recorded, OfVersion, FromRecord, Count;
  }

  /** Copies one object in parts; with `resume`, the record of the upload is kept and used. Parts
      named by `fails` fail, `completes` says whether the last call succeeds, `srcGone` whether the
      source disappeared meanwhile. A failed attempt that can be resumed keeps what it got. */
  method DoCopyMultiple(f: Format, c: Checksum, data: Bytes, key: Key, mtime: int, u: Upload, calChksum: bool,
                        resume: bool, maxPartSize: nat, store: Store, dst: Dest, put: (nat, Bytes) -> Bytes,
                        fails: nat -> bool, completes: bool, srcGone: bool)
    returns (store': Store, dst': Dest, r: CopyResult)
    requires Stores(f, put) && Combines(c) && data != [] && u.id != "" && u.maxCount > 0 && u.minPartSize >= 0
    requires f.Encrypted? && u.id in dst.parts ==> u.minPartSize % MIB == 0
    requires key in store ==> RecordSound(f, c, dst, store[key], data, mtime)
    requires key in store && store[key].id == u.id ==> resume
    requires key in store && store[key].id == u.id && OfVersion(store[key], |data|, mtime) ==>
               u.minPartSize == store[key].minPartSize && u.maxCount == store[key].maxCount
    ensures OthersKept(key, u.id, store, store', dst, dst')
    ensures key in store' ==> RecordSound(f, c, dst', store'[key], data, mtime)
    ensures key in store' ==> (key in store && store'[key] == store[key]) || store'[key].id == u.id
    ensures r.Copied? ==> key in dst'.objects && Holds(f, dst'.objects[key], data)
                           && (calChksum ==> r.chksum == c.of(data))
    ensures r.Copied? ==> u.id !in dst'.parts && store' == if resume then store - {key} else store
    ensures r.Failed? ==> dst'.objects == dst.objects
    ensures r.Failed? && |data| <= maxPartSize * u.maxCount && (!resume || srcGone) ==>
              u.id !in dst'.parts && store' == if resume then store - {key} else store
    ensures r.Failed? && |data| <= maxPartSize * u.maxCount && resume && !srcGone && u.id in dst.parts ==>
              u.id in dst'.parts && key in store'
              && Progress(store, key, mtime, u, |data|, calChksum, fails, store'[key])
    ensures r.Copied? <==> Succeeds(store, key, mtime, u, |data|, calChksum, resume, maxPartSize, u.id in dst.parts,
                                    fails, completes)
  {
    hide Holds, RecordSound, AllBut, FromRecord, Progress, OfVersion, Count, ChoosePartSize;
    store', dst', r := store, dst, Failed;
    if |data| > maxPartSize * u.maxCount { return; }
    var partSize := ChoosePartSize(u.minPartSize, u.maxCount, |data|);
    if f.Encrypted? && u.id in dst.parts { WholeMiB(u.minPartSize, u.maxCount, |data|); }
    var sums, ok;
    store', dst', sums, ok := UploadParts(f, c, data, key, mtime, u, calChksum, resume, partSize, store, dst, put,
                                          fails);
    if ok && completes {
      var n := Count(|data|, partSize);
      AllPartsHold(f, c, dst', u.id, data, partSize, calChksum, sums);
      dst' := Dest(dst'.parts - {u.id}, dst'.objects[key := Assembled(dst'.parts[u.id], n)]);
      if resume {
        store' := store' - {key};
      } else if key in store {
        UntouchedSound(f, c, dst, dst', u.id, store[key], data, mtime);
      }
      var chksum := 0;
      if calChksum { chksum := CombineAll(c, data, partSize, sums); }
      return store', dst', Copied(chksum);
    }
    if !resume {
      dst' := dst'.(parts := dst'.parts - {u.id});
      if key in store { UntouchedSound(f, c, dst, dst', u.id, store[key], data, mtime); }
    } else if srcGone {
      dst', store' := dst'.(parts := dst'.parts - {u.id}), store' - {key};
    }
  }

  lemma EnsuredSound(f: Format, c: Checksum, data: Bytes, mtime: int, store: Store, key: Key, partSize: nat,
                     u: Upload, dst: Dest)
    requires Usable(f) && data != [] && u.id != "" && u.maxCount > 0 && partSize > 0
    requires key in store ==> RecordSound(f, c, dst, store[key], data, mtime)
    requires f.Encrypted? && u.id in dst.parts ==> partSize % MIB == 0
    ensures var (s, state) := Ensure(store, key, |data|, mtime, partSize, u);
      && IsMatched(state, |data|, mtime) && OfVersion(state, |data|, mtime) && state.id == u.id
      && RecordSound(f, c, dst, state, data, mtime)
  {}

  lemma NoUploadSound(f: Format, c: Checksum, dst: Dest, u: Upload, data: Bytes, mtime: int)
    requires Usable(f) && data != [] && u.id !in dst.parts
    ensures RecordSound(f, c, dst, u, data, mtime)
  {}

  /** Work on one upload does not touch the record of another. */
  lemma UntouchedSound(f: Format, c: Checksum, dst: Dest, dst': Dest, id: string, u: Upload, data: Bytes, mtime: int)
    requires Usable(f) && data != [] && RecordSound(f, c, dst, u, data, mtime) && u.id != id
    requires dst'.parts - {id} == dst.parts - {id}
    ensures RecordSound(f, c, dst', u, data, mtime)
  {
    assert u.id in dst'.parts <==> u.id in dst'.parts - {id};
    assert u.id in dst.parts <==> u.id in dst.parts - {id};
    if u.id in dst.parts {
      assert dst'.parts[u.id] == (dst'.parts - {id})[u.id] == (dst.parts - {id})[u.id] == dst.parts[u.id];
    }
  }

  lemma AllPartsHold(f: Format, c: Checksum, dst: Dest, id: string, data: Bytes, partSize: nat, calChksum: bool,
                     sums: map<nat, int>)
    requires Usable(f) && data != [] && partSize > 0 && (f.Encrypted? ==> partSize % MIB == 0) && id in dst.parts
    requires AllBut(f, c, dst, id, data, partSize, {}, calChksum, sums)
    ensures var n := Count(|data|, partSize);
      && (forall j :: 1 <= j <= n ==> j in dst.parts[id]) && Holds(f, Assembled(dst.parts[id], n), data)
    ensures calChksum ==> forall i: nat :: i < Count(|data|, partSize) ==>
        i in sums && sums[i] == c.of(Piece(data, partSize, i))
  {
    forall i: nat | i < Count(|data|, partSize)
      ensures PartSound(f, dst, id, data, partSize, i)
      ensures calChksum ==> i in sums && sums[i] == c.of(Piece(data, partSize, i))
    {
      assert Done(f, c, dst, id, data, partSize, i, calChksum, sums);
    }
    AssembledHolds(f, dst, id, data, partSize, Count(|data|, partSize));
    assert data[..|data|] == data;
  }

  /** What can go wrong in one attempt. */
  datatype Luck = Luck(fails: nat -> bool, completes: bool, srcGone: bool)

  /** What the destination says to a new upload. */
  datatype Opening = Begun(id: string) | Unsupported | Refused

  /** When a copy with a new upload succeeds. */
  ghost predicate NewSucceeds(size: nat, minPartSize: nat, maxCount: nat, maxPartSize: nat, luck: Luck)
    requires size > 0 && maxCount > 0
  {
    && size <= maxPartSize * maxCount && luck.completes
    && forall i: nat :: i < Count(size, ChoosePartSize(minPartSize, maxCount, size)) ==> !luck.fails(i)
  }

  /** When an interrupted upload of this version of the object is taken up and succeeds: above 4 GiB, if it is on
      record and each part that fails is, too. */
  ghost predicate ResumeSucceeds(store: Store, key: Key, mtime: int, size: nat, calChksum: bool, maxPartSize: nat,
                                 dst: Dest, luck: Luck)
    requires size > 0
  {
    && size > 4 * 1024 * MIB && key in store && OfVersion(store[key], size, mtime)
    && var u := store[key];
       && size <= maxPartSize * u.maxCount && u.id in dst.parts && luck.completes
       && forall i: nat :: i < Count(size, ChoosePartSize(u.minPartSize, u.maxCount, size)) && luck.fails(i) ==>
            Recorded(u, i + 1, calChksum)
  }

  /** A new upload has no part on record. */
  lemma NewIs(store: Store, key: Key, mtime: int, u: Upload, size: nat, calChksum: bool, resume: bool,
              maxPartSize: nat, luck: Luck)
    requires size > 0 && u.maxCount > 0 && u.minPartSize >= 0 && u.parts == map[]
    requires key in store ==> store[key].id != u.id
    ensures Succeeds(store, key, mtime, u, size, calChksum, resume, maxPartSize, true, luck.fails, luck.completes) <==>
            NewSucceeds(size, u.minPartSize, u.maxCount, maxPartSize, luck)
  {
    hide ChoosePartSize, Count;
    var partSize := ChoosePartSize(u.minPartSize, u.maxCount, size);
    var state := if resume then Ensure(store, key, size, mtime, partSize, u).1 else u;
    forall i: nat ensures Available(state, calChksum, resume, luck.fails, i) <==> !luck.fails(i) {}
    if forall i: nat :: i < Count(size, partSize) ==> !luck.fails(i) {
      assert AllAvailable(state, calChksum, resume, luck.fails, Count(size, partSize), {});
    } else {
      var i: nat :| i < Count(size, partSize) && luck.fails(i);
      assert !Available(state, calChksum, resume, luck.fails, i);
    }
  }

  /** What a failed copy with a new upload leaves on record: every part that did not fail. */
  ghost predicate CanGoOn(store: Store, dst: Dest, key: Key, id: string, mtime: int, size: nat, calChksum: bool,
                          minPartSize: nat, maxCount: nat, fails: nat -> bool)
    requires size > 0 && maxCount > 0
  {
    && id in dst.parts && key in store && OfVersion(store[key], size, mtime) && store[key].id == id
    && forall i: nat :: i < Count(size, ChoosePartSize(minPartSize, maxCount, size)) && !fails(i) ==>
         Recorded(store[key], i + 1, calChksum)
  }

  /** Copies one object with a new upload (`minPartSize`, `maxCount` are the destination's), or whole if the
      destination has no uploads. */
  method CopyAnew(f: Format, c: Checksum, data: Bytes, key: Key, mtime: int, calChksum: bool, maxPartSize: nat,
                  resume: bool, store: Store, dst: Dest, put: (nat, Bytes) -> Bytes, single: bool,
                  opening: Opening, minPartSize: nat, maxCount: nat, luck: Luck)
    returns (store': Store, dst': Dest, r: CopyResult)
    requires Stores(f, put) && Combines(c) && maxCount > 0 && data != []
    requires f.Encrypted? ==> minPartSize % MIB == 0
    requires opening.Begun? ==> opening.id != "" && opening.id !in dst.parts
    requires key in store ==> RecordSound(f, c, dst, store[key], data, mtime) && opening != Begun(store[key].id)
    ensures key in store' ==> RecordSound(f, c, dst', store'[key], data, mtime)
    ensures r.Copied? ==> key in dst'.objects && Holds(f, dst'.objects[key], data)
                           && (calChksum ==> r.chksum == c.of(data))
    ensures r.Failed? ==> dst'.objects == dst.objects
    ensures store' - {key} == store - {key} && dst'.objects - {key} == dst.objects - {key}
    ensures forall id :: id in dst.parts && opening != Begun(id) ==> id in dst'.parts && dst'.parts[id] == dst.parts[id]
    ensures forall id :: id in dst'.parts && id !in dst.parts ==> opening == Begun(id)
    ensures opening.Begun? && |data| <= maxPartSize * maxCount && (r.Copied? || !resume || luck.srcGone) ==>
              opening.id !in dst'.parts
    ensures r.Copied? <==>
              match opening
              case Begun(_) => NewSucceeds(|data|, minPartSize, maxCount, maxPartSize, luck)
              case Unsupported => single
              case Refused => false
    ensures r.Failed? && resume && opening.Begun? && !luck.srcGone && |data| <= maxPartSize * maxCount ==>
              CanGoOn(store', dst', key, opening.id, mtime, |data|, calChksum, minPartSize, maxCount, luck.fails)
  {
    hide RecordSound, Holds, Succeeds, NewSucceeds, Combines, Stores, IsMatched, Progress, OfVersion, CanGoOn;
    StoresUsable(f, put);
    store', dst', r := store, dst, Failed;
    match opening
    case Refused =>
    case Unsupported =>
      dst', r := CopySingle(f, c, data, key, dst, put, single);
      if key in store' { UntouchedObjects(f, c, dst, dst', store'[key], data, mtime); }
    case Begun(id) =>
      var created := Upload(id, minPartSize, maxCount, 0, 0, map[], map[]);
      ghost var begun := dst.(parts := dst.parts[id := map[]]);
      if key in store { UntouchedSound(f, c, dst, begun, id, store[key], data, mtime); }
      dst' := dst.(parts := dst.parts[id := map[]]);
      NewIs(store, key, mtime, created, |data|, calChksum, resume, maxPartSize, luck);
      store', dst', r := DoCopyMultiple(f, c, data, key, mtime, created, calChksum, resume, maxPartSize, store, dst',
                                        put, luck.fails, luck.completes, luck.srcGone);
      OthersStill(key, id, store, store', begun, dst');
      if r.Failed? && resume && !luck.srcGone && |data| <= maxPartSize * maxCount {
        ProgressIs(store, key, mtime, created, dst', calChksum, luck.fails, store', |data|);
      }
  }

  /** Copies one object: whole if it is small, else resuming the recorded upload of this version of it
      and, when that fails or there is none, with a new upload (`minPartSize`, `maxCount` are the
      destination's), or whole after all if the destination has no uploads. `single` says whether a copy in
      one piece succeeds. What a failed copy of a large object got is on record for the next one. */
  method CopyData(f: Format, c: Checksum, data: Bytes, key: Key, mtime: int, calChksum: bool, maxPartSize: nat,
                  store: Store, dst: Dest, put: (nat, Bytes) -> Bytes, single: bool,
                  opening: Opening, minPartSize: nat, maxCount: nat, first: Luck, second: Luck)
    returns (store': Store, dst': Dest, r: CopyResult)
    requires Stores(f, put) && Combines(c) && maxCount > 0
    requires f.Encrypted? ==> minPartSize % MIB == 0
    requires opening.Begun? ==> opening.id != "" && opening.id !in dst.parts
    requires key in store ==> RecordSound(f, c, dst, store[key], data, mtime)
    requires key in store ==> opening != Begun(store[key].id)
    ensures key in store' ==> RecordSound(f, c, dst', store'[key], data, mtime)
    ensures r.Copied? ==> key in dst'.objects && Holds(f, dst'.objects[key], data)
                           && (calChksum ==> r.chksum == c.of(data))
    ensures r.Failed? ==> dst'.objects == dst.objects
    ensures store' - {key} == store - {key} && dst'.objects - {key} == dst.objects - {key}
    ensures forall id :: id in dst.parts && opening != Begun(id) && (key in store ==> id != store[key].id) ==>
              id in dst'.parts && dst'.parts[id] == dst.parts[id]
    ensures r.Copied? <==>
              if |data| < 10 * MIB then single
              else ResumeSucceeds(store, key, mtime, |data|, calChksum, maxPartSize, dst, first) ||
                   (match opening
                    case Begun(_) => NewSucceeds(|data|, minPartSize, maxCount, maxPartSize, second)
                    case Unsupported => single
                    case Refused => false)
    ensures |data| > 4 * 1024 * MIB && key in store && OfVersion(store[key], |data|, mtime) ==>
              store[key].id !in dst'.parts
    ensures r.Failed? && |data| > 4 * 1024 * MIB && opening.Begun? && !second.srcGone
            && |data| <= maxPartSize * maxCount ==>
      CanGoOn(store', dst', key, opening.id, mtime, |data|, calChksum, minPartSize, maxCount, second.fails)
  {
    hide RecordSound, Holds, Succeeds, NewSucceeds, ResumeSucceeds, Combines, Stores, Find, IsMatched, CanGoOn;
    hide Progress;
    StoresUsable(f, put);
    store', dst', r := store, dst, Failed;
    if |data| < MAX_BLOCK {
      dst', r := CopySingle(f, c, data, key, dst, put, single);
      if key in store { UntouchedObjects(f, c, dst, dst', store[key], data, mtime); }
      return;
    }
    var resume := |data| > CHECKPOINT_THRESHOLD;
    var found := if resume then Find(store, key, |data|, mtime) else None;
    ResumeIs(store, key, mtime, |data|, calChksum, maxPartSize, dst, first);
    FindIff(store, key, |data|, mtime);
    if found.Some? {
      var u := found.value;
      FoundIs(store, key, mtime, |data|);
      FoundWhole(f, c, dst, u, data, mtime);
      store', dst', r := DoCopyMultiple(f, c, data, key, mtime, u, calChksum, true, maxPartSize, store, dst, put,
                                        first.fails, first.completes, first.srcGone);
      OthersStill(key, u.id, store, store', dst, dst');
      if r.Copied? { return; }
      store', dst' := store' - {key}, dst'.(parts := dst'.parts - {u.id});
    }
    store', dst', r := CopyAnew(f, c, data, key, mtime, calChksum, maxPartSize, resume, store', dst', put, single,
                                opening, minPartSize, maxCount, second);
  }

  lemma ProgressIs(store: Store, key: Key, mtime: int, u: Upload, dst: Dest, calChksum: bool, fails: nat -> bool,
                   store': Store, size: nat)
    requires size > 0 && u.maxCount > 0 && u.minPartSize >= 0 && key in store' && u.id in dst.parts
    requires Progress(store, key, mtime, u, size, calChksum, fails, store'[key])
    ensures CanGoOn(store', dst, key, u.id, mtime, size, calChksum, u.minPartSize, u.maxCount, fails)
  {}

  lemma StoresUsable(f: Format, put: (nat, Bytes) -> Bytes)
    requires Stores(f, put)
    ensures Usable(f)
  {}

  lemma FoundIs(store: Store, key: Key, mtime: int, size: nat)
    requires Find(store, key, size, mtime).Some?
    ensures var u := Find(store, key, size, mtime).value;
            key in store && u == store[key] && IsMatched(u, size, mtime) && IsValid(u)
  {}

  lemma ResumeIs(store: Store, key: Key, mtime: int, size: nat, calChksum: bool, maxPartSize: nat, dst: Dest,
                 luck: Luck)
    requires size > 0
    ensures size <= CHECKPOINT_THRESHOLD || Find(store, key, size, mtime).None? ==>
        !ResumeSucceeds(store, key, mtime, size, calChksum, maxPartSize, dst, luck)
    ensures size > CHECKPOINT_THRESHOLD && Find(store, key, size, mtime).Some? ==>
              var u := Find(store, key, size, mtime).value;
              && u.maxCount > 0 && u.minPartSize >= 0
              && (ResumeSucceeds(store, key, mtime, size, calChksum, maxPartSize, dst, luck) <==>
                  Succeeds(store, key, mtime, u, size, calChksum, true, maxPartSize, u.id in dst.parts, luck.fails,
                           luck.completes))
  {
    hide Recorded, Count, ChoosePartSize;
    FindIff(store, key, size, mtime);
  }

  /** The copy in one piece. */
  method CopySingle(f: Format, c: Checksum, data: Bytes, key: Key, dst: Dest, put: (nat, Bytes) -> Bytes, single: bool)
    returns (dst': Dest, r: CopyResult)
    requires Stores(f, put)
    ensures dst'.parts == dst.parts && dst'.objects - {key} == dst.objects - {key} && r.Copied? == single
    ensures r.Copied? ==> key in dst'.objects && Holds(f, dst'.objects[key], data) && r.chksum == c.of(data)
    ensures r.Failed? ==> dst' == dst
  {
    if !single { return dst, Failed; }
    return dst.(objects := dst.objects[key := put(0, data)]), Copied(c.of(data));
  }

  lemma FoundWhole(f: Format, c: Checksum, dst: Dest, u: Upload, data: Bytes, mtime: int)
    requires Usable(f) && data != [] && RecordSound(f, c, dst, u, data, mtime) && IsMatched(u, |data|, mtime)
    ensures f.Encrypted? && u.id in dst.parts ==> u.minPartSize % MIB == 0
  {}

  lemma OthersStill(key: Key, id: string, store: Store, store': Store, dst: Dest, dst': Dest)
    requires OthersKept(key, id, store, store', dst, dst')
    ensures forall other :: other in dst.parts && other != id ==>
        other in dst'.parts && dst'.parts[other] == dst.parts[other]
    ensures forall other :: other in dst'.parts && other != id ==> other in dst.parts
  {
    forall other | other in dst'.parts && other != id ensures other in dst.parts {
      assert other in dst'.parts - {id};
    }
    forall other | other in dst.parts && other != id
      ensures other in dst'.parts && dst'.parts[other] == dst.parts[other]
    {
      assert other in dst.parts - {id} && (dst.parts - {id})[other] == dst.parts[other];
      assert other in dst'.parts - {id} && (dst'.parts - {id})[other] == dst'.parts[other];
    }
  }

  lemma UntouchedObjects(f: Format, c: Checksum, dst: Dest, dst': Dest, u: Upload, data: Bytes, mtime: int)
    requires Usable(f) && RecordSound(f, c, dst, u, data, mtime) && dst'.parts == dst.parts
    ensures RecordSound(f, c, dst', u, data, mtime)
  {}

  /** The chunked encryption stores parts so that each decodes on its own, and whole MiB parts are whole chunks. */
  lemma {:induction false} EncryptedStores(k: C.Codec, put: (nat, Bytes) -> Bytes)
    requires C.Fits(k) && forall i: nat, body: Bytes :: put(i, body) == C.Encoded(k, i, body)
    ensures Stores(Encrypted(k), put)
  {
    forall i: nat, body: Bytes ensures Holds(Encrypted(k), put(i, body), body) {
      C.EncodedIsStream(k, i, body);
    }
  }
}

/** The record of multipart uploads in progress, on the manager and on a remote worker. */
module Uploads {
  import opened Keys
  import opened Producer

  datatype Part = Part(num: int, size: int, etag: string)

  datatype Upload = Upload(
    id: string, minPartSize: int, maxCount: int, size: int, mtime: int,
    parts: map<int, Part>, checksums: map<int, int>)

  type Store = map<Key, Upload>

  predicate IsValid(u: Upload) {
    u.id != "" && u.minPartSize > 0 && u.maxCount > 0
  }

  predicate IsMatched(u: Upload, size: int, mtime: int) {
    IsValid(u) && u.size == size && u.mtime == mtime
  }

  /** Merges a reported state: a new upload ID replaces the record, the same ID adds its parts. */
  function Put(s: Store, key: Key, u: Upload): Store {
    if !IsValid(u) then s
    else if key !in s || s[key].id != u.id then s[key := u]
    else s[key := s[key].(parts := s[key].parts + u.parts, checksums := s[key].checksums + u.checksums)]
  }

  /** The upload to resume for this version of the object, if the record matches it. */
  function Find(s: Store, key: Key, size: int, mtime: int): Option<Upload> {
    if key in s && IsMatched(s[key], size, mtime) then Some(s[key]) else None
  }

  /** Opens or reopens the record of an upload whose parts have the chosen size. */
  function Ensure(s: Store, key: Key, size: int, mtime: int, partSize: int, u: Upload): (r: (Store, Upload)) {
    if key in s && IsMatched(s[key], size, mtime) && s[key].id == u.id then (s, s[key])
    else
      var fresh' := Upload(u.id, partSize, u.maxCount, size, mtime, map[], map[]);
      (s[key := fresh'], fresh')
  }

  /** A part already uploaded, usable when its checksum is known or not asked for. */
  function GetPart(u: Upload, num: int, calChecksum: bool): Option<(Part, int)> {
    if !IsValid(u) || num !in u.parts then None
    else if !calChecksum then Some((u.parts[num], 0))
    else if num !in u.checksums then None
    else Some((u.parts[num], u.checksums[num]))
  }

  /** A part just uploaded enters the record, with its checksum if one was computed. */
  function AddPart(u: Upload, part: Part, chksum: int, calChecksum: bool): Upload {
    u.(parts := u.parts[part.num := part],
       checksums := if calChecksum then u.checksums[part.num := chksum] else u.checksums)
  }

  // ---- What callers rely on ------------------------------------------------------------------------------

  /** The record of a usable upload of this version of the object. */
  ghost predicate OfVersion(u: Upload, size: int, mtime: int) {
    u.id != "" && u.minPartSize > 0 && u.maxCount > 0 && u.size == size && u.mtime == mtime
  }

  /** The record has the part and, if one is asked for, its checksum. */
  ghost predicate Recorded(u: Upload, num: int, calChecksum: bool) {
    num in u.parts && (calChecksum ==> num in u.checksums)
  }

  /** An upload is taken up again exactly if the key's record is of this very version: one of another size or time
      never is. */
  lemma FindIff(s: Store, key: Key, size: int, mtime: int)
    ensures Find(s, key, size, mtime).Some? <==> key in s && OfVersion(s[key], size, mtime)
    ensures Find(s, key, size, mtime).Some? ==> Find(s, key, size, mtime).value == s[key]
    ensures key in s && (s[key].size != size || s[key].mtime != mtime) ==> Find(s, key, size, mtime) == None
  {}

  /** A record is reopened with all its parts if it is of this version and this upload, else it begins anew. */
  lemma EnsureIs(s: Store, key: Key, size: int, mtime: int, partSize: int, u: Upload)
    ensures var (s', r) := Ensure(s, key, size, mtime, partSize, u);
      && key in s' && s'[key] == r && s' - {key} == s - {key}
      && if key in s && OfVersion(s[key], size, mtime) && s[key].id == u.id
         then s' == s
         else r.id == u.id && r.minPartSize == partSize && r.maxCount == u.maxCount && r.size == size
              && r.mtime == mtime && r.parts == map[] && r.checksums == map[]
  {}

  /** A part of a usable upload is reused exactly if it is recorded, as what it is recorded. */
  lemma GetPartIff(u: Upload, num: int, calChecksum: bool)
    requires u.id != "" && u.minPartSize > 0 && u.maxCount > 0
    ensures GetPart(u, num, calChecksum).Some? <==> Recorded(u, num, calChecksum)
    ensures Recorded(u, num, calChecksum) ==>
              GetPart(u, num, calChecksum) == Some((u.parts[num], if calChecksum then u.checksums[num] else 0))
  {}

  /** A part that is marked is recorded, and so is every part that was. */
  lemma MarkedIsRecorded(u: Upload, part: Part, chksum: int, calChecksum: bool, num: int, cal: bool)
    ensures var u' := AddPart(u, part, chksum, calChecksum);
      && Recorded(u', part.num, calChecksum) && u'.parts[part.num] == part
      && (calChecksum ==> u'.checksums[part.num] == chksum)
      && (Recorded(u, num, cal) ==> Recorded(u', num, cal))
      && (num != part.num && num in u.parts ==> u'.parts[num] == u.parts[num])
  {}

  /** A report for the upload on record adds its parts, one for another upload replaces the record, and one of no
      usable upload does nothing. */
  lemma PutIs(s: Store, key: Key, u: Upload)
    ensures Put(s, key, u) - {key} == s - {key}
    ensures if u.id == "" || u.minPartSize <= 0 || u.maxCount <= 0 then Put(s, key, u) == s
            else if key in s && s[key].id == u.id then
              && key in Put(s, key, u) && var r := Put(s, key, u)[key];
                 && r == s[key].(parts := r.parts, checksums := r.checksums)
                 && r.parts.Keys == s[key].parts.Keys + u.parts.Keys
                 && r.checksums.Keys == s[key].checksums.Keys + u.checksums.Keys
                 && (forall n :: n in r.parts ==> r.parts[n] == if n in u.parts then u.parts[n] else s[key].parts[n])
                 && (forall n :: n in r.checksums ==>
                       r.checksums[n] == if n in u.checksums then u.checksums[n] else s[key].checksums[n])
            else key in Put(s, key, u) && Put(s, key, u)[key] == u
  {
    assert Put(s, key, u) - {key} == s - {key};
  }
}

/** `filecache`: a cache of single files, and the handlers of uploads and downloads. */
module FileCache {
  import opened Basics
  import opened ArtifactCell
  import opened ArtifactCache
  import opened KeyLocker

  const FILE_NAME := ["file"]
  const FILE_MODE := 438 // 0666

  /** The directory of a file-cache entry: the one file with what has been written to it. */
  function FileDir(content: Bytes): Dir {
    map[FILE_NAME := File(FILE_MODE, content)]
  }

  datatype PutResult = Stored | BodyFailed | CloseFailed | Refused(error: CacheError)

  /** Copying the request body and closing the writer, or aborting after a failed copy. */
  method WriteBody(cache: Cache, id: Id, body: Bytes, copied: nat) returns (res: PutResult)
    requires cache.Valid() && id in cache.creating && copied <= |body|
    modifies cache
    ensures cache.Valid() && cache.OnlyChanges(id) && cache.readers == old(cache.readers)
    ensures cache.creating == old(cache.creating) - {id}
    ensures res == if copied == |body| then Stored else BodyFailed
    ensures cache.CellOf(id) == Cell(false, 0, if copied == |body| then Some(FileDir(body)) else None, None)
  {
    cache.Fill(id, FileDir(body[..copied]));
    if copied < |body| {
      cache.Abort(id);
      return BodyFailed;
    }
    assert body[..copied] == body;
    var _ := cache.Commit(id);
    res := Stored;
  }

  /** The `goto start` loop of `handlePut`: create the entry, after removing an old one if there is one. */
  method Admit(cache: Cache, id: Id) returns (err: Option<CacheError>, retries: nat)
    requires cache.Valid()
    modifies cache`writeLocked, cache`disk, cache`tmp, cache`creating
    ensures cache.Valid() && cache.OnlyChanges(id)
    ensures err == Dictated(old(cache.EntryAt(id)), true)
    ensures cache.creating == old(cache.creating) + if err.None? then {id} else {}
    ensures err.Some? ==> cache.CellOf(id) == old(cache.CellOf(id))
    ensures retries == if err.None? && old(cache.EntryAt(id)).content.Some? then 1 else 0
  {
    ghost var e := cache.EntryAt(id);
    retries := 0;
    err := cache.Create(id);
    while err == Some(Exists)
      invariant cache.Valid() && cache.OnlyChanges(id)
      invariant cache.creating == old(cache.creating) + if err.None? then {id} else {}
      invariant err.Some? ==> cache.CellOf(id) == old(cache.CellOf(id))
      invariant retries == 0 ==> err == Dictated(e, false)
      invariant retries != 0 ==> retries == 1 && err.None? && e.content.Some? && e.lock == Free
      decreases 1 - retries
    {
      err := cache.Remove(id);
      if err.Some? {
        return;
      }
      retries := retries + 1;
      err := cache.Create(id);
    }
  }

  /**
   The part of `handlePut` that runs under the key lock, with nobody else at work: `copied` bytes of
   the body arrive, and fewer than all of them mean that the copy failed.
   */
  method PutLocked(cache: Cache, id: Id, body: Bytes, copied: nat) returns (res: PutResult, retries: nat)
    requires cache.Valid() && copied <= |body|
    modifies cache
    ensures cache.Valid() && cache.OnlyChanges(id)
    ensures cache.readers == old(cache.readers) && cache.creating == old(cache.creating)
    ensures res == match Dictated(old(cache.EntryAt(id)), true)
                   case Some(e) => Refused(e)
                   case None => if copied == |body| then Stored else BodyFailed
    ensures res.Refused? ==> cache.CellOf(id) == old(cache.CellOf(id)) && retries == 0
    ensures !res.Refused? ==>
              && cache.EntryAt(id) == Entry(if copied == |body| then Some(FileDir(body)) else None, Free)
              && retries == if old(cache.EntryAt(id)).content.Some? then 1 else 0
  {
    var err;
    err, retries := Admit(cache, id);
    if err.Some? {
      return Refused(err.value), retries;
    }
    res := WriteBody(cache, id, body, copied);
  }

  method HandlePut(cache: Cache, locker: Locker<Id>, id: Id, body: Bytes, copied: nat)
      returns (res: PutResult, retries: nat)
    requires cache.Valid() && locker.Valid() && !locker.muHeld && !locker.Held(id) && copied <= |body|
    modifies cache, locker, locker.lock.Values
    ensures cache.Valid() && cache.OnlyChanges(id)
    ensures res == Stored <==> old(cache.EntryAt(id)).lock == Free && copied == |body|
    ensures res == BodyFailed <==> old(cache.EntryAt(id)).lock == Free && copied < |body|
    ensures res == Refused(WriteLocked) <==> id in old(cache.creating)
    ensures res == Refused(ReadLocked) <==> cache.readers[id] > 0
    ensures res == Stored ==> cache.EntryAt(id) == Entry(Some(map[["file"] := File(438, body)]), Free)
    ensures res == BodyFailed ==> cache.EntryAt(id) == Entry(None, Free)
    ensures res.Refused? ==> cache.CellOf(id) == old(cache.CellOf(id))
    ensures cache.readers == old(cache.readers) && cache.creating == old(cache.creating)
    ensures retries <= 1
    ensures locker.Valid() && !locker.muHeld && forall k :: locker.Held(k) == old(locker.Held(k))
  {
    locker.Lock(id);
    assert locker.lock[id] in locker.lock.Values;
    res, retries := PutLocked(cache, id, body, copied);
    locker.Unlock(id);
  }

  /** The body of an entry, where it is a directory with the one file in it. */
  function BodyOf(e: Entry): Option<Bytes> {
    match e
    case Entry(Some(d), Free) => FileIn(d)
    case Entry(Some(d), Read(_)) => FileIn(d)
    case _ => None
  }

  function FileIn(d: Dir): Option<Bytes> {
    if FILE_NAME in d && d[FILE_NAME].File? then Some(d[FILE_NAME].content) else None
  }

  /** What the leader of `handleGet` writes to its response; None stands for an internal error. */
  method HandleGet(cache: Cache, id: Id) returns (body: Option<Bytes>)
    requires cache.Valid()
    modifies cache`readLocked, cache`readers
    ensures cache.Valid() && cache.readers == old(cache.readers)
    ensures forall k :: cache.CellOf(k) == old(cache.CellOf(k))
    ensures body == BodyOf(old(cache.EntryAt(id)))
    ensures body == if id in cache.disk && ["file"] in cache.disk[id] && cache.disk[id][["file"]].File?
                    then Some(cache.disk[id][["file"]].content) else None
  {
    var err := cache.Get(id);
    if err.Some? {
      return None;
    }
    var d := cache.disk[id];
    body := if FILE_NAME in d && d[FILE_NAME].File? then Some(d[FILE_NAME].content) else None;
    cache.Unlock(id);
  }

  /** A download while others read answers what a download alone does. */
  method GetWhileReading(cache: Cache, id: Id) returns (first: Option<Bytes>, second: Option<Bytes>)
    requires cache.Valid() && id in cache.disk
    modifies cache`readLocked, cache`readers
    ensures cache.Valid() && cache.readers == old(cache.readers) + multiset{id}
    ensures first == second == FileIn(cache.disk[id])
  {
    first := HandleGet(cache, id);
    var err := cache.Get(id);
    second := HandleGet(cache, id);
  }

  /** A download after a successful upload answers the uploaded body, whatever was there before. */
  method PutThenGet(cache: Cache, locker: Locker<Id>, id: Id, body: Bytes, copied: nat)
      returns (res: PutResult, got: Option<Bytes>)
    requires cache.Valid() && locker.Valid() && !locker.muHeld && !locker.Held(id) && copied <= |body|
    modifies cache, locker, locker.lock.Values
    ensures cache.Valid() && cache.OnlyChanges(id)
    ensures res == Stored ==> got == Some(body)
    ensures res == BodyFailed ==> got == None
  {
    var retries;
    res, retries := HandlePut(cache, locker, id, body, copied);
    got := HandleGet(cache, id);
  }
}

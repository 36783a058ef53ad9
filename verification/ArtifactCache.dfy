/** `artifact.Cache` as one goroutine uses it: the methods, and the errors its callers see. */
module ArtifactCache {
  import opened Basics
  import opened ArtifactCell

  class Cache {
    const root: Path
    var writeLocked: set<Id>
    var readLocked: map<Id, int>
    var disk: map<Id, Dir>      // the directory `c`
    var tmp: map<Id, Dir>       // the directory `tmp`

    /** The `unlock` functions handed out and not yet called, and the `Create`s not yet finished. */
    ghost var readers: multiset<Id>
    ghost var creating: set<Id>

    /** A missing key of a Go map reads as zero. */
    function Count(id: Id): int
      reads this`readLocked
    {
      if id in readLocked then readLocked[id] else 0
    }

    function CellOf(id: Id): Cell
      reads this
    {
      Cell(id in writeLocked,
           Count(id),
           if id in disk then Some(disk[id]) else None,
           if id in tmp then Some(tmp[id]) else None)
    }

    ghost function EntryAt(id: Id): Entry
      reads this
    {
      EntryOf(CellOf(id))
    }

    ghost predicate Valid()
      reads this
    {
      && writeLocked == creating == tmp.Keys
      && disk.Keys !! creating && readLocked.Keys !! creating
      && (forall id :: Count(id) == readers[id])
      && (forall id <- readLocked :: readLocked[id] > 0)
    }

    /** Everything about the identifiers other than `id` is as it was. */
    twostate predicate OnlyChanges(id: Id)
      reads this
    {
      forall j :: j != id ==> CellOf(j) == old(CellOf(j))
    }

    /** Where `Create` makes its directory. */
    function TmpDir(id: Id): Path {
      root + ["tmp", Name(id)]
    }

    constructor (root: Path, found: map<Id, Dir>)
      ensures Valid() && this.root == root && disk == found && creating == {} && readers == multiset{}
    {
      this.root := root;
      writeLocked, readLocked, disk, tmp := {}, map[], found, map[];
      readers, creating := multiset{}, {};
    }

    // ---- Critical sections ----

    method ReadLock(id: Id) returns (err: Option<CacheError>)
      modifies this`readLocked
      ensures (CellOf(id), err) == ArtifactCell.ReadLock(old(CellOf(id)))
      ensures readLocked == if err.None? then old(readLocked)[id := old(Count(id)) + 1] else old(readLocked)
    {
      if id in writeLocked {
        return Some(WriteLocked);
      }
      readLocked := readLocked[id := Count(id) + 1];
      err := None;
    }

    method ReadUnlock(id: Id)
      modifies this`readLocked
      ensures CellOf(id) == ArtifactCell.ReadUnlock(old(CellOf(id)))
      ensures readLocked == if old(Count(id)) == 1 then old(readLocked) - {id}
                else old(readLocked)[id := old(Count(id)) - 1]
    {
      readLocked := readLocked[id := Count(id) - 1];
      if readLocked[id] == 0 {
        readLocked := readLocked - {id};
      }
    }

    method WriteLock(id: Id, remove: bool) returns (err: Option<CacheError>)
      modifies this`writeLocked
      ensures (CellOf(id), err) == ArtifactCell.WriteLock(old(CellOf(id)), id in disk, remove)
      ensures id in disk && !remove ==> err == Some(Exists)
      ensures id !in disk || remove ==>
                && (err == Some(WriteLocked) <==> id in old(writeLocked))
                && (err == Some(ReadLocked) <==> id !in old(writeLocked) && Count(id) > 0)
                && (err == None <==> id !in old(writeLocked) && Count(id) <= 0)
      ensures writeLocked == old(writeLocked) + if err.None? then {id} else {}
    {
      if id in disk && !remove {
        return Some(Exists);
      }
      if id in writeLocked {
        return Some(WriteLocked);
      }
      if Count(id) > 0 {
        return Some(ReadLocked);
      }
      writeLocked := writeLocked + {id};
      err := None;
    }

    method WriteUnlock(id: Id)
      modifies this`writeLocked
      ensures CellOf(id) == ArtifactCell.WriteUnlock(old(CellOf(id)))
      ensures writeLocked == old(writeLocked) - {id}
    {
      writeLocked := writeLocked - {id};
    }

    // ---- The exported methods ----

    method Remove(id: Id) returns (err: Option<CacheError>)
      requires Valid()
      modifies this`writeLocked, this`disk
      ensures Valid() && OnlyChanges(id)
      ensures err == Dictated(old(EntryAt(id)), true)
      ensures err == Some(WriteLocked) <==> id in creating
      ensures err == Some(ReadLocked) <==> readers[id] > 0
      ensures err == None <==> id !in creating && readers[id] == 0
      ensures CellOf(id) == if err.None? then NO_CELL else old(CellOf(id))
    {
      err := WriteLock(id, true);
      if err.Some? {
        return;
      }
      assert id !in old(writeLocked) && CellOf(id).readers == 0;
      disk := disk - {id};
      WriteUnlock(id);
      assert writeLocked == old(writeLocked);
    }

    /** On success the caller owns an empty directory and must call `Commit` or `Abort` once. */
    method Create(id: Id) returns (err: Option<CacheError>)
      requires Valid()
      modifies this`writeLocked, this`tmp, this`creating
      ensures Valid() && OnlyChanges(id)
      ensures err == Dictated(old(EntryAt(id)), false)
      ensures err == Some(Exists) <==> id in disk
      ensures err == Some(WriteLocked) <==> id !in disk && id in old(creating)
      ensures err == Some(ReadLocked) <==> id !in disk && readers[id] > 0
      ensures err == None <==> id !in disk && id !in old(creating) && readers[id] == 0
      ensures if err.None? then CellOf(id) == Cell(true, 0, None, Some(map[])) else CellOf(id) == old(CellOf(id))
      ensures creating == old(creating) + if err.None? then {id} else {}
      ensures tmp == if err.None? then old(tmp)[id := map[]] else old(tmp)
    {
      err := WriteLock(id, false);
      if err.Some? {
        return;
      }
      if id !in tmp {
        tmp := tmp[id := map[]];
      }
      creating := creating + {id};
    }

    /** The owner of a `Create` writes into the directory it was given. */
    method Fill(id: Id, d: Dir)
      requires Valid() && id in creating
      modifies this`tmp
      ensures Valid() && OnlyChanges(id)
      ensures CellOf(id) == old(CellOf(id)).(tmp := Some(d)) && tmp == old(tmp)[id := d]
    {
      tmp := tmp[id := d];
    }

    method Commit(id: Id) returns (ok: bool)
      requires Valid() && id in creating
      modifies this`writeLocked, this`disk, this`tmp, this`creating
      ensures Valid() && OnlyChanges(id)
      ensures ok && creating == old(creating) - {id}
      ensures CellOf(id) == Cell(false, 0, old(CellOf(id)).tmp, None)
      ensures disk == old(disk)[id := old(tmp)[id]] && tmp == old(tmp) - {id}
    {
      ok := ArtifactCell.Rename(CellOf(id)).1;
      if ok {
        disk, tmp := disk[id := tmp[id]], tmp - {id};
      }
      WriteUnlock(id);
      creating := creating - {id};
    }

    method Abort(id: Id)
      requires Valid() && id in creating
      modifies this`writeLocked, this`tmp, this`creating
      ensures Valid() && OnlyChanges(id)
      ensures creating == old(creating) - {id}
      ensures CellOf(id) == NO_CELL && tmp == old(tmp) - {id}
    {
      tmp := tmp - {id};
      WriteUnlock(id);
      creating := creating - {id};
    }

    /** On success the caller holds a read lock and must call `Unlock` once. */
    method Get(id: Id) returns (err: Option<CacheError>)
      requires Valid()
      modifies this`readLocked, this`readers
      ensures Valid() && OnlyChanges(id)
      ensures err == (match old(EntryAt(id))
                      case Entry(_, Write) => Some(WriteLocked)
                      case Entry(None, _) => Some(NotFound)
                      case Entry(Some(_), _) => None)
      ensures err.None? <==> id in disk
      ensures err == Some(WriteLocked) <==> id in creating
      ensures err == Some(NotFound) <==> id !in disk && id !in creating
      ensures CellOf(id) == old(CellOf(id)).(readers := old(CellOf(id)).readers + if err.None? then 1 else 0)
      ensures readers == old(readers) + if err.None? then multiset{id} else multiset{}
    {
      err := ReadLock(id);
      if err.Some? {
        return;
      }
      if id !in disk {
        ReadUnlock(id);
        return Some(NotFound);
      }
      readers := readers + multiset{id};
    }

    method Unlock(id: Id)
      requires Valid() && readers[id] > 0
      modifies this`readLocked, this`readers
      ensures Valid() && OnlyChanges(id)
      ensures CellOf(id) == old(CellOf(id)).(readers := old(CellOf(id)).readers - 1)
      ensures readers == old(readers) - multiset{id}
    {
      ReadUnlock(id);
      readers := readers - multiset{id};
    }
  }
}

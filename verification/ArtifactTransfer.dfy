/** One artifact sent by a remote worker and downloaded into the local cache. */
module ArtifactTransfer {
  import opened Basics
  import opened ArtifactCell
  import opened ArtifactCache
  import opened TarStream
  import opened TarPaths

  /** What the client sees: no usable answer, or a body that ends well or breaks off. */
  datatype Response = Unreachable | BadStatus(code: nat) | Body(stream: Stream)

  const STATUS_NOT_FOUND := 404
  const STATUS_INTERNAL := 500

  method Packed(d: Dir) returns (stream: Stream)
    requires ParentClosed(d)
    ensures stream.intact && Lists(d, [], d.Keys, stream.entries)
  {
    var w := new Writer();
    Send([d], d, w);
    stream := Stream(w.entries, w.closed);
  }

  /** Received into the empty directory `dir`, as far as that directory goes. */
  method Unpacked(dir: Path, stream: Stream) returns (whole: bool, d: Dir)
    requires Inside(dir, stream.entries)
    ensures whole == (stream.intact && Replay(map[], Relatives(dir, stream.entries)).Some?)
    ensures whole ==> Replay(map[], Relatives(dir, stream.entries)) == Some(d)
  {
    var root := new Disk(Way(dir));
    WayHas(dir);
    EmptyAtEnd(dir);
    ReplayInside(root.files, dir, stream.entries);
    whole := Receive(root, dir, stream);
    d := Sub(root.files, dir);
  }

  lemma EmptyAtEnd(dir: Path)
    ensures Sub(Way(dir), dir) == map[]
  {
    forall p ensures p !in Sub(Way(dir), dir) {
      if p != [] {
        SubAt(Way(dir), dir, p);
        WayAt(dir, dir + p);
      }
    }
  }

  /** The `/artifact` handler: the read lock is held for the whole of `Send` and then given back. */
  method Serve(remote: Cache, id: Id) returns (resp: Response)
    requires remote.Valid()
    requires id in remote.disk ==> ParentClosed(remote.disk[id])
    modifies remote
    ensures remote.Valid() && remote.readers == old(remote.readers) && remote.creating == old(remote.creating)
    ensures forall j :: remote.CellOf(j) == old(remote.CellOf(j))
    ensures match old(remote.EntryAt(id))
            case Entry(_, Write) => resp == BadStatus(500)
            case Entry(None, _) => resp == BadStatus(404)
            case Entry(Some(d), _) =>
              resp.Body? && resp.stream.intact && Lists(d, [], d.Keys, resp.stream.entries)
  {
    var err := remote.Get(id);
    if err.Some? {
      return BadStatus(if err == Some(NotFound) then STATUS_NOT_FOUND else STATUS_INTERNAL);
    }
    var stream := Packed(remote.disk[id]);
    remote.Unlock(id);
    resp := Body(stream);
  }

  /** No name of the answer leads out of `dir`. */
  predicate KeepsInside(dir: Path, resp: Response) {
    resp.Body? ==> Inside(dir, resp.stream.entries)
  }

  /** The stream that makes `Download` succeed, and the directory it then holds. */
  function Received(dir: Path, resp: Response): Option<Dir> {
    if resp.Body? && resp.stream.intact then Replay(map[], Relatives(dir, resp.stream.entries)) else None
  }

  /**
   `Download` once the response is there. Names are not checked: if one leads out of `tmp/<id>`, other
   directories may change, and nothing is promised of them.
   */
  method Download(local: Cache, id: Id, resp: Response) returns (ok: bool)
    requires local.Valid()
    modifies local
    ensures local.readers == old(local.readers) && local.creating == old(local.creating)
    ensures !resp.Body? || old(local.EntryAt(id)) != Entry(None, Free) ==>
              !ok && local.Valid() && forall k :: local.CellOf(k) == old(local.CellOf(k))
    ensures KeepsInside(local.TmpDir(id), resp) ==>
              && local.Valid() && local.OnlyChanges(id)
              && (ok <==> Received(local.TmpDir(id), resp).Some? && old(local.EntryAt(id)) == Entry(None, Free))
              && (ok ==> local.EntryAt(id) == Entry(Received(local.TmpDir(id), resp), Free))
              && (!ok ==> local.CellOf(id) == old(local.CellOf(id)))
  {
    if !resp.Body? {
      return false;
    }
    var err := local.Create(id);
    if err.Some? {
      return false;
    }
    if !Inside(local.TmpDir(id), resp.stream.entries) {
      local.disk, local.tmp, ok := *, *, *;
      local.WriteUnlock(id);
      local.creating := local.creating - {id};
      return;
    }
    var whole, contents := Unpacked(local.TmpDir(id), resp.stream);
    local.Fill(id, contents);
    if !whole {
      local.Abort(id);
      return false;
    }
    ok := local.Commit(id);
  }

  /** End to end: a completed transfer leaves the local cache with exactly the remote directory. */
  method Transfer(remote: Cache, local: Cache, id: Id) returns (ok: bool)
    requires remote != local && remote.Valid() && local.Valid()
    requires id in remote.disk ==> FileTree(remote.disk[id])
    modifies remote, local
    ensures remote.Valid() && local.Valid() && local.OnlyChanges(id)
    ensures forall j :: remote.CellOf(j) == old(remote.CellOf(j))
    ensures ok <==> old(local.EntryAt(id)) == Entry(None, Free)
                    && old(remote.EntryAt(id)).content.Some? && old(remote.EntryAt(id)).lock != Write
    ensures if ok then local.EntryAt(id) == Entry(old(remote.EntryAt(id)).content, Free)
            else local.CellOf(id) == old(local.CellOf(id))
  {
    var resp := Serve(remote, id);
    if resp.Body? {
      ListingReceived(remote.disk[id], local.TmpDir(id), resp.stream.entries);
    }
    ok := Download(local, id, resp);
  }

  /** What was sent from a directory stays inside wherever it is received, and rebuilds the directory there. */
  lemma ListingReceived(d: Dir, dir: Path, es: seq<TarEntry>)
    requires FileTree(d) && Lists(d, [], d.Keys, es)
    ensures Inside(dir, es) && Relatives(dir, es) == es && Replay(map[], Relatives(dir, es)) == Some(d)
  {
    CleanStaysInside(dir, es);
    RelativesClean(dir, es);
    RoundTrip(d, es);
  }
}

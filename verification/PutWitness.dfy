/** A run in which an upload removes the entry it meets and is then refused, so that nothing is left. */
module PutWitness {
  import opened Basics
  import opened ArtifactCell
  import opened FileCache
  import opened PutMachine
  import opened PutProofs
  import opened PutRefusals
  import opened Runs
  import C = CacheMachine

  const ID := Id(0)
  const OLD_BODY: Bytes := [1]
  const OLD := map[ID := FileDir(OLD_BODY)]

  /** One upload, whose key is taken, and whatever sessions and cell there are. */
  function Scene(mu: Option<C.Sid>, x: Cell, sessions: map<C.Sid, C.Session>, put: Put): Puts {
    Puts(C.State(mu, map[ID := x], sessions), map[ID := true], map[0 := put], OLD, map[])
  }

  function Own(index: nat): C.Sid {
    C.Sid(C.Handler(0), index)
  }

  function Upload(pc: PutPc, retries: nat, index: nat): Put {
    Put(ID, [2], pc, retries, index)
  }

  lemma Extend(tr: seq<Puts>, p: Puts)
    requires DownloadsOnly(tr) && Next(tr[|tr| - 1], p) && !BeginsRemove(tr[|tr| - 1], p)
    ensures DownloadsOnly(tr + [p])
  {
    LinkOne(tr, p, (a, b) => Next(a, b) && !BeginsRemove(a, b));
  }

  /** A step of the upload, which is no beginning of a guest. */
  lemma Steps(tr: seq<Puts>, act: PutAction, p: Puts) returns (tr': seq<Puts>)
    requires DownloadsOnly(tr) && PutSteps(tr[|tr| - 1], 0, act, p)
    ensures DownloadsOnly(tr') && tr'[|tr'| - 1] == p && tr'[0] == tr[0]
  {
    OwnSessions(tr[|tr| - 1], 0, act, p);
    Extend(tr, p);
    tr' := tr + [p];
  }

  /** The scene after a step of the upload's session that leads to `q` and `y`, and to a next operation. */
  function Later(mu: Option<C.Sid>, sessions: map<C.Sid, C.Session>, index: nat, q: C.Pc, y: Cell, put': Put,
        next: Option<C.Op>): Puts {
    var moved := sessions[Own(index) := C.Session(ID, q)];
    Scene(mu, y,
          match next
          case None => moved
          case Some(op) => moved[Own(index + 1) := C.Session(ID, C.StartPc(op))],
          put')
  }

  lemma Drives(tr: seq<Puts>, mu: Option<C.Sid>, x: Cell, ss: map<C.Sid, C.Session>, put: Put, pc: C.Pc, a: C.Action)
        returns (tr': seq<Puts>)
    requires DownloadsOnly(tr) && tr[|tr| - 1] == Scene(mu, x, ss, put) && put.id == ID && !a.Commit?
    requires Own(put.index) in ss && ss[Own(put.index)] == C.Session(ID, pc)
    requires PutMachine.Drives(put, a) && C.LocalEnabled(pc, x, a) && (C.NeedsMu(pc, a) ==> mu == None)
    ensures DownloadsOnly(tr') && tr'[0] == tr[0]
    ensures var (q, y) := C.Local(pc, x, a);
            var (put', next) := Follow(put, a, q);
            var mu' := if C.HoldsMu(q) then Some(Own(put.index)) else if C.HoldsMu(pc) then None else mu;
            tr'[|tr'| - 1] == Later(mu', ss, put.index, q, y, put', next)
  {
    var p := Scene(mu, x, ss, put);
    FollowIndex(put, a, C.Local(pc, x, a).0);
    tr' := Steps(tr, Drive(a), PutApply(p, 0, Drive(a)));
  }

  lemma FollowIndex(put: Put, a: C.Action, q: C.Pc)
    ensures var (put', next) := Follow(put, a, q); next.Some? ==> put'.index == put.index + 1
  {
  }

  /** The pc of a session that has tried to take the write lock. */
  function Decided(remove: bool, err: Option<CacheError>): C.Pc {
    if err.Some? then C.Done(C.Failed(err.value)) else if remove then C.RemoveLocked else C.CreateLocked
  }

  /** Three steps: the mutex, the look at the directory, the decision. */
  lemma Locks(tr: seq<Puts>, x: Cell, ss: map<C.Sid, C.Session>, put: Put, remove: bool) returns (tr': seq<Puts>)
    requires DownloadsOnly(tr) && tr[|tr| - 1] == Scene(None, x, ss, put) && put.id == ID
    requires put.pc == if remove then Deleting else Creating
    requires Own(put.index) in ss && ss[Own(put.index)] == C.Session(ID, C.LockStart(remove))
    ensures DownloadsOnly(tr') && tr'[0] == tr[0]
    ensures var (y, err) := WriteLock(x, x.disk.Some?, remove);
            var (put', next) := Follow(put, C.Advance, Decided(remove, err));
            tr'[|tr'| - 1] == Later(None, ss, put.index, Decided(remove, err), y, put', next)
  {
    var s := Own(put.index);
    var s1 := ss[s := C.Session(ID, C.LockInMu(remove))];
    tr' := Drives(tr, None, x, ss, put, C.LockStart(remove), C.Advance);
    var found := C.LockStatted(remove, x.disk.Some?, EntryOf(x));
    var s2 := s1[s := C.Session(ID, found)];
    tr' := Drives(tr', Some(s), x, s1, put, C.LockInMu(remove), C.Advance);
    tr' := Drives(tr', Some(s), x, s2, put, found, C.Advance);
    var q := Decided(remove, WriteLock(x, x.disk.Some?, remove).1);
    assert s2[s := C.Session(ID, q)] == ss[s := C.Session(ID, q)];
  }

  const PRESENT := NO_CELL.(disk := Some(OLD[ID]))

  function Alone(index: nat, pc: C.Pc): map<C.Sid, C.Session> {
    map[Own(index) := C.Session(ID, pc)]
  }

  lemma Start() returns (tr: seq<Puts>)
    ensures DownloadsOnly(tr) && C.At(tr[0].cache, ID).disk.Some?
    ensures tr[|tr| - 1] == Scene(None, PRESENT, Alone(0, C.LockStart(false)), Upload(Creating, 0, 0))
  {
    var p0 := Puts(C.State(None, map[ID := PRESENT], map[]), map[], map[], OLD, map[]);
    tr := [p0];
    assert Init(p0);
    var p1 := p0.(puts := map[0 := Upload(KeyMap, 0, 0)]);
    assert Arrives(p0, 0, ID, [2], p1);
    Extend(tr, p1);
    tr := tr + [p1];
    tr := Steps(tr, Lookup, PutApply(p1, 0, Lookup));
    tr := Steps(tr, Send, PutApply(PutApply(p1, 0, Lookup), 0, Send));
    assert tr[|tr| - 1].keys == map[ID := true];
    assert tr[|tr| - 1].puts == map[0 := Upload(Creating, 0, 0)];
    assert tr[|tr| - 1].cache.sessions == Alone(0, C.LockStart(false));
  }

  const MET := C.Session(ID, C.Done(C.Failed(Exists)))

  /** `Create` finds the entry, and `Remove` begins. */
  lemma MeetsEntry() returns (tr: seq<Puts>)
    ensures DownloadsOnly(tr) && C.At(tr[0].cache, ID).disk.Some?
    ensures tr[|tr| - 1] ==
              Scene(None, PRESENT, map[Own(0) := MET, Own(1) := C.Session(ID, C.LockStart(true))],
                  Upload(Deleting, 0, 1))
  {
    var put := Upload(Creating, 0, 0);
    tr := Start();
    tr := Locks(tr, PRESENT, Alone(0, C.LockStart(false)), put, false);
  }

  function Second(pc: C.Pc): map<C.Sid, C.Session> {
    map[Own(0) := MET, Own(1) := C.Session(ID, pc)]
  }

  /** `Remove` locks the entry. */
  lemma LocksEntry() returns (tr: seq<Puts>)
    ensures DownloadsOnly(tr) && C.At(tr[0].cache, ID).disk.Some?
    ensures tr[|tr| - 1] == Scene(None, PRESENT.(write := true), Second(C.RemoveLocked), Upload(Deleting, 0, 1))
  {
    var put := Upload(Deleting, 0, 1);
    tr := MeetsEntry();
    tr := Locks(tr, PRESENT, Second(C.LockStart(true)), put, true);
  }

  const REMOVED := C.Session(ID, C.Done(C.Removed))

  function Third(pc: C.Pc): map<C.Sid, C.Session> {
    map[Own(0) := MET, Own(1) := REMOVED, Own(2) := C.Session(ID, pc)]
  }

  const LEFT := NO_CELL.(write := true, disk := Some(map[]))

  /** It deletes the file, */
  lemma DeletesFile() returns (tr: seq<Puts>)
    ensures DownloadsOnly(tr) && C.At(tr[0].cache, ID).disk.Some?
    ensures tr[|tr| - 1] == Scene(None, LEFT, Second(C.RemoveLocked), Upload(Deleting, 0, 1))
  {
    var put := Upload(Deleting, 0, 1);
    tr := LocksEntry();
    tr := Drives(tr, None, PRESENT.(write := true), Second(C.RemoveLocked), put, C.RemoveLocked,
        C.DeletePath(FILE_NAME));
    assert OLD[ID] - {FILE_NAME} == map[];
  }

  /** and the entry, and the upload starts again. */
  lemma DeletesEntry() returns (tr: seq<Puts>)
    ensures DownloadsOnly(tr) && C.At(tr[0].cache, ID).disk.Some?
    ensures tr[|tr| - 1] == Scene(None, NO_CELL, Third(C.LockStart(false)), Upload(Creating, 1, 2))
  {
    var put := Upload(Deleting, 0, 1);
    tr := DeletesFile();
    tr := Drives(tr, None, LEFT, Second(C.RemoveLocked), put, C.RemoveLocked, C.DeleteRoot);
    assert tr[|tr| - 1] == Scene(None, NO_CELL.(write := true), Second(C.RemoveDeleted), put);
    tr := Drives(tr, None, NO_CELL.(write := true), Second(C.RemoveDeleted), put, C.RemoveDeleted, C.Advance);
  }

  const GUEST := C.Sid(C.Guest(0), 0)

  const READ := NO_CELL.(readers := 1)

  function Last(pc: C.Pc): map<C.Sid, C.Session> {
    Third(pc)[GUEST := C.Session(ID, C.GetLocked)]
  }

  /** A download of the missing entry takes its read lock before it looks. */
  lemma GuestComes() returns (tr: seq<Puts>)
    ensures DownloadsOnly(tr) && C.At(tr[0].cache, ID).disk.Some?
    ensures tr[|tr| - 1] == Scene(None, READ, Last(C.LockStart(false)), Upload(Creating, 1, 2))
  {
    var put := Upload(Creating, 1, 2);
    tr := DeletesEntry();
    var p0 := tr[|tr| - 1];
    var p1 := Scene(None, NO_CELL, Third(C.LockStart(false))[GUEST := C.Session(ID, C.GetStart)], put);
    assert GuestBegins(p0, GUEST, C.Get, ID, p1);
    assert !BeginsRemove(p0, p1) by {
      assert forall s :: s in p1.cache.sessions && s !in p0.cache.sessions ==> C.PcAt(p1.cache, s) == C.GetStart;
    }
    Extend(tr, p1);
    var p2 := Scene(None, READ, Last(C.LockStart(false)), put);
    assert C.Apply(p1.cache, GUEST, C.Advance) == p2.cache;
    assert GuestSteps(p1, GUEST, C.Advance, p2);
    assert p2.cache.sessions.Keys == p1.cache.sessions.Keys;
    Extend(tr + [p1], p2);
    tr := tr + [p1] + [p2];
  }

  /** Refused after its retry, the upload leaves no entry where there was one. */
  lemma RefusedAfterRetry() returns (tr: seq<Puts>)
    ensures DownloadsOnly(tr) && C.At(tr[0].cache, ID).disk.Some?
    ensures var p := tr[|tr| - 1];
            && RefusedAt(p, 0) && p.puts[0].id == ID && p.puts[0].retries == 1
            && p.puts[0].pc.res == Refused(ReadLocked)
            && C.At(p.cache, ID).disk == None
  {
    var put := Upload(Creating, 1, 2);
    tr := GuestComes();
    tr := Locks(tr, READ, Last(C.LockStart(false)), put, false);
  }
}

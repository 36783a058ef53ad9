/** Safety of interleaved uploads: the key lock, the write lock and the directories together. */
module PutProofs {
  import opened Basics
  import opened ArtifactCell
  import opened FileCache
  import opened PutMachine
  import C = CacheMachine
  import CP = CacheProofs

  // ---- Facts about one upload, its session and its cell ----

  /** What an upload knows of its session, if it has one. */
  predicate Stage(put: Put, pc: C.Pc, x: Cell) {
    if Active(put.pc) then PhaseOk(put, pc, x) else PhaseOk(put, C.GetStart, NO_CELL)
  }

  function SessionAfter(q: C.Pc, next: Option<C.Op>): C.Pc {
    match next
    case None => q
    case Some(op) => C.StartPc(op)
  }

  lemma DriveLocal(put: Put, pc: C.Pc, x: Cell, a: C.Action)
    requires Active(put.pc) && PhaseOk(put, pc, x) && Drives(put, a)
    requires C.LocalEnabled(pc, x, a) && C.Knows(pc, x)
    ensures var (q, y) := C.Local(pc, x, a);
            var (put', next) := Follow(put, a, q);
            && HoldsKey(put'.pc) && Stage(put', SessionAfter(q, next), y)
            && put'.id == put.id && put'.body == put.body
            && put'.index == put.index + (if next.Some? then 1 else 0)
            && (next.Some? ==> q.Done? && Active(put'.pc))
            && (!Active(put'.pc) ==> q.Done?)
  {
  }

  /** Sessions that never create neither publish a directory nor touch `tmp`. */
  lemma GuestLocal(pc: C.Pc, x: Cell, a: C.Action)
    requires C.LocalEnabled(pc, x, a) && !CreatorPc(pc)
    ensures var (q, y) := C.Local(pc, x, a);
            !CreatorPc(q) && y.tmp == x.tmp && (x.disk == None ==> y.disk == None)
  {
  }

  lemma GuestKeepsPhase(pc: C.Pc, x: Cell, a: C.Action, put: Put, t: C.Pc)
    requires C.LocalEnabled(pc, x, a) && !CreatorPc(pc) && PhaseOk(put, t, x)
    ensures PhaseOk(put, t, C.Local(pc, x, a).1)
  {
    GuestLocal(pc, x, a);
  }

  /** A directory that is visible after a step was visible before it, or is the one just committed. */
  lemma ContentLocal(pc: C.Pc, x: Cell, a: C.Action)
    requires C.LocalEnabled(pc, x, a) && C.Knows(pc, x)
    ensures var (q, y) := C.Local(pc, x, a);
            y.disk.Some? && !q.RemoveLocked? ==>
              if a.Commit? then q.Renamed? && y.disk == x.tmp else y.disk == x.disk && !pc.RemoveLocked?
  {
  }

  // ---- Steps of one cache session ----

  /** A session's step seen from the uploads: only its own cell and its own session move. */
  lemma ContentKept(c: C.State, s: C.Sid, a: C.Action, p: Puts, p': Puts)
    requires C.Inv(c) && C.Enabled(c, s, a) && ContentInv(p) && p.cache == c
    requires forall t <- c.sessions :: t != s ==> t in p'.cache.sessions && p'.cache.sessions[t] == c.sessions[t]
    requires s in p'.cache.sessions && p'.cache.sessions[s] == C.Apply(c, s, a).sessions[s]
    requires p'.cache.cells == C.Apply(c, s, a).cells
    requires forall id, d :: (id != C.IdAt(c, s) || !a.Commit?) && Complete(p, id, d) ==> Complete(p', id, d)
    requires a.Commit? && C.At(c, C.IdAt(c, s)).tmp.Some? ==>
               Complete(p', C.IdAt(c, s), C.At(c, C.IdAt(c, s)).tmp.value)
    ensures ContentInv(p')
  {
    CP.OwnView(c, s);
    ContentLocal(C.PcAt(c, s), C.At(c, C.IdAt(c, s)), a);
    forall id | C.At(p'.cache, id).disk.Some? && !BeingRemoved(p', id)
      ensures Complete(p', id, C.At(p'.cache, id).disk.value)
    {
      assert id == C.IdAt(c, s) || C.At(p'.cache, id) == C.At(c, id);
    }
  }

  // ---- Guests ----

  lemma GuestPhase(p: Puts, s: C.Sid, a: C.Action, p': Puts)
    requires PutInv(p) && GuestSteps(p, s, a, p') && !CreatorPc(C.PcAt(p.cache, s))
    ensures PhaseInv(p')
  {
    forall h <- p'.puts ensures PhaseAt(p', h) {
      var put := p.puts[h];
      assert PhaseAt(p, h);
      if Active(put.pc) && put.id == C.IdAt(p.cache, s) {
        GuestKeepsPhase(C.PcAt(p.cache, s), C.At(p.cache, put.id), a, put, C.PcAt(p.cache, Current(h, put)));
      }
    }
  }

  lemma GuestStepInv(p: Puts, s: C.Sid, a: C.Action, p': Puts)
    requires PutInv(p) && GuestSteps(p, s, a, p')
    ensures PutInv(p')
  {
    CP.StepInv(p.cache, s, a, p'.cache);
    assert OwnerOk(p, s);
    GuestLocal(C.PcAt(p.cache, s), C.At(p.cache, C.IdAt(p.cache, s)), a);
    assert !a.Commit?;
    ContentKept(p.cache, s, a, p, p');
    GuestPhase(p, s, a, p');
    forall t <- p'.cache.sessions ensures OwnerOk(p', t) {
      assert OwnerOk(p, t);
    }
  }

  lemma GuestBeginInv(p: Puts, s: C.Sid, op: C.Op, id: Id, p': Puts)
    requires PutInv(p) && GuestBegins(p, s, op, id, p')
    ensures PutInv(p')
  {
    CP.BeginInv(p.cache, s, op, id);
    BeginKeepsContent(p, s, op, id, p');
    forall t <- p'.cache.sessions ensures OwnerOk(p', t) {
      assert t != s ==> OwnerOk(p, t);
    }
  }

  lemma BeginKeepsContent(p: Puts, s: C.Sid, op: C.Op, id: Id, p': Puts)
    requires ContentInv(p) && s !in p.cache.sessions && p'.cache == C.Begin(p.cache, s, op, id)
    requires forall i, d :: Complete(p, i, d) ==> Complete(p', i, d)
    ensures ContentInv(p')
  {
    forall i | C.At(p'.cache, i).disk.Some? && !BeingRemoved(p', i)
      ensures Complete(p', i, C.At(p'.cache, i).disk.value)
    {
      assert forall t <- p.cache.sessions :: t in p'.cache.sessions && p'.cache.sessions[t] == p.cache.sessions[t];
      assert !BeingRemoved(p, i);
    }
  }

  // ---- Uploads that only touch the key lock ----

  /** Upload `h` moves or arrives; nobody's request changes. */
  predicate OneMoves(p: Puts, h: nat, p': Puts) {
    && h in p'.puts && p'.puts == p.puts[h := p'.puts[h]]
    && (h in p.puts ==> p'.puts[h].id == p.puts[h].id && p'.puts[h].body == p.puts[h].body)
    && p'.initial == p.initial
  }

  lemma CompleteKept(p: Puts, h: nat, p': Puts)
    requires OneMoves(p, h, p') && p'.author == p.author
    ensures forall id, d :: Complete(p, id, d) ==> Complete(p', id, d)
  {
  }

  lemma ContentFrame(p: Puts, h: nat, p': Puts)
    requires ContentInv(p) && OneMoves(p, h, p') && p'.author == p.author && p'.cache == p.cache
    ensures ContentInv(p')
  {
    forall id | C.At(p'.cache, id).disk.Some? && !BeingRemoved(p', id)
      ensures Complete(p', id, C.At(p'.cache, id).disk.value)
    {
      assert !BeingRemoved(p, id);
    }
  }

  lemma PhaseFrame(p: Puts, h: nat, p': Puts)
    requires PhaseInv(p) && OneMoves(p, h, p') && p'.cache == p.cache
    requires !Active(p'.puts[h].pc) && PhaseOk(p'.puts[h], C.GetStart, NO_CELL)
    ensures PhaseInv(p')
  {
    forall g <- p'.puts | g != h ensures p'.puts[g] == p.puts[g] {}
  }

  /** Upload `h` keeps its sessions: it has none yet, or they are over and it stays inactive. */
  lemma OwnerFrame(p: Puts, h: nat, p': Puts)
    requires OwnerInv(p) && OneMoves(p, h, p') && p'.cache == p.cache
    requires h in p.puts ==> !Active(p.puts[h].pc) && !Active(p'.puts[h].pc) && p'.puts[h].index == p.puts[h].index
    requires h in p.puts && (p'.puts[h].pc.KeyMap? || p'.puts[h].pc.KeySend?) ==>
               p.puts[h].pc.KeyMap? || p.puts[h].pc.KeySend?
    ensures OwnerInv(p')
  {
    forall t <- p'.cache.sessions ensures OwnerOk(p', t) {
      assert OwnerOk(p, t);
    }
  }

  lemma ArriveInv(p: Puts, h: nat, id: Id, body: Bytes, p': Puts)
    requires PutInv(p) && Arrives(p, h, id, body, p')
    ensures PutInv(p')
  {
    ContentFrame(p, h, p');
    PhaseFrame(p, h, p');
    OwnerFrame(p, h, p');
    assert KeyInv(p');
  }

  lemma KeysKept(p: Puts, h: nat, act: PutAction, p': Puts)
    requires KeyInv(p) && PutSteps(p, h, act, p')
    requires act.Lookup? || act.Find? || act.Receive? || act.Send?
    ensures KeyInv(p')
  {
    KeyMoves(p, h, p');
  }

  /** Only the holder of a key frees its slot, and only a free slot is taken. */
  lemma KeyMoves(p: Puts, h: nat, p': Puts)
    requires KeyInv(p) && h in p.puts && OneMoves(p, h, p')
    requires forall id <- p.keys :: id in p'.keys && (id != p.puts[h].id ==> p'.keys[id] == p.keys[id])
    requires !p'.puts[h].pc.KeyMap? ==> p.puts[h].id in p'.keys
    requires HoldsKey(p'.puts[h].pc) ==> p.puts[h].id in p.keys
    requires HoldsKey(p'.puts[h].pc) ==> p'.keys[p.puts[h].id] && (HoldsKey(p.puts[h].pc) || !p.keys[p.puts[h].id])
    requires p.puts[h].id in p.keys && p.keys[p.puts[h].id] && !HoldsKey(p.puts[h].pc) ==> p'.keys[p.puts[h].id]
    ensures KeyInv(p')
  {
  }

  lemma KeyStepInv(p: Puts, h: nat, act: PutAction, p': Puts)
    requires PutInv(p) && PutSteps(p, h, act, p')
    requires act.Lookup? || act.Find? || act.Receive?
    ensures PutInv(p')
  {
    KeysKept(p, h, act, p');
    ContentFrame(p, h, p');
    PhaseFrame(p, h, p');
    OwnerFrame(p, h, p');
  }

  // ---- Uploads that drive the cache ----

  /** Upload `h` is at work with a session of its own; the sessions of everybody else are as they were. */
  lemma OwnerMoves(p: Puts, h: nat, p': Puts)
    requires OwnerInv(p) && OneMoves(p, h, p') && h in p.puts
    requires forall t <- p'.cache.sessions :: t.owner != C.Handler(h) ==>
               t in p.cache.sessions && p'.cache.sessions[t] == p.cache.sessions[t]
    requires forall t <- p'.cache.sessions :: t.owner == C.Handler(h) ==> OwnerOk(p', t)
    ensures OwnerInv(p')
  {
    forall t <- p'.cache.sessions ensures OwnerOk(p', t) {
      if t.owner != C.Handler(h) {
        assert OwnerOk(p, t);
      }
    }
  }

  lemma SendInv(p: Puts, h: nat, p': Puts)
    requires PutInv(p) && PutSteps(p, h, Send, p')
    ensures PutInv(p')
  {
    var s := Current(h, p.puts[h]);
    assert forall t <- p.cache.sessions :: t.owner == C.Handler(h) ==> !OwnerOk(p, t);
    KeysKept(p, h, Send, p');
    CP.BeginInv(p.cache, s, C.Create, p.puts[h].id);
    CompleteKept(p, h, p');
    BeginKeepsContent(p, s, C.Create, p.puts[h].id, p');
    OwnerMoves(p, h, p');
    SendPhase(p, h, p');
  }

  lemma SendPhase(p: Puts, h: nat, p': Puts)
    requires PhaseInv(p) && PutSteps(p, h, Send, p')
    requires Current(h, p.puts[h]) !in p.cache.sessions
    ensures PhaseInv(p')
  {
    forall g <- p'.puts | g != h ensures p'.puts[g] == p.puts[g] {}
  }

  lemma NewSessionIsFresh(p: Puts, h: nat)
    requires OwnerInv(p) && h in p.puts
    ensures C.Sid(C.Handler(h), p.puts[h].index + 1) !in p.cache.sessions
  {
    var t := C.Sid(C.Handler(h), p.puts[h].index + 1);
    assert t in p.cache.sessions ==> OwnerOk(p, t);
  }

  /** The cache of `p'` is the one after the session's step, perhaps with the next session begun. */
  predicate AfterStep(p: Puts, h: nat, c: C.State, p': Puts)
    requires h in p.puts && h in p'.puts
  {
    var s, t := Current(h, p.puts[h]), C.Sid(C.Handler(h), p.puts[h].index + 1);
    && s in c.sessions
    && OneMoves(p, h, p') && p'.keys == p.keys
    && p'.cache.cells == c.cells && p'.cache.mu == c.mu
    && (p'.cache.sessions == c.sessions
        || (t in p'.cache.sessions && p'.cache.sessions == c.sessions[t := p'.cache.sessions[t]]))
  }

  lemma DriveView(p: Puts, h: nat, a: C.Action, p': Puts)
    requires PutSteps(p, h, Drive(a), p')
    ensures C.Enabled(p.cache, Current(h, p.puts[h]), a)
    ensures AfterStep(p, h, C.Apply(p.cache, Current(h, p.puts[h]), a), p')
    ensures p'.author == if a.Commit?
              && C.PcAt(C.Apply(p.cache, Current(h, p.puts[h]), a), Current(h, p.puts[h])).Renamed?
                         then p.author[p.puts[h].id := h] else p.author
    ensures a.Commit? ==> p.puts[h].pc == Copying(|p.puts[h].body|)
  {
  }

  lemma CommitCompletes(p: Puts, h: nat, a: C.Action, p': Puts)
    requires PutInv(p) && PutSteps(p, h, Drive(a), p')
    ensures a.Commit? ==> Complete(p', p.puts[h].id, C.At(p.cache, p.puts[h].id).tmp.value)
    ensures forall id, d :: (id != p.puts[h].id || !a.Commit?) && Complete(p, id, d) ==> Complete(p', id, d)
  {
    DriveView(p, h, a, p');
    if a.Commit? {
      var put, s := p.puts[h], Current(h, p.puts[h]);
      CP.OwnView(p.cache, s);
      assert put.body[..|put.body|] == put.body;
      assert PhaseOk(put, C.PcAt(p.cache, s), C.At(p.cache, put.id));
    }
  }

  lemma DriveContent(p: Puts, h: nat, a: C.Action, p': Puts)
    requires PutInv(p) && h in p.puts && C.Enabled(p.cache, Current(h, p.puts[h]), a)
    requires C.IdAt(p.cache, Current(h, p.puts[h])) == p.puts[h].id
    requires h in p'.puts && AfterStep(p, h, C.Apply(p.cache, Current(h, p.puts[h]), a), p')
    requires a.Commit? ==> Complete(p', p.puts[h].id, C.At(p.cache, p.puts[h].id).tmp.value)
    requires forall id, d :: (id != p.puts[h].id || !a.Commit?) && Complete(p, id, d) ==> Complete(p', id, d)
    ensures ContentInv(p')
  {
    NewSessionIsFresh(p, h);
    ContentKept(p.cache, Current(h, p.puts[h]), a, p, p');
  }

  /** `c'` is `c`, perhaps with session `s` begun. */
  ghost predicate Begun(c: C.State, s: C.Sid, id: Id, c': C.State) {
    c' == c || exists op :: c' == C.Begin(c, s, op, id)
  }

  lemma NextSession(p: Puts, h: nat, a: C.Action, p': Puts)
    requires PutSteps(p, h, Drive(a), p')
    ensures var c := C.Apply(p.cache, Current(h, p.puts[h]), a);
            Begun(c, C.Sid(C.Handler(h), p.puts[h].index + 1), p.puts[h].id, p'.cache)
  {
  }

  lemma DriveCache(p: Puts, h: nat, a: C.Action, p': Puts)
    requires PutInv(p) && PutSteps(p, h, Drive(a), p')
    ensures C.Inv(p'.cache)
  {
    var put, s := p.puts[h], Current(h, p.puts[h]);
    var c := C.Apply(p.cache, s, a);
    CP.StepInv(p.cache, s, a, c);
    NewSessionIsFresh(p, h);
    NextSession(p, h, a, p');
    BegunInv(c, C.Sid(C.Handler(h), put.index + 1), put.id, p'.cache);
  }

  lemma BegunInv(c: C.State, s: C.Sid, id: Id, c': C.State)
    requires C.Inv(c) && s !in c.sessions && Begun(c, s, id, c')
    ensures C.Inv(c')
  {
    if c' != c {
      var op :| c' == C.Begin(c, s, op, id);
      CP.BeginInv(c, s, op, id);
    }
  }

  /** Upload `h` after its step: still holding its key, at a point that fits its session. */
  predicate OwnOk(p: Puts, h: nat, p': Puts)
    requires h in p.puts && h in p'.puts
  {
    var put, put', s, t := p.puts[h], p'.puts[h], Current(h, p.puts[h]), Current(h, p'.puts[h]);
    && Active(put.pc) && HoldsKey(put'.pc)
    && s in p'.cache.sessions && C.IdAt(p'.cache, s) == put.id
    && put.index <= put'.index <= put.index + 1
    && (put'.index > put.index || !Active(put'.pc) ==> C.PcAt(p'.cache, s).Done?)
    && (t in p'.cache.sessions ==> C.IdAt(p'.cache, t) == put.id)
    && (put'.index > put.index ==> Active(put'.pc))
    && (put'.index == put.index ==> C.Sid(C.Handler(h), put.index + 1) !in p'.cache.sessions)
    && if Active(put'.pc) then
         t in p'.cache.sessions && PhaseOk(put', C.PcAt(p'.cache, t), C.At(p'.cache, put.id))
       else PhaseOk(put', C.GetStart, NO_CELL)
  }

  /** `p'` spelled out in terms of the local step. */
  predicate DriveResult(p: Puts, h: nat, q: C.Pc, y: Cell, put': Put, next: Option<C.Op>, p': Puts)
    requires h in p.puts
  {
    var put, s := p.puts[h], Current(h, p.puts[h]);
    var moved := p.cache.sessions[s := C.Session(put.id, q)];
    && h in p'.puts && p'.puts[h] == put' && C.At(p'.cache, put.id) == y
    && p'.cache.sessions == match next
                            case None => moved
                            case Some(op) => moved[Current(h, put') := C.Session(put.id, C.StartPc(op))]
  }

  lemma DriveUnfolds(p: Puts, h: nat, a: C.Action, p': Puts)
    requires PutSteps(p, h, Drive(a), p') && C.IdAt(p.cache, Current(h, p.puts[h])) == p.puts[h].id
    ensures var (q, y) := C.Local(C.PcAt(p.cache, Current(h, p.puts[h])), C.At(p.cache, p.puts[h].id), a);
            var (put', next) := Follow(p.puts[h], a, q);
            DriveResult(p, h, q, y, put', next, p')
  {
  }

  lemma DriveOwnCore(p: Puts, h: nat, q: C.Pc, y: Cell, put': Put, next: Option<C.Op>, p': Puts)
    requires h in p.puts && Active(p.puts[h].pc) && DriveResult(p, h, q, y, put', next, p')
    requires HoldsKey(put'.pc) && Stage(put', SessionAfter(q, next), y)
    requires put'.index == p.puts[h].index + (if next.Some? then 1 else 0)
    requires (next.Some? ==> q.Done? && Active(put'.pc)) && (!Active(put'.pc) ==> q.Done?)
    requires C.Sid(C.Handler(h), p.puts[h].index + 1) !in p.cache.sessions
    ensures OwnOk(p, h, p')
  {
  }

  lemma DriveOwn(p: Puts, h: nat, a: C.Action, p': Puts)
    requires PutInv(p) && PutSteps(p, h, Drive(a), p')
    ensures OwnOk(p, h, p')
  {
    var put, s := p.puts[h], Current(h, p.puts[h]);
    CP.OwnView(p.cache, s);
    DriveLocal(put, C.PcAt(p.cache, s), C.At(p.cache, put.id), a);
    NewSessionIsFresh(p, h);
    DriveUnfolds(p, h, a, p');
    var (q, y) := C.Local(C.PcAt(p.cache, s), C.At(p.cache, put.id), a);
    var (put', next) := Follow(put, a, q);
    DriveOwnCore(p, h, q, y, put', next, p');
  }

  lemma WriteOwn(p: Puts, h: nat, m: nat, p': Puts)
    requires PutInv(p) && PutSteps(p, h, WriteTo(m), p')
    ensures OwnOk(p, h, p')
    ensures AfterStep(p, h, C.Apply(p.cache, Current(h, p.puts[h]), C.Fill(FileDir(p.puts[h].body[..m]))), p')
  {
    NewSessionIsFresh(p, h);
  }

  lemma OthersPhase(p: Puts, h: nat, a: C.Action, p': Puts)
    requires KeyInv(p) && PhaseInv(p) && h in p.puts && C.Enabled(p.cache, Current(h, p.puts[h]), a)
    requires C.IdAt(p.cache, Current(h, p.puts[h])) == p.puts[h].id
    requires h in p'.puts && AfterStep(p, h, C.Apply(p.cache, Current(h, p.puts[h]), a), p') && OwnOk(p, h, p')
    ensures PhaseInv(p')
  {
    forall g <- p'.puts ensures PhaseAt(p', g) {
      if g != h {
        assert p'.puts[g] == p.puts[g] && PhaseAt(p, g);
        if Active(p.puts[g].pc) {
          assert p.puts[g].id != p.puts[h].id;
          assert p'.cache.sessions[Current(g, p.puts[g])] == p.cache.sessions[Current(g, p.puts[g])];
          assert C.At(p'.cache, p.puts[g].id) == C.At(p.cache, p.puts[g].id);
        }
      }
    }
  }

  lemma OthersKeys(p: Puts, h: nat, p': Puts)
    requires KeyInv(p) && h in p.puts && OneMoves(p, h, p') && p'.keys == p.keys
    requires HoldsKey(p.puts[h].pc) && HoldsKey(p'.puts[h].pc)
    ensures KeyInv(p')
  {
  }

  lemma OthersOwner(p: Puts, h: nat, a: C.Action, p': Puts)
    requires OwnerInv(p) && h in p.puts && C.Enabled(p.cache, Current(h, p.puts[h]), a)
    requires h in p'.puts && AfterStep(p, h, C.Apply(p.cache, Current(h, p.puts[h]), a), p') && OwnOk(p, h, p')
    ensures OwnerInv(p')
  {
    forall t <- p'.cache.sessions | t.owner == C.Handler(h) ensures OwnerOk(p', t) {
      if t in p.cache.sessions {
        assert OwnerOk(p, t);
      }
    }
    OwnerMoves(p, h, p');
  }

  lemma DriveInv(p: Puts, h: nat, a: C.Action, p': Puts)
    requires PutInv(p) && PutSteps(p, h, Drive(a), p')
    ensures PutInv(p')
  {
    DriveView(p, h, a, p');
    DriveOwn(p, h, a, p');
    DriveCache(p, h, a, p');
    CommitCompletes(p, h, a, p');
    DriveContent(p, h, a, p');
    OthersPhase(p, h, a, p');
    OthersKeys(p, h, p');
    OthersOwner(p, h, a, p');
  }

  lemma WriteInv(p: Puts, h: nat, m: nat, p': Puts)
    requires PutInv(p) && PutSteps(p, h, WriteTo(m), p')
    ensures PutInv(p')
  {
    var a := C.Fill(FileDir(p.puts[h].body[..m]));
    CP.StepInv(p.cache, Current(h, p.puts[h]), a, p'.cache);
    WriteOwn(p, h, m, p');
    CompleteKept(p, h, p');
    DriveContent(p, h, a, p');
    OthersPhase(p, h, a, p');
    OthersKeys(p, h, p');
    OthersOwner(p, h, a, p');
  }

  lemma NextInv(p: Puts, p': Puts)
    requires PutInv(p) && Next(p, p')
    ensures PutInv(p')
  {
    if h, id, body :| Arrives(p, h, id, body, p') {
      ArriveInv(p, h, id, body, p');
    } else if s, op, id :| GuestBegins(p, s, op, id, p') {
      GuestBeginInv(p, s, op, id, p');
    } else if s, a :| GuestSteps(p, s, a, p') {
      GuestStepInv(p, s, a, p');
    } else {
      var h, act :| PutSteps(p, h, act, p');
      match act
      case Send => SendInv(p, h, p');
      case Drive(a) => DriveInv(p, h, a, p');
      case WriteTo(m) => WriteInv(p, h, m, p');
      case _ => KeyStepInv(p, h, act, p');
    }
  }

  lemma InitInv(p: Puts)
    requires Init(p)
    ensures PutInv(p)
  {
    CP.InitInv(p.cache);
  }

  lemma {:induction false} RunInv(tr: seq<Puts>, i: nat)
    requires Run(tr) && i < |tr|
    ensures PutInv(tr[i])
  {
    if i == 0 {
      InitInv(tr[0]);
    } else {
      RunInv(tr, i - 1);
      assert Next(tr[i - 1], tr[i - 1 + 1]);
      NextInv(tr[i - 1], tr[i]);
    }
  }
}

/** Safety of the cache machine: one inductive invariant, and what it means for whole runs. */
module CacheProofs {
  import opened Basics
  import opened ArtifactCell
  import opened CacheMachine

  // ---- Facts about one session and one cell ----

  lemma LocalLocks(pc: Pc, x: Cell, a: Action)
    requires LocalEnabled(pc, x, a) && Knows(pc, x) && (HoldsWrite(pc) ==> x.write) && x.readers >= 0
    ensures var (pc', x') := Local(pc, x, a);
            && x'.readers == x.readers + (if HoldsRead(pc') then 1 else 0) - (if HoldsRead(pc) then 1 else 0)
            && (x'.write == (HoldsWrite(pc') || (x.write && !HoldsWrite(pc))))
            && (HoldsRead(pc') && !HoldsRead(pc) ==> !x.write)
            && (HoldsWrite(pc') && !HoldsWrite(pc) ==> !x.write && x.readers == 0)
  {
  }

  lemma LocalKnows(pc: Pc, x: Cell, a: Action)
    requires LocalEnabled(pc, x, a) && Knows(pc, x)
    requires (x.tmp.Some? ==> x.write) && (HoldsWrite(pc) ==> x.write)
    ensures var (pc', x') := Local(pc, x, a);
            Knows(pc', x') && (x'.tmp.Some? ==> x'.write)
  {
  }

  /** What session `t` knows survives a step of another session on the same identifier. */
  lemma LocalFrame(pc: Pc, x: Cell, a: Action, t: Pc)
    requires LocalEnabled(pc, x, a) && Knows(pc, x) && Knows(t, x)
    requires HoldsWrite(pc) ==> x.write && !HoldsWrite(t) && !HoldsRead(t)
    requires NeedsMu(pc, a) || HoldsMu(pc) ==> !HoldsMu(t)
    ensures Knows(t, Local(pc, x, a).1)
  {
  }

  // ---- Preservation ----

  lemma InitInv(c: State)
    requires Init(c)
    ensures Inv(c)
  {
    forall id ensures LockInv(c, id) {
      assert Readers(c, id) == {};
    }
  }

  /** A new session holds nothing, so a `Begin` changes no count. */
  lemma BeginInv(c: State, s: Sid, op: Op, id: Id)
    requires Inv(c) && s !in c.sessions
    ensures Inv(Begin(c, s, op, id))
  {
    var c' := Begin(c, s, op, id);
    forall i ensures LockInv(c', i) {
      assert LockInv(c, i);
      assert Readers(c', i) == Readers(c, i);
      assert forall t :: WritesAt(c', t, i) <==> WritesAt(c, t, i);
    }
  }

  /** What `Inv` says of the stepping session, in the terms of the local facts. */
  lemma OwnView(c: State, s: Sid)
    requires Inv(c) && s in c.sessions
    ensures var pc, x := PcAt(c, s), At(c, IdAt(c, s));
            && Knows(pc, x) && x.readers >= 0
            && (x.tmp.Some? ==> x.write) && (x.write ==> x.readers == 0)
            && (HoldsWrite(pc) ==> x.write)
            && (HoldsRead(pc) ==> x.readers > 0)
  {
    var id := IdAt(c, s);
    assert LockInv(c, id);
    assert HoldsWrite(PcAt(c, s)) ==> WritesAt(c, s, id);
    assert HoldsRead(PcAt(c, s)) ==> s in Readers(c, id);
  }

  /** A writer shares its identifier with no reader and no other writer. */
  lemma WriterAlone(c: State, s: Sid, t: Sid)
    requires Inv(c) && s in c.sessions && HoldsWrite(PcAt(c, s))
    requires t in c.sessions && t != s && IdAt(c, t) == IdAt(c, s)
    ensures !HoldsWrite(PcAt(c, t)) && !HoldsRead(PcAt(c, t))
  {
    var id := IdAt(c, s);
    assert LockInv(c, id) && WritesAt(c, s, id);
    OwnView(c, t);
    assert HoldsWrite(PcAt(c, t)) ==> WritesAt(c, t, id);
  }

  /** One session moves, within its own identifier. */
  ghost predicate Moves(c: State, s: Sid, c': State) {
    && s in c.sessions && s in c'.sessions
    && c'.sessions == c.sessions[s := Session(IdAt(c, s), PcAt(c', s))]
    && forall id :: id != IdAt(c, s) ==> At(c', id) == At(c, id)
  }

  /** The local facts about locks, seen from the whole state. */
  ghost predicate LocksFollow(p: Pc, x: Cell, q: Pc, y: Cell) {
    && y.readers == x.readers + (if HoldsRead(q) then 1 else 0) - (if HoldsRead(p) then 1 else 0)
    && (y.write == (HoldsWrite(q) || (x.write && !HoldsWrite(p))))
    && (HoldsRead(q) && !HoldsRead(p) ==> !x.write)
    && (HoldsWrite(q) && !HoldsWrite(p) ==> !x.write && x.readers == 0)
    && (y.tmp.Some? ==> y.write)
  }

  lemma StepMoves(c: State, s: Sid, a: Action, c': State)
    requires Inv(c) && Step(c, s, a, c')
    ensures Moves(c, s, c') && IdAt(c', s) == IdAt(c, s)
    ensures LocksFollow(PcAt(c, s), At(c, IdAt(c, s)), PcAt(c', s), At(c', IdAt(c, s)))
    ensures Knows(PcAt(c', s), At(c', IdAt(c, s)))
  {
    OwnView(c, s);
    LocalLocks(PcAt(c, s), At(c, IdAt(c, s)), a);
    LocalKnows(PcAt(c, s), At(c, IdAt(c, s)), a);
  }

  lemma ReadersKept(c: State, s: Sid, c': State, id: Id)
    requires Moves(c, s, c')
    ensures |Readers(c', id)| == |Readers(c, id)| + if id != IdAt(c, s) then 0
            else (if HoldsRead(PcAt(c', s)) then 1 else 0) - (if HoldsRead(PcAt(c, s)) then 1 else 0)
  {
    var before, after := Readers(c, id), Readers(c', id);
    assert s in before <==> id == IdAt(c, s) && HoldsRead(PcAt(c, s));
    if id == IdAt(c, s) && HoldsRead(PcAt(c', s)) {
      assert after == before + {s};
    } else {
      assert after == before - {s};
    }
  }

  lemma WritersKept(c: State, s: Sid, c': State, id: Id)
    requires Moves(c, s, c')
    ensures forall t :: t != s ==> (WritesAt(c', t, id) <==> WritesAt(c, t, id))
    ensures WritesAt(c', s, id) <==> id == IdAt(c, s) && HoldsWrite(PcAt(c', s))
    ensures WritesAt(c, s, id) <==> id == IdAt(c, s) && HoldsWrite(PcAt(c, s))
  {
  }

  lemma LocksKept(c: State, s: Sid, c': State, id: Id)
    requires LockInv(c, id) && Moves(c, s, c')
    requires LocksFollow(PcAt(c, s), At(c, IdAt(c, s)), PcAt(c', s), At(c', IdAt(c, s)))
    ensures LockInv(c', id)
  {
    ReadersKept(c, s, c', id);
    WritersKept(c, s, c', id);
    if At(c', id).write && !HoldsWrite(PcAt(c', s)) {
      var t :| WritesAt(c, t, id);
      assert t != s ==> WritesAt(c', t, id);
    }
  }

  lemma StepKnows(c: State, s: Sid, a: Action, c': State)
    requires Inv(c) && Step(c, s, a, c')
    ensures KnowsInv(c')
  {
    var own := IdAt(c, s);
    OwnView(c, s);
    StepMoves(c, s, a, c');
    forall t <- c'.sessions ensures Knows(PcAt(c', t), At(c', IdAt(c', t))) {
      if t != s && IdAt(c, t) == own {
        OwnView(c, t);
        if HoldsWrite(PcAt(c, s)) { WriterAlone(c, s, t); }
        LocalFrame(PcAt(c, s), At(c, own), a, PcAt(c, t));
      }
    }
  }

  lemma StepInv(c: State, s: Sid, a: Action, c': State)
    requires Inv(c) && Step(c, s, a, c')
    ensures Inv(c')
  {
    StepMoves(c, s, a, c');
    forall id ensures LockInv(c', id) {
      assert LockInv(c, id);
      LocksKept(c, s, c', id);
    }
    StepKnows(c, s, a, c');
    assert MutexInv(c');
  }
}

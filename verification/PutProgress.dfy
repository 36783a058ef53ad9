/** No upload is ever left waiting for something that nobody will do. */
module PutProgress {
  import opened Basics
  import opened ArtifactCell
  import opened FileCache
  import opened PutMachine
  import opened PutProofs
  import opened PutTheorems
  import opened PutRefusals
  import C = CacheMachine
  import CP = CacheProofs
  import CT = CacheTheorems

  /** What upload `h` needs to go on is there. */
  ghost predicate CanStep(p: Puts, h: nat) {
    exists act :: PutEnabled(p, h, act)
  }

  /** The session that holds the cache's mutex can go on: a guest by itself, or an upload that drives it. */
  ghost predicate MutexMoves(p: Puts) {
    && p.cache.mu.Some?
    && var s := p.cache.mu.value;
    match s.owner
    case Guest(_) => C.Enabled(p.cache, s, C.Advance)
    case Handler(g) => PutEnabled(p, g, Drive(C.Advance)) && Current(g, p.puts[g]) == s
    case JobRun(_, _) => false
  }

  lemma MutexHolderMoves(p: Puts)
    requires PutInv(p) && p.cache.mu.Some?
    ensures MutexMoves(p)
  {
    var s := p.cache.mu.value;
    assert OwnerOk(p, s);
    if s.owner.Handler? {
      assert PhaseAt(p, s.owner.handler);
      assert Current(s.owner.handler, p.puts[s.owner.handler]) == s;
    }
  }

  /** An upload past its key lock can step, or waits for the mutex of the cache. */
  lemma ActiveMoves(p: Puts, h: nat)
    requires PutInv(p) && h in p.puts && Active(p.puts[h].pc)
    ensures CanStep(p, h) || p.cache.mu.Some?
  {
    var put, c, s := p.puts[h], p.cache, Current(h, p.puts[h]);
    assert PhaseAt(p, h);
    CP.OwnView(c, s);
    if c.mu.None? {
      match put.pc
      case Opening => assert PutEnabled(p, h, WriteTo(0));
      case Copying(n) => assert PutEnabled(p, h, Drive(C.Abort));
      case _ => DriverMoves(p, h);
    }
  }

  lemma DriverMoves(p: Puts, h: nat)
    requires PutInv(p) && h in p.puts && p.cache.mu == None && PhaseAt(p, h)
    requires var pc := p.puts[h].pc; pc.Creating? || pc.Deleting? || pc.Closing? || pc.Discarding?
    ensures CanStep(p, h)
  {
    var put, c, s := p.puts[h], p.cache, Current(h, p.puts[h]);
    var x := C.At(c, put.id);
    if C.PcAt(c, s).Aborting? || C.PcAt(c, s).RemoveLocked? {
      CT.CanDelete(c, s, if C.PcAt(c, s).Aborting? then x.tmp else x.disk);
      var a :| C.Enabled(c, s, a);
      assert PutEnabled(p, h, Drive(a));
    } else {
      assert PutEnabled(p, h, Drive(C.Advance));
    }
  }

  ghost predicate SlotTaken(p: Puts, id: Id) {
    id in p.keys && p.keys[id]
  }

  /** A slot is full only while an upload is past it, so a taken key has a holder. */
  ghost predicate SlotInv(p: Puts) {
    forall id :: SlotTaken(p, id) ==> exists g :: HoldsSlot(p, g, id)
  }

  predicate HoldsSlot(p: Puts, g: nat, id: Id) {
    g in p.puts && HoldsKey(p.puts[g].pc) && p.puts[g].id == id
  }

  lemma StepSlots(p: Puts, h: nat, act: PutAction, p': Puts)
    requires KeyInv(p) && SlotInv(p) && PutSteps(p, h, act, p')
    ensures SlotInv(p')
  {
    forall id | SlotTaken(p', id) ensures exists g :: HoldsSlot(p', g, id) {
      if HoldsSlot(p', h, id) {
      } else {
        SlotBefore(p, h, act, p', id);
        var g :| HoldsSlot(p, g, id);
        assert HoldsSlot(p', g, id);
      }
    }
  }

  lemma SlotBefore(p: Puts, h: nat, act: PutAction, p': Puts, id: Id)
    requires KeyInv(p) && PutSteps(p, h, act, p') && SlotTaken(p', id) && !HoldsSlot(p', h, id)
    ensures SlotTaken(p, id) && !HoldsSlot(p, h, id)
    ensures h in p'.puts && p'.puts == p.puts[h := p'.puts[h]]
  {
  }

  lemma NextSlots(p: Puts, p': Puts)
    requires KeyInv(p) && SlotInv(p) && Next(p, p')
    ensures SlotInv(p')
  {
    if h, act :| PutSteps(p, h, act, p') {
      StepSlots(p, h, act, p');
    } else {
      ElseKept(p, p');
      ElseKeys(p, p');
      forall id | SlotTaken(p', id) ensures exists g :: HoldsSlot(p', g, id) {
        assert SlotTaken(p, id);
        var g :| HoldsSlot(p, g, id);
        assert HoldsSlot(p', g, id);
      }
    }
  }

  lemma ElseKeys(p: Puts, p': Puts)
    requires Next(p, p') && !exists h, act :: PutSteps(p, h, act, p')
    ensures p'.keys == p.keys
  {
  }

  ghost predicate KeepsSlots(p: Puts, p': Puts) {
    SlotInv(p) ==> SlotInv(p')
  }

  lemma {:induction false} SlotChain(tr: seq<Puts>, i: nat)
    requires i < |tr| && SlotInv(tr[0]) && forall n :: 0 <= n < i ==> KeepsSlots(tr[n], tr[n + 1])
    ensures SlotInv(tr[i])
  {
    if i > 0 {
      SlotChain(tr, i - 1);
      assert KeepsSlots(tr[i - 1], tr[i - 1 + 1]);
    }
  }

  lemma RunSlots(tr: seq<Puts>, i: nat)
    requires Run(tr) && i < |tr|
    ensures SlotInv(tr[i])
  {
    forall n | 0 <= n < i ensures KeepsSlots(tr[n], tr[n + 1]) {
      RunInv(tr, n);
      if SlotInv(tr[n]) {
        NextSlots(tr[n], tr[n + 1]);
      }
    }
    SlotChain(tr, i);
  }

  /**
   No upload is ever stuck: it can step, or the upload that holds its key can, or whoever of them waits
   for the mutex of the cache waits for a session that can go on.
   */
  lemma UploadProgress(tr: seq<Puts>, i: nat, h: nat)
    requires Run(tr) && i < |tr| && h in tr[i].puts && !tr[i].puts[h].pc.Finished?
    ensures CanStep(tr[i], h) || MutexMoves(tr[i])
            || exists g :: HoldsSlot(tr[i], g, tr[i].puts[h].id) && CanStep(tr[i], g)
    ensures tr[i].puts[h].pc.KeySend? && !SlotTaken(tr[i], tr[i].puts[h].id) ==> PutEnabled(tr[i], h, Send)
  {
    RunInv(tr, i);
    RunSlots(tr, i);
    var p := tr[i];
    if p.cache.mu.Some? {
      MutexHolderMoves(p);
    } else if p.puts[h].pc.KeySend? && SlotTaken(p, p.puts[h].id) {
      var g :| HoldsSlot(p, g, p.puts[h].id);
      PastKeyMoves(p, g);
    } else if HoldsKey(p.puts[h].pc) {
      PastKeyMoves(p, h);
    } else {
      assert PutEnabled(p, h, if p.puts[h].pc.KeyMap? then Lookup else Send);
    }
  }

  lemma PastKeyMoves(p: Puts, g: nat)
    requires PutInv(p) && g in p.puts && HoldsKey(p.puts[g].pc) && p.cache.mu == None
    ensures CanStep(p, g)
  {
    if Active(p.puts[g].pc) {
      ActiveMoves(p, g);
    } else {
      assert PutEnabled(p, g, if p.puts[g].pc.KeyFind? then Find else Receive);
    }
  }
}

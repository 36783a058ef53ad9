/** What uploads promise, in every interleaving with other uploads, downloads and removals. */
module PutTheorems {
  import opened Basics
  import opened ArtifactCell
  import opened FileCache
  import opened PutMachine
  import opened PutProofs
  import C = CacheMachine
  import CP = CacheProofs

  /** The `goto start` of `handlePut` is taken at most once per upload, in every run. */
  lemma RetryIsOneShot(tr: seq<Puts>, i: nat, h: nat)
    requires Run(tr) && i < |tr| && h in tr[i].puts
    ensures tr[i].puts[h].retries <= 1
  {
    RunInv(tr, i);
  }

  /** No upload ends because the entry exists, is missing, or could not be renamed into place. */
  lemma ImpossibleResults(tr: seq<Puts>, i: nat, h: nat)
    requires Run(tr) && i < |tr| && h in tr[i].puts && tr[i].puts[h].pc.Finished?
    ensures !CannotHappen(tr[i].puts[h].pc.res)
  {
    RunInv(tr, i);
  }

  ghost predicate GuestAt(p: Puts, s: C.Sid, id: Id) {
    s in p.cache.sessions && s.owner.Guest? && C.IdAt(p.cache, s) == id
  }

  /** The holder of a lock that an upload meets on its own identifier is a guest: its key keeps uploads out. */
  lemma HolderIsGuest(p: Puts, h: nat, s: C.Sid)
    requires PutInv(p) && h in p.puts && (p.puts[h].pc.Creating? || p.puts[h].pc.Deleting?)
    requires s in p.cache.sessions && C.IdAt(p.cache, s) == p.puts[h].id && s != Current(h, p.puts[h])
    requires !C.PcAt(p.cache, s).Done?
    ensures GuestAt(p, s, p.puts[h].id)
  {
    assert OwnerOk(p, s);
  }

  /**
   An upload is refused only by a read lock that a download holds on its identifier at that very
   moment, or by the write lock of a removal.
   */
  lemma WhyRefused(p: Puts, h: nat, a: C.Action, p': Puts)
    requires PutInv(p) && PutSteps(p, h, Drive(a), p') && p'.puts[h].pc.KeyFind? && p'.puts[h].pc.res.Refused?
    ensures p'.puts[h].pc.res == Refused(ReadLocked) || p'.puts[h].pc.res == Refused(WriteLocked)
    ensures p'.puts[h].pc.res == Refused(ReadLocked) ==>
              exists s :: GuestAt(p, s, p.puts[h].id) && C.HoldsRead(C.PcAt(p.cache, s))
    ensures p'.puts[h].pc.res == Refused(WriteLocked) ==>
              exists s :: GuestAt(p, s, p.puts[h].id) && C.HoldsWrite(C.PcAt(p.cache, s))
  {
    var put, own := p.puts[h], Current(h, p.puts[h]);
    var x := C.At(p.cache, put.id);
    CP.OwnView(p.cache, own);
    RefusalLocal(put, C.PcAt(p.cache, own), x, a);
    assert C.LockInv(p.cache, put.id);
    if x.write {
      var s :| C.WritesAt(p.cache, s, put.id);
      HolderIsGuest(p, h, s);
    } else {
      assert C.Readers(p.cache, put.id) != {};
      var s :| s in C.Readers(p.cache, put.id);
      HolderIsGuest(p, h, s);
    }
  }

  lemma RefusalLocal(put: Put, pc: C.Pc, x: Cell, a: C.Action)
    requires PhaseOk(put, pc, x) && Active(put.pc) && Drives(put, a) && C.LocalEnabled(pc, x, a) && C.Knows(pc, x)
    ensures var put' := Follow(put, a, C.Local(pc, x, a).0).0;
            put'.pc.KeyFind? && put'.pc.res.Refused? ==>
              && (put.pc.Creating? || put.pc.Deleting?) && pc.LockStatted?
              && ((x.write && put'.pc.res == Refused(WriteLocked))
                  || (!x.write && x.readers > 0 && put'.pc.res == Refused(ReadLocked)))
              && (put.pc.Creating? && put.retries == 1 ==> x.disk == None)
  {
  }

  /** An upload that is refused after its retry has already removed the old entry, and leaves none. */
  lemma RefusalAfterRetryLosesEntry(p: Puts, h: nat, a: C.Action, p': Puts)
    requires PutInv(p) && PutSteps(p, h, Drive(a), p') && p'.puts[h].pc.KeyFind? && p'.puts[h].pc.res.Refused?
    requires p.puts[h].retries == 1
    ensures C.At(p'.cache, p.puts[h].id).disk == None
  {
    var put, own := p.puts[h], Current(h, p.puts[h]);
    CP.OwnView(p.cache, own);
    RefusalLocal(put, C.PcAt(p.cache, own), C.At(p.cache, put.id), a);
  }

  /** Whoever reads an entry reads the complete body of one single upload, or what the cache held at the start. */
  lemma ReadersSeeOneBody(tr: seq<Puts>, i: nat, s: C.Sid)
    requires Run(tr) && i < |tr| && s in tr[i].cache.sessions && C.PcAt(tr[i].cache, s).Reading?
    ensures Complete(tr[i], C.IdAt(tr[i].cache, s), C.PcAt(tr[i].cache, s).seen)
  {
    RunInv(tr, i);
    var c := tr[i].cache;
    CP.OwnView(c, s);
    if t :| t in c.sessions && C.IdAt(c, t) == C.IdAt(c, s) && C.PcAt(c, t).RemoveLocked? {
      CP.WriterAlone(c, t, s);
    }
  }

  /** Two uploads of the same identifier are never both past the key lock. */
  lemma KeyExcludes(tr: seq<Puts>, i: nat, h: nat, g: nat)
    requires Run(tr) && i < |tr| && h in tr[i].puts && g in tr[i].puts && h != g
    requires tr[i].puts[h].id == tr[i].puts[g].id && HoldsKey(tr[i].puts[h].pc)
    ensures !HoldsKey(tr[i].puts[g].pc)
  {
    RunInv(tr, i);
  }

  /** Releasing the key never blocks and never takes the early return of `Unlock`. */
  lemma ReleaseNeverBlocks(tr: seq<Puts>, i: nat, h: nat)
    requires Run(tr) && i < |tr| && h in tr[i].puts
    requires tr[i].puts[h].pc.KeyFind? || tr[i].puts[h].pc.KeyReceive?
    ensures tr[i].puts[h].pc.KeyFind? ==>
              PutEnabled(tr[i], h, Find) && PutApply(tr[i], h, Find).puts[h].pc == KeyReceive(tr[i].puts[h].pc.res)
    ensures tr[i].puts[h].pc.KeyReceive? ==> PutEnabled(tr[i], h, Receive)
  {
    RunInv(tr, i);
  }
}

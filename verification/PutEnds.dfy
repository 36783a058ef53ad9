/** How an upload comes to its end: what it may do while it copies, and how many steps it takes at most. */
module PutEnds {
  import opened Basics
  import opened ArtifactCell
  import opened FileCache
  import opened PutMachine
  import opened PutProofs
  import opened PutRefusals
  import C = CacheMachine
  import CP = CacheProofs
  import CO = CacheOutcomes

  /** While it copies, an upload may write any more of the body, may fail, and may close once all is written. */
  lemma CopyMayEnd(tr: seq<Puts>, i: nat, h: nat)
    requires Run(tr) && i < |tr| && h in tr[i].puts && tr[i].puts[h].pc.Copying?
    ensures var p, body := tr[i], tr[i].puts[h].body;
            && (forall m: nat :: PutEnabled(p, h, WriteTo(m)) <==> p.puts[h].pc.n <= m <= |body|)
            && PutEnabled(p, h, Drive(C.Abort))
            && (PutEnabled(p, h, Drive(C.Commit)) <==> p.puts[h].pc.n == |body|)
  {
    RunInv(tr, i);
    assert PhaseAt(tr[i], h);
    CP.OwnView(tr[i].cache, Current(h, tr[i].puts[h]));
  }

  // ---- Every upload ends ----

  /** How many steps there are left at a point of `handlePut`, if its session has `left` of them. */
  function Ahead(pc: PutPc, retries: nat, left: nat): nat {
    match pc
    case KeyMap => 22
    case KeySend => 21
    case Creating => if retries == 0 then left + 13 else left + 3
    case Deleting => left + 10
    case Opening => 6
    case Copying(_) => 5
    case Closing => 3
    case Discarding => left + 2
    case KeyFind(_) => 2
    case KeyReceive(_) => 1
    case Finished(_) => 0
  }

  function SessionLeft(p: Puts, h: nat): nat
    requires h in p.puts
  {
    if Current(h, p.puts[h]) in p.cache.sessions then CO.Left(C.PcAt(p.cache, Current(h, p.puts[h]))) else 0
  }

  function StepsLeft(p: Puts, h: nat): nat
    requires h in p.puts
  {
    Ahead(p.puts[h].pc, p.puts[h].retries, SessionLeft(p, h))
  }

  /** Writing more of the body, and deleting single paths. */
  predicate Bulk(act: PutAction) {
    act.WriteTo? || (act.Drive? && act.a.DeletePath?)
  }

  lemma LocalAhead(put: Put, pc: C.Pc, x: Cell, a: C.Action)
    requires Active(put.pc) && PhaseOk(put, pc, x) && Drives(put, a) && C.LocalEnabled(pc, x, a) && C.Knows(pc, x)
    ensures var q := C.Local(pc, x, a).0;
            var (put', next) := Follow(put, a, q);
            Ahead(put.pc, put.retries, CO.Left(pc)) >=
            Ahead(put'.pc, put'.retries, CO.Left(SessionAfter(q, next))) + if a.DeletePath? then 0 else 1
  {
  }

  lemma DriveAhead(p: Puts, h: nat, a: C.Action, p': Puts)
    requires PutInv(p) && PutSteps(p, h, Drive(a), p')
    ensures h in p'.puts && StepsLeft(p, h) >= StepsLeft(p', h) + if a.DeletePath? then 0 else 1
  {
    var put, s := p.puts[h], Current(h, p.puts[h]);
    CP.OwnView(p.cache, s);
    assert PhaseAt(p, h);
    LocalAhead(put, C.PcAt(p.cache, s), C.At(p.cache, put.id), a);
    DriveUnfolds(p, h, a, p');
  }

  lemma WriteAhead(p: Puts, h: nat, m: nat, p': Puts)
    requires PutSteps(p, h, WriteTo(m), p')
    ensures h in p'.puts && StepsLeft(p, h) >= StepsLeft(p', h)
  {
    assert p'.puts[h].pc == Copying(m);
  }

  lemma KeyAhead(p: Puts, h: nat, act: PutAction, p': Puts)
    requires PutInv(p) && PutSteps(p, h, act, p') && !act.Drive? && !act.WriteTo?
    ensures h in p'.puts && StepsLeft(p, h) >= StepsLeft(p', h) + 1
  {
    assert PhaseAt(p, h);
  }

  lemma StepAhead(p: Puts, h: nat, act: PutAction, p': Puts)
    requires PutInv(p) && PutSteps(p, h, act, p')
    ensures h in p'.puts && StepsLeft(p, h) >= StepsLeft(p', h) + if Bulk(act) then 0 else 1
  {
    if act.Drive? {
      DriveAhead(p, h, act.a, p');
    } else if act.WriteTo? {
      WriteAhead(p, h, act.m, p');
    } else {
      KeyAhead(p, h, act, p');
    }
  }

  ghost predicate Turns(p: Puts, h: nat, p': Puts) {
    exists act :: PutSteps(p, h, act, p') && !Bulk(act)
  }

  lemma NextAhead(p: Puts, h: nat, p': Puts)
    requires PutInv(p) && Next(p, p') && h in p.puts
    ensures h in p'.puts && StepsLeft(p, h) >= StepsLeft(p', h) + if Turns(p, h, p') then 1 else 0
  {
    if act :| PutSteps(p, h, act, p') && !Bulk(act) {
      StepAhead(p, h, act, p');
    } else if act :| PutSteps(p, h, act, p') {
      StepAhead(p, h, act, p');
    } else {
      OthersStay(p, h, p');
    }
  }

  /** Nobody else moves an upload or its sessions. */
  lemma OthersStay(p: Puts, h: nat, p': Puts)
    requires PutInv(p) && Next(p, p') && h in p.puts && !exists act :: PutSteps(p, h, act, p')
    ensures h in p'.puts && StepsLeft(p', h) == StepsLeft(p, h)
  {
    assert PhaseAt(p, h);
    if g, act :| PutSteps(p, g, act, p') {
      OwnSessions(p, g, act, p');
    } else {
      ElseKept(p, p');
    }
  }

  /** How many steps an upload has taken from state `i` to state `k`, apart from those. */
  ghost function Taken(tr: seq<Puts>, h: nat, i: nat, k: nat): nat
    requires i <= k < |tr|
    decreases k
  {
    if i == k then 0 else Taken(tr, h, i, k - 1) + if Turns(tr[k - 1], h, tr[k]) then 1 else 0
  }

  ghost predicate KeepsAhead(tr: seq<Puts>, h: nat, i: nat, k: nat)
    requires i <= k && k + 1 < |tr|
  {
    h in tr[k].puts ==>
      && h in tr[k + 1].puts
      && Taken(tr, h, i, k + 1) + StepsLeft(tr[k + 1], h) <= Taken(tr, h, i, k) + StepsLeft(tr[k], h)
  }

  lemma RunAhead(tr: seq<Puts>, h: nat, i: nat, k: nat)
    requires Run(tr) && i <= k && k + 1 < |tr|
    ensures KeepsAhead(tr, h, i, k)
  {
    RunInv(tr, k);
    if h in tr[k].puts {
      NextAhead(tr[k], h, tr[k + 1]);
    }
  }

  lemma {:induction false} AheadChain(tr: seq<Puts>, h: nat, i: nat, k: nat)
    requires i <= k < |tr| && h in tr[i].puts
    requires forall n :: i <= n < k ==> KeepsAhead(tr, h, i, n)
    ensures h in tr[k].puts && Taken(tr, h, i, k) + StepsLeft(tr[k], h) <= StepsLeft(tr[i], h)
    decreases k
  {
    if i < k {
      AheadChain(tr, h, i, k - 1);
      assert KeepsAhead(tr, h, i, k - 1);
    }
  }

  /**
   From its arrival on an upload takes 22 steps of its own at most, retry included and whatever others do,
   apart from writing its body and deleting single paths; after 22 it is over.
   */
  lemma UploadEnds(tr: seq<Puts>, h: nat, i: nat, k: nat)
    requires Run(tr) && i <= k < |tr| && h in tr[i].puts && tr[i].puts[h].pc.KeyMap?
    ensures h in tr[k].puts && Taken(tr, h, i, k) <= 22
    ensures Taken(tr, h, i, k) == 22 ==> tr[k].puts[h].pc.Finished?
  {
    forall n | i <= n < k ensures KeepsAhead(tr, h, i, n) {
      RunAhead(tr, h, i, n);
    }
    AheadChain(tr, h, i, k);
    RunInv(tr, k);
    assert PhaseAt(tr[k], h);
  }
}

/** What the answer of an upload means: what its steps have done to the entry. */
module PutAnswers {
  import opened Basics
  import opened ArtifactCell
  import opened FileCache
  import opened PutMachine
  import opened PutProofs
  import opened PutTheorems
  import opened PutRefusals
  import C = CacheMachine
  import CP = CacheProofs

  // ---- The steps that decide an answer ----

  /** A step of the upload makes its whole body visible where there was nothing. */
  ghost predicate Publishes(p: Puts, h: nat, p': Puts) {
    && (exists act :: PutSteps(p, h, act, p'))
    && C.At(p.cache, p.puts[h].id).disk == None
    && C.At(p'.cache, p.puts[h].id).disk == Some(FileDir(p.puts[h].body))
  }

  /** A step of the upload makes anything visible where there was nothing. */
  ghost predicate Appears(p: Puts, h: nat, p': Puts) {
    && (exists act :: PutSteps(p, h, act, p'))
    && C.At(p.cache, p.puts[h].id).disk == None && C.At(p'.cache, p.puts[h].id).disk.Some?
  }

  /** The copy of the body fails. */
  predicate BreaksOff(p: Puts, h: nat, p': Puts) {
    PutSteps(p, h, Drive(C.Abort), p')
  }

  /** The cache refuses the upload, other than with the entry that it goes on to remove. */
  ghost predicate IsRefused(p: Puts, h: nat, e: CacheError, p': Puts) {
    exists a :: RefusedBy(p, h, a, e, p')
  }

  predicate RefusedBy(p: Puts, h: nat, a: C.Action, e: CacheError, p': Puts) {
    && PutSteps(p, h, Drive(a), p')
    && C.PcAt(C.Apply(p.cache, Current(h, p.puts[h]), a), Current(h, p.puts[h])) == C.Done(C.Failed(e))
    && !(p.puts[h].pc.Creating? && e == Exists)
  }

  /** The answer that is certain at a program point. */
  function Certain(pc: PutPc): Option<PutResult> {
    match pc
    case Closing => Some(Stored)
    case Discarding => Some(BodyFailed)
    case KeyFind(res) => Some(res)
    case KeyReceive(res) => Some(res)
    case Finished(res) => Some(res)
    case _ => None
  }

  lemma LocalAnswer(put: Put, pc: C.Pc, x: Cell, a: C.Action)
    requires Active(put.pc) && PhaseOk(put, pc, x) && Drives(put, a) && C.LocalEnabled(pc, x, a) && C.Knows(pc, x)
    ensures var (q, y) := C.Local(pc, x, a);
            var put' := Follow(put, a, q).0;
            && (Certain(put.pc).Some? ==> Certain(put'.pc) == Certain(put.pc))
            && (Certain(put.pc) == None ==>
                  Certain(put'.pc) ==
                  if a.Commit? then Some(Stored)
                  else if a.Abort? then Some(BodyFailed)
                  else if q.Done? && q.outcome.Failed? && !(put.pc.Creating? && q.outcome.error == Exists)
                  then Some(Refused(q.outcome.error))
                  else None)
            && (a.Commit? ==> x.disk == None && y.disk == Some(FileDir(put.body)))
            && (a.Abort? || a.Commit? ==> Certain(put.pc) == None)
            && (x.disk == None && y.disk.Some? ==> a.Commit?)
  {
    if a.Commit? {
      assert put.body[..|put.body|] == put.body;
    }
  }

  /** The answer that step `act` of upload `h` makes certain. */
  ghost predicate Answers(p: Puts, h: nat, res: PutResult, p': Puts) {
    match res
    case Stored => Publishes(p, h, p')
    case BodyFailed => BreaksOff(p, h, p')
    case Refused(e) => IsRefused(p, h, e, p')
    case CloseFailed => false
  }

  lemma DriveAnswer(p: Puts, h: nat, a: C.Action, p': Puts)
    requires PutInv(p) && PutSteps(p, h, Drive(a), p')
    ensures h in p'.puts
    ensures var put, put' := p.puts[h], p'.puts[h];
            && (Certain(put.pc).Some? ==> Certain(put'.pc) == Certain(put.pc))
            && (Certain(put.pc) == None && Certain(put'.pc).Some? ==> Answers(p, h, Certain(put'.pc).value, p'))
            && (Appears(p, h, p') ==> a.Commit? && Publishes(p, h, p') && Certain(put'.pc) == Some(Stored))
            && (a.Abort? ==> Certain(put'.pc) == Some(BodyFailed))
            && (forall e :: RefusedBy(p, h, a, e, p') && Certain(put.pc) == None ==>
                  Certain(put'.pc) == Some(Refused(e)))
  {
    var put, s := p.puts[h], Current(h, p.puts[h]);
    CP.OwnView(p.cache, s);
    assert PhaseAt(p, h);
    LocalAnswer(put, C.PcAt(p.cache, s), C.At(p.cache, put.id), a);
    DriveUnfolds(p, h, a, p');
    var (q, y) := C.Local(C.PcAt(p.cache, s), C.At(p.cache, put.id), a);
    assert C.PcAt(C.Apply(p.cache, s, a), s) == q;
    if a.Commit? {
      assert Publishes(p, h, p');
    } else if q.Done? && q.outcome.Failed? && !(put.pc.Creating? && q.outcome.error == Exists) {
      assert RefusedBy(p, h, a, q.outcome.error, p');
    }
  }

  lemma PlainAnswer(p: Puts, h: nat, act: PutAction, p': Puts)
    requires PutInv(p) && PutSteps(p, h, act, p') && !act.Drive?
    ensures h in p'.puts && Certain(p'.puts[h].pc) == Certain(p.puts[h].pc)
    ensures C.At(p'.cache, p.puts[h].id).disk == C.At(p.cache, p.puts[h].id).disk
  {
    assert PhaseAt(p, h);
  }

  lemma StepAnswer(p: Puts, h: nat, act: PutAction, p': Puts)
    requires PutInv(p) && PutSteps(p, h, act, p')
    ensures h in p'.puts
    ensures Certain(p.puts[h].pc).Some? ==> Certain(p'.puts[h].pc) == Certain(p.puts[h].pc)
    ensures Certain(p.puts[h].pc) == None && Certain(p'.puts[h].pc).Some? ==>
              Answers(p, h, Certain(p'.puts[h].pc).value, p')
    ensures Appears(p, h, p') ==> Publishes(p, h, p') && Certain(p'.puts[h].pc) == Some(Stored)
  {
    if act.Drive? {
      DriveAnswer(p, h, act.a, p');
    } else {
      PlainAnswer(p, h, act, p');
    }
  }

  // ---- From the deciding step to the answer ----

  ghost predicate KeepsAnswer(p: Puts, p': Puts, h: nat) {
    h in p.puts && Certain(p.puts[h].pc).Some? ==> h in p'.puts && Certain(p'.puts[h].pc) == Certain(p.puts[h].pc)
  }

  predicate Open(p: Puts, h: nat) {
    h in p.puts ==> Certain(p.puts[h].pc) == None
  }

  ghost predicate OpensRight(p: Puts, p': Puts, h: nat) {
    Open(p, h) && !Open(p', h) ==> h in p.puts && Answers(p, h, Certain(p'.puts[h].pc).value, p')
  }

  lemma NextAnswer(p: Puts, p': Puts, h: nat)
    requires PutInv(p) && Next(p, p')
    ensures KeepsAnswer(p, p', h) && OpensRight(p, p', h)
  {
    if act :| PutSteps(p, h, act, p') {
      StepAnswer(p, h, act, p');
    } else if g, act :| PutSteps(p, g, act, p') {
      OwnSessions(p, g, act, p');
    } else {
      ElseKept(p, p');
    }
  }

  lemma RunAnswer(tr: seq<Puts>, n: nat, h: nat)
    requires Run(tr) && n + 1 < |tr|
    ensures KeepsAnswer(tr[n], tr[n + 1], h) && OpensRight(tr[n], tr[n + 1], h)
  {
    RunInv(tr, n);
    NextAnswer(tr[n], tr[n + 1], h);
  }

  lemma {:induction false} AnswerChain(tr: seq<Puts>, i: nat, k: nat, h: nat)
    requires i <= k < |tr| && h in tr[i].puts && Certain(tr[i].puts[h].pc).Some?
    requires forall n :: i <= n < k ==> KeepsAnswer(tr[n], tr[n + 1], h)
    ensures h in tr[k].puts && Certain(tr[k].puts[h].pc) == Certain(tr[i].puts[h].pc)
    decreases k
  {
    if i < k {
      AnswerChain(tr, i, k - 1, h);
      assert KeepsAnswer(tr[k - 1], tr[k - 1 + 1], h);
    }
  }

  lemma AnswerStays(tr: seq<Puts>, i: nat, k: nat, h: nat)
    requires Run(tr) && i <= k < |tr| && h in tr[i].puts && Certain(tr[i].puts[h].pc).Some?
    ensures h in tr[k].puts && Certain(tr[k].puts[h].pc) == Certain(tr[i].puts[h].pc)
  {
    forall n | i <= n < k ensures KeepsAnswer(tr[n], tr[n + 1], h) {
      RunAnswer(tr, n, h);
    }
    AnswerChain(tr, i, k, h);
  }

  lemma {:induction false} DecisionChain(tr: seq<Puts>, k: nat, h: nat) returns (i: nat)
    requires k < |tr| && Open(tr[0], h) && !Open(tr[k], h)
    requires forall n :: 0 <= n < k ==> KeepsAnswer(tr[n], tr[n + 1], h) && OpensRight(tr[n], tr[n + 1], h)
    ensures i < k && h in tr[i].puts && Answers(tr[i], h, Certain(tr[k].puts[h].pc).value, tr[i + 1])
  {
    assert KeepsAnswer(tr[k - 1], tr[k - 1 + 1], h) && OpensRight(tr[k - 1], tr[k - 1 + 1], h);
    if Open(tr[k - 1], h) {
      i := k - 1;
    } else {
      i := DecisionChain(tr, k - 1, h);
    }
  }

  predicate Answered(p: Puts, h: nat) {
    h in p.puts && HasResult(p.puts[h].pc)
  }

  /** Whatever an upload answers has been made certain by one of its steps. */
  lemma DecidedBy(tr: seq<Puts>, k: nat, h: nat) returns (i: nat)
    requires Run(tr) && k < |tr| && Answered(tr[k], h)
    ensures i < k && h in tr[i].puts && Answers(tr[i], h, tr[k].puts[h].pc.res, tr[i + 1])
  {
    forall n | 0 <= n < k ensures KeepsAnswer(tr[n], tr[n + 1], h) && OpensRight(tr[n], tr[n + 1], h) {
      RunAnswer(tr, n, h);
    }
    assert tr[0].puts == map[];
    i := DecisionChain(tr, k, h);
  }

  lemma AppearanceAnswer(p: Puts, h: nat, p': Puts)
    requires PutInv(p) && h in p.puts && Appears(p, h, p')
    ensures h in p'.puts && Certain(p'.puts[h].pc) == Some(Stored)
  {
    var act :| PutSteps(p, h, act, p');
    StepAnswer(p, h, act, p');
  }

  lemma AppearanceAt(tr: seq<Puts>, i: nat, h: nat)
    requires Run(tr) && i + 1 < |tr| && h in tr[i].puts && Appears(tr[i], h, tr[i + 1])
    ensures h in tr[i + 1].puts && Certain(tr[i + 1].puts[h].pc) == Some(Stored)
  {
    RunInv(tr, i);
    AppearanceAnswer(tr[i], h, tr[i + 1]);
  }

  lemma AppearanceDecides(tr: seq<Puts>, i: nat, k: nat, h: nat)
    requires Run(tr) && i < k < |tr| && h in tr[i].puts && Appears(tr[i], h, tr[i + 1]) && Answered(tr[k], h)
    ensures tr[k].puts[h].pc.res == Stored
  {
    AppearanceAt(tr, i, h);
    AnswerStays(tr, i + 1, k, h);
  }

  lemma BreakDecides(tr: seq<Puts>, i: nat, k: nat, h: nat)
    requires Run(tr) && i < k < |tr| && BreaksOff(tr[i], h, tr[i + 1]) && Answered(tr[k], h)
    ensures tr[k].puts[h].pc.res == BodyFailed
  {
    RunInv(tr, i);
    DriveAnswer(tr[i], h, C.Abort, tr[i + 1]);
    AnswerStays(tr, i + 1, k, h);
  }

  lemma RefusalDecides(tr: seq<Puts>, i: nat, k: nat, h: nat, e: CacheError)
    requires Run(tr) && i < k < |tr| && IsRefused(tr[i], h, e, tr[i + 1]) && Answered(tr[k], h)
    ensures tr[k].puts[h].pc.res == Refused(e)
  {
    var a :| RefusedBy(tr[i], h, a, e, tr[i + 1]);
    RunInv(tr, i);
    RefusalOpen(tr[i], h, a, e, tr[i + 1]);
    DriveAnswer(tr[i], h, a, tr[i + 1]);
    AnswerStays(tr, i + 1, k, h);
  }

  /** Some earlier step of the upload has decided this answer. */
  ghost predicate AnsweredBefore(tr: seq<Puts>, k: nat, h: nat, res: PutResult)
    requires k < |tr|
  {
    exists i :: 0 <= i < k && h in tr[i].puts && Answers(tr[i], h, res, tr[i + 1])
  }

  /**
   An upload gives the answer that one of its steps has decided, and no other: `Stored` if and only if a
   step has made its whole body visible where there was nothing, `BodyFailed` if and only if the copy
   has broken off, an error of the cache if and only if the cache has given it that error.
   */
  lemma AnswerIff(tr: seq<Puts>, k: nat, h: nat, res: PutResult)
    requires Run(tr) && k < |tr| && Answered(tr[k], h)
    ensures tr[k].puts[h].pc.res == res <==> AnsweredBefore(tr, k, h, res)
  {
    var j := DecidedBy(tr, k, h);
    assert AnsweredBefore(tr, k, h, tr[k].puts[h].pc.res);
    if AnsweredBefore(tr, k, h, res) {
      var i :| 0 <= i < k && h in tr[i].puts && Answers(tr[i], h, res, tr[i + 1]);
      AnswerDecides(tr, i, k, h, res);
    }
  }

  lemma AnswerDecides(tr: seq<Puts>, i: nat, k: nat, h: nat, res: PutResult)
    requires Run(tr) && i < k < |tr| && h in tr[i].puts && Answers(tr[i], h, res, tr[i + 1]) && Answered(tr[k], h)
    ensures tr[k].puts[h].pc.res == res
  {
    match res
    case Stored => AppearanceDecides(tr, i, k, h);
    case BodyFailed => BreakDecides(tr, i, k, h);
    case Refused(e) => RefusalDecides(tr, i, k, h, e);
    case CloseFailed =>
  }

  /** With any other answer than `Stored`, no step of the upload has made anything visible. */
  lemma NothingAppears(tr: seq<Puts>, i: nat, k: nat, h: nat)
    requires Run(tr) && i < k < |tr| && Answered(tr[k], h) && tr[k].puts[h].pc.res != Stored && h in tr[i].puts
    ensures !Appears(tr[i], h, tr[i + 1])
  {
    if Appears(tr[i], h, tr[i + 1]) {
      AppearanceDecides(tr, i, k, h);
    }
  }

  /** Neither a commit nor an abort is refused. */
  lemma RefusalOpen(p: Puts, h: nat, a: C.Action, e: CacheError, p': Puts)
    requires PutInv(p) && RefusedBy(p, h, a, e, p')
    ensures Certain(p.puts[h].pc) == None
  {
    assert PhaseAt(p, h);
    CP.OwnView(p.cache, Current(h, p.puts[h]));
  }
}

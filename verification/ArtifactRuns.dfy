/** Sending and receiving an artifact while everybody else goes on: the tree transferred is the one at the read lock. */
module ArtifactRuns {
  import opened Basics
  import opened ArtifactCell
  import opened TarStream
  import opened TarPaths
  import opened ArtifactTransfer
  import opened CacheMachine
  import opened CacheProofs
  import opened CacheTheorems

  // ---- The sender ----

  function DirAt(c: State, id: Id): Dir {
    if At(c, id).disk.Some? then At(c, id).disk.value else map[]
  }

  /** What the directory of `id` holds in the states from `i` to `j`. */
  function Moments(tr: seq<State>, i: nat, j: nat, id: Id): (at: seq<Dir>)
    requires i <= j < |tr|
    ensures |at| == j - i + 1 && forall k :: 0 <= k <= j - i ==> at[k] == DirAt(tr[i + k], id)
    decreases j - i
  {
    if i == j then [DirAt(tr[i], id)] else [DirAt(tr[i], id)] + Moments(tr, i + 1, j, id)
  }

  /**
   `Send` by a handler whose session reads from state `i` to state `j`: each of its reads happens in
   some state in between, after whatever others have done, and the stream lists what `Get` found.
   */
  method SendDuring(tr: seq<State>, i: nat, j: nat, s: Sid, w: Writer)
    requires Run(tr) && i <= j < |tr| && s in tr[i].sessions && s in tr[j].sessions
    requires PcAt(tr[i], s).Reading? && PcAt(tr[j], s).Reading? && ParentClosed(PcAt(tr[i], s).seen) && w.entries == []
    modifies w
    ensures var seen := PcAt(tr[i], s).seen; Lists(seen, [], seen.Keys, w.entries) && w.closed
  {
    ReaderSnapshot(tr, i, j, s);
    var at := Moments(tr, i, j, IdAt(tr[i], s));
    Send(at, PcAt(tr[i], s).seen, w);
  }

  // ---- The receiver ----

  /** A step in which session `s` does not take part. */
  ghost predicate Elsewhere(c: State, s: Sid, c': State) {
    || (exists t, op, id :: t !in c.sessions && t != s && c' == Begin(c, t, op, id))
    || (exists t, a :: t != s && Step(c, t, a, c'))
  }

  /** Session `s` receives one more entry. */
  ghost predicate Receives(c: State, s: Sid, e: TarEntry, c': State) {
    && s in c.sessions && At(c, IdAt(c, s)).tmp.Some?
    && var after := Put(At(c, IdAt(c, s)).tmp.value, e);
    after.Some? && Step(c, s, Fill(after.value), c')
  }

  /** From state `n` to state `m` session `s` receives `es`, one entry at a time; `count` says how many so far. */
  ghost predicate ReceivesAll(tr: seq<State>, n: nat, m: nat, s: Sid, es: seq<TarEntry>, count: seq<nat>)
    requires n <= m < |tr|
  {
    && |count| == m - n + 1 && count[0] == 0 && count[m - n] == |es|
    && forall k :: 0 <= k < m - n ==> Advances(tr[n + k], tr[n + k + 1], s, es, count[k], count[k + 1])
  }

  ghost predicate Advances(c: State, c': State, s: Sid, es: seq<TarEntry>, had: nat, has: nat) {
    || (has == had && Elsewhere(c, s, c'))
    || (has == had + 1 && had < |es| && Receives(c, s, es[had], c'))
  }

  predicate WritesDir(c: State, s: Sid, d: Option<Dir>) {
    s in c.sessions && PcAt(c, s) == Writing && At(c, IdAt(c, s)).tmp == d
  }

  /** What a writer has in its directory is its own business. */
  lemma WriterOwnsTmp(c: State, s: Sid, c': State)
    requires Inv(c) && s in c.sessions && PcAt(c, s) == Writing && Elsewhere(c, s, c')
    ensures s in c'.sessions && IdAt(c', s) == IdAt(c, s) && PcAt(c', s) == Writing
    ensures At(c', IdAt(c, s)).tmp == At(c, IdAt(c, s)).tmp
  {
    if t, a :| t != s && Step(c, t, a, c') {
      if IdAt(c, t) == IdAt(c, s) {
        WriterAlone(c, s, t);
      }
    }
  }

  /** Received in the midst of other calls, the entries make the directory that their replay makes. */
  lemma {:induction false} ReceiveDuring(tr: seq<State>, n: nat, m: nat, s: Sid, es: seq<TarEntry>, count: seq<nat>,
        k: nat)
    requires n <= m < |tr| && ReceivesAll(tr, n, m, s, es, count) && k <= m - n && WritesDir(tr[n], s, Some(map[]))
    requires forall i :: n <= i <= m ==> Inv(tr[i])
    ensures count[k] <= |es| && WritesDir(tr[n + k], s, Replay(map[], es[..count[k]]))
    ensures IdAt(tr[n + k], s) == IdAt(tr[n], s)
  {
    if k > 0 {
      ReceiveDuring(tr, n, m, s, es, count, k - 1);
      assert Advances(tr[n + k - 1], tr[n + (k - 1) + 1], s, es, count[k - 1], count[k - 1 + 1]);
      ReceiveStep(tr[n + k - 1], tr[n + k], s, es, count[k - 1], count[k]);
    }
  }

  lemma ReceiveStep(c: State, c': State, s: Sid, es: seq<TarEntry>, had: nat, has: nat)
    requires Inv(c) && had <= |es| && WritesDir(c, s, Replay(map[], es[..had])) && Advances(c, c', s, es, had, has)
    ensures has <= |es| && WritesDir(c', s, Replay(map[], es[..has])) && IdAt(c', s) == IdAt(c, s)
  {
    if Elsewhere(c, s, c') && has == had {
      WriterOwnsTmp(c, s, c');
    } else {
      assert es[..had + 1][..had] == es[..had];
    }
  }

  // ---- The transfer ----

  /**
   A stream sent from `d` and received whole by session `s`, whatever others did meanwhile: the commit
   is enabled, and publishes `d`.
   */
  lemma TransferDuring(tr: seq<State>, n: nat, m: nat, s: Sid, d: Dir, dir: Path, es: seq<TarEntry>, count: seq<nat>)
    requires Run(tr) && n <= m < |tr| && WritesDir(tr[n], s, Some(map[]))
    requires FileTree(d) && Lists(d, [], d.Keys, es) && ReceivesAll(tr, n, m, s, Relatives(dir, es), count)
    ensures Inside(dir, es) && s in tr[m].sessions && IdAt(tr[m], s) == IdAt(tr[n], s) && Enabled(tr[m], s, Commit)
    ensures var c' := Apply(tr[m], s, Commit);
            PcAt(c', s) == Renamed && At(c', IdAt(tr[n], s)).disk == Some(d)
  {
    ListingReceived(d, dir, es);
    forall i | n <= i <= m ensures Inv(tr[i]) {
      RunInv(tr, i);
    }
    ReceiveDuring(tr, n, m, s, es, count, m - n);
    assert es[..|es|] == es;
    CommitPublishes(tr, m, s);
  }

  // ---- A failed download ----

  /** A `Create` up to its commit, and after an abort or a refusal. */
  predicate Unfinished(pc: Pc) {
    || ((pc.LockStart? || pc.LockInMu? || pc.LockStatted?) && !pc.remove)
    || pc.CreateLocked? || pc.Writing? || pc.Aborting? || pc.AbortRemoved?
  }

  predicate GivesUp(pc: Pc) {
    pc.Aborting? || pc.AbortRemoved? || pc == Done(Aborted) || (pc.Done? && pc.outcome.Failed?)
  }

  predicate Published(pc: Pc) {
    pc.Renamed? || pc == Done(Committed)
  }

  lemma LocalUnfinished(pc: Pc, x: Cell, a: Action)
    requires LocalEnabled(pc, x, a) && Knows(pc, x)
    ensures var (q, y) := Local(pc, x, a);
            && (Unfinished(pc) ==> Published(q) || y.disk == x.disk)
            && (Published(pc) ==> Published(q))
  {
  }

  ghost predicate KeepsPublished(c: State, c': State, s: Sid) {
    s in c.sessions && Published(PcAt(c, s)) ==> s in c'.sessions && Published(PcAt(c', s))
  }

  lemma NextPublished(tr: seq<State>, k: nat, s: Sid)
    requires Run(tr) && k + 1 < |tr|
    ensures KeepsPublished(tr[k], tr[k + 1], s)
  {
    RunInv(tr, k);
    StepPublished(tr[k], tr[k + 1], s);
  }

  lemma StepPublished(c: State, c': State, s: Sid)
    requires Inv(c) && Next(c, c')
    ensures KeepsPublished(c, c', s)
  {
    if t, a :| Step(c, t, a, c') {
      OwnView(c, t);
      LocalUnfinished(PcAt(c, t), At(c, IdAt(c, t)), a);
    }
  }

  lemma {:induction false} PublishedChain(tr: seq<State>, i: nat, k: nat, s: Sid)
    requires i <= k < |tr| && s in tr[i].sessions && Published(PcAt(tr[i], s))
    requires forall n :: i <= n < k ==> KeepsPublished(tr[n], tr[n + 1], s)
    ensures s in tr[k].sessions && Published(PcAt(tr[k], s))
    decreases k
  {
    if i < k {
      PublishedChain(tr, i, k - 1, s);
      assert KeepsPublished(tr[k - 1], tr[k - 1 + 1], s);
    }
  }

  /** A download that gives up in state `k` has not changed any visible entry with any of its steps. */
  lemma FailureInvisible(tr: seq<State>, n: nat, k: nat, s: Sid, a: Action)
    requires Run(tr) && n < k < |tr| && Step(tr[n], s, a, tr[n + 1]) && Unfinished(PcAt(tr[n], s))
    requires s in tr[k].sessions && GivesUp(PcAt(tr[k], s))
    ensures forall id :: At(tr[n + 1], id).disk == At(tr[n], id).disk
  {
    RunInv(tr, n);
    OwnView(tr[n], s);
    LocalUnfinished(PcAt(tr[n], s), At(tr[n], IdAt(tr[n], s)), a);
    if Published(PcAt(tr[n + 1], s)) {
      forall i | n + 1 <= i < k ensures KeepsPublished(tr[i], tr[i + 1], s) {
        NextPublished(tr, i, s);
      }
      PublishedChain(tr, n + 1, k, s);
    }
  }

  /** Its entry is absent for as long as it is at work, and when it is over, absent and without its write lock. */
  lemma FailureLeavesNothing(tr: seq<State>, k: nat, s: Sid)
    requires Run(tr) && k < |tr| && s in tr[k].sessions && Unpublished(PcAt(tr[k], s))
    ensures At(tr[k], IdAt(tr[k], s)).disk == None
    ensures PcAt(tr[k], s) == AbortRemoved && tr[k].mu == None ==>
              && Enabled(tr[k], s, Advance)
              && var c' := Apply(tr[k], s, Advance);
              PcAt(c', s) == Done(Aborted) && At(c', IdAt(tr[k], s)) == NO_CELL
  {
    CommitPublishes(tr, k, s);
    RunInv(tr, k);
    OwnView(tr[k], s);
  }
}

/** What the scheduler promises in every run: order, records and picks. */
module SchedulerTheorems {
  import opened Basics
  import opened SchedulerLog
  import opened SchedulerMachine
  import opened SchedulerProofs
  import opened Runs

  lemma ArriveInv(m: State, t: nat, pc: Pc, m': State)
    requires Inv(m) && Arrives(m, t, pc, m')
    ensures Inv(m') && Keeps(m, m')
  {
    assert MutexInv(m') && InFlight(m') == InFlight(m);
    assert Entered(m') == Entered(m);
    forall rid | 0 <= rid < |m'.recs| ensures Holds(m', rid) || InFlight(m') == Some(rid) {
      assert Holds(m, rid) || InFlight(m) == Some(rid);
    }
    forall id | Known(m'.log, id) ensures id in m'.jobs || (m'.mu.Some? && Flies(m', id)) {
      assert id in m.jobs || Flies(m, id);
    }
  }

  lemma NextInv(m: State, m': State)
    requires Inv(m) && Next(m, m')
    ensures Inv(m') && Keeps(m, m')
  {
    if t, pc :| Arrives(m, t, pc, m') {
      ArriveInv(m, t, pc, m');
    } else {
      var t :| Moves(m, t, m');
      MoveInv(m, t, m');
      StepKeeps(m, t, m');
    }
  }

  lemma InitInv(m: State)
    requires Init(m)
    ensures Inv(m)
  {
    assert forall id :: !Known(m.log, id) && HoldersOf(m.told, id) == [];
  }

  lemma {:induction false} RunInv(tr: seq<State>, i: nat)
    requires Run(tr) && i < |tr|
    ensures Inv(tr[i])
  {
    if i == 0 {
      InitInv(tr[0]);
    } else {
      RunInv(tr, i - 1);
      assert Next(tr[i - 1], tr[i - 1 + 1]);
      NextInv(tr[i - 1], tr[i]);
    }
  }

  // ---- First in, first out ----

  function JobsOf(recs: seq<Rec>, rids: seq<nat>): seq<JobSpec>
    requires forall k :: 0 <= k < |rids| ==> rids[k] < |recs|
  {
    seq(|rids|, k requires 0 <= k < |rids| => recs[rids[k]].job)
  }

  /**
   Picked jobs, then queued ones, then the one about to be pushed: together they are exactly the first
   mentions by `ScheduleJob`, in order, each once, and never more than the capacity are queued.
   */
  lemma FirstInFirstOut(tr: seq<State>, i: nat)
    requires Run(tr) && i < |tr|
    ensures var m := tr[i];
            && m.picked <= |m.pushed| && |m.queue| <= 10_000
            && m.pushed[..m.picked] + m.queue + Entered(m)[|m.pushed|..] == Entered(m)
            && (forall k :: 0 <= k < |Entered(m)| ==> Entered(m)[k] < |m.recs|)
            && JobsOf(m.recs, Entered(m)) == Enqueued(m.log)
    ensures forall j, k :: 0 <= j < k < |Entered(tr[i])| ==> Entered(tr[i])[j] != Entered(tr[i])[k]
  {
    RunInv(tr, i);
    EnteredOnce(tr[i]);
  }

  lemma EnteredOnce(m: State)
    requires Inv(m)
    ensures forall j, k :: 0 <= j < k < |Entered(m)| ==> Entered(m)[j] != Entered(m)[k]
  {
    EnqueuedOnce(m.log);
  }

  /** Where the records given out are: a heartbeat, and a position in its list. */
  function Places(threads: map<nat, Pc>): set<(nat, nat)> {
    set t, i | t in threads && 0 <= i < |Got(threads[t])| :: (t, i)
  }

  function At(m: State, x: (nat, nat)): nat
    requires x in Places(m.threads)
  {
    Got(m.threads[x.0])[x.1]
  }

  ghost predicate Placed(m: State, rid: nat) {
    exists x <- Places(m.threads) :: At(m, x) == rid
  }

  ghost predicate PicksPlaced(m: State) {
    m.picked <= |m.pushed| && forall k :: 0 <= k < m.picked ==> Placed(m, m.pushed[k])
  }

  ghost predicate PlacesDiffer(m: State) {
    forall x <- Places(m.threads), y <- Places(m.threads) :: At(m, x) == At(m, y) ==> x == y
  }

  /** Every picked record is in one place, and there are as many places as picks: the lengths of the lists add up. */
  ghost predicate PickInv(m: State) {
    PicksPlaced(m) && PlacesDiffer(m) && |Places(m.threads)| == m.picked
  }

  /** Thread `t` has what it had, and nobody else anything new. */
  lemma PlacesKept(threads: map<nat, Pc>, t: nat, pc: Pc)
    requires Got(pc) == if t in threads then Got(threads[t]) else []
    ensures Places(threads[t := pc]) == Places(threads)
  {
  }

  lemma PlacesGrow(threads: map<nat, Pc>, t: nat, pc: Pc, rid: nat)
    requires t in threads && Got(pc) == Got(threads[t]) + [rid]
    ensures (t, |Got(threads[t])|) !in Places(threads)
    ensures Places(threads[t := pc]) == Places(threads) + {(t, |Got(threads[t])|)}
  {
  }

  /** The record at the head of the queue has not been picked before. */
  lemma FreshPick(m: State)
    requires Inv(m) && m.queue != []
    ensures m.picked < |m.pushed| && m.queue[0] == m.pushed[m.picked] && m.queue[0] !in m.pushed[..m.picked]
  {
    EnteredOnce(m);
    forall k | 0 <= k < m.picked ensures m.pushed[k] != m.pushed[m.picked] {
      assert Entered(m)[k] != Entered(m)[m.picked];
    }
  }

  lemma PickStep(m: State, t: nat, m': State)
    requires Inv(m) && PickInv(m) && Moves(m, t, m')
    ensures PickInv(m')
  {
    MutexView(m, t, m');
    GotView(m, t, m');
    QueueGrows(m, t, m');
    if m'.picked == m.picked {
      PlacesKept(m.threads, t, m'.threads[t]);
      SamePlaces(m, m');
    } else {
      FreshPick(m);
      OneMorePlace(m, t, m');
    }
  }

  /** What has a place keeps it. */
  lemma PlacedKept(m: State, m': State, rid: nat)
    requires Placed(m, rid)
    requires forall x <- Places(m.threads) :: x in Places(m'.threads) && At(m', x) == At(m, x)
    ensures Placed(m', rid)
  {
    var x :| x in Places(m.threads) && At(m, x) == rid;
    assert At(m', x) == rid;
  }

  lemma SamePlaces(m: State, m': State)
    requires PickInv(m) && Places(m'.threads) == Places(m.threads)
    requires forall t <- m.threads :: t in m'.threads && Got(m'.threads[t]) == Got(m.threads[t])
    requires m.pushed <= m'.pushed && m'.picked == m.picked
    ensures PickInv(m')
  {
    forall x <- Places(m.threads) ensures At(m', x) == At(m, x) {}
    forall k | 0 <= k < m'.picked ensures Placed(m', m'.pushed[k]) {
      assert m'.pushed[k] == m.pushed[k];
      PlacedKept(m, m', m.pushed[k]);
    }
  }

  lemma OneMorePlace(m: State, t: nat, m': State)
    requires PickInv(m) && AnswerInv(m) && t in m.threads && t in m'.threads
    requires m'.threads == m.threads[t := m'.threads[t]]
    requires m.picked < |m.pushed| && m.pushed[m.picked] !in m.pushed[..m.picked]
    requires Got(m'.threads[t]) == Got(m.threads[t]) + [m.pushed[m.picked]]
    requires m'.pushed == m.pushed && m'.picked == m.picked + 1
    ensures PickInv(m')
  {
    var z := (t, |Got(m.threads[t])|);
    PlacesGrow(m.threads, t, m'.threads[t], m.pushed[m.picked]);
    forall x <- Places(m.threads) ensures At(m', x) == At(m, x) && At(m, x) in m.pushed[..m.picked] {}
    PlacedGrow(m, z, m');
    DifferGrow(m, z, m');
  }

  lemma PlacedGrow(m: State, z: (nat, nat), m': State)
    requires PicksPlaced(m) && m.picked < |m.pushed| && m'.pushed == m.pushed && m'.picked == m.picked + 1
    requires z in Places(m'.threads) && At(m', z) == m.pushed[m.picked]
    requires forall x <- Places(m.threads) :: x in Places(m'.threads) && At(m', x) == At(m, x)
    ensures PicksPlaced(m')
  {
    forall k | 0 <= k < m'.picked ensures Placed(m', m'.pushed[k]) {
      if k < m.picked {
        PlacedKept(m, m', m.pushed[k]);
      }
    }
  }

  lemma DifferGrow(m: State, z: (nat, nat), m': State)
    requires PlacesDiffer(m) && Places(m'.threads) == Places(m.threads) + {z}
    requires forall x <- Places(m.threads) :: At(m', x) == At(m, x) != At(m', z)
    ensures PlacesDiffer(m')
  {
  }

  lemma NextPick(tr: seq<State>, i: nat)
    requires Run(tr) && i + 1 < |tr| && PickInv(tr[i])
    ensures PickInv(tr[i + 1])
  {
    RunInv(tr, i);
    var m, m' := tr[i], tr[i + 1];
    assert Next(m, m');
    if t, pc :| Arrives(m, t, pc, m') {
      ArrivePick(m, t, pc, m');
    } else {
      var t :| Moves(m, t, m');
      PickStep(m, t, m');
    }
  }

  lemma ArrivePick(m: State, t: nat, pc: Pc, m': State)
    requires PickInv(m) && Arrives(m, t, pc, m')
    ensures PickInv(m')
  {
    PlacesKept(m.threads, t, pc);
    SamePlaces(m, m');
  }

  /** Each picked record is given to exactly one heartbeat, once, and nothing else is given to anybody. */
  lemma {:induction false} PickedOnce(tr: seq<State>, i: nat)
    requires Run(tr) && i < |tr|
    ensures PickInv(tr[i])
    ensures forall x <- Places(tr[i].threads) :: At(tr[i], x) in tr[i].pushed[..tr[i].picked]
    decreases i
  {
    if i == 0 {
      assert Places(tr[0].threads) == {};
    } else {
      PickedOnce(tr, i - 1);
      NextPick(tr, i - 1);
    }
    RunInv(tr, i);
    assert AnswerInv(tr[i]);
  }

  // ---- Records ----

  lemma NextKeeps(tr: seq<State>, i: nat)
    requires Run(tr) && i + 1 < |tr|
    ensures Keeps(tr[i], tr[i + 1])
  {
    RunInv(tr, i);
    NextInv(tr[i], tr[i + 1]);
  }

  lemma {:induction false} KeepsChain(tr: seq<State>, i: nat, j: nat)
    requires i <= j < |tr| && forall k :: i <= k < j ==> Keeps(tr[k], tr[k + 1])
    ensures Keeps(tr[i], tr[j])
    decreases j
  {
    if i < j {
      KeepsChain(tr, i, j - 1);
      assert Keeps(tr[j - 1], tr[j - 1 + 1]);
    }
  }

  lemma RunKeeps(tr: seq<State>, i: nat, j: nat)
    requires Run(tr) && i <= j < |tr|
    ensures Keeps(tr[i], tr[j])
  {
    forall k | i <= k < j ensures Keeps(tr[k], tr[k + 1]) {
      NextKeeps(tr, k);
    }
    KeepsChain(tr, i, j);
  }

  /**
   A job has one record for the whole run; it is finished from the first completion on, and its result
   is that completion's from then on, also if the completion came before the scheduling.
   */
  lemma OneRecordPerJob(tr: seq<State>, i: nat, j: nat, id: Id)
    requires Run(tr) && i <= j < |tr| && id in tr[i].jobs
    ensures id in tr[j].jobs && tr[j].jobs[id] == tr[i].jobs[id] < |tr[i].recs| <= |tr[j].recs|
    ensures var r := tr[i].recs[tr[i].jobs[id]];
            && r.finished == FirstResult(tr[i].log, id).Some?
            && (r.finished ==> r.result == FirstResult(tr[i].log, id).value && tr[j].recs[tr[j].jobs[id]] == r)
  {
    RunInv(tr, i);
    RunKeeps(tr, i, j);
    assert RecordOk(tr[i].log, tr[i].recs[tr[i].jobs[id]]);
  }

  /**
   A picked record, even one popped before it was stored, is found by the completion that follows: the
   report waits for `jobsMu`, and then meets the very record that `ScheduleJob` returns.
   */
  lemma PickedIsFound(m: State, rid: nat, t: nat)
    requires Inv(m) && rid in m.pushed[..m.picked] && rid < |m.recs|
    requires t in m.threads && m.threads[t].Beat? && m.threads[t].reports != []
    requires m.threads[t].reports[0].0 == m.recs[rid].job.id && Enabled(m, t)
    ensures Holds(m, rid)
    ensures var m' := Apply(m, t);
            m'.threads[t].BeatHolder? && m'.threads[t].known && Holds(m', rid) && m'.recs[rid].finished
    ensures forall u <- m.threads :: m.threads[u].SchedDone? && m.recs[m.threads[u].rid].job.id == m.recs[rid].job.id
                                     ==> m.threads[u].rid == rid
  {
    assert Holds(m, rid) || InFlight(m) == Some(rid);
  }

  // ---- Building runs ----

  lemma Extend(tr: seq<State>, m: State)
    requires Run(tr) && Next(tr[|tr| - 1], m)
    ensures Run(tr + [m])
  {
    LinkOne(tr, m, (a, b) => Next(a, b));
  }

  /** One call of `ScheduleJob` for a new job, from its arrival to its return. */
  lemma ScheduleNew(tr: seq<State>, t: nat, id: Id) returns (tr': seq<State>)
    requires Run(tr)
    requires var m := tr[|tr| - 1]; m.mu == None && t !in m.threads && id !in m.jobs && |m.queue| < QUEUE_CAPACITY
    ensures Run(tr')
    ensures var m, m', job := tr[|tr| - 1], tr'[|tr'| - 1], JobSpec(id, [], map[]);
            m' == m.(queue := m.queue + [|m.recs|], pushed := m.pushed + [|m.recs|],
                recs := m.recs + [Rec(job, false, None)],
                     jobs := m.jobs[id := |m.recs|], log := m.log + [Scheduled(job)],
                     threads := m.threads[t := SchedDone(|m.recs|)])
  {
    var m0 := tr[|tr| - 1];
    var m1 := m0.(threads := m0.threads[t := SchedStart(JobSpec(id, [], map[]))]);
    assert Arrives(m0, t, SchedStart(JobSpec(id, [], map[])), m1);
    Extend(tr, m1);
    var m2 := Apply(m1, t);
    assert Moves(m1, t, m2);
    Extend(tr + [m1], m2);
    var m3 := Apply(m2, t);
    assert Moves(m2, t, m3);
    Extend(tr + [m1] + [m2], m3);
    var m4 := Apply(m3, t);
    assert Moves(m3, t, m4);
    Extend(tr + [m1] + [m2] + [m3], m4);
    tr' := tr + [m1] + [m2] + [m3] + [m4];
    assert m4.threads == m0.threads[t := SchedDone(|m0.recs|)];
  }

  /** A heartbeat arrives and takes its first step. */
  lemma BeatMoves(tr: seq<State>, t: nat, beat: Pc) returns (tr': seq<State>)
    requires Run(tr) && t !in tr[|tr| - 1].threads && beat.Beat?
    requires Enabled(tr[|tr| - 1].(threads := tr[|tr| - 1].threads[t := beat]), t)
    ensures Run(tr') && tr'[|tr'| - 1] == Apply(tr[|tr| - 1].(threads := tr[|tr| - 1].threads[t := beat]), t)
  {
    var m := tr[|tr| - 1];
    var m1 := m.(threads := m.threads[t := beat]);
    assert Arrives(m, t, beat, m1);
    Extend(tr, m1);
    assert Moves(m1, t, Apply(m1, t));
    Extend(tr + [m1], Apply(m1, t));
    tr' := tr + [m1] + [Apply(m1, t)];
  }
}

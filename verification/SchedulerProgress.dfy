/** Where builders and heartbeats wait for each other: a full queue, and who can still empty it. */
module SchedulerProgress {
  import opened Basics
  import opened SchedulerLog
  import opened SchedulerMachine
  import opened SchedulerProofs
  import opened SchedulerTheorems

  // ---- The guard at the entry ----

  /** Builder `t` enters the critical section with a job that nobody has mentioned. */
  predicate Enters(m: State, t: nat, m': State) {
    Moves(m, t, m') && m.threads[t].SchedStart? && t in m'.threads && m'.threads[t].SchedPush?
  }

  lemma MoveCounts(m: State, u: nat, t: nat, m': State)
    requires MutexInv(m) && Moves(m, u, m') && t in m'.threads && m'.threads[t].SchedPush?
    ensures |m'.pushed| == |m.pushed| && t in m.threads
    ensures m.threads[t] == m'.threads[t] || Enters(m, t, m')
  {
    MutexStep(m, u, m');
    if u != t {
      assert m.threads[t] == m'.threads[t] && m.mu == Some(t);
    }
  }

  lemma PushCounts(m: State, t: nat, m': State)
    requires MutexInv(m) && Next(m, m') && t in m'.threads && m'.threads[t].SchedPush?
    ensures |m'.pushed| == |m.pushed| && t in m.threads
    ensures m.threads[t] == m'.threads[t] || Enters(m, t, m')
  {
    if u :| Moves(m, u, m') {
      MoveCounts(m, u, t, m');
    }
  }

  /** The entry of a builder that has yet to push. Nobody has pushed since. */
  lemma {:induction false} EntryMoment(tr: seq<State>, k: nat, t: nat) returns (i: nat)
    requires Run(tr) && k < |tr| && t in tr[k].threads && tr[k].threads[t].SchedPush?
    ensures i < k && Enters(tr[i], t, tr[i + 1])
    ensures |tr[k].pushed| == |tr[i].pushed| && tr[i].picked <= tr[k].picked
  {
    assert k > 0;
    RunInv(tr, k - 1);
    assert Next(tr[k - 1], tr[k - 1 + 1]);
    PushCounts(tr[k - 1], t, tr[k]);
    PicksGrow(tr[k - 1], tr[k]);
    if Enters(tr[k - 1], t, tr[k]) {
      i := k - 1;
    } else {
      i := EntryMoment(tr, k - 1, t);
    }
  }

  lemma PicksGrow(m: State, m': State)
    requires Next(m, m')
    ensures m.picked <= m'.picked && |m.pushed| <= |m'.pushed|
  {
    if u, pc :| Arrives(m, u, pc, m') {
    } else {
      var u :| Moves(m, u, m');
      QueueGrows(m, u, m');
    }
  }

  /**
   The push of a builder is enabled if and only if there was room in the queue when it entered
   `ScheduleJob`, or something has been picked since.
   */
  lemma PushEnabledIff(tr: seq<State>, k: nat, t: nat) returns (i: nat)
    requires Run(tr) && k < |tr| && t in tr[k].threads && tr[k].threads[t].SchedPush?
    ensures i < k && Enters(tr[i], t, tr[i + 1]) && tr[i].picked <= tr[k].picked
    ensures Enabled(tr[k], t) <==> |tr[i].queue| < 10_000 || tr[i].picked < tr[k].picked
  {
    i := EntryMoment(tr, k, t);
    RunInv(tr, i);
    RunInv(tr, k);
  }

  ghost predicate BlockedBuilder(m: State) {
    m.mu.Some? && m.mu.value in m.threads && !Enabled(m, m.mu.value)
  }

  ghost predicate EntersFull(m: State, m': State) {
    |m.queue| == QUEUE_CAPACITY && exists t: nat :: Enters(m, t, m')
  }

  /** In some state of a run the mutex is held by a blocked builder iff some new job enters with the queue full. */
  lemma BuildersBlockIff(tr: seq<State>)
    requires Run(tr)
    ensures (exists k :: 0 <= k < |tr| && BlockedBuilder(tr[k])) <==>
            exists i :: 0 <= i < |tr| - 1 && EntersFull(tr[i], tr[i + 1])
  {
    if k :| 0 <= k < |tr| && BlockedBuilder(tr[k]) {
      var i := BlockedEntered(tr, k);
    }
    if i :| 0 <= i < |tr| - 1 && EntersFull(tr[i], tr[i + 1]) {
      RunInv(tr, i);
      FullBlocks(tr[i], tr[i + 1]);
    }
  }

  lemma FullBlocks(m: State, m': State)
    requires EntersFull(m, m')
    ensures BlockedBuilder(m')
  {
    var t: nat :| Enters(m, t, m');
    assert m' == Scheduling(m, t, m.threads[t].job);
  }

  lemma BlockedEntered(tr: seq<State>, k: nat) returns (i: nat)
    requires Run(tr) && k < |tr| && BlockedBuilder(tr[k])
    ensures i < k && EntersFull(tr[i], tr[i + 1])
  {
    RunInv(tr, k);
    var t := tr[k].mu.value;
    i := PushEnabledIff(tr, k, t);
    RunInv(tr, i);
  }

  predicate Finished(pc: Pc) {
    pc.SchedDone? || pc.BeatDone?
  }

  /** Waiting for `jobsMu`. */
  predicate WaitsForMutex(pc: Pc) {
    pc.SchedStart? || (pc.Beat? && pc.reports != [])
  }

  /** The holder of the mutex in state `k` entered in state `i` with the queue full, and nothing was picked since. */
  predicate EnteredFull(tr: seq<State>, i: nat, k: nat)
    requires i < k < |tr|
  {
    && tr[k].mu.Some? && Enters(tr[i], tr[k].mu.value, tr[i + 1])
    && |tr[i].queue| == QUEUE_CAPACITY && tr[i].picked == tr[k].picked
  }

  lemma {:induction false} PushedGrows(tr: seq<State>, i: nat, k: nat)
    requires Run(tr) && i <= k < |tr|
    ensures |tr[i].pushed| <= |tr[k].pushed|
    decreases k
  {
    if i < k {
      PushedGrows(tr, i, k - 1);
      assert Next(tr[k - 1], tr[k - 1 + 1]);
      PicksGrow(tr[k - 1], tr[k]);
    }
  }

  /** Who waits for the mutex is stuck behind its holder iff that one met a full queue and nothing was picked since. */
  lemma HolderBlockedIff(tr: seq<State>, k: nat)
    requires Run(tr) && k < |tr|
    ensures BlockedBuilder(tr[k]) <==>
            tr[k].mu.Some? && tr[k].mu.value in tr[k].threads && tr[k].threads[tr[k].mu.value].SchedPush?
            && exists i :: 0 <= i < k && EnteredFull(tr, i, k)
  {
    RunInv(tr, k);
    if BlockedBuilder(tr[k]) {
      var i := PushEnabledIff(tr, k, tr[k].mu.value);
      RunInv(tr, i);
      assert EnteredFull(tr, i, k);
    }
    if i :| 0 <= i < k && EnteredFull(tr, i, k) {
      RunInv(tr, i);
      PushedGrows(tr, i, k);
    }
  }

  /**
   No call that has started can move iff all are over but for pickers of an empty queue, or the holder of
   the mutex is blocked, in the sense of `HolderBlockedIff`, and every other open call waits for it.
   */
  lemma StuckIff(tr: seq<State>, k: nat)
    requires Run(tr) && k < |tr|
    ensures (forall t <- tr[k].threads :: !Enabled(tr[k], t)) <==>
            || (tr[k].mu.None? && forall t <- tr[k].threads ::
                  Finished(tr[k].threads[t])
                      || (tr[k].threads[t].Beat? && tr[k].threads[t].reports == [] && tr[k].queue == []))
            || (BlockedBuilder(tr[k]) && forall t <- tr[k].threads ::
                  t != tr[k].mu.value ==> Finished(tr[k].threads[t]) || WaitsForMutex(tr[k].threads[t]))
  {
    RunInv(tr, k);
    if forall t <- tr[k].threads :: !Enabled(tr[k], t) {
      if tr[k].mu.Some? {
        assert !Enabled(tr[k], tr[k].mu.value);
      }
      forall t <- tr[k].threads | tr[k].mu.None?
        ensures Finished(tr[k].threads[t])
                  || (tr[k].threads[t].Beat? && tr[k].threads[t].reports == [] && tr[k].queue == [])
      {
        assert !Enabled(tr[k], t) && !InSchedule(tr[k].threads[t]);
      }
    }
  }

  /** Nothing is left to report: the heartbeat picks, tries for more, or records its last holder and picks. */
  predicate WillPick(pc: Pc) {
    (pc.Beat? && pc.reports == []) || (pc.BeatHolder? && pc.rest == []) || pc.BeatTry?
  }

  // ---- Who can free a builder ----

  ghost predicate Goes(m: State, m': State) {
    exists t :: Moves(m, t, m')
  }

  /** Calls that have started go on, and no new ones come. */
  ghost predicate Continues(ms: seq<State>, m: State) {
    && |ms| > 0 && ms[0] == m
    && forall k :: 0 <= k < |ms| - 1 ==> Goes(ms[k], ms[k + 1])
  }

  predicate Blocked(m: State, s: nat) {
    m.mu == Some(s) && s in m.threads && m.threads[s].SchedPush? && |m.queue| >= QUEUE_CAPACITY
  }

  ghost predicate Hopeless(m: State, s: nat) {
    Blocked(m, s) && (forall t <- m.threads :: !WillPick(m.threads[t])) && forall t <- m.threads ::
        InSchedule(m.threads[t]) ==> t == s
  }

  lemma StaysHopeless(m: State, s: nat, t: nat, m': State)
    requires Hopeless(m, s) && Moves(m, t, m')
    ensures Hopeless(m', s)
  {
  }

  lemma {:induction false} HopelessChain(ms: seq<State>, m: State, s: nat, k: nat)
    requires Continues(ms, m) && Hopeless(m, s) && k < |ms|
    ensures Hopeless(ms[k], s)
  {
    if k > 0 {
      HopelessChain(ms, m, s, k - 1);
      assert Goes(ms[k - 1], ms[k - 1 + 1]);
      var t :| Moves(ms[k - 1], t, ms[k]);
      StaysHopeless(ms[k - 1], s, t, ms[k]);
    }
  }

  lemma Rescue(m: State, s: nat, t: nat) returns (ms: seq<State>)
    requires Inv(m) && Blocked(m, s) && t in m.threads && WillPick(m.threads[t])
    ensures Continues(ms, m) && Enabled(ms[|ms| - 1], s)
  {
    if m.threads[t].Beat? || m.threads[t].BeatTry? {
      ms := [m, Apply(m, t)];
      assert Moves(m, t, ms[1]) && Goes(ms[0], ms[1]);
    } else {
      ms := [m, Apply(m, t), Apply(Apply(m, t), t)];
      assert Moves(m, t, ms[1]) && Moves(ms[1], t, ms[2]);
      assert Goes(ms[0], ms[1]) && Goes(ms[1], ms[2]);
    }
  }

  /** The calls that have started can free a blocked builder iff one of them has reported and is not over. */
  lemma FreedIff(m: State, s: nat)
    requires Inv(m) && Blocked(m, s)
    ensures (exists ms :: Continues(ms, m) && Enabled(ms[|ms| - 1], s)) <==> exists t <- m.threads ::
              WillPick(m.threads[t])
  {
    if t :| t in m.threads && WillPick(m.threads[t]) {
      var ms := Rescue(m, s, t);
    } else if ms :| Continues(ms, m) && Enabled(ms[|ms| - 1], s) {
      HopelessChain(ms, m, s, |ms| - 1);
    }
  }

  // ---- A deadlock ----

  /** `n` builders have scheduled the jobs `0` to `n - 1`, one after the other, and nothing has been picked. */
  predicate Filled(m: State, n: nat) {
    && m.mu == None && |m.queue| == |m.recs| == n && m.pushed == m.queue && m.picked == 0
    && (forall t <- m.threads :: t < n && m.threads[t].SchedDone?)
    && (forall id <- m.jobs :: id.hash < n)
    && (n > 0 ==> m.queue[0] == 0 && m.recs[0].job.id == Id(0) && Id(0) in m.jobs)
  }

  lemma {:induction false} Fill(n: nat) returns (tr: seq<State>)
    requires n <= QUEUE_CAPACITY
    ensures Run(tr) && Filled(tr[|tr| - 1], n)
  {
    if n == 0 {
      tr := [State(None, map[], [], [], map[], map[], [], [], [], 0)];
    } else {
      tr := Fill(n - 1);
      tr := ScheduleNew(tr, n - 1, Id(n - 1));
    }
  }

  /** A full queue from which a heartbeat has picked job `0` and a builder has filled the gap. */
  lemma FillAndPick() returns (tr: seq<State>)
    ensures Run(tr)
    ensures var m := tr[|tr| - 1];
            && m.mu == None && |m.queue| == QUEUE_CAPACITY && m.picked == 1 <= |m.pushed| && m.pushed[0] == 0
            && |m.recs| > 0 && m.recs[0].job.id == Id(0) && Id(0) in m.jobs
            && (forall t <- m.threads :: t < QUEUE_CAPACITY + 2 && Finished(m.threads[t]))
            && (forall id <- m.jobs :: id.hash <= QUEUE_CAPACITY)
  {
    tr := Fill(QUEUE_CAPACITY);
    tr := BeatMoves(tr, QUEUE_CAPACITY, Beat(WorkerId("worker"), 1, []));
    tr := ScheduleNew(tr, QUEUE_CAPACITY + 1, Id(QUEUE_CAPACITY));
  }

  /**
   Such a builder can be left for ever. A worker has picked job `0`; the queue is full again; a builder blocks
   inside `ScheduleJob`; and the worker's next heartbeat, which has to report job `0` before it may
   pick, waits for the builder.
   */
  lemma ReportAndPushDeadlock() returns (tr: seq<State>, builder: nat, beat: nat)
    ensures Run(tr)
    ensures var m := tr[|tr| - 1];
            && (forall t <- m.threads :: !Enabled(m, t))
            && builder in m.threads && m.threads[builder].SchedPush?
            && beat in m.threads && m.threads[beat].Beat? && |m.threads[beat].reports| == 1 && m.picked <= |m.pushed|
            && exists rid <- m.pushed[..m.picked] ::
                rid < |m.recs| && m.recs[rid].job.id == m.threads[beat].reports[0].0
  {
    tr := FillAndPick();
    builder, beat := QUEUE_CAPACITY + 2, QUEUE_CAPACITY + 3;
    var pc := SchedStart(JobSpec(Id(QUEUE_CAPACITY + 1), [], map[]));
    var pc' := Beat(WorkerId("worker"), 1, [(Id(0), Some(JobResult(Id(0), 0, None)))]);
    var m0 := tr[|tr| - 1];
    var m1 := m0.(threads := m0.threads[builder := pc]);
    assert Arrives(m0, builder, pc, m1);
    Extend(tr, m1);
    var m2 := Apply(m1, builder);
    assert Moves(m1, builder, m2);
    Extend(tr + [m1], m2);
    var m3 := m2.(threads := m2.threads[beat := pc']);
    assert Arrives(m2, beat, pc', m3);
    Extend(tr + [m1] + [m2], m3);
    assert m3.pushed[..m3.picked][0] == 0 && m3.recs[0] == m0.recs[0];
    tr := tr + [m1] + [m2] + [m3];
  }
}

/** The scheduler's invariant, step by step. */
module SchedulerProofs {
  import opened Basics
  import opened SchedulerLog
  import opened SchedulerMachine

  lemma OwnThread(m: State, t: nat, m': State)
    requires Moves(m, t, m')
    ensures t in m'.threads && m'.threads == m.threads[t := m'.threads[t]]
  {
  }

  /** A step leaves the mutex alone, takes it, or gives it back. */
  lemma MutexView(m: State, t: nat, m': State)
    requires Moves(m, t, m')
    ensures t in m'.threads && m'.threads == m.threads[t := m'.threads[t]]
    ensures var pc, pc' := m.threads[t], m'.threads[t];
            || (m'.mu == m.mu && InSchedule(pc') == InSchedule(pc))
            || (m.mu == None && m'.mu == Some(t) && InSchedule(pc'))
            || (InSchedule(pc) && m'.mu == None && !InSchedule(pc'))
  {
    OwnThread(m, t, m');
  }

  lemma MutexStep(m: State, t: nat, m': State)
    requires MutexInv(m) && Moves(m, t, m')
    ensures MutexInv(m')
  {
    MutexView(m, t, m');
    MutexKept(m, t, m');
  }

  lemma MutexKept(m: State, t: nat, m': State)
    requires MutexInv(m) && t in m.threads && t in m'.threads && m'.threads == m.threads[t := m'.threads[t]]
    requires var pc, pc' := m.threads[t], m'.threads[t];
             || (m'.mu == m.mu && InSchedule(pc') == InSchedule(pc))
             || (m.mu == None && m'.mu == Some(t) && InSchedule(pc'))
             || (InSchedule(pc) && m'.mu == None && !InSchedule(pc'))
    ensures MutexInv(m')
  {
  }

  /** A record that the map holds stays where it is, for its job, and keeps a result it has. */
  predicate Keeps(m: State, m': State) {
    && |m.recs| <= |m'.recs|
    && (forall rid :: 0 <= rid < |m.recs| ==>
          m'.recs[rid].job == m.recs[rid].job && (m.recs[rid].finished ==> m'.recs[rid] == m.recs[rid]))
    && (forall id <- m.jobs :: id in m'.jobs && m'.jobs[id] == m.jobs[id])
  }

  lemma StepKeeps(m: State, t: nat, m': State)
    requires Moves(m, t, m')
    requires m.threads[t].SchedStore? ==> m.recs[m.threads[t].rid].job.id !in m.jobs
    ensures Keeps(m, m')
  {
  }

  /** The threads at a program point of some kind. */
  function Those(threads: map<nat, Pc>, p: Pc -> bool): set<nat> {
    set t | t in threads && p(threads[t])
  }

  lemma ThoseMove(threads: map<nat, Pc>, t: nat, pc: Pc, p: Pc -> bool)
    ensures |Those(threads[t := pc], p)| ==
            |Those(threads, p)| + (if p(pc) then 1 else 0) - (if t in threads && p(threads[t]) then 1 else 0)
  {
    var others := Those(threads, p) - {t};
    assert Those(threads, p) == if t in threads && p(threads[t]) then others + {t} else others;
    assert Those(threads[t := pc], p) == if p(pc) then others + {t} else others;
  }

  /** `JobsInv` while nobody is inside `ScheduleJob`. */
  ghost predicate Table(log: Log, recs: seq<Rec>, jobs: map<Id, nat>) {
    && (forall rid :: 0 <= rid < |recs| ==>
          RecordOk(log, recs[rid]) && recs[rid].job.id in jobs && jobs[recs[rid].job.id] == rid)
    && (forall id :: Known(log, id) <==> id in jobs)
    && (forall id <- jobs :: jobs[id] < |recs| && recs[jobs[id]].job.id == id)
  }

  lemma TableView(m: State)
    requires MutexInv(m) && m.mu.None?
    ensures JobsInv(m) <==> Table(m.log, m.recs, m.jobs)
  {
    if JobsInv(m) {
      forall rid | 0 <= rid < |m.recs| ensures m.recs[rid].job.id in m.jobs && m.jobs[m.recs[rid].job.id] == rid {
        assert Holds(m, rid);
      }
      forall id <- m.jobs ensures Known(m.log, id) {
        assert m.recs[m.jobs[id]].job.id == id;
      }
    }
  }

  // ---- ScheduleJob ----

  lemma ScheduleView(m: State, t: nat, m': State)
    requires Inv(m) && Moves(m, t, m') && m.threads[t].SchedStart?
    ensures m'.log == m.log + [Scheduled(m.threads[t].job)] && m'.jobs == m.jobs && m.mu == None
    ensures m.threads[t].job.id in m.jobs ==> m'.recs == m.recs && m'.mu == None
    ensures m.threads[t].job.id !in m.jobs ==>
              && m'.recs == m.recs + [Rec(m.threads[t].job, false, None)]
              && m'.mu == Some(t) && m'.threads[t] == SchedPush(|m.recs|)
  {
  }

  lemma SchedulesKnown(log: Log, recs: seq<Rec>, jobs: map<Id, nat>, job: JobSpec)
    requires Table(log, recs, jobs) && job.id in jobs
    ensures Table(log + [Scheduled(job)], recs, jobs)
  {
    forall rid | 0 <= rid < |recs| ensures RecordOk(log + [Scheduled(job)], recs[rid]) {
      GrowResult(log, Scheduled(job), recs[rid].job.id);
    }
    forall id ensures Known(log + [Scheduled(job)], id) <==> id in jobs {
      GrowKnown(log, Scheduled(job), id);
    }
  }

  /** `Table` with one record more, that the map does not hold yet. */
  ghost predicate OpenTable(log: Log, recs: seq<Rec>, jobs: map<Id, nat>, r: Rec) {
    && (forall rid :: 0 <= rid < |recs| ==>
          RecordOk(log, recs[rid]) && recs[rid].job.id in jobs && jobs[recs[rid].job.id] == rid)
    && RecordOk(log, r) && r.job.id !in jobs
    && (forall id :: Known(log, id) <==> id in jobs || id == r.job.id)
    && (forall id <- jobs :: jobs[id] < |recs| && recs[jobs[id]].job.id == id)
  }

  lemma SchedulesNew(log: Log, recs: seq<Rec>, jobs: map<Id, nat>, job: JobSpec)
    requires Table(log, recs, jobs) && job.id !in jobs
    ensures OpenTable(log + [Scheduled(job)], recs, jobs, Rec(job, false, None))
  {
    CompletedIsKnown(log, job.id);
    GrowResult(log, Scheduled(job), job.id);
    forall rid | 0 <= rid < |recs| ensures RecordOk(log + [Scheduled(job)], recs[rid]) {
      GrowResult(log, Scheduled(job), recs[rid].job.id);
    }
    forall id ensures Known(log + [Scheduled(job)], id) <==> id in jobs || id == job.id {
      GrowKnown(log, Scheduled(job), id);
    }
  }

  lemma OpenTableView(m: State, recs: seq<Rec>, r: Rec)
    requires MutexInv(m) && InFlight(m) == Some(|recs|) && m.recs == recs + [r] && OpenTable(m.log, recs, m.jobs, r)
    ensures JobsInv(m) && m.recs[|recs|] == r
  {
    assert m.recs[|recs|] == r && Flies(m, r.job.id);
    forall rid | 0 <= rid < |m.recs|
      ensures RecordOk(m.log, m.recs[rid]) && Known(m.log, m.recs[rid].job.id)
      ensures Holds(m, rid) || InFlight(m) == Some(rid)
    {
      assert rid < |recs| ==> m.recs[rid] == recs[rid];
    }
  }

  lemma ScheduleJobs(m: State, t: nat, m': State)
    requires Inv(m) && Moves(m, t, m') && m.threads[t].SchedStart?
    ensures MutexInv(m') && JobsInv(m')
    ensures m'.mu.Some? ==> InFlight(m').value < |m'.recs| && m'.recs[InFlight(m').value].job.id !in m'.jobs
  {
    var job := m.threads[t].job;
    MutexStep(m, t, m');
    ScheduleView(m, t, m');
    TableView(m);
    if job.id in m.jobs {
      SchedulesKnown(m.log, m.recs, m.jobs, job);
      TableView(m');
    } else {
      SchedulesNew(m.log, m.recs, m.jobs, job);
      OpenTableView(m', m.recs, Rec(job, false, None));
    }
  }

  lemma CarryKept(recs: seq<Rec>, recs': seq<Rec>, entered: seq<nat>, specs: seq<JobSpec>)
    requires Carry(recs, entered, specs) && |recs| <= |recs'|
    requires forall rid :: 0 <= rid < |recs| ==> recs'[rid].job == recs[rid].job
    ensures Carry(recs', entered, specs)
  {
  }

  /** A new job is about to enter; a known one is not. */
  lemma ScheduleEnters(m: State, t: nat, m': State)
    requires MutexInv(m) && Moves(m, t, m') && m.threads[t].SchedStart?
    ensures Entered(m) == m.pushed && m'.pushed == m.pushed && m'.picked == m.picked && m'.queue == m.queue
    ensures Entered(m') == m.pushed + if m.threads[t].job.id in m.jobs then [] else [|m.recs|]
  {
  }

  lemma CarryGrows(recs: seq<Rec>, r: Rec, entered: seq<nat>, specs: seq<JobSpec>)
    requires Carry(recs, entered, specs)
    ensures Carry(recs + [r], entered + [|recs|], specs + [r.job])
  {
  }

  lemma ScheduleQueue(m: State, t: nat, m': State)
    requires Inv(m) && Moves(m, t, m') && m.threads[t].SchedStart?
    ensures QueueInv(m')
  {
    var job := m.threads[t].job;
    ScheduleView(m, t, m');
    ScheduleEnters(m, t, m');
    GrowQueue(m.log, Scheduled(job));
    TableView(m);
    assert Known(m.log, job.id) <==> job.id in m.jobs;
    if job.id in m.jobs {
      assert Enqueued(m.log) + [] == Enqueued(m.log) && m.pushed + [] == m.pushed;
    } else {
      CarryGrows(m.recs, Rec(job, false, None), m.pushed, Enqueued(m.log));
    }
  }

  lemma PushJobs(m: State, t: nat, m': State)
    requires Inv(m) && Moves(m, t, m') && m.threads[t].SchedPush?
    ensures MutexInv(m') && JobsInv(m') && QueueInv(m')
    ensures m'.mu.Some? ==> InFlight(m').value < |m'.recs| && m'.recs[InFlight(m').value].job.id !in m'.jobs
  {
    MutexStep(m, t, m');
    assert m.mu == Some(t) && m'.mu == Some(t) && InFlight(m') == InFlight(m);
    assert Entered(m') == Entered(m);
    forall id | Known(m'.log, id) ensures id in m'.jobs || Flies(m', id) {
      assert id in m.jobs || Flies(m, id);
    }
    forall rid | 0 <= rid < |m'.recs| ensures Holds(m', rid) || InFlight(m') == Some(rid) {
      assert Holds(m, rid) || InFlight(m) == Some(rid);
    }
  }

  lemma StoreJobs(m: State, t: nat, m': State)
    requires Inv(m) && Moves(m, t, m') && m.threads[t].SchedStore?
    ensures MutexInv(m') && JobsInv(m') && QueueInv(m') && m'.mu == None
  {
    MutexStep(m, t, m');
    assert m.mu == Some(t);
    assert Entered(m') == Entered(m);
    forall id | Known(m'.log, id) ensures id in m'.jobs {
      assert id in m.jobs || Flies(m, id);
    }
    forall rid | 0 <= rid < |m'.recs| ensures Holds(m', rid) {
      assert Holds(m, rid) || InFlight(m) == Some(rid);
    }
  }

  // ---- OnJobComplete ----

  lemma CompleteKnown(log: Log, recs: seq<Rec>, jobs: map<Id, nat>, e: Event)
    requires Table(log, recs, jobs) && e.Completed? && e.job_id in jobs
    ensures var rid := jobs[e.job_id];
            Table(log + [e], if recs[rid].finished then recs else recs[rid := Rec(recs[rid].job, true, e.result)], jobs)
  {
    var own := jobs[e.job_id];
    var recs' := if recs[own].finished then recs else recs[own := Rec(recs[own].job, true, e.result)];
    forall rid | 0 <= rid < |recs'| ensures RecordOk(log + [e], recs'[rid]) {
      GrowResult(log, e, recs[rid].job.id);
    }
    forall id ensures Known(log + [e], id) <==> id in jobs {
      GrowKnown(log, e, id);
    }
  }

  lemma CompleteUnknown(log: Log, recs: seq<Rec>, jobs: map<Id, nat>, e: Event)
    requires Table(log, recs, jobs) && e.Completed? && e.job_id !in jobs
    ensures Table(log + [e], recs + [Rec(JobSpec(e.job_id, [], map[]), true, e.result)], jobs[e.job_id := |recs|])
  {
    CompletedIsKnown(log, e.job_id);
    var recs' := recs + [Rec(JobSpec(e.job_id, [], map[]), true, e.result)];
    forall rid | 0 <= rid < |recs'| ensures RecordOk(log + [e], recs'[rid]) {
      GrowResult(log, e, recs'[rid].job.id);
      assert rid < |recs| ==> recs'[rid] == recs[rid];
    }
    forall id ensures Known(log + [e], id) <==> id in jobs || id == e.job_id {
      GrowKnown(log, e, id);
    }
  }

  lemma CompleteView(m: State, t: nat, m': State)
    requires Inv(m) && Moves(m, t, m') && m.threads[t].Beat? && m.threads[t].reports != []
    ensures var (id, res) := m.threads[t].reports[0];
            && m'.log == m.log + [Completed(m.threads[t].worker, id, res)] && m'.mu == m.mu == None
            && if id in m.jobs then
                 m'.jobs == m.jobs && m'.recs == if m.recs[m.jobs[id]].finished then m.recs
                                                 else m.recs[m.jobs[id] := Rec(m.recs[m.jobs[id]].job, true, res)]
               else m'.jobs == m.jobs[id := |m.recs|] && m'.recs == m.recs + [Rec(JobSpec(id, [], map[]), true, res)]
  {
  }

  lemma CompleteJobs(m: State, t: nat, m': State)
    requires Inv(m) && Moves(m, t, m') && m.threads[t].Beat? && m.threads[t].reports != []
    ensures MutexInv(m') && JobsInv(m') && m'.mu == None
  {
    var (id, res) := m.threads[t].reports[0];
    MutexStep(m, t, m');
    CompleteView(m, t, m');
    TableView(m);
    if id in m.jobs {
      CompleteKnown(m.log, m.recs, m.jobs, Completed(m.threads[t].worker, id, res));
    } else {
      CompleteUnknown(m.log, m.recs, m.jobs, Completed(m.threads[t].worker, id, res));
    }
    assert Table(m'.log, m'.recs, m'.jobs);
    TableView(m');
  }

  lemma CompleteQueue(m: State, t: nat, m': State)
    requires Inv(m) && Moves(m, t, m') && m.threads[t].Beat? && m.threads[t].reports != []
    ensures QueueInv(m')
  {
    var (id, res) := m.threads[t].reports[0];
    GrowQueue(m.log, Completed(m.threads[t].worker, id, res));
    assert Enqueued(m.log) + [] == Enqueued(m.log);
    CompleteView(m, t, m');
    StepKeeps(m, t, m');
    QueueStays(m, m');
  }

  lemma QueueStays(m: State, m': State)
    requires QueueInv(m) && Keeps(m, m') && m.mu == None && m'.mu == None && Enqueued(m'.log) == Enqueued(m.log)
    requires m'.pushed == m.pushed && m'.picked == m.picked && m'.queue == m.queue
    ensures QueueInv(m')
  {
    assert Entered(m) == m.pushed && Entered(m') == m.pushed;
    CarryKept(m.recs, m'.recs, m.pushed, Enqueued(m.log));
  }

  // ---- PickJob and the holders ----

  /** Steps outside `jobsMu` leave the map, the records and the history of the mutex alone. */
  lemma OutsideView(m: State, t: nat, m': State)
    requires Moves(m, t, m')
    requires m.threads[t].BeatHolder? || m.threads[t].BeatTry? || (m.threads[t].Beat? && m.threads[t].reports == [])
    ensures m'.jobs == m.jobs && m'.recs == m.recs && m'.log == m.log && m'.mu == m.mu && m'.pushed == m.pushed
    ensures forall u :: u != t ==>
              (u in m'.threads <==> u in m.threads) && (u in m.threads ==> m'.threads[u] == m.threads[u])
    ensures (m'.queue == m.queue && m'.picked == m.picked)
         || (m.queue != [] && m'.queue == m.queue[1..] && m'.picked == m.picked + 1)
  {
  }

  lemma OutsideJobs(m: State, t: nat, m': State)
    requires Inv(m) && Moves(m, t, m')
    requires m.threads[t].BeatHolder? || m.threads[t].BeatTry? || (m.threads[t].Beat? && m.threads[t].reports == [])
    ensures MutexInv(m') && JobsInv(m') && QueueInv(m') && InFlight(m') == InFlight(m) && m'.mu == m.mu
    ensures m'.jobs == m.jobs && m'.recs == m.recs
  {
    MutexStep(m, t, m');
    OutsideView(m, t, m');
    assert m.mu.Some? ==> m.mu.value != t && m'.threads[m.mu.value] == m.threads[m.mu.value];
    SameTable(m, m');
    assert Entered(m') == Entered(m);
  }

  lemma SameTable(m: State, m': State)
    requires MutexInv(m) && MutexInv(m') && JobsInv(m) && InFlight(m') == InFlight(m) && m'.mu == m.mu
    requires m'.jobs == m.jobs && m'.recs == m.recs && m'.log == m.log
    ensures JobsInv(m')
  {
    forall id | Known(m'.log, id) ensures id in m'.jobs || (m'.mu.Some? && Flies(m', id)) {
      assert id in m.jobs || Flies(m, id);
    }
    forall rid | 0 <= rid < |m'.recs| ensures Holds(m', rid) || InFlight(m') == Some(rid) {
      assert Holds(m, rid) || InFlight(m) == Some(rid);
    }
  }

  lemma HoldersStep(m: State, t: nat, m': State)
    requires HoldersInv(m) && Moves(m, t, m')
    ensures HoldersInv(m')
  {
    if m.threads[t].BeatHolder? {
      HoldersSlide(m.artifacts, m.told, m.threads[t].id, m.threads[t].worker);
    } else {
      assert m'.artifacts == m.artifacts && m'.told == m.told;
    }
  }

  lemma QueueGrows(m: State, t: nat, m': State)
    requires Moves(m, t, m')
    ensures m.pushed <= m'.pushed && m.picked <= m'.picked
  {
  }

  /** The thread that moves is answered rightly; the others keep their answers. */
  lemma AnswerKept(m: State, t: nat, m': State)
    requires AnswerInv(m) && Keeps(m, m') && m.pushed <= m'.pushed && m.picked <= m'.picked <= |m'.pushed|
    requires t in m'.threads && m'.threads == m.threads[t := m'.threads[t]]
    requires m'.threads[t].SchedDone? ==> Holds(m', m'.threads[t].rid)
    requires forall rid <- Got(m'.threads[t]) :: rid in m'.pushed[..m'.picked]
    ensures AnswerInv(m')
  {
    forall u <- m'.threads | u != t && m'.threads[u].SchedDone? ensures Holds(m', m'.threads[u].rid) {
      assert Holds(m, m.threads[u].rid);
    }
    assert m.pushed[..m.picked] <= m'.pushed[..m'.picked];
  }

  lemma AnswerStep(m: State, t: nat, m': State)
    requires Inv(m) && Moves(m, t, m') && JobsInv(m') && QueueInv(m')
    ensures AnswerInv(m')
  {
    StepKeeps(m, t, m');
    QueueGrows(m, t, m');
    MutexView(m, t, m');
    OwnAnswer(m, t, m');
    OwnPick(m, t, m');
    AnswerKept(m, t, m');
  }

  /** A call of `ScheduleJob` returns the record that the map holds, or the one it stores there. */
  lemma DoneView(m: State, t: nat, m': State)
    requires Moves(m, t, m') && t in m'.threads && m'.threads[t].SchedDone?
    ensures var rid := m'.threads[t].rid;
            && m'.recs == m.recs
            && if m.threads[t].SchedStart? then
                 m'.jobs == m.jobs && m.threads[t].job.id in m.jobs && rid == m.jobs[m.threads[t].job.id]
               else rid < |m.recs| && m'.jobs == m.jobs[m.recs[rid].job.id := rid]
  {
  }

  lemma OwnAnswer(m: State, t: nat, m': State)
    requires Moves(m, t, m') && forall id <- m.jobs :: m.jobs[id] < |m.recs| && m.recs[m.jobs[id]].job.id == id
    ensures t in m'.threads && (m'.threads[t].SchedDone? ==> Holds(m', m'.threads[t].rid))
  {
    MutexView(m, t, m');
    if m'.threads[t].SchedDone? {
      DoneView(m, t, m');
    }
  }

  /** A heartbeat has the records it had, and the one it picks. */
  lemma GotView(m: State, t: nat, m': State)
    requires Moves(m, t, m')
    ensures t in m'.threads
    ensures m'.picked == m.picked ==> Got(m'.threads[t]) == Got(m.threads[t])
    ensures m'.picked != m.picked ==>
              && m'.picked == m.picked + 1 && m.queue != [] && m'.pushed == m.pushed
              && Got(m'.threads[t]) == Got(m.threads[t]) + [m.queue[0]]
  {
    if m.threads[t].BeatTry? {
      TryView(m, t, m');
    } else {
      assert Got(m.threads[t]) == [];
      assert m'.picked != m.picked ==> m.queue != [] && [] + [m.queue[0]] == [m.queue[0]];
    }
  }

  lemma TryView(m: State, t: nat, m': State)
    requires Moves(m, t, m') && m.threads[t].BeatTry?
    ensures t in m'.threads && m'.pushed == m.pushed
    ensures if m.queue == [] then m'.picked == m.picked && Got(m'.threads[t]) == Got(m.threads[t])
            else m'.picked == m.picked + 1 && Got(m'.threads[t]) == Got(m.threads[t]) + [m.queue[0]]
  {
  }

  lemma OwnPick(m: State, t: nat, m': State)
    requires QueueInv(m) && AnswerInv(m) && Moves(m, t, m') && m.pushed <= m'.pushed && m'.picked <= |m'.pushed|
    ensures t in m'.threads && forall rid <- Got(m'.threads[t]) :: rid in m'.pushed[..m'.picked]
  {
    GotView(m, t, m');
    if m'.picked != m.picked {
      assert m'.pushed[..m'.picked] == m.pushed[..m.picked] + [m.queue[0]];
    } else {
      assert m'.pushed[..m'.picked] == m.pushed[..m.picked];
    }
  }

  /** The part of the invariant that concerns the mutex, the map and the records. */
  ghost predicate CoreInv(m: State) {
    && MutexInv(m) && (m.mu.Some? ==> InFlight(m).value < |m.recs| && m.recs[InFlight(m).value].job.id !in m.jobs)
    && JobsInv(m)
  }

  lemma CoreStep(m: State, t: nat, m': State)
    requires Inv(m) && Moves(m, t, m')
    ensures CoreInv(m') && QueueInv(m')
  {
    match m.threads[t] {
      case SchedStart(_) =>
        ScheduleJobs(m, t, m');
        ScheduleQueue(m, t, m');
      case SchedPush(_) => PushJobs(m, t, m');
      case SchedStore(_) => StoreJobs(m, t, m');
      case Beat(_, _, reports) =>
        if reports != [] {
          CompleteJobs(m, t, m');
          CompleteQueue(m, t, m');
        } else {
          OutsideJobs(m, t, m');
        }
      case BeatHolder(_, _, _, _, _) => OutsideJobs(m, t, m');
      case BeatTry(_, _, _) => OutsideJobs(m, t, m');
    }
  }

  lemma MoveInv(m: State, t: nat, m': State)
    requires Inv(m) && Moves(m, t, m')
    ensures Inv(m')
  {
    CoreStep(m, t, m');
    HoldersStep(m, t, m');
    AnswerStep(m, t, m');
  }
}

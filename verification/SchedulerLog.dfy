/**
 What the scheduler has been told, in the order of its critical sections, and what follows from it.

 The scheduler itself keeps maps, records and a channel; the functions below read the same facts off
 the history alone, and the scheduler is proved against them.
 */
module SchedulerLog {
  import opened Basics

  datatype WorkerId = WorkerId(name: string)

  datatype JobSpec = JobSpec(id: Id, deps: seq<Id>, artifacts: map<Id, WorkerId>)

  datatype JobResult = JobResult(id: Id, exitCode: int, error: Option<string>)

  /** A completion may carry no result: a worker reports artifacts it has merely downloaded. */
  datatype Event =
    | Scheduled(job: JobSpec)
    | Completed(worker: WorkerId, job_id: Id, result: Option<JobResult>)

  type Log = seq<Event>

  const QUEUE_CAPACITY: nat := 10_000
  const HOLDERS: nat := 4

  function EventId(e: Event): Id {
    match e
    case Scheduled(job) => job.id
    case Completed(_, id, _) => id
  }

  predicate Known(log: Log, id: Id) {
    exists i :: 0 <= i < |log| && EventId(log[i]) == id
  }

  /** The specifications that enter the queue: first mentions of an identifier, by `ScheduleJob`. */
  function Enqueued(log: Log): seq<JobSpec> {
    if log == [] then []
    else
      var front, e := log[..|log| - 1], log[|log| - 1];
      Enqueued(front) + if e.Scheduled? && !Known(front, e.job.id) then [e.job] else []
  }

  /** The result of the first completion of a job, once there is one. */
  function FirstResult(log: Log, id: Id): Option<Option<JobResult>> {
    if log == [] then None
    else
      var front, e := log[..|log| - 1], log[|log| - 1];
      if FirstResult(front, id).Some? then FirstResult(front, id)
      else if e.Completed? && e.job_id == id then Some(e.result)
      else None
  }

  // ---- Histories that grow ----

  lemma GrowKnown(log: Log, e: Event, id: Id)
    ensures Known(log + [e], id) <==> Known(log, id) || EventId(e) == id
  {
    if Known(log, id) {
      var i :| 0 <= i < |log| && EventId(log[i]) == id;
      assert EventId((log + [e])[i]) == id;
    }
    assert (log + [e])[|log|] == e;
  }

  lemma GrowResult(log: Log, e: Event, id: Id)
    ensures FirstResult(log + [e], id) ==
            if FirstResult(log, id).Some? then FirstResult(log, id)
            else if e.Completed? && e.job_id == id then Some(e.result) else None
  {
    assert (log + [e])[..|log|] == log;
  }

  lemma GrowQueue(log: Log, e: Event)
    ensures Enqueued(log + [e]) == Enqueued(log) + if e.Scheduled? && !Known(log, e.job.id) then [e.job] else []
  {
    assert (log + [e])[..|log|] == log;
  }

  lemma Grow(log: Log, e: Event)
    ensures Enqueued(log + [e]) == Enqueued(log) + if e.Scheduled? && !Known(log, e.job.id) then [e.job] else []
    ensures forall id :: FirstResult(log + [e], id) ==
                         if FirstResult(log, id).Some? then FirstResult(log, id)
                         else if e.Completed? && e.job_id == id then Some(e.result) else None
    ensures forall id :: Known(log + [e], id) <==> Known(log, id) || EventId(e) == id
  {
    GrowQueue(log, e);
    forall id ensures Known(log + [e], id) <==> Known(log, id) || EventId(e) == id {
      GrowKnown(log, e, id);
    }
    assert (log + [e])[..|log|] == log;
  }

  /** Nothing completed is unknown. */
  lemma {:induction false} CompletedIsKnown(log: Log, id: Id)
    ensures FirstResult(log, id).Some? ==> Known(log, id)
  {
    if log != [] {
      var front, e := log[..|log| - 1], log[|log| - 1];
      assert log == front + [e];
      CompletedIsKnown(front, id);
      Grow(front, e);
    }
  }

  predicate Completes(e: Event, id: Id) {
    e.Completed? && e.job_id == id
  }

  ghost predicate FirstAt(log: Log, id: Id, i: nat)
    requires i < |log|
  {
    Completes(log[i], id) && forall j :: 0 <= j < i ==> !Completes(log[j], id)
  }

  /** There is a first result exactly if there is a completion, and it is the result of the first one. */
  lemma {:induction false} FirstResultIsFirst(log: Log, id: Id)
    ensures FirstResult(log, id).Some? <==> exists i :: 0 <= i < |log| && Completes(log[i], id)
    ensures forall i :: 0 <= i < |log| && FirstAt(log, id, i) ==> FirstResult(log, id) == Some(log[i].result)
  {
    if log != [] {
      var front := log[..|log| - 1];
      FirstResultIsFirst(front, id);
      if i :| 0 <= i < |front| && Completes(front[i], id) {
        assert Completes(log[i], id);
      }
      forall i | 0 <= i < |log| && FirstAt(log, id, i) ensures FirstResult(log, id) == Some(log[i].result) {
        if i < |front| {
          forall j | 0 <= j <= i ensures front[j] == log[j] {}
          assert FirstAt(front, id, i);
        }
      }
    }
  }

  /** An identifier enters the queue once at most, and only if it is known. */
  lemma {:induction false} EnqueuedOnce(log: Log)
    ensures forall i, j :: 0 <= i < j < |Enqueued(log)| ==> Enqueued(log)[i].id != Enqueued(log)[j].id
    ensures forall i :: 0 <= i < |Enqueued(log)| ==> Known(log, Enqueued(log)[i].id)
  {
    if log != [] {
      var front, e := log[..|log| - 1], log[|log| - 1];
      assert log == front + [e];
      EnqueuedOnce(front);
      Grow(front, e);
    }
  }

  /** It enters exactly if its first mention is a `ScheduleJob`: a job that completed first is never queued. */
  lemma {:induction false} EnqueuedIff(log: Log, id: Id)
    ensures (exists k :: 0 <= k < |Enqueued(log)| && Enqueued(log)[k].id == id) <==>
            exists i :: 0 <= i < |log| && log[i].Scheduled? && log[i].job.id == id && !Known(log[..i], id)
  {
    if log != [] {
      var front, e := log[..|log| - 1], log[|log| - 1];
      assert log == front + [e];
      EnqueuedIff(front, id);
      Grow(front, e);
      forall i | 0 <= i < |front| ensures log[..i] == front[..i] && log[i] == front[i] {}
      if k :| 0 <= k < |Enqueued(front)| && Enqueued(front)[k].id == id {
        assert Enqueued(log)[k].id == id;
      } else if e.Scheduled? && !Known(front, e.job.id) && e.job.id == id {
        assert Enqueued(log)[|Enqueued(front)|].id == id;
        assert log[..|front|] == front;
      }
      if i :| 0 <= i < |front| && front[i].Scheduled? && front[i].job.id == id && !Known(front[..i], id) {
        assert log[i].Scheduled? && !Known(log[..i], id);
      }
    }
  }

  // ---- Holders of an artifact ----

  /** One entry per completion, in the order of `artifactsMu`. */
  type Reports = seq<(Id, WorkerId)>

  function HoldersOf(reports: Reports, id: Id): seq<WorkerId> {
    if reports == [] then []
    else
      var front, last := reports[..|reports| - 1], reports[|reports| - 1];
      HoldersOf(front, id) + if last.0 == id then [last.1] else []
  }

  /** The completions of a history in the form of reports. */
  function Completers(log: Log): Reports {
    if log == [] then []
    else
      var front, e := log[..|log| - 1], log[|log| - 1];
      Completers(front) + if e.Completed? then [(e.job_id, e.worker)] else []
  }

  /** How many reports satisfy `q`. */
  function Count(reports: Reports, q: ((Id, WorkerId)) -> bool): nat {
    if reports == [] then 0
    else
      var front, last := reports[..|reports| - 1], reports[|reports| - 1];
      Count(front, q) + if q(last) then 1 else 0
  }

  lemma GrowCompleters(log: Log, e: Event)
    ensures Completers(log + [e]) == Completers(log) + if e.Completed? then [(e.job_id, e.worker)] else []
  {
    assert (log + [e])[..|log|] == log;
  }

  lemma GrowCount(reports: Reports, x: (Id, WorkerId), q: ((Id, WorkerId)) -> bool)
    ensures Count(reports + [x], q) == Count(reports, q) + if q(x) then 1 else 0
  {
    assert (reports + [x])[..|reports|] == reports;
  }

  function About(id: Id): ((Id, WorkerId)) -> bool {
    (x: (Id, WorkerId)) => x.0 == id
  }

  function Same(x: (Id, WorkerId)): ((Id, WorkerId)) -> bool {
    (y: (Id, WorkerId)) => y == x
  }

  lemma {:induction false} HoldersCount(reports: Reports, id: Id)
    ensures |HoldersOf(reports, id)| == Count(reports, About(id))
  {
    if reports != [] {
      HoldersCount(reports[..|reports| - 1], id);
    }
  }

  lemma {:induction false} HoldersMultiset(reports: Reports, id: Id, w: WorkerId)
    ensures multiset(HoldersOf(reports, id))[w] == Count(reports, Same((id, w)))
  {
    if reports != [] {
      HoldersMultiset(reports[..|reports| - 1], id, w);
    }
  }

  lemma {:induction false} CompletedOnceKnown(log: Log, id: Id)
    ensures FirstResult(log, id).Some? <==> HoldersOf(Completers(log), id) != []
  {
    if log != [] {
      var front, e := log[..|log| - 1], log[|log| - 1];
      CompletedOnceKnown(front, id);
      assert log == front + [e];
      GrowCompleters(front, e);
      if e.Completed? {
        ReportsGrow(Completers(front), e.job_id, e.worker);
      } else {
        assert Completers(front) + [] == Completers(front);
      }
    }
  }

  function LastFour(s: seq<WorkerId>): seq<WorkerId> {
    if |s| <= HOLDERS then s else s[|s| - HOLDERS..]
  }

  /** `append`, then drop the oldest if the length has become exactly five. */
  function Slide(s: seq<WorkerId>, w: WorkerId): seq<WorkerId> {
    if |s + [w]| == HOLDERS + 1 then (s + [w])[1..] else s + [w]
  }

  lemma SlideKeepsLastFour(s: seq<WorkerId>, w: WorkerId)
    ensures Slide(LastFour(s), w) == LastFour(s + [w])
  {
  }

  lemma ReportsGrow(reports: Reports, id: Id, w: WorkerId)
    ensures forall i :: HoldersOf(reports + [(id, w)], i) == HoldersOf(reports, i) + if i == id then [w] else []
  {
    assert (reports + [(id, w)])[..|reports|] == reports;
  }

  /** The table of holders after one more completion. */
  lemma HoldersSlide(artifacts: map<Id, seq<WorkerId>>, told: Reports, id: Id, w: WorkerId)
    requires forall i :: i in artifacts <==> HoldersOf(told, i) != []
    requires forall i <- artifacts :: artifacts[i] == LastFour(HoldersOf(told, i))
    ensures var after := artifacts[id := Slide(if id in artifacts then artifacts[id] else [], w)];
            && (forall i :: i in after <==> HoldersOf(told + [(id, w)], i) != [])
            && (forall i <- after :: after[i] == LastFour(HoldersOf(told + [(id, w)], i)))
  {
    var held := if id in artifacts then artifacts[id] else [];
    assert held == LastFour(HoldersOf(told, id));
    ReportsGrow(told, id, w);
    SlideKeepsLastFour(HoldersOf(told, id), w);
    forall i | i != id ensures HoldersOf(told + [(id, w)], i) == HoldersOf(told, i) {
      assert HoldersOf(told, i) + [] == HoldersOf(told, i);
    }
  }
}

/** `scheduler.Scheduler`: its maps, records and queue, proved against the history of its calls. */
module Scheduler {
  import opened Basics
  import opened SchedulerLog

  class PendingJob {
    const job: JobSpec
    var result: Option<JobResult>
    var finished: bool            // the channel `Finished` has been closed
    var isCloseFinished: bool

    constructor (job: JobSpec, result: Option<JobResult>)
      ensures this.job == job && this.result == result && !finished && !isCloseFinished
    {
      this.job, this.result, finished, isCloseFinished := job, result, false, false;
    }

    /** Only the first completion sets the result and closes the channel. */
    method Finish(res: Option<JobResult>)
      requires finished == isCloseFinished
      modifies this
      ensures finished && isCloseFinished
      ensures result == if old(finished) then old(result) else res
    {
      if !isCloseFinished {
        isCloseFinished := true;
        result := res;
        Close();
      }
    }

    /** Closing a channel twice would panic. */
    method Close()
      requires !finished
      modifies this`finished
      ensures finished
    {
      finished := true;
    }
  }

  class Scheduler {
    var stopped: bool
    var queue: seq<PendingJob>
    var jobs: map<Id, PendingJob>
    var artifacts: map<Id, seq<WorkerId>>

    /** The calls so far, the records ever pushed, and how many of them have been picked. */
    ghost var log: Log
    ghost var reports: Reports
    ghost var pushed: seq<PendingJob>
    ghost var picked: nat

    /** A record carries the first result of its job, and is finished exactly if there is one. */
    ghost predicate RecordOk(id: Id)
      requires id in jobs
      reads this`jobs, this`log, jobs.Values
    {
      var p := jobs[id];
      && p.job.id == id && p.finished == p.isCloseFinished == FirstResult(log, id).Some?
      && p.result == if p.finished then FirstResult(log, id).value else None
    }

    ghost predicate JobsInv()
      reads this`jobs, this`log, jobs.Values
    {
      && (forall id :: id in jobs <==> Known(log, id))
      && (forall id <- jobs :: RecordOk(id))
    }

    /** The queue is what has been pushed and not yet picked, in the order of the history. */
    ghost predicate QueueInv()
      reads this`jobs, this`log, this`queue, this`pushed, this`picked
    {
      && |pushed| == |Enqueued(log)| && picked <= |pushed|
      && (forall k :: 0 <= k < |pushed| ==>
            pushed[k].job == Enqueued(log)[k] && pushed[k].job.id in jobs && jobs[pushed[k].job.id] == pushed[k])
      && queue == pushed[picked..] && |queue| <= QUEUE_CAPACITY
    }

    ghost predicate HoldersInv()
      reads this`artifacts, this`reports
    {
      && (forall id :: id in artifacts <==> HoldersOf(reports, id) != [])
      && (forall id <- artifacts :: artifacts[id] == LastFour(HoldersOf(reports, id)))
    }

    ghost predicate Valid()
      reads this, jobs.Values
    {
      JobsInv() && QueueInv() && HoldersInv() && reports == Completers(log)
    }

    constructor ()
      ensures Valid() && !stopped && log == [] && reports == [] && picked == 0
    {
      stopped, queue, jobs, artifacts := false, [], map[], map[];
      log, reports, pushed, picked := [], [], [], 0;
    }

    method Stop()
      requires !stopped
      modifies this`stopped
      ensures stopped
    {
      stopped := true;
    }

    /** Scheduling a known job returns its record; a new one is queued. The caller would block on a full queue. */
    method ScheduleJob(job: JobSpec) returns (p: PendingJob)
      requires Valid() && !stopped && (job.id !in jobs ==> |queue| < QUEUE_CAPACITY)
      modifies this`queue, this`jobs, this`log, this`pushed
      ensures Valid() && log == old(log) + [Scheduled(job)]
      ensures job.id in jobs && p == jobs[job.id] && (job.id in old(jobs) ==> p == old(jobs)[job.id])
      ensures forall id <- old(jobs) :: id in jobs && jobs[id] == old(jobs)[id]
      ensures job.id !in old(jobs) ==> fresh(p) && queue == old(queue) + [p]
    {
      GrowCompleters(log, Scheduled(job));
      assert Completers(log) + [] == Completers(log);
      if job.id in jobs {
        p := jobs[job.id];
        Mention(job);
      } else {
        p := Push(job);
      }
    }

    /** A job that is known already: nothing but the history changes. */
    ghost method Mention(job: JobSpec)
      requires JobsInv() && QueueInv() && job.id in jobs
      modifies this`log
      ensures JobsInv() && QueueInv() && log == old(log) + [Scheduled(job)]
    {
      Grow(log, Scheduled(job));
      assert Enqueued(log) + [] == Enqueued(log);
      log := log + [Scheduled(job)];
      forall id <- jobs ensures RecordOk(id) {
        assert old(RecordOk(id));
      }
    }

    /** A job that nobody has mentioned yet. */
    method Push(job: JobSpec) returns (p: PendingJob)
      requires JobsInv() && QueueInv() && job.id !in jobs && |queue| < QUEUE_CAPACITY
      modifies this`queue, this`jobs, this`log, this`pushed
      ensures JobsInv() && QueueInv() && log == old(log) + [Scheduled(job)]
      ensures fresh(p) && queue == old(queue) + [p] && jobs == old(jobs)[job.id := p]
    {
      Grow(log, Scheduled(job));
      CompletedIsKnown(log, job.id);
      p := new PendingJob(job, None);
      queue := queue + [p];
      pushed := pushed + [p];
      jobs := jobs[job.id := p];
      log := log + [Scheduled(job)];
      forall id <- jobs ensures RecordOk(id) {
        assert id != job.id ==> old(RecordOk(id)) && jobs[id] == old(jobs)[id];
      }
    }

    /** Blocks until there is a job or the context is done; if both are, either may be taken. */
    method PickJob(cancelled: bool) returns (p: PendingJob?)
      requires Valid() && !stopped && (queue != [] || cancelled)
      modifies this`queue, this`picked
      ensures Valid()
      ensures p == null ==> cancelled && queue == old(queue) && picked == old(picked)
      ensures p != null ==> old(queue) == [p] + queue && picked == old(picked) + 1
      ensures p != null ==> p.job == Enqueued(log)[old(picked)]
    {
      if
      case queue != [] =>
        p := queue[0];
        queue, picked := queue[1..], picked + 1;
      case cancelled =>
        p := null;
    }

    /** The same without blocking; a cancelled context answers nil together with true. */
    method TryPickJob(cancelled: bool) returns (p: PendingJob?, ok: bool)
      requires Valid() && !stopped
      modifies this`queue, this`picked
      ensures Valid()
      ensures p != null ==> ok && old(queue) == [p] + queue && picked == old(picked) + 1
      ensures p != null ==> p.job == Enqueued(log)[old(picked)]
      ensures p == null ==> queue == old(queue) && picked == old(picked) && (ok <==> cancelled)
      ensures !ok ==> queue == []
    {
      p, ok := null, false;
      if
      case queue != [] =>
        p, ok := queue[0], true;
        queue, picked := queue[1..], picked + 1;
      case cancelled =>
        ok := true;
      case queue == [] && !cancelled =>
    }

    method OnJobComplete(worker: WorkerId, jobID: Id, res: Option<JobResult>) returns (known: bool)
      requires Valid() && !stopped
      modifies this`jobs, this`artifacts, this`log, this`reports, jobs.Values
      ensures Valid() && log == old(log) + [Completed(worker, jobID, res)]
      ensures reports == old(reports) + [(jobID, worker)]
      ensures known == Known(old(log), jobID)
      ensures jobID in jobs && jobs[jobID].finished
      ensures forall id <- old(jobs) :: id in jobs && jobs[id] == old(jobs)[id]
    {
      known := jobID in jobs;
      Complete(worker, jobID, res);
      GrowQueue(old(log), Completed(worker, jobID, res));
      GrowCompleters(old(log), Completed(worker, jobID, res));
      QueueKept();
      AddHolder(worker, jobID);
    }

    /** The part of `OnJobComplete` under `jobsMu`. */
    method Complete(worker: WorkerId, jobID: Id, res: Option<JobResult>)
      requires JobsInv()
      modifies this`jobs, this`log, jobs.Values
      ensures JobsInv() && log == old(log) + [Completed(worker, jobID, res)]
      ensures jobID in jobs && jobs[jobID].finished
      ensures forall id <- old(jobs) :: id in jobs && jobs[id] == old(jobs)[id]
    {
      Grow(log, Completed(worker, jobID, res));
      CompletedIsKnown(log, jobID);
      var p := RecordFor(jobID, res);
      log := log + [Completed(worker, jobID, res)];
      p.Finish(res);
      assert jobs[jobID] == p && RecordOk(jobID);
      forall id <- jobs | id != jobID ensures RecordOk(id) {
        assert jobs[id] == old(jobs)[id] && old(RecordOk(id)) && jobs[id] != p;
      }
    }

    /** The queue does not notice a completion. */
    twostate lemma QueueKept()
      requires old(QueueInv()) && queue == old(queue) && pushed == old(pushed) && picked == old(picked)
      requires Enqueued(log) == Enqueued(old(log)) && forall id <- old(jobs) :: id in jobs && jobs[id] == old(jobs)[id]
      ensures QueueInv()
    {
    }

    /** The record of a job, made on the spot if the job is unknown. */
    method RecordFor(jobID: Id, res: Option<JobResult>) returns (p: PendingJob)
      modifies this`jobs
      ensures jobID in old(jobs) ==> jobs == old(jobs) && p == jobs[jobID]
      ensures jobID !in old(jobs) ==>
                jobs == old(jobs)[jobID := p] && fresh(p) && p.job.id == jobID && !p.finished && !p.isCloseFinished
    {
      if jobID in jobs {
        return jobs[jobID];
      }
      p := new PendingJob(JobSpec(jobID, [], map[]), res);
      jobs := jobs[jobID := p];
    }

    /** The part under `artifactsMu`: the window of the last four holders slides. */
    method AddHolder(worker: WorkerId, jobID: Id)
      requires HoldersInv()
      modifies this`artifacts, this`reports
      ensures HoldersInv() && reports == old(reports) + [(jobID, worker)]
    {
      HoldersSlide(artifacts, reports, jobID, worker);
      reports := reports + [(jobID, worker)];
      var workers := if jobID in artifacts then artifacts[jobID] else [];
      workers := workers + [worker];
      if |workers| == HOLDERS + 1 {
        workers := workers[1..];
      }
      artifacts := artifacts[jobID := workers];
    }

    /** `pick` is the random number; any holder among the last four may be named. */
    method LocateArtifact(id: Id, pick: nat) returns (worker: WorkerId, ok: bool)
      requires Valid() && !stopped
      ensures ok <==> FirstResult(log, id).Some?
      ensures ok ==>
                var all := HoldersOf(Completers(log), id);
                worker in if |all| <= 4 then all else all[|all| - 4..]
    {
      CompletedOnceKnown(log, id);
      var workers := if id in artifacts then artifacts[id] else [];
      if |workers| == 0 {
        return WorkerId(""), false;
      }
      return workers[pick % |workers|], true;
    }
  }
}

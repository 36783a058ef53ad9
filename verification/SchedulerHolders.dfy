/** Who holds an artifact: what `LocateArtifact` can know, and when it lags behind a finished job. */
module SchedulerHolders {
  import opened Basics
  import opened SchedulerLog
  import opened SchedulerMachine
  import opened SchedulerProofs
  import opened SchedulerTheorems

  /** Heartbeats that have finished a job under `jobsMu` and have yet to record its holder. */
  function Recording(q: ((Id, WorkerId)) -> bool): Pc -> bool {
    (pc: Pc) => pc.BeatHolder? && q((pc.id, pc.worker))
  }

  /** Completions are either recorded or about to be, and nothing else is recorded. */
  ghost predicate Balanced(m: State, q: ((Id, WorkerId)) -> bool) {
    Count(Completers(m.log), q) == Count(m.told, q) + |Those(m.threads, Recording(q))|
  }

  lemma MoveView(m: State, t: nat, m': State)
    requires Moves(m, t, m')
    ensures t in m'.threads && m'.threads == m.threads[t := m'.threads[t]]
    ensures m'.threads[t].BeatHolder? ==>
              !m.threads[t].BeatHolder? && exists e: Event ::
                  e.Completed? && m'.log == m.log + [e]
                      && (e.job_id, e.worker) == (m'.threads[t].id, m'.threads[t].worker)
    ensures !m'.threads[t].BeatHolder? ==> m'.log == m.log || exists e: Event :: e.Scheduled? && m'.log == m.log + [e]
    ensures m'.told == if m.threads[t].BeatHolder? then m.told + [(m.threads[t].id, m.threads[t].worker)] else m.told
  {
    if m'.threads[t].BeatHolder? {
      var (id, res) := m.threads[t].reports[0];
      assert m'.log == m.log + [Completed(m.threads[t].worker, id, res)];
    }
    if m.threads[t].SchedStart? {
      assert m'.log == m.log + [Scheduled(m.threads[t].job)];
    }
  }

  lemma MoveBalance(m: State, t: nat, m': State, q: ((Id, WorkerId)) -> bool)
    requires Moves(m, t, m') && Balanced(m, q)
    ensures Balanced(m', q)
  {
    MoveView(m, t, m');
    ThoseMove(m.threads, t, m'.threads[t], Recording(q));
    if m'.log != m.log {
      var e :| m'.log == m.log + [e] && (e.Completed? <==> m'.threads[t].BeatHolder?)
               && (e.Completed? ==> (e.job_id, e.worker) == (m'.threads[t].id, m'.threads[t].worker));
      GrowCompleters(m.log, e);
      if e.Completed? {
        GrowCount(Completers(m.log), (e.job_id, e.worker), q);
      } else {
        assert Completers(m.log) + [] == Completers(m.log);
      }
    }
    if m.threads[t].BeatHolder? {
      GrowCount(m.told, (m.threads[t].id, m.threads[t].worker), q);
    }
  }

  lemma NextBalance(tr: seq<State>, i: nat, q: ((Id, WorkerId)) -> bool)
    requires Run(tr) && i + 1 < |tr| && Balanced(tr[i], q)
    ensures Balanced(tr[i + 1], q)
  {
    var m, m' := tr[i], tr[i + 1];
    assert Next(m, m');
    if t, pc :| Arrives(m, t, pc, m') {
      ThoseMove(m.threads, t, pc, Recording(q));
    } else {
      var t :| Moves(m, t, m');
      MoveBalance(m, t, m', q);
    }
  }

  lemma {:induction false} RunBalance(tr: seq<State>, i: nat, q: ((Id, WorkerId)) -> bool)
    requires Run(tr) && i < |tr|
    ensures Balanced(tr[i], q)
    decreases i
  {
    if i == 0 {
      assert Those(tr[0].threads, Recording(q)) == {};
    } else {
      RunBalance(tr, i - 1, q);
      NextBalance(tr, i - 1, q);
    }
  }

  /** The heartbeats between finishing job `id` and recording its holder. */
  function Late(m: State, id: Id): set<nat> {
    Those(m.threads, Recording(About(id)))
  }

  function Completions(m: State, id: Id): nat {
    |HoldersOf(Completers(m.log), id)|
  }

  /**
   Of the completions of a job, all but the late ones are recorded; the table holds the last four recorded.
   So a finished job has no holder exactly while all its completions are late.
   */
  lemma LastFourHolders(tr: seq<State>, i: nat, id: Id)
    requires Run(tr) && i < |tr|
    ensures var m := tr[i];
            && Completions(m, id) == |HoldersOf(m.told, id)| + |Late(m, id)|
            && (FirstResult(m.log, id).Some? <==> Completions(m, id) > 0)
            && (id in m.artifacts ==>
                  var all := HoldersOf(m.told, id);
                  m.artifacts[id] == (if |all| <= 4 then all else all[|all| - 4..]) != [])
            && (id in m.artifacts <==> |Late(m, id)| < Completions(m, id))
  {
    RunInv(tr, i);
    RunBalance(tr, i, About(id));
    HoldersCount(Completers(tr[i].log), id);
    HoldersCount(tr[i].told, id);
    CompletedOnceKnown(tr[i].log, id);
  }

  /** Once no completion is late, the recorded holders are the workers that completed the job, each as often. */
  lemma HoldersCatchUp(tr: seq<State>, i: nat, id: Id)
    requires Run(tr) && i < |tr| && Late(tr[i], id) == {}
    ensures multiset(HoldersOf(tr[i].told, id)) == multiset(HoldersOf(Completers(tr[i].log), id))
  {
    forall w ensures multiset(HoldersOf(tr[i].told, id))[w] == multiset(HoldersOf(Completers(tr[i].log), id))[w] {
      RunBalance(tr, i, Same((id, w)));
      HoldersMultiset(Completers(tr[i].log), id, w);
      HoldersMultiset(tr[i].told, id, w);
      forall t ensures t !in Those(tr[i].threads, Recording(Same((id, w)))) {
        assert t !in Late(tr[i], id);
      }
      assert Those(tr[i].threads, Recording(Same((id, w)))) == {};
    }
  }

  /**
   Late completions do occur: a job is scheduled, picked and reported; whoever waits for it is released,
   and at that moment `LocateArtifact` finds no holder of its artifact.
   */
  lemma FinishedWithoutHolder() returns (tr: seq<State>, rid: nat)
    ensures Run(tr)
    ensures var m, id := tr[|tr| - 1], Id(0);
            && id in m.jobs && m.jobs[id] == rid < |m.recs| && m.recs[rid].finished
            && m.picked <= |m.pushed| && rid in m.pushed[..m.picked]
            && id !in m.artifacts && HoldersOf(m.told, id) == []
  {
    var w := WorkerId("worker");
    tr := ScheduleNew([State(None, map[], [], [], map[], map[], [], [], [], 0)], 0, Id(0));
    rid := 0;
    tr := BeatMoves(tr, 1, Beat(w, 1, []));
    assert tr[|tr| - 1].pushed[..1][0] == rid;
    tr := BeatMoves(tr, 2, Beat(w, 1, [(Id(0), Some(JobResult(Id(0), 0, None)))]));
  }
}

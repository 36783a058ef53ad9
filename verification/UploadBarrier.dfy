/**
 The upload fan-out of `Client.Build`: one goroutine per missing file, one buffered channel, and a loop
 that receives as many messages as there are files before it signals that the upload is done.

 A goroutine whose upload fails sends its error and then, as there is no return, a nil as well.
 */
module UploadBarrier {
  import opened Runs

  /** The channel carries errors and nils; the model remembers who sent them. */
  datatype Msg = Err(sender: nat) | Nil(sender: nat)

  datatype SenderPc = NotStarted | Uploading | SendErr | SendNil | Exited

  datatype MainPc = Launch(k: nat) | Collect | Signalled | Failed

  /** `taken` is what the main goroutine has received so far. */
  datatype State = State(main: MainPc, senders: seq<SenderPc>, chan: seq<Msg>, taken: seq<Msg>, uploaded: set<nat>)

  datatype Action =
    | Spawn                      // the file is there and regular
    | GiveUp                     // it is not
    | Upload(i: nat, ok: bool)
    | Send(i: nat)
    | Receive
    | Signal

  /** One sender and one buffer slot per missing file. */
  function Files(m: State): nat {
    |m.senders|
  }

  predicate Init(m: State) {
    && m.main == Launch(0) && m.chan == [] && m.taken == [] && m.uploaded == {}
    && forall i :: 0 <= i < Files(m) ==> m.senders[i] == NotStarted
  }

  predicate Enabled(m: State, a: Action) {
    match a
    case Spawn => m.main.Launch? && m.main.k < Files(m)
    case GiveUp => m.main.Launch? && m.main.k < Files(m)
    case Upload(i, _) => i < Files(m) && m.senders[i] == Uploading
    case Send(i) => i < Files(m) && (m.senders[i] == SendErr || m.senders[i] == SendNil) && |m.chan| < Files(m)
    case Receive => Collecting(m) && |m.taken| < Files(m) && m.chan != []
    case Signal => Collecting(m) && |m.taken| == Files(m)
  }

  predicate Collecting(m: State) {
    m.main == Collect || (m.main.Launch? && m.main.k == Files(m))
  }

  function Apply(m: State, a: Action): State
    requires Enabled(m, a)
  {
    match a
    case Spawn => m.(main := Launch(m.main.k + 1), senders := m.senders[m.main.k := Uploading])
    case GiveUp => m.(main := Failed)
    case Upload(i, ok) =>
      m.(senders := m.senders[i := if ok then SendNil else SendErr],
          uploaded := if ok then m.uploaded + {i} else m.uploaded)
    case Send(i) =>
      if m.senders[i] == SendErr then m.(senders := m.senders[i := SendNil], chan := m.chan + [Err(i)])
      else m.(senders := m.senders[i := Exited], chan := m.chan + [Nil(i)])
    case Receive =>
      m.(main := if m.chan[0].Err? then Failed else Collect, chan := m.chan[1..], taken := m.taken + [m.chan[0]])
    case Signal => m.(main := Signalled)
  }

  predicate Step(m: State, a: Action, m': State) {
    Enabled(m, a) && m' == Apply(m, a)
  }

  ghost predicate Next(m: State, m': State) {
    exists a :: Step(m, a, m')
  }

  ghost predicate Run(tr: seq<State>) {
    && |tr| > 0 && Init(tr[0])
    && forall i :: 0 <= i < |tr| - 1 ==> Next(tr[i], tr[i + 1])
  }

  // ---- Invariant ----

  /** Everything ever sent, in the order of the channel. */
  function Traffic(m: State): seq<Msg> {
    m.taken + m.chan
  }

  /** Nothing is sent twice; a nil comes last, and after the error of an upload that failed. */
  ghost predicate TrafficInv(senders: seq<SenderPc>, uploaded: set<nat>, traffic: seq<Msg>) {
    && (forall p, q :: 0 <= p < q < |traffic| ==> traffic[p] != traffic[q])
    && (forall p :: 0 <= p < |traffic| ==> MsgOk(senders, uploaded, traffic, p))
    && (forall i :: 0 <= i < |senders| ==> SenderOk(senders[i], i, uploaded, traffic))
  }

  ghost predicate MsgOk(senders: seq<SenderPc>, uploaded: set<nat>, traffic: seq<Msg>, p: nat)
    requires p < |traffic|
  {
    var i := traffic[p].sender;
    && i < |senders|
    && match traffic[p]
       case Err(_) => i !in uploaded && (senders[i] == SendNil || senders[i] == Exited)
       case Nil(_) => senders[i] == Exited && (i in uploaded || Err(i) in traffic[..p])
  }

  predicate SenderOk(pc: SenderPc, i: nat, uploaded: set<nat>, traffic: seq<Msg>) {
    match pc
    case NotStarted => i !in uploaded
    case Uploading => i !in uploaded
    case SendErr => i !in uploaded
    case SendNil => i in uploaded || Err(i) in traffic
    case Exited => Nil(i) in traffic
  }

  ghost predicate MainInv(m: State) {
    && |m.chan| <= Files(m) && |m.taken| <= Files(m)
    && (m.main != Failed ==> forall p :: 0 <= p < |m.taken| ==> m.taken[p].Nil?)
    && (m.main.Launch? ==> m.main.k <= Files(m) && m.taken == []
                           && forall i :: 0 <= i < Files(m) ==> (m.senders[i] == NotStarted <==> m.main.k <= i))
    && (m.main == Collect || m.main == Signalled ==> forall i :: 0 <= i < Files(m) ==> m.senders[i] != NotStarted)
    && (m.main == Signalled ==> |m.taken| == Files(m))
  }

  ghost predicate Inv(m: State) {
    TrafficInv(m.senders, m.uploaded, Traffic(m)) && MainInv(m)
  }

  lemma SendTraffic(senders: seq<SenderPc>, uploaded: set<nat>, traffic: seq<Msg>, i: nat)
    requires TrafficInv(senders, uploaded, traffic)
    requires i < |senders| && (senders[i] == SendErr || senders[i] == SendNil)
    ensures var err := senders[i] == SendErr;
            TrafficInv(senders[i := if err then SendNil else Exited], uploaded,
                traffic + [if err then Err(i) else Nil(i)])
  {
    var err := senders[i] == SendErr;
    var msg := if err then Err(i) else Nil(i);
    var senders', traffic' := senders[i := if err then SendNil else Exited], traffic + [msg];
    assert traffic'[|traffic|] == msg && traffic'[..|traffic|] == traffic;
    forall p | 0 <= p < |traffic| ensures traffic[p] != msg && MsgOk(senders', uploaded, traffic', p) {
      assert MsgOk(senders, uploaded, traffic, p) && traffic'[..p] == traffic[..p] && traffic'[p] == traffic[p];
    }
    forall j | 0 <= j < |senders'| ensures SenderOk(senders'[j], j, uploaded, traffic') {
      assert SenderOk(senders[j], j, uploaded, traffic);
    }
  }

  lemma SenderStepKept(m: State, i: nat, pc: SenderPc, uploaded: set<nat>)
    requires TrafficInv(m.senders, m.uploaded, Traffic(m)) && i < Files(m)
    requires m.senders[i] == NotStarted || m.senders[i] == Uploading
    requires SenderOk(pc, i, uploaded, Traffic(m)) && pc != Exited && m.uploaded <= uploaded <= m.uploaded + {i}
    ensures TrafficInv(m.senders[i := pc], uploaded, Traffic(m))
  {
    var senders' := m.senders[i := pc];
    forall p | 0 <= p < |Traffic(m)| ensures MsgOk(senders', uploaded, Traffic(m), p) {
      assert MsgOk(m.senders, m.uploaded, Traffic(m), p);
    }
    forall j | 0 <= j < |senders'| ensures SenderOk(senders'[j], j, uploaded, Traffic(m)) {
      assert SenderOk(m.senders[j], j, m.uploaded, Traffic(m));
    }
  }

  lemma StepInv(m: State, a: Action, m': State)
    requires Inv(m) && Step(m, a, m')
    ensures Inv(m')
  {
    match a
    case Spawn => SenderStepKept(m, m.main.k, Uploading, m.uploaded);
    case Upload(i, ok) => SenderStepKept(m, i, if ok then SendNil else SendErr, m'.uploaded);
    case Send(i) =>
      SendTraffic(m.senders, m.uploaded, Traffic(m), i);
      assert Traffic(m') == Traffic(m) + [if m.senders[i] == SendErr then Err(i) else Nil(i)];
    case Receive =>
      assert Traffic(m') == Traffic(m);
    case _ =>
  }

  lemma InitInv(m: State)
    requires Init(m)
    ensures Inv(m)
  {
    assert Traffic(m) == [];
  }

  lemma NextInv(m: State, m': State)
    requires Inv(m) && Next(m, m')
    ensures Inv(m') && Files(m') == Files(m)
  {
    var a :| Step(m, a, m');
    StepInv(m, a, m');
  }

  lemma {:induction false} RunInv(tr: seq<State>, i: nat)
    requires Run(tr) && i < |tr|
    ensures Inv(tr[i])
  {
    if i == 0 {
      InitInv(tr[0]);
    } else {
      RunInv(tr, i - 1);
      assert Next(tr[i - 1], tr[i - 1 + 1]);
      NextInv(tr[i - 1], tr[i]);
    }
  }

  // ---- Counting ----

  function Senders(msgs: seq<Msg>): set<nat> {
    set p | 0 <= p < |msgs| :: msgs[p].sender
  }

  /** As many different nils as there are messages. */
  lemma {:induction false} NilsCount(msgs: seq<Msg>)
    requires forall p :: 0 <= p < |msgs| ==> msgs[p].Nil?
    requires forall p, q :: 0 <= p < q < |msgs| ==> msgs[p] != msgs[q]
    ensures |Senders(msgs)| == |msgs|
  {
    if msgs != [] {
      var front, last := msgs[..|msgs| - 1], msgs[|msgs| - 1];
      NilsCount(front);
      assert Senders(msgs) == Senders(front) + {last.sender};
      forall p | 0 <= p < |front| ensures front[p].sender != last.sender {
        assert msgs[p] != last;
      }
    }
  }

  function Range(n: nat): (s: set<nat>)
    ensures |s| == n && forall i :: i in s <==> 0 <= i < n
  {
    if n == 0 then {} else Range(n - 1) + {n - 1}
  }

  lemma FullSubset(a: set<nat>, b: set<nat>)
    requires a <= b
    ensures |a| <= |b| && (|a| == |b| ==> a == b)
  {
    assert b == a + (b - a);
  }

  /** If all that has been received are nils, and as many as there are files, every upload succeeded. */
  lemma EnoughNils(m: State)
    requires Inv(m) && |m.taken| == Files(m) && forall p :: 0 <= p < |m.taken| ==> m.taken[p].Nil?
    ensures forall i :: 0 <= i < Files(m) ==> i in m.uploaded
  {
    assert forall p :: 0 <= p < |m.taken| ==> Traffic(m)[p] == m.taken[p];
    NilsCount(m.taken);
    forall i <- Senders(m.taken) ensures i < Files(m) && i in m.uploaded {
      var p :| 0 <= p < |m.taken| && m.taken[p].sender == i;
      assert MsgOk(m.senders, m.uploaded, Traffic(m), p);
      assert Traffic(m)[..p] == m.taken[..p];
    }
    FullSubset(Senders(m.taken), Range(Files(m)));
  }

  /** The build is signalled only if every missing file has been uploaded, in every interleaving. */
  lemma SignalMeansUploaded(tr: seq<State>, i: nat)
    requires Run(tr) && i < |tr| && tr[i].main == Signalled
    ensures forall f :: 0 <= f < Files(tr[i]) ==> f in tr[i].uploaded
  {
    RunInv(tr, i);
    EnoughNils(tr[i]);
  }

  /** Conversely it is not given up while collecting unless an upload failed. */
  lemma FailureMeansError(m: State, m': State)
    requires Inv(m) && Step(m, Receive, m') && m'.main == Failed
    ensures exists f :: 0 <= f < Files(m) && f !in m.uploaded && m.senders[f] != Uploading && m.senders[f] != NotStarted
  {
    var p := |m.taken|;
    assert Traffic(m)[p] == m.chan[0];
    assert MsgOk(m.senders, m.uploaded, Traffic(m), p);
    assert m.chan[0].sender !in m.uploaded;
  }

  // ---- Progress ----

  /** While it collects, the main goroutine never waits for a message that nobody will send. */
  lemma ReceivesNeverDeadlock(m: State)
    requires Inv(m) && Collecting(m)
    ensures Enabled(m, Signal) || Enabled(m, Receive) || exists i :: Enabled(m, Send(i)) || Enabled(m, Upload(i, true))
  {
    if |m.taken| < Files(m) && m.chan == [] {
      if forall i :: 0 <= i < Files(m) ==> m.senders[i] == Exited {
        TooFewMessages(m);
      } else {
        var i :| 0 <= i < Files(m) && m.senders[i] != Exited;
        assert Enabled(m, Send(i)) || Enabled(m, Upload(i, true));
      }
    }
  }

  /** Goroutines that are all over have sent at least one message each. */
  lemma TooFewMessages(m: State)
    requires Inv(m) && m.chan == [] && forall i :: 0 <= i < Files(m) ==> m.senders[i] == Exited
    ensures |m.taken| >= Files(m)
  {
    assert Traffic(m) == m.taken;
    forall i <- Range(Files(m)) ensures i in Senders(m.taken) {
      assert SenderOk(m.senders[i], i, m.uploaded, m.taken);
      var p :| 0 <= p < |m.taken| && m.taken[p] == Nil(i);
    }
    FullSubset(Range(Files(m)), Senders(m.taken));
    SendersBound(m.taken);
  }

  lemma {:induction false} SendersBound(msgs: seq<Msg>)
    ensures |Senders(msgs)| <= |msgs|
  {
    if msgs != [] {
      var front, last := msgs[..|msgs| - 1], msgs[|msgs| - 1];
      SendersBound(front);
      assert Senders(msgs) == Senders(front) + {last.sender};
    }
  }

  function Work(senders: seq<SenderPc>): nat {
    if senders == [] then 0 else Weight(senders[0]) + Work(senders[1..])
  }

  function Weight(pc: SenderPc): nat {
    match pc
    case NotStarted => 8
    case Uploading => 6
    case SendErr => 4
    case SendNil => 2
    case Exited => 0
  }

  /** Every step uses up some of the work that is left, so collecting ends after finitely many steps. */
  function Remaining(m: State): nat {
    Work(m.senders) + |m.chan| + match m.main
                                 case Launch(_) => 1
                                 case Collect => 1
                                 case _ => 0
  }

  lemma {:induction false} WorkAfter(senders: seq<SenderPc>, i: nat, pc: SenderPc)
    requires i < |senders|
    ensures Work(senders[i := pc]) == Work(senders) - Weight(senders[i]) + Weight(pc)
  {
    if i == 0 {
      assert senders[0 := pc][1..] == senders[1..];
    } else {
      WorkAfter(senders[1..], i - 1, pc);
      assert senders[i := pc][1..] == senders[1..][i - 1 := pc];
    }
  }

  lemma StepsUseUpWork(m: State, a: Action, m': State)
    requires Inv(m) && Step(m, a, m')
    ensures Remaining(m') < Remaining(m)
  {
    match a
    case Spawn => WorkAfter(m.senders, m.main.k, Uploading);
    case Upload(i, ok) => WorkAfter(m.senders, i, if ok then SendNil else SendErr);
    case Send(i) => WorkAfter(m.senders, i, if m.senders[i] == SendErr then SendNil else Exited);
    case _ =>
  }

  // ---- How the fan-out ends ----

  /** Some file is not uploaded and will not be: its goroutine has failed, or was never started. */
  ghost predicate Missing(m: State) {
    exists f :: 0 <= f < Files(m) && f !in m.uploaded && m.senders[f] != Uploading
  }

  ghost predicate EndInv(m: State) {
    m.main == Failed ==> Missing(m)
  }

  lemma StepEnd(m: State, a: Action, m': State)
    requires Inv(m) && EndInv(m) && Step(m, a, m')
    ensures EndInv(m')
  {
    if m.main == Failed {
      var f :| 0 <= f < Files(m) && f !in m.uploaded && m.senders[f] != Uploading;
      assert f !in m'.uploaded && m'.senders[f] != Uploading;
    } else if a == Receive && m'.main == Failed {
      FailureMeansError(m, m');
    } else if a == GiveUp {
      var f := m.main.k;
      assert SenderOk(m.senders[f], f, m.uploaded, Traffic(m));
      assert f !in m'.uploaded && m'.senders[f] == NotStarted;
    }
  }

  lemma NextEnd(m: State, m': State)
    requires Inv(m) && EndInv(m) && Next(m, m')
    ensures EndInv(m')
  {
    var a :| Step(m, a, m');
    StepEnd(m, a, m');
  }

  lemma {:induction false} RunEnd(tr: seq<State>, i: nat)
    requires Run(tr) && i < |tr|
    ensures EndInv(tr[i])
  {
    if i > 0 {
      RunEnd(tr, i - 1);
      RunInv(tr, i - 1);
      NextEnd(tr[i - 1], tr[i]);
    }
  }

  /** In every state: the build is given up only if some file has not been uploaded. */
  lemma FailedMeansMissing(tr: seq<State>, i: nat)
    requires Run(tr) && i < |tr| && tr[i].main == Failed
    ensures exists f :: 0 <= f < Files(tr[i]) && f !in tr[i].uploaded
  {
    RunEnd(tr, i);
  }

  /**
   When nothing can move any more, the build has been signalled if and only if every file has been
   launched and uploaded, and otherwise it has been given up.
   */
  lemma SignalledIff(tr: seq<State>, i: nat)
    requires Run(tr) && i < |tr| && forall a :: !Enabled(tr[i], a)
    ensures tr[i].main == Signalled || tr[i].main == Failed
    ensures tr[i].main == Signalled <==>
              forall f :: 0 <= f < Files(tr[i]) ==> tr[i].senders[f] != NotStarted && f in tr[i].uploaded
  {
    RunInv(tr, i);
    RunEnd(tr, i);
    var m := tr[i];
    assert !Enabled(m, Spawn) && !Enabled(m, Signal) && !Enabled(m, Receive);
    if Collecting(m) {
      ReceivesNeverDeadlock(m);
    }
    if m.main == Signalled {
      SignalMeansUploaded(tr, i);
    }
  }

  // ---- Senders that are left behind ----

  /** How many messages a goroutine has sent, given whether its upload succeeded. */
  function Sent(pc: SenderPc, ok: bool): nat {
    match pc
    case Exited => if ok then 1 else 2
    case SendNil => if ok then 0 else 1
    case _ => 0
  }

  function Total(senders: seq<SenderPc>, uploaded: set<nat>): nat {
    if senders == [] then 0
    else
      var front, i := senders[..|senders| - 1], |senders| - 1;
      Total(front, uploaded) + Sent(senders[i], i in uploaded)
  }

  function Launched(senders: seq<SenderPc>): nat {
    if senders == [] then 0
    else Launched(senders[..|senders| - 1]) + if senders[|senders| - 1] == NotStarted then 0 else 1
  }

  /** Goroutines whose upload has failed, or is not over. */
  function Failures(senders: seq<SenderPc>, uploaded: set<nat>): nat {
    if senders == [] then 0
    else
      var front, i := senders[..|senders| - 1], |senders| - 1;
      Failures(front, uploaded) + if senders[i] != NotStarted && i !in uploaded then 1 else 0
  }

  lemma {:induction false} TotalMove(senders: seq<SenderPc>, uploaded: set<nat>, i: nat, pc: SenderPc,
        uploaded': set<nat>)
    requires i < |senders| && forall k: nat :: k != i ==> (k in uploaded' <==> k in uploaded)
    ensures Total(senders[i := pc], uploaded') ==
              Total(senders, uploaded) - Sent(senders[i], i in uploaded) + Sent(pc, i in uploaded')
  {
    var n := |senders| - 1;
    if i == n {
      assert senders[i := pc][..n] == senders[..n];
      TotalKept(senders[..n], uploaded, uploaded');
    } else {
      assert senders[i := pc][..n] == senders[..n][i := pc];
      TotalMove(senders[..n], uploaded, i, pc, uploaded');
    }
  }

  lemma {:induction false} TotalKept(senders: seq<SenderPc>, uploaded: set<nat>, uploaded': set<nat>)
    requires forall k :: 0 <= k < |senders| ==> (k in uploaded' <==> k in uploaded)
    ensures Total(senders, uploaded') == Total(senders, uploaded)
  {
    if senders != [] {
      TotalKept(senders[..|senders| - 1], uploaded, uploaded');
    }
  }

  /** All that was sent is in the channel or received; and nothing is received before all are launched. */
  ghost predicate CountInv(m: State) {
    && |Traffic(m)| == Total(m.senders, m.uploaded)
    && (m.taken != [] ==> forall i :: 0 <= i < Files(m) ==> m.senders[i] != NotStarted)
  }

  lemma StepCount(m: State, a: Action, m': State)
    requires Inv(m) && CountInv(m) && Step(m, a, m')
    ensures CountInv(m')
  {
    match a
    case Spawn => TotalMove(m.senders, m.uploaded, m.main.k, Uploading, m.uploaded);
    case Upload(i, ok) => TotalMove(m.senders, m.uploaded, i, m'.senders[i], m'.uploaded);
    case Send(i) =>
      SendsRight(m, i);
      TotalMove(m.senders, m.uploaded, i, m'.senders[i], m.uploaded);
    case _ =>
  }

  /** A goroutine that is about to send its error has not uploaded its file. */
  lemma SendsRight(m: State, i: nat)
    requires Inv(m) && i < Files(m)
    ensures m.senders[i] == SendErr ==> i !in m.uploaded
  {
    assert SenderOk(m.senders[i], i, m.uploaded, Traffic(m));
  }

  lemma {:induction false} NothingSent(senders: seq<SenderPc>)
    requires forall i :: 0 <= i < |senders| ==> senders[i] == NotStarted
    ensures Total(senders, {}) == 0
  {
    if senders != [] {
      NothingSent(senders[..|senders| - 1]);
    }
  }

  lemma {:induction false} RunCount(tr: seq<State>, i: nat)
    requires Run(tr) && i < |tr|
    ensures CountInv(tr[i])
  {
    if i == 0 {
      NothingSent(tr[0].senders);
    } else {
      RunCount(tr, i - 1);
      RunInv(tr, i - 1);
      assert Next(tr[i - 1], tr[i - 1 + 1]);
      var a :| Step(tr[i - 1], a, tr[i]);
      StepCount(tr[i - 1], a, tr[i]);
    }
  }

  predicate Blocked(pc: SenderPc) {
    pc == SendErr || pc == SendNil
  }

  /** Goroutines that are over have sent one message, and one more after a failure; blocked ones fewer. */
  lemma {:induction false} DueMessages(senders: seq<SenderPc>, uploaded: set<nat>)
    requires forall i :: 0 <= i < |senders| ==> senders[i] != Uploading && (senders[i] == SendErr ==> i !in uploaded)
    ensures Total(senders, uploaded) <= Launched(senders) + Failures(senders, uploaded)
    ensures Total(senders, uploaded) == Launched(senders) + Failures(senders, uploaded) <==>
            forall i :: 0 <= i < |senders| ==> !Blocked(senders[i])
  {
    if senders != [] {
      var front := senders[..|senders| - 1];
      DueMessages(front, uploaded);
      assert (forall i :: 0 <= i < |senders| ==> !Blocked(senders[i])) <==>
             (forall i :: 0 <= i < |front| ==> !Blocked(front[i])) && !Blocked(senders[|senders| - 1]);
    }
  }

  lemma {:induction false} AllLaunched(senders: seq<SenderPc>)
    requires forall i :: 0 <= i < |senders| ==> senders[i] != NotStarted
    ensures Launched(senders) == |senders|
  {
    if senders != [] {
      AllLaunched(senders[..|senders| - 1]);
    }
  }

  /**
   When the build has been given up and nothing moves any more, some goroutine is blocked on the full
   channel for ever if and only if more messages were due than the channel holds and the loop has received:
   after an early return from the loop, exactly if more uploads have failed than messages were received.
   */
  lemma SendersLeftIff(tr: seq<State>, i: nat)
    requires Run(tr) && i < |tr| && tr[i].main == Failed && forall a :: !Enabled(tr[i], a)
    ensures var m := tr[i];
            (exists s :: 0 <= s < Files(m) && Blocked(m.senders[s])) <==>
            Launched(m.senders) + Failures(m.senders, m.uploaded) > Files(m) + |m.taken|
    ensures var m := tr[i];
            m.taken != [] ==> ((exists s :: 0 <= s < Files(m) && Blocked(m.senders[s])) <==>
                Failures(m.senders, m.uploaded) > |m.taken|)
  {
    RunInv(tr, i);
    RunCount(tr, i);
    var m := tr[i];
    forall s | 0 <= s < Files(m) ensures m.senders[s] != Uploading && (m.senders[s] == SendErr ==> s !in m.uploaded) {
      assert !Enabled(m, Upload(s, true));
      SendsRight(m, s);
    }
    DueMessages(m.senders, m.uploaded);
    if s :| 0 <= s < Files(m) && Blocked(m.senders[s]) {
      assert !Enabled(m, Send(s));
    }
    if m.taken != [] {
      AllLaunched(m.senders);
    }
  }

  lemma Extend(tr: seq<State>, a: Action) returns (tr': seq<State>)
    requires Run(tr) && Enabled(tr[|tr| - 1], a)
    ensures Run(tr') && tr'[|tr'| - 1] == Apply(tr[|tr| - 1], a)
  {
    var m := Apply(tr[|tr| - 1], a);
    assert Step(tr[|tr| - 1], a, m) && Next(tr[|tr| - 1], m);
    LinkOne(tr, m, (a, b) => Next(a, b));
    tr' := tr + [m];
  }

  lemma {:induction false} LaunchedUpTo(files: nat, k: nat) returns (tr: seq<State>)
    requires k <= files
    ensures Run(tr)
    ensures tr[|tr| - 1] == State(Launch(k), seq(files, i => if i < k then Uploading else NotStarted), [], [], {})
  {
    if k == 0 {
      tr := [State(Launch(0), seq(files, i => NotStarted), [], [], {})];
    } else {
      tr := LaunchedUpTo(files, k - 1);
      tr := Extend(tr, Spawn);
    }
  }

  /** Any file may turn out to be missing or irregular; the build is given up there, and the earlier uploads go on. */
  lemma GivenUpAt(files: nat, k: nat) returns (tr: seq<State>)
    requires k < files
    ensures Run(tr)
    ensures tr[|tr| - 1] == State(Failed, seq(files, i => if i < k then Uploading else NotStarted), [], [], {})
  {
    tr := LaunchedUpTo(files, k);
    tr := Extend(tr, GiveUp);
  }

  /** Two uploads fail; the loop returns at the first error, and the second goroutine never gets rid of its nil. */
  lemma SenderLeft() returns (tr: seq<State>)
    ensures Run(tr)
    ensures var m := tr[|tr| - 1];
            m.main == Failed && m.senders == [Exited, SendNil] && |m.chan| == Files(m) && forall a :: !Enabled(m, a)
  {
    tr := [State(Launch(0), [NotStarted, NotStarted], [], [], {})];
    tr := Extend(tr, Spawn);
    tr := Extend(tr, Spawn);
    tr := Extend(tr, Upload(0, false));
    tr := Extend(tr, Upload(1, false));
    assert tr[|tr| - 1] == State(Launch(2), [SendErr, SendErr], [], [], {});
    tr := Extend(tr, Send(0));
    tr := Extend(tr, Receive);
    assert tr[|tr| - 1] == State(Failed, [SendNil, SendErr], [], [Err(0)], {});
    tr := Extend(tr, Send(0));
    tr := Extend(tr, Send(1));
    assert tr[|tr| - 1] == State(Failed, [Exited, SendNil], [Nil(0), Err(1)], [Err(0)], {});
  }

  // ---- The receiving loop ----

  /** The loop over the messages in the order in which the channel delivers them. */
  method CollectErrors(files: nat, arriving: seq<Msg>) returns (err: bool, received: nat)
    requires |arriving| >= files
    ensures received <= files && (!err ==> received == files)
    ensures !err <==> forall p :: 0 <= p < files ==> arriving[p].Nil?
    ensures err ==> received > 0 && arriving[received - 1].Err? && forall p :: 0 <= p < received - 1 ==>
              arriving[p].Nil?
  {
    received := 0;
    while received < files
      invariant received <= files
      invariant forall p :: 0 <= p < received ==> arriving[p].Nil?
    {
      received := received + 1;
      if arriving[received - 1].Err? {
        return true, received;
      }
    }
    err := false;
  }
}

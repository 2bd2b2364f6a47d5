/** The centralized protocol detects termination: once work has stopped, acknowledgements flow back to the center. */
module CentralizedDetection {
  import opened Common
  import opened TerminationDetection
  import opened Centralized
  import opened CentralizedInvariant
  import opened CentralizedRuns
  import H = Handoff

  /** No worker works and no task is in flight, but the center still serves. */
  ghost predicate Still(s: State) {
    s.center == Serving && forall w | 0 <= w < |s.workers| :: Rests(s.workers[w])
  }

  /** Nor is any task queued. */
  ghost predicate Resting(s: State) {
    Still(s) && s.queue == multiset{}
  }

  predicate Rests(x: Worker) {
    !x.phase.Working? && Tasks(x.inbox) == 0 && Tasks(x.outbox) == 0
  }

  /** The receipts the center and idle workers perform on their own. */
  predicate Delivery(a: Action) {
    a.WorkerAck? || a.TakeReport? || a.TakeAck?
  }

  /* ---------- something always arrives ---------- */

  /** Without tasks on the links the seed has been taken, so the center is in its loop. */
  lemma SeedIsTaken(s: State)
    requires Still(s)
    ensures SeedTaken(s)
  {
    if s.workers != [] {
      assert Rests(s.workers[0]);
      NoneOf(s.workers[0].inbox);
    }
  }

  /** A worker that owes something has an acknowledgement coming, or sends one or a report. */
  lemma WorkerDelivers(s: State, w: nat) returns (a: Action)
    requires Inv(s) && Still(s) && w < |s.workers| && Owed(s.workers[w]) > 0
    ensures Delivery(a) && Enabled(s, a)
  {
    hide WorkerOk, Rests, Owed, Accounts, Conserved, SeedTaken;
    var x := s.workers[w];
    assert WorkerOk(x, true);
    SeedIsTaken(s);
    OnTheLink(x);
    a := if x.outbox == [] then WorkerAck(w) else if x.outbox[0] == Ack then TakeAck(w) else TakeReport(w);
  }

  lemma OnTheLink(x: Worker)
    requires WorkerOk(x, true) && Rests(x) && Owed(x) > 0
    ensures
      if x.outbox != [] then x.outbox[0] in {Ack, Running, Available}
      else x.phase == Idle && Head(x.inbox) == Some(Ack)
  {
    hide H.Inv, H.Idle, Tasks, Acks, Reports, Bundles, TrailOk, Tokens, ReportsOk;
    NoneOf(x.inbox);
    NoneOf(x.outbox);
    if x.outbox != [] {
      assert x.outbox[0] in x.outbox;
    } else {
      EmptyLink(x.outbox, []);
      assert x.inbox != [] && x.inbox[0] in x.inbox;
    }
  }

  /** While the center waits for an acknowledgement, some receipt is enabled. */
  lemma SomethingArrives(s: State) returns (a: Action)
    requires Inv(s) && Still(s) && s.det.deficit != 0
    ensures Delivery(a) && Enabled(s, a)
  {
    hide Owed;
    var f := (w: nat) => OwedAt(s, w);
    SumNonNegative(|s.workers|, f);
    var w := SumPositive(|s.workers|, f);
    a := WorkerDelivers(s, w);
  }

  /** Whatever the queue holds, the center never waits in vain: something arrives, or queued tasks can be dispatched. */
  lemma SomethingGoesOn(s: State) returns (a: Action)
    requires Inv(s) && Still(s)
    ensures Enabled(s, a) && if s.det.deficit != 0 then Delivery(a) else a.Dispatch? && a.bundle in s.queue
  {
    hide Accounts, Conserved, WorkersOk;
    if s.det.deficit != 0 {
      a := SomethingArrives(s);
    } else {
      var b :| b in s.queue;
      NeverStuck(s, 0, b);
      a := Dispatch(0, b);
    }
  }

  /* ---------- each receipt comes closer ---------- */

  /** Messages on the worker's link, and twice whether it is engaged. */
  function Distance(x: Worker): nat {
    |x.inbox| + |x.outbox| + if Engaged(x) then 2 else 0
  }

  function DistanceAt(s: State, w: nat): int {
    if w < |s.workers| then Distance(s.workers[w]) else 0
  }

  ghost function Measure(s: State): int {
    Sum(|s.workers|, (w: nat) => DistanceAt(s, w))
  }

  lemma MeasureNonNegative(s: State)
    ensures Measure(s) >= 0
  {
    SumNonNegative(|s.workers|, (w: nat) => DistanceAt(s, w));
  }

  lemma MeasureMoves(s: State, s': State, w: nat)
    requires OneChanged(s, s', w) && Distance(s'.workers[w]) < Distance(s.workers[w])
    ensures Measure(s') < Measure(s)
  {
    hide Distance;
    SumOne(|s.workers|, (q: nat) => DistanceAt(s, q), (q: nat) => DistanceAt(s', q), w);
  }

  /** An acknowledgement at an idle worker, and the one it may pass on. */
  lemma AckedCloser(x: Worker)
    requires Rests(x) && x.inbox != [] && x.inbox[0] == Ack && (x.det.parent == NO_PARENT || x.det.parent == CENTER)
    ensures Rests(Acked(x)) && Distance(Acked(x)) < Distance(x)
  {
    Dropped(x.inbox);
    Appended(x.outbox, Ack);
  }

  lemma TakenCloser(x: Worker, standing: Standing)
    requires Rests(x) && x.outbox != []
    ensures var y := x.(outbox := x.outbox[1..], standing := standing); Rests(y) && Distance(y) < Distance(x)
  {
    Dropped(x.outbox);
  }

  /** One worker comes closer and the queue stays. */
  ghost predicate Closer(s: State, s': State, w: nat) {
    && OneChanged(s, s', w) && Rests(s'.workers[w]) && Distance(s'.workers[w]) < Distance(s.workers[w])
    && s'.queue == s.queue && s'.center in {Serving, Notifying(0)}
  }

  lemma WorkerAckCloser(s: State, w: nat)
    requires Still(s) && Enabled(s, WorkerAck(w)) && DetectorOk(s.workers[w])
    ensures Closer(s, With(s, w, Acked(s.workers[w])), w)
  {
    AckedCloser(s.workers[w]);
    hide Rests, Distance, Acked;
  }

  lemma ReportCloser(s: State, w: nat)
    requires Still(s) && Enabled(s, TakeReport(w))
    ensures Closer(s, Reported(s, w), w)
  {
    var x := s.workers[w];
    TakenCloser(x, if x.outbox[0] == Available then IsAvailable else IsRunning);
    hide Rests, Distance;
  }

  lemma CenterAckCloser(s: State, w: nat)
    requires Still(s) && Enabled(s, TakeAck(w))
    ensures Closer(s, CenterAcked(s, w), w)
  {
    TakenCloser(s.workers[w], s.workers[w].standing);
    hide Rests, Distance;
  }

  lemma DetectorsOk(s: State, w: nat)
    requires Inv(s) && w < |s.workers|
    ensures DetectorOk(s.workers[w])
  {
    hide Accounts, Conserved, DetectorOk;
    assert WorkerOk(s.workers[w], Live(s.center));
  }

  /** A receipt brings one worker closer. */
  lemma OneCloser(s: State, a: Action)
    requires Inv(s) && Still(s) && Delivery(a) && Enabled(s, a) && Step(s, a).Next?
    ensures Closer(s, Step(s, a).state, a.w)
  {
    hide Inv, Closer, DetectorOk, Acked, Reported, CenterAcked;
    DetectorsOk(s, a.w);
    match a
    case WorkerAck(w) => WorkerAckCloser(s, w);
    case TakeReport(w) => ReportCloser(s, w);
    case TakeAck(w) => CenterAckCloser(s, w);
  }

  /** Every receipt lowers the measure and leaves the queue and the workers still, or the center out of its loop. */
  lemma StepCloser(s: State, a: Action)
    requires Inv(s) && Still(s) && Delivery(a) && Enabled(s, a)
    ensures Step(s, a).Next?
    ensures var s' := Step(s, a).state;
      && Inv(s') && Measure(s') < Measure(s) && s'.queue == s.queue
      && (Still(s') || (s.queue == multiset{} && s'.center == Notifying(0)))
  {
    hide Inv, Distance, Rests, Step, Enabled, Measure;
    StepSafe(s, a);
    OneCloser(s, a);
    var s' := Step(s, a).state;
    MeasureMoves(s, s', a.w);
    ServesQueue(s');
  }

  lemma ServesQueue(s: State)
    requires Inv(s)
    ensures s.center == Serving <==> s.det.deficit != 0 || s.queue != multiset{}
  {
  }

  /** No acknowledgement is outstanding: the center has left its loop, or it can dispatch what is queued. */
  ghost predicate Settled(s: State, queue: multiset<Bundle>) {
    && s.det.deficit == 0 && s.queue == queue
    && if queue == multiset{} then s.center == Notifying(0) else Still(s)
  }

  /**
   * Once work has stopped, receipts alone settle every account: with nothing queued the center reaches its
   * termination notices, otherwise a state in which it can dispatch any queued task to any worker.
   */
  lemma {:induction false} TerminationIsDetected(s: State) returns (actions: seq<Action>)
    requires Inv(s) && Still(s)
    ensures |actions| <= Measure(s) && forall a | a in actions :: Delivery(a)
    ensures Run(s, actions).Some? && Run(s, actions).value.Next?
    ensures Settled(Run(s, actions).value.state, s.queue)
    decreases Measure(s)
  {
    hide Inv, Measure, Rests, Enabled, Step;
    MeasureNonNegative(s);
    ServesQueue(s);
    if s.det.deficit == 0 {
      return [];
    }
    var a := SomethingArrives(s);
    StepCloser(s, a);
    var s' := Step(s, a).state;
    MeasureNonNegative(s');
    ServesQueue(s');
    if s'.center == Notifying(0) {
      actions := [a];
      assert Run(s', []) == Some(Next(s'));
    } else {
      var rest := TerminationIsDetected(s');
      actions := [a] + rest;
      assert actions[1..] == rest;
    }
  }
}

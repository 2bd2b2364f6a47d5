/**
 * The scheduler clock's state, told from the log of events alone: which run, phase and queue state hold, when tasks
 * and improvements were noted, and the assignment latencies.
 */
module SchedulerHistory {
  import opened Common
  import opened SchedulerTimes

  /* ---------- runs and states ---------- */

  /** A run was started and has not been ended since. */
  ghost predicate Started(log: seq<Stamped>) {
    exists i :: 0 <= i < |log| && log[i].event.RunStart? && forall j | i < j < |log| :: !log[j].event.RunEnd?
  }

  /** In a run, an event of the first kind has come, and since then none of the second kind in a run. */
  ghost predicate Since(log: seq<Stamped>, on: Event, offs: set<Event>) {
    exists i :: 0 <= i < |log| && Turning(log, i, on, offs)
  }

  ghost predicate Turning(log: seq<Stamped>, i: nat, on: Event, offs: set<Event>)
    requires i < |log|
  {
    && log[i].event == on && Started(log[..i])
    && forall j | i < j < |log| && log[j].event in offs :: !Started(log[..j])
  }

  lemma StartedMore(log: seq<Stamped>)
    requires log != []
    ensures var before, e := log[..|log| - 1], log[|log| - 1].event;
            Started(log) <==> e.RunStart? || (Started(before) && !e.RunEnd?)
  {
    var before, e := log[..|log| - 1], log[|log| - 1].event;
    if Started(before) && !e.RunEnd? {
      var i :| 0 <= i < |before| && before[i].event.RunStart?
               && forall j | i < j < |before| :: !before[j].event.RunEnd?;
      assert log[i].event.RunStart? && forall j | i < j < |log| :: !log[j].event.RunEnd?;
    }
    if e.RunStart? {
      assert log[|log| - 1].event.RunStart?;
    }
    if Started(log) && !e.RunStart? {
      var i :| 0 <= i < |log| && log[i].event.RunStart? && forall j | i < j < |log| :: !log[j].event.RunEnd?;
      assert before[i].event.RunStart?;
    }
  }

  lemma SinceMore(log: seq<Stamped>, on: Event, offs: set<Event>)
    requires log != [] && on !in offs
    ensures var before, e := log[..|log| - 1], log[|log| - 1].event;
            Since(log, on, offs) <==>
              if Started(before) && e == on then true
              else if Started(before) && e in offs then false
              else Since(before, on, offs)
  {
    var d := |log| - 1;
    var before, e := log[..d], log[d].event;
    hide Started;
    assert forall i | 0 <= i <= d :: before[..i] == log[..i];
    if Started(before) && e == on {
      assert Turning(log, d, on, offs);
    }
    forall i | 0 <= i < d
      ensures Turning(log, i, on, offs) <==> Turning(before, i, on, offs) && !(Started(before) && e in offs)
    {
    }
    hide Turning;
    if Since(log, on, offs) {
      var i :| 0 <= i < |log| && Turning(log, i, on, offs);
      TurningAt(log, i, on, offs);
    }
    if Since(before, on, offs) {
      var i :| 0 <= i < |before| && Turning(before, i, on, offs);
    }
  }

  lemma TurningAt(log: seq<Stamped>, i: nat, on: Event, offs: set<Event>)
    requires i < |log| && Turning(log, i, on, offs)
    ensures i == |log| - 1 ==> log[i].event == on && Started(log[..|log| - 1])
    ensures i < |log| - 1 && log[|log| - 1].event in offs ==> !Started(log[..|log| - 1])
  {
  }

  /** The last word on the queue in a run. */
  ghost function LastQueue(log: seq<Stamped>): Event {
    if log == [] then CoordinatorQueue(0, true)
    else if log[|log| - 1].event.CoordinatorQueue? && Started(log[..|log| - 1]) then log[|log| - 1].event
    else LastQueue(log[..|log| - 1])
  }

  /** What the rank is taken to be doing is what the events in runs said last. */
  lemma {:induction false} ModeIs(log: seq<Stamped>)
    ensures var m := ModeAfter(log);
            && (m.inRun <==> Started(log))
            && (m.phase == Running <==> Since(log, WorkerRunning, {WorkerWaiting, RunEnd}))
            && (m.phase == Waiting <==> Since(log, WorkerWaiting, {WorkerRunning, RunEnd}))
            && (m.full <==> Since(log, CoordinatorFull, {CoordinatorFree}))
            && CoordinatorQueue(m.available, m.queueEmpty) == LastQueue(log)
  {
    if log != [] {
      ModeIs(log[..|log| - 1]);
      StartedMore(log);
      SinceMore(log, WorkerRunning, {WorkerWaiting, RunEnd});
      SinceMore(log, WorkerWaiting, {WorkerRunning, RunEnd});
      SinceMore(log, CoordinatorFull, {CoordinatorFree});
      hide Started, Since;
    }
  }

  /* ---------- moments ---------- */

  /** When the last run was started. */
  function LastStart(log: seq<Stamped>): nat {
    if log == [] then 0
    else if log[|log| - 1].event.RunStart? then log[|log| - 1].at
    else LastStart(log[..|log| - 1])
  }

  /** Milliseconds from the start of the run to event e, in a run. */
  function Moment(log: seq<Stamped>, e: Stamped): nat {
    var start := LastStart(log);
    if e.at >= start then (e.at - start) / 1000 else 0
  }

  /** The first task that was ever begun in a run. */
  ghost function FirstTask(log: seq<Stamped>): Option<nat> {
    if log == [] then None
    else
      var before, e := log[..|log| - 1], log[|log| - 1];
      if FirstTask(before).Some? then FirstTask(before)
      else if e.event == WorkerRunning && Started(before) then Some(Moment(before, e))
      else None
  }

  /** The last time that a running rank went back to waiting. */
  ghost function LastTask(log: seq<Stamped>): nat {
    if log == [] then 0
    else
      var before, e := log[..|log| - 1], log[|log| - 1];
      if e.event == WorkerWaiting && Started(before) && Since(before, WorkerRunning, {WorkerWaiting, RunEnd})
      then Moment(before, e)
      else LastTask(before)
  }

  /** The last improvement of the global score in a run. */
  ghost function LastImprovement(log: seq<Stamped>): nat {
    if log == [] then 0
    else
      var before, e := log[..|log| - 1], log[|log| - 1];
      if e.event == ScoreImproved && Started(before) then Moment(before, e) else LastImprovement(before)
  }

  lemma {:induction false} MomentsAre(log: seq<Stamped>)
    requires Ordered(log)
    ensures var c := ClockAfter(log);
            && c.runStart == LastStart(log) && c.lastTaskMs == LastTask(log)
            && c.lastImprovementMs == LastImprovement(log)
            && c.taskSeen == FirstTask(log).Some? && c.firstTaskMs == if c.taskSeen then FirstTask(log).value else 0
  {
    if log != [] {
      var before, e := log[..|log| - 1], log[|log| - 1];
      MomentsAre(before);
      ModeIs(before);
      LogStep(log, RunningTime);
      MomentStep(ClockAfter(before), e);
      hide Started, Since, After, ClockAfter, Lost;
    }
  }

  /** What one event notes. */
  lemma MomentStep(c: Clock, e: Stamped)
    requires c.since <= e.at && c.runStart <= e.at
    ensures var c', ms := After(c, e.event, e.at), (e.at - c.runStart) / 1000;
            && c'.runStart == (if e.event.RunStart? then e.at else c.runStart)
            && c'.taskSeen == (c.taskSeen || (c.mode.inRun && e.event == WorkerRunning))
            && c'.firstTaskMs == (if !c.taskSeen && c.mode.inRun && e.event == WorkerRunning then ms else c.firstTaskMs)
            && c'.lastTaskMs ==
               (if c.mode.inRun && e.event == WorkerWaiting && c.mode.phase == Running then ms else c.lastTaskMs)
            && c'.lastImprovementMs == if c.mode.inRun && e.event == ScoreImproved then ms else c.lastImprovementMs
  {
  }

  /* ---------- latencies ---------- */

  /** When the rank was last assigned, unless it has accepted since. */
  function LastAssigned(log: seq<Stamped>, rank: nat): Option<nat> {
    if log == [] then None
    else match log[|log| - 1].event
      case Assignment(r) => if r == rank then Some(log[|log| - 1].at) else LastAssigned(log[..|log| - 1], rank)
      case AssignmentAccepted(r) => if r == rank then None else LastAssigned(log[..|log| - 1], rank)
      case _ => LastAssigned(log[..|log| - 1], rank)
  }

  /** The times from an assignment to its acceptance, in the order of acceptance. */
  function Latencies(log: seq<Stamped>): seq<int> {
    if log == [] then []
    else
      var before, e := log[..|log| - 1], log[|log| - 1];
      Latencies(before) +
        if e.event.AssignmentAccepted? && e.event.rank < MAX_WORKERS && LastAssigned(before, e.event.rank).Some?
        then [e.at - LastAssigned(before, e.event.rank).value] else []
  }

  function Added(xs: seq<int>): int {
    if xs == [] then 0 else Added(xs[..|xs| - 1]) + xs[|xs| - 1]
  }

  /** m is the largest element, or 0 for none. */
  predicate Largest(xs: seq<int>, m: int) {
    (forall x | x in xs :: x <= m) && if xs == [] then m == 0 else m in xs
  }

  ghost predicate LatencyIs(log: seq<Stamped>, l: Latency) {
    && |l.assignedAt| == MAX_WORKERS && (forall r | 0 <= r < MAX_WORKERS :: l.assignedAt[r] == LastAssigned(log, r))
    && l.count == |Latencies(log)| && l.total == Added(Latencies(log)) && Largest(Latencies(log), l.max)
  }

  lemma LatencyStep(before: seq<Stamped>, l: Latency, e: Stamped)
    requires LatencyIs(before, l)
    requires forall r | 0 <= r < |l.assignedAt| && l.assignedAt[r].Some? :: l.assignedAt[r].value <= e.at
    ensures LatencyIs(before + [e], Measured(l, e.event, e.at))
  {
    var log, m := before + [e], Measured(l, e.event, e.at);
    assert log[..|log| - 1] == before && log[|log| - 1] == e;
    forall r | 0 <= r < MAX_WORKERS ensures m.assignedAt[r] == LastAssigned(log, r) {
    }
    var xs := Latencies(before);
    if Latencies(log) != xs {
      var x := e.at - LastAssigned(before, e.event.rank).value;
      assert Latencies(log) == xs + [x];
      assert (xs + [x])[..|xs|] == xs;
      LargestMore(xs, x, l.max);
    }
  }

  lemma LargestMore(xs: seq<int>, x: int, m: int)
    requires Largest(xs, m) && x >= 0
    ensures Largest(xs + [x], if x > m then x else m)
  {
    var more := xs + [x];
    assert more[|xs|] == x;
    assert forall y :: y in more <==> y in xs || y == x;
  }

  /** After every log: who is assigned and has not accepted, and the sum, number and maximum of all latencies. */
  lemma {:induction false} LatenciesAre(log: seq<Stamped>)
    requires Ordered(log)
    ensures LatencyIs(log, ClockAfter(log).latency)
  {
    hide After, Measured, LatencyIs, Lost, LastAssigned, Latencies;
    if log == [] {
      NoLatencies();
    } else {
      var before, e := log[..|log| - 1], log[|log| - 1];
      LatenciesAre(before);
      LogStep(log, RunningTime);
      assert Sane(ClockAfter(before), LastAt(before));
      assert log == before + [e];
      LatencyStep(before, ClockAfter(before).latency, e);
      AfterLatency(ClockAfter(before), e);
    }
  }

  lemma NoLatencies()
    ensures LatencyIs([], ClockAfter([]).latency)
  {
  }

  lemma AfterLatency(c: Clock, e: Stamped)
    requires c.since <= e.at && c.runStart <= e.at
    ensures After(c, e.event, e.at).latency == Measured(c.latency, e.event, e.at)
  {
  }
}

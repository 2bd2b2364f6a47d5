/**
 * The scheduler times of a rank (private/impl/telemetry/scheduler_clock.hpp), accrued event by event, against
 * their definition: how many microseconds, among all that have passed, the rank spent in the state.
 */
module SchedulerTimes {
  import opened Common

  const MAX_WORKERS: nat := 1024

  datatype Phase = NoPhase | Waiting | Running

  datatype Event =
    | RunStart
    | RunEnd
    | WorkerWaiting
    | WorkerRunning
    | Assignment(rank: nat)
    | AssignmentAccepted(rank: nat)
    | CoordinatorQueue(available: nat, empty: bool)
    | CoordinatorFull
    | ScoreImproved
    | CoordinatorFree

  datatype Stamped = Stamped(event: Event, at: nat)

  /* ---------- what the rank is doing ---------- */

  datatype Mode = Mode(inRun: bool, phase: Phase, available: nat, queueEmpty: bool, full: bool)

  const IDLE: Mode := Mode(false, NoPhase, 0, true, false)

  /** Outside a run only the start of one counts. */
  function Turned(m: Mode, e: Event): Mode {
    if e.RunStart? then m.(inRun := true)
    else if !m.inRun then m
    else match e
      case RunEnd => m.(inRun := false, phase := NoPhase)
      case WorkerWaiting => m.(phase := Waiting)
      case WorkerRunning => m.(phase := Running)
      case CoordinatorQueue(available, empty) => m.(available := available, queueEmpty := empty)
      case CoordinatorFull => m.(full := true)
      case CoordinatorFree => m.(full := false)
      case _ => m
  }

  function ModeAfter(log: seq<Stamped>): Mode {
    if log == [] then IDLE else Turned(ModeAfter(log[..|log| - 1]), log[|log| - 1].event)
  }

  /** The four times that accrue. */
  datatype Kind = RunningTime | WaitingTime | AvailableQueueEmpty | FullTime

  /** How much of a time one microsecond in mode m is worth. */
  function Rate(m: Mode, k: Kind): nat {
    if !m.inRun then 0
    else match k
      case RunningTime => if m.phase == Running then 1 else 0
      case WaitingTime => if m.phase == Waiting then 1 else 0
      case AvailableQueueEmpty => if m.queueEmpty then m.available else 0
      case FullTime => if m.full then 1 else 0
  }

  function LastAt(log: seq<Stamped>): nat {
    if log == [] then 0 else log[|log| - 1].at
  }

  /** Times do not decrease along the log. */
  predicate Ordered(log: seq<Stamped>) {
    log == [] || (Ordered(log[..|log| - 1]) && LastAt(log[..|log| - 1]) <= log[|log| - 1].at)
  }

  /** The events up to and including microsecond t. */
  function Until(log: seq<Stamped>, t: nat): seq<Stamped> {
    if log == [] || log[|log| - 1].at <= t then log else Until(log[..|log| - 1], t)
  }

  /** The time of kind k in the microseconds before now, added up one by one. */
  function Total(log: seq<Stamped>, k: Kind, now: nat): nat {
    if now == 0 then 0 else Total(log, k, now - 1) + Rate(ModeAfter(Until(log, now - 1)), k)
  }

  /* ---------- the clock ---------- */

  /** The accumulators, by kind. */
  datatype Times = Times(running: nat, waiting: nat, availableQueueEmpty: nat, full: nat) {
    function Of(k: Kind): nat {
      match k
      case RunningTime => running
      case WaitingTime => waiting
      case AvailableQueueEmpty => availableQueueEmpty
      case FullTime => full
    }
  }

  /** Assignment latencies. */
  datatype Latency = Latency(assignedAt: seq<Option<nat>>, total: nat, max: nat, count: nat)

  datatype Clock = Clock(mode: Mode, runStart: nat, since: nat, times: Times, taskSeen: bool, firstTaskMs: nat,
                         lastTaskMs: nat, lastImprovementMs: nat, latency: Latency)

  /** The multiplication m_available_ranks * elapsed, as accrue does it. */
  function Grown(t: Times, m: Mode, elapsed: nat): Times {
    Times(t.running + if m.phase == Running then elapsed else 0,
          t.waiting + if m.phase == Waiting then elapsed else 0,
          t.availableQueueEmpty + if m.queueEmpty then m.available * elapsed else 0,
          t.full + if m.full then elapsed else 0)
  }

  function Accrued(c: Clock, now: nat): Clock
    requires c.since <= now
  {
    c.(times := Grown(c.times, c.mode, now - c.since), since := now)
  }

  function Fresh(): Clock {
    Clock(IDLE, 0, 0, Times(0, 0, 0, 0), false, 0, 0, 0, Latency(seq(MAX_WORKERS, _ => None), 0, 0, 0))
  }

  /** An event that on_... handles by accruing first. */
  predicate Accrues(m: Mode, e: Event) {
    && m.inRun
    && (|| e.RunEnd? || e.WorkerWaiting? || e.WorkerRunning? || e.CoordinatorQueue?
        || (e.CoordinatorFull? && !m.full) || (e.CoordinatorFree? && m.full))
  }

  function Measured(l: Latency, e: Event, now: nat): Latency {
    match e
    case Assignment(rank) => if rank < |l.assignedAt| then l.(assignedAt := l.assignedAt[rank := Some(now)]) else l
    case AssignmentAccepted(rank) =>
      if rank < |l.assignedAt| && l.assignedAt[rank].Some? && l.assignedAt[rank].value <= now then
        var latency := now - l.assignedAt[rank].value;
        Latency(l.assignedAt[rank := None], l.total + latency, if latency > l.max then latency else l.max, l.count + 1)
      else l
    case _ => l
  }

  function Noted(c: Clock, e: Event, now: nat): Clock
    requires c.runStart <= now
  {
    if !c.mode.inRun then c
    else match e
      case WorkerWaiting => if c.mode.phase == Running then c.(lastTaskMs := (now - c.runStart) / 1000) else c
      case WorkerRunning => if !c.taskSeen then c.(taskSeen := true, firstTaskMs := (now - c.runStart) / 1000) else c
      case ScoreImproved => c.(lastImprovementMs := (now - c.runStart) / 1000)
      case _ => c
  }

  /** One event: the specification of all on_... methods. */
  function After(c: Clock, e: Event, now: nat): Clock
    requires c.since <= now && c.runStart <= now
  {
    if e.RunStart? then c.(mode := Turned(c.mode, e), runStart := now, since := now)
    else
      var c1 := if Accrues(c.mode, e) then Accrued(c, now) else c;
      var c2 := Noted(c1, e, now);
      c2.(mode := Turned(c.mode, e), latency := Measured(c.latency, e, now))
  }

  /** What fill reports for the accruing times. */
  function Filled(c: Clock, now: nat): Times
    requires c.since <= now
  {
    var open := if c.mode.inRun then now - c.since else 0;
    Grown(c.times, c.mode, open)
  }

  class SchedulerClock {
    var inRun: bool
    var runStart: nat
    var since: nat
    var phase: Phase
    var taskSeen: bool
    var running: nat
    var waiting: nat
    var firstTaskMs: nat
    var lastTaskMs: nat
    var assignedAt: array<Option<nat>>
    var latencyTotal: nat
    var latencyMax: nat
    var assignCount: nat
    var availableRanks: nat
    var queueEmpty: bool
    var availableQueueEmpty: nat
    var full: bool
    var fullTime: nat
    var lastImprovementMs: nat

    function Value(): Clock
      reads this, assignedAt
    {
      Clock(Mode(inRun, phase, availableRanks, queueEmpty, full), runStart, since,
            Times(running, waiting, availableQueueEmpty, fullTime), taskSeen,
            firstTaskMs, lastTaskMs, lastImprovementMs,
            Latency(assignedAt[..], latencyTotal, latencyMax, assignCount))
    }

    constructor ()
      ensures Value() == Fresh() && fresh(assignedAt)
    {
      inRun, runStart, since, phase, taskSeen := false, 0, 0, NoPhase, false;
      running, waiting, firstTaskMs, lastTaskMs := 0, 0, 0, 0;
      latencyTotal, latencyMax, assignCount := 0, 0, 0;
      availableRanks, queueEmpty, availableQueueEmpty, full, fullTime, lastImprovementMs := 0, true, 0, false, 0, 0;
      assignedAt := new Option<nat>[MAX_WORKERS](_ => None);
      new;
      assert assignedAt[..] == seq(MAX_WORKERS, _ => None);
    }

    method Accrue(now: nat)
      requires since <= now
      modifies this`running, this`waiting, this`availableQueueEmpty, this`fullTime, this`since
      ensures Value() == Accrued(old(Value()), now)
    {
      var elapsed := now - since;
      if phase == Running {
        running := running + elapsed;
      } else if phase == Waiting {
        waiting := waiting + elapsed;
      }
      if queueEmpty {
        availableQueueEmpty := availableQueueEmpty + availableRanks * elapsed;
      }
      if full {
        fullTime := fullTime + elapsed;
      }
      since := now;
    }

    method OnRunStart(now: nat)
      requires since <= now && runStart <= now
      modifies this
      ensures Value() == After(old(Value()), RunStart, now) && assignedAt == old(assignedAt)
    {
      inRun, runStart, since := true, now, now;
    }

    method OnRunEnd(now: nat)
      requires since <= now && runStart <= now
      modifies this
      ensures Value() == After(old(Value()), RunEnd, now) && assignedAt == old(assignedAt)
    {
      if !inRun {
        return;
      }
      Accrue(now);
      phase := NoPhase;
      inRun := false;
    }

    method OnWorkerWaiting(now: nat)
      requires since <= now && runStart <= now
      modifies this
      ensures Value() == After(old(Value()), WorkerWaiting, now) && assignedAt == old(assignedAt)
    {
      if !inRun {
        return;
      }
      Accrue(now);
      if phase == Running {
        lastTaskMs := (now - runStart) / 1000;
      }
      phase := Waiting;
    }

    method OnWorkerRunning(now: nat)
      requires since <= now && runStart <= now
      modifies this
      ensures Value() == After(old(Value()), WorkerRunning, now) && assignedAt == old(assignedAt)
    {
      if !inRun {
        return;
      }
      Accrue(now);
      if !taskSeen {
        taskSeen := true;
        firstTaskMs := (now - runStart) / 1000;
      }
      phase := Running;
    }

    method OnAssignment(rank: nat, now: nat)
      requires since <= now && runStart <= now
      modifies this, assignedAt
      ensures Value() == After(old(Value()), Assignment(rank), now) && assignedAt == old(assignedAt)
    {
      if rank < assignedAt.Length {
        assignedAt[rank] := Some(now);
      }
    }

    method OnAssignmentAccepted(rank: nat, now: nat)
      requires since <= now && runStart <= now
      requires forall r | 0 <= r < assignedAt.Length && assignedAt[r].Some? :: assignedAt[r].value <= now
      modifies this, assignedAt
      ensures Value() == After(old(Value()), AssignmentAccepted(rank), now) && assignedAt == old(assignedAt)
    {
      if rank >= assignedAt.Length || assignedAt[rank] == None {
        return;
      }
      var latency := now - assignedAt[rank].value;
      assignedAt[rank] := None;
      latencyTotal := latencyTotal + latency;
      latencyMax := if latency > latencyMax then latency else latencyMax;
      assignCount := assignCount + 1;
    }

    method OnCoordinatorQueue(available: nat, empty: bool, now: nat)
      requires since <= now && runStart <= now
      modifies this
      ensures Value() == After(old(Value()), CoordinatorQueue(available, empty), now) && assignedAt == old(assignedAt)
    {
      if !inRun {
        return;
      }
      Accrue(now);
      availableRanks, queueEmpty := available, empty;
    }

    method OnCoordinatorFull(now: nat)
      requires since <= now && runStart <= now
      modifies this
      ensures Value() == After(old(Value()), CoordinatorFull, now) && assignedAt == old(assignedAt)
    {
      if !inRun || full {
        return;
      }
      Accrue(now);
      full := true;
    }

    method OnGlobalScoreImproved(now: nat)
      requires since <= now && runStart <= now
      modifies this
      ensures Value() == After(old(Value()), ScoreImproved, now) && assignedAt == old(assignedAt)
    {
      if inRun {
        lastImprovementMs := (now - runStart) / 1000;
      }
    }

    method OnCoordinatorFree(now: nat)
      requires since <= now && runStart <= now
      modifies this
      ensures Value() == After(old(Value()), CoordinatorFree, now) && assignedAt == old(assignedAt)
    {
      if !inRun || !full {
        return;
      }
      Accrue(now);
      full := false;
    }

    method Fill(now: nat) returns (times: Times)
      requires since <= now
      ensures times == Filled(Value(), now)
    {
      var open := if inRun then now - since else 0;
      times := Times(running + if phase == Running then open else 0,
                     waiting + if phase == Waiting then open else 0,
                     availableQueueEmpty + if queueEmpty then availableRanks * open else 0,
                     fullTime + if full then open else 0);
    }
  }

  /* ---------- the incremental times are the totals ---------- */

  ghost predicate Sane(c: Clock, last: nat) {
    && c.since <= last && c.runStart <= last && (!c.mode.inRun ==> c.mode.phase == NoPhase)
    && (forall r | 0 <= r < |c.latency.assignedAt| && c.latency.assignedAt[r].Some? ::
       c.latency.assignedAt[r].value <= last)
  }

  /** The clock after a log of non-decreasing times. */
  function ClockAfter(log: seq<Stamped>): (c: Clock)
    requires Ordered(log)
    ensures Sane(c, LastAt(log)) && c.mode == ModeAfter(log)
  {
    if log == [] then Fresh()
    else
      var before := ClockAfter(log[..|log| - 1]);
      After(before, log[|log| - 1].event, log[|log| - 1].at)
  }

  /** Growth by elapsed microseconds, kind by kind. */
  lemma GrownOf(t: Times, m: Mode, elapsed: nat, k: Kind)
    requires m.inRun
    ensures Grown(t, m, elapsed).Of(k) == t.Of(k) + Rate(m, k) * elapsed
  {
  }

  lemma FilledOf(c: Clock, now: nat, k: Kind)
    requires c.since <= now
    ensures Filled(c, now).Of(k) == c.times.Of(k) + Rate(c.mode, k) * (now - c.since)
  {
    if c.mode.inRun {
      GrownOf(c.times, c.mode, now - c.since, k);
    } else {
      assert Rate(c.mode, k) == 0;
    }
  }

  /** While no event happens, the total grows evenly. */
  lemma {:induction false} TotalGrows(log: seq<Stamped>, k: Kind, from: nat, now: nat)
    requires LastAt(log) <= from <= now
    ensures Total(log, k, now) == Total(log, k, from) + Rate(ModeAfter(log), k) * (now - from)
  {
    hide Rate, ModeAfter;
    if from < now {
      TotalGrows(log, k, from, now - 1);
      Distribute(Rate(ModeAfter(log), k), now - 1 - from, 1);
    }
  }

  /** An event does not change what came before it. */
  lemma {:induction false} TotalBefore(log: seq<Stamped>, e: Stamped, k: Kind, now: nat)
    requires now <= e.at
    ensures Total(log + [e], k, now) == Total(log, k, now)
  {
    if now > 0 {
      TotalBefore(log, e, k, now - 1);
      assert (log + [e])[..|log|] == log;
    }
  }

  /** What a start inside a run throws away. */
  function Dropped(c: Clock, e: Event, at: nat, k: Kind): nat
    requires c.since <= at
  {
    if e.RunStart? then Rate(c.mode, k) * (at - c.since) else 0
  }

  /** All of it, over a log. */
  function Lost(log: seq<Stamped>, k: Kind): nat
    requires Ordered(log)
  {
    if log == [] then 0
    else
      var before, e := log[..|log| - 1], log[|log| - 1];
      Lost(before, k) + Dropped(ClockAfter(before), e.event, e.at, k)
  }

  lemma LogStep(log: seq<Stamped>, k: Kind)
    requires Ordered(log) && log != []
    ensures var before, e := log[..|log| - 1], log[|log| - 1];
            && ClockAfter(before).since <= e.at && ClockAfter(before).runStart <= e.at
            && ClockAfter(log) == After(ClockAfter(before), e.event, e.at)
            && ModeAfter(log) == Turned(ClockAfter(before).mode, e.event)
            && Lost(log, k) == Lost(before, k) + Dropped(ClockAfter(before), e.event, e.at, k)
  {
  }

  /** For every log: what fill reports, and what restarts inside a run threw away, add up to the definition. */
  lemma {:induction false} FillIsTotal(log: seq<Stamped>, k: Kind, now: nat)
    requires Ordered(log) && LastAt(log) <= now
    ensures Filled(ClockAfter(log), now).Of(k) + Lost(log, k) == Total(log, k, now)
  {
    if log == [] {
      TotalGrows(log, k, 0, now);
    } else {
      var before, e := log[..|log| - 1], log[|log| - 1];
      LogStep(log, k);
      hide After, Filled, Rate, Turned, Times.Of, Total, Dropped, ClockAfter, Lost, ModeAfter, Sane;
      assert log == before + [e];
      FillIsTotal(before, k, e.at);
      TotalBefore(before, e, k, e.at);
      TotalGrows(log, k, e.at, now);
      StepFill(ClockAfter(before), e.event, e.at, now, k);
    }
  }

  /** What an event does to the accumulators, the moment they were last brought up to date, and the rates. */
  lemma AfterParts(c: Clock, e: Event, at: nat, k: Kind)
    requires c.since <= at && c.runStart <= at
    ensures After(c, e, at).mode == Turned(c.mode, e)
    ensures if e.RunStart? then After(c, e, at).times == c.times && After(c, e, at).since == at
            else if Accrues(c.mode, e) then
              After(c, e, at).times == Grown(c.times, c.mode, at - c.since) && After(c, e, at).since == at
            else
              && After(c, e, at).times == c.times && After(c, e, at).since == c.since
              && Rate(Turned(c.mode, e), k) == Rate(c.mode, k)
  {
  }

  /** One event, seen from a later moment. */
  lemma StepFill(c: Clock, e: Event, at: nat, now: nat, k: Kind)
    requires c.since <= at && c.runStart <= at <= now
    ensures Filled(After(c, e, at), now).Of(k) + Dropped(c, e, at, k)
            == Filled(c, at).Of(k) + Rate(Turned(c.mode, e), k) * (now - at)
  {
    AfterParts(c, e, at, k);
    FilledOf(c, at, k);
    FilledOf(After(c, e, at), now, k);
    Distribute(Rate(c.mode, k), at - c.since, now - at);
    if Accrues(c.mode, e) {
      GrownOf(c.times, c.mode, at - c.since, k);
    }
    hide After, Filled, Rate, Turned, Grown, Times.Of;
  }

  lemma Monotone(r: nat, a: nat, b: nat)
    requires a <= b
    ensures r * a <= r * b
  {
  }

  lemma Distribute(r: nat, a: nat, b: nat)
    ensures r * (a + b) == r * a + r * b
  {
  }

  /** When the times were last brought up to date: at the last start, or the last event in a run that accrues. */
  function LastUpdate(log: seq<Stamped>): nat {
    if log == [] then 0
    else
      var before, e := log[..|log| - 1], log[|log| - 1];
      if e.event.RunStart? || Accrues(ModeAfter(before), e.event) then e.at else LastUpdate(before)
  }

  lemma {:induction false} SinceIs(log: seq<Stamped>)
    requires Ordered(log)
    ensures ClockAfter(log).since == LastUpdate(log)
  {
    if log != [] {
      var before, e := log[..|log| - 1], log[|log| - 1];
      SinceIs(before);
      AfterParts(ClockAfter(before), e.event, e.at, RunningTime);
    }
  }

  /**
   * No run starts inside a run, unless in a mode that does not count for k or in the microsecond of the last update.
   */
  predicate CleanStarts(log: seq<Stamped>, k: Kind) {
    if log == [] then true
    else
      var before, e := log[..|log| - 1], log[|log| - 1];
      && CleanStarts(before, k)
      && (e.event.RunStart? && ModeAfter(before).inRun
          ==> Rate(ModeAfter(before), k) == 0 || LastUpdate(before) == e.at)
  }

  lemma {:induction false} LostNothing(log: seq<Stamped>, k: Kind)
    requires Ordered(log)
    ensures Lost(log, k) == 0 <==> CleanStarts(log, k)
  {
    if log != [] {
      var before, e := log[..|log| - 1], log[|log| - 1];
      LostNothing(before, k);
      SinceIs(before);
      DroppedNothing(ClockAfter(before), e.event, e.at, k);
    }
  }

  lemma DroppedNothing(c: Clock, e: Event, at: nat, k: Kind)
    requires c.since <= at
    ensures Dropped(c, e, at, k) == 0 <==> (e.RunStart? && c.mode.inRun ==> Rate(c.mode, k) == 0 || c.since == at)
  {
    if Rate(c.mode, k) >= 1 && at > c.since {
      assert Rate(c.mode, k) * (at - c.since) >= at - c.since;
    }
  }

  /** A reported time is its definition exactly when no start inside a run threw part of it away. */
  lemma FillIsExact(log: seq<Stamped>, k: Kind, now: nat)
    requires Ordered(log) && LastAt(log) <= now
    ensures Filled(ClockAfter(log), now).Of(k) == Total(log, k, now) <==> CleanStarts(log, k)
  {
    FillIsTotal(log, k, now);
    LostNothing(log, k);
  }

  /** The hub starts a run only after ending the one before. */
  lemma {:induction false} SeparateRunsAreClean(log: seq<Stamped>, k: Kind)
    requires Ordered(log) && forall i | 0 <= i < |log| && log[i].event.RunStart? :: !ModeAfter(log[..i]).inRun
    ensures CleanStarts(log, k)
  {
    if log != [] {
      var before := log[..|log| - 1];
      assert forall i | 0 <= i < |before| :: before[..i] == log[..i] && before[i] == log[i];
      SeparateRunsAreClean(before, k);
    }
  }

  /** A worker that restarts its run after running for 5 microseconds loses them. */
  lemma RestartLoses()
    ensures var log := [Stamped(RunStart, 0), Stamped(WorkerRunning, 0), Stamped(RunStart, 5)];
            && Ordered(log) && Filled(ClockAfter(log), 5).Of(RunningTime) == 0 && Total(log, RunningTime, 5) == 5
  {
    var log := [Stamped(RunStart, 0), Stamped(WorkerRunning, 0), Stamped(RunStart, 5)];
    var two, one := log[..2], log[..1];
    assert two[..1] == one && one[..0] == [];
    assert ModeAfter(one) == Mode(true, NoPhase, 0, true, false);
    assert ModeAfter(two) == Mode(true, Running, 0, true, false);
    assert ClockAfter(one).times.running == 0 && ClockAfter(two).times.running == 0 && ClockAfter(two).since == 0;
    FillIsTotal(log, RunningTime, 5);
    assert ClockAfter(log).times.running == 0;
    assert Lost(one, RunningTime) == 0 && Lost(two, RunningTime) == 0;
  }

  /* ---------- running and waiting ---------- */

  /** The run in progress has seen a worker event. */
  function WorkerSeen(log: seq<Stamped>): bool {
    if log == [] then false
    else
      var before, e := log[..|log| - 1], log[|log| - 1].event;
      if e.RunEnd? then false
      else if (e.WorkerWaiting? || e.WorkerRunning?) && ModeAfter(before).inRun then true
      else WorkerSeen(before)
  }

  lemma {:induction false} SeenIsPhase(log: seq<Stamped>)
    ensures WorkerSeen(log) <==> ModeAfter(log).phase != NoPhase
    ensures WorkerSeen(log) ==> ModeAfter(log).inRun
  {
    if log != [] {
      SeenIsPhase(log[..|log| - 1]);
    }
  }

  /** The microseconds in a run since its first worker event. */
  function SeenTime(log: seq<Stamped>, now: nat): nat {
    if now == 0 then 0 else SeenTime(log, now - 1) + if WorkerSeen(Until(log, now - 1)) then 1 else 0
  }

  lemma {:induction false} RunningPlusWaiting(log: seq<Stamped>, now: nat)
    ensures Total(log, RunningTime, now) + Total(log, WaitingTime, now) == SeenTime(log, now)
  {
    if now > 0 {
      RunningPlusWaiting(log, now - 1);
      SeenIsPhase(Until(log, now - 1));
    }
  }

  /** What fill reports as running and waiting is together the time in a run since its first worker event. */
  lemma ReportedTimes(log: seq<Stamped>, now: nat)
    requires Ordered(log) && LastAt(log) <= now
    requires CleanStarts(log, RunningTime) && CleanStarts(log, WaitingTime)
    ensures var f := Filled(ClockAfter(log), now); f.running + f.waiting == SeenTime(log, now)
  {
    FillIsExact(log, RunningTime, now);
    FillIsExact(log, WaitingTime, now);
    RunningPlusWaiting(log, now);
    hide Filled, Total, SeenTime, ClockAfter;
  }

  /* ---------- latencies ---------- */

  lemma MeasuredBounds(l: Latency, e: Event, now: nat)
    requires l.max <= l.total <= l.count * l.max
    ensures var m := Measured(l, e, now); m.max <= m.total <= m.count * m.max
  {
    var m := Measured(l, e, now);
    if m.count == l.count + 1 {
      Monotone(l.count, l.max, m.max);
      Distribute(m.max, l.count, 1);
    }
  }

  /** max <= total <= count * max, after any log. */
  lemma {:induction false} LatencyBounds(log: seq<Stamped>)
    requires Ordered(log)
    ensures var l := ClockAfter(log).latency; l.max <= l.total <= l.count * l.max
  {
    if log != [] {
      var before, e := ClockAfter(log[..|log| - 1]).latency, log[|log| - 1];
      LatencyBounds(log[..|log| - 1]);
      var l := Measured(before, e.event, e.at);
      assert ClockAfter(log).latency == l;
      hide Measured;
      MeasuredBounds(before, e.event, e.at);
    }
  }
}

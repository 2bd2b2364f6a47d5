/**
 * The semi-centralized run comes to its end: a blocked proposer is always served, a resting system reaches its
 * termination notices, and from there on every worker is told, drains, leaves and is collected.
 */
module SemiCompletion {
  import opened Common
  import opened TerminationDetection
  import opened SemiScores
  import opened SemiScoresInvariant
  import opened SemiRuns
  import opened SemiOutcome
  import opened SemiSolution
  import opened SemiRefinement
  import T = SemiProtocol
  import TI = SemiInvariant
  import TT = SemiTermination
  import D = SemiDetection
  import H = Handoff

  /* ---------- nobody waits for the center in vain ---------- */

  /** While the seed is on its way, it is all that the center is owed. */
  lemma OnlySeedOwed(t: T.State, q: nat)
    requires TI.Core(t) && t.center == T.Serving && !T.SeedTaken(t) && q < t.n
    ensures t.det[q].parent != 0
  {
    hide TI.Rooted, TI.EngagedOk, TI.BundlesOn;
    var m := T.Link(t.net, 0, 1)[0];
    assert m in T.Link(t.net, 0, 1) && TI.Allowed(t, 0, 1, m);
    TI.CountsWitness(T.Link(t.net, 0, 1));
    assert TI.TasksOn(t.net, 0, 1) >= 1 by {
      SeedCounts(t.net);
    }
    var f := (b: nat) => TI.Debt(t, 0, b);
    assert t.det[0].deficit == TI.Owed(t, 0) == Sum(t.n, f);
    assert f(1) == TI.Debt(t, 0, 1) && f(q) == TI.Debt(t, 0, q);
    if q == 1 {
      SumNonNegative(t.n, f);
    } else {
      SumTwo(t.n, f, 1, q);
    }
  }

  lemma SeedCounts(net: T.Net)
    requires T.Link(net, 0, 1) != [] && T.Link(net, 0, 1)[0].Task?
    ensures TI.TasksOn(net, 0, 1) >= 1
  {
  }

  /** Then nobody is engaged. */
  lemma {:induction false} SeedFirst(t: T.State, depth: seq<nat>, q: nat)
    requires TI.Core(t) && t.center == T.Serving && !T.SeedTaken(t) && TI.Ranked(t, depth) && q < t.n
    ensures t.det[q].parent == NO_PARENT
    decreases depth[q]
  {
    hide TI.Traffic, TI.Accounts, TI.Debt;
    var p := t.det[q].parent;
    if p != NO_PARENT {
      OnlySeedOwed(t, q);
      EngagingOwes(t, p, q);
      SeedFirst(t, depth, p);
    }
  }

  lemma EngagingOwes(t: T.State, p: nat, q: nat)
    requires TI.Core(t) && p < t.n && q < t.n && t.det[q].parent == p
    ensures t.det[p].deficit > 0
  {
    hide TI.Traffic, TI.Rooted, TI.EngagedOk, TI.TasksOn, TI.AcksOn, TI.Accounts;
    TI.DebtBound(t, p, q);
  }

  lemma SeedBeforeWork(t: T.State, w: nat)
    requires TI.Core(t) && t.center == T.Serving && 1 <= w < t.n && t.phase[w] == T.Working
    ensures T.SeedTaken(t)
  {
    hide TI.Traffic, TI.Accounts;
    var depth :| TI.Ranked(t, depth);
    if !T.SeedTaken(t) {
      SeedFirst(t, depth, w);
    }
  }

  /** While a worker works, the center is in its loop. */
  lemma WorkingServed(t: T.State, w: nat)
    requires TT.Good(t) && 1 <= w < t.n && t.phase[w] == T.Working
    ensures t.center == T.Serving && T.SeedTaken(t)
  {
    hide TI.Accounts, TI.Rooted, TI.Traffic, TI.SettledExcept, TI.SlotsOk, H.Idle;
    if t.det[0].deficit == 0 {
      TI.QuietWhenPaid(t);
    }
    SeedBeforeWork(t, w);
  }

  lemma ProposerWorks(s: State, w: nat)
    requires Sized(s) && Values(s) && 1 <= w < s.t.n
    ensures s.books[w].proposing.Some? ==> s.t.phase[w] == T.Working
  {
    assert WorkerValues(s, w);
  }

  /** A worker blocked in the synchronous send of a score proposal is always served. */
  lemma ProposerServed(s: State, w: nat)
    requires All(s) && 1 <= w < s.t.n && s.books[w].proposing.Some?
    ensures s.t.center == T.Serving && Enabled(s, TakeProposal(w))
  {
    hide TT.Good, ScoreChannels, HelperChannels, Values, Payloads;
    AllParts(s);
    ProposerWorks(s, w);
    WorkingServed(s.t, w);
  }

  /* ---------- after the loop: what is still to come ---------- */

  predicate NoticeSent(c: T.CenterPhase, n: nat, r: nat) {
    match c
    case Notifying(k) => 1 <= r < k
    case _ => !TI.Live(c) && 1 <= r < n
  }

  /** An idle worker has its notice once it was sent one, and a finished one its solution until it is collected. */
  ghost predicate Coming(t: T.State, w: nat)
    requires w < |t.phase|
  {
    && (t.phase[w] == T.Idle && NoticeSent(t.center, t.n, w) ==> exists m :: m in T.Link(t.net, 0, w) && m.Termination?)
    && (t.phase[w] == T.Done && !CollectedRank(t.center, t.n, w) ==> exists m ::
       m in T.Link(t.net, w, 0) && IsSolution(m))
  }

  ghost predicate Final(t: T.State) {
    |t.phase| == t.n && (!TI.Live(t.center) ==> forall w: nat | 1 <= w < t.n :: Coming(t, w))
  }

  /** The steps of the last phase. */
  predicate Finishing(a: T.Action) {
    a.Notify? || a.ReceiveTermination? || a.SendSolution? || a.Collect?
  }

  lemma NotifiedComing(t: T.State, c: int, p: int, w: nat)
    requires T.Enabled(t, T.Notify(c, p)) && 1 <= w < t.n == |t.phase| && Coming(t, w)
    ensures Coming(T.Notified(t, c, p), w)
  {
    var t' := T.Notified(t, c, p);
    assert forall m | m in T.Link(t.net, 0, w) :: m in T.Link(t'.net, 0, w);
    if w == t.center.next {
      assert T.Termination(c, p) in T.Link(t'.net, 0, w);
    }
  }

  lemma LeavingComing(t: T.State, r: nat, w: nat)
    requires T.Enabled(t, T.ReceiveTermination(r)) && 1 <= w < t.n == |t.phase| && Coming(t, w)
    ensures Coming(t.(phase := t.phase[r := T.Leaving], net := T.Drop(t.net, 0, r)), w)
  {
  }

  lemma SolvedComing(t: T.State, r: nat, m: T.Message, w: nat)
    requires T.Enabled(t, T.SendSolution(r, m)) && 1 <= w < t.n == |t.phase| && Coming(t, w)
    ensures Coming(t.(phase := t.phase[r := T.Done], net := T.Put(t.net, r, 0, m)), w)
  {
    var t' := t.(phase := t.phase[r := T.Done], net := T.Put(t.net, r, 0, m));
    assert forall x | x in T.Link(t.net, w, 0) :: x in T.Link(t'.net, w, 0);
    if w == r {
      assert m in T.Link(t'.net, w, 0);
    }
  }

  lemma CollectedComing(t: T.State, w: nat)
    requires T.Enabled(t, T.Collect) && 1 <= w < t.n == |t.phase| && Coming(t, w)
    ensures Coming(T.Collected(t, IsSolution(T.Link(t.net, t.center.next, 0)[0])), w)
  {
    var r := t.center.next;
    var m := T.Link(t.net, r, 0)[0];
    var t' := T.Collected(t, IsSolution(m));
    if w == r && !IsSolution(m) {
      assert forall x | x in T.Link(t.net, w, 0) && x != m :: x in T.Link(t'.net, w, 0);
    }
  }

  /** After the loop only the steps of the last phase are left, and helper lists that reach idle workers. */
  lemma LastSteps(t: T.State, a: T.Action)
    requires TT.Good(t) && !TI.Live(t.center) && T.Enabled(t, a)
    ensures Finishing(a) || (a.Local? && a.step.ReceiveHelpers?)
  {
    hide TI.Accounts, TI.Rooted, TI.SettledExcept, H.Inv;
    TI.QuietWhenPaid(t);
    forall p, q | T.Link(t.net, p, q) != [] ensures !T.Link(t.net, p, q)[0].Task? && !T.Link(t.net, p, q)[0].Ack? {
      assert T.Link(t.net, p, q)[0] in T.Link(t.net, p, q);
    }
  }

  /** When the center stops, no worker has left yet. */
  lemma FinalBegins(t: T.State, t': T.State)
    requires TT.Good(t) && TI.Live(t.center) && t'.n == t.n && t'.phase == t.phase && t'.center == T.Notifying(1)
    ensures Final(t')
  {
    hide TI.Accounts, TI.Rooted, TI.SettledExcept, TI.Traffic, TI.SlotsOk, H.Idle;
  }

  /** Every step keeps what is still to come. */
  lemma FinalStep(t: T.State, a: T.Action)
    requires TT.Good(t) && Final(t) && T.Enabled(t, a) && T.Step(t, a).Next?
    ensures Final(T.Step(t, a).state)
  {
    hide TT.Good, Coming, H.Step;
    var t' := T.Step(t, a).state;
    if TI.Live(t.center) {
      if !TI.Live(t'.center) {
        FinalBegins(t, t');
      }
    } else {
      LastSteps(t, a);
      forall w: nat | 1 <= w < t.n ensures Coming(t', w) {
        ComingStep(t, a, w);
      }
    }
  }

  lemma SlotComing(t: T.State, t': T.State, w: nat)
    requires w < |t.phase| && Coming(t, w) && t' == t.(slot := t'.slot)
    ensures Coming(t', w)
  {
  }

  lemma ComingStep(t: T.State, a: T.Action, w: nat)
    requires (Finishing(a) || (a.Local? && a.step.ReceiveHelpers?)) && T.Enabled(t, a) && T.Step(t, a).Next?
    requires 1 <= w < t.n == |t.phase| && Coming(t, w)
    ensures |T.Step(t, a).state.phase| == t.n && Coming(T.Step(t, a).state, w)
  {
    hide Coming, H.Step, H.Enabled;
    match a
    case Notify(c, p) => NotifiedComing(t, c, p, w);
    case ReceiveTermination(r) => LeavingComing(t, r, w);
    case SendSolution(r, m) => SolvedComing(t, r, m, w);
    case Collect => CollectedComing(t, w);
    case Local(v, step) => SlotComing(t, t.(slot := T.Step(t, a).state.slot), w);
  }

  /* ---------- something always comes ---------- */

  /** Until everything is collected, some step of the last phase is enabled, the barrier notwithstanding. */
  lemma SomethingFinishes(t: T.State, m: T.Message) returns (a: T.Action)
    requires TT.Good(t) && Final(t) && !TI.Live(t.center) && t.center != T.Finished && IsSolution(m)
    ensures Finishing(a) && T.Enabled(t, a)
  {
    hide TI.Accounts, TI.Rooted, TI.SettledExcept, H.Inv;
    if t.center.Notifying? {
      return T.Notify(0, 0);
    }
    TI.QuietWhenPaid(t);
    if w: nat :| 1 <= w < t.n && t.phase[w] == T.Idle {
      NoticeInFront(t, w);
      return T.ReceiveTermination(w);
    }
    assert T.AllLeft(t);
    var r := t.center.next;
    assert Coming(t, r);
    a := if t.phase[r] == T.Done then T.Collect else T.SendSolution(r, m);
  }

  /** When the center has sent all notices, an idle worker finds its own. */
  lemma NoticeInFront(t: T.State, w: nat)
    requires TI.Core(t) && TI.Quiet(t) && Final(t) && !TI.Live(t.center) && !t.center.Notifying?
    requires 1 <= w < t.n && t.phase[w] == T.Idle
    ensures T.Enabled(t, T.ReceiveTermination(w))
  {
    hide TI.Accounts, TI.Rooted;
    assert Coming(t, w);
    assert T.Link(t.net, 0, w)[0] in T.Link(t.net, 0, w) && TI.Allowed(t, 0, w, T.Link(t.net, 0, w)[0]);
  }

  /* ---------- each step comes closer ---------- */

  function NoticesLeft(c: T.CenterPhase, n: nat): int {
    if c.Notifying? then n - c.next else 0
  }

  function Staying(t: T.State, w: nat): int {
    if 1 <= w < |t.phase| && t.phase[w] in {T.Idle, T.Leaving} then 2 else 0
  }

  /** Twice the notices left and the workers whose solution is not sent, and the messages in flight. */
  ghost function Remaining(t: T.State): int {
    2 * NoticesLeft(t.center, t.n) + Sum(t.n, (w: nat) => Staying(t, w)) + D.InFlight(t.n, t.net)
  }

  lemma RemainingNonNegative(t: T.State)
    requires t.center.Notifying? ==> t.center.next <= t.n
    ensures Remaining(t) >= 0
  {
    SumNonNegative(t.n, (w: nat) => Staying(t, w));
    forall p: nat | p < t.n ensures D.InFlightFrom(t.n, t.net, p) >= 0 {
      SumNonNegative(t.n, (q: nat) => |T.Link(t.net, p, q)|);
    }
    SumNonNegative(t.n, (p: nat) => D.InFlightFrom(t.n, t.net, p));
  }

  lemma NotifiedCloser(t: T.State, c: int, p: int)
    requires T.Enabled(t, T.Notify(c, p))
    ensures Remaining(T.Notified(t, c, p)) == Remaining(t) - 1
  {
    var t' := T.Notified(t, c, p);
    SumSame(t.n, (w: nat) => Staying(t, w), (w: nat) => Staying(t', w));
    D.InFlightChanges(t.n, t.net, t'.net, 0, t.center.next);
  }

  lemma LeavingCloser(t: T.State, w: nat)
    requires T.Enabled(t, T.ReceiveTermination(w))
    ensures Remaining(t.(phase := t.phase[w := T.Leaving], net := T.Drop(t.net, 0, w))) == Remaining(t) - 1
  {
    var t' := t.(phase := t.phase[w := T.Leaving], net := T.Drop(t.net, 0, w));
    SumSame(t.n, (x: nat) => Staying(t, x), (x: nat) => Staying(t', x));
    D.InFlightChanges(t.n, t.net, t'.net, 0, w);
  }

  lemma SolvedCloser(t: T.State, w: nat, m: T.Message)
    requires T.Enabled(t, T.SendSolution(w, m))
    ensures Remaining(t.(phase := t.phase[w := T.Done], net := T.Put(t.net, w, 0, m))) == Remaining(t) - 1
  {
    var t' := t.(phase := t.phase[w := T.Done], net := T.Put(t.net, w, 0, m));
    var f, g := (x: nat) => Staying(t, x), (x: nat) => Staying(t', x);
    SumOne(t.n, f, g, w);
    assert f(w) == 2 && g(w) == 0;
    D.InFlightChanges(t.n, t.net, t'.net, w, 0);
  }

  lemma CollectedCloser(t: T.State, last: bool)
    requires T.Enabled(t, T.Collect)
    ensures Remaining(T.Collected(t, last)) == Remaining(t) - 1
  {
    var t' := T.Collected(t, last);
    SumSame(t.n, (x: nat) => Staying(t, x), (x: nat) => Staying(t', x));
    D.InFlightChanges(t.n, t.net, t'.net, t.center.next, 0);
  }

  /** Every step of the last phase lowers the measure by one. */
  lemma FinishingCloser(t: T.State, a: T.Action)
    requires Finishing(a) && T.Enabled(t, a) && T.Step(t, a).Next?
    ensures Remaining(T.Step(t, a).state) == Remaining(t) - 1 && TI.Live(T.Step(t, a).state.center) == TI.Live(t.center)
  {
    hide Remaining;
    match a
    case Notify(c, p) => NotifiedCloser(t, c, p);
    case ReceiveTermination(w) => LeavingCloser(t, w);
    case SendSolution(w, m) => SolvedCloser(t, w, m);
    case Collect => CollectedCloser(t, IsSolution(T.Link(t.net, t.center.next, 0)[0]));
  }

  /* ---------- the full system does the same ---------- */

  /** The step of the full system that performs a receipt or a step of the last phase. */
  function Lifted(a: T.Action): Action {
    match a
    case CenterReport(w) => Report(w, 0)
    case Notify(_, _) => NotifyNext
    case ReceiveTermination(w) => TakeTermination(w)
    case SendSolution(w, _) => SendSolution(w)
    case Collect => CollectNext
    case _ => Protocol(a)
  }

  /** A receipt, or a step of the last phase: nothing that computes. */
  predicate Receipt(a: Action) {
    match a
    case Protocol(p) => D.Delivery(p)
    case Report(_, _) => true
    case _ => a.NotifyNext? || a.TakeTermination? || a.SendSolution? || a.CollectNext?
  }

  /** What the full system adds to the conditions of these steps always holds. */
  lemma LiftedEnabled(s: State, a: T.Action)
    requires All(s) && (D.Delivery(a) || Finishing(a)) && T.Enabled(s.t, a)
    ensures Enabled(s, Lifted(a))
  {
    hide All, Enabled;
    AllParts(s);
    match a
    case WorkerAck(src, w) => AckLifted(s, src, w);
    case CenterReport(w) => ReportLifted(s, w);
    case ReceiveTermination(w) => TerminationLifted(s, w);
    case CenterAck(w) => CenterAckLifted(s, w);
    case _ => OtherLifted(s, a);
  }

  lemma CenterAckLifted(s: State, w: nat)
    requires All(s) && T.Enabled(s.t, T.CenterAck(w))
    ensures Enabled(s, Protocol(T.CenterAck(w)))
  {
    hide TT.Good, Books;
    AllParts(s);
  }

  lemma AckLifted(s: State, src: nat, w: nat)
    requires All(s) && T.Enabled(s.t, T.WorkerAck(src, w))
    ensures Enabled(s, Protocol(T.WorkerAck(src, w)))
  {
    hide TT.Good, ScoreChannels, HelperChannels, Values, Payloads;
    AllParts(s);
    ProposerWorks(s, w);
  }

  lemma ReportLifted(s: State, w: nat)
    requires All(s) && T.Enabled(s.t, T.CenterReport(w))
    ensures Enabled(s, Report(w, 0))
  {
    hide TT.Good, Books;
    AllParts(s);
    ForestOk(s);
  }

  lemma TerminationLifted(s: State, w: nat)
    requires All(s) && T.Enabled(s.t, T.ReceiveTermination(w))
    ensures Enabled(s, TakeTermination(w))
  {
    hide TT.Good, Books, Drainable;
    AllParts(s);
    TerminationCounts(s, w);
  }

  lemma OtherLifted(s: State, a: T.Action)
    requires Sized(s) && T.Enabled(s.t, a) && (a.Notify? || a.SendSolution? || a.Collect?)
    ensures Enabled(s, Lifted(a))
  {
  }

  /** A notice and a solution get the payload that the center and the worker choose. */
  lemma PayloadProjects(s: State, a: T.Action) returns (p: T.Action)
    requires All(s) && (a.Notify? || a.SendSolution?) && Enabled(s, Lifted(a)) && Step(s, Lifted(a)).Next?
    ensures OneStep(s.t, [p], Step(s, Lifted(a)).state.t) && Finishing(p)
  {
    hide All, OwnStep, Solution, OneStep;
    AllParts(s);
    if a.Notify? {
      NotifyProjects(s);
      p := T.Notify(s.scoresSent, s.helpersSent[s.t.center.next]);
    } else {
      SendSolutionProjects(s, a.w);
      p := T.SendSolution(a.w, Solution(s.books[a.w]));
    }
  }

  lemma PlainProjects(s: State, a: T.Action)
    requires All(s) && (D.Delivery(a) || a.ReceiveTermination? || a.Collect?)
    requires Enabled(s, Lifted(a)) && Step(s, Lifted(a)).Next?
    ensures OneStep(s.t, [a], Step(s, Lifted(a)).state.t)
  {
    hide All, OwnEnabled, OwnStep, ProtocolEnabled, T.Step, OneStep;
    match a
    case CenterReport(w) => ReportProjects(s, w, 0);
    case ReceiveTermination(w) => TakeTerminationProjects(s, w);
    case Collect => CollectProjects(s);
    case _ => ProtocolProjects(s, a);
  }

  lemma LiftedProjects(s: State, a: T.Action) returns (p: T.Action)
    requires All(s) && (D.Delivery(a) || Finishing(a)) && Enabled(s, Lifted(a)) && Step(s, Lifted(a)).Next?
    ensures OneStep(s.t, [p], Step(s, Lifted(a)).state.t)
    ensures (D.Delivery(a) ==> p == a) && (Finishing(a) ==> Finishing(p))
  {
    hide All, OwnEnabled, OwnStep, ProtocolEnabled, T.Step, OneStep;
    p := a;
    if a.Notify? || a.SendSolution? {
      p := PayloadProjects(s, a);
    } else {
      PlainProjects(s, a);
    }
  }

  /** Its effect on the protocol's state is the same step's, with the payload the center or the worker chooses. */
  lemma LiftedStep(s: State, a: T.Action) returns (p: T.Action)
    requires All(s) && (D.Delivery(a) || Finishing(a)) && T.Enabled(s.t, a)
    ensures Enabled(s, Lifted(a)) && Step(s, Lifted(a)).Next? && All(Step(s, Lifted(a)).state)
    ensures T.Enabled(s.t, p) && T.Step(s.t, p) == Next(Step(s, Lifted(a)).state.t)
    ensures (D.Delivery(a) ==> p == a) && (Finishing(a) ==> Finishing(p)) && Receipt(Lifted(a))
  {
    hide All, Enabled, Step, T.Enabled, T.Step;
    LiftedEnabled(s, a);
    StepSafe(s, Lifted(a));
    p := LiftedProjects(s, a);
  }

  /** What is to come stays to come in the full system. */
  lemma FinalKept(s: State, a: Action)
    requires All(s) && Final(s.t) && Enabled(s, a)
    ensures Step(s, a).Next? && All(Step(s, a).state) && Final(Step(s, a).state.t)
  {
    hide Books, TT.Good, Final, Enabled, Step;
    StepSafe(s, a);
    var ps := StepProjects(s, a);
    if ps != [] {
      FinalStep(s.t, ps[0]);
    }
  }

  lemma {:induction false} RunFinal(s: State, actions: seq<Action>)
    requires All(s) && Final(s.t) && Run(s, actions).Some?
    ensures Run(s, actions).value.Next?
    ensures All(Run(s, actions).value.state) && Final(Run(s, actions).value.state.t)
    decreases |actions|
  {
    hide All, Final, Enabled, Step;
    if actions != [] {
      FinalKept(s, actions[0]);
      RunFinal(Step(s, actions[0]).state, actions[1..]);
    }
  }

  lemma {:induction false} RunJoined(s: State, first: seq<Action>, second: seq<Action>)
    requires Run(s, first).Some? && Run(s, first).value.Next?
    ensures Run(s, first + second) == Run(Run(s, first).value.state, second)
    decreases |first|
  {
    hide Enabled, Step;
    if first == [] {
      assert first + second == second;
    } else {
      assert (first + second)[0] == first[0] && (first + second)[1..] == first[1..] + second;
      RunJoined(Step(s, first[0]).state, first[1..], second);
    }
  }

  /** The run takes s to a state of which the center's phase is c. */
  ghost predicate Reaches(s: State, actions: seq<Action>, c: T.CenterPhase) {
    Run(s, actions).Some? && Run(s, actions).value.Next? && Run(s, actions).value.state.t.center == c
  }

  lemma ReachesNow(s: State)
    ensures Reaches(s, [], s.t.center)
  {
  }

  lemma ReachesThen(s: State, a: Action, rest: seq<Action>, c: T.CenterPhase)
    requires Enabled(s, a) && Step(s, a).Next? && Reaches(Step(s, a).state, rest, c)
    ensures Reaches(s, [a] + rest, c)
  {
    assert ([a] + rest)[1..] == rest;
  }

  /** A resting system reaches its termination notices. */
  lemma {:induction false} NoticesAreReached(s: State) returns (actions: seq<Action>)
    requires All(s) && D.Resting(s.t)
    ensures |actions| <= D.Measure(s.t) && Reaches(s, actions, T.Notifying(1))
    ensures forall a | a in actions :: Receipt(a)
    decreases D.Measure(s.t)
  {
    hide Books, TT.Good, D.Resting, D.Measure, D.Delivery, T.Enabled, T.Step, Enabled, Step, Reaches, Receipt, Lifted;
    D.MeasureNonNegative(s.t);
    var a := D.SomethingArrives(s.t);
    var p := LiftedStep(s, a);
    D.StepCloser(s.t, p);
    var s' := Step(s, Lifted(a)).state;
    D.MeasureNonNegative(s'.t);
    var rest := [];
    if s'.t.center == T.Notifying(1) {
      ReachesNow(s');
    } else {
      rest := NoticesAreReached(s');
    }
    ReachesThen(s, Lifted(a), rest, T.Notifying(1));
    actions := [Lifted(a)] + rest;
  }

  lemma PastLoop(t: T.State)
    requires TT.Good(t)
    ensures t.center.Notifying? ==> t.center.next <= t.n
  {
  }

  /** From the notices on, the steps of the last phase lead to the end. */
  lemma {:induction false} EndIsReached(s: State) returns (actions: seq<Action>)
    requires All(s) && Final(s.t) && !TI.Live(s.t.center)
    ensures |actions| <= Remaining(s.t) && Reaches(s, actions, T.Finished)
    ensures forall a | a in actions :: Receipt(a)
    decreases Remaining(s.t)
  {
    hide Books, TT.Good, Final, Remaining, Finishing, T.Enabled, T.Step, Enabled, Step, Reaches, Receipt, Lifted;
    PastLoop(s.t);
    RemainingNonNegative(s.t);
    if s.t.center == T.Finished {
      ReachesNow(s);
      return [];
    }
    var a := SomethingFinishes(s.t, T.NoResult);
    var p := LiftedStep(s, a);
    FinishingCloser(s.t, p);
    FinalKept(s, Lifted(a));
    var s' := Step(s, Lifted(a)).state;
    PastLoop(s'.t);
    RemainingNonNegative(s'.t);
    var rest := EndIsReached(s');
    ReachesThen(s, Lifted(a), rest, T.Finished);
    actions := [Lifted(a)] + rest;
  }

  lemma InitFinal(n: nat, goal: Goal, kind: Kind, initial: int)
    requires n >= 2
    ensures Final(Init(n, goal, kind, initial).t)
  {
  }

  /**
   * Wherever a run stands once its work has stopped, resting or past the center's loop, it can be continued
   * until the center has collected every worker.
   */
  lemma CompletionIsReached(n: nat, goal: Goal, kind: Kind, initial: int, actions: seq<Action>)
    returns (more: seq<Action>)
    requires n >= 2 && Run(Init(n, goal, kind, initial), actions).Some?
    requires Run(Init(n, goal, kind, initial), actions).value.Next? ==>
      var t := Run(Init(n, goal, kind, initial), actions).value.state.t; D.Resting(t) || !TI.Live(t.center)
    ensures Reaches(Init(n, goal, kind, initial), actions + more, T.Finished)
    ensures forall a | a in more :: Receipt(a)
  {
    hide All, Final, Run, D.Resting, Receipt;
    var s0 := Init(n, goal, kind, initial);
    InitAll(n, goal, kind, initial);
    InitFinal(n, goal, kind, initial);
    RunFinal(s0, actions);
    var s := Run(s0, actions).value.state;
    var quiet := [];
    if TI.Live(s.t.center) {
      quiet := NoticesAreReached(s);
      RunFinal(s, quiet);
      RunJoined(s0, actions, quiet);
    } else {
      assert actions + [] == actions;
    }
    var last := EndIsReached(Run(s0, actions + quiet).value.state);
    RunJoined(s0, actions + quiet, last);
    assert actions + (quiet + last) == (actions + quiet) + last;
    more := quiet + last;
  }
}

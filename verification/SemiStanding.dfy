/**
 * What the semi-centralized center believes of its workers: in every run of the full system its record of a worker,
 * brought up to date by the reports still on their way, says whether the worker is working.
 */
module SemiStanding {
  import opened Common
  import opened SemiScores
  import opened SemiScoresInvariant
  import opened SemiRuns
  import opened SemiSolution
  import C = SemiCompletion
  import T = SemiProtocol
  import TI = SemiInvariant
  import TT = SemiTermination
  import H = Handoff
  import F = Forest

  /** Whether the center takes the worker for running, after one more message of its. */
  predicate Told(m: T.Message, recorded: bool) {
    m.Running? || (recorded && !m.Available?)
  }

  /** And after all that are queued. */
  predicate Word(link: seq<T.Message>, recorded: bool) {
    if link == [] then recorded else Word(link[1..], Told(link[0], recorded))
  }

  lemma {:induction false} WordAppended(link: seq<T.Message>, m: T.Message, recorded: bool)
    ensures Word(link + [m], recorded) == Told(m, Word(link, recorded))
  {
    if link != [] {
      assert (link + [m])[1..] == link[1..] + [m];
      WordAppended(link[1..], m, Told(link[0], recorded));
    }
  }

  lemma {:induction false} NoReports(link: seq<T.Message>, recorded: bool)
    requires forall m | m in link :: !m.Running? && !m.Available?
    ensures Word(link, recorded) == recorded
  {
    if link != [] {
      NoReports(link[1..], recorded);
    }
  }

  /** Rank 1 counts as running from the start, because the seed is for it. */
  predicate SeedDue(t: T.State) {
    t.center == T.Starting || T.Link(t.net, 0, 1) != []
  }

  predicate Busy(t: T.State, w: nat)
    requires w < |t.phase|
  {
    t.phase[w] == T.Working || (w == 1 && SeedDue(t))
  }

  predicate AgreesOn(t: T.State, standing: seq<F.Standing>, w: nat)
    requires w < |t.phase| && w < |standing|
  {
    Word(T.Link(t.net, w, 0), standing[w] == F.Running) == Busy(t, w)
  }

  /** The record, with the queued reports, is right of every worker; and the center sends rank 1 the seed only. */
  ghost predicate Agrees(t: T.State, standing: seq<F.Standing>) {
    && |standing| == |t.phase| == t.n
    && (TI.Live(t.center) ==> forall w: nat | 1 <= w < t.n :: AgreesOn(t, standing, w))
    && (t.center == T.Starting ==> T.Link(t.net, 0, 1) == [])
    && (t.center == T.Serving ==> |T.Link(t.net, 0, 1)| <= 1)
  }

  /* ---------- steps of the protocol ---------- */

  lemma SeedAgrees(t: T.State, standing: seq<F.Standing>, b: Bundle)
    requires TT.Good(t) && Agrees(t, standing) && T.Enabled(t, T.SendSeed(b))
    ensures Agrees(T.SeedSent(t, b), standing)
  {
    forall w: nat | 1 <= w < t.n ensures AgreesOn(T.SeedSent(t, b), standing, w) {
      assert AgreesOn(t, standing, w);
    }
  }

  /** A message that reports nothing leaves the worker's word as it is. */
  lemma PutWord(net: T.Net, p: nat, q: int, m: T.Message, w: nat, recorded: bool)
    ensures Word(T.Link(T.Put(net, p, q, m), w, 0), recorded)
            == var was := Word(T.Link(net, w, 0), recorded); if p == w && q == 0 then Told(m, was) else was
  {
    WordAppended(T.Link(net, w, 0), m, recorded);
  }

  lemma ReleaseWord(t: T.State, w: nat, x: nat, recorded: bool)
    requires w < |t.det|
    ensures var t' := T.ReleaseParent(t, w);
            && Word(T.Link(t'.net, x, 0), recorded) == Word(T.Link(t.net, x, 0), recorded)
            && (w >= 1 ==> T.Link(t'.net, 0, 1) == T.Link(t.net, 0, 1))
            && t' == t.(det := t'.det, net := t'.net)
  {
    PutWord(t.net, w, t.det[w].parent, T.Ack, x, recorded);
  }

  lemma ReceiveAgrees(t: T.State, standing: seq<F.Standing>, src: nat, w: nat, thread: nat)
    requires TT.Good(t) && Agrees(t, standing) && T.Enabled(t, T.ReceiveTask(src, w, thread))
    ensures Agrees(T.TaskAccepted(t, src, w, thread), standing)
  {
    hide TT.Good;
    var t' := T.TaskAccepted(t, src, w, thread);
    var net := T.Drop(t.net, src, w);
    var acked := if t.det[w].TaskReceived(src).1.Some? then T.Put(net, w, src, T.Ack) else net;
    forall x: nat | 1 <= x < t.n && TI.Live(t.center) ensures AgreesOn(t', standing, x) {
      assert AgreesOn(t, standing, x);
      PutWord(net, w, src, T.Ack, x, standing[x] == F.Running);
      PutWord(acked, w, 0, T.Running, x, standing[x] == F.Running);
    }
  }

  lemma SendAgrees(t: T.State, standing: seq<F.Standing>, w: nat, step: H.Action)
    requires TT.Good(t) && Agrees(t, standing) && T.Enabled(t, T.Local(w, step)) && T.Step(t, T.Local(w, step)).Next?
    ensures Agrees(T.Step(t, T.Local(w, step)).state, standing)
  {
    hide TT.Good, H.Step;
    var t' := T.Step(t, T.Local(w, step)).state;
    forall x: nat | 1 <= x < t.n && TI.Live(t.center) ensures AgreesOn(t', standing, x) {
      assert AgreesOn(t, standing, x);
      if step.Send? {
        PutWord(t.net, w, t.slot[w].destination, T.Task(t.slot[w].funnel.bundle), x, standing[x] == F.Running);
      }
    }
  }

  lemma FinishAgrees(t: T.State, standing: seq<F.Standing>, w: nat)
    requires TT.Good(t) && Agrees(t, standing) && T.Enabled(t, T.FinishTask(w))
    ensures Agrees(T.TaskFinished(t, w), standing)
  {
    C.WorkingServed(t, w);
    hide TT.Good, T.ReleaseParent;
    var t1 := t.(phase := t.phase[w := T.Idle], net := T.Put(t.net, w, 0, T.Available));
    ReleaseWord(t1, w, 1, true);
    forall x: nat | 1 <= x < t.n && TI.Live(t.center) ensures AgreesOn(T.TaskFinished(t, w), standing, x) {
      assert AgreesOn(t, standing, x);
      PutWord(t.net, w, 0, T.Available, x, standing[x] == F.Running);
      ReleaseWord(t1, w, x, standing[x] == F.Running);
    }
  }

  /** The center sends no acknowledgements. */
  lemma AckFromWorker(t: T.State, src: nat, w: nat)
    requires TT.Good(t) && T.Enabled(t, T.WorkerAck(src, w))
    ensures src >= 1
  {
    hide TI.Accounts, TI.Rooted, TI.SettledExcept, TI.SlotsOk, H.Idle;
    assert TI.Allowed(t, src, w, T.Link(t.net, src, w)[0]);
  }

  lemma AckAgrees(t: T.State, standing: seq<F.Standing>, src: nat, w: nat)
    requires TT.Good(t) && Agrees(t, standing) && T.Enabled(t, T.WorkerAck(src, w))
    ensures Agrees(T.AckTaken(t, src, w), standing)
  {
    hide TT.Good, T.ReleaseParent;
    AckFromWorker(t, src, w);
    var t1 := t.(det := t.det[w := t.det[w].AckReceived().0], net := T.Drop(t.net, src, w));
    ReleaseWord(t1, w, 1, true);
    forall x: nat | 1 <= x < t.n && TI.Live(t.center) ensures AgreesOn(T.AckTaken(t, src, w), standing, x) {
      assert AgreesOn(t, standing, x);
      ReleaseWord(t1, w, x, standing[x] == F.Running);
    }
  }

  lemma CenterAckAgrees(t: T.State, standing: seq<F.Standing>, w: nat)
    requires Agrees(t, standing) && T.Enabled(t, T.CenterAck(w))
    ensures Agrees(T.CenterAckTaken(t, w), standing)
  {
    forall x: nat | 1 <= x < t.n ensures AgreesOn(T.CenterAckTaken(t, w), standing, x) {
      assert AgreesOn(t, standing, x);
    }
  }

  lemma ProtocolAgrees(s: State, p: T.Action)
    requires All(s) && ProtocolEnabled(s, p) && Agrees(s.t, s.forest.standing) && T.Step(s.t, p).Next?
    ensures Agrees(T.Step(s.t, p).state, s.forest.standing)
  {
    hide TT.Good, Books, Agrees, T.TaskAccepted, T.TaskFinished, T.AckTaken, T.CenterAckTaken, T.SeedSent;
    match p
    case SendSeed(b) => SeedAgrees(s.t, s.forest.standing, b);
    case ReceiveTask(src, w, thread) => ReceiveAgrees(s.t, s.forest.standing, src, w, thread);
    case Local(w, step) => SendAgrees(s.t, s.forest.standing, w, step);
    case FinishTask(w) => FinishAgrees(s.t, s.forest.standing, w);
    case WorkerAck(src, w) => AckAgrees(s.t, s.forest.standing, src, w);
    case CenterAck(w) => CenterAckAgrees(s.t, s.forest.standing, w);
  }

  /* ---------- the center's reports ---------- */

  /** A handler records the reporter as it reported, and takes nobody else for running or not running. */
  lemma HandledStanding(s: State, w: nat, offset: nat)
    requires All(s) && OwnEnabled(s, Report(w, offset))
    ensures Handled(s, w, offset).Next?
    ensures var standing, after := s.forest.standing, Handled(s, w, offset).state.0.standing;
            && |after| == |standing| && (after[w] == F.Running <==> T.First(s.t, w, 0) == Some(T.Running))
            && forall x | 0 <= x < |standing| && x != w :: after[x] == F.Running <==> standing[x] == F.Running
  {
    hide TT.Good, ScoreChannels, Values, Payloads, F.ProcessRunning, F.ProcessAvailable;
    F.ProcessRunningObeys(s.forest, w);
    F.ProcessAvailableObeys(s.forest, w, offset);
    hide F.Lists;
  }

  /** The front report is taken, and only the reporter's record follows it. */
  lemma TakenAgrees(t: T.State, before: seq<F.Standing>, after: seq<F.Standing>, w: nat)
    requires Agrees(t, before) && t.center == T.Serving && 1 <= w < t.n && |after| == |before|
    requires T.First(t, w, 0) in {Some(T.Running), Some(T.Available)}
    requires after[w] == F.Running <==> T.First(t, w, 0) == Some(T.Running)
    requires forall x | 0 <= x < |before| && x != w :: after[x] == F.Running <==> before[x] == F.Running
    ensures Agrees(t.(net := T.Drop(t.net, w, 0)), after)
  {
    forall x: nat | 1 <= x < t.n ensures AgreesOn(t.(net := T.Drop(t.net, w, 0)), after, x) {
      assert AgreesOn(t, before, x);
    }
  }

  lemma ReportAgrees(s: State, w: nat, offset: nat)
    requires All(s) && OwnEnabled(s, Report(w, offset)) && Agrees(s.t, s.forest.standing)
    requires OwnStep(s, Report(w, offset)).Next?
    ensures var s' := OwnStep(s, Report(w, offset)).state; Agrees(s'.t, s'.forest.standing)
  {
    HandledStanding(s, w, offset);
    hide All, Handled, Agrees;
    TakenAgrees(s.t, s.forest.standing, Handled(s, w, offset).state.0.standing, w);
  }

  /**
   * What the center does with a report, whatever its code: its view changes as it should, and the one rank that is
   * named a helper, if any, gets just that rank on a list, and has one more list counted.
   */
  lemma ReportNames(s: State, w: nat, offset: nat) returns (m: Option<F.Assignment>)
    requires All(s) && OwnEnabled(s, Report(w, offset))
    ensures OwnStep(s, Report(w, offset)).Next? && Sized(s) && Sized(OwnStep(s, Report(w, offset)).state)
    ensures var s' := OwnStep(s, Report(w, offset)).state;
            && (if T.First(s.t, w, 0) == Some(T.Running) then F.RunningLaw(s.forest, w, (s'.forest, m))
                else F.AvailableLaw(s.forest, w, offset, (s'.forest, m)))
            && (forall q | 0 <= q < s.t.n ::
                 var named := m.Some? && m.value.to == q;
                 && s'.helperNet[q] == s.helperNet[q] + (if named then [[m.value.helper as int]] else [])
                 && s'.helpersSent[q] == s.helpersSent[q] + if named then 1 else 0)
  {
    hide All, Handled, Reported, F.RunningLaw, F.AvailableLaw;
    HandledLaw(s, w, offset);
    var o := Handled(s, w, offset).state;
    m := o.1;
    ReportIs(s, w, offset);
    ListsSent(s, s.t.(net := T.Drop(s.t.net, w, 0)), o);
  }

  lemma ReportIs(s: State, w: nat, offset: nat)
    requires OwnEnabled(s, Report(w, offset)) && Handled(s, w, offset).Next?
    requires Handled(s, w, offset).state.1.Some? ==> Handled(s, w, offset).state.1.value.to < s.t.n
    ensures OwnStep(s, Report(w, offset))
            == Next(Reported(s, s.t.(net := T.Drop(s.t.net, w, 0)), Handled(s, w, offset).state))
  {
    hide Handled, Reported;
  }

  lemma ListsSent(s: State, t: T.State, o: (F.Center, Option<F.Assignment>))
    requires Sized(s) && |o.0.standing| == s.t.n && t == s.t.(net := t.net) && (o.1.Some? ==> o.1.value.to < s.t.n)
    ensures var s' := Reported(s, t, o);
            && Sized(s') && s'.forest == o.0
            && (forall q | 0 <= q < s.t.n ::
                 var named := o.1.Some? && o.1.value.to == q;
                 && s'.helperNet[q] == s.helperNet[q] + (if named then [[o.1.value.helper as int]] else [])
                 && s'.helpersSent[q] == s.helpersSent[q] + if named then 1 else 0)
  {
  }

  lemma HandledLaw(s: State, w: nat, offset: nat)
    requires All(s) && OwnEnabled(s, Report(w, offset))
    ensures Sized(s) && Handled(s, w, offset).Next?
    ensures var o := Handled(s, w, offset).state;
            && |o.0.standing| == s.t.n && (o.1.Some? ==> o.1.value.to < s.t.n)
            && if T.First(s.t, w, 0) == Some(T.Running) then F.RunningLaw(s.forest, w, o)
               else F.AvailableLaw(s.forest, w, offset, o)
  {
    hide TT.Good, ScoreChannels, Values, Payloads, F.ProcessRunning, F.ProcessAvailable;
    F.ProcessRunningObeys(s.forest, w);
    F.ProcessAvailableObeys(s.forest, w, offset);
    hide F.Lists;
  }

  /* ---------- the other steps ---------- */

  /** Only slots, books and what is not looked at changes. */
  lemma SameAgrees(t: T.State, t': T.State, standing: seq<F.Standing>)
    requires Agrees(t, standing) && t' == t.(slot := t'.slot)
    ensures Agrees(t', standing)
  {
    forall x: nat | 1 <= x < t.n && TI.Live(t.center) ensures AgreesOn(t', standing, x) {
      assert AgreesOn(t, standing, x);
    }
  }

  lemma TerminationAgrees(s: State, w: nat)
    requires All(s) && OwnEnabled(s, TakeTermination(w)) && Agrees(s.t, s.forest.standing)
    requires OwnStep(s, TakeTermination(w)).Next?
    ensures var s' := OwnStep(s, TakeTermination(w)).state; Agrees(s'.t, s'.forest.standing)
  {
    hide Books, Drained, AgreesOn;
    var m := T.First(s.t, 0, w).value;
    assert TI.Allowed(s.t, 0, w, m);
    LeftKeeps(s, w, m.scoreUpdates, m.nextProcesses);
  }

  lemma SolutionAgrees(t: T.State, standing: seq<F.Standing>, w: nat, m: T.Message)
    requires Agrees(t, standing) && T.Enabled(t, T.SendSolution(w, m))
    ensures Agrees(t.(phase := t.phase[w := T.Done], net := T.Put(t.net, w, 0, m)), standing)
  {
    var t' := t.(phase := t.phase[w := T.Done], net := T.Put(t.net, w, 0, m));
    forall x: nat | 1 <= x < t.n && TI.Live(t.center) ensures AgreesOn(t', standing, x) {
      assert AgreesOn(t, standing, x);
      PutWord(t.net, w, 0, m, x, standing[x] == F.Running);
    }
  }

  lemma OwnAgrees(s: State, a: Action)
    requires All(s) && OwnEnabled(s, a) && OwnStep(s, a).Next? && Agrees(s.t, s.forest.standing)
    ensures var s' := OwnStep(s, a).state; Agrees(s'.t, s'.forest.standing)
  {
    hide All, Agrees;
    match a
    case Report(w, offset) => ReportAgrees(s, w, offset);
    case TakeTermination(w) => TerminationAgrees(s, w);
    case SendSolution(w) => SolutionAgrees(s.t, s.forest.standing, w, Solution(s.books[w]));
    case NotifyNext => LateAgrees(s, a);
    case CollectNext => LateAgrees(s, a);
    case ReceiveScore(_) => SameAgrees(s.t, OwnStep(s, a).state.t, s.forest.standing);
    case ReceiveHelpers(_) => SameAgrees(s.t, OwnStep(s, a).state.t, s.forest.standing);
    case UpdateScore(_) => SameAgrees(s.t, OwnStep(s, a).state.t, s.forest.standing);
    case TakeProposal(_) => SameAgrees(s.t, OwnStep(s, a).state.t, s.forest.standing);
    case Accept(_, _, _, _) => SameAgrees(s.t, OwnStep(s, a).state.t, s.forest.standing);
  }

  lemma LateAgrees(s: State, a: Action)
    requires OwnEnabled(s, a) && OwnStep(s, a).Next? && Agrees(s.t, s.forest.standing)
    requires a.NotifyNext? || a.CollectNext?
    ensures var s' := OwnStep(s, a).state; Agrees(s'.t, s'.forest.standing)
  {
    hide AgreesOn;
  }

  lemma StepAgrees(s: State, a: Action)
    requires All(s) && Enabled(s, a) && Step(s, a).Next? && Agrees(s.t, s.forest.standing)
    ensures var s' := Step(s, a).state; Agrees(s'.t, s'.forest.standing) && s'.t.n == s.t.n
  {
    hide All, Agrees;
    StepInputs(s, a);
    if a.Protocol? {
      ProtocolAgrees(s, a.a);
    } else {
      OwnAgrees(s, a);
    }
  }

  /* ---------- whole runs ---------- */

  lemma {:induction false} RunAgrees(s: State, actions: seq<Action>)
    requires All(s) && Agrees(s.t, s.forest.standing) && Run(s, actions).Some?
    ensures Run(s, actions).value.Next?
    ensures var s' := Run(s, actions).value.state; All(s') && Agrees(s'.t, s'.forest.standing) && s'.t.n == s.t.n
    decreases |actions|
  {
    hide All, Agrees, Enabled, Step;
    if actions != [] {
      StepSafe(s, actions[0]);
      StepAgrees(s, actions[0]);
      RunAgrees(Step(s, actions[0]).state, actions[1..]);
    }
  }

  lemma InitAgrees(n: nat, goal: Goal, kind: Kind, initial: int)
    requires n >= 2
    ensures var s := Init(n, goal, kind, initial); Agrees(s.t, s.forest.standing)
  {
    hide F.DefaultTree;
    var s := Init(n, goal, kind, initial);
    forall w: nat | 1 <= w < n ensures AgreesOn(s.t, s.forest.standing, w) {
    }
  }

  lemma AgreesSizes(t: T.State, standing: seq<F.Standing>)
    requires Agrees(t, standing)
    ensures |standing| == |t.phase| == t.n
  {
  }

  /** The record of a worker that has no report on its way. */
  lemma AgreesNow(t: T.State, standing: seq<F.Standing>, w: nat)
    requires Agrees(t, standing) && t.center == T.Serving && 1 <= w < t.n
    requires forall m | m in T.Link(t.net, w, 0) :: !m.Running? && !m.Available?
    ensures standing[w] == F.Running <==> t.phase[w] == T.Working || (w == 1 && T.Link(t.net, 0, 1) != [])
  {
    assert AgreesOn(t, standing, w);
    NoReports(T.Link(t.net, w, 0), standing[w] == F.Running);
  }

  /**
   * In every run of the full system: while the center serves and no report of worker w is on its way, the center has w
   * down as RUNNING if and only if w is working - or is rank 1, with the seed still on its way.
   */
  lemma StandingIsExact(n: nat, goal: Goal, kind: Kind, initial: int, actions: seq<Action>, w: nat)
    requires 1 <= w < n && Run(Init(n, goal, kind, initial), actions).Some?
    ensures Run(Init(n, goal, kind, initial), actions).value.Next?
    ensures var s := Run(Init(n, goal, kind, initial), actions).value.state;
            && w < |s.t.phase| && w < |s.forest.standing|
            && (s.t.center == T.Serving && (forall m | m in T.Link(s.t.net, w, 0) :: !m.Running? && !m.Available?) ==>
                 (s.forest.standing[w] == F.Running
                  <==> s.t.phase[w] == T.Working || (w == 1 && T.Link(s.t.net, 0, 1) != [])))
  {
    hide All, Agrees, Run, Init;
    var s0 := Init(n, goal, kind, initial);
    InitAll(n, goal, kind, initial);
    InitAgrees(n, goal, kind, initial);
    RunAgrees(s0, actions);
    InitInputs(n, goal, kind, initial);
    var s := Run(s0, actions).value.state;
    AgreesSizes(s.t, s.forest.standing);
    if s.t.center == T.Serving && forall m | m in T.Link(s.t.net, w, 0) :: !m.Running? && !m.Available? {
      AgreesNow(s.t, s.forest.standing, w);
    }
  }
}

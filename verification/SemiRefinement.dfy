/** The full semi-centralized run refines the bare protocol, so what is proved of the protocol holds of it. */
module SemiRefinement {
  import opened Common
  import opened SemiScores
  import opened SemiScoresInvariant
  import opened SemiRuns
  import opened SemiSolution
  import T = SemiProtocol
  import TI = SemiInvariant
  import TT = SemiTermination
  import TL = SemiLedger
  import H = Handoff

  /** t' is t, or the protocol state one step later. */
  ghost predicate OneStep(t: T.State, ps: seq<T.Action>, t': T.State) {
    || (ps == [] && t' == t)
    || (|ps| == 1 && T.Enabled(t, ps[0]) && T.Step(t, ps[0]) == Next(t'))
  }

  lemma ReportProjects(s: State, w: nat, offset: nat)
    requires OwnEnabled(s, Report(w, offset)) && OwnStep(s, Report(w, offset)).Next?
    ensures OneStep(s.t, [T.CenterReport(w)], OwnStep(s, Report(w, offset)).state.t)
  {
  }

  lemma HelpersOneStep(t: T.State, w: nat, v: seq<int>)
    requires T.Enabled(t, T.Local(w, H.ReceiveHelpers(v)))
    ensures OneStep(t, [T.Local(w, H.ReceiveHelpers(v))], t.(slot := t.slot[w := H.HelpersReceived(t.slot[w], v)]))
  {
  }

  lemma ReceiveHelpersProjects(s: State, w: nat)
    requires All(s) && OwnEnabled(s, ReceiveHelpers(w)) && OwnStep(s, ReceiveHelpers(w)).Next?
    ensures OneStep(s.t, [T.Local(w, H.ReceiveHelpers(s.helperNet[w][0]))], OwnStep(s, ReceiveHelpers(w)).state.t)
  {
    hide TT.Good, HelperChannels, Values, ScoreChannels, Payloads;
    HelperListAccepted(s, w);
    HelpersOneStep(s.t, w, s.helperNet[w][0]);
    ReceiveHelpersIs(s, w);
  }

  lemma NotifyProjects(s: State)
    requires OwnEnabled(s, NotifyNext)
    ensures OneStep(s.t, [T.Notify(s.scoresSent, s.helpersSent[s.t.center.next])], OwnStep(s, NotifyNext).state.t)
  {
  }

  lemma TakeTerminationProjects(s: State, w: nat)
    requires OwnEnabled(s, TakeTermination(w)) && OwnStep(s, TakeTermination(w)).Next?
    ensures OneStep(s.t, [T.ReceiveTermination(w)], OwnStep(s, TakeTermination(w)).state.t)
  {
  }

  lemma SendSolutionProjects(s: State, w: nat)
    requires OwnEnabled(s, SendSolution(w))
    ensures OneStep(s.t, [T.SendSolution(w, Solution(s.books[w]))], OwnStep(s, SendSolution(w)).state.t)
  {
  }

  lemma CollectProjects(s: State)
    requires OwnEnabled(s, CollectNext) && OwnStep(s, CollectNext).Next?
    ensures OneStep(s.t, [T.Collect], OwnStep(s, CollectNext).state.t)
  {
  }

  lemma ScoreProjects(s: State, a: Action)
    requires OwnEnabled(s, a) && (a.UpdateScore? || a.TakeProposal? || a.ReceiveScore? || a.Accept?)
    ensures OwnStep(s, a).Next? && OneStep(s.t, [], OwnStep(s, a).state.t)
  {
  }

  lemma OwnProjects(s: State, a: Action) returns (ps: seq<T.Action>)
    requires All(s) && OwnEnabled(s, a) && OwnStep(s, a).Next?
    ensures OneStep(s.t, ps, OwnStep(s, a).state.t)
  {
    hide OneStep, OwnStep, All;
    match a
    case Report(w, offset) =>
      ReportProjects(s, w, offset);
      ps := [T.CenterReport(w)];
    case ReceiveHelpers(w) =>
      ReceiveHelpersProjects(s, w);
      ps := [T.Local(w, H.ReceiveHelpers(s.helperNet[w][0]))];
    case NotifyNext =>
      NotifyProjects(s);
      ps := [T.Notify(s.scoresSent, s.helpersSent[s.t.center.next])];
    case TakeTermination(w) =>
      TakeTerminationProjects(s, w);
      ps := [T.ReceiveTermination(w)];
    case SendSolution(w) =>
      SendSolutionProjects(s, w);
      ps := [T.SendSolution(w, Solution(s.books[w]))];
    case CollectNext =>
      CollectProjects(s);
      ps := [T.Collect];
    case _ =>
      ScoreProjects(s, a);
      ps := [];
  }

  lemma ProtocolProjects(s: State, p: T.Action)
    requires Enabled(s, Protocol(p)) && Step(s, Protocol(p)).Next?
    ensures OneStep(s.t, [p], Step(s, Protocol(p)).state.t)
  {
  }

  lemma StepProjects(s: State, a: Action) returns (ps: seq<T.Action>)
    requires All(s) && Enabled(s, a) && Step(s, a).Next?
    ensures OneStep(s.t, ps, Step(s, a).state.t)
  {
    if a.Protocol? {
      ProtocolProjects(s, a.a);
      ps := [a.a];
    } else {
      ps := OwnProjects(s, a);
    }
  }

  lemma RunPrefixed(t: T.State, ps: seq<T.Action>, t': T.State, rest: seq<T.Action>)
    requires OneStep(t, ps, t')
    ensures TT.Run(t, ps + rest) == TT.Run(t', rest)
  {
    if ps == [] {
      assert ps + rest == rest;
    } else {
      assert (ps + rest)[0] == ps[0] && (ps + rest)[1..] == rest;
    }
  }

  /** Every run of the full system, seen without scores and counters, is a run of the protocol. */
  lemma {:induction false} RunProjects(s: State, actions: seq<Action>) returns (ps: seq<T.Action>)
    requires All(s) && Run(s, actions).Some?
    ensures Run(s, actions).value.Next? && TT.Run(s.t, ps) == Some(Next(Run(s, actions).value.state.t))
    decreases |actions|
  {
    if actions == [] {
      return [];
    }
    StepSafe(s, actions[0]);
    var s1 := Step(s, actions[0]).state;
    var qs := StepProjects(s, actions[0]);
    var rest := RunProjects(s1, actions[1..]);
    RunPrefixed(s.t, qs, s1.t, rest);
    ps := qs + rest;
  }

  /**
   * So in the full system, too, every task a worker pushed or the center seeded is received exactly once and
   * in order on its link by the time the center has left its loop.
   */
  lemma EveryTaskArrivesOnce(n: nat, goal: Goal, kind: Kind, initial: int, actions: seq<Action>)
    requires n >= 2 && Run(Init(n, goal, kind, initial), actions).Some?
    ensures Run(Init(n, goal, kind, initial), actions).value.Next?
    ensures var t := Run(Init(n, goal, kind, initial), actions).value.state.t;
            |t.slot| == n && (!TI.Live(t.center) ==>
              && T.Entries(t.received, 0, 1) == t.seeds
              && forall p: nat, q: nat | 1 <= p < n && q < n ::
                 T.Entries(t.received, p, q) == TL.SentTo(t.slot[p].pushed, q))
  {
    InitAll(n, goal, kind, initial);
    var ps := RunProjects(Init(n, goal, kind, initial), actions);
    TL.EveryTaskArrivesOnce(n, ps);
  }
}

/** Whole semi-centralized runs: nothing throws, the drains are exact, and the best solution is fetched. */
module SemiSolution {
  import opened Common
  import opened SemiScores
  import opened SemiScoresInvariant
  import opened SemiRuns
  import opened SemiOutcome
  import T = SemiProtocol
  import TI = SemiInvariant
  import TT = SemiTermination
  import H = Handoff
  import F = Forest

  /* ---------- every step ---------- */

  ghost predicate Safe(o: Outcome<State>) {
    o.Next? && All(o.state)
  }

  lemma ForestOk(s: State)
    requires Books(s)
    ensures F.Inv(s.forest) && |s.forest.standing| == s.t.n
  {
  }

  lemma ReportedSafe(s: State, w: nat, offset: nat)
    requires All(s) && s.t.center == T.Serving && 1 <= w < s.t.n
    requires T.First(s.t, w, 0) in {Some(T.Running), Some(T.Available)}
    ensures F.Handled(s.forest, Handled(s, w, offset))
    ensures All(Reported(s, s.t.(net := T.Drop(s.t.net, w, 0)), Handled(s, w, offset).state))
  {
    hide TI.Accounts, TI.Rooted, TI.Traffic, Books, F.ProcessRunning, F.ProcessAvailable;
    AllParts(s);
    ForestOk(s);
    F.ProcessRunningSafe(s.forest, w);
    F.ProcessAvailableSafe(s.forest, w, offset);
    var t := s.t.(net := T.Drop(s.t.net, w, 0));
    TI.PlainDropInv(s.t, t, w, 0);
    TT.SlotsSame(s.t, t);
    ReportedBooks(s, w, t, Handled(s, w, offset).state);
  }

  lemma HelpersTakenIs(s: State, w: nat)
    requires Receiving(s, w) && s.helperNet[w] != []
    requires T.Enabled(s.t, T.Local(w, H.ReceiveHelpers(s.helperNet[w][0])))
    ensures |s.helperNet[w][0]| <= |s.t.slot[w].nexts|
    ensures var h := H.Step(s.t.slot[w], H.ReceiveHelpers(s.helperNet[w][0])).state;
            HelpersTaken(s, w).t == s.t.(slot := s.t.slot[w := h]) && h.funnel == s.t.slot[w].funnel
  {
  }

  lemma HelpersReceivedGood(s: State, w: nat)
    requires TT.Good(s.t) && HelperChannels(s) && Receiving(s, w) && s.helperNet[w] != []
    ensures |s.helperNet[w][0]| <= |s.t.slot[w].nexts| && TT.Good(HelpersTaken(s, w).t)
    ensures HelpersTaken(s, w).t.slot[w].funnel == s.t.slot[w].funnel
  {
    hide TT.Good, HelperChannels;
    HelperListAccepted(s, w);
    TT.LocalSafe(s.t, w, H.ReceiveHelpers(s.helperNet[w][0]));
    HelpersTakenIs(s, w);
  }

  lemma HelpersReceivedSafe(s: State, w: nat)
    requires All(s) && Receiving(s, w) && s.helperNet[w] != []
    ensures |s.helperNet[w][0]| <= |s.t.slot[w].nexts| && All(HelpersTaken(s, w))
  {
    HelpersReceivedGood(s, w);
    HelpersReceivedBooks(s, w);
  }

  lemma ReceiveHelpersIs(s: State, w: nat)
    requires OwnEnabled(s, ReceiveHelpers(w)) && |s.helperNet[w][0]| <= |s.t.slot[w].nexts|
    ensures OwnStep(s, ReceiveHelpers(w)) == Next(HelpersTaken(s, w))
  {
  }

  lemma TakeTerminationIs(s: State, w: nat)
    requires OwnEnabled(s, TakeTermination(w)) && !T.Unfinished(s.t, w)
    requires var m := T.First(s.t, 0, w).value;
      m.scoreUpdates >= s.books[w].scoresIn && m.nextProcesses >= s.books[w].helpersIn
    ensures var m := T.First(s.t, 0, w).value;
            OwnStep(s, TakeTermination(w)) == Next(Left(s, w, m.scoreUpdates, m.nextProcesses))
  {
  }

  lemma UpdateScoreStep(s: State, w: nat)
    requires All(s) && OwnEnabled(s, UpdateScore(w))
    ensures Safe(OwnStep(s, UpdateScore(w)))
  {
    hide TT.Good, Books;
    AllParts(s);
    ScoreUpdatedBooks(s, w);
  }

  lemma TakeProposalStep(s: State, w: nat)
    requires All(s) && OwnEnabled(s, TakeProposal(w))
    ensures Safe(OwnStep(s, TakeProposal(w)))
  {
    hide TT.Good, Books;
    AllParts(s);
    ProposalTakenBooks(s, w);
  }

  lemma ReceiveScoreStep(s: State, w: nat)
    requires All(s) && OwnEnabled(s, ReceiveScore(w))
    ensures Safe(OwnStep(s, ReceiveScore(w)))
  {
    hide TT.Good, Books;
    AllParts(s);
    ScoreReceivedBooks(s, w);
  }

  lemma AcceptStep(s: State, w: nat, thread: nat, score: int, packet: Packet)
    requires All(s) && OwnEnabled(s, Accept(w, thread, score, packet))
    ensures Safe(OwnStep(s, Accept(w, thread, score, packet)))
  {
    hide TT.Good, Books;
    AllParts(s);
    H.PoolKeepsFunnelOpen(s.t.slot[w]);
    AcceptedBooks(s, w, score, packet);
  }

  lemma ReportStep(s: State, w: nat, offset: nat)
    requires All(s) && OwnEnabled(s, Report(w, offset))
    ensures Safe(OwnStep(s, Report(w, offset)))
  {
    hide TT.Good, Books;
    ReportedSafe(s, w, offset);
  }

  lemma ReceiveHelpersStep(s: State, w: nat)
    requires All(s) && OwnEnabled(s, ReceiveHelpers(w))
    ensures Safe(OwnStep(s, ReceiveHelpers(w)))
  {
    HelpersReceivedSafe(s, w);
    ReceiveHelpersIs(s, w);
  }

  lemma NotifyNextStep(s: State)
    requires All(s) && OwnEnabled(s, NotifyNext)
    ensures Safe(OwnStep(s, NotifyNext))
  {
    NotifiedSafe(s);
  }

  lemma TakeTerminationStep(s: State, w: nat)
    requires All(s) && OwnEnabled(s, TakeTermination(w))
    ensures Safe(OwnStep(s, TakeTermination(w)))
  {
    var m := T.First(s.t, 0, w).value;
    TerminationTakenSafe(s, w, m.scoreUpdates, m.nextProcesses);
    TakeTerminationIs(s, w);
  }

  lemma SendSolutionStep(s: State, w: nat)
    requires All(s) && OwnEnabled(s, SendSolution(w))
    ensures Safe(OwnStep(s, SendSolution(w)))
  {
    SolutionSentSafe(s, w);
  }

  lemma CollectNextStep(s: State)
    requires All(s) && OwnEnabled(s, CollectNext)
    ensures Safe(OwnStep(s, CollectNext))
  {
    hide TT.Good, Books, T.Collected;
    CollectedSafe(s);
  }

  lemma ProtocolStep(s: State, p: T.Action)
    requires All(s) && Enabled(s, Protocol(p))
    ensures Safe(Step(s, Protocol(p)))
  {
    ProtocolSafe(s, p);
  }

  lemma OwnStepSafe(s: State, a: Action)
    requires All(s) && OwnEnabled(s, a)
    ensures Safe(OwnStep(s, a))
  {
    hide All, OwnStep, Safe;
    match a
    case UpdateScore(w) => UpdateScoreStep(s, w);
    case TakeProposal(w) => TakeProposalStep(s, w);
    case ReceiveScore(w) => ReceiveScoreStep(s, w);
    case Accept(w, thread, score, packet) => AcceptStep(s, w, thread, score, packet);
    case Report(w, offset) => ReportStep(s, w, offset);
    case ReceiveHelpers(w) => ReceiveHelpersStep(s, w);
    case NotifyNext => NotifyNextStep(s);
    case TakeTermination(w) => TakeTerminationStep(s, w);
    case SendSolution(w) => SendSolutionStep(s, w);
    case CollectNext => CollectNextStep(s);
  }

  /** No step throws, and every step keeps the invariant. */
  lemma StepSafe(s: State, a: Action)
    requires All(s) && Enabled(s, a)
    ensures Safe(Step(s, a))
  {
    if a.Protocol? {
      ProtocolStep(s, a.a);
    } else {
      OwnStepSafe(s, a);
    }
  }

  /* ---------- whole runs ---------- */

  lemma {:induction false} DoublingSize(p: nat, bit: nat, n: nat)
    requires bit >= 1
    ensures |F.Doubling(p, bit, n)| <= if bit < n then n - bit else 0
    decreases n - bit
  {
    if bit < n {
      DoublingSize(p, 2 * bit, n);
    }
  }

  lemma InitHelpers(n: nat, goal: Goal, kind: Kind, initial: int)
    requires n >= 2
    ensures HelperChannels(Init(n, goal, kind, initial))
  {
    hide F.DefaultTree, F.Inv;
    var s := Init(n, goal, kind, initial);
    F.InitialInv(n);
    forall w: nat, v | 1 <= w < n && v in s.helperNet[w]
      ensures |v| <= n && forall x | x in v :: H.Helper(H.ToHelper(n, w), x)
    {
      KidsAreHelpers(n, w);
    }
  }

  lemma KidsAreHelpers(n: nat, w: nat)
    requires 1 <= w < n
    ensures var kids := F.DefaultTree(n).helpers[w];
            |kids| <= n && forall i | 0 <= i < |kids| :: H.Helper(H.ToHelper(n, w), kids[i] as int)
  {
    DoublingSize(w, F.FirstBit(w), n);
    F.DefaultAt(w, n);
    F.DefaultListed(w, n);
    hide F.DefaultTree, F.Doubling, F.FirstBit, F.Distinct;
    var kids := F.DefaultTree(n).helpers[w];
    assert forall i | 0 <= i < |kids| :: kids[i] in kids;
  }

  lemma InitValues(n: nat, goal: Goal, kind: Kind, initial: int)
    requires n >= 2
    ensures ScoreChannels(Init(n, goal, kind, initial)) && Values(Init(n, goal, kind, initial))
  {
  }

  lemma InitPayloads(n: nat, goal: Goal, kind: Kind, initial: int)
    requires n >= 2
    ensures Payloads(Init(n, goal, kind, initial))
  {
  }

  lemma InitAll(n: nat, goal: Goal, kind: Kind, initial: int)
    requires n >= 2
    ensures All(Init(n, goal, kind, initial))
  {
    TT.InitGood(n);
    InitHelpers(n, goal, kind, initial);
    InitValues(n, goal, kind, initial);
    InitPayloads(n, goal, kind, initial);
  }

  /** The outcome of a run, when every action was enabled in turn; None when one was not. */
  function Run(s: State, actions: seq<Action>): Option<Outcome<State>>
    decreases |actions|
  {
    if actions == [] then Some(Next(s))
    else if !Enabled(s, actions[0]) then None
    else match Step(s, actions[0])
      case Next(s') => Run(s', actions[1..])
      case Throws(reason) => Some(Throws(reason))
  }

  lemma {:induction false} RunSafe(s: State, actions: seq<Action>)
    requires All(s) && Run(s, actions).Some?
    ensures Safe(Run(s, actions).value)
    decreases |actions|
  {
    if actions != [] {
      StepSafe(s, actions[0]);
      RunSafe(Step(s, actions[0]).state, actions[1..]);
    }
  }

  lemma {:induction false} DrainInputs(s: State, w: nat, count: int)
    requires w < |s.books| && w < |s.helperNet| && count - s.books[w].helpersIn <= |s.helperNet[w]|
    ensures var s' := HelpersDrained(s, w, count);
            && s'.goal == s.goal && s'.kind == s.kind && s'.initial == s.initial && s'.t == s.t
            && s'.forest == s.forest && s'.accepted == s.accepted
            && |s'.books| == |s.books| && forall x | 0 <= x < |s.books| :: s'.books[x].local == s.books[x].local
    decreases count - s.books[w].helpersIn
  {
    if s.books[w].helpersIn < count {
      DrainInputs(Popped(s, w), w, count);
    }
  }

  lemma {:induction false} ScoreLocals(s: State, w: nat, count: int)
    requires w < |s.books| && w < |s.scoreNet| && count - s.books[w].scoresIn <= |s.scoreNet[w]|
    ensures var s' := ScoresDrained(s, w, count);
            |s'.books| == |s.books| && forall x | 0 <= x < |s.books| :: s'.books[x].local == s.books[x].local
    decreases count - s.books[w].scoresIn
  {
    if s.books[w].scoresIn < count {
      ScoreLocals(ScoreReceived(s, w), w, count);
    }
  }

  /** What a run is given, and the center's records and the local scores, survive the last drain. */
  lemma LeftKeeps(s: State, w: nat, scores: int, helpers: int)
    requires Sized(s) && w < s.t.n && Drainable(s, w, scores, helpers) && T.Link(s.t.net, 0, w) != []
    ensures var s' := Left(s, w, scores, helpers);
            && s'.goal == s.goal && s'.kind == s.kind && s'.initial == s.initial && s'.t.n == s.t.n
            && s'.forest == s.forest && s'.accepted == s.accepted
            && |s'.books| == |s.books| && forall x | 0 <= x < |s.books| :: s'.books[x].local == s.books[x].local
  {
    DrainSizes(s, w, scores);
    ScoreLocals(s, w, scores);
    DrainInputs(ScoresDrained(s, w, scores), w, helpers);
  }

  /** What a run is given. */
  predicate SameInputs(s: State, s': State) {
    s'.goal == s.goal && s'.kind == s.kind && s'.initial == s.initial && s'.t.n == s.t.n
  }

  lemma ProtocolInputs(s: State, p: T.Action)
    requires Enabled(s, Protocol(p)) && Step(s, Protocol(p)).Next?
    ensures SameInputs(s, Step(s, Protocol(p)).state)
  {
    TT.StepKeepsSize(s.t, p);
  }

  lemma StepInputs(s: State, a: Action)
    requires Enabled(s, a) && Step(s, a).Next?
    ensures SameInputs(s, Step(s, a).state)
  {
    hide T.Enabled, T.Step, Left;
    if a.Protocol? {
      ProtocolInputs(s, a.a);
    } else if a.TakeTermination? {
      var m := T.First(s.t, 0, a.w).value;
      LeftKeeps(s, a.w, m.scoreUpdates, m.nextProcesses);
    }
  }

  lemma {:induction false} RunInputs(s: State, actions: seq<Action>)
    requires Run(s, actions).Some? && Run(s, actions).value.Next?
    ensures SameInputs(s, Run(s, actions).value.state)
    decreases |actions|
  {
    hide Enabled, Step;
    if actions != [] {
      StepInputs(s, actions[0]);
      RunInputs(Step(s, actions[0]).state, actions[1..]);
    }
  }

  /**
   * Every run of any world: no throw is reached, and the side channels are exact throughout. What a worker
   * has received plus what is queued for it is what the center counted, and its global score is the last
   * of a prefix of the center's broadcasts, each of which improves on the ones before it.
   */
  lemma ChannelsAreExact(n: nat, goal: Goal, kind: Kind, initial: int, actions: seq<Action>)
    requires n >= 2 && Run(Init(n, goal, kind, initial), actions).Some?
    ensures Run(Init(n, goal, kind, initial), actions).value.Next?
    ensures var s := Run(Init(n, goal, kind, initial), actions).value.state;
            && All(s) && ScoreChannels(s) && HelperChannels(s) && s.goal == goal && s.initial == initial
            && (forall i, j | 0 <= i < j < |s.broadcasts| ::
                 if goal == Maximise then s.broadcasts[i] < s.broadcasts[j] else s.broadcasts[i] > s.broadcasts[j])
            && (forall i | 0 <= i < |s.broadcasts| ::
                 if goal == Maximise then initial < s.broadcasts[i] else initial > s.broadcasts[i])
  {
    hide TT.Good, ScoreChannels, HelperChannels, Values, Payloads, Run, Init;
    var s0 := Init(n, goal, kind, initial);
    InitAll(n, goal, kind, initial);
    InitInputs(n, goal, kind, initial);
    RunSafe(s0, actions);
    RunInputs(s0, actions);
    BroadcastsImprove(Run(s0, actions).value.state);
  }

  lemma InitInputs(n: nat, goal: Goal, kind: Kind, initial: int)
    requires n >= 2
    ensures var s := Init(n, goal, kind, initial);
            s.goal == goal && s.kind == kind && s.initial == initial && s.t.n == n && s.accepted == []
  {
  }

  lemma BroadcastsImprove(s: State)
    requires ScoreChannels(s)
    ensures forall i, j | 0 <= i < j < |s.broadcasts| ::
      if s.goal == Maximise then s.broadcasts[i] < s.broadcasts[j] else s.broadcasts[i] > s.broadcasts[j]
    ensures forall i | 0 <= i < |s.broadcasts| ::
      if s.goal == Maximise then s.initial < s.broadcasts[i] else s.initial > s.broadcasts[i]
  {
    forall i, j | 0 <= i < j < |s.broadcasts|
      ensures if s.goal == Maximise then s.broadcasts[i] < s.broadcasts[j] else s.broadcasts[i] > s.broadcasts[j]
    {
      assert Better(s.goal, ValueAt(s, j + 1), ValueAt(s, i + 1));
    }
    forall i | 0 <= i < |s.broadcasts|
      ensures if s.goal == Maximise then s.initial < s.broadcasts[i] else s.initial > s.broadcasts[i]
    {
      assert Better(s.goal, ValueAt(s, i + 1), ValueAt(s, 0));
    }
  }

  /** Worker w has received every score and helper list the center sent it, and holds the center's score. */
  predicate Emptied(s: State, w: nat) {
    && Sized(s) && w < s.t.n
    && s.books[w].scoresIn == s.scoresSent && s.books[w].helpersIn == s.helpersSent[w]
    && s.scoreNet[w] == [] && s.helperNet[w] == [] && s.books[w].global == s.best
  }

  /** A worker that finds its TERMINATION message can always drain, and then has exactly what the center sent. */
  lemma DrainIsExact(s: State, w: nat, scores: int, helpers: int)
    requires All(s) && 1 <= w < s.t.n && s.t.phase[w] == T.Idle
    requires T.First(s.t, 0, w) == Some(T.Termination(scores, helpers))
    ensures T.Worker(s.t, w) && !T.Unfinished(s.t, w)
    ensures Drainable(s, w, scores, helpers) && Emptied(Left(s, w, scores, helpers), w)
  {
    TerminationTakenSafe(s, w, scores, helpers);
    DrainEnds(s, w, scores, helpers);
  }

  lemma DrainEnds(s: State, w: nat, scores: int, helpers: int)
    requires Books(s) && 1 <= w < s.t.n && T.First(s.t, 0, w) == Some(T.Termination(scores, helpers))
    requires Drainable(s, w, scores, helpers)
    ensures Emptied(Left(s, w, scores, helpers), w)
  {
    TerminationCounts(s, w);
    DrainedChannels(s, w, scores, helpers);
  }

  /* ---------- the fetched solution ---------- */

  /** fetch_solution stops at the first rank recorded with the global score. */
  lemma {:induction false} FetchFirst(results: seq<Option<(int, Packet)>>, global: Score, r: nat) returns (k: nat)
    requires r <= |results|
    ensures r <= k <= |results|
    ensures forall j | r <= j < k :: Recorded(results[j], global.kind) != global
    ensures k < |results| ==> Recorded(results[k], global.kind) == global
    ensures FetchSolution(results, global, r) == if k < |results| && results[k].Some? then results[k].value.1 else []
    decreases |results| - r
  {
    if r == |results| || Recorded(results[r], global.kind) == global {
      k := r;
    } else {
      k := FetchFirst(results, global, r + 1);
    }
  }

  function Fetched(s: State): Packet
    requires Sized(s)
  {
    FetchSolution(s.results, Score(s.kind, s.best), 1)
  }

  /** Some worker accepted p with score v. */
  ghost predicate Found(s: State, v: int, p: Packet) {
    exists i :: 0 <= i < |s.accepted| && s.accepted[i].score == v && s.accepted[i].packet == p
  }

  /** No rank from 1 on and below k is recorded with the score. */
  predicate FirstOf(results: seq<Option<(int, Packet)>>, score: Score, k: nat) {
    k <= |results| && forall j | 1 <= j < k :: Recorded(results[j], score.kind) != score
  }

  /** The best score is the one of result::EMPTY, and a worker that sent no result ranks before all that sent it. */
  ghost predicate Shadowed(s: State)
    requires Sized(s)
  {
    && s.kind == I32 && s.best == -1
    && exists k: nat :: 1 <= k < s.t.n && s.results[k] == None && FirstOf(s.results, Score(I32, -1), k)
  }

  /** When the center has collected everything, its score is the best accepted one and a holder's record has it. */
  lemma CollectedHolder(s: State) returns (w: nat)
    requires All(s) && s.t.center == T.Finished && s.accepted != []
    ensures 1 <= w < s.t.n && s.results[w].Some? && s.results[w].value.0 == s.best
    ensures forall i | 0 <= i < |s.accepted| :: !Better(s.goal, s.accepted[i].score, s.best)
  {
    hide TT.Good, HelperChannels, Better;
    var i: nat :| i < |s.accepted| && Holds(s, i);
    w := s.accepted[i].worker;
    assert Known(s, ValueAt(s, |s.broadcasts|));
    HeldIsBest(s, i, s.best);
    assert CollectedRank(s.t.center, s.t.n, w) && WorkerValues(s, w);
    assert s.accepted[i].packet != [];
    EqualScores(s.goal, s.accepted[i].score, s.best);
  }

  lemma EqualScores(g: Goal, a: int, b: int)
    requires !Better(g, a, b) && !Better(g, b, a)
    ensures a == b
  {
  }

  /** A recorded result was accepted by its worker. */
  lemma RecordedFound(s: State, k: nat)
    requires All(s) && s.t.center == T.Finished && 1 <= k < s.t.n && s.results[k].Some?
    ensures Acceptance(k, s.results[k].value.0, s.results[k].value.1) in s.accepted
    ensures Found(s, s.results[k].value.0, s.results[k].value.1)
  {
    hide TT.Good, HelperChannels, ScoreChannels;
    assert CollectedRank(s.t.center, s.t.n, k) && WorkerValues(s, k);
    var b := s.books[k];
    var i :| 0 <= i < |s.accepted| && s.accepted[i] == Acceptance(k, b.local, b.stored.packet);
    assert s.accepted[i].score == b.local;
  }

  /** What fetch_solution returns once everything is collected. */
  lemma FetchedAtEnd(s: State)
    requires All(s) && s.t.center == T.Finished
    ensures forall i | 0 <= i < |s.accepted| :: !Better(s.goal, s.accepted[i].score, s.best)
    ensures s.accepted == [] ==> Fetched(s) == []
    ensures s.accepted != [] ==> (Found(s, s.best, Fetched(s)) <==> !Shadowed(s))
  {
    hide TT.Good, HelperChannels, ScoreChannels, Shadowed, Better;
    var k := FetchFirst(s.results, Score(s.kind, s.best), 1);
    if k < |s.results| && s.results[k].Some? {
      RecordedFound(s, k);
    }
    if s.accepted != [] {
      var w := CollectedHolder(s);
      NothingFound(s);
      FetchedIf(s, k, w);
    }
  }

  /** try_update_result only stores packets that are not empty. */
  lemma NothingFound(s: State)
    requires Sized(s) && Values(s)
    ensures !Found(s, s.best, [])
  {
  }

  lemma FetchedIf(s: State, k: nat, w: nat)
    requires Sized(s) && 1 <= k <= w < s.t.n && !Found(s, s.best, [])
    requires s.results[w].Some? && s.results[w].value.0 == s.best
    requires FirstOf(s.results, Score(s.kind, s.best), k) && Recorded(s.results[k], s.kind) == Score(s.kind, s.best)
    requires Fetched(s) == if s.results[k].Some? then s.results[k].value.1 else []
    requires s.results[k].Some? ==> Found(s, s.best, s.results[k].value.1)
    ensures Found(s, s.best, Fetched(s)) <==> !Shadowed(s)
  {
    if Shadowed(s) {
      var j: nat :| 1 <= j < s.t.n && s.results[j] == None && FirstOf(s.results, Score(I32, -1), j);
      assert j == k;
    }
  }

  /** With rank 1 silent and rank 2 holding the best score -1: its packet is lost for the kind I32, and for no other. */
  lemma ShadowedSolution(kind: Kind, p: Packet)
    requires p != []
    ensures FetchSolution([None, None, Some((-1, p))], Score(kind, -1), 1) == p <==> kind != I32
    ensures FetchSolution([None, Some((-1, p)), None], Score(kind, -1), 1) == p
  {
    var one := [None, Some((-1, p)), None];
    assert FetchSolution(one, Score(kind, -1), 1) == p;
  }
}

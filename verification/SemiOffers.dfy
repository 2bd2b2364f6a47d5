/**
 * The scores of a semi-centralized run, seen from what its threads passed to try_update_result: the center ends with
 * the best of them, and fetches a packet that came with it.
 */
module SemiOffers {
  import opened Common
  import opened SemiScores
  import opened SemiScoresInvariant
  import opened SemiRuns
  import opened SemiSolution
  import T = SemiProtocol
  import TT = SemiTermination

  /** Score a is no worse than b. */
  predicate NoWorse(g: Goal, a: int, b: int) {
    if g == Maximise then a >= b else a <= b
  }

  /** From s to s' local scores only improve, and acceptances are only added. */
  ghost predicate Improves(s: State, s': State) {
    && SameInputs(s, s') && |s'.books| == |s.books| && s.accepted <= s'.accepted
    && forall w | 0 <= w < |s.books| :: NoWorse(s.goal, s'.books[w].local, s.books[w].local)
  }

  /** Some thread offered p with score v. */
  ghost predicate Offered(actions: seq<Action>, v: int, p: Packet) {
    exists a :: a in actions && a.Accept? && a.score == v && a.packet == p
  }

  lemma ProtocolImproves(s: State, p: T.Action)
    requires Enabled(s, Protocol(p)) && Step(s, Protocol(p)).Next?
    ensures Improves(s, Step(s, Protocol(p)).state) && Step(s, Protocol(p)).state.accepted == s.accepted
  {
    hide T.Enabled, T.Step;
    ProtocolInputs(s, p);
  }

  /** An offer is accepted, with its score and packet, or the local score is no worse. */
  lemma AcceptImproves(s: State, w: nat, score: int, packet: Packet)
    requires w < |s.books|
    ensures var s' := Accepted(s, w, score, packet);
            && Improves(s, s') && NoWorse(s.goal, s'.books[w].local, score)
            && (s'.accepted == s.accepted || s'.accepted == s.accepted + [Acceptance(w, score, packet)])
  {
  }

  /** What one step leaves of scores and acceptances. */
  ghost predicate Records(s: State, a: Action, s': State) {
    && Improves(s, s') && (!a.Accept? ==> s'.accepted == s.accepted)
    && (a.Accept? ==> a.w < |s.books| && s' == Accepted(s, a.w, a.score, a.packet))
  }

  lemma TerminationImproves(s: State, w: nat)
    requires OwnEnabled(s, TakeTermination(w)) && OwnStep(s, TakeTermination(w)).Next?
    ensures Records(s, TakeTermination(w), OwnStep(s, TakeTermination(w)).state)
  {
    hide Left;
    var m := T.First(s.t, 0, w).value;
    LeftKeeps(s, w, m.scoreUpdates, m.nextProcesses);
  }

  lemma OwnImproves(s: State, a: Action)
    requires OwnEnabled(s, a) && OwnStep(s, a).Next?
    ensures Records(s, a, OwnStep(s, a).state)
  {
    hide Left, T.Notified, T.Collected, Solution, Handled;
    if a.TakeTermination? {
      TerminationImproves(s, a.w);
    } else if a.Accept? {
      AcceptImproves(s, a.w, a.score, a.packet);
    } else if a.UpdateScore? {
      UpdateImproves(s, a.w);
    } else if a.NotifyNext? || a.CollectNext? {
      StepInputs(s, a);
    }
  }

  lemma UpdateImproves(s: State, w: nat)
    requires w < |s.books| && w < |s.t.slot|
    ensures Improves(s, ScoreUpdated(s, w)) && ScoreUpdated(s, w).accepted == s.accepted
  {
  }

  lemma StepImproves(s: State, a: Action)
    requires Enabled(s, a) && Step(s, a).Next?
    ensures Records(s, a, Step(s, a).state)
  {
    hide T.Enabled, T.Step, OwnEnabled, OwnStep, ProtocolEnabled;
    if a.Protocol? {
      ProtocolImproves(s, a.a);
    } else {
      OwnImproves(s, a);
    }
  }

  /** At the end of a run each worker's score is no worse than all it was offered, and every acceptance was an offer. */
  ghost predicate Accounts(s: State, actions: seq<Action>, s': State) {
    && Improves(s, s')
    && (forall a | a in actions && a.Accept? :: a.w < |s'.books| && NoWorse(s.goal, s'.books[a.w].local, a.score))
    && (forall i | |s.accepted| <= i < |s'.accepted| :: Offered(actions, s'.accepted[i].score, s'.accepted[i].packet))
  }

  lemma {:induction false} RunAccounts(s: State, actions: seq<Action>)
    requires Run(s, actions).Some? && Run(s, actions).value.Next?
    ensures Accounts(s, actions, Run(s, actions).value.state)
    decreases |actions|
  {
    hide Enabled, Step, Accepted, Accounts;
    if actions == [] {
      NoAccounts(s);
    } else {
      StepImproves(s, actions[0]);
      var s1 := Step(s, actions[0]).state;
      RunAccounts(s1, actions[1..]);
      MoreAccounts(s, actions, s1, Run(s1, actions[1..]).value.state);
    }
  }

  lemma NoAccounts(s: State)
    ensures Accounts(s, [], s)
  {
  }

  lemma MoreAccounts(s: State, actions: seq<Action>, s1: State, s': State)
    requires actions != [] && Accounts(s1, actions[1..], s') && Records(s, actions[0], s1)
    ensures Accounts(s, actions, s')
  {
    var a := actions[0];
    if a.Accept? {
      AcceptImproves(s, a.w, a.score, a.packet);
    }
    hide Accepted;
    assert forall x :: x in actions <==> x == a || x in actions[1..];
    forall i | |s.accepted| <= i < |s'.accepted| ensures Offered(actions, s'.accepted[i].score, s'.accepted[i].packet) {
      if i < |s1.accepted| {
        assert s'.accepted[i] == s1.accepted[i] == Acceptance(a.w, a.score, a.packet);
        assert a in actions;
      } else {
        assert Offered(actions[1..], s'.accepted[i].score, s'.accepted[i].packet);
        var x :| x in actions[1..] && x.Accept? && x.score == s'.accepted[i].score && x.packet == s'.accepted[i].packet;
        assert x in actions;
      }
    }
  }

  /** When everything is collected, no local score is better than the center's. */
  lemma CenterIsBest(s: State, w: nat)
    requires All(s) && s.t.center == T.Finished && 1 <= w < s.t.n
    ensures Sized(s) && NoWorse(s.goal, s.best, s.books[w].local)
  {
    hide TT.Good, HelperChannels, ScoreChannels;
    assert CollectedRank(s.t.center, s.t.n, w) && WorkerValues(s, w);
  }

  /** With nothing accepted anywhere the center still has the initial score, and otherwise a better one. */
  lemma NothingAccepted(s: State)
    requires All(s) && s.t.center == T.Finished
    ensures s.accepted == [] <==> s.best == s.initial
  {
    AllParts(s);
    hide TT.Good, HelperChannels, ScoreChannels, Payloads;
    if s.accepted != [] {
      var w := CollectedHolder(s);
      RecordedFound(s, w);
      FoundImproves(s, s.results[w].value.1);
    } else {
      BestIsKnown(s);
    }
  }

  lemma FoundImproves(s: State, p: Packet)
    requires Sized(s) && AcceptedOk(s) && Found(s, s.best, p)
    ensures s.best != s.initial
  {
    var i :| 0 <= i < |s.accepted| && s.accepted[i].score == s.best && s.accepted[i].packet == p;
  }

  lemma BestIsKnown(s: State)
    requires ScoreChannels(s) && Values(s)
    ensures Known(s, s.best)
  {
    assert Known(s, ValueAt(s, |s.broadcasts|));
  }

  /** Only offers that its thread could make are in a run. */
  lemma {:induction false} OffersEnabled(s: State, actions: seq<Action>)
    requires All(s) && Run(s, actions).Some?
    ensures forall a | a in actions && a.Accept? :: 1 <= a.w < s.t.n && a.packet != []
    decreases |actions|
  {
    hide All, Step;
    if actions != [] {
      StepSafe(s, actions[0]);
      StepInputs(s, actions[0]);
      OffersEnabled(Step(s, actions[0]).state, actions[1..]);
      assert forall x :: x in actions <==> x == actions[0] || x in actions[1..];
    }
  }

  /**
   * At the end of every run the center's score is the initial one or one that some thread passed to try_update_result,
   * and it is at least as good as all of these: at least as great if the goal is to maximise, at most as great if it is
   * to minimise. fetch_solution returns a packet that was passed with that score if and only if no silent worker
   * shadows it, which takes the best score to be the I32 value -1 of result::EMPTY; and nothing if no score that was
   * passed improves on the initial one.
   */
  lemma BestSolutionIsFetched(n: nat, goal: Goal, kind: Kind, initial: int, actions: seq<Action>)
    requires n >= 2 && Run(Init(n, goal, kind, initial), actions).Some?
    ensures Run(Init(n, goal, kind, initial), actions).value.Next?
    ensures var s := Run(Init(n, goal, kind, initial), actions).value.state;
            s.t.center == T.Finished ==>
              && Sized(s) && s.kind == kind
              && (forall a | a in actions && a.Accept? ::
                   if goal == Maximise then a.score <= s.best else a.score >= s.best)
              && (if goal == Maximise then initial <= s.best else initial >= s.best)
              && (s.best == initial ==> Fetched(s) == [])
              && (s.best != initial ==>
                   && (exists p :: Offered(actions, s.best, p))
                   && (Offered(actions, s.best, Fetched(s)) <==> !Shadowed(s)))
  {
    hide All, Run, Init;
    var s0 := Init(n, goal, kind, initial);
    InitAll(n, goal, kind, initial);
    RunSafe(s0, actions);
    RunAccounts(s0, actions);
    OffersEnabled(s0, actions);
    InitInputs(n, goal, kind, initial);
    var s := Run(s0, actions).value.state;
    if s.t.center == T.Finished {
      EndOfRun(s0, actions, s);
    }
  }

  lemma EndOfRun(s0: State, actions: seq<Action>, s: State)
    requires All(s) && s.t.center == T.Finished && Accounts(s0, actions, s) && s0.accepted == []
    requires forall a | a in actions && a.Accept? :: 1 <= a.w < s.t.n && a.packet != []
    ensures Sized(s)
    ensures forall a | a in actions && a.Accept? :: if s.goal == Maximise then a.score <= s.best else a.score >= s.best
    ensures if s.goal == Maximise then s.initial <= s.best else s.initial >= s.best
    ensures s.best == s.initial ==> Fetched(s) == []
    ensures s.best != s.initial ==>
      (exists p :: Offered(actions, s.best, p)) && (Offered(actions, s.best, Fetched(s)) <==> !Shadowed(s))
  {
    forall a | a in actions && a.Accept?
      ensures if s.goal == Maximise then a.score <= s.best else a.score >= s.best
    {
      CenterIsBest(s, a.w);
    }
    CenterIsBest(s, 1);
    AtLeastInitial(s);
    NothingAccepted(s);
    FetchedAtEnd(s);
    hide All, Shadowed;
    if s.accepted != [] {
      var w := CollectedHolder(s);
      RecordedFound(s, w);
      FoundOffered(s0, actions, s, s.results[w].value.1);
      if Found(s, s.best, Fetched(s)) {
        FoundOffered(s0, actions, s, Fetched(s));
      }
      if !Found(s, s.best, Fetched(s)) {
        NothingShadowed(s);
      }
    }
  }

  lemma AtLeastInitial(s: State)
    requires ScoreChannels(s)
    ensures NoWorse(s.goal, s.best, s.initial)
  {
    if |s.broadcasts| > 0 {
      assert Better(s.goal, ValueAt(s, |s.broadcasts|), ValueAt(s, 0));
    }
  }

  lemma FoundOffered(s0: State, actions: seq<Action>, s: State, p: Packet)
    requires Accounts(s0, actions, s) && s0.accepted == [] && Found(s, s.best, p)
    ensures Offered(actions, s.best, p)
  {
    var i :| 0 <= i < |s.accepted| && s.accepted[i].score == s.best && s.accepted[i].packet == p;
  }

  /** A shadowed solution is replaced by nothing. */
  lemma NothingShadowed(s: State)
    requires All(s) && Sized(s) && Shadowed(s)
    ensures Fetched(s) == []
  {
    hide All, Better;
    var k := FetchFirst(s.results, Score(s.kind, s.best), 1);
  }
}

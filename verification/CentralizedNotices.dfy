/** What the workers of a centralized run know of the center: scores and fullness notices arrive all and in order. */
module CentralizedNotices {
  import opened Common
  import opened Centralized
  import opened CentralizedRuns
  import H = Handoff

  /** The notices that the actions send. */
  function Noticing(actions: seq<Action>): seq<bool> {
    if actions == [] then []
    else (if actions[0].BroadcastFullness? then [actions[0].full] else []) + Noticing(actions[1..])
  }

  /** How many score updates they send. */
  function Scoring(actions: seq<Action>): nat {
    if actions == [] then 0 else (if actions[0].BroadcastScore? then 1 else 0) + Scoring(actions[1..])
  }

  /**
   * Of the notices sent, the worker has taken a prefix, the last of which says whether it takes the center to be full,
   * and the rest is queued for it; and score updates are taken or queued.
   */
  predicate Informed(x: Worker, notices: seq<bool>, scores: nat) {
    && x.noticesIn <= |notices| && x.notices == notices[x.noticesIn..]
    && x.slot.full == (x.noticesIn > 0 && notices[x.noticesIn - 1])
    && x.scoresIn + x.scores == scores
  }

  ghost predicate AllInformed(s: State, n: nat, notices: seq<bool>, scores: nat) {
    && |s.workers| == n && s.noticesSent == |notices| && s.scoresSent == scores
    && forall w | 0 <= w < |s.workers| :: Informed(s.workers[w], notices, scores)
  }

  lemma {:induction false} NoticesDrainedInformed(x: Worker, count: int, notices: seq<bool>, scores: nat)
    requires Informed(x, notices, scores) && count - x.noticesIn <= |x.notices|
    ensures Informed(NoticesDrained(x, count), notices, scores)
    decreases count - x.noticesIn
  {
    if x.noticesIn < count {
      NoticesDrainedInformed(Noticed(x), count, notices, scores);
    }
  }

  lemma LeftInformed(x: Worker, scores: int, noticed: int, notices: seq<bool>, updates: nat)
    requires Informed(x, notices, updates) && Drainable(x, scores, noticed) && x.inbox != []
    ensures Informed(Left(x, scores, noticed), notices, updates)
  {
    ScoresDrainedKeeps(x, scores);
    NoticesDrainedInformed(ScoresDrained(x, scores), noticed, notices, updates);
  }

  /** A step of one worker that keeps its knowledge. */
  lemma OneInformed(s: State, w: nat, x: Worker, n: nat, notices: seq<bool>, scores: nat)
    requires AllInformed(s, n, notices, scores) && w < |s.workers| && Informed(x, notices, scores)
    ensures AllInformed(With(s, w, x), n, notices, scores)
  {
  }

  lemma LocalFull(h: H.State, step: H.Action)
    requires H.Enabled(h, step) && !step.ReceiveFullness? && H.Step(h, step).Next?
    ensures H.Step(h, step).state.full == h.full
  {
    hide H.ShiftedLeft;
  }

  lemma LocalInformed(s: State, w: nat, step: H.Action, notices: seq<bool>, scores: nat)
    requires Enabled(s, Local(w, step)) && Step(s, Local(w, step)).Next? && Informed(s.workers[w], notices, scores)
    ensures var s' := Step(s, Local(w, step)).state;
            |s'.workers| == |s.workers| && Informed(s'.workers[w], notices, scores) && s' == With(s, w, s'.workers[w])
  {
    LocalFull(s.workers[w].slot, step);
    hide H.Step, H.Enabled;
  }

  lemma TerminationInformed(s: State, w: nat, notices: seq<bool>, scores: nat)
    requires Enabled(s, TakeTermination(w)) && Step(s, TakeTermination(w)).Next?
    requires Informed(s.workers[w], notices, scores)
    ensures var s' := Step(s, TakeTermination(w)).state;
            |s'.workers| == |s.workers| && Informed(s'.workers[w], notices, scores) && s' == With(s, w, s'.workers[w])
  {
    hide Left, Informed;
    var m := s.workers[w].inbox[0];
    LeftInformed(s.workers[w], m.scores, m.notices, notices, scores);
  }

  lemma TaskInformed(s: State, a: Action, notices: seq<bool>, scores: nat)
    requires Enabled(s, a) && (a.ReceiveTask? || a.FinishTask? || a.SendSolution?)
    requires Informed(s.workers[a.w], notices, scores)
    ensures Step(s, a).Next?
    ensures var s' := Step(s, a).state;
            && |s'.workers| == |s.workers| && Informed(s'.workers[a.w], notices, scores)
            && s' == With(s, a.w, s'.workers[a.w])
  {
    hide H.Idle;
  }

  lemma HearingInformed(s: State, a: Action, notices: seq<bool>, scores: nat)
    requires Enabled(s, a) && Step(s, a).Next? && (a.ReceiveScore? || a.ReceiveNotice? || a.WorkerAck?)
    requires Informed(s.workers[a.w], notices, scores)
    ensures var s' := Step(s, a).state;
            && |s'.workers| == |s.workers| && Informed(s'.workers[a.w], notices, scores)
            && s' == With(s, a.w, s'.workers[a.w])
  {
  }

  lemma WorkerInformed(s: State, a: Action, n: nat, notices: seq<bool>, scores: nat)
    requires Enabled(s, a) && Step(s, a).Next? && AllInformed(s, n, notices, scores)
    requires !CenterOnly(a) && !a.BroadcastScore? && !a.BroadcastFullness?
    ensures AllInformed(Step(s, a).state, n, notices, scores)
  {
    WorkerInRange(s, a);
    Known(s, a.w, n, notices, scores);
    hide AllInformed, Informed, Enabled, Step;
    if a.Local? {
      LocalInformed(s, a.w, a.step, notices, scores);
    } else if a.TakeTermination? {
      TerminationInformed(s, a.w, notices, scores);
    } else if a.ReceiveTask? || a.FinishTask? || a.SendSolution? {
      TaskInformed(s, a, notices, scores);
    } else {
      HearingInformed(s, a, notices, scores);
    }
    OneInformed(s, a.w, Step(s, a).state.workers[a.w], n, notices, scores);
  }

  lemma WorkerInRange(s: State, a: Action)
    requires Enabled(s, a) && !CenterOnly(a) && !a.BroadcastScore? && !a.BroadcastFullness?
    ensures a.w < |s.workers|
  {
  }

  lemma Known(s: State, w: nat, n: nat, notices: seq<bool>, scores: nat)
    requires AllInformed(s, n, notices, scores) && w < |s.workers|
    ensures Informed(s.workers[w], notices, scores)
  {
  }

  lemma BroadcastInformed(s: State, a: Action, n: nat, notices: seq<bool>, scores: nat)
    requires Enabled(s, a) && AllInformed(s, n, notices, scores) && (a.BroadcastScore? || a.BroadcastFullness?)
    ensures AllInformed(Step(s, a).state, n, notices + Noticing([a]), scores + Scoring([a]))
  {
    var s' := Step(s, a).state;
    forall w | 0 <= w < |s.workers| ensures Informed(s'.workers[w], notices + Noticing([a]), scores + Scoring([a])) {
      assert Informed(s.workers[w], notices, scores);
    }
  }

  predicate CenterOnly(a: Action) {
    a.SendSeed? || a.TakeReport? || a.TakeTask? || a.TakeAck? || a.Dispatch? || a.NotifyNext? || a.CollectNext?
  }

  /** Nothing of a worker changes but its links and its standing. */
  ghost predicate Touches(s: State, s': State) {
    && |s'.workers| == |s.workers| && s'.noticesSent == s.noticesSent && s'.scoresSent == s.scoresSent
    && forall w | 0 <= w < |s.workers| ::
         var y := s'.workers[w];
         y == s.workers[w].(inbox := y.inbox, outbox := y.outbox, standing := y.standing)
  }

  lemma TakingTouches(s: State, a: Action)
    requires Enabled(s, a) && Step(s, a).Next? && (a.TakeReport? || a.TakeTask? || a.TakeAck?)
    ensures Touches(s, Step(s, a).state)
  {
  }

  lemma SendingTouches(s: State, a: Action)
    requires Enabled(s, a) && Step(s, a).Next? && (a.SendSeed? || a.Dispatch?)
    ensures Touches(s, Step(s, a).state)
  {
  }

  lemma EndingTouches(s: State, a: Action)
    requires Enabled(s, a) && Step(s, a).Next? && (a.NotifyNext? || a.CollectNext?)
    ensures Touches(s, Step(s, a).state)
  {
  }

  lemma CenterTouches(s: State, a: Action)
    requires Enabled(s, a) && Step(s, a).Next? && CenterOnly(a)
    ensures Touches(s, Step(s, a).state)
  {
    hide Enabled, Step, Touches;
    if a.TakeReport? || a.TakeTask? || a.TakeAck? {
      TakingTouches(s, a);
    } else if a.SendSeed? || a.Dispatch? {
      SendingTouches(s, a);
    } else {
      EndingTouches(s, a);
    }
  }

  lemma CenterInformed(s: State, a: Action, n: nat, notices: seq<bool>, scores: nat)
    requires Enabled(s, a) && Step(s, a).Next? && AllInformed(s, n, notices, scores) && CenterOnly(a)
    ensures AllInformed(Step(s, a).state, n, notices, scores)
  {
    hide Informed, Enabled, Step;
    CenterTouches(s, a);
    var s' := Step(s, a).state;
    forall w | 0 <= w < |s.workers| ensures Informed(s'.workers[w], notices, scores) {
      SameKnowledge(s.workers[w], s'.workers[w], notices, scores);
    }
  }

  lemma SameKnowledge(x: Worker, y: Worker, notices: seq<bool>, scores: nat)
    requires Informed(x, notices, scores)
    requires y == x.(inbox := y.inbox, outbox := y.outbox, standing := y.standing)
    ensures Informed(y, notices, scores)
  {
  }

  lemma OneAction(a: Action)
    ensures Noticing([a]) == if a.BroadcastFullness? then [a.full] else []
    ensures Scoring([a]) == if a.BroadcastScore? then 1 else 0
  {
    assert [a][1..] == [];
  }

  lemma StepInformed(s: State, a: Action, n: nat, notices: seq<bool>, scores: nat)
    requires Enabled(s, a) && Step(s, a).Next? && AllInformed(s, n, notices, scores)
    ensures AllInformed(Step(s, a).state, n, notices + Noticing([a]), scores + Scoring([a]))
  {
    hide Enabled, Step, AllInformed;
    OneAction(a);
    assert notices + [] == notices;
    if a.BroadcastScore? || a.BroadcastFullness? {
      BroadcastInformed(s, a, n, notices, scores);
    } else if CenterOnly(a) {
      CenterInformed(s, a, n, notices, scores);
    } else {
      WorkerInformed(s, a, n, notices, scores);
    }
  }

  lemma {:induction false} RunInformed(s: State, actions: seq<Action>, n: nat, notices: seq<bool>, scores: nat)
    requires Run(s, actions).Some? && Run(s, actions).value.Next? && AllInformed(s, n, notices, scores)
    ensures AllInformed(Run(s, actions).value.state, n, notices + Noticing(actions), scores + Scoring(actions))
    decreases |actions|
  {
    hide Enabled, Step, AllInformed;
    if actions == [] {
      assert notices + [] == notices;
    } else {
      var a := actions[0];
      StepInformed(s, a, n, notices, scores);
      RunInformed(Step(s, a).state, actions[1..], n, notices + Noticing([a]), scores + Scoring([a]));
      assert (notices + Noticing([a])) + Noticing(actions[1..]) == notices + Noticing(actions);
    }
  }

  /**
   * In every run: each worker takes the center to be full exactly if the last fullness notice it took says so; it has
   * taken the notices in the order they were sent, and has the rest queued; and no score update is lost.
   */
  lemma NoticesArrive(n: nat, actions: seq<Action>, w: nat)
    requires w < n && Run(Init(n), actions).Some?
    ensures Run(Init(n), actions).value.Next?
    ensures var s := Run(Init(n), actions).value.state;
            w < |s.workers| && Informed(s.workers[w], Noticing(actions), Scoring(actions))
  {
    hide Run, Informed, Inv;
    InitInv(n);
    RunSafe(Init(n), actions);
    assert AllInformed(Init(n), n, [], 0) by {
      FreshInformed();
    }
    RunInformed(Init(n), actions, n, [], 0);
    assert [] + Noticing(actions) == Noticing(actions);
  }

  lemma FreshInformed()
    ensures Informed(FreshWorker(), [], 0)
  {
  }
}

/**
 * The centralized run comes to its end: from the termination notices on every worker is told, drains, leaves behind
 * the barrier and is collected.
 */
module CentralizedCompletion {
  import opened Common
  import opened TerminationDetection
  import opened Centralized
  import opened CentralizedInvariant
  import opened CentralizedRuns
  import D = CentralizedDetection
  import H = Handoff

  predicate NoticeSent(c: CenterPhase, w: nat) {
    match c
    case Notifying(k) => w < k
    case _ => !Live(c)
  }

  predicate CollectedRank(c: CenterPhase, w: nat) {
    match c
    case Collecting(k) => w < k
    case _ => c == Finished
  }

  predicate IsSolution(m: Message) {
    m.HasResult? || m.NoResult?
  }

  /** An idle worker has its notice once it was sent one, and a finished one its solution until it is collected. */
  ghost predicate Coming(x: Worker, noticed: bool, collected: bool) {
    && (x.phase == Idle && noticed ==> exists m :: m in x.inbox && m.Termination?)
    && (x.phase == Done && !collected ==> exists m :: m in x.outbox && IsSolution(m))
  }

  ghost predicate Final(s: State) {
    !Live(s.center) ==> forall w: nat | w < |s.workers| ::
      Coming(s.workers[w], NoticeSent(s.center, w), CollectedRank(s.center, w))
  }

  /** The steps of the last phase. */
  predicate Finishing(a: Action) {
    a.NotifyNext? || a.TakeTermination? || a.SendSolution? || a.CollectNext?
  }

  /* ---------- what is to come stays to come ---------- */

  /** After the loop only the steps of the last phase are left, and side messages that reach idle workers. */
  lemma LastSteps(s: State, a: Action)
    requires Inv(s) && !Live(s.center) && Enabled(s, a)
    ensures Finishing(a) || a.ReceiveScore? || a.ReceiveNotice?
    ensures a.ReceiveScore? || a.ReceiveNotice? ==> s.workers[a.w].phase == Idle
  {
    hide WorkersOk, Accounts, Conserved, Held, H.Enabled, H.Idle;
    AllQuiet(s);
    forall w | 0 <= w < |s.workers| ensures !HasTask(s.workers[w]) && Head(s.workers[w].inbox) != Some(Ack) {
      assert Quiet(s.workers[w]);
      HeadIn(s.workers[w]);
    }
  }

  predicate HasTask(x: Worker) {
    Head(x.inbox).Some? && Head(x.inbox).value.Task?
  }

  lemma HeadIn(x: Worker)
    ensures Head(x.inbox).Some? ==> Head(x.inbox).value in x.inbox
  {
  }

  lemma NotifiedComing(s: State, w: nat)
    requires Enabled(s, NotifyNext) && w < |s.workers|
    requires Coming(s.workers[w], NoticeSent(s.center, w), CollectedRank(s.center, w))
    ensures var s' := Notified(s); Coming(s'.workers[w], NoticeSent(s'.center, w), CollectedRank(s'.center, w))
  {
    var s', m := Notified(s), Termination(s.scoresSent, s.noticesSent);
    if w == s.center.next {
      assert m in s'.workers[w].inbox;
    }
  }

  lemma LeftShape(x: Worker, scores: int, notices: int)
    requires Drainable(x, scores, notices) && x.inbox != []
    ensures var y := Left(x, scores, notices);
            y.phase == Leaving && y.inbox == x.inbox[1..] && y.outbox == x.outbox && y.standing == x.standing
  {
    ScoresDrainedKeeps(x, scores);
    NoticesKeep(ScoresDrained(x, scores), notices);
  }

  lemma {:induction false} NoticesKeep(x: Worker, count: int)
    requires count - x.noticesIn <= |x.notices|
    ensures var y := NoticesDrained(x, count); y.outbox == x.outbox && y.standing == x.standing
    decreases count - x.noticesIn
  {
    if x.noticesIn < count {
      NoticesKeep(Noticed(x), count);
    }
  }

  lemma SolvedComing(x: Worker, m: Message)
    requires IsSolution(m)
    ensures Coming(x.(phase := Done, outbox := x.outbox + [m]), true, false)
  {
    assert m in (x.outbox + [m]);
  }

  /** A step of worker w alone keeps what is to come if the worker's own share stays. */
  lemma OneComing(s: State, w: nat, x: Worker)
    requires Final(s) && w < |s.workers|
    requires !Live(s.center) ==> Coming(x, NoticeSent(s.center, w), CollectedRank(s.center, w))
    ensures Final(With(s, w, x))
  {
    hide Coming, NoticeSent, CollectedRank;
  }

  lemma CollectedComing(s: State)
    requires Final(s) && s.center.Collecting? && s.center.next < |s.workers| && s.workers[s.center.next].outbox != []
    ensures var r := s.center.next;
            Final(With(s, r, s.workers[r].(outbox := s.workers[r].outbox[1..])).(
              center := if r + 1 < |s.workers| then Collecting(r + 1) else Finished))
  {
    var r := s.center.next;
    forall w: nat | w < |s.workers| && w != r
      ensures Coming(s.workers[w], true, w < r || r + 1 == |s.workers|)
    {
      assert Coming(s.workers[w], NoticeSent(s.center, w), CollectedRank(s.center, w));
    }
    assert Coming(s.workers[r], NoticeSent(s.center, r), CollectedRank(s.center, r));
  }

  lemma NotifyFinal(s: State)
    requires Final(s) && Enabled(s, NotifyNext)
    ensures Final(Notified(s))
  {
    var s' := Notified(s);
    forall w: nat | w < |s.workers|
      ensures Coming(s'.workers[w], NoticeSent(s'.center, w), CollectedRank(s'.center, w))
    {
      assert Coming(s.workers[w], NoticeSent(s.center, w), CollectedRank(s.center, w));
      NotifiedComing(s, w);
    }
  }

  /** Each step of the last phase keeps what is still to come. */
  lemma FinishingFinal(s: State, a: Action)
    requires Inv(s) && Final(s) && !Live(s.center) && Finishing(a) && Enabled(s, a)
    ensures Step(s, a).Next? && Final(Step(s, a).state)
  {
    hide Inv, Coming, Final, Left;
    StepSafe(s, a);
    match a
    case NotifyNext => NotifyFinal(s);
    case TakeTermination(w) =>
      var x, m := s.workers[w], s.workers[w].inbox[0];
      LeftShape(x, m.scores, m.notices);
      LeavingComing(Left(x, m.scores, m.notices), NoticeSent(s.center, w), CollectedRank(s.center, w));
      OneComing(s, w, Left(x, m.scores, m.notices));
    case SendSolution(w, m) => SolvedFinal(s, w, m);
    case CollectNext =>
      CollectSafe(s);
      CollectedComing(s);
  }

  lemma LeavingComing(x: Worker, noticed: bool, collected: bool)
    requires x.phase == Leaving
    ensures Coming(x, noticed, collected)
  {
  }

  lemma SolvedFinal(s: State, w: nat, m: Message)
    requires Final(s) && w < |s.workers| && IsSolution(m)
    ensures Final(With(s, w, s.workers[w].(phase := Done, outbox := s.workers[w].outbox + [m])))
  {
    var y := s.workers[w].(phase := Done, outbox := s.workers[w].outbox + [m]);
    SolvedComing(s.workers[w], m);
    assert Coming(y, NoticeSent(s.center, w), CollectedRank(s.center, w));
    OneComing(s, w, y);
  }

  /** When the center stops, no worker has left yet. */
  lemma FinalBegins(s: State, s': State)
    requires Inv(s) && Live(s.center) && s'.center == Notifying(0) && |s'.workers| == |s.workers|
    requires forall w | 0 <= w < |s.workers| :: s'.workers[w].phase == s.workers[w].phase
    ensures Final(s')
  {
    hide Accounts, Conserved, DetectorOk, SlotOk, Tokens, ReportsOk, TrailOk, InboxOk, OutboxOk, SideOk;
    forall w: nat | w < |s.workers|
      ensures Coming(s'.workers[w], NoticeSent(s'.center, w), CollectedRank(s'.center, w))
    {
      assert WorkerOk(s.workers[w], true);
    }
  }

  lemma StopsByReceipt(s: State, a: Action)
    requires Live(s.center) && Enabled(s, a) && Step(s, a).Next? && !Live(Step(s, a).state.center)
    ensures var s' := Step(s, a).state;
            && s'.center == Notifying(0) && |s'.workers| == |s.workers|
            && forall w | 0 <= w < |s.workers| :: s'.workers[w].phase == s.workers[w].phase
  {
  }

  lemma SideFinal(s: State, a: Action)
    requires Final(s) && !Live(s.center) && (a.ReceiveScore? || a.ReceiveNotice?) && Enabled(s, a)
    ensures Final(Step(s, a).state)
  {
    hide Receiving;
    var w := a.w;
    assert Coming(s.workers[w], NoticeSent(s.center, w), CollectedRank(s.center, w));
    OneComing(s, w, Step(s, a).state.workers[w]);
  }

  /** Every step keeps what is still to come. */
  lemma FinalKept(s: State, a: Action)
    requires Inv(s) && Final(s) && Enabled(s, a)
    ensures Step(s, a).Next? && Inv(Step(s, a).state) && Final(Step(s, a).state)
  {
    hide Inv, Coming, Enabled, Step, Finishing;
    StepSafe(s, a);
    if Live(s.center) {
      if !Live(Step(s, a).state.center) {
        StopsByReceipt(s, a);
        FinalBegins(s, Step(s, a).state);
      }
    } else {
      LastSteps(s, a);
      if Finishing(a) {
        FinishingFinal(s, a);
      } else {
        SideFinal(s, a);
      }
    }
  }

  /* ---------- something always comes ---------- */

  /** When the center has sent all notices, an idle worker finds its own, and all that it needs to drain. */
  lemma NoticeInFront(s: State, w: nat)
    requires Inv(s) && Final(s) && !Live(s.center) && !s.center.Notifying?
    requires w < |s.workers| && s.workers[w].phase == Idle && Quiet(s.workers[w])
    ensures Enabled(s, TakeTermination(w))
  {
    hide Accounts, Conserved, WorkerOk, H.Idle;
    var x := s.workers[w];
    assert Coming(x, NoticeSent(s.center, w), CollectedRank(s.center, w)) && SideOk(s, x);
    assert x.inbox[0] in x.inbox;
  }

  /** Until everything is collected, some step of the last phase is enabled, the barrier notwithstanding. */
  lemma SomethingFinishes(s: State) returns (a: Action)
    requires Inv(s) && Final(s) && !Live(s.center) && s.center != Finished
    ensures Finishing(a) && Enabled(s, a)
  {
    hide WorkersOk, Accounts, Conserved, Held, H.Idle;
    if s.center.Notifying? {
      return NotifyNext;
    }
    AllQuiet(s);
    if w: nat :| w < |s.workers| && s.workers[w].phase == Idle {
      NoticeInFront(s, w);
      return TakeTermination(w);
    }
    assert forall w | 0 <= w < |s.workers| :: Quiet(s.workers[w]);
    assert AllLeft(s);
    var r := s.center.next;
    assert Coming(s.workers[r], NoticeSent(s.center, r), CollectedRank(s.center, r));
    a := if s.workers[r].phase == Done then CollectNext else SendSolution(r, NoResult);
  }

  /* ---------- each step comes closer ---------- */

  function NoticesLeft(c: CenterPhase, n: nat): int {
    if c.Notifying? then n - c.next else 0
  }

  /** Twice whether the worker's solution is not sent, and the messages on its link. */
  function Share(x: Worker): nat {
    |x.inbox| + |x.outbox| + if x.phase == Idle || x.phase == Leaving then 2 else 0
  }

  function ShareAt(s: State, w: nat): int {
    if w < |s.workers| then Share(s.workers[w]) else 0
  }

  ghost function Remaining(s: State): int {
    2 * NoticesLeft(s.center, |s.workers|) + Sum(|s.workers|, (w: nat) => ShareAt(s, w))
  }

  lemma RemainingNonNegative(s: State)
    requires CenterOk(s)
    ensures Remaining(s) >= 0
  {
    SumNonNegative(|s.workers|, (w: nat) => ShareAt(s, w));
  }

  lemma RemainingMoves(s: State, s': State, w: nat)
    requires OneChanged(s, s', w)
    ensures Remaining(s') - Remaining(s) ==
      2 * (NoticesLeft(s'.center, |s.workers|) - NoticesLeft(s.center, |s.workers|))
      + Share(s'.workers[w]) - Share(s.workers[w])
  {
    hide Share;
    SumOne(|s.workers|, (q: nat) => ShareAt(s, q), (q: nat) => ShareAt(s', q), w);
  }

  /** Every step of the last phase lowers the measure by one. */
  lemma FinishingCloser(s: State, a: Action)
    requires Inv(s) && !Live(s.center) && Finishing(a) && Enabled(s, a)
    ensures Step(s, a).Next?
    ensures Remaining(Step(s, a).state) == Remaining(s) - 1 && !Live(Step(s, a).state.center)
  {
    hide Inv, Remaining, Left, AllLeft;
    StepSafe(s, a);
    var s' := Step(s, a).state;
    match a
    case NotifyNext => RemainingMoves(s, s', s.center.next);
    case TakeTermination(w) =>
      LeftShape(s.workers[w], s.workers[w].inbox[0].scores, s.workers[w].inbox[0].notices);
      RemainingMoves(s, s', w);
    case SendSolution(w, _) => RemainingMoves(s, s', w);
    case CollectNext =>
      CollectSafe(s);
      RemainingMoves(s, s', s.center.next);
  }

  /* ---------- the end is reached ---------- */

  lemma {:induction false} RunFinal(s: State, actions: seq<Action>)
    requires Inv(s) && Final(s) && Run(s, actions).Some?
    ensures Run(s, actions).value.Next?
    ensures Inv(Run(s, actions).value.state) && Final(Run(s, actions).value.state)
    decreases |actions|
  {
    hide Inv, Final, Enabled, Step;
    if actions != [] {
      FinalKept(s, actions[0]);
      RunFinal(Step(s, actions[0]).state, actions[1..]);
    }
  }

  lemma {:induction false} RunJoined(s: State, first: seq<Action>, second: seq<Action>)
    requires Run(s, first).Some? && Run(s, first).value.Next?
    ensures Run(s, first + second) == Run(Run(s, first).value.state, second)
    decreases |first|
  {
    hide Enabled, Step;
    if first == [] {
      assert first + second == second;
    } else {
      assert (first + second)[0] == first[0] && (first + second)[1..] == first[1..] + second;
      RunJoined(Step(s, first[0]).state, first[1..], second);
    }
  }

  /** The run ends with everything collected. */
  ghost predicate Ends(s: State, actions: seq<Action>) {
    Run(s, actions).Some? && Run(s, actions).value.Next? && Run(s, actions).value.state.center == Finished
  }

  lemma EndsThen(s: State, a: Action, rest: seq<Action>)
    requires Enabled(s, a) && Step(s, a).Next? && Ends(Step(s, a).state, rest)
    ensures Ends(s, [a] + rest)
  {
    assert ([a] + rest)[1..] == rest;
  }

  lemma EndsNow(s: State)
    requires s.center == Finished
    ensures Ends(s, [])
  {
  }

  lemma CenterFine(s: State)
    requires Inv(s)
    ensures CenterOk(s)
  {
  }

  lemma {:induction false} EndIsReached(s: State) returns (actions: seq<Action>)
    requires Inv(s) && Final(s) && !Live(s.center)
    ensures |actions| <= Remaining(s) && Ends(s, actions) && forall a | a in actions :: Finishing(a)
    decreases Remaining(s)
  {
    hide Inv, Final, CenterOk, Remaining, Finishing, Enabled, Step, Ends;
    CenterFine(s);
    RemainingNonNegative(s);
    if s.center == Finished {
      EndsNow(s);
      return [];
    }
    var a := SomethingFinishes(s);
    FinishingCloser(s, a);
    FinalKept(s, a);
    var s' := Step(s, a).state;
    CenterFine(s');
    RemainingNonNegative(s');
    var rest := EndIsReached(s');
    EndsThen(s, a, rest);
    actions := [a] + rest;
  }

  lemma InitFinal(n: nat)
    ensures Final(Init(n))
  {
  }

  /**
   * Wherever a run stands once its work has stopped, resting or past the center's loop, it can be continued by
   * receipts and the steps of the last phase until the center has collected every worker.
   */
  lemma CompletionIsReached(n: nat, actions: seq<Action>) returns (more: seq<Action>)
    requires n >= 1 && Run(Init(n), actions).Some?
    requires Run(Init(n), actions).value.Next? ==>
      var s := Run(Init(n), actions).value.state; D.Resting(s) || !Live(s.center)
    ensures Ends(Init(n), actions + more) && forall a | a in more :: D.Delivery(a) || Finishing(a)
  {
    hide Inv, Final, Run, D.Still, D.Delivery, Finishing;
    InitInv(n);
    InitFinal(n);
    RunFinal(Init(n), actions);
    var s, quiet := Run(Init(n), actions).value.state, [];
    if Live(s.center) {
      quiet := D.TerminationIsDetected(s);
      RunFinal(s, quiet);
      RunJoined(Init(n), actions, quiet);
    } else {
      assert actions + [] == actions;
    }
    var last := EndIsReached(Run(Init(n), actions + quiet).value.state);
    RunJoined(Init(n), actions + quiet, last);
    assert actions + (quiet + last) == (actions + quiet) + last;
    more := quiet + last;
  }
}

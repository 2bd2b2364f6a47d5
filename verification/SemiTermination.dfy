/** Whole runs of the semi-centralized protocol: nothing throws, and termination is safe. */
module SemiTermination {
  import opened Common
  import opened SemiProtocol
  import opened SemiInvariant
  import H = Handoff

  ghost predicate Good(s: State) {
    Inv(s) && SlotsOk(s)
  }

  lemma SlotsSame(s: State, s': State)
    requires SlotsOk(s) && s'.n == s.n && s'.slot == s.slot
    ensures SlotsOk(s')
  {
  }

  lemma SlotUpdated(s: State, s': State, w: nat)
    requires SlotsOk(s) && s'.n == s.n && w < s.n && |s'.slot| == s.n
    requires forall x | 0 <= x < s.n && x != w :: s'.slot[x] == s.slot[x]
    requires H.Inv(s'.slot[w]) && s'.slot[w].policy == H.ToHelper(s.n, w)
    ensures SlotsOk(s')
  {
  }

  lemma LocalSafe(s: State, w: nat, step: H.Action)
    requires Good(s) && Enabled(s, Local(w, step))
    ensures H.Step(s.slot[w], step).Next?
    ensures var h := H.Step(s.slot[w], step).state;
            if step.Send?
            then Good(TaskSent(s, w, s.slot[w].destination, s.slot[w].funnel.bundle, h))
            else Good(s.(slot := s.slot[w := h]))
  {
    hide Accounts, Rooted, Traffic, SettledExcept;
    var h0 := s.slot[w];
    H.StepSafe(h0, step);
    var h := H.Step(h0, step).state;
    if step.Send? {
      H.SendsToHelper(h0);
      TaskSentInv(s, w, h0.destination, h0.funnel.bundle, h);
      SlotUpdated(s, TaskSent(s, w, h0.destination, h0.funnel.bundle, h), w);
    } else {
      if h0.funnel == H.Stopped {
        H.StoppedIsIdle(h0);
      }
      SlotInv(s, w, h);
      SlotUpdated(s, s.(slot := s.slot[w := h]), w);
    }
  }

  lemma ReceiveTaskSafe(s: State, src: nat, w: nat, thread: nat)
    requires Good(s) && Enabled(s, ReceiveTask(src, w, thread))
    ensures Good(TaskAccepted(s, src, w, thread))
  {
    TaskAcceptedInv(s, src, w, thread);
    H.StartedInv(s.slot[w], thread);
    SlotUpdated(s, TaskAccepted(s, src, w, thread), w);
  }

  lemma FinishTaskSafe(s: State, w: nat)
    requires Good(s) && Enabled(s, FinishTask(w))
    ensures Good(TaskFinished(s, w))
  {
    H.StoppedIsIdle(s.slot[w]);
    TaskFinishedInv(s, w);
  }

  /** The steps of a worker other than those of its slot. */
  lemma WorkerSafe(s: State, a: Action)
    requires Good(s) && Enabled(s, a)
    requires a.WorkerAck? || a.ReceiveTermination? || a.SendSolution?
    ensures Step(s, a).Next? && Good(Step(s, a).state)
  {
    hide Accounts, Rooted, Traffic, SettledExcept;
    match a
    case WorkerAck(src, w) => AckTakenInv(s, src, w);
    case ReceiveTermination(w) => TerminationTakenInv(s, w);
    case SendSolution(w, m) => SolutionSentInv(s, w, m);
  }

  /** The steps of the center. */
  lemma CenterSafe(s: State, a: Action)
    requires Good(s) && Enabled(s, a)
    requires a.SendSeed? || a.CenterReport? || a.CenterAck? || a.Notify?
    ensures Step(s, a).Next? && Good(Step(s, a).state)
  {
    hide Accounts, Rooted, Traffic;
    match a
    case SendSeed(b) => SeedSentInv(s, b);
    case CenterReport(w) => PlainDropInv(s, s.(net := Drop(s.net, w, 0)), w, 0);
    case CenterAck(w) => CenterAckTakenInv(s, w);
    case Notify(c, p) => PlainPutInv(s, Notified(s, c, p), 0, s.center.next, Termination(c, p));
  }

  lemma CollectSafe(s: State)
    requires Good(s) && Enabled(s, Collect)
    ensures Step(s, Collect).Next? && Good(Step(s, Collect).state)
  {
    hide Accounts, Rooted, Traffic, SettledExcept;
    CollectedInv(s);
  }

  /** No step throws, and every step keeps the invariant. */
  lemma StepSafe(s: State, a: Action)
    requires Good(s) && Enabled(s, a)
    ensures Step(s, a).Next? && Good(Step(s, a).state)
  {
    hide Good;
    match a
    case Local(w, step) => LocalSafe(s, w, step);
    case ReceiveTask(src, w, thread) => ReceiveTaskSafe(s, src, w, thread);
    case FinishTask(w) => FinishTaskSafe(s, w);
    case Collect => CollectSafe(s);
    case SendSeed(_) => CenterSafe(s, a);
    case CenterReport(_) => CenterSafe(s, a);
    case CenterAck(_) => CenterSafe(s, a);
    case Notify(_, _) => CenterSafe(s, a);
    case _ => WorkerSafe(s, a);
  }

  lemma StepKeepsSize(s: State, a: Action)
    requires Enabled(s, a) && Step(s, a).Next?
    ensures Step(s, a).state.n == s.n
  {
  }

  lemma InitGood(n: nat)
    requires n >= 2
    ensures Good(Init(n))
  {
    var s := Init(n);
    forall w: nat | 1 <= w < n ensures H.Inv(s.slot[w]) && H.Idle(s.slot[w]) {
      H.FreshInv(H.ToHelper(n, w));
    }
    forall p: nat | p < n ensures s.det[p].deficit == Owed(s, p) {
      SumZero(n, (q: nat) => Debt(s, p, q));
    }
    assert Ranked(s, seq(n, _ => 0));
  }

  /* ---------- whole runs ---------- */

  /** The outcome of a run, when every action was enabled in turn; None when one was not. */
  function Run(s: State, actions: seq<Action>): Option<Outcome<State>>
    decreases |actions|
  {
    if actions == [] then Some(Next(s))
    else if !Enabled(s, actions[0]) then None
    else match Step(s, actions[0])
      case Next(s') => Run(s', actions[1..])
      case Throws(reason) => Some(Throws(reason))
  }

  lemma {:induction false} RunSafe(s: State, actions: seq<Action>)
    requires Good(s) && Run(s, actions).Some?
    ensures Run(s, actions).value.Next? && Good(Run(s, actions).value.state)
    ensures Run(s, actions).value.state.n == s.n
    decreases |actions|
  {
    if actions != [] {
      StepSafe(s, actions[0]);
      StepKeepsSize(s, actions[0]);
      RunSafe(Step(s, actions[0]).state, actions[1..]);
    }
  }

  /**
   * In every run of any world, with workers sending tasks to any other worker: none of the source's throws
   * is reached, and whenever the center has left its loop no task or acknowledgement is in flight, no worker
   * holds local work or a queued bundle, and every detector is quiescent.
   */
  lemma TerminationIsSafe(n: nat, actions: seq<Action>)
    requires n >= 2 && Run(Init(n), actions).Some?
    ensures Run(Init(n), actions).value.Next?
    ensures var s := Run(Init(n), actions).value.state;
            Good(s) && s.n == n && (!Live(s.center) ==> Quiet(s))
  {
    InitGood(n);
    RunSafe(Init(n), actions);
    var s := Run(Init(n), actions).value.state;
    if !Live(s.center) {
      QuietWhenPaid(s);
    }
  }
}

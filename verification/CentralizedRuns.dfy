/** Whole runs of the centralized scheduler: nothing throws, termination is safe, and tasks are conserved. */
module CentralizedRuns {
  import opened Common
  import opened TerminationDetection
  import opened Centralized
  import opened CentralizedInvariant
  import H = Handoff

  /* ---------- the system invariant ---------- */

  function OwedAt(s: State, w: nat): int {
    if w < |s.workers| then Owed(s.workers[w]) else 0
  }

  function FreeAt(s: State, w: nat): int {
    if w < |s.workers| && s.workers[w].standing == IsAvailable then 1 else 0
  }

  ghost function MadeAt(s: State, w: nat): multiset<Bundle> {
    if w < |s.workers| then Made(s.workers[w]) else multiset{}
  }

  ghost function HeldAt(s: State, w: nat): multiset<Bundle> {
    if w < |s.workers| then Held(s.workers[w]) else multiset{}
  }

  ghost predicate Accounts(s: State) {
    && s.det.deficit == Sum(|s.workers|, (w: nat) => OwedAt(s, w))
    && s.available == Sum(|s.workers|, (w: nat) => FreeAt(s, w))
  }

  /** Every seed and every task sent to the center is queued, on a link, at work or finished. */
  ghost predicate Conserved(s: State) {
    s.seeds + BagSum(|s.workers|, (w: nat) => MadeAt(s, w)) == s.queue + BagSum(|s.workers|, (w: nat) => HeldAt(s, w))
  }

  /** Received plus queued is what the center counted, and TERMINATION carries those counts. */
  ghost predicate SideOk(s: State, x: Worker) {
    && x.scoresIn + x.scores == s.scoresSent && x.noticesIn + |x.notices| == s.noticesSent
    && forall m | m in x.inbox && m.Termination? :: m == Termination(s.scoresSent, s.noticesSent)
  }

  ghost predicate WorkersOk(s: State) {
    forall w | 0 <= w < |s.workers| :: WorkerOk(s.workers[w], Live(s.center)) && SideOk(s, s.workers[w])
  }

  ghost predicate CenterOk(s: State) {
    && |s.workers| >= 1 && s.det.isRoot && s.det.parent == NO_PARENT
    && (s.center == Serving <==> s.det.deficit != 0 || s.queue != multiset{})
    && (s.center.Notifying? ==> s.center.next < |s.workers|)
    && (s.center.Collecting? ==> s.center.next < |s.workers|)
  }

  ghost predicate Inv(s: State) {
    CenterOk(s) && WorkersOk(s) && Accounts(s) && Conserved(s)
  }

  /* ---------- changing one worker ---------- */

  predicate OneChanged(s: State, s': State, w: nat) {
    w < |s.workers| == |s'.workers| && forall q | 0 <= q < |s.workers| && q != w :: s'.workers[q] == s.workers[q]
  }

  lemma AccountsMove(s: State, s': State, w: nat)
    requires Accounts(s) && OneChanged(s, s', w)
    requires s'.det.deficit - s.det.deficit == Owed(s'.workers[w]) - Owed(s.workers[w])
    requires s'.available - s.available == FreeAt(s', w) - FreeAt(s, w)
    ensures Accounts(s')
  {
    hide Owed;
    SumOne(|s.workers|, (q: nat) => OwedAt(s, q), (q: nat) => OwedAt(s', q), w);
    SumOne(|s.workers|, (q: nat) => FreeAt(s, q), (q: nat) => FreeAt(s', q), w);
  }

  lemma BagsMove<T>(seeds: multiset<T>, made: multiset<T>, queue: multiset<T>, held: multiset<T>,
                    m: multiset<T>, h: multiset<T>,
                    seeds': multiset<T>, made': multiset<T>, queue': multiset<T>, held': multiset<T>,
                    m': multiset<T>, h': multiset<T>)
    requires seeds + made == queue + held
    requires made' + m == made + m' && held' + h == held + h'
    requires (seeds' + m') + (queue + h) == (seeds + m) + (queue' + h')
    ensures seeds' + made' == queue' + held'
  {
    forall x ensures (seeds' + made')[x] == (queue' + held')[x] {
      assert (seeds + made)[x] == (queue + held)[x];
      assert (made' + m)[x] == (made + m')[x] && (held' + h)[x] == (held + h')[x];
      assert ((seeds' + m') + (queue + h))[x] == ((seeds + m) + (queue' + h'))[x];
    }
  }

  lemma ConservedMove(s: State, s': State, w: nat)
    requires Conserved(s) && OneChanged(s, s', w)
    requires (s'.seeds + Made(s'.workers[w])) + (s.queue + Held(s.workers[w]))
      == (s.seeds + Made(s.workers[w])) + (s'.queue + Held(s'.workers[w]))
    ensures Conserved(s')
  {
    hide Made, Held;
    var n := |s.workers|;
    var m, m' := (q: nat) => MadeAt(s, q), (q: nat) => MadeAt(s', q);
    var h, h' := (q: nat) => HeldAt(s, q), (q: nat) => HeldAt(s', q);
    BagSumOne(n, m, m', w);
    BagSumOne(n, h, h', w);
    BagsMove(s.seeds, BagSum(n, m), s.queue, BagSum(n, h), m(w), h(w),
             s'.seeds, BagSum(n, m'), s'.queue, BagSum(n, h'), m'(w), h'(w));
  }

  lemma WorkersMove(s: State, s': State, w: nat)
    requires WorkersOk(s) && OneChanged(s, s', w)
    requires Live(s'.center) == Live(s.center) && s'.scoresSent == s.scoresSent && s'.noticesSent == s.noticesSent
    requires WorkerOk(s'.workers[w], Live(s'.center)) && SideOk(s', s'.workers[w])
    ensures WorkersOk(s')
  {
    hide WorkerOk;
  }

  /** A step of one worker that the center does not see. */
  lemma WorkerStep(s: State, w: nat, x: Worker)
    requires Inv(s) && w < |s.workers| && WorkerOk(x, Live(s.center)) && SideOk(s, x)
    requires Owed(x) == Owed(s.workers[w]) && x.standing == s.workers[w].standing
    requires Made(x) + Held(s.workers[w]) == Made(s.workers[w]) + Held(x)
    ensures Inv(With(s, w, x))
  {
    hide WorkerOk, Owed, Made, Held;
    var s' := With(s, w, x);
    AccountsMove(s, s', w);
    BagsSwap(s.seeds, s.queue, Made(x), Held(s.workers[w]), Made(s.workers[w]), Held(x));
    ConservedMove(s, s', w);
    WorkersMove(s, s', w);
  }

  lemma BagsSwap<T>(seeds: multiset<T>, queue: multiset<T>, a: multiset<T>,
    b: multiset<T>, c: multiset<T>, d: multiset<T>)
    requires a + b == c + d
    ensures (seeds + a) + (queue + b) == (seeds + c) + (queue + d)
  {
    assert (seeds + a) + (queue + b) == (seeds + queue) + (a + b);
  }

  /* ---------- when the center stops waiting ---------- */

  /** Nobody owes the center anything exactly when every worker is quiet, and then every worker is available. */
  lemma AllQuiet(s: State)
    requires Inv(s) && s.det.deficit == 0
    ensures forall w | 0 <= w < |s.workers| :: Quiet(s.workers[w]) && Held(s.workers[w]) == s.workers[w].finished
  {
    var f := (q: nat) => OwedAt(s, q);
    SumNonNegative(|s.workers|, f);
    forall w: nat | w < |s.workers| ensures Quiet(s.workers[w]) && Held(s.workers[w]) == s.workers[w].finished {
      assert f(w) == Owed(s.workers[w]) && WorkerOk(s.workers[w], Live(s.center));
      QuietWhenPaid(s.workers[w], Live(s.center));
    }
  }

  /** The center never gets stuck with queued tasks: with nothing outstanding, any worker can be given any of them. */
  lemma NeverStuck(s: State, w: nat, b: Bundle)
    requires Inv(s) && s.det.deficit == 0 && b in s.queue && w < |s.workers|
    ensures Enabled(s, Dispatch(w, b))
  {
    AllQuiet(s);
  }

  /** Throughout, a worker has at most one unfinished task, and the center's count of available workers is right. */
  lemma AtMostOne(s: State, w: nat)
    requires Inv(s) && w < |s.workers|
    ensures Tasks(s.workers[w].inbox) + (if s.workers[w].phase.Working? then 1 else 0) <= 1
    ensures s.workers[w].standing == IsAvailable ==> Tasks(s.workers[w].inbox) == 0 && !s.workers[w].phase.Working?
    ensures s.available == Sum(|s.workers|, (q: nat) => FreeAt(s, q))
  {
    assert WorkerOk(s.workers[w], Live(s.center));
  }

  /* ---------- worker steps ---------- */

  lemma ReceiveTaskSafe(s: State, w: nat, thread: nat)
    requires Inv(s) && Enabled(s, ReceiveTask(w, thread))
    ensures Safe(Step(s, ReceiveTask(w, thread)))
  {
    hide WorkerOk, Owed, Made, Held, Accounts, Conserved;
    var x := s.workers[w];
    assert WorkerOk(x, Live(s.center)) && SideOk(s, x);
    AcceptedOk(x, thread, Live(s.center));
    AcceptedHeld(x, thread);
    WorkerStep(s, w, Accepted(x, thread));
  }

  /** Only the send step adds to what has been sent. */
  lemma LocalSent(h: H.State, step: H.Action)
    requires H.Enabled(h, step) && H.Step(h, step).Next?
    ensures var h' := H.Step(h, step).state;
            && (step.Send? ==> h.funnel.Sending?)
            && h'.sent == h.sent + if step.Send? then [H.Parcel(h.destination, h.funnel.bundle)] else []
  {
  }

  lemma LocalSafe(s: State, w: nat, step: H.Action)
    requires Inv(s) && Enabled(s, Local(w, step))
    ensures Safe(Step(s, Local(w, step)))
  {
    hide Inv, H.Inv, H.Step;
    var x := s.workers[w];
    SlotGood(s, w);
    H.StepSafe(x.slot, step);
    LocalSent(x.slot, step);
    LocalWorker(s, w, step.Send?, H.Step(x.slot, step).state);
  }

  lemma SlotGood(s: State, w: nat)
    requires Inv(s) && w < |s.workers|
    ensures H.Inv(s.workers[w].slot) && s.workers[w].slot.policy == H.ToCenter
  {
    hide Accounts, Conserved, H.Inv;
    assert WorkerOk(s.workers[w], Live(s.center));
  }

  lemma SlotChanged(x: Worker, h: H.State, live: bool)
    requires WorkerOk(x, live) && x.phase.Working? && H.Inv(h) && h.policy == H.ToCenter && h.sent == x.slot.sent
    ensures var y := x.(slot := h);
            WorkerOk(y, live) && Owed(y) == Owed(x) && Made(y) == Made(x) && Held(y) == Held(x)
  {
    hide H.Inv;
  }

  lemma LocalWorker(s: State, w: nat, sends: bool, h: H.State)
    requires Inv(s) && w < |s.workers| && s.workers[w].phase.Working? && H.Inv(h) && h.policy == H.ToCenter
    requires sends ==> s.workers[w].slot.funnel.Sending?
    requires h.sent == s.workers[w].slot.sent +
      if sends then [H.Parcel(s.workers[w].slot.destination, s.workers[w].slot.funnel.bundle)] else []
    ensures var x := s.workers[w]; Inv(With(s, w, if sends then Sent(x, x.slot.funnel.bundle, h) else x.(slot := h)))
  {
    hide H.Inv, WorkerOk, Owed, Made, Held, Accounts, Conserved;
    var x := s.workers[w];
    assert WorkerOk(x, Live(s.center)) && SideOk(s, x);
    if sends {
      SentOk(x, x.slot.funnel.bundle, h, Live(s.center));
      SentHeld(x, x.slot.funnel.bundle, h);
      var b := multiset{x.slot.funnel.bundle};
      assert (Made(x) + b) + Held(x) == Made(x) + (Held(x) + b);
      WorkerStep(s, w, Sent(x, x.slot.funnel.bundle, h));
    } else {
      assert x.slot.sent + [] == x.slot.sent;
      SlotChanged(x, h, Live(s.center));
      WorkerStep(s, w, x.(slot := h));
    }
  }

  lemma ScoredOk(x: Worker, live: bool)
    requires WorkerOk(x, live) && x.scores > 0
    ensures WorkerOk(Scored(x), live) && Owed(Scored(x)) == Owed(x)
    ensures Made(Scored(x)) == Made(x) && Held(Scored(x)) == Held(x)
  {
    hide H.Inv;
  }

  lemma ReceiveScoreSafe(s: State, w: nat)
    requires Inv(s) && Enabled(s, ReceiveScore(w))
    ensures Safe(Step(s, ReceiveScore(w)))
  {
    hide WorkerOk, Owed, Made, Held, Accounts, Conserved;
    var x := s.workers[w];
    assert WorkerOk(x, Live(s.center)) && SideOk(s, x);
    ScoredOk(x, Live(s.center));
    WorkerStep(s, w, Scored(x));
  }

  lemma NoticedSlot(x: Worker)
    requires SlotOk(x) && Receiving(x) && x.notices != []
    ensures SlotOk(Noticed(x)) && Noticed(x).slot.sent == x.slot.sent
  {
    H.StepSafe(x.slot, H.ReceiveFullness(x.notices[0]));
  }

  lemma NoticedOk(x: Worker, live: bool)
    requires WorkerOk(x, live) && Receiving(x) && x.notices != []
    ensures WorkerOk(Noticed(x), live) && Receiving(Noticed(x))
    ensures Owed(Noticed(x)) == Owed(x) && Made(Noticed(x)) == Made(x) && Held(Noticed(x)) == Held(x)
  {
    NoticedSlot(x);
    hide H.Inv, H.Idle;
  }

  lemma ReceiveNoticeSafe(s: State, w: nat)
    requires Inv(s) && w < |s.workers| && Receiving(s.workers[w]) && s.workers[w].notices != []
    ensures Inv(With(s, w, Noticed(s.workers[w])))
  {
    hide WorkerOk, Owed, Made, Held, Accounts, Conserved;
    var x := s.workers[w];
    assert WorkerOk(x, Live(s.center)) && SideOk(s, x);
    NoticedOk(x, Live(s.center));
    WorkerStep(s, w, Noticed(x));
  }

  lemma StoppedWorker(x: Worker, live: bool)
    requires WorkerOk(x, live) && x.slot.funnel == H.Stopped
    ensures H.Idle(x.slot) && x.slot.sent == x.slot.pushed
  {
    H.StoppedIsIdle(x.slot);
  }

  lemma FinishTaskSafe(s: State, w: nat)
    requires Inv(s) && w < |s.workers| && s.workers[w].phase.Working? && s.workers[w].slot.funnel == H.Stopped
    ensures Inv(With(s, w, Completed(s.workers[w])))
  {
    hide WorkerOk, Owed, Made, Held, Accounts, Conserved;
    var x := s.workers[w];
    assert WorkerOk(x, Live(s.center)) && SideOk(s, x);
    StoppedWorker(x, Live(s.center));
    CompletedOk(x, Live(s.center));
    WorkerStep(s, w, Completed(x));
  }

  lemma WorkerAckSafe(s: State, w: nat)
    requires Inv(s) && w < |s.workers| && s.workers[w].phase == Idle && Head(s.workers[w].inbox) == Some(Ack)
    ensures s.workers[w].det.deficit > 0 && Inv(With(s, w, Acked(s.workers[w])))
  {
    hide WorkerOk, Owed, Made, Held, Accounts, Conserved;
    var x := s.workers[w];
    assert WorkerOk(x, Live(s.center)) && SideOk(s, x);
    AckedOk(x, Live(s.center));
    WorkerStep(s, w, Acked(x));
  }

  /* ---------- center steps ---------- */

  /** The break after a message is taken exactly when nothing is outstanding. */
  lemma CheckedInv(s: State)
    requires s.center == Serving && WorkersOk(s) && Accounts(s) && Conserved(s)
    requires |s.workers| >= 1 && s.det.isRoot && s.det.parent == NO_PARENT
    ensures Inv(Checked(s))
  {
    var s' := Checked(s);
    assert WorkersOk(s') by {
      forall w: nat | w < |s.workers| ensures WorkerOk(s'.workers[w], Live(s'.center)) && SideOk(s', s'.workers[w]) {
        assert WorkerOk(s.workers[w], true) && SideOk(s, s.workers[w]);
        LiveNoMore(s.workers[w], Live(s'.center));
      }
    }
    SameAccounts(s, s');
  }

  lemma LiveNoMore(x: Worker, live: bool)
    requires WorkerOk(x, true)
    ensures WorkerOk(x, live)
  {
    hide H.Inv;
  }

  lemma SameAccounts(s: State, s': State)
    requires Accounts(s) && Conserved(s) && s'.workers == s.workers && s'.det == s.det && s'.available == s.available
    requires s'.queue == s.queue && s'.seeds == s.seeds
    ensures Accounts(s') && Conserved(s')
  {
    var n := |s.workers|;
    SumSame(n, (q: nat) => OwedAt(s, q), (q: nat) => OwedAt(s', q));
    SumSame(n, (q: nat) => FreeAt(s, q), (q: nat) => FreeAt(s', q));
    BagSumSame(n, (q: nat) => MadeAt(s, q), (q: nat) => MadeAt(s', q));
    BagSumSame(n, (q: nat) => HeldAt(s, q), (q: nat) => HeldAt(s', q));
  }

  /** A center step that touches one worker's record and then looks whether all is done. */
  lemma CenterStep(s: State, s': State, w: nat)
    requires Inv(s) && s.center == Serving && s'.center == Serving && w < |s.workers|
    requires OneChanged(s, s', w) && s'.det.isRoot && s'.det.parent == NO_PARENT
    requires s'.scoresSent == s.scoresSent && s'.noticesSent == s.noticesSent
    requires WorkerOk(s'.workers[w], true) && SideOk(s', s'.workers[w])
    requires s'.det.deficit - s.det.deficit == Owed(s'.workers[w]) - Owed(s.workers[w])
    requires s'.available - s.available == FreeAt(s', w) - FreeAt(s, w)
    requires (s'.seeds + Made(s'.workers[w])) + (s.queue + Held(s.workers[w]))
      == (s.seeds + Made(s.workers[w])) + (s'.queue + Held(s'.workers[w]))
    ensures WorkersOk(s') && Accounts(s') && Conserved(s') && Inv(Checked(s'))
  {
    hide WorkerOk, Owed, Made, Held;
    WorkersMove(s, s', w);
    AccountsMove(s, s', w);
    ConservedMove(s, s', w);
    CheckedInv(s');
  }

  lemma TakeReportSafe(s: State, w: nat)
    requires Inv(s) && Enabled(s, TakeReport(w))
    ensures Inv(Reported(s, w))
  {
    hide WorkerOk, Owed, Made, Held, Accounts, Conserved;
    var x := s.workers[w];
    assert WorkerOk(x, Live(s.center)) && SideOk(s, x);
    ReportedOk(x, true);
    var y := x.(outbox := x.outbox[1..], standing := if x.outbox[0] == Available then IsAvailable else IsRunning);
    var s' := With(s, w, y).(available := s.available + if x.outbox[0] == Available then 1 else 0);
    BagsSwap(s.seeds, s.queue, Made(y), Held(x), Made(x), Held(y));
    CenterStep(s, s', w);
  }

  lemma TakeTaskSafe(s: State, w: nat)
    requires Inv(s) && Enabled(s, TakeTask(w))
    ensures Inv(Queued(s, w))
  {
    hide WorkerOk, Owed, Made, Held, Accounts, Conserved;
    var x := s.workers[w];
    assert WorkerOk(x, Live(s.center)) && SideOk(s, x);
    QueuedOk(x, true);
    var y := x.(outbox := x.outbox[1..], inbox := x.inbox + [Ack]);
    var b := multiset{x.outbox[0].bundle};
    var s' := With(s, w, y).(queue := s.queue + b);
    assert (s.seeds + Made(x)) + (s.queue + (Held(y) + b)) == (s.seeds + Made(x)) + ((s.queue + b) + Held(y));
    CenterStep(s, s', w);
  }

  lemma TakeAckSafe(s: State, w: nat)
    requires Inv(s) && Enabled(s, TakeAck(w))
    ensures s.det.deficit > 0 && Inv(CenterAcked(s, w))
  {
    hide WorkerOk, Owed, Made, Held, Accounts, Conserved;
    var x := s.workers[w];
    assert WorkerOk(x, Live(s.center)) && SideOk(s, x);
    CenterAckedOk(x, true);
    var y := x.(outbox := x.outbox[1..]);
    AckOwed(s, w);
    var s' := With(s, w, y).(det := s.det.AckReceived().0);
    CenterStep(s, s', w);
  }

  lemma AckOwed(s: State, w: nat)
    requires Inv(s) && w < |s.workers| && Head(s.workers[w].outbox) == Some(Ack)
    ensures s.det.deficit > 0
  {
    hide WorkerOk, Conserved, SideOk;
    var f := (q: nat) => OwedAt(s, q);
    SumNonNegative(|s.workers|, f);
    assert f(w) == Owed(s.workers[w]);
  }

  lemma DispatchSafe(s: State, w: nat, b: Bundle)
    requires Inv(s) && Enabled(s, Dispatch(w, b))
    ensures Inv(Dispatched(s, w, b))
  {
    hide WorkerOk, Owed, Made, Held, Accounts, Conserved;
    var x := s.workers[w];
    assert WorkerOk(x, Live(s.center)) && SideOk(s, x);
    DispatchedOk(x, b, IsAssigned, true);
    var y := x.(inbox := x.inbox + [Task(b)], standing := IsAssigned);
    var s' := Dispatched(s, w, b);
    assert Made(y) == Made(x);
    assert s.queue == (s.queue - multiset{b}) + multiset{b};
    assert (s.seeds + Made(x)) + (s.queue + Held(x))
      == (s.seeds + Made(x)) + ((s.queue - multiset{b}) + (Held(x) + multiset{b}));
    CenterStep(s, s', w);
    OutstandingNow(s', w);
  }

  /** A task on its way keeps the center waiting. */
  lemma OutstandingNow(s: State, w: nat)
    requires WorkersOk(s) && Accounts(s) && w < |s.workers| && Owed(s.workers[w]) > 0
    ensures s.det.deficit > 0
  {
    var f := (q: nat) => OwedAt(s, q);
    SumNonNegative(|s.workers|, f);
    assert f(w) == Owed(s.workers[w]);
  }

  lemma SendSeedSafe(s: State, b: Bundle)
    requires Inv(s) && Enabled(s, SendSeed(b))
    ensures Inv(Seeded(s, b))
  {
    hide WorkerOk, Owed, Made, Held, Accounts, Conserved;
    AllQuiet(s);
    var x := s.workers[0];
    assert WorkerOk(x, Live(s.center)) && SideOk(s, x) && Quiet(x);
    DispatchedOk(x, b, IsRunning, true);
    var y := x.(inbox := x.inbox + [Task(b)], standing := IsRunning);
    var s1, s' := s.(center := Serving), Seeded(s, b);
    assert ((s.seeds + multiset{b}) + Made(x)) + (s.queue + Held(x))
      == (s.seeds + Made(x)) + (s.queue + (Held(x) + multiset{b}));
    WorkersMove(s, s', 0);
    AccountsMove(s, s', 0);
    ConservedMove(s, s', 0);
    OutstandingNow(s', 0);
  }

  lemma BroadcastWorkers(s: State, s': State)
    requires WorkersOk(s) && s.center == Serving && Broadcast(s, s')
    ensures WorkersOk(s')
    ensures forall w: nat | w < |s.workers| ::
      OwedAt(s', w) == OwedAt(s, w) && FreeAt(s', w) == FreeAt(s, w)
        && MadeAt(s', w) == MadeAt(s, w) && HeldAt(s', w) == HeldAt(s, w)
  {
    hide WorkerOk, Owed, Made, Held;
    forall w: nat | w < |s.workers|
      ensures WorkerOk(s'.workers[w], true) && SideOk(s', s'.workers[w])
      ensures OwedAt(s', w) == OwedAt(s, w) && FreeAt(s', w) == FreeAt(s, w)
      ensures MadeAt(s', w) == MadeAt(s, w) && HeldAt(s', w) == HeldAt(s, w)
    {
      var x := s.workers[w];
      assert WorkerOk(x, true) && SideOk(s, x);
      NoTermination(x);
      SameWorker(x, s'.workers[w]);
    }
  }

  lemma NoTermination(x: Worker)
    requires WorkerOk(x, true)
    ensures forall m | m in x.inbox :: !m.Termination?
  {
    hide DetectorOk, SlotOk, Tokens, ReportsOk, TrailOk, OutboxOk;
  }

  /** Side channel broadcasts touch every worker in the same way. */
  ghost predicate Broadcast(s: State, s': State) {
    && |s'.workers| == |s.workers|
    && s' == s.(workers := s'.workers, scoresSent := s'.scoresSent, noticesSent := s'.noticesSent)
    && forall w | 0 <= w < |s.workers| ::
      && s'.workers[w] == s.workers[w].(scores := s'.workers[w].scores, notices := s'.workers[w].notices)
      && s'.workers[w].scores - s.workers[w].scores == s'.scoresSent - s.scoresSent
      && |s'.workers[w].notices| - |s.workers[w].notices| == s'.noticesSent - s.noticesSent
  }

  lemma BroadcastSafe(s: State, s': State)
    requires Inv(s) && s.center == Serving && Broadcast(s, s')
    ensures Inv(s')
  {
    hide WorkersOk, Owed, Made, Held;
    var n := |s.workers|;
    BroadcastWorkers(s, s');
    SumSame(n, (q: nat) => OwedAt(s, q), (q: nat) => OwedAt(s', q));
    SumSame(n, (q: nat) => FreeAt(s, q), (q: nat) => FreeAt(s', q));
    BagSumSame(n, (q: nat) => MadeAt(s, q), (q: nat) => MadeAt(s', q));
    BagSumSame(n, (q: nat) => HeldAt(s, q), (q: nat) => HeldAt(s', q));
  }

  lemma SameWorker(x: Worker, y: Worker)
    requires WorkerOk(x, true) && y == x.(scores := y.scores, notices := y.notices)
    requires forall m | m in x.inbox :: !m.Termination?
    ensures WorkerOk(y, true) && Owed(y) == Owed(x) && Made(y) == Made(x) && Held(y) == Held(x)
  {
    hide H.Inv;
  }

  /* ---------- the last phase ---------- */

  lemma NotifiedWorker(x: Worker, m: Message)
    requires WorkerOk(x, false) && m.Termination?
    ensures var y := x.(inbox := x.inbox + [m]);
            WorkerOk(y, false) && Owed(y) == Owed(x) && Made(y) == Made(x) && Held(y) == Held(x)
  {
    hide H.Inv, Tasks, Acks, Reports, Bundles, TrailOk;
    Appended(x.inbox, m);
  }

  lemma NotifyNextSafe(s: State)
    requires Inv(s) && Enabled(s, NotifyNext)
    ensures Safe(Step(s, NotifyNext))
  {
    hide WorkerOk, Owed, Made, Held, Accounts, Conserved;
    var w, m := s.center.next, Termination(s.scoresSent, s.noticesSent);
    var x := s.workers[w];
    assert WorkerOk(x, Live(s.center)) && SideOk(s, x);
    NotifiedWorker(x, m);
    var s1 := With(s, w, x.(inbox := x.inbox + [m]));
    WorkerStep(s, w, x.(inbox := x.inbox + [m]));
    Advanced(s1, Notified(s));
  }

  /** Among the phases after the loop, only the phase itself changes. */
  lemma Advanced(s: State, s': State)
    requires Inv(s) && !Live(s.center) && s' == s.(center := s'.center) && !Live(s'.center)
    requires s'.center.Notifying? ==> s'.center.next < |s.workers|
    requires s'.center.Collecting? ==> s'.center.next < |s.workers|
    ensures Inv(s')
  {
    hide WorkerOk;
    assert WorkersOk(s') by {
      forall w | 0 <= w < |s'.workers| ensures WorkerOk(s'.workers[w], Live(s'.center)) && SideOk(s', s'.workers[w]) {
        assert WorkerOk(s.workers[w], false) && SideOk(s, s.workers[w]);
      }
    }
    SameAccounts(s, s');
  }

  /** drain_center_messages empties the fullness channel and only touches the worker's own flag. */
  lemma {:induction false} NoticesDrainedOk(x: Worker, count: int, live: bool)
    requires WorkerOk(x, live) && x.phase == Idle && count - x.noticesIn <= |x.notices|
    ensures var y := NoticesDrained(x, count);
            && WorkerOk(y, live) && Owed(y) == Owed(x) && Made(y) == Made(x) && Held(y) == Held(x)
            && y.phase == Idle && y.standing == x.standing && y.inbox == x.inbox
            && y.scores == x.scores && y.scoresIn == x.scoresIn
            && y.noticesIn + |y.notices| == x.noticesIn + |x.notices|
            && (x.noticesIn <= count ==> y.noticesIn == count)
    decreases count - x.noticesIn
  {
    hide WorkerOk, Owed, Made, Held;
    if x.noticesIn < count {
      NoticedOk(x, live);
      NoticesDrainedOk(Noticed(x), count, live);
    }
  }

  lemma ScoresDrainedOk(x: Worker, count: int, live: bool)
    requires WorkerOk(x, live) && count - x.scoresIn <= x.scores
    ensures var y := ScoresDrained(x, count);
            && WorkerOk(y, live) && Owed(y) == Owed(x) && Made(y) == Made(x) && Held(y) == Held(x)
  {
    ScoresDrainedKeeps(x, count);
    hide H.Inv;
  }

  lemma TerminationDropped(x: Worker)
    requires WorkerOk(x, false) && x.phase == Idle && x.inbox != [] && x.inbox[0].Termination?
    ensures var y := x.(phase := Leaving, inbox := x.inbox[1..]);
            WorkerOk(y, false) && Owed(y) == Owed(x) && Made(y) == Made(x) && Held(y) == Held(x)
  {
    hide H.Inv, Tasks, Acks, Reports, Bundles, TrailOk;
    Dropped(x.inbox);
  }

  lemma LeftOk(x: Worker, scores: int, notices: int)
    requires WorkerOk(x, false) && x.phase == Idle && Head(x.inbox) == Some(Termination(scores, notices))
    requires x.scoresIn + x.scores == scores && x.noticesIn + |x.notices| == notices
    ensures Drainable(x, scores, notices) && scores >= x.scoresIn && notices >= x.noticesIn
    ensures var y := Left(x, scores, notices);
            && WorkerOk(y, false) && Owed(y) == Owed(x) && Made(y) == Made(x) && Held(y) == Held(x)
            && y.scoresIn == scores && y.scores == 0 && y.noticesIn == notices && y.notices == []
            && y.standing == x.standing && y.inbox == x.inbox[1..]
  {
    hide WorkerOk, Owed, Made, Held;
    ScoresDrainedKeeps(x, scores);
    ScoresDrainedOk(x, scores, false);
    var x1 := ScoresDrained(x, scores);
    NoticesDrainedOk(x1, notices, false);
    TerminationDropped(NoticesDrained(x1, notices));
  }

  /**
   * A worker that finds its TERMINATION message passes the guard, can always drain, and then has all the center sent.
   */
  lemma TakeTerminationSafe(s: State, w: nat, scores: int, notices: int)
    requires Inv(s) && w < |s.workers| && s.workers[w].phase == Idle
    requires Head(s.workers[w].inbox) == Some(Termination(scores, notices))
    ensures !Unfinished(s.workers[w]) && Drainable(s.workers[w], scores, notices)
    ensures scores >= s.workers[w].scoresIn && notices >= s.workers[w].noticesIn
    ensures Inv(With(s, w, Left(s.workers[w], scores, notices)))
    ensures var y := Left(s.workers[w], scores, notices);
            y.scoresIn == s.scoresSent && y.noticesIn == s.noticesSent && y.scores == 0 && y.notices == []
  {
    hide WorkerOk, Owed, Made, Held, Accounts, Conserved;
    var x := s.workers[w];
    assert WorkerOk(x, Live(s.center)) && SideOk(s, x);
    assert x.inbox[0] in x.inbox;
    NotLive(x, Live(s.center));
    AllQuiet(s);
    LeftOk(x, scores, notices);
    WorkerStep(s, w, Left(x, scores, notices));
  }

  lemma NotLive(x: Worker, live: bool)
    requires WorkerOk(x, live) && x.inbox != [] && x.inbox[0].Termination?
    ensures !live
  {
    assert x.inbox[0] in x.inbox;
  }

  lemma SolutionOk(x: Worker, m: Message, live: bool)
    requires WorkerOk(x, live) && x.phase == Leaving && (m.HasResult? || m.NoResult?)
    ensures var y := x.(phase := Done, outbox := x.outbox + [m]);
            WorkerOk(y, live) && Owed(y) == Owed(x) && Made(y) == Made(x) && Held(y) == Held(x)
  {
    hide H.Inv, Tasks, Acks, Reports, Bundles, TrailOk;
    Appended(x.outbox, m);
    TrailAppended(x.outbox, m, Engaged(x), Engaged(x));
  }

  lemma SendSolutionSafe(s: State, w: nat, m: Message)
    requires Inv(s) && Enabled(s, SendSolution(w, m))
    ensures Inv(With(s, w, s.workers[w].(phase := Done, outbox := s.workers[w].outbox + [m])))
  {
    hide WorkerOk, Owed, Made, Held, Accounts, Conserved;
    var x := s.workers[w];
    assert WorkerOk(x, Live(s.center)) && SideOk(s, x);
    SolutionOk(x, m, Live(s.center));
    WorkerStep(s, w, x.(phase := Done, outbox := x.outbox + [m]));
  }

  lemma ResultDropped(x: Worker, live: bool)
    requires WorkerOk(x, live) && x.outbox != [] && (x.outbox[0].HasResult? || x.outbox[0].NoResult?)
    ensures var y := x.(outbox := x.outbox[1..]);
            WorkerOk(y, live) && Owed(y) == Owed(x) && Made(y) == Made(x) && Held(y) == Held(x)
  {
    hide H.Inv, Tasks, Acks, Reports, Bundles, TrailOk;
    Dropped(x.outbox);
  }

  /** receive_solution_from finds the worker's solution at once: no report is left over, let alone an unknown tag. */
  lemma CollectSafe(s: State)
    requires Inv(s) && s.center.Collecting? && s.center.next < |s.workers| && s.workers[s.center.next].outbox != []
    ensures var r := s.center.next;
            var m, s1 := s.workers[r].outbox[0], With(s, r, s.workers[r].(outbox := s.workers[r].outbox[1..]));
            && (m.HasResult? || m.NoResult?)
            && Inv(s1.(center := if r + 1 < |s.workers| then Collecting(r + 1) else Finished))
  {
    hide WorkerOk, Owed, Made, Held, Accounts, Conserved;
    var r := s.center.next;
    var x := s.workers[r];
    assert WorkerOk(x, Live(s.center)) && SideOk(s, x);
    AllQuiet(s);
    assert x.outbox[0] in x.outbox;
    ResultDropped(x, false);
    var s1 := With(s, r, x.(outbox := x.outbox[1..]));
    WorkerStep(s, r, x.(outbox := x.outbox[1..]));
    Advanced(s1, s1.(center := if r + 1 < |s.workers| then Collecting(r + 1) else Finished));
  }

  /* ---------- every step and every run ---------- */

  ghost predicate Safe(o: Outcome<State>) {
    o.Next? && Inv(o.state)
  }

  lemma WorkerSafe(s: State, a: Action)
    requires Inv(s) && Enabled(s, a)
    requires a.ReceiveTask? || a.Local? || a.ReceiveScore? || a.ReceiveNotice?
      || a.FinishTask? || a.WorkerAck? || a.SendSolution?
    ensures Safe(Step(s, a))
  {
    hide Inv;
    match a
    case ReceiveTask(w, thread) => ReceiveTaskSafe(s, w, thread);
    case Local(w, step) => LocalSafe(s, w, step);
    case ReceiveScore(w) => ReceiveScoreSafe(s, w);
    case ReceiveNotice(w) => ReceiveNoticeSafe(s, w);
    case FinishTask(w) => FinishTaskSafe(s, w);
    case WorkerAck(w) => WorkerAckSafe(s, w);
    case SendSolution(w, m) => SendSolutionSafe(s, w, m);
  }

  lemma CenterSafe(s: State, a: Action)
    requires Inv(s) && Enabled(s, a)
    requires a.SendSeed? || a.TakeReport? || a.TakeTask? || a.TakeAck? || a.Dispatch? || a.NotifyNext?
    ensures Safe(Step(s, a))
  {
    hide Inv;
    match a
    case SendSeed(b) => SendSeedSafe(s, b);
    case TakeReport(w) => TakeReportSafe(s, w);
    case TakeTask(w) => TakeTaskSafe(s, w);
    case TakeAck(w) => TakeAckSafe(s, w);
    case Dispatch(w, b) => DispatchSafe(s, w, b);
    case NotifyNext => NotifyNextSafe(s);
  }

  lemma BroadcastIs(s: State, a: Action)
    requires Enabled(s, a) && (a.BroadcastScore? || a.BroadcastFullness?)
    ensures s.center == Serving && Step(s, a).Next? && Broadcast(s, Step(s, a).state)
  {
  }

  lemma BroadcastsSafe(s: State, a: Action)
    requires Inv(s) && Enabled(s, a) && (a.BroadcastScore? || a.BroadcastFullness?)
    ensures Safe(Step(s, a))
  {
    hide Inv;
    BroadcastIs(s, a);
    BroadcastSafe(s, Step(s, a).state);
  }

  lemma LeavingSafe(s: State, w: nat)
    requires Inv(s) && Enabled(s, TakeTermination(w))
    ensures Safe(Step(s, TakeTermination(w)))
  {
    hide Inv;
    var m := s.workers[w].inbox[0];
    TakeTerminationSafe(s, w, m.scores, m.notices);
  }

  lemma CollectingSafe(s: State)
    requires Inv(s) && Enabled(s, CollectNext)
    ensures Safe(Step(s, CollectNext))
  {
    hide Inv;
    CollectSafe(s);
  }

  /** No step throws, and every step keeps the invariant. */
  lemma StepSafe(s: State, a: Action)
    requires Inv(s) && Enabled(s, a)
    ensures Safe(Step(s, a))
  {
    hide Inv, Step, Enabled, Safe;
    match a
    case TakeTermination(w) => LeavingSafe(s, w);
    case CollectNext => CollectingSafe(s);
    case BroadcastScore => BroadcastsSafe(s, a);
    case BroadcastFullness(_) => BroadcastsSafe(s, a);
    case SendSeed(_) => CenterSafe(s, a);
    case TakeReport(_) => CenterSafe(s, a);
    case TakeTask(_) => CenterSafe(s, a);
    case TakeAck(_) => CenterSafe(s, a);
    case Dispatch(_, _) => CenterSafe(s, a);
    case NotifyNext => CenterSafe(s, a);
    case _ => WorkerSafe(s, a);
  }

  lemma EmptyLink(c: seq<Message>, ps: seq<H.Parcel>)
    requires c == [] && ps == []
    ensures Tasks(c) == 0 && Acks(c) == 0 && Reports(c) == [] && Bundles(c) == multiset{} && TrailOk(c, false)
    ensures BundlesOf(ps) == multiset{}
  {
  }

  lemma NewWorkerOk(x: Worker)
    requires x.det == Detector(false, 0, NO_PARENT) && x.phase == Idle
    requires x.standing == IsAvailable && x.finished == multiset{}
    requires SlotOk(x) && x.slot.sent == [] && x.inbox == [] && x.outbox == []
    ensures WorkerOk(x, true) && Owed(x) == 0 && Made(x) == multiset{} && Held(x) == multiset{}
  {
    hide SlotOk, Tasks, Acks, Reports, Bundles, TrailOk, BundlesOf;
    EmptyLink(x.inbox, x.slot.sent);
    EmptyLink(x.outbox, x.slot.sent);
  }

  lemma FreshOk()
    ensures WorkerOk(FreshWorker(), true) && Owed(FreshWorker()) == 0
    ensures Made(FreshWorker()) == multiset{} && Held(FreshWorker()) == multiset{}
  {
    hide H.Inv, H.Idle, WorkerOk, Owed, Made, Held;
    H.FreshInv(H.ToCenter);
    NewWorkerOk(FreshWorker());
  }

  lemma InitInv(n: nat)
    requires n >= 1
    ensures Inv(Init(n))
  {
    FreshOk();
    hide WorkerOk, Owed, Made, Held;
    var s := Init(n);
    SumZero(n, (q: nat) => OwedAt(s, q));
    SumOnes(n, (q: nat) => FreeAt(s, q));
    BagSumEmpty(n, (q: nat) => MadeAt(s, q));
    BagSumEmpty(n, (q: nat) => HeldAt(s, q));
  }

  lemma {:induction false} SumOnes(n: nat, f: nat -> int)
    requires forall q: nat | q < n :: f(q) == 1
    ensures Sum(n, f) == n
  {
    if n > 0 {
      SumOnes(n - 1, f);
    }
  }

  /** The outcome of a run, when every action was enabled in turn; None when one was not. */
  function Run(s: State, actions: seq<Action>): Option<Outcome<State>>
    decreases |actions|
  {
    if actions == [] then Some(Next(s))
    else if !Enabled(s, actions[0]) then None
    else match Step(s, actions[0])
      case Next(s') => Run(s', actions[1..])
      case Throws(reason) => Some(Throws(reason))
  }

  lemma {:induction false} RunSafe(s: State, actions: seq<Action>)
    requires Inv(s) && Run(s, actions).Some?
    ensures Safe(Run(s, actions).value)
    decreases |actions|
  {
    hide Inv, Step, Enabled;
    if actions != [] {
      StepSafe(s, actions[0]);
      RunSafe(Step(s, actions[0]).state, actions[1..]);
    }
  }

  /** What w's tasks passed to force_push over the whole run. */
  ghost function PushedAt(s: State, w: nat): multiset<Bundle> {
    if w < |s.workers| then BundlesOf(s.workers[w].slot.pushed) else multiset{}
  }

  ghost function FinishedAt(s: State, w: nat): multiset<Bundle> {
    if w < |s.workers| then s.workers[w].finished else multiset{}
  }

  /**
   * In every run of any world: none of the source's throws is reached, and whenever the center has left its
   * loop the queue is empty, every worker is quiet, and the tasks the workers have finished are, as a bag, the
   * seed and every task ever pushed to the center.
   */
  lemma TerminationIsSafe(n: nat, actions: seq<Action>)
    requires n >= 1 && Run(Init(n), actions).Some?
    ensures Run(Init(n), actions).value.Next? && Inv(Run(Init(n), actions).value.state)
    ensures var s := Run(Init(n), actions).value.state;
            !Live(s.center) ==>
              && s.queue == multiset{}
              && (forall w | 0 <= w < |s.workers| :: Quiet(s.workers[w]))
              && BagSum(|s.workers|, (w: nat) => FinishedAt(s, w))
                 == s.seeds + BagSum(|s.workers|, (w: nat) => PushedAt(s, w))
  {
    hide Inv;
    InitInv(n);
    RunSafe(Init(n), actions);
    var s := Run(Init(n), actions).value.state;
    if !Live(s.center) {
      Finale(s);
    }
  }

  lemma Finale(s: State)
    requires Inv(s) && !Live(s.center)
    ensures s.queue == multiset{} && forall w | 0 <= w < |s.workers| :: Quiet(s.workers[w])
    ensures BagSum(|s.workers|, (w: nat) => FinishedAt(s, w))
      == s.seeds + BagSum(|s.workers|, (w: nat) => PushedAt(s, w))
  {
    AllQuiet(s);
    var n := |s.workers|;
    forall w: nat | w < n ensures HeldAt(s, w) == FinishedAt(s, w) && MadeAt(s, w) == PushedAt(s, w) {
      assert WorkerOk(s.workers[w], Live(s.center)) && Quiet(s.workers[w]);
      StoppedWorker(s.workers[w], Live(s.center));
    }
    hide WorkerOk, Made, Held, Quiet;
    BagSumSame(n, (q: nat) => HeldAt(s, q), (q: nat) => FinishedAt(s, q));
    BagSumSame(n, (q: nat) => MadeAt(s, q), (q: nat) => PushedAt(s, q));
  }
}

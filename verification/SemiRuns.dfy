/** What the steps of a semi-centralized run keep of its books while the center serves. */
module SemiRuns {
  import opened Common
  import opened SemiScores
  import opened SemiScoresInvariant
  import T = SemiProtocol
  import TI = SemiInvariant
  import TT = SemiTermination
  import H = Handoff
  import F = Forest

  /* ---------- what the messages of the last phase carry ---------- */

  predicate CollectedRank(c: T.CenterPhase, n: nat, r: nat) {
    match c
    case Collecting(k) => 1 <= r < k
    case Finished => 1 <= r < n
    case _ => false
  }

  predicate IsSolution(m: T.Message) {
    m.HasResult? || m.NoResult?
  }

  /** TERMINATION carries the final counters, solutions are the senders' own, and the center records them. */
  ghost predicate Payloads(s: State) {
    && Sized(s)
    && (forall w, m | 1 <= w < s.t.n && m in T.Link(s.t.net, 0, w) && m.Termination? ::
         m == T.Termination(s.scoresSent, s.helpersSent[w]))
    && (forall r, m | 1 <= r < s.t.n && m in T.Link(s.t.net, r, 0) && IsSolution(m) :: m == Solution(s.books[r]))
    && (forall r | 1 <= r < s.t.n && CollectedRank(s.t.center, s.t.n, r) ::
         s.t.phase[r] == T.Done && s.results[r] == ResultOf(Solution(s.books[r])))
    && (forall r | 1 <= r < s.t.n && !CollectedRank(s.t.center, s.t.n, r) :: s.results[r] == None)
    && s.results[0] == None
  }

  /** Messages of the last phase only disappear from t to t'. */
  ghost predicate NoNewFinals(t: T.State, t': T.State) {
    forall p, q, m | m in T.Link(t'.net, p, q) && (m.Termination? || IsSolution(m)) :: m in T.Link(t.net, p, q)
  }

  lemma PayloadsFrame(s: State, s': State)
    requires Payloads(s) && Sized(s') && s'.t.n == s.t.n && TI.Traffic(s.t)
    requires NoNewFinals(s.t, s'.t) && s'.results == s.results
    requires TI.Live(s.t.center) || (s'.scoresSent == s.scoresSent && s'.helpersSent == s.helpersSent)
    requires forall r: nat | 1 <= r < s.t.n ::
      CollectedRank(s'.t.center, s.t.n, r) == CollectedRank(s.t.center, s.t.n, r)
    requires forall r | 1 <= r < s.t.n && s.t.phase[r] == T.Done ::
      s'.t.phase[r] == T.Done && Solution(s'.books[r]) == Solution(s.books[r])
    ensures Payloads(s')
  {
    forall w, m | 1 <= w < s.t.n && m in T.Link(s'.t.net, 0, w) && m.Termination?
      ensures m == T.Termination(s'.scoresSent, s'.helpersSent[w])
    {
      assert TI.Allowed(s.t, 0, w, m);
    }
    forall r, m | 1 <= r < s.t.n && m in T.Link(s'.t.net, r, 0) && IsSolution(m) ensures m == Solution(s'.books[r]) {
      assert TI.Allowed(s.t, r, 0, m);
    }
  }

  lemma PutFinals(net: T.Net, p: int, q: int, m: T.Message)
    requires !m.Termination? && !IsSolution(m)
    ensures forall a, b, x | x in T.Link(T.Put(net, p, q, m), a, b) && (x.Termination? || IsSolution(x)) ::
      x in T.Link(net, a, b)
  {
  }

  lemma DropFinals(net: T.Net, p: int, q: int)
    requires T.Link(net, p, q) != []
    ensures forall a, b, x | x in T.Link(T.Drop(net, p, q), a, b) :: x in T.Link(net, a, b)
  {
  }

  /* ---------- ordinary protocol steps ---------- */

  /** Ordinary steps bring no termination notice or solution and do not touch the collection. */
  lemma ReceivedFinals(t: T.State, src: nat, w: nat, thread: nat)
    requires T.Enabled(t, T.ReceiveTask(src, w, thread)) && T.Step(t, T.ReceiveTask(src, w, thread)).Next?
    ensures NoNewFinals(t, T.Step(t, T.ReceiveTask(src, w, thread)).state)
  {
    var acked := t.det[w].TaskReceived(src).1.Some?;
    DropFinals(t.net, src, w);
    PutFinals(T.Drop(t.net, src, w), w, src, T.Ack);
    PutFinals(if acked then T.Put(T.Drop(t.net, src, w), w, src, T.Ack) else T.Drop(t.net, src, w), w, 0, T.Running);
  }

  lemma ReleasedFinals(t: T.State, w: nat)
    requires w < |t.det|
    ensures NoNewFinals(t, T.ReleaseParent(t, w))
  {
    PutFinals(t.net, w, t.det[w].parent, T.Ack);
  }

  lemma FinishedFinals(t: T.State, w: nat)
    requires T.Enabled(t, T.FinishTask(w))
    ensures NoNewFinals(t, T.TaskFinished(t, w))
  {
    hide T.ReleaseParent, T.Put;
    PutFinals(t.net, w, 0, T.Available);
    ReleasedFinals(t.(phase := t.phase[w := T.Idle], net := T.Put(t.net, w, 0, T.Available)), w);
  }

  lemma AckedFinals(t: T.State, src: nat, w: nat)
    requires T.Enabled(t, T.WorkerAck(src, w))
    ensures NoNewFinals(t, T.AckTaken(t, src, w))
  {
    hide T.ReleaseParent, T.Drop;
    DropFinals(t.net, src, w);
    ReleasedFinals(t.(det := t.det[w := t.det[w].AckReceived().0], net := T.Drop(t.net, src, w)), w);
  }

  lemma OrdinaryFinals(t: T.State, p: T.Action)
    requires T.Enabled(t, p) && Ordinary(p) && T.Step(t, p).Next?
    ensures NoNewFinals(t, T.Step(t, p).state)
  {
    hide T.TaskAccepted, T.TaskFinished, T.AckTaken, T.Put, T.Drop;
    match p
    case SendSeed(b) => PutFinals(t.net, 0, 1, T.Task(b));
    case ReceiveTask(src, w, thread) =>
      ReceivedFinals(t, src, w, thread);
    case Local(w, step) =>
      if step.Send? {
        PutFinals(t.net, w, t.slot[w].destination, T.Task(t.slot[w].funnel.bundle));
      }
    case FinishTask(w) => FinishedFinals(t, w);
    case WorkerAck(src, w) => AckedFinals(t, src, w);
    case CenterAck(w) => DropFinals(t.net, w, 0);
  }

  /** Sizes stay, finished workers stay finished, and the center does not start to collect. */
  ghost predicate KeepsShape(t: T.State, t': T.State) {
    && t'.n == t.n && |t'.det| == |t.det| && |t'.phase| == |t.phase| && |t'.slot| == |t.slot|
    && (t'.center == t.center || (TI.Live(t.center) && (t'.center == T.Serving || t'.center == T.Notifying(1))))
    && (forall r | 0 <= r < |t.phase| && t.phase[r] == T.Done :: t'.phase[r] == T.Done)
  }

  lemma OrdinaryShape(t: T.State, p: T.Action)
    requires T.Enabled(t, p) && Ordinary(p) && T.Step(t, p).Next?
    ensures KeepsShape(t, T.Step(t, p).state)
  {
  }

  /** Where an ordinary step from t to t' leaves worker w's main thread. */
  ghost predicate Moves(t: T.State, t': T.State, p: T.Action, w: nat)
    requires w < |t.phase| && w < |t.slot| && w < |t'.phase| && w < |t'.slot|
  {
    && (MainThread(p) != Some(w) ==> t'.phase[w] == t.phase[w] && t'.slot[w].funnel == t.slot[w].funnel)
    && (p.ReceiveTask? && p.w == w ==> t'.phase[w] == T.Working && t'.slot[w].funnel == H.Entry)
    && (p.FinishTask? && p.w == w ==> t.slot[w].funnel == H.Stopped && t'.phase[w] == T.Idle)
    && (p.WorkerAck? && p.w == w ==> t.phase[w] == T.Idle && t'.phase[w] == T.Idle)
    && (p.Local? && p.w == w && !H.PoolAction(p.step) ==>
         && t.phase[w] == T.Working && t'.phase[w] == T.Working && t.slot[w].funnel != H.Stopped
         && (t.slot[w].funnel == H.Closing ==> p.step == H.Return && t'.slot[w].funnel == H.Stopped)
         && (t'.slot[w].funnel == H.Stopped ==> p.step == H.Return && t.slot[w].funnel == H.Closing)
         && (t'.slot[w].funnel == H.Closing ==> t.slot[w].funnel == H.LastPop))
  }

  lemma OrdinaryMoves(t: T.State, p: T.Action, w: nat)
    requires T.Enabled(t, p) && Ordinary(p) && T.Step(t, p).Next? && 1 <= w < t.n && |t.phase| == |t.slot| == t.n
    ensures var t' := T.Step(t, p).state; |t'.phase| == |t'.slot| == t.n && Moves(t, t', p, w)
  {
    if p.Local? {
      H.FunnelMoves(t.slot[p.w], p.step);
    }
  }

  lemma OrdinaryValues(s: State, p: T.Action, t': T.State)
    requires Sized(s) && Values(s) && Ordinary(p) && (p.ReceiveTask? ==> p.w < s.t.n)
    requires t'.n == s.t.n && |t'.det| == |t'.phase| == |t'.slot| == s.t.n
    requires MainThread(p).Some? ==> Unblocked(s, MainThread(p).value)
    requires p.Local? && p.step == H.Return ==> p.w < |s.books| && s.books[p.w].synced
    requires forall w: nat | 1 <= w < s.t.n :: Moves(s.t, t', p, w)
    ensures Values(s.(t := t', books := Starts(s, p)))
  {
    var s' := s.(t := t', books := Starts(s, p));
    forall w: nat | 1 <= w < s.t.n
      ensures CaughtUp(s', w) ==> CaughtUp(s, w)
      ensures s'.books[w].synced && s'.t.phase[w] == T.Working ==> InFunnelEnd(s', w)
      ensures s'.books[w].proposing.Some? ==> Proposes(s', w, s'.books[w].proposing.value)
    {
      assert Moves(s.t, t', p, w) && WorkerValues(s, w);
    }
    ValuesFrame(s, s');
  }

  /* ---------- every step ---------- */

  ghost predicate Books(s: State) {
    ScoreChannels(s) && HelperChannels(s) && Values(s) && Payloads(s)
  }

  ghost predicate All(s: State) {
    TT.Good(s.t) && Books(s)
  }

  lemma BooksSized(s: State)
    requires Books(s)
    ensures Sized(s)
  {
  }

  lemma AllParts(s: State)
    requires All(s)
    ensures TI.Inv(s.t) && TI.Traffic(s.t) && Sized(s) && |s.t.det| > 0
    ensures forall w | 1 <= w < s.t.n :: H.Inv(s.t.slot[w])
  {
  }

  lemma OrdinaryBooks(s: State, p: T.Action, t': T.State)
    requires Books(s) && TI.Traffic(s.t) && Ordinary(p) && (p.ReceiveTask? ==> p.w < s.t.n && s.t.phase[p.w] != T.Done)
    requires MainThread(p).Some? ==> Unblocked(s, MainThread(p).value)
    requires p.Local? && p.step == H.Return ==> p.w < |s.books| && s.books[p.w].synced
    requires KeepsShape(s.t, t') && NoNewFinals(s.t, t')
    requires forall w: nat | 1 <= w < s.t.n :: Moves(s.t, t', p, w)
    ensures Books(s.(t := t', books := Starts(s, p)))
  {
    BooksSized(s);
    hide ScoreChannels, HelperChannels, Values, Payloads, NoNewFinals, TI.Traffic, Moves;
    OrdinaryValues(s, p, t');
    OrdinaryChannels(s, p, t');
    OrdinaryPayloads(s, p, t');
  }

  lemma OrdinaryChannels(s: State, p: T.Action, t': T.State)
    requires ScoreChannels(s) && HelperChannels(s) && (p.ReceiveTask? ==> p.w < s.t.n) && KeepsShape(s.t, t')
    ensures var s' := s.(t := t', books := Starts(s, p)); ScoreChannels(s') && HelperChannels(s')
  {
    BooksKept(s, p, t');
    hide ScoreChannels, HelperChannels, Starts, KeepsShape;
    ChannelsFrame(s, s.(t := t', books := Starts(s, p)));
  }

  lemma OrdinaryPayloads(s: State, p: T.Action, t': T.State)
    requires Payloads(s) && TI.Traffic(s.t) && (p.ReceiveTask? ==> p.w < s.t.n)
    requires KeepsShape(s.t, t') && NoNewFinals(s.t, t')
    ensures Payloads(s.(t := t', books := Starts(s, p)))
  {
    BooksKept(s, p, t');
    hide Payloads, Starts, NoNewFinals, TI.Traffic;
    PayloadsFrame(s, s.(t := t', books := Starts(s, p)));
  }

  /** The start of a task only opens its last update_score. */
  lemma BooksKept(s: State, p: T.Action, t': T.State)
    requires Sized(s) && (p.ReceiveTask? ==> p.w < s.t.n) && KeepsShape(s.t, t')
    ensures Sized(s.(t := t', books := Starts(s, p)))
    ensures forall w | 0 <= w < s.t.n :: Starts(s, p)[w] == s.books[w].(synced := Starts(s, p)[w].synced)
  {
  }

  lemma ProtocolSafe(s: State, p: T.Action)
    requires All(s) && ProtocolEnabled(s, p)
    ensures T.Step(s.t, p).Next?
    ensures All(s.(t := T.Step(s.t, p).state, books := Starts(s, p)))
  {
    hide Books, TI.Inv, TI.SlotsOk, T.Step, Moves, KeepsShape, NoNewFinals;
    AllParts(s);
    TT.StepSafe(s.t, p);
    OrdinaryShape(s.t, p);
    OrdinaryFinals(s.t, p);
    forall w: nat | 1 <= w < s.t.n ensures Moves(s.t, T.Step(s.t, p).state, p, w) {
      OrdinaryMoves(s.t, p, w);
    }
    OrdinaryBooks(s, p, T.Step(s.t, p).state);
  }

  lemma ScoreUpdatedChannels(s: State, w: nat)
    requires ScoreChannels(s) && HelperChannels(s) && 1 <= w < s.t.n
    ensures ScoreChannels(ScoreUpdated(s, w)) && HelperChannels(ScoreUpdated(s, w))
  {
    ChannelsFrame(s, ScoreUpdated(s, w));
  }

  lemma ScoreUpdatedPayloads(s: State, w: nat)
    requires Payloads(s) && TI.Traffic(s.t) && 1 <= w < s.t.n && s.t.phase[w] == T.Working
    ensures Payloads(ScoreUpdated(s, w))
  {
    PayloadsFrame(s, ScoreUpdated(s, w));
  }

  lemma ScoreUpdatedBooks(s: State, w: nat)
    requires Books(s) && TI.Traffic(s.t) && 1 <= w < s.t.n && s.books[w].proposing == None && s.t.phase[w] == T.Working
    requires s.t.slot[w].funnel == H.InSync || s.t.slot[w].funnel == H.Closing
    ensures Books(ScoreUpdated(s, w))
  {
    ScoreUpdatedValues(s, w);
    ScoreUpdatedChannels(s, w);
    ScoreUpdatedPayloads(s, w);
  }

  lemma ProposalTakenPayloads(s: State, w: nat)
    requires Payloads(s) && TI.Traffic(s.t) && 1 <= w < s.t.n && s.books[w].proposing.Some? && s.t.center == T.Serving
    ensures Payloads(ProposalTaken(s, w))
  {
    PayloadsFrame(s, ProposalTaken(s, w));
  }

  lemma ProposalTakenHelpers(s: State, w: nat)
    requires HelperChannels(s) && 1 <= w < s.t.n && s.books[w].proposing.Some?
    ensures HelperChannels(ProposalTaken(s, w))
  {
    HelperFrame(s, ProposalTaken(s, w));
  }

  lemma ProposalTakenBooks(s: State, w: nat)
    requires Books(s) && TI.Traffic(s.t) && 1 <= w < s.t.n && s.books[w].proposing.Some? && s.t.center == T.Serving
    ensures Books(ProposalTaken(s, w))
  {
    ProposalTakenValues(s, w);
    ProposalTakenChannels(s, w);
    ProposalTakenHelpers(s, w);
    ProposalTakenPayloads(s, w);
  }

  lemma AcceptedChannels(s: State, w: nat, score: int, packet: Packet)
    requires ScoreChannels(s) && HelperChannels(s) && 1 <= w < s.t.n
    ensures ScoreChannels(Accepted(s, w, score, packet)) && HelperChannels(Accepted(s, w, score, packet))
  {
    ChannelsFrame(s, Accepted(s, w, score, packet));
  }

  lemma AcceptedPayloads(s: State, w: nat, score: int, packet: Packet)
    requires Payloads(s) && TI.Traffic(s.t) && 1 <= w < s.t.n && s.t.phase[w] == T.Working
    ensures Payloads(Accepted(s, w, score, packet))
  {
    PayloadsFrame(s, Accepted(s, w, score, packet));
  }

  lemma AcceptedBooks(s: State, w: nat, score: int, packet: Packet)
    requires Books(s) && TI.Traffic(s.t) && 1 <= w < s.t.n && s.t.phase[w] == T.Working && packet != []
    requires !InFunnelEnd(s, w)
    ensures Books(Accepted(s, w, score, packet))
  {
    AcceptedValues(s, w, score, packet);
    AcceptedChannels(s, w, score, packet);
    AcceptedPayloads(s, w, score, packet);
  }

  /** Receiving global scores and helper lists changes no solution. */
  lemma SamePayloads(s: State, s': State)
    requires Payloads(s) && TI.Traffic(s.t) && Sized(s') && SameValues(s, s')
    ensures Payloads(s')
  {
    PayloadsFrame(s, s');
  }

  lemma ScoreReceivedBooks(s: State, w: nat)
    requires Books(s) && TI.Traffic(s.t) && 1 <= w < s.t.n && s.scoreNet[w] != []
    ensures Books(ScoreReceived(s, w))
  {
    var s' := ScoreReceived(s, w);
    ScoreReceivedChannels(s, w);
    HelperFrame(s, s');
    ValuesSame(s, s');
    SamePayloads(s, s');
  }

  /* ---------- helper lists ---------- */

  lemma ReportedBooks(s: State, w: nat, t: T.State, o: (F.Center, Option<F.Assignment>))
    requires Books(s) && TI.Traffic(s.t) && s.t.center == T.Serving && F.Handled(s.forest, Next(o))
    requires 1 <= w < s.t.n && T.Link(s.t.net, w, 0) != [] && t == s.t.(net := T.Drop(s.t.net, w, 0))
    ensures Books(Reported(s, t, o))
  {
    var s' := Reported(s, t, o);
    ReportedChannels(s, t, o);
    assert ScoreChannels(s') by {
      ReportedScores(s, t, o);
    }
    assert Values(s') by {
      ReportedValues(s, t, o);
    }
    DropFinals(s.t.net, w, 0);
    PayloadsFrame(s, s');
  }

  lemma ReportedScores(s: State, t: T.State, o: (F.Center, Option<F.Assignment>))
    requires ScoreChannels(s) && F.Handled(s.forest, Next(o))
    requires t == s.t.(net := t.net)
    ensures ScoreChannels(Reported(s, t, o))
  {
    var s' := Reported(s, t, o);
    forall i: nat, j: nat | i < j <= |s'.broadcasts| ensures Better(s'.goal, ValueAt(s', j), ValueAt(s', i)) {
      assert Better(s.goal, ValueAt(s, j), ValueAt(s, i));
    }
  }

  lemma ReportedValues(s: State, t: T.State, o: (F.Center, Option<F.Assignment>))
    requires Sized(s) && Values(s) && F.Handled(s.forest, Next(o))
    requires t == s.t.(net := t.net)
    ensures Values(Reported(s, t, o))
  {
    var s' := Reported(s, t, o);
    forall w: nat | 1 <= w < s.t.n
      ensures s'.books[w].synced && s'.t.phase[w] == T.Working ==> InFunnelEnd(s', w)
      ensures s'.books[w].proposing.Some? ==> Proposes(s', w, s'.books[w].proposing.value)
    {
      assert WorkerValues(s, w);
    }
    ValuesFrame(s, s');
  }

  /** A helper list that reaches a receiving worker is always acceptable to its slot. */
  lemma HelperListAccepted(s: State, w: nat)
    requires TT.Good(s.t) && HelperChannels(s) && Receiving(s, w) && s.helperNet[w] != []
    ensures T.Enabled(s.t, T.Local(w, H.ReceiveHelpers(s.helperNet[w][0])))
  {
    assert s.helperNet[w][0] in s.helperNet[w];
    if s.t.phase[w] == T.Idle {
      assert H.Idle(s.t.slot[w]);
    }
  }

  lemma ScoreSlot(s: State, w: nat, h: H.State)
    requires Books(s) && TI.Traffic(s.t) && 1 <= w < s.t.n && h.funnel == s.t.slot[w].funnel
    ensures Books(s.(t := s.t.(slot := s.t.slot[w := h])))
  {
    BooksSized(s);
    hide ScoreChannels, HelperChannels, Values, Payloads, TI.Traffic;
    var s1 := s.(t := s.t.(slot := s.t.slot[w := h]));
    SlotValues(s, w, h);
    ChannelsFrame(s, s1);
    PayloadsFrame(s, s1);
  }

  lemma SlotValues(s: State, w: nat, h: H.State)
    requires Sized(s) && Values(s) && 1 <= w < s.t.n && h.funnel == s.t.slot[w].funnel
    ensures Values(s.(t := s.t.(slot := s.t.slot[w := h])))
  {
    var s1 := s.(t := s.t.(slot := s.t.slot[w := h]));
    forall x: nat | 1 <= x < s.t.n
      ensures s1.books[x].synced && s1.t.phase[x] == T.Working ==> InFunnelEnd(s1, x)
      ensures s1.books[x].proposing.Some? ==> Proposes(s1, x, s1.books[x].proposing.value)
    {
      assert WorkerValues(s, x);
    }
    ValuesFrame(s, s1);
  }

  lemma PoppedScores(s: State, w: nat)
    requires ScoreChannels(s) && 1 <= w < s.t.n && s.helperNet[w] != []
    ensures ScoreChannels(Popped(s, w))
  {
    var s' := Popped(s, w);
    forall i: nat, j: nat | i < j <= |s'.broadcasts| ensures Better(s'.goal, ValueAt(s', j), ValueAt(s', i)) {
      assert Better(s.goal, ValueAt(s, j), ValueAt(s, i));
    }
  }

  lemma PoppedHelpers(s: State, w: nat)
    requires HelperChannels(s) && 1 <= w < s.t.n && s.helperNet[w] != []
    ensures HelperChannels(Popped(s, w))
  {
  }

  lemma PoppedBooks(s: State, w: nat)
    requires Books(s) && TI.Traffic(s.t) && 1 <= w < s.t.n && s.helperNet[w] != []
    ensures Books(Popped(s, w))
  {
    PoppedScores(s, w);
    PoppedHelpers(s, w);
    ValuesSame(s, Popped(s, w));
    SamePayloads(s, Popped(s, w));
  }

  lemma HelpersReceivedBooks(s: State, w: nat)
    requires Books(s) && TI.Traffic(s.t) && 1 <= w < s.t.n && s.helperNet[w] != []
    requires |s.helperNet[w][0]| <= |s.t.slot[w].nexts|
    ensures Books(HelpersTaken(s, w))
  {
    var h := H.HelpersReceived(s.t.slot[w], s.helperNet[w][0]);
    ScoreSlot(s, w, h);
    PoppedBooks(s.(t := s.t.(slot := s.t.slot[w := h])), w);
  }
}

/** Every task of a semi-centralized run is delivered to the worker it was pushed for, once and in order. */
module SemiLedger {
  import opened Common
  import opened TerminationDetection
  import opened SemiProtocol
  import opened SemiInvariant
  import opened SemiTermination
  import H = Handoff

  /** The bundles of a parcel log addressed to rank q, in order. */
  function SentTo(parcels: seq<H.Parcel>, q: int): seq<Bundle> {
    if parcels == [] then []
    else
      var last := parcels[|parcels| - 1];
      SentTo(parcels[..|parcels| - 1], q) + if last.destination == q then [last.bundle] else []
  }

  /** Everything ever sent over a link. */
  function SentOn(s: State, p: nat, q: nat): seq<Bundle>
    requires p < |s.slot|
  {
    if p == 0 then (if q == 1 then s.seeds else []) else SentTo(s.slot[p].sent, q)
  }

  /** Per link, in order: what has been received plus what is on its way is what was sent. */
  ghost predicate Ledgers(s: State) {
    |s.slot| == s.n &&
    forall p: nat, q: nat | p < s.n && q < s.n ::
      Entries(s.received, p, q) + BundlesOn(s.net, p, q) == SentOn(s, p, q)
  }

  lemma PutPlain(net: Net, p: int, q: int, m: Message)
    requires !m.Task?
    ensures forall a, b :: BundlesOn(Put(net, p, q, m), a, b) == BundlesOn(net, a, b)
  {
    BundlesAppended(Link(net, p, q), m);
  }

  predicate SameLink(s: State, s': State, p: nat, q: nat)
    requires p < |s.slot| && p < |s'.slot|
  {
    && BundlesOn(s'.net, p, q) == BundlesOn(s.net, p, q)
    && Entries(s'.received, p, q) == Entries(s.received, p, q)
    && SentOn(s', p, q) == SentOn(s, p, q)
  }

  /** A step changes the books of at most one link. */
  lemma LedgersMove(s: State, s': State, p: nat, q: nat)
    requires Ledgers(s) && s'.n == s.n == |s'.slot| && p < s.n && q < s.n
    requires forall a: nat, b: nat | a < s.n && b < s.n && (a != p || b != q) :: SameLink(s, s', a, b)
    requires Entries(s.received, p, q) + BundlesOn(s.net, p, q) == SentOn(s, p, q)
             ==> Entries(s'.received, p, q) + BundlesOn(s'.net, p, q) == SentOn(s', p, q)
    ensures Ledgers(s')
  {
    forall a: nat, b: nat | a < s.n && b < s.n
      ensures Entries(s'.received, a, b) + BundlesOn(s'.net, a, b) == SentOn(s', a, b)
    {
      assert Entries(s.received, a, b) + BundlesOn(s.net, a, b) == SentOn(s, a, b);
      if a != p || b != q {
        assert SameLink(s, s', a, b);
      }
    }
  }

  /** Links and logs unchanged as far as tasks are concerned. */
  lemma LedgersSame(s: State, s': State)
    requires Ledgers(s) && s'.n == s.n == |s'.slot| && s.n >= 1 && s'.seeds == s.seeds && s'.received == s.received
    requires forall a, b :: BundlesOn(s'.net, a, b) == BundlesOn(s.net, a, b)
    requires forall p | 0 <= p < s.n :: s'.slot[p].sent == s.slot[p].sent
    ensures Ledgers(s')
  {
    LedgersMove(s, s', 0, 0);
  }

  lemma LedgerSent(s: State, w: nat, to: nat, b: Bundle, h: H.State)
    requires Ledgers(s) && Worker(s, w) && to < s.n && h.sent == s.slot[w].sent + [H.Parcel(to, b)]
    ensures Ledgers(TaskSent(s, w, to, b, h))
  {
    hide Put, BundlesOn, SentTo, Entries, SentOn;
    var s' := TaskSent(s, w, to, b, h);
    forall p: nat, q: nat | p < s.n && q < s.n
      ensures Entries(s'.received, p, q) + BundlesOn(s'.net, p, q) == SentOn(s', p, q)
    {
      assert Entries(s.received, p, q) + BundlesOn(s.net, p, q) == SentOn(s, p, q);
      LedgerSentAt(s, w, to, b, h, p, q);
    }
  }

  lemma LedgerSentAt(s: State, w: nat, to: nat, b: Bundle, h: H.State, p: nat, q: nat)
    requires Worker(s, w) && to < s.n && h.sent == s.slot[w].sent + [H.Parcel(to, b)] && p < s.n && q < s.n
    requires Entries(s.received, p, q) + BundlesOn(s.net, p, q) == SentOn(s, p, q)
    ensures var s' := TaskSent(s, w, to, b, h);
            Entries(s'.received, p, q) + BundlesOn(s'.net, p, q) == SentOn(s', p, q)
  {
    hide Put, BundlesOn, SentTo, Entries;
    PutTask(s.net, w, to, b, p, q);
    SentAppended(s.slot[w].sent, H.Parcel(to, b), q);
    var e, c, x := Entries(s.received, p, q), BundlesOn(s.net, p, q), if p == w && q == to then [b] else [];
    assert e + (c + x) == (e + c) + x;
    assert SentOn(TaskSent(s, w, to, b, h), p, q) == SentOn(s, p, q) + x;
  }

  lemma PutTask(net: Net, p: int, q: int, b: Bundle, x: int, y: int)
    ensures BundlesOn(Put(net, p, q, Task(b)), x, y) == BundlesOn(net, x, y) + if x == p && y == q then [b] else []
  {
    BundlesAppended(Link(net, p, q), Task(b));
  }

  lemma SentAppended(parcels: seq<H.Parcel>, last: H.Parcel, q: int)
    ensures SentTo(parcels + [last], q) == SentTo(parcels, q) + if last.destination == q then [last.bundle] else []
  {
    assert (parcels + [last])[..|parcels|] == parcels;
  }

  lemma LedgerSeed(s: State, b: Bundle)
    requires Ledgers(s) && |s.det| == s.n >= 2
    ensures Ledgers(SeedSent(s, b))
  {
    BundlesAppended(Link(s.net, 0, 1), Task(b));
    LedgersMove(s, SeedSent(s, b), 0, 1);
  }

  lemma AcceptedBundles(net: Net, src: nat, w: nat, acked: bool)
    requires Link(net, src, w) != []
    ensures forall a, b :: BundlesOn(AcceptedNet(net, src, w, acked), a, b) == BundlesOn(Drop(net, src, w), a, b)
  {
    var net1 := Drop(net, src, w);
    PutPlain(net1, w, src, Ack);
    PutPlain(if acked then Put(net1, w, src, Ack) else net1, w, 0, Running);
  }

  /** The task in front leaves its link; all other links stay. */
  lemma DropEntry(net: Net, p: nat, q: nat)
    requires Link(net, p, q) != [] && Link(net, p, q)[0].Task?
    ensures BundlesOn(net, p, q) == [Link(net, p, q)[0].bundle] + BundlesOn(Drop(net, p, q), p, q)
    ensures forall a, b | a != p || b != q :: BundlesOn(Drop(net, p, q), a, b) == BundlesOn(net, a, b)
  {
  }

  lemma LedgerAccepted(s: State, src: nat, w: nat, thread: nat)
    requires Ledgers(s) && src < s.n && Worker(s, w) && H.Idle(s.slot[w])
    requires First(s, src, w).Some? && First(s, src, w).value.Task?
    ensures Ledgers(TaskAccepted(s, src, w, thread))
  {
    var s' := TaskAccepted(s, src, w, thread);
    var acked := s.det[w].isRoot || s.det[w].parent != NO_PARENT;
    assert s'.net == AcceptedNet(s.net, src, w, acked);
    AcceptedBundles(s.net, src, w, acked);
    hide AcceptedNet, BundlesOn, Ledgers;
    LedgersReceive(s, s', src, w);
  }

  /** The task in front of a link moves to the log of received tasks. */
  lemma LedgersReceive(s: State, s': State, p: nat, q: nat)
    requires Ledgers(s) && s'.n == s.n == |s'.slot| && p < s.n && q < s.n && s'.seeds == s.seeds
    requires Link(s.net, p, q) != [] && Link(s.net, p, q)[0].Task?
    requires s'.received == s.received[(p, q) := Entries(s.received, p, q) + [Link(s.net, p, q)[0].bundle]]
    requires forall a, b :: BundlesOn(s'.net, a, b) == BundlesOn(Drop(s.net, p, q), a, b)
    requires forall a | 0 <= a < s.n :: s'.slot[a].sent == s.slot[a].sent
    ensures Ledgers(s')
  {
    DropEntry(s.net, p, q);
    hide SentTo, Drop, BundlesOn, Entries, SentOn;
    forall a: nat, b: nat | a < s.n && b < s.n
      ensures Entries(s'.received, a, b) + BundlesOn(s'.net, a, b) == SentOn(s', a, b)
    {
      SentSame(s, s', a, b);
      Logged(s.received, p, q, a, b, Link(s.net, p, q)[0].bundle);
      Regroup(Entries(s.received, p, q), Link(s.net, p, q)[0].bundle, BundlesOn(Drop(s.net, p, q), p, q));
    }
  }

  lemma SentSame(s: State, s': State, p: nat, q: nat)
    requires p < |s.slot| && p < |s'.slot| && s'.seeds == s.seeds && s'.slot[p].sent == s.slot[p].sent
    ensures SentOn(s', p, q) == SentOn(s, p, q)
  {
  }

  lemma Logged(l: Ledger, p: nat, q: nat, a: nat, b: nat, bundle: Bundle)
    ensures Entries(l[(p, q) := Entries(l, p, q) + [bundle]], a, b)
            == if a == p && b == q then Entries(l, p, q) + [bundle] else Entries(l, a, b)
  {
  }

  lemma Regroup(a: seq<Bundle>, b: Bundle, c: seq<Bundle>)
    ensures a + ([b] + c) == (a + [b]) + c
  {
  }

  lemma ReleaseLedger(s: State, w: nat)
    requires Ledgers(s) && w < |s.det| && s.n >= 1
    ensures Ledgers(ReleaseParent(s, w))
  {
    var (d, ack) := s.det[w].Passive();
    if ack.Some? {
      PutPlain(s.net, w, ack.value, Ack);
    }
    LedgersSame(s, ReleaseParent(s, w));
  }

  lemma LedgerFinished(s: State, w: nat)
    requires Ledgers(s) && Worker(s, w)
    ensures Ledgers(TaskFinished(s, w))
  {
    var s1 := s.(phase := s.phase[w := Idle], net := Put(s.net, w, 0, Available));
    PutPlain(s.net, w, 0, Available);
    LedgersSame(s, s1);
    ReleaseLedger(s1, w);
  }

  lemma LedgerAck(s: State, src: nat, w: nat)
    requires Ledgers(s) && Worker(s, w) && First(s, src, w) == Some(Ack)
    ensures Ledgers(AckTaken(s, src, w))
  {
    var s1 := s.(det := s.det[w := s.det[w].AckReceived().0], net := Drop(s.net, src, w));
    LedgersSame(s, s1);
    ReleaseLedger(s1, w);
  }

  /** Receiving anything but a task, or sending anything but a task, leaves the books alone. */
  lemma LedgerDrop(s: State, s': State, p: nat, q: nat)
    requires Ledgers(s) && s.n >= 1 && Link(s.net, p, q) != [] && !Link(s.net, p, q)[0].Task?
    requires s'.net == Drop(s.net, p, q)
    requires s'.n == s.n && s'.slot == s.slot && s'.seeds == s.seeds && s'.received == s.received
    ensures Ledgers(s')
  {
    LedgersSame(s, s');
  }

  lemma LedgerPut(s: State, s': State, p: nat, q: nat, m: Message)
    requires Ledgers(s) && s.n >= 1 && !m.Task? && s'.net == Put(s.net, p, q, m)
    requires s'.n == s.n && s'.slot == s.slot && s'.seeds == s.seeds && s'.received == s.received
    ensures Ledgers(s')
  {
    PutPlain(s.net, p, q, m);
    LedgersSame(s, s');
  }

  /** Only a send adds to what a slot has sent. */
  lemma SlotSent(h: H.State, step: H.Action)
    requires H.Enabled(h, step) && H.Step(h, step).Next?
    ensures step.Send? ==> h.funnel.Sending?
    ensures H.Step(h, step).state.sent == h.sent + if step.Send? then [H.Parcel(h.destination, h.funnel.bundle)] else []
  {
  }

  lemma SendTarget(s: State, w: nat)
    requires Good(s) && Worker(s, w) && s.slot[w].funnel.Sending?
    ensures 0 <= s.slot[w].destination < s.n
  {
    H.SendsToHelper(s.slot[w]);
  }

  lemma LedgerLocal(s: State, w: nat, step: H.Action)
    requires Ledgers(s) && Good(s) && Enabled(s, Local(w, step))
    ensures Step(s, Local(w, step)).Next? && Ledgers(Step(s, Local(w, step)).state)
  {
    hide Good, Ledgers;
    LocalSafe(s, w, step);
    SlotSent(s.slot[w], step);
    var h := H.Step(s.slot[w], step).state;
    if step.Send? {
      SendTarget(s, w);
      hide H.Step;
      LedgerSent(s, w, s.slot[w].destination, s.slot[w].funnel.bundle, h);
    } else {
      LedgersSame(s, s.(slot := s.slot[w := h]));
    }
  }

  predicate PlainAction(a: Action) {
    a.SendSolution? || a.Notify? || a.ReceiveTermination? || a.CenterReport? || a.CenterAck? || a.Collect?
  }

  lemma LedgerPlain(s: State, a: Action)
    requires Ledgers(s) && s.n >= 1 && Enabled(s, a) && PlainAction(a) && Step(s, a).Next?
    ensures Ledgers(Step(s, a).state)
  {
    var s' := Step(s, a).state;
    match a
    case SendSolution(w, m) => LedgerPut(s, s', w, 0, m);
    case Notify(c, p) => LedgerPut(s, s', 0, s.center.next, Termination(c, p));
    case ReceiveTermination(w) => LedgerDrop(s, s', 0, w);
    case CenterReport(w) => LedgerDrop(s, s', w, 0);
    case CenterAck(w) => LedgerDrop(s, s', w, 0);
    case Collect => LedgerDrop(s, s', s.center.next, 0);
  }

  lemma LedgerStep(s: State, a: Action)
    requires Ledgers(s) && Good(s) && Enabled(s, a)
    ensures Step(s, a).Next? && Ledgers(Step(s, a).state)
  {
    hide Good, Ledgers;
    StepSafe(s, a);
    match a
    case Local(w, step) => LedgerLocal(s, w, step);
    case SendSeed(b) => LedgerSeed(s, b);
    case ReceiveTask(src, w, thread) => LedgerAccepted(s, src, w, thread);
    case FinishTask(w) => LedgerFinished(s, w);
    case WorkerAck(src, w) => LedgerAck(s, src, w);
    case _ => LedgerPlain(s, a);
  }

  lemma {:induction false} LedgerRun(s: State, actions: seq<Action>)
    requires Ledgers(s) && Good(s) && Run(s, actions).Some?
    ensures Run(s, actions).value.Next? && Ledgers(Run(s, actions).value.state)
    decreases |actions|
  {
    if actions != [] {
      StepSafe(s, actions[0]);
      LedgerStep(s, actions[0]);
      LedgerRun(Step(s, actions[0]).state, actions[1..]);
    }
  }

  lemma {:induction false} NoBundles(c: seq<Message>)
    requires forall m | m in c :: !m.Task?
    ensures BundlesIn(c) == []
  {
    if c != [] {
      NoBundles(c[1..]);
    }
  }

  lemma InitLedgers(n: nat)
    ensures Ledgers(Init(n))
  {
  }

  /**
   * Conservation: once the center has left its loop, what each worker q has received from worker p is
   * exactly what p's pool threads pushed for q, in push order, and rank 1 received the seed.
   */
  lemma EveryTaskArrivesOnce(n: nat, actions: seq<Action>)
    requires n >= 2 && Run(Init(n), actions).Some?
    ensures Run(Init(n), actions).value.Next?
    ensures var s := Run(Init(n), actions).value.state;
            |s.slot| == n && (!Live(s.center) ==>
              && Entries(s.received, 0, 1) == s.seeds
              && forall p: nat, q: nat | 1 <= p < n && q < n ::
                   Entries(s.received, p, q) == SentTo(s.slot[p].pushed, q))
  {
    hide Run, Ledgers, SentTo, Entries, Quiet;
    InitGood(n);
    InitLedgers(n);
    LedgerRun(Init(n), actions);
    TerminationIsSafe(n, actions);
    var s := Run(Init(n), actions).value.state;
    if !Live(s.center) {
      QuietLedgers(s);
    }
  }

  lemma QuietLedgers(s: State)
    requires Ledgers(s) && SlotsOk(s) && |s.det| == |s.phase| == s.n >= 2 && Quiet(s)
    ensures Entries(s.received, 0, 1) == s.seeds
    ensures forall p: nat, q: nat | 1 <= p < s.n && q < s.n :: Entries(s.received, p, q) == SentTo(s.slot[p].pushed, q)
  {
    forall p: nat, q: nat | p < s.n && q < s.n ensures Entries(s.received, p, q) == SentOn(s, p, q) {
      NoBundles(Link(s.net, p, q));
      assert Entries(s.received, p, q) + BundlesOn(s.net, p, q) == SentOn(s, p, q);
    }
    forall p: nat | 1 <= p < s.n ensures s.slot[p].sent == s.slot[p].pushed {
      H.StoppedIsIdle(s.slot[p]);
    }
  }
}

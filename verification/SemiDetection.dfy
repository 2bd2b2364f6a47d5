/**
 * The semi-centralized protocol detects termination: once work has stopped, acknowledgements flow back to the center.
 */
module SemiDetection {
  import opened Common
  import opened TerminationDetection
  import opened SemiProtocol
  import opened SemiInvariant
  import opened SemiTermination

  /** No task is running, queued or in flight, and the center still waits. */
  ghost predicate Resting(s: State) {
    && s.center == Serving && |s.phase| == s.n
    && (forall w | 1 <= w < s.n :: s.phase[w] == Idle)
    && (forall p, q, m | m in Link(s.net, p, q) :: !m.Task?)
  }

  /** The receipts the center and idle workers perform on their own. */
  predicate Delivery(a: Action) {
    a.WorkerAck? || a.CenterAck? || a.CenterReport?
  }

  /* ---------- progress ---------- */

  function Deepest(depth: seq<nat>): (m: nat)
    ensures forall d | d in depth :: d <= m
  {
    if depth == [] then 0
    else
      var rest := Deepest(depth[1..]);
      assert forall d | d in depth :: d == depth[0] || d in depth[1..];
      if depth[0] > rest then depth[0] else rest
  }

  /** Following unpaid debts away from the center ends at an acknowledgement in flight. */
  lemma {:induction false} AckInFlight(s: State, depth: seq<nat>, p: nat) returns (src: nat, dst: nat)
    requires Inv(s) && Resting(s) && Ranked(s, depth) && p < s.n && s.det[p].deficit != 0
    ensures src < s.n && dst < s.n && Ack in Link(s.net, src, dst)
    decreases Deepest(depth) - depth[p]
  {
    var f := (q: nat) => Debt(s, p, q);
    assert s.det[p].deficit == Owed(s, p) == Sum(s.n, f);
    SumNonNegative(s.n, f);
    var q := SumPositive(s.n, f);
    assert f(q) == Debt(s, p, q) > 0;
    CountsWitness(Link(s.net, p, q));
    CountsWitness(Link(s.net, q, p));
    if Ack in Link(s.net, q, p) {
      return q, p;
    }
    assert s.det[q].parent == p;
    assert depth[q] in depth;
    src, dst := AckInFlight(s, depth, q);
  }

  /** Without tasks in flight the seed has been taken, so the center is in its loop. */
  lemma SeedIsTaken(s: State)
    requires Resting(s) && Traffic(s)
    ensures SeedTaken(s)
  {
    var c := Link(s.net, 0, 1);
    assert c != [] ==> c[0] in c && Allowed(s, 0, 1, c[0]);
  }

  /** While the center waits, some receipt is enabled. */
  lemma SomethingArrives(s: State) returns (a: Action)
    requires Good(s) && Resting(s)
    ensures Delivery(a) && Enabled(s, a)
  {
    var depth :| Ranked(s, depth);
    SeedIsTaken(s);
    var src, dst := AckInFlight(s, depth, 0);
    var c := Link(s.net, src, dst);
    var m := c[0];
    assert m in c && Allowed(s, src, dst, m) && Allowed(s, src, dst, Ack);
    if dst != 0 {
      a := WorkerAck(src, dst);
    } else if m == Ack {
      a := CenterAck(src);
    } else {
      a := CenterReport(src);
    }
  }

  /* ---------- the measure ---------- */

  function Engagement(s: State, q: nat): nat {
    if q < |s.det| && s.det[q].parent != NO_PARENT then 1 else 0
  }

  ghost function Engaged(s: State): int {
    Sum(s.n, (q: nat) => Engagement(s, q))
  }

  ghost function InFlightFrom(n: nat, net: Net, p: nat): int {
    Sum(n, (q: nat) => |Link(net, p, q)|)
  }

  ghost function InFlight(n: nat, net: Net): int {
    Sum(n, (p: nat) => InFlightFrom(n, net, p))
  }

  /** 2 * engaged workers + messages in flight */
  ghost function Measure(s: State): int {
    2 * Engaged(s) + InFlight(s.n, s.net)
  }

  lemma InFlightChanges(n: nat, net: Net, net': Net, p: nat, q: nat)
    requires p < n && q < n
    requires forall a, b | a != p || b != q :: Link(net', a, b) == Link(net, a, b)
    ensures InFlight(n, net') == InFlight(n, net) + |Link(net', p, q)| - |Link(net, p, q)|
  {
    forall a: nat | a < n && a != p ensures InFlightFrom(n, net, a) == InFlightFrom(n, net', a) {
      SumSame(n, (b: nat) => |Link(net, a, b)|, (b: nat) => |Link(net', a, b)|);
    }
    SumOne(n, (b: nat) => |Link(net, p, b)|, (b: nat) => |Link(net', p, b)|, q);
    SumOne(n, (a: nat) => InFlightFrom(n, net, a), (a: nat) => InFlightFrom(n, net', a), p);
  }

  lemma MeasureNonNegative(s: State)
    ensures Measure(s) >= 0
  {
    SumNonNegative(s.n, (q: nat) => Engagement(s, q));
    forall p: nat | p < s.n ensures InFlightFrom(s.n, s.net, p) >= 0 {
      SumNonNegative(s.n, (q: nat) => |Link(s.net, p, q)|);
    }
    SumNonNegative(s.n, (p: nat) => InFlightFrom(s.n, s.net, p));
  }

  lemma EngagedSame(s: State, s': State)
    requires s.n == s'.n == |s.det| == |s'.det|
    requires forall q | 0 <= q < s.n :: s'.det[q].parent == s.det[q].parent
    ensures Engaged(s') == Engaged(s)
  {
    SumSame(s.n, (q: nat) => Engagement(s, q), (q: nat) => Engagement(s', q));
  }

  lemma DropShrinks(s: State, s': State, p: nat, q: nat)
    requires s.n == s'.n == |s.det| == |s'.det| && p < s.n && q < s.n && Link(s.net, p, q) != []
    requires s'.net == Drop(s.net, p, q)
    requires forall r | 0 <= r < s.n :: s'.det[r].parent == s.det[r].parent
    ensures Measure(s') == Measure(s) - 1
  {
    EngagedSame(s, s');
    InFlightChanges(s.n, s.net, s'.net, p, q);
  }

  lemma ReleaseMeasure(s: State, w: nat)
    requires |s.det| == s.n && 1 <= w < s.n && NO_PARENT <= s.det[w].parent < s.n
    ensures Measure(ReleaseParent(s, w)) <= Measure(s)
  {
    var s' := ReleaseParent(s, w);
    var p := s.det[w].parent;
    if s.det[w].deficit == 0 && p != NO_PARENT {
      InFlightChanges(s.n, s.net, s'.net, w, p);
      var f, g := (q: nat) => Engagement(s, q), (q: nat) => Engagement(s', q);
      SumOne(s.n, f, g, w);
      assert f(w) == 1 && g(w) == 0;
    }
  }

  /* ---------- every receipt brings the end closer ---------- */

  lemma RestingDrop(s: State, s': State, p: int, q: int)
    requires Resting(s) && Link(s.net, p, q) != [] && s'.net == Drop(s.net, p, q)
    requires s'.n == s.n && s'.phase == s.phase && s'.center == Serving
    ensures Resting(s')
  {
    forall a, b, m | m in Link(s'.net, a, b) ensures !m.Task? {
      assert m in Link(s.net, a, b);
    }
  }

  lemma WorkerAckCloser(s: State, src: nat, w: nat)
    requires Inv(s) && Resting(s) && src < s.n && 1 <= w < s.n && First(s, src, w) == Some(Ack)
    ensures Resting(AckTaken(s, src, w)) && Measure(AckTaken(s, src, w)) < Measure(s)
  {
    var s1 := s.(det := s.det[w := s.det[w].AckReceived().0], net := Drop(s.net, src, w));
    var s' := AckTaken(s, src, w);
    RestingDrop(s, s1, src, w);
    forall a, b, m | m in Link(s'.net, a, b) ensures !m.Task? {
      assert m in Link(s1.net, a, b) || m == Ack;
    }
    DropShrinks(s, s1, src, w);
    ReleaseMeasure(s1, w);
  }

  lemma CenterCloser(s: State, a: Action)
    requires Inv(s) && Resting(s) && Enabled(s, a) && (a.CenterAck? || a.CenterReport?) && Step(s, a).Next?
    ensures var s' := Step(s, a).state;
            Measure(s') < Measure(s) && (Resting(s') || s'.center == Notifying(1))
  {
    var s' := Step(s, a).state;
    DropShrinks(s, s', a.w, 0);
    if s'.center == Serving {
      RestingDrop(s, s', a.w, 0);
    }
  }

  lemma HelperListRests(s: State, a: Action)
    requires Inv(s) && Resting(s) && Enabled(s, a) && a.Local? && a.step.ReceiveHelpers? && Step(s, a).Next?
    ensures Resting(Step(s, a).state) && Measure(Step(s, a).state) == Measure(s)
  {
    EngagedSame(s, Step(s, a).state);
  }

  lemma RestingSteps(s: State, a: Action)
    requires Inv(s) && Resting(s) && Enabled(s, a)
    ensures Delivery(a) || (a.Local? && a.step.ReceiveHelpers?)
  {
    forall p, q | Link(s.net, p, q) != [] ensures !Link(s.net, p, q)[0].Termination? && !Link(s.net, p, q)[0].Task? {
      assert Link(s.net, p, q)[0] in Link(s.net, p, q) && Allowed(s, p, q, Link(s.net, p, q)[0]);
    }
  }

  /**
   * In a resting state every enabled step is a receipt, which strictly lowers the measure and leaves the
   * system resting or the center out of its loop, or a helper list reaching an idle worker, which changes neither.
   */
  lemma StepCloser(s: State, a: Action)
    requires Good(s) && Resting(s) && Enabled(s, a)
    ensures Step(s, a).Next?
    ensures var s' := Step(s, a).state;
            && Good(s') && (Resting(s') || s'.center == Notifying(1))
            && (if Delivery(a) then Measure(s') < Measure(s) else a.Local? && Resting(s') && Measure(s') == Measure(s))
  {
    hide Inv, SlotsOk, Measure;
    StepSafe(s, a);
    RestingSteps(s, a);
    if a.WorkerAck? {
      WorkerAckCloser(s, a.src, a.w);
    } else if a.Local? {
      HelperListRests(s, a);
    } else {
      CenterCloser(s, a);
    }
  }

  function Deliveries(actions: seq<Action>): nat {
    if actions == [] then 0 else Deliveries(actions[1..]) + if Delivery(actions[0]) then 1 else 0
  }

  /** A run throughout which the center serves. */
  ghost predicate KeepsServing(s: State, actions: seq<Action>)
    decreases |actions|
  {
    && s.center == Serving
    && (actions != [] ==>
         && Enabled(s, actions[0]) && Step(s, actions[0]).Next?
         && KeepsServing(Step(s, actions[0]).state, actions[1..]))
  }

  /** However the receipts are ordered, at most Measure(s) of them fit before the center stops. */
  lemma {:induction false} RestIsShort(s: State, actions: seq<Action>)
    requires Good(s) && Resting(s) && KeepsServing(s, actions)
    ensures Deliveries(actions) <= Measure(s)
    decreases |actions|
  {
    MeasureNonNegative(s);
    if actions != [] {
      StepCloser(s, actions[0]);
      RestIsShort(Step(s, actions[0]).state, actions[1..]);
    }
  }

  /** From every resting state the center reaches its termination notices by receipts alone. */
  lemma {:induction false} TerminationIsDetected(s: State) returns (actions: seq<Action>)
    requires Good(s) && Resting(s)
    ensures |actions| <= Measure(s)
    ensures forall a | a in actions :: Delivery(a)
    ensures Run(s, actions).Some? && Run(s, actions).value.Next?
    ensures Run(s, actions).value.state.center == Notifying(1)
    decreases Measure(s)
  {
    hide Good, Measure, Resting, Enabled, Step, Delivery;
    MeasureNonNegative(s);
    var a := SomethingArrives(s);
    StepCloser(s, a);
    var s' := Step(s, a).state;
    MeasureNonNegative(s');
    if s'.center == Notifying(1) {
      actions := [a];
      assert Run(s', []) == Some(Next(s'));
    } else {
      var rest := TerminationIsDetected(s');
      actions := [a] + rest;
      assert actions[1..] == rest;
    }
  }
}

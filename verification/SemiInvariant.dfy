/** The invariant of the semi-centralized protocol, and why a center deficit of zero means termination. */
module SemiInvariant {
  import opened Common
  import opened TerminationDetection
  import opened SemiProtocol
  import H = Handoff

  /* ---------- what travels on a link ---------- */

  function BundlesIn(c: seq<Message>): seq<Bundle> {
    if c == [] then [] else (if c[0].Task? then [c[0].bundle] else []) + BundlesIn(c[1..])
  }

  function AcksIn(c: seq<Message>): nat {
    if c == [] then 0 else (if c[0].Ack? then 1 else 0) + AcksIn(c[1..])
  }

  lemma {:induction false} BundlesAppended(c: seq<Message>, m: Message)
    ensures BundlesIn(c + [m]) == BundlesIn(c) + if m.Task? then [m.bundle] else []
  {
    if c == [] {
      assert (c + [m])[1..] == [];
    } else {
      var head, last := if c[0].Task? then [c[0].bundle] else [], if m.Task? then [m.bundle] else [];
      assert (c + [m])[1..] == c[1..] + [m];
      BundlesAppended(c[1..], m);
      assert BundlesIn(c + [m]) == head + BundlesIn(c[1..] + [m]);
      assert head + (BundlesIn(c[1..]) + last) == (head + BundlesIn(c[1..])) + last;
    }
  }

  lemma {:induction false} AcksAppended(c: seq<Message>, m: Message)
    ensures AcksIn(c + [m]) == AcksIn(c) + if m.Ack? then 1 else 0
  {
    if c == [] {
      assert (c + [m])[1..] == [];
    } else {
      assert (c + [m])[1..] == c[1..] + [m];
      AcksAppended(c[1..], m);
    }
  }

  lemma {:induction false} CountsWitness(c: seq<Message>)
    ensures BundlesIn(c) != [] ==> exists m :: m in c && m.Task?
    ensures AcksIn(c) > 0 <==> Ack in c
    ensures BundlesIn(c) == [] ==> forall m | m in c :: !m.Task?
  {
    if c != [] {
      CountsWitness(c[1..]);
      assert forall m :: m in c <==> m == c[0] || m in c[1..];
    }
  }

  function BundlesOn(net: Net, p: int, q: int): seq<Bundle> {
    BundlesIn(Link(net, p, q))
  }

  function TasksOn(net: Net, p: int, q: int): nat {
    |BundlesOn(net, p, q)|
  }

  function AcksOn(net: Net, p: int, q: int): nat {
    AcksIn(Link(net, p, q))
  }

  /** One if the message is of the counted kind and the link is the one used. */
  function Here(a: int, b: int, p: int, q: int, counted: bool): nat {
    if a == p && b == q && counted then 1 else 0
  }

  /** The effect of one send on the counts of every link. */
  lemma PutCounts(net: Net, p: int, q: int, m: Message)
    ensures forall a, b :: TasksOn(Put(net, p, q, m), a, b) == TasksOn(net, a, b) + Here(a, b, p, q, m.Task?)
    ensures forall a, b :: AcksOn(Put(net, p, q, m), a, b) == AcksOn(net, a, b) + Here(a, b, p, q, m.Ack?)
  {
    BundlesAppended(Link(net, p, q), m);
    AcksAppended(Link(net, p, q), m);
  }

  /** The effect of one receive on the counts of every link. */
  lemma DropCounts(net: Net, p: int, q: int)
    requires Link(net, p, q) != []
    ensures var m := Link(net, p, q)[0];
            && (forall a, b :: TasksOn(Drop(net, p, q), a, b) == TasksOn(net, a, b) - Here(a, b, p, q, m.Task?))
            && (forall a, b :: AcksOn(Drop(net, p, q), a, b) == AcksOn(net, a, b) - Here(a, b, p, q, m.Ack?))
  {
  }

  /* ---------- the invariant ---------- */

  /** What q still owes p: p's tasks on their way to q, q's acknowledgements on their way to p, and q's engagement. */
  function Debt(s: State, p: nat, q: nat): int {
    TasksOn(s.net, p, q) + AcksOn(s.net, q, p) + if q < |s.det| && s.det[q].parent == p then 1 else 0
  }

  ghost function Owed(s: State, p: nat): int {
    Sum(s.n, (q: nat) => Debt(s, p, q))
  }

  ghost predicate Shape(s: State) {
    && s.n >= 2 && |s.det| == |s.phase| == |s.slot| == s.n
    && (forall i | 0 <= i < s.n :: s.det[i].isRoot == (i == 0) && NO_PARENT <= s.det[i].parent < s.n)
    && s.det[0].parent == NO_PARENT
  }

  ghost predicate SlotsOk(s: State) {
    |s.slot| == s.n && forall w | 1 <= w < s.n :: s.slot[w].policy == H.ToHelper(s.n, w) && H.Inv(s.slot[w])
  }

  ghost predicate Accounts(s: State) {
    forall p: nat | p < |s.det| :: s.det[p].deficit == Owed(s, p)
  }

  /** Parents form a tree towards the center. */
  ghost predicate Ranked(s: State, depth: seq<nat>) {
    |depth| == |s.det| &&
    forall q | 0 <= q < |s.det| && 0 <= s.det[q].parent < |s.det| :: depth[q] > depth[s.det[q].parent]
  }

  ghost predicate Rooted(s: State) {
    exists depth :: Ranked(s, depth)
  }

  predicate Live(c: CenterPhase) {
    c == Starting || c == Serving
  }

  predicate Allowed(s: State, p: int, q: int, m: Message)
    requires |s.phase| == s.n
  {
    0 <= p < s.n && 0 <= q < s.n && p != q &&
    match m
    case Task(_) => q >= 1
    case Ack => p >= 1
    case Running => q == 0
    case Available => q == 0
    case Termination(_, _) => p == 0 && !Live(s.center)
    case HasResult(_, _) => p >= 1 && q == 0 && s.phase[p] == Done
    case NoResult => p >= 1 && q == 0 && s.phase[p] == Done
  }

  ghost predicate Traffic(s: State)
    requires |s.phase| == s.n
  {
    forall p, q, m | m in Link(s.net, p, q) :: Allowed(s, p, q, m)
  }

  ghost predicate EngagedOk(s: State)
    requires |s.det| == |s.phase| == |s.slot| == s.n
  {
    forall w | 1 <= w < s.n ::
      && (s.phase[w] == Working ==> s.det[w].parent != NO_PARENT)
      && (s.det[w].parent == NO_PARENT ==> s.det[w].deficit == 0)
      && (s.phase[w] != Working ==> H.Idle(s.slot[w]))
      && (s.phase[w] in {Leaving, Done} ==> !Live(s.center))
  }

  /** Idle workers other than the excepted one that are owed nothing have released their parent. */
  ghost predicate SettledExcept(s: State, x: int)
    requires |s.det| == |s.phase| == s.n
  {
    forall w | 1 <= w < s.n && w != x ::
      s.phase[w] != Working && s.det[w].deficit == 0 ==> s.det[w].parent == NO_PARENT
  }

  ghost predicate CenterOk(s: State)
    requires |s.det| >= 1
  {
    && (s.center == Serving <==> s.det[0].deficit != 0) && 0 <= s.det[0].deficit <= 1
    && (s.center.Notifying? ==> 1 <= s.center.next < s.n)
    && (s.center.Collecting? ==> 1 <= s.center.next < s.n)
  }

  ghost predicate Core(s: State) {
    Shape(s) && Accounts(s) && Rooted(s) && Traffic(s) && EngagedOk(s) && CenterOk(s)
  }

  ghost predicate Inv(s: State) {
    Core(s) && SettledExcept(s, 0)
  }

  /* ---------- accounting ---------- */

  /** If only q's debt to p changes, and p's deficit by as much, the accounts still balance. */
  lemma AccountsMove(s: State, s': State, p: nat, q: nat, delta: int)
    requires s.n == s'.n == |s.det| == |s'.det| && p < s.n && q < s.n && Accounts(s)
    requires forall a: nat, b: nat | a < s.n && b < s.n && (a != p || b != q) :: Debt(s', a, b) == Debt(s, a, b)
    requires Debt(s', p, q) == Debt(s, p, q) + delta
    requires forall a | 0 <= a < s.n :: s'.det[a].deficit == s.det[a].deficit + if a == p then delta else 0
    ensures Accounts(s')
  {
    forall a: nat | a < s.n ensures s'.det[a].deficit == Owed(s', a) {
      assert s.det[a].deficit == Owed(s, a);
      var f, g := (b: nat) => Debt(s, a, b), (b: nat) => Debt(s', a, b);
      if a == p {
        SumOne(s.n, f, g, q);
      } else {
        SumSame(s.n, f, g);
      }
    }
  }

  /** A deficit bounds every single debt. */
  lemma DebtBound(s: State, p: nat, q: nat)
    requires Shape(s) && Accounts(s) && p < s.n && q < s.n
    ensures 0 <= Debt(s, p, q) <= s.det[p].deficit
  {
    var f := (b: nat) => Debt(s, p, b);
    SumNonNegative(s.n, f);
    assert f(q) == Debt(s, p, q) && s.det[p].deficit == Owed(s, p);
  }

  /* ---------- traffic ---------- */

  /** What may travel in s may travel in s'. */
  predicate Admits(s: State, s': State) {
    && s.n == s'.n == |s.phase| == |s'.phase|
    && (Live(s'.center) ==> Live(s.center))
    && (forall w | 0 <= w < s.n && s.phase[w] == Done :: s'.phase[w] == Done)
  }

  lemma TrafficPut(s: State, s': State, p: int, q: int, m: Message)
    requires Admits(s, s') && Traffic(s) && s'.net == Put(s.net, p, q, m) && Allowed(s', p, q, m)
    ensures Traffic(s')
  {
    forall a, b, x | x in Link(s'.net, a, b) ensures Allowed(s', a, b, x) {
      assert x in Link(s.net, a, b) || (a == p && b == q && x == m);
    }
  }

  lemma TrafficDrop(s: State, s': State, p: int, q: int)
    requires Admits(s, s') && Traffic(s) && Link(s.net, p, q) != [] && s'.net == Drop(s.net, p, q)
    ensures Traffic(s')
  {
    forall a, b, x | x in Link(s'.net, a, b) ensures Allowed(s', a, b, x) {
      assert x in Link(s.net, a, b);
    }
  }

  /* ---------- steps ---------- */

  lemma SameRooted(s: State, s': State)
    requires Rooted(s) && |s'.det| == |s.det|
    requires forall q | 0 <= q < |s.det| :: s'.det[q].parent == s.det[q].parent
    ensures Rooted(s')
  {
    var depth :| Ranked(s, depth);
    assert Ranked(s', depth);
  }

  lemma SeedSentAccounts(s: State, b: Bundle)
    requires Shape(s) && Accounts(s)
    ensures Accounts(SeedSent(s, b))
  {
    hide TasksOn, AcksOn, Accounts, Put;
    PutCounts(s.net, 0, 1, Task(b));
    AccountsMove(s, SeedSent(s, b), 0, 1, 1);
  }

  lemma SeedSentInv(s: State, b: Bundle)
    requires Inv(s) && s.center == Starting
    ensures Inv(SeedSent(s, b))
  {
    hide Accounts, Traffic, Rooted, Put, H.Idle;
    SeedSentAccounts(s, b);
    TrafficPut(s, SeedSent(s, b), 0, 1, Task(b));
    SameRooted(s, SeedSent(s, b));
  }

  /* ---------- engagement ---------- */

  /** A worker without parent has no children, so it can be hung anywhere. */
  lemma EngageRooted(s: State, s': State, w: nat, src: nat)
    requires Shape(s) && Accounts(s) && Rooted(s)
    requires 1 <= w < s.n && src < s.n && src != w && s.det[w].parent == NO_PARENT && s.det[w].deficit == 0
    requires |s'.det| == |s.det| && s'.det[w].parent == src
    requires forall q | 0 <= q < s.n && q != w :: s'.det[q].parent == s.det[q].parent
    ensures Rooted(s')
  {
    var depth :| Ranked(s, depth);
    forall q | 0 <= q < s.n ensures s.det[q].parent != w {
      DebtBound(s, w, q);
    }
    assert Ranked(s', depth[w := depth[src] + 1]);
  }

  lemma ReleaseAccounts(s: State, w: nat)
    requires Shape(s) && Accounts(s) && 1 <= w < s.n
    ensures Accounts(ReleaseParent(s, w))
  {
    hide TasksOn, AcksOn, Accounts, Put;
    var p := s.det[w].parent;
    if s.det[w].deficit == 0 && p != NO_PARENT {
      PutCounts(s.net, w, p, Ack);
      AccountsMove(s, ReleaseParent(s, w), p, w, 0);
    }
  }

  lemma ReleaseTraffic(s: State, w: nat)
    requires Shape(s) && Rooted(s) && Traffic(s) && 1 <= w < s.n
    ensures Traffic(ReleaseParent(s, w)) && Rooted(ReleaseParent(s, w))
  {
    var p, depth :| p == s.det[w].parent && Ranked(s, depth);
    assert Ranked(ReleaseParent(s, w), depth);
    if s.det[w].deficit == 0 && p != NO_PARENT {
      TrafficPut(s, ReleaseParent(s, w), w, p, Ack);
    }
  }

  /** release_parent_if_passive settles the worker and keeps everything else. */
  lemma ReleaseParentInv(s: State, w: nat)
    requires Core(s) && SettledExcept(s, w) && 1 <= w < s.n && s.phase[w] != Working
    ensures Inv(ReleaseParent(s, w))
  {
    hide Accounts, Traffic, Rooted, Put, H.Idle;
    if s.det[w].Passive().1.Some? {
      ReleaseAccounts(s, w);
      ReleaseTraffic(s, w);
    }
  }

  /** The links after a task is taken, acknowledged at once or not, and RUNNING is reported. */
  function AcceptedNet(net: Net, src: nat, w: nat, acked: bool): Net
    requires Link(net, src, w) != []
  {
    Put(if acked then Put(Drop(net, src, w), w, src, Ack) else Drop(net, src, w), w, 0, Running)
  }

  lemma AcceptedCounts(net: Net, src: nat, w: nat, acked: bool)
    requires Link(net, src, w) != [] && Link(net, src, w)[0].Task?
    ensures forall a, b ::
      TasksOn(AcceptedNet(net, src, w, acked), a, b) == TasksOn(net, a, b) - Here(a, b, src, w, true)
    ensures forall a, b ::
      AcksOn(AcceptedNet(net, src, w, acked), a, b) == AcksOn(net, a, b) + Here(a, b, w, src, acked)
  {
    var net1 := Drop(net, src, w);
    var net2 := if acked then Put(net1, w, src, Ack) else net1;
    DropCounts(net, src, w);
    PutCounts(net1, w, src, Ack);
    PutCounts(net2, w, 0, Running);
  }

  lemma TaskAcceptedAccounts(s: State, src: nat, w: nat, thread: nat)
    requires Shape(s) && Accounts(s) && src < s.n && 1 <= w < s.n && src != w && H.Idle(s.slot[w])
    requires First(s, src, w).Some? && First(s, src, w).value.Task?
    ensures Accounts(TaskAccepted(s, src, w, thread))
  {
    hide TasksOn, AcksOn, Accounts, TaskAccepted, AcceptedNet, H.Idle;
    var acked := s.det[w].parent != NO_PARENT;
    AcceptedState(s, src, w, thread);
    AcceptedCounts(s.net, src, w, acked);
    AccountsMove(s, TaskAccepted(s, src, w, thread), src, w, 0);
  }

  /** What a worker that takes a task changes of the protocol's books. */
  lemma AcceptedState(s: State, src: nat, w: nat, thread: nat)
    requires Shape(s) && src < s.n && 1 <= w < s.n && H.Idle(s.slot[w])
    requires First(s, src, w).Some? && First(s, src, w).value.Task?
    ensures var s', acked := TaskAccepted(s, src, w, thread), s.det[w].parent != NO_PARENT;
            && s'.n == s.n && s'.net == AcceptedNet(s.net, src, w, acked)
            && s'.det == if acked then s.det else s.det[w := s.det[w].(parent := src)]
  {
    hide H.Idle, Put, Drop;
  }

  lemma TaskAcceptedTraffic(s: State, src: nat, w: nat, thread: nat)
    requires Shape(s) && Traffic(s) && src < s.n && 1 <= w < s.n && src != w
    requires s.phase[w] == Idle && H.Idle(s.slot[w])
    requires First(s, src, w).Some? && First(s, src, w).value.Task?
    ensures Traffic(TaskAccepted(s, src, w, thread))
  {
    var s1 := s.(net := Drop(s.net, src, w));
    TrafficDrop(s, s1, src, w);
    var s2 := if s.det[w].parent != NO_PARENT then s1.(net := Put(s1.net, w, src, Ack)) else s1;
    if s.det[w].parent != NO_PARENT {
      TrafficPut(s1, s2, w, src, Ack);
    }
    TrafficPut(s2, TaskAccepted(s, src, w, thread), w, 0, Running);
  }

  lemma TaskAcceptedRooted(s: State, src: nat, w: nat, thread: nat)
    requires Inv(s) && src < s.n && 1 <= w < s.n && s.phase[w] == Idle && src != w
    requires First(s, src, w).Some? && First(s, src, w).value.Task?
    ensures Rooted(TaskAccepted(s, src, w, thread))
  {
    var s' := TaskAccepted(s, src, w, thread);
    if s.det[w].parent == NO_PARENT {
      EngageRooted(s, s', w, src);
    } else {
      var depth :| Ranked(s, depth);
      assert Ranked(s', depth);
    }
  }

  lemma TaskAcceptedInv(s: State, src: nat, w: nat, thread: nat)
    requires Inv(s) && src < s.n && 1 <= w < s.n && s.phase[w] == Idle
    requires First(s, src, w).Some? && First(s, src, w).value.Task?
    ensures Inv(TaskAccepted(s, src, w, thread)) && TaskAccepted(s, src, w, thread).phase == s.phase[w := Working]
    ensures exists before :: Link(TaskAccepted(s, src, w, thread).net, w, 0) == before + [Running]
  {
    hide Accounts, Traffic, Rooted, EngagedOk, CenterOk, SettledExcept, TaskAccepted, H.Idle;
    TaskArrives(s, src, w);
    RunningLast(s, src, w, thread);
    TaskAcceptedRooted(s, src, w, thread);
    TaskAcceptedAccounts(s, src, w, thread);
    TaskAcceptedTraffic(s, src, w, thread);
    TaskAcceptedLocal(s, src, w, thread);
  }

  lemma RunningLast(s: State, src: nat, w: nat, thread: nat)
    requires Inv(s) && src < s.n && 1 <= w < s.n && H.Idle(s.slot[w])
    requires First(s, src, w).Some? && First(s, src, w).value.Task?
    ensures TaskAccepted(s, src, w, thread).phase == s.phase[w := Working]
    ensures exists before :: Link(TaskAccepted(s, src, w, thread).net, w, 0) == before + [Running]
  {
    hide Accounts, Traffic, Rooted, H.Idle;
    assert Core(s);
  }

  lemma TaskArrives(s: State, src: nat, w: nat)
    requires Core(s) && src < s.n && 1 <= w < s.n && s.phase[w] == Idle
    requires First(s, src, w).Some? && First(s, src, w).value.Task?
    ensures src != w && H.Idle(s.slot[w])
  {
    hide Accounts, Rooted, H.Idle;
    assert Allowed(s, src, w, Link(s.net, src, w)[0]);
  }

  lemma TaskAcceptedLocal(s: State, src: nat, w: nat, thread: nat)
    requires Shape(s) && EngagedOk(s) && CenterOk(s) && SettledExcept(s, 0)
    requires src < s.n && 1 <= w < s.n && s.phase[w] == Idle && H.Idle(s.slot[w])
    requires First(s, src, w).Some? && First(s, src, w).value.Task?
    ensures var s' := TaskAccepted(s, src, w, thread);
            Shape(s') && EngagedOk(s') && CenterOk(s') && SettledExcept(s', 0)
  {
    hide H.Idle, Put, Drop;
  }

  lemma TaskSentAccounts(s: State, w: nat, to: nat, b: Bundle, h: H.State)
    requires Shape(s) && Accounts(s) && 1 <= w < s.n && to < s.n
    ensures Accounts(TaskSent(s, w, to, b, h))
  {
    hide TasksOn, AcksOn, Accounts, Put;
    PutCounts(s.net, w, to, Task(b));
    AccountsMove(s, TaskSent(s, w, to, b, h), w, to, 1);
  }

  lemma TaskSentInv(s: State, w: nat, to: nat, b: Bundle, h: H.State)
    requires Inv(s) && 1 <= w < s.n && 1 <= to < s.n && to != w && s.phase[w] == Working
    ensures Inv(TaskSent(s, w, to, b, h))
  {
    var s' := TaskSent(s, w, to, b, h);
    hide Accounts, Traffic, Rooted, Put;
    TaskSentAccounts(s, w, to, b, h);
    TrafficPut(s, s', w, to, Task(b));
    SameRooted(s, s');
  }

  /** Steps that touch only slots keep the protocol invariant. */
  lemma SlotInv(s: State, w: nat, h: H.State)
    requires Inv(s) && 1 <= w < s.n && (s.phase[w] == Working || H.Idle(h))
    ensures Inv(s.(slot := s.slot[w := h]))
  {
    var s' := s.(slot := s.slot[w := h]);
    SameDebts(s, s');
    SameRooted(s, s');
  }

  lemma SameDebts(s: State, s': State)
    requires s.n == s'.n && s.det == s'.det && |s.det| == s.n && Accounts(s)
    requires forall a: nat, b: nat | a < s.n && b < s.n ::
      TasksOn(s'.net, a, b) == TasksOn(s.net, a, b) && AcksOn(s'.net, a, b) == AcksOn(s.net, a, b)
    ensures Accounts(s')
  {
    if s.n > 0 {
      AccountsMove(s, s', 0, 0, 0);
    }
  }

  lemma TaskFinishedInv(s: State, w: nat)
    requires Inv(s) && 1 <= w < s.n && s.phase[w] == Working && H.Idle(s.slot[w])
    ensures Inv(TaskFinished(s, w)) && TaskFinished(s, w).phase == s.phase[w := Idle]
    ensures Link(s.net, w, 0) + [Available] <= Link(TaskFinished(s, w).net, w, 0)
  {
    hide Accounts, Traffic, Rooted, H.Idle, TasksOn, AcksOn;
    var s' := s.(phase := s.phase[w := Idle], net := Put(s.net, w, 0, Available));
    PutCounts(s.net, w, 0, Available);
    SameDebts(s, s');
    TrafficPut(s, s', w, 0, Available);
    SameRooted(s, s');
    ReleaseParentInv(s', w);
  }

  /** An acknowledgement in flight is owed to its receiver. */
  lemma AckIsOwed(s: State, src: nat, w: nat)
    requires Shape(s) && Accounts(s) && src < s.n && w < s.n && First(s, src, w) == Some(Ack)
    ensures s.det[w].deficit > 0
  {
    assert Ack in Link(s.net, src, w);
    CountsWitness(Link(s.net, src, w));
    DebtBound(s, w, src);
  }

  lemma AckTakenAccounts(s: State, src: nat, w: nat)
    requires Shape(s) && Accounts(s) && src < s.n && w < s.n && First(s, src, w) == Some(Ack)
    ensures s.det[w].deficit > 0
    ensures Accounts(s.(det := s.det[w := s.det[w].AckReceived().0], net := Drop(s.net, src, w)))
  {
    AckIsOwed(s, src, w);
    DropCounts(s.net, src, w);
    hide TasksOn, AcksOn, Accounts;
    AccountsMove(s, s.(det := s.det[w := s.det[w].AckReceived().0], net := Drop(s.net, src, w)), w, src, -1);
  }

  lemma AckTakenInv(s: State, src: nat, w: nat)
    requires Inv(s) && src < s.n && 1 <= w < s.n && s.phase[w] == Idle && First(s, src, w) == Some(Ack)
    ensures s.det[w].deficit > 0 && Inv(AckTaken(s, src, w))
  {
    AckTakenAccounts(s, src, w);
    var s' := s.(det := s.det[w := s.det[w].AckReceived().0], net := Drop(s.net, src, w));
    TrafficDrop(s, s', src, w);
    SameRooted(s, s');
    ReleaseParentInv(s', w);
  }

  lemma CenterAckTakenInv(s: State, w: nat)
    requires Inv(s) && 1 <= w < s.n && s.center == Serving && First(s, w, 0) == Some(Ack)
    ensures s.det[0].deficit > 0 && Inv(CenterAckTaken(s, w))
  {
    AckTakenAccounts(s, w, 0);
    var s0, s' := s.(det := s.det[0 := s.det[0].AckReceived().0], net := Drop(s.net, w, 0)), CenterAckTaken(s, w);
    SameDebts(s0, s');
    TrafficDrop(s, s', w, 0);
    SameRooted(s, s');
  }

  /** Taking or sending a message that is neither a task nor an acknowledgement, with no detector involved. */
  lemma PlainDropInv(s: State, s': State, p: nat, q: nat)
    requires Inv(s) && p < s.n && q < s.n && Link(s.net, p, q) != []
    requires !Link(s.net, p, q)[0].Task? && !Link(s.net, p, q)[0].Ack?
    requires s'.net == Drop(s.net, p, q) && s'.n == s.n && s'.det == s.det && s'.slot == s.slot
    requires |s'.phase| == s.n && Admits(s, s') && CenterOk(s') && EngagedOk(s') && SettledExcept(s', 0)
    ensures Inv(s')
  {
    hide Accounts, Traffic, Rooted, CenterOk, EngagedOk, SettledExcept, Drop, TasksOn, AcksOn;
    DropCounts(s.net, p, q);
    SameDebts(s, s');
    TrafficDrop(s, s', p, q);
    SameRooted(s, s');
  }

  lemma PlainPutInv(s: State, s': State, p: nat, q: nat, m: Message)
    requires Inv(s) && p < s.n && q < s.n && !m.Task? && !m.Ack?
    requires s'.net == Put(s.net, p, q, m) && s'.n == s.n && s'.det == s.det && s'.slot == s.slot
    requires |s'.phase| == s.n && Admits(s, s') && CenterOk(s') && EngagedOk(s') && SettledExcept(s', 0)
    requires Allowed(s', p, q, m)
    ensures Inv(s')
  {
    hide Accounts, Traffic, Rooted, CenterOk, EngagedOk, SettledExcept, Put, TasksOn, AcksOn;
    PutCounts(s.net, p, q, m);
    SameDebts(s, s');
    TrafficPut(s, s', p, q, m);
    SameRooted(s, s');
  }

  /* ---------- why deficit zero at the center means termination ---------- */

  lemma {:induction false} NotEngaged(s: State, depth: seq<nat>, q: nat)
    requires Core(s) && s.det[0].deficit == 0 && Ranked(s, depth) && q < s.n
    ensures s.det[q].parent == NO_PARENT
    decreases depth[q]
  {
    var p := s.det[q].parent;
    if p != NO_PARENT {
      DebtBound(s, p, q);
      if p != 0 {
        NotEngaged(s, depth, p);
      }
    }
  }

  /** No task or acknowledgement is in flight, no worker works or holds a bundle, every detector is quiescent. */
  ghost predicate Quiet(s: State)
    requires |s.det| == |s.phase| == |s.slot| == s.n
  {
    && (forall r | 0 <= r < s.n :: s.det[r].Quiescent())
    && (forall w | 1 <= w < s.n :: s.phase[w] != Working && H.Idle(s.slot[w]))
    && (forall p, q, m | m in Link(s.net, p, q) :: !m.Task? && !m.Ack?)
  }

  /** Dijkstra-Scholten: when nobody owes the center anything, the whole computation is over. */
  lemma QuietWhenPaid(s: State)
    requires Core(s) && s.det[0].deficit == 0
    ensures Quiet(s)
  {
    var depth :| Ranked(s, depth);
    forall r: nat | r < s.n ensures s.det[r].Quiescent() {
      NotEngaged(s, depth, r);
    }
    forall p, q, m | m in Link(s.net, p, q) ensures !m.Task? && !m.Ack? {
      assert Allowed(s, p, q, m);
      CountsWitness(Link(s.net, p, q));
      DebtBound(s, p, q);
      DebtBound(s, q, p);
    }
  }

  /* ---------- the steps after termination ---------- */

  lemma TerminationTakenInv(s: State, w: nat)
    requires Inv(s) && 1 <= w < s.n && s.phase[w] == Idle
    requires First(s, 0, w).Some? && First(s, 0, w).value.Termination?
    ensures s.det[w].Quiescent() && H.Idle(s.slot[w])
    ensures Inv(s.(phase := s.phase[w := Leaving], net := Drop(s.net, 0, w)))
  {
    assert Allowed(s, 0, w, Link(s.net, 0, w)[0]);
    QuietWhenPaid(s);
    PlainDropInv(s, s.(phase := s.phase[w := Leaving], net := Drop(s.net, 0, w)), 0, w);
  }

  lemma SolutionSentInv(s: State, w: nat, m: Message)
    requires Inv(s) && 1 <= w < s.n && s.phase[w] == Leaving && (m.HasResult? || m.NoResult?)
    ensures Inv(s.(phase := s.phase[w := Done], net := Put(s.net, w, 0, m)))
  {
    PlainPutInv(s, s.(phase := s.phase[w := Done], net := Put(s.net, w, 0, m)), w, 0, m);
  }

  lemma CollectedInv(s: State)
    requires Inv(s) && s.center.Collecting? && Link(s.net, s.center.next, 0) != []
    ensures var m := Link(s.net, s.center.next, 0)[0];
            && (m.Running? || m.Available? || m.HasResult? || m.NoResult?)
            && Inv(Collected(s, m.HasResult? || m.NoResult?))
  {
    var r := s.center.next;
    var m := Link(s.net, r, 0)[0];
    assert m in Link(s.net, r, 0) && Allowed(s, r, 0, m);
    QuietWhenPaid(s);
    PlainDropInv(s, Collected(s, m.HasResult? || m.NoResult?), r, 0);
  }
}

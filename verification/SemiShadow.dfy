/**
 * A run that loses its best solution: with three ranks, scores of the kind I32 and a best score of -1, the packet
 * that rank 2 holds is never fetched, because rank 1 accepted nothing and an absent result counts as -1.
 */
module SemiShadow {
  import opened Common
  import opened SemiScores
  import opened SemiScoresInvariant
  import opened SemiRuns
  import opened SemiOutcome
  import opened SemiSolution
  import opened SemiCompletion
  import T = SemiProtocol
  import TT = SemiTermination
  import D = SemiDetection
  import H = Handoff
  import F = Forest

  /* ---------- what one slot can do on its own ---------- */

  /** Steps of the pool threads and the funnel that send nothing, receive nothing and do not return. */
  predicate Plain(a: H.Action) {
    H.PoolAction(a) || a.FirstPop? || a.LockToSend? || a.PopAgain? || a.LockToSync?
      || a.Refresh? || a.Pop? || a.AskDone? || a.PopLast?
  }

  /** The plain steps lead from h to h'. */
  ghost predicate Leads(h: H.State, steps: seq<H.Action>, h': H.State) {
    H.Run(h, steps) == Some(Next(h')) && forall a | a in steps :: Plain(a)
  }

  lemma {:induction false} HandoffThen(h: H.State, steps: seq<H.Action>, h': H.State, a: H.Action)
    requires H.Run(h, steps) == Some(Next(h')) && H.Enabled(h', a)
    ensures H.Run(h, steps + [a]) == Some(H.Step(h', a))
    decreases |steps|
  {
    hide H.Enabled, H.Step;
    if steps == [] {
      assert steps + [a] == [a];
      assert H.Step(h', a).Next? ==> H.Run(H.Step(h', a).state, []) == Some(H.Step(h', a));
    } else {
      assert (steps + [a])[0] == steps[0] && (steps + [a])[1..] == steps[1..] + [a];
      HandoffThen(H.Step(h, steps[0]).state, steps[1..], h', a);
    }
  }

  lemma Take(h0: H.State, steps: seq<H.Action>, h: H.State, a: H.Action) returns (steps': seq<H.Action>, h': H.State)
    requires Leads(h0, steps, h) && Plain(a) && H.Enabled(h, a) && H.Step(h, a).Next?
    ensures Leads(h0, steps', h') && H.Step(h, a) == Next(h')
  {
    HandoffThen(h0, steps, h, a);
    steps', h' := steps + [a], H.Step(h, a).state;
  }

  /** A task is at work, its only pool thread does not use the slot. */
  predicate AtWork(h: H.State, funnel: H.FunnelPc) {
    && h.policy.ToHelper? && h.pool.Keys == {0} && h.pool[0] == H.Outside && h.queue == []
    && h.funnel == funnel
    && (h.holder == if funnel.Sending? || funnel == H.Sent || funnel == H.InSync then H.ByFunnel else H.Free)
  }

  lemma NoSteps(h: H.State)
    ensures Leads(h, [], h)
  {
  }

  /** The funnel comes to the section in which it receives from the center. */
  lemma ToSync(h0: H.State, funnel: H.FunnelPc) returns (steps: seq<H.Action>, h: H.State)
    requires AtWork(h0, funnel) && (funnel == H.Entry || funnel == H.Sent) && (funnel == H.Entry ==> !h0.transmitting)
    ensures Leads(h0, steps, h) && AtWork(h, H.InSync) && !h.transmitting
    ensures h.policy == h0.policy && h.nexts == h0.nexts
  {
    hide Leads, H.Run;
    NoSteps(h0);
    steps, h := Take(h0, [], h0, if funnel == H.Entry then H.FirstPop else H.PopAgain);
    steps, h := Take(h0, steps, h, H.LockToSync);
  }

  /** It leaves that section with the first helper of its list. */
  lemma FromSync(h0: H.State) returns (steps: seq<H.Action>, h: H.State)
    requires AtWork(h0, H.InSync) && !h0.transmitting
    ensures Leads(h0, steps, h) && AtWork(h, H.WantPop) && !h.transmitting
    ensures h.policy == h0.policy && h.nexts == h0.nexts && (h0.nexts != [] ==> h.next == h0.nexts[0])
  {
    hide Leads, H.Run;
    NoSteps(h0);
    steps, h := Take(h0, [], h0, H.Refresh);
  }

  /** The thread pushes a bundle for helper 2. */
  lemma Push(h0: H.State, b: Bundle) returns (steps: seq<H.Action>, h: H.State)
    requires AtWork(h0, H.WantPop) && !h0.transmitting && h0.next == 2
    ensures Leads(h0, steps, h) && AtWork(h.(queue := []), H.WantPop) && h.queue == [b]
    ensures h.policy == h0.policy && h.destination == 2
  {
    hide Leads, H.Run, H.ShiftedLeft;
    NoSteps(h0);
    steps, h := Take(h0, [], h0, H.TryOpen(0));
    steps, h := Take(h0, steps, h, H.Mark(0, b));
    steps, h := Take(h0, steps, h, H.Enqueue(0));
    steps, h := Take(h0, steps, h, H.Release(0));
  }

  /** And the funnel is about to send it. */
  lemma PushOut(h0: H.State, b: Bundle) returns (steps: seq<H.Action>, h: H.State)
    requires AtWork(h0, H.WantPop) && !h0.transmitting && h0.next == 2
    ensures Leads(h0, steps, h) && AtWork(h, H.Sending(b)) && h.policy == h0.policy && h.destination == 2
  {
    hide Leads, H.Run, H.ShiftedLeft;
    steps, h := Push(h0, b);
    steps, h := Take(h0, steps, h, H.Pop);
    steps, h := Take(h0, steps, h, H.LockToSend);
  }

  /** The thread ends and the funnel leaves its loop. */
  lemma WindDown(h0: H.State) returns (steps: seq<H.Action>, h: H.State)
    requires AtWork(h0, H.WantPop)
    ensures Leads(h0, steps, h) && h.funnel == H.Closing && h.queue == [] && h.policy == h0.policy
  {
    hide Leads, H.Run;
    NoSteps(h0);
    steps, h := Take(h0, [], h0, H.Finish(0));
    steps, h := Take(h0, steps, h, H.Pop);
    steps, h := Take(h0, steps, h, H.AskDone);
    steps, h := Take(h0, steps, h, H.PopLast);
  }

  /* ---------- the same steps in the whole system ---------- */

  function WithSlot(s: State, w: nat, h: H.State): State
    requires w < |s.t.slot|
  {
    s.(t := s.t.(slot := s.t.slot[w := h]))
  }

  function LocalActions(w: nat, steps: seq<H.Action>): seq<Action> {
    if steps == [] then [] else [Protocol(T.Local(w, steps[0]))] + LocalActions(w, steps[1..])
  }

  /** The main thread of w is in task_funneling and not blocked in a proposal. */
  predicate Funneling(s: State, w: nat) {
    && Sized(s) && 1 <= w < s.t.n && s.t.phase[w] == T.Working && s.books[w].proposing == None
    && s.t.slot[w].funnel != H.Stopped
  }

  lemma PlainStep(s: State, w: nat, a: H.Action)
    requires Funneling(s, w) && Plain(a) && H.Enabled(s.t.slot[w], a) && H.Step(s.t.slot[w], a).Next?
    ensures Enabled(s, Protocol(T.Local(w, a)))
    ensures Step(s, Protocol(T.Local(w, a))) == Next(WithSlot(s, w, H.Step(s.t.slot[w], a).state))
    ensures Funneling(WithSlot(s, w, H.Step(s.t.slot[w], a).state), w)
  {
    H.FunnelMoves(s.t.slot[w], a);
    hide H.Enabled, H.Step;
  }

  lemma {:induction false} LocalRun(s: State, w: nat, steps: seq<H.Action>, h: H.State)
    requires Funneling(s, w) && Leads(s.t.slot[w], steps, h)
    ensures Run(s, LocalActions(w, steps)) == Some(Next(WithSlot(s, w, h)))
    decreases |steps|
  {
    hide Plain, Enabled, Step, H.Enabled, H.Step;
    if steps == [] {
      assert WithSlot(s, w, h) == s;
    } else {
      PlainStep(s, w, steps[0]);
      var s1 := WithSlot(s, w, H.Step(s.t.slot[w], steps[0]).state);
      LocalRun(s1, w, steps[1..], h);
      assert WithSlot(s1, w, h) == WithSlot(s, w, h);
      assert LocalActions(w, steps)[1..] == LocalActions(w, steps[1..]);
    }
  }

  /** A run from s0 to s. */
  ghost predicate Came(s0: State, actions: seq<Action>, s: State) {
    All(s) && Run(s0, actions) == Some(Next(s))
  }

  lemma RunAll(s: State, actions: seq<Action>, more: seq<Action>, s1: State, s2: State)
    requires Came(s, actions, s1) && Run(s1, more) == Some(Next(s2))
    ensures Came(s, actions + more, s2)
  {
    hide All, Enabled, Step, Run;
    RunSafe(s1, more);
    RunJoined(s, actions, more);
  }

  lemma Do(s0: State, actions: seq<Action>, s: State, a: Action) returns (actions': seq<Action>, s': State)
    requires Came(s0, actions, s) && Enabled(s, a)
    ensures Came(s0, actions', s') && Step(s, a) == Next(s')
  {
    hide All, Enabled, Step;
    StepSafe(s, a);
    s' := Step(s, a).state;
    assert Run(s', []) == Some(Next(s'));
    RunAll(s0, actions, [a], s, s');
    actions' := actions + [a];
  }

  lemma DoPlain(s0: State, actions: seq<Action>, s: State, w: nat, steps: seq<H.Action>, h: H.State)
    returns (actions': seq<Action>)
    requires Came(s0, actions, s) && Funneling(s, w) && Leads(s.t.slot[w], steps, h)
    ensures Came(s0, actions', WithSlot(s, w, h))
  {
    hide All, Enabled, Step, Run, Leads;
    LocalRun(s, w, steps, h);
    RunAll(s0, actions, LocalActions(w, steps), s, WithSlot(s, w, h));
    actions' := actions + LocalActions(w, steps);
  }

  /** update_score has nothing to adopt or propose. */
  lemma UpdateIdle(s: State, w: nat)
    requires Funneling(s, w) && s.t.slot[w].funnel == H.InSync
    requires s.books[w].local == s.books[w].global && !s.books[w].synced
    ensures Enabled(s, UpdateScore(w)) && Step(s, UpdateScore(w)) == Next(s)
  {
    assert s.books[w := s.books[w].(synced := false)] == s.books;
  }

  lemma FunnelIs(h: H.State, funnel: H.FunnelPc)
    requires AtWork(h, funnel)
    ensures h.funnel == funnel
  {
  }

  /** One pass of the funnel through the section that receives from the center and calls update_score. */
  lemma SyncRound(s0: State, actions0: seq<Action>, s: State, w: nat, funnel: H.FunnelPc)
    returns (actions: seq<Action>, h: H.State)
    requires Came(s0, actions0, s) && Funneling(s, w) && s.books[w].local == s.books[w].global && !s.books[w].synced
    requires AtWork(s.t.slot[w], funnel) && (funnel == H.Entry || funnel == H.Sent)
    requires funnel == H.Entry ==> !s.t.slot[w].transmitting
    ensures Came(s0, actions, WithSlot(s, w, h)) && AtWork(h, H.WantPop) && !h.transmitting
    ensures h.policy == s.t.slot[w].policy && h.nexts == s.t.slot[w].nexts && (h.nexts != [] ==> h.next == h.nexts[0])
  {
    hide All, Run, Enabled, Step, Leads, AtWork;
    var steps, h1 := ToSync(s.t.slot[w], funnel);
    actions := DoPlain(s0, actions0, s, w, steps, h1);
    var s1 := WithSlot(s, w, h1);
    FunnelIs(h1, H.InSync);
    UpdateIdle(s1, w);
    var same: State;
    actions, same := Do(s0, actions, s1, UpdateScore(w));
    steps, h := FromSync(h1);
    actions := DoPlain(s0, actions, s1, w, steps, h);
    assert WithSlot(s1, w, h) == WithSlot(s, w, h);
  }

  /* ---------- the run ---------- */

  /** Tasks travel at most from p to q. */
  ghost predicate TasksOnly(net: T.Net, p: int, q: int) {
    forall a, b, m | m in T.Link(net, a, b) && m.Task? :: a == p && b == q
  }

  ghost predicate NoTasks(net: T.Net) {
    forall a, b, m | m in T.Link(net, a, b) :: !m.Task?
  }

  lemma PutMembers(net: T.Net, p: int, q: int, m: T.Message, a: int, b: int)
    ensures forall x ::
      x in T.Link(T.Put(net, p, q, m), a, b) <==> x in T.Link(net, a, b) || (a == p && b == q && x == m)
  {
  }

  lemma TaskPut(net: T.Net, p: int, q: int, m: T.Message)
    requires NoTasks(net)
    ensures if m.Task? then TasksOnly(T.Put(net, p, q, m), p, q) else NoTasks(T.Put(net, p, q, m))
  {
    hide T.Put;
    forall a, b, x | x in T.Link(T.Put(net, p, q, m), a, b) ensures x.Task? ==> m.Task? && a == p && b == q {
      PutMembers(net, p, q, m, a, b);
    }
  }

  lemma OtherPut(net: T.Net, p: int, q: int, a: int, b: int, m: T.Message)
    requires TasksOnly(net, p, q) && !m.Task? && (a != p || b != q)
    ensures TasksOnly(T.Put(net, a, b, m), p, q) && T.Link(T.Put(net, a, b, m), p, q) == T.Link(net, p, q)
  {
    forall c, d, x | x in T.Link(T.Put(net, a, b, m), c, d) && x.Task? ensures c == p && d == q {
      PutMembers(net, a, b, m, c, d);
    }
  }

  lemma TaskDropped(net: T.Net, p: int, q: int)
    requires TasksOnly(net, p, q) && |T.Link(net, p, q)| == 1
    ensures NoTasks(T.Drop(net, p, q))
  {
    forall a, b, m | m in T.Link(T.Drop(net, p, q), a, b) ensures !m.Task? {
      assert m in T.Link(net, a, b) && (a != p || b != q);
    }
  }

  /** The center still serves with its first score, and these are the phases of ranks 1 and 2. */
  predicate Stage(s: State, one: T.Phase, two: T.Phase) {
    && Sized(s) && s.t.n == 3 && s.t.center == T.Serving && s.goal == Maximise && s.kind == I32 && s.best == -10
    && s.t.phase[1] == one && s.t.phase[2] == two
  }

  /** Nothing was accepted and no score was received. */
  predicate Untouched(b: Book) {
    b.local == -10 && b.stored == Nothing && b.global == -10 && b.proposing == None && !b.synced
  }

  /** Rank 2 still waits for its first task. */
  predicate Waits(s: State)
    requires Sized(s) && s.t.n == 3
  {
    Untouched(s.books[2]) && s.t.slot[2] == H.Fresh(H.ToHelper(3, 2))
  }

  lemma FirstChild()
    ensures F.DefaultTree(3).helpers[1] == [2]
  {
    assert F.Doubling(1, 1, 3) == [2] + F.Doubling(1, 2, 3);
  }

  /** The first state, as far as it matters. */
  lemma AtFirst(s: State)
    requires s == Init(3, Maximise, I32, -10)
    ensures All(s) && Came(s, [], s) && Sized(s) && s.t.n == 3 && s.t == T.Init(3)
    ensures s.goal == Maximise && s.kind == I32 && s.best == -10 && s.accepted == []
    ensures Untouched(s.books[1]) && Untouched(s.books[2]) && s.helperNet[1] == [[2]] && s.helperNet[2] == []
  {
    hide All;
    InitAll(3, Maximise, I32, -10);
    FirstChild();
    var kids := F.DefaultTree(3).helpers[1];
    assert seq(|kids|, i requires 0 <= i < |kids| => kids[i] as int) == [2];
  }

  /** Rank 1 hears of its helper. */
  lemma HelperHeard(s: State)
    requires Sized(s) && s.t == T.Init(3) && s.helperNet[1] == [[2]] && s.books[1].proposing == None
    ensures Enabled(s, ReceiveHelpers(1)) && Step(s, ReceiveHelpers(1)).Next?
    ensures var s' := Step(s, ReceiveHelpers(1)).state;
            && s' == s.(t := s'.t, books := s'.books, helperNet := s.helperNet[1 := []]) && Sized(s')
            && s'.books[1] == s.books[1].(helpersIn := s'.books[1].helpersIn) && s'.books[2] == s.books[2]
            && s'.t == s.t.(slot := s.t.slot[1 := s.t.slot[1].(nexts := [2, -1, -1])])
  {
    assert [2] + s.t.slot[1].nexts[1..] == [2, -1, -1] && s.helperNet[1][1..] == [];
  }

  /** The center sends the seed. */
  lemma Opening() returns (actions: seq<Action>, s: State)
    ensures Came(Init(3, Maximise, I32, -10), actions, s) && Stage(s, T.Idle, T.Idle) && s.accepted == []
    ensures Untouched(s.books[1]) && Waits(s) && s.t.det[1] == T.Init(3).det[1]
    ensures s.t.slot[1] == H.Fresh(H.ToHelper(3, 1)).(nexts := [2, -1, -1])
    ensures TasksOnly(s.t.net, 0, 1) && |T.Link(s.t.net, 0, 1)| == 1 && T.Link(s.t.net, 0, 1)[0].Task?
    ensures T.Link(s.t.net, 1, 2) == []
  {
    hide All, Run, Init;
    var s0 := Init(3, Maximise, I32, -10);
    AtFirst(s0);
    HelperHeard(s0);
    actions, s := Do(s0, [], s0, ReceiveHelpers(1));
    var seed := Bundle([], 0);
    NoTasksAtFirst();
    TaskPut(map[], 0, 1, T.Task(seed));
    SeedSends(s, seed);
    actions, s := Do(s0, actions, s, Protocol(T.SendSeed(seed)));
  }

  lemma SeedSends(s: State, seed: Bundle)
    requires Sized(s) && s.t.center == T.Starting && ListsTaken(s, s.t.n)
    ensures Enabled(s, Protocol(T.SendSeed(seed)))
    ensures Step(s, Protocol(T.SendSeed(seed))) == Next(s.(t := T.SeedSent(s.t, seed)))
  {
  }

  lemma NoTasksAtFirst()
    ensures NoTasks(map[])
  {
  }

  /** An idle worker takes its first task. */
  lemma TaskStarts(s: State, src: nat, w: nat)
    requires Sized(s) && src < s.t.n && 1 <= w < s.t.n && s.t.phase[w] == T.Idle
    requires H.Idle(s.t.slot[w]) && s.t.slot[w].holder == H.Free
    requires s.books[w].proposing == None && s.t.slot[w].policy.ToHelper?
    requires TasksOnly(s.t.net, src, w) && |T.Link(s.t.net, src, w)| == 1 && T.Link(s.t.net, src, w)[0].Task?
    ensures Enabled(s, Protocol(T.ReceiveTask(src, w, 0)))
    ensures Step(s, Protocol(T.ReceiveTask(src, w, 0))) ==
            Next(s.(t := T.TaskAccepted(s.t, src, w, 0), books := s.books[w := s.books[w].(synced := false)]))
    ensures var t := T.TaskAccepted(s.t, src, w, 0);
            && t == s.t.(det := t.det, phase := s.t.phase[w := T.Working],
               slot := s.t.slot[w := H.Started(s.t.slot[w], 0)],
                         net := t.net, received := t.received)
            && t.det == s.t.det[w := s.t.det[w].TaskReceived(src).0]
            && NoTasks(t.net) && AtWork(t.slot[w], H.Entry) && !t.slot[w].transmitting
            && forall x | x != 0 && x != src :: T.Link(t.net, w, x) == T.Link(s.t.net, w, x)
  {
    hide H.Run;
    TaskDropped(s.t.net, src, w);
    var net := T.Drop(s.t.net, src, w);
    var ack := s.t.det[w].TaskReceived(src).1;
    if ack.Some? {
      TaskPut(net, w, ack.value, T.Ack);
      net := T.Put(net, w, ack.value, T.Ack);
    }
    TaskPut(net, w, 0, T.Running);
  }

  /** The funnel sends what it holds. */
  lemma BundleSent(s: State, w: nat, b: Bundle)
    requires Funneling(s, w) && AtWork(s.t.slot[w], H.Sending(b)) && s.t.slot[w].policy == H.ToHelper(s.t.n, w)
    requires 1 <= s.t.slot[w].destination < s.t.n && s.t.slot[w].destination != w
    ensures Enabled(s, Protocol(T.Local(w, H.Send)))
    ensures Step(s, Protocol(T.Local(w, H.Send))).Next?
    ensures var s', h := Step(s, Protocol(T.Local(w, H.Send))).state, s.t.slot[w];
            && s' == s.(t := T.TaskSent(s.t, w, h.destination, b, s'.t.slot[w]))
            && AtWork(s'.t.slot[w], H.Sent) && Funneling(s', w)
  {
  }

  /** Rank 1 starts with the seed. */
  lemma RankOneStarts() returns (actions: seq<Action>, s: State)
    ensures Came(Init(3, Maximise, I32, -10), actions, s) && Stage(s, T.Working, T.Idle) && s.accepted == []
    ensures Untouched(s.books[1]) && Waits(s) && s.t.det[1].parent == 0
    ensures Funneling(s, 1) && AtWork(s.t.slot[1], H.Entry) && !s.t.slot[1].transmitting
    ensures s.t.slot[1].policy == H.ToHelper(3, 1) && s.t.slot[1].nexts == [2, -1, -1]
    ensures NoTasks(s.t.net) && T.Link(s.t.net, 1, 2) == []
  {
    hide All, Run, Init, Enabled, Step, AtWork, TasksOnly, NoTasks, T.TaskAccepted;
    actions, s := Opening();
    TaskStarts(s, 0, 1);
    actions, s := Do(Init(3, Maximise, I32, -10), actions, s, Protocol(T.ReceiveTask(0, 1, 0)));
    FunnelIs(s.t.slot[1], H.Entry);
  }

  /** It learns its helper. */
  lemma RankOneReady() returns (actions: seq<Action>, s: State)
    ensures Came(Init(3, Maximise, I32, -10), actions, s) && Stage(s, T.Working, T.Idle) && s.accepted == []
    ensures Untouched(s.books[1]) && Waits(s) && s.t.det[1].parent == 0 && Funneling(s, 1)
    ensures AtWork(s.t.slot[1], H.WantPop) && !s.t.slot[1].transmitting && s.t.slot[1].next == 2
    ensures s.t.slot[1].policy == H.ToHelper(3, 1) && NoTasks(s.t.net) && T.Link(s.t.net, 1, 2) == []
  {
    hide All, Run, Init, Enabled, Step, Leads, AtWork, NoTasks;
    var h;
    actions, s := RankOneStarts();
    actions, h := SyncRound(Init(3, Maximise, I32, -10), actions, s, 1, H.Entry);
    s := WithSlot(s, 1, h);
    FunnelIs(h, H.WantPop);
  }

  /** It sends a task to rank 2. */
  lemma RankOneSends() returns (actions: seq<Action>, s: State)
    ensures Came(Init(3, Maximise, I32, -10), actions, s) && Stage(s, T.Working, T.Idle) && s.accepted == []
    ensures Untouched(s.books[1]) && Waits(s) && s.t.det[1].parent == 0
    ensures Funneling(s, 1) && AtWork(s.t.slot[1], H.Sent)
    ensures TasksOnly(s.t.net, 1, 2) && |T.Link(s.t.net, 1, 2)| == 1 && T.Link(s.t.net, 1, 2)[0].Task?
  {
    hide All, Run, Init, Enabled, Step, Leads, AtWork, TasksOnly, NoTasks;
    var s0, b := Init(3, Maximise, I32, -10), Bundle([], 0);
    actions, s := RankOneReady();
    var steps, h := PushOut(s.t.slot[1], b);
    actions := DoPlain(s0, actions, s, 1, steps, h);
    s := WithSlot(s, 1, h);
    FunnelIs(h, H.Sending(b));
    BundleSent(s, 1, b);
    TaskLink(s.t.net, 1, 2, T.Task(b));
    actions, s := Do(s0, actions, s, Protocol(T.Local(1, H.Send)));
  }

  /** The first task on an idle link. */
  lemma TaskLink(net: T.Net, p: int, q: int, m: T.Message)
    requires NoTasks(net) && T.Link(net, p, q) == [] && m.Task?
    ensures TasksOnly(T.Put(net, p, q, m), p, q) && T.Link(T.Put(net, p, q, m), p, q) == [m]
  {
    TaskPut(net, p, q, m);
  }

  /** The end of task_funneling: the last update_score proposes what is better than the global score. */
  lemma LastUpdate(s: State, w: nat)
    requires Funneling(s, w) && s.t.slot[w].funnel == H.Closing && !s.books[w].synced
    requires !Better(s.goal, s.books[w].global, s.books[w].local)
    ensures Enabled(s, UpdateScore(w))
    ensures var b := s.books[w];
            var v := if Better(s.goal, b.local, b.global) then Some(b.local) else None;
            Step(s, UpdateScore(w)) == Next(s.(books := s.books[w := b.(proposing := v, synced := true)]))
  {
  }

  /** The funnel returns and the task ends. */
  lemma Returns(s: State, w: nat)
    requires Funneling(s, w) && s.t.slot[w].funnel == H.Closing && s.t.slot[w].queue == [] && s.books[w].synced
    ensures Enabled(s, Protocol(T.Local(w, H.Return)))
    ensures Step(s, Protocol(T.Local(w, H.Return))) == Next(WithSlot(s, w, s.t.slot[w].(funnel := H.Stopped)))
  {
  }

  lemma Finishes(s: State, w: nat)
    requires Sized(s) && 1 <= w < s.t.n && s.t.phase[w] == T.Working && s.books[w].proposing == None
    requires s.t.slot[w].funnel == H.Stopped
    ensures Enabled(s, Protocol(T.FinishTask(w)))
    ensures Step(s, Protocol(T.FinishTask(w))) == Next(s.(t := T.TaskFinished(s.t, w)))
    ensures var t := T.TaskFinished(s.t, w);
            && t == s.t.(det := t.det, phase := s.t.phase[w := T.Idle], net := t.net) && |t.det| == |s.t.det|
  {
  }

  lemma FinishedNet(t: T.State, w: nat, p: int, q: int)
    requires T.Worker(t, w) && TasksOnly(t.net, p, q) && (w != p || (0 != q && t.det[w].parent != q))
    ensures TasksOnly(T.TaskFinished(t, w).net, p, q) && T.Link(T.TaskFinished(t, w).net, p, q) == T.Link(t.net, p, q)
  {
    hide T.Put, TasksOnly;
    OtherPut(t.net, p, q, w, 0, T.Available);
    OtherPut(T.Put(t.net, w, 0, T.Available), p, q, w, t.det[w].parent, T.Ack);
  }

  /** From the last plain step of w to the end of its task; the center takes the proposal if there is one. */
  lemma Close(s0: State, actions0: seq<Action>, s1: State, w: nat) returns (actions: seq<Action>, s: State)
    requires Came(s0, actions0, s1) && Funneling(s1, w) && s1.t.slot[w].funnel == H.Closing && s1.t.slot[w].queue == []
    requires !s1.books[w].synced && !Better(s1.goal, s1.books[w].global, s1.books[w].local) && s1.t.center == T.Serving
    ensures Came(s0, actions, s) && Sized(s) && s.t.net == T.TaskFinished(s1.t, w).net && s.t.n == s1.t.n
    ensures s.t.center == T.Serving && s.t.phase == s1.t.phase[w := T.Idle]
    ensures s.goal == s1.goal && s.kind == s1.kind && s.accepted == s1.accepted
    ensures !Better(s1.goal, s1.books[w].local, s1.books[w].global) ==> s.best == s1.best
    ensures forall x | 0 <= x < s.t.n && x != w :: s.books[x] == s1.books[x] && s.t.slot[x] == s1.t.slot[x]
  {
    hide All, Run, Enabled, Step, Better, T.TaskFinished;
    LastUpdate(s1, w);
    actions, s := Do(s0, actions0, s1, UpdateScore(w));
    if s.books[w].proposing.Some? {
      ProposerServed(s, w);
      ProposalGoes(s, w);
      actions, s := Do(s0, actions, s, TakeProposal(w));
    }
    Returns(s, w);
    actions, s := Do(s0, actions, s, Protocol(T.Local(w, H.Return)));
    SameFinish(s1.t, s.t, w);
    Finishes(s, w);
    actions, s := Do(s0, actions, s, Protocol(T.FinishTask(w)));
  }

  lemma ProposalGoes(s: State, w: nat)
    requires Enabled(s, TakeProposal(w))
    ensures Step(s, TakeProposal(w)).Next?
    ensures var s' := Step(s, TakeProposal(w)).state;
            && s' == s.(books := s.books[w := s.books[w].(proposing := None)],
               best := s'.best, broadcasts := s'.broadcasts,
                        scoresSent := s'.scoresSent, scoreNet := s'.scoreNet)
            && |s'.scoreNet| == |s.scoreNet|
  {
  }

  /** What the end of a task does to the links does not depend on the slot. */
  lemma SameFinish(t: T.State, t': T.State, w: nat)
    requires T.Worker(t, w) && T.Worker(t', w) && t' == t.(slot := t'.slot)
    ensures T.TaskFinished(t', w).net == T.TaskFinished(t, w).net
  {
  }

  /** Rank 1 ends its task; nothing was accepted. */
  lemma RankOne() returns (actions: seq<Action>, s: State)
    ensures Came(Init(3, Maximise, I32, -10), actions, s) && Stage(s, T.Idle, T.Idle) && s.accepted == [] && Waits(s)
    ensures TasksOnly(s.t.net, 1, 2) && |T.Link(s.t.net, 1, 2)| == 1 && T.Link(s.t.net, 1, 2)[0].Task?
  {
    hide All, Run, Init, Enabled, Step, Leads, TasksOnly, AtWork, T.TaskFinished;
    var s0 := Init(3, Maximise, I32, -10);
    actions, s := RankOneSends();
    var h0, h, steps;
    actions, h0 := SyncRound(s0, actions, s, 1, H.Sent);
    s := WithSlot(s, 1, h0);
    FunnelIs(h0, H.WantPop);
    steps, h := WindDown(h0);
    actions := DoPlain(s0, actions, s, 1, steps, h);
    s := WithSlot(s, 1, h);
    FinishedNet(s.t, 1, 1, 2);
    actions, s := Close(s0, actions, s, 1);
  }

  /** Rank 2 takes the task. */
  lemma RankTwoStarts() returns (actions: seq<Action>, s: State)
    ensures Came(Init(3, Maximise, I32, -10), actions, s) && Stage(s, T.Idle, T.Working) && s.accepted == []
    ensures Untouched(s.books[2]) && Funneling(s, 2) && NoTasks(s.t.net)
    ensures AtWork(s.t.slot[2], H.Entry) && !s.t.slot[2].transmitting
  {
    hide All, Run, Init, Enabled, Step, TasksOnly, NoTasks, T.TaskAccepted;
    actions, s := RankOne();
    TaskStarts(s, 1, 2);
    actions, s := Do(Init(3, Maximise, I32, -10), actions, s, Protocol(T.ReceiveTask(1, 2, 0)));
  }

  /** It accepts p with score -1. */
  lemma RankTwoAccepts(p: Packet) returns (actions: seq<Action>, s: State)
    requires p != []
    ensures Came(Init(3, Maximise, I32, -10), actions, s) && Stage(s, T.Idle, T.Working)
    ensures s.accepted == [Acceptance(2, -1, p)] && s.books[2].local == -1 && s.books[2].global == -10
    ensures Funneling(s, 2) && !s.books[2].synced && NoTasks(s.t.net)
    ensures AtWork(s.t.slot[2], H.WantPop)
  {
    hide All, Run, Init, Enabled, Step, NoTasks;
    var s0 := Init(3, Maximise, I32, -10);
    var h;
    actions, s := RankTwoStarts();
    actions, h := SyncRound(s0, actions, s, 2, H.Entry);
    s := WithSlot(s, 2, h);
    Accepts(s, 2, -1, p);
    actions, s := Do(s0, actions, s, Accept(2, 0, -1, p));
  }

  /** Its proposal is taken, and both ranks are idle again. */
  lemma RankTwo(p: Packet) returns (actions: seq<Action>, s: State)
    requires p != []
    ensures Came(Init(3, Maximise, I32, -10), actions, s) && Sized(s) && s.t.n == 3 && D.Resting(s.t)
    ensures s.goal == Maximise && s.kind == I32 && s.accepted == [Acceptance(2, -1, p)]
  {
    hide All, Run, Init, Enabled, Step, Leads, NoTasks, AtWork, T.TaskFinished;
    var s0 := Init(3, Maximise, I32, -10);
    actions, s := RankTwoAccepts(p);
    var steps, h := WindDown(s.t.slot[2]);
    actions := DoPlain(s0, actions, s, 2, steps, h);
    s := WithSlot(s, 2, h);
    FinishedNone(s.t, 2);
    actions, s := Close(s0, actions, s, 2);
    RestsNow(s.t);
  }

  lemma Accepts(s: State, w: nat, score: int, p: Packet)
    requires Sized(s) && 1 <= w < s.t.n && s.t.phase[w] == T.Working && 0 in s.t.slot[w].pool && p != []
    requires Better(s.goal, score, s.books[w].local)
    ensures Enabled(s, Accept(w, 0, score, p))
    ensures Step(s, Accept(w, 0, score, p)) ==
            Next(s.(books := s.books[w := s.books[w].(local := score, stored := Bytes(p))],
                    accepted := s.accepted + [Acceptance(w, score, p)]))
  {
  }

  lemma FinishedNone(t: T.State, w: nat)
    requires T.Worker(t, w) && NoTasks(t.net)
    ensures NoTasks(T.TaskFinished(t, w).net)
  {
    hide T.Put, NoTasks;
    TaskPut(t.net, w, 0, T.Available);
    TaskPut(T.Put(t.net, w, 0, T.Available), w, t.det[w].parent, T.Ack);
  }

  lemma RestsNow(t: T.State)
    requires t.n == 3 && |t.phase| == 3 && t.center == T.Serving
    requires t.phase[1] == T.Idle && t.phase[2] == T.Idle && NoTasks(t.net)
    ensures D.Resting(t)
  {
  }

  /* ---------- its end ---------- */

  /** Receipts accept nothing. */
  lemma {:induction false} ReceiptsAccept(s: State, actions: seq<Action>)
    requires All(s) && Run(s, actions).Some? && forall a | a in actions :: Receipt(a)
    ensures Run(s, actions).value.Next?
    ensures var s' := Run(s, actions).value.state;
            All(s') && s'.accepted == s.accepted && s'.goal == s.goal && s'.kind == s.kind && s'.t.n == s.t.n
    decreases |actions|
  {
    hide Books, TT.Good, Enabled, Step, Receipt;
    if actions != [] {
      StepSafe(s, actions[0]);
      ReceiptKeeps(s, actions[0]);
      ReceiptsAccept(Step(s, actions[0]).state, actions[1..]);
    }
  }

  lemma ReceiptKeeps(s: State, a: Action)
    requires All(s) && Enabled(s, a) && Receipt(a) && Step(s, a).Next?
    ensures var s' := Step(s, a).state;
            s'.accepted == s.accepted && s'.goal == s.goal && s'.kind == s.kind && s'.t.n == s.t.n
  {
    hide All, Enabled, Step;
    match a
    case Protocol(p) => ProtocolKeeps(s, p);
    case TakeTermination(w) => TerminationKeeps(s, w);
    case _ => OtherKeeps(s, a);
  }

  lemma ProtocolKeeps(s: State, p: T.Action)
    requires Enabled(s, Protocol(p)) && Step(s, Protocol(p)).Next?
    ensures var s' := Step(s, Protocol(p)).state;
            s'.accepted == s.accepted && s'.goal == s.goal && s'.kind == s.kind && s'.t.n == s.t.n
  {
    hide T.Enabled;
    TT.StepKeepsSize(s.t, p);
  }

  lemma TerminationKeeps(s: State, w: nat)
    requires All(s) && Enabled(s, TakeTermination(w)) && Step(s, TakeTermination(w)).Next?
    ensures var s' := Step(s, TakeTermination(w)).state;
            s'.accepted == s.accepted && s'.goal == s.goal && s'.kind == s.kind && s'.t.n == s.t.n
  {
    hide TT.Good, ScoreChannels, HelperChannels, Values, Payloads, Drained;
    TerminationCounts(s, w);
    var m := T.First(s.t, 0, w).value;
    DrainedChannels(s, w, m.scoreUpdates, m.nextProcesses);
  }

  lemma OtherKeeps(s: State, a: Action)
    requires Enabled(s, a) && (a.Report? || a.NotifyNext? || a.SendSolution? || a.CollectNext?) && Step(s, a).Next?
    ensures var s' := Step(s, a).state;
            s'.accepted == s.accepted && s'.goal == s.goal && s'.kind == s.kind && s'.t.n == s.t.n
  {
  }

  /** With this one acceptance, whatever else happened, the best solution is not fetched. */
  lemma NothingFetched(s: State, p: Packet)
    requires All(s) && s.t.center == T.Finished && s.t.n == 3 && p != []
    requires s.goal == Maximise && s.kind == I32 && s.accepted == [Acceptance(2, -1, p)]
    ensures Sized(s) && s.best == -1 && Shadowed(s) && Fetched(s) == []
  {
    hide All, Better, Found, Values;
    AllParts(s);
    var w := CollectedHolder(s);
    RecordedFound(s, w);
    if s.results[1].Some? {
      RecordedFound(s, 1);
    }
    assert FirstOf(s.results, Score(I32, -1), 1);
  }

  /**
   * A whole run of three ranks that ends with the best score -1, which rank 2 holds for the packet p, and
   * from which the center fetches nothing.
   */
  lemma SolutionLost(p: Packet) returns (actions: seq<Action>)
    requires p != []
    ensures Reaches(Init(3, Maximise, I32, -10), actions, T.Finished)
    ensures var s := Run(Init(3, Maximise, I32, -10), actions).value.state;
            && Sized(s) && s.accepted == [Acceptance(2, -1, p)] && s.best == -1
            && Shadowed(s) && Fetched(s) == []
  {
    hide All, Run, Init, D.Resting, Receipt;
    var s0 := Init(3, Maximise, I32, -10);
    var first, s := RankTwo(p);
    var more := CompletionIsReached(3, Maximise, I32, -10, first);
    RunJoined(s0, first, more);
    ReceiptsAccept(s, more);
    actions := first + more;
    NothingFetched(Run(s0, actions).value.state, p);
  }
}

/** How a centralized run hands in its solutions: every worker sends one, and the center takes them all, by rank. */
module CentralizedSolutions {
  import opened Common
  import opened Centralized
  import opened CentralizedRuns
  import H = Handoff

  predicate IsSolution(m: Message) {
    m.HasResult? || m.NoResult?
  }

  function Only(m: Message): seq<Message> {
    if IsSolution(m) then [m] else []
  }

  /** The solutions among messages. */
  function Solutions(c: seq<Message>): seq<Message> {
    if c == [] then [] else Only(c[0]) + Solutions(c[1..])
  }

  lemma {:induction false} SolutionsBoth(a: seq<Message>, b: seq<Message>)
    ensures Solutions(a + b) == Solutions(a) + Solutions(b)
  {
    hide Only;
    if a == [] {
      assert a + b == b;
    } else {
      assert (a + b)[1..] == a[1..] + b;
      SolutionsBoth(a[1..], b);
    }
  }

  lemma NoSolution(m: Message)
    ensures Solutions([m]) == if IsSolution(m) then [m] else []
  {
    assert [m][1..] == [];
  }

  /** The solutions the center takes in a run, in order. */
  function Gathered(s: State, actions: seq<Action>): seq<Message>
    decreases |actions|
  {
    if actions == [] || !Enabled(s, actions[0]) || Step(s, actions[0]).Throws? then []
    else Taken(s, actions[0]) + Gathered(Step(s, actions[0]).state, actions[1..])
  }

  function Taken(s: State, a: Action): seq<Message>
    requires Enabled(s, a)
  {
    if a.CollectNext? then Solutions([s.workers[s.center.next].outbox[0]]) else []
  }

  function HandedBy(a: Action, w: nat): seq<Message> {
    if a.SendSolution? && a.w == w then [a.solution] else []
  }

  /** What worker w hands in. */
  function HandedIn(actions: seq<Action>, w: nat): seq<Message> {
    if actions == [] then []
    else HandedBy(actions[0], w) + HandedIn(actions[1..], w)
  }

  /** How many workers the center is through with. */
  function Through(s: State): nat {
    match s.center
    case Collecting(next) => next
    case Finished => |s.workers|
    case _ => 0
  }

  /** sent is what the worker has handed in, and done what the center took of it, if it is through with the worker. */
  predicate Delivers(x: Worker, sent: seq<Message>, done: Option<Message>) {
    && |sent| == (if x.phase == Done then 1 else 0)
    && match done
       case Some(m) => sent == [m] && Solutions(x.outbox) == []
       case None => Solutions(x.outbox) == sent
  }

  function DoneWith(gathered: seq<Message>, w: nat): Option<Message> {
    if w < |gathered| then Some(gathered[w]) else None
  }

  ghost predicate Collection(s: State, sent: seq<seq<Message>>, gathered: seq<Message>) {
    && |sent| == |s.workers| && |gathered| == Through(s) <= |s.workers|
    && forall w | 0 <= w < |s.workers| :: Delivers(s.workers[w], sent[w], DoneWith(gathered, w))
  }

  /* ---------- steps ---------- */

  /** A worker's step that hands in nothing. */
  predicate Plain(x: Worker, y: Worker) {
    (x.phase == Done <==> y.phase == Done) && Solutions(y.outbox) == Solutions(x.outbox)
  }

  lemma Queueing(x: Worker, m: Message)
    requires !IsSolution(m)
    ensures Solutions(x.outbox + [m]) == Solutions(x.outbox)
  {
    SolutionsBoth(x.outbox, [m]);
    NoSolution(m);
  }

  lemma ReleasedPlain(x: Worker)
    ensures Plain(x, Released(x))
  {
    Queueing(x, Ack);
  }

  lemma AcceptedPlain(x: Worker, thread: nat)
    requires H.Idle(x.slot) && x.inbox != [] && x.inbox[0].Task? && x.phase == Idle
    ensures Plain(x, Accepted(x, thread))
  {
    Queueing(x, Ack);
    Queueing(x, Running);
    Queueing(x.(outbox := x.outbox + [Ack]), Running);
    assert x.outbox + [] == x.outbox;
  }

  lemma CompletedPlain(x: Worker)
    requires x.phase.Working?
    ensures Plain(x, Completed(x))
  {
    Queueing(x, Available);
    var x1 := x.(phase := Idle, outbox := x.outbox + [Available], finished := x.finished + multiset{x.phase.task});
    ReleasedPlain(x1);
  }

  lemma {:induction false} NoticesDrainedPlain(x: Worker, count: int)
    requires count - x.noticesIn <= |x.notices|
    ensures Plain(x, NoticesDrained(x, count))
    decreases count - x.noticesIn
  {
    if x.noticesIn < count {
      NoticesDrainedPlain(Noticed(x), count);
    }
  }

  lemma LeftPlain(x: Worker, scores: int, notices: int)
    requires Drainable(x, scores, notices) && x.inbox != [] && x.phase == Idle
    ensures Plain(x, Left(x, scores, notices))
  {
    ScoresDrainedKeeps(x, scores);
    NoticesDrainedPlain(ScoresDrained(x, scores), notices);
  }

  predicate WorkerStep(a: Action) {
    || a.ReceiveTask? || a.Local? || a.ReceiveScore? || a.ReceiveNotice? || a.FinishTask? || a.WorkerAck?
    || a.TakeTermination?
  }

  lemma LocalPlain(s: State, a: Action)
    requires Enabled(s, a) && a.Local? && Step(s, a).Next?
    ensures Step(s, a).state == With(s, a.w, Step(s, a).state.workers[a.w])
    ensures Plain(s.workers[a.w], Step(s, a).state.workers[a.w])
  {
    var x := s.workers[a.w];
    if a.step.Send? {
      Queueing(x, Task(x.slot.funnel.bundle));
    }
    hide H.Step;
  }

  lemma WorkerPlain(s: State, a: Action)
    requires Enabled(s, a) && WorkerStep(a) && Step(s, a).Next?
    ensures a.w < |s.workers| == |Step(s, a).state.workers|
    ensures Step(s, a).state == With(s, a.w, Step(s, a).state.workers[a.w])
    ensures Plain(s.workers[a.w], Step(s, a).state.workers[a.w])
  {
    hide Released, Accepted, Completed, Left, H.Step, H.Enabled, H.Idle;
    var x := s.workers[a.w];
    match a
    case ReceiveTask(w, thread) => AcceptedPlain(x, thread);
    case Local(_, _) => LocalPlain(s, a);
    case FinishTask(_) => CompletedPlain(x);
    case WorkerAck(_) => ReleasedPlain(x.(det := x.det.AckReceived().0, inbox := x.inbox[1..]));
    case TakeTermination(_) => LeftPlain(x, x.inbox[0].scores, x.inbox[0].notices);
    case _ =>
  }

  lemma PlainDelivers(x: Worker, y: Worker, sent: seq<Message>, done: Option<Message>)
    requires Plain(x, y) && Delivers(x, sent, done)
    ensures Delivers(y, sent, done)
  {
  }

  /** All workers' steps are plain, and the center is as far as before. */
  ghost predicate Idles(s: State, s': State) {
    && |s'.workers| == |s.workers| && Through(s') == Through(s)
    && forall w | 0 <= w < |s.workers| :: Plain(s.workers[w], s'.workers[w])
  }

  lemma IdlesCollection(s: State, s': State, sent: seq<seq<Message>>, gathered: seq<Message>)
    requires Idles(s, s') && Collection(s, sent, gathered)
    ensures Collection(s', sent, gathered)
  {
    hide Plain, Delivers;
    forall w | 0 <= w < |s.workers| ensures Delivers(s'.workers[w], sent[w], DoneWith(gathered, w)) {
      PlainDelivers(s.workers[w], s'.workers[w], sent[w], DoneWith(gathered, w));
    }
  }

  lemma WorkerIdles(s: State, a: Action)
    requires Enabled(s, a) && WorkerStep(a) && Step(s, a).Next?
    ensures Idles(s, Step(s, a).state)
  {
    WorkerPlain(s, a);
    hide Step, Enabled, Solutions;
  }

  /** The center takes a message that is no solution. */
  lemma TakingIdles(s: State, a: Action)
    requires Enabled(s, a) && Step(s, a).Next? && (a.TakeReport? || a.TakeTask? || a.TakeAck?)
    ensures Idles(s, Step(s, a).state)
  {
    TakenOne(s.workers[a.w].outbox);
    hide Solutions;
  }

  lemma TakenOne(c: seq<Message>)
    requires c != [] && !IsSolution(c[0])
    ensures Solutions(c[1..]) == Solutions(c)
  {
  }

  lemma SendingIdles(s: State, a: Action)
    requires Enabled(s, a) && Step(s, a).Next? && (a.SendSeed? || a.Dispatch?)
    ensures Idles(s, Step(s, a).state)
  {
    hide Solutions;
  }

  lemma NotifyIdles(s: State)
    requires Enabled(s, NotifyNext)
    ensures Step(s, NotifyNext).Next? && Idles(s, Step(s, NotifyNext).state)
  {
    hide Solutions;
  }

  lemma BroadcastIdles(s: State, a: Action)
    requires Enabled(s, a) && Step(s, a).Next? && (a.BroadcastScore? || a.BroadcastFullness?)
    ensures Idles(s, Step(s, a).state)
  {
    hide Solutions;
  }

  /** Handing in. */
  lemma SolutionCollection(s: State, w: nat, m: Message, sent: seq<seq<Message>>, gathered: seq<Message>)
    requires Enabled(s, SendSolution(w, m)) && Collection(s, sent, gathered)
    ensures Collection(Step(s, SendSolution(w, m)).state, sent[w := sent[w] + [m]], gathered)
  {
    hide Solutions;
    assert Delivers(s.workers[w], sent[w], DoneWith(gathered, w));
    SolutionsBoth(s.workers[w].outbox, [m]);
    NoSolution(m);
  }

  /** Taking in. */
  lemma TakenCollection(s: State, sent: seq<seq<Message>>, gathered: seq<Message>)
    requires Inv(s) && Enabled(s, CollectNext) && Collection(s, sent, gathered)
    ensures Step(s, CollectNext).Next?
    ensures Collection(Step(s, CollectNext).state, sent, gathered + Taken(s, CollectNext))
  {
    hide Inv, Collection, Solutions, Delivers;
    CollectSafe(s);
    NoSolution(s.workers[s.center.next].outbox[0]);
    OneTaken(s, sent, gathered);
  }

  lemma OneTaken(s: State, sent: seq<seq<Message>>, gathered: seq<Message>)
    requires Collection(s, sent, gathered) && s.center.Collecting? && s.center.next < |s.workers|
    requires var x := s.workers[s.center.next]; x.outbox != [] && IsSolution(x.outbox[0])
    ensures var r := s.center.next;
            var x := s.workers[r];
            var s1 := With(s, r, x.(outbox := x.outbox[1..]));
            Collection(s1.(center := if r + 1 < |s.workers| then Collecting(r + 1) else Finished), sent,
                       gathered + [x.outbox[0]])
  {
    var r := s.center.next;
    var x, m := s.workers[r], s.workers[r].outbox[0];
    assert Delivers(x, sent[r], DoneWith(gathered, r));
    assert Solutions(x.outbox) == [m] + Solutions(x.outbox[1..]);
    hide Solutions;
    var g := gathered + [m];
    assert Delivers(x.(outbox := x.outbox[1..]), sent[r], DoneWith(g, r));
    forall w | 0 <= w < |s.workers| && w != r ensures Delivers(s.workers[w], sent[w], DoneWith(g, w)) {
      assert Delivers(s.workers[w], sent[w], DoneWith(gathered, w));
    }
  }

  /** What all workers have handed in, after one more step. */
  function HandedOn(sent: seq<seq<Message>>, a: Action): seq<seq<Message>> {
    if a.SendSolution? && a.w < |sent| then sent[a.w := sent[a.w] + [a.solution]] else sent
  }

  lemma StepCollection(s: State, a: Action, sent: seq<seq<Message>>, gathered: seq<Message>)
    requires Inv(s) && Enabled(s, a) && Step(s, a).Next? && Collection(s, sent, gathered)
    ensures Collection(Step(s, a).state, HandedOn(sent, a), gathered + Taken(s, a))
  {
    hide Inv, Enabled, Step, Collection, Idles;
    assert gathered + [] == gathered;
    if WorkerStep(a) {
      WorkerIdles(s, a);
      IdlesCollection(s, Step(s, a).state, sent, gathered);
    } else if a.TakeReport? || a.TakeTask? || a.TakeAck? {
      TakingIdles(s, a);
      IdlesCollection(s, Step(s, a).state, sent, gathered);
    } else if a.SendSolution? {
      SenderInRange(s, a, sent, gathered);
      SolutionCollection(s, a.w, a.solution, sent, gathered);
    } else if a.CollectNext? {
      TakenCollection(s, sent, gathered);
    } else if a.NotifyNext? {
      NotifyIdles(s);
      IdlesCollection(s, Step(s, a).state, sent, gathered);
    } else if a.SendSeed? || a.Dispatch? {
      SendingIdles(s, a);
      IdlesCollection(s, Step(s, a).state, sent, gathered);
    } else {
      BroadcastIdles(s, a);
      IdlesCollection(s, Step(s, a).state, sent, gathered);
    }
  }

  lemma SenderInRange(s: State, a: Action, sent: seq<seq<Message>>, gathered: seq<Message>)
    requires Enabled(s, a) && a.SendSolution? && Collection(s, sent, gathered)
    ensures a.w < |sent|
  {
  }

  /* ---------- receive_solution ---------- */

  function Collects(n: nat): seq<Action> {
    if n == 0 then [] else [CollectNext] + Collects(n - 1)
  }

  /** Reports in front of a solution are passed over, then the solution is taken, and the next rank is due. */
  lemma {:induction false} CollectsPast(s: State, reports: seq<Message>, m: Message, rest: seq<Message>)
    requires s.center.Collecting? && s.center.next < |s.workers| && AllLeft(s) && IsSolution(m)
    requires forall x | x in reports :: x == Running || x == Available
    requires s.workers[s.center.next].outbox == reports + [m] + rest
    ensures var r := s.center.next;
            var s1 := With(s, r, s.workers[r].(outbox := rest));
            Run(s, Collects(|reports| + 1))
              == Some(Next(s1.(center := if r + 1 < |s.workers| then Collecting(r + 1) else Finished)))
    decreases |reports|
  {
    hide Run;
    var r, c := s.center.next, s.workers[s.center.next].outbox;
    var s1 := With(s, r, s.workers[r].(outbox := c[1..]));
    assert c[0] == (reports + [m])[0] && (reports != [] ==> reports[0] in reports);
    CollectRun(s, |reports|);
    if reports == [] {
      assert c == [m] + rest && c[1..] == rest;
      RunNothing(s1.(center := if r + 1 < |s.workers| then Collecting(r + 1) else Finished));
    } else {
      assert c[0] == reports[0] && c[1..] == reports[1..] + [m] + rest;
      StillLeft(s, r, c[1..]);
      assert forall x :: x in reports[1..] ==> x in reports;
      CollectsPast(s1, reports[1..], m, rest);
      assert With(s1, r, s1.workers[r].(outbox := rest)) == With(s, r, s.workers[r].(outbox := rest));
    }
  }

  lemma StillLeft(s: State, r: nat, outbox: seq<Message>)
    requires AllLeft(s) && r < |s.workers|
    ensures AllLeft(With(s, r, s.workers[r].(outbox := outbox)))
  {
    var s1 := With(s, r, s.workers[r].(outbox := outbox));
    forall x | x in s1.workers ensures x.phase == Leaving || x.phase == Done {
      var i :| 0 <= i < |s1.workers| && s1.workers[i] == x;
      assert s.workers[i] in s.workers;
    }
  }

  lemma CollectRun(s: State, n: nat)
    requires Enabled(s, CollectNext) && Step(s, CollectNext).Next?
    ensures Run(s, Collects(n + 1)) == Run(Step(s, CollectNext).state, Collects(n))
  {
    assert Collects(n + 1)[1..] == Collects(n);
    hide Step, Enabled;
  }

  lemma RunNothing(s: State)
    ensures Run(s, Collects(0)) == Some(Next(s))
  {
  }

  /* ---------- whole runs ---------- */

  /** sent with what the actions hand in. */
  function AllHandedIn(sent: seq<seq<Message>>, actions: seq<Action>): (r: seq<seq<Message>>)
    ensures |r| == |sent|
  {
    seq(|sent|, w requires 0 <= w < |sent| => sent[w] + HandedIn(actions, w))
  }

  lemma HandedOnMore(sent: seq<seq<Message>>, actions: seq<Action>)
    requires actions != []
    ensures AllHandedIn(HandedOn(sent, actions[0]), actions[1..]) == AllHandedIn(sent, actions)
  {
    hide HandedIn, HandedBy, HandedOn;
    HandedOnIs(sent, actions[0]);
    var more, all := AllHandedIn(HandedOn(sent, actions[0]), actions[1..]), AllHandedIn(sent, actions);
    forall w | 0 <= w < |sent| ensures more[w] == all[w] {
      HandedFirst(sent[w], actions, w);
    }
  }

  lemma HandedOnIs(sent: seq<seq<Message>>, a: Action)
    ensures |HandedOn(sent, a)| == |sent|
    ensures forall w | 0 <= w < |sent| :: HandedOn(sent, a)[w] == sent[w] + HandedBy(a, w)
  {
  }

  lemma HandedFirst(before: seq<Message>, actions: seq<Action>, w: nat)
    requires actions != []
    ensures before + HandedBy(actions[0], w) + HandedIn(actions[1..], w) == before + HandedIn(actions, w)
  {
    hide HandedBy;
  }

  lemma HandedNothing(sent: seq<seq<Message>>)
    ensures AllHandedIn(sent, []) == sent
  {
    forall w | 0 <= w < |sent| ensures sent[w] + HandedIn([], w) == sent[w] {
    }
  }

  lemma {:induction false} RunCollection(s: State, actions: seq<Action>, sent: seq<seq<Message>>,
                                         gathered: seq<Message>)
    requires Inv(s) && Run(s, actions).Some? && Collection(s, sent, gathered)
    ensures Run(s, actions).value.Next?
    ensures Collection(Run(s, actions).value.state, AllHandedIn(sent, actions), gathered + Gathered(s, actions))
    decreases |actions|
  {
    hide Inv, Enabled, Step, Collection, Taken;
    if actions == [] {
      HandedNothing(sent);
      assert gathered + [] == gathered;
    } else {
      var a := actions[0];
      StepSafe(s, a);
      StepCollection(s, a, sent, gathered);
      var s1 := Step(s, a).state;
      RunCollection(s1, actions[1..], HandedOn(sent, a), gathered + Taken(s, a));
      HandedOnMore(sent, actions);
      assert gathered + Taken(s, a) + Gathered(s1, actions[1..]) == gathered + Gathered(s, actions);
    }
  }

  lemma NothingYet(n: nat)
    ensures Collection(Init(n), seq(n, _ => []), [])
  {
  }

  lemma EverythingTaken(s: State, sent: seq<seq<Message>>, gathered: seq<Message>)
    requires Collection(s, sent, gathered) && s.center == Finished
    ensures |gathered| == |s.workers| == |sent| && forall w | 0 <= w < |sent| :: sent[w] == [gathered[w]]
  {
    forall w | 0 <= w < |sent| ensures sent[w] == [gathered[w]] {
      assert Delivers(s.workers[w], sent[w], DoneWith(gathered, w));
    }
  }

  /** When a run has come to its end, the center has taken each worker's one solution, as it was handed in, by rank. */
  lemma SolutionsAreCollected(n: nat, actions: seq<Action>)
    requires n >= 1 && Run(Init(n), actions).Some?
    ensures Run(Init(n), actions).value.Next?
    ensures Run(Init(n), actions).value.state.center == Finished ==>
      var got := Gathered(Init(n), actions);
      |got| == n && forall w: nat | w < n :: HandedIn(actions, w) == [got[w]]
  {
    hide Run, Inv, Collection, Gathered, HandedIn;
    InitInv(n);
    NothingYet(n);
    var none: seq<seq<Message>> := seq(n, _ => []);
    RunCollection(Init(n), actions, none, []);
    var s, sent := Run(Init(n), actions).value.state, AllHandedIn(none, actions);
    if s.center == Finished {
      var got := Gathered(Init(n), actions);
      assert [] + got == got;
      EverythingTaken(s, sent, got);
      forall w: nat | w < n ensures HandedIn(actions, w) == [got[w]] {
        assert sent[w] == [] + HandedIn(actions, w) == HandedIn(actions, w);
      }
    }
  }
}

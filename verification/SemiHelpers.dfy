/**
 * How helper lists reach the workers of a semi-centralized run: each worker hears exactly the lists the center sent it,
 * in order, and pushes to the heads of what it has heard.
 */
module SemiHelpers {
  import opened Common
  import opened SemiScores
  import opened SemiScoresInvariant
  import opened SemiRuns
  import opened SemiSolution
  import T = SemiProtocol
  import TI = SemiInvariant
  import TT = SemiTermination
  import H = Handoff
  import F = Forest

  /* ---------- what a worker's slot goes through ---------- */

  /** The step of worker w's slot that a step of the system is, if any. */
  function SlotSteps(s: State, a: Action, w: nat): seq<H.Action> {
    match a
    case Protocol(Local(x, step)) => if x == w then [step] else []
    case ReceiveHelpers(x) =>
      if x == w && w < |s.helperNet| && s.helperNet[w] != [] then [H.ReceiveHelpers(s.helperNet[w][0])] else []
    case _ => []
  }

  function SlotRun(s: State, actions: seq<Action>, w: nat): seq<H.Action>
    decreases |actions|
  {
    if actions == [] || !Enabled(s, actions[0]) || Step(s, actions[0]).Throws? then []
    else SlotSteps(s, actions[0], w) + SlotRun(Step(s, actions[0]).state, actions[1..], w)
  }

  /** From h to h' the slot takes these steps, or nothing that has to do with helpers changes. */
  ghost predicate Goes(h: H.State, steps: seq<H.Action>, h': H.State) {
    || (steps == [] && h'.policy == h.policy && h'.nexts == h.nexts && h'.next == h.next && h'.pushed == h.pushed)
    || (|steps| == 1 && H.Enabled(h, steps[0]) && H.Step(h, steps[0]) == Next(h'))
  }

  lemma ProtocolGoes(t: T.State, p: T.Action, w: nat)
    requires TT.Good(t) && T.Enabled(t, p) && T.Step(t, p).Next? && 1 <= w < t.n
    ensures w < |T.Step(t, p).state.slot|
    ensures Goes(t.slot[w], match p case Local(x, step) => (if x == w then [step] else []) case _ => [],
                 T.Step(t, p).state.slot[w])
  {
    hide TI.Inv, H.Step, H.Enabled, H.Inv;
  }

  lemma HelpersGo(s: State, w: nat)
    requires All(s) && OwnEnabled(s, ReceiveHelpers(w))
    ensures OwnStep(s, ReceiveHelpers(w)).Next?
    ensures var slot, slot' := s.t.slot, OwnStep(s, ReceiveHelpers(w)).state.t.slot;
            && |slot'| == |slot|
            && forall x: nat | x < |slot| :: Goes(slot[x], SlotSteps(s, ReceiveHelpers(w), x), slot'[x])
  {
    hide TT.Good, HelperChannels, Values, ScoreChannels, Payloads, H.Inv;
    HelperListAccepted(s, w);
    ReceiveHelpersIs(s, w);
  }

  lemma OwnGoes(s: State, a: Action)
    requires OwnEnabled(s, a) && OwnStep(s, a).Next? && !a.ReceiveHelpers?
    ensures OwnStep(s, a).state.t.slot == s.t.slot
  {
    hide Left, Handled;
    if a.TakeTermination? {
      var m := T.First(s.t, 0, a.w).value;
      DrainSizes(s, a.w, m.scoreUpdates);
      LeftSlots(s, a.w, m.scoreUpdates, m.nextProcesses);
    }
  }

  lemma LeftSlots(s: State, w: nat, scores: int, helpers: int)
    requires Sized(s) && w < s.t.n && Drainable(s, w, scores, helpers) && T.Link(s.t.net, 0, w) != []
    ensures Left(s, w, scores, helpers).t.slot == s.t.slot
  {
  }

  lemma StepGoes(s: State, a: Action, w: nat)
    requires All(s) && Enabled(s, a) && Step(s, a).Next? && 1 <= w < s.t.n
    ensures w < |s.t.slot| && w < |Step(s, a).state.t.slot|
    ensures Goes(s.t.slot[w], SlotSteps(s, a, w), Step(s, a).state.t.slot[w])
  {
    hide Goes, Left, OwnStep, T.Step, T.Enabled, Books, TT.Good, H.Inv;
    SlotIs(s, w);
    if a.Protocol? {
      ProtocolGoes(s.t, a.a, w);
    } else if a.ReceiveHelpers? {
      HelpersGo(s, a.w);
    } else {
      OwnGoes(s, a);
      Stays(s.t.slot[w]);
    }
  }

  lemma Stays(h: H.State)
    ensures Goes(h, [], h)
  {
  }

  lemma SlotIs(s: State, w: nat)
    requires All(s) && 1 <= w < s.t.n
    ensures w < |s.t.slot| && H.Inv(s.t.slot[w]) && s.t.slot[w].policy.ToHelper?
  {
    hide TI.Inv, Books, H.Inv;
  }

  lemma GoneTold(h: H.State, steps: seq<H.Action>, h': H.State, k: H.Helpers, rest: seq<H.Action>)
    requires H.Inv(h) && H.Knows(h, k) && Goes(h, steps, h')
    ensures var k' := if steps == [] then k else H.Told(k, steps[0]);
            && H.Knows(h', k') && H.ToldAll(k, steps + rest) == H.ToldAll(k', rest)
            && h'.pushed + H.Parcels(k', rest) == h.pushed + H.Parcels(k, steps + rest)
  {
    hide H.Inv, H.Told, H.Step, H.Enabled, H.Compact, H.Listed;
    if steps == [] {
      assert steps + rest == rest;
    } else {
      H.StepTold(h, steps[0], k);
      assert (steps + rest)[0] == steps[0] && (steps + rest)[1..] == rest;
    }
  }

  /** What worker w knows of its helpers at the end of a run, and where it has pushed to, is what its slot was told. */
  lemma {:induction false} SlotTold(s: State, actions: seq<Action>, w: nat, k: H.Helpers)
    requires All(s) && 1 <= w < s.t.n && Run(s, actions).Some?
    requires w < |s.t.slot| && H.Knows(s.t.slot[w], k)
    ensures Run(s, actions).value.Next? && w < |Run(s, actions).value.state.t.slot|
    ensures var h, steps := Run(s, actions).value.state.t.slot[w], SlotRun(s, actions, w);
            H.Knows(h, H.ToldAll(k, steps)) && h.pushed == s.t.slot[w].pushed + H.Parcels(k, steps)
    decreases |actions|
  {
    hide All, Enabled, Step, SlotSteps, Goes, H.Inv, H.Knows, H.Told;
    if actions != [] {
      var a := actions[0];
      StepSafe(s, a);
      StepInputs(s, a);
      StepGoes(s, a, w);
      SlotIs(s, w);
      var s1, steps := Step(s, a).state, SlotSteps(s, a, w);
      GoneTold(s.t.slot[w], steps, s1.t.slot[w], k, SlotRun(s1, actions[1..], w));
      SlotTold(s1, actions[1..], w, if steps == [] then k else H.Told(k, steps[0]));
    }
  }

  /* ---------- the lists on their way ---------- */

  /** The list a report makes the center send to w, if any. */
  function ListsOut(s: State, a: Action, w: nat): seq<seq<int>>
    requires Enabled(s, a)
  {
    if !a.Report? || Handled(s, a.w, a.offset).Throws? then []
    else match Handled(s, a.w, a.offset).state.1
      case None => []
      case Some(m) => if m.to == w then [[m.helper as int]] else []
  }

  function ListsSent(s: State, actions: seq<Action>, w: nat): seq<seq<int>>
    decreases |actions|
  {
    if actions == [] || !Enabled(s, actions[0]) || Step(s, actions[0]).Throws? then []
    else ListsOut(s, actions[0], w) + ListsSent(Step(s, actions[0]).state, actions[1..], w)
  }

  function ListsHeard(steps: seq<H.Action>): seq<seq<int>> {
    if steps == [] then []
    else (if steps[0].ReceiveHelpers? then [steps[0].helpers] else []) + ListsHeard(steps[1..])
  }

  /** Worker w has heard the first of the lists sent to it, and until it leaves the rest is queued. */
  ghost predicate Arrived(s: State, w: nat, sent: seq<seq<int>>, heard: seq<seq<int>>) {
    && w < |s.t.phase| && w < |s.helperNet| && heard <= sent
    && (s.t.phase[w] == T.Idle || s.t.phase[w] == T.Working ==> sent == heard + s.helperNet[w])
  }

  /** Lists are only added behind, and taken from the front when they are heard, or the worker leaves. */
  ghost predicate Passes(s: State, s': State, w: nat, sent: seq<seq<int>>, heard: seq<seq<int>>) {
    && Sized(s) && Sized(s') && w < s.t.n == s'.t.n
    && (s.t.phase[w] == T.Idle || s.t.phase[w] == T.Working ==>
         s'.t.phase[w] == T.Leaving || s.helperNet[w] + sent == heard + s'.helperNet[w])
    && (s.t.phase[w] == T.Leaving || s.t.phase[w] == T.Done ==>
         heard == [] && (s'.t.phase[w] == T.Leaving || s'.t.phase[w] == T.Done))
    && (s'.t.phase[w] == T.Leaving ==> heard == [])
  }

  lemma ArrivedMore(s: State, s': State, w: nat, sent: seq<seq<int>>, heard: seq<seq<int>>,
                    more: seq<seq<int>>, news: seq<seq<int>>)
    requires Arrived(s, w, sent, heard) && Passes(s, s', w, more, news)
    ensures Arrived(s', w, sent + more, heard + news)
  {
    if s.t.phase[w] == T.Idle || s.t.phase[w] == T.Working {
      assert sent + more == heard + (s.helperNet[w] + more);
    }
  }

  lemma ProtocolPasses(s: State, p: T.Action, w: nat)
    requires All(s) && Enabled(s, Protocol(p)) && Step(s, Protocol(p)).Next? && 1 <= w < s.t.n
    ensures Passes(s, Step(s, Protocol(p)).state, w, [], ListsHeard(SlotSteps(s, Protocol(p), w)))
  {
    hide TT.Good, ScoreChannels, HelperChannels, Values, Payloads, H.Step, H.Enabled;
    assert ListsHeard(SlotSteps(s, Protocol(p), w)) == [];
    TT.StepKeepsSize(s.t, p);
    assert s.helperNet[w] + [] == [] + s.helperNet[w];
  }

  lemma ReportPasses(s: State, w: nat, a: Action)
    requires All(s) && OwnEnabled(s, a) && a.Report? && OwnStep(s, a).Next? && w < s.t.n
    ensures Passes(s, OwnStep(s, a).state, w, ListsOut(s, a, w), [])
  {
    hide TT.Good, ScoreChannels, HelperChannels, Values, Payloads;
    ReportedSafe(s, a.w, a.offset);
    hide Handled;
    var s' := OwnStep(s, a).state;
    assert s.helperNet[w] + ListsOut(s, a, w) == s'.helperNet[w];
    assert [] + s'.helperNet[w] == s'.helperNet[w];
  }

  lemma ReceivePasses(s: State, w: nat, a: Action)
    requires OwnEnabled(s, a) && a.ReceiveHelpers? && OwnStep(s, a).Next? && w < s.t.n
    ensures Passes(s, OwnStep(s, a).state, w, [], ListsHeard(SlotSteps(s, a, w)))
  {
  }

  lemma OtherPasses(s: State, w: nat, a: Action)
    requires OwnEnabled(s, a) && OwnStep(s, a).Next? && w < s.t.n
    requires !a.Report? && !a.ReceiveHelpers? && !a.TakeTermination?
    ensures Passes(s, OwnStep(s, a).state, w, [], [])
  {
  }

  lemma {:induction false} DrainedHelpers(s: State, w: nat, count: int, x: nat)
    requires w < |s.books| && w < |s.helperNet| && count - s.books[w].helpersIn <= |s.helperNet[w]|
    ensures var s' := HelpersDrained(s, w, count);
            && |s'.helperNet| == |s.helperNet| && |s'.books| == |s.books|
            && s' == s.(books := s'.books, helperNet := s'.helperNet)
            && (x < |s.helperNet| && x != w ==> s'.helperNet[x] == s.helperNet[x])
    decreases count - s.books[w].helpersIn
  {
    if s.books[w].helpersIn < count {
      DrainedHelpers(Popped(s, w), w, count, x);
    }
  }

  lemma LeavePasses(s: State, w: nat, a: Action)
    requires OwnEnabled(s, a) && a.TakeTermination? && OwnStep(s, a).Next? && w < s.t.n
    ensures Passes(s, OwnStep(s, a).state, w, [], [])
  {
    hide ScoresDrained, HelpersDrained;
    var m := T.First(s.t, 0, a.w).value;
    DrainSizes(s, a.w, m.scoreUpdates);
    DrainedHelpers(ScoresDrained(s, a.w, m.scoreUpdates), a.w, m.nextProcesses, w);
  }

  lemma StepPasses(s: State, a: Action, w: nat)
    requires All(s) && Enabled(s, a) && Step(s, a).Next? && 1 <= w < s.t.n
    ensures Passes(s, Step(s, a).state, w, ListsOut(s, a, w), ListsHeard(SlotSteps(s, a, w)))
  {
    hide All, Passes, OwnStep, T.Step, Left;
    if a.Protocol? {
      ProtocolPasses(s, a.a, w);
    } else if a.Report? {
      ReportPasses(s, w, a);
    } else if a.ReceiveHelpers? {
      ReceivePasses(s, w, a);
    } else if a.TakeTermination? {
      LeavePasses(s, w, a);
    } else {
      OtherPasses(s, w, a);
    }
  }

  lemma {:induction false} HeardBoth(a: seq<H.Action>, b: seq<H.Action>)
    ensures ListsHeard(a + b) == ListsHeard(a) + ListsHeard(b)
  {
    if a == [] {
      assert a + b == b;
    } else {
      assert (a + b)[1..] == a[1..] + b;
      HeardBoth(a[1..], b);
    }
  }

  lemma {:induction false} RunArrives(s: State, actions: seq<Action>, w: nat, sent: seq<seq<int>>, heard: seq<seq<int>>)
    requires All(s) && 1 <= w < s.t.n && Run(s, actions).Some? && Arrived(s, w, sent, heard)
    ensures Run(s, actions).value.Next?
    ensures Arrived(Run(s, actions).value.state, w, sent + ListsSent(s, actions, w),
                    heard + ListsHeard(SlotRun(s, actions, w)))
    decreases |actions|
  {
    hide All, Enabled, Step, SlotSteps, Arrived, Passes, ListsOut;
    if actions == [] {
      assert sent + [] == sent && heard + [] == heard;
    } else {
      var a := actions[0];
      StepSafe(s, a);
      StepInputs(s, a);
      StepPasses(s, a, w);
      var s1, steps, more := Step(s, a).state, SlotSteps(s, a, w), ListsOut(s, a, w);
      ArrivedMore(s, s1, w, sent, heard, more, ListsHeard(steps));
      RunArrives(s1, actions[1..], w, sent + more, heard + ListsHeard(steps));
      HeardBoth(steps, SlotRun(s1, actions[1..], w));
      assert sent + more + ListsSent(s1, actions[1..], w) == sent + ListsSent(s, actions, w);
      var rest := ListsHeard(SlotRun(s1, actions[1..], w));
      assert heard + ListsHeard(steps) + rest == heard + (ListsHeard(steps) + rest);
    }
  }

  /**
   * In every run of the full system: the lists worker w has heard are the first of those sent to it - its children in
   * the default topology, then what it was named - and until it leaves the others are queued for it. Its helper list
   * and its pushes are what these lists, its looks at the list and its pushes make of it.
   */
  lemma HelpersReachTheWorker(n: nat, goal: Goal, kind: Kind, initial: int, actions: seq<Action>, w: nat)
    requires 1 <= w < n && Run(Init(n, goal, kind, initial), actions).Some?
    ensures Run(Init(n, goal, kind, initial), actions).value.Next?
    ensures var s0 := Init(n, goal, kind, initial);
            var s, steps, sent := Run(s0, actions).value.state, SlotRun(s0, actions, w), ListsSent(s0, actions, w);
            && w < |s0.helperNet| && w < |s.t.slot| && Arrived(s, w, s0.helperNet[w] + sent, ListsHeard(steps))
            && H.Knows(s.t.slot[w], H.ToldAll(H.Helpers([], -1), steps))
            && s.t.slot[w].pushed == H.Parcels(H.Helpers([], -1), steps)
  {
    hide All, Run, Init, SlotRun, Arrived, H.ToldAll, H.Parcels;
    var s0 := Init(n, goal, kind, initial);
    InitAll(n, goal, kind, initial);
    InitInputs(n, goal, kind, initial);
    InitKnows(n, goal, kind, initial, w);
    SlotTold(s0, actions, w, H.Helpers([], -1));
    RunArrives(s0, actions, w, s0.helperNet[w], []);
    var steps := SlotRun(s0, actions, w);
    assert [] + ListsHeard(steps) == ListsHeard(steps);
    assert [] + H.Parcels(H.Helpers([], -1), steps) == H.Parcels(H.Helpers([], -1), steps);
  }

  lemma InitKnows(n: nat, goal: Goal, kind: Kind, initial: int, w: nat)
    requires 1 <= w < n
    ensures var s0 := Init(n, goal, kind, initial);
            && w < |s0.t.slot| && w < |s0.helperNet| && H.Knows(s0.t.slot[w], H.Helpers([], -1))
            && s0.t.slot[w].pushed == [] && Arrived(s0, w, s0.helperNet[w], [])
  {
    hide F.DefaultTree;
    var s0 := Init(n, goal, kind, initial);
    assert [] + s0.helperNet[w] == s0.helperNet[w];
  }
}

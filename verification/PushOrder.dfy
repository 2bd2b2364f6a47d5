/**
 * In which order a thread's pending nodes leave it. A trace is a thread's chain reduced to numbers and works; a plan
 * answers every attempt to send. The balancer's methods are tied to these functions, so a statement over all plans
 * is one over all outcomes of locks, pool and channel.
 */
module PushOrder {
  import opened TraceNode

  /* ---------- a thread's chain, reduced ---------- */

  /** The children of one chain node: at is the running or next one, the pending ones start at from. */
  datatype Level = Level(works: seq<Work>, at: nat, from: nat)

  /**
   * Whether nodes have left in order so far. taken: none that send took out had a shallower one pending. handed: nor
   * had any of those among them that were handed over; a node not worth running is discarded instead.
   */
  datatype Order = Order(taken: bool, handed: bool) {
    /** Whether all nodes taken out count, or those handed over. */
    predicate Holds(all: bool) {
      if all then taken else handed
    }

    function Noted(shallowest: bool, worthy: bool): Order {
      Order(taken && shallowest, handed && (shallowest || !worthy))
    }

    predicate Follows(o: Order) {
      (taken ==> o.taken) && (handed ==> o.handed)
    }
  }

  datatype Trace = Trace(levels: seq<Level>, lo: nat, order: Order)

  /**
   * The environment of one body. remote: which submit it calls. grants: how often in a row send finds the lock free
   * and room for a node; more: the same for the local attempt after a remote one. kids: for the children run inline.
   */
  datatype Plan = Plan(remote: bool, grants: nat, more: nat, kids: seq<Plan>)

  /** Every send is refused. */
  const REFUSE: Plan := Plan(false, 0, 0, [])

  function KidPlan(plan: Plan, i: nat): Plan {
    if i < |plan.kids| then plan.kids[i] else REFUSE
  }

  /** Somewhere in the plan an attempt to send to another process, or to the pool, is granted. */
  ghost predicate Sends(plan: Plan, remotely: bool) {
    || (if remotely then plan.remote && plan.grants > 0 else (if plan.remote then plan.more else plan.grants) > 0)
    || exists k :: k in plan.kids && Sends(k, remotely)
  }

  function Waiting(l: Level): nat {
    if l.from <= |l.works| then |l.works| - l.from else 0
  }

  /** The number of children of the chain node at level i. */
  function Attached(levels: seq<Level>, i: nat): nat
    requires i < |levels|
  {
    Waiting(levels[i]) + if i + 1 < |levels| then 1 else 0
  }

  /** The loop of try_correct_root. */
  function Slid(levels: seq<Level>, lo: nat, limit: nat): (r: nat)
    requires limit <= |levels|
    ensures lo <= r && (r <= limit || r == lo)
    ensures r < limit ==> Attached(levels, r) != 1
    ensures forall i | lo <= i < r :: Attached(levels, i) == 1
    decreases limit - lo
  {
    if lo < limit && Attached(levels, lo) == 1 then Slid(levels, lo + 1, limit) else lo
  }

  function Last(t: Trace): Level
    requires t.levels != []
  {
    t.levels[|t.levels| - 1]
  }

  /** try_correct_root on the last chain node: it is passed only if it is the root itself. */
  function Settled(t: Trace): (r: Trace)
    requires t.levels != []
    ensures r.levels == t.levels && r.order == t.order
  {
    t.(lo := Slid(t.levels, t.lo, if t.lo < |t.levels| - 1 then |t.levels| - 1 else |t.levels|))
  }

  /** The thread root has a second child above the submitted node. */
  predicate HasAbove(t: Trace) {
    t.lo + 1 < |t.levels| && Waiting(t.levels[t.lo]) > 0
  }

  function PushedAbove(t: Trace): (r: Trace)
    requires HasAbove(t)
    ensures |r.levels| == |t.levels| && Last(r) == Last(t) && r.order == t.order
  {
    var levels := t.levels[t.lo := t.levels[t.lo].(from := t.levels[t.lo].from + 1)];
    t.(levels := levels, lo := Slid(levels, t.lo, |levels|))
  }

  /** The levels once the next child of the last one is gone. */
  function Shrunk(levels: seq<Level>): (r: seq<Level>)
    requires levels != []
    ensures |r| == |levels|
  {
    var d := |levels| - 1;
    levels[d := levels[d].(at := levels[d].at + 1, from := levels[d].from + 1)]
  }

  /** The next child of the last level is gone: taken out, or declined by its initializer. */
  function TakenLast(t: Trace): (r: Trace)
    requires t.levels != []
    ensures |r.levels| == |t.levels| && r.order == t.order
  {
    Settled(t.(levels := Shrunk(t.levels)))
  }

  predicate NoneAbove(t: Trace) {
    forall j | 0 <= j < |t.levels| - 1 :: Waiting(t.levels[j]) == 0
  }

  /** send: the trace after it, and whether the submitted node left. It is handed over if it is worth running. */
  function Sent(t: Trace, worthy: bool, grants: nat): (r: (Trace, bool))
    requires t.levels != []
    ensures |r.0.levels| == |t.levels| && (!r.1 ==> Last(r.0) == Last(t)) && r.0.order.Follows(t.order)
    decreases grants
  {
    if grants == 0 then (t, false)
    else if HasAbove(t) then Sent(PushedAbove(t), worthy, grants - 1)
    else (TakenLast(t).(order := t.order.Noted(NoneAbove(t), worthy)), true)
  }

  /** The next child of the last level starts to run. */
  function Entered(t: Trace): (r: Trace)
    requires t.levels != []
    ensures |r.levels| == |t.levels| + 1 && r.order == t.order
  {
    var d := |t.levels| - 1;
    t.(levels := t.levels[d := Last(t).(from := Last(t).from + 1)] + [Level([], 0, 0)])
  }

  /** The levels once the last chain node is gone. */
  function Cut(levels: seq<Level>): (r: seq<Level>)
    requires |levels| >= 2
    ensures |r| == |levels| - 1
  {
    var d := |levels| - 1;
    levels[..d][d - 1 := levels[d - 1].(at := levels[d - 1].at + 1)]
  }

  /** The last chain node has run and is pruned; the root is corrected from its parent. */
  function Left(t: Trace): (r: Trace)
    requires |t.levels| >= 2
    ensures |r.levels| == |t.levels| - 1 && r.order == t.order
  {
    Settled(t.(levels := Cut(t.levels), lo := if t.lo < |t.levels| - 1 then t.lo else |t.levels| - 1))
  }

  /** A child that was taken out before its turn. */
  function Skipped(t: Trace): (r: Trace)
    requires t.levels != []
    ensures |r.levels| == |t.levels| && r.order == t.order
  {
    t.(levels := t.levels[|t.levels| - 1 := Last(t).(at := Last(t).at + 1)])
  }

  function Filled(t: Trace, works: seq<Work>): (r: Trace)
    requires t.levels != []
    ensures |r.levels| == |t.levels| && r.order == t.order && Last(r) == Level(works, 0, 0)
  {
    t.(levels := t.levels[|t.levels| - 1 := Level(works, 0, 0)])
  }

  /** forward of the next child of the last level, whose work is w. */
  function Forwarded(t: Trace, w: Work, plan: Plan): (r: Trace)
    requires t.levels != []
    ensures |r.levels| == |t.levels| && r.order.Follows(t.order)
    decreases w, 1
  {
    if Last(t).at < Last(t).from then Skipped(t)
    else if !w.worthy then TakenLast(t)
    else Left(Body(Entered(t), w, plan))
  }

  /** try_local_submit or try_remote_submit of the first child, whose work is w. */
  function Submitted(t: Trace, w: Work, plan: Plan): (r: Trace)
    requires t.levels != []
    ensures |r.levels| == |t.levels| && r.order.Follows(t.order)
    decreases w, 2
  {
    var (t1, sent) := Sent(t, w.worthy, plan.grants);
    if sent then t1
    else if plan.remote then
      var (t2, sent2) := Sent(t1, w.worthy, plan.more);
      if sent2 then t2 else Forwarded(t2, w, KidPlan(plan, 0))
    else Forwarded(t1, w, KidPlan(plan, 0))
  }

  /** The children of w from the i-th on are forwarded in order. */
  function Rest(t: Trace, w: Work, i: nat, plan: Plan): (r: Trace)
    requires t.levels != []
    ensures |r.levels| == |t.levels| && r.order.Follows(t.order)
    decreases w, 0, |w.kids| - i
  {
    if i >= |w.kids| then t else Rest(Forwarded(t, w.kids[i], KidPlan(plan, i)), w, i + 1, plan)
  }

  /** A body creates all children of w, submits the first and forwards the rest. */
  function Body(t: Trace, w: Work, plan: Plan): (r: Trace)
    requires t.levels != []
    ensures |r.levels| == |t.levels| && r.order.Follows(t.order)
    decreases w, 0, |w.kids| + 1
  {
    if w.kids == [] then Filled(t, []) else Rest(Submitted(Filled(t, w.kids), w.kids[0], plan), w, 1, plan)
  }

  /** A task begins below a dummy node. */
  const START: Trace := Trace([Level([], 0, 0)], 0, Order(true, true))

  /** Every node that send takes out in task w, or hands over if not all count, is the shallowest pending one. */
  predicate InOrder(w: Work, plan: Plan, all: bool) {
    Body(START, w, plan).order.Holds(all)
  }

  /* ---------- how a body can begin ---------- */

  /**
   * Below: the root is above with a pending child. Root: the node is the thread root. Slack: the root is above, and
   * nothing is pending from there down to the node. Astray: the root is above without a pending child, but something
   * is pending between them, which send does not find.
   */
  datatype Start = Below | Root | Slack | Astray

  /** The node is worth running, and its body creates children. */
  predicate Calls(w: Work) {
    w.worthy && w.kids != []
  }

  /** In which ways the i-th of the children kids of a body that begins as s can begin. */
  predicate CanBegin(s: Start, kids: seq<Work>, i: nat, s': Start)
    requires i < |kids|
  {
    var n := |kids|;
    match s
    case Below => s' == Below || (s' == Root && i + 1 == n)
    case Root => s' == if n == 1 then Slack else if i + 1 == n then Root else Below
    case Slack =>
      if n == 1 then s' == Slack
      else if i == 0 then s' == Astray
      else if i + 1 < n then s' == Below
      else if n == 2 then s' == Slack || (s' == Root && Calls(kids[0]))
      else s' == Root
    case Astray => i > 0 && (s' == Below || (s' == Root && i + 1 == n && exists k :: 1 <= k < i && Calls(kids[k])))
  }

  /** Running w, begun in this way, can take out, or hand over, a node past a shallower one. */
  ghost predicate Breaks(w: Work, s: Start, all: bool)
    decreases w, 1
  {
    w.worthy && BodyBreaks(w, s, all)
  }

  ghost predicate BodyBreaks(w: Work, s: Start, all: bool)
    decreases w, 0
  {
    || (s == Astray && w.kids != [] && (all || w.kids[0].worthy))
    || exists i, s' :: 0 <= i < |w.kids| && CanBegin(s, w.kids, i, s') && Breaks(w.kids[i], s', all)
  }

  /* ---------- no breaking node: every plan keeps the order ---------- */

  ghost predicate Drained(levels: seq<Level>, i: int, j: int) {
    forall k | i <= k < j && 0 <= k < |levels| :: Waiting(levels[k]) == 0
  }

  ghost predicate LevelOk(l: Level, inner: bool) {
    l.at <= l.from <= |l.works| && (inner ==> l.at < l.from) && (!inner && l.at == 0 ==> l.from == 0)
  }

  ghost predicate Shaped(t: Trace) {
    && t.levels != [] && t.lo <= |t.levels| && Drained(t.levels, 0, t.lo - if t.lo == |t.levels| then 1 else 0)
    && (t.lo == |t.levels| ==> Waiting(Last(t)) <= 1)
    && (forall i | 0 <= i < |t.levels| :: LevelOk(t.levels[i], i + 1 < |t.levels|))
  }

  /** The chain node at level e has dealt with its first child, and with none since whose body calls send. */
  ghost predicate Quiet(t: Trace, e: nat)
    requires e < |t.levels|
  {
    && (forall k | 1 <= k < t.levels[e].at && k < |t.levels[e].works| :: !Calls(t.levels[e].works[k]))
    && (e + 1 == |t.levels| || (e + 2 == |t.levels| && Last(t).works == []))
  }

  /** The thread root overlooks only the children of the slack node above an astray one, until it reaches them. */
  ghost predicate AstrayFits(t: Trace, starts: seq<Start>, e: nat)
    requires |starts| == |t.levels| && e < |t.levels|
  {
    && e >= 1 && starts[e - 1] == Slack
    && if t.levels[e].from == 0 then
         t.lo + 1 < e && Drained(t.levels, t.lo, e - 1) && Waiting(t.levels[e - 1]) > 0
       else
         e - 1 <= t.lo && (Quiet(t, e) ==> t.lo == e - 1 && Waiting(t.levels[e - 1]) > 0)
  }

  ghost predicate SlackFits(t: Trace, starts: seq<Start>, e: nat)
    requires |starts| == |t.levels| && e < |t.levels|
  {
    var l := t.levels[e];
    && (e <= t.lo || (l.at == 0 && l.from <= 1 && Drained(t.levels, t.lo, e)))
    && (e + 1 < |t.levels| && l.at == 0 && |l.works| >= 2 ==> starts[e + 1] == Astray)
  }

  /** Where the thread root can be, by how the node at level e began. */
  ghost predicate LevelFits(t: Trace, starts: seq<Start>, e: nat)
    requires |starts| == |t.levels| && e < |t.levels|
  {
    match starts[e]
    case Below => true
    case Root => e <= t.lo
    case Slack => SlackFits(t, starts, e)
    case Astray => AstrayFits(t, starts, e)
  }

  /** Where the thread root can be. */
  ghost predicate RootFits(t: Trace, starts: seq<Start>)
    requires t.levels != [] && |starts| == |t.levels|
  {
    var d, l := |t.levels| - 1, Last(t);
    && (forall e | 0 <= e < |t.levels| :: LevelFits(t, starts, e))
    && (t.lo < d && Waiting(t.levels[t.lo]) == 0 ==> l.from == 0 && (starts[d] == Slack || starts[d] == Astray))
    && (t.lo == d && Waiting(l) == 1 ==>
         || (|l.works| == 1 && starts[d] == Root)
         || (|l.works| == 2 && l.at == 1 && starts[d] == Slack))
    && (l.from == 0 && starts[d] == Root ==> t.lo == d)
    && (l.from == 0 && starts[d] == Slack ==> t.lo < d)
    && (t.lo > d && starts[d] == Slack && |l.works| == 2 && l.at == l.from == 1 ==> Calls(l.works[0]))
  }

  /** No pending node breaks the order, however its turn comes. */
  ghost predicate Harmless(levels: seq<Level>, starts: seq<Start>, all: bool)
    requires |starts| == |levels|
  {
    && (forall i | 0 <= i < |levels| && starts[i] == Astray && levels[i].works != [] ::
          !all && !levels[i].works[0].worthy)
    && (forall i, k, s | 0 <= i < |levels| && levels[i].from <= k < |levels[i].works|
                         && CanBegin(starts[i], levels[i].works, k, s) :: !Breaks(levels[i].works[k], s, all))
  }

  ghost predicate Steady(t: Trace, starts: seq<Start>, all: bool) {
    && Shaped(t) && |starts| == |t.levels| && t.order.Holds(all)
    && RootFits(t, starts) && Harmless(t.levels, starts, all)
  }

  /** The next child of the last level is pending. */
  ghost predicate Ready(t: Trace) {
    t.levels != [] && Last(t).at == Last(t).from < |Last(t).works|
  }

  /** The levels above the last one, but for what was taken from them. */
  ghost predicate Kept(t: Trace, r: Trace) {
    && |r.levels| == |t.levels| > 0
    && forall i | 0 <= i < |t.levels| - 1 ::
         r.levels[i].works == t.levels[i].works && r.levels[i].at == t.levels[i].at
           && t.levels[i].from <= r.levels[i].from
  }

  /** What handling the next child does to the levels. */
  ghost predicate Handled(t: Trace, r: Trace) {
    Kept(t, r) && Last(r).works == Last(t).works && Last(r).at == Last(t).at + 1
  }

  /** While the first child is to be sent, only a body that began below the root has a pending child to push. */
  lemma PushesBelow(t: Trace, starts: seq<Start>, all: bool)
    requires Steady(t, starts, all) && Ready(t) && Last(t).at == 0 && HasAbove(t)
    ensures starts[|t.levels| - 1] == Below
  {
    hide Harmless;
    assert LevelOk(Last(t), false) && LevelFits(t, starts, |t.levels| - 1);
  }

  lemma PushedLo(t: Trace)
    requires HasAbove(t)
    ensures var d, r := |t.levels| - 1, PushedAbove(t);
            && (forall i | 0 <= i < |r.levels| && i != t.lo :: r.levels[i] == t.levels[i])
            && t.lo <= r.lo <= d + 1 && (r.lo < d ==> Waiting(r.levels[r.lo]) > 0)
            && (r.lo == d ==> Waiting(Last(t)) != 1) && (r.lo == d + 1 ==> Waiting(Last(t)) == 1)
            && Drained(r.levels, t.lo, if r.lo < d then r.lo else d)
  {
    var d, r := |t.levels| - 1, PushedAbove(t);
    forall i | t.lo <= i < r.lo && i < d ensures Waiting(r.levels[i]) == 0 {
      assert Attached(r.levels, i) == 1;
    }
    assert r.lo == d + 1 ==> Attached(r.levels, d) == 1;
  }

  lemma PushedShaped(t: Trace)
    requires Shaped(t) && HasAbove(t)
    ensures Shaped(PushedAbove(t)) && Kept(t, PushedAbove(t))
  {
    PushedLo(t);
    var r := PushedAbove(t);
    hide Slid;
    forall i | 0 <= i < |r.levels| ensures LevelOk(r.levels[i], i + 1 < |r.levels|) {
      assert LevelOk(t.levels[i], i + 1 < |r.levels|);
    }
  }

  lemma PushedLevels(t: Trace, starts: seq<Start>, e: nat)
    requires HasAbove(t) && |starts| == |t.levels| && Last(t).works != [] && e < |t.levels| && LevelFits(t, starts, e)
    requires Last(t).from == 0 && starts[|t.levels| - 1] == Below
    ensures LevelFits(PushedAbove(t), starts, e)
  {
    PushedLo(t);
    hide Calls, Slid;
    assert e + 1 < |t.levels| ==> e == t.lo || PushedAbove(t).levels[e] == t.levels[e];
  }

  lemma PushedHarmless(t: Trace, starts: seq<Start>, all: bool)
    requires HasAbove(t) && |starts| == |t.levels| && Harmless(t.levels, starts, all)
    ensures Harmless(PushedAbove(t).levels, starts, all)
  {
    PushedLo(t);
    hide Breaks, CanBegin, Slid;
    var r := PushedAbove(t).levels;
    assert forall i | 0 <= i < |r| :: r[i].works == t.levels[i].works && t.levels[i].from <= r[i].from;
  }

  lemma SteadyPushedAbove(t: Trace, starts: seq<Start>, all: bool)
    requires Steady(t, starts, all) && Ready(t) && Last(t).at == 0 && HasAbove(t)
    ensures Steady(PushedAbove(t), starts, all) && Kept(t, PushedAbove(t))
  {
    PushesBelow(t, starts, all);
    PushedLo(t);
    PushedShaped(t);
    PushedHarmless(t, starts, all);
    forall e: nat | e < |t.levels| ensures LevelFits(PushedAbove(t), starts, e) {
      PushedLevels(t, starts, e);
    }
    hide Harmless, LevelFits, Shaped, PushedAbove, Drained;
  }

  /** send takes the submitted node past a pending one only where it is discarded and discarded nodes do not count. */
  lemma LeavesLast(t: Trace, starts: seq<Start>, all: bool)
    requires Steady(t, starts, all) && Ready(t) && Last(t).at == 0 && !HasAbove(t)
    ensures NoneAbove(t) || (!all && !Last(t).works[0].worthy)
  {
    hide Breaks, CanBegin;
    var d := |t.levels| - 1;
    assert LevelFits(t, starts, d);
  }

  /** Correcting the root from here leaves it where it may be. */
  ghost predicate Correctible(t: Trace, starts: seq<Start>)
    requires t.levels != [] && |starts| == |t.levels|
  {
    var d, l := |t.levels| - 1, Last(t);
    && l.at >= 1
    && (forall e | 0 <= e < d :: LevelFits(t, starts, e))
    && (starts[d] == Root ==> d <= t.lo)
    && (starts[d] == Slack ==>
         && (t.lo < d ==> l.at == 1 == l.from && Drained(t.levels, t.lo, d))
         && (d <= t.lo && |l.works| == 2 && l.at == l.from == 1 ==> Calls(l.works[0])))
    && (starts[d] == Astray ==>
         && d >= 1 && starts[d - 1] == Slack
         && (t.lo + 1 < d ==> Drained(t.levels, t.lo, d - 1) && Waiting(t.levels[d - 1]) > 0)
         && (Quiet(t, d) ==> t.lo < d && Waiting(t.levels[d - 1]) > 0))
    && (t.lo < d && Waiting(t.levels[t.lo]) == 0 ==>
         || (starts[d] == Astray && t.lo + 1 < d)
         || (Drained(t.levels, t.lo, d)
             && (Waiting(l) == 1 ==> |l.works| == 2 && l.at == 1 && starts[d] == Slack)))
  }

  /** With nothing pending before level e, the root slides there, and no further if something is pending below it. */
  lemma SlidTo(levels: seq<Level>, lo: nat, e: nat, limit: nat)
    requires lo <= e <= limit < |levels| && Drained(levels, lo, e)
    ensures Slid(levels, lo, limit) >= e
    ensures e < limit && Attached(levels, e) != 1 ==> Slid(levels, lo, limit) == e
  {
    var r := Slid(levels, lo, limit);
    assert forall k | lo <= k < e :: Attached(levels, k) == 1;
    if e < r {
      assert Attached(levels, e) == 1;
    }
  }

  /** Where the root slides to from a correctible state. */
  lemma SettledLo(t: Trace, starts: seq<Start>)
    requires t.levels != [] && |starts| == |t.levels| && Correctible(t, starts)
    ensures var d, r := |t.levels| - 1, Settled(t).lo;
            && (t.lo < d && Waiting(t.levels[t.lo]) > 0 ==> r == t.lo)
            && (t.lo < d && Waiting(t.levels[t.lo]) == 0 ==>
                 r == if starts[d] == Astray && t.lo + 1 < d then d - 1 else d)
            && (t.lo == d ==> r == if Waiting(Last(t)) == 1 then d + 1 else d)
            && (t.lo > d ==> r == t.lo)
  {
    hide LevelFits;
    var d := |t.levels| - 1;
    if t.lo < d && Waiting(t.levels[t.lo]) == 0 {
      SlidTo(t.levels, t.lo, if starts[d] == Astray && t.lo + 1 < d then d - 1 else d, d);
    }
  }

  lemma SettledLevels(t: Trace, starts: seq<Start>, e: nat)
    requires Shaped(t) && |starts| == |t.levels| && Correctible(t, starts) && e < |t.levels|
    ensures LevelFits(Settled(t), starts, e)
  {
    SettledLo(t, starts);
    hide CanBegin, Calls, Slid;
    assert LevelOk(Last(t), false);
    assert e + 1 < |t.levels| ==> LevelFits(t, starts, e);
  }

  lemma SettledFits(t: Trace, starts: seq<Start>, all: bool)
    requires Shaped(t) && |starts| == |t.levels| && t.order.Holds(all) && Harmless(t.levels, starts, all)
    requires Correctible(t, starts)
    ensures Steady(Settled(t), starts, all)
  {
    forall e: nat | e < |t.levels| ensures LevelFits(Settled(t), starts, e) {
      SettledLevels(t, starts, e);
    }
    SettledLo(t, starts);
    SettledShaped(t);
    assert LevelOk(Last(t), false);
    hide Harmless, LevelFits, Settled, Drained;
    assert Last(Settled(t)) == Last(t) && Last(t).from != 0;
    assert RootFits(Settled(t), starts);
  }

  lemma SettledShaped(t: Trace)
    requires Shaped(t)
    ensures Shaped(Settled(t))
  {
    var r := Settled(t);
    forall i | t.lo <= i < r.lo && i + 1 < |t.levels| ensures Waiting(t.levels[i]) == 0 {
      assert Attached(t.levels, i) == 1;
    }
    assert t.lo < r.lo == |t.levels| ==> Attached(t.levels, |t.levels| - 1) == 1;
  }

  lemma ShrunkShaped(t: Trace)
    requires Shaped(t) && Ready(t)
    ensures Shaped(t.(levels := Shrunk(t.levels)))
    ensures forall i | 0 <= i < |t.levels| - 1 :: Shrunk(t.levels)[i] == t.levels[i]
  {
    var r := Shrunk(t.levels);
    forall i | 0 <= i < |r| ensures LevelOk(r[i], i + 1 < |r|) {
      assert LevelOk(t.levels[i], i + 1 < |r|);
    }
  }

  lemma ShrunkHarmless(t: Trace, starts: seq<Start>, all: bool)
    requires Steady(t, starts, all) && Ready(t)
    ensures Harmless(Shrunk(t.levels), starts, all)
  {
    hide Breaks, CanBegin, Shaped, RootFits;
  }

  lemma ShrunkFits(t: Trace, starts: seq<Start>, all: bool)
    requires Steady(t, starts, all) && Ready(t)
    ensures Correctible(t.(levels := Shrunk(t.levels)), starts)
  {
    hide Breaks, CanBegin, Harmless, Calls;
    var r, d := t.(levels := Shrunk(t.levels)), |t.levels| - 1;
    assert LevelOk(Last(t), false);
    forall e | 0 <= e < d ensures LevelFits(r, starts, e) {
      assert LevelFits(t, starts, e);
    }
    assert LevelFits(t, starts, d);
  }

  lemma ShrunkHandled(t: Trace)
    requires t.levels != []
    ensures Handled(t, TakenLast(t))
  {
    hide Settled;
  }

  lemma SteadyTaken(t: Trace, starts: seq<Start>, all: bool)
    requires Steady(t, starts, all) && Ready(t)
    ensures Steady(TakenLast(t), starts, all) && Handled(t, TakenLast(t))
  {
    ShrunkShaped(t);
    ShrunkHarmless(t, starts, all);
    ShrunkFits(t, starts, all);
    ShrunkHandled(t);
    hide Shaped, Harmless, Correctible, RootFits, Shrunk, Settled;
    SettledFits(t.(levels := Shrunk(t.levels)), starts, all);
  }

  lemma SteadyNoted(t: Trace, starts: seq<Start>, all: bool, o: Order)
    requires Steady(t, starts, all) && o.Holds(all)
    ensures Steady(t.(order := o), starts, all)
  {
    hide Harmless;
    var r := t.(order := o);
    forall e | 0 <= e < |t.levels| ensures LevelFits(r, starts, e) {
      assert LevelFits(t, starts, e);
    }
  }

  lemma {:induction false} SteadySent(t: Trace, starts: seq<Start>, all: bool, grants: nat)
    requires Steady(t, starts, all) && Ready(t) && Last(t).at == 0
    ensures var (r, sent) := Sent(t, Last(t).works[0].worthy, grants);
            && Steady(r, starts, all) && Kept(t, r) && Last(r).works == Last(t).works
            && (if sent then Last(r).at == 1 else Last(r) == Last(t))
    decreases grants
  {
    hide Shaped, RootFits, Harmless, PushedAbove, TakenLast;
    if grants > 0 {
      if HasAbove(t) {
        SteadyPushedAbove(t, starts, all);
        SteadySent(PushedAbove(t), starts, all, grants - 1);
      } else {
        LeavesLast(t, starts, all);
        SteadyTaken(t, starts, all);
        SteadyNoted(TakenLast(t), starts, all, t.order.Noted(NoneAbove(t), Last(t).works[0].worthy));
      }
    }
  }

  /** How the next child begins. */
  ghost function Begun(t: Trace): Start
    requires t.levels != [] && t.lo <= |t.levels|
  {
    var d, l := |t.levels| - 1, Last(t);
    if t.lo > d then Root
    else if t.lo == d then (if Waiting(l) > 1 then Below else Slack)
    else if Waiting(t.levels[t.lo]) > 0 then Below
    else if |l.works| == 1 then Slack
    else Astray
  }

  /** The next child is about to run. */
  ghost predicate Turn(t: Trace, starts: seq<Start>, all: bool) {
    Steady(t, starts, all) && Ready(t) && Last(t).works[Last(t).at].worthy
  }

  lemma NotAstrayFirst(t: Trace, starts: seq<Start>, all: bool)
    requires Turn(t, starts, all)
    ensures starts[|t.levels| - 1] == Astray ==> Last(t).at > 0
  {
    hide Breaks, CanBegin, RootFits, Shaped;
  }

  lemma BegunFits(t: Trace, starts: seq<Start>, all: bool)
    requires Turn(t, starts, all)
    ensures CanBegin(starts[|t.levels| - 1], Last(t).works, Last(t).at, Begun(t))
  {
    NotAstrayFirst(t, starts, all);
    hide Breaks, Harmless;
    assert LevelFits(t, starts, |t.levels| - 1);
  }

  lemma EnteredHarmless(t: Trace, starts: seq<Start>, all: bool)
    requires Turn(t, starts, all)
    ensures t.lo <= |t.levels| && Harmless(Entered(t).levels, starts + [Begun(t)], all)
  {
    LastOk(t, starts, all);
    hide Breaks, CanBegin, RootFits, Shaped, Begun;
    var levels, more := Entered(t).levels, starts + [Begun(t)];
    forall i | 0 <= i < |t.levels|
      ensures more[i] == starts[i] && levels[i].works == t.levels[i].works && levels[i].from >= t.levels[i].from
    {
    }
  }

  lemma EnteredShaped(t: Trace, starts: seq<Start>, all: bool)
    requires Turn(t, starts, all)
    ensures Shaped(Entered(t))
  {
    hide Breaks, CanBegin, Harmless;
    var d := |t.levels| - 1;
    var e := Entered(t);
    assert forall i | 0 <= i < d :: e.levels[i] == t.levels[i];
    assert LevelOk(Last(t), false);
  }

  lemma EnteredLevels(t: Trace, starts: seq<Start>, all: bool, e: nat)
    requires Turn(t, starts, all) && e <= |t.levels|
    ensures t.lo <= |t.levels| && LevelFits(Entered(t), starts + [Begun(t)], e)
  {
    NotAstrayFirst(t, starts, all);
    BegunFits(t, starts, all);
    hide Breaks, Harmless, Calls;
    var d, r := |t.levels| - 1, Entered(t);
    assert forall i | 0 <= i < d :: r.levels[i] == t.levels[i];
    assert LevelFits(t, starts, if e <= d then e else d);
    assert LevelOk(Last(t), false);
  }

  lemma EnteredFits(t: Trace, starts: seq<Start>, all: bool)
    requires Turn(t, starts, all)
    ensures t.lo <= |t.levels| && RootFits(Entered(t), starts + [Begun(t)])
  {
    forall e: nat | e <= |t.levels| ensures t.lo <= |t.levels| && LevelFits(Entered(t), starts + [Begun(t)], e) {
      EnteredLevels(t, starts, all, e);
    }
    var r := Entered(t);
    hide Harmless, LevelFits, CanBegin;
    assert forall i | 0 <= i < |t.levels| - 1 :: r.levels[i] == t.levels[i];
  }

  lemma SteadyEntered(t: Trace, starts: seq<Start>, all: bool)
    requires Turn(t, starts, all)
    ensures var w, s := Last(t).works[Last(t).at], Begun(t);
            && !BodyBreaks(w, s, all) && Last(Entered(t)) == Level([], 0, 0) && Entered(t).lo < |Entered(t).levels|
            && (Entered(t).lo + 1 == |Entered(t).levels| ==> s == Root)
            && Steady(Entered(t), starts + [s], all)
  {
    BegunFits(t, starts, all);
    EnteredShaped(t, starts, all);
    EnteredFits(t, starts, all);
    EnteredHarmless(t, starts, all);
    hide CanBegin, RootFits, BodyBreaks;
    assert !Breaks(Last(t).works[Last(t).at], Begun(t), all);
  }

  lemma BodyHarmless(w: Work, s: Start, all: bool)
    requires !BodyBreaks(w, s, all)
    ensures s == Astray && w.kids != [] ==> !all && !w.kids[0].worthy
    ensures forall k, s' | 0 <= k < |w.kids| && CanBegin(s, w.kids, k, s') :: !Breaks(w.kids[k], s', all)
  {
    hide CanBegin, Breaks;
  }

  lemma FilledHarmless(t: Trace, starts: seq<Start>, all: bool, w: Work)
    requires Steady(t, starts, all) && !BodyBreaks(w, starts[|t.levels| - 1], all)
    ensures t.levels != [] && Harmless(Filled(t, w.kids).levels, starts, all)
  {
    LastOk(t, starts, all);
    BodyHarmless(w, starts[|t.levels| - 1], all);
    hide CanBegin, Breaks, BodyBreaks, Shaped, RootFits;
    var r, d := Filled(t, w.kids), |t.levels| - 1;
    assert forall i | 0 <= i < d :: r.levels[i] == t.levels[i];
    assert r.levels[d].works == w.kids;
  }

  lemma FilledLevels(t: Trace, starts: seq<Start>, w: Work, e: nat)
    requires |starts| == |t.levels| && e < |t.levels| && LevelFits(t, starts, e) && Last(t) == Level([], 0, 0)
    ensures LevelFits(Filled(t, w.kids), starts, e)
  {
    hide Calls;
    var r := Filled(t, w.kids);
    assert forall i | 0 <= i < |t.levels| - 1 :: r.levels[i] == t.levels[i];
  }

  lemma SteadyFilled(t: Trace, starts: seq<Start>, all: bool, w: Work)
    requires Steady(t, starts, all) && Last(t) == Level([], 0, 0)
    requires var d := |t.levels| - 1; t.lo <= d && (t.lo == d ==> starts[d] == Root)
    requires !BodyBreaks(w, starts[|t.levels| - 1], all)
    ensures Steady(Filled(t, w.kids), starts, all) && Kept(t, Filled(t, w.kids))
    ensures w.kids != [] ==> Ready(Filled(t, w.kids))
  {
    FilledHarmless(t, starts, all, w);
    hide CanBegin, BodyBreaks, Harmless, Calls;
    var r := Filled(t, w.kids);
    assert forall i | 0 <= i < |t.levels| - 1 :: r.levels[i] == t.levels[i];
    forall e: nat | e < |r.levels| ensures LevelFits(r, starts, e) {
      FilledLevels(t, starts, w, e);
    }
    hide LevelFits;
  }

  lemma SkippedLevels(t: Trace, starts: seq<Start>, e: nat)
    requires |starts| == |t.levels| && e < |t.levels| && LevelFits(t, starts, e) && 0 < Last(t).at < Last(t).from
    ensures LevelFits(Skipped(t), starts, e)
  {
    var r := Skipped(t);
    assert forall i | 0 <= i < |t.levels| - 1 :: r.levels[i] == t.levels[i];
  }

  lemma SteadySkipped(t: Trace, starts: seq<Start>, all: bool)
    requires Steady(t, starts, all) && Last(t).at < Last(t).from
    ensures Steady(Skipped(t), starts, all) && Kept(t, Skipped(t)) && Last(Skipped(t)).at == Last(t).at + 1
    ensures Last(Skipped(t)).works == Last(t).works
  {
    LastOk(t, starts, all);
    SkippedHarmless(t, starts, all);
    hide Harmless, Calls;
    var r := Skipped(t);
    assert forall i | 0 <= i < |t.levels| - 1 :: r.levels[i] == t.levels[i];
    forall e: nat | e < |r.levels| ensures LevelFits(r, starts, e) {
      SkippedLevels(t, starts, e);
    }
    hide LevelFits;
  }

  lemma SkippedHarmless(t: Trace, starts: seq<Start>, all: bool)
    requires t.levels != [] && |starts| == |t.levels| && Harmless(t.levels, starts, all)
    ensures Harmless(Skipped(t).levels, starts, all)
  {
    hide CanBegin, Breaks;
    var r := Skipped(t);
    assert forall i | 0 <= i < |t.levels| ::
        r.levels[i].works == t.levels[i].works && r.levels[i].from == t.levels[i].from;
  }

  /** The body of the last chain node is over. */
  ghost predicate Over(t: Trace) {
    t.levels != [] && Last(t).at == Last(t).from == |Last(t).works|
  }

  lemma CutHarmless(levels: seq<Level>, starts: seq<Start>, s: Start, all: bool)
    requires |levels| == |starts| + 1 >= 2 && Harmless(levels, starts + [s], all)
    ensures Harmless(Cut(levels), starts, all)
  {
    hide CanBegin, Breaks;
    forall i | 0 <= i < |starts|
      ensures Cut(levels)[i].works == levels[i].works && Cut(levels)[i].from == levels[i].from
    {
    }
    assert forall i | 0 <= i < |starts| :: (starts + [s])[i] == starts[i];
  }

  lemma CutShaped(m: Trace)
    requires Shaped(m) && |m.levels| >= 2
    ensures Shaped(Unsettled(m))
    ensures forall i | 0 <= i < |m.levels| - 1 :: Waiting(Cut(m.levels)[i]) == Waiting(m.levels[i])
  {
    var r := Cut(m.levels);
    forall i | 0 <= i < |r| ensures LevelOk(r[i], i + 1 < |r|) && Waiting(r[i]) == Waiting(m.levels[i]) {
      assert LevelOk(m.levels[i], true);
    }
  }

  /** The trace when the last chain node has left, before the root is corrected. */
  ghost function Unsettled(m: Trace): (r: Trace)
    requires |m.levels| >= 2
    ensures r.levels != []
  {
    m.(levels := Cut(m.levels), lo := if m.lo < |m.levels| - 1 then m.lo else |m.levels| - 1)
  }

  /** The last chain node has run the work of the next child above it. */
  ghost predicate Returning(m: Trace, starts: seq<Start>, s: Start, all: bool, w: Work) {
    && Steady(m, starts + [s], all) && Over(m) && starts != [] && w.worthy && Last(m).works == w.kids
    && var l := m.levels[|starts| - 1]; l.at < |l.works| && l.works[l.at] == w
  }

  /** The first child of a body that goes astray does not run. */
  lemma NotFirstAstray(m: Trace, starts: seq<Start>, s: Start, all: bool, w: Work)
    requires Returning(m, starts, s, all, w)
    ensures starts[|starts| - 1] == Astray ==> m.levels[|starts| - 1].at > 0
  {
    hide Breaks, CanBegin, RootFits, Shaped;
    assert (starts + [s])[|starts| - 1] == starts[|starts| - 1];
  }

  lemma CutLevels(m: Trace, starts: seq<Start>, s: Start, all: bool, w: Work, e: nat)
    requires Returning(m, starts, s, all, w) && e < |starts| - 1
    ensures |m.levels| >= 2 && LevelFits(Unsettled(m), starts, e)
  {
    hide Harmless, CanBegin, Shaped;
    CutShaped(m);
    var r, more := Unsettled(m), starts + [s];
    assert LevelFits(m, more, e) && more[e] == starts[e] && r.levels[e] == m.levels[e];
    assert more[e + 1] == starts[e + 1];
    assert e > 0 ==> more[e - 1] == starts[e - 1] && r.levels[e - 1] == m.levels[e - 1];
  }

  lemma CutFits(m: Trace, starts: seq<Start>, s: Start, all: bool, w: Work)
    requires Returning(m, starts, s, all, w)
    ensures |m.levels| >= 2 && Correctible(Unsettled(m), starts)
  {
    NotFirstAstray(m, starts, s, all, w);
    hide Harmless, CanBegin;
    var d, more := |starts| - 1, starts + [s];
    CutShaped(m);
    assert LevelOk(m.levels[d], true) && LevelOk(Last(m), false);
    assert LevelFits(m, more, d) && LevelFits(m, more, d + 1) && more[d] == starts[d] && more[d + 1] == s;
    assert d > 0 ==> more[d - 1] == starts[d - 1];
    forall e: nat | e < d ensures LevelFits(Unsettled(m), starts, e) {
      CutLevels(m, starts, s, all, w, e);
    }
  }

  lemma SteadyLeft(m: Trace, starts: seq<Start>, s: Start, all: bool, w: Work)
    requires Returning(m, starts, s, all, w)
    ensures Steady(Left(m), starts, all)
  {
    CutHarmless(m.levels, starts, s, all);
    CutShaped(m);
    CutFits(m, starts, s, all, w);
    hide Harmless, Shaped, RootFits, Correctible, Cut, Settled;
    SettledFits(Unsettled(m), starts, all);
  }

  lemma LeftHandled(t: Trace, m: Trace)
    requires t.levels != [] && Kept(Entered(t), m)
    ensures Handled(t, Left(m))
  {
    var d := |t.levels| - 1;
    assert Entered(t).levels[d] == t.levels[d].(from := t.levels[d].from + 1);
    assert forall i | 0 <= i < d :: Entered(t).levels[i] == t.levels[i];
  }

  lemma {:induction false} SteadyForwarded(t: Trace, starts: seq<Start>, all: bool, w: Work, plan: Plan)
    requires Steady(t, starts, all) && Last(t).at < |Last(t).works| && w == Last(t).works[Last(t).at]
    ensures Steady(Forwarded(t, w, plan), starts, all) && Handled(t, Forwarded(t, w, plan))
    decreases w, 1
  {
    hide Steady, Kept, Begun, Left, BodyBreaks;
    LastOk(t, starts, all);
    if Last(t).at < Last(t).from {
      SteadySkipped(t, starts, all);
    } else if !w.worthy {
      SteadyTaken(t, starts, all);
    } else {
      SteadyEntered(t, starts, all);
      SteadyBody(Entered(t), starts + [Begun(t)], all, w, plan);
      var m := Body(Entered(t), w, plan);
      LeftHandled(t, m);
      RunsOn(t, m);
      SteadyLeft(m, starts, Begun(t), all, w);
    }
  }

  /** While a child runs, its parent's list does not change. */
  lemma RunsOn(t: Trace, m: Trace)
    requires t.levels != [] && Kept(Entered(t), m)
    ensures var l := m.levels[|t.levels| - 1]; l.works == Last(t).works && l.at == Last(t).at
  {
    assert Entered(t).levels[|t.levels| - 1] == Last(t).(from := Last(t).from + 1);
  }

  lemma LastOk(t: Trace, starts: seq<Start>, all: bool)
    requires Steady(t, starts, all)
    ensures t.levels != [] && |starts| == |t.levels| && t.lo <= |t.levels|
    ensures t.order.Holds(all) && Last(t).at <= Last(t).from <= |Last(t).works|
    ensures Last(t).at == 0 ==> Last(t).from == 0
  {
    assert LevelOk(t.levels[|t.levels| - 1], false);
  }

  lemma {:induction false} SteadyBody(t: Trace, starts: seq<Start>, all: bool, w: Work, plan: Plan)
    requires Steady(t, starts, all) && Last(t) == Level([], 0, 0)
    requires var d := |t.levels| - 1; t.lo <= d && (t.lo == d ==> starts[d] == Root) && !BodyBreaks(w, starts[d], all)
    ensures var r := Body(t, w, plan); Steady(r, starts, all) && Kept(t, r) && Over(r) && Last(r).works == w.kids
    decreases w, 0, |w.kids| + 1
  {
    var f := Filled(t, w.kids);
    SteadyFilled(t, starts, all, w);
    if w.kids != [] {
      SteadySubmitted(f, starts, all, w.kids[0], plan);
      var r := Submitted(f, w.kids[0], plan);
      hide Steady, Kept, Filled, BodyBreaks, Submitted, Rest;
      HandledKept(t, f, r);
      SteadyRest(r, starts, all, w, 1, plan);
      KeptTwice(t, r, Rest(r, w, 1, plan));
    }
  }

  lemma {:induction false} SteadySubmitted(t: Trace, starts: seq<Start>, all: bool, w: Work, plan: Plan)
    requires Steady(t, starts, all) && Ready(t) && Last(t).at == 0 && w == Last(t).works[0]
    ensures Steady(Submitted(t, w, plan), starts, all) && Handled(t, Submitted(t, w, plan))
    decreases w, 2
  {
    hide Steady, Kept, Forwarded;
    var (t1, sent) := Sent(t, w.worthy, plan.grants);
    SteadySent(t, starts, all, plan.grants);
    if !sent {
      var more := if plan.remote then plan.more else 0;
      var (t2, sent2) := Sent(t1, w.worthy, more);
      SteadySent(t1, starts, all, more);
      KeptTwice(t, t1, t2);
      if !sent2 {
        SteadyForwarded(t2, starts, all, w, KidPlan(plan, 0));
        HandledKept(t, t2, Forwarded(t2, w, KidPlan(plan, 0)));
      }
    }
  }

  lemma KeptTwice(a: Trace, b: Trace, c: Trace)
    requires Kept(a, b) && Kept(b, c)
    ensures Kept(a, c)
  {
  }

  lemma HandledKept(a: Trace, b: Trace, c: Trace)
    requires Kept(a, b) && Handled(b, c)
    ensures Kept(a, c) && Last(c).works == Last(b).works && Last(c).at == Last(b).at + 1
  {
  }

  lemma {:induction false} SteadyRest(t: Trace, starts: seq<Start>, all: bool, w: Work, i: nat, plan: Plan)
    requires Steady(t, starts, all) && Last(t).works == w.kids && Last(t).at == i <= |w.kids|
    ensures var r := Rest(t, w, i, plan); Steady(r, starts, all) && Kept(t, r) && Over(r) && Last(r).works == w.kids
    decreases w, 0, |w.kids| - i
  {
    hide Steady, Forwarded;
    LastOk(t, starts, all);
    if i < |w.kids| {
      SteadyForwarded(t, starts, all, w.kids[i], KidPlan(plan, i));
      SteadyRest(Forwarded(t, w.kids[i], KidPlan(plan, i)), starts, all, w, i + 1, plan);
    }
  }

  /** A task none of whose paths leads astray keeps the order, whatever locks, pool and channel do. */
  lemma HarmlessIsInOrder(w: Work, plan: Plan, all: bool)
    requires !BodyBreaks(w, Root, all)
    ensures InOrder(w, plan, all)
  {
    hide BodyBreaks;
    SteadyBody(START, [Root], all, w, plan);
  }

  /** Nodes that create no child or at least two never break the order. */
  lemma {:induction false} WideIsHarmless(w: Work, s: Start, all: bool)
    requires Wide(w) && (s == Below || s == Root)
    ensures !BodyBreaks(w, s, all)
    decreases w
  {
    forall i, s' | 0 <= i < |w.kids| && CanBegin(s, w.kids, i, s') ensures !Breaks(w.kids[i], s', all) {
      WideIsHarmless(w.kids[i], s', all);
    }
  }

  /** Every node creates no child or at least two. */
  ghost predicate Wide(w: Work) {
    |w.kids| != 1 && forall k | k in w.kids :: Wide(k)
  }

  /* ---------- a breaking node: some plan loses the order ---------- */

  /** The running body of the last chain node begins in this way. */
  ghost predicate Begins(t: Trace, s: Start) {
    && t.levels != [] && Last(t) == Level([], 0, 0)
    && var d := |t.levels| - 1;
       match s
       case Below => t.lo < d && Waiting(t.levels[t.lo]) > 0
       case Root => t.lo == d
       case Slack => t.lo < d && Drained(t.levels, t.lo, d)
       case Astray => t.lo + 1 < d && Drained(t.levels, t.lo, d - 1) && Waiting(t.levels[d - 1]) > 0
  }

  /** The last level with its first k children dealt with, and the root where it is then. */
  ghost function Past(t: Trace, k: nat, lo: nat): (r: Trace)
    requires t.levels != []
    ensures |r.levels| == |t.levels|
  {
    t.(levels := t.levels[|t.levels| - 1 := Level(Last(t).works, k, k)], lo := lo)
  }

  /** With sends refused, a child that begins below its root leaves as if it had been taken. */
  lemma {:induction false} RefusedForward(t: Trace, w: Work)
    requires Ready(t) && t.lo <= |t.levels|
    requires !w.worthy || w.kids == [] || (t.lo < |t.levels| && Waiting(Entered(t).levels[t.lo]) > 0)
    ensures Forwarded(t, w, REFUSE) == TakenLast(t)
    decreases w, 1
  {
    if w.worthy {
      var e := Entered(t);
      var m := Body(e, w, REFUSE);
      if w.kids != [] {
        RefusedBody(e, w);
      }
      SameSettled(t, m);
    }
  }

  /** Whatever a child did, if nothing above it changed, its leaving looks like its being taken. */
  lemma SameSettled(t: Trace, m: Trace)
    requires t.levels != [] && t.lo <= |t.levels|
    requires |m.levels| == |t.levels| + 1 && m.order == t.order && m.lo == t.lo
    requires forall i | 0 <= i < |t.levels| :: m.levels[i] == Entered(t).levels[i]
    ensures Left(m) == TakenLast(t)
  {
    assert Cut(m.levels) == Shrunk(t.levels);
  }

  lemma {:induction false} RefusedBody(t: Trace, w: Work)
    requires Begins(t, Below) && w.kids != []
    ensures Body(t, w, REFUSE) == Past(Filled(t, w.kids), |w.kids|, t.lo)
    decreases w, 0, |w.kids| + 1
  {
    var f := Filled(t, w.kids);
    assert f == Past(f, 0, t.lo);
    assert Body(t, w, REFUSE) == Rest(f, w, 0, REFUSE);
    RefusedRest(f, w, 0, REFUSE);
  }

  lemma {:induction false} RefusedRest(f: Trace, w: Work, k: nat, plan: Plan)
    requires f.levels != [] && Last(f).works == w.kids && k <= |w.kids| && plan.kids == []
    requires f.lo < |f.levels| - 1 && Waiting(f.levels[f.lo]) > 0
    ensures Rest(Past(f, k, f.lo), w, k, plan) == Past(f, |w.kids|, f.lo)
    decreases w, 0, |w.kids| - k
  {
    if k < |w.kids| {
      var t := Past(f, k, f.lo);
      RefusedForward(t, w.kids[k]);
      TakenPast(f, k, f.lo);
      RefusedRest(f, w, k + 1, plan);
    }
  }

  /** Where the root is once the k-th child is gone. */
  ghost function LoAfter(f: Trace, k: nat, lo: nat): nat
    requires f.levels != []
  {
    Settled(Past(f, k + 1, lo)).lo
  }

  lemma TakenPast(f: Trace, k: nat, lo: nat)
    requires f.levels != []
    ensures TakenLast(Past(f, k, lo)) == Past(f, k + 1, LoAfter(f, k, lo))
    ensures lo < |f.levels| - 1 && Waiting(f.levels[lo]) > 0 ==> LoAfter(f, k, lo) == lo
    ensures lo == |f.levels| - 1 && k < |Last(f).works| ==>
      LoAfter(f, k, lo) == if k + 2 == |Last(f).works| then lo + 1 else lo
    ensures lo < |f.levels| - 1 && Drained(f.levels, lo, |f.levels| - 1) ==> LoAfter(f, k, lo) == |f.levels| - 1
  {
    var d := |f.levels| - 1;
    var p := Past(f, k + 1, lo);
    assert Past(f, k, lo).levels[d := Level(Last(f).works, k + 1, k + 1)] == p.levels;
    assert forall i | 0 <= i < d :: p.levels[i] == f.levels[i];
    if lo < d && Drained(f.levels, lo, d) {
      forall i | lo <= i < d ensures Attached(p.levels, i) == 1 {
        assert Waiting(f.levels[i]) == 0;
      }
    }
  }

  /** The root stays, or follows once a single child is left below it. */
  ghost function LoAlong(f: Trace, lo: nat, j: nat, i: nat): nat
    requires f.levels != []
  {
    if j < i && lo == |f.levels| - 1 && i + 1 == |Last(f).works| then lo + 1 else lo
  }

  /** The root has a pending child, or is the last chain node. */
  ghost predicate Steerable(f: Trace, lo: nat) {
    f.levels != [] && lo < |f.levels| && (lo + 1 < |f.levels| ==> Waiting(f.levels[lo]) > 0)
  }

  lemma AlongStep(f: Trace, lo: nat, j: nat, i: nat)
    requires Steerable(f, lo) && j < i < |Last(f).works|
    ensures var at := LoAfter(f, j, lo);
            && TakenLast(Past(f, j, lo)) == Past(f, j + 1, at)
            && (j + 1 < i ==> Steerable(f, at))
            && LoAlong(f, at, j + 1, i) == LoAlong(f, lo, j, i)
  {
    TakenPast(f, j, lo);
    hide Past, TakenLast, Settled, LoAfter;
  }

  lemma RestStep(t: Trace, w: Work, j: nat, plan: Plan)
    requires t.levels != [] && j < |w.kids|
    ensures Rest(t, w, j, plan) == Rest(Forwarded(t, w.kids[j], KidPlan(plan, j)), w, j + 1, plan)
  {
  }

  /** The children before the i-th are let pass with every send refused. */
  lemma {:induction false} Along(f: Trace, lo: nat, w: Work, j: nat, i: nat, plan: Plan)
    requires f.levels != [] && (j < i ==> Steerable(f, lo)) && Last(f).works == w.kids && j <= i < |w.kids|
    requires forall k | j <= k < i :: KidPlan(plan, k) == REFUSE
    ensures Rest(Past(f, j, lo), w, j, plan) == Rest(Past(f, i, LoAlong(f, lo, j, i)), w, i, plan)
    decreases i - j
  {
    hide Past, TakenLast, Forwarded, Settled, Rest, LoAfter, Entered, Steerable;
    if j < i {
      AlongReady(f, lo, j);
      RefusedForward(Past(f, j, lo), w.kids[j]);
      AlongStep(f, lo, j, i);
      RestStep(Past(f, j, lo), w, j, plan);
      if j + 1 < i {
        Along(f, LoAfter(f, j, lo), w, j + 1, i, plan);
      }
    }
  }

  /** The next of several children would begin below its root. */
  lemma AlongReady(f: Trace, lo: nat, j: nat)
    requires Steerable(f, lo) && j + 1 < |Last(f).works|
    ensures var t := Past(f, j, lo); Ready(t) && t.lo < |t.levels| && Waiting(Entered(t).levels[t.lo]) > 0
  {
  }

  /** Pending nodes above the last level. */
  ghost function Load(levels: seq<Level>): nat {
    if levels == [] then 0 else Load(levels[..|levels| - 1]) + Waiting(levels[|levels| - 1])
  }

  lemma {:induction false} LoadLess(levels: seq<Level>, i: nat, l: Level)
    requires i < |levels| && Waiting(l) < Waiting(levels[i])
    ensures Load(levels[i := l]) < Load(levels)
  {
    var d := |levels| - 1;
    if i == d {
      assert levels[i := l][..d] == levels[..d];
    } else {
      assert levels[i := l][..d] == levels[..d][i := l];
      LoadLess(levels[..d], i, l);
    }
  }

  /** Enough granted attempts before a refusal push everything above the submitted node. */
  lemma {:induction false} Drain(t: Trace, worthy: bool) returns (grants: nat)
    requires Ready(t) && HasAbove(t)
    ensures var (r, sent) := Sent(t, worthy, grants);
            && !sent && Last(r) == Last(t)
            && r.lo == if Waiting(Last(t)) == 1 then |t.levels| else |t.levels| - 1
    decreases Load(t.levels)
  {
    var p := PushedAbove(t);
    LoadLess(t.levels, t.lo, p.levels[t.lo]);
    var d := |t.levels| - 1;
    if HasAbove(p) {
      var more := Drain(p, worthy);
      grants := more + 1;
    } else {
      assert Attached(p.levels, d) == Waiting(Last(t));
      grants := 1;
      assert Sent(p, worthy, 0) == (p, false);
    }
  }

  /** The levels have the same last one, and above it the same children in the same positions, up to what was pushed. */
  ghost predicate Thinned(t: Trace, r: Trace) {
    && |r.levels| == |t.levels| >= 2 && Last(r) == Last(t)
    && var d := |t.levels| - 2;
       && r.lo == d && Waiting(r.levels[d]) == 1
       && r.levels[d].works == t.levels[d].works && r.levels[d].at == t.levels[d].at
  }

  /** A push above the parent's last pending child leaves that one pending, and the root not below the parent. */
  lemma ThinStep(t: Trace)
    requires HasAbove(t) && t.lo + 2 <= |t.levels|
    requires var d := |t.levels| - 2; Waiting(t.levels[d]) > if t.lo == d then 1 else 0
    ensures var d, p := |t.levels| - 2, PushedAbove(t);
            && p.lo <= d && Waiting(p.levels[d]) > 0 && Load(p.levels) < Load(t.levels)
            && HasAbove(p) && p.levels[d].works == t.levels[d].works && p.levels[d].at == t.levels[d].at
  {
    var d, p := |t.levels| - 2, PushedAbove(t);
    PushedLo(t);
    LoadLess(t.levels, t.lo, p.levels[t.lo]);
    assert Attached(p.levels, d) >= 2;
    hide Slid, Load;
  }

  /** Enough granted attempts before a refusal leave just one pending node above the submitted one, by its parent. */
  lemma {:induction false} Thin(t: Trace, worthy: bool) returns (grants: nat)
    requires HasAbove(t) && t.lo + 2 <= |t.levels| && Waiting(t.levels[|t.levels| - 2]) > 0
    ensures var (r, sent) := Sent(t, worthy, grants); !sent && Thinned(t, r)
    decreases Load(t.levels)
  {
    hide Load, PushedAbove;
    var d := |t.levels| - 2;
    if t.lo == d && Waiting(t.levels[d]) == 1 {
      grants := 0;
    } else {
      ThinStep(t);
      var more := Thin(PushedAbove(t), worthy);
      grants := more + 1;
    }
  }

  /** The plan for one child; all others are let pass. */
  ghost function Only(n: nat, i: nat, sub: Plan): (kids: seq<Plan>)
    ensures |kids| == n
  {
    seq(n, k => if k == i then sub else REFUSE)
  }

  /** The next child runs and goes wrong. */
  lemma {:induction false} RunsWrong(t: Trace, w: Work, s: Start, all: bool) returns (plan: Plan)
    requires Ready(t) && t.lo <= |t.levels| && Breaks(w, s, all) && Begins(Entered(t), s)
    ensures !Forwarded(t, w, plan).order.Holds(all)
    decreases w, 5
  {
    plan := Misled(Entered(t), w, s, all);
  }

  lemma {:induction false} RestWrong(t: Trace, w: Work, i: nat, plan: Plan, all: bool)
    requires t.levels != [] && i < |w.kids| && !Forwarded(t, w.kids[i], KidPlan(plan, i)).order.Holds(all)
    ensures !Rest(t, w, i, plan).order.Holds(all)
  {
  }

  /** Above a body that goes astray a pending node is overlooked by the first send. */
  lemma AstrayWrong(t: Trace, w: Work, all: bool) returns (plan: Plan)
    requires Begins(t, Astray) && w.kids != [] && (all || w.kids[0].worthy)
    ensures !Body(t, w, plan).order.Holds(all)
  {
    plan := Plan(false, 1, 0, []);
    var f, d := Filled(t, w.kids), |t.levels| - 1;
    assert forall j | 0 <= j < d :: f.levels[j] == t.levels[j];
    assert Waiting(f.levels[t.lo]) == 0 && Waiting(f.levels[d - 1]) != 0;
    assert !HasAbove(f) && !NoneAbove(f);
    assert Sent(f, w.kids[0].worthy, 1).1;
  }

  /** The first child runs and goes wrong; before it is refused, send may push what is above. */
  lemma {:induction false} FirstWrong(t: Trace, w: Work, s: Start, s': Start, all: bool) returns (plan: Plan)
    requires s != Astray && Begins(t, s) && w.kids != []
    requires CanBegin(s, w.kids, 0, s') && Breaks(w.kids[0], s', all)
    ensures !Body(t, w, plan).order.Holds(all)
    decreases w, 2
  {
    var f, grants := Filled(t, w.kids), 0;
    assert forall j | 0 <= j < |t.levels| - 1 :: f.levels[j] == t.levels[j];
    if s == Below && s' == Root {
      grants := Drain(f, w.kids[0].worthy);
    }
    var r := Sent(f, w.kids[0].worthy, grants).0;
    FirstBegins(t, w, s, s', r);
    var sub := RunsWrong(r, w.kids[0], s', all);
    plan := Plan(false, grants, 0, [sub]);
    assert KidPlan(plan, 0) == sub;
    assert Submitted(f, w.kids[0], plan) == Forwarded(r, w.kids[0], sub);
  }

  lemma FirstBegins(t: Trace, w: Work, s: Start, s': Start, r: Trace)
    requires s != Astray && Begins(t, s) && w.kids != [] && CanBegin(s, w.kids, 0, s')
    requires |r.levels| == |t.levels| && Last(r) == Level(w.kids, 0, 0)
    requires if s == Below && s' == Root then r.lo == |r.levels| else r == Filled(t, w.kids)
    ensures r.lo <= |r.levels| && Begins(Entered(r), s')
  {
    var e, d := Entered(r), |t.levels| - 1;
    assert e.levels[d] == Level(w.kids, 0, 1);
    assert r == Filled(t, w.kids) ==> forall j | 0 <= j < d :: e.levels[j] == t.levels[j];
  }

  /** A later child runs and goes wrong, from a state that its turn is reached in. */
  lemma {:induction false} LaterWrong(f: Trace, lo: nat, w: Work, j: nat, i: nat, s: Start, all: bool)
    returns (sub: Plan)
    requires f.levels != [] && lo <= |f.levels| && (j < i ==> Steerable(f, lo))
    requires Last(f).works == w.kids && j <= i < |w.kids| && Breaks(w.kids[i], s, all)
    requires Begins(Entered(Past(f, i, LoAlong(f, lo, j, i))), s)
    ensures forall plan: Plan | (forall k | j <= k < i :: KidPlan(plan, k) == REFUSE) && KidPlan(plan, i) == sub ::
      !Rest(Past(f, j, lo), w, j, plan).order.Holds(all)
    decreases w, 0
  {
    var t := Past(f, i, LoAlong(f, lo, j, i));
    sub := RunsWrong(t, w.kids[i], s, all);
    forall plan: Plan | (forall k | j <= k < i :: KidPlan(plan, k) == REFUSE) && KidPlan(plan, i) == sub
      ensures !Rest(Past(f, j, lo), w, j, plan).order.Holds(all)
    {
      Along(f, lo, w, j, i, plan);
      RestWrong(t, w, i, plan, all);
    }
  }

  /** How a later child begins once the ones before it were let pass. */
  lemma LaterBegins(f: Trace, lo: nat, w: Work, j: nat, i: nat, s: Start)
    requires Steerable(f, lo) && Last(f).works == w.kids && j <= i < |w.kids| && 1 <= i
    requires if lo + 1 < |f.levels| then s == Below
             else if i + 1 < |w.kids| then s == Below
             else if j < i then s == Root else s == Slack
    ensures Begins(Entered(Past(f, i, LoAlong(f, lo, j, i))), s)
  {
    var e, d := Entered(Past(f, i, LoAlong(f, lo, j, i))), |f.levels| - 1;
    assert e.levels[d] == Level(w.kids, i, i + 1);
    assert forall k | 0 <= k < d :: e.levels[k] == f.levels[k];
  }

  /** The i-th child goes wrong once the first j have been dealt with and left the state r, with the root at lo. */
  lemma {:induction false} SiblingFrom(t: Trace, w: Work, grants: nat, r: Trace, j: nat, lo: nat, i: nat, s: Start,
                                       all: bool)
    returns (plan: Plan)
    requires t.levels != [] && w.kids != [] && r.levels != [] && j <= 1
    requires var f, one := Filled(t, w.kids), w.kids[0];
             var (t', sent) := Sent(f, one.worthy, grants);
             if j == 0 then !sent && t' == Past(r, 0, lo)
             else (if sent then t' else Forwarded(t', one, REFUSE)) == Past(r, 1, lo)
    requires lo <= |r.levels| && (j < i ==> Steerable(r, lo))
    requires Last(r).works == w.kids && j <= i < |w.kids| && Breaks(w.kids[i], s, all)
    requires Begins(Entered(Past(r, i, LoAlong(r, lo, j, i))), s)
    ensures !Body(t, w, plan).order.Holds(all)
    decreases w, 1
  {
    hide Begins, Breaks, Steerable, Past, Entered, LoAlong, Sent, Forwarded, Filled;
    var sub := LaterWrong(r, lo, w, j, i, s, all);
    plan := Plan(false, grants, 0, Only(|w.kids|, i, sub));
    assert forall k | j <= k < i :: KidPlan(plan, k) == REFUSE;
    assert !Rest(Past(r, j, lo), w, j, plan).order.Holds(all);
    RestStep(Past(r, j, lo), w, j, plan);
  }

  /** Below a slack body the first child is taken out, and the root follows. */
  lemma {:induction false} SlackSibling(t: Trace, w: Work, i: nat, s': Start, all: bool) returns (plan: Plan)
    requires Begins(t, Slack) && 1 <= i < |w.kids| && Breaks(w.kids[i], s', all)
    requires CanBegin(Slack, w.kids, i, s') && (|w.kids| == 2 ==> s' == Slack)
    ensures !Body(t, w, plan).order.Holds(all)
    decreases w, 2
  {
    hide Breaks, Forwarded;
    var f, d, one := Filled(t, w.kids), |t.levels| - 1, w.kids[0];
    assert forall k | 0 <= k < d :: f.levels[k] == t.levels[k];
    assert f == Past(f, 0, f.lo);
    TakenPast(f, 0, f.lo);
    var g := f.(order := f.order.Noted(NoneAbove(f), one.worthy));
    assert Waiting(f.levels[f.lo]) == 0;
    assert Sent(f, one.worthy, 1) == (Past(g, 1, d), true);
    LaterBegins(g, d, w, 1, i, s');
    plan := SiblingFrom(t, w, 1, g, 1, d, i, s', all);
  }

  /** With sends refused, a first child that goes astray brings the root down to its parent when its child declines. */
  lemma {:induction false} RefusedAstray(f: Trace, w: Work)
    requires Ready(f) && Last(f).at == 0 && |Last(f).works| == 2 && f.lo < |f.levels| - 1
    requires Drained(f.levels, f.lo, |f.levels| - 1) && Calls(w) && !w.kids[0].worthy
    ensures Forwarded(f, w, REFUSE) == Past(f, 1, |f.levels|)
  {
    var d, e := |f.levels| - 1, Entered(f);
    var g := Filled(e, w.kids);
    assert forall k | 0 <= k < d :: g.levels[k] == f.levels[k];
    assert g.levels[d] == Last(f).(from := 1);
    assert g == Past(g, 0, f.lo);
    var h := g.(lo := d);
    DeclinedAstray(g, d);
    assert Forwarded(g, w.kids[0], REFUSE) == Past(h, 1, d);
    RefusedRest(h, w, 1, REFUSE);
    var m := Past(h, |w.kids|, d);
    assert Body(e, w, REFUSE) == m;
    LeftAstray(f, m);
  }

  /** The first grandchild is taken out: the root stops where its uncle is pending. */
  lemma DeclinedAstray(g: Trace, d: nat)
    requires d + 2 == |g.levels| && g.lo < d && Drained(g.levels, g.lo, d) && Waiting(g.levels[d]) > 0
    requires Last(g).works != [] && g == Past(g, 0, g.lo)
    ensures TakenLast(g) == Past(g.(lo := d), 1, d)
  {
    var h := Shrunk(g.levels);
    assert forall k | 0 <= k <= d :: h[k] == g.levels[k];
    SlidTo(h, g.lo, d, d + 1);
    assert h == Past(g, 1, d).levels;
  }

  lemma LeftAstray(f: Trace, m: Trace)
    requires Ready(f) && Last(f).at == 0 && |Last(f).works| == 2
    requires |m.levels| == |f.levels| + 1 && m.order == f.order && m.lo == |f.levels| - 1
    requires forall i | 0 <= i < |f.levels| :: m.levels[i] == Entered(f).levels[i]
    ensures Left(m) == Past(f, 1, |f.levels|)
  {
    assert Cut(m.levels) == Shrunk(f.levels) == Past(f, 1, |f.levels|).levels;
  }

  /** Below a slack body the second of two children begins at the root once the first has gone astray in vain. */
  lemma {:induction false} SecondWrong(t: Trace, w: Work, all: bool) returns (plan: Plan)
    requires Begins(t, Slack) && |w.kids| == 2 && Calls(w.kids[0]) && Breaks(w.kids[1], Root, all)
    ensures !Body(t, w, plan).order.Holds(all)
    decreases w, 3
  {
    var one := w.kids[0];
    if all || one.kids[0].worthy {
      assert BodyBreaks(one, Astray, all);
      plan := FirstWrong(t, w, Slack, Astray, all);
      return;
    }
    hide Breaks;
    var f, d := Filled(t, w.kids), |t.levels| - 1;
    assert forall k | 0 <= k < d :: f.levels[k] == t.levels[k];
    RefusedAstray(f, one);
    plan := SiblingFrom(t, w, 0, f, 1, d + 1, 1, Root, all);
  }

  /** A child behind the first of a body that begins below, or at, the thread root. */
  lemma {:induction false} RootedSibling(t: Trace, w: Work, s: Start, i: nat, s': Start, all: bool)
    returns (plan: Plan)
    requires s == Below || s == Root
    requires Begins(t, s) && 1 <= i < |w.kids| && CanBegin(s, w.kids, i, s') && Breaks(w.kids[i], s', all)
    ensures !Body(t, w, plan).order.Holds(all)
    decreases w, 3
  {
    hide Breaks, Calls;
    var f, d, one := Filled(t, w.kids), |t.levels| - 1, w.kids[0];
    var grants := 0;
    assert forall k | 0 <= k < d :: f.levels[k] == t.levels[k];
    if s == Below && s' == Root {
      grants := Drain(f, one.worthy);
    }
    var r := Sent(f, one.worthy, grants).0;
    LaterBegins(r, r.lo, w, 0, i, s');
    assert r == Past(r, 0, r.lo);
    plan := SiblingFrom(t, w, grants, r, 0, r.lo, i, s', all);
  }

  /** A child behind the first, which declines, of a body that goes astray. */
  lemma {:induction false} AstraySibling(t: Trace, w: Work, i: nat, s': Start, all: bool) returns (plan: Plan)
    requires Begins(t, Astray) && 1 <= i < |w.kids| && !w.kids[0].worthy
    requires CanBegin(Astray, w.kids, i, s') && Breaks(w.kids[i], s', all)
    ensures !Body(t, w, plan).order.Holds(all)
    decreases w, 3
  {
    var f, d := Filled(t, w.kids), |t.levels| - 1;
    assert forall k | 0 <= k < d :: f.levels[k] == t.levels[k];
    assert f == Past(f, 0, f.lo);
    DeclinedAstray(f, d - 1);
    var g := f.(lo := d - 1);
    if s' == Below {
      hide Breaks;
      LaterBegins(g, d - 1, w, 1, i, Below);
      plan := SiblingFrom(t, w, 0, g, 1, d - 1, i, Below, all);
    } else {
      var k :| 1 <= k < i && Calls(w.kids[k]);
      plan := LastWrong(t, w, g, k, all);
    }
  }

  ghost function AtOf(t: Trace, i: nat): (r: Trace)
    requires t.levels != []
    ensures |r.levels| == |t.levels| && Last(r) == Last(t).(at := i)
  {
    t.(levels := t.levels[|t.levels| - 1 := Last(t).(at := i)])
  }

  /** Children taken away before are skipped. */
  lemma {:induction false} SkipTo(t: Trace, w: Work, i: nat, plan: Plan)
    requires t.levels != [] && Last(t).at <= i <= Last(t).from && i <= |w.kids|
    ensures Rest(t, w, Last(t).at, plan) == Rest(AtOf(t, i), w, i, plan)
    decreases i - Last(t).at
  {
    var j := Last(t).at;
    if j == i {
      assert AtOf(t, i) == t;
    } else {
      RestStep(t, w, j, plan);
      assert Forwarded(t, w.kids[j], KidPlan(plan, j)) == AtOf(t, j + 1);
      SkipTo(AtOf(t, j + 1), w, i, plan);
      assert AtOf(AtOf(t, j + 1), i) == AtOf(t, i);
    }
  }

  /** A child that calls send can push its siblings but for the last, which is then to begin at the root. */
  lemma {:induction false} ThinningChild(a: Trace, w: Work) returns (sub: Plan)
    requires Ready(a) && a.lo + 1 < |a.levels| && Waiting(a.levels[a.lo]) > 0
    requires Calls(w) && Last(a).at + 1 < |Last(a).works|
    ensures var r, n := Forwarded(a, w, sub), |Last(a).works|;
            Last(r) == Level(Last(a).works, Last(a).at + 1, n - 1) && r.lo == |a.levels|
  {
    var e := Entered(a);
    var f, d := Filled(e, w.kids), |a.levels| - 1;
    assert f.levels[a.lo] == a.levels[a.lo] && f.levels[d] == Last(a).(from := Last(a).from + 1);
    var grants := Thin(f, w.kids[0].worthy);
    var r := Sent(f, w.kids[0].worthy, grants).0;
    sub := Plan(false, grants, 0, []);
    assert r == Past(r, 0, d);
    RefusedRest(r, w, 0, sub);
    RestStep(r, w, 0, sub);
    var m := Past(r, |w.kids|, d);
    assert Body(e, w, sub) == m;
    LeftThinned(a, m);
  }

  lemma LeftThinned(a: Trace, m: Trace)
    requires Ready(a) && |m.levels| == |a.levels| + 1 && m.lo == |a.levels| - 1
    requires var l := m.levels[|a.levels| - 1]; Waiting(l) == 1 && l.works == Last(a).works && l.at == Last(a).at
    ensures var r, n := Left(m), |Last(a).works|;
            Last(r) == Level(Last(a).works, Last(a).at + 1, n - 1) && r.lo == |a.levels|
  {
  }

  /** The k-th child's plan, the last child's plan; all others are let pass. */
  ghost function Both(n: nat, k: nat, push: Plan, last: Plan): (kids: seq<Plan>)
    ensures |kids| == n
  {
    seq(n, i => if i == k then push else if i == n - 1 then last else REFUSE)
  }

  /** The last child of a body that goes astray begins at the root once another one has pushed what is above. */
  lemma {:induction false} LastWrong(t: Trace, w: Work, g: Trace, k: nat, all: bool) returns (plan: Plan)
    requires g.levels != [] && Last(g).works == w.kids && g.lo + 1 < |g.levels| && Waiting(g.levels[g.lo]) > 0
    requires t.levels != [] && w.kids != [] && TakenLast(Filled(t, w.kids)) == Past(g, 1, g.lo) && !w.kids[0].worthy
    requires 1 <= k < |w.kids| - 1 && Calls(w.kids[k]) && Breaks(w.kids[|w.kids| - 1], Root, all)
    ensures !Body(t, w, plan).order.Holds(all)
    decreases w, 2
  {
    var a, n := Past(g, k, g.lo), |w.kids|;
    var push := ThinningChild(a, w.kids[k]);
    var r := Forwarded(a, w.kids[k], push);
    hide Breaks, Past, TakenLast, Filled, Steerable, Forwarded;
    var s := AtOf(r, n - 1);
    assert Begins(Entered(s), Root);
    hide Entered, Begins;
    var last := RunsWrong(s, w.kids[n - 1], Root, all);
    plan := Plan(false, 0, 0, Both(n, k, push, last));
    PushesThenLast(g, w, k, plan, push, r);
    RestWrong(s, w, n - 1, plan, all);
    DeclinedFirst(t, w, plan);
  }

  /** Up to the last child under such a plan. */
  lemma PushesThenLast(g: Trace, w: Work, k: nat, plan: Plan, push: Plan, r: Trace)
    requires Steerable(g, g.lo) && Last(g).works == w.kids && g.lo + 1 < |g.levels| && 1 <= k < |w.kids| - 1
    requires r == Forwarded(Past(g, k, g.lo), w.kids[k], push) && r.levels != []
    requires Last(r).at == k + 1 && Last(r).from == |w.kids| - 1
    requires KidPlan(plan, k) == push && forall i | 1 <= i < k :: KidPlan(plan, i) == REFUSE
    ensures Rest(Past(g, 1, g.lo), w, 1, plan) == Rest(AtOf(r, |w.kids| - 1), w, |w.kids| - 1, plan)
  {
    hide Past, TakenLast, Steerable, Rest, Forwarded;
    Along(g, g.lo, w, 1, k, plan);
    RestStep(Past(g, k, g.lo), w, k, plan);
    SkipTo(r, w, |w.kids| - 1, plan);
  }

  lemma DeclinedFirst(t: Trace, w: Work, plan: Plan)
    requires t.levels != [] && w.kids != [] && !w.kids[0].worthy && !plan.remote && plan.grants == 0
    ensures Body(t, w, plan) == Rest(TakenLast(Filled(t, w.kids)), w, 1, plan)
  {
    hide Filled, TakenLast, Rest;
    var f := Filled(t, w.kids);
    assert Submitted(f, w.kids[0], plan) == Forwarded(f, w.kids[0], KidPlan(plan, 0)) == TakenLast(f);
  }

  /** A body that breaks the order, begun in this way, loses it under some plan. */
  lemma {:induction false} Misled(t: Trace, w: Work, s: Start, all: bool) returns (plan: Plan)
    requires Begins(t, s) && BodyBreaks(w, s, all)
    ensures !Body(t, w, plan).order.Holds(all)
    decreases w, 4
  {
    if s == Astray && w.kids != [] && (all || w.kids[0].worthy) {
      plan := AstrayWrong(t, w, all);
      return;
    }
    var i, s' :| 0 <= i < |w.kids| && CanBegin(s, w.kids, i, s') && Breaks(w.kids[i], s', all);
    if s == Astray {
      plan := AstraySibling(t, w, i, s', all);
    } else if i == 0 {
      plan := FirstWrong(t, w, s, s', all);
    } else if s != Slack {
      plan := RootedSibling(t, w, s, i, s', all);
    } else if |w.kids| == 2 && s' == Root {
      plan := SecondWrong(t, w, all);
    } else {
      plan := SlackSibling(t, w, i, s', all);
    }
  }

  /**
   * The order of pushes, exactly: whatever locks, pool and channel do, every node that send takes out during task w,
   * or every node that it hands over if not all count, is the shallowest pending one of its thread, if and only if no
   * path of w leads astray.
   */
  lemma OrderExactly(w: Work, all: bool)
    ensures (forall plan :: InOrder(w, plan, all)) <==> !BodyBreaks(w, Root, all)
  {
    if BodyBreaks(w, Root, all) {
      var plan := Misled(START, w, Root, all);
      assert !InOrder(w, plan, all);
    } else {
      forall plan ensures InOrder(w, plan, all) {
        HarmlessIsInOrder(w, plan, all);
      }
    }
  }

  /* ---------- examples ---------- */

  /** At least two children, the first of them with a child of its own that counts. */
  predicate Forks(m: Work, all: bool) {
    m.worthy && |m.kids| >= 2 && LeadsOn(m.kids[0], all)
  }

  /** The body of k submits a node that counts. */
  predicate LeadsOn(k: Work, all: bool) {
    Calls(k) && (all || k.kids[0].worthy)
  }

  /** A task with an only child that forks. */
  lemma OnlyChildBreaks(w: Work, all: bool) returns (plan: Plan)
    requires |w.kids| == 1 && Forks(w.kids[0], all)
    ensures !InOrder(w, plan, all)
  {
    var m := w.kids[0];
    ForkBreaks(m, all);
    assert CanBegin(Root, w.kids, 0, Slack);
    plan := Misled(START, w, Root, all);
  }

  lemma ForkBreaks(m: Work, all: bool)
    requires Forks(m, all)
    ensures Breaks(m, Slack, all)
  {
    assert CanBegin(Slack, m.kids, 0, Astray) && Breaks(m.kids[0], Astray, all);
  }

  /** A fork is not needed right there: with two children, the second can begin slack again. */
  lemma SecondChildBreaks(w: Work, all: bool) returns (plan: Plan)
    requires |w.kids| == 1 && w.kids[0].worthy && |w.kids[0].kids| == 2 && Forks(w.kids[0].kids[1], all)
    ensures !InOrder(w, plan, all)
  {
    var m := w.kids[0];
    ForkBreaks(m.kids[1], all);
    assert CanBegin(Slack, m.kids, 1, Slack);
    assert CanBegin(Root, w.kids, 0, Slack) && Breaks(m, Slack, all);
    plan := Misled(START, w, Root, all);
  }

  /** An only child that forks does no harm below a first child: the order is kept. */
  lemma FirstChildKeeps(w: Work, plan: Plan, all: bool)
    requires |w.kids| == 2 && |w.kids[0].kids| == 1 && Wide(w.kids[0].kids[0]) && Wide(w.kids[1])
    ensures InOrder(w, plan, all)
  {
    var b := w.kids[0];
    forall s | s == Below || s == Root ensures !BodyBreaks(b.kids[0], s, all) && !BodyBreaks(w.kids[1], s, all) {
      WideIsHarmless(b.kids[0], s, all);
      WideIsHarmless(w.kids[1], s, all);
    }
    assert !BodyBreaks(b, Below, all) by {
      assert forall s | CanBegin(Below, b.kids, 0, s) :: !Breaks(b.kids[0], s, all);
    }
    assert forall s | CanBegin(Root, w.kids, 0, s) :: !Breaks(w.kids[0], s, all);
    assert forall s | CanBegin(Root, w.kids, 1, s) :: !Breaks(w.kids[1], s, all);
    HarmlessIsInOrder(w, plan, all);
  }

  /** Below an only child that forks, a grandchild that declines is discarded past its uncle, and nothing else is. */
  lemma OnlyDiscarded(w: Work) returns (plan: Plan)
    requires |w.kids| == 1 && Forks(w.kids[0], true) && |w.kids[0].kids| == 2
    requires |w.kids[0].kids[0].kids| == 1 && !w.kids[0].kids[0].kids[0].worthy && w.kids[0].kids[1].kids == []
    ensures !InOrder(w, plan, true) && forall any :: InOrder(w, any, false)
  {
    var m := w.kids[0];
    plan := OnlyChildBreaks(w, true);
    assert !Breaks(m.kids[0], Astray, false);
    assert !BodyBreaks(m, Slack, false) by {
      assert forall s | CanBegin(Slack, m.kids, 0, s) :: !Breaks(m.kids[0], s, false);
      forall s | CanBegin(Slack, m.kids, 1, s) ensures !Breaks(m.kids[1], s, false) {
        assert s != Astray;
      }
    }
    assert !BodyBreaks(w, Root, false);
    forall any ensures InOrder(w, any, false) {
      HarmlessIsInOrder(w, any, false);
    }
  }
}

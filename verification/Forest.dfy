/**
 * The center's view of who helps whom, as a value: the process tree of src/utils/tree.cpp and the
 * handlers process_running, process_available and get_available of the semi-centralized scheduler.
 */
module Forest {
  import opened Common

  const NOBODY: int := -1

  /** helpers[r] is r's sibling list, front first; up[r] is the rank r is assigned to. */
  datatype Tree = Tree(helpers: seq<seq<nat>>, up: seq<int>)

  datatype Standing = Available | Assigned | Running

  datatype Center = Center(standing: seq<Standing>, tree: Tree)

  /** A NEXT_PROCESS message: to is told that helper may take its tasks. */
  datatype Assignment = Assignment(to: nat, helper: nat)

  /* ---------- the tree ---------- */

  function Without(s: seq<nat>, x: nat): seq<nat> {
    if s == [] then [] else if s[0] == x then s[1..] else [s[0]] + Without(s[1..], x)
  }

  ghost predicate Distinct(s: seq<nat>) {
    forall i, j | 0 <= i < j < |s| :: s[i] != s[j]
  }

  lemma {:induction false} WithoutMembers(s: seq<nat>, x: nat)
    requires Distinct(s)
    ensures forall y :: y in Without(s, x) <==> y in s && y != x
    ensures |Without(s, x)| == |s| - if x in s then 1 else 0
  {
    if s != [] {
      assert s[0] !in s[1..];
      assert forall y :: y in s <==> y == s[0] || y in s[1..];
      WithoutMembers(s[1..], x);
    }
  }

  lemma {:induction false} WithoutDistinct(s: seq<nat>, x: nat)
    requires Distinct(s)
    ensures Distinct(Without(s, x))
  {
    if s != [] {
      WithoutDistinct(s[1..], x);
      WithoutMembers(s[1..], x);
      var rest := Without(s[1..], x);
      forall k | 0 <= k < |rest| ensures rest[k] != s[0] {
        assert rest[k] in rest && rest[k] in s[1..];
      }
    }
  }

  /** Each rank sits in at most one sibling list, once, and up tells which. */
  ghost predicate Linked(t: Tree) {
    && |t.helpers| == |t.up|
    && (forall p, c {:trigger c in t.helpers[p]} {:trigger t.up[c], t.helpers[p]} | 0 <= p < |t.helpers|
       && c in t.helpers[p] :: c < |t.up| && t.up[c] == p)
    && (forall c | 0 <= c < |t.up| && t.up[c] != NOBODY :: 0 <= t.up[c] < |t.helpers| && c in t.helpers[t.up[c]])
    && (forall p | 0 <= p < |t.helpers| :: Distinct(t.helpers[p]))
  }

  function AddNext(t: Tree, p: nat, c: nat): Outcome<Tree>
    requires p < |t.helpers| == |t.up|
  {
    if c >= |t.up| then Throws("out of bounds")
    else if t.up[c] != NOBODY then Throws("already assigned")
    else Next(Tree(t.helpers[p := t.helpers[p] + [c]], t.up[c := p]))
  }

  function PopFront(t: Tree, p: nat): Outcome<Tree>
    requires p < |t.helpers| == |t.up|
    requires t.helpers[p] != [] ==> t.helpers[p][0] < |t.up|
  {
    if t.helpers[p] == [] then Throws("there's no next to pop")
    else Next(Tree(t.helpers[p := t.helpers[p][1..]], t.up[t.helpers[p][0] := NOBODY]))
  }

  function Release(t: Tree, c: nat): Outcome<Tree>
    requires c < |t.up| == |t.helpers| && NOBODY <= t.up[c] < |t.helpers|
  {
    if t.up[c] == NOBODY then Throws("not assigned to any other node")
    else Next(Tree(t.helpers[t.up[c] := Without(t.helpers[t.up[c]], c)], t.up[c := NOBODY]))
  }

  lemma AddNextLinked(t: Tree, p: nat, c: nat)
    requires Linked(t) && p < |t.up| && c < |t.up| && t.up[c] == NOBODY
    ensures Linked(AddNext(t, p, c).state)
  {
    assert c !in t.helpers[p];
  }

  lemma ReleaseLinked(t: Tree, c: nat)
    requires Linked(t) && c < |t.up| && t.up[c] != NOBODY
    ensures Linked(Release(t, c).state)
  {
    WithoutMembers(t.helpers[t.up[c]], c);
    WithoutDistinct(t.helpers[t.up[c]], c);
  }

  lemma {:induction false} WithoutLast(s: seq<nat>, x: nat)
    requires x !in s
    ensures Without(s + [x], x) == s
  {
    if s != [] {
      assert (s + [x])[1..] == s[1..] + [x];
      WithoutLast(s[1..], x);
    }
  }

  /** release undoes add_next, and pop_front is the release of the head. */
  lemma AddPopRelease(t: Tree, p: nat, c: nat)
    requires Linked(t) && p < |t.up| && c < |t.up|
    ensures t.up[c] == NOBODY ==>
      var o := AddNext(t, p, c); o.Next? && o.state.up[c] == p && Release(o.state, c) == Next(t)
    ensures t.helpers[p] != [] ==> t.helpers[p][0] < |t.up| && PopFront(t, p) == Release(t, t.helpers[p][0])
  {
    if t.helpers[p] != [] {
      assert t.helpers[p][0] in t.helpers[p];
    }
    if t.up[c] == NOBODY {
      assert c !in t.helpers[p];
      WithoutLast(t.helpers[p], c);
      var t1 := AddNext(t, p, c).state;
      assert t1.helpers[p := Without(t1.helpers[p], c)] == t.helpers && t1.up[c := NOBODY] == t.up;
    }
  }

  /* ---------- the handlers ---------- */

  /** get_available: the first available worker at or after rank r, or -1. */
  function FirstAvailable(standing: seq<Standing>, r: nat): (a: int)
    requires r <= |standing|
    ensures a == -1 || (r <= a < |standing| && standing[a] == Available)
    ensures a == -1 ==> forall x | r <= x < |standing| :: standing[x] != Available
    ensures a != -1 ==> forall x | r <= x < a :: standing[x] != Available
    decreases |standing| - r
  {
    if r == |standing| then -1 else if standing[r] == Available then r else FirstAvailable(standing, r + 1)
  }

  predicate Needy(c: Center, r: int)
    requires |c.standing| == |c.tree.helpers|
  {
    0 < r < |c.standing| && c.standing[r] == Running && c.tree.helpers[r] == []
  }

  /** The rank the for-loop of process_available looks at in iteration i. */
  function RankAt(i: nat, offset: nat, n: nat): (r: nat)
    requires n > 0
    ensures r < n
  {
    (i + offset) % n
  }

  /** That loop from iteration i on: the first running worker without a helper, or -1. */
  function FirstNeedy(c: Center, offset: nat, i: nat): (r: int)
    requires |c.standing| == |c.tree.helpers| && i <= |c.standing|
    ensures r == -1 || Needy(c, r)
    ensures r == -1 ==> forall k | i <= k < |c.standing| :: !Needy(c, RankAt(k, offset, |c.standing|))
    ensures r != -1 ==> exists k :: i <= k < |c.standing| && r == RankAt(k, offset, |c.standing|)
                                    && forall j | i <= j < k :: !Needy(c, RankAt(j, offset, |c.standing|))
    decreases |c.standing| - i
  {
    if i == |c.standing| then -1
    else
      var rank := RankAt(i, offset, |c.standing|);
      if Needy(c, rank) then rank else FirstNeedy(c, offset, i + 1)
  }

  predicate Shaped(c: Center) {
    && |c.standing| >= 2 && |c.standing| == |c.tree.up| == |c.tree.helpers|
    && forall r | 0 <= r < |c.tree.up| :: NOBODY <= c.tree.up[r] < |c.tree.up|
  }

  /** Sets r's standing and takes it out of its sibling list, as both handlers begin. */
  function Reported(c: Center, r: nat, standing: Standing): Outcome<Center>
    requires r < |c.standing| == |c.tree.up| == |c.tree.helpers| && NOBODY <= c.tree.up[r] < |c.tree.up|
  {
    if c.tree.up[r] == NOBODY then Next(Center(c.standing[r := standing], c.tree))
    else match Release(c.tree, r)
      case Throws(reason) => Throws(reason)
      case Next(t) => Next(Center(c.standing[r := standing], t))
  }

  /** add_next and the ASSIGNED state, with the message that announces them. */
  function Assign(c: Center, to: nat, helper: nat): Outcome<(Center, Option<Assignment>)>
    requires to < |c.tree.helpers| == |c.tree.up| == |c.standing| && helper < |c.standing|
  {
    match AddNext(c.tree, to, helper)
    case Throws(reason) => Throws(reason)
    case Next(t) => Next((Center(c.standing[helper := Assigned], t), Some(Assignment(to, helper))))
  }

  function ProcessRunning(c: Center, r: nat): Outcome<(Center, Option<Assignment>)>
    requires Shaped(c) && 1 <= r < |c.standing|
  {
    match Reported(c, r, Running)
    case Throws(reason) => Throws(reason)
    case Next(c1) =>
      var next := FirstAvailable(c1.standing, 1);
      if c1.tree.helpers[r] == [] && next > 0 then Assign(c1, r, next) else Next((c1, None))
  }

  function ProcessAvailable(c: Center, r: nat, offset: nat): Outcome<(Center, Option<Assignment>)>
    requires Shaped(c) && 1 <= r < |c.standing|
  {
    match Reported(c, r, Available)
    case Throws(reason) => Throws(reason)
    case Next(c1) =>
      var needy := FirstNeedy(c1, offset, 0);
      if needy != -1 then Assign(c1, needy, r) else Next((c1, None))
  }

  /* ---------- the invariant ---------- */

  /** Helpers sit strictly below the rank they help. */
  ghost predicate Stacked(t: Tree, height: seq<nat>) {
    |height| == |t.up| && forall c | 0 <= c < |t.up| && 0 <= t.up[c] < |t.up| :: height[t.up[c]] > height[c]
  }

  ghost predicate Inv(c: Center) {
    && Shaped(c) && Linked(c.tree)
    && c.standing[0] == Available && c.tree.helpers[0] == []
    && (forall r | 0 <= r < |c.standing| :: c.standing[r] == Assigned <==> c.tree.up[r] != NOBODY)
    && exists height :: Stacked(c.tree, height)
  }

  lemma ReportedInv(c: Center, r: nat, standing: Standing)
    requires Inv(c) && 1 <= r < |c.standing| && standing != Assigned
    ensures Reported(c, r, standing).Next? && Inv(Reported(c, r, standing).state)
    ensures Reported(c, r, standing).state.standing == c.standing[r := standing]
  {
    var c' := Reported(c, r, standing).state;
    var height :| Stacked(c.tree, height);
    if c.tree.up[r] != NOBODY {
      ReleaseLinked(c.tree, r);
    }
    assert Stacked(c'.tree, height);
  }

  /** Neither side of an assignment is in a list beforehand, so no cycle can close. */
  lemma AssignInv(c: Center, to: nat, helper: nat)
    requires Inv(c) && 1 <= to < |c.standing| && 1 <= helper < |c.standing|
    requires c.standing[to] == Running && c.standing[helper] == Available
    ensures Assign(c, to, helper).Next? && Inv(Assign(c, to, helper).state.0)
  {
    var c' := Assign(c, to, helper).state.0;
    AddNextLinked(c.tree, to, helper);
    var height :| Stacked(c.tree, height);
    assert Stacked(c'.tree, height[to := height[to] + height[helper] + 1]);
  }

  /** What a handler promises: no throw, the invariant, and a message naming a worker other than its receiver. */
  ghost predicate Handled(c: Center, o: Outcome<(Center, Option<Assignment>)>) {
    && o.Next? && Inv(o.state.0) && |o.state.0.standing| == |c.standing|
    && (o.state.1.Some? ==>
         && 1 <= o.state.1.value.to < |c.standing| && 1 <= o.state.1.value.helper < |c.standing|
         && o.state.1.value.to != o.state.1.value.helper)
  }

  lemma ProcessRunningSafe(c: Center, r: nat)
    requires Inv(c) && 1 <= r < |c.standing|
    ensures Handled(c, ProcessRunning(c, r))
  {
    ReportedInv(c, r, Running);
    var c1 := Reported(c, r, Running).state;
    var next := FirstAvailable(c1.standing, 1);
    if c1.tree.helpers[r] == [] && next > 0 {
      AssignInv(c1, r, next);
    }
  }

  lemma ProcessAvailableSafe(c: Center, r: nat, offset: nat)
    requires Inv(c) && 1 <= r < |c.standing|
    ensures Handled(c, ProcessAvailable(c, r, offset))
  {
    ReportedInv(c, r, Available);
    var c1 := Reported(c, r, Available).state;
    var needy := FirstNeedy(c1, offset, 0);
    if needy != -1 {
      AssignInv(c1, needy, r);
    }
  }

  /* ---------- what the handlers do to the center's view ---------- */

  /** The list is as before, but for r, which is not in it any more. */
  ghost predicate LeftList(before: seq<nat>, after: seq<nat>, r: nat) {
    && r !in after
    && (after == before || exists k :: 0 <= k < |before| && before[k] == r && after == before[..k] + before[k + 1..])
  }

  /** Whether nothing but r helps rank q. */
  predicate HelpedOnlyBy(c: Center, q: nat, r: nat)
    requires q < |c.tree.helpers|
  {
    forall h | h in c.tree.helpers[q] :: h == r
  }

  /** A worker that r can be named to: running, and without a helper once r has left its list. */
  predicate CanTake(c: Center, q: nat, r: nat)
    requires |c.standing| == |c.tree.helpers|
  {
    1 <= q < |c.standing| && q != r && c.standing[q] == Running && HelpedOnlyBy(c, q, r)
  }

  /** A worker that can be named to r. */
  predicate CanHelp(c: Center, q: nat, r: nat) {
    1 <= q < |c.standing| && q != r && c.standing[q] == Available
  }

  /** How many steps after the random offset the search comes to rank q. */
  function Distance(q: nat, offset: nat, n: nat): nat
    requires q < n
  {
    var first := offset % n;
    if q >= first then q - first else q + n - first
  }

  /** All lists but that of the receiver just lose r; r sits where it was named to, or nowhere. */
  ghost predicate Lists(c: Center, c': Center, r: nat, to: Option<nat>) {
    && Shaped(c) && Shaped(c') && |c'.standing| == |c.standing|
    && (forall q: nat | q < |c.standing| && to != Some(q) :: LeftList(c.tree.helpers[q], c'.tree.helpers[q], r))
  }

  /**
   * An AVAILABLE report of r: if some other worker runs without a helper, the first such one from the offset on, and
   * nobody else, is told to use r, which becomes ASSIGNED as its only helper; otherwise r is AVAILABLE and in no list.
   */
  ghost predicate AvailableLaw(c: Center, r: nat, offset: nat, o: (Center, Option<Assignment>)) {
    var c' := o.0;
    && Shaped(c) && 1 <= r < |c.standing| && Lists(c, c', r, if o.1.Some? then Some(o.1.value.to) else None)
    && (o.1.Some? <==> exists q: nat :: CanTake(c, q, r))
    && (forall q | 0 <= q < |c.standing| && q != r :: c'.tree.up[q] == c.tree.up[q])
    && match o.1
       case None => c'.standing == c.standing[r := Available] && c'.tree.up[r] == NOBODY
       case Some(Assignment(to, helper)) =>
         && CanTake(c, to, r) && helper == r
         && (forall q: nat | q < |c.standing| && CanTake(c, q, r) ::
              Distance(to, offset, |c.standing|) <= Distance(q, offset, |c.standing|))
         && c'.standing == c.standing[r := Assigned] && c'.tree.helpers[to] == [r] && c'.tree.up[r] == to
  }

  /**
   * A RUNNING report of r: r is RUNNING and in no list; if it has no helper and a worker is AVAILABLE, the lowest such
   * rank is named to r, becomes ASSIGNED and is its only helper.
   */
  ghost predicate RunningLaw(c: Center, r: nat, o: (Center, Option<Assignment>)) {
    var c' := o.0;
    && Shaped(c) && 1 <= r < |c.standing| && Lists(c, c', r, if o.1.Some? then Some(r) else None)
    && (o.1.Some? <==> c.tree.helpers[r] == [] && exists q: nat :: CanHelp(c, q, r))
    && c'.tree.up[r] == NOBODY
    && match o.1
       case None =>
         && c'.standing == c.standing[r := Running]
         && (forall q | 0 <= q < |c.standing| && q != r :: c'.tree.up[q] == c.tree.up[q])
       case Some(Assignment(to, helper)) =>
         && to == r && CanHelp(c, helper, r) && (forall q: nat | CanHelp(c, q, r) :: helper <= q)
         && c'.standing == c.standing[r := Running][helper := Assigned]
         && c'.tree.helpers[r] == [helper] && c'.tree.up[helper] == r
         && (forall q | 0 <= q < |c.standing| && q != r && q != helper :: c'.tree.up[q] == c.tree.up[q])
  }

  lemma WithoutIsLeft(s: seq<nat>, x: nat)
    requires Distinct(s) && x in s
    ensures LeftList(s, Without(s, x), x)
  {
    hide Distinct, Without;
    WithoutMembers(s, x);
    var k := WithoutAt(s, x);
  }

  lemma {:induction false} WithoutAt(s: seq<nat>, x: nat) returns (k: nat)
    requires x in s
    ensures k < |s| && s[k] == x && Without(s, x) == s[..k] + s[k + 1..]
  {
    if s[0] == x {
      k := 0;
    } else {
      var rest := s[1..];
      k := WithoutAt(rest, x);
      assert [s[0]] + rest[..k] == s[..k + 1] && rest[k + 1..] == s[k + 2..];
      assert [s[0]] + (rest[..k] + rest[k + 1..]) == ([s[0]] + rest[..k]) + rest[k + 1..];
      k := k + 1;
    }
  }

  /** What both reports begin with. */
  lemma ReportedLists(c: Center, r: nat, standing: Standing)
    requires Inv(c) && 1 <= r < |c.standing| && standing != Assigned
    ensures Reported(c, r, standing).Next?
    ensures var c1 := Reported(c, r, standing).state;
            && Inv(c1) && c1.standing == c.standing[r := standing] && Lists(c, c1, r, None)
            && c1.tree.up == c.tree.up[r := NOBODY]
            && (forall q: nat | q < |c.standing| :: c1.tree.helpers[q] == [] <==> HelpedOnlyBy(c, q, r))
  {
    ReportedInv(c, r, standing);
    var c1 := Reported(c, r, standing).state;
    if c.tree.up[r] != NOBODY {
      WithoutIsLeft(c.tree.helpers[c.tree.up[r]], r);
    }
    forall q: nat | q < |c.standing|
      ensures LeftList(c.tree.helpers[q], c1.tree.helpers[q], r)
      ensures c1.tree.helpers[q] == [] <==> HelpedOnlyBy(c, q, r)
    {
      LeftOnly(c.tree.helpers[q], c1.tree.helpers[q], r);
    }
  }

  lemma LeftOnly(before: seq<nat>, after: seq<nat>, r: nat)
    requires Distinct(before) && LeftList(before, after, r)
    ensures after == [] <==> forall h | h in before :: h == r
  {
    if after == [] {
    } else {
      assert after[0] in after && after[0] in before;
    }
  }

  /** Every rank is looked at once, in iteration Distance. */
  lemma LookedAt(q: nat, offset: nat, n: nat)
    requires q < n
    ensures Distance(q, offset, n) < n && RankAt(Distance(q, offset, n), offset, n) == q
  {
    RankIs(Distance(q, offset, n), offset, n);
  }

  lemma DistanceOf(k: nat, offset: nat, n: nat)
    requires k < n
    ensures Distance(RankAt(k, offset, n), offset, n) == k
  {
    RankIs(k, offset, n);
  }

  lemma RankIs(k: nat, offset: nat, n: nat)
    requires k < n
    ensures var first := offset % n; RankAt(k, offset, n) == if k + first < n then k + first else k + first - n
  {
    var first, d := offset % n, offset / n;
    assert offset == n * d + first;
    if k + first < n {
      Quotient(k + offset, n, d, k + first);
    } else {
      Quotient(k + offset, n, d + 1, k + first - n);
    }
  }

  lemma AssignIs(c: Center, to: nat, helper: nat)
    requires Inv(c) && to < |c.standing| && helper < |c.standing|
    requires c.tree.helpers[to] == [] && c.standing[helper] != Assigned
    ensures Assign(c, to, helper) == Next((
      Center(c.standing[helper := Assigned], Tree(c.tree.helpers[to := [helper]], c.tree.up[helper := to])),
      Some(Assignment(to, helper))))
  {
    assert c.tree.up[helper] == NOBODY;
    assert [] + [helper] == [helper];
  }

  /** The search finds the first of the workers that r can be named to. */
  lemma NeedyIs(c: Center, c1: Center, r: nat, offset: nat)
    requires Shaped(c) && Shaped(c1) && 1 <= r < |c.standing| && c1.standing == c.standing[r := Available]
    requires forall q: nat | q < |c.standing| :: c1.tree.helpers[q] == [] <==> HelpedOnlyBy(c, q, r)
    ensures var to := FirstNeedy(c1, offset, 0);
            && (to == -1 <==> forall q: nat :: !CanTake(c, q, r))
            && (to != -1 ==> CanTake(c, to, r) && forall q: nat | q < |c.standing| && CanTake(c, q, r) ::
                 Distance(to, offset, |c.standing|) <= Distance(q, offset, |c.standing|))
  {
    hide RankAt, Distance;
    var to, n := FirstNeedy(c1, offset, 0), |c.standing|;
    forall q: nat | q < n
      ensures Needy(c1, q) <==> CanTake(c, q, r)
      ensures Distance(q, offset, n) < n && RankAt(Distance(q, offset, n), offset, n) == q
    {
      LookedAt(q, offset, n);
    }
    if to != -1 {
      var k :| 0 <= k < n && to == RankAt(k, offset, n) && forall j | 0 <= j < k :: !Needy(c1, RankAt(j, offset, n));
      DistanceOf(k, offset, n);
    }
  }

  lemma ProcessAvailableObeys(c: Center, r: nat, offset: nat)
    requires Inv(c) && 1 <= r < |c.standing|
    ensures ProcessAvailable(c, r, offset).Next? && AvailableLaw(c, r, offset, ProcessAvailable(c, r, offset).state)
  {
    ReportedLists(c, r, Available);
    var c1 := Reported(c, r, Available).state;
    NeedyIs(c, c1, r, offset);
    var to := FirstNeedy(c1, offset, 0);
    if to != -1 {
      AssignIs(c1, to, r);
      TakerPlaced(c, c1, r, offset, to);
    } else {
      assert ProcessAvailable(c, r, offset) == Next((c1, None));
    }
    hide Inv, Reported, FirstNeedy, LeftList, HelpedOnlyBy, Distance, Assign, CanTake;
  }

  lemma TakerPlaced(c: Center, c1: Center, r: nat, offset: nat, to: nat)
    requires Lists(c, c1, r, None) && 1 <= r < |c.standing| && CanTake(c, to, r)
    requires c1.standing == c.standing[r := Available] && c1.tree.up == c.tree.up[r := NOBODY]
    requires forall q: nat | q < |c.standing| && CanTake(c, q, r) ::
      Distance(to, offset, |c.standing|) <= Distance(q, offset, |c.standing|)
    ensures var t := Tree(c1.tree.helpers[to := [r]], c1.tree.up[r := to]);
            AvailableLaw(c, r, offset, (Center(c1.standing[r := Assigned], t), Some(Assignment(to, r))))
  {
    hide LeftList, HelpedOnlyBy, Distance;
    assert c1.standing[r := Assigned] == c.standing[r := Assigned];
  }

  /** get_available finds the lowest worker that can be named to r. */
  lemma AvailableIs(c: Center, r: nat)
    requires |c.standing| >= 2 && 1 <= r < |c.standing|
    ensures var helper := FirstAvailable(c.standing[r := Running], 1);
            && (helper == -1 || helper > 0) && (helper == -1 <==> forall q: nat :: !CanHelp(c, q, r))
            && (helper > 0 ==> CanHelp(c, helper, r) && forall q: nat | CanHelp(c, q, r) :: helper <= q)
  {
    var standing := c.standing[r := Running];
    assert forall q: nat :: CanHelp(c, q, r) <==> 1 <= q < |standing| && standing[q] == Available;
  }

  lemma ProcessRunningObeys(c: Center, r: nat)
    requires Inv(c) && 1 <= r < |c.standing|
    ensures ProcessRunning(c, r).Next? && RunningLaw(c, r, ProcessRunning(c, r).state)
  {
    ReportedLists(c, r, Running);
    NotOwnHelper(c, r);
    AvailableIs(c, r);
    var c1 := Reported(c, r, Running).state;
    var helper := FirstAvailable(c1.standing, 1);
    if c1.tree.helpers[r] == [] && helper > 0 {
      AssignIs(c1, r, helper);
      HelperPlaced(c, c1, r, helper);
    } else {
      assert ProcessRunning(c, r) == Next((c1, None));
    }
    hide Inv, Reported, FirstAvailable, LeftList, HelpedOnlyBy, Assign, CanHelp;
  }

  lemma HelperPlaced(c: Center, c1: Center, r: nat, helper: nat)
    requires Lists(c, c1, r, None) && 1 <= r < |c.standing| && CanHelp(c, helper, r)
    requires c1.standing == c.standing[r := Running] && c1.tree.up == c.tree.up[r := NOBODY]
    requires c.tree.helpers[r] == [] && forall q: nat | CanHelp(c, q, r) :: helper <= q
    ensures var t := Tree(c1.tree.helpers[r := [helper]], c1.tree.up[helper := r]);
            RunningLaw(c, r, (Center(c1.standing[helper := Assigned], t), Some(Assignment(r, helper))))
  {
    hide LeftList;
    assert c1.standing[helper := Assigned] == c.standing[r := Running][helper := Assigned];
  }

  lemma NotOwnHelper(c: Center, r: nat)
    requires Inv(c) && r < |c.standing|
    ensures r !in c.tree.helpers[r]
  {
    var height :| Stacked(c.tree, height);
    if c.tree.up[r] != NOBODY {
      assert height[c.tree.up[r]] > height[r];
    }
  }

  /* ---------- the default topology ---------- */

  /** The largest power of two not above x. */
  function TopBit(x: nat): (b: nat)
    requires x >= 1
    ensures 1 <= b <= x < 2 * b
  {
    if x == 1 then 1 else 2 * TopBit(x / 2)
  }

  /** The rank that build_topology puts r under. */
  function DefaultParent(r: nat): (p: nat)
    requires r >= 2
    ensures 1 <= p < r
  {
    r - TopBit(r - 1)
  }

  /** The children p + bit, p + 2 * bit, ... below n. */
  function Doubling(p: nat, bit: nat, n: nat): seq<nat>
    requires bit >= 1
    decreases n - bit
  {
    if bit >= n then [] else (if p + bit < n then [p + bit] else []) + Doubling(p, 2 * bit, n)
  }

  /** The first power of two above p - 1. */
  function FirstBit(p: nat): nat
    requires p >= 1
  {
    if p == 1 then 1 else 2 * TopBit(p - 1)
  }

  function DefaultTree(n: nat): Tree {
    Tree(seq(n, p requires 0 <= p < n => if p == 0 then [] else Doubling(p, FirstBit(p), n)),
         seq(n, r requires 0 <= r < n => if r < 2 then NOBODY else DefaultParent(r)))
  }

  /** After broadcast_nodes_topology and send_seed. */
  function Initial(n: nat): Center
    requires n >= 2
  {
    Center(seq(n, r requires 0 <= r < n => if r == 0 then Available else if r == 1 then Running else Assigned),
      DefaultTree(n))
  }

  predicate PowerOfTwo(b: nat) {
    b == 1 || (b >= 2 && b % 2 == 0 && PowerOfTwo(b / 2))
  }

  lemma {:induction false} TopBitIsPower(x: nat)
    requires x >= 1
    ensures PowerOfTwo(TopBit(x))
  {
    if x > 1 {
      TopBitIsPower(x / 2);
    }
  }

  /** Adding a power of two above x makes it the top bit. */
  lemma {:induction false} TopBitOfSum(x: nat, b: nat)
    requires PowerOfTwo(b) && x < b
    ensures TopBit(x + b) == b
  {
    if b > 1 {
      assert (x + b) / 2 == x / 2 + b / 2;
      TopBitOfSum(x / 2, b / 2);
    }
  }

  /** The list holds exactly the ranks p + b, b a power of two from bit on. */
  lemma {:induction false} DoublingMembers(p: nat, bit: nat, n: nat)
    requires p >= 1 && PowerOfTwo(bit) && p - 1 < bit
    ensures forall c | c in Doubling(p, bit, n) ::
      2 <= c < n && DefaultParent(c) == p && c - p >= bit
    ensures Distinct(Doubling(p, bit, n))
    decreases n - bit
  {
    if bit < n {
      DoublingMembers(p, 2 * bit, n);
      var rest := Doubling(p, 2 * bit, n);
      assert forall k | 0 <= k < |rest| :: rest[k] in rest;
      if p + bit < n {
        TopBitOfSum(p - 1, bit);
      }
    }
  }

  lemma {:induction false} DoublingContains(p: nat, bit: nat, n: nat, b: nat)
    requires p >= 1 && PowerOfTwo(bit) && PowerOfTwo(b) && bit <= b && p + b < n
    ensures p + b in Doubling(p, bit, n)
    decreases b - bit
  {
    if bit < b {
      NextPower(bit, b);
      DoublingContains(p, 2 * bit, n, b);
    }
  }

  lemma {:induction false} NextPower(a: nat, b: nat)
    requires PowerOfTwo(a) && PowerOfTwo(b) && a < b
    ensures 2 * a <= b
  {
    if a > 1 {
      NextPower(a / 2, b / 2);
    }
  }

  lemma DefaultListed(p: nat, n: nat)
    requires 1 <= p < n
    ensures forall c | c in DefaultTree(n).helpers[p] :: 2 <= c < n && DefaultParent(c) == p
    ensures Distinct(DefaultTree(n).helpers[p])
  {
    FirstBitIsPower(p);
    DoublingMembers(p, FirstBit(p), n);
    hide *;
    DefaultAt(p, n);
  }

  lemma FirstBitIsPower(p: nat)
    requires p >= 1
    ensures PowerOfTwo(FirstBit(p)) && p - 1 < FirstBit(p)
  {
    if p > 1 {
      TopBitIsPower(p - 1);
    }
  }

  lemma DefaultFound(c: nat, n: nat)
    requires 2 <= c < n
    ensures c in DefaultTree(n).helpers[DefaultParent(c)]
  {
    hide *;
    DoublingFound(c, n);
    DefaultAt(DefaultParent(c), n);
  }

  lemma DoublingFound(c: nat, n: nat)
    requires 2 <= c < n
    ensures c in Doubling(DefaultParent(c), FirstBit(DefaultParent(c)), n)
  {
    hide Doubling, PowerOfTwo, FirstBit, TopBit;
    var b := TopBit(c - 1);
    var p := c - b;
    TopBitIsPower(c - 1);
    FirstBitFits(p, b);
    DoublingContains(p, FirstBit(p), n, b);
  }

  lemma DefaultAt(p: nat, n: nat)
    requires 1 <= p < n
    ensures DefaultTree(n).helpers[p] == Doubling(p, FirstBit(p), n)
  {
  }

  /** The first bit of p is a power of two, no larger than any power of two from p on. */
  lemma FirstBitFits(p: nat, b: nat)
    requires 1 <= p <= b && PowerOfTwo(b)
    ensures PowerOfTwo(FirstBit(p)) && FirstBit(p) <= b && p - 1 < FirstBit(p)
  {
    if p > 1 {
      TopBitIsPower(p - 1);
      NextPower(TopBit(p - 1), b);
    }
  }

  /**
   * build_topology's tree: every rank from 2 on sits once, under itself minus the largest power of two not above r - 1.
   */
  lemma DefaultLinked(n: nat)
    ensures Linked(DefaultTree(n))
  {
    forall p: nat | 1 <= p < n
      ensures forall c | c in DefaultTree(n).helpers[p] :: 2 <= c < n && DefaultParent(c) == p
      ensures Distinct(DefaultTree(n).helpers[p])
    {
      DefaultListed(p, n);
    }
    forall c: nat | 2 <= c < n ensures c in DefaultTree(n).helpers[DefaultParent(c)] {
      DefaultFound(c, n);
    }
  }

  lemma InitialInv(n: nat)
    requires n >= 2
    ensures Inv(Initial(n))
  {
    DefaultLinked(n);
    assert Stacked(Initial(n).tree, seq(n, r requires 0 <= r < n => n - r));
  }

  /* ---------- every interleaving of reports ---------- */

  datatype Report = IsRunning(rank: nat) | IsAvailable(rank: nat, offset: nat)

  function Handle(c: Center, r: Report): Outcome<(Center, Option<Assignment>)>
    requires Shaped(c) && 1 <= r.rank < |c.standing|
  {
    if r.IsRunning? then ProcessRunning(c, r.rank) else ProcessAvailable(c, r.rank, r.offset)
  }

  /** What a report does, whatever the handlers' code. */
  ghost predicate Obeys(c: Center, r: Report, o: (Center, Option<Assignment>)) {
    if r.IsRunning? then RunningLaw(c, r.rank, o) else AvailableLaw(c, r.rank, r.offset, o)
  }

  /** Once the report is noted, the helper is AVAILABLE, and the receiver RUNNING without a helper. */
  ghost predicate Fitting(c: Center, r: Report, m: Assignment) {
    && |c.standing| == |c.tree.helpers| && r.rank < |c.standing|
    && var standing := c.standing[r.rank := if r.IsRunning? then Running else Available];
       && 1 <= m.to < |standing| && 1 <= m.helper < |standing|
       && standing[m.to] == Running && standing[m.helper] == Available && HelpedOnlyBy(c, m.to, r.rank)
  }

  lemma HandleSafe(c: Center, r: Report)
    requires Inv(c) && 1 <= r.rank < |c.standing|
    ensures Handled(c, Handle(c, r)) && Obeys(c, r, Handle(c, r).state)
    ensures Handle(c, r).state.1.Some? ==> Fitting(c, r, Handle(c, r).state.1.value)
  {
    if r.IsRunning? {
      ProcessRunningSafe(c, r.rank);
      ProcessRunningObeys(c, r.rank);
    } else {
      ProcessAvailableSafe(c, r.rank, r.offset);
      ProcessAvailableObeys(c, r.rank, r.offset);
    }
    hide Inv, Lists, ProcessRunning, ProcessAvailable;
  }

  /** The states a list of reports leads through, and the message that each sends, if any. */
  datatype Course = Course(states: seq<Center>, sent: seq<Option<Assignment>>)

  /** None once something throws. */
  function HandleAll(c: Center, reports: seq<Report>): Option<Course>
    requires forall r | r in reports :: 1 <= r.rank < |c.standing|
    decreases |reports|
  {
    if reports == [] then Some(Course([c], []))
    else if !Shaped(c) then None
    else match Handle(c, reports[0])
      case Throws(_) => None
      case Next((c1, sent)) =>
        if |c1.standing| != |c.standing| then None
        else match HandleAll(c1, reports[1..])
          case None => None
          case Some(course) => Some(Course([c] + course.states, [sent] + course.sent))
  }

  /** Every state is sound, every report does what it should, and every message fits. */
  ghost predicate Sound(reports: seq<Report>, course: Course) {
    && |course.states| == |reports| + 1 && |course.sent| == |reports|
    && (forall c | c in course.states :: Inv(c))
    && (forall k | 0 <= k < |reports| :: Obeys(course.states[k], reports[k], (course.states[k + 1], course.sent[k])))
    && (forall k | 0 <= k < |reports| && course.sent[k].Some? ::
         Fitting(course.states[k], reports[k], course.sent[k].value))
  }

  /**
   * From the default topology and for every interleaving of reports: nothing throws; a rank is ASSIGNED exactly when
   * it sits in a sibling list, and the parent links are acyclic; each report updates the center's view as it should;
   * and every message names an AVAILABLE helper to a RUNNING rank that had none.
   */
  lemma {:induction false} ForestHolds(c: Center, reports: seq<Report>)
    requires Inv(c) && forall r | r in reports :: 1 <= r.rank < |c.standing|
    ensures HandleAll(c, reports).Some? && Sound(reports, HandleAll(c, reports).value)
    ensures HandleAll(c, reports).value.states[0] == c
    decreases |reports|
  {
    hide Inv, Handle, Obeys, Fitting;
    if reports != [] {
      HandleSafe(c, reports[0]);
      InvShaped(c);
      var (c1, sent) := Handle(c, reports[0]).state;
      ForestHolds(c1, reports[1..]);
      SoundMore(c, c1, sent, reports, HandleAll(c1, reports[1..]).value);
    }
  }

  lemma InvShaped(c: Center)
    requires Inv(c)
    ensures Shaped(c)
  {
  }

  lemma SoundMore(c: Center, c1: Center, sent: Option<Assignment>, reports: seq<Report>, course: Course)
    requires reports != [] && Sound(reports[1..], course) && course.states[0] == c1 && Inv(c)
    requires Obeys(c, reports[0], (c1, sent)) && (sent.Some? ==> Fitting(c, reports[0], sent.value))
    ensures Sound(reports, Course([c] + course.states, [sent] + course.sent))
  {
    hide Inv, Obeys, Fitting;
    var states, all := [c] + course.states, [sent] + course.sent;
    forall k | 0 <= k < |reports|
      ensures Obeys(states[k], reports[k], (states[k + 1], all[k]))
      ensures all[k].Some? ==> Fitting(states[k], reports[k], all[k].value)
    {
      if k > 0 {
        assert reports[k] == reports[1..][k - 1] && states[k + 1] == course.states[k] && all[k] == course.sent[k - 1];
      }
    }
  }

  lemma ForestHoldsFromStart(n: nat, reports: seq<Report>)
    requires n >= 2 && forall r | r in reports :: 1 <= r.rank < n
    ensures HandleAll(Initial(n), reports).Some? && Sound(reports, HandleAll(Initial(n), reports).value)
  {
    InitialInv(n);
    hide Inv, Sound, HandleAll;
    ForestHolds(Initial(n), reports);
  }
}

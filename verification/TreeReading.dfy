/** The printed tree can be read back: indents give every rank its parent, and siblings stand in list order. */
module TreeReading {
  import F = Forest
  import opened ProcessTree
  import opened TreePrinting

  /* ---------- siblings ---------- */

  /** The ranks under x, in the order in which they are printed. */
  function KidsIn(t: F.Tree, lines: seq<Line>, x: nat): seq<nat> {
    if lines == [] then []
    else
      (if lines[0].rank < |t.up| && t.up[lines[0].rank] == x then [lines[0].rank] else []) + KidsIn(t, lines[1..], x)
  }

  lemma {:induction false} KidsBoth(t: F.Tree, a: seq<Line>, b: seq<Line>, x: nat)
    ensures KidsIn(t, a + b, x) == KidsIn(t, a, x) + KidsIn(t, b, x)
  {
    if a == [] {
      assert a + b == b;
    } else {
      assert (a + b)[1..] == a[1..] + b;
      KidsBoth(t, a[1..], b, x);
    }
  }

  lemma {:induction false} BelowKids(t: F.Tree, height: seq<nat>, p: nat, indent: nat, k: nat, x: nat, at: nat)
    requires F.Linked(t) && F.Stacked(t, height) && p < |t.up| && k <= |t.helpers[p]| && x < |t.up|
    requires forall j: nat | j < |t.helpers[p]| ::
      t.helpers[p][j] < |t.up| && (Above(t, height, t.helpers[p][j], x) <==> j == at)
    requires p == x ==> at >= |t.helpers[p]|
    ensures KidsIn(t, Below(t, height, p, indent, k), x)
            == if p == x then t.helpers[p][k..] else if k <= at < |t.helpers[p]| then t.helpers[x] else []
    decreases height[p], |t.helpers[p]| - k
  {
    hide KidsIn, Listing, Below, Above;
    if k < |t.helpers[p]| {
      ChildLower(t, height, p, k);
      var c := t.helpers[p][k];
      ChildOf(t, p, k);
      ListingKids(t, height, c, indent, x);
      BelowKids(t, height, p, indent, k + 1, x, at);
      KidsBoth(t, Listing(t, height, c, indent), Below(t, height, p, indent, k + 1), x);
      assert t.helpers[p][k..] == [c] + t.helpers[p][k + 1..];
      BelowStep(t, height, p, indent, k);
    } else {
      NoKidsBelow(t, height, p, indent, x);
    }
  }

  lemma NoKidsBelow(t: F.Tree, height: seq<nat>, p: nat, indent: nat, x: nat)
    requires F.Linked(t) && F.Stacked(t, height) && p < |t.up|
    ensures KidsIn(t, Below(t, height, p, indent, |t.helpers[p]|), x) == []
  {
  }

  lemma {:induction false} ListingKids(t: F.Tree, height: seq<nat>, p: nat, indent: nat, x: nat)
    requires F.Linked(t) && F.Stacked(t, height) && p < |t.up| && x < |t.up|
    ensures KidsIn(t, Listing(t, height, p, indent), x)
            == (if t.up[p] == x then [p] else []) + if Above(t, height, p, x) then t.helpers[x] else []
    decreases height[p], |t.helpers[p]| + 1
  {
    var s := t.helpers[p];
    var at := |s|;
    if x != p && Above(t, height, p, x) {
      at := OneChildAbove(t, height, p, x);
    } else {
      NoChildAbove(t, height, p, x);
    }
    BelowKids(t, height, p, indent + 1, 0, x, at);
    KidsBoth(t, [Line(p, indent)], Below(t, height, p, indent + 1, 0), x);
    assert s[0..] == s;
  }

  /** No child of p lies above x if p does not, or is x. */
  lemma NoChildAbove(t: F.Tree, height: seq<nat>, p: nat, x: nat)
    requires F.Linked(t) && F.Stacked(t, height) && p < |t.up| && x < |t.up|
    requires x == p || !Above(t, height, p, x)
    ensures forall j: nat | j < |t.helpers[p]| :: t.helpers[p][j] < |t.up| && !Above(t, height, t.helpers[p][j], x)
  {
    var s := t.helpers[p];
    forall j: nat | j < |s| ensures s[j] < |t.up| && !Above(t, height, s[j], x) {
      ChildLower(t, height, p, j);
      ChildOf(t, p, j);
      if Above(t, height, s[j], x) {
        AboveParent(t, height, s[j], x);
      }
    }
  }

  lemma {:induction false} PrintedKids(t: F.Tree, height: seq<nat>, n: nat, x: nat, r: nat)
    requires F.Linked(t) && F.Stacked(t, height) && n <= |t.up| && x < |t.up|
    requires r < |t.up| && t.up[r] == F.NOBODY
    requires forall q: nat | q < |t.up| && t.up[q] == F.NOBODY :: Above(t, height, q, x) <==> q == r
    ensures KidsIn(t, Printed(t, height, n), x) == if r < n then t.helpers[x] else []
  {
    hide Listing, Below, Above, F.Stacked, F.Linked;
    if n > 0 {
      PrintedKids(t, height, n - 1, x, r);
      if t.up[n - 1] == F.NOBODY {
        ListingKids(t, height, n - 1, 0, x);
        KidsBoth(t, Printed(t, height, n - 1), Listing(t, height, n - 1, 0), x);
      } else {
        assert Printed(t, height, n - 1) + [] == Printed(t, height, n - 1);
      }
    }
  }

  /* ---------- parents ---------- */

  /** The i-th line is at the outermost indent, under p, or the nearest line above it with less indent is its parent. */
  ghost predicate Under(t: F.Tree, lines: seq<Line>, i: nat, base: nat, p: int)
    requires i < |lines|
  {
    && lines[i].rank < |t.up| && lines[i].indent >= base
    && if lines[i].indent == base then t.up[lines[i].rank] == p else exists j :: 0 <= j < i && Parent(t, lines, j, i)
  }

  predicate Parent(t: F.Tree, lines: seq<Line>, j: nat, i: nat)
    requires j < i < |lines|
  {
    && lines[i].rank < |t.up| && t.up[lines[i].rank] == lines[j].rank && lines[i].indent == lines[j].indent + 1
    && forall k | j < k < i :: lines[k].indent >= lines[i].indent
  }

  ghost predicate AllUnder(t: F.Tree, lines: seq<Line>, base: nat, p: int) {
    forall i | 0 <= i < |lines| :: Under(t, lines, i, base, p)
  }

  lemma UnderBoth(t: F.Tree, a: seq<Line>, b: seq<Line>, base: nat, p: int)
    requires AllUnder(t, a, base, p) && AllUnder(t, b, base, p)
    ensures AllUnder(t, a + b, base, p)
  {
    var both := a + b;
    forall i | 0 <= i < |both| ensures Under(t, both, i, base, p) {
      if i < |a| {
        assert Under(t, a, i, base, p) && both[i] == a[i];
        if a[i].indent != base {
          var j :| 0 <= j < i && Parent(t, a, j, i);
          assert Parent(t, both, j, i);
        }
      } else {
        assert Under(t, b, i - |a|, base, p) && both[i] == b[i - |a|];
        if both[i].indent != base {
          var j :| 0 <= j < i - |a| && Parent(t, b, j, i - |a|);
          assert forall k | |a| <= k < |both| :: both[k] == b[k - |a|];
          assert Parent(t, both, |a| + j, i);
        }
      }
    }
  }

  /** A line above lines that are all under it. */
  lemma UnderHead(t: F.Tree, head: Line, rest: seq<Line>)
    requires head.rank < |t.up| && AllUnder(t, rest, head.indent + 1, head.rank)
    ensures AllUnder(t, [head] + rest, head.indent, t.up[head.rank])
  {
    var all := [head] + rest;
    forall i | 0 <= i < |all| ensures Under(t, all, i, head.indent, t.up[head.rank]) {
      if i > 0 {
        assert Under(t, rest, i - 1, head.indent + 1, head.rank) && all[i] == rest[i - 1];
        assert forall k | 1 <= k < |all| :: all[k] == rest[k - 1] && Under(t, rest, k - 1, head.indent + 1, head.rank);
        if all[i].indent == head.indent + 1 {
          assert Parent(t, all, 0, i);
        } else {
          var j :| 0 <= j < i - 1 && Parent(t, rest, j, i - 1);
          assert Parent(t, all, j + 1, i);
        }
      }
    }
  }

  lemma {:induction false} BelowUnder(t: F.Tree, height: seq<nat>, p: nat, indent: nat, k: nat)
    requires F.Linked(t) && F.Stacked(t, height) && p < |t.up| && k <= |t.helpers[p]|
    ensures AllUnder(t, Below(t, height, p, indent, k), indent, p)
    decreases height[p], |t.helpers[p]| - k
  {
    hide AllUnder;
    if k == |t.helpers[p]| {
      NothingUnder(t, indent, p);
    } else {
      ChildLower(t, height, p, k);
      ChildOf(t, p, k);
      var c := t.helpers[p][k];
      ListingUnder(t, height, c, indent);
      BelowUnder(t, height, p, indent, k + 1);
      UnderBoth(t, Listing(t, height, c, indent), Below(t, height, p, indent, k + 1), indent, p);
    }
  }

  lemma NothingUnder(t: F.Tree, base: nat, p: int)
    ensures AllUnder(t, [], base, p)
  {
  }

  lemma {:induction false} ListingUnder(t: F.Tree, height: seq<nat>, p: nat, indent: nat)
    requires F.Linked(t) && F.Stacked(t, height) && p < |t.up|
    ensures AllUnder(t, Listing(t, height, p, indent), indent, t.up[p])
    decreases height[p], |t.helpers[p]| + 1
  {
    hide AllUnder;
    BelowUnder(t, height, p, indent + 1, 0);
    UnderHead(t, Line(p, indent), Below(t, height, p, indent + 1, 0));
  }

  lemma {:induction false} PrintedUnder(t: F.Tree, height: seq<nat>, n: nat)
    requires F.Linked(t) && F.Stacked(t, height) && n <= |t.up|
    ensures AllUnder(t, Printed(t, height, n), 0, F.NOBODY)
  {
    hide AllUnder, Listing, Below, F.Stacked, F.Linked;
    if n == 0 {
      NothingUnder(t, 0, F.NOBODY);
    } else {
      PrintedUnder(t, height, n - 1);
      if t.up[n - 1] == F.NOBODY {
        ListingUnder(t, height, n - 1, 0);
        UnderBoth(t, Printed(t, height, n - 1), Listing(t, height, n - 1, 0), 0, F.NOBODY);
      } else {
        assert Printed(t, height, n - 1) + [] == Printed(t, height, n - 1);
      }
    }
  }

  lemma AllIs(t: F.Tree, lines: seq<Line>, i: nat)
    requires AllUnder(t, lines, 0, F.NOBODY) && i < |lines|
    ensures Under(t, lines, i, 0, F.NOBODY)
  {
  }

  /**
   * For every acyclic tree: a line without indent is of a rank without parent; the nearest line above any other with
   * one indent less, nothing with less indent between, is of its parent; and the children of each rank stand in the
   * order of its list. So the text determines the tree.
   */
  lemma TextDeterminesTree(t: F.Tree, height: seq<nat>)
    requires F.Linked(t) && F.Stacked(t, height)
    ensures var lines := Printed(t, height, |t.up|);
            && (forall i | 0 <= i < |lines| :: lines[i].rank < |t.up| &&
                 if lines[i].indent == 0 then t.up[lines[i].rank] == F.NOBODY
                 else exists j :: 0 <= j < i && Parent(t, lines, j, i))
            && (forall x: nat | x < |t.up| :: KidsIn(t, lines, x) == t.helpers[x])
  {
    PrintedUnder(t, height, |t.up|);
    var lines := Printed(t, height, |t.up|);
    hide Printed, AllUnder;
    forall i | 0 <= i < |lines|
      ensures lines[i].rank < |t.up| &&
        if lines[i].indent == 0 then t.up[lines[i].rank] == F.NOBODY
        else exists j :: 0 <= j < i && Parent(t, lines, j, i)
    {
      AllIs(t, lines, i);
    }
    forall x: nat | x < |t.up| ensures KidsIn(t, lines, x) == t.helpers[x] {
      var r := OneRoot(t, height, x);
      PrintedKids(t, height, |t.up|, x, r);
    }
  }
}

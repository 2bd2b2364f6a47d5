/** to_string and print_node of include/gempba/utils/tree.hpp: a preorder walk over the sibling links. */
module TreePrinting {
  import F = Forest
  import opened ProcessTree
  import T = Topology

  /** One printed line; the source writes two blanks per indent, then the rank. */
  datatype Line = Line(rank: nat, indent: nat)

  /** The lines of p and everything below it. */
  ghost function Listing(t: F.Tree, height: seq<nat>, p: nat, indent: nat): seq<Line>
    requires F.Linked(t) && F.Stacked(t, height) && p < |t.up|
    decreases height[p], |t.helpers[p]| + 1
  {
    [Line(p, indent)] + Below(t, height, p, indent + 1, 0)
  }

  /** The lines of p's children from the k-th on. */
  ghost function Below(t: F.Tree, height: seq<nat>, p: nat, indent: nat, k: nat): seq<Line>
    requires F.Linked(t) && F.Stacked(t, height) && p < |t.up| && k <= |t.helpers[p]|
    decreases height[p], |t.helpers[p]| - k
  {
    if k == |t.helpers[p]| then []
    else
      ChildOf(t, p, k);
      Listing(t, height, t.helpers[p][k], indent) + Below(t, height, p, indent, k + 1)
  }

  /** The lines of the ranks before n that have no parent, each with everything below it. */
  ghost function Printed(t: F.Tree, height: seq<nat>, n: nat): seq<Line>
    requires F.Linked(t) && F.Stacked(t, height) && n <= |t.up|
  {
    if n == 0 then []
    else Printed(t, height, n - 1) + if t.up[n - 1] == F.NOBODY then Listing(t, height, n - 1, 0) else []
  }

  method PrintNode(tree: LinkedTree, out: seq<Line>, p: nat, indent: nat, ghost height: seq<nat>)
    returns (out': seq<Line>)
    requires tree.Valid() && p < |tree.nodes| && F.Stacked(tree.model, height)
    ensures out' == out + Listing(tree.model, height, p, indent)
    decreases height[p]
  {
    hide Listing, Below;
    ghost var t := tree.model;
    out' := out + [Line(p, indent)];
    var children := tree.Children(p);
    for k := 0 to |children|
      invariant out' + Below(t, height, p, indent + 1, k)
        == out + [Line(p, indent)] + Below(t, height, p, indent + 1, 0)
    {
      ChildLower(t, height, p, k);
      BelowStep(t, height, p, indent + 1, k);
      ghost var before := out';
      out' := PrintNode(tree, out', children[k], indent + 1, height);
      Regroup(before, Listing(t, height, children[k], indent + 1), Below(t, height, p, indent + 1, k + 1));
    }
    ListingIs(t, height, p, indent);
    Regroup(out, [Line(p, indent)], Below(t, height, p, indent + 1, 0));
  }

  lemma BelowStep(t: F.Tree, height: seq<nat>, p: nat, indent: nat, k: nat)
    requires F.Linked(t) && F.Stacked(t, height) && p < |t.up| && k < |t.helpers[p]|
    ensures t.helpers[p][k] < |t.up|
    ensures Below(t, height, p, indent, k)
      == Listing(t, height, t.helpers[p][k], indent) + Below(t, height, p, indent, k + 1)
  {
    ChildLower(t, height, p, k);
  }

  lemma Regroup(a: seq<Line>, b: seq<Line>, c: seq<Line>)
    ensures a + (b + c) == (a + b) + c
  {
  }

  lemma ChildLower(t: F.Tree, height: seq<nat>, p: nat, k: nat)
    requires F.Linked(t) && F.Stacked(t, height) && p < |t.up| && k < |t.helpers[p]|
    ensures t.helpers[p][k] < |t.up| && height[t.helpers[p][k]] < height[p]
  {
    ChildOf(t, p, k);
  }

  lemma ListingIs(t: F.Tree, height: seq<nat>, p: nat, indent: nat)
    requires F.Linked(t) && F.Stacked(t, height) && p < |t.up|
    ensures Listing(t, height, p, indent) == [Line(p, indent)] + Below(t, height, p, indent + 1, 0)
    ensures Below(t, height, p, indent + 1, |t.helpers[p]|) == []
  {
  }

  method ToString(tree: LinkedTree, ghost height: seq<nat>) returns (out: seq<Line>)
    requires tree.Valid() && F.Stacked(tree.model, height)
    ensures out == Printed(tree.model, height, |tree.nodes|)
  {
    hide Listing, Below, LinksOf, F.Stacked;
    out := [];
    for i := 0 to |tree.nodes|
      invariant out == Printed(tree.model, height, i)
    {
      LinkIs(tree.model, tree.links, i);
      if tree.nodes[i].parent == null {
        out := PrintNode(tree, out, i, 0, height);
      }
    }
  }

  /* ---------- every rank is printed once ---------- */

  /** How many lines name rank x. */
  function Mentions(lines: seq<Line>, x: nat): nat {
    if lines == [] then 0 else (if lines[0].rank == x then 1 else 0) + Mentions(lines[1..], x)
  }

  lemma {:induction false} MentionsBoth(a: seq<Line>, b: seq<Line>, x: nat)
    ensures Mentions(a + b, x) == Mentions(a, x) + Mentions(b, x)
  {
    if a == [] {
      assert a + b == b;
    } else {
      assert (a + b)[1..] == a[1..] + b;
      MentionsBoth(a[1..], b, x);
    }
  }

  /** The parent links lead from x to p. */
  ghost predicate Above(t: F.Tree, height: seq<nat>, p: nat, x: nat)
    requires F.Linked(t) && F.Stacked(t, height) && p < |t.up| && x < |t.up|
    decreases if height[x] < height[p] then height[p] - height[x] else 0
  {
    x == p || (height[x] < height[p] && t.up[x] != F.NOBODY && Above(t, height, p, t.up[x]))
  }

  lemma {:induction false} AboveParent(t: F.Tree, height: seq<nat>, c: nat, x: nat)
    requires F.Linked(t) && F.Stacked(t, height) && c < |t.up| && x < |t.up|
    requires t.up[c] != F.NOBODY && Above(t, height, c, x)
    ensures height[x] <= height[c] && Above(t, height, t.up[c], x)
    decreases if height[x] < height[c] then height[c] - height[x] else 0
  {
    if x != c {
      AboveParent(t, height, c, t.up[x]);
    }
  }

  /** Exactly one child of p lies on the way from x up to p. */
  lemma {:induction false} OneChildAbove(t: F.Tree, height: seq<nat>, p: nat, x: nat) returns (k: nat)
    requires F.Linked(t) && F.Stacked(t, height) && p < |t.up| && x < |t.up| && x != p && Above(t, height, p, x)
    ensures k < |t.helpers[p]| && forall j: nat | j < |t.helpers[p]| ::
      t.helpers[p][j] < |t.up| && (Above(t, height, t.helpers[p][j], x) <==> j == k)
    decreases height[p] - height[x]
  {
    var s, u := t.helpers[p], t.up[x];
    if u == p {
      k := Pos(s, x);
    } else {
      k := OneChildAbove(t, height, p, u);
    }
    forall j: nat | j < |s| ensures s[j] < |t.up| && (Above(t, height, s[j], x) <==> j == k) {
      ChildLower(t, height, p, j);
      ChildOf(t, p, j);
      if u == p {
        PosIs(s, j);
      } else if Above(t, height, s[j], u) {
        AboveParent(t, height, s[j], u);
      }
    }
  }

  /** The child lists of p from k on mention x once if the child on x's way is among them. */
  lemma {:induction false} BelowMentions(t: F.Tree, height: seq<nat>, p: nat, indent: nat, k: nat, x: nat, at: nat)
    requires F.Linked(t) && F.Stacked(t, height) && p < |t.up| && k <= |t.helpers[p]| && x < |t.up|
    requires forall j: nat | j < |t.helpers[p]| ::
      t.helpers[p][j] < |t.up| && (Above(t, height, t.helpers[p][j], x) <==> j == at)
    ensures Mentions(Below(t, height, p, indent, k), x) == if k <= at < |t.helpers[p]| then 1 else 0
    decreases height[p], |t.helpers[p]| - k
  {
    if k < |t.helpers[p]| {
      ChildLower(t, height, p, k);
      var c := t.helpers[p][k];
      ListingMentions(t, height, c, indent, x);
      BelowMentions(t, height, p, indent, k + 1, x, at);
      MentionsBoth(Listing(t, height, c, indent), Below(t, height, p, indent, k + 1), x);
    }
  }

  lemma {:induction false} ListingMentions(t: F.Tree, height: seq<nat>, p: nat, indent: nat, x: nat)
    requires F.Linked(t) && F.Stacked(t, height) && p < |t.up| && x < |t.up|
    ensures Mentions(Listing(t, height, p, indent), x) == if Above(t, height, p, x) then 1 else 0
    decreases height[p], |t.helpers[p]| + 1
  {
    var s := t.helpers[p];
    var at := |s|;
    if x != p && Above(t, height, p, x) {
      at := OneChildAbove(t, height, p, x);
    } else {
      forall j: nat | j < |s| ensures s[j] < |t.up| && !Above(t, height, s[j], x) {
        ChildLower(t, height, p, j);
        ChildOf(t, p, j);
        if Above(t, height, s[j], x) {
          AboveParent(t, height, s[j], x);
        }
      }
    }
    BelowMentions(t, height, p, indent + 1, 0, x, at);
    MentionsBoth([Line(p, indent)], Below(t, height, p, indent + 1, 0), x);
  }

  /** The largest height. */
  function Peak(height: seq<nat>): (m: nat)
    ensures forall c | 0 <= c < |height| :: height[c] <= m
  {
    if height == [] then 0 else
      var m := Peak(height[1..]);
      assert forall c | 0 < c < |height| :: height[c] == height[1..][c - 1];
      if height[0] > m then height[0] else m
  }

  /** Exactly one rank without a parent lies above x. */
  lemma {:induction false} OneRoot(t: F.Tree, height: seq<nat>, x: nat) returns (r: nat)
    requires F.Linked(t) && F.Stacked(t, height) && x < |t.up|
    ensures r < |t.up| && t.up[r] == F.NOBODY
    ensures forall q: nat | q < |t.up| && t.up[q] == F.NOBODY :: Above(t, height, q, x) <==> q == r
    ensures height[x] <= height[r]
    decreases Peak(height) - height[x]
  {
    if t.up[x] == F.NOBODY {
      r := x;
    } else {
      r := OneRoot(t, height, t.up[x]);
      forall q: nat | q < |t.up| && t.up[q] == F.NOBODY ensures Above(t, height, q, x) <==> q == r {
        assert Above(t, height, q, t.up[x]) <==> q == r;
      }
    }
  }

  lemma {:induction false} PrintedMentions(t: F.Tree, height: seq<nat>, n: nat, x: nat, r: nat)
    requires F.Linked(t) && F.Stacked(t, height) && n <= |t.up| && x < |t.up|
    requires r < |t.up| && t.up[r] == F.NOBODY
    requires forall q: nat | q < |t.up| && t.up[q] == F.NOBODY :: Above(t, height, q, x) <==> q == r
    ensures Mentions(Printed(t, height, n), x) == if r < n then 1 else 0
  {
    hide Listing, Below, Above, F.Stacked, F.Linked, Mentions;
    if n == 0 {
      NoneMentioned(x);
    } else {
      PrintedMentions(t, height, n - 1, x, r);
      if t.up[n - 1] == F.NOBODY {
        ListingMentions(t, height, n - 1, 0, x);
        MentionsBoth(Printed(t, height, n - 1), Listing(t, height, n - 1, 0), x);
      } else {
        assert Printed(t, height, n - 1) + [] == Printed(t, height, n - 1);
      }
    }
  }

  lemma NoneMentioned(x: nat)
    ensures Mentions([], x) == 0
  {
  }

  /** Every rank of an acyclic tree is printed exactly once. */
  lemma EveryRankOnce(t: F.Tree, height: seq<nat>, x: nat)
    requires F.Linked(t) && F.Stacked(t, height) && x < |t.up|
    ensures Mentions(Printed(t, height, |t.up|), x) == 1
  {
    var r := OneRoot(t, height, x);
    PrintedMentions(t, height, |t.up|, x, r);
  }

  /** build_topology and then to_string: every rank appears once. */
  method PrintDefault(n: nat) returns (out: seq<Line>)
    requires n >= 2
    ensures forall x: nat | x < n :: Mentions(out, x) == 1
  {
    var tree := T.DefaultTopology(n);
    ghost var height: seq<nat> := seq(n, r requires 0 <= r < n => n - r);
    assert F.Stacked(tree.model, height);
    out := ToString(tree, height);
    forall x: nat | x < n ensures Mentions(out, x) == 1 {
      EveryRankOnce(tree.model, height, x);
    }
  }
}

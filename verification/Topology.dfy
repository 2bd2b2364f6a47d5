/** The default topology (build_topology, include/gempba/utils/utils.hpp), on the linked process tree. */
module Topology {
  import opened Common
  import F = Forest
  import opened ProcessTree

  /* ---------- which ranks a call reaches ---------- */

  function Pow2(d: nat): (b: nat)
    ensures b >= 1 && F.PowerOfTwo(b)
  {
    if d == 0 then 1 else 2 * Pow2(d - 1)
  }

  /** The ranks that a call for parent p from step b on puts somewhere. */
  predicate Under(c: nat, p: nat, b: nat)
    requires b >= 1
  {
    c > p && (c - p) % b == 0
  }

  /** Those are the ranks of the next step, the child p + b, and the ranks under that child. */
  lemma UnderSplit(c: nat, p: nat, b: nat)
    requires b >= 1
    ensures Under(c, p, b) <==> Under(c, p, 2 * b) || c == p + b || Under(c, p + b, 2 * b)
    ensures Under(c, p, 2 * b) ==> c != p + b && !Under(c, p + b, 2 * b)
    ensures Under(c, p, b) ==> c >= p + b
  {
    if c > p {
      DivisorSplit(c - p, b);
      ShiftedUnder(c, p, b);
    }
  }

  lemma ShiftedUnder(c: nat, p: nat, b: nat)
    requires b >= 1 && c > p
    ensures Under(c, p + b, 2 * b) <==> c != p + b && c > p + b && (c - p) % (2 * b) == b
  {
    ShiftedDivisor(c - p, 2 * b, b);
  }

  /** A multiple of b is an even or an odd multiple. */
  lemma DivisorSplit(x: int, b: int)
    requires b >= 1 && x > 0
    ensures x % b == 0 <==> x % (2 * b) == 0 || x % (2 * b) == b
    ensures x % b == 0 ==> x >= b
    ensures x % (2 * b) == 0 ==> x >= 2 * b
  {
    var q, r := x / (2 * b), x % (2 * b);
    assert x == 2 * b * q + r;
    if r < b {
      Quotient(x, b, 2 * q, r);
    } else {
      Quotient(x, b, 2 * q + 1, r - b);
    }
  }

  lemma ShiftedDivisor(x: int, m: int, s: int)
    requires m > s >= 1
    ensures (x - s) % m == 0 <==> x % m == s
  {
    var q, r := x / m, x % m;
    assert x == m * q + r;
    if r >= s {
      Quotient(x - s, m, q, r - s);
    } else {
      Quotient(x - s, m, q - 1, r - s + m);
    }
  }

  /* ---------- what a call does to the tree ---------- */

  /** Nothing a call for p from step b on reaches has been placed yet. */
  ghost predicate Bare(t: F.Tree, p: nat, b: nat)
    requires b >= 1
  {
    && |t.up| == |t.helpers| && p < |t.up|
    && forall c: nat | c < |t.up| && Under(c, p, b) :: t.up[c] == F.NOBODY && t.helpers[c] == []
  }

  /** c sits where the default topology has it, with its own children below. */
  predicate Placed(t: F.Tree, c: nat)
    requires |t.up| == |t.helpers| && 2 <= c < |t.up|
  {
    t.up[c] == F.DefaultParent(c) && t.helpers[c] == F.Doubling(c, F.FirstBit(c), |t.up|)
  }

  /** From t to t' the steps b0, 2 * b0, ... below b have been done for p, and nothing else. */
  ghost predicate Grown(t: F.Tree, t': F.Tree, p: nat, b0: nat, b: nat)
    requires b0 >= 1 && b >= 1
  {
    var n := |t.up|;
    && |t.helpers| == |t'.up| == |t'.helpers| == n && 1 <= p < n
    && t'.helpers[p] + F.Doubling(p, b, n) == F.Doubling(p, b0, n)
    && t'.up[p] == t.up[p]
    && forall c: nat | c < n && c != p ::
         if Under(c, p, b0) && !Under(c, p, b) then Placed(t', c)
         else t'.up[c] == t.up[c] && t'.helpers[c] == t.helpers[c]
  }

  /** All steps from b0 on. */
  ghost predicate Built(t: F.Tree, t': F.Tree, p: nat, b0: nat)
    requires b0 >= 1
  {
    var n := |t.up|;
    && |t.helpers| == |t'.up| == |t'.helpers| == n && 1 <= p < n
    && t'.helpers[p] == F.Doubling(p, b0, n) && t'.up[p] == t.up[p]
    && forall c: nat | c < n && c != p ::
         if Under(c, p, b0) then Placed(t', c) else t'.up[c] == t.up[c] && t'.helpers[c] == t.helpers[c]
  }

  /** A step whose child would be out of range changes nothing. */
  lemma GrownIdle(t: F.Tree, t': F.Tree, p: nat, b0: nat, b: nat)
    requires b0 >= 1 && b >= 1 && Grown(t, t', p, b0, b) && p + b >= |t.up|
    requires forall c: nat | c < |t.up| && Under(c, p, b) :: Under(c, p, b0)
    ensures Grown(t, t', p, b0, 2 * b)
    ensures forall c: nat | c < |t.up| && Under(c, p, 2 * b) :: Under(c, p, b0)
  {
    forall c: nat | c < |t.up| ensures !Under(c, p, b) && !Under(c, p, 2 * b) {
      UnderSplit(c, p, b);
    }
  }

  /** The child is free and its own call finds everything below it bare. */
  lemma ChildBare(t: F.Tree, t': F.Tree, p: nat, b0: nat, b: nat)
    requires b0 >= 1 && b >= 1 && Bare(t, p, b0) && Grown(t, t', p, b0, b) && p + b < |t.up|
    requires forall c: nat | c < |t.up| && Under(c, p, b) :: Under(c, p, b0)
    ensures t'.up[p + b] == F.NOBODY && t'.helpers[p + b] == []
    ensures Bare(F.AddNext(t', p, p + b).state, p + b, 2 * b)
  {
    UnderSplit(p + b, p, b);
    forall c: nat | c < |t.up| && Under(c, p + b, 2 * b) ensures Under(c, p, b) && c != p + b && c != p {
      UnderSplit(c, p, b);
    }
  }

  /** A step with its recursive call. */
  lemma GrownStep(t: F.Tree, t': F.Tree, p: nat, b0: nat, b: nat, t'': F.Tree)
    requires b0 >= 1 && F.PowerOfTwo(b) && b >= 1 && p - 1 < b
    requires Bare(t, p, b0) && Grown(t, t', p, b0, b) && p + b < |t.up|
    requires forall c: nat | c < |t.up| && Under(c, p, b) :: Under(c, p, b0)
    requires t'.up[p + b] == F.NOBODY && Built(F.AddNext(t', p, p + b).state, t'', p + b, 2 * b)
    ensures Grown(t, t'', p, b0, 2 * b)
    ensures forall c: nat | c < |t.up| && Under(c, p, 2 * b) :: Under(c, p, b0)
  {
    var n, k, t1 := |t.up|, p + b, F.AddNext(t', p, p + b).state;
    F.TopBitOfSum(p - 1, b);
    UnderSplit(p, p, b);
    assert t''.helpers[p] == t1.helpers[p] && t''.up[p] == t.up[p];
    assert t''.helpers[p] + F.Doubling(p, 2 * b, n) == t'.helpers[p] + F.Doubling(p, b, n);
    forall c: nat | c < n && c != p
      ensures Under(c, p, 2 * b) ==> Under(c, p, b0)
      ensures if Under(c, p, b0) && !Under(c, p, 2 * b) then Placed(t'', c)
              else t''.up[c] == t.up[c] && t''.helpers[c] == t.helpers[c]
    {
      UnderSplit(c, p, b);
      StepAt(t, t', p, b0, b, t'', c);
    }
  }

  lemma StepAt(t: F.Tree, t': F.Tree, p: nat, b0: nat, b: nat, t'': F.Tree, c: nat)
    requires b0 >= 1 && b >= 1 && Grown(t, t', p, b0, b) && p + b < |t.up| && c < |t.up| && c != p
    requires F.TopBit(p + b - 1) == b
    requires Under(c, p, b) ==> Under(c, p, b0)
    requires Under(c, p, b) <==> Under(c, p, 2 * b) || c == p + b || Under(c, p + b, 2 * b)
    requires Under(c, p, 2 * b) ==> c != p + b && !Under(c, p + b, 2 * b)
    requires t'.up[p + b] == F.NOBODY && Built(F.AddNext(t', p, p + b).state, t'', p + b, 2 * b)
    ensures if Under(c, p, b0) && !Under(c, p, 2 * b) then Placed(t'', c)
            else t''.up[c] == t.up[c] && t''.helpers[c] == t.helpers[c]
  {
    hide F.Doubling, F.TopBit, Under;
  }

  /** Once the steps have passed the size, nothing is left. */
  lemma GrownDone(t: F.Tree, t': F.Tree, p: nat, b0: nat, b: nat)
    requires b0 >= 1 && b >= 1 && Grown(t, t', p, b0, b) && b >= |t.up|
    ensures Built(t, t', p, b0)
  {
    forall c: nat | c < |t.up| ensures !Under(c, p, b) {
      UnderSplit(c, p, b);
    }
    assert F.Doubling(p, b, |t.up|) == [];
  }

  /**
   * build_topology with two children per node. The bound on the depth compares it with the logarithm of the
   * number of ranks, that is, 2 to the depth with that number.
   */
  method BuildTopology(tree: LinkedTree, p: nat, depthStart: nat)
    requires tree.Valid() && 1 <= p < |tree.nodes| && p - 1 < Pow2(depthStart)
    requires Bare(tree.model, p, Pow2(depthStart)) && tree.model.helpers[p] == []
    modifies tree`model, tree`links, tree.nodes
    ensures tree.Valid() && Built(old(tree.model), tree.model, p, Pow2(depthStart))
    decreases |tree.nodes| - p
  {
    hide Bare, Grown, Built, Under, F.AddNext, F.Doubling, F.PowerOfTwo, Pow2, Refines;
    ghost var t0, b0, n := tree.model, Pow2(depthStart), |tree.nodes|;
    var depth := depthStart;
    Sized(tree.links, t0);
    GrownStart(t0, p, b0);
    while Pow2(depth) < |tree.nodes|
      invariant tree.Valid() && |t0.up| == n && b0 <= Pow2(depth)
      invariant Grown(t0, tree.model, p, b0, Pow2(depth))
      invariant forall c: nat | c < n && Under(c, p, Pow2(depth)) :: Under(c, p, b0)
      decreases |tree.nodes| - Pow2(depth)
    {
      NextDepth(depth);
      var child := p + Pow2(depth);
      if child < |tree.nodes| {
        ghost var t1 := tree.model;
        Sized(tree.links, t1);
        ChildBare(t0, t1, p, b0, Pow2(depth));
        var thrown := tree.AddNext(p, child);
        AddNextTakes(t1, p, child);
        assert !thrown;
        BuildTopology(tree, child, depth + 1);
        GrownStep(t0, t1, p, b0, Pow2(depth), tree.model);
      } else {
        GrownIdle(t0, tree.model, p, b0, Pow2(depth));
      }
      depth := depth + 1;
    }
    GrownDone(t0, tree.model, p, b0, Pow2(depth));
  }

  lemma Sized(links: seq<Links>, t: F.Tree)
    requires Refines(links, t)
    ensures |t.up| == |t.helpers| == |links|
  {
  }

  lemma NextDepth(d: nat)
    ensures Pow2(d + 1) == 2 * Pow2(d)
  {
  }

  lemma GrownStart(t: F.Tree, p: nat, b: nat)
    requires b >= 1 && |t.up| == |t.helpers| && 1 <= p < |t.up| && t.helpers[p] == []
    ensures Grown(t, t, p, b, b)
  {
  }

  lemma AddNextTakes(t: F.Tree, p: nat, c: nat)
    requires p < |t.up| == |t.helpers| && c < |t.up| && c != p && t.up[c] == F.NOBODY
    ensures F.AddNext(t, p, c).Next? && |F.AddNext(t, p, c).state.helpers| == |t.helpers|
    ensures F.AddNext(t, p, c).state.helpers[c] == t.helpers[c]
  {
  }

  /** The center's call: every rank from 2 on is linked exactly once, under itself less a power of two. */
  method DefaultTopology(n: nat) returns (tree: LinkedTree)
    requires n >= 2
    ensures fresh(tree) && fresh(tree.nodes) && tree.Valid() && |tree.nodes| == n && tree.model == F.DefaultTree(n)
  {
    tree := new LinkedTree(n);
    ghost var t := tree.model;
    BuildTopology(tree, 1, 0);
    WholeTree(t, tree.model, n);
  }

  lemma WholeTree(t: F.Tree, t': F.Tree, n: nat)
    requires n >= 2 && t == F.Tree(seq(n, _ => []), seq(n, _ => F.NOBODY)) && Built(t, t', 1, 1)
    ensures t' == F.DefaultTree(n)
  {
    var d := F.DefaultTree(n);
    forall c: nat | c < n ensures t'.up[c] == d.up[c] && t'.helpers[c] == d.helpers[c] {
      assert c >= 2 ==> Under(c, 1, 1);
    }
    assert t'.up == d.up && t'.helpers == d.helpers;
  }
}

/**
 * The process tree as it is in memory: nodes linked to their parent, their siblings and the two ends of their
 * own sibling list (include/gempba/utils/tree.hpp, src/utils/tree.cpp). It refines the value-level Forest.Tree.
 */
module ProcessTree {
  import opened Common
  import F = Forest

  /* ---------- the links, as ranks ---------- */

  /** The index of x in s, or the length. */
  function Pos(s: seq<nat>, x: nat): (k: nat)
    ensures k <= |s|
    ensures k < |s| ==> s[k] == x
    ensures k == |s| <==> x !in s
  {
    if s == [] then 0 else if s[0] == x then 0 else 1 + Pos(s[1..], x)
  }

  lemma PosIs(s: seq<nat>, k: nat)
    requires F.Distinct(s) && k < |s|
    ensures Pos(s, s[k]) == k
  {
    assert s[k] in s;
  }

  /** parent, left and right sibling, first and last child, or -1; and the number of children. */
  datatype Links = Links(parent: int, left: int, right: int, next: int, last: int, count: int)

  function Before(s: seq<nat>, x: nat): int {
    if 0 < Pos(s, x) < |s| then s[Pos(s, x) - 1] else -1
  }

  function Behind(s: seq<nat>, x: nat): int {
    if Pos(s, x) + 1 < |s| then s[Pos(s, x) + 1] else -1
  }

  function FirstOf(s: seq<nat>): int {
    if s == [] then -1 else s[0]
  }

  function LastOf(s: seq<nat>): int {
    if s == [] then -1 else s[|s| - 1]
  }

  function LinksOf(t: F.Tree, c: nat): Links
    requires c < |t.up| == |t.helpers| && F.NOBODY <= t.up[c] < |t.helpers|
  {
    var s := if t.up[c] == F.NOBODY then [] else t.helpers[t.up[c]];
    Links(t.up[c], Before(s, c), Behind(s, c), FirstOf(t.helpers[c]), LastOf(t.helpers[c]), |t.helpers[c]|)
  }

  /** The links of node x once c sits behind the children s of p. */
  ghost function AddedTo(l: Links, s: seq<nat>, p: nat, c: nat, x: nat): Links {
    var l1 := if x == c then l.(parent := p, left := LastOf(s), right := -1) else l;
    var l2 := if x == LastOf(s) then l1.(right := c) else l1;
    if x == p then l2.(next := if s == [] then c else l2.next, last := c, count := |s| + 1) else l2
  }

  lemma EmptyRow(x: nat)
    ensures Before([], x) == -1 && Behind([], x) == -1
  {
  }

  /** What add_next writes. */
  lemma LinksAdded(t: F.Tree, p: nat, c: nat, x: nat)
    requires F.Linked(t) && p < |t.up| && c < |t.up| && t.up[c] == F.NOBODY && x < |t.up|
    ensures F.NOBODY <= t.up[x] < |t.up| && F.NOBODY <= F.AddNext(t, p, c).state.up[x] < |t.up|
    ensures LinksOf(F.AddNext(t, p, c).state, x) == AddedTo(LinksOf(t, x), t.helpers[p], p, c, x)
  {
    hide Pos, Before, Behind, FirstOf, LastOf;
    var s := t.helpers[p];
    assert c !in s;
    EmptyRow(c);
    AppendedEnds(s, c);
    if x != c && t.up[x] == p {
      assert x in s;
      AppendedInner(s, c, x);
    } else if x != c {
      NotLast(s, x);
    }
  }

  lemma AppendedEnds(s: seq<nat>, c: nat)
    requires c !in s
    ensures Before(s + [c], c) == LastOf(s) && Behind(s + [c], c) == -1 && LastOf(s) != c
    ensures FirstOf(s + [c]) == (if s == [] then c else FirstOf(s)) && LastOf(s + [c]) == c
  {
    assert Pos(s + [c], c) == |s|;
  }

  lemma AppendedInner(s: seq<nat>, c: nat, x: nat)
    requires F.Distinct(s) && x in s
    ensures Before(s + [c], x) == Before(s, x)
    ensures Behind(s + [c], x) == if x == LastOf(s) then c else Behind(s, x)
  {
    AppendedPos(s, c, x);
    PosIs(s, |s| - 1);
  }

  lemma NotLast(s: seq<nat>, x: nat)
    requires x !in s
    ensures x != LastOf(s)
  {
  }

  lemma {:induction false} AppendedPos(s: seq<nat>, c: nat, x: nat)
    requires x in s
    ensures Pos(s + [c], x) == Pos(s, x)
  {
    assert (s + [c])[1..] == s[1..] + [c];
    if s[0] != x {
      AppendedPos(s[1..], c, x);
    }
  }

  lemma {:induction false} WithoutIs(s: seq<nat>, k: nat)
    requires F.Distinct(s) && k < |s|
    ensures F.Without(s, s[k]) == s[..k] + s[k + 1..]
  {
    if k > 0 {
      WithoutIs(s[1..], k - 1);
      assert s[1..][k - 1] == s[k];
      assert s[..k] + s[k + 1..] == [s[0]] + (s[1..][..k - 1] + s[1..][k..]);
    }
  }

  /** The links of node x once c has left its list: the neighbours of c, or an end of the list, close the gap. */
  ghost function ReleasedFrom(l: Links, lc: Links, c: nat, x: nat): Links {
    var l1 := if x == c then l.(parent := -1, left := -1, right := -1) else l;
    var l2 := if x == lc.left then l1.(right := lc.right) else l1;
    var l3 := if x == lc.right then l2.(left := lc.left) else l2;
    if x == lc.parent then l3.(next := if lc.left == -1 then lc.right else l3.next,
                               last := if lc.right == -1 then lc.left else l3.last,
                               count := l3.count - 1) else l3
  }

  /** What release writes. */
  lemma LinksReleased(t: F.Tree, c: nat, x: nat)
    requires F.Linked(t) && c < |t.up| && t.up[c] != F.NOBODY && x < |t.up|
    ensures F.NOBODY <= t.up[x] < |t.up| && F.NOBODY <= F.Release(t, c).state.up[x] < |t.up|
    ensures LinksOf(F.Release(t, c).state, x) == ReleasedFrom(LinksOf(t, x), LinksOf(t, c), c, x)
  {
    hide F.Without, F.Distinct, Pos, Before, Behind, FirstOf, LastOf;
    var p := t.up[c];
    var s, k := t.helpers[p], Pos(t.helpers[p], c);
    assert c in s;
    WithoutIs(s, k);
    var s' := s[..k] + s[k + 1..];
    EmptyRow(x);
    EmptyRow(c);
    if x != c && t.up[x] == p {
      assert x in s;
      GapPos(s, k, x);
      GapSides(s, k, x);
    }
    if t.up[x] != p {
      assert x !in s;
    }
    NeighboursDiffer(s, k);
    EndsReleased(s, k);
  }

  lemma EndsReleased(s: seq<nat>, k: nat)
    requires F.Distinct(s) && k < |s|
    ensures var s' := s[..k] + s[k + 1..];
            && FirstOf(s') == (if Before(s, s[k]) == -1 then Behind(s, s[k]) else FirstOf(s))
            && LastOf(s') == (if Behind(s, s[k]) == -1 then Before(s, s[k]) else LastOf(s))
  {
    PosIs(s, k);
  }

  lemma GapPos(s: seq<nat>, k: nat, x: nat)
    requires F.Distinct(s) && k < |s| && x in s && x != s[k]
    ensures Pos(s, x) != k && x in s[..k] + s[k + 1..]
    ensures Pos(s[..k] + s[k + 1..], x) == (if Pos(s, x) < k then Pos(s, x) else Pos(s, x) - 1)
  {
    var s' := s[..k] + s[k + 1..];
    var j := Pos(s, x);
    var j' := if j < k then j else j - 1;
    assert s'[j'] == x;
    assert F.Distinct(s') by {
      WithoutIs(s, k);
      F.WithoutDistinct(s, s[k]);
    }
    PosIs(s', j');
  }

  lemma GapSides(s: seq<nat>, k: nat, x: nat)
    requires F.Distinct(s) && k < |s| && x in s && x != s[k]
    ensures var s' := s[..k] + s[k + 1..];
            && Before(s', x) == (if Pos(s, x) == k + 1 then Before(s, s[k]) else Before(s, x))
            && Behind(s', x) == (if Pos(s, x) + 1 == k then Behind(s, s[k]) else Behind(s, x))
  {
    hide Pos, F.Distinct;
    GapPos(s, k, x);
    PosIs(s, k);
  }

  lemma NeighboursDiffer(s: seq<nat>, k: nat)
    requires F.Distinct(s) && k < |s|
    ensures Before(s, s[k]) != s[k] && Behind(s, s[k]) != s[k]
    ensures forall x: nat :: x == Before(s, s[k]) <==> x in s && Pos(s, x) + 1 == k
    ensures forall x: nat :: x == Behind(s, s[k]) <==> x in s && Pos(s, x) == k + 1
  {
    PosIs(s, k);
    if k > 0 {
      PosIs(s, k - 1);
    }
    if k + 1 < |s| {
      PosIs(s, k + 1);
    }
  }

  function PutParent(ls: seq<Links>, c: nat, x: int): (r: seq<Links>)
    requires c < |ls|
    ensures |r| == |ls|
  {
    ls[c := ls[c].(parent := x)]
  }

  function PutLeft(ls: seq<Links>, c: nat, x: int): (r: seq<Links>)
    requires c < |ls|
    ensures |r| == |ls|
  {
    ls[c := ls[c].(left := x)]
  }

  function PutRight(ls: seq<Links>, c: nat, x: int): (r: seq<Links>)
    requires c < |ls|
    ensures |r| == |ls|
  {
    ls[c := ls[c].(right := x)]
  }

  function PutNext(ls: seq<Links>, c: nat, x: int): (r: seq<Links>)
    requires c < |ls|
    ensures |r| == |ls|
  {
    ls[c := ls[c].(next := x)]
  }

  function PutLast(ls: seq<Links>, c: nat, x: int): (r: seq<Links>)
    requires c < |ls|
    ensures |r| == |ls|
  {
    ls[c := ls[c].(last := x)]
  }

  function PutCount(ls: seq<Links>, c: nat, x: int): (r: seq<Links>)
    requires c < |ls|
    ensures |r| == |ls|
  {
    ls[c := ls[c].(count := x)]
  }

  /** The links are those of the tree. */
  ghost predicate Refines(links: seq<Links>, t: F.Tree) {
    && |t.up| == |t.helpers| == |links| && F.Linked(t)
    && forall c: nat | c < |links| :: links[c] == LinksOf(t, c)
  }

  /* ---------- the nodes ---------- */

  class TreeNode {
    const index: nat
    var parent: TreeNode?
    var left: TreeNode?
    var right: TreeNode?
    var next: TreeNode?
    var last: TreeNode?
    var count: int

    constructor (index: nat)
      ensures this.index == index && parent == null && left == null
      ensures right == null && next == null && last == null && count == 0
    {
      this.index := index;
      parent, left, right, next, last, count := null, null, null, null, null, 0;
    }
  }

  class LinkedTree {
    const nodes: seq<TreeNode>
    ghost var model: F.Tree
    ghost var links: seq<Links>     // what the nodes' fields hold

    function At(i: int): TreeNode?
      requires -1 <= i < |nodes|
    {
      if i == -1 then null else nodes[i]
    }

    ghost predicate InRange(l: Links) {
      && -1 <= l.parent < |nodes| && -1 <= l.left < |nodes| && -1 <= l.right < |nodes|
      && -1 <= l.next < |nodes| && -1 <= l.last < |nodes|
    }

    ghost predicate Shows(x: TreeNode, l: Links)
      reads x
    {
      && InRange(l)
      && x.parent == At(l.parent) && x.left == At(l.left) && x.right == At(l.right)
      && x.next == At(l.next) && x.last == At(l.last) && x.count == l.count
    }

    ghost predicate Synced()
      reads this, nodes
    {
      && |links| == |nodes| && (forall c | 0 <= c < |nodes| :: nodes[c].index == c)
      && forall c {:trigger links[c]} | 0 <= c < |nodes| :: Shows(nodes[c], links[c])
    }

    ghost predicate Valid()
      reads this, nodes
    {
      Synced() && Refines(links, model)
    }

    constructor (n: nat)
      ensures Valid() && |nodes| == n && fresh(nodes)
      ensures model == F.Tree(seq(n, _ => []), seq(n, _ => F.NOBODY))
    {
      var all: seq<TreeNode> := [];
      for i := 0 to n
        invariant |all| == i && fresh(all)
        invariant forall c | 0 <= c < i :: all[c].index == c && all[c].parent == null && all[c].left == null
        invariant forall c | 0 <= c < i ::
          all[c].right == null && all[c].next == null && all[c].last == null && all[c].count == 0
      {
        var x := new TreeNode(i);
        all := all + [x];
      }
      nodes := all;
      model := F.Tree(seq(n, _ => []), seq(n, _ => F.NOBODY));
      links := seq(n, _ => Links(-1, -1, -1, -1, -1, 0));
    }

    /* ---------- single writes ---------- */

    method SetParent(c: nat, p: int)
      requires Synced() && c < |nodes| && -1 <= p < |nodes|
      modifies this`links, nodes
      ensures Synced() && links == PutParent(old(links), c, p)
    {
      nodes[c].parent := At(p);
      links := links[c := links[c].(parent := p)];
    }

    method SetLeft(c: nat, x: int)
      requires Synced() && c < |nodes| && -1 <= x < |nodes|
      modifies this`links, nodes
      ensures Synced() && links == PutLeft(old(links), c, x)
    {
      nodes[c].left := At(x);
      links := links[c := links[c].(left := x)];
    }

    method SetRight(c: nat, x: int)
      requires Synced() && c < |nodes| && -1 <= x < |nodes|
      modifies this`links, nodes
      ensures Synced() && links == PutRight(old(links), c, x)
    {
      nodes[c].right := At(x);
      links := links[c := links[c].(right := x)];
    }

    method SetNext(c: nat, x: int)
      requires Synced() && c < |nodes| && -1 <= x < |nodes|
      modifies this`links, nodes
      ensures Synced() && links == PutNext(old(links), c, x)
    {
      nodes[c].next := At(x);
      links := links[c := links[c].(next := x)];
    }

    method SetLast(c: nat, x: int)
      requires Synced() && c < |nodes| && -1 <= x < |nodes|
      modifies this`links, nodes
      ensures Synced() && links == PutLast(old(links), c, x)
    {
      nodes[c].last := At(x);
      links := links[c := links[c].(last := x)];
    }

    method SetCount(c: nat, k: int)
      requires Synced() && c < |nodes|
      modifies this`links, nodes
      ensures Synced() && links == PutCount(old(links), c, k)
    {
      nodes[c].count := k;
      links := links[c := links[c].(count := k)];
    }

    /* ---------- the operations ---------- */

    /** The last of p's children, found by walking along the siblings. */
    method Tail(p: nat, ghost s: seq<nat>) returns (tail: nat)
      requires Synced() && p < |nodes| && IsChain(links, s) && s != [] && links[p].next == s[0]
      ensures tail < |nodes| && tail == s[|s| - 1]
    {
      ghost var k := 0;
      assert RightOk(links, s, k);
      tail := nodes[p].next.index;
      while nodes[tail].right != null
        invariant k < |s| && tail == s[k] && tail < |nodes| && RightOk(links, s, k)
        decreases |s| - k
      {
        assert RightOk(links, s, k + 1);
        tail := nodes[tail].right.index;
        k := k + 1;
      }
    }

    method AddNext(p: nat, c: nat) returns (thrown: bool)
      requires Valid() && p < |nodes|
      modifies this`model, this`links, nodes
      ensures Valid()
      ensures match F.AddNext(old(model), p, c)
              case Throws(_) => thrown && model == old(model)
              case Next(t) => !thrown && model == t
    {
      if c >= |nodes| {
        return true;
      }
      assert links[c] == LinksOf(model, c);
      if nodes[c].parent != null {
        return true;
      }
      ghost var t, ls := model, links;
      AddedLinks(t, ls, p, c);
      ghost var s, t' := t.helpers[p], F.AddNext(t, p, c).state;
      Append(p, c, s);
      model := t';
      return false;
    }

    /** The writes of add_next, once c is known to be free. */
    method Append(p: nat, c: nat, ghost s: seq<nat>)
      requires Synced() && p < |nodes| && c < |nodes| && (forall k | 0 <= k < |s| :: s[k] < |nodes|)
      requires var a := PutParent(links, c, p); IsChain(a, s) && a[p].count == |s| && (s != [] ==> a[p].next == s[0])
      modifies this`links, nodes
      ensures Synced() && links == WithAdded(old(links), s, p, c)
    {
      hide IsChain, PutParent, PutLeft, PutRight, PutNext, PutLast, PutCount;
      SetParent(c, p);
      var size := nodes[p].count;
      Attach(p, c, s);
      SetLast(p, c);
      SetCount(p, size + 1);
    }

    /** c becomes the first child of p, or the right sibling of the last one. */
    method Attach(p: nat, c: nat, ghost s: seq<nat>)
      requires Synced() && p < |nodes| && c < |nodes| && (forall k | 0 <= k < |s| :: s[k] < |nodes|)
      requires IsChain(links, s) && links[p].count == |s| && (s != [] ==> links[p].next == s[0])
      modifies this`links, nodes
      ensures Synced()
      ensures links == if s == [] then PutNext(old(links), p, c)
        else PutRight(PutLeft(old(links), c, s[|s| - 1]), s[|s| - 1], c)
    {
      hide PutLeft, PutRight, PutNext;
      if nodes[p].count == 0 {
        SetNext(p, c);
      } else {
        var tail := Tail(p, s);
        SetLeft(c, tail);
        SetRight(tail, c);
      }
    }

    method PopFront(p: nat) returns (thrown: bool)
      requires Valid() && p < |nodes|
      modifies this`model, this`links, nodes
      ensures Valid() && p < |old(model).up| == |old(model).helpers|
      ensures old(model).helpers[p] != [] ==> old(model).helpers[p][0] < |old(model).up|
      ensures match F.PopFront(old(model), p)
              case Throws(_) => thrown && model == old(model)
              case Next(t) => !thrown && model == t
    {
      assert links[p] == LinksOf(model, p);
      if model.helpers[p] != [] {
        ChildOf(model, p, 0);
      }
      if nodes[p].next == null {
        return true;
      }
      ghost var t, f := model, model.helpers[p][0];
      PoppedLinks(t, links, p);
      Unlink(p);
      model := F.PopFront(t, p).state;
      return false;
    }

    /** The writes of pop_front. */
    method Unlink(p: nat)
      requires Synced() && p < |nodes| && Poppable(links, p)
      modifies this`links, nodes
      ensures Synced() && links == WithPopped(old(links), p)
    {
      hide PutParent, PutLeft, PutRight, PutNext, PutLast, PutCount;
      assert Shows(nodes[p], links[p]) && Shows(nodes[links[p].next], links[links[p].next]);
      var f, size := nodes[p].next.index, nodes[p].count;
      if nodes[f].right != null {
        var r := nodes[f].right.index;
        Advance(p, f, r, size - 1);
      } else {
        Vacate(p, f, size - 1);
      }
    }

    /** p is left without children; f was the last one. */
    method Vacate(p: nat, f: nat, size: int)
      requires Synced() && p < |nodes| && f < |nodes|
      modifies this`links, nodes
      ensures Synced()
      ensures links == PutCount(PutLast(PutNext(PutParent(old(links), f, -1), p, -1), p, -1), p, size)
    {
      hide Synced, PutParent, PutNext, PutLast, PutCount;
      SetParent(f, -1);
      SetNext(p, -1);
      SetLast(p, -1);
      SetCount(p, size);
    }

    /** r takes the place of f as the first child of p. */
    method Advance(p: nat, f: nat, r: nat, size: int)
      requires Synced() && p < |nodes| && f < |nodes| && r < |nodes|
      modifies this`links, nodes
      ensures Synced()
      ensures var ls := PutRight(PutLeft(PutParent(PutLeft(PutNext(old(links), p, r), r, -1), f, -1), f, -1), f, -1);
              links == PutCount(ls, p, size)
    {
      hide Synced, PutParent, PutLeft, PutRight, PutNext, PutCount;
      SetNext(p, r);
      SetLeft(r, -1);
      SetParent(f, -1);
      SetLeft(f, -1);
      SetRight(f, -1);
      SetCount(p, size);
    }

    method Release(c: nat) returns (thrown: bool)
      requires Valid() && c < |nodes|
      modifies this`model, this`links, nodes
      ensures Valid() && c < |old(model).up| == |old(model).helpers|
      ensures F.NOBODY <= old(model).up[c] < |old(model).helpers|
      ensures match F.Release(old(model), c)
              case Throws(_) => thrown && model == old(model)
              case Next(t) => !thrown && model == t
    {
      hide Refines, LinksOf, F.Without, WithGapClosed, WithTailCut, WithPopped;
      LinkIs(model, links, c);
      if nodes[c].parent == null {
        return true;
      }
      ghost var t, ls := model, links;
      ReleasedLinks(t, ls, c);
      var p := nodes[c].parent.index;
      if nodes[c].left != null && nodes[c].right != null {
        CloseGap(c, p);
      } else if nodes[c].left != null {
        CutTail(c, p);
      } else {
        Unlink(p);
      }
      model := F.Release(t, c).state;
      return false;
    }

    /** clear: all of p's children are free afterwards, everyone else stays. */
    method Clear(p: nat)
      requires Valid() && p < |nodes|
      modifies this`model, this`links, nodes
      ensures Valid() && p < |old(model).helpers| && model == Cleared(old(model), p)
    {
      hide Pos, Before, Behind, F.Distinct;
      ClearedFrom(model, p, 0);
      ghost var k := 0;
      while nodes[p].next != null
        invariant Valid() && p < |old(model).helpers| && k <= |old(model).helpers[p]|
        invariant model == ClearedTo(old(model), p, k)
        decreases |model.helpers[p]|
      {
        assert links[p] == LinksOf(model, p);
        var thrown := PopFront(p);
        ClearedStep(old(model), p, k);
        k := k + 1;
      }
      assert links[p] == LinksOf(model, p);
      ClearedFrom(old(model), p, k);
    }

    /** What iterating over node p yields. */
    method Children(p: nat) returns (s: seq<nat>)
      requires Valid() && p < |nodes|
      ensures s == model.helpers[p] && |s| == nodes[p].count
    {
      hide Pos, Before, Behind, F.Distinct, IsChain;
      assert links[p] == LinksOf(model, p);
      ChildrenChain(model, links, p);
      s := [];
      var x := nodes[p].next;
      ghost var full := model.helpers[p];
      if full != [] {
        ChainAt(links, full, 0);
      }
      while x != null
        invariant |s| <= |full| && s == full[..|s|]
        invariant if |s| == |full| then x == null else full[|s|] < |nodes| && x == nodes[full[|s|]]
        decreases |full| - |s|
      {
        assert full[..|s| + 1] == full[..|s|] + [full[|s|]];
        ChainAt(links, full, |s|);
        s := s + [x.index];
        x := x.right;
      }
    }

    /** The writes of release in the middle of a list. */
    method CloseGap(c: nat, p: nat)
      requires Synced() && c < |nodes| && p < |nodes|
      requires links[c].parent == p && links[c].left != -1 && links[c].right != -1
      modifies this`links, nodes
      ensures Synced() && 0 <= old(links)[c].left < |nodes| && 0 <= old(links)[c].right < |nodes|
      ensures links == WithGapClosed(old(links), c, p)
    {
      hide PutParent, PutLeft, PutRight, PutCount;
      assert Shows(nodes[c], links[c]);
      var l, r := nodes[c].left.index, nodes[c].right.index;
      SetRight(l, r);
      SetLeft(r, l);
      var size := nodes[p].count;
      SetCount(p, size - 1);
      SetParent(c, -1);
      SetRight(c, -1);
      SetLeft(c, -1);
    }

    /** The writes of release at the end of a list. */
    method CutTail(c: nat, p: nat)
      requires Synced() && c < |nodes| && p < |nodes|
      requires links[c].parent == p && links[c].left != -1 && links[c].right == -1
      modifies this`links, nodes
      ensures Synced() && 0 <= old(links)[c].left < |nodes|
      ensures links == WithTailCut(old(links), c, p)
    {
      hide PutParent, PutLeft, PutRight, PutLast, PutCount;
      assert Shows(nodes[c], links[c]);
      var l := nodes[c].left.index;
      SetRight(l, -1);
      SetLast(p, l);
      var size := nodes[p].count;
      SetCount(p, size - 1);
      SetParent(c, -1);
      SetLeft(c, -1);
    }
  }

  /** The k-th child's right link leads to the next child, or nowhere. */
  ghost predicate RightOk(links: seq<Links>, s: seq<nat>, k: nat) {
    k < |s| && s[k] < |links| && links[s[k]].right == if k + 1 < |s| then s[k + 1] else -1
  }

  ghost predicate IsChain(links: seq<Links>, s: seq<nat>) {
    forall k: nat | k < |s| :: RightOk(links, s, k)
  }

  lemma LinkIs(t: F.Tree, links: seq<Links>, c: nat)
    requires Refines(links, t) && c < |links|
    ensures |t.up| == |t.helpers| == |links| && F.NOBODY <= t.up[c] < |t.up|
    ensures links[c].parent == t.up[c]
  {
  }

  lemma ChainAt(links: seq<Links>, s: seq<nat>, k: nat)
    requires IsChain(links, s) && k < |s|
    ensures RightOk(links, s, k) && (k + 1 < |s| ==> RightOk(links, s, k + 1))
  {
    assert RightOk(links, s, k);
    if k + 1 < |s| {
      assert RightOk(links, s, k + 1);
    }
  }

  lemma ChildOf(t: F.Tree, p: nat, k: nat)
    requires F.Linked(t) && p < |t.helpers| && k < |t.helpers[p]|
    ensures t.helpers[p][k] < |t.up| && t.up[t.helpers[p][k]] == p
  {
    assert t.helpers[p][k] in t.helpers[p];
  }

  lemma ChildrenChain(t: F.Tree, links: seq<Links>, p: nat)
    requires Refines(links, t) && p < |links|
    ensures IsChain(links, t.helpers[p])
  {
    var s := t.helpers[p];
    forall k: nat | k < |s| ensures RightOk(links, s, k) {
      ChildOf(t, p, k);
      PosIs(s, k);
    }
  }

  /** The writes of add_next. */
  ghost function WithAdded(ls: seq<Links>, s: seq<nat>, p: nat, c: nat): seq<Links>
    requires p < |ls| && c < |ls| && forall k | 0 <= k < |s| :: s[k] < |ls|
  {
    var a := PutParent(ls, c, p);
    var b := if s == [] then PutNext(a, p, c) else PutRight(PutLeft(a, c, s[|s| - 1]), s[|s| - 1], c);
    PutCount(PutLast(b, p, c), p, |s| + 1)
  }

  lemma AddedLinks(t: F.Tree, ls: seq<Links>, p: nat, c: nat)
    requires Refines(ls, t) && p < |ls| && c < |ls| && t.up[c] == F.NOBODY
    ensures F.AddNext(t, p, c).Next?
    ensures forall k | 0 <= k < |t.helpers[p]| :: t.helpers[p][k] < |ls|
    ensures Refines(WithAdded(ls, t.helpers[p], p, c), F.AddNext(t, p, c).state)
    ensures var a := PutParent(ls, c, p);
            && IsChain(a, t.helpers[p]) && a[p].count == |t.helpers[p]|
            && (t.helpers[p] != [] ==> a[p].next == t.helpers[p][0])
  {
    F.AddNextLinked(t, p, c);
    ChildrenChain(t, ls, p);
    forall k: nat | k < |t.helpers[p]|
      ensures t.helpers[p][k] < |ls| && RightOk(PutParent(ls, c, p), t.helpers[p], k)
    {
      ChildOf(t, p, k);
      assert RightOk(ls, t.helpers[p], k);
    }
    forall x: nat | x < |ls| ensures WithAdded(ls, t.helpers[p], p, c)[x] == LinksOf(F.AddNext(t, p, c).state, x) {
      LinksAdded(t, p, c, x);
      AddedAt(t, ls, p, c, x);
    }
  }

  lemma AddedAt(t: F.Tree, ls: seq<Links>, p: nat, c: nat, x: nat)
    requires Refines(ls, t) && p < |ls| && c < |ls| && t.up[c] == F.NOBODY && x < |ls|
    requires forall k | 0 <= k < |t.helpers[p]| :: t.helpers[p][k] < |ls|
    ensures WithAdded(ls, t.helpers[p], p, c)[x] == AddedTo(LinksOf(t, x), t.helpers[p], p, c, x)
  {
    var s := t.helpers[p];
    assert ls[x] == LinksOf(t, x) && ls[c] == LinksOf(t, c);
    if s != [] {
      ChildOf(t, p, |s| - 1);
    }
  }

  /* ---------- pop_front and release ---------- */

  ghost predicate Poppable(ls: seq<Links>, p: nat) {
    p < |ls| && 0 <= ls[p].next < |ls| && -1 <= ls[ls[p].next].right < |ls|
  }

  ghost function WithPopped(ls: seq<Links>, p: nat): seq<Links>
    requires Poppable(ls, p)
  {
    var f := ls[p].next;
    var r := ls[f].right;
    var b :=
      if r != -1 then PutRight(PutLeft(PutParent(PutLeft(PutNext(ls, p, r), r, -1), f, -1), f, -1), f, -1)
      else PutLast(PutNext(PutParent(ls, f, -1), p, -1), p, -1);
    PutCount(b, p, ls[p].count - 1)
  }

  ghost function WithGapClosed(ls: seq<Links>, c: nat, p: nat): seq<Links>
    requires c < |ls| && p < |ls| && 0 <= ls[c].left < |ls| && 0 <= ls[c].right < |ls|
  {
    var l, r := ls[c].left, ls[c].right;
    var a := PutLeft(PutRight(ls, l, r), r, l);
    PutLeft(PutRight(PutParent(PutCount(a, p, a[p].count - 1), c, -1), c, -1), c, -1)
  }

  ghost function WithTailCut(ls: seq<Links>, c: nat, p: nat): seq<Links>
    requires c < |ls| && p < |ls| && 0 <= ls[c].left < |ls|
  {
    var l := ls[c].left;
    var a := PutLast(PutRight(ls, l, -1), p, l);
    PutLeft(PutParent(PutCount(a, p, a[p].count - 1), c, -1), c, -1)
  }

  /** The links after release, by the place of c in its list. */
  ghost function WithReleased(ls: seq<Links>, c: nat): seq<Links>
    requires c < |ls| && 0 <= ls[c].parent < |ls| && -1 <= ls[c].left < |ls| && -1 <= ls[c].right < |ls|
    requires ls[c].left == -1 ==> Poppable(ls, ls[c].parent)
  {
    if ls[c].left != -1 && ls[c].right != -1 then WithGapClosed(ls, c, ls[c].parent)
    else if ls[c].left != -1 then WithTailCut(ls, c, ls[c].parent)
    else WithPopped(ls, ls[c].parent)
  }

  /** What is known of an assigned node's neighbours. */
  lemma Neighbours(t: F.Tree, ls: seq<Links>, c: nat)
    requires Refines(ls, t) && c < |ls| && t.up[c] != F.NOBODY
    ensures var l, p := ls[c], t.up[c];
            && 0 <= p < |ls| && l.parent == p && -1 <= l.left < |ls| && -1 <= l.right < |ls|
            && (l.left == -1 ==> ls[p].next == c)
            && l.left != c && l.right != c && (l.left != -1 ==> l.left != l.right)
  {
    var p := t.up[c];
    var s, k := t.helpers[p], Pos(t.helpers[p], c);
    assert c in s && ls[c] == LinksOf(t, c) && ls[p] == LinksOf(t, p);
    NeighboursDiffer(s, k);
    if k > 0 {
      ChildOf(t, p, k - 1);
    }
    if k + 1 < |s| {
      ChildOf(t, p, k + 1);
    }
  }

  /** The links know where c sits. */
  ghost predicate Seated(ls: seq<Links>, c: nat) {
    && c < |ls| && 0 <= ls[c].parent < |ls| && -1 <= ls[c].left < |ls| && -1 <= ls[c].right < |ls|
    && (ls[c].left == -1 ==> Poppable(ls, ls[c].parent) && ls[ls[c].parent].next == c)
    && ls[c].left != c && ls[c].right != c && (ls[c].left != -1 ==> ls[c].left != ls[c].right)
  }

  lemma ReleasedAt(ls: seq<Links>, c: nat, x: nat)
    requires Seated(ls, c) && x < |ls|
    ensures WithReleased(ls, c)[x] == ReleasedFrom(ls[x], ls[c], c, x)
  {
    if ls[c].left == -1 {
      FirstReleasedAt(ls, c, x);
    } else if ls[c].right == -1 {
      LastReleasedAt(ls, c, x);
    }
  }

  lemma FirstReleasedAt(ls: seq<Links>, c: nat, x: nat)
    requires Seated(ls, c) && x < |ls| && ls[c].left == -1
    ensures WithReleased(ls, c)[x] == ReleasedFrom(ls[x], ls[c], c, x)
  {
  }

  lemma LastReleasedAt(ls: seq<Links>, c: nat, x: nat)
    requires Seated(ls, c) && x < |ls| && ls[c].left != -1 && ls[c].right == -1
    ensures WithReleased(ls, c)[x] == ReleasedFrom(ls[x], ls[c], c, x)
  {
  }

  lemma ReleasedLinks(t: F.Tree, ls: seq<Links>, c: nat)
    requires Refines(ls, t) && c < |ls| && t.up[c] != F.NOBODY
    ensures Seated(ls, c) && ls[c].parent == t.up[c]
    ensures F.Release(t, c).Next? && Refines(WithReleased(ls, c), F.Release(t, c).state)
  {
    Neighbours(t, ls, c);
    F.ReleaseLinked(t, c);
    forall x: nat | x < |ls|
      ensures F.NOBODY <= F.Release(t, c).state.up[x] < |t.up|
      ensures WithReleased(ls, c)[x] == LinksOf(F.Release(t, c).state, x)
    {
      LinksReleased(t, c, x);
      ReleasedAt(ls, c, x);
    }
  }

  /** pop_front is the release of the first child. */
  lemma PoppedLinks(t: F.Tree, ls: seq<Links>, p: nat)
    requires Refines(ls, t) && p < |ls| && t.helpers[p] != []
    ensures Poppable(ls, p) && t.helpers[p][0] < |t.up| && F.PopFront(t, p).Next?
    ensures Refines(WithPopped(ls, p), F.PopFront(t, p).state)
  {
    var s := t.helpers[p];
    ChildOf(t, p, 0);
    PosIs(s, 0);
    WithoutIs(s, 0);
    assert s[..0] + s[1..] == s[1..];
    assert ls[s[0]] == LinksOf(t, s[0]) && ls[p] == LinksOf(t, p);
    ReleasedLinks(t, ls, s[0]);
  }

  /* ---------- clear ---------- */

  /** t with all of p's children freed. */
  ghost function Cleared(t: F.Tree, p: nat): F.Tree
    requires p < |t.helpers| == |t.up|
  {
    F.Tree(t.helpers[p := []], seq(|t.up|, c requires 0 <= c < |t.up| => if t.up[c] == p then F.NOBODY else t.up[c]))
  }

  /** t with the first k children of p freed. */
  ghost function ClearedTo(t: F.Tree, p: nat, k: nat): F.Tree
    requires p < |t.helpers| == |t.up| && k <= |t.helpers[p]|
  {
    F.Tree(t.helpers[p := t.helpers[p][k..]],
           seq(|t.up|, c requires 0 <= c < |t.up| => if c in t.helpers[p][..k] then F.NOBODY else t.up[c]))
  }

  lemma ClearedFrom(t: F.Tree, p: nat, k: nat)
    requires F.Linked(t) && p < |t.helpers| && k <= |t.helpers[p]|
    ensures k == 0 ==> ClearedTo(t, p, k) == t
    ensures k == |t.helpers[p]| ==> ClearedTo(t, p, k) == Cleared(t, p)
  {
    assert t.helpers[p][|t.helpers[p]|..] == [];
    assert t.helpers[p][..|t.helpers[p]|] == t.helpers[p];
  }

  lemma ClearedStep(t: F.Tree, p: nat, k: nat)
    requires F.Linked(t) && p < |t.helpers| && k < |t.helpers[p]|
    ensures t.helpers[p][k] < |t.up|
    ensures F.PopFront(ClearedTo(t, p, k), p) == Next(ClearedTo(t, p, k + 1))
  {
    ChildOf(t, p, k);
    var s := t.helpers[p];
    assert s[..k + 1] == s[..k] + [s[k]];
    assert s[k..][1..] == s[k + 1..];
    var a, b := F.PopFront(ClearedTo(t, p, k), p).state, ClearedTo(t, p, k + 1);
    assert a.up == b.up && a.helpers == b.helpers;
  }
}

/**
 * The running chain of one thread in its trace tree, as a value, and what each rearrangement of the
 * quasi-horizontal balancer does to it.
 */
module TraceChain {
  import opened TraceNode

  /** The children of one chain node: kids as created, at the running (or next) one, the pending ones start at from. */
  datatype Row = Row(kids: seq<Node>, at: nat, from: nat)

  /** The running chain below the dummy, and the level of the thread root: |rows| when it is below the chain. */
  datatype Chain = Chain(dummy: Node, rows: seq<Row>, lo: nat) {

    /** Whether level i is above the last one, so that its first remaining child is being run. */
    ghost predicate Inner(i: int) {
      0 <= i < |rows| - 1
    }

    ghost predicate RowOk(r: Row, i: nat) {
      && r.at <= r.from <= |r.kids|
      && (Inner(i) ==> r.at < r.from)
      && (forall k | 0 <= k < |r.kids| :: r.kids[k].depth == i + 1 && r.kids[k].index == k && !r.kids[k].isDummy)
      && (i < lo ==> r.from == |r.kids| || (lo == |rows| == i + 1 && r.from == |r.kids| - 1))
    }

    ghost predicate Shape() {
      && 1 <= |rows| && lo <= |rows| && dummy.depth == 0
      && forall i: nat | i < |rows| :: RowOk(rows[i], i)
    }

    /** The chain node at level i. */
    ghost function Path(i: nat): (p: Node)
      requires Shape() && i < |rows|
      ensures p.depth == i
    {
      if i == 0 then dummy else rows[i - 1].kids[rows[i - 1].at]
    }

    /** What hangs below the chain node at level i while it is attached. */
    ghost function Hanging(i: nat): seq<Node>
      requires Shape() && i < |rows|
    {
      (if Inner(i) then [rows[i].kids[rows[i].at]] else []) + rows[i].kids[rows[i].from..]
    }

    /** The first child of level i that is neither running nor handled. */
    ghost function Unhandled(i: nat): nat
      requires i < |rows|
    {
      if Inner(i) then rows[i].at + 1 else rows[i].at
    }

    /** The node the thread root has to be, unless the root went below the chain and was handed over. */
    ghost predicate IsRoot(n: Node?)
      requires Shape()
    {
      if lo < |rows| then n == Path(lo)
      else var r := rows[lo - 1]; r.from < |r.kids| ==> n == r.kids[r.from]
    }

    /* ---------- how the nodes show it ---------- */

    /** A chain node is unused, and attached from the root level on. */
    ghost predicate ChainOk(v: map<Node, View>, cell: RootCell, i: nat)
      requires Shape() && i < |rows|
    {
      var p := Path(i);
      && p in v && v[p].state == Unused && p.work.worthy
      && v[p].root == (if i >= lo then cell else null)
      && v[p].parent == (if i > lo then Path(i - 1) else null)
      && v[p].children == (if i >= lo then Hanging(i) else [])
    }

    /** A pending child waits below its parent, or alone as the thread root. */
    ghost predicate WaitingOk(v: map<Node, View>, cell: RootCell, i: nat, c: Node)
      requires Shape() && i < |rows|
    {
      && c in v && v[c].state == Unused && v[c].CacheOk(c.work) && v[c].children == [] && v[c].root == cell
      && v[c].parent == (if i >= lo then Path(i) else null)
    }

    /** A child that was taken away before its turn is consumed, unless it is the one being handed over. */
    ghost predicate GoneOk(v: map<Node, View>, limbo: Node?, c: Node) {
      c in v && v[c].parent == null && (v[c].state == Unused ==> c == limbo)
    }

    /** The node that was pruned and is about to be handed over. */
    ghost predicate LimboOk(v: map<Node, View>, limbo: Node?)
      requires Shape()
    {
      limbo != null ==>
        && limbo in v && v[limbo].state == Unused && v[limbo].CacheOk(limbo.work) && v[limbo].parent == null
        && 1 <= limbo.depth <= |rows|
        && var r := rows[limbo.depth - 1];
           limbo.index < r.from && r.kids[limbo.index] == limbo && (Inner(limbo.depth - 1) ==> limbo.index != r.at)
    }

    ghost predicate ChainAll(v: map<Node, View>, cell: RootCell)
      requires Shape()
    {
      forall i: nat | i < |rows| :: ChainOk(v, cell, i)
    }

    ghost predicate WaitingAll(v: map<Node, View>, cell: RootCell)
      requires Shape()
    {
      forall i: nat, k {:trigger WaitingOk(v, cell, i, rows[i].kids[k])} | i < |rows|
        && rows[i].from <= k < |rows[i].kids| ::
        WaitingOk(v, cell, i, rows[i].kids[k])
    }

    ghost predicate GoneAll(v: map<Node, View>, limbo: Node?)
      requires Shape()
    {
      forall i: nat, k {:trigger GoneOk(v, limbo, rows[i].kids[k])} | i < |rows| && Unhandled(i) <= k < rows[i].from ::
        GoneOk(v, limbo, rows[i].kids[k])
    }

    ghost predicate Good(v: map<Node, View>, cell: RootCell, root: Node?, limbo: Node?) {
      && Shape() && IsRoot(root)
      && ChainAll(v, cell) && WaitingAll(v, cell) && GoneAll(v, limbo) && LimboOk(v, limbo)
    }
  }

  /** Nodes other than x and p look the same. */
  ghost predicate Touched(v: map<Node, View>, v': map<Node, View>, x: Node, p: Node) {
    forall n | n in v && n != x && n != p :: n in v' && v'[n] == v[n]
  }

  /** A child is on the chain only as the running one of its level. */
  lemma KidOnPath(c: Chain, j: nat, k: nat, i: nat)
    requires c.Shape() && j < |c.rows| && k < |c.rows[j].kids| && i < |c.rows| && c.Path(i) == c.rows[j].kids[k]
    ensures i == j + 1 && k == c.rows[j].at
  {
    assert c.RowOk(c.rows[j], j);
  }

  /** A child is not among the ones after it. */
  lemma NotLater(c: Chain, i: nat, k: nat, from: nat)
    requires c.Shape() && i < |c.rows| && k < from <= |c.rows[i].kids|
    ensures c.rows[i].kids[k] !in c.rows[i].kids[from..]
  {
    var kids := c.rows[i].kids;
    assert c.RowOk(c.rows[i], i);
    forall x | x in kids[from..] ensures x != kids[k] {
      var l :| 0 <= l < |kids[from..]| && kids[from..][l] == x;
      assert x == kids[from + l];
    }
  }

  /** The effect of prune on the views. */
  ghost function PrunedView(v: map<Node, View>, n: Node): map<Node, View>
    requires n in v && v[n].parent != n && (v[n].parent != null ==> v[n].parent in v)
  {
    var v1 := v[n := v[n].Bare()];
    var p := v[n].parent;
    if p == null then v1 else v1[p := v[p].(children := Removed(v[p].children, n))]
  }

  ghost predicate Prunable(v: map<Node, View>, n: Node, p: Node) {
    n in v && p in v && v[n].parent == p && n != p
  }

  /* ---------- lowering the root ---------- */

  lemma LoweredShape(c: Chain)
    requires c.Shape() && c.lo < |c.rows| && |c.Hanging(c.lo)| == 1
    ensures var c' := c.(lo := c.lo + 1);
            && c'.Shape() && c'.IsRoot(c.Hanging(c.lo)[0])
            && (forall i: nat | i < |c.rows| :: c'.Path(i) == c.Path(i) && c'.Hanging(i) == c.Hanging(i))
  {
    var c' := c.(lo := c.lo + 1);
    assert c.RowOk(c.rows[c.lo], c.lo);
    forall i: nat | i < |c.rows| ensures c'.RowOk(c'.rows[i], i) {
      assert c.RowOk(c.rows[i], i);
    }
  }

  ghost function LoweredView(c: Chain, v: map<Node, View>): map<Node, View>
    requires c.Shape() && c.lo < |c.rows| && |c.Hanging(c.lo)| == 1
    requires c.Path(c.lo) in v && c.Hanging(c.lo)[0] in v
  {
    var root, leftmost := c.Path(c.lo), c.Hanging(c.lo)[0];
    v[leftmost := v[leftmost].(parent := null)][root := v[root].Bare()]
  }

  lemma LowestChild(c: Chain, v: map<Node, View>, cell: RootCell)
    requires c.Shape() && c.lo < |c.rows| && |c.Hanging(c.lo)| == 1 && c.ChainAll(v, cell) && c.WaitingAll(v, cell)
    ensures c.Path(c.lo) in v && c.Hanging(c.lo)[0] in v && c.Hanging(c.lo)[0] != c.Path(c.lo)
    ensures c.Inner(c.lo) ==> c.Hanging(c.lo)[0] == c.Path(c.lo + 1)
    ensures c.Hanging(c.lo)[0].depth == c.lo + 1
    ensures v[c.Path(c.lo)].children == c.Hanging(c.lo) && v[c.Path(c.lo)].parent == null
    ensures !c.Inner(c.lo)
      ==> c.rows[c.lo].from < |c.rows[c.lo].kids| && c.Hanging(c.lo)[0] == c.rows[c.lo].kids[c.rows[c.lo].from]
  {
    assert c.RowOk(c.rows[c.lo], c.lo);
    assert c.ChainOk(v, cell, c.lo);
    if c.Inner(c.lo) {
      assert c.ChainOk(v, cell, c.lo + 1);
    } else {
      assert c.WaitingOk(v, cell, c.lo, c.rows[c.lo].kids[c.rows[c.lo].from]);
    }
  }

  lemma LoweredAt(c: Chain, v: map<Node, View>, cell: RootCell, i: nat)
    requires c.Shape() && c.lo < |c.rows| && |c.Hanging(c.lo)| == 1 && i < |c.rows| && c.ChainOk(v, cell, i)
    requires c.Path(c.lo) in v && c.Hanging(c.lo)[0] in v && c.Hanging(c.lo)[0] != c.Path(c.lo)
    requires c.Hanging(c.lo)[0] == c.Path(i) ==> i == c.lo + 1
    ensures c.(lo := c.lo + 1).Shape() && c.(lo := c.lo + 1).ChainOk(LoweredView(c, v), cell, i)
  {
    hide Chain.Hanging;
    LoweredShape(c);
    if i == c.lo {
    } else if i == c.lo + 1 {
    } else {
      assert c.Path(i) != c.Path(c.lo);
      assert LoweredView(c, v)[c.Path(i)] == v[c.Path(i)];
    }
  }

  lemma LoweredChain(c: Chain, v: map<Node, View>, cell: RootCell)
    requires c.Shape() && c.lo < |c.rows| && |c.Hanging(c.lo)| == 1 && c.ChainAll(v, cell) && c.WaitingAll(v, cell)
    ensures c.Path(c.lo) in v && c.Hanging(c.lo)[0] in v
    ensures c.(lo := c.lo + 1).Shape() && c.(lo := c.lo + 1).ChainAll(LoweredView(c, v), cell)
  {
    hide Chain.ChainOk;
    LowestChild(c, v, cell);
    LoweredShape(c);
    var c', v' := c.(lo := c.lo + 1), LoweredView(c, v);
    forall i: nat | i < |c.rows| ensures c'.ChainOk(v', cell, i) {
      assert c.ChainOk(v, cell, i);
      LoweredAt(c, v, cell, i);
    }
  }

  lemma LoweredWaiting(c: Chain, v: map<Node, View>, cell: RootCell)
    requires c.Shape() && c.lo < |c.rows| && |c.Hanging(c.lo)| == 1 && c.ChainAll(v, cell) && c.WaitingAll(v, cell)
    ensures c.Path(c.lo) in v && c.Hanging(c.lo)[0] in v
    ensures c.(lo := c.lo + 1).Shape() && c.(lo := c.lo + 1).WaitingAll(LoweredView(c, v), cell)
  {
    LowestChild(c, v, cell);
    LoweredShape(c);
    var c', v' := c.(lo := c.lo + 1), LoweredView(c, v);
    forall i: nat, k | i < |c.rows| && c.rows[i].from <= k < |c.rows[i].kids|
      ensures c'.WaitingOk(v', cell, i, c'.rows[i].kids[k])
    {
      assert c.RowOk(c.rows[i], i) && c.WaitingOk(v, cell, i, c.rows[i].kids[k]);
    }
  }

  lemma LoweredGone(c: Chain, v: map<Node, View>, cell: RootCell, limbo: Node?)
    requires c.Shape() && c.lo < |c.rows| && |c.Hanging(c.lo)| == 1 && c.ChainAll(v, cell) && c.WaitingAll(v, cell)
    requires c.GoneAll(v, limbo) && c.LimboOk(v, limbo)
    ensures c.Path(c.lo) in v && c.Hanging(c.lo)[0] in v
    ensures var c', v' := c.(lo := c.lo + 1), LoweredView(c, v);
            c'.Shape() && c'.GoneAll(v', limbo) && c'.LimboOk(v', limbo)
  {
    LowestChild(c, v, cell);
    LoweredShape(c);
    var c', v' := c.(lo := c.lo + 1), LoweredView(c, v);
    forall i: nat, k | i < |c.rows| && c'.Unhandled(i) <= k < c.rows[i].from
      ensures c'.GoneOk(v', limbo, c'.rows[i].kids[k])
    {
      assert c.RowOk(c.rows[i], i) && c.Unhandled(i) <= k && c.GoneOk(v, limbo, c.rows[i].kids[k]);
    }
    if c.lo > 0 {
      assert c.RowOk(c.rows[c.lo - 1], c.lo - 1);
    }
  }

  lemma LoweredGood(c: Chain, v: map<Node, View>, cell: RootCell, root: Node?, limbo: Node?)
    requires c.Good(v, cell, root, limbo) && c.lo < |c.rows| && |c.Hanging(c.lo)| == 1
    ensures c.Path(c.lo) in v && c.Hanging(c.lo)[0] in v
    ensures c.(lo := c.lo + 1).Shape() && c.(lo := c.lo + 1).Good(LoweredView(c, v), cell, c.Hanging(c.lo)[0], limbo)
  {
    LoweredChain(c, v, cell);
    LoweredWaiting(c, v, cell);
    LoweredGone(c, v, cell, limbo);
    LoweredShape(c);
  }

  /** Where the root ends up when single children are passed down to the limit. */
  ghost function Corrected(c: Chain, limit: nat): (lo: nat)
    requires c.Shape() && limit <= |c.rows|
    ensures c.lo <= lo && (lo <= limit || lo == c.lo)
    decreases limit - c.lo
  {
    if c.lo < limit && |c.Hanging(c.lo)| == 1 then
      LoweredShape(c);
      Corrected(c.(lo := c.lo + 1), limit)
    else c.lo
  }

  /* ---------- taking a pending child away ---------- */

  /** The first pending child of level i is taken; on the last level it is the next one to handle. */
  ghost function Taken(c: Chain, i: nat): Chain
    requires i < |c.rows|
  {
    var r := c.rows[i];
    c.(rows := c.rows[i := if c.Inner(i) then r.(from := r.from + 1) else r.(at := r.at + 1, from := r.from + 1)])
  }

  ghost predicate Takeable(c: Chain, i: nat) {
    && c.Shape() && i < |c.rows| && c.rows[i].from < |c.rows[i].kids|
    && (!c.Inner(i) ==> c.rows[i].at == c.rows[i].from)
  }

  ghost function TakenNode(c: Chain, i: nat): Node
    requires Takeable(c, i)
  {
    c.rows[i].kids[c.rows[i].from]
  }

  lemma TakenRemoved(c: Chain, i: nat)
    requires Takeable(c, i)
    ensures Removed(c.Hanging(i), TakenNode(c, i))
      == (if c.Inner(i) then [c.rows[i].kids[c.rows[i].at]] else []) + c.rows[i].kids[c.rows[i].from + 1..]
  {
    var r, s := c.rows[i], TakenNode(c, i);
    var rest := r.kids[r.from + 1..];
    assert r.kids[r.from..] == [s] + rest;
    assert c.RowOk(r, i);
    NotLater(c, i, r.from, r.from + 1);
    if c.Inner(i) {
      RemovedSecond(r.kids[r.at], rest, s);
      assert c.Hanging(i) == [r.kids[r.at], s] + rest;
    } else {
      RemovedHead(rest, s);
      assert c.Hanging(i) == [s] + rest;
      assert [] + rest == rest;
    }
  }

  lemma TakenShape(c: Chain, i: nat)
    requires Takeable(c, i)
    ensures var c' := Taken(c, i);
            && c'.Shape()
            && (forall j: nat | j < |c.rows| :: c'.Path(j) == c.Path(j) && (j != i ==> c'.Hanging(j) == c.Hanging(j)))
            && Removed(c.Hanging(i), TakenNode(c, i)) == c'.Hanging(i)
  {
    var c' := Taken(c, i);
    forall j: nat | j < |c.rows| ensures c'.RowOk(c'.rows[j], j) {
      assert c.RowOk(c.rows[j], j);
    }
    TakenRemoved(c, i);
  }

  /** A pending child of an attached chain node can be pruned. */
  lemma TakenPrunable(c: Chain, v: map<Node, View>, cell: RootCell, i: nat)
    requires Takeable(c, i) && c.lo <= i && c.ChainAll(v, cell) && c.WaitingAll(v, cell)
    ensures Prunable(v, TakenNode(c, i), c.Path(i)) && v[c.Path(i)].children == c.Hanging(i)
    ensures v[TakenNode(c, i)].state == Unused && v[TakenNode(c, i)].CacheOk(TakenNode(c, i).work)
  {
    assert c.WaitingOk(v, cell, i, TakenNode(c, i));
    assert c.ChainOk(v, cell, i) && c.RowOk(c.rows[i], i);
  }

  lemma TakenAt(c: Chain, v: map<Node, View>, cell: RootCell, i: nat, j: nat)
    requires Takeable(c, i) && c.lo <= i && j < |c.rows| && c.ChainOk(v, cell, j)
    requires Prunable(v, TakenNode(c, i), c.Path(i)) && v[c.Path(i)].children == c.Hanging(i)
    ensures Taken(c, i).Shape() && Taken(c, i).ChainOk(PrunedView(v, TakenNode(c, i)), cell, j)
  {
    hide Chain.Hanging;
    TakenShape(c, i);
    assert c.RowOk(c.rows[i], i);
    if c.Path(j) == TakenNode(c, i) {
      KidOnPath(c, i, c.rows[i].from, j);
    }
  }

  lemma TakenChain(c: Chain, v: map<Node, View>, cell: RootCell, i: nat)
    requires Takeable(c, i) && c.lo <= i && c.ChainAll(v, cell)
    requires Prunable(v, TakenNode(c, i), c.Path(i)) && v[c.Path(i)].children == c.Hanging(i)
    ensures Taken(c, i).Shape() && Taken(c, i).ChainAll(PrunedView(v, TakenNode(c, i)), cell)
  {
    hide Chain.ChainOk;
    TakenShape(c, i);
    var c', v' := Taken(c, i), PrunedView(v, TakenNode(c, i));
    forall j: nat | j < |c.rows| ensures c'.ChainOk(v', cell, j) {
      assert c.ChainOk(v, cell, j);
      TakenAt(c, v, cell, i, j);
    }
  }

  lemma TakenWaiting(c: Chain, v: map<Node, View>, v': map<Node, View>, cell: RootCell, i: nat)
    requires Takeable(c, i) && c.WaitingAll(v, cell) && Touched(v, v', TakenNode(c, i), c.Path(i))
    ensures Taken(c, i).Shape() && Taken(c, i).WaitingAll(v', cell)
  {
    TakenShape(c, i);
    var c' := Taken(c, i);
    forall j: nat, k: nat | j < |c.rows| && c'.rows[j].from <= k < |c'.rows[j].kids|
      ensures c'.WaitingOk(v', cell, j, c'.rows[j].kids[k])
    {
      var y := c.rows[j].kids[k];
      assert c.WaitingOk(v, cell, j, y);
      if y == c.Path(i) {
        KidOnPath(c, j, k, i);
      }
    }
  }

  lemma TakenGone(c: Chain, v: map<Node, View>, i: nat)
    requires Takeable(c, i) && c.GoneAll(v, null) && Prunable(v, TakenNode(c, i), c.Path(i))
    ensures Taken(c, i).Shape() && Taken(c, i).GoneAll(PrunedView(v, TakenNode(c, i)), TakenNode(c, i))
  {
    TakenShape(c, i);
    var c', v', s := Taken(c, i), PrunedView(v, TakenNode(c, i)), TakenNode(c, i);
    forall j: nat, k: nat | j < |c.rows| && c'.Unhandled(j) <= k < c'.rows[j].from
      ensures c'.GoneOk(v', s, c'.rows[j].kids[k])
    {
      var y := c.rows[j].kids[k];
      if y != s {
        assert c.Unhandled(j) <= k && c.GoneOk(v, null, y);
        if y == c.Path(i) {
          KidOnPath(c, j, k, i);
        }
      }
    }
  }

  lemma TakenLimbo(c: Chain, v: map<Node, View>, i: nat)
    requires Takeable(c, i) && Prunable(v, TakenNode(c, i), c.Path(i))
    requires v[TakenNode(c, i)].state == Unused && v[TakenNode(c, i)].CacheOk(TakenNode(c, i).work)
    ensures Taken(c, i).Shape() && Taken(c, i).LimboOk(PrunedView(v, TakenNode(c, i)), TakenNode(c, i))
  {
    TakenShape(c, i);
    assert c.RowOk(c.rows[i], i);
  }

  lemma TakenGood(c: Chain, v: map<Node, View>, cell: RootCell, root: Node?, i: nat)
    requires c.Good(v, cell, root, null) && Takeable(c, i) && c.lo <= i
    ensures Prunable(v, TakenNode(c, i), c.Path(i))
    ensures Taken(c, i).Shape() && Taken(c, i).Good(PrunedView(v, TakenNode(c, i)), cell, root, TakenNode(c, i))
  {
    TakenPrunable(c, v, cell, i);
    TakenChain(c, v, cell, i);
    TakenWaiting(c, v, PrunedView(v, TakenNode(c, i)), cell, i);
    TakenGone(c, v, i);
    TakenLimbo(c, v, i);
    TakenShape(c, i);
  }

  /** The last pending child is the thread root itself: it has no parent to leave. */
  lemma TakenRootGood(c: Chain, v: map<Node, View>, cell: RootCell, root: Node?)
    requires c.Good(v, cell, root, null) && c.lo == |c.rows| && Takeable(c, c.lo - 1)
    ensures TakenNode(c, c.lo - 1) == root
    ensures Taken(c, c.lo - 1).Shape() && Taken(c, c.lo - 1).Good(v, cell, root, TakenNode(c, c.lo - 1))
  {
    var i := c.lo - 1;
    TakenShape(c, i);
    var c', s := Taken(c, i), TakenNode(c, i);
    assert c.RowOk(c.rows[i], i) && c.WaitingOk(v, cell, i, s);
    forall j: nat | j < |c.rows| ensures c'.ChainOk(v, cell, j) {
      assert c.ChainOk(v, cell, j);
    }
    forall j: nat | j < |c.rows| ensures c'.rows[j].from == |c'.rows[j].kids| {
      assert c.RowOk(c.rows[j], j);
    }
    forall j: nat, k | j < |c.rows| && c'.Unhandled(j) <= k < c'.rows[j].from
      ensures c'.GoneOk(v, s, c'.rows[j].kids[k])
    {
      assert c.Unhandled(j) <= k && c.GoneOk(v, null, c.rows[j].kids[k]);
    }
  }

  /* ---------- the node in limbo ---------- */

  /** A change to the pruned node alone: handed over, discarded, or asked whether to branch. */
  ghost predicate LimboStep(v: map<Node, View>, v': map<Node, View>, limbo: Node) {
    limbo in v && limbo in v' && v' == v[limbo := v'[limbo]] && v'[limbo].parent == null
  }

  lemma LimboChanged(c: Chain, v: map<Node, View>, v': map<Node, View>,
    cell: RootCell, root: Node?, limbo: Node, limbo': Node?)
    requires c.Good(v, cell, root, limbo) && LimboStep(v, v', limbo)
    requires if limbo' == limbo then v'[limbo].state == Unused && v'[limbo].CacheOk(limbo.work) else limbo' == null
    requires limbo' == null
      ==> v'[limbo].state != Unused || (limbo.depth == |c.rows| && limbo.index < c.rows[limbo.depth - 1].at)
    ensures c.Good(v', cell, root, limbo')
  {
    hide Chain.Hanging;
    forall j: nat | j < |c.rows| ensures c.ChainOk(v', cell, j) {
      assert c.ChainOk(v, cell, j);
      if j > 0 {
        assert c.RowOk(c.rows[j - 1], j - 1);
      }
    }
    forall j: nat, k | j < |c.rows| && c.rows[j].from <= k < |c.rows[j].kids|
      ensures c.WaitingOk(v', cell, j, c.rows[j].kids[k])
    {
      assert c.RowOk(c.rows[j], j) && c.WaitingOk(v, cell, j, c.rows[j].kids[k]);
    }
    forall j: nat, k | j < |c.rows| && c.Unhandled(j) <= k < c.rows[j].from
      ensures c.GoneOk(v', limbo', c.rows[j].kids[k])
    {
      assert c.RowOk(c.rows[j], j) && c.GoneOk(v, limbo, c.rows[j].kids[k]);
    }
  }

  /** A pruned node whose turn has come needs no further mark. */
  lemma LimboCleared(c: Chain, v: map<Node, View>, cell: RootCell, root: Node?, limbo: Node)
    requires c.Good(v, cell, root, limbo) && limbo.depth == |c.rows| && limbo.index < c.rows[limbo.depth - 1].at
    ensures c.Good(v, cell, root, null)
  {
    forall j: nat, k | j < |c.rows| && c.Unhandled(j) <= k < c.rows[j].from
      ensures c.GoneOk(v, null, c.rows[j].kids[k])
    {
      assert c.RowOk(c.rows[j], j) && c.GoneOk(v, limbo, c.rows[j].kids[k]);
    }
  }

  /* ---------- waiting and consumed nodes that are looked at ---------- */

  /** should_branch on a pending node only fills its caches. */
  lemma AskedGood(c: Chain, v: map<Node, View>, v': map<Node, View>, cell: RootCell, root: Node?, i: nat, k: nat)
    requires c.Good(v, cell, root, null) && i < |c.rows| && c.rows[i].from <= k < |c.rows[i].kids|
    requires var x := c.rows[i].kids[k];
             && x in v && x in v' && v' == v[x := v'[x]] && v'[x] == v[x].(cached := v'[x].cached, ready := v'[x].ready)
             && v'[x].CacheOk(x.work)
    ensures c.Good(v', cell, root, null)
  {
    hide Chain.Hanging;
    var x := c.rows[i].kids[k];
    assert c.RowOk(c.rows[i], i);
    forall j: nat | j < |c.rows| ensures c.ChainOk(v', cell, j) {
      assert c.ChainOk(v, cell, j) && c.RowOk(c.rows[j], j);
      if j > 0 {
        assert c.RowOk(c.rows[j - 1], j - 1);
      }
    }
    forall j: nat, l | j < |c.rows| && c.rows[j].from <= l < |c.rows[j].kids|
      ensures c.WaitingOk(v', cell, j, c.rows[j].kids[l])
    {
      assert c.RowOk(c.rows[j], j) && c.WaitingOk(v, cell, j, c.rows[j].kids[l]);
    }
    forall j: nat, l | j < |c.rows| && c.Unhandled(j) <= l < c.rows[j].from
      ensures c.GoneOk(v', null, c.rows[j].kids[l])
    {
      assert c.RowOk(c.rows[j], j) && c.GoneOk(v, null, c.rows[j].kids[l]);
    }
  }

  /** forward of a node that was taken away before its turn skips it. */
  ghost function Skipped(c: Chain): Chain
    requires |c.rows| > 0
  {
    var i := |c.rows| - 1;
    c.(rows := c.rows[i := c.rows[i].(at := c.rows[i].at + 1)])
  }

  lemma SkippedShape(c: Chain)
    requires c.Shape() && var r := c.rows[|c.rows| - 1]; r.at < r.from
    ensures Skipped(c).Shape()
    ensures forall j: nat | j < |c.rows| :: Skipped(c).Path(j) == c.Path(j) && Skipped(c).Hanging(j) == c.Hanging(j)
  {
    var c' := Skipped(c);
    forall j: nat | j < |c.rows| ensures c'.RowOk(c'.rows[j], j) {
      assert c.RowOk(c.rows[j], j);
    }
    forall j: nat | j < |c.rows| ensures c'.Path(j) == c.Path(j) && c'.Hanging(j) == c.Hanging(j) {
      assert c.RowOk(c.rows[j], j);
    }
  }

  lemma SkippedNodes(c: Chain, v: map<Node, View>, v': map<Node, View>, cell: RootCell, x: Node)
    requires c.Shape() && c.ChainAll(v, cell) && c.WaitingAll(v, cell) && c.GoneAll(v, null)
    requires var r := c.rows[|c.rows| - 1]; r.at < r.from <= |r.kids| && x == r.kids[r.at]
    requires x in v && v' == v[x := v[x].Bare()]
    ensures Skipped(c).Shape() && Skipped(c).ChainAll(v', cell) && Skipped(c).GoneAll(v', null)
  {
    hide Chain.Hanging;
    SkippedShape(c);
    var c' := Skipped(c);
    assert c.RowOk(c.rows[|c.rows| - 1], |c.rows| - 1);
    forall j: nat | j < |c.rows| ensures c'.ChainOk(v', cell, j) {
      assert c.ChainOk(v, cell, j);
    }
    forall j: nat, k | j < |c.rows| && c'.Unhandled(j) <= k < c'.rows[j].from
      ensures c'.GoneOk(v', null, c'.rows[j].kids[k])
    {
      assert c.Unhandled(j) <= k && c.GoneOk(v, null, c.rows[j].kids[k]);
    }
  }

  lemma SkippedWaiting(c: Chain, v: map<Node, View>, v': map<Node, View>, cell: RootCell, x: Node)
    requires c.Shape() && c.WaitingAll(v, cell)
    requires var r := c.rows[|c.rows| - 1]; r.at < r.from <= |r.kids| && x == r.kids[r.at]
    requires x in v && v' == v[x := v[x].Bare()]
    ensures Skipped(c).Shape() && Skipped(c).WaitingAll(v', cell)
  {
    SkippedShape(c);
    var c' := Skipped(c);
    forall j: nat, k | j < |c.rows| && c'.rows[j].from <= k < |c'.rows[j].kids|
      ensures c'.WaitingOk(v', cell, j, c'.rows[j].kids[k])
    {
      assert c.RowOk(c.rows[j], j) && c.WaitingOk(v, cell, j, c.rows[j].kids[k]);
    }
  }

  lemma SkippedGood(c: Chain, v: map<Node, View>, cell: RootCell, root: Node?)
    requires c.Good(v, cell, root, null) && var r := c.rows[|c.rows| - 1]; r.at < r.from
    ensures var x := c.rows[|c.rows| - 1].kids[c.rows[|c.rows| - 1].at];
            && x in v && v[x].state != Unused && v[x].parent == null
            && Skipped(c).Good(v[x := v[x].Bare()], cell, root, null)
  {
    var d := |c.rows| - 1;
    var x := c.rows[d].kids[c.rows[d].at];
    assert c.Unhandled(d) == c.rows[d].at;
    assert c.GoneOk(v, null, x);
    var v' := v[x := v[x].Bare()];
    SkippedShape(c);
    SkippedNodes(c, v, v', cell, x);
    SkippedWaiting(c, v, v', cell, x);
  }

  /* ---------- running a child inline ---------- */

  /** The next child of the last level starts to run. */
  ghost function Entered(c: Chain): Chain
    requires |c.rows| > 0
  {
    var i := |c.rows| - 1;
    c.(rows := c.rows[i := c.rows[i].(from := c.rows[i].from + 1)] + [Row([], 0, 0)])
  }

  lemma EnteredShape(c: Chain)
    requires |c.rows| > 0 && Takeable(c, |c.rows| - 1)
    ensures var c' := Entered(c);
            && c'.Shape() && c'.Path(|c.rows|) == TakenNode(c, |c.rows| - 1) && c'.Hanging(|c.rows|) == []
            && (forall j: nat | j < |c.rows| :: c'.Path(j) == c.Path(j) && c'.Hanging(j) == c.Hanging(j))
  {
    var d := |c.rows| - 1;
    var c', r := Entered(c), c.rows[d];
    forall j: nat | j < |c'.rows| ensures c'.RowOk(c'.rows[j], j) {
      if j < |c.rows| {
        assert c.RowOk(c.rows[j], j);
      }
    }
    assert c.RowOk(r, d);
    assert r.kids[r.from..] == [r.kids[r.at]] + r.kids[r.from + 1..];
    assert c'.Hanging(d) == c.Hanging(d);
  }

  lemma EnteredChain(c: Chain, v: map<Node, View>, cell: RootCell)
    requires |c.rows| > 0 && Takeable(c, |c.rows| - 1) && TakenNode(c, |c.rows| - 1).work.worthy
    requires c.ChainAll(v, cell) && c.WaitingAll(v, cell)
    ensures Entered(c).Shape() && Entered(c).ChainAll(v, cell)
  {
    hide Chain.Hanging;
    var d := |c.rows| - 1;
    var c', x := Entered(c), TakenNode(c, d);
    EnteredShape(c);
    assert c.RowOk(c.rows[d], d) && c.WaitingOk(v, cell, d, x);
    forall j: nat | j < |c'.rows| ensures c'.ChainOk(v, cell, j) {
      if j < |c.rows| {
        assert c.ChainOk(v, cell, j);
      }
    }
  }

  lemma EnteredWaiting(c: Chain, v: map<Node, View>, cell: RootCell)
    requires |c.rows| > 0 && Takeable(c, |c.rows| - 1) && c.WaitingAll(v, cell)
    ensures Entered(c).Shape() && Entered(c).WaitingAll(v, cell)
  {
    var c' := Entered(c);
    EnteredShape(c);
    forall j: nat, k | j < |c'.rows| && c'.rows[j].from <= k < |c'.rows[j].kids|
      ensures c'.WaitingOk(v, cell, j, c'.rows[j].kids[k])
    {
      assert c.RowOk(c.rows[j], j) && c.WaitingOk(v, cell, j, c.rows[j].kids[k]);
    }
  }

  lemma EnteredGone(c: Chain, v: map<Node, View>)
    requires |c.rows| > 0 && Takeable(c, |c.rows| - 1) && c.GoneAll(v, null)
    ensures Entered(c).Shape() && Entered(c).GoneAll(v, null)
  {
    var c' := Entered(c);
    EnteredShape(c);
    forall j: nat, k | j < |c'.rows| && c'.Unhandled(j) <= k < c'.rows[j].from
      ensures c'.GoneOk(v, null, c'.rows[j].kids[k])
    {
      assert c.Unhandled(j) <= k && c.GoneOk(v, null, c.rows[j].kids[k]);
    }
  }

  lemma EnteredGood(c: Chain, v: map<Node, View>, cell: RootCell, root: Node?)
    requires c.Good(v, cell, root, null) && Takeable(c, |c.rows| - 1) && TakenNode(c, |c.rows| - 1).work.worthy
    ensures Entered(c).Good(v, cell, root, null)
  {
    EnteredShape(c);
    EnteredChain(c, v, cell);
    EnteredWaiting(c, v, cell);
    EnteredGone(c, v);
  }

  /** A child that the running body creates. */
  ghost function KidAdded(c: Chain, x: Node): Chain
    requires |c.rows| > 0
  {
    var i := |c.rows| - 1;
    c.(rows := c.rows[i := c.rows[i].(kids := c.rows[i].kids + [x])])
  }

  lemma KidAddedShape(c: Chain, x: Node)
    requires c.Shape() && c.lo < |c.rows|
    requires x.depth == |c.rows| && x.index == |c.rows[|c.rows| - 1].kids| && !x.isDummy
    ensures var c' := KidAdded(c, x);
            && c'.Shape() && c'.Hanging(|c.rows| - 1) == c.Hanging(|c.rows| - 1) + [x]
            && (forall j: nat | j < |c.rows| ::
               c'.Path(j) == c.Path(j) && (j < |c.rows| - 1 ==> c'.Hanging(j) == c.Hanging(j)))
  {
    var c' := KidAdded(c, x);
    forall j: nat | j < |c.rows| ensures c'.RowOk(c'.rows[j], j) {
      assert c.RowOk(c.rows[j], j);
    }
    var r := c.rows[|c.rows| - 1];
    assert c.RowOk(r, |c.rows| - 1);
    assert (r.kids + [x])[r.from..] == r.kids[r.from..] + [x];
  }

  /** x is new below the last chain node. */
  ghost predicate NewKid(c: Chain, v: map<Node, View>, v': map<Node, View>, cell: RootCell, x: Node)
    requires c.Shape()
  {
    var p := c.Path(|c.rows| - 1);
    && c.lo < |c.rows| && x !in v
    && x.depth == |c.rows| && x.index == |c.rows[|c.rows| - 1].kids| && !x.isDummy
    && p in v && x in v' && v' == v[p := v[p].(children := v[p].children + [x])][x := v'[x]]
    && v'[x].parent == p && v'[x].children == [] && v'[x].root == cell && v'[x].state == Unused && v'[x].CacheOk(x.work)
  }

  lemma KidAddedAt(c: Chain, v: map<Node, View>, v': map<Node, View>, cell: RootCell, x: Node, j: nat)
    requires c.Shape() && NewKid(c, v, v', cell, x) && j < |c.rows| && c.ChainOk(v, cell, j)
    ensures KidAdded(c, x).Shape() && KidAdded(c, x).ChainOk(v', cell, j)
  {
    KidAddedShape(c, x);
    hide Chain.Hanging, Chain.Shape, Chain.RowOk, KidAdded;
    var n := c.Path(j);
    if j == |c.rows| - 1 {
      assert v'[n] == v[n].(children := v[n].children + [x]);
    } else {
      assert n != c.Path(|c.rows| - 1);
      assert v'[n] == v[n];
    }
  }

  lemma KidAddedChain(c: Chain, v: map<Node, View>, v': map<Node, View>, cell: RootCell, x: Node)
    requires c.Shape() && c.ChainAll(v, cell) && NewKid(c, v, v', cell, x)
    ensures KidAdded(c, x).Shape() && KidAdded(c, x).ChainAll(v', cell)
  {
    KidAddedShape(c, x);
    hide Chain.ChainOk, Chain.Shape, Chain.RowOk, NewKid;
    var c' := KidAdded(c, x);
    assert |c'.rows| == |c.rows|;
    forall j: nat | j < |c'.rows| ensures c'.ChainOk(v', cell, j) {
      assert c.ChainOk(v, cell, j);
      KidAddedAt(c, v, v', cell, x, j);
    }
  }

  lemma KidAddedWaiting(c: Chain, v: map<Node, View>, v': map<Node, View>, cell: RootCell, x: Node)
    requires c.Shape() && c.WaitingAll(v, cell) && NewKid(c, v, v', cell, x)
    ensures KidAdded(c, x).Shape() && KidAdded(c, x).WaitingAll(v', cell)
  {
    var c', d := KidAdded(c, x), |c.rows| - 1;
    KidAddedShape(c, x);
    forall j: nat, k: nat | j < |c'.rows| && c'.rows[j].from <= k < |c'.rows[j].kids|
      ensures c'.WaitingOk(v', cell, j, c'.rows[j].kids[k])
    {
      if k < |c.rows[j].kids| {
        var y := c.rows[j].kids[k];
        assert c.WaitingOk(v, cell, j, y);
        if y == c.Path(d) {
          KidOnPath(c, j, k, d);
        }
      }
    }
  }

  lemma KidAddedGone(c: Chain, v: map<Node, View>, v': map<Node, View>, cell: RootCell, x: Node)
    requires c.Shape() && c.GoneAll(v, null) && NewKid(c, v, v', cell, x)
    ensures KidAdded(c, x).Shape() && KidAdded(c, x).GoneAll(v', null)
  {
    var c' := KidAdded(c, x);
    KidAddedShape(c, x);
    forall j: nat, k | j < |c'.rows| && c'.Unhandled(j) <= k < c'.rows[j].from
      ensures c'.GoneOk(v', null, c'.rows[j].kids[k])
    {
      assert c.RowOk(c.rows[j], j) && c.Unhandled(j) <= k && c.GoneOk(v, null, c.rows[j].kids[k]);
    }
  }

  lemma KidAddedGood(c: Chain, v: map<Node, View>, v': map<Node, View>, cell: RootCell, root: Node?, x: Node)
    requires c.Good(v, cell, root, null) && NewKid(c, v, v', cell, x)
    ensures KidAdded(c, x).Shape() && KidAdded(c, x).Good(v', cell, root, null)
  {
    KidAddedShape(c, x);
    KidAddedChain(c, v, v', cell, x);
    KidAddedWaiting(c, v, v', cell, x);
    KidAddedGone(c, v, v', cell, x);
  }

  /* ---------- returning from a child ---------- */

  ghost predicate Done(c: Chain) {
    c.Shape() && |c.rows| >= 2 && var r := c.rows[|c.rows| - 1]; r.at == r.from == |r.kids|
  }

  /** The last chain node is finished and pruned. */
  ghost function Returned(c: Chain): Chain
    requires |c.rows| >= 2
  {
    var d := |c.rows| - 1;
    c.(rows := c.rows[..d][d - 1 := c.rows[d - 1].(at := c.rows[d - 1].at + 1)], lo := if c.lo < d then c.lo else d)
  }

  lemma ReturnedRows(c: Chain)
    requires Done(c)
    ensures Returned(c).Shape()
  {
    var c' := Returned(c);
    forall j: nat | j < |c'.rows| ensures c'.RowOk(c'.rows[j], j) {
      assert c.RowOk(c.rows[j], j);
    }
  }

  lemma ReturnedHanging(c: Chain)
    requires Done(c)
    ensures Returned(c).Shape()
    ensures var d, c' := |c.rows| - 1, Returned(c);
            && c.Hanging(d - 1) == [c.Path(d)] + c'.Hanging(d - 1)
            && Removed(c.Hanging(d - 1), c.Path(d)) == c'.Hanging(d - 1)
  {
    ReturnedRows(c);
    var d := |c.rows| - 1;
    var r := c.rows[d - 1];
    assert c.RowOk(r, d - 1);
    NotLater(c, d - 1, r.at, r.from);
    RemovedHead(r.kids[r.from..], r.kids[r.at]);
  }

  lemma ReturnedShape(c: Chain)
    requires Done(c)
    ensures Returned(c).Shape()
    ensures forall j: nat | j < |c.rows| - 1 ::
      Returned(c).Path(j) == c.Path(j) && (j < |c.rows| - 2 ==> Returned(c).Hanging(j) == c.Hanging(j))
    ensures forall n | c.lo >= |c.rows| - 1 :: Returned(c).IsRoot(n)
    ensures c.lo >= |c.rows| - 1 ==> c.rows[|c.rows| - 2].from == |c.rows[|c.rows| - 2].kids|
  {
    ReturnedRows(c);
    assert c.RowOk(c.rows[|c.rows| - 2], |c.rows| - 2);
  }

  /** The finished node is marked, then pruned. */
  ghost function ReturnedView(c: Chain, v: map<Node, View>): map<Node, View>
    requires Done(c) && c.Path(|c.rows| - 1) in v
    requires var x := c.Path(|c.rows| - 1); v[x].parent != x && (v[x].parent != null ==> v[x].parent in v)
  {
    var x := c.Path(|c.rows| - 1);
    PrunedView(v[x := v[x].(state := Forwarded)], x)
  }

  lemma ReturnedPrunable(c: Chain, v: map<Node, View>, cell: RootCell)
    requires Done(c) && c.ChainAll(v, cell)
    ensures var d := |c.rows| - 1;
            && c.Path(d) in v && c.Path(d - 1) in v && c.Path(d) != c.Path(d - 1)
            && v[c.Path(d)].parent == (if c.lo < d then c.Path(d - 1) else null)
            && (c.lo < d ==> v[c.Path(d - 1)].children == c.Hanging(d - 1))
  {
    var d := |c.rows| - 1;
    assert c.ChainOk(v, cell, d) && c.ChainOk(v, cell, d - 1);
  }

  lemma ReturnedAt(c: Chain, v: map<Node, View>, cell: RootCell, j: nat)
    requires Done(c) && j < |c.rows| - 2 && c.ChainOk(v, cell, j)
    requires c.Path(|c.rows| - 1) in v && c.Path(|c.rows| - 2) in v
    requires v[c.Path(|c.rows| - 1)].parent == if c.lo < |c.rows| - 1 then c.Path(|c.rows| - 2) else null
    ensures Returned(c).Shape() && Returned(c).ChainOk(ReturnedView(c, v), cell, j)
  {
    hide Chain.Hanging;
    var d := |c.rows| - 1;
    ReturnedShape(c);
    assert c.Path(j) != c.Path(d) && c.Path(j) != c.Path(d - 1);
    assert ReturnedView(c, v)[c.Path(j)] == v[c.Path(j)];
  }

  /** How the finished node's parent looks afterwards. */
  lemma ReturnedParent(c: Chain, v: map<Node, View>)
    requires Done(c) && c.Path(|c.rows| - 1) in v && c.Path(|c.rows| - 2) in v
    requires v[c.Path(|c.rows| - 1)].parent == if c.lo < |c.rows| - 1 then c.Path(|c.rows| - 2) else null
    ensures var d := |c.rows| - 1; var p := c.Path(d - 1);
            && p in ReturnedView(c, v)
            && ReturnedView(c, v)[p] ==
               if c.lo < d then v[p].(children := Removed(v[p].children, c.Path(d))) else v[p]
  {
    hide Chain.Hanging, Removed;
    assert c.Path(|c.rows| - 2) != c.Path(|c.rows| - 1);
  }

  lemma ReturnedLast(c: Chain, v: map<Node, View>, cell: RootCell)
    requires Done(c) && c.Path(|c.rows| - 1) in v && c.ChainOk(v, cell, |c.rows| - 2)
    requires v[c.Path(|c.rows| - 1)].parent == if c.lo < |c.rows| - 1 then c.Path(|c.rows| - 2) else null
    ensures Returned(c).Shape() && Returned(c).ChainOk(ReturnedView(c, v), cell, |c.rows| - 2)
  {
    ReturnedShape(c);
    ReturnedHanging(c);
    ReturnedParent(c, v);
    hide Chain.Hanging, Chain.RowOk, Removed, ReturnedView;
    var d := |c.rows| - 1;
    assert Returned(c).Path(d - 1) == c.Path(d - 1);
    assert Returned(c).lo == if c.lo < d then c.lo else d;
  }

  lemma ReturnedChain(c: Chain, v: map<Node, View>, cell: RootCell)
    requires Done(c) && c.ChainAll(v, cell)
    requires c.Path(|c.rows| - 1) in v && c.Path(|c.rows| - 2) in v
    requires v[c.Path(|c.rows| - 1)].parent == if c.lo < |c.rows| - 1 then c.Path(|c.rows| - 2) else null
    ensures Returned(c).Shape() && Returned(c).ChainAll(ReturnedView(c, v), cell)
  {
    hide Chain.ChainOk;
    ReturnedShape(c);
    var c', v' := Returned(c), ReturnedView(c, v);
    forall j: nat | j < |c.rows| - 1 ensures c'.ChainOk(v', cell, j) {
      assert c.ChainOk(v, cell, j);
      if j == |c.rows| - 2 {
        ReturnedLast(c, v, cell);
      } else {
        ReturnedAt(c, v, cell, j);
      }
    }
  }

  lemma ReturnedWaiting(c: Chain, v: map<Node, View>, v': map<Node, View>, cell: RootCell)
    requires Done(c) && c.WaitingAll(v, cell) && Touched(v, v', c.Path(|c.rows| - 1), c.Path(|c.rows| - 2))
    ensures Returned(c).Shape() && Returned(c).WaitingAll(v', cell)
  {
    var d := |c.rows| - 1;
    ReturnedShape(c);
    var c' := Returned(c);
    forall j: nat, k: nat | j < d && c'.rows[j].from <= k < |c'.rows[j].kids|
      ensures c'.WaitingOk(v', cell, j, c'.rows[j].kids[k])
    {
      var y := c.rows[j].kids[k];
      assert c.WaitingOk(v, cell, j, y);
      if y == c.Path(d) {
        KidOnPath(c, j, k, d);
      } else if y == c.Path(d - 1) {
        KidOnPath(c, j, k, d - 1);
      }
    }
  }

  lemma ReturnedGone(c: Chain, v: map<Node, View>, v': map<Node, View>)
    requires Done(c) && c.GoneAll(v, null) && Touched(v, v', c.Path(|c.rows| - 1), c.Path(|c.rows| - 2))
    ensures Returned(c).Shape() && Returned(c).GoneAll(v', null)
  {
    var d := |c.rows| - 1;
    ReturnedShape(c);
    var c' := Returned(c);
    forall j: nat, k: nat | j < d && c'.Unhandled(j) <= k < c'.rows[j].from
      ensures c'.GoneOk(v', null, c'.rows[j].kids[k])
    {
      var y := c.rows[j].kids[k];
      assert c.Unhandled(j) <= k && c.GoneOk(v, null, y);
      if y == c.Path(d) {
        KidOnPath(c, j, k, d);
      } else if y == c.Path(d - 1) {
        KidOnPath(c, j, k, d - 1);
      }
    }
  }

  lemma ReturnedGood(c: Chain, v: map<Node, View>, cell: RootCell, root: Node?)
    requires c.Good(v, cell, root, null) && Done(c)
    ensures var d := |c.rows| - 1;
            && c.Path(d) in v && c.Path(d - 1) in v && c.Path(d) != c.Path(d - 1)
            && v[c.Path(d)].parent == (if c.lo < d then c.Path(d - 1) else null)
    ensures Returned(c).Good(ReturnedView(c, v), cell, root, null)
  {
    ReturnedShape(c);
    ReturnedPrunable(c, v, cell);
    ReturnedChain(c, v, cell);
    ReturnedWaiting(c, v, ReturnedView(c, v), cell);
    ReturnedGone(c, v, ReturnedView(c, v));
  }
}

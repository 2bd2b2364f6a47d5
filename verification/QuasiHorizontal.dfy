/**
 * One thread's part of the quasi-horizontal load balancer
 * (private/impl/load_balancing/quasi_horizontal_load_balancer.hpp).
 *
 * The thread runs a chain of nodes, each the first remaining child of the one above it, below a dummy node.
 * Locks, a full pool and the transmission channel are nondeterministic choices.
 */
module QuasiHorizontal {
  import opened Common
  import opened TraceNode
  import opened TraceChain
  import P = PushOrder

  /* ---------- what has to happen ---------- */

  /** The ids that must be executed because of w: its own and its descendants', cut where an initializer declines. */
  ghost function Expected(w: Work): multiset<nat> {
    if w.worthy then multiset{w.id} + ExpectedAll(w.kids) else multiset{}
  }

  ghost function ExpectedAll(ws: seq<Work>): multiset<nat> {
    if ws == [] then multiset{} else Expected(ws[0]) + ExpectedAll(ws[1..])
  }

  ghost function ExpectedOf(ns: seq<Node>): multiset<nat> {
    if ns == [] then multiset{} else Expected(ns[0].work) + ExpectedOf(ns[1..])
  }

  lemma {:induction false} ExpectedOfKids(ns: seq<Node>, ws: seq<Work>)
    requires |ns| == |ws| && forall k | 0 <= k < |ns| :: ns[k].work == ws[k]
    ensures ExpectedOf(ns) == ExpectedAll(ws)
  {
    if ns != [] {
      ExpectedOfKids(ns[1..], ws[1..]);
    }
  }

  /** A node given to another process or to the pool, and whether no shallower node of the thread was pending then. */
  datatype Delegation = Delegation(work: Work, depth: nat, shallowest: bool, remotely: bool)

  ghost function ExpectedFrom(ds: seq<Delegation>): multiset<nat> {
    if ds == [] then multiset{} else ExpectedFrom(ds[..|ds| - 1]) + Expected(ds[|ds| - 1].work)
  }

  lemma ExpectedFromMore(ds: seq<Delegation>, d: Delegation)
    ensures ExpectedFrom(ds + [d]) == ExpectedFrom(ds) + Expected(d.work)
  {
    assert (ds + [d])[..|ds|] == ds;
  }

  ghost function RowLoad(r: Row): multiset<nat> {
    if r.from <= |r.kids| then ExpectedOf(r.kids[r.from..]) else multiset{}
  }

  /** What must be executed because of the nodes that are still pending. */
  ghost function Load(rows: seq<Row>): multiset<nat> {
    if rows == [] then multiset{} else Load(rows[..|rows| - 1]) + RowLoad(rows[|rows| - 1])
  }

  lemma BagSwap(a: multiset<nat>, b: multiset<nat>, c: multiset<nat>, d: multiset<nat>, e: multiset<nat>)
    requires a + b == c + d
    ensures (a + e) + b == (c + e) + d
  {
    assert (a + e) + b == (a + b) + e;
  }

  lemma BagMove(x: multiset<nat>, a: multiset<nat>, e: multiset<nat>, b: multiset<nat>)
    ensures x + (a + e) + b == x + a + (b + e)
  {
  }

  lemma BagCancel(a: multiset<nat>, b: multiset<nat>, c: multiset<nat>, d: multiset<nat>, e: multiset<nat>)
    requires a + b == d + c && b == e + c
    ensures d == a + e
  {
    forall x ensures d[x] == (a + e)[x] {
      assert (a + b)[x] == (d + c)[x];
    }
  }

  lemma {:induction false} LoadUpdated(rows: seq<Row>, i: nat, r: Row)
    requires i < |rows|
    ensures Load(rows[i := r]) + RowLoad(rows[i]) == Load(rows) + RowLoad(r)
  {
    hide RowLoad;
    var l := |rows| - 1;
    if i == l {
      assert rows[i := r][..l] == rows[..l];
    } else {
      assert rows[i := r][..l] == rows[..l][i := r];
      LoadUpdated(rows[..l], i, r);
      BagSwap(Load(rows[..l][i := r]), RowLoad(rows[i]), Load(rows[..l]), RowLoad(r), RowLoad(rows[l]));
    }
  }

  /** A row that stands for e less. */
  lemma LoadLess(rows: seq<Row>, i: nat, r: Row, e: multiset<nat>)
    requires i < |rows| && RowLoad(rows[i]) == e + RowLoad(r)
    ensures Load(rows) == Load(rows[i := r]) + e
  {
    hide RowLoad, Load;
    LoadUpdated(rows, i, r);
    BagCancel(Load(rows[i := r]), RowLoad(rows[i]), RowLoad(r), Load(rows), e);
  }

  /** A row that stands for e more. */
  lemma LoadMore(rows: seq<Row>, i: nat, r: Row, e: multiset<nat>)
    requires i < |rows| && RowLoad(r) == e + RowLoad(rows[i])
    ensures Load(rows[i := r]) == Load(rows) + e
  {
    hide RowLoad, Load;
    LoadUpdated(rows, i, r);
    BagCancel(Load(rows), RowLoad(r), RowLoad(rows[i]), Load(rows[i := r]), e);
  }

  lemma LoadAppended(rows: seq<Row>, r: Row)
    ensures Load(rows + [r]) == Load(rows) + RowLoad(r)
  {
    hide RowLoad;
    assert (rows + [r])[..|rows|] == rows;
  }

  lemma TakenLoad(c: Chain, i: nat)
    requires Takeable(c, i)
    ensures Load(c.rows) == Load(Taken(c, i).rows) + Expected(TakenNode(c, i).work)
  {
    hide Load, Expected;
    var r, r' := c.rows[i], Taken(c, i).rows[i];
    assert r.kids[r.from..][1..] == r'.kids[r'.from..];
    LoadLess(c.rows, i, r', Expected(TakenNode(c, i).work));
  }

  /** The row once its next child has been handled and was not taken away before. */
  ghost function Advanced(r: Row): Row {
    r.(at := r.at + 1, from := r.from + 1)
  }

  ghost function Total(executed: multiset<nat>, delegated: seq<Delegation>, rows: seq<Row>): multiset<nat> {
    executed + ExpectedFrom(delegated) + Load(rows)
  }

  /** The row of the last chain node. */
  ghost function Last(c: Chain): (r: Row)
    requires |c.rows| > 0
  {
    c.rows[|c.rows| - 1]
  }

  /** What a thread's methods may do to the levels above the one they work on. */
  ghost predicate Evolved(c: Chain, c': Chain) {
    && c'.dummy == c.dummy && |c'.rows| == |c.rows| && c.lo <= c'.lo
    && forall i | 0 <= i < |c.rows| - 1 ::
         c'.rows[i].kids == c.rows[i].kids && c'.rows[i].at == c.rows[i].at && c.rows[i].from <= c'.rows[i].from
  }

  /** No pending node is nearer to the thread's dummy than level i. */
  ghost predicate NoneAbove(c: Chain, i: int) {
    forall j | 0 <= j < i && j < |c.rows| :: c.rows[j].from >= |c.rows[j].kids|
  }

  /** Only nodes worth running are handed over, and the record says whether each was the shallowest pending one. */
  ghost predicate Told(delegated: seq<Delegation>, order: P.Order) {
    && (forall d | d in delegated :: d.work.worthy)
    && (order.handed <==> forall d | d in delegated :: d.shallowest)
  }

  /**
   * From ds to ds' nodes were only handed to the pool if that is granted, locally or somewhere in the plan, and to
   * another process likewise.
   */
  ghost predicate Within(ds: seq<Delegation>, ds': seq<Delegation>, locally: bool, remotely: bool, plan: P.Plan) {
    && ds <= ds'
    && forall i | |ds| <= i < |ds'| :: (if ds'[i].remotely then remotely else locally) || P.Sends(plan, ds'[i].remotely)
  }

  /** From ds to ds' nodes were only handed over in this way. */
  ghost predicate AllTo(ds: seq<Delegation>, ds': seq<Delegation>, remotely: bool) {
    ds <= ds' && forall i | |ds| <= i < |ds'| :: ds'[i].remotely == remotely
  }

  class Balancer {
    const cell: RootCell
    ghost var chain: Chain
    ghost var view: map<Node, View>
    ghost var executed: multiset<nat>         // history: ids of the nodes whose body has run inline
    ghost var delegated: seq<Delegation>      // history
    ghost var order: P.Order                  // history: whether the nodes that send took out were the shallowest

    /** create_dummy_node at the start of a task: the dummy becomes the thread's root. */
    constructor (cell: RootCell)
      modifies cell
      ensures Valid(null) && Honest() && fresh(view.Keys) && this.cell == cell && Now() == P.START
      ensures chain.lo == 0 && chain.rows == [Row([], 0, 0)] && executed == multiset{} && delegated == []
      ensures cell.node == chain.dummy
    {
      var d := new Node(Work(0, true, []), true, false, 0, 0);
      this.cell := cell;
      chain, executed, delegated, order := Chain(d, [Row([], 0, 0)], 0), multiset{}, [], P.START.order;
      view := map[d := View(null, [], cell, Unused, None, true)];
      new;
      d.root := cell;
      cell.node := d;
      view := map[d := d.Seen()];
      assert LevelOf(Row([], 0, 0)) == P.Level([], 0, 0);
    }

    ghost predicate Synced(besides: Node?)
      reads `view, view.Keys
    {
      forall n | n in view && n != besides :: view[n] == n.Seen()
    }

    lemma SeenAs(n: Node)
      requires Synced(null) && n in view
      ensures view[n] == n.Seen()
    {
    }

    ghost predicate Valid(limbo: Node?)
      reads `chain, `view, cell, view.Keys
    {
      chain.Shape() && Synced(null) && chain.Good(view, cell, cell.node, limbo)
    }

    /** What the history says between calls. */
    ghost predicate Honest()
      reads this
    {
      Told(delegated, order)
    }

    /** The thread as PushOrder sees it. */
    ghost function Now(): P.Trace
      reads this
    {
      TraceOf(chain, order)
    }

    /** Executed, handed over and still pending, together. */
    ghost function Balance(): multiset<nat>
      reads this
    {
      Total(executed, delegated, chain.rows)
    }

    /* ---------- single changes, kept in step with the view ---------- */

    method MakeRoot(n: Node)
      requires Synced(null) && n in view
      modifies this`view, cell, n`parent
      ensures Synced(null) && cell.node == n && view == old(view)[n := old(view)[n].(parent := null)]
    {
      cell.node := n;
      n.parent := null;
      view := view[n := view[n].(parent := null)];
    }

    method Prune(n: Node)
      requires Synced(null) && n in view && view[n].parent != n && (view[n].parent != null ==> view[n].parent in view)
      modifies this`view, view.Keys
      ensures Synced(null) && view == PrunedView(old(view), n)
    {
      n.Prune();
      view := PrunedView(view, n);
    }

    method ShouldBranch(n: Node) returns (b: bool)
      requires Synced(null) && n in view && view[n].state == Unused && view[n].CacheOk(n.work)
      modifies this`view, view.Keys
      ensures Synced(null) && b == n.work.worthy && n in view
      ensures view == old(view)[n := old(view)[n].(cached := view[n].cached, ready := view[n].ready)]
      ensures view[n].CacheOk(n.work)
    {
      b := n.ShouldBranch();
      view := view[n := n.Seen()];
    }

    /** delegate_locally or delegate_remotely, for a node that its initializer accepts. */
    method Delegate(n: Node, remotely: bool)
      requires Synced(null) && n in view && view[n].state == Unused && view[n].CacheOk(n.work) && n.work.worthy
      modifies this`view, this`delegated, view.Keys
      ensures Synced(null) && n in view && view[n].state == if remotely then Sent else Pushed
      ensures view == old(view)[n := old(view)[n].(state := view[n].state, ready := view[n].ready)]
      ensures delegated == old(delegated) + [Delegation(n.work, n.depth, NoneAbove(chain, n.depth - 1), remotely)]
    {
      if n.state != Unused {
        assert false;
      }
      n.EnsureReady();
      n.state := if remotely then Sent else Pushed;
      view := view[n := n.Seen()];
      delegated := delegated + [Delegation(n.work, n.depth, NoneAbove(chain, n.depth - 1), remotely)];
    }

    method Discard(n: Node)
      requires Synced(null) && n in view
      modifies this`view, view.Keys
      ensures Synced(null) && view == old(view)[n := old(view)[n].(state := Discarded)]
    {
      n.state := Discarded;
      view := view[n := n.Seen()];
    }

    /* ---------- the thread root ---------- */

    /** One iteration of try_correct_root: the only child of the root becomes the root. */
    method Lower(root: Node, ghost limit: nat, ghost limbo: Node?) returns (leftmost: Node)
      requires Valid(limbo) && root == cell.node && RootIs(chain, view, root) && |root.children| == 1
      requires chain.lo < limit <= |chain.rows|
      modifies this`chain, this`view, cell, view.Keys
      ensures Valid(limbo) && chain == old(chain).(lo := old(chain.lo) + 1) && view.Keys == old(view.Keys)
      ensures leftmost == cell.node && RootIs(chain, view, leftmost)
      ensures Corrected(chain, limit) == Corrected(old(chain), limit)
    {
      hide Chain.Good, Chain.RowOk, Corrected, Synced;
      ghost var c, v := chain, view;
      SeenAs(root);
      CorrectedUnfold(c, limit);
      LowestFacts(c, v, cell, cell.node, limbo);
      leftmost := root.children[0];
      MakeRoot(leftmost);
      Prune(root);
      chain := c.(lo := c.lo + 1);
      LoweredGood(c, v, cell, root, limbo);
      RootFacts(chain, view, cell, leftmost, limbo);
    }

    /** The loop of try_correct_root. */
    method PassDown(start: Node, p: Node, ghost limit: nat, ghost limbo: Node?)
      requires Valid(limbo) && start == cell.node && RootIs(chain, view, start) && chain.lo < limit
      requires IsLimit(chain, p, limit)
      modifies this`chain, this`view, cell, view.Keys
      ensures Valid(limbo) && view.Keys == old(view.Keys)
      ensures chain == old(chain).(lo := Corrected(old(chain), limit))
    {
      hide Chain.Good, Chain.RowOk, IsLimit;
      ghost var c := chain;
      var root := start;
      LimitReached(c, c, p, limit);
      while |root.children| == 1
        invariant Valid(limbo) && view.Keys == old(view.Keys) && root == cell.node && RootIs(chain, view, root)
        invariant limit <= |c.rows| && chain == c.(lo := chain.lo) && Corrected(chain, limit) == Corrected(c, limit)
        invariant chain.lo < limit || root.children == []
        decreases |c.rows| - chain.lo
      {
        root := Lower(root, limit, limbo);
        LimitReached(c, chain, p, limit);
        if root == p || |root.children| >= 2 {
          CorrectedStop(chain, limit);
          return;
        }
      }
      CorrectedStop(chain, limit);
    }

    /** try_correct_root: the root is passed down single children, as far as p when p is the last chain node. */
    method TryCorrectRoot(p: Node, ghost limbo: Node?)
      requires Valid(limbo) && Correctable(chain, p)
      modifies this`chain, this`view, cell, view.Keys
      ensures Valid(limbo) && view.Keys == old(view.Keys)
      ensures chain == old(chain).(lo := Corrected(old(chain), Limit(old(chain), p)))
      ensures PassedDown(old(chain), chain.lo, Limit(old(chain), p))
    {
      hide Chain.Good, PassedDown;
      CorrectedEnds(chain, Limit(chain, p));
      CorrectableFacts(chain, view, cell, cell.node, limbo, p);
      CorrectedUnfold(chain, Limit(chain, p));
      if p.root == null {
        return;
      }
      var root := p.root.node;
      if root == null {
        return;
      }
      if root == p && root.children == [] {
        return;
      }
      if |root.children| >= 2 {
        return;
      }
      LimitIsLimit(chain, p);
      PassDown(root, p, Limit(chain, p), limbo);
    }

    /* ---------- submitting ---------- */

    /** get_root_level_pending_node: the second child of the thread root, unless p hangs directly below it. */
    method GetRootLevelPending(p: Node) returns (top: Node?)
      requires Valid(null) && Submittable(chain, p)
      modifies this`chain, this`view, view.Keys
      ensures Valid(top) && view.Keys == old(view.Keys)
      ensures top == null ==> chain == old(chain) && NothingAbove(chain)
      ensures top != null ==>
        && PushableAbove(old(chain)) && chain == Taken(old(chain), old(chain.lo))
        && top == TakenNode(old(chain), old(chain.lo))
    {
      hide Chain.Good;
      ghost var c := chain;
      SubmitFacts(c, view, cell, cell.node, p);
      if p.parent == null {
        return null;
      }
      if p.root != null && p.parent == p.root.node {
        return null;
      }
      var root := if p.root == null then null else p.root.node;
      if root == null {
        return null;
      }
      if |root.children| < 2 {
        return null;
      }
      top := root.children[1];
      PruneTaken(top, c.lo);
    }

    /** A pruned node is handed to the pool or another process, or discarded when its initializer declines. */
    method HandOver(n: Node, remotely: bool)
      requires Valid(n)
      modifies this`view, this`delegated, this`order, view.Keys
      ensures Valid(null) && view.Keys == old(view.Keys)
      ensures order == old(order).Noted(NoneAbove(chain, n.depth - 1), n.work.worthy)
      ensures delegated == old(delegated) + Handed(n, NoneAbove(chain, n.depth - 1), remotely)
      ensures n in view && view[n].state == if !n.work.worthy then Discarded else if remotely then Sent else Pushed
    {
      hide Chain.Good, NoneAbove, Synced;
      ghost var v := view;
      LimboFacts(chain, v, cell, cell.node, n);
      var b := ShouldBranch(n);
      LimboChanged(chain, v, view, cell, cell.node, n, n);
      ghost var v1 := view;
      if b {
        Delegate(n, remotely);
      } else {
        Discard(n);
      }
      LimboChanged(chain, v1, view, cell, cell.node, n, null);
      order := order.Noted(NoneAbove(chain, n.depth - 1), n.work.worthy);
    }

    /** try_push_root_level_node_locally and _remotely */
    method TryPushRootLevel(p: Node, remotely: bool) returns (pushed: bool)
      requires Valid(null) && Submittable(chain, p)
      modifies this`chain, this`view, this`delegated, this`order, cell, view.Keys
      ensures Valid(null) && view.Keys == old(view.Keys)
      ensures order == old(order)
      ensures !pushed ==> chain == old(chain) && delegated == old(delegated) && NothingAbove(chain)
      ensures pushed ==> PushableAbove(old(chain)) && chain == AfterPush(old(chain))
      ensures pushed ==> delegated == old(delegated) + Handed(TakenNode(old(chain), old(chain.lo)), true, remotely)
    {
      hide Chain.Good, Synced, AfterPush, Handed;
      ghost var c := chain;
      var top := GetRootLevelPending(p);
      if top == null {
        return false;
      }
      PushFacts(c, p);
      LimboFacts(chain, view, cell, cell.node, top);
      SeenAs(top);
      AfterPushIs(c);
      if top.state != Unused {
        assert false;
      }
      TryCorrectRoot(p, top);
      HandOver(top, remotely);
      return true;
    }

    /** A pending node is pruned from the chain node it hangs from. */
    method PruneTaken(s: Node, ghost i: nat)
      requires Valid(null) && Takeable(chain, i) && chain.lo <= i && s == TakenNode(chain, i)
      modifies this`chain, this`view, view.Keys
      ensures Valid(s) && view.Keys == old(view.Keys) && chain == Taken(old(chain), i)
    {
      hide Chain.Good, Synced;
      ghost var c, v := chain, view;
      TakenGood(c, v, cell, cell.node, i);
      Prune(s);
      chain := Taken(c, i);
    }

    /** prune_and_fix_parent_root_if_needed */
    method PruneAndFix(p: Node)
      requires Valid(null) && Submittable(chain, p)
      modifies this`chain, this`view, cell, view.Keys
      ensures Valid(p) && view.Keys == old(view.Keys) && chain == AfterTaken(old(chain))
    {
      hide Chain.Good, Synced, AfterTaken, Corrected, Limit, Taken, PassedDown;
      ghost var c := chain;
      SubmitFacts(c, view, cell, cell.node, p);
      SeenAs(p);
      AfterTakenRows(c, p);
      AfterTakenIs(c);
      if p.state != Unused {
        assert false;
      }
      var parent := p.parent;
      var root := if p.root == null then null else p.root.node;
      if p == root && |p.children| == 0 {
        TakenRootGood(c, view, cell, root);
        chain := Taken(c, |c.rows| - 1);
        return;
      }
      PruneTaken(p, |c.rows| - 1);
      TryCorrectRoot(parent, p);
    }

    /** A push from the root level, with what it keeps. */
    method PushFromRoot(p: Node, remotely: bool) returns (pushed: bool)
      requires Valid(null) && Honest() && Submittable(chain, p)
      modifies this`chain, this`view, this`delegated, this`order, cell, view.Keys
      ensures Valid(null) && Honest() && Balance() == old(Balance()) && view.Keys == old(view.Keys)
      ensures Submittable(chain, p) && Evolved(old(chain), chain) && Last(chain) == Last(old(chain))
      ensures pushed == P.HasAbove(old(Now())) && Now() == if pushed then P.PushedAbove(old(Now())) else old(Now())
      ensures !pushed ==> chain == old(chain) && NothingAbove(chain)
      ensures AllTo(old(delegated), delegated, remotely)
    {
      hide Chain.Good, Total, Lost, AfterPush, TraceOf, Synced, Told, Evolved, P.HasAbove, P.PushedAbove;
      ghost var c, ds := chain, delegated;
      pushed := TryPushRootLevel(p, remotely);
      TraceAbove(c, order);
      if pushed {
        AfterPushRows(c, p);
        AfterPushLoad(c);
        AfterPushTrace(c, order);
        HandedTotal(executed, ds, TakenNode(c, c.lo), true, remotely, c.rows, chain.rows);
        ToldMore(ds, order, TakenNode(c, c.lo), true, remotely);
      } else {
        EvolvedNot(c);
      }
    }

    /** The submitted node itself leaves the thread, when nothing nearer to the root can. */
    method PushNode(p: Node, remotely: bool)
      requires Valid(null) && Honest() && Submittable(chain, p) && NothingAbove(chain)
      modifies this`chain, this`view, this`delegated, this`order, cell, view.Keys
      ensures Valid(null) && Honest() && Balance() == old(Balance()) && view.Keys == old(view.Keys)
      ensures Evolved(old(chain), chain) && Last(chain) == Advanced(Last(old(chain)))
      ensures var t := old(Now()); Now() == P.TakenLast(t).(order := t.order.Noted(P.NoneAbove(t), p.work.worthy))
      ensures AllTo(old(delegated), delegated, remotely)
    {
      hide Chain.Good, Total, Lost, AfterTaken, TraceOf, Synced, Told, Evolved,
        Advanced, P.TakenLast, P.NoneAbove, NoneAbove;
      ghost var c, ds, o := chain, delegated, order;
      AfterTakenRows(c, p);
      AfterTakenLoad(c);
      NoneAboveSame(c, p);
      PruneAndFix(p);
      HandOver(p, remotely);
      assert delegated == ds + Handed(p, NoneAbove(c, |c.rows| - 1), remotely);
      HandedTotal(executed, ds, p, NoneAbove(c, |c.rows| - 1), remotely, c.rows, chain.rows);
      ToldMore(ds, o, p, NoneAbove(c, |c.rows| - 1), remotely);
      AfterTakenTrace(c, o, p.work.worthy);
    }

    /** One iteration of send, which ends in a blocked attempt, a push from the root level, or the push of p. */
    method Attempt(p: Node, remotely: bool, granted: bool) returns (outcome: Attempted)
      requires Valid(null) && Honest() && Submittable(chain, p)
      modifies this`chain, this`view, this`delegated, this`order, cell, view.Keys
      ensures Valid(null) && Honest() && Balance() == old(Balance()) && view.Keys == old(view.Keys)
      ensures Evolved(old(chain), chain)
      ensures Last(chain) == if outcome == PushedNode then Advanced(Last(old(chain))) else Last(old(chain))
      ensures outcome != PushedNode ==> Submittable(chain, p)
      ensures AllTo(old(delegated), delegated, remotely) && (!granted ==> delegated == old(delegated))
      ensures outcome == Tried(old(Now()), granted) && Now() == AfterTry(old(Now()), p.work.worthy, granted)
    {
      hide Chain.Good, Total, TraceOf, Evolved, Told, Synced, P.HasAbove, P.TakenLast, P.PushedAbove, P.NoneAbove;
      EvolvedNot(chain);
      if !granted {
        return Blocked;
      }
      var pushed := PushFromRoot(p, remotely);
      if pushed {
        return PushedAbove;
      }
      PushNode(p, remotely);
      return PushedNode;
    }

    /**
     * send, locally or remotely: first every pending node near the root that can be pushed, then p itself. The lock is
     * free, and the pool or the channel has room, for as many attempts as are granted.
     */
    method Send(p: Node, remotely: bool, grants: nat) returns (sent: bool)
      requires Valid(null) && Honest() && Submittable(chain, p)
      modifies this`chain, this`view, this`delegated, this`order, cell, view.Keys
      ensures Valid(null) && Honest() && Balance() == old(Balance()) && view.Keys == old(view.Keys)
      ensures Evolved(old(chain), chain)
      ensures Last(chain) == if sent then Advanced(Last(old(chain))) else Last(old(chain))
      ensures !sent ==> Submittable(chain, p)
      ensures (Now(), sent) == P.Sent(old(Now()), p.work.worthy, grants)
      ensures AllTo(old(delegated), delegated, remotely) && (grants == 0 ==> delegated == old(delegated))
    {
      hide Chain.Good, Total, TraceOf, Advanced, Submittable, Evolved, Told, Synced, Tried, AfterTry, P.Sent;
      var left: nat := grants;
      EvolvedNot(chain);
      while true
        invariant Valid(null) && Honest() && Submittable(chain, p)
        invariant Balance() == old(Balance()) && view.Keys == old(view.Keys)
        invariant Evolved(old(chain), chain) && Last(chain) == Last(old(chain))
        invariant P.Sent(Now(), p.work.worthy, left) == P.Sent(old(Now()), p.work.worthy, grants)
        invariant AllTo(old(delegated), delegated, remotely) && left <= grants
        invariant grants == 0 ==> delegated == old(delegated)
        decreases left
      {
        ghost var b, t := chain, Now();
        var outcome := Attempt(p, remotely, left > 0);
        TrySent(t, p.work.worthy, left);
        EvolvedTwice(old(chain), b, chain);
        if outcome != PushedAbove {
          return outcome == PushedNode;
        }
        left := left - 1;
      }
    }

    /* ---------- forwarding ---------- */

    /** p is about to be pruned by forward: taken away before, declined by its initializer, or run to its end. */
    ghost predicate Forwardable(p: Node, fate: Fate)
      reads this, cell, view.Keys, p
    {
      && Synced(if fate == WasRun then p else null)
      && ForwardOk(chain, view, cell, cell.node, p, fate)
      && p.Seen() == Marked(view, p, fate)[p]
    }

    /** What run wrote to the node's state is seen, then the node is pruned. */
    method PruneMarked(p: Node, ghost fate: Fate)
      requires p in view && Synced(if fate == WasRun then p else null) && p.Seen() == Marked(view, p, fate)[p]
      requires var v := Marked(view, p, fate); v[p].parent != p && (v[p].parent != null ==> v[p].parent in v)
      modifies this`view, view.Keys
      ensures Synced(null) && view == PrunedView(Marked(old(view), p, fate), p)
    {
      view := Marked(view, p, fate);
      Prune(p);
    }

    /** The forwarded node leaves its parent, if it still has one. */
    method PruneForwarded(p: Node, ghost fate: Fate) returns (parent: Node?)
      requires Forwardable(p, fate)
      modifies this`chain, this`view, view.Keys
      ensures Valid(null) && view.Keys == old(view.Keys) && chain == Resolved(old(chain), fate)
      ensures parent == null <==> fate == WasSkipped || old(chain.lo) >= |chain.rows|
      ensures parent != null ==> parent == chain.Path(|chain.rows| - 1)
    {
      hide Chain.Good, Chain.Shape, Resolved, Done, Submittable, Synced;
      ghost var c, v := chain, view;
      ForwardedGood(c, v, cell, cell.node, p, fate);
      parent := p.parent;
      ghost var r := Resolved(c, fate);
      PruneMarked(p, fate);
      chain := r;
    }

    /** prune_and_correct_root_after_forward */
    method PruneAndCorrect(p: Node, ghost fate: Fate)
      requires Forwardable(p, fate)
      modifies this`chain, this`view, cell, view.Keys
      ensures Valid(null) && view.Keys == old(view.Keys)
      ensures Resolved(old(chain), fate).Shape() && chain == Finished(old(chain), fate)
    {
      hide Chain.Good;
      var parent := PruneForwarded(p, fate);
      if parent == null {
        return;
      }
      ghost var r := chain;
      TryCorrectRoot(parent, null);
      assert chain == Lowest(r);
    }

    /* ---------- running ---------- */

    /** Whether a pending node is worth running; the answer is remembered. */
    method Ask(p: Node) returns (b: bool)
      requires Valid(null) && Submittable(chain, p)
      modifies this`view, view.Keys
      ensures Valid(null) && view.Keys == old(view.Keys) && b == p.work.worthy
    {
      hide Chain.Good;
      ghost var v := view;
      SubmitFacts(chain, view, cell, cell.node, p);
      b := ShouldBranch(p);
      AskedGood(chain, v, view, cell, cell.node, |chain.rows| - 1, Last(chain).from);
    }

    /** ensure_args_initialized at the start of run */
    method Prepare(p: Node)
      requires Valid(null) && Submittable(chain, p) && p.work.worthy
      modifies this`view, view.Keys
      ensures Valid(null) && view.Keys == old(view.Keys)
    {
      hide Chain.Good;
      ghost var v := view;
      SubmitFacts(chain, view, cell, cell.node, p);
      if p.state != Unused {
        assert false;
      }
      p.EnsureReady();
      view := view[p := p.Seen()];
      AskedGood(chain, v, view, cell, cell.node, |chain.rows| - 1, Last(chain).from);
    }

    /** The node itself: it hangs below x from the start. */
    method NewNode(x: Node, w: Work, ghost k: nat) returns (c: Node)
      requires Synced(null) && x in view && chain.Shape()
      modifies this`view, view.Keys
      ensures Synced(null) && fresh(c) && c in view
      ensures view == old(view)[x := old(view)[x].(children := old(view)[x].children + [c])][c := view[c]]
      ensures c.work == w && c.depth == |chain.rows| && c.index == k && !c.isDummy
      ensures view[c].parent == x && view[c].children == []
      ensures view[c].root == cell && view[c].state == Unused && view[c].CacheOk(w)
    {
      ghost var v := view;
      var isLazy: bool := *;
      c := new Node(w, false, isLazy || !w.worthy, |chain.rows|, k);
      c.Attach(x, cell);
      view := v[x := v[x].(children := v[x].children + [c])][c := c.Seen()];
    }

    /** One child is created below the running node x. */
    method CreateChild(x: Node, w: Work, ghost k: nat) returns (c: Node)
      requires Valid(null) && chain.lo < |chain.rows| && x == chain.Path(|chain.rows| - 1) && k == |Last(chain).kids|
      modifies this`chain, this`view, view.Keys
      ensures Valid(null) && fresh(view.Keys - old(view.Keys)) && old(view.Keys) <= view.Keys
      ensures c.work == w && c.depth == |chain.rows| && chain == KidAdded(old(chain), c)
    {
      hide Chain.Good, Synced;
      ghost var ch, v := chain, view;
      LastNode(ch, v, cell, cell.node);
      c := NewNode(x, w, k);
      chain := KidAdded(ch, c);
      KidAddedGood(ch, v, view, cell, cell.node, c);
    }

    /** The children of x, all before the first is submitted. */
    method CreateChildren(x: Node, w: Work) returns (cs: seq<Node>)
      requires Valid(null) && chain.lo < |chain.rows|
      requires x == chain.Path(|chain.rows| - 1) && Last(chain) == Row([], 0, 0)
      modifies this`chain, this`view, view.Keys
      ensures Valid(null) && fresh(view.Keys - old(view.Keys)) && old(view.Keys) <= view.Keys
      ensures chain == WithKids(old(chain), cs) && Created(cs, w.kids)
    {
      hide Chain.Good, Synced;
      ghost var c := chain;
      cs := [];
      var i := 0;
      while i < |w.kids|
        invariant i <= |w.kids| && Valid(null) && fresh(view.Keys - old(view.Keys)) && old(view.Keys) <= view.Keys
        invariant chain == WithKids(c, cs) && Created(cs, w.kids[..i]) && x == chain.Path(|chain.rows| - 1)
      {
        var k := CreateChild(x, w.kids[i], i);
        cs := cs + [k];
        i := i + 1;
        assert chain == WithKids(c, cs);
        WithKidsPath(c, cs);
      }
      assert w.kids[..i] == w.kids;
    }

    /** The node is about to be run: it becomes the last of the chain. */
    method Start(p: Node)
      requires Valid(null) && Honest() && Submittable(chain, p) && p.work.worthy
      modifies this`chain, this`view, this`executed, view.Keys
      ensures Valid(null) && Honest() && view.Keys == old(view.Keys) && chain == Entered(old(chain))
      ensures Balance() + ExpectedAll(p.work.kids) == old(Balance())
      ensures chain.lo < |chain.rows| && p == chain.Path(|chain.rows| - 1) && Last(chain) == Row([], 0, 0)
      ensures Now() == P.Entered(old(Now()))
    {
      hide Chain.Good, Entered, Total, TraceOf, Synced, Told;
      ghost var c := chain;
      EnteredFacts(c, p, executed, delegated);
      EnteredTrace(c, order);
      Prepare(p);
      EnteredGood(c, view, cell, cell.node);
      chain := Entered(c);
      executed := executed + multiset{p.work.id};
    }

    /** run: the state changes only when the body has returned. */
    method Run(p: Node, plan: P.Plan)
      requires Valid(null) && Honest() && Submittable(chain, p) && p.work.worthy
      modifies this`chain, this`view, this`executed, this`delegated, this`order, cell, view.Keys
      ensures Forwardable(p, WasRun) && Honest() && Balance() == old(Balance())
      ensures fresh(view.Keys - old(view.Keys)) && old(view.Keys) <= view.Keys && Evolved(Entered(old(chain)), chain)
      ensures Now() == P.Body(P.Entered(old(Now())), p.work, plan)
      ensures Within(old(delegated), delegated, false, false, plan)
      decreases p.work, 3
    {
      hide Within, Chain.Good, Entered, Total, TraceOf, ExpectedAll, Evolved, Told, Submittable, Synced,
        P.Body, P.Entered;
      Start(p);
      ghost var c := chain;
      RunBody(p, p.work, plan);
      EvolvedPath(c, chain);
      Finish(p);
    }

    /** The body has returned. */
    method Finish(p: Node)
      requires Valid(null) && Done(chain) && p == chain.Path(|chain.rows| - 1)
      modifies view.Keys
      ensures Forwardable(p, WasRun)
    {
      hide Chain.Good, Done;
      LastNode(chain, view, cell, cell.node);
      p.state := Forwarded;
    }

    /** The decision of forward, before the node is pruned. */
    method Decide(p: Node, plan: P.Plan) returns (ghost fate: Fate)
      requires Valid(null) && Honest() && Last(chain).at < |Last(chain).kids| && p == Last(chain).kids[Last(chain).at]
      modifies this`chain, this`view, this`executed, this`delegated, this`order, cell, view.Keys
      ensures Forwardable(p, fate) && Honest() && Balance() == old(Balance())
      ensures fresh(view.Keys - old(view.Keys)) && old(view.Keys) <= view.Keys
      ensures Settles(old(chain), chain, fate)
      ensures TraceOf(Finished(chain, fate), order) == P.Forwarded(old(Now()), p.work, plan)
      ensures Within(old(delegated), delegated, false, false, plan)
      decreases p.work, 4
    {
      hide Within, Chain.Good, Entered, Finished, Total, Settles, TraceOf, Resolved,
        Told, P.Forwarded, P.Body, P.Entered, Evolved;
      ghost var c, o := chain, order;
      NextFacts(c, view, cell, cell.node, p);
      WithinNot(delegated, plan);
      if p.state != Unused {
        fate := WasSkipped;
        SkippedFacts(c);
        SkippedForwarded(c, o, p.work, plan);
        return;
      }
      var b := Ask(p);
      if b {
        Run(p, plan);
        fate := WasRun;
        RanFacts(c, chain, p);
        RanForwarded(c, o, p.work, plan, chain, order);
      } else {
        fate := WasDeclined;
        DeclinedFacts(c, p);
        DeclinedForwarded(c, o, p, plan);
      }
    }

    method Forward(p: Node, plan: P.Plan)
      requires Valid(null) && Honest() && Last(chain).at < |Last(chain).kids| && p == Last(chain).kids[Last(chain).at]
      modifies this`chain, this`view, this`executed, this`delegated, this`order, cell, view.Keys
      ensures Valid(null) && Honest() && Balance() == old(Balance())
      ensures fresh(view.Keys - old(view.Keys)) && old(view.Keys) <= view.Keys && HandledOne(old(chain), chain)
      ensures Now() == P.Forwarded(old(Now()), p.work, plan)
      ensures Within(old(delegated), delegated, false, false, plan)
      decreases p.work, 5
    {
      hide Within, Chain.Good, Finished, Load, HandledOne, Synced, TraceOf, Resolved, Told, P.Forwarded;
      ghost var fate := Decide(p, plan);
      PruneAndCorrect(p, fate);
    }

    method TryLocalSubmit(p: Node, grants: nat, plan: P.Plan) returns (sent: bool)
      requires Valid(null) && Honest() && Submittable(chain, p)
      modifies this`chain, this`view, this`executed, this`delegated, this`order, cell, view.Keys
      ensures Valid(null) && Honest() && Balance() == old(Balance())
      ensures fresh(view.Keys - old(view.Keys)) && old(view.Keys) <= view.Keys && HandledOne(old(chain), chain)
      ensures var (t, s) := P.Sent(old(Now()), p.work.worthy, grants);
        sent == s && Now() == if s then t else P.Forwarded(t, p.work, plan)
      ensures sent ==> AllTo(old(delegated), delegated, false)
      ensures Within(old(delegated), delegated, grants > 0, false, plan)
      decreases p.work, 6
    {
      hide Within, Chain.Good, Total, TraceOf, Evolved, Told, P.Sent, Synced, P.Forwarded;
      ghost var c, ds := chain, delegated;
      sent := Send(p, false, grants);
      ghost var mid := delegated;
      WithinSent(ds, mid, grants, false, plan);
      if !sent {
        ghost var b := chain;
        Forward(p, plan);
        HandledLater(c, b, chain);
        WithinMore(mid, delegated, grants > 0, false, plan);
        WithinTwice(ds, mid, delegated, grants > 0, false, plan);
      }
    }

    method TryRemoteSubmit(p: Node, grants: nat, more: nat, plan: P.Plan) returns (sent: bool)
      requires Valid(null) && Honest() && Submittable(chain, p)
      modifies this`chain, this`view, this`executed, this`delegated, this`order, cell, view.Keys
      ensures Valid(null) && Honest() && Balance() == old(Balance())
      ensures fresh(view.Keys - old(view.Keys)) && old(view.Keys) <= view.Keys && HandledOne(old(chain), chain)
      ensures var (t, s) := P.Sent(old(Now()), p.work.worthy, grants);
              var (t', s') := P.Sent(t, p.work.worthy, more);
              sent == s && Now() == if s then t else if s' then t' else P.Forwarded(t', p.work, plan)
      ensures sent ==> AllTo(old(delegated), delegated, true)
      ensures Within(old(delegated), delegated, more > 0, grants > 0, plan)
      decreases p.work, 7
    {
      hide Within, Chain.Good, Total, TraceOf, Evolved, Told, P.Sent, Synced, P.Forwarded;
      ghost var c, ds := chain, delegated;
      sent := Send(p, true, grants);
      ghost var mid := delegated;
      WithinSent(ds, mid, grants, true, plan);
      WithinMore(ds, mid, more > 0, grants > 0, plan);
      if !sent {
        ghost var b := chain;
        var _ := TryLocalSubmit(p, more, plan);
        HandledLater(c, b, chain);
        WithinMore(mid, delegated, more > 0, grants > 0, plan);
        WithinTwice(ds, mid, delegated, more > 0, grants > 0, plan);
      }
    }

    /** The first child is submitted, locally or remotely. */
    method SubmitFirst(c: Node, plan: P.Plan)
      requires Valid(null) && Honest() && Submittable(chain, c)
      modifies this`chain, this`view, this`executed, this`delegated, this`order, cell, view.Keys
      ensures Valid(null) && Honest() && Balance() == old(Balance())
      ensures fresh(view.Keys - old(view.Keys)) && old(view.Keys) <= view.Keys && HandledOne(old(chain), chain)
      ensures Now() == P.Submitted(old(Now()), c.work, plan)
      ensures Within(old(delegated), delegated, false, false, plan)
      decreases c.work, 8
    {
      hide Within, Chain.Good, Total, TraceOf, P.Sent, P.Forwarded, HandledOne, Synced;
      if plan.remote {
        var _ := TryRemoteSubmit(c, plan.grants, plan.more, P.KidPlan(plan, 0));
      } else {
        var _ := TryLocalSubmit(c, plan.grants, P.KidPlan(plan, 0));
      }
      WithinSubmitted(old(delegated), delegated, plan);
    }

    /** All children but the first are forwarded in order. */
    method ForwardRest(cs: seq<Node>, w: Work, plan: P.Plan)
      requires Valid(null) && Honest() && Last(chain).kids == cs && Last(chain).at == 1 <= |cs| && Created(cs, w.kids)
      modifies this`chain, this`view, this`executed, this`delegated, this`order, cell, view.Keys
      ensures Valid(null) && Honest() && Balance() == old(Balance())
      ensures fresh(view.Keys - old(view.Keys)) && old(view.Keys) <= view.Keys && Evolved(old(chain), chain)
      ensures Last(chain).kids == cs && Last(chain).at == |cs|
      ensures Now() == P.Rest(old(Now()), w, 1, plan)
      ensures Within(old(delegated), delegated, false, false, plan)
      decreases w, 0
    {
      hide Within, Chain.Good, Total, Evolved, TraceOf, HandledOne, Told, Synced, P.Forwarded, P.KidPlan;
      ghost var c := chain;
      EvolvedNot(c);
      WithinNot(delegated, plan);
      var i := 1;
      while i < |cs|
        invariant 1 <= i <= |cs| && Valid(null) && Honest() && Balance() == old(Balance())
        invariant fresh(view.Keys - old(view.Keys)) && old(view.Keys) <= view.Keys
        invariant Evolved(c, chain) && Last(chain).kids == cs && Last(chain).at == i
        invariant P.Rest(Now(), w, i, plan) == P.Rest(old(Now()), w, 1, plan)
        invariant Within(old(delegated), delegated, false, false, plan)
      {
        ghost var b, ds := chain, delegated;
        Forward(cs[i], P.KidPlan(plan, i));
        WithinKid(ds, delegated, plan, i);
        WithinTwice(old(delegated), ds, delegated, false, false, plan);
        EvolvedOne(c, b, chain);
        i := i + 1;
      }
    }

    /** The first child is submitted, the rest are forwarded in order. */
    method HandleChildren(cs: seq<Node>, w: Work, plan: P.Plan)
      requires Valid(null) && Honest() && Last(chain) == Row(cs, 0, 0) && Created(cs, w.kids) && cs != []
      modifies this`chain, this`view, this`executed, this`delegated, this`order, cell, view.Keys
      ensures Valid(null) && Honest() && Balance() == old(Balance())
      ensures fresh(view.Keys - old(view.Keys)) && old(view.Keys) <= view.Keys && Evolved(old(chain), chain)
      ensures Last(chain).kids == cs && Last(chain).at == |cs|
      ensures Now() == P.Rest(P.Submitted(old(Now()), w.kids[0], plan), w, 1, plan)
      ensures Within(old(delegated), delegated, false, false, plan)
      decreases w, 1
    {
      hide Within, Chain.Good, Total, Evolved, TraceOf, HandledOne, Told, Synced, P.Submitted, P.Rest;
      ghost var c := chain;
      SubmitFirst(cs[0], plan);
      EvolvedOne(c, c, chain);
      ghost var b, ds := chain, delegated;
      ForwardRest(cs, w, plan);
      EvolvedTwice(c, b, chain);
      WithinTwice(old(delegated), ds, delegated, false, false, plan);
    }

    /** A body that creates its children, submits the first and forwards the rest in order. */
    method RunBody(x: Node, w: Work, plan: P.Plan)
      requires Valid(null) && Honest() && chain.lo < |chain.rows| && x == chain.Path(|chain.rows| - 1)
      requires Last(chain) == Row([], 0, 0)
      modifies this`chain, this`view, this`executed, this`delegated, this`order, cell, view.Keys
      ensures Valid(null) && Honest() && Balance() == old(Balance()) + ExpectedAll(w.kids)
      ensures fresh(view.Keys - old(view.Keys)) && old(view.Keys) <= view.Keys && Evolved(old(chain), chain)
      ensures Last(chain).at == Last(chain).from == |Last(chain).kids|
      ensures Now() == P.Body(old(Now()), w, plan)
      ensures Within(old(delegated), delegated, false, false, plan)
      decreases w, 2
    {
      hide Within, Chain.Good, Total, Evolved, TraceOf, P.Submitted, Synced, P.Rest;
      ghost var c := chain;
      var cs := CreateChildren(x, w);
      WithKidsFacts(c, cs, w, executed, delegated);
      WithKidsTrace(c, cs, w, order);
      WithinNot(delegated, plan);
      if cs == [] {
        return;
      }
      ghost var b := chain;
      HandleChildren(cs, w, plan);
      EvolvedTwice(c, b, chain);
      assert chain.RowOk(Last(chain), |chain.rows| - 1);
    }
  }

  lemma WithinNot(ds: seq<Delegation>, plan: P.Plan)
    ensures Within(ds, ds, false, false, plan)
  {
  }

  lemma WithinTwice(a: seq<Delegation>, b: seq<Delegation>, c: seq<Delegation>, locally: bool, remotely: bool,
                    plan: P.Plan)
    requires Within(a, b, locally, remotely, plan) && Within(b, c, locally, remotely, plan)
    ensures Within(a, c, locally, remotely, plan)
  {
    hide P.Sends;
  }

  /** More may be granted. */
  lemma WithinMore(ds: seq<Delegation>, ds': seq<Delegation>, locally: bool, remotely: bool, plan: P.Plan)
    requires Within(ds, ds', false, false, plan) || Within(ds, ds', locally, false, plan)
             || Within(ds, ds', false, remotely, plan)
    ensures Within(ds, ds', locally, remotely, plan)
  {
    hide P.Sends;
  }

  lemma WithinSent(ds: seq<Delegation>, ds': seq<Delegation>, grants: nat, remotely: bool, plan: P.Plan)
    requires AllTo(ds, ds', remotely) && (grants == 0 ==> ds' == ds)
    ensures Within(ds, ds', !remotely && grants > 0, remotely && grants > 0, plan)
  {
    hide P.Sends;
  }

  /** What the plan of a child grants, its parent's plan grants. */
  lemma WithinKid(ds: seq<Delegation>, ds': seq<Delegation>, plan: P.Plan, i: nat)
    requires Within(ds, ds', false, false, P.KidPlan(plan, i))
    ensures Within(ds, ds', false, false, plan)
  {
    forall r: bool | P.Sends(P.KidPlan(plan, i), r) ensures P.Sends(plan, r) {
      KidSends(plan, i, r);
    }
    hide P.Sends;
  }

  lemma KidSends(plan: P.Plan, i: nat, remotely: bool)
    requires P.Sends(P.KidPlan(plan, i), remotely)
    ensures P.Sends(plan, remotely)
  {
  }

  /** The submit of a body's first child is one its plan describes. */
  lemma WithinSubmitted(ds: seq<Delegation>, ds': seq<Delegation>, plan: P.Plan)
    requires if plan.remote then Within(ds, ds', plan.more > 0, plan.grants > 0, P.KidPlan(plan, 0))
             else Within(ds, ds', plan.grants > 0, false, P.KidPlan(plan, 0))
    ensures Within(ds, ds', false, false, plan)
  {
    forall r: bool | P.Sends(P.KidPlan(plan, 0), r) ensures P.Sends(plan, r) {
      KidSends(plan, 0, r);
    }
  }

  lemma EvolvedNot(c: Chain)
    ensures Evolved(c, c)
  {
  }

  lemma EvolvedTwice(a: Chain, b: Chain, c: Chain)
    requires Evolved(a, b) && Evolved(b, c)
    ensures Evolved(a, c)
  {
  }

  lemma EvolvedOne(a: Chain, b: Chain, c: Chain)
    requires |b.rows| > 0 && HandledOne(b, c) && (a == b || Evolved(a, b))
    ensures Evolved(a, c) && Last(c).kids == Last(b).kids && Last(c).at == Last(b).at + 1
  {
  }

  ghost predicate Created(cs: seq<Node>, ws: seq<Work>) {
    |cs| == |ws| && forall k | 0 <= k < |cs| :: cs[k].work == ws[k]
  }

  ghost function WithKids(c: Chain, cs: seq<Node>): Chain
    requires |c.rows| > 0
  {
    c.(rows := c.rows[|c.rows| - 1 := Row(cs, 0, 0)])
  }

  lemma WithKidsPath(c: Chain, cs: seq<Node>)
    requires c.Shape() && WithKids(c, cs).Shape()
    ensures forall j: nat | j < |c.rows| :: WithKids(c, cs).Path(j) == c.Path(j)
  {
  }

  /** What a created generation adds, and that it keeps the order when it is not an only child. */
  lemma WithKidsLoad(c: Chain, cs: seq<Node>, w: Work)
    requires |c.rows| > 0 && Last(c) == Row([], 0, 0) && Created(cs, w.kids)
    ensures Load(WithKids(c, cs).rows) == Load(c.rows) + ExpectedAll(w.kids)
  {
    hide Load;
    ExpectedOfKids(cs, w.kids);
    assert cs[0..] == cs;
    LoadMore(c.rows, |c.rows| - 1, Row(cs, 0, 0), ExpectedAll(w.kids));
  }

  lemma WithKidsFacts(c: Chain, cs: seq<Node>, w: Work, ex: multiset<nat>, ds: seq<Delegation>)
    requires c.Shape() && c.lo < |c.rows| && Last(c) == Row([], 0, 0) && Created(cs, w.kids) && WithKids(c, cs).Shape()
    ensures Total(ex, ds, WithKids(c, cs).rows) == Total(ex, ds, c.rows) + ExpectedAll(w.kids)
    ensures Evolved(c, WithKids(c, cs)) && Last(WithKids(c, cs)) == Row(cs, 0, 0)
    ensures cs != [] ==> Submittable(WithKids(c, cs), cs[0])
  {
    hide Load, ExpectedFrom;
    WithKidsLoad(c, cs, w);
  }

  /** Starting to run a node turns what it stands for into its own execution and its children to come. */
  lemma EnteredLoad(c: Chain, p: Node)
    requires Submittable(c, p)
    ensures Load(c.rows) == Load(Entered(c).rows) + Expected(p.work)
  {
    hide Load, Expected;
    var d := |c.rows| - 1;
    var r' := c.rows[d].(from := c.rows[d].from + 1);
    assert c.rows[d].kids[c.rows[d].from..][1..] == r'.kids[r'.from..];
    LoadLess(c.rows, d, r', Expected(p.work));
    LoadAppended(c.rows[d := r'], Row([], 0, 0));
  }

  lemma EnteredFacts(c: Chain, p: Node, ex: multiset<nat>, ds: seq<Delegation>)
    requires Submittable(c, p) && p.work.worthy
    ensures Entered(c).Shape() && Last(Entered(c)) == Row([], 0, 0) && |Entered(c).rows| == |c.rows| + 1
    ensures Entered(c).Path(|c.rows|) == p && Entered(c).lo < |Entered(c).rows|
    ensures Total(ex + multiset{p.work.id}, ds, Entered(c).rows) + ExpectedAll(p.work.kids) == Total(ex, ds, c.rows)
  {
    hide Load, ExpectedFrom;
    EnteredShape(c);
    EnteredLoad(c, p);
  }

  /** The chain levels keep their nodes. */
  lemma EvolvedPath(c: Chain, c': Chain)
    requires c.Shape() && c'.Shape() && Evolved(c, c')
    ensures forall j: nat | j < |c.rows| :: c'.Path(j) == c.Path(j)
  {
  }

  /** The next child of the last level was taken away before if and only if its state says so. */
  lemma NextFacts(c: Chain, v: map<Node, View>, cell: RootCell, root: Node?, p: Node)
    requires c.Good(v, cell, root, null)
    requires Last(c).at < |Last(c).kids| && p == Last(c).kids[Last(c).at]
    ensures p in v && (v[p].state == Unused <==> Last(c).at == Last(c).from)
    ensures Last(c).at == Last(c).from ==> Submittable(c, p)
  {
    var d := |c.rows| - 1;
    assert c.RowOk(c.rows[d], d);
    if Last(c).at == Last(c).from {
      assert c.WaitingOk(v, cell, d, c.rows[d].kids[c.rows[d].at]);
    } else {
      assert c.Unhandled(d) <= c.rows[d].at < c.rows[d].from && c.GoneOk(v, null, c.rows[d].kids[c.rows[d].at]);
    }
  }

  /** One more child of the last level is dealt with. */
  ghost predicate HandledOne(c: Chain, c': Chain)
    requires |c.rows| > 0
  {
    && Evolved(c, c') && Last(c').kids == Last(c).kids && Last(c').at == Last(c).at + 1 && Last(c).from <= Last(c').from
  }

  lemma HandledLater(a: Chain, b: Chain, c: Chain)
    requires |a.rows| > 0 && Evolved(a, b) && Last(b) == Last(a) && HandledOne(b, c)
    ensures HandledOne(a, c)
  {
  }

  lemma LowestFacts(c: Chain, v: map<Node, View>, cell: RootCell, root: Node?, limbo: Node?)
    requires c.Good(v, cell, root, limbo) && c.lo < |c.rows| && |c.Hanging(c.lo)| == 1
    ensures root != null && root == c.Path(c.lo) && root in v && c.Hanging(c.lo)[0] in v && c.Hanging(c.lo)[0] != root
    ensures v[root].children == c.Hanging(c.lo) && v[root].parent == null
    ensures c.lo == |c.rows| - 1 ==> c.rows[c.lo].from < |c.rows[c.lo].kids|
  {
    LowestChild(c, v, cell);
  }

  /** The pruned node is still unused. */
  lemma LimboFacts(c: Chain, v: map<Node, View>, cell: RootCell, root: Node?, limbo: Node)
    requires c.Good(v, cell, root, limbo)
    ensures limbo in v && v[limbo].state == Unused && v[limbo].CacheOk(limbo.work) && v[limbo].parent == null
    ensures 1 <= limbo.depth
  {
  }

  lemma LastNode(c: Chain, v: map<Node, View>, cell: RootCell, root: Node?)
    requires c.Good(v, cell, root, null)
    ensures c.Path(|c.rows| - 1) in v
  {
    assert c.ChainOk(v, cell, |c.rows| - 1);
  }

  /** What forward found or did with a node. */
  datatype Fate = WasSkipped | WasDeclined | WasRun

  ghost predicate ForwardOk(c: Chain, v: map<Node, View>, cell: RootCell, root: Node?, p: Node, fate: Fate) {
    && c.Good(v, cell, root, null) && p in v
    && match fate
       case WasSkipped => Last(c).at < Last(c).from && p == Last(c).kids[Last(c).at]
       case WasDeclined => Submittable(c, p)
       case WasRun => Done(c) && p == c.Path(|c.rows| - 1)
  }

  /** run sets the state of its node when the body has returned. */
  ghost function Marked(v: map<Node, View>, p: Node, fate: Fate): map<Node, View>
    requires p in v
  {
    if fate == WasRun then v[p := v[p].(state := Forwarded)] else v
  }

  /** The chain once the forwarded node is pruned. */
  ghost function Resolved(c: Chain, fate: Fate): Chain
    requires |c.rows| > 0 && (fate == WasRun ==> |c.rows| >= 2)
  {
    match fate
    case WasSkipped => Skipped(c)
    case WasDeclined => Taken(c, |c.rows| - 1)
    case WasRun => Returned(c)
  }

  /** The chain after forward: the root is passed down from where the node hung. */
  ghost function Finished(c: Chain, fate: Fate): Chain
    requires |c.rows| > 0 && (fate == WasRun ==> |c.rows| >= 2) && Resolved(c, fate).Shape()
  {
    var r := Resolved(c, fate);
    if fate == WasSkipped || c.lo >= |r.rows| then r else Lowest(r)
  }

  /** The chain after try_correct_root on its last node. */
  ghost function Lowest(r: Chain): Chain
    requires r.Shape()
  {
    r.(lo := Corrected(r, Limit(r, r.Path(|r.rows| - 1))))
  }

  lemma SkippedForward(c: Chain, v: map<Node, View>, cell: RootCell, root: Node?, p: Node)
    requires ForwardOk(c, v, cell, root, p, WasSkipped)
    ensures v[p].parent == null
    ensures Skipped(c).Good(PrunedView(v, p), cell, root, null)
  {
    SkippedGood(c, v, cell, root);
  }

  lemma DeclinedForward(c: Chain, v: map<Node, View>, cell: RootCell, root: Node?, p: Node)
    requires ForwardOk(c, v, cell, root, p, WasDeclined)
    ensures v[p].parent != p && (v[p].parent != null ==> v[p].parent in v)
    ensures v[p].parent == if c.lo < |c.rows| then c.Path(|c.rows| - 1) else null
    ensures Taken(c, |c.rows| - 1).Good(PrunedView(v, p), cell, root, null)
  {
    var d := |c.rows| - 1;
    SubmitFacts(c, v, cell, root, p);
    AfterTakenRows(c, p);
    if c.lo < |c.rows| {
      TakenGood(c, v, cell, root, d);
      LimboCleared(Taken(c, d), PrunedView(v, p), cell, root, p);
    } else {
      TakenRootGood(c, v, cell, root);
      LimboChanged(Taken(c, d), v, PrunedView(v, p), cell, root, p, null);
    }
  }

  lemma RunForward(c: Chain, v: map<Node, View>, cell: RootCell, root: Node?, p: Node)
    requires ForwardOk(c, v, cell, root, p, WasRun)
    ensures v[p].parent != p && (v[p].parent != null ==> v[p].parent in v)
    ensures v[p].parent == if c.lo < |c.rows| - 1 then c.Path(|c.rows| - 2) else null
    ensures Returned(c).Good(PrunedView(Marked(v, p, WasRun), p), cell, root, null)
  {
    ReturnedGood(c, v, cell, root);
  }

  lemma ForwardedGood(c: Chain, v: map<Node, View>, cell: RootCell, root: Node?, p: Node, fate: Fate)
    requires ForwardOk(c, v, cell, root, p, fate)
    ensures v[p].parent != p && (v[p].parent != null ==> v[p].parent in v)
    ensures |c.rows| > 0 && (fate == WasRun ==> |c.rows| >= 2)
    ensures Resolved(c, fate).Shape() && Resolved(c, fate).Good(PrunedView(Marked(v, p, fate), p), cell, root, null)
    ensures var r := Resolved(c, fate);
            && (v[p].parent == null <==> fate == WasSkipped || c.lo >= |r.rows|)
            && (v[p].parent != null ==> v[p].parent == r.Path(|r.rows| - 1))
  {
    hide Chain.ChainAll, Chain.WaitingAll, Chain.GoneAll, Chain.LimboOk, PrunedView, Chain.Hanging;
    match fate
    case WasSkipped => SkippedForward(c, v, cell, root, p);
    case WasDeclined =>
      DeclinedForward(c, v, cell, root, p);
      TakenShape(c, |c.rows| - 1);
    case WasRun =>
      RunForward(c, v, cell, root, p);
      ReturnedShape(c);
  }

  datatype Attempted = Blocked | PushedAbove | PushedNode

  /** How one attempt of send ends, and the trace after it. */
  ghost function Tried(t: P.Trace, granted: bool): Attempted {
    if !granted then Blocked else if P.HasAbove(t) then PushedAbove else PushedNode
  }

  ghost function AfterTry(t: P.Trace, worthy: bool, granted: bool): P.Trace
    requires t.levels != []
  {
    match Tried(t, granted)
    case Blocked => t
    case PushedAbove => P.PushedAbove(t)
    case PushedNode => P.TakenLast(t).(order := t.order.Noted(P.NoneAbove(t), worthy))
  }

  lemma TrySent(t: P.Trace, worthy: bool, left: nat)
    requires t.levels != []
    ensures match Tried(t, left > 0)
            case Blocked => P.Sent(t, worthy, left) == (AfterTry(t, worthy, left > 0), false)
            case PushedAbove =>
              left > 0 && P.Sent(t, worthy, left) == P.Sent(AfterTry(t, worthy, true), worthy, left - 1)
            case PushedNode => P.Sent(t, worthy, left) == (AfterTry(t, worthy, left > 0), true)
  {
  }

  /** What handing over a node adds to the history. */
  ghost function Handed(n: Node, shallowest: bool, remotely: bool): seq<Delegation> {
    if n.work.worthy then [Delegation(n.work, n.depth, shallowest, remotely)] else []
  }

  lemma ToldMore(ds: seq<Delegation>, order: P.Order, n: Node, shallowest: bool, remotely: bool)
    requires Told(ds, order)
    ensures Told(ds + Handed(n, shallowest, remotely), order.Noted(shallowest, n.work.worthy))
  {
  }

  /** From rows to rows' just n is no longer pending. */
  ghost predicate Lost(rows: seq<Row>, rows': seq<Row>, n: Node) {
    Load(rows) == Load(rows') + Expected(n.work)
  }

  /** Handing over a pending node moves what it stands for from the chain to the history. */
  lemma HandedTotal(ex: multiset<nat>, ds: seq<Delegation>, n: Node, shallowest: bool, remotely: bool, rows: seq<Row>,
                    rows': seq<Row>)
    requires Lost(rows, rows', n)
    ensures Total(ex, ds + Handed(n, shallowest, remotely), rows') == Total(ex, ds, rows)
  {
    if n.work.worthy {
      ExpectedFromMore(ds, Delegation(n.work, n.depth, shallowest, remotely));
    } else {
      assert ds + [] == ds;
    }
    BagMove(ex, ExpectedFrom(ds), Expected(n.work), Load(rows'));
  }

  /** The chain after a push from the root level. */
  ghost function AfterPush(c: Chain): Chain
    requires PushableAbove(c)
  {
    TakenShape(c, c.lo);
    var t := Taken(c, c.lo);
    t.(lo := Corrected(t, |c.rows|))
  }

  /** The chain after the submitted node itself was taken out. */
  ghost function AfterTaken(c: Chain): Chain
    requires |c.rows| > 0 && Takeable(c, |c.rows| - 1)
  {
    TakenShape(c, |c.rows| - 1);
    var t := Taken(c, |c.rows| - 1);
    if c.lo == |c.rows| then t else Lowest(t)
  }

  lemma PushFacts(c: Chain, p: Node)
    requires Submittable(c, p) && PushableAbove(c)
    ensures var t := Taken(c, c.lo);
            && t.Shape() && Submittable(t, p) && Limit(t, p) == |c.rows|
            && TakenNode(c, c.lo).depth == c.lo + 1
            && forall lo | c.lo <= lo <= |c.rows| :: NoneAbove(t.(lo := lo), c.lo)
  {
    TakenShape(c, c.lo);
    assert c.RowOk(c.rows[|c.rows| - 1], |c.rows| - 1) && c.RowOk(c.rows[c.lo], c.lo);
    forall j | 0 <= j < c.lo ensures c.rows[j].from == |c.rows[j].kids| {
      assert c.RowOk(c.rows[j], j);
    }
  }

  lemma {:induction false} CorrectedShape(c: Chain, limit: nat)
    requires c.Shape() && limit <= |c.rows|
    ensures c.(lo := Corrected(c, limit)).Shape()
    decreases limit - c.lo
  {
    if c.lo < limit && |c.Hanging(c.lo)| == 1 {
      LoweredShape(c);
      CorrectedShape(c.(lo := c.lo + 1), limit);
    }
  }

  lemma AfterPushRows(c: Chain, p: Node)
    requires Submittable(c, p) && PushableAbove(c)
    ensures AfterPush(c).rows == Taken(c, c.lo).rows && Last(AfterPush(c)) == Last(c)
    ensures Evolved(c, AfterPush(c)) && Submittable(AfterPush(c), p)
  {
    assert c.RowOk(c.rows[|c.rows| - 1], |c.rows| - 1);
    TakenShape(c, c.lo);
    CorrectedShape(Taken(c, c.lo), |c.rows|);
  }

  lemma AfterPushIs(c: Chain)
    requires PushableAbove(c)
    ensures Taken(c, c.lo).Shape()
    ensures AfterPush(c) == Taken(c, c.lo).(lo := Corrected(Taken(c, c.lo), |c.rows|))
  {
    TakenShape(c, c.lo);
  }

  lemma AfterPushLoad(c: Chain)
    requires PushableAbove(c)
    ensures Lost(c.rows, AfterPush(c).rows, TakenNode(c, c.lo))
  {
    TakenLoad(c, c.lo);
  }

  /** p is the next child of the last chain node, neither handled nor taken away. */
  ghost predicate Submittable(c: Chain, p: Node) {
    |c.rows| > 0 && Takeable(c, |c.rows| - 1) && p == TakenNode(c, |c.rows| - 1)
  }

  /** The thread root has no second child above the node being submitted. */
  ghost predicate NothingAbove(c: Chain)
    requires c.Shape()
  {
    c.lo < |c.rows| - 1 ==> c.rows[c.lo].from == |c.rows[c.lo].kids|
  }

  ghost predicate PushableAbove(c: Chain) {
    c.lo < |c.rows| - 1 && Takeable(c, c.lo)
  }

  /** What a node that is being submitted looks like. */
  lemma SubmitFacts(c: Chain, v: map<Node, View>, cell: RootCell, root: Node?, p: Node)
    requires c.Good(v, cell, root, null) && Submittable(c, p)
    ensures p in v && v[p].root == cell && v[p].state == Unused && v[p].CacheOk(p.work) && v[p].children == []
    ensures v[p].parent == if c.lo < |c.rows| then c.Path(|c.rows| - 1) else null
    ensures c.lo < |c.rows|
      ==> root != null && RootIs(c, v, root) && (root == c.Path(|c.rows| - 1) <==> c.lo == |c.rows| - 1)
    ensures c.lo < |c.rows| - 1
      ==> |c.Hanging(c.lo)| >= 1 && (|c.Hanging(c.lo)| < 2 <==> c.rows[c.lo].from == |c.rows[c.lo].kids|)
    ensures c.lo < |c.rows| - 1 && |c.Hanging(c.lo)| >= 2
      ==> PushableAbove(c) && c.Hanging(c.lo)[1] == TakenNode(c, c.lo)
    ensures c.lo == |c.rows| ==> root == p
  {
    var d := |c.rows| - 1;
    assert c.WaitingOk(v, cell, d, p);
    if c.lo < |c.rows| {
      assert c.ChainOk(v, cell, c.lo) && c.RowOk(c.rows[c.lo], c.lo);
    } else {
      assert c.RowOk(c.rows[d], d);
    }
  }

  /** root is the chain's root level, or a childless node below the chain. */
  ghost predicate RootIs(c: Chain, v: map<Node, View>, root: Node)
    requires c.Shape()
  {
    root in v && if c.lo < |c.rows| then root == c.Path(c.lo) && v[root].children == c.Hanging(c.lo)
      else v[root].children == []
  }

  /** Where try_correct_root may be called: on the last chain node, or on the node that is being submitted below it. */
  ghost predicate Correctable(c: Chain, p: Node) {
    c.Shape() && (p == c.Path(|c.rows| - 1) || (Takeable(c, |c.rows| - 1) && p == TakenNode(c, |c.rows| - 1)))
  }

  ghost function Limit(c: Chain, p: Node): (limit: nat)
    requires Correctable(c, p)
    ensures limit <= |c.rows|
  {
    if p == c.Path(|c.rows| - 1) && c.lo < |c.rows| - 1 then |c.rows| - 1 else |c.rows|
  }

  lemma CorrectedUnfold(c: Chain, limit: nat)
    requires c.Shape() && limit <= |c.rows|
    ensures c.lo >= limit ==> Corrected(c, limit) == c.lo
    ensures c.lo < |c.rows| && |c.Hanging(c.lo)| != 1 ==> Corrected(c, limit) == c.lo
    ensures c.lo < limit && |c.Hanging(c.lo)| == 1 ==> Corrected(c, limit) == Corrected(c.(lo := c.lo + 1), limit)
    ensures c.lo == |c.rows| - 1 && |c.Hanging(c.lo)| == 1 ==> c.rows[c.lo].from < |c.rows[c.lo].kids|
    ensures c.lo < |c.rows| && |c.Hanging(c.lo)| == 1 ==>
      forall j: nat | j < |c.rows| ::
        c.(lo := c.lo + 1).Path(j) == c.Path(j) && c.(lo := c.lo + 1).Hanging(j) == c.Hanging(j)
  {
    if c.lo < |c.rows| && |c.Hanging(c.lo)| == 1 {
      LoweredShape(c);
    }
  }

  lemma CorrectableFacts(c: Chain, v: map<Node, View>, cell: RootCell, root: Node?, limbo: Node?, p: Node)
    requires c.Good(v, cell, root, limbo)
    requires Correctable(c, p)
    ensures p in v && (v[p].root == null || v[p].root == cell)
    ensures v[p].root == null ==> c.lo == |c.rows|
    ensures c.lo < |c.rows| ==> root != null && RootIs(c, v, root)
    ensures c.lo == |c.rows| && v[p].root != null ==> root == p && v[p].children == []
    ensures c.lo < |c.rows| && p == root && v[p].children != [] && p == c.Path(|c.rows| - 1) ==> c.lo == |c.rows| - 1
    ensures p == c.Path(|c.rows| - 1) && c.lo < |c.rows| && root == p ==> c.lo == |c.rows| - 1
  {
    assert c.ChainOk(v, cell, |c.rows| - 1);
    if c.lo < |c.rows| {
      assert c.ChainOk(v, cell, c.lo);
    }
    if p != c.Path(|c.rows| - 1) {
      assert c.WaitingOk(v, cell, |c.rows| - 1, p);
      assert c.RowOk(c.rows[|c.rows| - 1], |c.rows| - 1);
    }
  }

  /** The lowering ends at p when p is on the chain below the root. */
  ghost predicate IsLimit(c: Chain, p: Node, limit: nat) {
    && c.Shape() && limit <= |c.rows|
    && (limit < |c.rows| ==> p == c.Path(limit))
    && (limit == |c.rows| ==> p.depth == limit || c.lo == limit - 1)
  }

  lemma LimitReached(c: Chain, b: Chain, p: Node, limit: nat)
    requires IsLimit(c, p, limit) && b.Shape() && b == c.(lo := b.lo) && c.lo <= b.lo
    ensures limit <= |c.rows|
    ensures c.lo < b.lo < |c.rows| && b.Path(b.lo) == p ==> b.lo == limit
    ensures b.lo < |c.rows| && b.Path(b.lo) != p ==> b.lo != limit
  {
  }

  lemma CorrectedStop(c: Chain, limit: nat)
    requires c.Shape() && limit <= |c.rows| && (c.lo >= limit || |c.Hanging(c.lo)| != 1)
    ensures Corrected(c, limit) == c.lo
  {
  }

  lemma LimitIsLimit(c: Chain, p: Node)
    requires Correctable(c, p) && c.lo < |c.rows|
    ensures IsLimit(c, p, Limit(c, p)) && c.lo < Limit(c, p)
  {
    assert c.RowOk(c.rows[|c.rows| - 1], |c.rows| - 1);
  }

  lemma RootFacts(c: Chain, v: map<Node, View>, cell: RootCell, root: Node, limbo: Node?)
    requires c.Good(v, cell, root, limbo)
    requires c.lo == |c.rows| ==> c.rows[c.lo - 1].from < |c.rows[c.lo - 1].kids|
    ensures RootIs(c, v, root)
  {
    if c.lo < |c.rows| {
      assert c.ChainOk(v, cell, c.lo);
    } else {
      assert c.WaitingOk(v, cell, c.lo - 1, root);
    }
  }

  /** Exactly one node hangs at every level from the root's to lo, which is the limit or where another number hangs. */
  ghost predicate PassedDown(c: Chain, lo: nat, limit: nat)
    requires c.Shape() && limit <= |c.rows|
  {
    && c.lo <= lo <= limit && (lo < limit ==> |c.Hanging(lo)| != 1)
    && forall i: nat | c.lo <= i < lo :: |c.Hanging(i)| == 1
  }

  /** Why the lowering stops. */
  lemma {:induction false} CorrectedEnds(c: Chain, limit: nat)
    requires c.Shape() && c.lo <= limit <= |c.rows|
    ensures PassedDown(c, Corrected(c, limit), limit)
    decreases limit - c.lo
  {
    hide Chain.Hanging, Chain.RowOk;
    CorrectedUnfold(c, limit);
    if c.lo < limit && |c.Hanging(c.lo)| == 1 {
      LoweredShape(c);
      var c1 := c.(lo := c.lo + 1);
      CorrectedEnds(c1, limit);
      forall i: nat | c.lo <= i < Corrected(c, limit) ensures |c.Hanging(i)| == 1 {
        assert i > c.lo ==> |c1.Hanging(i)| == 1;
      }
    }
  }

  lemma AfterTakenRows(c: Chain, p: Node)
    requires Submittable(c, p)
    ensures AfterTaken(c).Shape() && AfterTaken(c).rows == Taken(c, |c.rows| - 1).rows
    ensures Last(AfterTaken(c)) == Advanced(Last(c)) && Evolved(c, AfterTaken(c))
    ensures p.depth == |c.rows| && p != c.Path(|c.rows| - 1)
    ensures Correctable(Taken(c, |c.rows| - 1), c.Path(|c.rows| - 1))
    ensures Taken(c, |c.rows| - 1).Path(|c.rows| - 1) == c.Path(|c.rows| - 1)
  {
    var d := |c.rows| - 1;
    TakenShape(c, d);
    assert c.RowOk(c.rows[d], d);
    if c.lo < |c.rows| {
      CorrectedShape(Taken(c, d), Limit(Taken(c, d), Taken(c, d).Path(d)));
    }
  }

  lemma AfterTakenIs(c: Chain)
    requires |c.rows| > 0 && Takeable(c, |c.rows| - 1)
    ensures var k, d := Taken(c, |c.rows| - 1), |c.rows| - 1;
            && k.Shape() && (c.lo == |c.rows| ==> AfterTaken(c) == k)
            && (c.lo < |c.rows| ==> AfterTaken(c) == k.(lo := Corrected(k, Limit(k, k.Path(d)))))
  {
    TakenShape(c, |c.rows| - 1);
  }

  lemma NoneAboveSame(c: Chain, p: Node)
    requires Submittable(c, p) && AfterTaken(c).rows == Taken(c, |c.rows| - 1).rows
    ensures NoneAbove(AfterTaken(c), |c.rows| - 1) == NoneAbove(c, |c.rows| - 1)
  {
    var c', d := AfterTaken(c), |c.rows| - 1;
    assert forall j | 0 <= j < d :: c'.rows[j] == c.rows[j];
  }

  lemma AfterTakenLoad(c: Chain)
    requires |c.rows| > 0 && Takeable(c, |c.rows| - 1)
    ensures Lost(c.rows, AfterTaken(c).rows, TakenNode(c, |c.rows| - 1))
  {
    TakenLoad(c, |c.rows| - 1);
    TakenShape(c, |c.rows| - 1);
  }

  lemma LowestShape(r: Chain)
    requires r.Shape()
    ensures Lowest(r).Shape()
  {
    CorrectedShape(r, Limit(r, r.Path(|r.rows| - 1)));
  }

  /** What forward keeps; m is the chain before the node is pruned. */
  ghost predicate Settles(c: Chain, m: Chain, fate: Fate) {
    && |c.rows| > 0 && |m.rows| > 0 && (fate == WasRun ==> |m.rows| >= 2) && Resolved(m, fate).Shape()
    && HandledOne(c, Finished(m, fate)) && Finished(m, fate).Shape()
    && Load(Finished(m, fate).rows) == Load(m.rows)
  }

  lemma SkippedFacts(c: Chain)
    requires c.Shape() && Last(c).at < Last(c).from
    ensures Settles(c, c, WasSkipped)
  {
    hide Load;
    SkippedShape(c);
    LoadLess(c.rows, |c.rows| - 1, Last(Skipped(c)), multiset{});
  }

  lemma DeclinedFacts(c: Chain, p: Node)
    requires Submittable(c, p) && !p.work.worthy
    ensures Settles(c, c, WasDeclined)
  {
    hide Load;
    AfterTakenRows(c, p);
    AfterTakenLoad(c);
    TakenShape(c, |c.rows| - 1);
  }

  lemma RanFacts(c: Chain, m: Chain, p: Node)
    requires Submittable(c, p) && m.Shape() && Evolved(Entered(c), m) && Done(m)
    ensures Settles(c, m, WasRun)
  {
    hide Load, HandledOne;
    ReturnedRows(m);
    LowestShape(Returned(m));
    RanRows(c, m, p);
    RanLoad(m);
  }

  lemma RanRows(c: Chain, m: Chain, p: Node)
    requires Submittable(c, p) && Evolved(Entered(c), m) && Done(m) && Returned(m).Shape()
    ensures HandledOne(c, Finished(m, WasRun))
  {
    var d := |m.rows| - 1;
    assert Entered(c).rows[d - 1] == c.rows[d - 1].(from := c.rows[d - 1].from + 1);
    assert forall i | 0 <= i < d - 1 :: Entered(c).rows[i] == c.rows[i];
  }

  lemma RanLoad(m: Chain)
    requires Done(m)
    ensures Load(Returned(m).rows) == Load(m.rows)
  {
    hide Load;
    var d := |m.rows| - 1;
    var front, r := m.rows[..d], m.rows[d - 1].(at := m.rows[d - 1].at + 1);
    LoadLess(front, d - 1, r, multiset{});
    LoadAppended(front, m.rows[d]);
    assert front + [m.rows[d]] == m.rows;
  }

  /* ---------- the chain as a trace ---------- */

  ghost function LevelOf(r: Row): P.Level {
    P.Level(seq(|r.kids|, k requires 0 <= k < |r.kids| => r.kids[k].work), r.at, r.from)
  }

  ghost function TraceOf(c: Chain, order: P.Order): (t: P.Trace)
    ensures |t.levels| == |c.rows| && t.lo == c.lo && t.order == order
    ensures forall i | 0 <= i < |c.rows| :: t.levels[i] == LevelOf(c.rows[i])
  {
    P.Trace(seq(|c.rows|, i requires 0 <= i < |c.rows| => LevelOf(c.rows[i])), c.lo, order)
  }

  lemma SameTrace(c: Chain, order: P.Order, t: P.Trace)
    requires |t.levels| == |c.rows| && t.lo == c.lo && t.order == order
    requires forall i | 0 <= i < |c.rows| :: t.levels[i] == LevelOf(c.rows[i])
    ensures TraceOf(c, order) == t
  {
    assert TraceOf(c, order).levels == t.levels;
  }

  lemma HangingCount(c: Chain, order: P.Order, i: nat)
    requires c.Shape() && i < |c.rows|
    ensures |c.Hanging(i)| == P.Attached(TraceOf(c, order).levels, i)
  {
    assert c.RowOk(c.rows[i], i);
  }

  lemma {:induction false} CorrectedSlides(c: Chain, order: P.Order, limit: nat)
    requires c.Shape() && limit <= |c.rows|
    ensures Corrected(c, limit) == P.Slid(TraceOf(c, order).levels, c.lo, limit)
    decreases limit - c.lo
  {
    hide TraceOf, Corrected, P.Attached;
    CorrectedUnfold(c, limit);
    if c.lo < limit {
      HangingCount(c, order, c.lo);
      if |c.Hanging(c.lo)| == 1 {
        LoweredShape(c);
        var c' := c.(lo := c.lo + 1);
        SameLevels(c, c', order);
        CorrectedSlides(c', order, limit);
      }
    }
  }

  lemma SameLevels(c: Chain, c': Chain, order: P.Order)
    requires c'.rows == c.rows
    ensures TraceOf(c', order).levels == TraceOf(c, order).levels
  {
  }

  lemma TraceAbove(c: Chain, order: P.Order)
    requires c.Shape()
    ensures P.HasAbove(TraceOf(c, order)) <==> PushableAbove(c)
    ensures P.HasAbove(TraceOf(c, order)) <==> !NothingAbove(c)
  {
    if c.lo < |c.rows| {
      assert c.RowOk(c.rows[c.lo], c.lo);
    }
  }

  lemma PushedTrace(c: Chain, order: P.Order)
    requires c.lo < |c.rows| - 1
    ensures var t := TraceOf(c, order);
            TraceOf(Taken(c, c.lo), order)
              == t.(levels := t.levels[c.lo := t.levels[c.lo].(from := t.levels[c.lo].from + 1)])
  {
    var t := TraceOf(c, order);
    SameTrace(Taken(c, c.lo), order,
      t.(levels := t.levels[c.lo := t.levels[c.lo].(from := t.levels[c.lo].from + 1)]));
  }

  lemma MovedRoot(c: Chain, order: P.Order, lo: nat)
    ensures TraceOf(c.(lo := lo), order) == TraceOf(c, order).(lo := lo)
  {
  }

  lemma AfterPushTrace(c: Chain, order: P.Order)
    requires PushableAbove(c) && P.HasAbove(TraceOf(c, order))
    ensures TraceOf(AfterPush(c), order) == P.PushedAbove(TraceOf(c, order))
  {
    hide TraceOf, LevelOf, Corrected;
    TakenShape(c, c.lo);
    var k := Taken(c, c.lo);
    PushedTrace(c, order);
    CorrectedSlides(k, order, |c.rows|);
    MovedRoot(k, order, Corrected(k, |c.rows|));
  }

  lemma LowestTrace(r: Chain, order: P.Order)
    requires r.Shape()
    ensures TraceOf(Lowest(r), order) == P.Settled(TraceOf(r, order))
  {
    CorrectedSlides(r, order, Limit(r, r.Path(|r.rows| - 1)));
    SameTrace(Lowest(r), order, P.Settled(TraceOf(r, order)));
  }

  lemma ShrunkTrace(c: Chain, order: P.Order)
    requires |c.rows| > 0
    ensures var t := TraceOf(c, order); TraceOf(Taken(c, |c.rows| - 1), order) == t.(levels := P.Shrunk(t.levels))
  {
    var t := TraceOf(c, order);
    SameTrace(Taken(c, |c.rows| - 1), order, t.(levels := P.Shrunk(t.levels)));
  }

  lemma TakenTrace(c: Chain, order: P.Order)
    requires |c.rows| > 0 && Takeable(c, |c.rows| - 1)
    ensures TraceOf(AfterTaken(c), order) == P.TakenLast(TraceOf(c, order))
  {
    hide TraceOf, LevelOf, Lowest, P.Shrunk;
    var d := |c.rows| - 1;
    TakenShape(c, d);
    ShrunkTrace(c, order);
    if c.lo < |c.rows| {
      LowestTrace(Taken(c, d), order);
    }
  }

  lemma AfterTakenTrace(c: Chain, order: P.Order, worthy: bool)
    requires |c.rows| > 0 && Takeable(c, |c.rows| - 1)
    ensures var t := TraceOf(c, order);
            TraceOf(AfterTaken(c), order.Noted(NoneAbove(c, |c.rows| - 1), worthy))
              == P.TakenLast(t).(order := t.order.Noted(P.NoneAbove(t), worthy))
  {
    TakenTrace(c, order);
    var t, after := TraceOf(c, order), order.Noted(NoneAbove(c, |c.rows| - 1), worthy);
    forall j | 0 <= j < |c.rows| - 1 ensures P.Waiting(t.levels[j]) == 0 <==> c.rows[j].from >= |c.rows[j].kids| {
      assert c.RowOk(c.rows[j], j);
    }
    SameTrace(AfterTaken(c), after, P.TakenLast(t).(order := after));
  }

  lemma EnteredTrace(c: Chain, order: P.Order)
    requires |c.rows| > 0
    ensures TraceOf(Entered(c), order) == P.Entered(TraceOf(c, order))
  {
    assert LevelOf(Row([], 0, 0)) == P.Level([], 0, 0);
    SameTrace(Entered(c), order, P.Entered(TraceOf(c, order)));
  }

  lemma WithKidsTrace(c: Chain, cs: seq<Node>, w: Work, order: P.Order)
    requires |c.rows| > 0 && Last(c) == Row([], 0, 0) && Created(cs, w.kids)
    ensures TraceOf(WithKids(c, cs), order) == P.Filled(TraceOf(c, order), w.kids)
  {
    assert LevelOf(Row(cs, 0, 0)).works == w.kids;
    SameTrace(WithKids(c, cs), order, P.Filled(TraceOf(c, order), w.kids));
  }

  lemma LastTrace(c: Chain, order: P.Order)
    requires |c.rows| > 0
    ensures P.Last(TraceOf(c, order)) == LevelOf(Last(c))
  {
  }

  lemma SkippedForwarded(c: Chain, order: P.Order, w: Work, plan: P.Plan)
    requires Settles(c, c, WasSkipped) && Last(c).at < Last(c).from
    ensures TraceOf(Finished(c, WasSkipped), order) == P.Forwarded(TraceOf(c, order), w, plan)
  {
    LastTrace(c, order);
    SameTrace(Skipped(c), order, P.Skipped(TraceOf(c, order)));
  }

  lemma DeclinedForwarded(c: Chain, order: P.Order, p: Node, plan: P.Plan)
    requires Settles(c, c, WasDeclined) && Submittable(c, p) && !p.work.worthy
    ensures TraceOf(Finished(c, WasDeclined), order) == P.Forwarded(TraceOf(c, order), p.work, plan)
  {
    LastTrace(c, order);
    TakenTrace(c, order);
  }

  lemma RanForwarded(c: Chain, o: P.Order, w: Work, plan: P.Plan, m: Chain, order: P.Order)
    requires Settles(c, m, WasRun) && Last(c).at == Last(c).from && w.worthy && Done(m)
    requires TraceOf(m, order) == P.Body(P.Entered(TraceOf(c, o)), w, plan)
    ensures TraceOf(Finished(m, WasRun), order) == P.Forwarded(TraceOf(c, o), w, plan)
  {
    hide P.Body, P.Entered, P.Left;
    LastTrace(c, o);
    LeftTrace(m, order);
  }

  lemma LeftTrace(m: Chain, order: P.Order)
    requires Done(m) && Returned(m).Shape()
    ensures TraceOf(Finished(m, WasRun), order) == P.Left(TraceOf(m, order))
  {
    var r, t, d := Returned(m), TraceOf(m, order), |m.rows| - 1;
    var u := t.(levels := P.Cut(t.levels), lo := if t.lo < d then t.lo else d);
    SameTrace(r, order, u);
    if m.lo < |r.rows| {
      LowestTrace(r, order);
    } else {
      assert P.Settled(u) == u;
    }
  }

  /* ---------- one task, and all tasks together ---------- */

  ghost function Works(ds: seq<Delegation>): (ws: seq<Work>)
    ensures |ws| == |ds| && forall i | 0 <= i < |ds| :: ws[i] == ds[i].work
  {
    seq(|ds|, i requires 0 <= i < |ds| => ds[i].work)
  }

  lemma {:induction false} ExpectedAllMore(ws: seq<Work>, more: seq<Work>)
    ensures ExpectedAll(ws + more) == ExpectedAll(ws) + ExpectedAll(more)
  {
    if ws == [] {
      assert ws + more == more;
    } else {
      assert (ws + more)[1..] == ws[1..] + more;
      ExpectedAllMore(ws[1..], more);
    }
  }

  lemma {:induction false} ExpectedFromWorks(ds: seq<Delegation>)
    ensures ExpectedFrom(ds) == ExpectedAll(Works(ds))
  {
    hide Expected;
    if ds != [] {
      var l := |ds| - 1;
      ExpectedFromWorks(ds[..l]);
      assert Works(ds) == Works(ds[..l]) + [ds[l].work];
      ExpectedAllMore(Works(ds[..l]), [ds[l].work]);
    }
  }

  /** Running w executes some of what it stands for inline and hands over the rest, all of it worth running. */
  ghost predicate Ran(w: Work, executed: multiset<nat>, handed: seq<Work>) {
    executed + ExpectedAll(handed) == multiset{w.id} + ExpectedAll(w.kids) && forall h | h in handed :: h.worthy
  }

  /**
   * A pool thread runs a node it was handed: its body gets no parent and hangs its children below a dummy. Whether
   * all nodes that send took out, and whether those that it handed over, were the shallowest pending ones is what
   * PushOrder computes from the work and the plan.
   */
  method RunTask(cell: RootCell, w: Work, plan: P.Plan) returns (b: Balancer)
    modifies cell
    ensures fresh(b) && Ran(w, b.executed, Works(b.delegated))
    ensures b.order.taken == P.InOrder(w, plan, true)
    ensures (forall d | d in b.delegated :: d.shallowest) <==> P.InOrder(w, plan, false)
    ensures forall d | d in b.delegated :: P.Sends(plan, d.remotely)
  {
    hide Total, ExpectedFrom, ExpectedAll, Expected, Load, P.Body, TraceOf;
    b := new Balancer(cell);
    b.executed := multiset{w.id};
    TaskBegins(w.id);
    var dummy := cell.node;
    b.RunBody(dummy, w, plan);
    TaskEnds(b.executed, b.delegated, b.chain);
  }

  lemma TaskBegins(id: nat)
    ensures Total(multiset{id}, [], [Row([], 0, 0)]) == multiset{id}
  {
    LoadAppended([], Row([], 0, 0));
    assert [] + [Row([], 0, 0)] == [Row([], 0, 0)];
  }

  lemma TaskEnds(ex: multiset<nat>, ds: seq<Delegation>, c: Chain)
    requires |c.rows| == 1 && Last(c).from == |Last(c).kids|
    ensures Total(ex, ds, c.rows) == ex + ExpectedAll(Works(ds))
  {
    hide ExpectedFrom, ExpectedAll;
    ExpectedFromWorks(ds);
    LoadAppended([], Last(c));
    assert [] + [Last(c)] == c.rows;
  }

  /** A thread of some process takes the index-th of the works that wait anywhere and runs it. */
  datatype Turn = Turn(index: nat, executed: multiset<nat>, handed: seq<Work>)

  ghost predicate CanRun(waiting: seq<Work>, t: Turn) {
    t.index < |waiting| && Ran(waiting[t.index], t.executed, t.handed)
  }

  ghost function Remaining(waiting: seq<Work>, t: Turn): seq<Work>
    requires t.index < |waiting|
  {
    waiting[..t.index] + waiting[t.index + 1..] + t.handed
  }

  ghost predicate CanRunAll(waiting: seq<Work>, turns: seq<Turn>)
    decreases |turns|
  {
    turns == [] || (CanRun(waiting, turns[0]) && CanRunAll(Remaining(waiting, turns[0]), turns[1..]))
  }

  /** What waits, and what has been executed, after the turns. */
  ghost function After(waiting: seq<Work>, turns: seq<Turn>): (seq<Work>, multiset<nat>)
    requires CanRunAll(waiting, turns)
    decreases |turns|
  {
    if turns == [] then (waiting, multiset{})
    else
      var (w, e) := After(Remaining(waiting, turns[0]), turns[1..]);
      (w, turns[0].executed + e)
  }

  lemma TurnConserves(waiting: seq<Work>, t: Turn)
    requires CanRun(waiting, t) && forall w | w in waiting :: w.worthy
    ensures t.executed + ExpectedAll(Remaining(waiting, t)) == ExpectedAll(waiting)
    ensures forall w | w in Remaining(waiting, t) :: w.worthy
  {
    hide Expected;
    var w, front, back := waiting[t.index], waiting[..t.index], waiting[t.index + 1..];
    assert waiting == front + ([w] + back);
    ExpectedAllMore(front, [w] + back);
    ExpectedAllMore([w], back);
    ExpectedAllMore(front + back, t.handed);
    ExpectedAllMore(front, back);
    ExpectedWorthy(w);
  }

  lemma ExpectedWorthy(w: Work)
    requires w.worthy
    ensures Expected(w) == multiset{w.id} + ExpectedAll(w.kids) && ExpectedAll([w]) == Expected(w)
  {
  }

  /** However the works are handed around, what has been executed and what still waits make up what was expected. */
  lemma {:induction false} TurnsConserve(waiting: seq<Work>, turns: seq<Turn>)
    requires CanRunAll(waiting, turns) && forall w | w in waiting :: w.worthy
    ensures var (left, executed) := After(waiting, turns); executed + ExpectedAll(left) == ExpectedAll(waiting)
    decreases |turns|
  {
    if turns != [] {
      TurnConserves(waiting, turns[0]);
      TurnsConserve(Remaining(waiting, turns[0]), turns[1..]);
    }
  }

  /* ---------- what Expected means ---------- */

  ghost function AllIds(w: Work): multiset<nat> {
    multiset{w.id} + IdsOf(w.kids)
  }

  ghost function IdsOf(ws: seq<Work>): multiset<nat> {
    if ws == [] then multiset{} else AllIds(ws[0]) + IdsOf(ws[1..])
  }

  /** The node with that id and all above it are worth running. */
  ghost predicate Reaches(w: Work, id: nat) {
    w.worthy && (w.id == id || exists k | k in w.kids :: Reaches(k, id))
  }

  lemma {:induction false} ExpectedReaches(w: Work, id: nat)
    ensures id in Expected(w) <==> Reaches(w, id)
    ensures Expected(w) <= AllIds(w)
    decreases w, 0
  {
    ExpectedAllReaches(w, w.kids, id);
  }

  lemma {:induction false} ExpectedAllReaches(w: Work, ws: seq<Work>, id: nat)
    requires forall k | k in ws :: k in w.kids
    ensures id in ExpectedAll(ws) <==> exists k | k in ws :: Reaches(k, id)
    ensures ExpectedAll(ws) <= IdsOf(ws)
    decreases w, 0, |ws|
  {
    if ws != [] {
      assert ws[0] in w.kids;
      ExpectedReaches(ws[0], id);
      ExpectedAllReaches(w, ws[1..], id);
      assert forall k | k in ws :: k == ws[0] || k in ws[1..];
    }
  }

  /**
   * From a seed whose nodes have distinct ids, with threads and processes handing nodes around in any way the
   * balancer allows: when nothing waits any more, each node has been executed exactly once if every initializer
   * from the seed down to it accepts, and never otherwise.
   */
  lemma EveryNodeOnce(seed: Work, turns: seq<Turn>, id: nat)
    requires seed.worthy && AllIds(seed)[id] <= 1 && CanRunAll([seed], turns) && After([seed], turns).0 == []
    ensures After([seed], turns).1[id] == if Reaches(seed, id) then 1 else 0
  {
    TurnsConserve([seed], turns);
    ExpectedWorthy(seed);
    ExpectedReaches(seed, id);
  }
}

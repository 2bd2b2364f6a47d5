/**
 * Nodes of the trace tree (include/gempba/detail/nodes/node_core_impl.hpp).
 *
 * The user's runnable is described by the work it gives rise to: the children its body creates, in order,
 * and whether the initializer finds the node worth branching on.
 */
module TraceNode {
  import opened Common

  datatype Work = Work(id: nat, worthy: bool, kids: seq<Work>)

  datatype NodeState = Unused | Forwarded | Pushed | Discarded | Sent

  /** What one thread's entry in m_roots points to. */
  class RootCell {
    var node: Node?

    constructor ()
      ensures node == null
    {
      node := null;
    }
  }

  /** remove_child on the children list. */
  function Removed(s: seq<Node>, x: Node): seq<Node> {
    if s == [] then [] else (if s[0] == x then [] else [s[0]]) + Removed(s[1..], x)
  }

  lemma {:induction false} RemovedAbsent(s: seq<Node>, x: Node)
    requires x !in s
    ensures Removed(s, x) == s
  {
    if s != [] {
      RemovedAbsent(s[1..], x);
    }
  }

  lemma RemovedHead(s: seq<Node>, x: Node)
    requires x !in s
    ensures Removed([x] + s, x) == s
  {
    RemovedAbsent(s, x);
    assert ([x] + s)[1..] == s;
  }

  lemma RemovedSecond(h: Node, s: seq<Node>, x: Node)
    requires x !in s && x != h
    ensures Removed([h, x] + s, x) == [h] + s
  {
    RemovedHead(s, x);
    assert ([h, x] + s)[1..] == [x] + s;
  }

  /** The fields of a node, as a value. */
  datatype View = View(parent: Node?, children: seq<Node>, root: RootCell?,
    state: NodeState, cached: Option<bool>, ready: bool) {

    /** After prune. */
    function Bare(): View {
      this.(parent := null, children := [], root := null)
    }

    /** What should_branch has cached is what the initializer says. */
    predicate CacheOk(work: Work) {
      (cached.Some? ==> cached.value == work.worthy && ready) && (cached == None && ready ==> work.worthy)
    }
  }

  class Node {
    const work: Work
    const isDummy: bool
    ghost const depth: nat      // the distance from the thread's dummy node
    ghost const index: nat      // the position among the children its parent created
    var parent: Node?
    var children: seq<Node>
    var root: RootCell?
    var state: NodeState
    var cached: Option<bool>    // m_should_branch_cached
    var ready: bool             // the arguments are initialized

    /** A lazy node asks its initializer later; an explicit one comes with its arguments. */
    constructor (work: Work, isDummy: bool, isLazy: bool, ghost depth: nat, ghost index: nat)
      requires isLazy || work.worthy
      ensures this.work == work && this.isDummy == isDummy && this.depth == depth && this.index == index
      ensures parent == null && children == [] && root == null && state == Unused && Seen().CacheOk(work)
    {
      this.work, this.isDummy, this.depth, this.index := work, isDummy, depth, index;
      parent, children, root, state, cached, ready := null, [], null, Unused, None, !isLazy;
    }

    function Seen(): View
      reads this
    {
      View(parent, children, root, state, cached, ready)
    }

    /** init with a parent: set_parent and add_child on a node that was just created. */
    method Attach(p: Node, cell: RootCell)
      requires parent == null && children == [] && !isDummy && p != this && this !in p.children
      modifies this`parent, this`root, p`children
      ensures parent == p && root == cell && p.children == old(p.children) + [this]
    {
      parent := p;
      p.children := p.children + [this];
      root := cell;
    }

    method Prune()
      requires parent != this
      modifies this`parent, this`children, this`root, (if parent == null then {} else {parent})`children
      ensures Seen() == old(Seen()).Bare()
      ensures old(parent) != null ==> old(parent).children == Removed(old(parent.children), this)
    {
      if parent != null {
        var kept := Without(parent.children, this);
        parent.children := kept;
      }
      root := null;
      children := [];
      parent := null;
    }

    method ShouldBranch() returns (b: bool)
      requires state == Unused ==> Seen().CacheOk(work)
      modifies this`cached, this`ready
      ensures state == Unused ==> Seen().CacheOk(work) && b == work.worthy
      ensures cached == Some(b) && (old(cached).Some? ==> b == old(cached).value && ready == old(ready))
      ensures old(cached) == None ==>
                b == (state !in {Forwarded, Pushed, Discarded} && (old(ready) || work.worthy)) && ready
    {
      if cached.Some? {
        return cached.value;
      }
      if state == Forwarded || state == Pushed || state == Discarded {
        ready := true;
        cached := Some(false);
        return false;
      }
      if ready {
        cached := Some(true);
        return true;
      }
      cached := Some(work.worthy);
      ready := true;
      return work.worthy;
    }

    /** ensure_args_initialized, whose second throw is for a node the initializer declines. */
    method EnsureReady()
      requires Seen().CacheOk(work) && work.worthy
      modifies this`ready
      ensures Seen().CacheOk(work) && ready
    {
      if !ready {
        if !work.worthy {
          assert false;
        }
        ready := true;
      }
    }
  }

  /** list::remove */
  method Without(s: seq<Node>, x: Node) returns (r: seq<Node>)
    ensures r == Removed(s, x)
  {
    r := [];
    var i := |s|;
    while i > 0
      invariant 0 <= i <= |s| && r == Removed(s[i..], x)
    {
      i := i - 1;
      assert s[i..][1..] == s[i + 1..];
      r := (if s[i] == x then [] else [s[i]]) + r;
    }
    assert s[0..] == s;
  }
}

/**
 * The semi-centralized center as the object it is: process states and the process tree, the global score,
 * the counters of the TERMINATION message and the collected results. Each handler refines the center's part
 * of the system state (private/impl/schedulers/mpi_semi_centralized_scheduler.hpp).
 */
module SemiCenter {
  import opened Common
  import F = Forest
  import S = SemiScores
  import Topology
  import opened ProcessTree

  /** A step of the handler below met the throw of the same step of the model. */
  ghost predicate SameEnd(thrown: bool, o: Outcome<(F.Center, Option<F.Assignment>)>) {
    thrown <==> o.Throws?
  }

  class Center {
    const n: nat
    const goal: S.Goal
    const kind: S.Kind                     // of every score
    const processState: array<F.Standing>
    const tree: LinkedTree
    var globalScore: int
    var scoreUpdatesSent: int
    const nextProcessesSent: array<int>
    const bestResults: array<Option<(int, Packet)>>
    const scoreNet: array<seq<int>>        // to each worker, m_global_score_communicator
    const helperNet: array<seq<seq<int>>>  // to each worker, m_next_process_communicator

    ghost predicate Valid()
      reads this, tree, tree.nodes
    {
      && n >= 2 && tree.Valid() && |tree.nodes| == n
      && processState.Length == nextProcessesSent.Length == bestResults.Length
         == scoreNet.Length == helperNet.Length == n
    }

    ghost function Forest(): F.Center
      reads tree, processState
    {
      F.Center(processState[..], tree.model)
    }

    /** The object holds the center's part of s. */
    ghost predicate Shows(s: S.State)
      reads this, tree, tree.nodes, processState, nextProcessesSent, bestResults, scoreNet, helperNet
    {
      && Valid() && S.Sized(s) && s.t.n == n && s.goal == goal && s.kind == kind && s.forest == Forest()
      && s.best == globalScore && s.scoresSent == scoreUpdatesSent && s.helpersSent == nextProcessesSent[..]
      && s.results == bestResults[..] && s.scoreNet == scoreNet[..] && s.helperNet == helperNet[..]
    }

    /** Construction, broadcast_nodes_topology and the seed for rank 1. */
    constructor (n: nat, goal: S.Goal, kind: S.Kind, initial: int)
      requires n >= 2
      ensures Shows(S.Init(n, goal, kind, initial)) && fresh(tree) && fresh(tree.nodes)
      ensures fresh(processState) && fresh(nextProcessesSent)
      ensures fresh(bestResults) && fresh(scoreNet) && fresh(helperNet)
    {
      hide F.DefaultTree, Refines, LinkedTree.Synced, S.Init;
      this.n, this.goal, this.kind := n, goal, kind;
      globalScore, scoreUpdatesSent := initial, 0;
      processState := new F.Standing[n](_ => F.Available);
      nextProcessesSent := new int[n](_ => 0);
      bestResults := new Option<(int, Packet)>[n](_ => None);
      scoreNet := new seq<int>[n](_ => []);
      helperNet := new seq<seq<int>>[n](_ => []);
      var topology := Topology.DefaultTopology(n);
      tree := topology;
      new;
      Start(initial);
    }

    /** broadcast_nodes_topology and send_seed */
    method Start(ghost initial: int)
      requires Valid() && tree.model == F.DefaultTree(n) && globalScore == initial && scoreUpdatesSent == 0
      requires forall r | 0 <= r < n ::
        processState[r] == F.Available && helperNet[r] == [] && nextProcessesSent[r] == 0
      requires forall r | 0 <= r < n :: scoreNet[r] == [] && bestResults[r] == None
      modifies processState, helperNet, nextProcessesSent
      ensures Shows(S.Init(n, goal, kind, initial))
    {
      hide F.DefaultTree, Refines;
      BroadcastTopology();
      ghost var s := S.Init(n, goal, kind, initial);
      assert s.results == bestResults[..];
      assert s.scoreNet == scoreNet[..];
      assert s.helperNet == helperNet[..];
      assert s.helpersSent == nextProcessesSent[..];
      processState[1] := F.Running;
      assert s.forest.standing == processState[..];
    }

    /** The first message of rank w: its children, if any. */
    ghost function FirstList(w: nat): seq<seq<int>>
      reads tree
      requires w < |tree.model.helpers|
    {
      var kids := tree.model.helpers[w];
      if kids == [] then [] else [seq(|kids|, i requires 0 <= i < |kids| => kids[i] as int)]
    }

    /** Rank's children become ASSIGNED and go into the buffer. */
    method MarkChildren(kids: seq<nat>) returns (buffer: seq<int>)
      requires Valid() && forall i | 0 <= i < |kids| :: kids[i] < n
      modifies processState
      ensures buffer == seq(|kids|, i requires 0 <= i < |kids| => kids[i] as int)
      ensures forall r | 0 <= r < n :: processState[r] == if r in kids then F.Assigned else old(processState[r])
    {
      buffer := [];
      for i := 0 to |kids|
        invariant buffer == seq(i, k requires 0 <= k < i => kids[k] as int)
        invariant forall r | 0 <= r < n ::
          processState[r] == if r in kids[..i] then F.Assigned else old(processState[r])
      {
        buffer := buffer + [kids[i]];
        processState[kids[i]] := F.Assigned;
        assert kids[..i + 1] == kids[..i] + [kids[i]];
      }
      assert kids[..|kids|] == kids;
    }

    method BroadcastTopology()
      requires Valid() && tree.model == F.DefaultTree(n)
      requires forall r | 0 <= r < n ::
        processState[r] == F.Available && helperNet[r] == [] && nextProcessesSent[r] == 0
      modifies processState, helperNet, nextProcessesSent
      ensures Valid()
      ensures forall r | 0 <= r < n :: helperNet[r] == FirstList(r) && nextProcessesSent[r] == |FirstList(r)|
      ensures forall r | 0 <= r < n :: processState[r] == if r < 2 then F.Available else F.Assigned
    {
      hide F.Doubling, F.FirstBit, F.DefaultParent, Refines, LinkedTree.Synced;
      ghost var t := tree.model;
      for rank := 1 to n
        invariant forall r | rank <= r < n :: helperNet[r] == [] && nextProcessesSent[r] == 0
        invariant forall r | 0 <= r < rank :: helperNet[r] == FirstList(r) && nextProcessesSent[r] == |FirstList(r)|
        invariant forall r | 0 <= r < n :: processState[r] == if 0 < t.up[r] < rank then F.Assigned else F.Available
      {
        var kids := tree.Children(rank);
        Childhood(n, rank);
        var buffer := MarkChildren(kids);
        if buffer != [] {
          helperNet[rank] := helperNet[rank] + [buffer];
          nextProcessesSent[rank] := nextProcessesSent[rank] + 1;
        }
      }
      ParentsInRange(n);
    }

    method GetAvailable() returns (next: int)
      requires Valid()
      ensures next == F.FirstAvailable(processState[..], 1)
    {
      for rank := 1 to n
        invariant F.FirstAvailable(processState[..], 1) == F.FirstAvailable(processState[..], rank)
      {
        if processState[rank] == F.Available {
          return rank;
        }
      }
      return -1;
    }

    /** Both reports begin here. */
    method Report(r: nat, standing: F.Standing) returns (thrown: bool)
      requires Valid() && 1 <= r < n
      modifies processState, tree`model, tree`links, tree.nodes
      ensures Valid() && F.Shaped(old(Forest())) && F.Shaped(Forest())
      ensures match F.Reported(old(Forest()), r, standing)
              case Throws(_) => thrown
              case Next(c) => !thrown && Forest() == c
    {
      FacesOf(tree.links, tree.model);
      processState[r] := standing;
      thrown := false;
      assert tree.links[r] == LinksOf(tree.model, r);
      if tree.nodes[r].parent != null {
        thrown := tree.Release(r);
      }
      FacesOf(tree.links, tree.model);
    }

    /** Whether r has no helper yet. */
    method Alone(r: nat) returns (alone: bool)
      requires Valid() && r < n
      ensures F.Shaped(Forest()) && alone == (Forest().tree.helpers[r] == [])
    {
      FacesOf(tree.links, tree.model);
      assert tree.links[r] == LinksOf(tree.model, r);
      alone := tree.nodes[r].next == null;
    }

    /** The search of process_available. */
    method GetNeedy(offset: nat) returns (needy: int)
      requires Valid()
      ensures F.Shaped(Forest()) && needy == F.FirstNeedy(Forest(), offset, 0)
    {
      hide LinkedTree.Synced, Refines;
      var alone := Alone(0);
      for i := 0 to n
        invariant F.FirstNeedy(Forest(), offset, 0) == F.FirstNeedy(Forest(), offset, i)
      {
        var rank := F.RankAt(i, offset, n);
        alone := Alone(rank);
        if rank <= 0 || processState[rank] != F.Running || !alone {
          continue;
        }
        return rank;
      }
      return -1;
    }

    /** The NEXT_PROCESS message, add_next and the ASSIGNED state. */
    method Assign(to: nat, helper: nat) returns (thrown: bool)
      requires Valid() && to < n && helper < n
      modifies processState, helperNet, nextProcessesSent, tree`model, tree`links, tree.nodes
      ensures Valid() && F.Shaped(old(Forest()))
      ensures match F.Assign(old(Forest()), to, helper)
              case Throws(_) => thrown
              case Next(o) => !thrown && Forest() == o.0 && o.1 == Some(F.Assignment(to, helper))
      ensures helperNet[..] == old(helperNet[..])[to := old(helperNet[..])[to] + [[helper]]]
      ensures nextProcessesSent[..] == old(nextProcessesSent[..])[to := old(nextProcessesSent[..])[to] + 1]
    {
      FacesOf(tree.links, tree.model);
      helperNet[to] := helperNet[to] + [[helper]];
      nextProcessesSent[to] := nextProcessesSent[to] + 1;
      thrown := tree.AddNext(to, helper);
      processState[helper] := F.Assigned;
    }

    method ProcessRunning(ghost s: S.State, r: nat) returns (thrown: bool)
      requires Shows(s) && 1 <= r < n
      modifies processState, helperNet, nextProcessesSent, tree`model, tree`links, tree.nodes
      ensures F.Shaped(s.forest) && SameEnd(thrown, F.ProcessRunning(s.forest, r))
      ensures !thrown && Sendable(s, F.ProcessRunning(s.forest, r).state)
              ==> Shows(S.Reported(s, s.t, F.ProcessRunning(s.forest, r).state))
      ensures F.Inv(s.forest) ==> !thrown && F.RunningLaw(s.forest, r, F.ProcessRunning(s.forest, r).state)
    {
      hide LinkedTree.Synced, Refines, F.FirstAvailable, F.AddNext, F.Release, F.Inv, F.RunningLaw;
      if F.Inv(s.forest) {
        F.ProcessRunningObeys(s.forest, r);
      }
      thrown := Report(r, F.Running);
      if thrown {
        return;
      }
      var alone := Alone(r);
      if alone {
        var next := GetAvailable();
        if next > 0 {
          thrown := Assign(r, next);
        }
      }
    }

    method ProcessAvailable(ghost s: S.State, r: nat, offset: nat) returns (thrown: bool)
      requires Shows(s) && 1 <= r < n
      modifies processState, helperNet, nextProcessesSent, tree`model, tree`links, tree.nodes
      ensures F.Shaped(s.forest) && SameEnd(thrown, F.ProcessAvailable(s.forest, r, offset))
      ensures !thrown && Sendable(s, F.ProcessAvailable(s.forest, r, offset).state)
              ==> Shows(S.Reported(s, s.t, F.ProcessAvailable(s.forest, r, offset).state))
      ensures F.Inv(s.forest)
              ==> !thrown && F.AvailableLaw(s.forest, r, offset, F.ProcessAvailable(s.forest, r, offset).state)
    {
      hide LinkedTree.Synced, Refines, F.FirstNeedy, F.AddNext, F.Release, F.Inv, F.AvailableLaw;
      if F.Inv(s.forest) {
        F.ProcessAvailableObeys(s.forest, r, offset);
      }
      thrown := Report(r, F.Available);
      if thrown {
        return;
      }
      var needy := GetNeedy(offset);
      if needy != -1 {
        thrown := Assign(needy, r);
      }
    }

    /** maybe_broadcast_global_score */
    method MaybeBroadcast(ghost s: S.State, ghost w: nat, proposal: int)
      requires Shows(s) && w < n && s.books[w].proposing == Some(proposal)
      modifies this`globalScore, this`scoreUpdatesSent, scoreNet
      ensures Shows(S.ProposalTaken(s, w))
      ensures var improves := if goal == S.Maximise then proposal > old(globalScore) else proposal < old(globalScore);
              && globalScore == (if improves then proposal else old(globalScore))
              && forall r | 0 <= r < n ::
                   scoreNet[r] == old(scoreNet[r]) + if improves && r >= 1 then [proposal] else []
    {
      if S.Better(goal, proposal, globalScore) {
        globalScore := proposal;
        for rank := 1 to n
          invariant globalScore == proposal && scoreUpdatesSent == old(scoreUpdatesSent)
          invariant forall r | 0 <= r < n ::
            scoreNet[r] == if 1 <= r < rank then old(scoreNet[r]) + [proposal] else old(scoreNet[r])
        {
          scoreNet[rank] := scoreNet[rank] + [globalScore];
        }
        scoreUpdatesSent := scoreUpdatesSent + 1;
        assert S.ProposalTaken(s, w).scoreNet == scoreNet[..];
      }
    }

    /** fetch_solution */
    method FetchSolution(ghost s: S.State) returns (packet: Packet)
      requires Shows(s)
      ensures packet == S.FetchSolution(s.results, S.Score(s.kind, s.best), 1)
    {
      for rank := 1 to n
        invariant S.FetchSolution(s.results, S.Score(s.kind, s.best), 1)
          == S.FetchSolution(s.results, S.Score(s.kind, s.best), rank)
      {
        if S.Recorded(bestResults[rank], kind) == S.Score(kind, globalScore) {
          return if bestResults[rank].Some? then bestResults[rank].value.1 else [];
        }
      }
      return [];
    }
  }

  ghost predicate Sendable(s: S.State, o: (F.Center, Option<F.Assignment>)) {
    |s.helperNet| == |s.helpersSent| && (o.1.Some? ==> o.1.value.to < |s.helperNet|)
  }

  lemma FacesOf(links: seq<Links>, t: F.Tree)
    requires Refines(links, t)
    ensures forall r | 0 <= r < |t.up| :: F.NOBODY <= t.up[r] < |t.up|
    ensures |t.up| == |t.helpers| == |links|
  {
  }

  /** In the default tree, exactly the children of rank have it as their parent. */
  lemma Childhood(n: nat, rank: nat)
    requires 1 <= rank < n
    ensures forall i | 0 <= i < |F.DefaultTree(n).helpers[rank]| :: F.DefaultTree(n).helpers[rank][i] < n
    ensures forall r: nat | r < n :: r in F.DefaultTree(n).helpers[rank] <==> F.DefaultTree(n).up[r] == rank
  {
    var t := F.DefaultTree(n);
    F.DefaultLinked(n);
    forall i | 0 <= i < |t.helpers[rank]| ensures t.helpers[rank][i] < n {
      ChildOf(t, rank, i);
    }
  }

  lemma ParentsInRange(n: nat)
    ensures forall r: nat | r < n ::
      if r < 2 then F.DefaultTree(n).up[r] == F.NOBODY else 0 < F.DefaultTree(n).up[r] < n
  {
  }
}

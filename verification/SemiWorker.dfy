/**
 * The score side of one semi-centralized worker as the objects it is made of: the node manager with its score and
 * result (include/gempba/node_manager.hpp), and the scheduler's global score, counters and incoming channels.
 * Each method refines the worker's part of the system state.
 */
module SemiWorker {
  import opened Common
  import S = SemiScores

  class NodeManager {
    const goal: S.Goal
    var score: int
    var result: S.Stored

    constructor (goal: S.Goal, initial: int)
      ensures this.goal == goal && score == initial && result == S.Nothing
    {
      this.goal, score, result := goal, initial, S.Nothing;
    }

    /** try_update_result with a serializer; packet is what the serializer returns. */
    method TryUpdateResult(packet: Packet, newScore: int) returns (updated: bool)
      modifies this
      ensures updated <==> if goal == S.Maximise then newScore > old(score) else newScore < old(score)
      ensures if updated then score == newScore && result == S.Bytes(packet)
        else score == old(score) && result == old(result)
    {
      updated := S.Better(goal, newScore, score);
      if updated {
        result := S.Bytes(packet);
        score := newScore;
      }
    }

    method TryUpdateScoreAndInvalidateResult(newScore: int) returns (updated: bool)
      modifies this
      ensures updated <==> if goal == S.Maximise then newScore > old(score) else newScore < old(score)
      ensures if updated then score == newScore && result == S.Bytes([])
        else score == old(score) && result == old(result)
    {
      updated := S.Better(goal, newScore, score);
      if updated {
        score := newScore;
        result := S.Bytes([]);
      }
    }

    /** get_result_bytes: nothing is sent for an empty packet. */
    method GetResultBytes() returns (bytes: Option<Packet>)
      ensures bytes == if result.Bytes? && result.packet != [] then Some(result.packet) else None
    {
      if result.Bytes? && result.packet != [] {
        return Some(result.packet);
      }
      return None;
    }
  }

  class Worker {
    const manager: NodeManager
    const rank: nat
    var globalScore: int
    var scoreUpdatesReceived: nat
    var nextProcessesReceived: nat
    var nextProcesses: seq<int>          // the buffer, fixed in length
    var scoreNet: seq<int>               // waiting on m_global_score_communicator
    var helperNet: seq<seq<int>>         // waiting on m_next_process_communicator
    var proposing: Option<int>           // handed to MPI_Ssend, not taken yet

    /** The objects hold worker rank's part of s, apart from the funnel. */
    ghost predicate Shows(s: S.State)
      reads this, manager
    {
      && S.Sized(s) && 1 <= rank < s.t.n && s.goal == manager.goal
      && var b := s.books[rank];
      && b.local == manager.score && b.stored == manager.result && b.global == globalScore && b.proposing == proposing
      && b.scoresIn == scoreUpdatesReceived && b.helpersIn == nextProcessesReceived
      && s.scoreNet[rank] == scoreNet && s.helperNet[rank] == helperNet
    }

    constructor (rank: nat, manager: NodeManager, lists: seq<seq<int>>, initial: int, size: nat)
      ensures this.rank == rank && this.manager == manager && globalScore == initial && proposing == None
      ensures scoreUpdatesReceived == 0 && nextProcessesReceived == 0 && scoreNet == [] && helperNet == lists
      ensures nextProcesses == seq(size, _ => -1)
    {
      this.rank, this.manager, globalScore, proposing := rank, manager, initial, None;
      scoreUpdatesReceived, nextProcessesReceived, scoreNet, helperNet := 0, 0, [], lists;
      nextProcesses := seq(size, _ => -1);
    }

    /** A thread's try_update_result. */
    method Accept(ghost s: S.State, score: int, packet: Packet)
      requires Shows(s)
      modifies manager
      ensures Shows(S.Accepted(s, rank, score, packet))
    {
      var updated := manager.TryUpdateResult(packet, score);
    }

    /** A better global score is adopted, and the result dropped; a better local score is proposed. */
    method UpdateScore(ghost s: S.State)
      requires Shows(s) && proposing == None
      modifies this`proposing, manager
      ensures Shows(S.ScoreUpdated(s, rank))
      ensures var gain := if manager.goal == S.Maximise then globalScore - old(manager.score)
                          else old(manager.score) - globalScore;
              && manager.score == (if gain > 0 then globalScore else old(manager.score))
              && manager.result == (if gain > 0 then S.Bytes([]) else old(manager.result))
              && proposing == if gain < 0 then Some(old(manager.score)) else None
    {
      var global, local := globalScore, manager.score;
      if S.Better(manager.goal, global, local) {
        var updated := manager.TryUpdateScoreAndInvalidateResult(global);
      } else if S.Better(manager.goal, local, global) {
        proposing := Some(local);
      }
    }

    method ReceiveScore(ghost s: S.State)
      requires Shows(s) && scoreNet != []
      modifies this`globalScore, this`scoreUpdatesReceived, this`scoreNet
      ensures Shows(S.ScoreReceived(s, rank)) && scoreUpdatesReceived == old(scoreUpdatesReceived) + 1
      ensures globalScore == old(scoreNet)[0] && scoreNet == old(scoreNet)[1..]
    {
      globalScore, scoreNet := scoreNet[0], scoreNet[1..];
      scoreUpdatesReceived := scoreUpdatesReceived + 1;
    }

    /** The list overwrites the front of the buffer; a longer list is an MPI truncation error. */
    method ReceiveNextProcess(ghost s: S.State)
      requires Shows(s) && helperNet != [] && |helperNet[0]| <= |nextProcesses|
      modifies this`nextProcesses, this`nextProcessesReceived, this`helperNet
      ensures Shows(S.Popped(s, rank)) && nextProcessesReceived == old(nextProcessesReceived) + 1
      ensures helperNet == old(helperNet)[1..]
      ensures nextProcesses == old(helperNet)[0] + old(nextProcesses)[|old(helperNet)[0]|..]
    {
      nextProcesses := helperNet[0] + nextProcesses[|helperNet[0]|..];
      nextProcessesReceived, helperNet := nextProcessesReceived + 1, helperNet[1..];
    }

    /** drain_center_messages: the loops end at the center's counts, or the worker had received too much before. */
    method DrainCenterMessages(ghost s: S.State, scores: int, helpers: int) returns (thrown: bool)
      requires Shows(s) && S.Drainable(s, rank, scores, helpers)
      requires forall v | v in helperNet :: |v| <= |nextProcesses|
      modifies this`globalScore, this`scoreUpdatesReceived, this`scoreNet
      modifies this`nextProcesses, this`nextProcessesReceived, this`helperNet
      ensures Shows(S.Drained(s, rank, scores, helpers))
      ensures thrown <==> old(scoreUpdatesReceived) > scores || old(nextProcessesReceived) > helpers
      ensures !thrown ==> scoreUpdatesReceived == scores && nextProcessesReceived == helpers
    {
      hide S.Better;
      ghost var s1 := s;
      while scoreUpdatesReceived < scores
        invariant Shows(s1) && S.Drainable(s1, rank, scores, helpers)
        invariant S.ScoresDrained(s1, rank, scores) == S.ScoresDrained(s, rank, scores)
        invariant helperNet == old(helperNet) && nextProcesses == old(nextProcesses)
        invariant nextProcessesReceived == old(nextProcessesReceived)
        invariant if old(scoreUpdatesReceived) > scores then scoreUpdatesReceived == old(scoreUpdatesReceived)
                  else scoreUpdatesReceived <= scores
        decreases scores - scoreUpdatesReceived
      {
        ReceiveScore(s1);
        s1 := S.ScoreReceived(s1, rank);
      }
      ghost var s2, received := s1, scoreUpdatesReceived;
      while nextProcessesReceived < helpers
        invariant Shows(s2) && helpers - nextProcessesReceived <= |helperNet| && |nextProcesses| == |old(nextProcesses)|
        invariant scoreUpdatesReceived == received
        invariant S.HelpersDrained(s2, rank, helpers) == S.HelpersDrained(s1, rank, helpers)
        invariant forall v | v in helperNet :: |v| <= |nextProcesses|
        invariant if old(nextProcessesReceived) > helpers then nextProcessesReceived == old(nextProcessesReceived)
                  else nextProcessesReceived <= helpers
        decreases helpers - nextProcessesReceived
      {
        ReceiveNextProcess(s2);
        s2 := S.Popped(s2, rank);
      }
      thrown := scoreUpdatesReceived != scores || nextProcessesReceived != helpers;
    }
  }
}

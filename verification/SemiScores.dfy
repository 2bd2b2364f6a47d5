/**
 * The semi-centralized run with its side channels: score proposals and broadcasts, helper lists,
 * the counters of the TERMINATION message, and the solutions the center collects
 * (mpi_semi_centralized_scheduler.hpp and .cpp, node_manager.hpp).
 *
 * The protocol state is carried unchanged inside; this layer decides what its messages contain.
 */
module SemiScores {
  import opened Common
  import T = SemiProtocol
  import H = Handoff
  import F = Forest

  datatype Goal = Maximise | Minimise

  /** should_update: the new value is strictly better than the old one. */
  predicate Better(g: Goal, newer: int, older: int) {
    if g == Maximise then newer > older else newer < older
  }

  /** The integer kinds of score; a run uses one. */
  datatype Kind = I32 | UnsignedI32 | I64 | UnsignedI64

  /** Scores are equal only if their kinds are. */
  datatype Score = Score(kind: Kind, value: int)

  /** The result variant of the node manager: nothing yet, or serialized bytes (empty once invalidated). */
  datatype Stored = Nothing | Bytes(packet: Packet)

  /** One worker's scores and counters. */
  datatype Book = Book(
    local: int,                // node_manager::m_score
    stored: Stored,            // node_manager::m_result
    global: int,               // m_global_score
    scoresIn: nat,             // m_score_updates_received
    helpersIn: nat,            // m_next_processes_received
    proposing: Option<int>,    // blocked in MPI_Ssend of a score proposal
    synced: bool               // the last update_score of task_funneling has run
  )

  /** history: an accepted try_update_result */
  datatype Acceptance = Acceptance(worker: nat, score: int, packet: Packet)

  datatype State = State(
    t: T.State,
    goal: Goal,
    kind: Kind,                     // of every score in the run
    initial: int,                   // the default score of the goal
    books: seq<Book>,
    scoreNet: seq<seq<int>>,        // center to worker, m_global_score_communicator
    helperNet: seq<seq<seq<int>>>,  // center to worker, m_next_process_communicator
    best: int,                      // the center's m_global_score
    scoresSent: int,
    helpersSent: seq<int>,
    forest: F.Center,
    results: seq<Option<(int, Packet)>>,  // m_best_results, None for result::EMPTY
    broadcasts: seq<int>,           // history
    accepted: seq<Acceptance>       // history
  )

  datatype Action =
    | Protocol(a: T.Action)
    | Report(w: nat, offset: nat)
    | ReceiveScore(w: nat)
    | ReceiveHelpers(w: nat)
    | UpdateScore(w: nat)
    | TakeProposal(w: nat)
    | Accept(w: nat, thread: nat, score: int, packet: Packet)
    | NotifyNext
    | TakeTermination(w: nat)
    | SendSolution(w: nat)
    | CollectNext

  predicate Sized(s: State) {
    && s.t.n >= 2
    && |s.t.det| == |s.t.phase| == |s.t.slot| == s.t.n
    && |s.books| == |s.scoreNet| == |s.helperNet| == |s.helpersSent| == |s.results| == s.t.n
    && |s.forest.standing| == s.t.n
  }

  /** Protocol steps whose effect this layer leaves as it is. */
  predicate Ordinary(a: T.Action) {
    && !a.CenterReport? && !a.Notify? && !a.ReceiveTermination? && !a.SendSolution? && !a.Collect?
    && !(a.Local? && a.step.ReceiveHelpers?)
  }

  /** The worker whose main thread takes the step, if any. */
  function MainThread(a: T.Action): Option<nat> {
    match a
    case ReceiveTask(_, w, _) => Some(w)
    case Local(w, step) => if H.PoolAction(step) then None else Some(w)
    case FinishTask(w) => Some(w)
    case WorkerAck(_, w) => Some(w)
    case _ => None
  }

  predicate Unblocked(s: State, w: nat) {
    w < |s.books| && s.books[w].proposing == None
  }

  /** The main thread is where it receives from the center: in its loop, or inside the funnel's locked section. */
  predicate Receiving(s: State, w: nat) {
    && Sized(s) && T.Worker(s.t, w) && Unblocked(s, w)
    && (s.t.phase[w] == T.Idle || (s.t.phase[w] == T.Working && s.t.slot[w].funnel == H.InSync))
  }

  /** drain_center_messages returns or throws, instead of waiting for messages that are not there. */
  predicate Drainable(s: State, w: nat, scores: int, helpers: int)
    requires Sized(s) && w < s.t.n
  {
    scores - s.books[w].scoresIn <= |s.scoreNet[w]| && helpers - s.books[w].helpersIn <= |s.helperNet[w]|
  }

  /** The workers before rank r have received their helper lists: MPI_Ssend of the first ones goes by rank. */
  predicate ListsTaken(s: State, r: int)
    requires Sized(s) && r <= s.t.n
  {
    forall v | 1 <= v < r :: s.helperNet[v] == []
  }

  predicate ProtocolEnabled(s: State, p: T.Action) {
    && Sized(s) && Ordinary(p) && T.Enabled(s.t, p)
    && (MainThread(p).Some? ==> Unblocked(s, MainThread(p).value))
    && (p.Local? && p.step == H.Return ==> s.books[p.w].synced)
    && (p.SendSeed? ==> ListsTaken(s, s.t.n))
  }

  /** When the steps this layer describes itself can be taken. */
  predicate OwnEnabled(s: State, a: Action) {
    Sized(s) &&
    match a
    case Protocol(_) => false
    case Report(w, _) =>
      && F.Shaped(s.forest) && s.t.center == T.Serving && T.SeedTaken(s.t) && T.Worker(s.t, w)
      && T.First(s.t, w, 0) in {Some(T.Running), Some(T.Available)}
    case ReceiveScore(w) => Receiving(s, w) && s.scoreNet[w] != []
    case ReceiveHelpers(w) =>
      Receiving(s, w) && s.helperNet[w] != [] && (s.t.center == T.Starting ==> ListsTaken(s, w))
    case UpdateScore(w) =>
      && T.Worker(s.t, w) && Unblocked(s, w) && s.t.phase[w] == T.Working
      && (s.t.slot[w].funnel == H.InSync || (s.t.slot[w].funnel == H.Closing && !s.books[w].synced))
    case TakeProposal(w) =>
      s.t.center == T.Serving && T.SeedTaken(s.t) && T.Worker(s.t, w) && s.books[w].proposing.Some?
    case Accept(w, thread, _, packet) =>
      && T.Worker(s.t, w) && s.t.phase[w] == T.Working && thread in s.t.slot[w].pool && packet != []
    case NotifyNext => s.t.center.Notifying? && s.t.center.next < s.t.n
    case TakeTermination(w) =>
      && T.Worker(s.t, w) && s.t.phase[w] == T.Idle && T.First(s.t, 0, w).Some?
      && var m := T.First(s.t, 0, w).value; m.Termination? && Drainable(s, w, m.scoreUpdates, m.nextProcesses)
    case SendSolution(w) => T.Worker(s.t, w) && T.AllLeft(s.t) && s.t.phase[w] == T.Leaving
    case CollectNext =>
      s.t.center.Collecting? && T.AllLeft(s.t) && s.t.center.next < s.t.n && T.Link(s.t.net, s.t.center.next, 0) != []
  }

  predicate Enabled(s: State, a: Action) {
    if a.Protocol? then ProtocolEnabled(s, a.a) else OwnEnabled(s, a)
  }

  /* ---------- handlers ---------- */

  /** try_update_result */
  function Accepted(s: State, w: nat, score: int, packet: Packet): State
    requires w < |s.books|
  {
    if Better(s.goal, score, s.books[w].local) then
      s.(books := s.books[w := s.books[w].(local := score, stored := Bytes(packet))],
         accepted := s.accepted + [Acceptance(w, score, packet)])
    else s
  }

  /** update_score: adopt the global score and invalidate the result, or propose the local one. */
  function ScoreUpdated(s: State, w: nat): State
    requires w < |s.books| && w < |s.t.slot|
  {
    var b := s.books[w];
    var b1 :=
      if Better(s.goal, b.global, b.local) then b.(local := b.global, stored := Bytes([]))
      else if Better(s.goal, b.local, b.global) then b.(proposing := Some(b.local))
      else b;
    s.(books := s.books[w := b1.(synced := s.t.slot[w].funnel == H.Closing)])
  }

  /** maybe_broadcast_global_score, which also ends the proposer's synchronous send. */
  function ProposalTaken(s: State, w: nat): State
    requires w < |s.books| && s.books[w].proposing.Some?
  {
    var v := s.books[w].proposing.value;
    var s1 := s.(books := s.books[w := s.books[w].(proposing := None)]);
    if Better(s.goal, v, s.best) then
      s1.(best := v, broadcasts := s.broadcasts + [v], scoresSent := s.scoresSent + 1,
          scoreNet := seq(|s.scoreNet|,
            i requires 0 <= i < |s.scoreNet| => if i == 0 then s.scoreNet[0] else s.scoreNet[i] + [v]))
    else s1
  }

  /** receive_score_from_center */
  function ScoreReceived(s: State, w: nat): State
    requires w < |s.books| && w < |s.scoreNet| && s.scoreNet[w] != []
  {
    s.(books := s.books[w := s.books[w].(global := s.scoreNet[w][0], scoresIn := s.books[w].scoresIn + 1)],
       scoreNet := s.scoreNet[w := s.scoreNet[w][1..]])
  }

  /** The score half of drain_center_messages. */
  function ScoresDrained(s: State, w: nat, count: int): State
    requires w < |s.books| && w < |s.scoreNet| && count - s.books[w].scoresIn <= |s.scoreNet[w]|
    decreases count - s.books[w].scoresIn
  {
    if s.books[w].scoresIn < count then ScoresDrained(ScoreReceived(s, w), w, count) else s
  }

  /** One MPI_Recv on m_next_process_communicator, seen from the books. */
  function Popped(s: State, w: nat): State
    requires w < |s.books| && w < |s.helperNet| && s.helperNet[w] != []
  {
    s.(books := s.books[w := s.books[w].(helpersIn := s.books[w].helpersIn + 1)],
       helperNet := s.helperNet[w := s.helperNet[w][1..]])
  }

  /** The helper half; the lists only go to a buffer that is no longer read. */
  function HelpersDrained(s: State, w: nat, count: int): State
    requires w < |s.books| && w < |s.helperNet| && count - s.books[w].helpersIn <= |s.helperNet[w]|
    decreases count - s.books[w].helpersIn
  {
    if s.books[w].helpersIn < count then HelpersDrained(Popped(s, w), w, count) else s
  }

  lemma {:induction false} DrainSizes(s: State, w: nat, count: int)
    requires w < |s.books| && w < |s.scoreNet| && count - s.books[w].scoresIn <= |s.scoreNet[w]|
    ensures var s' := ScoresDrained(s, w, count);
            && |s'.books| == |s.books| && |s'.scoreNet| == |s.scoreNet|
            && s' == s.(books := s'.books, scoreNet := s'.scoreNet)
            && s'.books[w].helpersIn == s.books[w].helpersIn
    decreases count - s.books[w].scoresIn
  {
    if s.books[w].scoresIn < count {
      DrainSizes(ScoreReceived(s, w), w, count);
    }
  }

  function Drained(s: State, w: nat, scores: int, helpers: int): State
    requires Sized(s) && w < s.t.n && Drainable(s, w, scores, helpers)
  {
    DrainSizes(s, w, scores);
    HelpersDrained(ScoresDrained(s, w, scores), w, helpers)
  }

  /** receive_next_process */
  function HelpersTaken(s: State, w: nat): State
    requires Sized(s) && w < s.t.n && s.helperNet[w] != [] && |s.helperNet[w][0]| <= |s.t.slot[w].nexts|
  {
    Popped(s.(t := s.t.(slot := s.t.slot[w := H.HelpersReceived(s.t.slot[w], s.helperNet[w][0])])), w)
  }

  /** process_termination once its guards have passed. */
  function Left(s: State, w: nat, scores: int, helpers: int): State
    requires Sized(s) && w < s.t.n && Drainable(s, w, scores, helpers) && T.Link(s.t.net, 0, w) != []
  {
    Drained(s, w, scores, helpers).(t := s.t.(phase := s.t.phase[w := T.Leaving], net := T.Drop(s.t.net, 0, w)))
  }

  /** send_final_solution_to_center */
  function Solution(b: Book): T.Message {
    if b.stored.Bytes? && b.stored.packet != [] then T.HasResult(b.stored.packet, b.local) else T.NoResult
  }

  /** process_running or process_available, with the NEXT_PROCESS message it may send. */
  function Reported(s: State, t: T.State, o: (F.Center, Option<F.Assignment>)): State
    requires o.1.Some? ==> o.1.value.to < |s.helperNet| == |s.helpersSent|
  {
    var s1 := s.(t := t, forest := o.0);
    if o.1.Some? then
      var to := o.1.value.to;
      s1.(helperNet := s.helperNet[to := s.helperNet[to] + [[o.1.value.helper as int]]],
          helpersSent := s.helpersSent[to := s.helpersSent[to] + 1])
    else s1
  }

  function Handled(s: State, w: nat, offset: nat): Outcome<(F.Center, Option<F.Assignment>)>
    requires F.Shaped(s.forest) && 1 <= w < |s.forest.standing|
  {
    if T.First(s.t, w, 0) == Some(T.Running) then F.ProcessRunning(s.forest, w)
    else F.ProcessAvailable(s.forest, w, offset)
  }

  function Starts(s: State, p: T.Action): seq<Book>
    requires p.ReceiveTask? ==> p.w < |s.books|
  {
    if p.ReceiveTask? then s.books[p.w := s.books[p.w].(synced := false)] else s.books
  }

  function ResultOf(m: T.Message): Option<(int, Packet)> {
    if m.HasResult? then Some((m.score, m.packet)) else None
  }

  function OwnStep(s: State, a: Action): Outcome<State>
    requires OwnEnabled(s, a)
  {
    match a
    case Report(w, offset) =>
      (match Handled(s, w, offset)
       case Throws(reason) => Throws(reason)
       case Next(o) =>
         if o.1.Some? && o.1.value.to >= s.t.n then Throws("no such rank")
         else Next(Reported(s, s.t.(net := T.Drop(s.t.net, w, 0)), o)))
    case ReceiveScore(w) => Next(ScoreReceived(s, w))
    case ReceiveHelpers(w) =>
      var v := s.helperNet[w][0];
      if |v| > |s.t.slot[w].nexts| then Throws("more helpers than the buffer holds") else Next(HelpersTaken(s, w))
    case UpdateScore(w) => Next(ScoreUpdated(s, w))
    case TakeProposal(w) => Next(ProposalTaken(s, w))
    case Accept(w, _, score, packet) => Next(Accepted(s, w, score, packet))
    case NotifyNext => Next(s.(t := T.Notified(s.t, s.scoresSent, s.helpersSent[s.t.center.next])))
    case TakeTermination(w) =>
      var m := T.First(s.t, 0, w).value;
      if T.Unfinished(s.t, w) then Throws("received termination with work in progress")
      else if m.scoreUpdates < s.books[w].scoresIn || m.nextProcesses < s.books[w].helpersIn
      then Throws("received more center messages than the center sent")
      else Next(Left(s, w, m.scoreUpdates, m.nextProcesses))
    case SendSolution(w) =>
      Next(s.(t := s.t.(phase := s.t.phase[w := T.Done], net := T.Put(s.t.net, w, 0, Solution(s.books[w])))))
    case CollectNext =>
      var r := s.t.center.next;
      var m := T.First(s.t, r, 0).value;
      if m.Running? || m.Available? || m.HasResult? || m.NoResult? then
        Next(s.(t := T.Collected(s.t, m.HasResult? || m.NoResult?),
                results := if m.HasResult? then s.results[r := ResultOf(m)] else s.results))
      else Throws("received unknown tag in receive_solution()")
  }

  function Step(s: State, a: Action): Outcome<State>
    requires Enabled(s, a)
  {
    if a.Protocol? then
      match T.Step(s.t, a.a)
      case Throws(reason) => Throws(reason)
      case Next(t) => Next(s.(t := t, books := Starts(s, a.a)))
    else OwnStep(s, a)
  }

  /** get_score of a recorded result; result::EMPTY holds the I32 value -1 whatever the kind of the run. */
  function Recorded(r: Option<(int, Packet)>, kind: Kind): Score {
    if r.Some? then Score(kind, r.value.0) else Score(I32, -1)
  }

  /** fetch_solution from rank r on: the packet of the first result recorded with the global score. */
  function FetchSolution(results: seq<Option<(int, Packet)>>, global: Score, r: nat): (p: Packet)
    requires r <= |results|
    decreases |results| - r
  {
    if r == |results| then []
    else if Recorded(results[r], global.kind) == global then (if results[r].Some? then results[r].value.1 else [])
    else FetchSolution(results, global, r + 1)
  }

  function Init(n: nat, goal: Goal, kind: Kind, initial: int): State
    requires n >= 2
  {
    var kids := F.DefaultTree(n).helpers;
    State(T.Init(n), goal, kind, initial,
          seq(n, _ => Book(initial, Nothing, initial, 0, 0, None, false)),
          seq(n, _ => []),
          seq(n, w requires 0 <= w < n => if kids[w] == [] then []
            else [seq(|kids[w]|, i requires 0 <= i < |kids[w]| => kids[w][i] as int)]),
          initial, 0, seq(n, w requires 0 <= w < n => if kids[w] == [] then 0 else 1),
          F.Initial(n), seq(n, _ => None), [], [])
  }
}

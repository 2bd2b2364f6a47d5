/**
 * The run protocol of the centralized scheduler (private/impl/schedulers/mpi_centralized_scheduler.hpp).
 *
 * Workers talk to the center only: they push every task to its queue, and it dispatches one queued task at a
 * time to each available worker. A worker's record holds both directions of its link and the center's view of it.
 * The queue is a bag, so the order of its priorities does not matter.
 */
module Centralized {
  import opened Common
  import opened TerminationDetection
  import H = Handoff

  const CENTER: int := 0

  datatype Message =
    | Task(bundle: Bundle)                  // TASK_FROM_CENTER or TASK_FOR_CENTER, with RUNNABLE_ID
    | Ack                                   // TASK_RECEIVED
    | Running
    | Available
    | Termination(scores: int, notices: int)
    | HasResult(packet: Packet, score: int)
    | NoResult

  datatype Standing = IsAvailable | IsAssigned | IsRunning

  datatype Phase = Idle | Working(task: Bundle) | Leaving | Done

  datatype Worker = Worker(
    det: Detector,
    phase: Phase,
    slot: H.State,
    inbox: seq<Message>,          // center to worker, world communicator
    outbox: seq<Message>,         // worker to center, world communicator
    notices: seq<bool>,           // center to worker, fullness communicator
    noticesIn: nat,               // m_fullness_notices_received
    scores: nat,                  // score updates queued for the worker
    scoresIn: nat,                // m_score_updates_received
    standing: Standing,           // the center's m_process_state
    finished: multiset<Bundle>    // history
  )

  datatype CenterPhase = Starting | Serving | Notifying(next: nat) | Collecting(next: nat) | Finished

  datatype State = State(
    center: CenterPhase,
    det: Detector,
    queue: multiset<Bundle>,      // m_center_bundle_queue
    available: int,               // m_nodes_available
    scoresSent: int,
    noticesSent: int,
    workers: seq<Worker>,         // rank r is workers[r - 1]
    seeds: multiset<Bundle>       // history
  )

  datatype Action =
    | SendSeed(seed: Bundle)
    | TakeReport(w: nat)
    | TakeTask(w: nat)
    | TakeAck(w: nat)
    | Dispatch(w: nat, bundle: Bundle)
    | BroadcastScore
    | BroadcastFullness(full: bool)
    | ReceiveTask(w: nat, thread: nat)
    | Local(w: nat, step: H.Action)
    | ReceiveScore(w: nat)
    | ReceiveNotice(w: nat)
    | FinishTask(w: nat)
    | WorkerAck(w: nat)
    | NotifyNext
    | TakeTermination(w: nat)
    | SendSolution(w: nat, solution: Message)
    | CollectNext

  function Head(c: seq<Message>): Option<Message> {
    if c == [] then None else Some(c[0])
  }

  /** The main thread of a worker is where it receives from the center. */
  predicate Receiving(x: Worker) {
    x.phase == Idle || (x.phase.Working? && x.slot.funnel == H.InSync)
  }

  /** drain_center_messages returns or throws, instead of waiting for messages that are not there. */
  predicate Drainable(x: Worker, scores: int, notices: int) {
    scores - x.scoresIn <= x.scores && notices - x.noticesIn <= |x.notices|
  }

  /**
   * MPI_Ssend of the seed has returned. Until then rank 1 is marked RUNNING with a task on its way; every later task
   * leaves it marked ASSIGNED until it reports.
   */
  predicate SeedTaken(s: State) {
    s.workers == [] || s.workers[0].standing != IsRunning || forall m | m in s.workers[0].inbox :: !m.Task?
  }

  /** The barrier behind TERMINATION has opened: every worker has taken its notice. */
  predicate AllLeft(s: State) {
    forall x | x in s.workers :: x.phase == Leaving || x.phase == Done
  }

  predicate Enabled(s: State, a: Action) {
    match a
    case SendSeed(_) => s.center == Starting && |s.workers| >= 1
    case TakeReport(w) =>
      && s.center == Serving && SeedTaken(s) && w < |s.workers|
      && Head(s.workers[w].outbox) in {Some(Running), Some(Available)}
    case TakeTask(w) =>
      && s.center == Serving && SeedTaken(s) && w < |s.workers|
      && Head(s.workers[w].outbox).Some? && Head(s.workers[w].outbox).value.Task?
    case TakeAck(w) =>
      s.center == Serving && SeedTaken(s) && w < |s.workers| && Head(s.workers[w].outbox) == Some(Ack)
    case Dispatch(w, b) =>
      s.center == Serving && w < |s.workers| && s.workers[w].standing == IsAvailable && b in s.queue
    case BroadcastScore => s.center == Serving && SeedTaken(s)
    case BroadcastFullness(_) => s.center == Serving && SeedTaken(s)
    case ReceiveTask(w, _) =>
      && w < |s.workers| && s.workers[w].phase == Idle && H.Idle(s.workers[w].slot)
      && Head(s.workers[w].inbox).Some? && Head(s.workers[w].inbox).value.Task?
    case Local(w, step) =>
      && w < |s.workers| && s.workers[w].phase.Working? && s.workers[w].slot.funnel != H.Stopped
      && H.Enabled(s.workers[w].slot, step) && !step.ReceiveHelpers? && !step.ReceiveFullness?
    case ReceiveScore(w) => w < |s.workers| && Receiving(s.workers[w]) && s.workers[w].scores > 0
    case ReceiveNotice(w) => w < |s.workers| && Receiving(s.workers[w]) && s.workers[w].notices != []
    case FinishTask(w) => w < |s.workers| && s.workers[w].phase.Working? && s.workers[w].slot.funnel == H.Stopped
    case WorkerAck(w) => w < |s.workers| && s.workers[w].phase == Idle && Head(s.workers[w].inbox) == Some(Ack)
    case NotifyNext => s.center.Notifying? && s.center.next < |s.workers|
    case TakeTermination(w) =>
      && w < |s.workers| && s.workers[w].phase == Idle && Head(s.workers[w].inbox).Some?
      && var m := Head(s.workers[w].inbox).value; m.Termination? && Drainable(s.workers[w], m.scores, m.notices)
    case SendSolution(w, m) =>
      w < |s.workers| && AllLeft(s) && s.workers[w].phase == Leaving && (m.HasResult? || m.NoResult?)
    case CollectNext =>
      && s.center.Collecting? && AllLeft(s) && s.center.next < |s.workers|
      && s.workers[s.center.next].outbox != []
  }

  /* ---------- worker handlers ---------- */

  /** release_parent_if_passive */
  function Released(x: Worker): Worker {
    var (d, ack) := x.det.Passive();
    if ack.Some? then x.(det := d, outbox := x.outbox + [Ack]) else x
  }

  /** process_message up to the runnable's call */
  function Accepted(x: Worker, thread: nat): Worker
    requires H.Idle(x.slot) && x.inbox != [] && x.inbox[0].Task?
  {
    var (d, ack) := x.det.TaskReceived(CENTER);
    x.(det := d, phase := Working(x.inbox[0].bundle), slot := H.Started(x.slot, thread), inbox := x.inbox[1..],
       outbox := x.outbox + (if ack.Some? then [Ack] else []) + [Running])
  }

  /** send_task_to_center; h is the slot after the step */
  function Sent(x: Worker, b: Bundle, h: H.State): Worker {
    x.(det := x.det.TaskSent(), slot := h, outbox := x.outbox + [Task(b)])
  }

  /** the end of process_message */
  function Completed(x: Worker): Worker
    requires x.phase.Working?
  {
    Released(x.(phase := Idle, outbox := x.outbox + [Available], finished := x.finished + multiset{x.phase.task}))
  }

  function Acked(x: Worker): Worker
    requires x.inbox != []
  {
    Released(x.(det := x.det.AckReceived().0, inbox := x.inbox[1..]))
  }

  /** consume_center_is_full_tag or consume_center_is_free_tag */
  function Noticed(x: Worker): Worker
    requires x.notices != []
  {
    x.(notices := x.notices[1..], noticesIn := x.noticesIn + 1, slot := x.slot.(full := x.notices[0]))
  }

  function Scored(x: Worker): Worker
    requires x.scores > 0
  {
    x.(scores := x.scores - 1, scoresIn := x.scoresIn + 1)
  }

  /** The loops of drain_center_messages. */
  function ScoresDrained(x: Worker, count: int): Worker
    requires count - x.scoresIn <= x.scores
    decreases count - x.scoresIn
  {
    if x.scoresIn < count then ScoresDrained(Scored(x), count) else x
  }

  function NoticesDrained(x: Worker, count: int): Worker
    requires count - x.noticesIn <= |x.notices|
    decreases count - x.noticesIn
  {
    if x.noticesIn < count then NoticesDrained(Noticed(x), count) else x
  }

  lemma {:induction false} ScoresDrainedKeeps(x: Worker, count: int)
    requires count - x.scoresIn <= x.scores
    ensures var y := ScoresDrained(x, count); y == x.(scores := y.scores, scoresIn := y.scoresIn)
    ensures var y := ScoresDrained(x, count); y.scoresIn + y.scores == x.scoresIn + x.scores
    ensures x.scoresIn <= count ==> ScoresDrained(x, count).scoresIn == count
    decreases count - x.scoresIn
  {
    if x.scoresIn < count {
      ScoresDrainedKeeps(Scored(x), count);
    }
  }

  function Left(x: Worker, scores: int, notices: int): Worker
    requires Drainable(x, scores, notices) && x.inbox != []
  {
    ScoresDrainedKeeps(x, scores);
    NoticesDrained(ScoresDrained(x, scores), notices).(phase := Leaving, inbox := x.inbox[1..])
  }

  /* ---------- the center ---------- */

  /** The break of the center's loop, checked after every message. */
  function Checked(s: State): State {
    s.(center := if s.det.deficit == 0 && s.queue == multiset{} then Notifying(0) else Serving)
  }

  /** process_running or process_available */
  function Reported(s: State, w: nat): State
    requires w < |s.workers| && s.workers[w].outbox != []
  {
    var x := s.workers[w];
    var arrived := x.outbox[0] == Available;
    Checked(s.(workers := s.workers[w := x.(outbox := x.outbox[1..],
      standing := if arrived then IsAvailable else IsRunning)],
               available := s.available + if arrived then 1 else 0))
  }

  /** process_task_for_center */
  function Queued(s: State, w: nat): State
    requires w < |s.workers| && s.workers[w].outbox != [] && s.workers[w].outbox[0].Task?
  {
    var x := s.workers[w];
    var (d, ack) := s.det.TaskReceived(w + 1);
    Checked(s.(det := d, queue := s.queue + multiset{x.outbox[0].bundle},
               workers := s.workers[w := x.(outbox := x.outbox[1..],
                 inbox := x.inbox + if ack.Some? then [Ack] else [])]))
  }

  function CenterAcked(s: State, w: nat): State
    requires w < |s.workers| && s.workers[w].outbox != []
  {
    var x := s.workers[w];
    Checked(s.(det := s.det.AckReceived().0, workers := s.workers[w := x.(outbox := x.outbox[1..])]))
  }

  /** One iteration of dispatch_to_available, as clear_buffer uses it. */
  function Dispatched(s: State, w: nat, b: Bundle): State
    requires w < |s.workers| && b in s.queue
  {
    var x := s.workers[w];
    s.(det := s.det.TaskSent(), queue := s.queue - multiset{b}, available := s.available - 1,
       workers := s.workers[w := x.(inbox := x.inbox + [Task(b)], standing := IsAssigned)])
  }

  /** send_seed */
  function Seeded(s: State, b: Bundle): State
    requires |s.workers| >= 1
  {
    var x := s.workers[0];
    s.(center := Serving, det := s.det.TaskSent(), available := s.available - 1, seeds := s.seeds + multiset{b},
       workers := s.workers[0 := x.(inbox := x.inbox + [Task(b)], standing := IsRunning)])
  }

  function Notified(s: State): State
    requires s.center.Notifying? && s.center.next < |s.workers|
  {
    var w := s.center.next;
    var x := s.workers[w];
    s.(workers := s.workers[w := x.(inbox := x.inbox + [Termination(s.scoresSent, s.noticesSent)])],
       center := if w + 1 < |s.workers| then Notifying(w + 1) else Collecting(0))
  }

  /** The guard of process_termination. */
  predicate Unfinished(x: Worker) {
    !x.det.Quiescent() || x.slot.queue != [] || x.slot.transmitting
  }

  function With(s: State, w: nat, x: Worker): State
    requires w < |s.workers|
  {
    s.(workers := s.workers[w := x])
  }

  function Step(s: State, a: Action): Outcome<State>
    requires Enabled(s, a)
  {
    match a
    case SendSeed(b) => Next(Seeded(s, b))
    case TakeReport(w) => Next(Reported(s, w))
    case TakeTask(w) => Next(Queued(s, w))
    case TakeAck(w) =>
      if s.det.AckReceived().1 then Next(CenterAcked(s, w)) else Throws("unexpected task acknowledgement")
    case Dispatch(w, b) => Next(Dispatched(s, w, b))
    case BroadcastScore =>
      Next(s.(scoresSent := s.scoresSent + 1,
              workers := seq(|s.workers|,
                i requires 0 <= i < |s.workers| => s.workers[i].(scores := s.workers[i].scores + 1))))
    case BroadcastFullness(f) =>
      Next(s.(noticesSent := s.noticesSent + 1,
              workers := seq(|s.workers|,
                i requires 0 <= i < |s.workers| => s.workers[i].(notices := s.workers[i].notices + [f]))))
    case ReceiveTask(w, thread) => Next(With(s, w, Accepted(s.workers[w], thread)))
    case Local(w, step) =>
      (match H.Step(s.workers[w].slot, step)
       case Throws(reason) => Throws(reason)
       case Next(h) =>
         var x := s.workers[w];
         Next(With(s, w, if step.Send? then Sent(x, x.slot.funnel.bundle, h) else x.(slot := h))))
    case ReceiveScore(w) => Next(With(s, w, Scored(s.workers[w])))
    case ReceiveNotice(w) => Next(With(s, w, Noticed(s.workers[w])))
    case FinishTask(w) => Next(With(s, w, Completed(s.workers[w])))
    case WorkerAck(w) =>
      if s.workers[w].det.AckReceived().1 then Next(With(s, w, Acked(s.workers[w])))
      else Throws("unexpected task acknowledgement")
    case NotifyNext => Next(Notified(s))
    case TakeTermination(w) =>
      var x, m := s.workers[w], s.workers[w].inbox[0];
      if Unfinished(x) then Throws("received termination with work in progress")
      else if m.scores < x.scoresIn || m.notices < x.noticesIn then
        Throws("received more center messages than the center sent")
      else Next(With(s, w, Left(x, m.scores, m.notices)))
    case SendSolution(w, m) => Next(With(s, w, s.workers[w].(phase := Done, outbox := s.workers[w].outbox + [m])))
    case CollectNext =>
      var r := s.center.next;
      var m, s1 := s.workers[r].outbox[0], With(s, r, s.workers[r].(outbox := s.workers[r].outbox[1..]));
      if m.Running? || m.Available? then Next(s1)
      else if m.HasResult? || m.NoResult? then
        Next(s1.(center := if r + 1 < |s.workers| then Collecting(r + 1) else Finished))
      else Throws("received unknown tag in receive_solution()")
  }

  function FreshWorker(): Worker {
    Worker(Detector(false, 0, NO_PARENT), Idle, H.Fresh(H.ToCenter), [], [], [], 0, 0, 0, IsAvailable, multiset{})
  }

  function Init(n: nat): State {
    State(Starting, Detector(true, 0, NO_PARENT), multiset{}, n, 0, 0, seq(n, _ => FreshWorker()), multiset{})
  }
}

/**
 * The run protocol of the semi-centralized scheduler
 * (private/impl/schedulers/mpi_semi_centralized_scheduler.hpp, run of worker and center).
 *
 * Rank 0 is the center, ranks 1 .. n - 1 are workers. Links are FIFO per ordered pair of ranks.
 * A worker's funnel and pool threads are the steps of module Handoff.
 */
module SemiProtocol {
  import opened Common
  import opened TerminationDetection
  import H = Handoff

  datatype Message =
    | Task(bundle: Bundle)
    | Ack                                    // TASK_RECEIVED
    | Running
    | Available
    | Termination(scoreUpdates: int, nextProcesses: int)
    | HasResult(packet: Packet, score: int)
    | NoResult

  type Net = map<(int, int), seq<Message>>
  type Ledger = map<(int, int), seq<Bundle>>

  /** What the main thread of a worker is doing. */
  datatype Phase = Idle | Working | Leaving | Done

  datatype CenterPhase =
    | Starting                // the seed is not sent yet
    | Serving
    | Notifying(next: nat)    // notify_termination
    | Collecting(next: nat)   // receive_solution
    | Finished

  datatype State = State(
    n: nat,
    det: seq<Detector>,
    phase: seq<Phase>,
    slot: seq<H.State>,
    net: Net,
    center: CenterPhase,
    seeds: seq<Bundle>,       // history: what the center sent to rank 1
    received: Ledger          // history: the tasks received over each link, in order
  )

  datatype Action =
    | SendSeed(seed: Bundle)
    | ReceiveTask(src: nat, w: nat, thread: nat)
    | Local(w: nat, step: H.Action)
    | FinishTask(w: nat)
    | WorkerAck(src: nat, w: nat)
    | CenterReport(w: nat)
    | CenterAck(w: nat)
    | Notify(scoreUpdates: int, nextProcesses: int)
    | ReceiveTermination(w: nat)
    | SendSolution(w: nat, solution: Message)
    | Collect

  function Link(net: Net, p: int, q: int): seq<Message> {
    if (p, q) in net then net[(p, q)] else []
  }

  function Put(net: Net, p: int, q: int, m: Message): Net {
    net[(p, q) := Link(net, p, q) + [m]]
  }

  function Drop(net: Net, p: int, q: int): Net
    requires Link(net, p, q) != []
  {
    net[(p, q) := Link(net, p, q)[1..]]
  }

  function Entries(l: Ledger, p: int, q: int): seq<Bundle> {
    if (p, q) in l then l[(p, q)] else []
  }

  /** The message a probe for (source, destination) finds. */
  function First(s: State, p: int, q: int): Option<Message> {
    if Link(s.net, p, q) == [] then None else Some(Link(s.net, p, q)[0])
  }

  predicate Worker(s: State, w: nat) {
    1 <= w < s.n && |s.det| == |s.phase| == |s.slot| == s.n
  }

  /** MPI_Ssend of the seed has returned; while the center serves it sends nothing else to rank 1 on this link. */
  predicate SeedTaken(s: State) {
    Link(s.net, 0, 1) == []
  }

  /** The barrier behind TERMINATION has opened: every worker has taken its notice, so the center has sent them all. */
  predicate AllLeft(s: State) {
    |s.phase| == s.n && forall w | 1 <= w < s.n :: s.phase[w] == Leaving || s.phase[w] == Done
  }

  predicate Enabled(s: State, a: Action) {
    match a
    case SendSeed(_) => s.center == Starting && |s.det| == s.n >= 2
    case ReceiveTask(src, w, _) =>
      src < s.n && Worker(s, w) && s.phase[w] == Idle && H.Idle(s.slot[w])
        && First(s, src, w).Some? && First(s, src, w).value.Task?
    case Local(w, step) =>
      && Worker(s, w) && H.Enabled(s.slot[w], step)
      && (if s.slot[w].funnel == H.Stopped then s.phase[w] == Idle && step.ReceiveHelpers?
          else s.phase[w] == Working)
      && !step.ReceiveFullness?
    case FinishTask(w) => Worker(s, w) && s.phase[w] == Working && s.slot[w].funnel == H.Stopped
    case WorkerAck(src, w) => src < s.n && Worker(s, w) && s.phase[w] == Idle && First(s, src, w) == Some(Ack)
    case CenterReport(w) =>
      s.center == Serving && SeedTaken(s) && Worker(s, w) && First(s, w, 0) in {Some(Running), Some(Available)}
    case CenterAck(w) => s.center == Serving && SeedTaken(s) && Worker(s, w) && First(s, w, 0) == Some(Ack)
    case Notify(_, _) => s.center.Notifying? && s.center.next < s.n
    case ReceiveTermination(w) =>
      Worker(s, w) && s.phase[w] == Idle && First(s, 0, w).Some? && First(s, 0, w).value.Termination?
    case SendSolution(w, solution) =>
      Worker(s, w) && AllLeft(s) && s.phase[w] == Leaving && (solution.HasResult? || solution.NoResult?)
    case Collect =>
      s.center.Collecting? && AllLeft(s) && s.center.next < s.n && Link(s.net, s.center.next, 0) != []
  }

  /** release_parent_if_passive */
  function ReleaseParent(s: State, w: nat): State
    requires w < |s.det|
  {
    var (d, ack) := s.det[w].Passive();
    if ack.Some? then s.(det := s.det[w := d], net := Put(s.net, w, ack.value, Ack)) else s
  }

  /** send_seed */
  function SeedSent(s: State, b: Bundle): State
    requires |s.det| > 0
  {
    s.(det := s.det[0 := s.det[0].TaskSent()], net := Put(s.net, 0, 1, Task(b)),
       center := Serving, seeds := s.seeds + [b])
  }

  /** process_message up to the runnable's call */
  function TaskAccepted(s: State, src: nat, w: nat, thread: nat): State
    requires Worker(s, w) && H.Idle(s.slot[w]) && First(s, src, w).Some? && First(s, src, w).value.Task?
  {
    var b := First(s, src, w).value.bundle;
    var (d, ack) := s.det[w].TaskReceived(src);
    var net := Drop(s.net, src, w);
    var acked := if ack.Some? then Put(net, w, ack.value, Ack) else net;
    s.(det := s.det[w := d], phase := s.phase[w := Working],
       slot := s.slot[w := H.Started(s.slot[w], thread)], net := Put(acked, w, 0, Running),
       received := s.received[(src, w) := Entries(s.received, src, w) + [b]])
  }

  /** send_task, seen from the protocol: h is the slot after the step */
  function TaskSent(s: State, w: nat, to: int, b: Bundle, h: H.State): State
    requires Worker(s, w)
  {
    s.(det := s.det[w := s.det[w].TaskSent()], slot := s.slot[w := h], net := Put(s.net, w, to, Task(b)))
  }

  /** the end of process_message */
  function TaskFinished(s: State, w: nat): State
    requires Worker(s, w)
  {
    ReleaseParent(s.(phase := s.phase[w := Idle], net := Put(s.net, w, 0, Available)), w)
  }

  /** the TASK_RECEIVED case of the worker's loop, once the acknowledgement is known to be expected */
  function AckTaken(s: State, src: nat, w: nat): State
    requires Worker(s, w) && First(s, src, w) == Some(Ack)
  {
    ReleaseParent(s.(det := s.det[w := s.det[w].AckReceived().0], net := Drop(s.net, src, w)), w)
  }

  /** the TASK_RECEIVED case of the center's loop */
  function CenterAckTaken(s: State, w: nat): State
    requires |s.det| > 0 && First(s, w, 0) == Some(Ack)
  {
    var d := s.det[0].AckReceived().0;
    s.(det := s.det[0 := d], net := Drop(s.net, w, 0), center := if d.deficit == 0 then Notifying(1) else Serving)
  }

  /** one iteration of notify_termination */
  function Notified(s: State, c: int, p: int): State
    requires s.center.Notifying?
  {
    var w := s.center.next;
    s.(net := Put(s.net, 0, w, Termination(c, p)),
       center := if w + 1 < s.n then Notifying(w + 1) else Collecting(1))
  }

  /** one message taken by receive_solution_from; last says that it was the rank's solution */
  function Collected(s: State, last: bool): State
    requires s.center.Collecting? && Link(s.net, s.center.next, 0) != []
  {
    var r := s.center.next;
    s.(net := Drop(s.net, r, 0),
       center := if !last then s.center else if r + 1 < s.n then Collecting(r + 1) else Finished)
  }

  /** The guard of process_termination. */
  predicate Unfinished(s: State, w: nat)
    requires Worker(s, w)
  {
    !s.det[w].Quiescent() || s.slot[w].queue != [] || s.slot[w].transmitting
  }

  function Step(s: State, a: Action): Outcome<State>
    requires Enabled(s, a)
  {
    match a
    case SendSeed(b) => Next(SeedSent(s, b))
    case ReceiveTask(src, w, thread) => Next(TaskAccepted(s, src, w, thread))
    case Local(w, step) =>
      (match H.Step(s.slot[w], step)
       case Throws(reason) => Throws(reason)
       case Next(h) =>
         if step.Send? then Next(TaskSent(s, w, s.slot[w].destination, s.slot[w].funnel.bundle, h))
         else Next(s.(slot := s.slot[w := h])))
    case FinishTask(w) => Next(TaskFinished(s, w))
    case WorkerAck(src, w) =>
      if s.det[w].AckReceived().1 then Next(AckTaken(s, src, w)) else Throws("unexpected task acknowledgement")
    case CenterReport(w) => Next(s.(net := Drop(s.net, w, 0)))
    case CenterAck(w) =>
      if s.det[0].AckReceived().1 then Next(CenterAckTaken(s, w)) else Throws("unexpected task acknowledgement")
    case Notify(c, p) => Next(Notified(s, c, p))
    case ReceiveTermination(w) =>
      if Unfinished(s, w) then Throws("received termination with work in progress")
      else Next(s.(phase := s.phase[w := Leaving], net := Drop(s.net, 0, w)))
    case SendSolution(w, solution) =>
      Next(s.(phase := s.phase[w := Done], net := Put(s.net, w, 0, solution)))
    case Collect =>
      (match First(s, s.center.next, 0).value
       case Running => Next(Collected(s, false))
       case Available => Next(Collected(s, false))
       case HasResult(_, _) => Next(Collected(s, true))
       case NoResult => Next(Collected(s, true))
       case _ => Throws("received unknown tag in receive_solution()"))
  }

  function Init(n: nat): State {
    State(n, seq(n, i => Detector(i == 0, 0, NO_PARENT)), seq(n, _ => Idle),
          seq(n, i requires 0 <= i < n => H.Fresh(H.ToHelper(n, i))), map[], Starting, [], map[])
  }
}

/**
 * The single-slot hand-off of one worker: pool threads push bundles through the guarded slot,
 * the funnel thread (the only one that calls MPI) pops and sends them
 * (task_funneling, try_open_transmission_channel and force_push of both schedulers).
 *
 * Every access to the mutex, the transmitting flag, the queue and the pool counter is its own
 * step, so a run of this model is an interleaving of any number of pool threads with the funnel.
 */
module Handoff {
  import opened Common

  /** Where pushed bundles go: the helper named by the coordinator, or the center itself. */
  datatype Policy = ToHelper(worldSize: nat, self: nat) | ToCenter

  datatype Holder = Free | ByFunnel | ByPool(thread: nat)

  /** A pool thread with respect to the slot. */
  datatype PoolPc =
    | Outside
    | Opened                   // owns the guard returned by try_open_transmission_channel
    | Marked(bundle: Bundle)   // force_push has set the transmitting flag, the bundle is not queued yet
    | Queued                   // force_push returned, the guard is still held

  datatype FunnelPc =
    | Entry                    // about to make the first pop
    | Holding(bundle: Bundle)  // popped a bundle, wants the mutex
    | Sending(bundle: Bundle)  // owns the mutex, about to send
    | Sent                     // owns the mutex, about to check that the queue is empty
    | WantSync                 // wants the mutex to receive center messages
    | InSync                   // owns the mutex
    | WantPop
    | WantDone                 // popped nothing, about to ask the pool whether it is done
    | LastPop                  // the pool was done, one more pop
    | Closing                  // left the loop
    | Stopped                  // returned (or never started)

  datatype Parcel = Parcel(destination: int, bundle: Bundle)

  datatype State = State(
    policy: Policy,
    pool: map<nat, PoolPc>,    // the pool's unfinished tasks
    holder: Holder,            // m_mutex
    transmitting: bool,
    queue: seq<Bundle>,
    destination: int,          // m_destination_rank
    nexts: seq<int>,           // m_next_processes
    next: int,                 // m_next_process
    full: bool,                // m_is_center_full
    funnel: FunnelPc,
    pushed: seq<Parcel>,       // history: every bundle passed to force_push
    sent: seq<Parcel>          // history: every bundle sent
  )

  datatype Action =
    | Spawn(spawner: nat, spawned: nat)
    | Finish(thread: nat)
    | TryOpen(thread: nat)
    | Mark(thread: nat, bundle: Bundle)
    | Enqueue(thread: nat)
    | Release(thread: nat)
    | FirstPop
    | LockToSend
    | Send
    | PopAgain
    | LockToSync
    | ReceiveHelpers(helpers: seq<int>)
    | ReceiveFullness(isFull: bool)
    | Refresh
    | Pop
    | AskDone
    | PopLast
    | Return

  /** A rank this worker may send a task to. */
  predicate Helper(p: Policy, rank: int) {
    p.ToHelper? && 1 <= rank < p.worldSize && rank != p.self
  }

  predicate ChannelOpen(s: State) {
    !s.transmitting && (match s.policy case ToHelper(_, _) => s.next > 0 case ToCenter => !s.full)
  }

  /** Index of the first -1, or the length. */
  function FirstGap(v: seq<int>): (k: nat)
    ensures k <= |v|
    ensures forall i | 0 <= i < k :: v[i] != -1
    ensures k < |v| ==> v[k] == -1
  {
    if |v| == 0 || v[0] == -1 then 0 else 1 + FirstGap(v[1..])
  }

  /** What shift_left leaves: every entry up to the first -1 takes its right neighbour's value, the last one -1. */
  function ShiftedLeft(v: seq<int>): (r: seq<int>)
    ensures |r| == |v|
  {
    if |v| < 2 then v
    else seq(|v|, i requires 0 <= i < |v| => if i >= FirstGap(v) then v[i] else if i + 1 < |v| then v[i + 1] else -1)
  }

  /** The loop of shift_left; an empty vector is the one case it throws on. */
  method ShiftLeft(v: array<int>) returns (thrown: bool)
    modifies v
    ensures thrown == (v.Length == 0)
    ensures v[..] == ShiftedLeft(old(v[..]))
  {
    hide FirstGap;
    if v.Length == 0 {
      return true;
    }
    ghost var was, gap := v[..], FirstGap(v[..]);
    var i := 0;
    while i < v.Length - 1
      invariant 0 <= i <= v.Length - 1 && i <= gap
      invariant forall k | 0 <= k < i :: v[k] == was[k + 1]
      invariant forall k | i <= k < v.Length - 1 :: v[k] == was[k]
      invariant v[v.Length - 1] == if 0 < i == v.Length - 1 && gap == v.Length then -1 else was[v.Length - 1]
    {
      if v[i] == -1 {
        break;
      }
      v[i] := v[i + 1];
      if i == v.Length - 2 && v[i] != -1 {
        v[i + 1] := -1;
      }
      i := i + 1;
    }
    return false;
  }

  /** The helper list is what stands before the first -1, and shift_left drops its head. */
  lemma {:induction false} ShiftDropsHead(v: seq<int>)
    requires |v| >= 2 && v[0] != -1
    ensures FirstGap(ShiftedLeft(v)) == FirstGap(v) - 1
    ensures ShiftedLeft(v)[..FirstGap(v) - 1] == v[1..FirstGap(v)]
  {
    var k, r := FirstGap(v), ShiftedLeft(v);
    assert r[k - 1] == -1 && forall i | 0 <= i < k - 1 :: r[i] != -1;
  }

  /* ---------- steps ---------- */

  predicate Enabled(s: State, a: Action) {
    match a
    case Spawn(i, j) => i in s.pool && j !in s.pool
    case Finish(i) => i in s.pool && s.pool[i] == Outside
    case TryOpen(i) => i in s.pool && s.pool[i] == Outside && s.holder == Free && ChannelOpen(s)
    case Mark(i, _) => i in s.pool && s.pool[i] == Opened
    case Enqueue(i) => i in s.pool && s.pool[i].Marked?
    case Release(i) => i in s.pool && (s.pool[i] == Opened || s.pool[i] == Queued)
    case FirstPop => s.funnel == Entry
    case LockToSend => s.funnel.Holding? && s.holder == Free
    case Send => s.funnel.Sending?
    case PopAgain => s.funnel == Sent
    case LockToSync => s.funnel == WantSync && s.holder == Free
    case ReceiveHelpers(v) =>
      && (s.funnel == InSync || s.funnel == Stopped)
      && s.policy.ToHelper? && |v| <= |s.nexts| && (forall x | x in v :: Helper(s.policy, x))
    case ReceiveFullness(_) => (s.funnel == InSync || s.funnel == Stopped) && s.policy.ToCenter?
    case Refresh => s.funnel == InSync
    case Pop => s.funnel == WantPop
    case AskDone => s.funnel == WantDone
    case PopLast => s.funnel == LastPop
    case Return => s.funnel == Closing
  }

  /** queue.pop followed by the branch on its result */
  function AfterPop(s: State, otherwise: FunnelPc): State {
    if s.queue == [] then s.(funnel := otherwise)
    else s.(queue := s.queue[1..], funnel := Holding(s.queue[0]))
  }

  /** receive_next_process overwrites the front of the helper buffer. */
  function HelpersReceived(s: State, v: seq<int>): State
    requires |v| <= |s.nexts|
  {
    s.(nexts := v + s.nexts[|v|..])
  }

  function Step(s: State, a: Action): Outcome<State>
    requires Enabled(s, a)
  {
    match a
    case Spawn(i, j) => Next(s.(pool := s.pool[j := Outside]))
    case Finish(i) => Next(s.(pool := s.pool - {i}))
    case TryOpen(i) => Next(s.(pool := s.pool[i := Opened], holder := ByPool(i)))
    case Mark(i, b) =>
      var to := if s.policy.ToHelper? then s.next else 0;
      Next(s.(pool := s.pool[i := Marked(b)], transmitting := true, destination := to,
              nexts := ShiftedLeft(s.nexts), pushed := s.pushed + [Parcel(to, b)]))
    case Enqueue(i) =>
      if s.queue != [] then Throws("q is not empty")
      else Next(s.(pool := s.pool[i := Queued], queue := s.queue + [s.pool[i].bundle]))
    case Release(i) => Next(s.(pool := s.pool[i := Outside], holder := Free))
    case FirstPop => Next(AfterPop(s, WantSync))
    case LockToSend => Next(s.(funnel := Sending(s.funnel.bundle), holder := ByFunnel))
    case Send =>
      if s.policy.ToHelper? && s.destination <= 0 then Throws("could not send task to rank")
      else if s.policy.ToHelper? && s.destination == s.policy.self then Throws("attempting to send to itself")
      else Next(s.(funnel := Sent, destination := -1, sent := s.sent + [Parcel(s.destination, s.funnel.bundle)]))
    case PopAgain =>
      if s.queue == [] then Next(s.(funnel := WantSync, transmitting := false, holder := Free))
      else Throws("Task found in queue")
    case LockToSync => Next(s.(funnel := InSync, holder := ByFunnel))
    case ReceiveHelpers(v) => Next(HelpersReceived(s, v))
    case ReceiveFullness(f) => Next(s.(full := f))
    case Refresh =>
      Next(s.(funnel := WantPop, holder := Free, next := if s.nexts == [] then s.next else s.nexts[0]))
    case Pop => Next(AfterPop(s, WantDone))
    case AskDone => Next(s.(funnel := if s.pool == map[] then LastPop else WantSync))
    case PopLast => Next(AfterPop(s, Closing))
    case Return =>
      if s.queue != [] then Throws("leaving process with a pending message") else Next(s.(funnel := Stopped))
  }

  /** A worker before its first task. */
  function Fresh(policy: Policy): State {
    State(policy, map[], Free, false, [], -1,
          if policy.ToHelper? then seq(policy.worldSize, _ => -1) else [], -1, false, Stopped, [], [])
  }

  predicate Idle(s: State) {
    s.funnel == Stopped && s.pool == map[] && s.queue == [] && !s.transmitting
  }

  /** The received task is submitted to the pool and task_funneling is entered. */
  function Started(s: State, thread: nat): State
    requires Idle(s)
  {
    s.(pool := map[thread := Outside], funnel := Entry)
  }

  /* ---------- what every interleaving keeps ---------- */

  predicate MarkedBy(s: State, i: nat) {
    s.holder == ByPool(i) && i in s.pool && s.pool[i].Marked?
  }

  /** What has been passed to force_push and is not sent yet. */
  ghost function Pending(s: State): seq<Parcel> {
    if s.funnel.Holding? || s.funnel.Sending? then [Parcel(s.destination, s.funnel.bundle)]
    else if s.queue != [] then [Parcel(s.destination, s.queue[0])]
    else if s.holder.ByPool? && MarkedBy(s, s.holder.thread) then
      [Parcel(s.destination, s.pool[s.holder.thread].bundle)]
    else []
  }

  /** Exactly one token travels: marked by a pool thread, queued, held by the funnel, or just sent. */
  ghost predicate OneToken(s: State) {
    var marked := s.holder.ByPool? && MarkedBy(s, s.holder.thread);
    var held := s.funnel.Holding? || s.funnel.Sending?;
    && |s.queue| <= 1
    && s.transmitting == (marked || s.queue != [] || held || s.funnel == Sent)
    && (marked ==> s.queue == [] && !held && s.funnel != Sent)
    && (s.queue != [] ==> !held && s.funnel != Sent)
  }

  ghost predicate MutexConsistent(s: State) {
    && (s.holder == ByFunnel <==> s.funnel.Sending? || s.funnel == Sent || s.funnel == InSync)
    && (s.holder.ByPool? ==> s.holder.thread in s.pool && s.pool[s.holder.thread] != Outside)
    && (forall i | i in s.pool && s.pool[i] != Outside :: s.holder == ByPool(i))
    && (forall i | i in s.pool && s.pool[i] == Opened :: ChannelOpen(s))
  }

  ghost predicate HelpersValid(s: State) {
    s.policy.ToHelper? ==>
      && s.policy.worldSize >= 2 && |s.nexts| == s.policy.worldSize
      && (forall x | x in s.nexts :: x == -1 || Helper(s.policy, x))
      && (s.next > 0 ==> Helper(s.policy, s.next))
      && (Pending(s) != [] ==> Helper(s.policy, s.destination))
  }

  ghost predicate Inv(s: State) {
    && MutexConsistent(s)
    && OneToken(s)
    && HelpersValid(s)
    && s.pushed == s.sent + Pending(s)
    && (Pending(s) == [] ==> s.destination == -1)
    && (s.policy.ToCenter? ==> s.nexts == [])
    && (s.funnel in {LastPop, Closing, Stopped} ==> s.pool == map[])
    && (s.funnel in {Closing, Stopped} ==> s.queue == [] && !s.transmitting)
  }

  lemma FreshInv(policy: Policy)
    requires policy.ToHelper? ==> policy.worldSize >= 2
    ensures Inv(Fresh(policy)) && Idle(Fresh(policy))
  {
  }

  lemma StartedInv(s: State, thread: nat)
    requires Inv(s) && Idle(s)
    ensures Inv(Started(s, thread))
  {
  }

  lemma ShiftKeepsHelpers(p: Policy, v: seq<int>)
    requires forall x | x in v :: x == -1 || Helper(p, x)
    ensures forall x | x in ShiftedLeft(v) :: x == -1 || Helper(p, x)
  {
    var r := ShiftedLeft(v);
    forall x | x in r ensures x == -1 || Helper(p, x) {
      var i :| 0 <= i < |r| && r[i] == x;
      assert x == -1 || x == v[i] || x == v[i + 1];
    }
  }

  predicate PoolAction(a: Action) {
    a.Spawn? || a.Finish? || a.TryOpen? || a.Mark? || a.Enqueue? || a.Release?
  }

  lemma MarkSafe(s: State, a: Action)
    requires Inv(s) && Enabled(s, a) && a.Mark?
    ensures Step(s, a).Next? && Inv(Step(s, a).state)
  {
    hide ShiftedLeft;
    ShiftKeepsHelpers(s.policy, s.nexts);
  }

  lemma EnqueueSafe(s: State, a: Action)
    requires Inv(s) && Enabled(s, a) && (a.Enqueue? || a.Release?)
    ensures Step(s, a).Next? && Inv(Step(s, a).state)
  {
    hide ShiftedLeft;
  }

  lemma PoolStepSafe(s: State, a: Action)
    requires Inv(s) && Enabled(s, a) && PoolAction(a)
    ensures Step(s, a).Next? && Inv(Step(s, a).state)
  {
    hide ShiftedLeft;
    if a.Mark? {
      MarkSafe(s, a);
    } else if a.Enqueue? || a.Release? {
      EnqueueSafe(s, a);
    }
  }

  predicate PopAction(a: Action) {
    a.FirstPop? || a.Pop? || a.PopLast?
  }

  lemma AfterPopInv(s: State, otherwise: FunnelPc)
    requires Inv(s)
    requires (s.funnel, otherwise) in {(Entry, WantSync), (WantPop, WantDone), (LastPop, Closing)}
    ensures Inv(AfterPop(s, otherwise))
  {
  }

  lemma PopSafe(s: State, a: Action)
    requires Inv(s) && Enabled(s, a) && PopAction(a)
    ensures Step(s, a).Next? && Inv(Step(s, a).state)
  {
    hide Inv, AfterPop;
    AfterPopInv(s, match a case FirstPop => WantSync case Pop => WantDone case _ => Closing);
  }

  predicate SendAction(a: Action) {
    a.LockToSend? || a.Send? || a.PopAgain?
  }

  lemma SendSafe(s: State, a: Action)
    requires Inv(s) && Enabled(s, a) && SendAction(a)
    ensures Step(s, a).Next? && Inv(Step(s, a).state)
  {
  }

  lemma ReceiveHelpersSafe(s: State, a: Action)
    requires Inv(s) && Enabled(s, a) && a.ReceiveHelpers?
    ensures Step(s, a).Next? && Inv(Step(s, a).state)
  {
    var v := a.helpers + s.nexts[|a.helpers|..];
    assert forall x | x in v :: x in a.helpers || x in s.nexts;
  }

  lemma ClosingSafe(s: State, a: Action)
    requires Inv(s) && Enabled(s, a) && (a.AskDone? || a.Return?)
    ensures Step(s, a).Next? && Inv(Step(s, a).state)
  {
  }

  lemma RefreshSafe(s: State, a: Action)
    requires Inv(s) && Enabled(s, a) && (a.LockToSync? || a.ReceiveFullness? || a.Refresh?)
    ensures Step(s, a).Next? && Inv(Step(s, a).state)
  {
  }

  lemma SyncSafe(s: State, a: Action)
    requires Inv(s) && Enabled(s, a) && !PoolAction(a) && !PopAction(a) && !SendAction(a)
    ensures Step(s, a).Next? && Inv(Step(s, a).state)
  {
    hide Inv;
    if a.ReceiveHelpers? {
      ReceiveHelpersSafe(s, a);
    } else if a.AskDone? || a.Return? {
      ClosingSafe(s, a);
    } else {
      RefreshSafe(s, a);
    }
  }

  /** No step throws, and every step keeps the invariant. */
  lemma StepSafe(s: State, a: Action)
    requires Inv(s) && Enabled(s, a)
    ensures Step(s, a).Next? && Inv(Step(s, a).state)
    ensures Step(s, a).state.policy == s.policy
    ensures Idle(s) && a.ReceiveHelpers? ==> Idle(Step(s, a).state)
  {
    if PoolAction(a) {
      PoolStepSafe(s, a);
    } else if PopAction(a) {
      PopSafe(s, a);
    } else if SendAction(a) {
      SendSafe(s, a);
    } else {
      SyncSafe(s, a);
    }
  }

  lemma StoppedIsIdle(s: State)
    requires Inv(s) && s.funnel == Stopped
    ensures Idle(s) && s.sent == s.pushed
  {
  }

  lemma PoolKeepsFunnelOpen(s: State)
    requires Inv(s) && s.pool != map[]
    ensures s.funnel !in {Closing, Stopped}
  {
  }

  /** How a step can bring the funnel to its last two points. */
  lemma FunnelMoves(s: State, a: Action)
    requires Enabled(s, a) && Step(s, a).Next?
    ensures PoolAction(a) ==> Step(s, a).state.funnel == s.funnel
    ensures Step(s, a).state.funnel == Closing && s.funnel != Closing ==> s.funnel == LastPop
    ensures Step(s, a).state.funnel == Stopped && s.funnel != Stopped ==> a == Return && s.funnel == Closing
    ensures s.funnel == Closing && !PoolAction(a) ==> a == Return && Step(s, a).state.funnel == Stopped
  {
  }

  lemma SendsToHelper(s: State)
    requires Inv(s) && s.funnel.Sending? && s.policy.ToHelper?
    ensures Helper(s.policy, s.destination)
  {
  }

  /**
   * A thread that pushes found the channel open, and it still is: nothing is on its way, and the worker has a helper
   * other than itself, or does not take the center to be full.
   */
  lemma PushAllowed(s: State, i: nat, b: Bundle)
    requires Inv(s) && Enabled(s, Mark(i, b))
    ensures !s.transmitting && s.queue == []
    ensures if s.policy.ToHelper? then 1 <= s.next < s.policy.worldSize && s.next != s.policy.self else !s.full
  {
    assert s.pool[i] == Opened;
  }

  /* ---------- whole runs ---------- */

  /** The state after a run, when every action was enabled in turn; None when one was not. */
  function Run(s: State, actions: seq<Action>): Option<Outcome<State>>
    decreases |actions|
  {
    if actions == [] then Some(Next(s))
    else if !Enabled(s, actions[0]) then None
    else match Step(s, actions[0])
      case Next(s') => Run(s', actions[1..])
      case Throws(reason) => Some(Throws(reason))
  }

  /**
   * Every interleaving of a task's pool threads with the funnel: nothing throws, what has been sent is
   * a prefix of what was pushed with at most one bundle outstanding, and once task_funneling has
   * returned the pool is idle, the slot is empty, the flag is down and everything pushed was sent in order.
   */
  lemma {:induction false} HandoffDelivers(s: State, actions: seq<Action>)
    requires Inv(s) && Run(s, actions).Some?
    ensures var r := Run(s, actions).value;
            && r.Next? && Inv(r.state)
            && r.state.sent <= r.state.pushed && |r.state.pushed| <= |r.state.sent| + 1
            && (r.state.funnel == Stopped ==> Idle(r.state) && r.state.sent == r.state.pushed)
            && (r.state.sent == r.state.pushed ==> r.state.destination == -1)
    decreases |actions|
  {
    if actions != [] {
      StepSafe(s, actions[0]);
      HandoffDelivers(Step(s, actions[0]).state, actions[1..]);
    }
  }

  /** The threads left at the end of a run: those that were spawned and have not finished. */
  function Threads(before: set<nat>, actions: seq<Action>): set<nat> {
    if actions == [] then before
    else match actions[|actions| - 1]
      case Spawn(_, spawned) => Threads(before, actions[..|actions| - 1]) + {spawned}
      case Finish(thread) => Threads(before, actions[..|actions| - 1]) - {thread}
      case _ => Threads(before, actions[..|actions| - 1])
  }

  lemma {:induction false} ThreadsNext(before: set<nat>, a: Action, actions: seq<Action>)
    ensures Threads(before, [a] + actions) == Threads(Threads(before, [a]), actions)
  {
    if actions != [] {
      var l := |actions| - 1;
      assert ([a] + actions)[..l + 1] == [a] + actions[..l];
      ThreadsNext(before, a, actions[..l]);
    } else {
      assert [a] + actions == [a];
    }
  }

  lemma ThreadsStep(s: State, a: Action)
    requires Inv(s) && Enabled(s, a) && Step(s, a).Next?
    ensures Step(s, a).state.pool.Keys == Threads(s.pool.Keys, [a])
  {
    hide Inv, Pending, ShiftedLeft, ChannelOpen;
    assert Threads(s.pool.Keys, [a][..0]) == s.pool.Keys;
  }

  /** The pool's unfinished tasks after any run. */
  lemma {:induction false} ThreadsAre(s: State, actions: seq<Action>)
    requires Inv(s) && Run(s, actions).Some?
    ensures Run(s, actions).value.Next? && Run(s, actions).value.state.pool.Keys == Threads(s.pool.Keys, actions)
    decreases |actions|
  {
    hide Inv, Step, Enabled;
    if actions != [] {
      StepSafe(s, actions[0]);
      ThreadsStep(s, actions[0]);
      ThreadsAre(Step(s, actions[0]).state, actions[1..]);
      ThreadsNext(s.pool.Keys, actions[0], actions[1..]);
      assert actions == [actions[0]] + actions[1..];
    }
  }

  /** So of a task: the thread it was handed to, and those spawned since, as far as they have not finished. */
  lemma TaskThreads(s: State, thread: nat, actions: seq<Action>)
    requires Inv(s) && Idle(s) && Run(Started(s, thread), actions).Some?
    ensures Run(Started(s, thread), actions).value.Next?
    ensures Run(Started(s, thread), actions).value.state.pool.Keys == Threads({thread}, actions)
  {
    hide Run, Threads, Inv;
    StartedInv(s, thread);
    assert Started(s, thread).pool.Keys == {thread};
    ThreadsAre(Started(s, thread), actions);
  }

  /** The last notice of a run. */
  function LastNotice(before: bool, actions: seq<Action>): bool {
    if actions == [] then before
    else match actions[|actions| - 1]
      case ReceiveFullness(isFull) => isFull
      case _ => LastNotice(before, actions[..|actions| - 1])
  }

  lemma {:induction false} LastNoticeNext(before: bool, a: Action, actions: seq<Action>)
    ensures LastNotice(before, [a] + actions) == LastNotice(if a.ReceiveFullness? then a.isFull else before, actions)
  {
    if actions != [] {
      var l := |actions| - 1;
      assert ([a] + actions)[..l + 1] == [a] + actions[..l];
      LastNoticeNext(before, a, actions[..l]);
    } else {
      assert [a] + actions == [a];
    }
  }

  lemma FullStep(s: State, a: Action)
    requires Enabled(s, a) && Step(s, a).Next?
    ensures Step(s, a).state.full == if a.ReceiveFullness? then a.isFull else s.full
  {
  }

  /** A worker takes the center for full as the last notice said. */
  lemma {:induction false} FullnessIs(s: State, actions: seq<Action>)
    requires Inv(s) && Run(s, actions).Some?
    ensures Run(s, actions).value.Next? && Run(s, actions).value.state.full == LastNotice(s.full, actions)
    decreases |actions|
  {
    hide Inv, Step, Enabled;
    if actions != [] {
      StepSafe(s, actions[0]);
      FullStep(s, actions[0]);
      FullnessIs(Step(s, actions[0]).state, actions[1..]);
      LastNoticeNext(s.full, actions[0], actions[1..]);
      assert actions == [actions[0]] + actions[1..];
    }
  }

  /* ---------- the funnel returns ---------- */

  /** The funnel thread's next step. */
  function FunnelStep(s: State): Action {
    match s.funnel
    case Entry => FirstPop
    case Holding(_) => LockToSend
    case Sending(_) => Send
    case Sent => PopAgain
    case WantSync => LockToSync
    case InSync => Refresh
    case WantPop => Pop
    case WantDone => AskDone
    case LastPop => PopLast
    case _ => Return
  }

  /** How many steps the funnel has ahead of it once the pool is done. */
  function StepsLeft(s: State): nat {
    10 * |s.queue| +
    match s.funnel
    case Stopped => 0
    case Closing => 1
    case LastPop => 2
    case WantDone => 3
    case WantPop => 4
    case InSync => 5
    case WantSync => 6
    case Sent => 7
    case Sending(_) => 8
    case Holding(_) => 9
    case Entry => 10
  }

  lemma FunnelAdvances(s: State)
    requires Inv(s) && s.pool == map[] && s.funnel != Stopped
    ensures Enabled(s, FunnelStep(s)) && Step(s, FunnelStep(s)).Next?
    ensures var s' := Step(s, FunnelStep(s)).state;
            s'.pool == map[] && s'.pushed == s.pushed && StepsLeft(s') < StepsLeft(s)
  {
    StepSafe(s, FunnelStep(s));
  }

  /** Once the pool is done, task_funneling returns in at most twenty steps of its own, with everything pushed sent. */
  lemma {:induction false} FunnelReturns(s: State) returns (actions: seq<Action>)
    requires Inv(s) && s.pool == map[]
    ensures |actions| <= StepsLeft(s) <= 20 && forall a | a in actions :: !PoolAction(a)
    ensures Run(s, actions).Some? && Run(s, actions).value.Next?
    ensures var s' := Run(s, actions).value.state; s'.funnel == Stopped && s'.sent == s'.pushed == s.pushed
    decreases StepsLeft(s)
  {
    hide Pending, Step, Enabled;
    actions := [];
    if s.funnel == Stopped {
      StoppedIsIdle(s);
    } else {
      FunnelAdvances(s);
      StepSafe(s, FunnelStep(s));
      actions := FunnelReturns(Step(s, FunnelStep(s)).state);
      actions := [FunnelStep(s)] + actions;
      assert actions[1..] + [] == actions[1..];
    }
  }

  /* ---------- helpers are used up in order ---------- */

  /** The helper list of a buffer: what stands before the first -1. */
  function Listed(v: seq<int>): seq<int> {
    v[..FirstGap(v)]
  }

  /** Behind the first -1 nothing but -1 follows. */
  ghost predicate Compact(v: seq<int>) {
    forall i | FirstGap(v) <= i < |v| :: v[i] == -1
  }

  /** What a worker knows of its helpers: the list, and the head it had when update_next_process last looked. */
  datatype Helpers = Helpers(list: seq<int>, next: int)

  /** A push uses up the head, a list from the center goes over the front, and update_next_process looks at the head. */
  function Told(h: Helpers, a: Action): Helpers {
    match a
    case Mark(_, _) => h.(list := if h.list == [] then [] else h.list[1..])
    case ReceiveHelpers(v) => h.(list := v + if |v| <= |h.list| then h.list[|v|..] else [])
    case Refresh => h.(next := if h.list == [] then -1 else h.list[0])
    case _ => h
  }

  function ToldAll(h: Helpers, actions: seq<Action>): Helpers
    decreases |actions|
  {
    if actions == [] then h else ToldAll(Told(h, actions[0]), actions[1..])
  }

  /** Where the pushes of a run go. */
  function Parcels(h: Helpers, actions: seq<Action>): seq<Parcel>
    decreases |actions|
  {
    if actions == [] then []
    else
      (if actions[0].Mark? then [Parcel(h.next, actions[0].bundle)] else [])
      + Parcels(Told(h, actions[0]), actions[1..])
  }

  ghost predicate Knows(s: State, h: Helpers) {
    s.policy.ToHelper? && Compact(s.nexts) && h == Helpers(Listed(s.nexts), s.next)
  }

  lemma ShiftUsesUp(v: seq<int>)
    requires |v| >= 2 && Compact(v)
    ensures Compact(ShiftedLeft(v)) && Listed(ShiftedLeft(v)) == if Listed(v) == [] then [] else Listed(v)[1..]
  {
    if v[0] == -1 {
      assert ShiftedLeft(v) == v;
    } else {
      ShiftDropsHead(v);
      var k, r := FirstGap(v), ShiftedLeft(v);
      assert Listed(r) == v[1..k];
      forall i | k - 1 <= i < |r| ensures r[i] == -1 {
        assert r[i] == if i >= k then v[i] else if i + 1 < |v| then v[i + 1] else -1;
      }
    }
  }

  lemma {:induction false} GapIs(v: seq<int>, k: nat)
    requires k <= |v| && (forall i | 0 <= i < k :: v[i] != -1) && (k < |v| ==> v[k] == -1)
    ensures FirstGap(v) == k
  {
  }

  lemma ReceivedOver(nexts: seq<int>, v: seq<int>)
    requires |v| <= |nexts| && Compact(nexts) && forall x | x in v :: x != -1
    ensures var list := Listed(nexts);
            && Compact(v + nexts[|v|..])
            && Listed(v + nexts[|v|..]) == v + if |v| <= |list| then list[|v|..] else []
  {
    var r, k := v + nexts[|v|..], FirstGap(nexts);
    forall i | 0 <= i < |v| ensures r[i] != -1 {
      assert v[i] in v;
    }
    GapIs(r, if |v| <= k then k else |v|);
  }

  lemma {:induction false} StepTold(s: State, a: Action, h: Helpers)
    requires Inv(s) && Enabled(s, a) && Step(s, a).Next? && Knows(s, h)
    ensures var s' := Step(s, a).state;
            && Knows(s', Told(h, a))
            && s'.pushed == s.pushed + if a.Mark? then [Parcel(h.next, a.bundle)] else []
  {
    hide FirstGap, ShiftedLeft;
    match a
    case Mark(_, _) => ShiftUsesUp(s.nexts);
    case ReceiveHelpers(v) => ReceivedOver(s.nexts, v);
    case Refresh => HeadIs(s.nexts);
    case _ =>
  }

  lemma HeadIs(v: seq<int>)
    requires v != []
    ensures v[0] == if Listed(v) == [] then -1 else Listed(v)[0]
  {
  }

  /**
   * Every run of a worker that pushes to helpers: each push goes to the rank that headed the list when
   * update_next_process last looked, and uses up one head, whatever the threads do; lists from the center go over the
   * front of what is left.
   */
  lemma {:induction false} HelpersUsedUp(s: State, actions: seq<Action>, h: Helpers)
    requires Inv(s) && Knows(s, h) && Run(s, actions).Some?
    ensures var r := Run(s, actions).value;
            && r.Next? && Knows(r.state, ToldAll(h, actions)) && r.state.pushed == s.pushed + Parcels(h, actions)
    decreases |actions|
  {
    hide Inv, Knows, Enabled, Step;
    if actions != [] {
      StepSafe(s, actions[0]);
      StepTold(s, actions[0], h);
      HelpersUsedUp(Step(s, actions[0]).state, actions[1..], Told(h, actions[0]));
    }
  }

  /** Before each push since the last one update_next_process has looked; seen says that it has when the list begins. */
  predicate Looked(actions: seq<Action>, seen: bool) {
    if actions == [] then true
    else if actions[0].Mark? then seen && Looked(actions[1..], false)
    else Looked(actions[1..], seen || actions[0] == Refresh)
  }

  /** One bundle for each rank of the list, in order, and the list is used up as far. */
  ghost predicate InOrder(list: seq<int>, ps: seq<Parcel>, left: seq<int>) {
    && left == (if |ps| <= |list| then list[|ps|..] else [])
    && forall k | 0 <= k < |ps| :: ps[k].destination == if k < |list| then list[k] else -1
  }

  lemma InOrderMore(list: seq<int>, p: Parcel, ps: seq<Parcel>, left: seq<int>)
    requires p.destination == (if list == [] then -1 else list[0])
    requires InOrder(if list == [] then [] else list[1..], ps, left)
    ensures InOrder(list, [p] + ps, left)
  {
  }

  /** In a run that hears nothing from the center and looks before each push, each helper gets one bundle, in turn. */
  lemma {:induction false} EachHelperOnce(h: Helpers, actions: seq<Action>, seen: bool)
    requires forall a | a in actions :: !a.ReceiveHelpers?
    requires Looked(actions, seen) && (seen ==> h.next == if h.list == [] then -1 else h.list[0])
    ensures InOrder(h.list, Parcels(h, actions), ToldAll(h, actions).list)
    decreases |actions|
  {
    if actions != [] {
      var a := actions[0];
      assert a in actions;
      EachHelperOnce(Told(h, a), actions[1..], !a.Mark? && (seen || a == Refresh));
      var rest := Parcels(Told(h, a), actions[1..]);
      if a.Mark? {
        InOrderMore(h.list, Parcel(h.next, a.bundle), rest, ToldAll(h, actions).list);
      } else {
        assert [] + rest == rest;
      }
    }
  }

  /** So from a worker that has just looked, the pushes go to the listed ranks in turn, and leave the rest listed. */
  lemma PushesInTurn(s: State, actions: seq<Action>)
    requires Inv(s) && s.policy.ToHelper? && Compact(s.nexts) && Run(s, actions).Some?
    requires s.next == if Listed(s.nexts) == [] then -1 else Listed(s.nexts)[0]
    requires (forall a | a in actions :: !a.ReceiveHelpers?) && Looked(actions, true)
    ensures Run(s, actions).value.Next?
    ensures var s', list := Run(s, actions).value.state, Listed(s.nexts);
            exists ps :: s'.pushed == s.pushed + ps && InOrder(list, ps, Listed(s'.nexts))
  {
    hide Compact, Inv, Run;
    var h := Helpers(Listed(s.nexts), s.next);
    HelpersUsedUp(s, actions, h);
    EachHelperOnce(h, actions, true);
  }
}

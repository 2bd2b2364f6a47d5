/** What each worker of the centralized scheduler, with its link and the center's view of it, always satisfies. */
module CentralizedInvariant {
  import opened Common
  import opened TerminationDetection
  import opened Centralized
  import H = Handoff

  /* ---------- counting messages ---------- */

  function Tasks(c: seq<Message>): nat {
    if c == [] then 0 else (if c[0].Task? then 1 else 0) + Tasks(c[1..])
  }

  function Acks(c: seq<Message>): nat {
    if c == [] then 0 else (if c[0].Ack? then 1 else 0) + Acks(c[1..])
  }

  /** The RUNNING and AVAILABLE reports on a link, in order. */
  function Reports(c: seq<Message>): seq<Message> {
    if c == [] then [] else (if c[0].Running? || c[0].Available? then [c[0]] else []) + Reports(c[1..])
  }

  function Bundles(c: seq<Message>): multiset<Bundle> {
    if c == [] then multiset{} else (if c[0].Task? then multiset{c[0].bundle} else multiset{}) + Bundles(c[1..])
  }

  /** An AVAILABLE report has an acknowledgement behind it, unless the worker is still engaged. */
  predicate TrailOk(c: seq<Message>, engaged: bool) {
    c == [] || ((c[0].Available? ==> engaged || Acks(c[1..]) > 0) && TrailOk(c[1..], engaged))
  }

  lemma Appended(c: seq<Message>, m: Message)
    ensures Tasks(c + [m]) == Tasks(c) + if m.Task? then 1 else 0
    ensures Acks(c + [m]) == Acks(c) + if m.Ack? then 1 else 0
    ensures Reports(c + [m]) == if m.Running? || m.Available? then Reports(c) + [m] else Reports(c)
    ensures Bundles(c + [m]) == if m.Task? then Bundles(c) + multiset{m.bundle} else Bundles(c)
  {
    hide *;
    CountsAppended(c, m);
    ReportsAppended(c, m);
    BundlesAppended(c, m);
  }

  lemma {:induction false} CountsAppended(c: seq<Message>, m: Message)
    ensures Tasks(c + [m]) == Tasks(c) + if m.Task? then 1 else 0
    ensures Acks(c + [m]) == Acks(c) + if m.Ack? then 1 else 0
  {
    if c == [] {
      assert (c + [m])[1..] == [];
    } else {
      assert (c + [m])[1..] == c[1..] + [m];
      CountsAppended(c[1..], m);
    }
  }

  lemma {:induction false} ReportsAppended(c: seq<Message>, m: Message)
    ensures Reports(c + [m]) == if m.Running? || m.Available? then Reports(c) + [m] else Reports(c)
  {
    if c == [] {
      assert (c + [m])[1..] == [];
    } else {
      assert (c + [m])[1..] == c[1..] + [m];
      ReportsAppended(c[1..], m);
      assert [c[0]] + (Reports(c[1..]) + [m]) == ([c[0]] + Reports(c[1..])) + [m];
    }
  }

  lemma {:induction false} BundlesAppended(c: seq<Message>, m: Message)
    ensures Bundles(c + [m]) == if m.Task? then Bundles(c) + multiset{m.bundle} else Bundles(c)
  {
    if c == [] {
      assert (c + [m])[1..] == [];
    } else {
      assert (c + [m])[1..] == c[1..] + [m];
      BundlesAppended(c[1..], m);
    }
  }

  lemma {:induction false} TrailAppended(c: seq<Message>, m: Message, engaged: bool, engaged': bool)
    requires TrailOk(c, engaged)
    requires m.Ack? || engaged' == engaged
    requires m.Available? ==> engaged'
    ensures TrailOk(c + [m], engaged')
  {
    if c == [] {
      assert (c + [m])[1..] == [];
    } else {
      assert (c + [m])[1..] == c[1..] + [m];
      Appended(c[1..], m);
      TrailAppended(c[1..], m, engaged, engaged');
    }
  }

  /** A worker that owes no acknowledgement and has none in flight has no AVAILABLE report in flight. */
  lemma {:induction false} NoTrail(c: seq<Message>)
    requires TrailOk(c, false) && Acks(c) == 0
    ensures Available !in c
  {
    if c != [] {
      NoTrail(c[1..]);
      assert forall x :: x in c <==> x == c[0] || x in c[1..];
    }
  }

  lemma {:induction false} NoneOf(c: seq<Message>)
    ensures Tasks(c) == 0 ==> Bundles(c) == multiset{} && forall m | m in c :: !m.Task?
    ensures Acks(c) == 0 <==> Ack !in c
    ensures Reports(c) == [] <==> Running !in c && Available !in c
    ensures forall m | m in Reports(c) :: m in c
  {
    if c != [] {
      NoneOf(c[1..]);
      assert forall x :: x in c <==> x == c[0] || x in c[1..];
    }
  }

  /** The effect of taking the first message. */
  lemma Dropped(c: seq<Message>)
    requires c != []
    ensures Tasks(c) == Tasks(c[1..]) + if c[0].Task? then 1 else 0
    ensures Acks(c) == Acks(c[1..]) + if c[0].Ack? then 1 else 0
    ensures Reports(c) == if c[0].Running? || c[0].Available? then [c[0]] + Reports(c[1..]) else Reports(c[1..])
    ensures Bundles(c) == if c[0].Task? then multiset{c[0].bundle} + Bundles(c[1..]) else Bundles(c[1..])
    ensures forall engaged: bool :: TrailOk(c, engaged) ==> TrailOk(c[1..], engaged)
  {
  }

  /* ---------- one worker ---------- */

  predicate Engaged(x: Worker) {
    x.det.parent == CENTER
  }

  /** What the worker makes the center wait for. */
  function Owed(x: Worker): nat {
    Tasks(x.inbox) + Acks(x.outbox) + if Engaged(x) then 1 else 0
  }

  function Arrivals(x: Worker): nat {
    if Reports(x.outbox) != [] && Reports(x.outbox)[|Reports(x.outbox)| - 1] == Available then 1 else 0
  }

  /**
   * A single token: a task on its way, at work, reported finished, or the center's mark that the worker is available.
   */
  function Tokens(x: Worker): int {
    Tasks(x.inbox) + (if x.phase.Working? then 1 else 0) + Arrivals(x) + if x.standing == IsAvailable then 1 else 0
  }

  predicate ReportsOk(x: Worker) {
    if x.phase.Working? then Reports(x.outbox) == [] || Reports(x.outbox) == [Running]
    else Reports(x.outbox) in {[], [Available], [Running, Available]}
  }

  predicate Live(c: CenterPhase) {
    c == Starting || c == Serving
  }

  predicate InboxOk(x: Worker, live: bool) {
    forall m | m in x.inbox :: m.Task? || m.Ack? || (m.Termination? && !live)
  }

  predicate OutboxOk(x: Worker) {
    forall m | m in x.outbox ::
      m.Task? || m.Ack? || m.Running? || m.Available? || ((m.HasResult? || m.NoResult?) && x.phase == Done)
  }

  ghost predicate DetectorOk(x: Worker) {
    && !x.det.isRoot && (x.det.parent == NO_PARENT || x.det.parent == CENTER)
    && x.det.deficit == Tasks(x.outbox) + Acks(x.inbox)
    && (x.phase.Working? ==> Engaged(x))
    && (!Engaged(x) ==> x.det.deficit == 0)
    && (!x.phase.Working? && x.det.deficit == 0 ==> !Engaged(x))
  }

  ghost predicate SlotOk(x: Worker) {
    x.slot.policy == H.ToCenter && H.Inv(x.slot) && (!x.phase.Working? ==> H.Idle(x.slot))
  }

  ghost predicate WorkerOk(x: Worker, live: bool) {
    && DetectorOk(x) && SlotOk(x)
    && Tokens(x) == 1 && ReportsOk(x) && TrailOk(x.outbox, Engaged(x))
    && InboxOk(x, live) && OutboxOk(x)
    && (x.phase in {Leaving, Done} ==> !live)
  }

  /** Like DetectorOk, but a parent that could be released may still be there. */
  ghost predicate Unsettled(x: Worker, live: bool) {
    && !x.det.isRoot && (x.det.parent == NO_PARENT || x.det.parent == CENTER)
    && x.det.deficit == Tasks(x.outbox) + Acks(x.inbox)
    && !x.phase.Working? && (!Engaged(x) ==> x.det.deficit == 0)
    && SlotOk(x)
    && Tokens(x) == 1 && ReportsOk(x) && TrailOk(x.outbox, Engaged(x))
    && InboxOk(x, live) && OutboxOk(x)
    && (x.phase in {Leaving, Done} ==> !live)
  }

  /* ---------- what each task went through ---------- */

  ghost function BundlesOf(ps: seq<H.Parcel>): multiset<Bundle> {
    if ps == [] then multiset{} else BundlesOf(ps[..|ps| - 1]) + multiset{ps[|ps| - 1].bundle}
  }

  /** What the worker has sent to the center. */
  ghost function Made(x: Worker): multiset<Bundle> {
    BundlesOf(x.slot.sent)
  }

  /** The tasks on the link, at work and finished. */
  ghost function Held(x: Worker): multiset<Bundle> {
    Bundles(x.inbox) + Bundles(x.outbox)
      + (if x.phase.Working? then multiset{x.phase.task} else multiset{}) + x.finished
  }

  /* ---------- worker steps ---------- */

  lemma ReleasedOk(x: Worker, live: bool)
    requires Unsettled(x, live)
    ensures WorkerOk(Released(x), live)
    ensures Owed(Released(x)) == Owed(x) && Held(Released(x)) == Held(x) && Made(Released(x)) == Made(x)
    ensures Released(x).standing == x.standing
  {
    hide H.Inv, Tasks, Acks, Reports, Bundles, TrailOk;
    if x.det.Passive().1.Some? {
      Appended(x.outbox, Ack);
      TrailAppended(x.outbox, Ack, true, false);
    }
  }

  /** The messages an accepted task causes: an acknowledgement unless it is deferred, then RUNNING. */
  lemma AcceptedOutbox(c: seq<Message>, acked: bool)
    requires TrailOk(c, acked) && Reports(c) == []
    ensures var c' := c + (if acked then [Ack] else []) + [Running];
            && Tasks(c') == Tasks(c) && Acks(c') == Acks(c) + (if acked then 1 else 0)
            && Reports(c') == [Running] && Bundles(c') == Bundles(c) && TrailOk(c', true)
  {
    hide Tasks, Acks, Reports, Bundles, TrailOk;
    if acked {
      Appended(c, Ack);
      TrailAppended(c, Ack, true, true);
      Appended(c + [Ack], Running);
      TrailAppended(c + [Ack], Running, true, true);
    } else {
      assert c + [] == c;
      AcksEngage(c);
      Appended(c, Running);
      TrailAppended(c, Running, true, true);
    }
  }

  lemma AcceptedSlot(x: Worker, thread: nat)
    requires SlotOk(x) && x.phase == Idle && x.inbox != [] && x.inbox[0].Task?
    ensures SlotOk(Accepted(x, thread))
  {
    H.StartedInv(x.slot, thread);
    hide H.Inv;
  }

  lemma AcceptedLink(x: Worker, thread: nat, live: bool)
    requires WorkerOk(x, live) && x.phase == Idle && x.inbox != [] && x.inbox[0].Task?
    ensures var y := Accepted(x, thread);
            && DetectorOk(y) && Tokens(y) == 1 && ReportsOk(y) && TrailOk(y.outbox, Engaged(y)) && Owed(y) == Owed(x)
  {
    hide H.Inv, H.Idle, H.Started, InboxOk, OutboxOk, Tasks, Acks, Reports, Bundles, TrailOk;
    Dropped(x.inbox);
    AcceptedOutbox(x.outbox, Engaged(x));
  }

  lemma AcceptedOk(x: Worker, thread: nat, live: bool)
    requires WorkerOk(x, live) && x.phase == Idle && x.inbox != [] && x.inbox[0].Task?
    ensures WorkerOk(Accepted(x, thread), live)
    ensures Owed(Accepted(x, thread)) == Owed(x)
    ensures Accepted(x, thread).standing == x.standing
  {
    hide H.Inv, H.Started, SlotOk, DetectorOk, Tokens, ReportsOk, Owed, Tasks, Acks, Reports, Bundles, TrailOk;
    AcceptedSlot(x, thread);
    AcceptedLink(x, thread, live);
  }

  /** Being engaged only helps. */
  lemma {:induction false} AcksEngage(c: seq<Message>)
    requires TrailOk(c, false)
    ensures TrailOk(c, true)
  {
    if c != [] {
      AcksEngage(c[1..]);
    }
  }

  lemma AcceptedHeld(x: Worker, thread: nat)
    requires x.phase == Idle && x.inbox != [] && x.inbox[0].Task? && H.Idle(x.slot)
    ensures Held(Accepted(x, thread)) == Held(x) && Made(Accepted(x, thread)) == Made(x)
  {
    hide H.Inv, Tasks, Acks, Reports, Bundles, TrailOk;
    Dropped(x.inbox);
    var acked := x.det.isRoot || x.det.parent != NO_PARENT;
    var c1 := x.outbox + if acked then [Ack] else [];
    if acked {
      Appended(x.outbox, Ack);
    } else {
      assert c1 == x.outbox;
    }
    Appended(c1, Running);
  }

  lemma SentOk(x: Worker, b: Bundle, h: H.State, live: bool)
    requires WorkerOk(x, live) && x.phase.Working? && H.Inv(h) && h.policy == H.ToCenter
    ensures WorkerOk(Sent(x, b, h), live)
    ensures Owed(Sent(x, b, h)) == Owed(x) && Sent(x, b, h).standing == x.standing
  {
    hide H.Inv, Tasks, Acks, Reports, Bundles, TrailOk;
    Appended(x.outbox, Task(b));
    TrailAppended(x.outbox, Task(b), true, true);
  }

  lemma SentHeld(x: Worker, b: Bundle, h: H.State)
    requires |h.sent| == |x.slot.sent| + 1
    requires h.sent[..|x.slot.sent|] == x.slot.sent && h.sent[|x.slot.sent|].bundle == b
    ensures Made(Sent(x, b, h)) == Made(x) + multiset{b} && Held(Sent(x, b, h)) == Held(x) + multiset{b}
  {
    hide Tasks, Acks, Reports, Bundles, TrailOk;
    Appended(x.outbox, Task(b));
  }

  lemma CompletedOk(x: Worker, live: bool)
    requires WorkerOk(x, live) && x.phase.Working? && H.Idle(x.slot)
    ensures WorkerOk(Completed(x), live)
    ensures Owed(Completed(x)) == Owed(x) && Completed(x).standing == x.standing
    ensures Held(Completed(x)) == Held(x) && Made(Completed(x)) == Made(x)
  {
    hide H.Inv, Tasks, Acks, Reports, Bundles, TrailOk;
    var y := x.(phase := Idle, outbox := x.outbox + [Available], finished := x.finished + multiset{x.phase.task});
    Appended(x.outbox, Available);
    TrailAppended(x.outbox, Available, true, true);
    assert [] + [Available] == [Available] && [Running] + [Available] == [Running, Available];
    ReleasedOk(y, live);
  }

  lemma AckedOk(x: Worker, live: bool)
    requires WorkerOk(x, live) && x.phase == Idle && x.inbox != [] && x.inbox[0] == Ack
    ensures x.det.deficit > 0 && WorkerOk(Acked(x), live)
    ensures Owed(Acked(x)) == Owed(x) && Acked(x).standing == x.standing
    ensures Held(Acked(x)) == Held(x) && Made(Acked(x)) == Made(x)
  {
    hide H.Inv, Tasks, Acks, Reports, Bundles, TrailOk;
    Dropped(x.inbox);
    ReleasedOk(x.(det := x.det.AckReceived().0, inbox := x.inbox[1..]), live);
  }

  /* ---------- center steps ---------- */

  lemma ReportedOk(x: Worker, live: bool)
    requires WorkerOk(x, live) && x.outbox != [] && (x.outbox[0] == Running || x.outbox[0] == Available)
    ensures var y := x.(outbox := x.outbox[1..],
      standing := if x.outbox[0] == Available then IsAvailable else IsRunning);
            && WorkerOk(y, live) && Owed(y) == Owed(x) && Held(y) == Held(x) && Made(y) == Made(x)
            && x.standing != IsAvailable
  {
    hide H.Inv, Tasks, Acks, Reports, Bundles, TrailOk;
    Dropped(x.outbox);
    assert Reports(x.outbox)[1..] == Reports(x.outbox[1..]);
  }

  lemma QueuedOk(x: Worker, live: bool)
    requires WorkerOk(x, live) && x.outbox != [] && x.outbox[0].Task?
    ensures var y := x.(outbox := x.outbox[1..], inbox := x.inbox + [Ack]);
            && WorkerOk(y, live) && Owed(y) == Owed(x) && y.standing == x.standing
            && Held(x) == Held(y) + multiset{x.outbox[0].bundle} && Made(y) == Made(x)
  {
    QueuedBooks(x);
    hide H.Inv, H.Idle, DetectorOk, Tokens, ReportsOk, TrailOk, Owed, Held;
  }

  lemma QueuedBooks(x: Worker)
    requires DetectorOk(x) && ReportsOk(x) && TrailOk(x.outbox, Engaged(x)) && x.outbox != [] && x.outbox[0].Task?
    ensures var y := x.(outbox := x.outbox[1..], inbox := x.inbox + [Ack]);
            && DetectorOk(y) && ReportsOk(y) && TrailOk(y.outbox, Engaged(y)) && Tokens(y) == Tokens(x)
            && Owed(y) == Owed(x) && Held(x) == Held(y) + multiset{x.outbox[0].bundle}
  {
    hide Tasks, Acks, Reports, Bundles, TrailOk;
    Dropped(x.outbox);
    Appended(x.inbox, Ack);
  }

  lemma CenterAckedOk(x: Worker, live: bool)
    requires WorkerOk(x, live) && x.outbox != [] && x.outbox[0] == Ack
    ensures var y := x.(outbox := x.outbox[1..]);
            && WorkerOk(y, live) && Owed(y) == Owed(x) - 1 && y.standing == x.standing
            && Held(x) == Held(y) && Made(y) == Made(x)
  {
    hide H.Inv, Tasks, Acks, Reports, Bundles, TrailOk;
    Dropped(x.outbox);
  }

  /** A task is sent to a worker that the center holds available. */
  lemma DispatchedOk(x: Worker, b: Bundle, standing: Standing, live: bool)
    requires WorkerOk(x, live) && x.standing == IsAvailable && standing != IsAvailable
    ensures var y := x.(inbox := x.inbox + [Task(b)], standing := standing);
            && WorkerOk(y, live) && Owed(y) == Owed(x) + 1
            && Held(y) == Held(x) + multiset{b} && Made(y) == Made(x)
  {
    hide H.Inv, Tasks, Acks, Reports, Bundles, TrailOk;
    Appended(x.inbox, Task(b));
  }

  /* ---------- a worker that owes nothing ---------- */

  /**
   * No task or acknowledgement on the link, no report, nothing at work, no bundle in the slot, a quiescent detector.
   */
  ghost predicate Quiet(x: Worker) {
    && x.det.Quiescent() && !x.phase.Working? && H.Idle(x.slot) && x.standing == IsAvailable
    && (forall m | m in x.inbox :: m.Termination?)
    && (forall m | m in x.outbox :: m.HasResult? || m.NoResult?)
  }

  lemma QuietWhenPaid(x: Worker, live: bool)
    requires WorkerOk(x, live) && Owed(x) == 0
    ensures Quiet(x) && Held(x) == x.finished
  {
    hide H.Inv, Tasks, Acks, Reports, Bundles, TrailOk;
    NoTrail(x.outbox);
    NoneOf(x.outbox);
    NoneOf(x.inbox);
  }
}

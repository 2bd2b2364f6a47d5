/** The lines waiting to reach one dashboard client (private/impl/telemetry/client_outbox.hpp). */
module ClientOutbox {
  import opened Common

  type Line = seq<bv8>

  /** The connection: each send takes some of the bytes offered, none, or fails. */
  class Client {
    var answers: seq<Option<nat>>      // how many bytes it is willing to take, call by call
    ghost var received: seq<bv8>       // all bytes it took
    ghost var outcomes: seq<Option<nat>>  // what the calls returned

    constructor (answers: seq<Option<nat>>)
      ensures this.answers == answers && received == [] && outcomes == []
    {
      this.answers, received, outcomes := answers, [], [];
    }

    method Send(bytes: seq<bv8>) returns (taken: Option<nat>)
      modifies this
      ensures taken.Some? ==> taken.value <= |bytes| && received == old(received) + bytes[..taken.value]
      ensures taken == None ==> received == old(received)
      ensures outcomes == old(outcomes) + [taken]
    {
      taken := if answers == [] then Some(0) else answers[0];
      answers := if answers == [] then [] else answers[1..];
      if taken.Some? {
        taken := Some(if taken.value < |bytes| then taken.value else |bytes|);
        received := received + bytes[..taken.value];
      }
      outcomes := outcomes + [taken];
    }
  }

  function Concat(lines: seq<Line>): seq<bv8> {
    if lines == [] then [] else lines[0] + Concat(lines[1..])
  }

  lemma {:induction false} ConcatBack(lines: seq<Line>, last: Line)
    ensures Concat(lines + [last]) == Concat(lines) + last
  {
    if lines == [] {
      assert lines + [last] == [last];
    } else {
      assert (lines + [last])[1..] == lines[1..] + [last];
      ConcatBack(lines[1..], last);
    }
  }

  /** The pushed lines with these numbers. */
  function Picked(pushed: seq<Line>, numbers: seq<nat>): seq<Line> {
    seq(|numbers|, i requires 0 <= i < |numbers| => if numbers[i] < |pushed| then pushed[numbers[i]] else [])
  }

  ghost predicate Increasing(numbers: seq<nat>, below: nat) {
    && (forall i, j | 0 <= i < j < |numbers| :: numbers[i] < numbers[j])
    && (forall i | 0 <= i < |numbers| :: numbers[i] < below)
  }

  /** Everything but the stretch from at to lo. */
  function Gap<T>(all: seq<T>, at: nat, lo: nat): (r: seq<T>)
    requires at <= lo <= |all|
    ensures |r| == at + |all| - lo
  {
    all[..at] + all[lo..]
  }

  /** The line that is on its way, then the last ones up to the capacity. */
  function Trimmed<T>(lines: seq<T>, inFlight: nat, capacity: nat): seq<T>
    requires inFlight <= |lines|
  {
    if |lines| - inFlight <= capacity then lines else Gap(lines, inFlight, |lines| - capacity)
  }

  /** Of all lines, the ones on their way are kept, and behind them the newest, as many as there is room for. */
  predicate Newest<T(==)>(all: seq<T>, kept: seq<T>, inFlight: nat, capacity: nat) {
    && inFlight <= |kept| <= |all| && kept[..inFlight] == all[..inFlight]
    && |kept| - inFlight == (if |all| - inFlight <= capacity then |all| - inFlight else capacity)
    && kept[inFlight..] == all[|all| + inFlight - |kept|..]
  }

  /** What happened to all lines: every line ever pushed, and which of them went out completely or still wait. */
  datatype Ledger = Ledger(pushed: seq<Line>, sent: seq<nat>, waiting: seq<nat>) {

    /** No line is in two places, order is kept, and the newest line has not been lost. */
    ghost predicate Good() {
      && Increasing(sent + waiting, |pushed|)
      && (pushed != [] ==> sent + waiting != [] && (sent + waiting)[|sent + waiting| - 1] == |pushed| - 1)
    }

    function Queue(): seq<Line> {
      Picked(pushed, waiting)
    }

    function Out(): seq<bv8> {
      Concat(Picked(pushed, sent))
    }

    function Push(line: Line, inFlight: nat, capacity: nat): Ledger
      requires inFlight <= |waiting|
    {
      Ledger(pushed + [line], sent, Trimmed<nat>(waiting + [|pushed|], inFlight, capacity))
    }

    /** The front line is through. */
    function Finish(): Ledger
      requires waiting != []
    {
      Ledger(pushed, sent + [waiting[0]], waiting[1..])
    }

    lemma PushGood(line: Line, inFlight: nat, capacity: nat)
      requires Good() && inFlight <= |waiting| && capacity >= 1
      ensures Push(line, inFlight, capacity).Good()
      ensures Push(line, inFlight, capacity).Queue() == Trimmed(Queue() + [line], inFlight, capacity)
      ensures Push(line, inFlight, capacity).Out() == Out()
    {
      hide Concat, Picked, Trimmed, Increasing, Gap;
      var numbers: seq<nat> := waiting + [|pushed|];
      var lo := if |numbers| - inFlight <= capacity then inFlight else |numbers| - capacity;
      SplitIncreasing(sent, waiting, |pushed|);
      Spliced(sent, waiting, |pushed|, inFlight, lo);
      PickedSame(pushed, line, sent);
      PickedSame(pushed, line, waiting);
      PickedMore(pushed + [line], waiting, |pushed|);
      PickedGap(pushed + [line], numbers, inFlight, lo);
      TrimmedIsGap<nat>(numbers, inFlight, capacity);
      TrimmedIsGap<Line>(Queue() + [line], inFlight, capacity);
      assert Queue() + [line] == Picked(pushed + [line], numbers);
      assert sent + Push(line, inFlight, capacity).waiting == sent + Gap<nat>(numbers, inFlight, lo)
        && |pushed + [line]| == |pushed| + 1;
    }

    lemma FinishGood()
      requires Good() && waiting != []
      ensures Finish().Good() && Finish().Queue() == Queue()[1..] && Finish().Out() == Out() + Queue()[0]
      ensures Finish().sent + Finish().waiting == sent + waiting
    {
      assert sent + waiting == Finish().sent + Finish().waiting;
      assert Picked(pushed, sent + [waiting[0]]) == Picked(pushed, sent) + [Queue()[0]];
      ConcatBack(Picked(pushed, sent), Queue()[0]);
    }
  }

  lemma PickedSame(pushed: seq<Line>, line: Line, numbers: seq<nat>)
    requires Increasing(numbers, |pushed|)
    ensures Picked(pushed + [line], numbers) == Picked(pushed, numbers)
  {
  }

  lemma PickedMore(pushed: seq<Line>, numbers: seq<nat>, number: nat)
    requires number < |pushed|
    ensures Picked(pushed, numbers + [number]) == Picked(pushed, numbers) + [pushed[number]]
  {
  }

  lemma PickedGap(pushed: seq<Line>, numbers: seq<nat>, at: nat, lo: nat)
    requires at <= lo <= |numbers|
    ensures |Picked(pushed, numbers)| == |numbers|
    ensures Picked(pushed, Gap<nat>(numbers, at, lo)) == Gap(Picked(pushed, numbers), at, lo)
  {
  }

  lemma TrimmedIsGap<T>(s: seq<T>, inFlight: nat, capacity: nat)
    requires inFlight <= |s|
    ensures Trimmed(s, inFlight, capacity)
      == Gap(s, inFlight, if |s| - inFlight <= capacity then inFlight else |s| - capacity)
  {
  }

  lemma SplitIncreasing(a: seq<nat>, b: seq<nat>, below: nat)
    requires Increasing(a + b, below)
    ensures Increasing(a, below) && Increasing(b, below)
    ensures forall i, j | 0 <= i < |a| && 0 <= j < |b| :: a[i] < b[j]
  {
    forall i | 0 <= i < |a| ensures (a + b)[i] == a[i] {
    }
    forall j | 0 <= j < |b| ensures (a + b)[|a| + j] == b[j] {
    }
  }

  /** Appending the next number and cutting a stretch out before it keeps the order. */
  lemma Spliced(a: seq<nat>, b: seq<nat>, next: nat, at: nat, lo: nat)
    requires Increasing(a, next) && Increasing(b, next) && at <= lo <= |b|
    requires forall i, j | 0 <= i < |a| && 0 <= j < |b| :: a[i] < b[j]
    ensures var kept := Gap<nat>(b + [next], at, lo);
      Increasing(a + kept, next + 1) && (a + kept)[|a + kept| - 1] == next
  {
  }

  class Outbox {
    var lines: seq<Line>
    var frontWritten: nat
    const capacity: nat
    ghost var ledger: Ledger

    function InFlight(): nat
      reads this
    {
      if frontWritten > 0 then 1 else 0
    }

    /** The bytes of the line that has started going out. */
    function Partial(): seq<bv8>
      reads this
    {
      if lines != [] && frontWritten <= |lines[0]| then lines[0][..frontWritten] else []
    }

    /**
     * Besides what the ledger promises: only the front line can have started, and at most capacity lines wait
     * that have not.
     */
    ghost predicate Valid()
      reads this
    {
      && capacity >= 1 && ledger.Good() && lines == ledger.Queue()
      && (frontWritten > 0 ==> lines != [] && frontWritten < |lines[0]|)
      && |lines| - InFlight() <= capacity
    }

    /** All bytes that went out so far. */
    ghost function Stream(): seq<bv8>
      reads this
    {
      ledger.Out() + Partial()
    }

    constructor (capacity: nat)
      ensures Valid() && Stream() == [] && this.capacity == (if capacity >= 1 then capacity else 1)
      ensures ledger == Ledger([], [], [])
    {
      this.capacity := if capacity >= 1 then capacity else 1;
      lines, frontWritten, ledger := [], 0, Ledger([], [], []);
    }

    method Push(line: Line)
      requires Valid()
      modifies this
      ensures Valid() && ledger == old(ledger).Push(line, old(InFlight()), capacity)
      ensures frontWritten == old(frontWritten) && (frontWritten > 0 ==> lines[0] == old(lines)[0])
      ensures lines != [] && lines[|lines| - 1] == line && Stream() == old(Stream())
      ensures Newest(old(lines) + [line], lines, InFlight(), capacity)
    {
      hide Picked, Concat, Ledger.Good, Ledger.Out, Ledger.Queue, Trimmed, Newest;
      var inFlight := if frontWritten > 0 then 1 else 0;
      QueueLength(ledger);
      ledger.PushGood(line, inFlight, capacity);
      TrimmedEnds(lines, line, inFlight, capacity);
      TrimmedNewest(lines + [line], inFlight, capacity);
      lines := lines + [line];
      DropOldest(inFlight);
      ledger := ledger.Push(line, inFlight, capacity);
    }

    /** Drops unstarted lines from the front while there are too many. */
    method DropOldest(inFlight: nat)
      requires inFlight <= |lines|
      modifies this`lines
      ensures lines == Trimmed(old(lines), inFlight, capacity)
    {
      hide Gap;
      ghost var all, lo := lines, inFlight;
      GapNothing(all, inFlight);
      while |lines| - inFlight > capacity
        invariant inFlight <= lo <= |all| && lines == Gap(all, inFlight, lo)
        invariant lo > inFlight ==> |lines| - inFlight >= capacity
        decreases |lines|
      {
        CutOne(all, inFlight, lo);
        lines := lines[..inFlight] + lines[inFlight + 1..];
        lo := lo + 1;
      }
    }

    /** Ends when the queue is empty, the client takes nothing, or the connection failed. */
    method Flush(client: Client) returns (connected: bool)
      requires Valid() && client.received == Stream()
      modifies this, client
      ensures Valid() && ledger.pushed == old(ledger).pushed && client.received == Stream()
      ensures ledger.sent + ledger.waiting == old(ledger).sent + old(ledger).waiting && old(ledger).sent <= ledger.sent
      ensures old(client.outcomes) <= client.outcomes
      ensures var calls := client.outcomes[|old(client.outcomes)|..];
              && (connected <==> None !in calls)
              && (connected && lines != [] ==> calls != [] && calls[|calls| - 1] == Some(0))
    {
      hide Picked, Concat, Ledger.Good, Ledger.Out, Ledger.Queue;
      connected := true;
      ghost var calls: seq<Option<nat>> := [];
      while lines != []
        invariant Valid() && ledger.pushed == old(ledger).pushed && client.received == Stream() && connected
        invariant ledger.sent + ledger.waiting == old(ledger).sent + old(ledger).waiting
        invariant old(ledger).sent <= ledger.sent
        invariant client.outcomes == old(client.outcomes) + calls && None !in calls
        decreases |lines|, if lines == [] then 0 else |lines[0]| - frontWritten
      {
        var taken := client.Send(lines[0][frontWritten..]);
        Appended(old(client.outcomes), calls, taken);
        calls := calls + [taken];
        if taken == None {
          return false;
        }
        if taken.value == 0 {
          return true;
        }
        Took(lines[0], frontWritten, taken.value, ledger.Out());
        frontWritten := frontWritten + taken.value;
        if frontWritten == |lines[0]| {
          QueueLength(ledger);
          ledger.FinishGood();
          ledger := ledger.Finish();
          lines := lines[1..];
          frontWritten := 0;
        }
      }
    }
  }

  lemma Appended<T>(a: seq<T>, b: seq<T>, c: T)
    ensures a + b + [c] == a + (b + [c]) && (a + (b + [c]))[|a|..] == b + [c]
  {
  }

  lemma QueueLength(l: Ledger)
    ensures |l.Queue()| == |l.waiting|
  {
  }

  lemma CutOne<T>(all: seq<T>, at: nat, lo: nat)
    requires at <= lo < |all|
    ensures Gap(all, at, lo)[..at] + Gap(all, at, lo)[at + 1..] == Gap(all, at, lo + 1)
  {
  }

  lemma GapNothing<T>(all: seq<T>, at: nat)
    requires at <= |all|
    ensures Gap(all, at, at) == all
  {
  }

  /** The started line and the new one are kept, and the bound holds. */
  lemma TrimmedEnds(lines: seq<Line>, line: Line, inFlight: nat, capacity: nat)
    requires inFlight <= |lines| && inFlight <= 1 && capacity >= 1
    ensures var kept := Trimmed(lines + [line], inFlight, capacity);
            && kept != [] && kept[|kept| - 1] == line && (inFlight == 1 ==> kept[0] == lines[0])
            && |kept| - inFlight <= capacity
  {
  }

  lemma TrimmedNewest(lines: seq<Line>, inFlight: nat, capacity: nat)
    requires inFlight <= |lines|
    ensures Newest(lines, Trimmed(lines, inFlight, capacity), inFlight, capacity)
  {
  }

  lemma Took(line: Line, from: nat, taken: nat, out: seq<bv8>)
    requires from + taken <= |line|
    ensures out + line[..from] + line[from..][..taken] == out + line[..from + taken]
    ensures line[..|line|] == line
  {
    assert line[..from] + line[from..][..taken] == line[..from + taken];
  }

  /* ---------- what the client sees ---------- */

  const NEWLINE: bv8 := 10

  /** Cuts a stream behind every newline: the whole lines, and what follows the last of them. */
  function Cut(stream: seq<bv8>): (r: (seq<Line>, seq<bv8>))
    decreases |stream|
  {
    var k := FirstNewline(stream);
    if k == |stream| then ([], stream)
    else
      var rest := Cut(stream[k + 1..]);
      ([stream[..k + 1]] + rest.0, rest.1)
  }

  function FirstNewline(s: seq<bv8>): (k: nat)
    ensures k <= |s| && (forall i | 0 <= i < k :: s[i] != NEWLINE) && (k < |s| ==> s[k] == NEWLINE)
  {
    if s == [] || s[0] == NEWLINE then 0 else 1 + FirstNewline(s[1..])
  }

  /** A line as the server builds it: its only newline is its last byte. */
  predicate Terminated(line: Line) {
    line != [] && FirstNewline(line) == |line| - 1
  }

  /** A whole line in front is cut off. */
  lemma CutLine(line: Line, rest: seq<bv8>)
    requires Terminated(line)
    ensures Cut(line + rest) == ([line] + Cut(rest).0, Cut(rest).1)
  {
    var stream := line + rest;
    assert FirstNewline(stream) == |line| - 1 by {
      hide FirstNewline;
      assert forall i | 0 <= i < |line| :: stream[i] == line[i];
    }
    assert stream[..|line|] == line && stream[|line|..] == rest;
  }

  lemma CutNothing(partial: seq<bv8>)
    requires FirstNewline(partial) == |partial|
    ensures Cut(partial) == ([], partial)
  {
  }

  lemma ConcatFront(lines: seq<Line>, partial: seq<bv8>)
    requires lines != []
    ensures Concat(lines) + partial == lines[0] + (Concat(lines[1..]) + partial)
  {
  }

  lemma {:induction false} CutConcat(lines: seq<Line>, partial: seq<bv8>)
    requires forall l | l in lines :: Terminated(l)
    requires FirstNewline(partial) == |partial|
    ensures Cut(Concat(lines) + partial) == (lines, partial)
  {
    if lines == [] {
      assert Concat(lines) + partial == partial;
      CutNothing(partial);
    } else {
      ConcatFront(lines, partial);
      hide *;
      assert Terminated(lines[0]);
      CutConcat(lines[1..], partial);
      CutLine(lines[0], Concat(lines[1..]) + partial);
      assert [lines[0]] + lines[1..] == lines;
    }
  }

  /** A client that cuts its bytes at newlines reads exactly the lines that went out, and the start of the next. */
  lemma ClientReadsWholeLines(box: Outbox)
    requires box.Valid() && forall l | l in box.ledger.pushed :: Terminated(l)
    ensures Increasing(box.ledger.sent, |box.ledger.pushed|)
    ensures Cut(box.Stream()) == (Picked(box.ledger.pushed, box.ledger.sent), box.Partial())
  {
    var ledger, partial := box.ledger, box.Partial();
    SplitIncreasing(ledger.sent, ledger.waiting, |ledger.pushed|);
    if partial != [] {
      assert box.lines[0] in ledger.pushed;
      assert FirstNewline(partial) == |partial|;
    }
    CutConcat(Picked(ledger.pushed, ledger.sent), partial);
  }
}

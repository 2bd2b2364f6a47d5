/**
 * dispatch_to_available and the priority of a task (private/impl/schedulers/centralized_utils.hpp), on the center's
 * state vector. The queue is a bag; its top is any task of the highest priority.
 */
module CentralizedDispatch {
  import opened Common
  import opened Centralized
  import R = CentralizedRuns

  /* ---------- priorities ---------- */

  /** get_nb_set_bits of a char: the multiplication, mask and remainder count the bits that are set. */
  function SetBits(c: bv8): (n: bv64)
    ensures var x := c as bv64;
            n == (x & 1) + ((x >> 1) & 1) + ((x >> 2) & 1) + ((x >> 3) & 1)
                 + ((x >> 4) & 1) + ((x >> 5) & 1) + ((x >> 6) & 1) + ((x >> 7) & 1)
  {
    ((c as bv64 * 0x804_0201) & 0x1_1111_1111) % 15
  }

  function Ones(c: bv8): nat {
    SetBits(c) as nat
  }

  /** The conversion of a runnable id to char. */
  function LowByte(id: int): bv8 {
    (id % 256) as bv8
  }

  /** get_nb_set_bits of a packet. */
  function PacketBits(p: Packet): nat {
    if p == [] then 0 else Ones(p[0]) + PacketBits(p[1..])
  }

  /** get_nb_set_bits of a bundle: of its packet and of the low byte of its runnable id. */
  function Priority(b: Bundle): nat {
    PacketBits(b.packet) + Ones(LowByte(b.runnableId))
  }

  /** Each byte counts once, wherever it stands, and so does the low byte of the runnable id. */
  lemma PriorityAdds(p: Packet, c: bv8, q: Packet, id: int)
    ensures Priority(Bundle(p + [c] + q, id)) == Priority(Bundle(p + q, id)) + Ones(c)
    ensures Priority(Bundle([], id)) == Ones(LowByte(id))
  {
    hide Ones, LowByte;
    PacketBitsAdds(p, c, q);
  }

  lemma {:induction false} PacketBitsAdds(p: Packet, c: bv8, q: Packet)
    ensures PacketBits(p + [c] + q) == PacketBits(p + q) + Ones(c)
  {
    hide Ones;
    if p == [] {
      assert (p + [c] + q)[1..] == q && p + q == q;
    } else {
      PacketBitsAdds(p[1..], c, q);
      assert (p + [c] + q)[1..] == p[1..] + [c] + q && (p + q)[1..] == p[1..] + q;
    }
  }

  /** No queued task has a higher priority. */
  predicate Top(queue: multiset<Bundle>, b: Bundle) {
    b in queue && forall c | c in queue :: Priority(c) <= Priority(b)
  }

  lemma {:induction false} TopExists(queue: multiset<Bundle>) returns (b: Bundle)
    requires queue != multiset{}
    ensures Top(queue, b)
    decreases |queue|
  {
    hide Priority;
    b :| b in queue;
    var rest := queue - multiset{b};
    assert forall x :: x in queue ==> x == b || x in rest;
    if rest != multiset{} {
      var c := TopExists(rest);
      assert c in queue;
      if Priority(b) < Priority(c) {
        b := c;
      }
    }
  }

  /** Higher priorities come first, and what is left has no higher one. */
  ghost predicate ByPriority(hs: seq<Handed>, rest: multiset<Bundle>) {
    && (forall j, k | 0 <= j < k < |hs| :: Priority(hs[j].bundle) >= Priority(hs[k].bundle))
    && (forall k, c | 0 <= k < |hs| && c in rest :: Priority(c) <= Priority(hs[k].bundle))
  }

  lemma TopNext(hs: seq<Handed>, rest: multiset<Bundle>, rank: nat, b: Bundle)
    requires ByPriority(hs, rest) && Top(rest, b)
    ensures ByPriority(hs + [Handed(rank, b)], rest - multiset{b})
  {
    hide Priority;
    assert forall c :: c in rest - multiset{b} ==> c in rest;
  }

  /* ---------- dispatching ---------- */

  /** A queued task and the rank it is handed to. */
  datatype Handed = Handed(rank: nat, bundle: Bundle)

  ghost function BundlesOf(hs: seq<Handed>): multiset<Bundle> {
    if hs == [] then multiset{} else BundlesOf(hs[..|hs| - 1]) + multiset{hs[|hs| - 1].bundle}
  }

  /** The ranks that were given a task, in ascending order, each of them available before. */
  predicate Fit(before: seq<Standing>, hs: seq<Handed>) {
    && (forall k | 0 <= k < |hs| :: 1 <= hs[k].rank < |before| && before[hs[k].rank] == IsAvailable)
    && (forall j, k | 0 <= j < k < |hs| :: hs[j].rank < hs[k].rank)
  }

  predicate Given(hs: seq<Handed>, r: nat) {
    exists k | 0 <= k < |hs| :: hs[k].rank == r
  }

  lemma GivenMore(hs: seq<Handed>, rank: nat, b: Bundle)
    ensures forall r: nat :: Given(hs + [Handed(rank, b)], r) <==> Given(hs, r) || r == rank
    ensures BundlesOf(hs + [Handed(rank, b)]) == BundlesOf(hs) + multiset{b}
  {
    var more := hs + [Handed(rank, b)];
    assert more[..|hs|] == hs;
    forall r: nat ensures Given(more, r) <==> Given(hs, r) || r == rank {
      if Given(hs, r) {
        var k :| 0 <= k < |hs| && hs[k].rank == r;
        assert more[k].rank == r;
      }
      assert more[|hs|].rank == rank;
    }
  }

  lemma TakenOne(rest: multiset<Bundle>, b: Bundle, out: multiset<Bundle>)
    requires b in rest
    ensures (rest - multiset{b}) + (out + multiset{b}) == rest + out
  {
  }

  /** The state vector after the ranks in hs were served. */
  ghost predicate Served(before: seq<Standing>, after: seq<Standing>, hs: seq<Handed>) {
    |after| == |before| && forall r: nat | r < |before| :: after[r] == if Given(hs, r) then IsAssigned else before[r]
  }

  /** No available rank from 1 on and below end was passed over. */
  ghost predicate NoneSkipped(before: seq<Standing>, hs: seq<Handed>, end: nat) {
    forall j: nat | 1 <= j < end && j < |before| && before[j] == IsAvailable :: Given(hs, j)
  }

  lemma ServeOne(before: seq<Standing>, now: seq<Standing>, hs: seq<Handed>, rank: nat, b: Bundle)
    requires Fit(before, hs) && Served(before, now, hs) && NoneSkipped(before, hs, rank)
    requires 1 <= rank < |before| && now[rank] == IsAvailable && forall k | 0 <= k < |hs| :: hs[k].rank < rank
    ensures Fit(before, hs + [Handed(rank, b)]) && Served(before, now[rank := IsAssigned], hs + [Handed(rank, b)])
    ensures NoneSkipped(before, hs + [Handed(rank, b)], rank + 1)
  {
    GivenMore(hs, rank, b);
    hide Given;
  }

  lemma SkipOne(before: seq<Standing>, now: seq<Standing>, hs: seq<Handed>, rank: nat)
    requires Served(before, now, hs) && NoneSkipped(before, hs, rank) && rank < |before| && now[rank] != IsAvailable
    ensures NoneSkipped(before, hs, rank + 1)
  {
  }

  /**
   * One task to each available rank until the queue is empty, never to the center, and tasks of higher priority first:
   * no available rank before the last one served is passed over, and either no task or no available rank is left.
   */
  method DispatchToAvailable(queue: multiset<Bundle>, states: array<Standing>)
    returns (rest: multiset<Bundle>, sent: seq<Handed>)
    modifies states
    ensures Fit(old(states[..]), sent) && rest + BundlesOf(sent) == queue && Served(old(states[..]), states[..], sent)
    ensures rest == multiset{} || NoneSkipped(old(states[..]), sent, states.Length)
    ensures forall k | 0 <= k < |sent| :: NoneSkipped(old(states[..]), sent, sent[k].rank)
    ensures ByPriority(sent, rest)
  {
    hide BundlesOf, Given, NoneSkipped, Priority, ByPriority;
    rest, sent := queue, [];
    NothingYet(states[..], queue);
    assert ByPriority(sent, rest) by {
      NothingFirst(rest);
    }
    ghost var before := states[..];
    var rank := 1;
    while rank < states.Length && rest != multiset{}
      invariant 1 <= rank && (rank <= states.Length || rank == 1)
      invariant Fit(before, sent) && rest + BundlesOf(sent) == queue && Served(before, states[..], sent)
      invariant NoneSkipped(before, sent, rank) && forall k | 0 <= k < |sent| :: sent[k].rank < rank
      invariant ByPriority(sent, rest)
    {
      if states[rank] == IsAvailable {
        var _ := TopExists(rest);
        var b :| Top(rest, b);
        TopNext(sent, rest, rank, b);
        ServeOne(before, states[..], sent, rank, b);
        GivenMore(sent, rank, b);
        TakenOne(rest, b, BundlesOf(sent));
        ghost var now := states[..];
        rest := rest - multiset{b};
        sent := sent + [Handed(rank, b)];
        states[rank] := IsAssigned;
        assert states[..] == now[rank := IsAssigned];
      } else {
        SkipOne(before, states[..], sent, rank);
      }
      rank := rank + 1;
    }
    SkippedLess(before, sent, rank, states.Length);
  }

  lemma NothingFirst(queue: multiset<Bundle>)
    ensures ByPriority([], queue)
  {
  }

  lemma NothingYet(before: seq<Standing>, queue: multiset<Bundle>)
    ensures Served(before, before, []) && NoneSkipped(before, [], 1) && queue + BundlesOf([]) == queue
  {
  }

  lemma SkippedLess(before: seq<Standing>, hs: seq<Handed>, end: nat, length: nat)
    requires NoneSkipped(before, hs, end) && |before| == length
    ensures end >= length ==> NoneSkipped(before, hs, length)
    ensures forall k | 0 <= k < |hs| && hs[k].rank < end :: NoneSkipped(before, hs, hs[k].rank)
  {
  }

  /* ---------- as steps of the protocol ---------- */

  function Standings(s: State): seq<Standing> {
    [IsRunning] + seq(|s.workers|, i requires 0 <= i < |s.workers| => s.workers[i].standing)
  }

  function Dispatches(hs: seq<Handed>): seq<Action> {
    seq(|hs|, i requires 0 <= i < |hs| => Dispatch(if hs[i].rank > 0 then hs[i].rank - 1 else 0, hs[i].bundle))
  }

  lemma {:induction false} FirstBundle(hs: seq<Handed>)
    requires hs != []
    ensures BundlesOf(hs) == multiset{hs[0].bundle} + BundlesOf(hs[1..])
  {
    var l := |hs| - 1;
    if l > 0 {
      FirstBundle(hs[..l]);
      assert hs[..l][1..] == hs[1..][..l - 1];
      assert hs[1..][l - 1] == hs[l];
    }
  }

  /** What dispatch_to_available hands out is a run of dispatch steps, one per task, that leaves the rest queued. */
  lemma {:induction false} DispatchRuns(s: State, hs: seq<Handed>, rest: multiset<Bundle>)
    requires s.center == Serving && Fit(Standings(s), hs) && s.queue == rest + BundlesOf(hs)
    ensures R.Run(s, Dispatches(hs)).Some? && R.Run(s, Dispatches(hs)).value.Next?
    ensures R.Run(s, Dispatches(hs)).value.state.queue == rest
    ensures R.Run(s, Dispatches(hs)).value.state.available == s.available - |hs|
    decreases |hs|
  {
    hide BundlesOf, Fit, Enabled, Step;
    if hs == [] {
      NoBundles(hs);
      assert rest + multiset{} == rest;
    } else {
      FirstBundle(hs);
      OneLess(s.queue, rest, hs[0].bundle, BundlesOf(hs[1..]));
      FirstFits(s, hs);
      var w, b := hs[0].rank - 1, hs[0].bundle;
      StillFit(s, hs);
      DispatchRuns(Dispatched(s, w, b), hs[1..], rest);
      assert Dispatches(hs)[1..] == Dispatches(hs[1..]);
      DispatchStep(s, w, b, Dispatches(hs));
    }
  }

  lemma NoBundles(hs: seq<Handed>)
    requires hs == []
    ensures BundlesOf(hs) == multiset{}
  {
  }

  lemma OneLess(queue: multiset<Bundle>, rest: multiset<Bundle>, b: Bundle, more: multiset<Bundle>)
    requires queue == rest + (multiset{b} + more)
    ensures b in queue && queue - multiset{b} == rest + more
  {
  }

  lemma FirstFits(s: State, hs: seq<Handed>)
    requires s.center == Serving && hs != [] && Fit(Standings(s), hs) && hs[0].bundle in s.queue
    ensures hs[0].rank >= 1 && Enabled(s, Dispatch(hs[0].rank - 1, hs[0].bundle))
  {
    assert Standings(s)[hs[0].rank] == s.workers[hs[0].rank - 1].standing;
  }

  lemma DispatchStep(s: State, w: nat, b: Bundle, actions: seq<Action>)
    requires Enabled(s, Dispatch(w, b)) && actions != [] && actions[0] == Dispatch(w, b)
    ensures R.Run(s, actions) == R.Run(Dispatched(s, w, b), actions[1..])
  {
  }

  lemma StillFit(s: State, hs: seq<Handed>)
    requires hs != [] && Fit(Standings(s), hs) && hs[0].bundle in s.queue
    ensures Fit(Standings(Dispatched(s, hs[0].rank - 1, hs[0].bundle)), hs[1..])
  {
    var s1 := Dispatched(s, hs[0].rank - 1, hs[0].bundle);
    forall k | 0 <= k < |hs[1..]|
      ensures 1 <= hs[1..][k].rank < |Standings(s1)| && Standings(s1)[hs[1..][k].rank] == IsAvailable
    {
      assert hs[1..][k] == hs[k + 1] && hs[0].rank < hs[k + 1].rank;
      assert Standings(s)[hs[k + 1].rank] == s.workers[hs[k + 1].rank - 1].standing;
    }
  }

  /** With a deficit of zero and a queued task, clear_buffer hands a task to some rank. */
  lemma ClearBufferProgress(s: State, hs: seq<Handed>, rest: multiset<Bundle>) returns (r: nat)
    requires R.Inv(s) && s.det.deficit == 0 && s.queue != multiset{} && s.queue == rest + BundlesOf(hs)
    requires rest == multiset{} || NoneSkipped(Standings(s), hs, |Standings(s)|)
    ensures Given(hs, r)
  {
    R.AllQuiet(s);
    if rest == multiset{} {
      assert rest + BundlesOf(hs) == BundlesOf(hs);
      r := SomeHanded(hs);
    } else {
      FirstAvailable(s);
      r := 1;
    }
  }

  lemma FirstAvailable(s: State)
    requires s.workers != []
    ensures |Standings(s)| >= 2 && Standings(s)[1] == s.workers[0].standing
  {
  }

  lemma SomeHanded(hs: seq<Handed>) returns (r: nat)
    requires BundlesOf(hs) != multiset{}
    ensures Given(hs, r)
  {
    r := hs[0].rank;
  }
}

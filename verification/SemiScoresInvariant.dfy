/** What every step of the semi-centralized run keeps of its scores, counters and collected solutions. */
module SemiScoresInvariant {
  import opened Common
  import opened SemiScores
  import T = SemiProtocol
  import H = Handoff
  import F = Forest

  /* ---------- the side channels ---------- */

  /** The global score after k broadcasts. */
  function ValueAt(s: State, k: nat): int {
    if 0 < k <= |s.broadcasts| then s.broadcasts[k - 1] else s.initial
  }

  /** Each worker has received a prefix of the broadcasts, and the rest is queued for it. */
  ghost predicate ScoreChannels(s: State) {
    && Sized(s)
    && s.scoresSent == |s.broadcasts|
    && s.best == ValueAt(s, |s.broadcasts|)
    && (forall w | 1 <= w < s.t.n ::
         && s.books[w].scoresIn <= |s.broadcasts|
         && s.scoreNet[w] == s.broadcasts[s.books[w].scoresIn..]
         && s.books[w].global == ValueAt(s, s.books[w].scoresIn))
    && (forall i: nat, j: nat | i < j <= |s.broadcasts| :: Better(s.goal, ValueAt(s, j), ValueAt(s, i)))
  }

  /** Received plus queued is what was sent, and every list names workers other than its receiver. */
  ghost predicate HelperChannels(s: State) {
    && Sized(s) && F.Inv(s.forest)
    && (forall w | 1 <= w < s.t.n :: s.books[w].helpersIn + |s.helperNet[w]| == s.helpersSent[w])
    && (forall w, v | 1 <= w < s.t.n && v in s.helperNet[w] ::
         |v| <= s.t.n && forall x | x in v :: H.Helper(H.ToHelper(s.t.n, w), x))
  }

  lemma GlobalNotBetter(s: State, w: nat)
    requires ScoreChannels(s) && 1 <= w < s.t.n
    ensures !Better(s.goal, s.books[w].global, s.best)
  {
    var k := s.books[w].scoresIn;
    if k < |s.broadcasts| {
      assert Better(s.goal, ValueAt(s, |s.broadcasts|), ValueAt(s, k));
    }
  }

  lemma ScoreReceivedChannels(s: State, w: nat)
    requires ScoreChannels(s) && 1 <= w < s.t.n && s.scoreNet[w] != []
    ensures ScoreChannels(ScoreReceived(s, w))
  {
    var s' := ScoreReceived(s, w);
    assert forall k: nat :: ValueAt(s', k) == ValueAt(s, k);
  }

  /** drain_center_messages ends with the center's count and, since nothing is sent any more, its score. */
  lemma {:induction false} ScoresDrainedChannels(s: State, w: nat, count: int)
    requires ScoreChannels(s) && 1 <= w < s.t.n && 0 <= count <= |s.broadcasts|
    ensures count - s.books[w].scoresIn <= |s.scoreNet[w]|
    ensures var s' := ScoresDrained(s, w, count);
            && ScoreChannels(s') && SameValues(s, s')
            && (s.books[w].scoresIn <= count
               ==> s'.books[w].scoresIn == count && s'.books[w].global == ValueAt(s, count))
            && s'.helperNet == s.helperNet
            && (forall r | 0 <= r < |s.books| :: s'.books[r].helpersIn == s.books[r].helpersIn)
    decreases count - s.books[w].scoresIn
  {
    if s.books[w].scoresIn < count {
      ScoreReceivedChannels(s, w);
      ScoresDrainedChannels(ScoreReceived(s, w), w, count);
    }
  }

  /** Nothing but global scores and counters differs. */
  ghost predicate SameValues(s: State, s': State) {
    && s' == s.(books := s'.books, scoreNet := s'.scoreNet, helperNet := s'.helperNet)
    && |s'.books| == |s.books| && |s'.scoreNet| == |s.scoreNet| && |s'.helperNet| == |s.helperNet|
    && forall w | 0 <= w < |s.books| ::
         s'.books[w] == s.books[w].(global := s'.books[w].global,
           scoresIn := s'.books[w].scoresIn, helpersIn := s'.books[w].helpersIn)
  }

  lemma {:induction false} HelpersDrainedChannels(s: State, w: nat, count: int)
    requires HelperChannels(s) && 1 <= w < s.t.n && count <= s.helpersSent[w]
    ensures count - s.books[w].helpersIn <= |s.helperNet[w]|
    ensures var s' := HelpersDrained(s, w, count);
            && HelperChannels(s') && SameValues(s, s')
            && (s.books[w].helpersIn <= count ==> s'.books[w].helpersIn == count)
            && s'.scoreNet == s.scoreNet
            && (forall r | 0 <= r < |s.books| ::
               s'.books[r].global == s.books[r].global && s'.books[r].scoresIn == s.books[r].scoresIn)
    decreases count - s.books[w].helpersIn
  {
    hide F.Inv, H.Helper;
    if s.books[w].helpersIn < count {
      HelpersDrainedChannels(Popped(s, w), w, count);
    }
  }

  /** A broadcast that improves on the best score improves on all before it. */
  lemma BroadcastImproves(s: State, s': State, v: int)
    requires ScoreChannels(s) && Better(s.goal, v, s.best)
    requires s'.broadcasts == s.broadcasts + [v] && s'.goal == s.goal && s'.initial == s.initial
    ensures forall k: nat | k <= |s.broadcasts| :: ValueAt(s', k) == ValueAt(s, k)
    ensures ValueAt(s', |s'.broadcasts|) == v
    ensures forall i: nat, j: nat | i < j <= |s'.broadcasts| :: Better(s'.goal, ValueAt(s', j), ValueAt(s', i))
  {
    forall i: nat, j: nat | i < j <= |s'.broadcasts| ensures Better(s'.goal, ValueAt(s', j), ValueAt(s', i)) {
      assert ValueAt(s', i) == ValueAt(s, i);
      if j <= |s.broadcasts| {
        assert Better(s.goal, ValueAt(s, j), ValueAt(s, i));
      } else if i < |s.broadcasts| {
        assert Better(s.goal, ValueAt(s, |s.broadcasts|), ValueAt(s, i));
      }
    }
  }

  /** A broadcast is queued behind what each worker has still to receive. */
  lemma BroadcastChannels(s: State, w: nat)
    requires ScoreChannels(s) && 1 <= w < s.t.n && s.books[w].proposing.Some?
    requires Better(s.goal, s.books[w].proposing.value, s.best)
    ensures ScoreChannels(ProposalTaken(s, w))
  {
    hide ValueAt, Better;
    var s', v := ProposalTaken(s, w), s.books[w].proposing.value;
    BroadcastImproves(s, s', v);
    forall x | 1 <= x < s.t.n
      ensures s'.scoreNet[x] == s'.broadcasts[s'.books[x].scoresIn..]
      ensures s'.books[x].global == ValueAt(s', s'.books[x].scoresIn)
    {
      SuffixGrows(s.broadcasts, s.books[x].scoresIn, v);
    }
  }

  lemma SuffixGrows(b: seq<int>, k: nat, v: int)
    requires k <= |b|
    ensures (b + [v])[k..] == b[k..] + [v]
  {
  }

  lemma ProposalTakenChannels(s: State, w: nat)
    requires ScoreChannels(s) && 1 <= w < s.t.n && s.books[w].proposing.Some?
    ensures ScoreChannels(ProposalTaken(s, w))
  {
    var s' := ProposalTaken(s, w);
    if Better(s.goal, s.books[w].proposing.value, s.best) {
      BroadcastChannels(s, w);
    } else {
      assert s' == s.(books := s'.books);
      ScoresFrame(s, s');
    }
  }

  /** Nothing about the broadcasts changes. */
  lemma ScoresFrame(s: State, s': State)
    requires ScoreChannels(s) && Sized(s') && s' == s.(books := s'.books)
    requires forall w | 1 <= w < s.t.n ::
      s'.books[w].global == s.books[w].global && s'.books[w].scoresIn == s.books[w].scoresIn
    ensures ScoreChannels(s')
  {
    forall k: nat ensures ValueAt(s', k) == ValueAt(s, k) {
    }
  }

  lemma ReportedChannels(s: State, t: T.State, o: (F.Center, Option<F.Assignment>))
    requires HelperChannels(s) && F.Handled(s.forest, Next(o)) && t.n == s.t.n
    requires |t.det| == |t.phase| == |t.slot| == t.n
    ensures HelperChannels(Reported(s, t, o))
  {
    var s' := Reported(s, t, o);
    forall w, v | 1 <= w < s.t.n && v in s'.helperNet[w]
      ensures |v| <= s.t.n && forall x | x in v :: H.Helper(H.ToHelper(s.t.n, w), x)
    {
      assert v in s.helperNet[w] || (o.1.Some? && w == o.1.value.to && v == [o.1.value.helper as int]);
    }
  }

  lemma HelperFrame(s: State, s': State)
    requires HelperChannels(s) && Sized(s') && s'.t.n == s.t.n
    requires s'.helperNet == s.helperNet && s'.helpersSent == s.helpersSent && s'.forest == s.forest
    requires forall w | 1 <= w < s.t.n :: s'.books[w].helpersIn == s.books[w].helpersIn
    ensures HelperChannels(s')
  {
  }

  /** Steps that leave the side channels alone keep their invariants. */
  lemma ChannelsFrame(s: State, s': State)
    requires ScoreChannels(s) && HelperChannels(s) && Sized(s')
    requires s'.t.n == s.t.n && s'.goal == s.goal && s'.initial == s.initial
    requires s'.broadcasts == s.broadcasts && s'.best == s.best
    requires s'.scoresSent == s.scoresSent && s'.scoreNet == s.scoreNet
    requires s'.helperNet == s.helperNet && s'.helpersSent == s.helpersSent && s'.forest == s.forest
    requires forall w | 1 <= w < s.t.n ::
      s'.books[w].global == s.books[w].global && s'.books[w].scoresIn == s.books[w].scoresIn
        && s'.books[w].helpersIn == s.books[w].helpersIn
    ensures ScoreChannels(s') && HelperChannels(s')
  {
    forall i: nat, j: nat | i < j <= |s'.broadcasts| ensures Better(s'.goal, ValueAt(s', j), ValueAt(s', i)) {
      assert Better(s.goal, ValueAt(s, j), ValueAt(s, i));
    }
  }

  /* ---------- local scores and stored results ---------- */

  /** A score is the default one or was accepted somewhere. */
  ghost predicate Known(s: State, v: int) {
    v == s.initial || exists i :: 0 <= i < |s.accepted| && s.accepted[i].score == v
  }

  /** The worker's last word on its score has reached the center. */
  predicate CaughtUp(s: State, w: nat)
    requires Sized(s) && w < s.t.n
  {
    || s.t.phase[w] != T.Working
    || s.t.slot[w].funnel == H.Stopped
    || (s.t.slot[w].funnel == H.Closing && s.books[w].synced && s.books[w].proposing == None)
  }

  predicate InFunnelEnd(s: State, w: nat)
    requires Sized(s) && w < s.t.n
  {
    s.t.slot[w].funnel == H.Closing || s.t.slot[w].funnel == H.Stopped
  }

  predicate Proposes(s: State, w: nat, v: int)
    requires Sized(s) && w < s.t.n
  {
    && s.t.phase[w] == T.Working
    && !Better(s.goal, v, s.books[w].local)
    && (s.t.slot[w].funnel == H.InSync
       || (s.t.slot[w].funnel == H.Closing && s.books[w].synced && v == s.books[w].local))
  }

  ghost predicate WorkerValues(s: State, w: nat)
    requires Sized(s) && w < s.t.n
  {
    var b := s.books[w];
    && Known(s, b.local) && !Better(s.goal, s.initial, b.local)
    && (b.proposing.Some? ==> Known(s, b.proposing.value) && Proposes(s, w, b.proposing.value))
    && (b.synced && s.t.phase[w] == T.Working ==> InFunnelEnd(s, w))
    && (CaughtUp(s, w) ==> !Better(s.goal, b.local, s.best))
    && (b.stored.Bytes? && b.stored.packet != [] ==> Acceptance(w, b.local, b.stored.packet) in s.accepted)
  }

  ghost predicate AcceptedOk(s: State)
    requires Sized(s)
  {
    forall i | 0 <= i < |s.accepted| ::
      var a := s.accepted[i];
      && 1 <= a.worker < s.t.n && a.packet != [] && Better(s.goal, a.score, s.initial)
      && !Better(s.goal, a.score, s.books[a.worker].local)
  }

  /** The i-th acceptance is unbeaten and its worker still holds it. */
  ghost predicate Holds(s: State, i: nat)
    requires Sized(s) && i < |s.accepted|
  {
    var a := s.accepted[i];
    && (forall j | 0 <= j < |s.accepted| :: !Better(s.goal, s.accepted[j].score, a.score))
    && 1 <= a.worker < s.t.n && s.books[a.worker].local == a.score && s.books[a.worker].stored == Bytes(a.packet)
  }

  ghost predicate Values(s: State)
    requires Sized(s)
  {
    && (forall w: nat | 1 <= w < s.t.n :: WorkerValues(s, w))
    && AcceptedOk(s)
    && (s.accepted != [] ==> exists i: nat :: i < |s.accepted| && Holds(s, i))
    && (forall k: nat | k <= |s.broadcasts| :: Known(s, ValueAt(s, k)))
  }

  /** Values survive when scores and results stay and no worker becomes caught up. */
  lemma ValuesFrame(s: State, s': State)
    requires Sized(s) && Sized(s') && Values(s)
    requires s'.t.n == s.t.n && s'.goal == s.goal && s'.initial == s.initial && s'.accepted == s.accepted
    requires s'.broadcasts == s.broadcasts && s'.best == s.best
    requires forall w | 1 <= w < s.t.n ::
      s'.books[w].local == s.books[w].local && s'.books[w].stored == s.books[w].stored
    requires forall w | 1 <= w < s.t.n :: s'.books[w].proposing == s.books[w].proposing
    requires forall w: nat | 1 <= w < s.t.n :: CaughtUp(s', w) ==> CaughtUp(s, w)
    requires forall w: nat | 1 <= w < s.t.n && s'.books[w].synced && s'.t.phase[w] == T.Working :: InFunnelEnd(s', w)
    requires forall w: nat | 1 <= w < s.t.n && s'.books[w].proposing.Some? ::
      Proposes(s', w, s'.books[w].proposing.value)
    ensures Values(s')
  {
    forall w: nat | 1 <= w < s.t.n ensures WorkerValues(s', w) {
      assert WorkerValues(s, w);
      assert Known(s, s.books[w].local);
    }
    forall k: nat | k <= |s'.broadcasts| ensures Known(s', ValueAt(s', k)) {
      assert Known(s, ValueAt(s, k));
    }
    if s.accepted != [] {
      var i: nat :| i < |s.accepted| && Holds(s, i);
      assert Holds(s', i);
    }
  }

  /** Global scores and counters are not looked at. */
  lemma ValuesSame(s: State, s': State)
    requires Sized(s) && Sized(s') && Values(s) && SameValues(s, s')
    ensures Values(s')
  {
    forall w: nat | 1 <= w < s.t.n
      ensures s'.books[w].synced && s'.t.phase[w] == T.Working ==> InFunnelEnd(s', w)
      ensures s'.books[w].proposing.Some? ==> Proposes(s', w, s'.books[w].proposing.value)
    {
      assert WorkerValues(s, w);
    }
    ValuesFrame(s, s');
  }

  /** No known score beats the score that is held. */
  lemma HeldIsBest(s: State, i: nat, v: int)
    requires Sized(s) && AcceptedOk(s) && i < |s.accepted| && Holds(s, i) && Known(s, v)
    ensures !Better(s.goal, v, s.accepted[i].score)
  {
  }

  /** Acceptances are only added, so what was known stays known. */
  lemma KnownStays(s: State, s': State, v: int)
    requires Known(s, v) && s'.initial == s.initial && s.accepted <= s'.accepted
    ensures Known(s', v)
  {
    if v != s.initial {
      var i :| 0 <= i < |s.accepted| && s.accepted[i].score == v;
      assert s'.accepted[i].score == v;
    }
  }

  lemma ScoreUpdatedWorker(s: State, w: nat, x: nat)
    requires ScoreChannels(s) && 1 <= w < s.t.n && 1 <= x < s.t.n && WorkerValues(s, x)
    requires s.books[w].proposing == None && s.t.phase[w] == T.Working
    requires s.t.slot[w].funnel == H.InSync || s.t.slot[w].funnel == H.Closing
    requires Known(s, s.books[w].global)
    ensures WorkerValues(ScoreUpdated(s, w), x)
  {
    var s' := ScoreUpdated(s, w);
    GlobalNotBetter(s, w);
    KnownStays(s, s', s'.books[x].local);
    if s'.books[x].proposing.Some? {
      KnownStays(s, s', s'.books[x].proposing.value);
    }
  }

  lemma ScoreUpdatedValues(s: State, w: nat)
    requires ScoreChannels(s) && Values(s) && 1 <= w < s.t.n
    requires s.books[w].proposing == None && s.t.phase[w] == T.Working
    requires s.t.slot[w].funnel == H.InSync || s.t.slot[w].funnel == H.Closing
    ensures Values(ScoreUpdated(s, w))
  {
    hide WorkerValues, Known;
    var s' := ScoreUpdated(s, w);
    assert Known(s, ValueAt(s, s.books[w].scoresIn));
    forall x: nat | 1 <= x < s.t.n ensures WorkerValues(s', x) {
      ScoreUpdatedWorker(s, w, x);
    }
    forall k: nat | k <= |s'.broadcasts| ensures Known(s', ValueAt(s', k)) {
      KnownStays(s, s', ValueAt(s, k));
    }
    if s.accepted != [] {
      var i: nat :| i < |s.accepted| && Holds(s, i);
      HeldIsBest(s, i, s.books[w].global);
      assert Holds(s', i);
    }
  }

  lemma ProposalTakenWorker(s: State, w: nat, x: nat)
    requires Sized(s) && 1 <= w < s.t.n && 1 <= x < s.t.n && WorkerValues(s, x)
    requires s.books[w].proposing.Some?
    ensures WorkerValues(ProposalTaken(s, w), x)
  {
    if x == w {
      ProposerDone(s, w);
    } else {
      OtherWaits(s, w, x);
    }
  }

  lemma ProposerDone(s: State, w: nat)
    requires Sized(s) && 1 <= w < s.t.n && WorkerValues(s, w) && s.books[w].proposing.Some?
    ensures WorkerValues(ProposalTaken(s, w), w)
  {
    hide Known;
    KnownStays(s, ProposalTaken(s, w), s.books[w].local);
  }

  lemma OtherWaits(s: State, w: nat, x: nat)
    requires Sized(s) && 1 <= w < s.t.n && 1 <= x < s.t.n && x != w && WorkerValues(s, x) && s.books[w].proposing.Some?
    ensures WorkerValues(ProposalTaken(s, w), x)
  {
    hide Known;
    var s' := ProposalTaken(s, w);
    KnownStays(s, s', s.books[x].local);
    if s'.books[x].proposing.Some? {
      KnownStays(s, s', s'.books[x].proposing.value);
    }
  }

  lemma ProposalKnown(s: State, w: nat)
    requires Sized(s) && w < s.t.n && WorkerValues(s, w) && s.books[w].proposing.Some?
    ensures Known(s, s.books[w].proposing.value)
  {
  }

  lemma ProposalTakenValues(s: State, w: nat)
    requires ScoreChannels(s) && Values(s) && 1 <= w < s.t.n && s.books[w].proposing.Some?
    ensures Values(ProposalTaken(s, w))
  {
    hide WorkerValues, Better, Known;
    var s' := ProposalTaken(s, w);
    ProposalKnown(s, w);
    forall x: nat | 1 <= x < s.t.n ensures WorkerValues(s', x) {
      ProposalTakenWorker(s, w, x);
    }
    forall k: nat | k <= |s'.broadcasts| ensures Known(s', ValueAt(s', k)) {
      KnownStays(s, s', if k <= |s.broadcasts| then ValueAt(s, k) else s.books[w].proposing.value);
    }
    HeldStays(s, s');
  }

  /** Only the proposal of a worker changes, so what it holds stays held. */
  lemma HeldStays(s: State, s': State)
    requires Sized(s) && Sized(s') && s'.t.n == s.t.n && s'.goal == s.goal
    requires s'.initial == s.initial && s'.accepted == s.accepted
    requires forall w | 1 <= w < s.t.n ::
      s'.books[w].local == s.books[w].local && s'.books[w].stored == s.books[w].stored
    requires AcceptedOk(s) && (s.accepted != [] ==> exists i: nat :: i < |s.accepted| && Holds(s, i))
    ensures AcceptedOk(s') && (s.accepted != [] ==> exists i: nat :: i < |s.accepted| && Holds(s', i))
  {
    if s.accepted != [] {
      var i: nat :| i < |s.accepted| && Holds(s, i);
      assert Holds(s', i);
    }
  }

  lemma AcceptedWorker(s: State, w: nat, x: nat, score: int, packet: Packet)
    requires Sized(s) && 1 <= w < s.t.n && 1 <= x < s.t.n && WorkerValues(s, x)
    requires s.t.phase[w] == T.Working && packet != [] && !InFunnelEnd(s, w)
    requires Better(s.goal, score, s.books[w].local)
    ensures WorkerValues(Accepted(s, w, score, packet), x)
  {
    var s' := Accepted(s, w, score, packet);
    assert s'.accepted[|s.accepted|] == Acceptance(w, score, packet);
    KnownStays(s, s', s.books[x].local);
    if s'.books[x].proposing.Some? {
      KnownStays(s, s', s'.books[x].proposing.value);
    }
  }

  lemma AcceptedHolds(s: State, w: nat, score: int, packet: Packet)
    requires Sized(s) && Values(s) && 1 <= w < s.t.n && Better(s.goal, score, s.books[w].local)
    ensures var s' := Accepted(s, w, score, packet);
            exists i: nat :: i < |s'.accepted| && Holds(s', i)
  {
    var s' := Accepted(s, w, score, packet);
    if exists i: nat :: i < |s.accepted| && Holds(s, i) && !Better(s.goal, score, s.accepted[i].score) {
      var i: nat :| i < |s.accepted| && Holds(s, i) && !Better(s.goal, score, s.accepted[i].score);
      assert Holds(s', i);
    } else {
      assert Holds(s', |s.accepted|);
    }
  }

  lemma AcceptedValues(s: State, w: nat, score: int, packet: Packet)
    requires Sized(s) && Values(s) && 1 <= w < s.t.n && s.t.phase[w] == T.Working && packet != []
    requires !InFunnelEnd(s, w)
    ensures Values(Accepted(s, w, score, packet))
  {
    var s' := Accepted(s, w, score, packet);
    if Better(s.goal, score, s.books[w].local) {
      assert WorkerValues(s, w);
      forall x: nat | 1 <= x < s.t.n ensures WorkerValues(s', x) {
        AcceptedWorker(s, w, x, score, packet);
      }
      forall k: nat | k <= |s'.broadcasts| ensures Known(s', ValueAt(s', k)) {
        KnownStays(s, s', ValueAt(s, k));
      }
      AcceptedHolds(s, w, score, packet);
    }
  }
}

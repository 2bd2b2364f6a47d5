/** What the steps at the end of a semi-centralized run keep: notices, drains, solutions and their collection. */
module SemiOutcome {
  import opened Common
  import opened SemiScores
  import opened SemiScoresInvariant
  import opened SemiRuns
  import T = SemiProtocol
  import TI = SemiInvariant
  import TT = SemiTermination
  import H = Handoff

  /* ---------- the last phase ---------- */

  /** Only the protocol part and the collected results differ, with the same slots and no worker newly at work. */
  lemma BooksUnder(s: State, s': State)
    requires ScoreChannels(s) && HelperChannels(s) && Values(s)
    requires s' == s.(t := s'.t, results := s'.results) && |s'.results| == |s.results|
    requires s'.t.n == s.t.n && |s'.t.det| == |s'.t.phase| == s.t.n && s'.t.slot == s.t.slot
    requires forall w | 1 <= w < s.t.n ::
      s'.t.phase[w] == s.t.phase[w] || (s'.t.phase[w] != T.Working && s.t.phase[w] != T.Working)
    ensures ScoreChannels(s') && HelperChannels(s') && Values(s')
  {
    ChannelsFrame(s, s');
    forall x: nat | 1 <= x < s.t.n
      ensures s'.books[x].synced && s'.t.phase[x] == T.Working ==> InFunnelEnd(s', x)
      ensures s'.books[x].proposing.Some? ==> Proposes(s', x, s'.books[x].proposing.value)
    {
      assert WorkerValues(s, x);
    }
    ValuesFrame(s, s');
  }

  lemma NotifiedPayloads(s: State)
    requires Payloads(s) && s.t.center.Notifying? && 1 <= s.t.center.next < s.t.n
    ensures Payloads(s.(t := T.Notified(s.t, s.scoresSent, s.helpersSent[s.t.center.next])))
  {
    var s' := s.(t := T.Notified(s.t, s.scoresSent, s.helpersSent[s.t.center.next]));
    var w0 := s.t.center.next;
    forall w, m | 1 <= w < s.t.n && m in T.Link(s'.t.net, 0, w) && m.Termination?
      ensures m == T.Termination(s'.scoresSent, s'.helpersSent[w])
    {
      assert m in T.Link(s.t.net, 0, w) || (w == w0 && m == T.Termination(s.scoresSent, s.helpersSent[w0]));
    }
  }

  lemma SolutionPayloads(s: State, w: nat)
    requires Payloads(s) && 1 <= w < s.t.n && s.t.phase[w] == T.Leaving
    ensures Payloads(s.(t := s.t.(phase := s.t.phase[w := T.Done], net := T.Put(s.t.net, w, 0, Solution(s.books[w])))))
  {
    var s' := s.(t := s.t.(phase := s.t.phase[w := T.Done], net := T.Put(s.t.net, w, 0, Solution(s.books[w]))));
    forall r, m | 1 <= r < s.t.n && m in T.Link(s'.t.net, r, 0) && IsSolution(m) ensures m == Solution(s'.books[r]) {
      assert m in T.Link(s.t.net, r, 0) || (r == w && m == Solution(s.books[w]));
    }
  }

  lemma CollectedPayloads(s: State)
    requires Payloads(s) && TI.Traffic(s.t) && s.t.center.Collecting? && 1 <= s.t.center.next < s.t.n
    requires T.Link(s.t.net, s.t.center.next, 0) != []
    ensures var r, m := s.t.center.next, T.Link(s.t.net, s.t.center.next, 0)[0];
            Payloads(s.(t := T.Collected(s.t, IsSolution(m)),
                        results := if m.HasResult? then s.results[r := ResultOf(m)] else s.results))
  {
    var r, m := s.t.center.next, T.Link(s.t.net, s.t.center.next, 0)[0];
    assert m in T.Link(s.t.net, r, 0) && TI.Allowed(s.t, r, 0, m);
    DropFinals(s.t.net, r, 0);
  }

  /** The counters a worker finds in its TERMINATION message are exactly what it has received plus what is queued. */
  lemma TerminationCounts(s: State, w: nat)
    requires Books(s) && 1 <= w < s.t.n && T.First(s.t, 0, w).Some? && T.First(s.t, 0, w).value.Termination?
    ensures var m := T.First(s.t, 0, w).value;
            && m.scoreUpdates == s.books[w].scoresIn + |s.scoreNet[w]| == |s.broadcasts|
            && m.nextProcesses == s.books[w].helpersIn + |s.helperNet[w]| == s.helpersSent[w]
            && Drainable(s, w, m.scoreUpdates, m.nextProcesses)
  {
    assert T.First(s.t, 0, w).value in T.Link(s.t.net, 0, w);
  }

  lemma HelpersDrainedScores(s: State, s': State)
    requires ScoreChannels(s) && Sized(s') && SameValues(s, s') && s'.scoreNet == s.scoreNet
    requires forall r | 0 <= r < |s.books| ::
      s'.books[r].global == s.books[r].global && s'.books[r].scoresIn == s.books[r].scoresIn
    ensures ScoreChannels(s')
  {
    forall i: nat, j: nat | i < j <= |s'.broadcasts| ensures Better(s'.goal, ValueAt(s', j), ValueAt(s', i)) {
      assert Better(s.goal, ValueAt(s, j), ValueAt(s, i));
    }
  }

  /** drain_center_messages empties both channels of the worker and leaves it with the center's score. */
  lemma DrainedChannels(s: State, w: nat, scores: int, helpers: int)
    requires ScoreChannels(s) && HelperChannels(s) && 1 <= w < s.t.n
    requires scores == |s.broadcasts| && helpers == s.helpersSent[w]
    ensures Drainable(s, w, scores, helpers)
    ensures var s1 := Drained(s, w, scores, helpers);
            && ScoreChannels(s1) && HelperChannels(s1) && s1.t == s.t && SameValues(s, s1)
            && s1.books[w].global == s1.best && s1.scoreNet[w] == [] && s1.helperNet[w] == []
  {
    DrainSizes(s, w, scores);
    ScoresDrainedChannels(s, w, scores);
    var s1 := ScoresDrained(s, w, scores);
    HelperFrame(s, s1);
    HelpersDrainedChannels(s1, w, helpers);
    HelpersDrainedScores(s1, HelpersDrained(s1, w, helpers));
  }

  lemma LeavingPayloads(s: State, w: nat)
    requires Payloads(s) && TI.Traffic(s.t) && 1 <= w < s.t.n && s.t.phase[w] == T.Idle && T.Link(s.t.net, 0, w) != []
    ensures Payloads(s.(t := s.t.(phase := s.t.phase[w := T.Leaving], net := T.Drop(s.t.net, 0, w))))
  {
    DropFinals(s.t.net, 0, w);
    PayloadsFrame(s, s.(t := s.t.(phase := s.t.phase[w := T.Leaving], net := T.Drop(s.t.net, 0, w))));
  }

  /* ---------- every step ---------- */

  lemma DrainedBooks(s: State, w: nat, scores: int, helpers: int)
    requires Books(s) && TI.Traffic(s.t) && 1 <= w < s.t.n && s.t.phase[w] == T.Idle
    requires T.First(s.t, 0, w) == Some(T.Termination(scores, helpers))
    ensures Drainable(s, w, scores, helpers) && scores >= s.books[w].scoresIn && helpers >= s.books[w].helpersIn
    ensures Books(Left(s, w, scores, helpers))
  {
    hide ScoreChannels, HelperChannels, Values, Payloads, Drained, TI.Traffic, Drainable;
    BooksSized(s);
    TerminationCounts(s, w);
    DrainedChannels(s, w, scores, helpers);
    var t' := s.t.(phase := s.t.phase[w := T.Leaving], net := T.Drop(s.t.net, 0, w));
    var s1 := Drained(s, w, scores, helpers);
    ValuesSame(s, s1);
    SamePayloads(s, s1);
    BooksUnder(s1, s1.(t := t'));
    LeavingPayloads(s1, w);
  }

  lemma TerminationTakenSafe(s: State, w: nat, scores: int, helpers: int)
    requires All(s) && 1 <= w < s.t.n && s.t.phase[w] == T.Idle
    requires T.First(s.t, 0, w) == Some(T.Termination(scores, helpers))
    ensures s.t.det[w].Quiescent() && H.Idle(s.t.slot[w])
    ensures Drainable(s, w, scores, helpers) && scores >= s.books[w].scoresIn && helpers >= s.books[w].helpersIn
    ensures All(Left(s, w, scores, helpers)) && !T.Unfinished(s.t, w)
  {
    TI.TerminationTakenInv(s.t, w);
    TT.SlotsSame(s.t, s.t.(phase := s.t.phase[w := T.Leaving], net := T.Drop(s.t.net, 0, w)));
    DrainedBooks(s, w, scores, helpers);
  }

  lemma NotifiedSafe(s: State)
    requires All(s) && s.t.center.Notifying? && s.t.center.next < s.t.n
    ensures All(s.(t := T.Notified(s.t, s.scoresSent, s.helpersSent[s.t.center.next])))
  {
    hide TI.Accounts, TI.Rooted, TI.Traffic, ScoreChannels, HelperChannels, Values, Payloads;
    AllParts(s);
    var t' := T.Notified(s.t, s.scoresSent, s.helpersSent[s.t.center.next]);
    TI.PlainPutInv(s.t, t', 0, s.t.center.next, T.Termination(s.scoresSent, s.helpersSent[s.t.center.next]));
    TT.SlotsSame(s.t, t');
    NotifiedPayloads(s);
    BooksUnder(s, s.(t := t'));
  }

  lemma SolutionSentSafe(s: State, w: nat)
    requires All(s) && 1 <= w < s.t.n && s.t.phase[w] == T.Leaving
    ensures All(s.(t := s.t.(phase := s.t.phase[w := T.Done], net := T.Put(s.t.net, w, 0, Solution(s.books[w])))))
  {
    hide TI.Inv, ScoreChannels, HelperChannels, Values, Payloads;
    AllParts(s);
    var t' := s.t.(phase := s.t.phase[w := T.Done], net := T.Put(s.t.net, w, 0, Solution(s.books[w])));
    TI.SolutionSentInv(s.t, w, Solution(s.books[w]));
    TT.SlotsSame(s.t, t');
    SolutionPayloads(s, w);
    BooksUnder(s, s.(t := t'));
  }

  lemma CollectedBooks(s: State)
    requires Books(s) && TI.Traffic(s.t) && s.t.center.Collecting? && 1 <= s.t.center.next < s.t.n
    requires T.Link(s.t.net, s.t.center.next, 0) != []
    ensures var r, m := s.t.center.next, T.Link(s.t.net, s.t.center.next, 0)[0];
            Books(s.(t := T.Collected(s.t, IsSolution(m)),
                     results := if m.HasResult? then s.results[r := ResultOf(m)] else s.results))
  {
    var r, m := s.t.center.next, T.Link(s.t.net, s.t.center.next, 0)[0];
    CollectedPayloads(s);
    BooksUnder(s, s.(t := T.Collected(s.t, IsSolution(m)),
                     results := if m.HasResult? then s.results[r := ResultOf(m)] else s.results));
  }

  lemma CollectedSafe(s: State)
    requires All(s) && s.t.center.Collecting? && T.Link(s.t.net, s.t.center.next, 0) != []
    ensures 1 <= s.t.center.next < s.t.n
    ensures var r, m := s.t.center.next, T.Link(s.t.net, s.t.center.next, 0)[0];
            && (m.Running? || m.Available? || IsSolution(m))
            && All(s.(t := T.Collected(s.t, IsSolution(m)),
                      results := if m.HasResult? then s.results[r := ResultOf(m)] else s.results))
  {
    var m := T.Link(s.t.net, s.t.center.next, 0)[0];
    TI.CollectedInv(s.t);
    TT.SlotsSame(s.t, T.Collected(s.t, IsSolution(m)));
    CollectedBooks(s);
  }
}

/** When delivery from the daemon to the agent is at least once: exactly the runs in which no step lets a message go. */
module DeliveryGuarantee {
  import opened Prelude
  import opened Dedup
  import opened Delivery
  import opened DeliveryFacts
  import opened DeliveryRuns

  /** Every accepted message is still held by the daemon or has been acknowledged. */
  ghost predicate KeptUntilAcked(w: World) {
    multiset(w.ledger.accepted) == Live(w) + multiset(w.ledger.acked)
  }

  /** A new message pushes the oldest out of a busy agent's full queue. */
  predicate Overflows(w: World, s: Step) {
    s.Receive? && Enabled(w, s) && IsNew(w.agent, s.msg) && w.agent.busy && |w.agent.pending| >= MAX_PENDING
  }

  /** A batch goes to the agent's input, which never acknowledges it. */
  predicate HandsOver(w: World, s: Step) {
    s == Continue(true) && w.control.Holding?
  }

  /** A drained message takes the key of one still in flight. */
  predicate Overwrites(w: World, s: Step) {
    s.Check?
    && PushedOut(Kept(w.agent.inFlight, s.now), Requeued(w.agent.pending, w.agent.inFlight, s.now), s.now) != []
  }

  predicate Loses(w: World, s: Step) {
    Overflows(w, s) || HandsOver(w, s) || Overwrites(w, s)
  }

  ghost predicate NeverLoses(steps: seq<Step>) {
    steps == [] || (NeverLoses(Front(steps)) && !Loses(Run(Front(steps)), Last(steps)))
  }

  predicate LostNothing(l: Ledger) {
    l.written == [] && l.dropped == [] && l.overwritten == []
  }

  /** What is lost stays lost, and a step loses something new exactly when it is one of the three. */
  lemma {:induction false} StepLosesIff(w: World, s: Step)
    requires NotStranded(w)
    ensures LostNothing(Next(w, s).ledger) <==> LostNothing(w.ledger) && !Loses(w, s)
  {
    hide Messages, Expired, Kept, Requeued, Drain, PushedOut, AfterAcks, AckedBy, Touch, Has, Live;
  }

  lemma {:induction false} RunLosesIff(steps: seq<Step>)
    ensures LostNothing(Run(steps).ledger) <==> NeverLoses(steps)
  {
    if steps != [] {
      RunLosesIff(Front(steps));
      NothingIsStranded(Front(steps));
      hide Next, Loses, NotStranded, LostNothing;
      StepLosesIff(Run(Front(steps)), Last(steps));
    }
  }

  lemma {:induction false} KeptIffLostNothing(w: World)
    requires Conserved(w)
    ensures KeptUntilAcked(w) <==> LostNothing(w.ledger)
  {
    var l := w.ledger;
    var lost := multiset(l.written) + multiset(l.dropped) + multiset(l.overwritten);
    hide Live;
    assert Live(w) + Settled(l) == (Live(w) + multiset(l.acked)) + lost;
    EmptyRest(Live(w) + multiset(l.acked), lost);
    assert lost == multiset{} <==> LostNothing(l) by {
      assert |lost| == |l.written| + |l.dropped| + |l.overwritten|;
    }
  }

  lemma {:induction false} EmptyRest<T>(kept: multiset<T>, rest: multiset<T>)
    ensures kept + rest == kept <==> rest == multiset{}
  {
    assert |kept + rest| == |kept| + |rest|;
  }

  /**
    Delivery is at least once, in the sense that every accepted message is still pending, held by a write, in flight or
    acknowledged, after exactly those runs in which no step loses: no overflow of a busy agent's queue, no batch handed
    to the agent's input, no key taken over.
   */
  lemma {:induction false} AtLeastOnceIffNoStepLoses(steps: seq<Step>)
    ensures KeptUntilAcked(Run(steps)) <==> NeverLoses(steps)
  {
    EveryAcceptedMessageIsAccountedFor(steps);
    RunLosesIff(steps);
    hide KeptUntilAcked, LostNothing, Conserved;
    KeptIffLostNothing(Run(steps));
  }

  ghost predicate NeverOverflowsOrHandsOver(steps: seq<Step>) {
    steps == []
    || (NeverOverflowsOrHandsOver(Front(steps))
        && !Overflows(Run(Front(steps)), Last(steps)) && !HandsOver(Run(Front(steps)), Last(steps)))
  }

  lemma {:induction false} FreshRunsTakeNoKeys(steps: seq<Step>)
    requires Fresh(steps)
    ensures NeverLoses(steps) <==> NeverOverflowsOrHandsOver(steps)
  {
    if steps != [] {
      FreshRunsTakeNoKeys(Front(steps));
      FreshRunsOverwriteNothing(Front(steps));
      FreshRunsOverwriteNothing(steps);
      var w, s := Run(Front(steps)), Last(steps);
      hide Kept, Requeued, Drain, PushedOut, Live, Single, Fresh, Overflows, HandsOver;
      assert !Overwrites(w, s);
    }
  }

  /** With fresh keys only the two others remain: an overflow while busy, and a batch written to the agent's input. */
  lemma {:induction false} FreshDeliveryIsAtLeastOnceIff(steps: seq<Step>)
    requires Fresh(steps)
    ensures KeptUntilAcked(Run(steps)) <==> NeverOverflowsOrHandsOver(steps)
  {
    AtLeastOnceIffNoStepLoses(steps);
    FreshRunsTakeNoKeys(steps);
  }

  /** The agent idles, a message comes and is written to its input, and the process ends without acting on it. */
  function LostOnInput(m: Message): seq<Step> {
    [Continue(true)] + [Result] + [Receive(m)] + [Continue(true)] + [Continue(true)] + [Eof(0)]
  }

  /** After that run the message is accepted, unacknowledged and nowhere in the daemon's hands. */
  lemma {:induction false} AMessageWrittenToADyingAgentIsGone(m: Message)
    requires m.msgId == ""
    ensures var w := Run(LostOnInput(m));
      && w.ledger.accepted == [m] && w.ledger.acked == [] && Live(w) == multiset{}
      && w.control.Resting? && w.agent.process.None?
  {
    var s1 := [Continue(true)];
    var s2 := s1 + [Result];
    var s3 := s2 + [Receive(m)];
    var s4 := s3 + [Continue(true)];
    var s5 := s4 + [Continue(true)];
    var s6 := s5 + [Eof(0)];
    var idle := EMPTY.(agent := EMPTY.agent.(process := Some(0), started := 1), control := Resting);
    var got := idle.ledger.(accepted := [m]);
    assert Front(s1) == [];
    assert Front(s2) == s1 && Run(s2) == idle;
    assert Front(s3) == s2
      && Run(s3) == idle.(agent := idle.agent.(pending := [m]), control := Delivering, ledger := got);
    assert Front(s4) == s3 && Run(s4) == idle.(control := Holding([m]), ledger := got);
    assert Front(s5) == s4
      && Run(s5) == idle.(agent := idle.agent.(busy := true), ledger := got.(written := [m]));
    assert Front(s6) == s5;
  }

  /** A queue that a busy agent leaves full loses its oldest message to the next new one. */
  lemma {:induction false} AFullQueueDropsItsOldest(steps: seq<Step>, m: Message)
    requires Run(steps).control.Resting? && Run(steps).agent.busy && IsNew(Run(steps).agent, m)
    requires |Run(steps).agent.pending| == MAX_PENDING
    ensures var before, after := Run(steps), Run(steps + [Receive(m)]);
      && after.ledger.dropped == before.ledger.dropped + [before.agent.pending[0]]
      && after.agent.pending == before.agent.pending[1..] + [m]
  {
    assert Front(steps + [Receive(m)]) == steps;
    hide Touch;
    var p := Run(steps).agent.pending;
    assert (p + [m])[..1] == [p[0]] && (p + [m])[1..] == p[1..] + [m];
  }

  function Numbered(n: nat): Message {
    Message("", n, "")
  }

  /** A process starts and, before it produces a result, `n` messages come. */
  function Filling(n: nat): seq<Step> {
    if n == 0 then [Continue(true)] else Filling(n - 1) + [Receive(Numbered(n))]
  }

  lemma {:induction false} FillingFills(n: nat)
    requires n <= MAX_PENDING
    ensures var w := Run(Filling(n));
      && w.control.Resting? && w.agent.busy && |w.agent.pending| == n && w.ledger.dropped == []
      && (n > 0 ==> w.agent.pending[0] == Numbered(1))
  {
    if n == 0 {
      assert Front(Filling(0)) == [];
    } else {
      FillingFills(n - 1);
      assert Front(Filling(n)) == Filling(n - 1);
    }
  }

  /** The first of 201 messages that come to a busy agent is dropped. */
  lemma {:induction false} ABusyAgentLosesTheFirst()
    ensures Run(Filling(200)).ledger.dropped == [] && Numbered(1) in Run(Filling(200)).ledger.accepted
    ensures Run(Filling(200) + [Receive(Numbered(0))]).ledger.dropped == [Numbered(1)]
  {
    FillingFills(MAX_PENDING);
    AFullQueueDropsItsOldest(Filling(MAX_PENDING), Numbered(0));
    FirstIsAccepted(MAX_PENDING);
  }

  lemma {:induction false} FirstIsAccepted(n: nat)
    requires 0 < n <= MAX_PENDING
    ensures Numbered(1) in Run(Filling(n)).ledger.accepted
  {
    FillingFills(n - 1);
    assert Front(Filling(n)) == Filling(n - 1);
    if n > 1 {
      FirstIsAccepted(n - 1);
    }
  }
}

/** What holds in every run of the delivery buffer, with the HTTP thread's sections falling anywhere. */
module DeliveryRuns {
  import opened Prelude
  import opened Dedup
  import opened Delivery
  import opened DeliveryFacts

  // ----- Conservation -----

  function Batch(c: Control): seq<Message> {
    match c
    case Holding(batch) => batch
    case PuttingBack(batch) => batch
    case _ => []
  }

  /** Messages the daemon still owes the agent. */
  function Live(w: World): multiset<Message> {
    multiset(w.agent.pending) + multiset(Batch(w.control)) + multiset(Messages(w.agent.inFlight))
  }

  function Settled(l: Ledger): multiset<Message> {
    multiset(l.acked) + multiset(l.written) + multiset(l.dropped) + multiset(l.overwritten)
  }

  predicate Conserved(w: World) {
    multiset(w.ledger.accepted) == Live(w) + Settled(w.ledger)
  }

  /** Messages change hands, and what leaves the daemon's hands is settled. */
  lemma {:induction false} MovesConserve(v: World, w: World, out: multiset<Message>)
    requires Conserved(v) && v.ledger.accepted == w.ledger.accepted
    requires Live(v) == Live(w) + out && Settled(w.ledger) == Settled(v.ledger) + out
    ensures Conserved(w)
  {
    hide Live, Settled;
    assert Live(w) + out + Settled(v.ledger) == Live(w) + (Settled(v.ledger) + out);
  }

  lemma {:induction false} AroundTheBatch<T>(p: multiset<T>, f: multiset<T>, p1: multiset<T>, f1: multiset<T>,
                                             b: multiset<T>, out: multiset<T>)
    requires p + f == p1 + f1 + out
    ensures p + b + f == p1 + b + f1 + out
  {
    assert p + b + f == (p + f) + b;
    assert p1 + b + f1 + out == (p1 + f1 + out) + b;
  }

  /** The same, when only the queue and the in-flight map change. */
  lemma {:induction false} QueueMovesConserve(v: World, w: World, out: multiset<Message>)
    requires Conserved(v) && Batch(v.control) == Batch(w.control) && v.ledger.accepted == w.ledger.accepted
    requires multiset(v.agent.pending) + multiset(Messages(v.agent.inFlight))
          == multiset(w.agent.pending) + multiset(Messages(w.agent.inFlight)) + out
    requires Settled(w.ledger) == Settled(v.ledger) + out
    ensures Conserved(w)
  {
    hide Conserved, Settled, Messages;
    AroundTheBatch(multiset(v.agent.pending), multiset(Messages(v.agent.inFlight)),
                   multiset(w.agent.pending), multiset(Messages(w.agent.inFlight)), multiset(Batch(v.control)), out);
    MovesConserve(v, w, out);
  }

  lemma {:induction false} SettleMore(l: Ledger, out: seq<Message>)
    ensures Settled(l.(acked := l.acked + out)) == Settled(l) + multiset(out)
    ensures Settled(l.(written := l.written + out)) == Settled(l) + multiset(out)
    ensures Settled(l.(dropped := l.dropped + out)) == Settled(l) + multiset(out)
    ensures Settled(l.(overwritten := l.overwritten + out)) == Settled(l) + multiset(out)
  {
    assert multiset(l.acked + out) == multiset(l.acked) + multiset(out);
    assert multiset(l.written + out) == multiset(l.written) + multiset(out);
    assert multiset(l.dropped + out) == multiset(l.dropped) + multiset(out);
    assert multiset(l.overwritten + out) == multiset(l.overwritten) + multiset(out);
  }

  /** Accepting: one more message accepted, one more owed. */
  lemma {:induction false} AcceptConserves(w: World, m: Message)
    requires Conserved(w)
    ensures Conserved(w.(agent := w.agent.(pending := w.agent.pending + [m]),
                         ledger := w.ledger.(accepted := w.ledger.accepted + [m])))
  {
    hide Messages;
    var p, b, f, s := multiset(w.agent.pending), multiset(Batch(w.control)), multiset(Messages(w.agent.inFlight)),
                      Settled(w.ledger);
    assert multiset(w.agent.pending + [m]) == p + multiset{m};
    assert multiset(w.ledger.accepted + [m]) == (p + b + f + s) + multiset{m};
    assert (p + b + f + s) + multiset{m} == (p + multiset{m}) + b + f + s;
  }

  lemma {:induction false} ReceiveConserves(w: World, m: Message)
    requires Conserved(w) && w.control.Resting?
    ensures Conserved(ReceiveStep(w, m))
  {
    hide Messages, Touch, Conserved, Settled;
    var w1 := w.(agent := w.agent.(pending := w.agent.pending + [m]),
                 ledger := w.ledger.(accepted := w.ledger.accepted + [m]));
    AcceptConserves(w, m);
    var r := ReceiveStep(w, m);
    var p := w.agent.pending + [m];
    assert multiset(p) == multiset(Bounded(p)) + multiset(Overflow(p)) by {
      if |p| > MAX_PENDING { assert p == p[..1] + p[1..]; }
    }
    SettleMore(w1.ledger, Overflow(p));
    if !IsNew(w.agent, m) {
      QueueMovesConserve(w, r, multiset{});
    } else if w.agent.busy {
      assert multiset(p) + multiset(Messages(w.agent.inFlight))
          == multiset(Bounded(p)) + multiset(Messages(w.agent.inFlight)) + multiset(Overflow(p));
      QueueMovesConserve(w1, r, multiset(Overflow(p)));
    } else {
      QueueMovesConserve(w1, r, multiset{});
    }
  }

  lemma {:induction false} ReapConserves(w: World, now: real)
    requires Conserved(w) && w.control.Resting?
    ensures Conserved(ReapStep(w, now))
  {
    hide Messages, Expired, Kept, Requeued, Conserved, Settled;
    RequeueConserves(w.agent.pending, w.agent.inFlight, now);
    QueueMovesConserve(w, ReapStep(w, now), multiset{});
  }

  lemma {:induction false} CheckConserves(w: World, now: real)
    requires Conserved(w)
    ensures Conserved(CheckStep(w, now))
  {
    hide Messages, Kept, Requeued, Drain, PushedOut, Conserved, Settled;
    var a := w.agent;
    var batch, kept := Requeued(a.pending, a.inFlight, now), Kept(a.inFlight, now);
    RequeueConserves(a.pending, a.inFlight, now);
    DrainConserves(kept, batch, now);
    var out := PushedOut(kept, batch, now);
    SettleMore(w.ledger, out);
    assert multiset(batch) + multiset(Messages(kept)) == multiset(Messages(Drain(kept, batch, now))) + multiset(out);
    QueueMovesConserve(w, CheckStep(w, now), multiset(out));
  }

  lemma {:induction false} AckConserves(w: World, ids: seq<DeliveryId>)
    requires Conserved(w)
    ensures Conserved(AckStep(w, ids))
  {
    hide Messages, AfterAcks, AckedBy, Conserved, Settled;
    AcksConserve(w.agent.inFlight, ids);
    var out := AckedBy(w.agent.inFlight, ids);
    SettleMore(w.ledger, out);
    var p, f := multiset(w.agent.pending), multiset(Messages(AfterAcks(w.agent.inFlight, ids)));
    assert p + (f + multiset(out)) == p + f + multiset(out);
    QueueMovesConserve(w, AckStep(w, ids), multiset(out));
  }

  lemma {:induction false} HandOver<T>(p: multiset<T>, b: multiset<T>, f: multiset<T>)
    ensures multiset{} + p + f == p + multiset{} + f
    ensures p + b + f == (p + multiset{} + f) + b
    ensures p + b + f == (b + p) + multiset{} + f
  {
  }

  lemma {:induction false} TakingConserves(w: World)
    requires Conserved(w) && w.control.Delivering?
    ensures Conserved(ContinueStep(w, true)) && ContinueStep(w, false) == ContinueStep(w, true)
  {
    hide Messages, Settled, Conserved;
    HandOver(multiset(w.agent.pending), multiset{}, multiset(Messages(w.agent.inFlight)));
    MovesConserve(w, ContinueStep(w, true), multiset{});
  }

  lemma {:induction false} WritingConserves(w: World)
    requires Conserved(w) && w.control.Holding?
    ensures Conserved(ContinueStep(w, true)) && Conserved(ContinueStep(w, false))
  {
    hide Messages, Settled, Conserved;
    var batch := w.control.batch;
    SettleMore(w.ledger, batch);
    HandOver(multiset(w.agent.pending), multiset(batch), multiset(Messages(w.agent.inFlight)));
    MovesConserve(w, ContinueStep(w, true), multiset(batch));
    MovesConserve(w, ContinueStep(w, false), multiset{});
  }

  lemma {:induction false} PuttingBackConserves(w: World)
    requires Conserved(w) && w.control.PuttingBack?
    ensures Conserved(ContinueStep(w, true)) && ContinueStep(w, false) == ContinueStep(w, true)
  {
    hide Messages, Settled, Conserved;
    var batch := w.control.batch;
    assert multiset(batch + w.agent.pending) == multiset(batch) + multiset(w.agent.pending);
    HandOver(multiset(w.agent.pending), multiset(batch), multiset(Messages(w.agent.inFlight)));
    MovesConserve(w, ContinueStep(w, true), multiset{});
  }

  lemma {:induction false} ContinueConserves(w: World, ok: bool)
    requires Conserved(w)
    ensures Conserved(ContinueStep(w, ok))
  {
    hide Messages, Settled, Conserved;
    match w.control
    case Delivering => TakingConserves(w);
    case Holding(_) => WritingConserves(w);
    case PuttingBack(_) => PuttingBackConserves(w);
    case _ => MovesConserve(w, ContinueStep(w, ok), multiset{});
  }

  lemma {:induction false} NextConserves(w: World, s: Step)
    requires Conserved(w)
    ensures Conserved(Next(w, s))
  {
    hide Messages, Settled, Conserved, ReceiveStep, ReapStep, ContinueStep, CheckStep, AckStep;
    if Enabled(w, s) {
      match s
      case Receive(m) => ReceiveConserves(w, m);
      case Reap(now) => ReapConserves(w, now);
      case Continue(ok) => ContinueConserves(w, ok);
      case Check(now) => CheckConserves(w, now);
      case Ack(ids) => AckConserves(w, ids);
      case _ => QueueMovesConserve(w, Next(w, s), multiset{});
    }
  }

  /**
    In every run the accepted messages are, with multiplicity, those pending, held by a write in progress,
    in flight, acknowledged, written to stdin, dropped by the busy bound, or overwritten under the same key.
   */
  lemma {:induction false} EveryAcceptedMessageIsAccountedFor(steps: seq<Step>)
    ensures Conserved(Run(steps))
  {
    if steps != [] {
      EveryAcceptedMessageIsAccountedFor(Front(steps));
      NextConserves(Run(Front(steps)), Last(steps));
    }
  }

  /** The in-flight map never holds a key twice. */
  lemma {:induction false} InFlightIsAMap(steps: seq<Step>)
    ensures IsMap(Run(steps).agent.inFlight)
  {
    if steps != [] {
      var w, s := Run(Front(steps)), Last(steps);
      InFlightIsAMap(Front(steps));
      hide Messages, Expired, Kept, Requeued, Drain, PushedOut, AfterAcks, AckedBy, Touch, Has, IsMap;
      match s
      case Reap(now) => KeptKeys(w.agent.inFlight, now);
      case Check(now) =>
        KeptKeys(w.agent.inFlight, now);
        DrainKeys(Kept(w.agent.inFlight, now), Requeued(w.agent.pending, w.agent.inFlight, now), now);
      case Ack(ids) => AckKeys(w.agent.inFlight, ids);
      case _ =>
    }
  }

  // ----- No stranded message -----

  /** A message waits for an idle, living process only after a write to it failed. */
  predicate NotStranded(w: World) {
    var a := w.agent;
    && (a.busy ==> a.process.Some?)
    && (w.failed ==> a.process.Some?)
    && (a.process.Some? ==> a.process.value < a.started)
    && match w.control
       case Resting => (a.pending != [] ==> a.busy || w.failed) && (a.process.None? ==> a.pending == [])
       case Delivering => a.process.Some? && !a.busy
       case Holding(batch) => a.process.Some? && !a.busy && a.pending == [] && batch != []
       case PuttingBack(batch) => a.process.Some? && !a.busy && a.pending == [] && batch != [] && w.failed
       case Starting => a.process.None?
  }

  lemma {:induction false} NextStrandsNothing(w: World, s: Step)
    requires NotStranded(w)
    ensures NotStranded(Next(w, s))
  {
    hide Messages, Expired, Kept, Requeued, Drain, PushedOut, AfterAcks, AckedBy, Touch, Has;
  }

  lemma {:induction false} NothingIsStranded(steps: seq<Step>)
    ensures NotStranded(Run(steps))
  {
    if steps != [] {
      NothingIsStranded(Front(steps));
      NextStrandsNothing(Run(Front(steps)), Last(steps));
    }
  }

  /** The statement between handlers, in plain terms. */
  lemma {:induction false} BetweenHandlers(steps: seq<Step>)
    requires Run(steps).control.Resting?
    ensures var w := Run(steps);
      && (w.agent.pending != [] ==> w.agent.process.Some? && (w.agent.busy || w.failed))
      && (w.agent.process.None? ==> w.agent.pending == [])
      && (w.agent.busy ==> w.agent.process.Some?)
  {
    NothingIsStranded(steps);
  }

  /**
    A failed write gives the batch back at the front, in its order. As nothing was added meanwhile, the queue is
    the batch itself, whatever the HTTP thread did in between.
   */
  lemma {:induction false} FailedWriteRestoresTheBatch(steps: seq<Step>, http: seq<Step>, more: seq<Step>)
    requires Run(steps).control.Holding?
    requires forall s :: s in http + more ==> s.Check? || s.Ack?
    ensures var w := Run(steps + http + [Continue(false)] + more + [Continue(true)]);
      && w.agent.pending == Run(steps).control.batch
      && w.control.Resting? && w.failed && !w.agent.busy && w.agent.process == Run(steps).agent.process
  {
    NothingIsStranded(steps);
    var w0 := Run(steps);
    HttpLeavesTheLoop(steps, http);
    var tried := steps + http + [Continue(false)];
    assert Front(tried) == steps + http;
    NothingIsStranded(tried);
    HttpLeavesTheLoop(tried, more);
    var all := tried + more + [Continue(true)];
    assert Front(all) == tried + more;
    NothingIsStranded(tried + more);
  }

  lemma {:induction false} HttpLeavesTheLoop(steps: seq<Step>, http: seq<Step>)
    requires forall s :: s in http ==> s.Check? || s.Ack?
    ensures var v, w := Run(steps), Run(steps + http);
      && w.control == v.control && w.failed == v.failed
      && w.agent.busy == v.agent.busy && w.agent.process == v.agent.process
  {
    if http == [] {
      assert steps + http == steps;
    } else {
      assert Front(steps + http) == steps + Front(http) && Last(steps + http) == Last(http);
      assert forall s :: s in Front(http) ==> s in http;
      assert Last(http) in http;
      HttpLeavesTheLoop(steps, Front(http));
    }
  }

  /** The exception is real: a failed write leaves the message waiting beside an idle process. */
  lemma {:induction false} FailedWriteLeavesItWaiting(m: Message)
    requires m.msgId == ""
    ensures var w := Run([Continue(true), Result, Receive(m), Continue(true), Continue(false), Continue(true)]);
      w.control.Resting? && w.agent.pending == [m] && !w.agent.busy && w.failed
  {
    var s1 := [Continue(true)];
    var s2 := s1 + [Result];
    var s3 := s2 + [Receive(m)];
    var s4 := s3 + [Continue(true)];
    var s5 := s4 + [Continue(false)];
    var s6 := s5 + [Continue(true)];
    assert Front(s1) == [];
    var idle := EMPTY.(agent := EMPTY.agent.(process := Some(0), started := 1), control := Resting);
    assert Front(s2) == s1 && Run(s2) == idle;
    assert Front(s3) == s2 && Run(s3).control.Delivering? && Run(s3).agent.pending == [m];
    assert Front(s4) == s3 && Run(s4).control == Holding([m]);
    assert Front(s5) == s4 && Run(s5).control == PuttingBack([m]) && Run(s5).agent.pending == [];
    assert Front(s6) == s5;
    assert s6 == [Continue(true), Result, Receive(m), Continue(true), Continue(false), Continue(true)];
  }

  /** Whatever waits after a failed write goes out, whole and in order, with the next message that arrives. */
  lemma {:induction false} NextArrivalTakesEverything(steps: seq<Step>, m: Message)
    requires Run(steps).control.Resting? && !Run(steps).agent.busy && Run(steps).agent.process.Some?
    requires IsNew(Run(steps).agent, m)
    ensures Run(steps + [Receive(m), Continue(true)]).control == Holding(Run(steps).agent.pending + [m])
  {
    var s1 := steps + [Receive(m)];
    var s2 := s1 + [Continue(true)];
    assert Front(s1) == steps && Front(s2) == s1;
    assert s2 == steps + [Receive(m), Continue(true)];
  }

  // ----- Order -----

  /** No reaping of the run found an expired entry. */
  ghost predicate NothingReaped(steps: seq<Step>) {
    steps == []
    || (NothingReaped(Front(steps))
        && (Last(steps).Reap? ==> Expired(Run(Front(steps)).agent.inFlight, Last(steps).now) == []))
  }

  predicate IsSuffix(s: seq<Message>, t: seq<Message>) {
    |s| <= |t| && t[|t| - |s|..] == s
  }

  function Waiting(w: World): seq<Message> {
    Batch(w.control) + w.agent.pending
  }

  lemma {:induction false} SuffixGrows(s: seq<Message>, t: seq<Message>, m: Message)
    requires IsSuffix(s, t)
    ensures IsSuffix(s + [m], t + [m]) && IsSuffix((s + [m])[1..], t + [m])
  {
    var k := |t| - |s|;
    assert (t + [m])[k..] == t[k..] + [m];
    assert (t + [m])[k + 1..] == (t + [m])[k..][1..];
  }

  lemma {:induction false} ReceiveKeepsOrder(w: World, m: Message)
    requires w.control.Resting? && IsSuffix(Waiting(w), w.ledger.accepted)
    ensures IsSuffix(Waiting(ReceiveStep(w, m)), ReceiveStep(w, m).ledger.accepted)
  {
    hide Remember, IsNew, IsSuffix;
    var r := ReceiveStep(w, m);
    assert Waiting(w) == w.agent.pending && Waiting(r) == r.agent.pending;
    SuffixGrows(w.agent.pending, w.ledger.accepted, m);
  }

  lemma {:induction false} NextKeepsOrder(w: World, s: Step)
    requires NotStranded(w) && IsSuffix(Waiting(w), w.ledger.accepted)
    requires s.Reap? ==> Expired(w.agent.inFlight, s.now) == []
    ensures IsSuffix(Waiting(Next(w, s)), Next(w, s).ledger.accepted)
  {
    hide Messages, Expired, Kept, Requeued, Drain, PushedOut, AfterAcks, AckedBy, Touch, Has, ReceiveStep;
    var r := Next(w, s);
    if s.Receive? {
      if Enabled(w, s) { ReceiveKeepsOrder(w, s.msg); }
    } else {
      assert r.ledger.accepted == w.ledger.accepted;
      assert Waiting(r) == Waiting(w) || Waiting(r) == [] || (s.Check? && Waiting(r) == Batch(w.control));
    }
  }

  /**
    As long as nothing has to be requeued, what waits, in the queue or in a write in progress, is always the newest of
    the accepted messages, in the order they came; so the busy bound drops only the oldest.
   */
  lemma {:induction false} WaitingIsTheNewestInOrder(steps: seq<Step>)
    requires NothingReaped(steps)
    ensures IsSuffix(Waiting(Run(steps)), Run(steps).ledger.accepted)
  {
    if steps != [] {
      WaitingIsTheNewestInOrder(Front(steps));
      NothingIsStranded(Front(steps));
      NextKeepsOrder(Run(Front(steps)), Last(steps));
    }
  }

  // ----- Exactly one place -----

  /** No two of these messages share a delivery key. */
  ghost predicate Single(ms: multiset<Message>) {
    && (forall m :: m in ms ==> ms[m] == 1)
    && (forall m, n :: m in ms && n in ms && IdOf(m) == IdOf(n) ==> m == n)
  }

  lemma {:induction false} SinglePart(ms: multiset<Message>, part: multiset<Message>)
    requires Single(ms) && part <= ms
    ensures Single(part)
  {
  }

  lemma {:induction false} HasMessage(f: seq<Entry>, id: DeliveryId)
    requires Has(f, id)
    ensures exists m :: m in multiset(Messages(f)) && IdOf(m) == id
  {
    if IdOf(Last(f).msg) == id {
      assert Last(f).msg in multiset(Messages(f));
    } else {
      HasMessage(Front(f), id);
      var m :| m in multiset(Messages(Front(f))) && IdOf(m) == id;
      assert m in multiset(Messages(f));
    }
  }

  lemma {:induction false} TwiceIsNotSingle(all: multiset<Message>, ms: multiset<Message>, m: Message, n: Message)
    requires all == ms + multiset{m} && n in ms && IdOf(n) == IdOf(m)
    ensures !Single(all)
  {
    assert n in all && m in all;
    assert n == m ==> all[m] >= 2;
  }

  lemma {:induction false} SinglePutsDoNotCollide(f: seq<Entry>, ms: seq<Message>, now: real)
    requires Single(multiset(Messages(f)) + multiset(ms))
    ensures PushedOut(f, ms, now) == []
  {
    hide Messages, Drain, Put, Has, Single, Lookup;
    if ms != [] {
      var front, m := Front(ms), Last(ms);
      var before := Drain(f, front, now);
      assert multiset(ms) == multiset(front) + multiset{m} by { assert ms == front + [m]; }
      var all, part := multiset(Messages(f)) + multiset(ms), multiset(Messages(f)) + multiset(front);
      assert all == part + multiset{m};
      SinglePart(all, part);
      SinglePutsDoNotCollide(f, front, now);
      DrainConserves(f, front, now);
      assert part == multiset(Messages(before));
      if Has(before, IdOf(m)) {
        HasMessage(before, IdOf(m));
        var n :| n in multiset(Messages(before)) && IdOf(n) == IdOf(m);
        TwiceIsNotSingle(all, part, m, n);
      }
    }
  }

  /** The message a step accepts, if any. */
  function AcceptedBy(w: World, s: Step): seq<Message> {
    if Enabled(w, s) && s.Receive? && IsNew(w.agent, s.msg) then [s.msg] else []
  }

  /** The key of an arriving message is not the key of one the daemon still holds. */
  ghost predicate FreshStep(w: World, s: Step) {
    forall m, n :: m in AcceptedBy(w, s) && n in Live(w) ==> IdOf(m) != IdOf(n)
  }

  ghost predicate Fresh(steps: seq<Step>) {
    steps == [] || (Fresh(Front(steps)) && FreshStep(Run(Front(steps)), Last(steps)))
  }

  lemma {:induction false} AcceptedGrows(w: World, s: Step)
    ensures Next(w, s).ledger.accepted == w.ledger.accepted + AcceptedBy(w, s)
  {
    hide Messages, Expired, Kept, Requeued, Drain, PushedOut, AfterAcks, AckedBy, Touch, Has;
  }

  lemma {:induction false} SettledGrows(w: World, s: Step)
    ensures Settled(w.ledger) <= Settled(Next(w, s).ledger)
  {
    hide Messages, Expired, Kept, Requeued, Drain, PushedOut, AfterAcks, AckedBy, Touch, Has;
  }

  lemma {:induction false} LessOwed<T>(acc: multiset<T>, live: multiset<T>, s: multiset<T>, one: multiset<T>,
                                       live1: multiset<T>, s1: multiset<T>)
    requires acc == live + s && acc + one == live1 + s1 && s <= s1
    ensures live1 <= live + one
  {
    assert forall x :: live1[x] + s1[x] == (acc + one)[x] == live[x] + s[x] + one[x] && s[x] <= s1[x];
  }

  /** What the daemon holds after a step it held before, or just accepted. */
  lemma {:induction false} LiveShrinks(w: World, s: Step)
    requires Conserved(w)
    ensures Live(Next(w, s)) <= Live(w) + multiset(AcceptedBy(w, s))
  {
    NextConserves(w, s);
    AcceptedGrows(w, s);
    SettledGrows(w, s);
    var w1 := Next(w, s);
    var accepted, one := w.ledger.accepted, AcceptedBy(w, s);
    hide Live, Settled, Next, AcceptedBy;
    assert multiset(accepted + one) == multiset(accepted) + multiset(one);
    LessOwed(multiset(accepted), Live(w), Settled(w.ledger), multiset(one), Live(w1), Settled(w1.ledger));
  }

  lemma {:induction false} SinglePush(ms: multiset<Message>, live: multiset<Message>, one: seq<Message>)
    requires Single(ms) && live <= ms + multiset(one) && |one| <= 1
    requires forall m, n :: m in one && n in ms ==> IdOf(m) != IdOf(n)
    ensures Single(live)
  {
    if one == [] {
      assert live <= ms;
    } else {
      assert one == [one[0]];
      assert one[0] !in ms;
    }
  }

  lemma {:induction false} FreshRunsOverwriteNothing(steps: seq<Step>)
    requires Fresh(steps)
    ensures Single(Live(Run(steps))) && Run(steps).ledger.overwritten == []
  {
    if steps != [] {
      var w, s := Run(Front(steps)), Last(steps);
      FreshRunsOverwriteNothing(Front(steps));
      EveryAcceptedMessageIsAccountedFor(Front(steps));
      LiveShrinks(w, s);
      SinglePush(Live(w), Live(Next(w, s)), AcceptedBy(w, s));
      OnlyChecksOverwrite(w, s);
    }
  }

  lemma {:induction false} OnlyChecksOverwrite(w: World, s: Step)
    requires Single(Live(w)) && w.ledger.overwritten == []
    ensures Next(w, s).ledger.overwritten == []
  {
    hide Messages, Expired, Kept, Requeued, Drain, PushedOut, AfterAcks, AckedBy, Touch, Has, Single;
    if s.Check? {
      var a := w.agent;
      var batch, kept := Requeued(a.pending, a.inFlight, s.now), Kept(a.inFlight, s.now);
      RequeueConserves(a.pending, a.inFlight, s.now);
      var p, b, f := multiset(a.pending), multiset(Batch(w.control)), multiset(Messages(a.inFlight));
      assert p + b + f == (p + f) + b;
      SinglePart(Live(w), multiset(Messages(kept)) + multiset(batch));
      SinglePutsDoNotCollide(kept, batch, s.now);
    }
  }

  /** In how many of the six places a message is. */
  function Places(w: World, m: Message): nat {
    var l := w.ledger;
    multiset(w.agent.pending)[m] + multiset(Batch(w.control))[m] + multiset(Messages(w.agent.inFlight))[m]
    + multiset(l.acked)[m] + multiset(l.written)[m] + multiset(l.dropped)[m]
  }

  ghost predicate EachInOnePlace(w: World) {
    forall m :: Places(w, m) == multiset(w.ledger.accepted)[m]
  }

  /** When no arriving key is still in use, every accepted message is in exactly as many places as it was accepted. */
  lemma {:induction false} AcceptedMessagesAreInOnePlace(steps: seq<Step>)
    requires Fresh(steps)
    ensures EachInOnePlace(Run(steps))
  {
    FreshRunsOverwriteNothing(steps);
    EveryAcceptedMessageIsAccountedFor(steps);
    hide Run, Messages;
  }

  // ----- What the dedup memory gives -----

  /** The ids that reached the dedup memory. */
  function Ids(steps: seq<Step>): seq<string> {
    if steps == [] then []
    else
      var w, s := Run(Front(steps)), Last(steps);
      Ids(Front(steps)) + (if Enabled(w, s) && s.Receive? && s.msg.msgId != "" then [s.msg.msgId] else [])
  }

  /** Only a received id touches the memory. */
  lemma {:induction false} SeenAfter(w: World, s: Step)
    ensures Next(w, s).agent.seen
         == if Enabled(w, s) && s.Receive? && s.msg.msgId != ""
            then Touch(w.agent.seen, s.msg.msgId, 10000)
            else w.agent.seen
  {
    hide Messages, Expired, Kept, Requeued, Drain, PushedOut, AfterAcks, AckedBy, Touch, Has;
  }

  lemma {:induction false} MemoryFollowsTheIds(steps: seq<Step>)
    ensures Run(steps).agent.seen == Seen(Ids(steps), 10000)
  {
    if steps != [] {
      MemoryFollowsTheIds(Front(steps));
      var w, s := Run(Front(steps)), Last(steps);
      SeenAfter(w, s);
      hide Next, Enabled, Touch;
      if Enabled(w, s) && s.Receive? && s.msg.msgId != "" {
        assert Front(Ids(steps)) == Ids(Front(steps)) && Last(Ids(steps)) == s.msg.msgId;
      } else {
        assert Ids(steps) == Ids(Front(steps));
      }
    }
  }

  /** The id at position `j` was admitted although it had been there before. */
  ghost predicate Readmitted(ids: seq<string>, j: nat)
    requires j < |ids|
  {
    ids[j] in ids[..j] && ids[j] !in Seen(ids[..j], 10000)
  }

  /** An object that carries no server id is not stored at the address of one the daemon still holds. */
  ghost predicate FreshObjects(steps: seq<Step>) {
    steps == []
    || (FreshObjects(Front(steps))
        && (var w, s := Run(Front(steps)), Last(steps);
            s.Receive? && s.msg.msgId == "" ==> forall n :: n in Live(w) ==> IdOf(n) != ObjectId(s.msg.ref)))
  }

  lemma {:induction false} LiveIdsArrived(steps: seq<Step>, m: Message)
    requires m in Run(steps).ledger.accepted && m.msgId != ""
    ensures m.msgId in Ids(steps)
  {
    var w, s := Run(Front(steps)), Last(steps);
    AcceptedGrows(w, s);
    if m in w.ledger.accepted {
      LiveIdsArrived(Front(steps), m);
    }
  }

  lemma {:induction false} LiveIsAccepted(steps: seq<Step>, m: Message)
    requires m in Live(Run(steps))
    ensures m in Run(steps).ledger.accepted
  {
    EveryAcceptedMessageIsAccountedFor(steps);
    assert m in multiset(Run(steps).ledger.accepted);
  }

  lemma {:induction false} ReadmittedEarlier(ids: seq<string>, more: seq<string>, j: nat)
    requires j < |ids| && Readmitted(ids, j)
    ensures Readmitted(ids + more, j)
  {
    assert (ids + more)[..j] == ids[..j];
  }

  lemma {:induction false} UnlessReadmittedRunsAreFresh(steps: seq<Step>)
    requires FreshObjects(steps)
    requires forall j :: 0 <= j < |Ids(steps)| ==> !Readmitted(Ids(steps), j)
    ensures Fresh(steps)
  {
    if steps != [] {
      var front := Front(steps);
      var w, s := Run(front), Last(steps);
      forall j | 0 <= j < |Ids(front)| ensures !Readmitted(Ids(front), j) {
        if Readmitted(Ids(front), j) { ReadmittedEarlier(Ids(front), Ids(steps)[|Ids(front)|..], j); }
      }
      UnlessReadmittedRunsAreFresh(front);
      forall m, n | m in AcceptedBy(w, s) && n in Live(w) ensures IdOf(m) != IdOf(n) {
        if m.msgId != "" && m.msgId == n.msgId {
          LiveIsAccepted(front, n);
          LiveIdsArrived(front, n);
          MemoryFollowsTheIds(front);
          assert Ids(steps)[..|Ids(front)|] == Ids(front);
          assert Readmitted(Ids(steps), |Ids(front)|);
        }
      }
    }
  }

  ghost predicate FarApart(ids: seq<string>, i: nat, j: nat) {
    && i < j < |ids| && ids[i] == ids[j]
    && |Between(ids, i, j)| >= 10000
  }

  /**
    A message is overwritten under its key only after its id came twice with at least 10000 other ids in
    between; in every other run each accepted message is in exactly one of the six places.
   */
  lemma {:induction false} OverwritingNeedsAForgottenId(steps: seq<Step>)
    requires FreshObjects(steps)
    ensures || (exists i: nat, j: nat :: FarApart(Ids(steps), i, j))
            || (Run(steps).ledger.overwritten == [] && EachInOnePlace(Run(steps)))
  {
    hide Readmitted, Run;
    var ids := Ids(steps);
    if forgotten: nat :| forgotten < |ids| && Readmitted(ids, forgotten) {
      ForgottenIsFarApart(ids, forgotten);
      var i: nat :| FarApart(ids, i, forgotten);
      assert FarApart(Ids(steps), i, forgotten);
    } else {
      UnlessReadmittedRunsAreFresh(steps);
      FreshRunsOverwriteNothing(steps);
      AcceptedMessagesAreInOnePlace(steps);
    }
  }

  lemma {:induction false} ForgottenIsFarApart(ids: seq<string>, j: nat)
    requires j < |ids| && Readmitted(ids, j)
    ensures exists i: nat :: FarApart(ids, i, j)
  {
    var i :| 0 <= i < j && ids[..j][i] == ids[j];
    hide Seen;
    AdmittedTwiceNeedsAFullWindow(ids, i, j, 10000);
    assert FarApart(ids, i, j);
  }
}

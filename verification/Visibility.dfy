/** How long an unacknowledged message can stay in flight (clients/python/aircd/daemon.py, the reaper). */
module Visibility {
  import opened Prelude
  import opened Dedup
  import opened Delivery
  import opened DeliveryFacts

  /** A step and the clock when its locked section runs. */
  datatype Tick = Tick(clock: real, step: Step)

  function Steps(ticks: seq<Tick>): seq<Step> {
    if ticks == [] then [] else Steps(Front(ticks)) + [Last(ticks).step]
  }

  function Clock(ticks: seq<Tick>, start: real): real {
    if ticks == [] then start else Last(ticks).clock
  }

  function LastReap(ticks: seq<Tick>, start: real): real {
    if ticks == [] then start
    else if Last(ticks).step.Reap? && Run(Steps(Front(ticks))).control.Resting? then Last(ticks).clock
    else LastReap(Front(ticks), start)
  }

  /** The time a section works with was read before its lock was taken, at most `lag` earlier. */
  predicate Sampled(t: Tick, lag: real) {
    match t.step
    case Check(now) => t.clock - lag <= now <= t.clock
    case Reap(now) => t.clock - lag <= now <= t.clock
    case _ => true
  }

  /** The clock never runs backwards, and at no step has the reaper been away for more than `gap`. */
  predicate Timely(ticks: seq<Tick>, start: real, gap: real, lag: real) {
    ticks == []
    || (var t, front := Last(ticks), Front(ticks);
        && Timely(front, start, gap, lag)
        && Clock(front, start) <= t.clock
        && t.clock - LastReap(front, start) <= gap
        && Sampled(t, lag))
  }

  ghost predicate NotBefore(f: seq<Entry>, from: real) {
    forall i :: 0 <= i < |f| ==> f[i].at >= from
  }

  lemma {:induction false} KeptFrom(f: seq<Entry>, now: real)
    ensures NotBefore(Kept(f, now), now - MESSAGE_VISIBILITY_TIMEOUT)
  {
    if f != [] {
      KeptFrom(Front(f), now);
    }
  }

  lemma {:induction false} KeptSince(f: seq<Entry>, now: real, from: real)
    requires NotBefore(f, from)
    ensures NotBefore(Kept(f, now), from)
  {
    if f != [] {
      assert NotBefore(Front(f), from);
      KeptSince(Front(f), now, from);
    }
  }

  lemma {:induction false} RemoveSince(f: seq<Entry>, id: DeliveryId, from: real)
    requires NotBefore(f, from) && Has(f, id)
    ensures NotBefore(Remove(f, id), from)
  {
    assert NotBefore(Front(f), from);
    if IdOf(Last(f).msg) != id {
      RemoveSince(Front(f), id, from);
    }
  }

  lemma {:induction false} AcksSince(f: seq<Entry>, ids: seq<DeliveryId>, from: real)
    requires NotBefore(f, from)
    ensures NotBefore(AfterAcks(f, ids), from)
  {
    if ids != [] {
      AcksSince(f, Front(ids), from);
      var rest := AfterAcks(f, Front(ids));
      if Has(rest, Last(ids)) {
        RemoveSince(rest, Last(ids), from);
      }
    }
  }

  lemma {:induction false} PutSince(f: seq<Entry>, e: Entry, from: real)
    requires NotBefore(f, from) && e.at >= from
    ensures NotBefore(Put(f, e), from)
  {
    if Has(f, IdOf(e.msg)) {
      assert NotBefore(Front(f), from);
      if IdOf(Last(f).msg) != IdOf(e.msg) {
        PutSince(Front(f), e, from);
      }
    }
  }

  lemma {:induction false} DrainSince(f: seq<Entry>, ms: seq<Message>, now: real, from: real)
    requires NotBefore(f, from) && now >= from
    ensures NotBefore(Drain(f, ms, now), from)
  {
    if ms != [] {
      DrainSince(f, Front(ms), now, from);
      PutSince(Drain(f, Front(ms), now), Entry(Last(ms), now), from);
    }
  }

  lemma {:induction false} LastReapIsPast(ticks: seq<Tick>, start: real, gap: real, lag: real)
    requires Timely(ticks, start, gap, lag)
    ensures LastReap(ticks, start) <= Clock(ticks, start)
  {
    if ticks != [] {
      LastReapIsPast(Front(ticks), start, gap, lag);
    }
  }

  /** An entry survives a reaping only when it is younger than the timeout, and none is older than that since. */
  lemma {:induction false} EntriesSurviveOneReaping(ticks: seq<Tick>, start: real, gap: real, lag: real)
    requires Timely(ticks, start, gap, lag) && lag >= 0.0
    ensures NotBefore(Run(Steps(ticks)).agent.inFlight, LastReap(ticks, start) - MESSAGE_VISIBILITY_TIMEOUT - lag)
  {
    if ticks != [] {
      var front, t := Front(ticks), Last(ticks);
      EntriesSurviveOneReaping(front, start, gap, lag);
      LastReapIsPast(front, start, gap, lag);
      var w := Run(Steps(front));
      assert Front(Steps(ticks)) == Steps(front) && Last(Steps(ticks)) == t.step;
      SurviveStep(w, t, LastReap(front, start) - MESSAGE_VISIBILITY_TIMEOUT - lag,
                  LastReap(ticks, start) - MESSAGE_VISIBILITY_TIMEOUT - lag, lag);
    }
  }

  lemma {:induction false} SurviveStep(w: World, t: Tick, from: real, to: real, lag: real)
    requires lag >= 0.0 && Sampled(t, lag) && NotBefore(w.agent.inFlight, from)
    requires from <= t.clock - MESSAGE_VISIBILITY_TIMEOUT - lag
    requires to == if t.step.Reap? && w.control.Resting? then t.clock - MESSAGE_VISIBILITY_TIMEOUT - lag else from
    ensures NotBefore(Next(w, t.step).agent.inFlight, to)
  {
    hide Expired, Kept, Requeued, Drain, PushedOut, AfterAcks, AckedBy, Touch, NotBefore;
    var f := w.agent.inFlight;
    match t.step
    case Reap(now) =>
      if w.control.Resting? {
        KeptFrom(f, now);
        if Expired(f, now) == [] { NothingExpired(f, now); }
        LaterStill(Kept(f, now), now - MESSAGE_VISIBILITY_TIMEOUT, to);
      }
    case Check(now) =>
      KeptSince(f, now, from);
      DrainSince(Kept(f, now), Requeued(w.agent.pending, f, now), now, from);
    case Ack(ids) => AcksSince(f, ids, from);
    case _ =>
  }

  lemma {:induction false} LaterStill(f: seq<Entry>, from: real, to: real)
    requires NotBefore(f, from) && to <= from
    ensures NotBefore(f, to)
  {
  }

  /**
    As long as the reaper is never away for more than `gap`, no unacknowledged entry gets older than the timeout
    plus `gap` (plus the lag between reading the clock and taking the lock).
   */
  lemma {:induction false} NoEntryOutlivesTheBound(ticks: seq<Tick>, start: real, gap: real, lag: real, now: real,
                                                   i: nat)
    requires Timely(ticks, start, gap, lag) && lag >= 0.0
    requires now - LastReap(ticks, start) <= gap
    requires i < |Run(Steps(ticks)).agent.inFlight|
    ensures now - Run(Steps(ticks)).agent.inFlight[i].at <= MESSAGE_VISIBILITY_TIMEOUT + gap + lag
  {
    EntriesSurviveOneReaping(ticks, start, gap, lag);
  }

  /** With the coded period of half the timeout kept exactly, that is 45 seconds. */
  lemma {:induction false} FortyFiveSeconds(ticks: seq<Tick>, start: real, now: real, i: nat)
    requires Timely(ticks, start, MESSAGE_VISIBILITY_TIMEOUT / 2.0, 0.0)
    requires now - LastReap(ticks, start) <= MESSAGE_VISIBILITY_TIMEOUT / 2.0
    requires i < |Run(Steps(ticks)).agent.inFlight|
    ensures now - Run(Steps(ticks)).agent.inFlight[i].at <= 45.0
  {
    NoEntryOutlivesTheBound(ticks, start, MESSAGE_VISIBILITY_TIMEOUT / 2.0, 0.0, now, i);
  }

  // ----- The bound is reached -----

  /** A message taken right away. */
  function AtOnce(m: Message): seq<Tick> {
    [Tick(0.0, Continue(true))] + [Tick(0.0, Receive(m))] + [Tick(0.0, Check(0.0))]
  }

  /** And a reaper that keeps to its period but reads the clock before it waits for the lock. */
  function Slowest(m: Message, lag: real): seq<Tick> {
    AtOnce(m) + [Tick(lag, Reap(lag))] + [Tick(15.0 + lag, Reap(15.0 + lag))] + [Tick(30.0 + lag, Reap(30.0))]
  }

  function Taken(m: Message): World {
    var seen := if m.msgId == "" then [] else [m.msgId];
    World(Agent([], [Entry(m, 0.0)], seen, Some(0), 1, true), Resting, false, Ledger([m], [], [], [], []))
  }

  lemma {:induction false} TakenAtOnce(m: Message)
    ensures Run([Continue(true), Receive(m), Check(0.0)]) == Taken(m)
  {
    var one := Next(EMPTY, Continue(true));
    var two := Next(one, Receive(m));
    assert Run([Continue(true)]) == one by {
      assert Front([Continue(true)]) == [];
    }
    assert Run([Continue(true), Receive(m)]) == two by {
      assert Front([Continue(true), Receive(m)]) == [Continue(true)];
    }
    assert Front([Continue(true), Receive(m), Check(0.0)]) == [Continue(true), Receive(m)];
    assert two.agent.pending == [m] by {
      assert [] + [m] == [m];
    }
    assert two.agent == Taken(m).agent.(pending := [m], inFlight := []) by {
      assert Touch([], m.msgId, MAX_DEDUP_ENTRIES) == [m.msgId];
    }
    assert Requeued([m], [], 0.0) == [m];
    assert Front([m]) == [] && Last([m]) == m;
    assert Drain([], [m], 0.0) == [Entry(m, 0.0)] && PushedOut([], [m], 0.0) == [];
    assert Next(two, Check(0.0)) == Taken(m);
  }

  /** A reaping that finds the entry no older than the timeout leaves it. */
  lemma {:induction false} StillTaken(ticks: seq<Tick>, clock: real, now: real, m: Message)
    requires Run(Steps(ticks)) == Taken(m) && now <= 30.0
    ensures Run(Steps(ticks + [Tick(clock, Reap(now))])) == Taken(m)
    ensures LastReap(ticks + [Tick(clock, Reap(now))], 0.0) == clock
  {
    var t := Tick(clock, Reap(now));
    assert Front(ticks + [t]) == ticks;
    assert Front(Steps(ticks) + [t.step]) == Steps(ticks);
    assert Front([Entry(m, 0.0)]) == [];
    assert Expired([Entry(m, 0.0)], now) == [];
  }

  lemma {:induction false} StillTimely(ticks: seq<Tick>, t: Tick, gap: real, lag: real)
    requires Timely(ticks, 0.0, gap, lag) && Clock(ticks, 0.0) <= t.clock
    requires t.clock - LastReap(ticks, 0.0) <= gap && Sampled(t, lag)
    ensures Timely(ticks + [t], 0.0, gap, lag) && Clock(ticks + [t], 0.0) == t.clock
    ensures Steps(ticks + [t]) == Steps(ticks) + [t.step]
    ensures !t.step.Reap? ==> LastReap(ticks + [t], 0.0) == LastReap(ticks, 0.0)
  {
    assert Front(ticks + [t]) == ticks;
  }

  lemma {:induction false} TakenTimely(m: Message, lag: real)
    requires 0.0 <= lag
    ensures var ticks := AtOnce(m);
      && Timely(ticks, 0.0, 15.0, lag) && Clock(ticks, 0.0) == 0.0 && LastReap(ticks, 0.0) == 0.0
      && Run(Steps(ticks)) == Taken(m)
  {
    var a, b, c := Tick(0.0, Continue(true)), Tick(0.0, Receive(m)), Tick(0.0, Check(0.0));
    NothingYet(15.0, lag);
    TakenAtOnce(m);
    assert [] + [a] == [a];
    hide LastReap, Timely, Clock, Steps, Run, Taken;
    StillTimely([], a, 15.0, lag);
    StillTimely([a], b, 15.0, lag);
    StillTimely([a] + [b], c, 15.0, lag);
    assert [] + [a.step] + [b.step] + [c.step] == [Continue(true), Receive(m), Check(0.0)];
  }

  /** A reaping within the period that finds the entry no older than the timeout changes nothing. */
  lemma {:induction false} OneReaping(ticks: seq<Tick>, clock: real, now: real, m: Message, lag: real)
    requires Run(Steps(ticks)) == Taken(m) && Timely(ticks, 0.0, 15.0, lag)
    requires Clock(ticks, 0.0) == LastReap(ticks, 0.0) <= clock <= LastReap(ticks, 0.0) + 15.0
    requires clock - lag <= now <= clock && now <= 30.0
    ensures var r := ticks + [Tick(clock, Reap(now))];
      && Timely(r, 0.0, 15.0, lag) && Clock(r, 0.0) == clock && LastReap(r, 0.0) == clock
      && Run(Steps(r)) == Taken(m)
  {
    hide Run, LastReap, Timely;
    StillTimely(ticks, Tick(clock, Reap(now)), 15.0, lag);
    StillTaken(ticks, clock, now, m);
  }

  /** The bound cannot be lowered: with the coded period and a lag up to it a timely run reaches 45 seconds and lag. */
  lemma {:induction false} TheBoundIsReached(m: Message, lag: real)
    requires 0.0 <= lag <= 15.0
    ensures var ticks, now := Slowest(m, lag), 45.0 + lag;
      && Timely(ticks, 0.0, MESSAGE_VISIBILITY_TIMEOUT / 2.0, lag)
      && now - LastReap(ticks, 0.0) == MESSAGE_VISIBILITY_TIMEOUT / 2.0
      && Run(Steps(ticks)).agent.inFlight == [Entry(m, 0.0)]
      && now - Run(Steps(ticks)).agent.inFlight[0].at == 45.0 + lag
  {
    hide Run, LastReap, Timely, Clock, Steps, AtOnce;
    TakenTimely(m, lag);
    var taken := AtOnce(m);
    var d, e := Tick(lag, Reap(lag)), Tick(15.0 + lag, Reap(15.0 + lag));
    OneReaping(taken, lag, lag, m, lag);
    OneReaping(taken + [d], 15.0 + lag, 15.0 + lag, m, lag);
    OneReaping(taken + [d] + [e], 30.0 + lag, 30.0, m, lag);
  }

  lemma {:induction false} NothingYet(gap: real, lag: real)
    ensures Timely([], 0.0, gap, lag) && LastReap([], 0.0) == 0.0 && Clock([], 0.0) == 0.0 && Steps([]) == []
  {
  }

  // ----- What a requeue does -----

  /** The messages requeued are exactly those delivered more than the timeout ago. */
  lemma {:induction false} ExpiredAreOld(f: seq<Entry>, now: real)
    ensures forall m ::
      m in Expired(f, now) <==> exists e :: e in f && e.msg == m && now - e.at > MESSAGE_VISIBILITY_TIMEOUT
  {
    if f != [] {
      ExpiredAreOld(Front(f), now);
      assert f == Front(f) + [Last(f)];
      forall m
        ensures m in Expired(f, now) <==> exists e :: e in f && e.msg == m && now - e.at > MESSAGE_VISIBILITY_TIMEOUT
      {
        if m in Expired(Front(f), now) {
          var e :| e in Front(f) && e.msg == m && now - e.at > MESSAGE_VISIBILITY_TIMEOUT;
          assert e in f;
        }
        if IsExpired(Last(f), now) && m == Last(f).msg {
          assert Last(f) in f;
        }
      }
    }
  }
}

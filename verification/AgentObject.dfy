/**
  The daemon's agent state, updated in place by the event loop's handlers and the HTTP thread
  (clients/python/aircd/daemon.py). Each method is one locked section and records the step it performs.
 */
module AgentObject {
  import opened Prelude
  import opened Dedup
  import opened Delivery
  import opened DeliveryFacts
  import opened DeliveryRuns

  class AgentState {
    var process: Option<nat>
    var started: nat
    var isBusy: bool
    var pendingInbox: seq<Message>
    var inFlight: seq<Entry>
    var seenMsgIds: seq<string>

    ghost var control: Control
    ghost var failed: bool
    ghost var ledger: Ledger
    ghost var trace: seq<Step>

    ghost function Abs(): World
      reads this
    {
      World(Agent(pendingInbox, inFlight, seenMsgIds, process, started, isBusy), control, failed, ledger)
    }

    /** The fields are what the recorded steps make of an empty state. */
    ghost predicate Valid()
      reads this
    {
      Abs() == Run(trace)
    }

    constructor ()
      ensures Valid() && trace == []
    {
      process, started, isBusy := None, 0, false;
      pendingInbox, inFlight, seenMsgIds := [], [], [];
      control, failed, ledger, trace := Starting, false, Ledger([], [], [], [], []), [];
    }

    ghost method Record(s: Step, before: World)
      requires before == Run(trace) && Abs() == Next(before, s)
      modifies this`trace
      ensures Valid() && trace == old(trace) + [s]
    {
      trace := trace + [s];
      assert Front(trace) == old(trace);
    }

    // ----- HTTP thread -----

    /** Expired entries go back to the queue; the caller holds the lock. */
    method RequeueExpired(now: real) returns (count: nat)
      requires IsMap(inFlight)
      modifies this`inFlight, this`pendingInbox
      ensures pendingInbox == Reversed(Expired(old(inFlight), now)) + old(pendingInbox)
      ensures inFlight == Kept(old(inFlight), now)
      ensures count == |Expired(old(inFlight), now)|
    {
      var expired := Expired(inFlight, now);
      ghost var f0, p0 := inFlight, pendingInbox;
      var i := 0;
      while i < |expired|
        invariant 0 <= i <= |expired|
        invariant inFlight == RemoveAll(f0, expired[..i])
        invariant pendingInbox == Reversed(expired[..i]) + p0
      {
        assert Front(expired[..i + 1]) == expired[..i] && Last(expired[..i + 1]) == expired[i];
        ExpiredStillThere(f0, now, i);
        inFlight := Remove(inFlight, IdOf(expired[i]));
        pendingInbox := [expired[i]] + pendingInbox;
        i := i + 1;
      }
      assert expired[..i] == expired;
      RemovingExpiredKeepsTheRest(f0, now);
      count := |expired|;
    }

    /** Everything pending goes in flight; the caller holds the lock. */
    method DrainToInFlight(now: real) returns (delivered: seq<Message>)
      requires IsMap(inFlight)
      modifies this`inFlight, this`pendingInbox
      ensures pendingInbox == [] && delivered == old(pendingInbox)
      ensures inFlight == Drain(old(inFlight), delivered, now)
      ensures forall m :: m in delivered ==> Has(inFlight, IdOf(m))
    {
      ghost var f0, all := inFlight, pendingInbox;
      delivered := [];
      while pendingInbox != []
        invariant delivered + pendingInbox == all
        invariant inFlight == Drain(f0, delivered, now)
        decreases |pendingInbox|
      {
        hide Drain, Put;
        var m := pendingInbox[0];
        HeadMoves(delivered, pendingInbox);
        DrainSnoc(f0, delivered, m, now);
        pendingInbox := pendingInbox[1..];
        inFlight := Put(inFlight, Entry(m, now));
        delivered := delivered + [m];
      }
      assert delivered + [] == delivered;
      hide Drain, Has, IsMap;
      DrainedAreKeys(f0, delivered, now);
    }

    method TakeMessages(now: real) returns (delivered: seq<Message>)
      requires IsMap(inFlight)
      modifies this`inFlight, this`pendingInbox
      ensures delivered == Requeued(old(pendingInbox), old(inFlight), now)
      ensures pendingInbox == [] && inFlight == Drain(Kept(old(inFlight), now), delivered, now)
      ensures forall m :: m in delivered ==> Has(inFlight, IdOf(m))
    {
      KeptKeys(inFlight, now);
      hide Has, IsMap, Put, Drain, Kept, Expired, Reversed;
      var _ := RequeueExpired(now);
      delivered := DrainToInFlight(now);
    }

    method CheckMessages(now: real) returns (delivered: seq<Message>)
      requires Valid()
      modifies this
      ensures Valid() && trace == old(trace) + [Check(now)]
      ensures delivered == Reversed(Expired(old(inFlight), now)) + old(pendingInbox)
      ensures pendingInbox == [] && forall m :: m in delivered ==> Has(inFlight, IdOf(m))
      ensures Abs() == old(Abs()).(agent := old(Abs()).agent.(pending := [], inFlight := inFlight), ledger := ledger)
    {
      ghost var w := Abs();
      InFlightIsAMap(trace);
      assert Next(w, Check(now)) == CheckStep(w, now);
      hide Run, Next, Has, IsMap, Put, Drain, PushedOut, Kept, Expired, Reversed;
      ghost var out := PushedOut(Kept(inFlight, now), Requeued(pendingInbox, inFlight, now), now);
      ledger := ledger.(overwritten := ledger.overwritten + out);
      delivered := TakeMessages(now);
      Record(Check(now), w);
    }

    /** Deletes the acknowledged keys and counts them; the caller holds the lock. */
    method DeleteAcked(ids: seq<DeliveryId>) returns (acked: nat)
      modifies this`inFlight
      ensures inFlight == AfterAcks(old(inFlight), ids)
      ensures acked == |AckedBy(old(inFlight), ids)|
    {
      ghost var f0 := inFlight;
      acked := 0;
      var i := 0;
      while i < |ids|
        invariant 0 <= i <= |ids|
        invariant inFlight == AfterAcks(f0, ids[..i]) && acked == |AckedBy(f0, ids[..i])|
      {
        assert Front(ids[..i + 1]) == ids[..i] && Last(ids[..i + 1]) == ids[i];
        if Has(inFlight, ids[i]) {
          inFlight := Remove(inFlight, ids[i]);
          acked := acked + 1;
        }
        i := i + 1;
      }
      assert ids[..i] == ids;
    }

    method AckMessages(ids: seq<DeliveryId>) returns (acked: nat)
      requires Valid()
      modifies this
      ensures Valid() && trace == old(trace) + [Ack(ids)]
      ensures acked == |AckedBy(old(inFlight), ids)| && pendingInbox == old(pendingInbox)
      ensures ledger == old(ledger).(acked := old(ledger).acked + AckedBy(old(inFlight), ids))
      ensures Abs() == old(Abs()).(agent := old(Abs()).agent.(inFlight := inFlight), ledger := ledger)
      ensures forall id :: Has(inFlight, id) <==> Has(old(inFlight), id) && id !in ids
    {
      ghost var w := Abs();
      InFlightIsAMap(trace);
      AckKeys(inFlight, ids);
      assert Next(w, Ack(ids)) == AckStep(w, ids);
      hide Run, Next, Has, IsMap, AfterAcks, AckedBy;
      ledger := ledger.(acked := ledger.acked + AckedBy(inFlight, ids));
      acked := DeleteAcked(ids);
      Record(Ack(ids), w);
    }

    // ----- Event loop -----

    /** The dedup block of the reader. */
    method Admit(id: string) returns (isNew: bool)
      requires |seenMsgIds| <= MAX_DEDUP_ENTRIES && Distinct(seenMsgIds)
      modifies this`seenMsgIds
      ensures isNew <==> id !in old(seenMsgIds)
      ensures seenMsgIds == Touch(old(seenMsgIds), id, MAX_DEDUP_ENTRIES)
    {
      hide Distinct, Without;
      isNew := id !in seenMsgIds;
      if !isNew {
        seenMsgIds := Without(seenMsgIds, id) + [id];
      } else {
        seenMsgIds := seenMsgIds + [id];
        ghost var grown := seenMsgIds;
        while |seenMsgIds| > MAX_DEDUP_ENTRIES
          invariant seenMsgIds == grown || (|grown| > MAX_DEDUP_ENTRIES && seenMsgIds == grown[1..])
          decreases |seenMsgIds|
        {
          seenMsgIds := seenMsgIds[1..];
        }
      }
    }

    /** A message that got past the request handlers and the filter for the agent's own messages. */
    method OnMessage(m: Message)
      requires Valid() && control.Resting?
      modifies this
      ensures Valid() && trace == old(trace) + [Receive(m)]
      ensures process == old(process) && started == old(started) && isBusy == old(isBusy) && inFlight == old(inFlight)
      ensures seenMsgIds
        == if m.msgId == "" then old(seenMsgIds) else Touch(old(seenMsgIds), m.msgId, MAX_DEDUP_ENTRIES)
      ensures failed == old(failed) && control == (
          if !IsNew(old(Abs()).agent, m) || old(isBusy) then Resting
          else if old(process).None? then Starting else Delivering)
      ensures !IsNew(old(Abs()).agent, m) ==> pendingInbox == old(pendingInbox) && ledger == old(ledger)
      ensures IsNew(old(Abs()).agent, m) ==>
        ledger == old(ledger).(
          accepted := old(ledger).accepted + [m],
          dropped := old(ledger).dropped
            + if old(isBusy) && |old(pendingInbox)| >= MAX_PENDING then [old(pendingInbox)[0]] else [])
      ensures IsNew(old(Abs()).agent, m) && old(isBusy) && |old(pendingInbox)| >= MAX_PENDING ==>
        pendingInbox == old(pendingInbox)[1..] + [m]
      ensures IsNew(old(Abs()).agent, m) && !(old(isBusy) && |old(pendingInbox)| >= MAX_PENDING) ==>
        pendingInbox == old(pendingInbox) + [m]
    {
      ghost var w := Abs();
      var isNew := true;
      if m.msgId != "" {
        MemoryFollowsTheIds(trace);
        SeenShape(Ids(trace), MAX_DEDUP_ENTRIES);
        isNew := Admit(m.msgId);
      }
      if isNew {
        ledger := ledger.(accepted := ledger.accepted + [m]);
        pendingInbox := pendingInbox + [m];
        if isBusy {
          if |pendingInbox| > MAX_PENDING {
            ledger := ledger.(dropped := ledger.dropped + pendingInbox[..1]);
            pendingInbox := pendingInbox[1..];
          } else {
            assert ledger.dropped + [] == ledger.dropped;
          }
        } else {
          control := if process.None? then Starting else Delivering;
        }
      }
      Record(Receive(m), w);
    }

    /** A `result` event from any reader. */
    method OnResult()
      requires Valid() && control.Resting?
      modifies this
      ensures Valid() && trace == old(trace) + [Result] && !isBusy
      ensures control == if old(pendingInbox) != [] then Delivering else Resting
      ensures process == old(process) && started == old(started) && pendingInbox == old(pendingInbox)
      ensures inFlight == old(inFlight) && seenMsgIds == old(seenMsgIds)
      ensures failed == old(failed) && ledger == old(ledger)
    {
      ghost var w := Abs();
      isBusy := false;
      if pendingInbox != [] {
        control := Delivering;
      }
      Record(Result, w);
    }

    /** A reader reached the end of its process's output; `reader` is the process it reads. */
    method OnEof(reader: nat)
      requires Valid() && control.Resting?
      modifies this
      ensures Valid() && trace == old(trace) + [Eof(reader)]
      ensures old(process) != Some(reader) ==> Abs() == old(Abs())
      ensures old(process) == Some(reader) ==> IsGone() && KeepsAllButTheProcess(old(Abs()))
    {
      ghost var w := Abs();
      if process == Some(reader) {
        Orphan();
      }
      Record(Eof(reader), w);
    }

    method OnWatchdog(stuck: bool)
      requires Valid() && control.Resting?
      modifies this
      ensures Valid() && trace == old(trace) + [Watchdog(stuck)]
      ensures !stuck || !old(isBusy) || old(process).None? ==> Abs() == old(Abs())
      ensures stuck && old(isBusy) && old(process).Some? ==> IsGone() && KeepsAllButTheProcess(old(Abs()))
    {
      ghost var w := Abs();
      if isBusy && process.Some? && stuck {
        Orphan();
      }
      Record(Watchdog(stuck), w);
    }

    /** No process, and one is about to be started exactly if something waits. */
    ghost predicate IsGone()
      reads this
    {
      process.None? && !isBusy && !failed && control == if pendingInbox != [] then Starting else Resting
    }

    ghost predicate KeepsAllButTheProcess(w: World)
      reads this
    {
      && pendingInbox == w.agent.pending && inFlight == w.agent.inFlight && seenMsgIds == w.agent.seen
      && started == w.agent.started && ledger == w.ledger
    }

    method Orphan()
      requires control.Resting?
      modifies this
      ensures IsGone() && KeepsAllButTheProcess(old(Abs())) && trace == old(trace)
    {
      isBusy, process, failed := false, None, false;
      if pendingInbox != [] {
        control := Starting;
      }
    }

    method OnReap(now: real)
      requires Valid() && control.Resting?
      modifies this
      ensures Valid() && trace == old(trace) + [Reap(now)]
      ensures pendingInbox == Reversed(Expired(old(inFlight), now)) + old(pendingInbox)
      ensures inFlight == Kept(old(inFlight), now)
      ensures control == (
          if Expired(old(inFlight), now) == [] then Resting
          else if process.None? then Starting else if isBusy then Resting else Delivering)
      ensures process == old(process) && started == old(started) && isBusy == old(isBusy)
      ensures seenMsgIds == old(seenMsgIds) && failed == old(failed) && ledger == old(ledger)
    {
      ghost var w := Abs();
      InFlightIsAMap(trace);
      var requeued := RequeueExpired(now);
      if requeued != 0 {
        control := if process.None? then Starting else if isBusy then Resting else Delivering;
      } else {
        NothingExpired(w.agent.inFlight, now);
      }
      Record(Reap(now), w);
    }

    /** First section of the idle delivery: take everything that waits. */
    method TakeBatch() returns (batch: seq<Message>)
      requires Valid() && control.Delivering?
      modifies this
      ensures Valid() && trace == old(trace) + [Continue(true)]
      ensures batch == (if old(process).Some? then old(pendingInbox) else [])
      ensures control == if batch == [] then Resting else Holding(batch)
      ensures pendingInbox == (if old(process).Some? then [] else old(pendingInbox))
      ensures Abs() == old(Abs()).(agent := old(Abs()).agent.(pending := pendingInbox), control := control)
    {
      ghost var w := Abs();
      batch := [];
      if process.Some? {
        while pendingInbox != []
          invariant batch + pendingInbox == w.agent.pending
          invariant Abs() == w.(agent := w.agent.(pending := pendingInbox)) && trace == old(trace)
          decreases |pendingInbox|
        {
          batch, pendingInbox := batch + [pendingInbox[0]], pendingInbox[1..];
        }
        assert batch == w.agent.pending;
      }
      control := if batch == [] then Resting else Holding(batch);
      Record(Continue(true), w);
    }

    /** The write to stdin, which may fail. */
    method WriteBatch(ghost batch: seq<Message>, ok: bool)
      requires Valid() && control == Holding(batch)
      modifies this
      ensures Valid() && trace == old(trace) + [Continue(ok)]
      ensures control == if ok then Resting else PuttingBack(batch)
      ensures isBusy == (ok || old(isBusy)) && failed == !ok
      ensures ledger == if ok then old(ledger).(written := old(ledger).written + batch) else old(ledger)
      ensures process == old(process) && started == old(started) && pendingInbox == old(pendingInbox)
      ensures inFlight == old(inFlight) && seenMsgIds == old(seenMsgIds)
    {
      ghost var w := Abs();
      if ok {
        isBusy, control, failed := true, Resting, false;
        ledger := ledger.(written := ledger.written + batch);
      } else {
        control, failed := PuttingBack(batch), true;
      }
      Record(Continue(ok), w);
    }

    /** After a failed write the batch returns to the front, in its order. */
    method PutBack(batch: seq<Message>)
      requires Valid() && control == PuttingBack(batch)
      modifies this
      ensures Valid() && trace == old(trace) + [Continue(true)]
      ensures pendingInbox == batch + old(pendingInbox)
      ensures Abs() == old(Abs()).(agent := old(Abs()).agent.(pending := pendingInbox), control := Resting)
    {
      ghost var w := Abs();
      var i := |batch|;
      while i > 0
        invariant 0 <= i <= |batch|
        invariant pendingInbox == batch[i..] + w.agent.pending
        invariant Abs() == w.(agent := w.agent.(pending := pendingInbox)) && trace == old(trace)
      {
        i := i - 1;
        pendingInbox := [batch[i]] + pendingInbox;
      }
      control := Resting;
      Record(Continue(true), w);
    }

    /** The whole idle delivery when the HTTP thread stays away. */
    method DeliverPendingIdle(ok: bool)
      requires Valid() && control.Delivering?
      modifies this
      ensures Valid() && control.Resting? && inFlight == old(inFlight)
      ensures process == old(process) && old(trace) <= trace
      ensures ok && process.Some? ==> pendingInbox == []
      ensures !ok ==> pendingInbox == old(pendingInbox) && ledger == old(ledger)
    {
      assert old(trace) <= trace;
      var batch := TakeBatch();
      if batch != [] {
        WriteBatch(batch, ok);
        if !ok {
          PutBack(batch);
        }
      }
    }

    method StartProcess()
      requires Valid() && control.Starting?
      modifies this
      ensures Valid() && trace == old(trace) + [Continue(true)]
      ensures process == Some(old(started)) && started == old(started) + 1 && isBusy && !failed && control.Resting?
      ensures pendingInbox == old(pendingInbox) && inFlight == old(inFlight) && seenMsgIds == old(seenMsgIds)
      ensures ledger == old(ledger)
    {
      ghost var w := Abs();
      process, started, isBusy := Some(started), started + 1, true;
      control, failed := Resting, false;
      Record(Continue(true), w);
    }
  }
}

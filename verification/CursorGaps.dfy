/**
  When the cursors may be trusted at the grain of locked statements: exactly which runs leave a member's cursor above a
  message that was never enqueued to it.
 */
module CursorGaps {
  import opened Prelude
  import opened History
  import opened Memberships
  import opened CursorSteps

  /** Every message between the join baseline and the cursor was enqueued for the seat. */
  ghost predicate NoGap(db: Db, seat: Seat) {
    seat in db.cursors && seat in db.baselines ==>
      forall n :: Stored(db.log, seat.channel, n) && db.baselines[seat] < n <= db.cursors[seat] ==>
        (seat, n) in db.enqueued
  }

  ghost predicate NeverGap(steps: seq<Step>, seat: Seat) {
    NoGap(RunAll(EMPTY, steps), seat) && (steps == [] || NeverGap(Front(steps), seat))
  }

  /** The seat and number that the step is about to mark as seen. */
  function Marks(db: Db, step: Step): Option<(Seat, int)> {
    match step
    case MarkLive(t) =>
      (match TaskOf(db, t)
       case Sent(c, n, to) => Some((Seat(to, c), n))
       case _ => None)
    case MarkReplayed(t) =>
      (match TaskOf(db, t)
       case PageSent(p, c, n, targets, limit) => Some((Seat(p, c), n))
       case _ => None)
    case _ => None
  }

  /** The step marks a number for the seat while a message above its cursor, up to that number, was not enqueued. */
  ghost predicate Skips(db: Db, step: Step, seat: Seat) {
    && seat in db.cursors
    && Marks(db, step).Some? && Marks(db, step).value.0 == seat
    && exists k :: Stored(db.log, seat.channel, k) && db.cursors[seat] < k <= Marks(db, step).value.1
         && (seat, k) !in db.enqueued
  }

  ghost predicate NeverSkips(steps: seq<Step>, seat: Seat) {
    steps == []
    || (NeverSkips(Front(steps), seat) && !Skips(RunAll(EMPTY, Front(steps)), Last(steps), seat))
  }

  // ----- One step -----

  lemma {:induction false} AppendKeepsNoGap(db: Db, step: Step, seat: Seat)
    requires Sound(db) && NoGap(db, seat) && step.Append?
    ensures NoGap(Run1(db, step), seat)
  {
    var r := Run1(db, step);
    if r != db && seat in r.cursors && seat in r.baselines {
      assert CursorOk(db, seat);
      MaxSeqBounds(db.log, db.counter, seat.channel);
      var m := Last(r.log);
      forall n | Stored(r.log, seat.channel, n) && r.baselines[seat] < n <= r.cursors[seat]
        ensures (seat, n) in r.enqueued
      {
        StoredBefore(db.log, m, seat.channel, n);
      }
    }
  }

  lemma {:induction false} StoredBefore(log: seq<StoredMessage>, m: StoredMessage, c: string, n: int)
    requires Stored(log + [m], c, n) && n != m.seqNo
    ensures Stored(log, c, n)
  {
    var i :| 0 <= i < |log + [m]| && (log + [m])[i].channel == c && (log + [m])[i].seqNo == n;
    assert i < |log| && log[i] == (log + [m])[i];
  }

  /** A mark opens a gap exactly when it skips. */
  lemma {:induction false} MarkGapIff(db: Db, step: Step, seat: Seat)
    requires Sound(db) && NoGap(db, seat) && (step.MarkLive? || step.MarkReplayed?)
    ensures NoGap(Run1(db, step), seat) <==> !Skips(db, step, seat)
  {
    var r := Run1(db, step);
    if Marks(db, step).Some? {
      var (marked, n) := Marks(db, step).value;
      assert r.cursors == Seen(db.cursors, marked, n) && r.log == db.log && r.enqueued == db.enqueued;
      if marked == seat && seat in db.cursors {
        assert CursorOk(db, seat);
        if Skips(db, step, seat) {
          var k :| Stored(db.log, seat.channel, k) && db.cursors[seat] < k <= n && (seat, k) !in db.enqueued;
          assert r.baselines[seat] < k <= r.cursors[seat];
        } else {
          forall k | Stored(r.log, seat.channel, k) && r.baselines[seat] < k <= r.cursors[seat]
            ensures (seat, k) in r.enqueued
          {
          }
        }
      }
    }
  }

  /** Starting without a gap, a step leaves one exactly when it skips. */
  lemma {:induction false} StepGapIff(db: Db, step: Step, seat: Seat)
    requires Sound(db) && NoGap(db, seat)
    ensures NoGap(Run1(db, step), seat) <==> !Skips(db, step, seat)
  {
    match step {
      case Append(t, c, sender, body, msgId, at) => AppendKeepsNoGap(db, step, seat);
      case MarkLive(t) => MarkGapIff(db, step, seat);
      case MarkReplayed(t) => MarkGapIff(db, step, seat);
      case AddMembership(p, c) => assert seat !in db.cursors ==> seat !in db.baselines;
      case _ =>
    }
  }

  // ----- Whole runs -----

  lemma {:induction false} EmptyIsSound()
    ensures Sound(EMPTY)
  {
  }

  /**
    A run never leaves a gap below the seat's cursor if and only if none of its steps marks a number for the seat over a
    message that was not enqueued. This covers live sends, registration replays and asked-for history alike.
   */
  lemma {:induction false} NeverGapIffNeverSkips(steps: seq<Step>, seat: Seat)
    ensures NeverGap(steps, seat) <==> NeverSkips(steps, seat)
  {
    if steps != [] {
      NeverGapIffNeverSkips(Front(steps), seat);
      EmptyIsSound();
      RunSound(EMPTY, Front(steps));
      var db, step := RunAll(EMPTY, Front(steps)), Last(steps);
      hide Sound, Skips, RunAll, Run1;
      if NeverGap(Front(steps), seat) {
        assert NoGap(db, seat);
        StepGapIff(db, step, seat);
        assert RunAll(EMPTY, steps) == Run1(db, step) by { LastStep(steps); }
      }
    }
  }

  lemma {:induction false} LastStep(steps: seq<Step>)
    requires steps != []
    ensures RunAll(EMPTY, steps) == Run1(RunAll(EMPTY, Front(steps)), Last(steps))
  {
  }

  // ----- Publishers one after the other -----

  /** The task is in the middle of publishing message `n` to channel `c`. */
  predicate IsPublishing(task: Task, c: string, n: int) {
    (task.Publishing? && task.channel == c && task.seqNo == n) || (task.Sent? && task.channel == c && task.seqNo == n)
  }

  /** Two publishers on the seat's channel overlap. */
  ghost predicate Overlaps(db: Db, step: Step, c: string) {
    step.Append? && step.channel == c && exists t, n :: IsPublishing(TaskOf(db, t), c, n)
  }

  /** A publisher on the seat's channel stops before it has sent the message to the member. */
  ghost predicate Abandons(db: Db, step: Step, seat: Seat) {
    && step.Stop? && seat in db.cursors && seat in db.baselines
    && exists n :: IsPublishing(TaskOf(db, step.t), seat.channel, n) && db.baselines[seat] < n
         && (seat, n) !in db.enqueued
  }

  ghost predicate Orderly(steps: seq<Step>, seat: Seat) {
    steps == []
    || (var db, step := RunAll(EMPTY, Front(steps)), Last(steps);
        Orderly(Front(steps), seat) && !Overlaps(db, step, seat.channel) && !Abandons(db, step, seat))
  }

  /** What has been sent is recorded before it is marked. */
  ghost predicate SentFirst(db: Db) {
    && (forall t :: TaskOf(db, t).Sent? ==>
          (Seat(TaskOf(db, t).to, TaskOf(db, t).channel), TaskOf(db, t).seqNo) in db.enqueued)
    && (forall t :: TaskOf(db, t).PageSent? ==>
          (Seat(TaskOf(db, t).principal, TaskOf(db, t).channel), TaskOf(db, t).seqNo) in db.enqueued)
  }

  lemma {:induction false} ReadPageSentFirst(db: Db, t: nat)
    requires SentFirst(db)
    ensures SentFirst(Run1(db, ReadPage(t)))
  {
    var r, task := Run1(db, ReadPage(t)), TaskOf(db, t);
    forall u | u != t ensures TaskOf(r, u) == TaskOf(db, u) {
    }
    if task.Replaying? && task.targets != [] {
      var p, c := task.principal, task.targets[0].channel;
      var page := Page(db.log, c, task.targets[0].after, task.limit);
      if page != [] {
        var sent := set m | m in page :: (Seat(p, c), m.seqNo);
        assert Last(page) in page;
        assert (Seat(p, c), Last(page).seqNo) in sent;
      }
    }
  }

  lemma {:induction false} StepSentFirst(db: Db, step: Step)
    requires SentFirst(db)
    ensures SentFirst(Run1(db, step))
  {
    if step.ReadPage? {
      ReadPageSentFirst(db, step.t);
    } else {
      var r := Run1(db, step);
      forall t
        ensures TaskOf(r, t).Sent? ==> (Seat(TaskOf(r, t).to, TaskOf(r, t).channel), TaskOf(r, t).seqNo) in r.enqueued
        ensures TaskOf(r, t).PageSent? ==>
          (Seat(TaskOf(r, t).principal, TaskOf(r, t).channel), TaskOf(r, t).seqNo) in r.enqueued
      {
        var before := TaskOf(db, t);
      }
    }
  }

  /** Who publishes to the channel publishes its newest message, and only that one can be missing for the seat. */
  ghost predicate OnlyNewestMissing(db: Db, seat: Seat) {
    && (forall t, n :: IsPublishing(TaskOf(db, t), seat.channel, n) ==> n == MaxSeq(db.log, seat.channel))
    && (seat in db.cursors && seat in db.baselines ==>
          forall n :: Stored(db.log, seat.channel, n) && db.baselines[seat] < n && (seat, n) !in db.enqueued ==>
            exists t :: IsPublishing(TaskOf(db, t), seat.channel, n))
  }

  lemma {:induction false} AppendOrderly(db: Db, step: Step, seat: Seat)
    requires Sound(db) && OnlyNewestMissing(db, seat) && step.Append? && !Overlaps(db, step, seat.channel)
    ensures OnlyNewestMissing(Run1(db, step), seat)
  {
    var r := Run1(db, step);
    if r != db {
      var c, m := seat.channel, Last(r.log);
      assert r.log == db.log + [m] && Front(r.log) == db.log;
      MaxSeqBounds(db.log, db.counter, c);
      forall t, n | IsPublishing(TaskOf(r, t), c, n) ensures n == MaxSeq(r.log, c) {
        assert t != step.t ==> TaskOf(r, t) == TaskOf(db, t);
      }
      if seat in r.cursors && seat in r.baselines {
        forall n | Stored(r.log, c, n) && r.baselines[seat] < n && (seat, n) !in r.enqueued
          ensures exists t :: IsPublishing(TaskOf(r, t), c, n)
        {
          if n == m.seqNo {
            NewestIsOwn(db.log, db.counter, m, c, n);
            assert IsPublishing(TaskOf(r, step.t), c, n);
          } else {
            StoredBefore(db.log, m, c, n);
            var t :| IsPublishing(TaskOf(db, t), c, n);
            assert IsPublishing(TaskOf(r, t), c, n);
          }
        }
      }
    }
  }

  lemma {:induction false} NewestIsOwn(log: seq<StoredMessage>, counter: nat, m: StoredMessage, c: string, n: int)
    requires ValidLog(log, counter) && counter < m.seqNo == n && Stored(log + [m], c, n)
    ensures m.channel == c
  {
    var i :| 0 <= i < |log + [m]| && (log + [m])[i].channel == c && (log + [m])[i].seqNo == n;
    assert forall j :: 0 <= j < |log| ==> (log + [m])[j] == log[j] && log[j].seqNo <= counter;
  }

  lemma {:induction false} StopOrderly(db: Db, step: Step, seat: Seat)
    requires OnlyNewestMissing(db, seat) && step.Stop? && !Abandons(db, step, seat)
    ensures OnlyNewestMissing(Run1(db, step), seat)
  {
    var r := Run1(db, step);
    forall t, n | IsPublishing(TaskOf(r, t), seat.channel, n) ensures IsPublishing(TaskOf(db, t), seat.channel, n) {
    }
    if seat in r.cursors && seat in r.baselines {
      forall n | Stored(r.log, seat.channel, n) && r.baselines[seat] < n && (seat, n) !in r.enqueued
        ensures exists t :: IsPublishing(TaskOf(r, t), seat.channel, n)
      {
        var t :| IsPublishing(TaskOf(db, t), seat.channel, n);
        assert t != step.t;
        assert IsPublishing(TaskOf(r, t), seat.channel, n);
      }
    }
  }

  lemma {:induction false} JoinOrderly(db: Db, step: Step, seat: Seat)
    requires Sound(db) && OnlyNewestMissing(db, seat) && step.AddMembership?
    ensures OnlyNewestMissing(Run1(db, step), seat)
  {
    var r := Run1(db, step);
    assert forall t :: TaskOf(r, t) == TaskOf(db, t);
    if seat in r.cursors && seat in r.baselines {
      forall n | Stored(r.log, seat.channel, n) && r.baselines[seat] < n && (seat, n) !in r.enqueued
        ensures exists t :: IsPublishing(TaskOf(r, t), seat.channel, n)
      {
        StoredBelowMax(db.log, db.counter, seat.channel, n);
        assert seat in db.cursors && seat in db.baselines;
        var t :| IsPublishing(TaskOf(db, t), seat.channel, n);
        assert IsPublishing(TaskOf(r, t), seat.channel, n);
      }
    }
  }

  /** Every other step leaves who publishes what alone, and records no less. */
  lemma {:induction false} QuietOrderly(db: Db, step: Step, seat: Seat)
    requires OnlyNewestMissing(db, seat) && !step.Append? && !step.Stop? && !step.AddMembership?
    ensures OnlyNewestMissing(Run1(db, step), seat)
  {
    var r := Run1(db, step);
    SamePublishers(db, step, seat.channel);
    if seat in r.cursors && seat in r.baselines {
      forall n | Stored(r.log, seat.channel, n) && r.baselines[seat] < n && (seat, n) !in r.enqueued
        ensures exists t :: IsPublishing(TaskOf(r, t), seat.channel, n)
      {
        var t :| IsPublishing(TaskOf(db, t), seat.channel, n);
        assert IsPublishing(TaskOf(r, t), seat.channel, n);
      }
    }
  }

  ghost predicate SubMap(a: map<Seat, int>, b: map<Seat, int>) {
    forall seat :: seat in a ==> seat in b && a[seat] == b[seat]
  }

  lemma {:induction false} SamePublishers(db: Db, step: Step, c: string)
    requires !step.Append? && !step.Stop?
    ensures var r := Run1(db, step);
      && r.log == db.log && db.enqueued <= r.enqueued
      && (forall t, n :: IsPublishing(TaskOf(r, t), c, n) <==> IsPublishing(TaskOf(db, t), c, n))
      && (!step.AddMembership? ==> r.cursors.Keys <= db.cursors.Keys && SubMap(r.baselines, db.baselines))
  {
    var r := Run1(db, step);
    forall t, n ensures IsPublishing(TaskOf(r, t), c, n) <==> IsPublishing(TaskOf(db, t), c, n) {
    }
  }

  lemma {:induction false} StepOrderly(db: Db, step: Step, seat: Seat)
    requires Sound(db) && OnlyNewestMissing(db, seat)
    requires !Overlaps(db, step, seat.channel) && !Abandons(db, step, seat)
    ensures OnlyNewestMissing(Run1(db, step), seat)
  {
    hide OnlyNewestMissing, Overlaps, Abandons, Run1, Sound;
    if step.Append? {
      AppendOrderly(db, step, seat);
    } else if step.Stop? {
      StopOrderly(db, step, seat);
    } else if step.AddMembership? {
      JoinOrderly(db, step, seat);
    } else {
      QuietOrderly(db, step, seat);
    }
  }

  /** When only the newest message can be missing, and marks follow sends, no mark skips. */
  lemma {:induction false} OrderlyMarksDoNotSkip(db: Db, step: Step, seat: Seat)
    requires Sound(db) && OnlyNewestMissing(db, seat) && SentFirst(db)
    ensures !Skips(db, step, seat)
  {
    if Skips(db, step, seat) {
      var n := Marks(db, step).value.1;
      var k :| Stored(db.log, seat.channel, k) && db.cursors[seat] < k <= n && (seat, k) !in db.enqueued;
      assert CursorOk(db, seat);
      var t :| IsPublishing(TaskOf(db, t), seat.channel, k);
      assert (seat, n) in db.enqueued;
      assert TaskOk(db.log, TaskOf(db, step.t));
      StoredBelowMax(db.log, db.counter, seat.channel, n);
      assert false;
    }
  }

  lemma {:induction false} OrderlyInvariant(steps: seq<Step>, seat: Seat)
    requires Orderly(steps, seat)
    ensures var db := RunAll(EMPTY, steps);
      Sound(db) && OnlyNewestMissing(db, seat) && SentFirst(db) && NeverSkips(steps, seat)
  {
    EmptyIsSound();
    RunSound(EMPTY, steps);
    if steps != [] {
      var db, step := RunAll(EMPTY, Front(steps)), Last(steps);
      OrderlyInvariant(Front(steps), seat);
      hide Sound, OnlyNewestMissing, SentFirst, Skips, Overlaps, Abandons, Run1;
      StepOrderly(db, step, seat);
      StepSentFirst(db, step);
      OrderlyMarksDoNotSkip(db, step, seat);
    }
  }

  /**
    When publishers on the channel do not overlap, and each sends to the member before it stops, no interleaving of
    their steps with joins, registrations' replays, asked-for history and everything else leaves a gap.
   */
  lemma {:induction false} OrderlyPublishersLeaveNoGap(steps: seq<Step>, seat: Seat)
    requires Orderly(steps, seat)
    ensures NeverGap(steps, seat)
  {
    OrderlyInvariant(steps, seat);
    NeverGapIffNeverSkips(steps, seat);
  }
}

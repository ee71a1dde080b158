/**
  What the tables hold at the grain of locked statements, told by the steps alone: which seats have a row and where its
  cursor began, what the log holds, who is about to publish what, and what a cursor may have been raised to.
 */
module CursorHistories {
  import opened Prelude
  import opened History
  import opened Memberships
  import opened CursorSteps

  /** The last of the insertions and deletions of the seat's row was an insertion. */
  ghost predicate Member(steps: seq<Step>, seat: Seat) {
    && steps != []
    && Last(steps) != RemoveMembership(seat.principal, seat.channel)
    && (Last(steps) == AddMembership(seat.principal, seat.channel) || Member(Front(steps), seat))
  }

  /** How many steps came before the insertion that made the present row. Later insertions are ignored. */
  ghost function Joined(steps: seq<Step>, seat: Seat): (n: nat)
    requires Member(steps, seat)
    ensures n < |steps| && steps[n] == AddMembership(seat.principal, seat.channel)
  {
    if Member(Front(steps), seat) then Joined(Front(steps), seat) else |steps| - 1
  }

  /** The messages of the run: one for each append by a task that was idle, numbered from one. */
  ghost function Messages(steps: seq<Step>): seq<StoredMessage> {
    if steps == [] then []
    else
      var before := Messages(Front(steps));
      match Last(steps)
      case Append(t, c, sender, body, msgId, at) =>
        if TaskOf(RunAll(EMPTY, Front(steps)), t) == Idle
        then before + [StoredMessage(|before| + 1, msgId, c, sender, body, at)]
        else before
      case _ => before
  }

  // ----- Rows and the log -----

  lemma {:induction false} FrontPrefix(steps: seq<Step>, n: nat)
    requires n < |steps|
    ensures Front(steps)[..n] == steps[..n]
  {
  }

  /** A seat has a row exactly if its last insertion was not followed by a deletion; the row began at the top. */
  lemma {:induction false} RowIffMember(steps: seq<Step>, seat: Seat)
    ensures var db := RunAll(EMPTY, steps);
      && (seat in db.cursors <==> Member(steps, seat))
      && (seat in db.baselines <==> Member(steps, seat))
      && (Member(steps, seat) ==>
            db.baselines[seat] == MaxSeq(RunAll(EMPTY, steps[..Joined(steps, seat)]).log, seat.channel))
  {
    if steps != [] {
      RowIffMember(Front(steps), seat);
      RowStep(RunAll(EMPTY, Front(steps)), Last(steps), seat);
      hide Run1, MaxSeq;
      if Member(steps, seat) {
        FrontPrefix(steps, Joined(steps, seat));
        assert Front(steps)[..|Front(steps)|] == Front(steps);
      }
    }
  }

  lemma {:induction false} RowStep(db: Db, step: Step, seat: Seat)
    requires seat in db.cursors <==> seat in db.baselines
    ensures var r := Run1(db, step);
      && (seat in r.cursors <==> seat in r.baselines)
      && (seat in r.cursors <==>
          (step == AddMembership(seat.principal, seat.channel)
           || (seat in db.cursors && step != RemoveMembership(seat.principal, seat.channel))))
      && (seat in r.baselines ==>
            r.baselines[seat] == if seat in db.baselines then db.baselines[seat] else MaxSeq(db.log, seat.channel))
  {
    hide MaxSeq, Page, Above;
  }

  /** The log is exactly what idle tasks appended, in that order and numbered without a hole. */
  lemma {:induction false} LogIsWhatWasAppended(steps: seq<Step>)
    ensures var db := RunAll(EMPTY, steps);
      && db.log == Messages(steps) && db.counter == |db.log|
      && forall i :: 0 <= i < |db.log| ==> db.log[i].seqNo == i + 1
  {
    if steps != [] {
      LogIsWhatWasAppended(Front(steps));
      hide Run1;
      LogAfter(RunAll(EMPTY, Front(steps)), Last(steps));
    }
  }

  /** Only an append by an idle task adds to the log. */
  lemma {:induction false} LogAfter(db: Db, step: Step)
    ensures var r := Run1(db, step);
      if step.Append? && TaskOf(db, step.t) == Idle then
        && r.counter == db.counter + 1
        && r.log == db.log + [StoredMessage(r.counter, step.msgId, step.channel, step.sender, step.body, step.at)]
      else r.log == db.log && r.counter == db.counter
  {
    hide MaxSeq, Page, Above;
  }

  // ----- Tasks -----

  /** Task `t` appended message `n` of `c` and has not stopped since. */
  ghost predicate Holds(steps: seq<Step>, t: nat, c: string, n: int) {
    && steps != []
    && Last(steps) != Stop(t)
    && (Holds(Front(steps), t, c, n)
        || (TaskOf(RunAll(EMPTY, Front(steps)), t) == Idle
            && Last(steps).Append? && Last(steps).t == t && Last(steps).channel == c
            && n == |Messages(Front(steps))| + 1))
  }

  predicate PublishesAs(task: Task, c: string, n: int) {
    (task.Publishing? || task.Sent?) && task.channel == c && task.seqNo == n
  }

  /** A task is publishing a message exactly if it appended it itself and has not stopped since. */
  lemma {:induction false} PublisherIffHolds(steps: seq<Step>, t: nat, c: string, n: int)
    ensures PublishesAs(TaskOf(RunAll(EMPTY, steps), t), c, n) <==> Holds(steps, t, c, n)
  {
    if steps != [] {
      PublisherIffHolds(Front(steps), t, c, n);
      LogIsWhatWasAppended(Front(steps));
      hide Run1, Messages;
      PublisherAfter(RunAll(EMPTY, Front(steps)), Last(steps), t, c, n);
    }
  }

  /** Sending and marking keep a publisher what it is; only its own append and its own stop change that. */
  lemma {:induction false} PublisherAfter(db: Db, step: Step, t: nat, c: string, n: int)
    ensures PublishesAs(TaskOf(Run1(db, step), t), c, n) <==>
      (&& step != Stop(t)
       && (PublishesAs(TaskOf(db, t), c, n)
           || (step.Append? && step.t == t && TaskOf(db, t) == Idle && step.channel == c && n == db.counter + 1)))
  {
    hide MaxSeq, Page, Above;
  }

  /** The step sends message `n` to the seat: live, by the task that holds the message, or as part of a page. */
  ghost predicate Sends(steps: seq<Step>, step: Step, seat: Seat, n: int) {
    var db := RunAll(EMPTY, steps);
    match step
    case SendLive(t, to) =>
      to == seat.principal && TaskOf(db, t).Publishing? && Holds(steps, t, seat.channel, n)
    case ReadPage(t) =>
      (match TaskOf(db, t)
       case Replaying(p, targets, limit) =>
         && p == seat.principal && targets != [] && targets[0].channel == seat.channel
         && exists m :: m in Page(Messages(steps), seat.channel, targets[0].after, limit) && m.seqNo == n
       case _ => false)
    case _ => false
  }

  ghost predicate WasSent(steps: seq<Step>, seat: Seat, n: int) {
    steps != [] && (WasSent(Front(steps), seat, n) || Sends(Front(steps), Last(steps), seat, n))
  }

  /** What was enqueued for a seat is exactly what publishers sent it live and what its replays read. */
  lemma {:induction false} EnqueuedIffSent(steps: seq<Step>, seat: Seat, n: int)
    ensures (seat, n) in RunAll(EMPTY, steps).enqueued <==> WasSent(steps, seat, n)
  {
    if steps != [] {
      EnqueuedIffSent(Front(steps), seat, n);
      LogIsWhatWasAppended(Front(steps));
      hide Run1, RunAll, Messages, Holds, Page;
      assert RunAll(EMPTY, steps) == Run1(RunAll(EMPTY, Front(steps)), Last(steps)) by { RunLast(steps); }
      EnqueuedAfter(RunAll(EMPTY, Front(steps)), Last(steps), seat, n);
      if Last(steps).SendLive? {
        PublisherIffHolds(Front(steps), Last(steps).t, seat.channel, n);
      }
    }
  }

  lemma {:induction false} RunLast(steps: seq<Step>)
    requires steps != []
    ensures RunAll(EMPTY, steps) == Run1(RunAll(EMPTY, Front(steps)), Last(steps))
  {
  }

  lemma {:induction false} EnqueuedAfter(db: Db, step: Step, seat: Seat, n: int)
    ensures (seat, n) in Run1(db, step).enqueued <==>
      ((seat, n) in db.enqueued
       || (step.SendLive? && step.to == seat.principal && TaskOf(db, step.t).Publishing?
           && PublishesAs(TaskOf(db, step.t), seat.channel, n))
       || (step.ReadPage? && TaskOf(db, step.t).Replaying? && PageHas(db, TaskOf(db, step.t), seat, n)))
  {
    hide MaxSeq, Above, Page;
  }

  ghost predicate PageHas(db: Db, task: Task, seat: Seat, n: int)
    requires task.Replaying?
  {
    && task.principal == seat.principal && task.targets != [] && task.targets[0].channel == seat.channel
    && exists m :: m in Page(db.log, seat.channel, task.targets[0].after, task.limit) && m.seqNo == n
  }

  /** What a task is about to mark as seen was enqueued for that very seat before. */
  ghost predicate SentFirst(db: Db, task: Task) {
    match task
    case Sent(c, n, to) => (Seat(to, c), n) in db.enqueued
    case PageSent(p, c, n, targets, limit) => (Seat(p, c), n) in db.enqueued
    case _ => true
  }

  ghost predicate AllSentFirst(db: Db) {
    && (forall t :: t in db.tasks ==> SentFirst(db, db.tasks[t]))
    && (forall seat :: seat in db.cursors && seat in db.baselines ==>
          db.cursors[seat] == db.baselines[seat] || (seat, db.cursors[seat]) in db.enqueued)
  }

  lemma {:induction false} StepSendsFirst(db: Db, step: Step)
    requires AllSentFirst(db) && db.cursors.Keys == db.baselines.Keys
    ensures AllSentFirst(Run1(db, step))
  {
    var r := Run1(db, step);
    hide MaxSeq, Above;
    if step.ReadPage? {
      var task := TaskOf(db, step.t);
      if task.Replaying? && task.targets != [] {
        var page := Page(db.log, task.targets[0].channel, task.targets[0].after, task.limit);
        hide Page;
        if page != [] {
          assert Last(page) in page;
        }
      }
    }
  }

  /**
    Sending comes before marking: in every interleaving a cursor stands on its baseline or on a message that was
    enqueued for that very seat, even where messages below it were skipped.
   */
  lemma {:induction false} CursorsStandOnSentMessages(steps: seq<Step>, seat: Seat)
    requires Member(steps, seat)
    ensures var db := RunAll(EMPTY, steps);
      && seat in db.cursors && seat in db.baselines
      && (db.cursors[seat] == db.baselines[seat] || (seat, db.cursors[seat]) in db.enqueued)
  {
    RowIffMember(steps, seat);
    EverySendIsFirst(steps);
  }

  lemma {:induction false} EverySendIsFirst(steps: seq<Step>)
    ensures AllSentFirst(RunAll(EMPTY, steps))
  {
    if steps != [] {
      EverySendIsFirst(Front(steps));
      RunSound(EMPTY, Front(steps));
      StepSendsFirst(RunAll(EMPTY, Front(steps)), Last(steps));
    }
  }
}

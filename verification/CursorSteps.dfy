/**
  The finest grain: every statement run under the database lock is a step of its own, and the tasks of all connections
  interleave freely between them (src/server.rs: add_membership, remove_membership, the append, the page query and
  mark_seen). A task that fails or is dropped may stop between any two steps.
 */
module CursorSteps {
  import opened Prelude
  import opened History
  import opened Memberships

  /** What a connection's task still has to do. A replay's targets are whatever was asked for or read earlier. */
  datatype Task =
    | Idle
    | Publishing(channel: string, seqNo: int)
    | Sent(channel: string, seqNo: int, to: string)
    | Replaying(principal: string, targets: seq<Target>, limit: int)
    | PageSent(principal: string, channel: string, seqNo: int, targets: seq<Target>, limit: int)

  datatype Target = Target(channel: string, after: int)

  /** `baselines` and `enqueued` are history variables: the cursor a row began with, and what was sent for a seat. */
  datatype Db = Db(
    log: seq<StoredMessage>,
    counter: nat,
    cursors: map<Seat, int>,
    baselines: map<Seat, int>,
    tasks: map<nat, Task>,
    enqueued: set<(Seat, int)>
  )

  const EMPTY := Db([], 0, map[], map[], map[], {})

  datatype Step =
    | AddMembership(principal: string, channel: string)
    | RemoveMembership(principal: string, channel: string)
    | Append(t: nat, channel: string, sender: string, body: string, msgId: string, at: int)
    | SendLive(t: nat, to: string)
    | MarkLive(t: nat)
    | StartReplay(t: nat, principal: string, targets: seq<Target>, limit: int)
    | ReadPage(t: nat)
    | MarkReplayed(t: nat)
    | Stop(t: nat)

  function TaskOf(db: Db, t: nat): Task {
    if t in db.tasks then db.tasks[t] else Idle
  }

  function Run1(db: Db, step: Step): Db {
    match step
    case AddMembership(p, c) =>
      if Seat(p, c) in db.cursors then db
      else
        var top := MaxSeq(db.log, c);
        db.(cursors := db.cursors[Seat(p, c) := top], baselines := db.baselines[Seat(p, c) := top])
    case RemoveMembership(p, c) =>
      db.(cursors := db.cursors - {Seat(p, c)}, baselines := db.baselines - {Seat(p, c)})
    case Append(t, c, sender, body, msgId, at) =>
      if TaskOf(db, t) == Idle
      then
        var n := db.counter + 1;
        db.(log := db.log + [StoredMessage(n, msgId, c, sender, body, at)], counter := n,
            tasks := db.tasks[t := Publishing(c, n)])
      else db
    case SendLive(t, to) =>
      (match TaskOf(db, t)
       case Publishing(c, n) =>
         db.(tasks := db.tasks[t := Sent(c, n, to)], enqueued := db.enqueued + {(Seat(to, c), n)})
       case _ => db)
    case MarkLive(t) =>
      (match TaskOf(db, t)
       case Sent(c, n, to) =>
         db.(cursors := Seen(db.cursors, Seat(to, c), n), tasks := db.tasks[t := Publishing(c, n)])
       case _ => db)
    case StartReplay(t, p, targets, limit) =>
      if TaskOf(db, t) == Idle then db.(tasks := db.tasks[t := Replaying(p, targets, limit)]) else db
    case ReadPage(t) =>
      (match TaskOf(db, t)
       case Replaying(p, targets, limit) =>
         if targets == [] then db.(tasks := db.tasks[t := Idle])
         else
           var c := targets[0].channel;
           var page := Page(db.log, c, targets[0].after, limit);
           if page == [] then db.(tasks := db.tasks[t := Replaying(p, targets[1..], limit)])
           else
             db.(tasks := db.tasks[t := PageSent(p, c, Last(page).seqNo, targets[1..], limit)],
                 enqueued := db.enqueued + set m | m in page :: (Seat(p, c), m.seqNo))
       case _ => db)
    case MarkReplayed(t) =>
      (match TaskOf(db, t)
       case PageSent(p, c, n, targets, limit) =>
         db.(cursors := Seen(db.cursors, Seat(p, c), n), tasks := db.tasks[t := Replaying(p, targets, limit)])
       case _ => db)
    case Stop(t) => db.(tasks := db.tasks[t := Idle])
  }

  ghost function RunAll(db: Db, steps: seq<Step>): Db {
    if steps == [] then db else Run1(RunAll(db, Front(steps)), Last(steps))
  }

  // ----- The invariant -----

  ghost predicate Stored(log: seq<StoredMessage>, c: string, n: int) {
    exists i :: 0 <= i < |log| && log[i].channel == c && log[i].seqNo == n
  }

  /** Whatever a task is about to mark as seen is the number of a stored message of that channel. */
  ghost predicate TaskOk(log: seq<StoredMessage>, task: Task) {
    match task
    case Publishing(c, n) => Stored(log, c, n)
    case Sent(c, n, to) => Stored(log, c, n)
    case PageSent(p, c, n, targets, limit) => Stored(log, c, n)
    case _ => true
  }

  ghost predicate CursorOk(db: Db, seat: Seat)
    requires seat in db.cursors && seat in db.baselines
  {
    && db.baselines[seat] <= db.cursors[seat] <= MaxSeq(db.log, seat.channel)
    && (db.cursors[seat] == db.baselines[seat] || Stored(db.log, seat.channel, db.cursors[seat]))
  }

  ghost predicate Sound(db: Db) {
    && ValidLog(db.log, db.counter)
    && db.cursors.Keys == db.baselines.Keys
    && (forall t :: t in db.tasks ==> TaskOk(db.log, db.tasks[t]))
    && (forall seat :: seat in db.cursors ==> CursorOk(db, seat))
  }

  lemma {:induction false} StoredGrows(log: seq<StoredMessage>, m: StoredMessage, c: string, n: int)
    ensures Stored(log, c, n) ==> Stored(log + [m], c, n)
    ensures Stored(log + [m], m.channel, m.seqNo)
  {
    if Stored(log, c, n) {
      var i :| 0 <= i < |log| && log[i].channel == c && log[i].seqNo == n;
      assert (log + [m])[i] == log[i];
    }
    assert (log + [m])[|log|] == m;
  }

  lemma {:induction false} StoredBelowMax(log: seq<StoredMessage>, counter: nat, c: string, n: int)
    requires ValidLog(log, counter) && Stored(log, c, n)
    ensures n <= MaxSeq(log, c)
  {
    MaxSeqBounds(log, counter, c);
    var i :| 0 <= i < |log| && log[i].channel == c && log[i].seqNo == n;
    assert log[i] in log;
  }

  lemma {:induction false} TaskStaysOk(log: seq<StoredMessage>, m: StoredMessage, task: Task)
    requires TaskOk(log, task)
    ensures TaskOk(log + [m], task)
  {
    match task {
      case Publishing(c, n) => StoredGrows(log, m, c, n);
      case Sent(c, n, to) => StoredGrows(log, m, c, n);
      case PageSent(p, c, n, targets, limit) => StoredGrows(log, m, c, n);
      case _ =>
    }
  }

  lemma {:induction false} AppendSound(db: Db, step: Step)
    requires Sound(db) && step.Append?
    ensures Sound(Run1(db, step))
  {
    var r := Run1(db, step);
    if r != db {
      var m := Last(r.log);
      assert r.log == db.log + [m] && Front(r.log) == db.log;
      forall t | t in r.tasks ensures TaskOk(r.log, r.tasks[t]) {
        StoredGrows(db.log, m, m.channel, m.seqNo);
        if t != step.t {
          TaskStaysOk(db.log, m, db.tasks[t]);
        }
      }
      hide TaskOk;
      forall seat | seat in r.cursors ensures CursorOk(r, seat) {
        assert CursorOk(db, seat);
        StoredGrows(db.log, m, seat.channel, db.cursors[seat]);
      }
    }
  }

  lemma {:induction false} MarkSound(db: Db, seat: Seat, n: int)
    requires Sound(db) && Stored(db.log, seat.channel, n)
    ensures var r := db.(cursors := Seen(db.cursors, seat, n)); Sound(r)
  {
    StoredBelowMax(db.log, db.counter, seat.channel, n);
    var r := db.(cursors := Seen(db.cursors, seat, n));
    forall other | other in r.cursors ensures CursorOk(r, other) {
      assert CursorOk(db, other);
    }
  }

  lemma {:induction false} ReadPageSound(db: Db, t: nat)
    requires Sound(db)
    ensures Sound(Run1(db, ReadPage(t)))
  {
    var r := Run1(db, ReadPage(t));
    if TaskOf(db, t).Replaying? && TaskOf(db, t).targets != [] {
      var target, limit := TaskOf(db, t).targets[0], TaskOf(db, t).limit;
      var page := Page(db.log, target.channel, target.after, limit);
      AboveAll(db.log, target.channel, target.after);
      if page != [] {
        assert Last(page) in db.log && Last(page).channel == target.channel;
      }
    }
    forall seat | seat in r.cursors ensures CursorOk(r, seat) {
      assert CursorOk(db, seat);
    }
  }

  lemma {:induction false} MembershipSound(db: Db, step: Step)
    requires Sound(db) && (step.AddMembership? || step.RemoveMembership?)
    ensures Sound(Run1(db, step))
  {
    var r := Run1(db, step);
    forall seat | seat in r.cursors ensures seat in r.baselines && CursorOk(r, seat) {
      assert seat in db.cursors ==> CursorOk(db, seat);
    }
  }

  lemma {:induction false} TasksOnlySound(db: Db, r: Db)
    requires Sound(db) && r == db.(tasks := r.tasks, enqueued := r.enqueued)
    requires forall t :: t in r.tasks ==> TaskOk(r.log, r.tasks[t])
    ensures Sound(r)
  {
    forall seat | seat in r.cursors ensures CursorOk(r, seat) {
      assert CursorOk(db, seat);
    }
  }

  lemma {:induction false} MarkStepSound(db: Db, step: Step)
    requires Sound(db) && (step.MarkLive? || step.MarkReplayed?)
    ensures Sound(Run1(db, step))
  {
    var task, r := TaskOf(db, step.t), Run1(db, step);
    if r != db {
      assert TaskOk(db.log, task);
      var principal := if task.Sent? then task.to else task.principal;
      MarkSound(db, Seat(principal, task.channel), task.seqNo);
      TasksOnlySound(db.(cursors := r.cursors), r);
    }
  }

  lemma {:induction false} StepSound(db: Db, step: Step)
    requires Sound(db)
    ensures Sound(Run1(db, step))
  {
    match step {
      case AddMembership(p, c) => MembershipSound(db, step);
      case RemoveMembership(p, c) => MembershipSound(db, step);
      case Append(t, c, sender, body, msgId, at) => AppendSound(db, step);
      case SendLive(t, to) => TasksOnlySound(db, Run1(db, step));
      case MarkLive(t) => MarkStepSound(db, step);
      case StartReplay(t, p, targets, limit) => TasksOnlySound(db, Run1(db, step));
      case ReadPage(t) => ReadPageSound(db, t);
      case MarkReplayed(t) => MarkStepSound(db, step);
      case Stop(t) => TasksOnlySound(db, Run1(db, step));
    }
  }

  lemma {:induction false} RunSound(db: Db, steps: seq<Step>)
    requires Sound(db)
    ensures Sound(RunAll(db, steps))
  {
    if steps != [] {
      RunSound(db, Front(steps));
      StepSound(RunAll(db, Front(steps)), Last(steps));
    }
  }

  // ----- Main results -----

  /** In every interleaving, a cursor is the join baseline or a stored message's number, and never past the channel. */
  lemma {:induction false} CursorsStandOnMessages(steps: seq<Step>, seat: Seat)
    requires seat in RunAll(EMPTY, steps).cursors
    ensures var db := RunAll(EMPTY, steps);
      && seat in db.baselines
      && db.baselines[seat] <= db.cursors[seat] <= MaxSeq(db.log, seat.channel)
      && (db.cursors[seat] == db.baselines[seat] || Stored(db.log, seat.channel, db.cursors[seat]))
  {
    RunSound(EMPTY, steps);
    assert CursorOk(RunAll(EMPTY, steps), seat);
  }

  /** Within one epoch, that is while the row is not removed, the cursor never goes back and the baseline stays. */
  lemma {:induction false} CursorsNeverGoBack(db: Db, steps: seq<Step>, seat: Seat)
    requires seat in db.cursors && seat in db.baselines
    requires RemoveMembership(seat.principal, seat.channel) !in steps
    ensures var r := RunAll(db, steps);
      && seat in r.cursors && seat in r.baselines
      && db.cursors[seat] <= r.cursors[seat] && r.baselines[seat] == db.baselines[seat]
  {
    if steps != [] {
      assert Last(steps) in steps;
      assert forall step :: step in Front(steps) ==> step in steps;
      CursorsNeverGoBack(db, Front(steps), seat);
      hide Run1;
      CursorStays(RunAll(db, Front(steps)), Last(steps), seat);
    }
  }

  lemma {:induction false} CursorStays(db: Db, step: Step, seat: Seat)
    requires seat in db.cursors && seat in db.baselines
    requires step != RemoveMembership(seat.principal, seat.channel)
    ensures var r := Run1(db, step);
      && seat in r.cursors && seat in r.baselines
      && db.cursors[seat] <= r.cursors[seat] && r.baselines[seat] == db.baselines[seat]
  {
  }

  function Crossing(p: string, c: string): seq<Step> {
    [AddMembership(p, c)] + [Append(1, c, "a", "first", "m1", 0)] + [Append(2, c, "b", "second", "m2", 0)]
      + [SendLive(2, p)] + [MarkLive(2)] + [Stop(1)]
  }

  function Crossed(seat: Seat, c: string): Db {
    var m1, m2 := StoredMessage(1, "m1", c, "a", "first", 0), StoredMessage(2, "m2", c, "b", "second", 0);
    EMPTY.(cursors := map[seat := 0], baselines := map[seat := 0], log := [m1, m2], counter := 2,
           tasks := map[1 := Publishing(c, 1), 2 := Publishing(c, 2)])
  }

  lemma {:induction false} BothAppended(p: string, c: string)
    ensures Run1(Run1(Run1(EMPTY, AddMembership(p, c)), Append(1, c, "a", "first", "m1", 0)),
                 Append(2, c, "b", "second", "m2", 0)) == Crossed(Seat(p, c), c)
  {
    var seat := Seat(p, c);
    var m1, m2 := StoredMessage(1, "m1", c, "a", "first", 0), StoredMessage(2, "m2", c, "b", "second", 0);
    var joined := EMPTY.(cursors := map[seat := 0], baselines := map[seat := 0]);
    var one := joined.(log := [m1], counter := 1, tasks := map[1 := Publishing(c, 1)]);
    assert Run1(EMPTY, AddMembership(p, c)) == joined;
    assert Run1(joined, Append(1, c, "a", "first", "m1", 0)) == one by {
      assert joined.log + [m1] == one.log;
    }
    assert Run1(one, Append(2, c, "b", "second", "m2", 0)) == Crossed(seat, c) by {
      assert one.log + [m2] == [m1, m2];
    }
  }

  /** The second publisher sends and marks; the first stops. */
  lemma {:induction false} SecondSendsFirstStops(p: string, c: string)
    ensures Run1(Run1(Run1(Crossed(Seat(p, c), c), SendLive(2, p)), MarkLive(2)), Stop(1))
      == Crossed(Seat(p, c), c).(cursors := map[Seat(p, c) := 2], enqueued := {(Seat(p, c), 2)},
                                 tasks := map[1 := Idle, 2 := Publishing(c, 2)])
  {
    var seat, two := Seat(p, c), Crossed(Seat(p, c), c);
    var sent := two.(tasks := two.tasks[2 := Sent(c, 2, p)], enqueued := {(seat, 2)});
    var marked := sent.(cursors := map[seat := 2], tasks := two.tasks);
    assert {} + {(seat, 2)} == {(seat, 2)};
    assert Run1(two, SendLive(2, p)) == sent;
    assert sent.tasks[2 := Publishing(c, 2)] == two.tasks;
    assert Run1(sent, MarkLive(2)) == marked;
    assert two.tasks[1 := Idle] == map[1 := Idle, 2 := Publishing(c, 2)];
  }

  /**
    The no-gap theorem of whole commands does not survive this grain: two publishers whose appends and sends cross,
    the earlier one stopping in between, leave the cursor above a message that was never enqueued to the member.
   */
  lemma {:induction false} CrossingPublishersCanLeaveAGap(p: string, c: string)
    ensures var db, seat := RunAll(EMPTY, Crossing(p, c)), Seat(p, c);
      && seat in db.cursors && seat in db.baselines
      && db.baselines[seat] == 0 && db.cursors[seat] == 2
      && Stored(db.log, c, 1) && (seat, 1) !in db.enqueued
      && TaskOf(db, 1) == Idle
  {
    hide RunAll, Crossing, Run1;
    BothAppended(p, c);
    SecondSendsFirstStops(p, c);
    CrossingSteps(p, c);
    var log := Crossed(Seat(p, c), c).log;
    assert log[0].channel == c && log[0].seqNo == 1;
  }

  lemma {:induction false} CrossingSteps(p: string, c: string)
    ensures RunAll(EMPTY, Crossing(p, c)) ==
      Run1(Run1(Run1(Run1(Run1(Run1(EMPTY, AddMembership(p, c)), Append(1, c, "a", "first", "m1", 0)),
        Append(2, c, "b", "second", "m2", 0)), SendLive(2, p)), MarkLive(2)), Stop(1))
  {
    hide Run1;
    var s1, s2, s3 := AddMembership(p, c), Append(1, c, "a", "first", "m1", 0), Append(2, c, "b", "second", "m2", 0);
    assert [] + [s1] == [s1];
    RunAllSnoc(EMPTY, [], s1);
    RunAllSnoc(EMPTY, [s1], s2);
    RunAllSnoc(EMPTY, [s1] + [s2], s3);
    RunAllSnoc(EMPTY, [s1] + [s2] + [s3], SendLive(2, p));
    RunAllSnoc(EMPTY, [s1] + [s2] + [s3] + [SendLive(2, p)], MarkLive(2));
    RunAllSnoc(EMPTY, [s1] + [s2] + [s3] + [SendLive(2, p)] + [MarkLive(2)], Stop(1));
  }

  lemma {:induction false} RunAllSnoc(db: Db, steps: seq<Step>, step: Step)
    ensures RunAll(db, steps + [step]) == Run1(RunAll(db, steps), step)
  {
    assert Front(steps + [step]) == steps;
  }
}

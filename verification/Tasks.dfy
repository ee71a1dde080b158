/** The task table and its lease protocol (src/tasks.rs), and what runs of it guarantee. */
module Tasks {
  import opened Prelude

  datatype Status = Open | Claimed | Done

  datatype Row = Row(
    channel: string,
    title: string,
    status: Status,
    claimedBy: Option<string>,
    lease: Option<int>,
    createdAt: int,
    updatedAt: int
  )

  type Table = map<string, Row>

  datatype Task = Task(
    id: string,
    channel: string,
    title: string,
    status: Status,
    claimedBy: Option<string>,
    lease: Option<int>
  )

  datatype Result = Ok(task: Task) | Err(message: string)

  /** `now` is sampled before the lock is taken, so it need not rise from one operation to the next. */
  datatype Op =
    | Create(id: string, channel: string, title: string, now: int)
    | Claim(id: string, principal: string, now: int)
    | Complete(id: string, principal: string, now: int)
    | Release(id: string, principal: string, now: int)

  // ----- The guarded updates -----

  predicate Claimable(row: Row, now: int) {
    && row.status != Done
    && (row.status == Open || row.lease.None? || row.lease.value < now)
  }

  predicate HeldBy(row: Row, principal: string) {
    row.claimedBy == Some(principal) && row.status == Claimed
  }

  predicate Succeeds(table: Table, op: Op) {
    match op
    case Create(id, channel, title, now) => id !in table
    case Claim(id, p, now) => id in table && Claimable(table[id], now)
    case Complete(id, p, now) => id in table && HeldBy(table[id], p)
    case Release(id, p, now) => id in table && HeldBy(table[id], p)
  }

  function Apply(table: Table, leaseSeconds: int, op: Op): Table {
    if !Succeeds(table, op) then table
    else
      match op
      case Create(id, channel, title, now) => table[id := Row(channel, title, Open, None, None, now, now)]
      case Claim(id, p, now) =>
        var expires := now + leaseSeconds;
        table[id := table[id].(status := Claimed, claimedBy := Some(p), lease := Some(expires), updatedAt := now)]
      case Complete(id, p, now) => table[id := table[id].(status := Done, updatedAt := now)]
      case Release(id, p, now) =>
        table[id := table[id].(status := Open, claimedBy := None, lease := None, updatedAt := now)]
  }

  ghost function RunFrom(table: Table, leaseSeconds: int, ops: seq<Op>): Table {
    if ops == [] then table else Apply(RunFrom(table, leaseSeconds, Front(ops)), leaseSeconds, Last(ops))
  }

  // ----- Where a row comes from -----

  /** The operation that created the task: the first creation under its id, as a taken id cannot be created again. */
  ghost predicate Creates(ops: seq<Op>, k: nat, id: string) {
    && k < |ops| && ops[k].Create? && ops[k].id == id
    && (forall i :: 0 <= i < k ==> !(ops[i].Create? && ops[i].id == id))
  }

  /** The last operation on the task that took effect. */
  ghost predicate Touches(leaseSeconds: int, ops: seq<Op>, k: nat, id: string) {
    && k < |ops| && ops[k].id == id && Succeeds(RunFrom(map[], leaseSeconds, ops[..k]), ops[k])
    && (forall i :: k < i < |ops| && ops[i].id == id ==> !Succeeds(RunFrom(map[], leaseSeconds, ops[..i]), ops[i]))
  }

  /** A row's channel, title and creation time are those of the operation that created it, whatever came after. */
  lemma {:induction false} RowsKeepTheirOrigin(leaseSeconds: int, ops: seq<Op>, id: string)
    ensures id in RunFrom(map[], leaseSeconds, ops) <==> exists k: nat :: Creates(ops, k, id)
    ensures forall k: nat :: Creates(ops, k, id) ==>
      var row := RunFrom(map[], leaseSeconds, ops)[id];
      row.channel == ops[k].channel && row.title == ops[k].title && row.createdAt == ops[k].now
  {
    if ops != [] {
      var front, op := Front(ops), Last(ops);
      RowsKeepTheirOrigin(leaseSeconds, front, id);
      assert front + [op] == ops;
      if k: nat :| Creates(front, k, id) {
        assert Creates(ops, k, id);
        assert forall i: nat :: Creates(ops, i, id) ==> i == k;
      } else {
        if i :| 0 <= i < |front| && front[i].Create? && front[i].id == id {
          var k := FirstCreation(front, id);
          assert false;
        }
        assert forall k: nat :: Creates(ops, k, id) ==> k == |front|;
        if op.Create? && op.id == id {
          assert Creates(ops, |front|, id);
        }
      }
    }
  }

  lemma {:induction false} FirstCreation(ops: seq<Op>, id: string) returns (k: nat)
    requires exists i :: 0 <= i < |ops| && ops[i].Create? && ops[i].id == id
    ensures Creates(ops, k, id)
  {
    k := 0;
    while !(ops[k].Create? && ops[k].id == id)
      invariant k < |ops| && forall i :: 0 <= i < k ==> !(ops[i].Create? && ops[i].id == id)
      decreases |ops| - k
    {
      k := k + 1;
    }
  }

  /** A row's update time is that of the last operation on it that took effect. */
  lemma {:induction false} RowsTellTheirLastChange(leaseSeconds: int, ops: seq<Op>, id: string)
    requires id in RunFrom(map[], leaseSeconds, ops)
    ensures exists k: nat :: Touches(leaseSeconds, ops, k, id)
    ensures forall k: nat :: Touches(leaseSeconds, ops, k, id) ==>
      RunFrom(map[], leaseSeconds, ops)[id].updatedAt == ops[k].now
  {
    var front, op := Front(ops), Last(ops);
    var before := RunFrom(map[], leaseSeconds, front);
    assert ops[..|front|] == front;
    assert forall i :: 0 <= i < |front| ==> front[..i] == ops[..i];
    if op.id == id && Succeeds(before, op) {
      assert Touches(leaseSeconds, ops, |front|, id);
    } else {
      RowsTellTheirLastChange(leaseSeconds, front, id);
      forall k: nat ensures Touches(leaseSeconds, ops, k, id) <==> Touches(leaseSeconds, front, k, id) {
      }
      var k: nat :| Touches(leaseSeconds, front, k, id);
      assert Touches(leaseSeconds, ops, k, id);
    }
  }

  function TaskOf(id: string, row: Row): Task {
    Task(id, row.channel, row.title, row.status, row.claimedBy, row.lease)
  }

  // ----- The store -----

  class TaskStore {
    const leaseSeconds: int
    var rows: Table

    /** The operations performed so far. */
    ghost var ops: seq<Op>

    ghost predicate Valid()
      reads this
    {
      rows == RunFrom(map[], leaseSeconds, ops)
    }

    constructor (leaseSeconds: int)
      ensures Valid() && this.leaseSeconds == leaseSeconds && rows == map[] && ops == []
    {
      this.leaseSeconds := leaseSeconds;
      rows, ops := map[], [];
    }

    ghost method Record(op: Op, before: Table)
      requires before == RunFrom(map[], leaseSeconds, ops) && rows == Apply(before, leaseSeconds, op)
      modifies this`ops
      ensures Valid() && ops == old(ops) + [op]
    {
      ops := ops + [op];
      assert Front(ops) == old(ops);
    }

    method CreateTask(id: string, channel: string, title: string, now: int) returns (r: Result)
      requires Valid()
      modifies this
      ensures Valid() && ops == old(ops) + [Create(id, channel, title, now)]
      ensures r == if id in old(rows) then Err("insert task") else Ok(Task(id, channel, title, Open, None, None))
      ensures id !in old(rows) ==> rows == old(rows)[id := Row(channel, title, Open, None, None, now, now)]
      ensures id in old(rows) ==> rows == old(rows)
    {
      ghost var before := rows;
      if id in rows {
        r := Err("insert task");
      } else {
        rows := rows[id := Row(channel, title, Open, None, None, now, now)];
        r := Ok(Task(id, channel, title, Open, None, None));
      }
      Record(Create(id, channel, title, now), before);
    }

    method ClaimTask(id: string, principal: string, now: int) returns (r: Result)
      requires Valid()
      modifies this
      ensures Valid() && ops == old(ops) + [Claim(id, principal, now)]
      ensures r.Ok? <==> Succeeds(old(rows), Claim(id, principal, now))
      ensures r.Ok? ==>
        && id in rows && id in old(rows)
        && rows == old(rows)[id := old(rows)[id].(status := Claimed, claimedBy := Some(principal),
                                                  lease := Some(now + leaseSeconds), updatedAt := now)]
        && r.task == TaskOf(id, rows[id])
      ensures !r.Ok? ==> rows == old(rows) && r.message == "task is already claimed or done"
    {
      ghost var before := rows;
      var expires := now + leaseSeconds;
      r := Err("task is already claimed or done");
      if id in rows {
        var row := rows[id];
        if row.status != Done && (row.status == Open || row.lease.None? || row.lease.value < now) {
          row := row.(status := Claimed, claimedBy := Some(principal), lease := Some(expires), updatedAt := now);
          rows := rows[id := row];
          r := Ok(TaskOf(id, rows[id]));
        }
      }
      Record(Claim(id, principal, now), before);
    }

    method CompleteTask(id: string, principal: string, now: int) returns (r: Result)
      requires Valid()
      modifies this
      ensures Valid() && ops == old(ops) + [Complete(id, principal, now)]
      ensures r.Ok? <==> Succeeds(old(rows), Complete(id, principal, now))
      ensures r.Ok? ==>
        && id in rows && id in old(rows)
        && rows == old(rows)[id := old(rows)[id].(status := Done, updatedAt := now)]
        && r.task == TaskOf(id, rows[id])
      ensures !r.Ok? ==> rows == old(rows) && r.message == "task is not claimed by this principal"
    {
      ghost var before := rows;
      r := Err("task is not claimed by this principal");
      if id in rows && rows[id].claimedBy == Some(principal) && rows[id].status == Claimed {
        rows := rows[id := rows[id].(status := Done, updatedAt := now)];
        r := Ok(TaskOf(id, rows[id]));
      }
      Record(Complete(id, principal, now), before);
    }

    method ReleaseTask(id: string, principal: string, now: int) returns (r: Result)
      requires Valid()
      modifies this
      ensures Valid() && ops == old(ops) + [Release(id, principal, now)]
      ensures r.Ok? <==> Succeeds(old(rows), Release(id, principal, now))
      ensures r.Ok? ==>
        && id in rows && id in old(rows)
        && rows == old(rows)[id := old(rows)[id].(status := Open, claimedBy := None, lease := None, updatedAt := now)]
        && r.task == TaskOf(id, rows[id])
      ensures !r.Ok? ==> rows == old(rows) && r.message == "task is not claimed by this principal"
    {
      ghost var before := rows;
      r := Err("task is not claimed by this principal");
      if id in rows && rows[id].claimedBy == Some(principal) && rows[id].status == Claimed {
        rows := rows[id := rows[id].(status := Open, claimedBy := None, lease := None, updatedAt := now)];
        r := Ok(TaskOf(id, rows[id]));
      }
      Record(Release(id, principal, now), before);
    }

    /** WHERE channel = ? AND status != 'done' ORDER BY created_at. */
    method ListedIds(channel: string) returns (ids: seq<string>)
      ensures forall id :: id in ids <==> id in rows && Listed(rows[id], channel)
      ensures forall i, j :: 0 <= i < j < |ids| ==> ids[i] != ids[j]
      ensures ByAge(rows, ids)
    {
      ids := [];
      var left := rows.Keys;
      while left != {}
        invariant left <= rows.Keys
        invariant forall id :: id in ids <==> id in rows && id !in left && Listed(rows[id], channel)
        invariant forall i, j :: 0 <= i < j < |ids| ==> ids[i] != ids[j]
        invariant ByAge(rows, ids)
        decreases left
      {
        var id :| id in left;
        left := left - {id};
        if Listed(rows[id], channel) {
          var k := 0;
          while k < |ids| && rows[ids[k]].createdAt <= rows[id].createdAt
            invariant 0 <= k <= |ids|
            invariant forall i :: 0 <= i < k ==> rows[ids[i]].createdAt <= rows[id].createdAt
          {
            k := k + 1;
          }
          ids := Inserted(rows, ids, k, id);
        }
      }
    }

    /** The channel's unfinished tasks, each once, in the order of the clock readings of their creations. */
    method List(channel: string) returns (tasks: seq<Task>)
      requires Valid()
      ensures forall t :: t in tasks <==>
        t.id in rows && t == TaskOf(t.id, rows[t.id]) && t.channel == channel && t.status != Done
      ensures forall i, j :: 0 <= i < j < |tasks| ==>
        tasks[i].id != tasks[j].id && InOrder(ops, tasks[i].id, tasks[j].id)
    {
      var ids := ListedIds(channel);
      hide RunFrom, ByAge, InOrder;
      CreationOrder(leaseSeconds, ops, rows, ids);
      tasks := [];
      var n := 0;
      while n < |ids|
        invariant 0 <= n <= |ids| && |tasks| == n
        invariant forall i :: 0 <= i < n ==> ids[i] in rows && tasks[i] == TaskOf(ids[i], rows[ids[i]])
      {
        assert ids[n] in ids;
        tasks := tasks + [TaskOf(ids[n], rows[ids[n]])];
        n := n + 1;
      }
      TasksOfIds(rows, ids, tasks, channel);
    }
  }

  /** Both tasks were created, the first at a clock reading not after the second's. */
  ghost predicate InOrder(ops: seq<Op>, first: string, second: string) {
    && (exists k: nat :: Creates(ops, k, first)) && (exists k: nat :: Creates(ops, k, second))
    && (forall a: nat, b: nat :: Creates(ops, a, first) && Creates(ops, b, second) ==> ops[a].now <= ops[b].now)
  }

  lemma {:induction false} TasksOfIds(rows: Table, ids: seq<string>, tasks: seq<Task>, channel: string)
    requires forall id :: id in ids <==> id in rows && Listed(rows[id], channel)
    requires |tasks| == |ids|
    requires forall i :: 0 <= i < |ids| ==> ids[i] in rows && tasks[i] == TaskOf(ids[i], rows[ids[i]])
    ensures forall t :: t in tasks <==>
      t.id in rows && t == TaskOf(t.id, rows[t.id]) && t.channel == channel && t.status != Done
  {
    forall t ensures t in tasks <==>
      t.id in rows && t == TaskOf(t.id, rows[t.id]) && t.channel == channel && t.status != Done
    {
      if t in tasks {
        var i :| 0 <= i < |tasks| && tasks[i] == t;
        assert ids[i] in ids;
      }
      if t.id in rows && t == TaskOf(t.id, rows[t.id]) && t.channel == channel && t.status != Done {
        assert t.id in ids;
        var i :| 0 <= i < |ids| && ids[i] == t.id;
        assert tasks[i] == t;
      }
    }
  }

  /** Rows in the order of their creation times are in the order of the operations' clock readings. */
  lemma {:induction false} CreationOrder(leaseSeconds: int, ops: seq<Op>, rows: Table, ids: seq<string>)
    requires rows == RunFrom(map[], leaseSeconds, ops) && ByAge(rows, ids)
    ensures forall i, j :: 0 <= i < j < |ids| ==> InOrder(ops, ids[i], ids[j])
  {
    hide RunFrom, Creates;
    forall i, j | 0 <= i < j < |ids| ensures InOrder(ops, ids[i], ids[j]) {
      RowsKeepTheirOrigin(leaseSeconds, ops, ids[i]);
      RowsKeepTheirOrigin(leaseSeconds, ops, ids[j]);
    }
  }

  predicate Listed(row: Row, channel: string) {
    row.channel == channel && row.status != Done
  }

  ghost predicate ByAge(rows: Table, ids: seq<string>) {
    && (forall i :: 0 <= i < |ids| ==> ids[i] in rows)
    && (forall i, j :: 0 <= i < j < |ids| ==> rows[ids[i]].createdAt <= rows[ids[j]].createdAt)
  }

  function Inserted(rows: Table, ids: seq<string>, k: nat, id: string): (r: seq<string>)
    requires k <= |ids| && id in rows && ByAge(rows, ids)
    requires forall i :: 0 <= i < k ==> rows[ids[i]].createdAt <= rows[id].createdAt
    requires k < |ids| ==> rows[id].createdAt <= rows[ids[k]].createdAt
    requires id !in ids && forall i, j :: 0 <= i < j < |ids| ==> ids[i] != ids[j]
    ensures ByAge(rows, r)
    ensures forall i, j :: 0 <= i < j < |r| ==> r[i] != r[j]
    ensures forall x :: x in r <==> x == id || x in ids
  {
    var r := ids[..k] + [id] + ids[k..];
    assert forall x :: x in ids ==> x in ids[..k] || x in ids[k..];
    r
  }
}

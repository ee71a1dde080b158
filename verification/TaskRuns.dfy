/** Lease separation, finality and races over whole runs of task operations with arbitrary timestamps. */
module TaskRuns {
  import opened Prelude
  import opened Tasks

  /** The table after the first operations of a run that starts with no tasks. */
  ghost function Run(leaseSeconds: int, ops: seq<Op>): Table {
    RunFrom(map[], leaseSeconds, ops)
  }

  ghost predicate Happens(leaseSeconds: int, ops: seq<Op>, k: nat)
    requires k < |ops|
  {
    Succeeds(Run(leaseSeconds, ops[..k]), ops[k])
  }

  ghost predicate Wins(leaseSeconds: int, ops: seq<Op>, k: nat, id: string) {
    k < |ops| && ops[k].Claim? && ops[k].id == id && Happens(leaseSeconds, ops, k)
  }

  ghost predicate Releases(leaseSeconds: int, ops: seq<Op>, k: nat, id: string) {
    k < |ops| && ops[k].Release? && ops[k].id == id && Happens(leaseSeconds, ops, k)
  }

  ghost predicate Completes(leaseSeconds: int, ops: seq<Op>, k: nat, id: string) {
    k < |ops| && ops[k].Complete? && ops[k].id == id && Happens(leaseSeconds, ops, k)
  }

  lemma {:induction false} RunSnoc(leaseSeconds: int, ops: seq<Op>, n: nat)
    requires n < |ops|
    ensures Run(leaseSeconds, ops[..n + 1]) == Apply(Run(leaseSeconds, ops[..n]), leaseSeconds, ops[n])
  {
    assert Front(ops[..n + 1]) == ops[..n] && Last(ops[..n + 1]) == ops[n];
  }

  // ----- The shape of a row -----

  /** Open rows have neither claimant nor lease; claimed and done rows have both. */
  ghost predicate Shaped(row: Row) {
    && (row.status == Open <==> row.claimedBy.None?)
    && (row.status == Open <==> row.lease.None?)
  }

  lemma {:induction false} ReachableRowsAreShaped(leaseSeconds: int, ops: seq<Op>)
    ensures forall id :: id in Run(leaseSeconds, ops) ==> Shaped(Run(leaseSeconds, ops)[id])
  {
    if ops != [] {
      ReachableRowsAreShaped(leaseSeconds, Front(ops));
      assert Run(leaseSeconds, ops) == Apply(Run(leaseSeconds, Front(ops)), leaseSeconds, Last(ops));
    }
  }

  /** On reachable rows the guard "lease IS NULL" admits no claim that "open or lapsed" does not admit. */
  lemma {:induction false} NullLeaseAddsNoClaim(leaseSeconds: int, ops: seq<Op>, id: string, now: int)
    requires id in Run(leaseSeconds, ops)
    ensures var row := Run(leaseSeconds, ops)[id];
      Claimable(row, now) <==>
        row.status == Open || (row.status == Claimed && row.lease.Some? && row.lease.value < now)
  {
    ReachableRowsAreShaped(leaseSeconds, ops);
  }

  // ----- Leases -----

  /** From a winning claim on, until another win or a release, the row is the winner's, with the winner's lease. */
  lemma {:induction false} HoldersKeepTheRow(leaseSeconds: int, ops: seq<Op>, i: nat, n: nat, id: string)
    requires Wins(leaseSeconds, ops, i, id) && i < n <= |ops|
    requires forall k :: i < k < n ==> !Wins(leaseSeconds, ops, k, id) && !Releases(leaseSeconds, ops, k, id)
    ensures var table := Run(leaseSeconds, ops[..n]);
      && id in table
      && table[id].status != Open
      && table[id].claimedBy == Some(ops[i].principal)
      && table[id].lease == Some(ops[i].now + leaseSeconds)
      && (table[id].status == Done <==> exists k :: i < k < n && Completes(leaseSeconds, ops, k, id))
  {
    RunSnoc(leaseSeconds, ops, n - 1);
    if i < n - 1 {
      HoldersKeepTheRow(leaseSeconds, ops, i, n - 1, id);
      assert !Wins(leaseSeconds, ops, n - 1, id) && !Releases(leaseSeconds, ops, n - 1, id);
      assert Completes(leaseSeconds, ops, n - 1, id) ==> exists k :: i < k < n && Completes(leaseSeconds, ops, k, id);
    }
  }

  /**
    Two consecutive successful claims of a task: either the first claimer released it in between,
    or the second claim's timestamp lies beyond the first claim's lease. The clock may go backwards.
   */
  lemma {:induction false} ConsecutiveClaimsAreSeparated(leaseSeconds: int, ops: seq<Op>, i: nat, j: nat, id: string)
    requires i < j && Wins(leaseSeconds, ops, i, id) && Wins(leaseSeconds, ops, j, id)
    requires forall k :: i < k < j ==> !Wins(leaseSeconds, ops, k, id)
    ensures ops[j].now > ops[i].now + leaseSeconds
      || exists k :: i < k < j && Releases(leaseSeconds, ops, k, id) && ops[k].principal == ops[i].principal
  {
    if k :| i < k < j && Releases(leaseSeconds, ops, k, id) {
      var first := FirstRelease(leaseSeconds, ops, i, k, id);
      HoldersKeepTheRow(leaseSeconds, ops, i, first, id);
    } else {
      HoldersKeepTheRow(leaseSeconds, ops, i, j, id);
    }
  }

  lemma {:induction false} FirstRelease(
      leaseSeconds: int, ops: seq<Op>, i: nat, k: nat, id: string) returns (first: nat)
    requires i < k && Releases(leaseSeconds, ops, k, id)
    ensures i < first <= k && Releases(leaseSeconds, ops, first, id)
    ensures forall m :: i < m < first ==> !Releases(leaseSeconds, ops, m, id)
    decreases k
  {
    if m :| i < m < k && Releases(leaseSeconds, ops, m, id) {
      first := FirstRelease(leaseSeconds, ops, i, m, id);
    } else {
      first := k;
    }
  }

  /** A held row goes back to a successful claim by its holder that nothing has undone since. */
  lemma {:induction false} HeldRowHasAClaimer(leaseSeconds: int, ops: seq<Op>, n: nat, id: string) returns (i: nat)
    requires n <= |ops| && id in Run(leaseSeconds, ops[..n]) && Run(leaseSeconds, ops[..n])[id].status == Claimed
    ensures i < n && Wins(leaseSeconds, ops, i, id)
    ensures Run(leaseSeconds, ops[..n])[id].claimedBy == Some(ops[i].principal)
    ensures forall k :: i < k < n ==>
        !Wins(leaseSeconds, ops, k, id) && !Releases(leaseSeconds, ops, k, id) && !Completes(leaseSeconds, ops, k, id)
  {
    RunSnoc(leaseSeconds, ops, n - 1);
    if Wins(leaseSeconds, ops, n - 1, id) {
      i := n - 1;
    } else {
      i := HeldRowHasAClaimer(leaseSeconds, ops, n - 1, id);
    }
  }

  /** Only the latest claimer, when it has neither released nor finished the task, can complete or release it. */
  lemma {:induction false} OnlyTheLatestClaimerSettles(
      leaseSeconds: int, ops: seq<Op>, j: nat, id: string) returns (i: nat)
    requires Completes(leaseSeconds, ops, j, id) || Releases(leaseSeconds, ops, j, id)
    ensures i < j && Wins(leaseSeconds, ops, i, id) && ops[i].principal == ops[j].principal
    ensures forall k :: i < k < j ==>
        !Wins(leaseSeconds, ops, k, id) && !Releases(leaseSeconds, ops, k, id) && !Completes(leaseSeconds, ops, k, id)
  {
    i := HeldRowHasAClaimer(leaseSeconds, ops, j, id);
  }

  lemma {:induction false} DoneStays(leaseSeconds: int, ops: seq<Op>, i: nat, n: nat, id: string)
    requires Completes(leaseSeconds, ops, i, id) && i < n <= |ops|
    ensures id in Run(leaseSeconds, ops[..n]) && Run(leaseSeconds, ops[..n])[id].status == Done
  {
    RunSnoc(leaseSeconds, ops, n - 1);
    if i < n - 1 {
      DoneStays(leaseSeconds, ops, i, n - 1, id);
    }
  }

  /** After a task has been completed, no operation on it ever succeeds again; in particular `done` succeeds once. */
  lemma {:induction false} DoneIsFinal(leaseSeconds: int, ops: seq<Op>, i: nat, j: nat)
    requires i < j < |ops| && Completes(leaseSeconds, ops, i, ops[j].id)
    ensures !Happens(leaseSeconds, ops, j)
  {
    DoneStays(leaseSeconds, ops, i, j, ops[j].id);
  }

  // ----- Races -----

  /** The operations that touch the task are claims of it, with timestamps within one lease of each other. */
  ghost predicate Contest(leaseSeconds: int, ops: seq<Op>, id: string) {
    && (forall k :: 0 <= k < |ops| && ops[k].id == id ==> ops[k].Claim?)
    && (forall i, j :: 0 <= i < |ops| && 0 <= j < |ops| && ops[i].id == id && ops[j].id == id ==>
          ops[j].now <= ops[i].now + leaseSeconds)
  }

  ghost predicate FirstTouch(ops: seq<Op>, id: string, k: nat) {
    && k < |ops| && ops[k].id == id
    && (forall i :: 0 <= i < k ==> ops[i].id != id)
  }

  lemma {:induction false} ContestPrefix(table: Table, leaseSeconds: int, ops: seq<Op>, id: string, w: nat, n: nat)
    requires id in table && table[id].status == Open
    requires Contest(leaseSeconds, ops, id) && FirstTouch(ops, id, w) && n <= |ops|
    ensures var t := RunFrom(table, leaseSeconds, ops[..n]);
      && id in t
      && (n <= w ==> t[id] == table[id])
      && (n > w ==> t[id].status == Claimed && t[id].claimedBy == Some(ops[w].principal)
                    && t[id].lease == Some(ops[w].now + leaseSeconds))
  {
    if n > 0 {
      assert Front(ops[..n]) == ops[..n - 1] && Last(ops[..n]) == ops[n - 1];
      ContestPrefix(table, leaseSeconds, ops, id, w, n - 1);
    }
  }

  /**
    A race for an open task: in every lock order, among operations on any tasks, the first claim of the contested one
    succeeds, every other fails, and the table names the winner.
   */
  lemma {:induction false} ContestHasOneWinner(table: Table, leaseSeconds: int, ops: seq<Op>, id: string, w: nat)
    requires id in table && table[id].status == Open
    requires Contest(leaseSeconds, ops, id) && FirstTouch(ops, id, w)
    ensures forall k :: 0 <= k < |ops| && ops[k].id == id ==>
        (Succeeds(RunFrom(table, leaseSeconds, ops[..k]), ops[k]) <==> k == w)
    ensures var final := RunFrom(table, leaseSeconds, ops);
      id in final && final[id].claimedBy == Some(ops[w].principal) && final[id].status == Claimed
  {
    forall k | 0 <= k < |ops| && ops[k].id == id
      ensures Succeeds(RunFrom(table, leaseSeconds, ops[..k]), ops[k]) <==> k == w
    {
      ContestPrefix(table, leaseSeconds, ops, id, w, k);
    }
    ContestPrefix(table, leaseSeconds, ops, id, w, |ops|);
    assert ops[..|ops|] == ops;
  }

  /** The window is exact: of two claims of an open task, both succeed if and only if the lease lapses in between. */
  lemma {:induction false} BothClaimsWinIffLeaseLapses(
      table: Table, leaseSeconds: int, id: string, p: string, q: string, first: int, second: int)
    requires id in table && table[id].status == Open
    ensures Succeeds(table, Claim(id, p, first))
    ensures Succeeds(Apply(table, leaseSeconds, Claim(id, p, first)), Claim(id, q, second))
       <==> second > first + leaseSeconds
  {
  }
}

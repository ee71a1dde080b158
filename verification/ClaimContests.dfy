/** What a race for a task tells every daemon that takes part: the winner hears "claimed", each loser "failed". */
module ClaimContests {
  import opened Prelude
  import opened Text
  import opened ClaimRequests
  import T = Tasks
  import R = TaskRuns
  import L = TaskLog

  /** Operation `k` is the one claim of the task by `me`. */
  ghost predicate OnlyClaim(ops: seq<T.Op>, k: nat, id: string, me: string) {
    && k < |ops| && ops[k] == T.Claim(id, me, ops[k].now)
    && (forall i :: 0 <= i < |ops| && i != k && ops[i].Claim? && ops[i].id == id ==> ops[i].principal != me)
  }

  /** The message tells of operation `k`: its tagged notice, or the replay of its logged text. */
  ghost predicate Tells(
      msg: Incoming, lease: int, table: T.Table, ops: seq<T.Op>, nicks: string -> string, k: nat, me: string)
    requires k < |ops|
  {
    || Notified(msg, lease, table, ops, k, nicks(me), nicks, me)
    || (Happened(lease, table, ops, k) && IsLogged(msg, ops[k], nicks))
  }

  /** The race: the task is open before it, `w` is the first claim, and the names are in order. */
  ghost predicate Race(
      lease: int, table: T.Table, ops: seq<T.Op>, nicks: string -> string, id: string, w: nat)
  {
    && id in table && table[id].status == T.Open
    && R.Contest(lease, ops, id) && R.FirstTouch(ops, id, w)
    && Named(ops, nicks) && Honest(nicks)
  }

  lemma {:induction false} OnlyTheFirstHappens(
      lease: int, table: T.Table, ops: seq<T.Op>, nicks: string -> string, id: string, w: nat, n: nat)
    requires Race(lease, table, ops, nicks, id, w) && n < |ops| && ops[n].id == id
    ensures ops[n].Claim? && (Happened(lease, table, ops, n) <==> n == w)
  {
    R.ContestHasOneWinner(table, lease, ops, id, w);
  }

  /** An event's text names its operation. */
  lemma {:induction false} LoggedNames(msg: Incoming, op: T.Op, nicks: string -> string) returns (e: L.Event)
    requires Word(op.id) && IsLogged(msg, op, nicks)
    ensures msg.content == L.EventText(e) && e.id == op.id && e.verb == L.VerbFor(op)
    ensures Plain(e.actor) && (!op.Create? ==> e.actor == nicks(op.principal)) && L.ParseEvent(msg.content) == Some(e)
  {
    hide L.EventText, L.ParseEvent, Word;
    var actor, title :| msg.content == L.EventText(L.Event(op.id, L.VerbFor(op), actor, title))
      && Performs(op, nicks, actor);
    e := L.Event(op.id, L.VerbFor(op), actor, title);
    L.EventTextRoundTrip(e);
  }

  /** A notice of another operation does not tell of `k`. */
  lemma {:induction false} OtherNotice(
      lease: int, table: T.Table, ops: seq<T.Op>, nicks: string -> string, id: string, w: nat, k: nat, me: string,
      msg: Incoming, n: nat, actor: string)
    requires Race(lease, table, ops, nicks, id, w) && OnlyClaim(ops, k, id, me)
    requires Notified(msg, lease, table, ops, n, actor, nicks, me)
    ensures n == k <==> Tells(msg, lease, table, ops, nicks, k, me)
    ensures n == k <==> Asks(Request("claim", id), ops[n]) && actor == nicks(me)
  {
    hide R.Contest, R.FirstTouch, Happened, Word, Honest, IsText;
    assert ops[n].id != "" && ops[k].id != "" by { L.WordNotEmpty(ops[n].id); L.WordNotEmpty(ops[k].id); }
    if IsNotice(msg, ops[k], nicks(me), Happened(lease, table, ops, k)) {
      assert ActionText(ops[n]) == "claim" && ops[n].id == id && actor == nicks(me);
      ActionIsClaim(ops[n]);
    }
  }

  lemma {:induction false} ActionIsClaim(op: T.Op)
    requires ActionText(op) == "claim"
    ensures op.Claim?
  {
    assert "create"[1] == 'r' && "claim"[1] == 'l' && "done"[1] == 'o' && "release"[1] == 'e';
  }

  lemma {:induction false} NoticeInARace(
      lease: int, table: T.Table, ops: seq<T.Op>, nicks: string -> string, id: string, w: nat, k: nat, me: string,
      msg: Incoming, n: nat, actor: string)
    requires Race(lease, table, ops, nicks, id, w) && OnlyClaim(ops, k, id, me)
    requires Notified(msg, lease, table, ops, n, actor, nicks, me)
    ensures Judge(nicks(me), Request("claim", id), false, msg)
         == if Tells(msg, lease, table, ops, nicks, k, me) then Some(if k == w then "claimed" else "failed") else None
  {
    OtherNotice(lease, table, ops, nicks, id, w, k, me, msg, n, actor);
    assert ops[n].id != "" by { L.WordNotEmpty(ops[n].id); }
    if ops[n].id == id {
      OnlyTheFirstHappens(lease, table, ops, nicks, id, w, n);
    }
    hide Judge, IsNotice, Tells, Happened, R.Contest, R.FirstTouch, Word;
    NoticeAnswers(nicks(me), Request("claim", id), msg, ops[n], actor, Happened(lease, table, ops, n));
  }

  lemma {:induction false} LoggedInARace(
      lease: int, table: T.Table, ops: seq<T.Op>, nicks: string -> string, id: string, w: nat, k: nat, me: string,
      msg: Incoming, n: nat)
    requires Race(lease, table, ops, nicks, id, w) && OnlyClaim(ops, k, id, me)
    requires Happened(lease, table, ops, n) && IsLogged(msg, ops[n], nicks)
    ensures Judge(nicks(me), Request("claim", id), false, msg)
         == if Tells(msg, lease, table, ops, nicks, k, me) then Some(if k == w then "claimed" else "failed") else None
  {
    var e := LoggedNames(msg, ops[n], nicks);
    assert ops[k].id != "" by { L.WordNotEmpty(ops[k].id); }
    assert Get(msg.tags, "task-id") == "";
    if ops[n].id == id {
      OnlyTheFirstHappens(lease, table, ops, nicks, id, w, n);
    }
    hide Judge, Happened, IsLogged, R.Contest, R.FirstTouch, Word, L.EventText, L.ParseEvent;
    TextJudged(nicks(me), id, msg, e);
    if IsLogged(msg, ops[k], nicks) {
      var e1 := LoggedNames(msg, ops[k], nicks);
    }
  }

  lemma {:induction false} OtherInARace(
      lease: int, table: T.Table, ops: seq<T.Op>, nicks: string -> string, id: string, w: nat, k: nat, me: string,
      msg: Incoming)
    requires Race(lease, table, ops, nicks, id, w) && OnlyClaim(ops, k, id, me)
    requires IsOther(msg) || IsSaid(msg, nicks)
    ensures Judge(nicks(me), Request("claim", id), false, msg) == None
    ensures !Tells(msg, lease, table, ops, nicks, k, me)
  {
    assert ops[k].id != "" by { L.WordNotEmpty(ops[k].id); }
    assert Get(msg.tags, "task-id") == "";
    assert IsSaid(msg, nicks) ==> !FromServer(msg);
    hide FailureText, L.ParseEvent, R.Contest, R.FirstTouch, Word, Happened, IsText;
    if IsLogged(msg, ops[k], nicks) {
      var e := LoggedNames(msg, ops[k], nicks);
    }
  }

  /** What one message answers in the race: the outcome of this daemon's own claim, if it tells of that, or nothing. */
  lemma {:induction false} MessageInARace(
      lease: int, table: T.Table, ops: seq<T.Op>, nicks: string -> string, id: string, w: nat, k: nat, me: string,
      msg: Incoming)
    requires Race(lease, table, ops, nicks, id, w) && OnlyClaim(ops, k, id, me)
    requires Deliverable(msg, lease, table, ops, nicks, me)
    ensures Judge(nicks(me), Request("claim", id), false, msg)
         == if Tells(msg, lease, table, ops, nicks, k, me) then Some(if k == w then "claimed" else "failed") else None
  {
    hide Race, OnlyClaim, Judge, IsLogged, Notified, IsSaid, IsOther, Tells;
    if n: nat, actor: string :| Notified(msg, lease, table, ops, n, actor, nicks, me) {
      NoticeInARace(lease, table, ops, nicks, id, w, k, me, msg, n, actor);
    } else if n: nat :| Happened(lease, table, ops, n) && IsLogged(msg, ops[n], nicks) {
      LoggedInARace(lease, table, ops, nicks, id, w, k, me, msg, n);
    } else {
      OtherInARace(lease, table, ops, nicks, id, w, k, me, msg);
    }
  }

  /**
    In a race for an open task every daemon that claimed it once is told the outcome as soon as anything it reads tells
    of its claim, and only then: the first claimer "claimed", every other one "failed". Without that it times out.
   */
  lemma {:induction false} EveryoneHearsTheOutcome(
      lease: int, table: T.Table, ops: seq<T.Op>, nicks: string -> string, id: string, w: nat, k: nat, me: string,
      inbox: seq<Incoming>)
    requires Race(lease, table, ops, nicks, id, w) && OnlyClaim(ops, k, id, me)
    requires forall msg :: msg in inbox ==> Deliverable(msg, lease, table, ops, nicks, me)
    ensures Resolve(nicks(me), Request("claim", id), false, inbox)
         == if exists msg :: msg in inbox && Tells(msg, lease, table, ops, nicks, k, me)
            then (if k == w then "claimed" else "failed") else "timeout"
  {
    hide Race, OnlyClaim, Judge, Deliverable, Tells;
    if inbox != [] {
      assert forall msg :: msg in inbox <==> msg == inbox[0] || msg in inbox[1..];
      MessageInARace(lease, table, ops, nicks, id, w, k, me, inbox[0]);
      EveryoneHearsTheOutcome(lease, table, ops, nicks, id, w, k, me, inbox[1..]);
    }
  }
}

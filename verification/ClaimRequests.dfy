/**
  How a daemon resolves its pending claim and done requests from what it reads off the wire
  (clients/python/aircd/daemon.py, _request_task_action and _irc_reader_loop), joined to the server's outcome of a race.
 */
module ClaimRequests {
  import opened Prelude
  import opened Text
  import T = Tasks
  import R = TaskRuns
  import L = TaskLog

  datatype Incoming = Incoming(sender: string, content: string, tags: map<string, string>)

  /** A pending request: `action` is "claim" or "done". */
  datatype Request = Request(action: string, taskId: string)

  function Get(tags: map<string, string>, key: string): string {
    if key in tags then tags[key] else ""
  }

  /** The names whose messages the daemon takes for the server's. */
  predicate Trusted(nick: string) {
    nick == "aircd" || nick == "server"
  }

  predicate FromServer(msg: Incoming) {
    Trusted(msg.sender)
  }

  function Key(action: string, taskId: string): string {
    action + ":" + taskId
  }

  /** TASK\s+(CLAIM|DONE)\s+(\S+)\s+failed[\s:] */
  function FailureText(content: string): Option<Request> {
    var a := AfterLiteral(content, "TASK");
    if a.None? then None
    else
      var verb := Field(a.value, "");
      if verb.None? || !(verb.value.0 == "CLAIM" || verb.value.0 == "DONE") then None
      else
        var id := Field(verb.value.1, "");
        if id.None? then None
        else
          var rest := id.value.1;
          var word := SkipSpaces(rest);
          if rest != "" && IsSpace(rest[0]) && "failed" <= word && |word| > 6 && (IsSpace(word[6]) || word[6] == ':')
          then Some(Request(if verb.value.0 == "CLAIM" then "claim" else "done", id.value.0))
          else None
  }

  /** TASK\s+(\S+)\s+(claimed|completed)\s+by\s+(\S+?): */
  function SuccessText(content: string): Option<(Request, string)> {
    var e := L.ParseEvent(content);
    if e.Some? && e.value.verb == L.ClaimedBy then Some((Request("claim", e.value.id), e.value.actor))
    else if e.Some? && e.value.verb == L.Completed then Some((Request("done", e.value.id), e.value.actor))
    else None
  }

  function SuccessAnswer(action: string): string {
    if action == "claim" then "claimed" else "done"
  }

  /** What one message answers to the request, if anything; a pending task list swallows the server's task lines. */
  function Judge(nick: string, req: Request, listPending: bool, msg: Incoming): Option<string> {
    if !FromServer(msg) then None
    else if listPending && Find(msg.content, "TASK ").Some? then None
    else
      var id, action := Get(msg.tags, "task-id"), Get(msg.tags, "task-action");
      var status, actor := Get(msg.tags, "task-status"), Get(msg.tags, "task-actor");
      if id != "" && action != "" && status != "" then
        if Key(action, id) != Key(req.action, req.taskId) then None
        else if status == "failed" then Some("failed")
        else if status == "success" && actor == nick then Some(SuccessAnswer(action))
        else None
      else
        var failure := FailureText(msg.content);
        if failure.Some? && Key(failure.value.action, failure.value.taskId) == Key(req.action, req.taskId)
        then Some("failed")
        else
          var success := SuccessText(msg.content);
          if success.Some? && Key(success.value.0.action, success.value.0.taskId) == Key(req.action, req.taskId)
             && success.value.1 == nick
          then Some(SuccessAnswer(success.value.0.action))
          else None
  }

  /** The first message that answers resolves the request; without one it times out. */
  function Resolve(nick: string, req: Request, listPending: bool, inbox: seq<Incoming>): string {
    if inbox == [] then "timeout"
    else
      var answer := Judge(nick, req, listPending, inbox[0]);
      if answer.Some? then answer.value else Resolve(nick, req, listPending, inbox[1..])
  }

  // ----- What the server sends about a task operation -----

  function ActionText(op: T.Op): string {
    match op
    case Create(id, channel, title, now) => "create"
    case Claim(id, p, now) => "claim"
    case Complete(id, p, now) => "done"
    case Release(id, p, now) => "release"
  }

  /** The tags every task notice carries; the success broadcast has more, under other keys. */
  ghost predicate IsNotice(msg: Incoming, op: T.Op, actorNick: string, success: bool) {
    && msg.sender == "aircd"
    && Get(msg.tags, "task-id") == op.id
    && Get(msg.tags, "task-action") == ActionText(op)
    && Get(msg.tags, "task-status") == (if success then "success" else "failed")
    && Get(msg.tags, "task-actor") == actorNick
  }

  /** The nick an operation is announced under; the table does not record who created a task. */
  predicate Performs(op: T.Op, nicks: string -> string, actor: string) {
    Plain(actor) && (!op.Create? ==> actor == nicks(op.principal))
  }

  /** The text logged for an operation, by the nick of whoever performed it. */
  ghost predicate IsText(content: string, op: T.Op, nicks: string -> string) {
    exists actor, title :: content == L.EventText(L.Event(op.id, L.VerbFor(op), actor, title))
      && Performs(op, nicks, actor)
  }

  predicate Plain(nick: string) {
    Word(nick) && ':' !in nick
  }

  /** The replay of a logged text: in the server's name and without any task tag. */
  ghost predicate IsLogged(msg: Incoming, op: T.Op, nicks: string -> string) {
    msg.sender == "aircd" && "task-id" !in msg.tags && IsText(msg.content, op, nicks)
  }

  /** The operation took effect when its turn came. */
  ghost predicate Happened(lease: int, table: T.Table, ops: seq<T.Op>, k: nat) {
    k < |ops| && T.Succeeds(T.RunFrom(table, lease, ops[..k]), ops[k])
  }

  /** The tagged notice of an operation that succeeded, or of one of `me` that failed. */
  ghost predicate Notified(
      msg: Incoming, lease: int, table: T.Table, ops: seq<T.Op>, k: nat, actor: string, nicks: string -> string,
      me: string)
  {
    && k < |ops| && Performs(ops[k], nicks, actor)
    && IsNotice(msg, ops[k], actor, Happened(lease, table, ops, k))
    && (Happened(lease, table, ops, k) || (!ops[k].Create? && ops[k].principal == me))
  }

  /** What a principal says, live or replayed: any text under its nick, without task tags. */
  ghost predicate IsSaid(msg: Incoming, nicks: string -> string) {
    "task-id" !in msg.tags && exists p: string :: msg.sender == nicks(p)
  }

  /** Any other notice of the server: without task tags, and neither a failure's nor an event's text. */
  predicate IsOther(msg: Incoming) {
    && msg.sender == "aircd" && "task-id" !in msg.tags
    && FailureText(msg.content).None? && SuccessText(msg.content).None?
  }

  /**
    What can reach the daemon of `me`: anything the principals say; the notices of operations that succeeded and of its
    own that failed; the replay of the text of any operation that succeeded; and the server's other notices.
   */
  ghost predicate Deliverable(
      msg: Incoming, lease: int, table: T.Table, ops: seq<T.Op>, nicks: string -> string, me: string)
  {
    || IsSaid(msg, nicks)
    || (exists k: nat, actor: string :: Notified(msg, lease, table, ops, k, actor, nicks, me))
    || (exists k: nat :: Happened(lease, table, ops, k) && IsLogged(msg, ops[k], nicks))
    || IsOther(msg)
  }

  /** Task ids are single tokens; nicks too, without a colon, and no two principals share one. */
  ghost predicate Named(ops: seq<T.Op>, nicks: string -> string) {
    && (forall k :: 0 <= k < |ops| ==> Word(ops[k].id))
    && (forall p: string :: Plain(nicks(p)))
    && (forall p, q :: nicks(p) == nicks(q) ==> p == q)
  }

  /** No principal goes by a name the daemon trusts. */
  ghost predicate Honest(nicks: string -> string) {
    forall p: string :: nicks(p) != "aircd" && nicks(p) != "server"
  }

  /** The server granted `me` a claim of the task. */
  ghost predicate Granted(lease: int, table: T.Table, ops: seq<T.Op>, k: nat, id: string, me: string) {
    Happened(lease, table, ops, k) && ops[k].Claim? && ops[k].id == id && ops[k].principal == me
  }

  lemma {:induction false} ResolveFinds(
      nick: string, req: Request, listPending: bool, inbox: seq<Incoming>) returns (i: nat)
    requires Resolve(nick, req, listPending, inbox) != "timeout"
    ensures i < |inbox| && Judge(nick, req, listPending, inbox[i]) == Some(Resolve(nick, req, listPending, inbox))
  {
    if Judge(nick, req, listPending, inbox[0]).Some? {
      i := 0;
    } else {
      i := ResolveFinds(nick, req, listPending, inbox[1..]);
      i := i + 1;
    }
  }

  lemma {:induction false} KeyOfClaim(action: string, id: string, other: string)
    requires action == "create" || action == "claim" || action == "done" || action == "release"
    requires Key(action, id) == Key("claim", other)
    ensures action == "claim" && id == other
  {
    var a, b := Key(action, id), Key("claim", other);
    assert a[0] == action[0] && a[1] == action[1] && b[0] == 'c' && b[1] == 'l';
    assert a[6..] == id && b[6..] == other by { assert action == "claim"; }
  }

  lemma {:induction false} KeyOfDone(action: string, id: string, other: string)
    requires action == "create" || action == "claim" || action == "done" || action == "release"
    requires Key(action, id) == Key("done", other)
    ensures action == "done" && id == other
  {
    var a, b := Key(action, id), Key("done", other);
    assert a[0] == action[0] && b[0] == 'd';
    assert a[5..] == id && b[5..] == other by { assert action == "done"; }
  }

  // ----- What a single message answers -----

  /** The operation the request asks for. */
  predicate Asks(req: Request, op: T.Op) {
    (op.Claim? && req == Request("claim", op.id)) || (op.Complete? && req == Request("done", op.id))
  }

  /**
    What a tagged notice answers to a waiting request, in full: "failed" if the operation asked for failed, "claimed" or
    "done" if it succeeded under this nick, and nothing otherwise. A pending task list hides it if its text tells of a
    task.
   */
  lemma {:induction false} NoticeAnswers(
      nick: string, req: Request, msg: Incoming, op: T.Op, actorNick: string, success: bool)
    requires req.action == "claim" || req.action == "done"
    requires op.id != "" && IsNotice(msg, op, actorNick, success)
    ensures Asks(req, op) && !success ==> Judge(nick, req, false, msg) == Some("failed")
    ensures Asks(req, op) && success && actorNick == nick ==>
      Judge(nick, req, false, msg) == Some(if op.Claim? then "claimed" else "done")
    ensures !Asks(req, op) || (success && actorNick != nick) ==> Judge(nick, req, false, msg) == None
    ensures Judge(nick, req, true, msg)
         == if Find(msg.content, "TASK ").Some? then None else Judge(nick, req, false, msg)
  {
    hide FailureText, SuccessText;
    if Key(ActionText(op), op.id) == Key(req.action, req.taskId) {
      if req.action == "claim" {
        KeyOfClaim(ActionText(op), op.id, req.taskId);
      } else {
        KeyOfDone(ActionText(op), op.id, req.taskId);
      }
    }
  }

  /** The text of a failed claim or completion answers "failed" by itself, without tags. */
  lemma {:induction false} FailureTextAnswers(nick: string, req: Request, msg: Incoming, error: string)
    requires req.action == "claim" || req.action == "done"
    requires Word(req.taskId) && FromServer(msg) && "task-id" !in msg.tags
    requires msg.content == "TASK" + Spaced(if req.action == "claim" then "CLAIM" else "DONE",
                                            Spaced(req.taskId, Spaced("failed:", error)))
    ensures FailureText(msg.content) == Some(req) && Judge(nick, req, false, msg) == Some("failed")
  {
    var tail := Spaced("failed:", error);
    var verb := if req.action == "claim" then "CLAIM" else "DONE";
    L.AfterTask(Spaced(verb, Spaced(req.taskId, tail)));
    assert Word(verb);
    TokenField(verb, Spaced(req.taskId, tail));
    TokenField(req.taskId, tail);
    FailedWord(error);
    hide Field, AfterLiteral, SuccessText, SkipSpaces, Word;
  }

  lemma {:induction false} FailedWord(error: string)
    ensures var tail := Spaced("failed:", error);
      && tail[0] == ' ' && SkipSpaces(tail) == "failed:" + error
      && "failed" <= SkipSpaces(tail) && |SkipSpaces(tail)| > 6 && SkipSpaces(tail)[6] == ':'
  {
    var tail, word := Spaced("failed:", error), "failed:" + error;
    assert tail[1..] == word && word[0] == 'f';
    assert SkipSpaces(tail) == word;
    assert word[..6] == "failed";
  }

  /** A tagged notice says "claimed" only to the actor of a successful claim of the task. */
  lemma {:induction false} NoticeJudged(
      nick: string, id: string, listPending: bool, msg: Incoming, op: T.Op, actorNick: string, success: bool)
    requires op.id != "" && IsNotice(msg, op, actorNick, success)
    requires Judge(nick, Request("claim", id), listPending, msg) == Some("claimed")
    ensures success && op.Claim? && op.id == id && actorNick == nick
  {
    hide FailureText, SuccessText;
    KeyOfClaim(ActionText(op), op.id, id);
  }

  /** The text of an event is never that of a failure: its third word is "by". */
  lemma {:induction false} EventIsNoFailure(e: L.Event)
    requires Word(e.id)
    ensures FailureText(L.EventText(e)).None?
  {
    var tail := Spaced(e.actor + ":", " " + e.title);
    var rest := Spaced("by", tail);
    var s := Spaced(L.VerbText(e.verb), rest);
    L.AfterTask(Spaced(e.id, s));
    TokenField(e.id, s);
    L.VerbRoundTrip(e.verb);
    TokenField(L.VerbText(e.verb), rest);
    ByIsNoFailure(tail);
    hide Field, Spaced, AfterLiteral, L.VerbText, Word;
  }

  lemma {:induction false} ByIsNoFailure(tail: string)
    ensures !("failed" <= SkipSpaces(Spaced("by", tail)))
  {
    var s, word := Spaced("by", tail), "by" + tail;
    assert s[1..] == word && word[0] == 'b';
    assert SkipSpaces(s) == word;
  }

  /** An untagged text from the server answers "done" if and only if it tells of a completion by this nick. */
  lemma {:induction false} DoneTextJudged(nick: string, id: string, msg: Incoming, e: L.Event)
    requires Word(e.id) && Plain(e.actor) && FromServer(msg) && "task-id" !in msg.tags && msg.content == L.EventText(e)
    ensures Judge(nick, Request("done", id), false, msg)
         == if e.verb == L.Completed && e.id == id && e.actor == nick then Some("done") else None
  {
    L.EventTextRoundTrip(e);
    EventIsNoFailure(e);
    if Key("claim", e.id) == Key("done", id) {
      KeyOfDone("claim", e.id, id);
    }
    if Key("done", e.id) == Key("done", id) {
      KeyOfDone("done", e.id, id);
    }
    hide FailureText, L.ParseEvent, L.EventText, Find, Word;
  }

  /** An untagged text from the server says "claimed" if and only if it tells of a claim of the task by this nick. */
  lemma {:induction false} TextJudged(nick: string, id: string, msg: Incoming, e: L.Event)
    requires Word(e.id) && Plain(e.actor) && FromServer(msg) && "task-id" !in msg.tags && msg.content == L.EventText(e)
    ensures Judge(nick, Request("claim", id), false, msg)
         == if e.verb == L.ClaimedBy && e.id == id && e.actor == nick then Some("claimed") else None
    ensures Judge(nick, Request("claim", id), true, msg) == Some("claimed") ==>
      e.verb == L.ClaimedBy && e.id == id && e.actor == nick
  {
    L.EventTextRoundTrip(e);
    EventIsNoFailure(e);
    if Key("claim", e.id) == Key("claim", id) {
      KeyOfClaim("claim", e.id, id);
    }
    if Key("done", e.id) == Key("claim", id) {
      KeyOfClaim("done", e.id, id);
    }
    hide FailureText, L.ParseEvent, L.EventText, Find, Word;
  }

  lemma {:induction false} LoggedJudged(
      nick: string, id: string, listPending: bool, msg: Incoming, op: T.Op, nicks: string -> string)
    requires Word(op.id) && IsLogged(msg, op, nicks)
    requires Judge(nick, Request("claim", id), listPending, msg) == Some("claimed")
    ensures op.Claim? && op.id == id && nicks(op.principal) == nick
  {
    hide Judge, L.EventText;
    var actor, title :| msg.content == L.EventText(L.Event(op.id, L.VerbFor(op), actor, title))
      && Performs(op, nicks, actor);
    TextJudged(nick, id, msg, L.Event(op.id, L.VerbFor(op), actor, title));
  }

  lemma {:induction false} TokenHasNoSpace(s: string)
    ensures NoSpace(Token(s))
  {
    if s != "" && !IsSpace(s[0]) {
      TokenHasNoSpace(s[1..]);
    }
  }

  lemma {:induction false} EventHasId(content: string)
    ensures L.ParseEvent(content).Some? ==> Word(L.ParseEvent(content).value.id)
  {
    var a := AfterLiteral(content, "TASK");
    if a.Some? {
      TokenHasNoSpace(SkipSpaces(a.value));
    }
    hide Token, SkipSpaces, L.VerbOf, L.BeforeColon;
  }

  /** A text under a trusted name that answers "claimed" names the task: its id is a token. */
  lemma {:induction false} SaidJudged(nick: string, id: string, listPending: bool, msg: Incoming)
    requires "task-id" !in msg.tags
    requires Judge(nick, Request("claim", id), listPending, msg) == Some("claimed")
    ensures FromServer(msg) && Word(id) && SuccessText(msg.content).Some?
  {
    hide FailureText, L.ParseEvent, Find, Word;
    EventHasId(msg.content);
    assert SuccessText(msg.content).Some?;
    var answered := SuccessText(msg.content).value.0;
    KeyOfClaim(answered.action, answered.taskId, id);
  }

  // ----- Main results -----

  /** A claim request that resolves as "claimed" was granted, or a principal goes by a name the daemon trusts. */
  lemma {:induction false} GrantedOrTrustedNick(
      lease: int, table: T.Table, ops: seq<T.Op>, nicks: string -> string, me: string,
      id: string, listPending: bool, inbox: seq<Incoming>) returns (k: nat)
    requires Named(ops, nicks)
    requires forall msg :: msg in inbox ==> Deliverable(msg, lease, table, ops, nicks, me)
    requires Resolve(nicks(me), Request("claim", id), listPending, inbox) == "claimed"
    ensures Granted(lease, table, ops, k, id, me) || (Word(id) && !Honest(nicks))
  {
    var i := ResolveFinds(nicks(me), Request("claim", id), listPending, inbox);
    var msg := inbox[i];
    assert Deliverable(msg, lease, table, ops, nicks, me);
    hide Resolve, Judge, IsNotice, IsLogged, Word, SuccessText, FailureText;
    k := 0;
    if n: nat, actor: string :| Notified(msg, lease, table, ops, n, actor, nicks, me) {
      k := n;
      assert ops[k].id != "" by { L.WordNotEmpty(ops[k].id); }
      NoticeJudged(nicks(me), id, listPending, msg, ops[k], actor, Happened(lease, table, ops, k));
    } else if n: nat :| Happened(lease, table, ops, n) && IsLogged(msg, ops[n], nicks) {
      k := n;
      LoggedJudged(nicks(me), id, listPending, msg, ops[k], nicks);
    } else {
      SaidJudged(nicks(me), id, listPending, msg);
    }
  }

  /**
    Unless a principal goes by a name the daemon trusts, a claim request that resolves as "claimed" belongs to a
    principal to whom the server granted the task.
   */
  lemma {:induction false} ClaimedMeansGranted(
      lease: int, table: T.Table, ops: seq<T.Op>, nicks: string -> string, me: string,
      id: string, listPending: bool, inbox: seq<Incoming>) returns (k: nat)
    requires Named(ops, nicks) && Honest(nicks)
    requires forall msg :: msg in inbox ==> Deliverable(msg, lease, table, ops, nicks, me)
    requires Resolve(nicks(me), Request("claim", id), listPending, inbox) == "claimed"
    ensures Granted(lease, table, ops, k, id, me)
  {
    k := GrantedOrTrustedNick(lease, table, ops, nicks, me, id, listPending, inbox);
  }

  /**
    In a race for an open task, whatever each daemon reads and in whatever order, tagged notices and replays of the
    logged texts alike, the only daemon whose claim request can resolve as "claimed" is that of the principal the table
    records as the claimant.
   */
  lemma {:induction false} OnlyTheRecordedClaimerIsTold(
      lease: int, table: T.Table, ops: seq<T.Op>, nicks: string -> string, me: string,
      id: string, w: nat, listPending: bool, inbox: seq<Incoming>)
    requires id in table && table[id].status == T.Open
    requires R.Contest(lease, ops, id) && R.FirstTouch(ops, id, w) && Named(ops, nicks) && Honest(nicks)
    requires forall msg :: msg in inbox ==> Deliverable(msg, lease, table, ops, nicks, me)
    requires Resolve(nicks(me), Request("claim", id), listPending, inbox) == "claimed"
    ensures me == ops[w].principal
    ensures id in T.RunFrom(table, lease, ops) && T.RunFrom(table, lease, ops)[id].claimedBy == Some(me)
  {
    var k := ClaimedMeansGranted(lease, table, ops, nicks, me, id, listPending, inbox);
    R.ContestHasOneWinner(table, lease, ops, id, w);
  }

  lemma {:induction false} ResolveAnswers(
      nick: string, req: Request, listPending: bool, inbox: seq<Incoming>) returns (i: nat)
    requires Resolve(nick, req, listPending, inbox) != "timeout"
    ensures i < |inbox| && Judge(nick, req, false, inbox[i]) == Some(Resolve(nick, req, listPending, inbox))
  {
    i := ResolveFinds(nick, req, listPending, inbox);
  }

  /** What answers a claim or completion under an honest nick is the outcome of an operation of this principal. */
  lemma {:induction false} AnswerIsOutcome(
      lease: int, table: T.Table, ops: seq<T.Op>, nicks: string -> string, me: string, req: Request, msg: Incoming)
    returns (k: nat)
    requires Named(ops, nicks) && Honest(nicks) && (req.action == "claim" || req.action == "done")
    requires Deliverable(msg, lease, table, ops, nicks, me) && Judge(nicks(me), req, false, msg).Some?
    ensures k < |ops| && Asks(req, ops[k]) && ops[k].principal == me
    ensures Judge(nicks(me), req, false, msg)
      == Some(if !Happened(lease, table, ops, k) then "failed" else if ops[k].Claim? then "claimed" else "done")
  {
    assert req == Request(req.action, req.taskId);
    k := 0;
    if n: nat, actor: string :| Notified(msg, lease, table, ops, n, actor, nicks, me) {
      k := n;
      hide Judge, IsNotice, Word, SuccessText, FailureText, Happened;
      assert ops[k].id != "" by { L.WordNotEmpty(ops[k].id); }
      NoticeAnswers(nicks(me), req, msg, ops[k], actor, Happened(lease, table, ops, k));
    } else if n: nat :| Happened(lease, table, ops, n) && IsLogged(msg, ops[n], nicks) {
      k := n;
      hide Judge, L.EventText, Word, SuccessText, FailureText, T.Succeeds;
      var actor, title :| msg.content == L.EventText(L.Event(ops[k].id, L.VerbFor(ops[k]), actor, title))
        && Performs(ops[k], nicks, actor);
      var e := L.Event(ops[k].id, L.VerbFor(ops[k]), actor, title);
      if req.action == "claim" {
        TextJudged(nicks(me), req.taskId, msg, e);
      } else {
        DoneTextJudged(nicks(me), req.taskId, msg, e);
      }
    } else {
      hide SuccessText, FailureText, Word;
      assert false;
    }
  }

  /**
    Whatever a daemon reads, what a claim or completion request resolves to is the outcome of an operation of its own
    principal: "claimed" and "done" of one that succeeded, "failed" of one that failed.
   */
  lemma {:induction false} AnswersAreOutcomes(
      lease: int, table: T.Table, ops: seq<T.Op>, nicks: string -> string, me: string, req: Request,
      listPending: bool, inbox: seq<Incoming>) returns (k: nat)
    requires Named(ops, nicks) && Honest(nicks) && (req.action == "claim" || req.action == "done")
    requires forall msg :: msg in inbox ==> Deliverable(msg, lease, table, ops, nicks, me)
    requires Resolve(nicks(me), req, listPending, inbox) != "timeout"
    ensures k < |ops| && Asks(req, ops[k]) && ops[k].principal == me
    ensures Resolve(nicks(me), req, listPending, inbox)
      == if !Happened(lease, table, ops, k) then "failed" else if ops[k].Claim? then "claimed" else "done"
  {
    hide Deliverable, Resolve, Judge, Named, Honest, Happened;
    var i := ResolveAnswers(nicks(me), req, listPending, inbox);
    k := AnswerIsOutcome(lease, table, ops, nicks, me, req, inbox[i]);
  }

  /** Something the daemon of `me` may read makes a waiting claim request resolve as "claimed". */
  ghost predicate CanHearClaimed(
      lease: int, table: T.Table, ops: seq<T.Op>, nicks: string -> string, me: string, id: string)
  {
    exists inbox: seq<Incoming> ::
      (forall msg :: msg in inbox ==> Deliverable(msg, lease, table, ops, nicks, me))
      && Resolve(nicks(me), Request("claim", id), false, inbox) == "claimed"
  }

  /** The replay of the text logged for a claim. */
  function ReplayOf(op: T.Op, nicks: string -> string, title: string): Incoming
    requires op.Claim?
  {
    Incoming("aircd", L.EventText(L.Event(op.id, L.ClaimedBy, nicks(op.principal), title)), map[])
  }

  lemma {:induction false} ReplayIsHeard(
      lease: int, table: T.Table, ops: seq<T.Op>, nicks: string -> string, k: nat, id: string, me: string,
      title: string)
    requires Named(ops, nicks) && Granted(lease, table, ops, k, id, me)
    ensures Deliverable(ReplayOf(ops[k], nicks, title), lease, table, ops, nicks, me)
    ensures Resolve(nicks(me), Request("claim", id), false, [ReplayOf(ops[k], nicks, title)]) == "claimed"
  {
    var msg, e := ReplayOf(ops[k], nicks, title), L.Event(id, L.ClaimedBy, nicks(me), title);
    assert e == L.Event(ops[k].id, L.VerbFor(ops[k]), nicks(me), title) && Plain(nicks(me));
    hide L.EventText, Judge, Word;
    assert msg.content == L.EventText(L.Event(ops[k].id, L.VerbFor(ops[k]), nicks(me), title));
    assert IsText(msg.content, ops[k], nicks);
    assert IsLogged(msg, ops[k], nicks);
    TextJudged(nicks(me), id, msg, e);
  }

  /** An event's text, said by a principal. */
  function SaidUnderTrust(q: string, id: string, me: string, nicks: string -> string): Incoming {
    Incoming(nicks(q), L.EventText(L.Event(id, L.ClaimedBy, nicks(me), "x")), map[])
  }

  /**
    The daemon goes by the sender's name: said under a trusted one, the text answers "claimed" though nothing was ever
    granted.
   */
  lemma {:induction false} ATrustedNickAnswers(
      lease: int, table: T.Table, ops: seq<T.Op>, nicks: string -> string, q: string, me: string, id: string)
    requires (nicks(q) == "aircd" || nicks(q) == "server") && Plain(nicks(me)) && Word(id)
    ensures Deliverable(SaidUnderTrust(q, id, me, nicks), lease, table, ops, nicks, me)
    ensures Resolve(nicks(me), Request("claim", id), false, [SaidUnderTrust(q, id, me, nicks)]) == "claimed"
  {
    hide L.EventText, Judge, Word;
    assert IsSaid(SaidUnderTrust(q, id, me, nicks), nicks);
    TextJudged(nicks(me), id, SaidUnderTrust(q, id, me, nicks), L.Event(id, L.ClaimedBy, nicks(me), "x"));
  }

  /**
    A claim request of `me` that waits after the first `n` operations, and is not granted since, can nevertheless
    resolve as "claimed" if and only if `me` was granted the task before, whose old text may still be replayed to it, or
    the id is a token and some principal goes by a name the daemon trusts.
   */
  lemma {:induction false} WronglyToldIff(
      lease: int, table: T.Table, ops: seq<T.Op>, nicks: string -> string, me: string, id: string, n: nat)
    requires Named(ops, nicks) && n <= |ops|
    requires forall k: nat :: n <= k ==> !Granted(lease, table, ops, k, id, me)
    ensures CanHearClaimed(lease, table, ops, nicks, me, id)
      <==> (exists k: nat :: k < n && Granted(lease, table, ops, k, id, me)) || (Word(id) && !Honest(nicks))
  {
    hide Deliverable, Resolve, Happened, Word, Trusted;
    if CanHearClaimed(lease, table, ops, nicks, me, id) {
      var inbox: seq<Incoming> :|
        (forall msg :: msg in inbox ==> Deliverable(msg, lease, table, ops, nicks, me))
        && Resolve(nicks(me), Request("claim", id), false, inbox) == "claimed";
      var k := GrantedOrTrustedNick(lease, table, ops, nicks, me, id, false, inbox);
    }
    if k: nat :| k < n && Granted(lease, table, ops, k, id, me) {
      ReplayIsHeard(lease, table, ops, nicks, k, id, me, "");
      var inbox := [ReplayOf(ops[k], nicks, "")];
      assert forall msg :: msg in inbox ==> Deliverable(msg, lease, table, ops, nicks, me);
    }
    if Word(id) && !Honest(nicks) {
      var q: string :| nicks(q) == "aircd" || nicks(q) == "server";
      ATrustedNickAnswers(lease, table, ops, nicks, q, me, id);
      var inbox := [SaidUnderTrust(q, id, me, nicks)];
      assert forall msg :: msg in inbox ==> Deliverable(msg, lease, table, ops, nicks, me);
    }
  }

  /** `me` claims and releases, `other` claims, and `me` claims again within the lease. */
  function Handover(id: string, me: string, other: string, t0: int, t1: int, t2: int, t3: int): seq<T.Op> {
    [T.Create(id, "#work", "title", t0)] + [T.Claim(id, me, t0)] + [T.Release(id, me, t1)] + [T.Claim(id, other, t2)]
      + [T.Claim(id, me, t3)]
  }

  lemma {:induction false} HandoverRuns(
      lease: int, id: string, me: string, other: string, t0: int, t1: int, t2: int, t3: int)
    requires t3 <= t2 + lease
    ensures var ops := Handover(id, me, other, t0, t1, t2, t3);
      && Happened(lease, map[], ops, 1) && !Happened(lease, map[], ops, 4)
      && (var final := T.RunFrom(map[], lease, ops); id in final && final[id].claimedBy == Some(other))
  {
    var ops := Handover(id, me, other, t0, t1, t2, t3);
    var row := T.Row("#work", "title", T.Open, None, None, t0, t0);
    var s1 := map[id := row];
    var s2 := map[id := row.(status := T.Claimed, claimedBy := Some(me), lease := Some(t0 + lease), updatedAt := t0)];
    var s3 := map[id := row.(updatedAt := t1)];
    var s4 :=
      map[id := row.(status := T.Claimed, claimedBy := Some(other), lease := Some(t2 + lease), updatedAt := t2)];
    assert ops[..0] == [];
    OneMore(lease, ops, 0, map[], s1);
    OneMore(lease, ops, 1, s1, s2);
    OneMore(lease, ops, 2, s2, s3);
    OneMore(lease, ops, 3, s3, s4);
    OneMore(lease, ops, 4, s4, s4);
    assert ops[..5] == ops;
  }

  lemma {:induction false} OneMore(lease: int, ops: seq<T.Op>, k: nat, before: T.Table, after: T.Table)
    requires k < |ops| && T.RunFrom(map[], lease, ops[..k]) == before && T.Apply(before, lease, ops[k]) == after
    ensures T.RunFrom(map[], lease, ops[..k + 1]) == after
  {
    assert Front(ops[..k + 1]) == ops[..k] && Last(ops[..k + 1]) == ops[k];
  }

  /**
    The case occurs: the daemon of `me` asks for a task it once held and released, the server refuses because `other`
    holds it, and the replay of the old text resolves the request as "claimed".
   */
  lemma {:induction false} AnOldTextAnswersANewClaim(
      lease: int, id: string, me: string, other: string, nicks: string -> string,
      t0: int, t1: int, t2: int, t3: int)
    requires me != other && t3 <= t2 + lease && Word(id)
    requires (forall p: string :: Plain(nicks(p))) && (forall p, q :: nicks(p) == nicks(q) ==> p == q)
    ensures var ops := Handover(id, me, other, t0, t1, t2, t3);
      var old1 := ReplayOf(ops[1], nicks, "title");
      && Deliverable(old1, lease, map[], ops, nicks, me)
      && Resolve(nicks(me), Request("claim", id), false, [old1]) == "claimed"
      && !Happened(lease, map[], ops, 4)
      && (var final := T.RunFrom(map[], lease, ops); id in final && final[id].claimedBy == Some(other))
  {
    var ops := Handover(id, me, other, t0, t1, t2, t3);
    HandoverRuns(lease, id, me, other, t0, t1, t2, t3);
    assert forall k :: 0 <= k < |ops| ==> ops[k].id == id;
    hide Word, T.RunFrom, Resolve, Deliverable;
    ReplayIsHeard(lease, map[], ops, nicks, 1, id, me, "title");
  }
}

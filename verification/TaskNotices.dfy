/**
  The lines the server sends about a task operation (src/server.rs, broadcast_task_event, the failure answers and the
  replay of a logged text), as the daemon's request handling reads them.
 */
module TaskNotices {
  import opened Prelude
  import opened History
  import opened Text
  import opened Tags
  import C = ClientParser
  import I = TaskListCodec
  import L = TaskLog
  import Q = ClaimRequests
  import T = Tasks

  /** The tags of the broadcast; the title is left out when it is empty. */
  function EventTags(
      seqNo: int, msgId: string, at: int, id: string, action: string, actor: string, title: string): seq<Tag>
  {
    [Tag("seq", PrintInt(seqNo)), Tag("msg-id", msgId), Tag("time", PrintInt(at)), Tag("task-id", id),
     Tag("task-action", action), Tag("task-status", "success"), Tag("task-actor", actor)]
      + if title != "" then [Tag("task-title", title)] else []
  }

  function FailureTags(id: string, action: string, actor: string): seq<Tag> {
    [Tag("task-id", id), Tag("task-action", action), Tag("task-status", "failed"), Tag("task-actor", actor)]
  }

  function FailureVerb(op: T.Op): string
    requires !op.Create?
  {
    match op
    case Claim(_, _, _) => "CLAIM"
    case Complete(_, _, _) => "DONE"
    case Release(_, _, _) => "RELEASE"
  }

  function FailureBody(op: T.Op, error: string): string
    requires !op.Create?
  {
    "TASK " + FailureVerb(op) + " " + op.id + " failed: " + error
  }

  lemma {:induction false} FailureBodyFields(op: T.Op, error: string)
    requires !op.Create?
    ensures FailureBody(op, error)
      == "TASK" + Spaced(FailureVerb(op), Spaced(op.id, Spaced("failed:", " " + error)))
  {
    hide FailureVerb;
    var v := FailureVerb(op);
    assert "TASK " == "TASK" + " " && " failed: " == " " + "failed:" + " ";
    assert "TASK " + v + " " + op.id + " failed: " + error
        == "TASK" + (" " + v + (" " + op.id + (" " + "failed:" + (" " + error))));
  }

  /** The refusal's words: the command as it was sent, and that it failed. */
  lemma {:induction false} FailureBodyWords(op: T.Op, error: string)
    requires !op.Create? && Word(op.id)
    ensures Words(FailureBody(op, error))
      == ["TASK"] + [if op.Claim? then "CLAIM" else if op.Complete? then "DONE" else "RELEASE"] + [op.id] + ["failed:"]
         + Words(error)
  {
    FailureBodyFields(op, error);
    var v := FailureVerb(op);
    var r2 := Spaced("failed:", " " + error);
    var r1 := Spaced(op.id, r2);
    var r0 := Spaced(v, r1);
    assert Word("TASK") && Word(v) && Word("failed:");
    WordsCons("TASK", r0);
    SpacedWords(v, r1);
    SpacedWords(op.id, r2);
    assert EndsToken(" " + error);
    SpacedWords("failed:", " " + error);
    WordsSpace(error);
    hide Words, Spaced, Word, FailureBody;
  }

  /** By its text alone the refusal of a claim or completion answers "failed", whatever the error says. */
  lemma {:induction false} FailureBodyAnswers(op: T.Op, error: string, nick: string)
    requires (op.Claim? || op.Complete?) && Word(op.id)
    ensures var req := Q.Request(if op.Claim? then "claim" else "done", op.id);
      Q.Judge(nick, req, false, Q.Incoming("aircd", FailureBody(op, error), map[])) == Some("failed")
  {
    FailureBodyFields(op, error);
    hide FailureBody, Spaced, Q.Judge, Q.FailureText, Word;
    var req := Q.Request(if op.Claim? then "claim" else "done", op.id);
    Q.FailureTextAnswers(nick, req, Q.Incoming("aircd", FailureBody(op, error), map[]), " " + error);
  }

  const EVENT_KEYS: seq<string> :=
    ["seq", "msg-id", "time", "task-id", "task-action", "task-status", "task-actor", "task-title"]

  lemma {:induction false} KeysDiffer()
    ensures forall i :: 0 <= i < |EVENT_KEYS| ==>
      EVENT_KEYS[i] != "" && '=' !in EVENT_KEYS[i] && ';' !in EVENT_KEYS[i] && ' ' !in EVENT_KEYS[i]
    ensures forall i, j :: 0 <= i < j < |EVENT_KEYS| ==> EVENT_KEYS[i] != EVENT_KEYS[j]
  {
    assert |EVENT_KEYS[0]| == 3 && |EVENT_KEYS[1]| == 6 && |EVENT_KEYS[2]| == 4 && |EVENT_KEYS[3]| == 7;
    assert |EVENT_KEYS[4]| == 11 && |EVENT_KEYS[5]| == 11 && |EVENT_KEYS[6]| == 10 && |EVENT_KEYS[7]| == 10;
    assert EVENT_KEYS[4][5] == 'a' && EVENT_KEYS[5][5] == 's' && EVENT_KEYS[6][5] == 'a' && EVENT_KEYS[7][5] == 't';
  }

  lemma {:induction false} KeyedAs(tags: seq<Tag>, from: nat)
    requires from + |tags| <= |EVENT_KEYS| && forall i :: 0 <= i < |tags| ==> tags[i].key == EVENT_KEYS[from + i]
    ensures WellKeyed(tags)
  {
    KeysDiffer();
    hide EVENT_KEYS;
  }

  lemma {:induction false} EventKeys(
      seqNo: int, msgId: string, at: int, id: string, action: string, actor: string, title: string)
    ensures var tags := EventTags(seqNo, msgId, at, id, action, actor, title);
      && WellKeyed(tags) && 7 <= |tags| <= 8
      && tags[3..7] == FailureTags(id, action, actor)[2 := Tag("task-status", "success")]
  {
    hide PrintInt, WellKeyed;
    var tags := EventTags(seqNo, msgId, at, id, action, actor, title);
    assert forall i :: 0 <= i < |tags| ==> tags[i].key == EVENT_KEYS[0 + i];
    KeyedAs(tags, 0);
  }

  lemma {:induction false} FailureKeys(id: string, action: string, actor: string)
    ensures WellKeyed(FailureTags(id, action, actor))
  {
    hide WellKeyed;
    KeyedAs(FailureTags(id, action, actor), 3);
  }

  /** What the daemon's handling sees of a message. */
  function Seen(m: C.Message): Q.Incoming {
    Q.Incoming(m.sender, m.content, m.tags)
  }

  lemma {:induction false} ServerLineIsRead(tags: seq<Tag>, verb: string, target: string, body: string)
    requires tags != [] && WellKeyed(tags) && C.PlainToken(target) && body != ""
    requires verb == "NOTICE" || verb == "PRIVMSG"
    ensures var r := C.ReadMessage(C.FormatLine(tags, "aircd", verb, target, body));
      && r.Some? && r.value.sender == "aircd" && r.value.channel == target && r.value.content == body
      && r.value.tags == TagMap(tags)
  {
    ServerName();
    hide C.FormatLine, C.ParseLine, TagMap, C.PlainToken, NoSpace, C.Upper;
    C.UpperOfUpper(verb);
    C.LineRoundTrip(tags, "aircd", verb, target, body);
    C.NoBang("aircd");
  }

  lemma {:induction false} ServerName()
    ensures NoSpace("aircd") && '!' !in "aircd"
    ensures C.PlainToken("NOTICE") && C.PlainToken("PRIVMSG")
  {
  }

  lemma {:induction false} TextNotEmpty(e: L.Event)
    ensures L.EventText(e) != ""
  {
  }

  /** The broadcast of a successful operation reads as its tagged notice, with the logged text as content. */
  lemma {:induction false} SuccessLineIsItsNotice(
      op: T.Op, actorNick: string, seqNo: int, msgId: string, at: int, channel: string, title: string)
    requires C.PlainToken(channel)
    ensures var e := L.Event(op.id, L.VerbFor(op), actorNick, title);
      var line := C.FormatLine(EventTags(seqNo, msgId, at, op.id, Q.ActionText(op), actorNick, title),
                               "aircd", "NOTICE", channel, L.EventText(e));
      && C.ReadMessage(line).Some?
      && Q.IsNotice(Seen(C.ReadMessage(line).value), op, actorNick, true)
      && C.ReadMessage(line).value.content == L.EventText(e)
  {
    var e := L.Event(op.id, L.VerbFor(op), actorNick, title);
    var tags := EventTags(seqNo, msgId, at, op.id, Q.ActionText(op), actorNick, title);
    EventKeys(seqNo, msgId, at, op.id, Q.ActionText(op), actorNick, title);
    TextNotEmpty(e);
    ServerLineIsRead(tags, "NOTICE", channel, L.EventText(e));
    hide EventTags, C.ReadMessage, C.FormatLine, TagMap, L.EventText, Q.ActionText, WellKeyed;
    NoticeTags(tags, 3, op.id, Q.ActionText(op), "success", actorNick);
  }

  /** The broadcast carries the task's title as a tag exactly if there is one. */
  lemma {:induction false} TitleIsATag(
      seqNo: int, msgId: string, at: int, id: string, action: string, actor: string, title: string)
    ensures var tags := TagMap(EventTags(seqNo, msgId, at, id, action, actor, title));
      if title == "" then "task-title" !in tags else "task-title" in tags && tags["task-title"] == title
  {
    var tags := EventTags(seqNo, msgId, at, id, action, actor, title);
    EventKeys(seqNo, msgId, at, id, action, actor, title);
    if title != "" {
      TagMapAt(tags, 7);
    } else {
      C.TagMapKeys(tags);
      KeysDiffer();
      assert forall i :: 0 <= i < 7 ==> tags[i].key == EVENT_KEYS[i];
      hide EVENT_KEYS;
    }
  }

  /** The four tags both kinds of notice carry, wherever they start. */
  lemma {:induction false} NoticeTags(
      tags: seq<Tag>, i: nat, id: string, action: string, status: string, actor: string)
    requires WellKeyed(tags) && i + 4 <= |tags|
    requires tags[i..i + 4]
      == [Tag("task-id", id), Tag("task-action", action), Tag("task-status", status), Tag("task-actor", actor)]
    ensures Q.Get(TagMap(tags), "task-id") == id && Q.Get(TagMap(tags), "task-action") == action
    ensures Q.Get(TagMap(tags), "task-status") == status && Q.Get(TagMap(tags), "task-actor") == actor
  {
    var four := tags[i..i + 4];
    assert four[0] == tags[i] && four[1] == tags[i + 1] && four[2] == tags[i + 2] && four[3] == tags[i + 3];
    hide TagMap;
    TagMapAt(tags, i);
    TagMapAt(tags, i + 1);
    TagMapAt(tags, i + 2);
    TagMapAt(tags, i + 3);
  }

  /** The answer to an operation that failed reads as its tagged notice. */
  lemma {:induction false} FailureLineIsItsNotice(op: T.Op, actorNick: string, error: string)
    requires C.PlainToken(actorNick) && !op.Create?
    ensures var line := C.FormatLine(FailureTags(op.id, Q.ActionText(op), actorNick), "aircd", "NOTICE", actorNick,
                                     FailureBody(op, error));
      && C.ReadMessage(line).Some?
      && Q.IsNotice(Seen(C.ReadMessage(line).value), op, actorNick, false)
      && C.ReadMessage(line).value.content == FailureBody(op, error)
  {
    var tags := FailureTags(op.id, Q.ActionText(op), actorNick);
    FailureKeys(op.id, Q.ActionText(op), actorNick);
    assert FailureBody(op, error) != "";
    ServerLineIsRead(tags, "NOTICE", actorNick, FailureBody(op, error));
    assert tags[0..4] == tags;
    NoticeTags(tags, 0, op.id, Q.ActionText(op), "failed", actorNick);
    hide FailureTags, C.ReadMessage, C.FormatLine, TagMap, FailureBody, Q.ActionText;
  }

  /** From the server's line to the answer: the broadcast of a success. */
  lemma {:induction false} SuccessLineAnswers(
      op: T.Op, actorNick: string, seqNo: int, msgId: string, at: int, channel: string, title: string, nick: string,
      req: Q.Request)
    requires C.PlainToken(channel) && op.id != "" && (req.action == "claim" || req.action == "done")
    ensures var e := L.Event(op.id, L.VerbFor(op), actorNick, title);
      var line := C.FormatLine(EventTags(seqNo, msgId, at, op.id, Q.ActionText(op), actorNick, title),
                               "aircd", "NOTICE", channel, L.EventText(e));
      && C.ReadMessage(line).Some?
      && Q.Judge(nick, req, false, Seen(C.ReadMessage(line).value))
           == if op.Claim? && req == Q.Request("claim", op.id) && actorNick == nick then Some("claimed")
              else if op.Complete? && req == Q.Request("done", op.id) && actorNick == nick then Some("done")
              else None
  {
    SuccessLineIsItsNotice(op, actorNick, seqNo, msgId, at, channel, title);
    hide EventTags, C.FormatLine, C.ReadMessage, L.EventText, Q.Judge, Q.IsNotice;
    var line := C.FormatLine(EventTags(seqNo, msgId, at, op.id, Q.ActionText(op), actorNick, title),
                             "aircd", "NOTICE", channel, L.EventText(L.Event(op.id, L.VerbFor(op), actorNick, title)));
    Q.NoticeAnswers(nick, req, Seen(C.ReadMessage(line).value), op, actorNick, true);
  }

  /** From the server's line to the answer: the refusal, which only the caller is sent. */
  lemma {:induction false} FailureLineAnswers(
      op: T.Op, actorNick: string, error: string, nick: string, req: Q.Request)
    requires C.PlainToken(actorNick) && !op.Create? && op.id != ""
    requires req.action == "claim" || req.action == "done"
    ensures var line := C.FormatLine(FailureTags(op.id, Q.ActionText(op), actorNick), "aircd", "NOTICE", actorNick,
                                     FailureBody(op, error));
      && C.ReadMessage(line).Some?
      && Q.Judge(nick, req, false, Seen(C.ReadMessage(line).value))
           == if (op.Claim? && req == Q.Request("claim", op.id)) || (op.Complete? && req == Q.Request("done", op.id))
              then Some("failed") else None
  {
    FailureLineIsItsNotice(op, actorNick, error);
    hide FailureTags, FailureBody, C.FormatLine, C.ReadMessage, Q.Judge, Q.IsNotice;
    var line := C.FormatLine(FailureTags(op.id, Q.ActionText(op), actorNick), "aircd", "NOTICE", actorNick,
                             FailureBody(op, error));
    Q.NoticeAnswers(nick, req, Seen(C.ReadMessage(line).value), op, actorNick, false);
  }

  /** The replay of a logged text, creations included, carries no task tag: the daemon has only the text to go by. */
  lemma {:induction false} ReplayedLineIsItsText(
      op: T.Op, nicks: string -> string, actor: string, seqNo: int, msgId: string, at: int, channel: string,
      title: string)
    requires C.PlainToken(channel) && Q.Performs(op, nicks, actor)
    ensures var text := L.EventText(L.Event(op.id, L.VerbFor(op), actor, title));
      var line := C.FormatLine(C.MetadataTags(seqNo, msgId, at, true), "aircd", "PRIVMSG", channel, text);
      C.ReadMessage(line).Some? && Q.IsLogged(Seen(C.ReadMessage(line).value), op, nicks)
  {
    var text := L.EventText(L.Event(op.id, L.VerbFor(op), actor, title));
    var tags := C.MetadataTags(seqNo, msgId, at, true);
    C.MetadataKeys(seqNo, msgId, at, true);
    TextNotEmpty(L.Event(op.id, L.VerbFor(op), actor, title));
    NoTaskTag(tags);
    hide C.MetadataTags, C.ReadMessage, C.FormatLine, TagMap, L.EventText, Q.Performs;
    assert tags != [];
    ServerLineIsRead(tags, "PRIVMSG", channel, text);
    assert Q.IsText(text, op, nicks);
  }

  lemma {:induction false} NoTaskTag(tags: seq<Tag>)
    requires |tags| == 4 && forall i :: 0 <= i < 4 ==> tags[i].key == ["seq", "msg-id", "time", "replay"][i]
    ensures "task-id" !in TagMap(tags)
  {
    C.TagMapKeys(tags);
    var keys := ["seq", "msg-id", "time", "replay"];
    assert |keys[0]| != 7 && |keys[1]| != 7 && |keys[2]| != 7 && |keys[3]| != 7;
  }

  /** What the server broadcasts of an operation that took effect may reach the daemon of anyone. */
  lemma {:induction false} SuccessIsDeliverable(
      lease: int, table: T.Table, ops: seq<T.Op>, nicks: string -> string, k: nat, actor: string, me: string,
      seqNo: int, msgId: string, at: int, channel: string, title: string)
    requires k < |ops| && Q.Happened(lease, table, ops, k) && Q.Performs(ops[k], nicks, actor)
    requires C.PlainToken(channel)
    ensures var op := ops[k];
      var line := C.FormatLine(EventTags(seqNo, msgId, at, op.id, Q.ActionText(op), actor, title), "aircd", "NOTICE",
                               channel, L.EventText(L.Event(op.id, L.VerbFor(op), actor, title)));
      && C.ReadMessage(line).Some?
      && Q.Deliverable(Seen(C.ReadMessage(line).value), lease, table, ops, nicks, me)
  {
    var op := ops[k];
    SuccessLineIsItsNotice(op, actor, seqNo, msgId, at, channel, title);
    hide EventTags, C.FormatLine, C.ReadMessage, L.EventText, Q.IsNotice, Q.Performs, Q.Happened;
    var line := C.FormatLine(EventTags(seqNo, msgId, at, op.id, Q.ActionText(op), actor, title), "aircd", "NOTICE",
                             channel, L.EventText(L.Event(op.id, L.VerbFor(op), actor, title)));
    assert Q.Notified(Seen(C.ReadMessage(line).value), lease, table, ops, k, actor, nicks, me);
  }

  /** And the refusal of an operation its principal's own. */
  lemma {:induction false} FailureIsDeliverable(
      lease: int, table: T.Table, ops: seq<T.Op>, nicks: string -> string, k: nat, error: string)
    requires k < |ops| && !ops[k].Create? && !Q.Happened(lease, table, ops, k) && Q.Plain(nicks(ops[k].principal))
    requires C.PlainToken(nicks(ops[k].principal))
    ensures var op, nick := ops[k], nicks(ops[k].principal);
      var line := C.FormatLine(FailureTags(op.id, Q.ActionText(op), nick), "aircd", "NOTICE", nick,
                               FailureBody(op, error));
      && C.ReadMessage(line).Some?
      && Q.Deliverable(Seen(C.ReadMessage(line).value), lease, table, ops, nicks, op.principal)
  {
    var op, nick := ops[k], nicks(ops[k].principal);
    FailureLineIsItsNotice(op, nick, error);
    assert Q.Performs(op, nicks, nick);
    hide FailureTags, FailureBody, C.FormatLine, C.ReadMessage, Q.IsNotice, Q.Performs, Q.Happened;
    var line := C.FormatLine(FailureTags(op.id, Q.ActionText(op), nick), "aircd", "NOTICE", nick,
                             FailureBody(op, error));
    assert Q.Notified(Seen(C.ReadMessage(line).value), lease, table, ops, k, nick, nicks, op.principal);
  }

  // ----- The server's other notices -----

  const TITLE_REQUIRED := "TASK" + Spaced("CREATE", Spaced("failed:", " title is required"))

  /** What else the server says in a notice: no failure of a claim or completion, and no event. */
  ghost predicate IsOtherBody(body: string) {
    || body == TITLE_REQUIRED
    || (exists c: string :: body == "No open tasks in " + c)
    || (exists n: nat :: body == "Replaying missed messages for " + PrintNat(n) + " channel(s)")
    || body == "Welcome to aircd prototype"
    || (exists task: T.Task :: Word(task.id) && Word(task.channel) && body == I.NoticeText(task))
  }

  lemma {:induction false} TitleRequiredIsOther()
    ensures Q.FailureText(TITLE_REQUIRED).None? && Q.SuccessText(TITLE_REQUIRED).None?
  {
    var rest := Spaced("failed:", " title is required");
    L.AfterTask(Spaced("CREATE", rest));
    assert Word("CREATE") && Word("failed:");
    TokenField("CREATE", rest);
    TokenField("failed:", " title is required");
    assert "failed:" != "created" && "failed:" != "claimed" && "failed:" != "completed" && "failed:" != "released" by {
      assert "failed:"[0] == 'f';
    }
    hide Field, Spaced, AfterLiteral;
  }

  lemma {:induction false} OtherStart(body: string)
    requires body != "" && body[0] != 'T'
    ensures Q.FailureText(body).None? && Q.SuccessText(body).None?
  {
    assert !("TASK" <= body) by { assert "TASK"[0] == 'T'; }
  }

  /** The third field of a line of the task list starts with neither "failed" nor a blank. */
  lemma {:induction false} StatusField(status: string, tail: string)
    ensures SkipSpaces(Spaced("status=" + status, tail)) == "status=" + status + tail
    ensures !("failed" <= "status=" + status + tail)
  {
    var s, word := Spaced("status=" + status, tail), "status=" + status + tail;
    assert s[1..] == word && word[0] == 's' && "failed"[0] == 'f';
    assert SkipSpaces(word) == word;
  }

  lemma {:induction false} ChannelField(channel: string)
    requires Word(channel)
    ensures Word("channel=" + channel) && L.VerbOf("channel=" + channel).None?
  {
    I.FieldNames();
    assert ("channel=" + channel)[1] == 'h';
  }

  /** A line of the task list is neither a failure nor an event, whatever the task is called. */
  lemma {:induction false} ListedIsOther(task: T.Task)
    requires Word(task.id) && Word(task.channel)
    ensures Q.FailureText(I.NoticeText(task)).None? && Q.SuccessText(I.NoticeText(task)).None?
  {
    hide Field, Spaced, SkipSpaces, AfterLiteral, I.HolderText, I.LeaseText, I.StatusText, L.VerbOf, Word;
    var tail := Spaced("claimed_by=" + I.HolderText(task.claimedBy),
                       Spaced("lease_expires_at=" + I.LeaseText(task.lease), " " + "title=:" + task.title));
    var r2 := Spaced("status=" + I.StatusText(task.status), tail);
    var r1 := Spaced("channel=" + task.channel, r2);
    L.AfterTask(Spaced(task.id, r1));
    TokenField(task.id, r1);
    ChannelField(task.channel);
    TokenField("channel=" + task.channel, r2);
    StatusField(I.StatusText(task.status), tail);
  }

  /** None of these notices, read by the daemon, answers a claim request. */
  lemma {:induction false} OtherLineIsOther(target: string, body: string)
    requires C.PlainToken(target) && IsOtherBody(body)
    ensures var m := C.ReadMessage(C.UntaggedLine("aircd", "NOTICE", target, body));
      m.Some? && Q.IsOther(Seen(m.value))
  {
    hide C.ReadMessage, C.UntaggedLine, C.PlainToken, Q.FailureText, Q.SuccessText, PrintNat;
    OtherBodyIsSilent(body);
    I.DirectNoticeIsRead(target, body);
  }

  lemma {:induction false} OtherBodyIsSilent(body: string)
    requires IsOtherBody(body)
    ensures body != "" && Q.FailureText(body).None? && Q.SuccessText(body).None?
  {
    hide Q.FailureText, Q.SuccessText, PrintNat, Word;
    if body == TITLE_REQUIRED {
      TitleRequiredIsOther();
    } else if task: T.Task :| Word(task.id) && Word(task.channel) && body == I.NoticeText(task) {
      I.NoticeStartsWithTask(task);
      ListedIsOther(task);
    } else {
      OtherStart(body);
    }
  }
}

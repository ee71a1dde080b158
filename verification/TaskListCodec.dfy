/**
  TASK LIST: the notice the server prints per task (src/server.rs, task_list), read by the client's line parser and the
  daemon's pattern (clients/python/aircd/daemon.py).
 */
module TaskListCodec {
  import opened Prelude
  import opened Text
  import T = Tasks
  import C = ClientParser

  datatype Listed = Listed(id: string, channel: string, status: string, claimedBy: string, title: string)

  function StatusText(status: T.Status): string {
    match status
    case Open => "open"
    case Claimed => "claimed"
    case Done => "done"
  }

  function LeaseText(lease: Option<int>): string {
    if lease.Some? then PrintInt(lease.value) else "-"
  }

  function HolderText(claimedBy: Option<string>): string {
    if claimedBy.Some? then claimedBy.value else "-"
  }

  /** The body of the notice: six fields in fixed order. */
  function NoticeText(task: T.Task): string {
    "TASK" + Spaced(task.id,
      Spaced("channel=" + task.channel,
        Spaced("status=" + StatusText(task.status),
          Spaced("claimed_by=" + HolderText(task.claimedBy),
            Spaced("lease_expires_at=" + LeaseText(task.lease), " " + "title=:" + task.title)))))
  }

  /**
    TASK\s+(\S+)\s+channel=(\S+)\s+status=(\S+)\s+claimed_by=(\S+)\s+lease_expires_at=(\S+)\s+title=:(.*)
    Each \S+ is followed by whitespace and so takes the whole token; the match is unique.
   */
  function MatchNotice(content: string): Option<Listed> {
    var a := AfterLiteral(content, "TASK");
    if a.None? then None
    else
      var id := Field(a.value, "");
      if id.None? then None
      else
        var channel := Field(id.value.1, "channel=");
        if channel.None? then None
        else
          var status := Field(channel.value.1, "status=");
          if status.None? then None
          else
            var holder := Field(status.value.1, "claimed_by=");
            if holder.None? then None
            else
              var lease := Field(holder.value.1, "lease_expires_at=");
              if lease.None? then None
              else
                var title := MatchTitle(lease.value.1);
                if title.None? then None
                else Some(Listed(id.value.0, channel.value.0, status.value.0, holder.value.0, title.value))
  }

  /** \s+title=:(.*) */
  function MatchTitle(s: string): Option<string> {
    var rest := AfterLiteral(SkipSpaces(s), "title=:");
    if s != "" && IsSpace(s[0]) && rest.Some? then Some(LineOf(rest.value)) else None
  }

  lemma {:induction false} MatchTitleOf(title: string)
    requires '\n' !in title
    ensures MatchTitle(" " + "title=:" + title) == Some(title)
  {
    var s, body := " " + "title=:" + title, "title=:" + title;
    assert s[1..] == body && body[0] == 't';
    assert SkipSpaces(s) == body;
    assert "title=:" <= body && body[7..] == title;
    LineOfWhole(title);
  }

  lemma {:induction false} FieldNames()
    ensures NoSpace("channel=") && NoSpace("status=") && NoSpace("claimed_by=") && NoSpace("lease_expires_at=")
    ensures Word("-")
  {
  }

  lemma {:induction false} StatusIsWord(status: T.Status)
    ensures Word(StatusText(status))
  {
  }

  lemma {:induction false} LeaseIsWord(lease: Option<int>)
    ensures Word(LeaseText(lease))
  {
    if lease.Some? {
      ParseIntOfPrint(lease.value);
    }
  }

  /** The pattern recovers every field of the printed notice, whatever the title says. */
  lemma {:induction false} NoticeTextRoundTrip(task: T.Task)
    requires Word(task.id) && Word(task.channel) && (task.claimedBy.Some? ==> Word(task.claimedBy.value))
    requires '\n' !in task.title
    ensures MatchNotice(NoticeText(task)) ==
      Some(Listed(task.id, task.channel,
                  if task.status == T.Open then "open" else if task.status == T.Claimed then "claimed" else "done",
                  if task.claimedBy.Some? then task.claimedBy.value else "-", task.title))
  {
    assert StatusText(task.status)
      == if task.status == T.Open then "open" else if task.status == T.Claimed then "claimed" else "done";
    FieldNames();
    StatusIsWord(task.status);
    LeaseIsWord(task.lease);
    MatchTitleOf(task.title);
    hide StatusText, LeaseText, MatchTitle;
    var holder := HolderText(task.claimedBy);
    assert Word(holder);
    var r5 := " " + "title=:" + task.title;
    var r4 := Spaced("lease_expires_at=" + LeaseText(task.lease), r5);
    var r3 := Spaced("claimed_by=" + holder, r4);
    var r2 := Spaced("status=" + StatusText(task.status), r3);
    var r1 := Spaced("channel=" + task.channel, r2);
    var r0 := Spaced(task.id, r1);
    assert AfterLiteral("TASK" + r0, "TASK") == Some(r0);
    assert EndsToken(r5);
    hide Word, NoSpace;
    hide Spaced, Field, AfterLiteral, HolderText, EndsToken;
    TokenField(task.id, r1);
    FieldOf("channel=", task.channel, r2);
    FieldOf("status=", StatusText(task.status), r3);
    FieldOf("claimed_by=", holder, r4);
    FieldOf("lease_expires_at=", LeaseText(task.lease), r5);
  }

  function Fields(channel: string, status: string, holder: string, lease: string, rest: string): string {
    Spaced("channel=" + channel,
      Spaced("status=" + status, Spaced("claimed_by=" + holder, Spaced("lease_expires_at=" + lease, " " + rest))))
  }

  lemma {:induction false} FieldsWords(channel: string, status: string, holder: string, lease: string, rest: string)
    requires Word(channel) && Word(status) && Word(holder) && Word(lease)
    ensures Words(Fields(channel, status, holder, lease, rest))
      == ["channel=" + channel] + (["status=" + status] + (["claimed_by=" + holder] + (
           ["lease_expires_at=" + lease] + Words(rest))))
  {
    FieldNames();
    assert Word("channel=" + channel) && Word("status=" + status);
    assert Word("claimed_by=" + holder) && Word("lease_expires_at=" + lease);
    assert EndsToken(" " + rest);
    hide Words, Spaced, Word, NoSpace, EndsToken;
    var r4 := Spaced("lease_expires_at=" + lease, " " + rest);
    var r3 := Spaced("claimed_by=" + holder, r4);
    var r2 := Spaced("status=" + status, r3);
    SpacedWords("channel=" + channel, r2);
    SpacedWords("status=" + status, r3);
    SpacedWords("claimed_by=" + holder, r4);
    SpacedWords("lease_expires_at=" + lease, " " + rest);
    WordsSpace(rest);
  }

  lemma {:induction false} NoticeFields(task: T.Task)
    ensures NoticeText(task) == "TASK" + Spaced(task.id,
      Fields(task.channel, StatusText(task.status), HolderText(task.claimedBy), LeaseText(task.lease),
             "title=:" + task.title))
  {
    assert " " + "title=:" + task.title == " " + ("title=:" + task.title);
    hide StatusText, HolderText, LeaseText, Spaced;
  }

  /** The notice's words, the lease among them, which the daemon does not keep. */
  lemma {:induction false} NoticeTextWords(task: T.Task)
    requires Word(task.id) && Word(task.channel) && (task.claimedBy.Some? ==> Word(task.claimedBy.value))
    ensures Words(NoticeText(task))
      == ["TASK"] + ([task.id] + (["channel=" + task.channel] + (
           ["status="
             + if task.status == T.Open then "open" else if task.status == T.Claimed then "claimed" else "done"] + (
           ["claimed_by=" + if task.claimedBy.Some? then task.claimedBy.value else "-"] + (
           ["lease_expires_at=" + if task.lease.Some? then PrintInt(task.lease.value) else "-"]
             + Words("title=:" + task.title))))))
  {
    FieldNames();
    StatusIsWord(task.status);
    LeaseIsWord(task.lease);
    NoticeFields(task);
    var fields := Fields(task.channel, StatusText(task.status), HolderText(task.claimedBy), LeaseText(task.lease),
                         "title=:" + task.title);
    assert Word("TASK") && EndsToken(fields);
    hide Words, Spaced, Word, NoSpace, NoticeText, Fields, EndsToken;
    WordsCons("TASK", Spaced(task.id, fields));
    SpacedWords(task.id, fields);
    FieldsWords(task.channel, StatusText(task.status), HolderText(task.claimedBy), LeaseText(task.lease),
                "title=:" + task.title);
  }

  lemma {:induction false} DirectNoticeIsRead(nick: string, text: string)
    requires C.PlainToken(nick) && text != ""
    ensures var line := C.UntaggedLine("aircd", "NOTICE", nick, text);
      C.ReadMessage(line) == Some(C.Message(None, nick, "aircd", text, line, map[], false))
  {
    NoticeNames();
    C.UpperOfUpper("NOTICE");
    C.NoBang("aircd");
    hide C.ParseLine, C.UntaggedLine, C.Upper, C.PlainToken, NoSpace;
    C.UntaggedRoundTrip("aircd", "NOTICE", nick, text);
  }

  lemma {:induction false} NoticeNames()
    ensures C.PlainToken("NOTICE") && NoSpace("aircd") && '!' !in "aircd"
  {
  }

  lemma {:induction false} NoticeStartsWithTask(task: T.Task)
    ensures NoticeText(task) != "" && Find(NoticeText(task), "TASK ") == Some(0)
  {
    var text := NoticeText(task);
    assert text[..4] == "TASK" && text[4] == ' ';
    assert text[..5] == "TASK ";
  }

  /** Printed as a direct notice, parsed and matched: the daemon sees the task the server holds. */
  lemma {:induction false} TaskListRoundTrip(task: T.Task, nick: string)
    requires Word(task.id) && Word(task.channel) && (task.claimedBy.Some? ==> Word(task.claimedBy.value))
    requires '\n' !in task.title && C.PlainToken(nick)
    ensures var msg := C.ReadMessage(C.UntaggedLine("aircd", "NOTICE", nick, NoticeText(task)));
      && msg.Some? && msg.value.sender == "aircd" && Find(msg.value.content, "TASK ").Some?
      && MatchNotice(msg.value.content) ==
           Some(Listed(task.id, task.channel,
                       if task.status == T.Open then "open" else if task.status == T.Claimed then "claimed" else "done",
                       if task.claimedBy.Some? then task.claimedBy.value else "-", task.title))
  {
    hide NoticeText, MatchNotice, C.ReadMessage, C.UntaggedLine;
    NoticeTextRoundTrip(task);
    NoticeStartsWithTask(task);
    DirectNoticeIsRead(nick, NoticeText(task));
  }
}

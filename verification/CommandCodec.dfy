/**
  Client to server: the commands the client renders (clients/python/aircd/client.py) against the server's parser
  (src/protocol.rs).
 */
module CommandCodec {
  import opened Prelude
  import opened Text
  import C = ClientParser

  datatype Command =
    | Pass(token: string)
    | Nick(nick: string)
    | User(user: string)
    | Join(channel: string)
    | Part(channel: string)
    | Privmsg(target: string, body: string)
    | Ping(token: string)
    | Pong
    | Quit
    | Cap(subcommand: string, capabilities: seq<string>)
    | History(room: Option<string>, after: int, limit: int)
    | TaskCreate(channel: string, title: string)
    | TaskClaim(taskId: string)
    | TaskDone(taskId: string)
    | TaskRelease(taskId: string)
    | TaskList(channel: string)
    | Unknown(name: string)

  // ----- The parser -----

  function At(parts: seq<string>, i: nat): string {
    if i < |parts| then parts[i] else ""
  }

  function JoinWords(parts: seq<string>): string {
    if parts == [] then ""
    else if |parts| == 1 then parts[0]
    else parts[0] + " " + JoinWords(parts[1..])
  }

  function Drop(parts: seq<string>, n: nat): seq<string> {
    if n <= |parts| then parts[n..] else []
  }

  const I64_MIN := -0x8000_0000_0000_0000
  const I64_MAX := 0x7fff_ffff_ffff_ffff

  /** parse::<i64>() with a default for what is missing, malformed or out of range. */
  function I64Or(parts: seq<string>, i: nat, default: int): int {
    var n := ParseInt(At(parts, i));
    if n.Some? && I64_MIN <= n.value <= I64_MAX then n.value else default
  }

  function AfterBlank(line: string): string {
    var i := Find(line, " ");
    if i.Some? then line[i.value + 1..] else line
  }

  function StripTagsAndPrefix(line: string): string {
    var untagged := if line != "" && line[0] == '@' then AfterBlank(line) else line;
    if untagged != "" && untagged[0] == ':' then AfterBlank(untagged) else untagged
  }

  function Or(trailing: Option<string>, fallback: string): string {
    if trailing.Some? then trailing.value else fallback
  }

  function ParseChathistory(parts: seq<string>): Command {
    if parts != [] && C.Upper(parts[0]) == "AFTER" then
      if 1 < |parts| && parts[1] != "" && parts[1][0] == '#'
      then History(Some(parts[1]), I64Or(parts, 2, 0), I64Or(parts, 3, 100))
      else History(None, I64Or(parts, 1, 0), I64Or(parts, 2, 100))
    else History(if parts == [] then None else Some(parts[0]), I64Or(parts, 1, 0), I64Or(parts, 2, 100))
  }

  function ParseTask(parts: seq<string>, trailing: Option<string>): Command {
    if parts == [] then Unknown("TASK")
    else
      var action := C.Upper(parts[0]);
      if action == "CREATE" then TaskCreate(At(parts, 1), Or(trailing, JoinWords(Drop(parts, 2))))
      else if action == "CLAIM" then TaskClaim(At(parts, 1))
      else if action == "DONE" then TaskDone(At(parts, 1))
      else if action == "RELEASE" then TaskRelease(At(parts, 1))
      else if action == "LIST" then TaskList(At(parts, 1))
      else Unknown("TASK " + action)
  }

  /** The command named by the first word, with the words after it and the trailing text. */
  function Dispatch(verb: string, args: seq<string>, trailing: Option<string>): Command {
    if verb == "PASS" then Pass(JoinWords(args))
    else if verb == "NICK" then Nick(At(args, 0))
    else if verb == "USER" then User(At(args, 0))
    else if verb == "JOIN" then Join(At(args, 0))
    else if verb == "PART" then Part(At(args, 0))
    else if verb == "PRIVMSG" then Privmsg(At(args, 0), Or(trailing, JoinWords(Drop(args, 1))))
    else if verb == "PING" then Ping(Or(trailing, JoinWords(args)))
    else if verb == "PONG" then Pong
    else if verb == "QUIT" then Quit
    else if verb == "CAP" then Cap(C.Upper(At(args, 0)), Words(Or(trailing, JoinWords(Drop(args, 1)))))
    else if verb == "CHATHISTORY" then ParseChathistory(args)
    else if verb == "HISTORY" then History(Some(At(args, 0)), I64Or(args, 1, 0), I64Or(args, 2, 100))
    else if verb == "TASK" then ParseTask(args, trailing)
    else Unknown(verb)
  }

  function ParseCommand(input: string): Command {
    var line := StripTagsAndPrefix(Trim(input));
    var i := Find(line, " :");
    var head := if i.Some? then line[..i.value] else line;
    var trailing := if i.Some? then Some(line[i.value + 2..]) else None;
    var parts := Words(head);
    Dispatch(C.Upper(At(parts, 0)), Drop(parts, 1), trailing)
  }

  // ----- Lines made of plain tokens -----

  ghost predicate Plain(parts: seq<string>) {
    forall i :: 0 <= i < |parts| ==> C.PlainToken(parts[i])
  }

  lemma {:induction false} WordsOfJoin(parts: seq<string>)
    requires Plain(parts)
    ensures Words(JoinWords(parts)) == parts
  {
    if parts != [] {
      WordsOfJoin(parts[1..]);
      var w, rest := parts[0], JoinWords(parts[1..]);
      if |parts| == 1 {
        assert w + "" == w;
        WordsCons(w, "");
        assert parts == [w];
      } else {
        assert JoinWords(parts) == w + (" " + rest);
        hide JoinWords, Words;
        WordsCons(w, " " + rest);
        WordsSpace(rest);
        assert parts == [w] + parts[1..];
      }
    }
  }

  /** No two neighbours of a token line, with or without one more ":" behind a blank, are " :" before its end. */
  lemma {:induction false} JoinHasNoSeparator(parts: seq<string>, i: nat)
    requires Plain(parts) && i < |JoinWords(parts)|
    ensures JoinWords(parts)[i] == ' ' ==> i + 1 < |JoinWords(parts)| && JoinWords(parts)[i + 1] != ':'
  {
    if |parts| > 1 {
      var w, rest := parts[0], JoinWords(parts[1..]);
      JoinStartsPlain(parts[1..]);
      if i > |w| {
        JoinHasNoSeparator(parts[1..], i - |w| - 1);
      }
    }
  }

  lemma {:induction false} JoinStartsPlain(parts: seq<string>)
    requires Plain(parts) && parts != []
    ensures JoinWords(parts) != "" && JoinWords(parts)[0] == parts[0][0]
    ensures !IsSpace(Last(JoinWords(parts)))
  {
    if |parts| > 1 {
      JoinStartsPlain(parts[1..]);
      assert Last(JoinWords(parts)) == Last(JoinWords(parts[1..]));
    }
  }

  lemma {:induction false} FindNowhere(s: string, sep: string)
    requires sep != "" && forall i :: 0 <= i < |s| ==> s[i..][..if |sep| <= |s| - i then |sep| else |s| - i] != sep
    ensures Find(s, sep).None?
  {
    if s != "" {
      forall i | 0 <= i < |s[1..]|
        ensures s[1..][i..][..if |sep| <= |s[1..]| - i then |sep| else |s[1..]| - i] != sep
      {
        assert s[1..][i..] == s[i + 1..];
      }
      FindNowhere(s[1..], sep);
      if |sep| <= |s| {
        assert s[0..][..|sep|] == s[..|sep|];
      }
    }
  }

  /** Without trailing text there is nothing to trim or strip, and the words come back. */
  lemma {:induction false} ParseOfTokens(parts: seq<string>)
    requires Plain(parts) && parts != [] && parts[0][0] != '@'
    ensures ParseCommand(JoinWords(parts)) == Dispatch(C.Upper(parts[0]), parts[1..], None)
  {
    var line := JoinWords(parts);
    JoinStartsPlain(parts);
    TrimEndOfWord(line);
    assert Trim(line) == line && StripTagsAndPrefix(line) == line;
    forall i | 0 <= i < |line| ensures line[i..][..if 2 <= |line| - i then 2 else |line| - i] != " :" {
      JoinHasNoSeparator(parts, i);
      var two := line[i..][..if 2 <= |line| - i then 2 else |line| - i];
      assert two[0] == line[i];
      if |two| == 2 { assert two[1] == line[i + 1]; }
    }
    FindNowhere(line, " :");
    WordsOfJoin(parts);
  }

  /** With trailing text, the words come back and the text loses its trailing whitespace only. */
  lemma {:induction false} ParseOfTrailing(parts: seq<string>, text: string)
    requires Plain(parts) && parts != [] && parts[0][0] != '@'
    ensures ParseCommand(JoinWords(parts) + " :" + text) == Dispatch(C.Upper(parts[0]), parts[1..], Some(TrimEnd(text)))
  {
    var head := JoinWords(parts);
    var kept := head + " :" + TrimEnd(text);
    JoinStartsPlain(parts);
    SkipNone(head + " :" + text);
    TrimEndOfTail(head + " :", text);
    assert Trim(head + " :" + text) == kept && StripTagsAndPrefix(kept) == kept;
    forall i | 0 <= i < |head| ensures (head + " :")[i..][..2] != " :" {
      JoinHasNoSeparator(parts, i);
      var two := (head + " :")[i..][..2];
      assert two[0] == head[i] && two[1] == (head + " :")[i + 1];
    }
    FindAfter(head, " :", TrimEnd(text));
    assert kept[..|head|] == head && kept[|head| + 2..] == TrimEnd(text);
    WordsOfJoin(parts);
  }

  // ----- The client's renderings -----

  function RenderJoin(channel: string): string { "JOIN " + channel }

  function RenderPart(channel: string): string { "PART " + channel }

  function RenderPrivmsg(target: string, text: string): string { "PRIVMSG " + target + " :" + text }

  function RenderHistory(channel: string, after: int, limit: int): string {
    "CHATHISTORY AFTER " + channel + " " + PrintInt(after) + " " + PrintInt(limit)
  }

  function RenderTaskCreate(channel: string, title: string): string { "TASK CREATE " + channel + " :" + title }

  function RenderTaskClaim(taskId: string): string { "TASK CLAIM " + taskId }

  function RenderTaskDone(taskId: string): string { "TASK DONE " + taskId }

  function RenderTaskRelease(taskId: string): string { "TASK RELEASE " + taskId }

  function RenderTaskList(channel: string): string { "TASK LIST " + channel }

  lemma {:induction false} TwoWords(v: string, a: string)
    ensures JoinWords([v, a]) == v + " " + a
  {
    assert [v, a][1..] == [a];
  }

  lemma {:induction false} ThreeWords(v: string, w: string, a: string)
    ensures JoinWords([v, w, a]) == v + " " + w + " " + a
  {
    assert [v, w, a][1..] == [w, a];
    TwoWords(w, a);
  }

  predicate AllCaps(s: string) {
    s != "" && forall i :: 0 <= i < |s| ==> 'A' <= s[i] <= 'Z'
  }

  lemma {:induction false} CapsStay(s: string)
    requires AllCaps(s)
    ensures C.Upper(s) == s && C.PlainToken(s) && s[0] != '@'
  {
    C.UpperOfUpper(s);
  }

  // The server's verbs, looked up.

  lemma {:induction false} VerbsAreCaps()
    ensures AllCaps("JOIN") && AllCaps("PART") && AllCaps("PRIVMSG") && AllCaps("TASK") && AllCaps("CHATHISTORY")
    ensures AllCaps("CREATE") && AllCaps("CLAIM") && AllCaps("DONE") && AllCaps("RELEASE") && AllCaps("LIST")
    ensures AllCaps("AFTER")
  {
  }

  lemma {:induction false} DispatchRooms(channel: string)
    ensures Dispatch("JOIN", [channel], None) == Join(channel)
    ensures Dispatch("PART", [channel], None) == Part(channel)
  {
  }

  lemma {:induction false} DispatchPrivmsg(target: string, text: string)
    ensures Dispatch("PRIVMSG", [target], Some(text)) == Privmsg(target, text)
  {
  }

  lemma {:induction false} DispatchTask(args: seq<string>, trailing: Option<string>)
    ensures Dispatch("TASK", args, trailing) == ParseTask(args, trailing)
  {
    hide ParseTask;
  }

  lemma {:induction false} DispatchHistory(args: seq<string>)
    ensures Dispatch("CHATHISTORY", args, None) == ParseChathistory(args)
  {
    hide ParseChathistory;
  }

  lemma {:induction false} TaskAction(action: string, token: string)
    requires AllCaps(action)
    ensures var r := ParseTask([action, token], None);
      && (action == "CLAIM" ==> r == TaskClaim(token))
      && (action == "DONE" ==> r == TaskDone(token))
      && (action == "RELEASE" ==> r == TaskRelease(token))
      && (action == "LIST" ==> r == TaskList(token))
  {
    CapsStay(action);
    hide C.Upper;
  }

  lemma {:induction false} TaskCreation(channel: string, title: string)
    ensures ParseTask(["CREATE", channel], Some(title)) == TaskCreate(channel, title)
  {
    VerbsAreCaps();
    CapsStay("CREATE");
    hide C.Upper;
  }

  lemma {:induction false} VerbAndToken(verb: string, token: string)
    requires AllCaps(verb) && C.PlainToken(token)
    ensures ParseCommand(verb + " " + token) == Dispatch(verb, [token], None)
  {
    hide ParseCommand, Dispatch, AllCaps;
    CapsStay(verb);
    TwoWords(verb, token);
    ParseOfTokens([verb, token]);
    assert [verb, token][1..] == [token];
  }

  lemma {:induction false} TaskAndToken(action: string, token: string)
    requires AllCaps(action) && C.PlainToken(token)
    ensures ParseCommand("TASK" + " " + action + " " + token) == ParseTask([action, token], None)
  {
    hide ParseCommand, Dispatch, AllCaps, ParseTask;
    var parts := ["TASK", action, token];
    VerbsAreCaps();
    CapsStay("TASK");
    CapsStay(action);
    ThreeWords("TASK", action, token);
    ParseOfTokens(parts);
    assert parts[1..] == [action, token];
    DispatchTask([action, token], None);
  }

  // ----- Main results -----

  /** JOIN and PART come back with their channel. */
  lemma {:induction false} MembershipCommandsRoundTrip(channel: string)
    requires C.PlainToken(channel)
    ensures ParseCommand(RenderJoin(channel)) == Join(channel)
    ensures ParseCommand(RenderPart(channel)) == Part(channel)
  {
    hide ParseCommand, Dispatch, AllCaps, C.PlainToken;
    VerbsAreCaps();
    VerbAndToken("JOIN", channel);
    VerbAndToken("PART", channel);
    DispatchRooms(channel);
    assert "JOIN" + " " == "JOIN " && "PART" + " " == "PART ";
  }

  /** CLAIM, DONE, RELEASE and LIST come back with their argument. */
  lemma {:induction false} TaskCommandsRoundTrip(token: string)
    requires C.PlainToken(token)
    ensures ParseCommand(RenderTaskClaim(token)) == TaskClaim(token)
    ensures ParseCommand(RenderTaskDone(token)) == TaskDone(token)
    ensures ParseCommand(RenderTaskRelease(token)) == TaskRelease(token)
    ensures ParseCommand(RenderTaskList(token)) == TaskList(token)
  {
    hide ParseCommand, Dispatch, AllCaps, ParseTask, C.PlainToken;
    VerbsAreCaps();
    TaskAndToken("CLAIM", token);
    TaskAction("CLAIM", token);
    TaskAndToken("DONE", token);
    TaskAction("DONE", token);
    TaskAndToken("RELEASE", token);
    TaskAction("RELEASE", token);
    TaskAndToken("LIST", token);
    TaskAction("LIST", token);
    assert "TASK" + " " + "CLAIM" + " " == "TASK CLAIM ";
    assert "TASK" + " " + "DONE" + " " == "TASK DONE ";
    assert "TASK" + " " + "RELEASE" + " " == "TASK RELEASE ";
    assert "TASK" + " " + "LIST" + " " == "TASK LIST ";
  }

  /** PRIVMSG comes back with its target, and its text without trailing whitespace. */
  lemma {:induction false} PrivmsgRoundTrip(target: string, text: string)
    requires C.PlainToken(target)
    ensures ParseCommand(RenderPrivmsg(target, text)) == Privmsg(target, TrimEnd(text))
  {
    hide ParseCommand, Dispatch, AllCaps, C.PlainToken;
    var parts := ["PRIVMSG", target];
    VerbsAreCaps();
    CapsStay("PRIVMSG");
    TwoWords("PRIVMSG", target);
    ParseOfTrailing(parts, text);
    assert parts[1..] == [target];
    DispatchPrivmsg(target, TrimEnd(text));
    assert "PRIVMSG" + " " == "PRIVMSG ";
  }

  /** TASK CREATE comes back with its channel, and its title without trailing whitespace. */
  lemma {:induction false} TaskCreateRoundTrip(channel: string, title: string)
    requires C.PlainToken(channel)
    ensures ParseCommand(RenderTaskCreate(channel, title)) == TaskCreate(channel, TrimEnd(title))
  {
    hide ParseCommand, Dispatch, AllCaps, ParseTask, C.PlainToken;
    var parts := ["TASK", "CREATE", channel];
    VerbsAreCaps();
    CapsStay("TASK");
    CapsStay("CREATE");
    ThreeWords("TASK", "CREATE", channel);
    ParseOfTrailing(parts, title);
    assert parts[1..] == ["CREATE", channel];
    DispatchTask(["CREATE", channel], Some(TrimEnd(title)));
    TaskCreation(channel, TrimEnd(title));
    assert "TASK" + " " + "CREATE" + " " == "TASK CREATE ";
  }

  function InRangeOr(n: int, default: int): int {
    if I64_MIN <= n <= I64_MAX then n else default
  }

  lemma {:induction false} NumberIsPlain(n: int)
    ensures C.PlainToken(PrintInt(n)) && ParseInt(PrintInt(n)) == Some(n)
  {
    ParseIntOfPrint(n);
  }

  lemma {:induction false} ChathistoryArguments(channel: string, after: int, limit: int)
    requires C.PlainToken(channel) && channel[0] == '#'
    ensures ParseChathistory(["AFTER", channel, PrintInt(after), PrintInt(limit)])
         == History(Some(channel), InRangeOr(after, 0), InRangeOr(limit, 100))
  {
    NumberIsPlain(after);
    NumberIsPlain(limit);
    VerbsAreCaps();
    CapsStay("AFTER");
    hide PrintInt, ParseInt, C.Upper;
  }

  lemma {:induction false} HistoryTokens(channel: string, a: string, b: string)
    requires C.PlainToken(channel) && C.PlainToken(a) && C.PlainToken(b)
    ensures ParseCommand("CHATHISTORY AFTER " + channel + " " + a + " " + b)
         == ParseChathistory(["AFTER", channel, a, b])
  {
    hide ParseCommand, Dispatch, AllCaps, ParseChathistory, C.PlainToken, C.Upper, Plain, JoinWords;
    var parts := ["CHATHISTORY", "AFTER", channel, a, b];
    HistoryVerbs();
    PlainFive("CHATHISTORY", "AFTER", channel, a, b);
    HistoryLine(channel, a, b);
    ParseOfTokens(parts);
    assert parts[1..] == ["AFTER", channel, a, b];
    DispatchHistory(["AFTER", channel, a, b]);
  }

  lemma {:induction false} HistoryVerbs()
    ensures C.Upper("CHATHISTORY") == "CHATHISTORY" && "CHATHISTORY"[0] != '@'
    ensures C.PlainToken("CHATHISTORY") && C.PlainToken("AFTER")
  {
    VerbsAreCaps();
    CapsStay("CHATHISTORY");
    CapsStay("AFTER");
  }

  lemma {:induction false} PlainFive(v: string, w: string, a: string, b: string, c: string)
    requires C.PlainToken(v) && C.PlainToken(w) && C.PlainToken(a) && C.PlainToken(b) && C.PlainToken(c)
    ensures Plain([v, w, a, b, c])
  {
    hide C.PlainToken;
  }

  lemma {:induction false} HistoryLine(channel: string, a: string, b: string)
    ensures JoinWords(["CHATHISTORY", "AFTER", channel, a, b]) == "CHATHISTORY AFTER " + channel + " " + a + " " + b
  {
    FiveWords("CHATHISTORY", "AFTER", channel, a, b);
    hide JoinWords;
    assert "CHATHISTORY" + " " + "AFTER" + " " == "CHATHISTORY AFTER ";
  }

  /** CHATHISTORY comes back with its channel; its numbers survive if and only if they fit 64 signed bits. */
  lemma {:induction false} HistoryRoundTrip(channel: string, after: int, limit: int)
    requires C.PlainToken(channel) && channel[0] == '#'
    ensures ParseCommand(RenderHistory(channel, after, limit))
         == History(Some(channel), InRangeOr(after, 0), InRangeOr(limit, 100))
  {
    hide ParseCommand, ParseChathistory, PrintInt, ParseInt, InRangeOr;
    NumberIsPlain(after);
    NumberIsPlain(limit);
    HistoryTokens(channel, PrintInt(after), PrintInt(limit));
    ChathistoryArguments(channel, after, limit);
  }

  lemma {:induction false} FiveWords(v: string, w: string, a: string, b: string, c: string)
    ensures JoinWords([v, w, a, b, c]) == v + " " + w + " " + a + " " + b + " " + c
  {
    assert [v, w, a, b, c][1..] == [w, a, b, c];
    assert [w, a, b, c][1..] == [a, b, c];
    ThreeWords(a, b, c);
  }
}

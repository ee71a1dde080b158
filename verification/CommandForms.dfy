/**
  The other forms the server's command parser takes (src/protocol.rs): signing on, verbs in any case, text without a
  colon, history with fewer arguments, and tags or a prefix in front.
 */
module CommandForms {
  import opened Prelude
  import opened Text
  import C = ClientParser
  import opened CommandCodec

  // ----- Case -----

  /** Upper case is that of the ASCII letters, character by character. */
  lemma {:induction false} UpperAt(s: string, i: nat)
    requires i < |s|
    ensures |C.Upper(s)| == |s|
    ensures C.Upper(s)[i] == if 'a' <= s[i] <= 'z' then 'A' + (s[i] - 'a') else s[i]
  {
    if i > 0 {
      UpperAt(s[1..], i - 1);
    } else if |s| > 1 {
      UpperAt(s[1..], 0);
    }
  }

  lemma {:induction false} UpperTwice(s: string)
    ensures C.Upper(C.Upper(s)) == C.Upper(s)
  {
    if s != "" {
      UpperTwice(s[1..]);
    }
  }

  lemma {:induction false} UpperKeepsPlain(s: string)
    requires C.PlainToken(s)
    ensures C.PlainToken(C.Upper(s)) && (s[0] != '@' ==> C.Upper(s)[0] != '@')
  {
    forall i | 0 <= i < |s| ensures |C.Upper(s)| == |s| && !IsSpace(C.Upper(s)[i]) {
      UpperAt(s, i);
    }
    UpperAt(s, 0);
  }

  /** A command is read alike whatever the case of its verb, with and without trailing text. */
  lemma {:induction false} VerbsIgnoreCase(verb: string, args: seq<string>, text: string)
    requires C.PlainToken(verb) && verb[0] != '@' && Plain(args)
    ensures ParseCommand(JoinWords([verb] + args)) == ParseCommand(JoinWords([C.Upper(verb)] + args))
    ensures ParseCommand(JoinWords([verb] + args) + " :" + text)
         == ParseCommand(JoinWords([C.Upper(verb)] + args) + " :" + text)
  {
    UpperTwice(verb);
    UpperKeepsPlain(verb);
    hide ParseCommand, Dispatch, JoinWords, C.PlainToken, C.Upper;
    assert ([verb] + args)[1..] == args && ([C.Upper(verb)] + args)[1..] == args;
    ParseOfTokens([verb] + args);
    ParseOfTokens([C.Upper(verb)] + args);
    ParseOfTrailing([verb] + args, text);
    ParseOfTrailing([C.Upper(verb)] + args, text);
  }

  // ----- Verbs the client's methods do not send as such -----

  lemma {:induction false} OtherVerbsAreCaps()
    ensures AllCaps("PASS") && AllCaps("NICK") && AllCaps("USER") && AllCaps("CAP") && AllCaps("QUIT")
    ensures AllCaps("PING") && AllCaps("PONG") && AllCaps("HISTORY") && AllCaps("REQ") && AllCaps("END")
  {
  }

  lemma {:induction false} Tokens(verb: string, args: seq<string>)
    requires AllCaps(verb) && Plain(args)
    ensures ParseCommand(JoinWords([verb] + args)) == Dispatch(verb, args, None)
  {
    CapsStay(verb);
    assert ([verb] + args)[1..] == args;
    hide ParseCommand, Dispatch, JoinWords, C.PlainToken, C.Upper, AllCaps;
    ParseOfTokens([verb] + args);
  }

  lemma {:induction false} Trailing(verb: string, args: seq<string>, text: string)
    requires AllCaps(verb) && Plain(args)
    ensures ParseCommand(JoinWords([verb] + args) + " :" + text) == Dispatch(verb, args, Some(TrimEnd(text)))
  {
    CapsStay(verb);
    assert ([verb] + args)[1..] == args;
    hide ParseCommand, Dispatch, JoinWords, C.PlainToken, C.Upper, AllCaps;
    ParseOfTrailing([verb] + args, text);
  }

  lemma {:induction false} OneArg(verb: string, a: string)
    ensures JoinWords([verb] + [a]) == verb + " " + a
  {
    TwoWords(verb, a);
    assert [verb] + [a] == [verb, a];
  }

  lemma {:induction false} DispatchSignOn(token: string)
    ensures Dispatch("PASS", [token], None) == Pass(token)
    ensures Dispatch("NICK", [token], None) == Nick(token)
    ensures Dispatch("USER", [token, "0", "*"], Some("aircd agent")) == User(token)
    ensures Dispatch("QUIT", [], Some("bye")) == Quit
    ensures Dispatch("PING", [token], None) == Ping(token)
    ensures Dispatch("PONG", [], Some(token)) == Pong
  {
  }

  /** Signing on: token, nick and user name come back from the lines the client sends. */
  lemma {:induction false} SignOnRoundTrip(token: string, nick: string)
    requires C.PlainToken(token) && C.PlainToken(nick)
    ensures ParseCommand("PASS " + token) == Pass(token)
    ensures ParseCommand("NICK " + nick) == Nick(nick)
    ensures ParseCommand("USER " + nick + " 0 * :aircd agent") == User(nick)
    ensures ParseCommand("QUIT :bye") == Quit
    ensures ParseCommand("PING " + token) == Ping(token)
    ensures ParseCommand("PONG :" + token) == Pong
  {
    OtherVerbsAreCaps();
    hide ParseCommand, Dispatch, AllCaps;
    OneArg("PASS", token);
    OneArg("NICK", nick);
    OneArg("PING", token);
    UserWords(nick);
    assert Plain([token]) && Plain([nick]) && Plain([nick, "0", "*"]) && Plain([]);
    hide JoinWords, C.PlainToken, Plain;
    assert "PASS" + " " == "PASS " && "NICK" + " " == "NICK " && "PING" + " " == "PING ";
    assert "QUIT" + " :" + "bye" == "QUIT :bye" && "PONG" + " :" == "PONG :";
    Tokens("PASS", [token]);
    Tokens("NICK", [nick]);
    Tokens("PING", [token]);
    Trailing("USER", [nick, "0", "*"], "aircd agent");
    TrimEndOfWord("aircd agent");
    AloneWithText("QUIT", "bye");
    AloneWithText("PONG", token);
    TrimEndOfWord("bye");
    DispatchSignOn(token);
    DispatchSignOn(nick);
    PongIgnoresText(TrimEnd(token));
  }

  lemma {:induction false} PongIgnoresText(text: string)
    ensures Dispatch("PONG", [], Some(text)) == Pong
  {
  }

  lemma {:induction false} UserWords(nick: string)
    ensures JoinWords(["USER"] + [nick, "0", "*"]) + " :" + "aircd agent" == "USER " + nick + " 0 * :aircd agent"
  {
    assert ["USER"] + [nick, "0", "*"] == ["USER", nick, "0", "*"];
    assert ["USER", nick, "0", "*"][1..] == [nick, "0", "*"];
    ThreeWords(nick, "0", "*");
    assert JoinWords(["USER", nick, "0", "*"]) == "USER" + " " + JoinWords([nick, "0", "*"]);
    hide JoinWords;
    assert "USER" + " " + (nick + " " + "0" + " " + "*") + " :" + "aircd agent"
        == "USER " + nick + " 0 * :aircd agent";
  }

  lemma {:induction false} AloneWithText(verb: string, text: string)
    requires AllCaps(verb)
    ensures ParseCommand(verb + " :" + text) == Dispatch(verb, [], Some(TrimEnd(text)))
  {
    assert [verb] + [] == [verb] && JoinWords([verb]) == verb;
    hide ParseCommand, Dispatch, JoinWords;
    Trailing(verb, [], text);
  }

  lemma {:induction false} DispatchCap(sub: string, text: string)
    requires C.Upper(sub) == sub
    ensures Dispatch("CAP", [sub], Some(text)) == Cap(sub, Words(text))
    ensures Dispatch("CAP", [sub], None) == Cap(sub, [])
  {
    assert JoinWords([]) == "" && Words("") == [];
    hide Words, C.Upper;
  }

  /** The capabilities a client asks for come back one by one. */
  lemma {:induction false} CapabilitiesRoundTrip(caps: seq<string>)
    requires Plain(caps)
    ensures ParseCommand("CAP REQ :" + JoinWords(caps)) == Cap("REQ", caps)
    ensures ParseCommand("CAP END") == Cap("END", [])
  {
    OtherVerbsAreCaps();
    CapsStay("REQ");
    CapsStay("END");
    OneArg("CAP", "REQ");
    OneArg("CAP", "END");
    assert Plain(["REQ"]) && Plain(["END"]);
    if caps != [] {
      JoinStartsPlain(caps);
    }
    TrimEndOfWord(JoinWords(caps));
    WordsOfJoin(caps);
    hide ParseCommand, Dispatch, AllCaps, JoinWords, C.PlainToken, Plain, Words, TrimEnd;
    assert "CAP" + " " + "REQ" + " :" == "CAP REQ :" && "CAP" + " " + "END" == "CAP END";
    Trailing("CAP", ["REQ"], JoinWords(caps));
    Tokens("CAP", ["END"]);
    DispatchCap("REQ", JoinWords(caps));
    DispatchCap("END", "");
  }

  // ----- Text without a colon -----

  lemma {:induction false} DispatchText(target: string, words: seq<string>)
    ensures Dispatch("PRIVMSG", [target] + words, None) == Privmsg(target, JoinWords(words))
    ensures ParseTask(["CREATE"] + ([target] + words), None) == TaskCreate(target, JoinWords(words))
  {
    VerbsAreCaps();
    CapsStay("CREATE");
    assert ([target] + words)[1..] == words && (["CREATE"] + ([target] + words))[2..] == words;
    hide JoinWords, C.Upper;
  }

  /** Without a colon the text is the remaining words, one blank between them. */
  lemma {:induction false} WordsAreText(target: string, words: seq<string>)
    requires C.PlainToken(target) && Plain(words)
    ensures ParseCommand(JoinWords(["PRIVMSG"] + ([target] + words))) == Privmsg(target, JoinWords(words))
    ensures ParseCommand(JoinWords(["TASK"] + (["CREATE"] + ([target] + words))))
         == TaskCreate(target, JoinWords(words))
  {
    VerbsAreCaps();
    CapsStay("CREATE");
    hide ParseCommand, Dispatch, AllCaps, JoinWords, C.PlainToken, ParseTask;
    Tokens("PRIVMSG", [target] + words);
    Tokens("TASK", ["CREATE"] + ([target] + words));
    DispatchText(target, words);
    DispatchTask(["CREATE"] + ([target] + words), None);
  }

  // ----- Fewer arguments -----

  lemma {:induction false} DispatchAlone()
    ensures Dispatch("JOIN", [], None) == Join("") && Dispatch("PART", [], None) == Part("")
    ensures Dispatch("PRIVMSG", [], None) == Privmsg("", "") && Dispatch("TASK", [], None) == Unknown("TASK")
    ensures Dispatch("CHATHISTORY", [], None) == History(None, 0, 100)
    ensures Dispatch("HISTORY", [], None) == History(Some(""), 0, 100)
  {
  }

  /** A bare verb is read with empty arguments and the default numbers. */
  lemma {:induction false} BareVerbs()
    ensures ParseCommand("JOIN") == Join("") && ParseCommand("PART") == Part("")
    ensures ParseCommand("PRIVMSG") == Privmsg("", "") && ParseCommand("TASK") == Unknown("TASK")
    ensures ParseCommand("CHATHISTORY") == History(None, 0, 100)
    ensures ParseCommand("HISTORY") == History(Some(""), 0, 100)
  {
    VerbsAreCaps();
    OtherVerbsAreCaps();
    DispatchAlone();
    hide ParseCommand, Dispatch, AllCaps;
    Alone("JOIN");
    Alone("PART");
    Alone("PRIVMSG");
    Alone("TASK");
    Alone("CHATHISTORY");
    Alone("HISTORY");
  }

  lemma {:induction false} Alone(verb: string)
    requires AllCaps(verb)
    ensures ParseCommand(verb) == Dispatch(verb, [], None)
  {
    assert [verb] + [] == [verb] && JoinWords([verb]) == verb;
    hide ParseCommand, Dispatch, JoinWords;
    Tokens(verb, []);
  }

  /** History of one channel can also be asked for without AFTER, or with HISTORY; of all channels with AFTER alone. */
  lemma {:induction false} HistoryForms(channel: string, after: int, limit: int)
    requires C.PlainToken(channel) && channel[0] == '#'
    ensures ParseCommand(JoinWords(["CHATHISTORY"] + [channel, PrintInt(after), PrintInt(limit)]))
         == History(Some(channel), InRangeOr(after, 0), InRangeOr(limit, 100))
    ensures ParseCommand(JoinWords(["HISTORY"] + [channel, PrintInt(after), PrintInt(limit)]))
         == History(Some(channel), InRangeOr(after, 0), InRangeOr(limit, 100))
    ensures ParseCommand(JoinWords(["CHATHISTORY"] + ["AFTER", PrintInt(after), PrintInt(limit)]))
         == History(None, InRangeOr(after, 0), InRangeOr(limit, 100))
    ensures ParseCommand(JoinWords(["CHATHISTORY"] + ["AFTER", channel])) == History(Some(channel), 0, 100)
  {
    NumberIsPlain(after);
    NumberIsPlain(limit);
    VerbsAreCaps();
    OtherVerbsAreCaps();
    CapsStay("AFTER");
    assert Plain([channel, PrintInt(after), PrintInt(limit)]) && Plain(["AFTER", PrintInt(after), PrintInt(limit)]);
    assert Plain(["AFTER", channel]);
    hide *;
    Tokens("HISTORY", [channel, PrintInt(after), PrintInt(limit)]);
    ChathistoryTokens([channel, PrintInt(after), PrintInt(limit)]);
    ChathistoryTokens(["AFTER", PrintInt(after), PrintInt(limit)]);
    ChathistoryTokens(["AFTER", channel]);
    ChathistoryForms(channel, after, limit);
    DispatchOldHistory(channel, after, limit);
  }

  lemma {:induction false} ChathistoryTokens(args: seq<string>)
    requires Plain(args)
    ensures ParseCommand(JoinWords(["CHATHISTORY"] + args)) == ParseChathistory(args)
  {
    VerbsAreCaps();
    hide *;
    Tokens("CHATHISTORY", args);
    DispatchHistory(args);
  }

  lemma {:induction false} DispatchOldHistory(channel: string, after: int, limit: int)
    ensures Dispatch("HISTORY", [channel, PrintInt(after), PrintInt(limit)], None)
         == History(Some(channel), InRangeOr(after, 0), InRangeOr(limit, 100))
  {
    NumberIsPlain(after);
    NumberIsPlain(limit);
    hide PrintInt, ParseInt;
  }

  lemma {:induction false} ChathistoryForms(channel: string, after: int, limit: int)
    requires channel != "" && channel[0] == '#'
    ensures ParseChathistory([channel, PrintInt(after), PrintInt(limit)])
         == History(Some(channel), InRangeOr(after, 0), InRangeOr(limit, 100))
    ensures ParseChathistory(["AFTER", PrintInt(after), PrintInt(limit)])
         == History(None, InRangeOr(after, 0), InRangeOr(limit, 100))
    ensures ParseChathistory(["AFTER", channel]) == History(Some(channel), 0, 100)
  {
    hide ParseChathistory;
    ChannelForms(channel, after, limit);
    AfterForm(after, limit);
  }

  lemma {:induction false} ChannelForms(channel: string, after: int, limit: int)
    requires channel != "" && channel[0] == '#'
    ensures ParseChathistory([channel, PrintInt(after), PrintInt(limit)])
         == History(Some(channel), InRangeOr(after, 0), InRangeOr(limit, 100))
    ensures ParseChathistory(["AFTER", channel]) == History(Some(channel), 0, 100)
  {
    hide C.PlainToken;
    NumberIsPlain(after);
    NumberIsPlain(limit);
    AfterIsCaps();
    UpperAt(channel, 0);
    EmptyIsNoNumber();
    hide PrintInt, ParseInt, C.Upper;
  }

  lemma {:induction false} AfterForm(after: int, limit: int)
    ensures ParseChathistory(["AFTER", PrintInt(after), PrintInt(limit)])
         == History(None, InRangeOr(after, 0), InRangeOr(limit, 100))
  {
    hide C.PlainToken;
    NumberIsPlain(after);
    NumberIsPlain(limit);
    AfterIsCaps();
    NumberStart(after);
    hide PrintInt, ParseInt, C.Upper;
  }

  lemma {:induction false} AfterIsCaps()
    ensures C.Upper("AFTER") == "AFTER"
  {
    VerbsAreCaps();
    CapsStay("AFTER");
  }

  lemma {:induction false} EmptyIsNoNumber()
    ensures ParseInt("").None?
  {
  }

  lemma {:induction false} NumberStart(n: int)
    ensures PrintInt(n) != "" && PrintInt(n)[0] != '#'
  {
    if n >= 0 {
      assert IsDigit(PrintNat(n)[0]);
    }
  }

  // ----- In front of the command -----

  lemma {:induction false} FindBlank(word: string, rest: string)
    requires NoSpace(word)
    ensures Find(word + " " + rest, " ") == Some(|word|)
  {
    forall i | 0 <= i < |word| ensures (word + " ")[i..][..1] != " " {
      assert (word + " ")[i..][..1][0] == word[i];
    }
    FindAfter(word, " ", rest);
  }

  lemma {:induction false} SameCommand(a: string, b: string)
    requires StripTagsAndPrefix(Trim(a)) == StripTagsAndPrefix(Trim(b))
    ensures ParseCommand(a) == ParseCommand(b)
  {
    hide StripTagsAndPrefix, Trim, Dispatch, Words, Find;
  }

  lemma {:induction false} StripPrefix(prefix: string, rest: string)
    requires NoSpace(prefix)
    ensures StripTagsAndPrefix(":" + prefix + " " + rest) == rest
  {
    assert NoSpace(":" + prefix);
    StripOne(":" + prefix, rest);
    hide AfterBlank;
  }

  lemma {:induction false} StripTags(tags: string, rest: string)
    requires NoSpace(tags) && (rest == "" || rest[0] != '@')
    ensures StripTagsAndPrefix("@" + tags + " " + rest) == StripTagsAndPrefix(rest)
  {
    assert NoSpace("@" + tags);
    StripOne("@" + tags, rest);
    hide AfterBlank;
  }

  /** A prefix in front of a command is skipped. */
  lemma {:induction false} PrefixIsSkipped(prefix: string, line: string)
    requires NoSpace(prefix) && line != "" && !IsSpace(line[0]) && line[0] != '@' && line[0] != ':'
    ensures ParseCommand(":" + prefix + " " + line) == ParseCommand(line)
  {
    TrimFront(":" + prefix + " ", line);
    TrimOfStart(line);
    TrimmedStart(line);
    StripPrefix(prefix, TrimEnd(line));
    SameCommand(":" + prefix + " " + line, line);
    hide Trim, TrimEnd, ParseCommand;
  }

  /** So are tags, with or without a prefix behind them. */
  lemma {:induction false} TagsAreSkipped(tags: string, line: string)
    requires NoSpace(tags) && line != "" && !IsSpace(line[0]) && line[0] != '@'
    ensures ParseCommand("@" + tags + " " + line) == ParseCommand(line)
  {
    TrimFront("@" + tags + " ", line);
    TrimOfStart(line);
    TrimmedStart(line);
    StripTags(tags, TrimEnd(line));
    hide Trim, TrimEnd, ParseCommand, StripTagsAndPrefix;
    SameCommand("@" + tags + " " + line, line);
  }

  lemma {:induction false} TrimOfStart(line: string)
    requires line != "" && !IsSpace(line[0])
    ensures Trim(line) == TrimEnd(line)
  {
  }

  lemma {:induction false} TrimmedStart(line: string)
    requires line != "" && !IsSpace(line[0])
    ensures TrimEnd(line) != "" && TrimEnd(line)[0] == line[0]
  {
    var head := line[..1];
    assert line == head + line[1..];
    TrimEndOfTail(head, line[1..]);
  }

  lemma {:induction false} TrimFront(a: string, line: string)
    requires a != "" && !IsSpace(a[0]) && line != "" && !IsSpace(line[0])
    ensures Trim(a + line) == a + TrimEnd(line)
  {
    var head := a + line[..1];
    assert a + line == head + line[1..] && line == line[..1] + line[1..];
    assert Last(head) == line[0];
    SkipNone(a + line);
    TrimEndOfTail(head, line[1..]);
    TrimEndOfTail(line[..1], line[1..]);
  }

  lemma {:induction false} StripOne(word: string, rest: string)
    requires NoSpace(word)
    ensures AfterBlank(word + " " + rest) == rest
  {
    FindBlank(word, rest);
    assert (word + " " + rest)[|word| + 1..] == rest;
  }

  /** What is no verb of the protocol is reported by its name, in upper case. */
  lemma {:induction false} OthersAreUnknown(verb: string, args: seq<string>)
    requires C.PlainToken(verb) && verb[0] != '@' && Plain(args)
    requires C.Upper(verb) !in ["PASS", "NICK", "USER", "JOIN", "PART", "PRIVMSG", "PING", "PONG", "QUIT", "CAP",
                                "CHATHISTORY", "HISTORY", "TASK"]
    ensures ParseCommand(JoinWords([verb] + args)) == Unknown(C.Upper(verb))
  {
    assert ([verb] + args)[1..] == args;
    hide JoinWords, C.PlainToken, C.Upper;
    assert ParseCommand(JoinWords([verb] + args)) == Dispatch(C.Upper(verb), args, None) by {
      ParseOfTokens([verb] + args);
    }
    hide ParseCommand;
    DispatchUnknown(C.Upper(verb), args);
  }

  lemma {:induction false} DispatchUnknown(verb: string, args: seq<string>)
    requires verb !in ["PASS", "NICK", "USER", "JOIN", "PART", "PRIVMSG", "PING", "PONG", "QUIT", "CAP",
                       "CHATHISTORY", "HISTORY", "TASK"]
    ensures Dispatch(verb, args, None) == Unknown(verb)
  {
    hide ParseTask, ParseChathistory;
  }
}

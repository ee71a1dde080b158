/**
  From one client to another: a text is rendered, framed as a line, parsed and normalised by the server, broadcast with
  its tags, framed again and read by the peer.
 */
module Relay {
  import opened Prelude
  import opened Text
  import opened Tags
  import C = ClientParser
  import S = CommandCodec

  /** What the server's line reader takes from the bytes a client wrote: up to the newline, less one return. */
  function ServerLine(bytes: string): string {
    var line := LineOf(bytes);
    if line != "" && Last(line) == '\r' then Front(line) else line
  }

  function StripReturns(s: string): string {
    if s != "" && (Last(s) == '\r' || Last(s) == '\n') then StripReturns(Front(s)) else s
  }

  /** What the client's reader takes: up to the newline, less all trailing returns. */
  function ClientLine(bytes: string): string {
    StripReturns(LineOf(bytes))
  }

  function NormalizeChannel(channel: string): string {
    var c := Trim(channel);
    if c != "" && c[0] == '#' then c else if c == "" then "#demo" else "#" + c
  }

  lemma {:induction false} LineOfFramed(s: string)
    requires '\n' !in s
    ensures LineOf(s + "\r\n") == s + "\r"
  {
    if s == "" {
      assert ("" + "\r\n")[1..] == "\n";
      assert LineOf("\n") == "";
    } else {
      assert (s + "\r\n")[1..] == s[1..] + "\r\n";
      LineOfFramed(s[1..]);
    }
  }

  lemma {:induction false} ServerReads(s: string)
    requires '\n' !in s
    ensures ServerLine(s + "\r\n") == s
  {
    LineOfFramed(s);
    assert Front(s + "\r") == s;
  }

  lemma {:induction false} ClientReads(s: string)
    requires '\n' !in s && s != "" && !IsSpace(Last(s))
    ensures ClientLine(s + "\r\n") == s
  {
    LineOfFramed(s);
    assert Front(s + "\r") == s && Last(s + "\r") == '\r';
    assert StripReturns(s) == s;
  }

  lemma {:induction false} TrimEndFacts(s: string)
    ensures TrimEnd(s) <= s
    ensures TrimEnd(s) != "" ==> !IsSpace(Last(TrimEnd(s)))
  {
    if s != "" && IsSpace(Last(s)) {
      TrimEndFacts(Front(s));
    }
  }

  predicate Blank(s: string) {
    forall i :: 0 <= i < |s| ==> IsSpace(s[i])
  }

  lemma {:induction false} SkipBlank(lead: string, s: string)
    requires Blank(lead)
    ensures SkipSpaces(lead + s) == SkipSpaces(s)
  {
    if lead == "" {
      assert lead + s == s;
    } else {
      assert (lead + s)[1..] == lead[1..] + s;
      SkipBlank(lead[1..], s);
    }
  }

  lemma {:induction false} TrimBlank(tail: string)
    requires Blank(tail)
    ensures TrimEnd(tail) == "" && SkipSpaces(tail) == ""
  {
    if tail != "" {
      TrimBlank(Front(tail));
      SkipBlank(tail, "");
      assert tail + "" == tail;
    }
  }

  /**
    A channel name loses the whitespace around it and gets a hash if it has none; a blank one is the demo channel. Every
    text has this shape, and a normal name stays as it is.
   */
  lemma {:induction false} ChannelsAreNormal(lead: string, name: string, tail: string)
    requires Blank(lead) && Blank(tail)
    requires name == "" || (!IsSpace(name[0]) && !IsSpace(Last(name)))
    ensures var normal := if name == "" then "#demo" else if name[0] == '#' then name else "#" + name;
      NormalizeChannel(lead + (name + tail)) == normal && NormalizeChannel(normal) == normal
  {
    SkipBlank(lead, name + tail);
    TrimBlank(tail);
    if name == "" {
      assert name + tail == tail;
    } else {
      TrimEndOfTail(name, tail);
      assert name + "" == name;
    }
  }

  lemma {:induction false} ChannelIsNormal(channel: string)
    requires C.PlainToken(channel)
    ensures NormalizeChannel(channel) == if channel[0] == '#' then channel else "#" + channel
    ensures C.PlainToken(NormalizeChannel(channel))
  {
    ChannelsAreNormal("", channel, "");
    assert "" + (channel + "") == channel;
  }

  ghost predicate NoNewline(s: string) {
    '\n' !in s
  }

  lemma {:induction false} NoNewlineIn(a: string, b: string)
    requires NoNewline(a) && NoNewline(b)
    ensures NoNewline(a + b)
  {
  }

  lemma {:induction false} WordHasNoNewline(s: string)
    requires NoSpace(s)
    ensures NoNewline(s)
  {
  }

  lemma {:induction false} TagLineHasNoNewline(tags: seq<Tag>)
    requires forall i :: 0 <= i < |tags| ==> NoNewline(tags[i].key)
    ensures NoNewline(FormatTags(tags))
  {
    if tags != [] {
      TagJoinHasNoNewline(tags);
      NoNewlineIn("@", JoinTags(tags));
    }
  }

  lemma {:induction false} TagJoinHasNoNewline(tags: seq<Tag>)
    requires tags != [] && forall i :: 0 <= i < |tags| ==> NoNewline(tags[i].key)
    ensures NoNewline(JoinTags(tags))
  {
    EscapeIsClean(tags[0].value);
    assert NoNewline(TagText(tags[0]));
    if |tags| > 1 {
      TagJoinHasNoNewline(tags[1..]);
    }
  }

  /** What the server broadcasts for a message stored under `seqNo`. */
  ghost function Broadcast(seqNo: int, msgId: string, at: int, replay: bool, nick: string, cmd: S.Command): string
    requires cmd.Privmsg?
  {
    C.FormatLine(C.MetadataTags(seqNo, msgId, at, replay), nick, "PRIVMSG", NormalizeChannel(cmd.target), cmd.body)
  }

  lemma {:induction false} BroadcastIsOneLine(
      seqNo: int, msgId: string, at: int, replay: bool, nick: string, channel: string, body: string)
    requires NoSpace(nick) && NoSpace(channel) && NoNewline(body) && (body != "" ==> !IsSpace(Last(body)))
    ensures var line := C.FormatLine(C.MetadataTags(seqNo, msgId, at, replay), nick, "PRIVMSG", channel, body);
      NoNewline(line) && line != "" && !IsSpace(Last(line))
  {
    var tags := C.MetadataTags(seqNo, msgId, at, replay);
    C.MetadataKeys(seqNo, msgId, at, replay);
    forall i | 0 <= i < |tags| ensures NoNewline(tags[i].key) {
      assert NoNewline("seq") && NoNewline("msg-id") && NoNewline("time") && NoNewline("replay");
    }
    TagLineHasNoNewline(tags);
    hide FormatTags, C.MetadataTags;
    var a := "PRIVMSG" + " " + channel + " :" + body;
    assert NoNewline(a) && Last(a) == if body == "" then ':' else Last(body);
    var b := ":" + nick + " " + a;
    assert NoNewline(b) && Last(b) == Last(a);
    NoNewlineIn(FormatTags(tags) + " ", b);
  }

  /** A chat line without text loses its second parameter, and no message is read from it. */
  lemma {:induction false} EmptyLineIsNoMessage(
      seqNo: int, msgId: string, at: int, replay: bool, nick: string, channel: string)
    requires NoSpace(nick) && C.PlainToken(channel)
    ensures C.ReadMessage(C.FormatLine(C.MetadataTags(seqNo, msgId, at, replay), nick, "PRIVMSG", channel, "")).None?
  {
    var tags := C.MetadataTags(seqNo, msgId, at, replay);
    C.MetadataKeys(seqNo, msgId, at, replay);
    assert tags != [];
    C.IsPlainVerb();
    C.UpperOfUpper("PRIVMSG");
    hide TagMap, C.MetadataTags, C.FormatLine, C.ParseLine, C.Upper, C.PlainToken, NoSpace;
    C.LineRoundTrip(tags, nick, "PRIVMSG", channel, "");
  }

  /**
    What a peer receives of a text: nothing if only whitespace is in it, and otherwise exactly the text minus its
    trailing whitespace, from the sender's nick, on the channel it was sent to, with a hash if the sender left it out,
    and under the server's sequence number, live or replayed.
   */
  lemma {:induction false} PeerReceivesTheText(
      channel: string, text: string, nick: string, seqNo: int, msgId: string, at: int, replay: bool)
    requires C.PlainToken(channel)
    requires '\n' !in text
    requires NoSpace(nick) && '!' !in nick
    ensures var cmd := S.ParseCommand(ServerLine(S.RenderPrivmsg(channel, text) + "\r\n"));
      var normal := if channel[0] == '#' then channel else "#" + channel;
      && cmd == S.Privmsg(channel, TrimEnd(text))
      && (var line := Broadcast(seqNo, msgId, at, replay, nick, cmd);
          C.ReadMessage(ClientLine(line + "\r\n")) ==
            if TrimEnd(text) == "" then None
            else Some(C.Message(Some(seqNo), normal, nick, TrimEnd(text), line,
                                TagMap(C.MetadataTags(seqNo, msgId, at, replay)), replay)))
  {
    hide S.ParseCommand, C.ReadMessage, C.MetadataTags, TagMap, C.FormatLine;
    var body := TrimEnd(text);
    assert NoNewline(S.RenderPrivmsg(channel, text)) by {
      WordHasNoNewline(channel);
      NoNewlineIn("PRIVMSG " + channel + " :", text);
    }
    ServerReads(S.RenderPrivmsg(channel, text));
    S.PrivmsgRoundTrip(channel, text);
    TrimEndFacts(text);
    ChannelIsNormal(channel);
    var normal := NormalizeChannel(channel);
    BroadcastIsOneLine(seqNo, msgId, at, replay, nick, normal, body);
    var line := C.FormatLine(C.MetadataTags(seqNo, msgId, at, replay), nick, "PRIVMSG", normal, body);
    ClientReads(line);
    if body == "" {
      EmptyLineIsNoMessage(seqNo, msgId, at, replay, nick, normal);
    } else {
      C.MessageRoundTrip(seqNo, msgId, at, replay, nick, normal, body);
    }
  }
}

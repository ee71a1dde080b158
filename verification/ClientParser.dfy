/**
  Server to client: the lines the server prints (src/server.rs) against the parser the client reads them with
  (clients/python/aircd/client.py), in the message format of section 2.3.1 of RFC 1459 with IRCv3 tags.
 */
module ClientParser {
  import opened Prelude
  import opened Text
  import opened Tags

  // ----- The parser -----

  datatype Parsed = Parsed(prefix: string, command: string, params: seq<string>, tags: map<string, string>)

  function UpperChar(c: char): char {
    if 'a' <= c <= 'z' then (c as int - 32) as char else c
  }

  function Upper(s: string): string {
    if s == "" then "" else [UpperChar(s[0])] + Upper(s[1..])
  }

  /** The part after tags and prefix: words, and everything after the first " :" as one last parameter. */
  function ParseBody(prefix: string, tags: map<string, string>, line: string): Parsed {
    var i := Find(line, " :");
    var trailing := if i.Some? then line[i.value + 2..] else "";
    var parts := Words(if i.Some? then line[..i.value] else line);
    var command := if parts == [] then "" else Upper(parts[0]);
    var params := if parts == [] then [] else parts[1..];
    Parsed(prefix, command, if trailing == "" then params else params + [trailing], tags)
  }

  /** A prefix, if the line starts with one; None where index(" ") raises. */
  function ParsePrefixed(tags: map<string, string>, line: string): Option<Parsed> {
    if line != "" && line[0] == ':' then
      var tail := line[1..];
      var i := Find(tail, " ");
      if i.None? then None else Some(ParseBody(tail[..i.value], tags, tail[i.value + 1..]))
    else Some(ParseBody("", tags, line))
  }

  ghost function ParseLine(line: string): Option<Parsed> {
    if line != "" && line[0] == '@' then
      var tail := line[1..];
      var i := Find(tail, " ");
      if i.None? then None else ParsePrefixed(ReadParts(Split(tail[..i.value], ';')), tail[i.value + 1..])
    else ParsePrefixed(map[], line)
  }

  /** The parser as it runs; the tag loop is ReadTags. */
  method ParseIrcLine(input: string) returns (r: Option<Parsed>)
    ensures r == ParseLine(input)
  {
    hide ParsePrefixed, Find, ReadParts, Split;
    var line := input;
    var tags: map<string, string> := map[];
    if line != "" && line[0] == '@' {
      line := line[1..];
      var i := Find(line, " ");
      if i.None? {
        return None;
      }
      tags := ReadTags(line[..i.value]);
      line := line[i.value + 1..];
    }
    r := ParsePrefixed(tags, line);
  }

  // ----- The printed line -----

  ghost function FormatLine(tags: seq<Tag>, sender: string, verb: string, channel: string, body: string): string {
    FormatTags(tags) + " " + (":" + sender + " " + (verb + " " + channel + " :" + body))
  }

  predicate PlainToken(s: string) {
    Word(s) && s[0] != ':'
  }

  lemma {:induction false} FindBlankAfter(a: string, b: string)
    requires ' ' !in a
    ensures Find(a + " " + b, " ") == Some(|a|)
  {
    forall i | 0 <= i < |a| ensures (a + " ")[i..][..1] != " " {
      assert (a + " ")[i..][..1][0] == a[i];
    }
    FindAfter(a, " ", b);
  }

  lemma {:induction false} NoBlankInWord(s: string)
    requires NoSpace(s)
    ensures ' ' !in s
  {
  }

  /** Two plain tokens hold no " :" of their own, nor does the seam between them. */
  lemma {:induction false} FindColonAfterTokens(v: string, c: string, body: string)
    requires PlainToken(v) && PlainToken(c)
    ensures Find(v + " " + c + " :" + body, " :") == Some(|v + " " + c|)
  {
    var a := v + " " + c;
    NoBlankInWord(v);
    NoBlankInWord(c);
    forall i | 0 <= i < |a| ensures (a + " :")[i..][..2] != " :" {
      var two := (a + " :")[i..][..2];
      assert two[0] == a[i] && two[1] == (a + " :")[i + 1];
      if i == |v| {
        assert two[1] == c[0];
      } else if i < |v| {
        assert a[i] == v[i] && v[i] in v;
      } else {
        assert a[i] == c[i - |v| - 1] && c[i - |v| - 1] in c;
      }
    }
    FindAfter(a, " :", body);
  }

  lemma {:induction false} WordsOfTwo(v: string, c: string)
    requires Word(v) && Word(c)
    ensures Words(v + " " + c) == [v, c]
  {
    assert v + " " + c == v + (" " + c);
    WordsCons(v, " " + c);
    WordsSpace(c);
    assert c + "" == c;
    WordsCons(c, "");
  }

  lemma {:induction false} ParseBodyOf(
      prefix: string, tags: map<string, string>, verb: string, channel: string, body: string)
    requires PlainToken(verb) && Upper(verb) == verb && PlainToken(channel)
    ensures ParseBody(prefix, tags, verb + " " + channel + " :" + body)
         == Parsed(prefix, verb, if body == "" then [channel] else [channel, body], tags)
  {
    var a := verb + " " + channel;
    var line := a + " :" + body;
    FindColonAfterTokens(verb, channel, body);
    WordsOfTwo(verb, channel);
    assert line[..|a|] == a && line[|a| + 2..] == body;
  }

  lemma {:induction false} PrefixSplits(tags: map<string, string>, sender: string, rest: string)
    requires NoSpace(sender)
    ensures ParsePrefixed(tags, ":" + sender + " " + rest) == Some(ParseBody(sender, tags, rest))
  {
    hide ParseBody;
    var line, tail := ":" + sender + " " + rest, sender + " " + rest;
    NoBlankInWord(sender);
    FindBlankAfter(sender, rest);
    assert line[0] == ':' && line[1..] == tail;
    assert tail[..|sender|] == sender && tail[|sender| + 1..] == rest;
  }

  lemma {:induction false} ParsePrefixedOf(
      tags: map<string, string>, sender: string, verb: string, channel: string, body: string)
    requires NoSpace(sender) && PlainToken(verb) && Upper(verb) == verb && PlainToken(channel)
    ensures ParsePrefixed(tags, ":" + sender + " " + (verb + " " + channel + " :" + body))
         == Some(Parsed(sender, verb, if body == "" then [channel] else [channel, body], tags))
  {
    hide ParsePrefixed, ParseBody, Upper, PlainToken, NoSpace;
    PrefixSplits(tags, sender, verb + " " + channel + " :" + body);
    ParseBodyOf(sender, tags, verb, channel, body);
  }

  lemma {:induction false} ParseTagged(head: string, rest: string)
    requires head != "" && head[0] == '@' && ' ' !in head
    ensures ParseLine(head + " " + rest) == ParsePrefixed(ReadParts(Split(head[1..], ';')), rest)
  {
    var line, tail := head + " " + rest, head[1..] + " " + rest;
    FindBlankAfter(head[1..], rest);
    assert line[1..] == tail;
    assert tail[..|head[1..]|] == head[1..] && tail[|head[1..]| + 1..] == rest;
  }

  /**
    Every line the server prints with at least one tag reads back as its parts: prefix, verb, channel, body and the
    whole tag map. An empty body alone is not recovered: its parameter is missing.
   */
  lemma {:induction false} LineRoundTrip(tags: seq<Tag>, sender: string, verb: string, channel: string, body: string)
    requires tags != [] && WellKeyed(tags)
    requires NoSpace(sender) && PlainToken(verb) && Upper(verb) == verb && PlainToken(channel)
    ensures ParseLine(FormatLine(tags, sender, verb, channel, body))
         == Some(Parsed(sender, verb, if body == "" then [channel] else [channel, body], TagMap(tags)))
  {
    TagsRoundTrip(tags);
    ParseTagged(FormatTags(tags), ":" + sender + " " + (verb + " " + channel + " :" + body));
    ParsePrefixedOf(TagMap(tags), sender, verb, channel, body);
  }

  /** A printed line without tags, as the server's direct notices are. */
  ghost function UntaggedLine(sender: string, verb: string, target: string, body: string): string {
    ":" + sender + " " + (verb + " " + target + " :" + body)
  }

  lemma {:induction false} UntaggedRoundTrip(sender: string, verb: string, target: string, body: string)
    requires NoSpace(sender) && PlainToken(verb) && Upper(verb) == verb && PlainToken(target) && body != ""
    ensures ParseLine(UntaggedLine(sender, verb, target, body)) == Some(Parsed(sender, verb, [target, body], map[]))
  {
    ParsePrefixedOf(map[], sender, verb, target, body);
  }

  // ----- The message object -----

  datatype Message = Message(
    seqNo: Option<int>,
    channel: string,
    sender: string,
    content: string,
    raw: string,
    tags: map<string, string>,
    isReplay: bool
  )

  /** 'nick!user@host' names the nick before the '!'. */
  function ExtractNick(prefix: string): string {
    var i := Find(prefix, "!");
    if i.Some? then prefix[..i.value] else prefix
  }

  /** What the reader loop queues for a line, if anything. */
  ghost function ReadMessage(line: string): Option<Message> {
    var p := ParseLine(line);
    if p.None? || !(p.value.command == "PRIVMSG" || p.value.command == "NOTICE") || |p.value.params| < 2 then None
    else
      var tags := p.value.tags;
      Some(Message(
        if "seq" in tags then ParseInt(tags["seq"]) else None,
        p.value.params[0], ExtractNick(p.value.prefix), p.value.params[1], line, tags,
        ("replay" in tags && tags["replay"] == "1") || "batch" in tags))
  }

  function MetadataTags(seqNo: int, msgId: string, createdAt: int, replay: bool): seq<Tag> {
    [Tag("seq", PrintInt(seqNo)), Tag("msg-id", msgId), Tag("time", PrintInt(createdAt))]
      + if replay then [Tag("replay", "1")] else []
  }

  lemma {:induction false} NoBang(s: string)
    requires '!' !in s
    ensures Find(s, "!").None?
  {
    if s != "" {
      NoBang(s[1..]);
      assert s[..1][0] == s[0];
    }
  }

  lemma {:induction false} MetadataKeys(seqNo: int, msgId: string, createdAt: int, replay: bool)
    ensures WellKeyed(MetadataTags(seqNo, msgId, createdAt, replay))
    ensures var tags := MetadataTags(seqNo, msgId, createdAt, replay);
      && |tags| == (if replay then 4 else 3)
      && (forall i :: 0 <= i < |tags| ==> tags[i].key == ["seq", "msg-id", "time", "replay"][i])
  {
    hide PrintInt;
    var keys := ["seq", "msg-id", "time", "replay"];
    assert |keys[0]| == 3 && |keys[1]| == 6 && |keys[2]| == 4 && |keys[3]| == 6;
    assert keys[1][0] == 'm' && keys[3][0] == 'r';
  }

  lemma {:induction false} MetadataMap(seqNo: int, msgId: string, createdAt: int, replay: bool)
    ensures var tags := TagMap(MetadataTags(seqNo, msgId, createdAt, replay));
      && "seq" in tags && tags["seq"] == PrintInt(seqNo)
      && "msg-id" in tags && tags["msg-id"] == msgId
      && "time" in tags && tags["time"] == PrintInt(createdAt)
      && ("replay" in tags <==> replay) && (replay ==> tags["replay"] == "1")
      && "batch" !in tags
  {
    var ts := MetadataTags(seqNo, msgId, createdAt, replay);
    MetadataKeys(seqNo, msgId, createdAt, replay);
    hide TagMap, PrintInt;
    TagMapAt(ts, 0);
    TagMapAt(ts, 1);
    TagMapAt(ts, 2);
    if replay {
      TagMapAt(ts, 3);
    }
    TagMapKeys(ts);
    var missing := "batch";
    assert |missing| == 5;
    var last := "replay";
    assert last[0] == 'r';
  }

  lemma {:induction false} TagMapKeys(tags: seq<Tag>)
    ensures forall k :: k in TagMap(tags) <==> exists i :: 0 <= i < |tags| && tags[i].key == k
  {
    if tags != [] {
      TagMapKeys(Front(tags));
      assert tags[|tags| - 1] == Last(tags);
      assert forall i :: 0 <= i < |tags| - 1 ==> Front(tags)[i] == tags[i];
    }
  }

  /** A chat line, live or replayed, becomes a message with the server's sequence number, id, sender, body and mode. */
  lemma {:induction false} MessageRoundTrip(
      seqNo: int, msgId: string, createdAt: int, replay: bool, sender: string, channel: string, body: string)
    requires NoSpace(sender) && '!' !in sender && PlainToken(channel) && body != ""
    ensures var line := FormatLine(MetadataTags(seqNo, msgId, createdAt, replay), sender, "PRIVMSG", channel, body);
      ReadMessage(line) == Some(Message(Some(seqNo), channel, sender, body, line,
        TagMap(MetadataTags(seqNo, msgId, createdAt, replay)), replay))
    ensures "msg-id" in TagMap(MetadataTags(seqNo, msgId, createdAt, replay))
    ensures TagMap(MetadataTags(seqNo, msgId, createdAt, replay))["msg-id"] == msgId
  {
    var tags := MetadataTags(seqNo, msgId, createdAt, replay);
    MetadataKeys(seqNo, msgId, createdAt, replay);
    MetadataMap(seqNo, msgId, createdAt, replay);
    assert tags != [];
    hide TagMap, MetadataTags;
    assert Upper("PRIVMSG") == "PRIVMSG" by { UpperOfUpper("PRIVMSG"); }
    hide PrintInt, ParseInt, FormatLine, PlainToken, NoSpace;
    LineRoundTrip(tags, sender, "PRIVMSG", channel, body) by {
      assert PlainToken("PRIVMSG") by { IsPlainVerb(); }
    }
    NoBang(sender);
    ParseIntOfPrint(seqNo);
    hide ParseLine;
  }

  lemma {:induction false} IsPlainVerb()
    ensures PlainToken("PRIVMSG")
  {
  }

  lemma {:induction false} UpperOfUpper(s: string)
    requires forall i :: 0 <= i < |s| ==> !('a' <= s[i] <= 'z')
    ensures Upper(s) == s
  {
    if s != "" {
      UpperOfUpper(s[1..]);
    }
  }
}

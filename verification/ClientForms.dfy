/** The client's reader on lines of every other shape: malformed ones, control lines, bare and repeated tags. */
module ClientForms {
  import opened Prelude
  import opened Text
  import opened Tags
  import opened ClientParser

  // ----- Lines that raise -----

  lemma {:induction false} FindBlank(s: string)
    ensures Find(s, " ").None? <==> ' ' !in s
    ensures Find(s, " ").Some? ==> ' ' !in s[..Find(s, " ").value]
  {
    if s != "" {
      FindBlank(s[1..]);
      assert s[..1][0] == s[0];
    }
  }

  /** The prefix of the line, if it has one, is not followed by a blank. */
  predicate OpenPrefix(line: string) {
    line != "" && line[0] == ':' && ' ' !in line
  }

  /** A line is rejected exactly if its tags, or the prefix behind them, go on to the end of the line. */
  lemma {:induction false} RaisesIff(line: string)
    ensures ParseLine(line).None? <==>
      (|| OpenPrefix(line)
       || (line != "" && line[0] == '@'
           && forall k :: 0 <= k < |line| && line[k] == ' ' && ' ' !in line[..k] ==> OpenPrefix(line[k + 1..])))
  {
    if line != "" {
      var tail := line[1..];
      FindBlank(tail);
      if line[0] == '@' {
        TaggedRaisesIff(line);
      } else {
        assert line[0] == ':' ==> (' ' in line <==> ' ' in tail);
      }
    }
  }

  lemma {:induction false} NoneBefore(s: string, j: nat, k: nat)
    requires j < |s| && k <= |s| && s[j] == ' ' && ' ' !in s[..k]
    ensures k <= j
  {
    assert forall i :: 0 <= i < k ==> s[..k][i] == s[i];
  }

  lemma {:induction false} TaggedRaisesIff(line: string)
    requires line != "" && line[0] == '@'
    ensures ParseLine(line).None? <==>
      forall k :: 0 <= k < |line| && line[k] == ' ' && ' ' !in line[..k] ==> OpenPrefix(line[k + 1..])
  {
    var tail := line[1..];
    FindBlank(tail);
    if Find(tail, " ").Some? {
      var i := Find(tail, " ").value;
      var rest := tail[i + 1..];
      assert line[i + 1] == tail[i..i + 1][0] == ' ' && line[i + 2..] == rest;
      assert line[..i + 1] == [line[0]] + tail[..i];
      assert ' ' !in line[..i + 1];
      PrefixRaisesIff(ReadParts(Split(tail[..i], ';')), rest);
      forall k | 0 <= k < |line| && line[k] == ' ' && ' ' !in line[..k] ensures k == i + 1 {
        NoneBefore(line, k, i + 1);
        NoneBefore(line, i + 1, k);
      }
    } else {
      assert forall k :: 0 <= k < |line| && line[k] == ' ' ==> k > 0 && tail[k - 1] == ' ';
    }
  }

  lemma {:induction false} PrefixRaisesIff(tags: map<string, string>, line: string)
    ensures ParsePrefixed(tags, line).None? <==> OpenPrefix(line)
  {
    hide ParseBody;
    if line != "" && line[0] == ':' {
      FindBlank(line[1..]);
      assert ' ' in line <==> ' ' in line[1..];
    }
  }

  // ----- Control lines -----

  lemma {:induction false} NoColonInTokens(v: string, c: string)
    requires PlainToken(v) && PlainToken(c)
    ensures Find(v + " " + c, " :").None?
  {
    FindColonAfterTokens(v, c, "");
    var s := v + " " + c;
    assert s + " :" + "" == s + " :";
    if Find(s, " :").Some? {
      FoundEarlier(s, " :", " :");
    }
  }

  /** What is found in a text is found at the same place in every longer one. */
  lemma {:induction false} FoundEarlier(a: string, b: string, sep: string)
    requires Find(a, sep).Some?
    ensures Find(a + b, sep) == Find(a, sep)
  {
    assert (a + b)[..|sep|] == a[..|sep|];
    if a[..|sep|] != sep {
      assert (a + b)[1..] == a[1..] + b;
      FoundEarlier(a[1..], b, sep);
    }
  }

  /** A control line such as a JOIN or a PART reads back as its parts, and is no message. */
  lemma {:induction false} ControlRoundTrip(sender: string, verb: string, channel: string)
    requires NoSpace(sender) && PlainToken(verb) && Upper(verb) == verb && PlainToken(channel)
    ensures var line := ":" + sender + " " + (verb + " " + channel);
      && ParseLine(line) == Some(Parsed(sender, verb, [channel], map[]))
      && ReadMessage(line).None?
  {
    var rest := verb + " " + channel;
    NoColonInTokens(verb, channel);
    WordsOfTwo(verb, channel);
    assert ParseBody(sender, map[], rest) == Parsed(sender, verb, [channel], map[]);
    hide ParseBody, PlainToken, NoSpace, ParsePrefixed, Upper;
    PrefixSplits(map[], sender, rest);
    assert (":" + sender + " " + rest)[0] == ':';
  }

  // ----- Messages -----

  /** The nick of a prefix is what stands before its first '!'. */
  lemma {:induction false} NickBeforeBang(nick: string, rest: string)
    requires '!' !in nick
    ensures ExtractNick(nick) == nick && ExtractNick(nick + "!" + rest) == nick
  {
    NoBang(nick);
    forall i | 0 <= i < |nick| ensures (nick + "!")[i..][..1] != "!" {
      assert (nick + "!")[i..][..1][0] == nick[i];
    }
    FindAfter(nick, "!", rest);
  }

  /**
    A tagged line is a message exactly if it is a PRIVMSG or a NOTICE with a text. Its number is that of the sequence
    tag, if there is one that reads as a number; it is a replay if the tag says so or a batch is named.
   */
  lemma {:induction false} MessageIff(tags: seq<Tag>, sender: string, verb: string, channel: string, body: string)
    requires tags != [] && WellKeyed(tags)
    requires NoSpace(sender) && '!' !in sender && PlainToken(verb) && Upper(verb) == verb && PlainToken(channel)
    ensures var line := FormatLine(tags, sender, verb, channel, body); var m := ReadMessage(line);
      && (m.Some? <==> (verb == "PRIVMSG" || verb == "NOTICE") && body != "")
      && (m.Some? ==>
            && m.value.sender == sender && m.value.channel == channel && m.value.content == body
            && m.value.raw == line
            && (m.value.isReplay <==> Tag("replay", "1") in tags || exists t :: t in tags && t.key == "batch")
            && (forall v :: Tag("seq", v) in tags ==> m.value.seqNo == ParseInt(v))
            && ((forall t :: t in tags ==> t.key != "seq") ==> m.value.seqNo.None?))
  {
    hide WellKeyed, NoSpace, PlainToken, FormatLine, ParseLine, Upper, ParseInt;
    LineRoundTrip(tags, sender, verb, channel, body);
    NickBeforeBang(sender, "");
    forall k ensures k in TagMap(tags) <==> exists t :: t in tags && t.key == k {
      KeyIffTag(tags, k);
    }
    forall t | t in tags ensures t.key in TagMap(tags) && TagMap(tags)[t.key] == t.value {
      TagIsKept(tags, t);
    }
    hide TagMap, ExtractNick;
  }

  lemma {:induction false} KeyIffTag(tags: seq<Tag>, k: string)
    ensures k in TagMap(tags) <==> exists t :: t in tags && t.key == k
  {
    TagMapKeys(tags);
    hide TagMap;
    if t :| t in tags && t.key == k {
      var i :| 0 <= i < |tags| && tags[i] == t;
    }
  }

  lemma {:induction false} TagIsKept(tags: seq<Tag>, t: Tag)
    requires WellKeyed(tags) && t in tags
    ensures t.key in TagMap(tags) && TagMap(tags)[t.key] == t.value
  {
    var i :| 0 <= i < |tags| && tags[i] == t;
    hide TagMap;
    TagMapAt(tags, i);
  }

  // ----- Escapes the server does not write -----

  /** A backslash before any other character stands for that character, and alone at the end for itself. */
  lemma {:induction false} OtherEscapes(c: char, tail: string)
    requires c !in ":srn"
    ensures Unescape("\\" + [c] + tail) == [c] + Unescape(tail)
    ensures Unescape("\\") == "\\"
  {
    assert ":srn"[0] == ':' && ":srn"[1] == 's' && ":srn"[2] == 'r' && ":srn"[3] == 'n';
    UnescapePair(c, tail);
  }

  /** A part without '=' is a tag without a value, and a later tag of the same key wins. */
  lemma {:induction false} BareAndRepeatedTags(parts: seq<string>, part: string)
    ensures '=' !in part ==> PartTag(part) == Tag(part, "")
    ensures var tag, r := PartTag(part), ReadParts(parts + [part]);
      && r.Keys == ReadParts(parts).Keys + {tag.key} && r[tag.key] == tag.value
      && forall k :: k in ReadParts(parts) && k != tag.key ==> r[k] == ReadParts(parts)[k]
  {
    assert Front(parts + [part]) == parts;
    if '=' !in part {
      NoEquals(part);
    }
  }

  lemma {:induction false} NoEquals(s: string)
    requires '=' !in s
    ensures Find(s, "=").None?
  {
    if s != "" {
      NoEquals(s[1..]);
      assert s[..1][0] == s[0];
    }
  }
}

/** The id the daemon deduplicates by, searched for in the raw line (clients/python/aircd/daemon.py). */
module DeliveryIds {
  import opened Prelude
  import opened Text
  import opened Tags
  import C = ClientParser

  const MARK := "msg-id="

  predicate InId(c: char) {
    !IsSpace(c) && c != ';'
  }

  function IdRun(s: string): string {
    if s == "" || !InId(s[0]) then "" else [s[0]] + IdRun(s[1..])
  }

  /** The first place where the mark is followed by at least one id character; empty when there is none. */
  function FindMsgId(raw: string): string {
    if raw == "" then ""
    else
      var id := if MARK <= raw then IdRun(raw[|MARK|..]) else "";
      if id != "" then id else FindMsgId(raw[1..])
  }

  predicate PlainId(id: string) {
    id != "" && forall i :: 0 <= i < |id| ==> InId(id[i]) && id[i] != '\\'
  }

  /** The mark stands at position `i` and an id character follows it. */
  predicate MarkedAt(raw: string, i: nat) {
    i + 7 < |raw| && raw[i..i + 7] == "msg-id=" && InId(raw[i + 7])
  }

  /** Whether the line has an id here depends on the mark alone. */
  lemma {:induction false} IdHere(raw: string)
    ensures (MARK <= raw && IdRun(raw[|MARK|..]) != "") <==> MarkedAt(raw, 0)
  {
    if 7 <= |raw| {
      assert MARK <= raw <==> raw[0..7] == "msg-id=";
    }
  }

  lemma {:induction false} MarkedLater(raw: string, j: nat)
    requires raw != ""
    ensures MarkedAt(raw[1..], j) <==> MarkedAt(raw, j + 1)
  {
    if j + 8 < |raw| {
      assert raw[1..][j..j + 7] == raw[j + 1..j + 8];
    }
  }

  lemma {:induction false} IdRunIsLongest(s: string)
    ensures var run := IdRun(s);
      && |run| <= |s| && run == s[..|run|] && (forall c :: c in run ==> InId(c))
      && (|run| < |s| ==> !InId(s[|run|]))
  {
    if s != "" && InId(s[0]) {
      IdRunIsLongest(s[1..]);
    }
  }

  /** The id is the longest run of id characters from position `at`. */
  ghost predicate LongestRun(raw: string, at: nat, id: string) {
    && 0 < |id| <= |raw| - at && id == raw[at..at + |id|]
    && (forall c :: c in id ==> InId(c))
    && (at + |id| < |raw| ==> !InId(raw[at + |id|]))
  }

  lemma {:induction false} LaterRun(raw: string, at: nat, id: string)
    requires raw != "" && LongestRun(raw[1..], at, id)
    ensures LongestRun(raw, at + 1, id)
  {
    assert raw[1..][at..at + |id|] == raw[at + 1..at + 1 + |id|];
  }

  lemma {:induction false} RunHere(raw: string)
    requires MarkedAt(raw, 0)
    ensures LongestRun(raw, 7, IdRun(raw[7..]))
  {
    var s := raw[7..];
    IdRunIsLongest(s);
    assert s[0] == raw[7] && IdRun(s) != "";
    hide IdRun, MarkedAt;
    assert raw[7..7 + |IdRun(s)|] == s[..|IdRun(s)|];
  }

  /** The leftmost mark with an id behind it decides: the id is the longest run of id characters from there. */
  lemma {:induction false} FirstMarkDecides(raw: string, i: nat)
    requires MarkedAt(raw, i) && forall j: nat :: j < i ==> !MarkedAt(raw, j)
    ensures LongestRun(raw, i + 7, FindMsgId(raw))
  {
    IdHere(raw);
    assert raw != "";
    hide MarkedAt, IdRun, InId, LongestRun;
    if i == 0 {
      RunHere(raw);
    } else {
      forall j: nat | j < i - 1 ensures !MarkedAt(raw[1..], j) {
        MarkedLater(raw, j);
      }
      MarkedLater(raw, i - 1);
      FirstMarkDecides(raw[1..], i - 1);
      LaterRun(raw, i + 6, FindMsgId(raw[1..]));
    }
  }

  /** A line without such a mark has no id, and only such a line. */
  lemma {:induction false} NoIdIffUnmarked(raw: string)
    ensures FindMsgId(raw) == "" <==> forall i: nat :: !MarkedAt(raw, i)
  {
    if raw != "" {
      NoIdIffUnmarked(raw[1..]);
      IdHere(raw);
      hide MarkedAt, IdRun;
      forall j: nat ensures MarkedAt(raw[1..], j) <==> MarkedAt(raw, j + 1) {
        MarkedLater(raw, j);
      }
      if i: nat :| MarkedAt(raw, i) {
        assert i > 0 ==> MarkedAt(raw[1..], i - 1);
      }
    }
  }

  lemma {:induction false} SkipsUnmarked(a: string, raw: string)
    requires 'm' !in a
    ensures FindMsgId(a + raw) == FindMsgId(raw)
  {
    if a == "" {
      assert a + raw == raw;
    } else {
      var all := a + raw;
      assert all[0] != MARK[0];
      assert all[1..] == a[1..] + raw;
      SkipsUnmarked(a[1..], raw);
    }
  }

  lemma {:induction false} PlainEscape(id: string)
    requires forall i :: 0 <= i < |id| ==> InId(id[i]) && id[i] != '\\'
    ensures Escape(id) == id
  {
    if id != "" {
      PlainEscape(id[1..]);
    }
  }

  lemma {:induction false} IdRunOf(id: string, rest: string)
    requires forall i :: 0 <= i < |id| ==> InId(id[i])
    requires rest == "" || !InId(rest[0])
    ensures IdRun(id + rest) == id
  {
    if id == "" {
      assert id + rest == rest;
    } else {
      assert (id + rest)[1..] == id[1..] + rest;
      IdRunOf(id[1..], rest);
    }
  }

  lemma {:induction false} MarkIsFound(id: string, rest: string)
    requires PlainId(id) && (rest == "" || !InId(rest[0]))
    ensures FindMsgId(MARK + id + rest) == id
  {
    var raw := MARK + id + rest;
    assert raw[|MARK|..] == id + rest;
    IdRunOf(id, rest);
  }

  lemma {:induction false} DigitsOnly(s: string)
    requires ParseDigits(s).Some?
    ensures 'm' !in s
  {
    if s != "" {
      DigitsOnly(Front(s));
      assert s == Front(s) + [Last(s)];
    }
  }

  lemma {:induction false} NumberIsUnmarked(n: int)
    ensures 'm' !in PrintInt(n)
  {
    ParseIntOfPrint(n);
    if n < 0 {
      DigitsOnly(PrintInt(n)[1..]);
    } else {
      DigitsOnly(PrintInt(n));
    }
  }

  /** The joined tags after the first two, with what follows them on the line. */
  ghost function AfterTwo(tags: seq<Tag>, rest: string): string
    requires |tags| >= 2
  {
    if |tags| == 2 then rest else ";" + JoinTags(tags[2..]) + rest
  }

  lemma {:induction false} MoveRest(first: string, second: string, later: string, rest: string)
    ensures "@" + (first + ";" + (second + later)) + rest == "@" + first + ";" + (second + (later + rest))
  {
  }

  lemma {:induction false} FirstTwoTags(tags: seq<Tag>, rest: string)
    requires |tags| >= 2
    ensures FormatTags(tags) + rest == "@" + TagText(tags[0]) + ";" + (TagText(tags[1]) + AfterTwo(tags, rest))
  {
    var first, second, others := TagText(tags[0]), TagText(tags[1]), tags[1..];
    assert FormatTags(tags) == "@" + (first + ";" + JoinTags(others));
    if |tags| == 2 {
      assert JoinTags(others) == second;
      hide *;
      assert second + "" == second;
      MoveRest(first, second, "", rest);
      assert "" + rest == rest;
    } else {
      assert others[1..] == tags[2..];
      var later := ";" + JoinTags(tags[2..]);
      assert JoinTags(others) == second + ";" + JoinTags(tags[2..]);
      assert AfterTwo(tags, rest) == later + rest;
      hide *;
      assert second + ";" + JoinTags(tags[2..]) == second + later;
      MoveRest(first, second, later, rest);
    }
  }

  lemma {:induction false} FirstTexts(seqNo: int, msgId: string)
    requires PlainId(msgId)
    ensures "@" + TagText(Tag("seq", PrintInt(seqNo))) + ";" == "@seq=" + PrintInt(seqNo) + ";"
    ensures TagText(Tag("msg-id", msgId)) == MARK + msgId
  {
    NumberIsEscaped(seqNo);
    PlainEscape(msgId);
    var n := PrintInt(seqNo);
    assert TagText(Tag("seq", n)) == "seq" + "=" + n;
    assert TagText(Tag("msg-id", msgId)) == "msg-id" + "=" + msgId;
    Literals(n);
    hide *;
  }

  lemma {:induction false} Literals(n: string)
    ensures "@" + ("seq" + "=" + n) + ";" == "@seq=" + n + ";"
    ensures "msg-id" + "=" == MARK
  {
    assert "@" + ("seq" + "=" + n) == ("@" + ("seq" + "=")) + n;
    assert "@" + ("seq" + "=") == "@seq=";
  }

  lemma {:induction false} TailStarts(tags: seq<Tag>, rest: string)
    requires |tags| >= 2 && rest != "" && !InId(rest[0])
    ensures AfterTwo(tags, rest) != "" && !InId(AfterTwo(tags, rest)[0])
  {
  }

  lemma {:induction false} NumberIsEscaped(n: int)
    ensures Escape(PrintInt(n)) == PrintInt(n)
  {
    ParseIntOfPrint(n);
    if n < 0 {
      DigitsArePlain(PrintInt(n)[1..]);
    } else {
      DigitsArePlain(PrintInt(n));
    }
    PlainEscape(PrintInt(n));
  }

  lemma {:induction false} DigitsArePlain(s: string)
    requires ParseDigits(s).Some?
    ensures forall i :: 0 <= i < |s| ==> InId(s[i]) && s[i] != '\\'
  {
    if s != "" {
      DigitsArePlain(Front(s));
    }
  }

  lemma {:induction false} KeyInPieces(lead: string, msgId: string, tail: string)
    requires 'm' !in lead && PlainId(msgId) && (tail == "" || !InId(tail[0]))
    ensures FindMsgId(lead + (MARK + msgId + tail)) == msgId
  {
    SkipsUnmarked(lead, MARK + msgId + tail);
    MarkIsFound(msgId, tail);
  }

  /**
    Whatever the sender, the text and the later tags contain, the daemon finds in a broadcast line exactly the id the
    server gave the message; so the live line and every replay of it carry the same key.
   */
  lemma {:induction false} KeyIsTheServersId(
      tags: seq<Tag>, seqNo: int, msgId: string, nick: string, verb: string, channel: string, body: string)
    requires PlainId(msgId)
    requires |tags| >= 2 && tags[0] == Tag("seq", PrintInt(seqNo)) && tags[1] == Tag("msg-id", msgId)
    ensures FindMsgId(C.FormatLine(tags, nick, verb, channel, body)) == msgId
  {
    var rest := " " + (":" + nick + " " + (verb + " " + channel + " :" + body));
    assert C.FormatLine(tags, nick, verb, channel, body) == FormatTags(tags) + rest by { LineRest(tags, rest); }
    assert rest[0] == ' ' && !InId(rest[0]);
    hide *;
    KeyBefore(tags, seqNo, msgId, rest);
  }

  lemma {:induction false} LineRest(tags: seq<Tag>, rest: string)
    requires rest != "" && rest[0] == ' '
    ensures FormatTags(tags) + rest == FormatTags(tags) + " " + rest[1..]
  {
    hide FormatTags;
    assert rest == " " + rest[1..];
  }

  lemma {:induction false} KeyBefore(tags: seq<Tag>, seqNo: int, msgId: string, rest: string)
    requires PlainId(msgId) && rest != "" && !InId(rest[0])
    requires |tags| >= 2 && tags[0] == Tag("seq", PrintInt(seqNo)) && tags[1] == Tag("msg-id", msgId)
    ensures FindMsgId(FormatTags(tags) + rest) == msgId
  {
    hide FindMsgId, FormatTags, TagText, AfterTwo, InId, PlainId;
    FirstTwoTags(tags, rest);
    FirstTexts(seqNo, msgId);
    NumberIsUnmarked(seqNo);
    TailStarts(tags, rest);
    LeadIsUnmarked(PrintInt(seqNo));
    KeyInPieces("@seq=" + PrintInt(seqNo) + ";", msgId, AfterTwo(tags, rest));
  }

  lemma {:induction false} LeadIsUnmarked(n: string)
    requires 'm' !in n
    ensures 'm' !in "@seq=" + n + ";"
  {
  }
}

/**
  Message tags on the wire: the server's printer (src/server.rs) and the client's unescaper
  (clients/python/aircd/client.py), after "Escaping values" in the IRCv3 Message Tags specification.
 */
module Tags {
  import opened Prelude
  import opened Text

  // ----- Escaping -----

  function EscapeChar(c: char): string {
    if c == ';' then "\\:"
    else if c == ' ' then "\\s"
    else if c == '\\' then "\\\\"
    else if c == '\r' then "\\r"
    else if c == '\n' then "\\n"
    else [c]
  }

  ghost function Escape(value: string): string {
    if value == "" then "" else EscapeChar(value[0]) + Escape(value[1..])
  }

  method EscapeTagValue(value: string) returns (escaped: string)
    ensures escaped == Escape(value)
  {
    escaped := "";
    var i := 0;
    while i < |value|
      invariant 0 <= i <= |value|
      invariant escaped + Escape(value[i..]) == Escape(value)
    {
      var character := value[i];
      ghost var before, rest := escaped, Escape(value[i + 1..]);
      assert value[i..][0] == character && value[i..][1..] == value[i + 1..];
      assert before + (EscapeChar(character) + rest) == (before + EscapeChar(character)) + rest;
      if character == ';' {
        escaped := escaped + "\\:";
      } else if character == ' ' {
        escaped := escaped + "\\s";
      } else if character == '\\' {
        escaped := escaped + "\\\\";
      } else if character == '\r' {
        escaped := escaped + "\\r";
      } else if character == '\n' {
        escaped := escaped + "\\n";
      } else {
        escaped := escaped + [character];
      }
      assert escaped == before + EscapeChar(character);
      i := i + 1;
    }
  }

  function UnescapeChar(c: char): char {
    if c == ':' then ';'
    else if c == 's' then ' '
    else if c == 'r' then '\r'
    else if c == 'n' then '\n'
    else c
  }

  ghost function Unescape(value: string): string {
    if value == "" then ""
    else if value[0] != '\\' then [value[0]] + Unescape(value[1..])
    else if |value| == 1 then "\\"
    else [UnescapeChar(value[1])] + Unescape(value[2..])
  }

  method UnescapeTagValue(value: string) returns (output: string)
    ensures output == Unescape(value)
  {
    output := "";
    var index := 0;
    while index < |value|
      invariant 0 <= index <= |value|
      invariant output + Unescape(value[index..]) == Unescape(value)
      decreases |value| - index
    {
      hide UnescapeChar;
      var character := value[index];
      assert value[index..] == [character] + value[index + 1..];
      if character != '\\' {
        UnescapePlain(character, value[index + 1..]);
        output := output + [character];
        index := index + 1;
        continue;
      }
      index := index + 1;
      if index >= |value| {
        output := output + "\\";
        break;
      }
      assert value[index - 1..] == "\\" + [value[index]] + value[index + 1..];
      UnescapePair(value[index], value[index + 1..]);
      output := output + [UnescapeChar(value[index])];
      index := index + 1;
    }
  }

  lemma {:induction false} UnescapeOne(c: char, tail: string)
    ensures Unescape(EscapeChar(c) + tail) == [c] + Unescape(tail)
  {
    var head := EscapeChar(c);
    if |head| == 1 {
      assert (head + tail)[1..] == tail;
    } else {
      assert (head + tail)[2..] == tail;
    }
  }

  lemma {:induction false} UnescapePlain(c: char, tail: string)
    requires c != '\\'
    ensures Unescape([c] + tail) == [c] + Unescape(tail)
  {
    assert ([c] + tail)[1..] == tail;
  }

  lemma {:induction false} UnescapePair(c: char, tail: string)
    ensures Unescape("\\" + [c] + tail) == [UnescapeChar(c)] + Unescape(tail)
  {
    assert ("\\" + [c] + tail)[2..] == tail;
  }

  /** Unescaping undoes escaping, for every value. */
  lemma {:induction false} UnescapeEscape(value: string)
    ensures Unescape(Escape(value)) == value
  {
    if value != "" {
      UnescapeEscape(value[1..]);
      UnescapeOne(value[0], Escape(value[1..]));
    }
  }

  /** An escaped value holds nothing that separates tags, fields or lines. */
  lemma {:induction false} EscapeIsClean(value: string)
    ensures ';' !in Escape(value) && ' ' !in Escape(value) && '\r' !in Escape(value) && '\n' !in Escape(value)
  {
    if value != "" {
      EscapeIsClean(value[1..]);
    }
  }

  // ----- Tag lists -----

  datatype Tag = Tag(key: string, value: string)

  ghost function TagText(tag: Tag): string {
    tag.key + "=" + Escape(tag.value)
  }

  ghost function JoinTags(tags: seq<Tag>): string
    requires tags != []
  {
    if |tags| == 1 then TagText(tags[0]) else TagText(tags[0]) + ";" + JoinTags(tags[1..])
  }

  ghost function FormatTags(tags: seq<Tag>): string {
    if tags == [] then "@" else "@" + JoinTags(tags)
  }

  /** Keys are distinct, non-empty and free of '=', ';' and blank. */
  ghost predicate WellKeyed(tags: seq<Tag>) {
    && (forall i :: 0 <= i < |tags| ==>
          tags[i].key != "" && '=' !in tags[i].key && ';' !in tags[i].key && ' ' !in tags[i].key)
    && (forall i, j :: 0 <= i < j < |tags| ==> tags[i].key != tags[j].key)
  }

  function TagMap(tags: seq<Tag>): map<string, string> {
    if tags == [] then map[] else TagMap(Front(tags))[Last(tags).key := Last(tags).value]
  }

  // ----- Reading a tag list -----

  /** One ;-separated part: a key and the unescaped text after its first '=', or a bare key. */
  ghost function PartTag(part: string): Tag {
    var i := Find(part, "=");
    if i.Some? then Tag(part[..i.value], Unescape(part[i.value + 1..])) else Tag(part, "")
  }

  ghost function ReadParts(parts: seq<string>): map<string, string> {
    if parts == [] then map[]
    else
      var tag := PartTag(Last(parts));
      ReadParts(Front(parts))[tag.key := tag.value]
  }

  method ReadTags(text: string) returns (tags: map<string, string>)
    ensures tags == ReadParts(Split(text, ';'))
  {
    var parts := Split(text, ';');
    tags := map[];
    var i := 0;
    while i < |parts|
      invariant 0 <= i <= |parts|
      invariant tags == ReadParts(parts[..i])
    {
      var part := parts[i];
      assert Front(parts[..i + 1]) == parts[..i] && Last(parts[..i + 1]) == part;
      var eq := Find(part, "=");
      if eq.Some? {
        var v := UnescapeTagValue(part[eq.value + 1..]);
        tags := tags[part[..eq.value] := v];
      } else {
        tags := tags[part := ""];
      }
      i := i + 1;
    }
    assert parts[..i] == parts;
  }

  // ----- Round trip -----

  lemma {:induction false} PartOfTag(tag: Tag)
    requires '=' !in tag.key
    ensures PartTag(TagText(tag)) == tag
  {
    var a, b := tag.key, Escape(tag.value);
    forall i | 0 <= i < |a| ensures (a + "=")[i..][..1] != "=" {
      assert (a + "=")[i..][..1][0] == a[i];
    }
    FindAfter(a, "=", b);
    UnescapeEscape(tag.value);
    assert (a + "=" + b)[..|a|] == a && (a + "=" + b)[|a| + 1..] == b;
  }

  lemma {:induction false} TagTextIsClean(tag: Tag)
    requires ';' !in tag.key && ' ' !in tag.key
    ensures ';' !in TagText(tag) && ' ' !in TagText(tag)
  {
    EscapeIsClean(tag.value);
  }

  ghost function Texts(tags: seq<Tag>): seq<string> {
    if tags == [] then [] else [TagText(tags[0])] + Texts(tags[1..])
  }

  lemma {:induction false} SplitOfJoin(tags: seq<Tag>)
    requires tags != [] && WellKeyed(tags)
    ensures Split(JoinTags(tags), ';') == Texts(tags)
    ensures ' ' !in JoinTags(tags)
  {
    TagTextIsClean(tags[0]);
    if |tags| == 1 {
      SplitSegment(TagText(tags[0]), ';', "");
      assert Texts(tags[1..]) == [];
    } else {
      SplitOfJoin(tags[1..]);
      SplitSegment(TagText(tags[0]), ';', JoinTags(tags[1..]));
    }
  }

  lemma {:induction false} TextsAt(tags: seq<Tag>)
    ensures |Texts(tags)| == |tags|
    ensures forall i :: 0 <= i < |tags| ==> Texts(tags)[i] == TagText(tags[i])
  {
    if tags != [] {
      TextsAt(tags[1..]);
    }
  }

  lemma {:induction false} ReadOfTexts(tags: seq<Tag>, parts: seq<string>)
    requires |parts| == |tags| && forall i :: 0 <= i < |tags| ==> parts[i] == TagText(tags[i])
    requires forall i :: 0 <= i < |tags| ==> '=' !in tags[i].key
    ensures ReadParts(parts) == TagMap(tags)
  {
    if tags != [] {
      ReadOfTexts(Front(tags), Front(parts));
      PartOfTag(Last(tags));
    }
  }

  /** A printed tag list reads back as its map, whatever the values are. */
  lemma {:induction false} TagsRoundTrip(tags: seq<Tag>)
    requires tags != [] && WellKeyed(tags)
    ensures ReadParts(Split(FormatTags(tags)[1..], ';')) == TagMap(tags)
    ensures ' ' !in FormatTags(tags)
  {
    SplitOfJoin(tags);
    TextsAt(tags);
    ReadOfTexts(tags, Texts(tags));
    assert FormatTags(tags)[1..] == JoinTags(tags);
  }

  lemma {:induction false} TagMapAt(tags: seq<Tag>, i: nat)
    requires i < |tags| && forall a, b :: 0 <= a < b < |tags| ==> tags[a].key != tags[b].key
    ensures tags[i].key in TagMap(tags) && TagMap(tags)[tags[i].key] == tags[i].value
  {
    if i < |tags| - 1 {
      TagMapAt(Front(tags), i);
      assert tags[i].key != tags[|tags| - 1].key;
    }
  }
}

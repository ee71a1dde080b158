/** The string operations both ends of the wire use: whitespace, searching, splitting, decimal numbers. */
module Text {
  import opened Prelude

  /** One whitespace set for both languages: the ASCII one. */
  predicate IsSpace(c: char) {
    c == ' ' || c == '\t' || c == '\n' || c == '\r' || c == '\U{000B}' || c == '\U{000C}'
  }

  predicate NoSpace(s: string) {
    forall i :: 0 <= i < |s| ==> !IsSpace(s[i])
  }

  /** A non-empty token without whitespace. */
  predicate Word(s: string) {
    s != "" && NoSpace(s)
  }

  predicate EndsToken(rest: string) {
    rest == "" || IsSpace(rest[0])
  }

  function SkipSpaces(s: string): string {
    if s != "" && IsSpace(s[0]) then SkipSpaces(s[1..]) else s
  }

  /** The longest prefix without whitespace. */
  function Token(s: string): (t: string)
    ensures t <= s
  {
    if s == "" || IsSpace(s[0]) then "" else [s[0]] + Token(s[1..])
  }

  function TrimEnd(s: string): string {
    if s != "" && IsSpace(Last(s)) then TrimEnd(Front(s)) else s
  }

  function Trim(s: string): string {
    TrimEnd(SkipSpaces(s))
  }

  /** Split on runs of whitespace, dropping empty pieces. */
  function Words(s: string): seq<string>
    decreases |s|
  {
    if s == "" then []
    else if IsSpace(s[0]) then Words(s[1..])
    else [Token(s)] + (var t := Token(s); TokenNonEmpty(s); Words(s[|t|..]))
  }

  /** Position of the first occurrence of `sep`, or None. */
  function Find(s: string, sep: string): (r: Option<nat>)
    ensures r.Some? ==> r.value + |sep| <= |s| && s[r.value..r.value + |sep|] == sep
  {
    if |s| < |sep| then None
    else if s[..|sep|] == sep then Some(0)
    else if s == "" then None
    else
      var r := Find(s[1..], sep);
      if r.None? then None else Some(r.value + 1)
  }

  /** Pieces of `s` between occurrences of `c`; always at least one. */
  function Split(s: string, c: char): (parts: seq<string>)
    ensures parts != []
  {
    if s == "" then [""]
    else
      var rest := Split(s[1..], c);
      if s[0] == c then [""] + rest else [[s[0]] + rest[0]] + rest[1..]
  }

  /** The text up to the first newline. */
  function LineOf(s: string): string {
    if s == "" || s[0] == '\n' then "" else [s[0]] + LineOf(s[1..])
  }

  // ----- Facts -----

  lemma {:induction false} TokenNonEmpty(s: string)
    requires s != "" && !IsSpace(s[0])
    ensures Token(s) != ""
  {
  }

  lemma {:induction false} TokenOfWord(w: string, rest: string)
    requires NoSpace(w) && EndsToken(rest)
    ensures Token(w + rest) == w
  {
    if w != "" {
      assert (w + rest)[1..] == w[1..] + rest;
      TokenOfWord(w[1..], rest);
    } else {
      assert w + rest == rest;
    }
  }

  lemma {:induction false} SkipNone(s: string)
    requires s == "" || !IsSpace(s[0])
    ensures SkipSpaces(s) == s
  {
  }

  /** Trailing whitespace goes up to the last character that is none. */
  lemma {:induction false} TrimEndOfTail(a: string, b: string)
    requires a != "" && !IsSpace(Last(a))
    ensures TrimEnd(a + b) == a + TrimEnd(b)
  {
    if b == "" {
      assert a + b == a;
    } else {
      assert Last(a + b) == Last(b) && Front(a + b) == a + Front(b);
      if IsSpace(Last(b)) {
        TrimEndOfTail(a, Front(b));
      }
    }
  }

  lemma {:induction false} TrimEndOfWord(s: string)
    requires s == "" || !IsSpace(Last(s))
    ensures TrimEnd(s) == s
  {
  }

  lemma {:induction false} WordsCons(w: string, rest: string)
    requires Word(w) && EndsToken(rest)
    ensures Words(w + rest) == [w] + Words(rest)
  {
    TokenOfWord(w, rest);
    assert (w + rest)[|w|..] == rest;
    assert !IsSpace((w + rest)[0]);
  }

  lemma {:induction false} WordsSpace(rest: string)
    ensures Words(" " + rest) == Words(rest)
  {
    assert (" " + rest)[1..] == rest;
  }

  /** The first occurrence of `sep` in `a + sep + b`, when no earlier one overlaps the end of `a`. */
  lemma {:induction false} FindAfter(a: string, sep: string, b: string)
    requires sep != ""
    requires forall i :: 0 <= i < |a| ==> (a + sep)[i..][..|sep|] != sep
    ensures Find(a + sep + b, sep) == Some(|a|)
  {
    var s := a + sep + b;
    if a == "" {
      assert s[..|sep|] == sep;
    } else {
      assert s[1..] == a[1..] + sep + b;
      assert s[..|sep|] == (a + sep)[0..][..|sep|];
      forall i | 0 <= i < |a[1..]| ensures (a[1..] + sep)[i..][..|sep|] != sep {
        assert (a[1..] + sep)[i..] == (a + sep)[i + 1..];
      }
      FindAfter(a[1..], sep, b);
    }
  }

  lemma {:induction false} SplitSegment(a: string, c: char, b: string)
    requires c !in a
    ensures Split(a + [c] + b, c) == [a] + Split(b, c)
    ensures Split(a, c) == [a]
  {
    if a == "" {
      assert (a + [c] + b)[1..] == b;
    } else {
      assert (a + [c] + b)[1..] == a[1..] + [c] + b;
      SplitSegment(a[1..], c, b);
      assert [a[0]] + a[1..] == a;
    }
  }

  lemma {:induction false} LineOfWhole(s: string)
    requires '\n' !in s
    ensures LineOf(s) == s
  {
    if s != "" {
      LineOfWhole(s[1..]);
    }
  }

  // ----- Decimal numbers -----

  function Digit(n: nat): char
    requires n < 10
  {
    ['0', '1', '2', '3', '4', '5', '6', '7', '8', '9'][n]
  }

  predicate IsDigit(c: char) {
    '0' <= c <= '9'
  }

  function DigitValue(c: char): nat
    requires IsDigit(c)
  {
    c as int - '0' as int
  }

  function PrintNat(n: nat): (s: string)
    ensures s != "" && forall i :: 0 <= i < |s| ==> IsDigit(s[i])
  {
    if n < 10 then [Digit(n)] else PrintNat(n / 10) + [Digit(n % 10)]
  }

  /** str(n), n.to_string(). */
  function PrintInt(n: int): string {
    if n < 0 then "-" + PrintNat(-n) else PrintNat(n)
  }

  function ParseDigits(s: string): Option<nat> {
    if s == "" then Some(0)
    else
      var rest := ParseDigits(Front(s));
      if rest.Some? && IsDigit(Last(s)) then Some(rest.value * 10 + DigitValue(Last(s))) else None
  }

  /** An optional sign, then at least one digit. */
  function ParseInt(s: string): Option<int> {
    if s == "" then None
    else if s[0] == '-' then
      var n := ParseDigits(s[1..]);
      if |s| > 1 && n.Some? then Some(0 - n.value as int) else None
    else
      var digits := if s[0] == '+' then s[1..] else s;
      var n := ParseDigits(digits);
      if digits != "" && n.Some? then Some(n.value as int) else None
  }

  lemma {:induction false} ParseDigitsOfPrint(n: nat)
    ensures ParseDigits(PrintNat(n)) == Some(n)
  {
    if n < 10 {
      assert Front([Digit(n)]) == "";
    } else {
      ParseDigitsOfPrint(n / 10);
      assert Front(PrintNat(n)) == PrintNat(n / 10);
    }
  }

  lemma {:induction false} DigitsAreWord(s: string)
    requires s != "" && forall i :: 0 <= i < |s| ==> IsDigit(s[i])
    ensures Word(s) && Word("-" + s)
  {
  }

  lemma {:induction false} ParseSigned(s: string, n: nat)
    requires s != "" && IsDigit(s[0]) && ParseDigits(s) == Some(n)
    ensures ParseInt(s) == Some(n as int) && ParseInt("-" + s) == Some(0 - n as int)
  {
    hide ParseDigits;
    assert ("-" + s)[1..] == s;
  }

  /** Printing a number and reading it back gives the number. */
  lemma {:induction false} ParseIntOfPrint(n: int)
    ensures ParseInt(PrintInt(n)) == Some(n)
    ensures Word(PrintInt(n))
  {
    hide PrintNat, ParseDigits, ParseInt, Word;
    var size := if n < 0 then -n else n;
    ParseDigitsOfPrint(size);
    DigitsAreWord(PrintNat(size));
    ParseSigned(PrintNat(size), size);
  }

  // ----- Fixed-field text -----

  /** The pattern \s+lit(\S+): whitespace, a literal, and the rest of the token it starts. */
  function Field(s: string, lit: string): Option<(string, string)> {
    var t := SkipSpaces(s);
    var run := Token(t);
    if s != "" && IsSpace(s[0]) && lit < run then Some((run[|lit|..], t[|run|..])) else None
  }

  /** A token after one blank. */
  function Spaced(w: string, rest: string): (s: string)
    ensures EndsToken(s)
  {
    " " + w + rest
  }

  lemma {:induction false} FieldOf(lit: string, w: string, rest: string)
    requires NoSpace(lit) && Word(w) && EndsToken(rest)
    ensures Field(Spaced(lit + w, rest), lit) == Some((w, rest))
  {
    var s, body := Spaced(lit + w, rest), lit + w + rest;
    assert s[1..] == body;
    assert !IsSpace(body[0]) by { assert body[0] == if lit == "" then w[0] else lit[0]; }
    assert SkipSpaces(s) == body;
    TokenOfWord(lit + w, rest);
    assert (lit + w)[|lit|..] == w && body[|lit + w|..] == rest;
  }

  lemma {:induction false} SpacedWords(w: string, rest: string)
    requires Word(w) && EndsToken(rest)
    ensures Words(Spaced(w, rest)) == [w] + Words(rest)
  {
    assert Spaced(w, rest) == " " + (w + rest);
    WordsSpace(w + rest);
    WordsCons(w, rest);
  }

  lemma {:induction false} TokenField(w: string, rest: string)
    requires Word(w) && EndsToken(rest)
    ensures Field(Spaced(w, rest), "") == Some((w, rest))
  {
    assert "" + w == w;
    FieldOf("", w, rest);
  }

  /** A literal at the start of the text. */
  function AfterLiteral(s: string, lit: string): Option<string> {
    if lit <= s then Some(s[|lit|..]) else None
  }
}

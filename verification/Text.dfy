/** Strings as sequences of bytes, one character each, with ASCII white space and letter case. */
module Text {
  import opened Options

  const CRLF := "\r\n"

  predicate Space(c: char) {
    c == ' ' || c == '\t' || c == '\n' || c == '\r' || c == 11 as char || c == 12 as char
  }

  function Lower(c: char): char {
    if 'A' <= c <= 'Z' then 'a' + (c - 'A') else c
  }

  function Upper(c: char): char {
    if 'a' <= c <= 'z' then 'A' + (c - 'a') else c
  }

  function LowerAll(s: string): (r: string)
    ensures |r| == |s|
  {
    seq(|s|, i requires 0 <= i < |s| => Lower(s[i]))
  }

  function UpperAll(s: string): (r: string)
    ensures |r| == |s|
  {
    seq(|s|, i requires 0 <= i < |s| => Upper(s[i]))
  }

  function TrimLeft(s: string): string {
    if s != "" && Space(s[0]) then TrimLeft(s[1..]) else s
  }

  function TrimRight(s: string): string {
    if s != "" && Space(s[|s| - 1]) then TrimRight(s[..|s| - 1]) else s
  }

  function Trim(s: string): string {
    TrimRight(TrimLeft(s))
  }

  predicate Trimmed(s: string) {
    s == "" || (!Space(s[0]) && !Space(s[|s| - 1]))
  }

  lemma {:induction false} TrimRightIs(s: string)
    ensures TrimRight(s) <= s
    ensures TrimRight(s) != "" ==> !Space(TrimRight(s)[|TrimRight(s)| - 1])
  {
    if s != "" && Space(s[|s| - 1]) {
      TrimRightIs(s[..|s| - 1]);
    }
  }

  lemma {:induction false} TrimLeftIs(s: string)
    ensures |TrimLeft(s)| <= |s| && TrimLeft(s) == s[|s| - |TrimLeft(s)|..]
    ensures TrimLeft(s) != "" ==> !Space(TrimLeft(s)[0])
  {
    if s != "" && Space(s[0]) {
      TrimLeftIs(s[1..]);
    }
  }

  /** What Trim leaves is trimmed, and made of characters of the string. */
  lemma TrimIs(s: string)
    ensures Trimmed(Trim(s))
    ensures forall c :: c in Trim(s) ==> c in s
  {
    TrimLeftIs(s);
    TrimRightIs(TrimLeft(s));
    var t := TrimLeft(s);
    forall c | c in Trim(s)
      ensures c in s
    {
      var i :| 0 <= i < |Trim(s)| && Trim(s)[i] == c;
      assert t[i] == c && s[|s| - |t| + i] == c;
    }
  }

  lemma TrimTrimmed(s: string)
    requires Trimmed(s)
    ensures Trim(s) == s
  {
  }

  /** One blank before a trimmed string is all that Trim takes away. */
  lemma TrimBlank(s: string)
    requires Trimmed(s)
    ensures Trim(" " + s) == s
  {
    assert (" " + s)[1..] == s;
    assert TrimLeft(" " + s) == TrimLeft(s);
  }

  /** The value of a name, or nothing. */
  function Lookup(values: map<string, string>, name: string): string {
    if name in values then values[name] else ""
  }

  // Searching and splitting.

  predicate At(s: string, sub: string) {
    sub <= s
  }

  /** The first place where `sub` stands. */
  function IndexOf(s: string, sub: string): (r: Option<nat>)
    ensures r.Some? ==> r.value + |sub| <= |s| && s[r.value..r.value + |sub|] == sub
  {
    if At(s, sub) then Some(0)
    else if s == "" then None
    else
      Behind(1, IndexOf(s[1..], sub))
  }

  /** A place that many characters further on. */
  function Behind(n: nat, place: Option<nat>): Option<nat> {
    if place.None? then None else Some(n + place.value)
  }

  /** Nothing of the separator begins inside the prefix. */
  lemma IndexPast(s: string, sub: string)
    requires s != "" && !At(s, sub)
    ensures IndexOf(s, sub) == Behind(1, IndexOf(s[1..], sub))
  {
  }

  lemma BehindTwice(n: nat, place: Option<nat>)
    ensures Behind(1, Behind(n, place)) == Behind(n + 1, place)
  {
  }

  lemma {:induction false} IndexAfter(a: string, rest: string, sub: string)
    requires sub != "" && sub[0] !in a
    ensures IndexOf(a + rest, sub) == Behind(|a|, IndexOf(rest, sub))
  {
    if a == "" {
      assert a + rest == rest;
    } else {
      var s := a + rest;
      assert s[0] == a[0] && a[0] in a;
      assert s[1..] == a[1..] + rest;
      IndexPast(s, sub);
      IndexAfter(a[1..], rest, sub);
      BehindTwice(|a| - 1, IndexOf(rest, sub));
    }
  }

  /** A name and what the equals sign gives it come apart again. */
  lemma NameValue(name: string, value: string)
    requires '=' !in name
    ensures var text := name + "=" + value;
            IndexOf(text, "=") == Some(|name|) && text[..|name|] == name && text[|name| + 1..] == value
  {
    assert name + "=" + value == name + ("=" + value);
    IndexAfter(name, "=" + value, "=");
    assert At("=" + value, "=");
  }

  function Split(s: string, sep: string): (r: seq<string>)
    requires sep != ""
    ensures r != []
    decreases |s|
  {
    match IndexOf(s, sep)
    case None => [s]
    case Some(i) => [s[..i]] + Split(s[i + |sep|..], sep)
  }

  function Join(parts: seq<string>, sep: string): string {
    if parts == [] then ""
    else if |parts| == 1 then parts[0]
    else parts[0] + sep + Join(parts[1..], sep)
  }

  lemma IndexNone(s: string, sub: string)
    requires sub != "" && sub[0] !in s
    ensures IndexOf(s, sub) == None
  {
    IndexAfter(s, "", sub);
    assert s + "" == s;
  }

  lemma SplitFirst(part: string, rest: string, sep: string)
    requires sep != "" && sep[0] !in part
    ensures Split(part + sep + rest, sep) == [part] + Split(rest, sep)
  {
    var s := part + sep + rest;
    assert s == part + (sep + rest);
    IndexAfter(part, sep + rest, sep);
    assert At(sep + rest, sep);
    assert s[|part| + |sep|..] == rest && s[..|part|] == part;
  }

  /** Splitting undoes joining when no part holds the separator's first character. */
  lemma {:induction false} SplitJoin(parts: seq<string>, sep: string)
    requires parts != [] && sep != "" && forall i :: 0 <= i < |parts| ==> sep[0] !in parts[i]
    ensures Split(Join(parts, sep), sep) == parts
  {
    if |parts| == 1 {
      IndexNone(parts[0], sep);
    } else {
      SplitFirst(parts[0], Join(parts[1..], sep), sep);
      SplitJoin(parts[1..], sep);
    }
  }

  // Numbers.

  predicate IsDigit(c: char) {
    '0' <= c <= '9'
  }

  function DigitValue(c: char): nat
    requires IsDigit(c)
  {
    (c - '0') as nat
  }

  function DigitChar(d: nat): (c: char)
    requires d < 10
    ensures IsDigit(c) && DigitValue(c) == d
  {
    '0' + d as char
  }

  function Itoa(n: nat): (r: string)
    ensures r != "" && forall i :: 0 <= i < |r| ==> IsDigit(r[i])
  {
    if n < 10 then [DigitChar(n)] else Itoa(n / 10) + [DigitChar(n % 10)]
  }

  predicate AllDigits(s: string) {
    forall i :: 0 <= i < |s| ==> IsDigit(s[i])
  }

  function Natural(s: string): nat
    requires AllDigits(s)
  {
    if s == "" then 0 else Natural(s[..|s| - 1]) * 10 + DigitValue(s[|s| - 1])
  }

  const MAX_INT: int := 0x7FFF_FFFF_FFFF_FFFF

  /** Decimal digits with an optional sign, within sixty-four bits. */
  function Atoi(s: string): Option<int> {
    var signed := s != "" && (s[0] == '-' || s[0] == '+');
    var digits := if signed then s[1..] else s;
    if digits == "" || !AllDigits(digits) then None
    else
      var value := if signed && s[0] == '-' then -(Natural(digits) as int) else Natural(digits);
      if -MAX_INT - 1 <= value <= MAX_INT then Some(value) else None
  }

  lemma {:induction false} NaturalItoa(n: nat)
    ensures Natural(Itoa(n)) == n
  {
    if n >= 10 {
      NaturalItoa(n / 10);
      assert Itoa(n)[..|Itoa(n)| - 1] == Itoa(n / 10);
    } else {
      assert Itoa(n)[..0] == "";
    }
  }

  lemma AtoiItoa(n: nat)
    requires n <= MAX_INT
    ensures Atoi(Itoa(n)) == Some(n)
  {
    NaturalItoa(n);
    assert IsDigit(Itoa(n)[0]);
  }

  // Words.

  /** The leading characters that are not white space. */
  function Word(s: string): (r: string)
    ensures r <= s
    ensures forall i :: 0 <= i < |r| ==> !Space(r[i])
  {
    if s == "" || Space(s[0]) then "" else [s[0]] + Word(s[1..])
  }

  /** The words of a string. */
  function Fields(s: string): (r: seq<string>)
    ensures forall i :: 0 <= i < |r| ==> Solid(r[i])
    decreases |s|
  {
    if s == "" then []
    else if Space(s[0]) then Fields(s[1..])
    else [Word(s)] + Fields(s[|Word(s)|..])
  }

  /** A word: not empty, and without white space. */
  predicate Solid(s: string) {
    s != "" && forall i :: 0 <= i < |s| ==> !Space(s[i])
  }

  lemma {:induction false} WordOf(a: string, rest: string)
    requires (a == "" || Solid(a)) && (rest == "" || Space(rest[0]))
    ensures Word(a + rest) == a
  {
    if a != "" {
      assert (a + rest)[1..] == a[1..] + rest;
      assert a[1..] == "" || Solid(a[1..]);
      WordOf(a[1..], rest);
    } else {
      assert a + rest == rest;
    }
  }

  lemma FieldsWord(a: string, rest: string)
    requires Solid(a) && (rest == "" || Space(rest[0]))
    ensures Fields(a + rest) == [a] + Fields(rest)
  {
    WordOf(a, rest);
    assert (a + rest)[0] == a[0];
    assert (a + rest)[|a|..] == rest;
  }

  lemma FieldsBlank(rest: string)
    ensures Fields(" " + rest) == Fields(rest)
  {
    assert (" " + rest)[1..] == rest;
  }

  lemma FieldsThree(a: string, b: string, c: string)
    requires Solid(a) && Solid(b) && Solid(c)
    ensures Fields(a + " " + b + " " + c) == [a, b, c]
  {
    var tail := " " + c;
    assert a + " " + b + " " + c == a + (" " + (b + tail));
    FieldsWord(a, " " + (b + tail));
    FieldsBlank(b + tail);
    FieldsWord(b, tail);
    FieldsBlank(c);
    assert c + "" == c;
    FieldsWord(c, "");
  }
}

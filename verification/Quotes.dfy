/** Scanning text around quoted strings: the loops of the SIP parsers (internal/sip and inbound.go). */
module Quotes {
  import opened Options
  import opened Text

  /** Inside a quoted string, after a backslash in one, and how deep inside angle brackets. */
  datatype Scan = Scan(quoted: bool, escaped: bool, depth: nat)

  const OUTSIDE := Scan(false, false, 0)

  /** The scan after one more character; angle brackets count only where the source counts them. */
  function Next(s: Scan, c: char, angles: bool): Scan {
    if s.escaped then s.(escaped := false)
    else if s.quoted && c == '\\' then s.(escaped := true)
    else if c == '\"' then s.(quoted := !s.quoted)
    else if s.quoted || !angles then s
    else if c == '<' then s.(depth := s.depth + 1)
    else if c == '>' && s.depth > 0 then s.(depth := s.depth - 1)
    else s
  }

  function ScanAll(s: Scan, text: string, angles: bool): Scan
    decreases |text|
  {
    if text == "" then s else ScanAll(Next(s, text[0], angles), text[1..], angles)
  }

  /** Here is a separator that separates. */
  predicate Cuts(s: Scan, c: char, separator: char) {
    !s.quoted && !s.escaped && s.depth == 0 && c == separator
  }

  /** No separator in the text separates. */
  predicate Uncut(s: Scan, text: string, separator: char, angles: bool)
    decreases |text|
  {
    text == "" || (!Cuts(s, text[0], separator) && Uncut(Next(s, text[0], angles), text[1..], separator, angles))
  }

  /** The pieces between the separators; `current` is the piece that has begun. */
  function Pieces(s: Scan, current: string, text: string, separator: char, angles: bool): (r: seq<string>)
    ensures r != []
    decreases |text|
  {
    if text == "" then [current]
    else if Cuts(s, text[0], separator)
    then [current] + Pieces(Next(s, text[0], angles), "", text[1..], separator, angles)
    else Pieces(Next(s, text[0], angles), current + [text[0]], text[1..], separator, angles)
  }

  lemma {:induction false} ScanJoin(s: Scan, a: string, b: string, angles: bool)
    ensures ScanAll(s, a + b, angles) == ScanAll(ScanAll(s, a, angles), b, angles)
    decreases |a|
  {
    if a == "" {
      assert a + b == b;
    } else {
      assert (a + b)[0] == a[0] && (a + b)[1..] == a[1..] + b;
      ScanJoin(Next(s, a[0], angles), a[1..], b, angles);
    }
  }

  lemma {:induction false} UncutJoin(s: Scan, a: string, b: string, separator: char, angles: bool)
    ensures Uncut(s, a + b, separator, angles)
            <==> Uncut(s, a, separator, angles) && Uncut(ScanAll(s, a, angles), b, separator, angles)
    decreases |a|
  {
    if a == "" {
      assert a + b == b;
    } else {
      assert (a + b)[0] == a[0] && (a + b)[1..] == a[1..] + b;
      UncutJoin(Next(s, a[0], angles), a[1..], b, separator, angles);
    }
  }

  lemma {:induction false} PiecesUncut(s: Scan, current: string, a: string, b: string, separator: char, angles: bool)
    requires Uncut(s, a, separator, angles)
    ensures Pieces(s, current, a + b, separator, angles)
            == Pieces(ScanAll(s, a, angles), current + a, b, separator, angles)
    decreases |a|
  {
    if a == "" {
      assert a + b == b && current + a == current;
    } else {
      assert (a + b)[0] == a[0] && (a + b)[1..] == a[1..] + b;
      assert current + [a[0]] + a[1..] == current + a;
      PiecesUncut(Next(s, a[0], angles), current + [a[0]], a[1..], b, separator, angles);
    }
  }

  /** A piece that can stand between separators. */
  predicate Whole(item: string, separator: char, angles: bool) {
    Uncut(OUTSIDE, item, separator, angles) && ScanAll(OUTSIDE, item, angles) == OUTSIDE
  }

  /** Cutting undoes joining. */
  lemma {:induction false} PiecesJoin(items: seq<string>, separator: char, angles: bool)
    requires items != [] && forall i :: 0 <= i < |items| ==> Whole(items[i], separator, angles)
    requires separator != '\"' && !(angles && (separator == '<' || separator == '>'))
    ensures Pieces(OUTSIDE, "", Join(items, [separator]), separator, angles) == items
  {
    assert Whole(items[0], separator, angles);
    assert "" + items[0] == items[0];
    if |items| == 1 {
      PiecesUncut(OUTSIDE, "", items[0], "", separator, angles);
      assert items[0] + "" == items[0];
    } else {
      var rest := Join(items[1..], [separator]);
      PiecesJoin(items[1..], separator, angles);
      assert Join(items, [separator]) == items[0] + ([separator] + rest);
      PiecesUncut(OUTSIDE, "", items[0], [separator] + rest, separator, angles);
      assert ([separator] + rest)[1..] == rest;
    }
  }

  /** Trimmed, and without the empty ones. */
  function Items(pieces: seq<string>): seq<string> {
    if pieces == [] then []
    else if Trim(pieces[0]) == "" then Items(pieces[1..])
    else [Trim(pieces[0])] + Items(pieces[1..])
  }

  lemma {:induction false} ItemsJoin(a: seq<string>, b: seq<string>)
    ensures Items(a + b) == Items(a) + Items(b)
  {
    if a == [] {
      assert a + b == b;
    } else {
      assert (a + b)[0] == a[0] && (a + b)[1..] == a[1..] + b;
      ItemsJoin(a[1..], b);
    }
  }

  lemma ItemsMore(pieces: seq<string>, piece: string)
    ensures Items(pieces + [piece]) == if Trim(piece) == "" then Items(pieces) else Items(pieces) + [Trim(piece)]
  {
    ItemsJoin(pieces, [piece]);
    assert [piece][1..] == [];
  }

  /** The items of a list: what splitListHeader (with angles) and splitDigestFields (without) return. */
  function ListItems(text: string, angles: bool): seq<string> {
    Items(Pieces(OUTSIDE, "", text, ',', angles))
  }

  // The loops.

  lemma PiecesNext(s: Scan, value: string, start: nat, index: nat, separator: char, angles: bool)
    requires start <= index < |value|
    ensures Pieces(s, value[start..index], value[index..], separator, angles) ==
              if Cuts(s, value[index], separator)
              then [value[start..index]] + Pieces(Next(s, value[index], angles), value[index + 1..index + 1],
                                                  value[index + 1..], separator, angles)
              else Pieces(Next(s, value[index], angles), value[start..index + 1], value[index + 1..], separator, angles)
  {
    assert value[index..][1..] == value[index + 1..];
    assert value[start..index] + [value[index]] == value[start..index + 1];
    assert value[index + 1..index + 1] == "";
  }

  method SplitListHeader(value: string) returns (result: seq<string>)
    ensures result == ListItems(value, true)
  {
    result := [];
    var start, angleDepth, inQuote, escaped := 0, 0, false, false;
    ghost var pieces: seq<string> := [];
    assert value[0..0] == "" && value[0..] == value;
    for index := 0 to |value|
      invariant start <= index
      invariant angleDepth >= 0
      invariant Pieces(OUTSIDE, "", value, ',', true)
             == pieces + Pieces(Scan(inQuote, escaped, angleDepth), value[start..index], value[index..], ',', true)
      invariant result == Items(pieces)
    {
      var character := value[index];
      PiecesNext(Scan(inQuote, escaped, angleDepth), value, start, index, ',', true);
      if escaped {
        escaped := false;
      } else if inQuote && character == '\\' {
        escaped := true;
      } else if character == '\"' {
        inQuote := !inQuote;
      } else if !inQuote {
        if character == '<' {
          angleDepth := angleDepth + 1;
        } else if character == '>' {
          if angleDepth > 0 {
            angleDepth := angleDepth - 1;
          }
        } else if character == ',' {
          if angleDepth == 0 {
            var item := Trim(value[start..index]);
            ItemsMore(pieces, value[start..index]);
            pieces := pieces + [value[start..index]];
            if item != "" {
              result := result + [item];
            }
            start := index + 1;
          }
        }
      }
    }
    var item := Trim(value[start..]);
    assert value[start..|value|] == value[start..] && value[|value|..] == "";
    ItemsMore(pieces, value[start..]);
    if item != "" {
      result := result + [item];
    }
  }

  method SplitDigestFields(value: string) returns (fields: seq<string>)
    ensures fields == ListItems(value, false)
  {
    fields := [];
    var start, quoted, escaped := 0, false, false;
    ghost var pieces: seq<string> := [];
    ghost var scan := OUTSIDE;
    assert value[0..0] == "" && value[0..] == value;
    for index := 0 to |value|
      invariant start <= index && scan == Scan(quoted, escaped, 0)
      invariant Pieces(OUTSIDE, "", value, ',', false)
                == pieces + Pieces(scan, value[start..index], value[index..], ',', false)
      invariant fields == Items(pieces)
    {
      var character := value[index];
      PiecesNext(scan, value, start, index, ',', false);
      scan := Next(scan, character, false);
      if escaped {
        escaped := false;
      } else if quoted && character == '\\' {
        escaped := true;
      } else if character == '\"' {
        quoted := !quoted;
      } else if character == ',' {
        if !quoted {
          var field := Trim(value[start..index]);
          ItemsMore(pieces, value[start..index]);
          pieces := pieces + [value[start..index]];
          if field != "" {
            fields := fields + [field];
          }
          start := index + 1;
        }
      }
    }
    var field := Trim(value[start..]);
    assert value[start..|value|] == value[start..] && value[|value|..] == "";
    ItemsMore(pieces, value[start..]);
    if field != "" {
      fields := fields + [field];
    }
  }

  /** The pieces of a text whose quoted strings all end; nothing at all of an empty text. */
  function SplitOutside(value: string, separator: char): Option<seq<string>> {
    var end := ScanAll(OUTSIDE, value, false);
    if value == "" then Some([])
    else if end.quoted || end.escaped then None
    else Some(Pieces(OUTSIDE, "", value, separator, false))
  }

  method SplitOutsideQuotes(value: string, separator: char) returns (result: Option<seq<string>>)
    requires separator != '\"'
    ensures result == SplitOutside(value, separator)
  {
    if value == "" {
      return Some([]);
    }
    var pieces: seq<string> := [];
    var start, inQuote, escaped := 0, false, false;
    assert value[0..0] == "" && value[0..] == value;
    for index := 0 to |value|
      invariant start <= index
      invariant Pieces(OUTSIDE, "", value, separator, false)
             == pieces + Pieces(Scan(inQuote, escaped, 0), value[start..index], value[index..], separator, false)
      invariant ScanAll(OUTSIDE, value, false) == ScanAll(Scan(inQuote, escaped, 0), value[index..], false)
    {
      var character := value[index];
      PiecesNext(Scan(inQuote, escaped, 0), value, start, index, separator, false);
      assert value[index..][1..] == value[index + 1..];
      if escaped {
        escaped := false;
      } else if inQuote && character == '\\' {
        escaped := true;
      } else if character == '\"' {
        inQuote := !inQuote;
      } else if !inQuote && character == separator {
        pieces := pieces + [value[start..index]];
        start := index + 1;
      }
    }
    assert value[start..|value|] == value[start..] && value[|value|..] == "";
    if inQuote || escaped {
      return None;
    }
    result := Some(pieces + [value[start..]]);
  }

  datatype Place = Found(index: nat) | Absent | Unterminated

  /** The first place outside quotes where the target stands. */
  function IndexOutside(s: Scan, value: string, target: char): Place
    decreases |value|
  {
    if value == "" then if s.quoted || s.escaped then Unterminated else Absent
    else if Cuts(s, value[0], target) then Found(0)
    else
      match IndexOutside(Next(s, value[0], false), value[1..], target)
      case Found(i) => Found(i + 1)
      case other => other
  }

  function Later(p: Place, n: nat): Place {
    match p
    case Found(i) => Found(n + i)
    case other => other
  }

  method IndexOutsideQuotes(value: string, target: char) returns (place: Place)
    requires target != '\"'
    ensures place == IndexOutside(OUTSIDE, value, target)
  {
    var inQuote, escaped := false, false;
    assert value[0..] == value;
    for index := 0 to |value|
      invariant IndexOutside(OUTSIDE, value, target)
                == Later(IndexOutside(Scan(inQuote, escaped, 0), value[index..], target), index)
    {
      var character := value[index];
      assert value[index..][1..] == value[index + 1..];
      if escaped {
        escaped := false;
      } else if inQuote && character == '\\' {
        escaped := true;
      } else if character == '\"' {
        inQuote := !inQuote;
      } else if !inQuote && character == target {
        return Found(index);
      }
    }
    place := if inQuote || escaped then Unterminated else Absent;
  }

  /** Up to the target nothing is the target: the scan passes over. */
  lemma {:induction false} IndexUncut(s: Scan, a: string, b: string, target: char)
    requires Uncut(s, a, target, false)
    ensures IndexOutside(s, a + b, target) == Later(IndexOutside(ScanAll(s, a, false), b, target), |a|)
    decreases |a|
  {
    if a == "" {
      assert a + b == b;
    } else {
      assert (a + b)[0] == a[0] && (a + b)[1..] == a[1..] + b;
      IndexUncut(Next(s, a[0], false), a[1..], b, target);
    }
  }

  // Quoted strings.

  /** Backslashes and double quotes are escaped. */
  function Escape(value: string): string {
    if value == "" then ""
    else (if value[0] == '\\' || value[0] == '\"' then ['\\', value[0]] else [value[0]]) + Escape(value[1..])
  }

  function Quoted(value: string): string {
    "\"" + Escape(value) + "\""
  }

  /** Every backslash gives way to the character after it. */
  function Unescape(value: string): string {
    if value == "" then ""
    else if value[0] == '\\' then if |value| == 1 then "" else [value[1]] + Unescape(value[2..])
    else [value[0]] + Unescape(value[1..])
  }

  method UnescapeDigestValue(value: string) returns (result: string)
    ensures result == Unescape(value)
  {
    result := "";
    var escaped := false;
    assert value[0..] == value;
    for index := 0 to |value|
      invariant Unescape(value) == result + if escaped && index > 0 then Unescape(['\\'] + value[index..])
                                            else Unescape(value[index..])
      invariant escaped ==> index > 0
    {
      var character := value[index];
      assert value[index..][1..] == value[index + 1..];
      assert (['\\'] + value[index..])[2..] == value[index + 1..];
      assert ['\\'] + value[index + 1..] == ['\\'] + value[index..][1..];
      if !escaped && character == '\\' {
        escaped := true;
        assert value[index..] == ['\\'] + value[index + 1..];
      } else {
        escaped := false;
        result := result + [character];
      }
    }
  }

  /** Unescaping undoes escaping. */
  lemma {:induction false} UnescapeEscape(value: string)
    ensures Unescape(Escape(value)) == value
  {
    if value != "" {
      UnescapeEscape(value[1..]);
      var rest := Escape(value[1..]);
      if value[0] == '\\' || value[0] == '\"' {
        assert Escape(value)[2..] == rest && Escape(value)[1] == value[0];
      } else {
        assert Escape(value)[1..] == rest;
      }
    }
  }

  const INSIDE := Scan(true, false, 0)

  /** The scan stays inside a quoted string to its end. */
  lemma {:induction false} EscapeInside(value: string, separator: char, angles: bool)
    ensures ScanAll(INSIDE, Escape(value), angles) == INSIDE && Uncut(INSIDE, Escape(value), separator, angles)
  {
    if value != "" {
      EscapeInside(value[1..], separator, angles);
      var rest := Escape(value[1..]);
      if value[0] == '\\' || value[0] == '\"' {
        var s := Next(INSIDE, '\\', angles);
        assert Escape(value)[1..] == [value[0]] + rest && ([value[0]] + rest)[1..] == rest;
        assert Next(s, value[0], angles) == INSIDE;
      } else {
        assert Escape(value)[1..] == rest;
      }
    }
  }

  /** A quoted string is passed over whole, whatever it holds. */
  lemma QuotedWhole(value: string, separator: char, angles: bool)
    requires separator != '\"'
    ensures Whole(Quoted(value), separator, angles)
  {
    var body := Escape(value);
    EscapeInside(value, separator, angles);
    assert Quoted(value) == "\"" + (body + "\"");
    ScanJoin(INSIDE, body, "\"", angles);
    UncutJoin(INSIDE, body, "\"", separator, angles);
    ScanJoin(OUTSIDE, "\"", body + "\"", angles);
    UncutJoin(OUTSIDE, "\"", body + "\"", separator, angles);
    assert "\""[1..] == "";
  }

  /** What stands between the quotes of a quoted string; none if it is not one, or holds a line break. */
  function Unquote(value: string): Option<string> {
    if |value| < 2 || value[0] != '\"' || value[|value| - 1] != '\"' then None
    else UnquoteBody(value[1..|value| - 1])
  }

  function UnquoteBody(body: string): Option<string> {
    if body == "" then Some("")
    else
      var paired := body[0] == '\\';
      if paired && |body| == 1 then None
      else
        var character, rest := if paired then body[1] else body[0], if paired then body[2..] else body[1..];
        if character == '\r' || character == '\n' then None
        else
          match UnquoteBody(rest)
          case None => None
          case Some(tail) => Some([character] + tail)
  }

  function Prepend(head: string, tail: Option<string>): Option<string> {
    match tail
    case None => None
    case Some(t) => Some(head + t)
  }

  method UnquoteSip(value: string) returns (result: Option<string>)
    ensures result == Unquote(value)
  {
    if |value| < 2 || value[0] != '\"' || value[|value| - 1] != '\"' {
      return None;
    }
    ghost var body := value[1..|value| - 1];
    var text := "";
    var index := 1;
    assert body[0..] == body;
    PrependTwice("", "", UnquoteBody(body));
    while index < |value| - 1
      invariant 1 <= index <= |value| - 1
      invariant UnquoteBody(body) == Prepend(text, UnquoteBody(body[index - 1..]))
    {
      var character := value[index];
      ghost var before := index - 1;
      if character == '\\' {
        index := index + 1;
        if index >= |value| - 1 {
          assert body[before..] == "\\";
          return None;
        }
        character := value[index];
        assert body[before..] == ['\\', character] + body[index..];
        UnquotePair(character, body[index..]);
      } else {
        assert body[before..] == [character] + body[index..];
        UnquoteOne(character, body[index..]);
      }
      if character == '\r' || character == '\n' {
        return None;
      }
      PrependTwice(text, [character], UnquoteBody(body[index..]));
      text := text + [character];
      index := index + 1;
    }
    assert body[index - 1..] == "" && text + "" == text;
    result := Some(text);
  }

  /** Unquoting undoes quoting, for every text without line breaks. */
  lemma UnquoteQuoted(value: string)
    requires '\r' !in value && '\n' !in value
    ensures Unquote(Quoted(value)) == Some(value)
  {
    UnquoteEscape(value);
    assert Quoted(value)[1..|Quoted(value)| - 1] == Escape(value);
  }

  lemma UnquotePair(c: char, rest: string)
    ensures UnquoteBody(['\\', c] + rest) == if c == '\r' || c == '\n' then None else Prepend([c], UnquoteBody(rest))
  {
    assert (['\\', c] + rest)[2..] == rest;
  }

  lemma UnquoteOne(c: char, rest: string)
    requires c != '\\'
    ensures UnquoteBody([c] + rest) == if c == '\r' || c == '\n' then None else Prepend([c], UnquoteBody(rest))
  {
    assert ([c] + rest)[1..] == rest;
  }

  lemma PrependTwice(a: string, b: string, tail: Option<string>)
    ensures Prepend(a, Prepend(b, tail)) == Prepend(a + b, tail) && Prepend("", tail) == tail
  {
    if tail.Some? {
      assert a + (b + tail.value) == a + b + tail.value && "" + tail.value == tail.value;
    }
  }

  lemma {:induction false} UnquoteEscape(value: string)
    requires '\r' !in value && '\n' !in value
    ensures UnquoteBody(Escape(value)) == Some(value)
  {
    if value != "" {
      UnquoteEscape(value[1..]);
      var rest := Escape(value[1..]);
      assert [value[0]] + value[1..] == value;
      if value[0] == '\\' || value[0] == '\"' {
        UnquotePair(value[0], rest);
      } else {
        UnquoteOne(value[0], rest);
      }
    }
  }
}

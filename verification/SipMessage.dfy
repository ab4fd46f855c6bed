/** The message object: headers changed in place, printed and parsed line by line (internal/sip/message.go). */
module SipMessage {
  import opened Options
  import opened Text
  import opened Quotes
  import opened SipText

  /** The headers that do not have this canonical name. */
  function WithoutName(headers: seq<Header>, canonical: string): seq<Header> {
    if headers == [] then []
    else
      var front := WithoutName(headers[..|headers| - 1], canonical);
      if Canonical(headers[|headers| - 1].name) != canonical then front + [headers[|headers| - 1]] else front
  }

  predicate IsList(canonical: string) {
    canonical == "Route" || canonical == "Record-Route" || canonical == "Via"
  }

  /** The values of a header, those of list headers item by item. */
  function ValuesOf(headers: seq<Header>, canonical: string): seq<string> {
    if headers == [] then []
    else
      var front, last := ValuesOf(headers[..|headers| - 1], canonical), headers[|headers| - 1];
      if Canonical(last.name) != canonical then front
      else front + if IsList(canonical) then ListItems(last.value, true) else [last.value]
  }

  lemma {:induction false} WithoutNone(headers: seq<Header>, canonical: string)
    ensures ValuesOf(WithoutName(headers, canonical), canonical) == []
  {
    if headers != [] {
      var front := WithoutName(headers[..|headers| - 1], canonical);
      WithoutNone(headers[..|headers| - 1], canonical);
      assert (front + [headers[|headers| - 1]])[..|front|] == front;
    }
  }

  lemma {:induction false} WithoutOthers(headers: seq<Header>, canonical: string, other: string)
    requires other != canonical
    ensures ValuesOf(WithoutName(headers, canonical), other) == ValuesOf(headers, other)
  {
    if headers != [] {
      var front := WithoutName(headers[..|headers| - 1], canonical);
      WithoutOthers(headers[..|headers| - 1], canonical, other);
      assert (front + [headers[|headers| - 1]])[..|front|] == front;
    }
  }

  /** Setting a header leaves it with the one value, or its items, and leaves every other header alone. */
  lemma SetValues(headers: seq<Header>, name: string, value: string, other: string)
    ensures var after := WithoutName(headers, Canonical(name)) + [Header(Canonical(name), value)];
            && ValuesOf(after, Canonical(name)) == (if IsList(Canonical(name)) then ListItems(value, true) else [value])
            && (other != Canonical(name) ==> ValuesOf(after, other) == ValuesOf(headers, other))
  {
    var rest, h := WithoutName(headers, Canonical(name)), Header(Canonical(name), value);
    assert (rest + [h])[..|rest|] == rest;
    CanonicalTwice(name);
    WithoutNone(headers, Canonical(name));
    if other != Canonical(name) {
      WithoutOthers(headers, Canonical(name), other);
    }
  }

  // Printing.

  /** What a header prints: nothing for a Content-Length, else its line and break, if it is valid. */
  function Piece(h: Header): Option<string> {
    if IsLength(h) then Some("") else if ValidHeader(h) then Some(HeaderText(h) + CRLF) else None
  }

  function HeaderPieces(headers: seq<Header>): seq<Option<string>> {
    seq(|headers|, i requires 0 <= i < |headers| => Piece(headers[i]))
  }

  /** A piece before the rest, if neither is invalid. */
  function Before(piece: Option<string>, rest: Option<string>): Option<string> {
    if piece.None? || rest.None? then None else Some(piece.value + rest.value)
  }

  /** The pieces from the n-th on joined, if none of them is invalid. */
  function Joined(pieces: seq<Option<string>>, n: nat): Option<string>
    requires n <= |pieces|
    decreases |pieces| - n
  {
    if n == |pieces| then Some("") else Before(pieces[n], Joined(pieces, n + 1))
  }

  /** The text of the headers, each line with its break. */
  function HeaderBlock(headers: seq<Header>): Option<string> {
    Joined(HeaderPieces(headers), 0)
  }

  function Block(lines: seq<string>): string {
    if lines == [] then "" else lines[0] + CRLF + Block(lines[1..])
  }

  lemma {:induction false} BlockJoin(a: seq<string>, b: seq<string>)
    ensures Block(a + b) == Block(a) + Block(b)
  {
    if a == [] {
      assert a + b == b;
    } else {
      assert (a + b)[0] == a[0] && (a + b)[1..] == a[1..] + b;
      BlockJoin(a[1..], b);
    }
  }

  /** The block is the lines, where there are lines at all. */
  predicate SameBlock(block: Option<string>, lines: Option<seq<string>>) {
    if lines.None? then block.None? else block == Some(Block(lines.value))
  }

  lemma BlockFirst(line: string, lines: seq<string>)
    ensures Block([line] + lines) == line + CRLF + Block(lines)
  {
    assert ([line] + lines)[1..] == lines;
  }

  lemma BlockStep(h: Header, rest: Option<string>, headers: seq<Header>)
    requires headers != [] && h == headers[0] && SameBlock(rest, HeaderLines(headers[1..]))
    ensures SameBlock(Before(Piece(h), rest), HeaderLines(headers))
  {
    if HeaderLines(headers[1..]).Some? {
      assert "" + rest.value == rest.value;
      BlockFirst(HeaderText(h), HeaderLines(headers[1..]).value);
    }
  }

  lemma {:induction false} BlockOfLines(headers: seq<Header>, n: nat)
    requires n <= |headers|
    ensures SameBlock(Joined(HeaderPieces(headers), n), HeaderLines(headers[n..]))
    decreases |headers| - n
  {
    if n < |headers| {
      BlockOfLines(headers, n + 1);
      assert headers[n..][1..] == headers[n + 1..];
      BlockStep(headers[n], Joined(HeaderPieces(headers), n + 1), headers[n..]);
    }
  }

  lemma BlockOne(line: string)
    ensures Block([line]) == line + CRLF
  {
    assert [line][1..] == [];
  }

  lemma {:induction false} BlockIsJoin(lines: seq<string>)
    requires lines != []
    ensures Block(lines) == Join(lines, CRLF) + CRLF
  {
    if |lines| == 1 {
      BlockOne(lines[0]);
      assert lines == [lines[0]];
    } else {
      BlockIsJoin(lines[1..]);
    }
  }

  /** Line by line or joined, the printed message is the same. */
  lemma PrintedByLines(m: Message)
    ensures Print(m).Some? <==> StartText(m.start).Some? && HeaderBlock(m.headers).Some?
    ensures Print(m).Some? ==>
              Print(m).value == StartText(m.start).value + CRLF + HeaderBlock(m.headers).value
                + (LengthLine(m.body) + CRLF) + CRLF + m.body
  {
    assert m.headers[0..] == m.headers;
    BlockOfLines(m.headers, 0);
    if Print(m).Some? {
      var start, lines := StartText(m.start).value, HeaderLines(m.headers).value;
      BlockIsJoin([start] + lines + [LengthLine(m.body)]);
      BlockJoin([start] + lines, [LengthLine(m.body)]);
      BlockJoin([start], lines);
      BlockOne(start);
      BlockOne(LengthLine(m.body));
    }
  }

  method PrintHeader(headers: seq<Header>, index: nat) returns (piece: Option<string>)
    requires index < |headers|
    ensures piece == HeaderPieces(headers)[index]
  {
    var header := headers[index];
    if IsLength(header) {
      return Some("");
    }
    piece := if ValidHeader(header) then Some(HeaderText(header) + CRLF) else None;
  }

  method PrintHeaders(headers: seq<Header>) returns (output: Option<string>)
    ensures output == HeaderBlock(headers)
  {
    var written := "";
    BeforeNothing(written, HeaderBlock(headers));
    for index := 0 to |headers|
      invariant HeaderBlock(headers) == Before(Some(written), Joined(HeaderPieces(headers), index))
    {
      var piece := PrintHeader(headers, index);
      BeforeTwice(written, piece, Joined(HeaderPieces(headers), index + 1));
      if piece.None? {
        return None;
      }
      written := written + piece.value;
    }
    BeforeNothing(written, Some(""));
    output := Some(written);
  }

  class SipMessage {
    var verb: string
    var uri: string
    var status: int
    var reason: string
    var headers: seq<Header>
    var body: string

    constructor Request(verb: string, uri: string)
      ensures this.verb == UpperAll(verb) && this.uri == uri && headers == [] && body == ""
    {
      this.verb, this.uri, status, reason, headers, body := UpperAll(verb), uri, 0, "", [], "";
    }

    constructor Response(status: int, reason: string)
      ensures verb == "" && this.status == status && this.reason == reason && headers == [] && body == ""
    {
      verb, uri, this.status, this.reason, headers, body := "", "", status, reason, [], "";
    }

    ghost function Value(): Message
      reads this
    {
      Message(if verb != "" then RequestLine(verb, uri) else StatusLine(status, reason), headers, body)
    }

    method Add(name: string, value: string)
      modifies this`headers
      ensures headers == old(headers) + [Header(Canonical(name), value)]
    {
      headers := headers + [Header(Canonical(name), value)];
    }

    method Del(name: string)
      modifies this`headers
      ensures headers == WithoutName(old(headers), Canonical(name))
    {
      var canonical := Canonical(name);
      var filtered: seq<Header> := [];
      for index := 0 to |headers|
        invariant headers == old(headers) && filtered == WithoutName(headers[..index], canonical)
      {
        assert headers[..index + 1][..index] == headers[..index];
        if Canonical(headers[index].name) != canonical {
          filtered := filtered + [headers[index]];
        }
      }
      assert headers[..|headers|] == headers;
      headers := filtered;
    }

    method Set(name: string, value: string)
      modifies this`headers
      ensures headers == WithoutName(old(headers), Canonical(name)) + [Header(Canonical(name), value)]
    {
      Del(name);
      Add(name, value);
    }

    method Values(name: string) returns (values: seq<string>)
      ensures values == ValuesOf(headers, Canonical(name))
    {
      var canonical := Canonical(name);
      values := [];
      for index := 0 to |headers|
        invariant values == ValuesOf(headers[..index], canonical)
      {
        assert headers[..index + 1][..index] == headers[..index];
        if Canonical(headers[index].name) == canonical {
          if IsList(canonical) {
            var items := SplitListHeader(headers[index].value);
            values := values + items;
          } else {
            values := values + [headers[index].value];
          }
        }
      }
      assert headers[..|headers|] == headers;
    }

    method Get(name: string) returns (value: string)
      ensures var values := ValuesOf(headers, Canonical(name)); value == if values == [] then "" else values[0]
    {
      var values := Values(name);
      value := if |values| == 0 then "" else values[0];
    }

    method Bytes() returns (data: Option<string>)
      ensures data == Print(Value())
    {
      PrintedByLines(Value());
      var start := StartText(if verb != "" then RequestLine(verb, uri) else StatusLine(status, reason));
      if start.None? {
        return None;
      }
      var block := PrintHeaders(headers);
      if block.None? {
        return None;
      }
      data := Some(start.value + CRLF + block.value + (LengthLine(body) + CRLF) + CRLF + body);
    }
  }

  lemma BeforeNothing(written: string, rest: Option<string>)
    ensures written == "" ==> Before(Some(written), rest) == rest
    ensures rest == Some("") ==> Before(Some(written), rest) == Some(written)
  {
    if rest.Some? {
      assert "" + rest.value == rest.value && written + "" == written;
    }
  }

  lemma BeforeTwice(written: string, piece: Option<string>, rest: Option<string>)
    ensures Before(Some(written), Before(piece, rest)) ==
              if piece.None? then None else Before(Some(written + piece.value), rest)
  {
    if piece.Some? && rest.Some? {
      assert written + (piece.value + rest.value) == written + piece.value + rest.value;
    }
  }
}

/** What is printed reads back as the same message, and prints again to the same bytes. */
module SipRoundTrip {
  import opened Options
  import opened Text
  import opened SipText

  /** A line of the head: not empty, and without line breaks. */
  predicate Line(s: string) {
    s != "" && ValidValue(s)
  }

  ghost predicate Lines(lines: seq<string>) {
    forall i :: 0 <= i < |lines| ==> Line(lines[i])
  }

  lemma IndexSkip(c: char, rest: string, sub: string)
    requires !At([c] + rest, sub)
    ensures IndexOf([c] + rest, sub) == Behind(1, IndexOf(rest, sub))
  {
    assert ([c] + rest)[1..] == rest;
  }

  /** One line break followed by something else is not the end of the head. */
  lemma SingleBreak(rest: string)
    requires rest != "" && rest[0] != '\r'
    ensures IndexOf(CRLF + rest, CRLF + CRLF) == Behind(2, IndexOf(rest, CRLF + CRLF))
  {
    var end := CRLF + CRLF;
    var s, t := CRLF + rest, ['\n'] + rest;
    assert s == ['\r'] + t;
    assert !At(s, end) by {
      assert s[2] == rest[0] && end[2] == '\r';
    }
    IndexSkip('\r', t, end);
    assert !At(t, end) by {
      assert t[0] != end[0];
    }
    IndexSkip('\n', rest, end);
  }

  lemma BreakAfter(line: string, rest: string)
    requires Line(line)
    ensures IndexOf(line + rest, CRLF + CRLF) == Behind(|line|, IndexOf(rest, CRLF + CRLF))
  {
    var end := CRLF + CRLF;
    assert end[0] == '\r';
    IndexAfter(line, rest, end);
  }

  lemma FirstEnds(line: string, body: string)
    requires Line(line)
    ensures IndexOf(line + (CRLF + CRLF + body), CRLF + CRLF) == Some(|line|)
  {
    var end := CRLF + CRLF;
    assert At(end + body, end);
    BreakAfter(line, end + body);
  }

  lemma NextEnds(line: string, tail: string, i: nat)
    requires Line(line) && IndexOf(tail, CRLF + CRLF) == Some(i)
    ensures IndexOf(line + tail, CRLF + CRLF) == Some(|line| + i)
  {
    BreakAfter(line, tail);
  }

  lemma BreakGoesOn(rest: string, i: nat)
    requires rest != "" && rest[0] != '\r' && IndexOf(rest, CRLF + CRLF) == Some(i)
    ensures IndexOf(CRLF + rest, CRLF + CRLF) == Some(2 + i)
  {
    SingleBreak(rest);
  }

  lemma JoinFirst(lines: seq<string>, tail: string)
    requires |lines| > 1
    ensures Join(lines, CRLF) + tail == lines[0] + (CRLF + (Join(lines[1..], CRLF) + tail))
    ensures |Join(lines, CRLF)| == |lines[0]| + 2 + |Join(lines[1..], CRLF)|
  {
  }

  lemma JoinStarts(lines: seq<string>)
    requires lines != [] && Lines(lines)
    ensures Join(lines, CRLF) != "" && Join(lines, CRLF)[0] != '\r'
  {
    assert Line(lines[0]) && lines[0][0] in lines[0];
    assert Join(lines, CRLF)[0] == lines[0][0];
  }

  lemma RestGoesOn(rest: string, tail: string)
    requires rest != "" && rest[0] != '\r' && IndexOf(rest + tail, CRLF + CRLF) == Some(|rest|)
    ensures IndexOf(CRLF + (rest + tail), CRLF + CRLF) == Some(2 + |rest|)
  {
    BreakGoesOn(rest + tail, |rest|);
  }

  lemma MoreEnds(line: string, after: string, i: nat, text: string)
    requires Line(line) && IndexOf(after, CRLF + CRLF) == Some(i) && text == line + after
    ensures IndexOf(text, CRLF + CRLF) == Some(|line| + i)
  {
    NextEnds(line, after, i);
  }

  /** The first empty line ends the head. */
  lemma {:induction false} HeadEnds(lines: seq<string>, body: string)
    requires lines != [] && Lines(lines)
    ensures IndexOf(Join(lines, CRLF) + (CRLF + CRLF + body), CRLF + CRLF) == Some(|Join(lines, CRLF)|)
  {
    if |lines| == 1 {
      FirstEnds(lines[0], body);
    } else {
      HeadEnds(lines[1..], body);
      JoinStarts(lines[1..]);
      JoinFirst(lines, CRLF + CRLF + body);
      assert Line(lines[0]);
      var rest, tail := Join(lines[1..], CRLF), CRLF + CRLF + body;
      RestGoesOn(rest, tail);
      MoreEnds(lines[0], CRLF + (rest + tail), 2 + |rest|, Join(lines, CRLF) + tail);
    }
  }

  lemma {:induction false} NothingFolds(lines: seq<string>)
    requires lines != [] && Lines(lines) && forall i :: 0 < i < |lines| ==> !Folds(lines[i])
    ensures Unfold(lines) == Some(lines)
  {
    var last := lines[|lines| - 1];
    assert last[|last| - 1] in last;
    if |lines| > 1 {
      NothingFolds(lines[..|lines| - 1]);
      assert lines == lines[..|lines| - 1] + [last];
    } else {
      assert lines == [lines[0]];
    }
  }

  // Start lines.

  lemma TokenSolid(s: string)
    requires ValidToken(s)
    ensures Solid(s) && Solid(UpperAll(s)) && ValidToken(UpperAll(s))
    ensures !Folds(s) && ':' !in s && ValidValue(s) && '/' !in UpperAll(s) && Trimmed(s)
  {
    forall i | 0 <= i < |s|
      ensures TokenChar(UpperAll(s)[i]) && !Space(s[i]) && !Space(UpperAll(s)[i])
      ensures s[i] != ':' && s[i] != '\r' && s[i] != '\n' && UpperAll(s)[i] != '/'
    {
      UpperToken(s[i]);
    }
  }

  lemma UpperToken(c: char)
    requires TokenChar(c)
    ensures TokenChar(Upper(c)) && !Space(c) && !Space(Upper(c)) && Upper(Upper(c)) == Upper(c)
    ensures c != ':' && c != '\r' && c != '\n' && Upper(c) != '/'
  {
  }

  lemma VersionSolid()
    ensures Solid(VERSION) && |VERSION| == 7 && VERSION[3] == '/' && ' ' !in VERSION
  {
  }

  lemma UpperTwice(s: string)
    ensures UpperAll(UpperAll(s)) == UpperAll(s)
  {
    forall i | 0 <= i < |s|
      ensures UpperAll(UpperAll(s))[i] == UpperAll(s)[i]
    {
      CharCases(s[i]);
    }
  }

  lemma RequestReads(verb: string, uri: string)
    requires ValidToken(verb) && Solid(uri)
    ensures ReadStart(UpperAll(verb) + " " + uri + " " + VERSION) == Some(RequestLine(UpperAll(verb), uri))
  {
    var upper := UpperAll(verb);
    var line := upper + " " + uri + " " + VERSION;
    TokenSolid(verb);
    UpperTwice(verb);
    VersionSolid();
    FieldsThree(upper, uri, VERSION);
    NotVersion(upper, " " + uri + " " + VERSION);
    assert line == upper + (" " + uri + " " + VERSION);
  }

  /** A token has no slash, so a request line never looks like a status line. */
  lemma NotVersion(upper: string, rest: string)
    requires '/' !in upper && ' ' !in upper[..] && rest != "" && rest[0] == ' '
    ensures !(VERSION + " " <= upper + rest)
  {
    var line, prefix := upper + rest, VERSION + " ";
    if |upper| <= 3 {
      assert line[|upper|] == ' ' && prefix[|upper|] != ' ';
    } else {
      assert line[3] == upper[3] && upper[3] in upper && prefix[3] == '/';
    }
  }

  lemma StatusSplits(digits: string, reason: string)
    requires ' ' !in digits
    ensures var rest := digits + " " + reason;
            IndexOf(rest, " ") == Some(|digits|) && rest[..|digits|] == digits && rest[|digits| + 1..] == reason
  {
    var rest := digits + " " + reason;
    assert rest == digits + (" " + reason);
    IndexAfter(digits, " " + reason, " ");
    assert At(" " + reason, " ");
  }

  lemma StatusFrom(line: string, rest: string, digits: string, status: int, reason: string)
    requires VERSION + " " <= line && line[|VERSION| + 1..] == rest && IndexOf(rest, " ") == Some(|digits|)
    requires rest[..|digits|] == digits && rest[|digits| + 1..] == reason && Atoi(digits) == Some(status)
             && 100 <= status <= 699
    ensures ReadStart(line) == Some(StatusLine(status, reason))
  {
  }

  lemma StatusReads(status: int, reason: string)
    requires 100 <= status <= 699
    ensures ReadStart(VERSION + " " + Itoa(status) + " " + reason) == Some(StatusLine(status, reason))
  {
    var line, digits := VERSION + " " + Itoa(status) + " " + reason, Itoa(status);
    var rest := digits + " " + reason;
    assert line == (VERSION + " ") + rest;
    DigitsPlain(digits);
    StatusSplits(digits, reason);
    AtoiItoa(status);
    StatusFrom(line, rest, digits, status, reason);
  }

  lemma DigitsPlain(s: string)
    requires AllDigits(s)
    ensures ' ' !in s && ValidValue(s) && (s != "" ==> Trimmed(s))
  {
  }

  // Headers.

  predicate PrintableHeader(h: Header) {
    ValidHeader(h) && Trimmed(h.value)
  }

  ghost predicate PrintableHeaders(headers: seq<Header>) {
    forall i :: 0 <= i < |headers| && !IsLength(headers[i]) ==> PrintableHeader(headers[i])
  }

  function NormalHeaders(headers: seq<Header>): seq<Header> {
    if headers == [] then []
    else if IsLength(headers[0]) then NormalHeaders(headers[1..])
    else [Header(Canonical(headers[0].name), headers[0].value)] + NormalHeaders(headers[1..])
  }

  /** The canonical form of a message: canonical names, and one Content-Length, which is right. */
  function Normal(m: Message): Message {
    Message(m.start, NormalHeaders(m.headers) + [LengthHeader(m.body)], m.body)
  }

  lemma HeaderSplits(name: string, value: string)
    requires ValidToken(name)
    ensures var line := name + ": " + value;
            IndexOf(line, ":") == Some(|name|) && line[..|name|] == name && line[|name| + 1..] == " " + value
  {
    var line := name + ": " + value;
    assert line == name + (": " + value);
    TokenSolid(name);
    IndexAfter(name, ": " + value, ":");
    assert At(": " + value, ":");
  }

  lemma HeaderPlain(name: string, value: string)
    requires ValidToken(name) && ValidValue(value)
    ensures Line(name + ": " + value) && !Folds(name + ": " + value)
  {
    TokenSolid(name);
  }

  lemma HeaderReads(name: string, value: string)
    requires ValidToken(name) && Canonical(name) == name && ValidValue(value) && Trimmed(value)
    requires name == CONTENT_LENGTH ==> Atoi(value).Some? && Atoi(value).value >= 0
    ensures ReadHeader(name + ": " + value) == Some(Header(name, value))
  {
    HeaderSplits(name, value);
    TokenSolid(name);
    TrimTrimmed(name);
    TrimBlank(value);
  }

  lemma LetterToken(c: char)
    requires 'a' <= c <= 'z' || 'A' <= c <= 'Z' || c == '-'
    ensures TokenChar(c)
  {
  }

  lemma LengthName()
    ensures ValidToken(CONTENT_LENGTH) && Canonical(CONTENT_LENGTH) == CONTENT_LENGTH
  {
    ContentLengthName();
    LengthToken();
  }

  lemma LengthToken()
    ensures ValidToken(CONTENT_LENGTH)
  {
    var name := CONTENT_LENGTH;
    forall i | 0 <= i < |name|
      ensures TokenChar(name[i])
    {
      LetterToken(name[i]);
    }
  }

  lemma LengthReads(body: string)
    requires |body| <= MAX_INT
    ensures ReadHeader(LengthLine(body)) == Some(Header(CONTENT_LENGTH, Itoa(|body|)))
    ensures Line(LengthLine(body)) && !Folds(LengthLine(body))
  {
    LengthName();
    AtoiItoa(|body|);
    DigitsPlain(Itoa(|body|));
    HeaderPlain(CONTENT_LENGTH, Itoa(|body|));
    HeaderReads(CONTENT_LENGTH, Itoa(|body|));
  }

  function LengthHeader(body: string): Header {
    Header(CONTENT_LENGTH, Itoa(|body|))
  }

  lemma LengthAlone(body: string)
    requires |body| <= MAX_INT
    ensures ReadHeaders([LengthLine(body)]) == Some([LengthHeader(body)])
    ensures Lengths([LengthHeader(body)]) == [|body|]
  {
    LengthReads(body);
    AtoiItoa(|body|);
    ConsRead(LengthLine(body), [], LengthHeader(body), []);
    assert [LengthLine(body)] + [] == [LengthLine(body)] && [LengthHeader(body)] + [] == [LengthHeader(body)];
  }

  /** The lines of the printed headers, with the length line last. */
  ghost predicate ReadsBack(lines: seq<string>, headers: seq<Header>, body: string) {
    ReadHeaders(lines) == Some(headers) && Lengths(headers) == [|body|] && PlainLines(lines)
  }

  /** Lines, and none that goes on from the one before. */
  ghost predicate PlainLines(lines: seq<string>) {
    Lines(lines) && forall i :: 0 <= i < |lines| ==> !Folds(lines[i])
  }

  lemma PlainMore(line: string, lines: seq<string>)
    requires Line(line) && !Folds(line) && PlainLines(lines)
    ensures PlainLines([line] + lines)
  {
  }

  lemma ReadsBackMore(line: string, h: Header, lines: seq<string>, headers: seq<Header>, body: string)
    requires ReadsBack(lines, headers, body) && ReadHeader(line) == Some(h) && h.name != CONTENT_LENGTH
    requires Line(line) && !Folds(line)
    ensures ReadsBack([line] + lines, [h] + headers, body)
  {
    ConsRead(line, lines, h, headers);
    PlainMore(line, lines);
  }

  lemma ReadsBackCons(h: Header, lines: seq<string>, headers: seq<Header>, body: string)
    requires ReadsBack(lines, headers, body) && PrintableHeader(h) && !IsLength(h)
    ensures ReadsBack([HeaderText(h)] + lines, [Header(Canonical(h.name), h.value)] + headers, body)
  {
    CanonicalTwice(h.name);
    HeaderReads(Canonical(h.name), h.value);
    HeaderPlain(Canonical(h.name), h.value);
    ReadsBackMore(HeaderText(h), Header(Canonical(h.name), h.value), lines, headers, body);
  }

  lemma HeaderBefore(h: Header, lines: seq<string>, normal: seq<Header>, body: string)
    requires ReadsBack(lines + [LengthLine(body)], normal + [LengthHeader(body)], body) && PrintableHeader(h)
             && !IsLength(h)
    ensures ReadsBack(([HeaderText(h)] + lines) + [LengthLine(body)],
                      ([Header(Canonical(h.name), h.value)] + normal) + [LengthHeader(body)], body)
  {
    ReadsBackCons(h, lines + [LengthLine(body)], normal + [LengthHeader(body)], body);
    Grouped(HeaderText(h), lines, LengthLine(body));
    Grouped(Header(Canonical(h.name), h.value), normal, LengthHeader(body));
  }

  lemma Grouped<T>(first: T, middle: seq<T>, last: T)
    ensures ([first] + middle) + [last] == [first] + (middle + [last])
  {
  }

  /** The printed headers read back as the normal ones. */
  lemma {:induction false} HeadersRead(headers: seq<Header>, body: string)
    requires PrintableHeaders(headers) && |body| <= MAX_INT
    ensures HeaderLines(headers).Some?
    ensures ReadsBack(HeaderLines(headers).value + [LengthLine(body)], NormalHeaders(headers) + [LengthHeader(body)],
                      body)
  {
    if headers == [] {
      LengthReads(body);
      LengthAlone(body);
      assert [] + [LengthLine(body)] == [LengthLine(body)] && [] + [LengthHeader(body)] == [LengthHeader(body)];
    } else {
      HeadersRead(headers[1..], body);
      if !IsLength(headers[0]) {
        assert PrintableHeader(headers[0]);
        HeaderBefore(headers[0], HeaderLines(headers[1..]).value, NormalHeaders(headers[1..]), body);
      }
    }
  }

  lemma ConsRead(line: string, lines: seq<string>, h: Header, headers: seq<Header>)
    requires ReadHeader(line) == Some(h) && ReadHeaders(lines) == Some(headers)
    ensures ReadHeaders([line] + lines) == Some([h] + headers)
    ensures Lengths([h] + headers) == if h.name == CONTENT_LENGTH && Atoi(h.value).Some?
                                      then [Atoi(h.value).value] + Lengths(headers) else Lengths(headers)
  {
    assert ([line] + lines)[1..] == lines && ([h] + headers)[1..] == headers;
  }

  // Messages.

  predicate PrintableStart(start: Start) {
    match start
    case RequestLine(verb, uri) => ValidToken(verb) && UpperAll(verb) == verb && Solid(uri)
    case StatusLine(status, reason) => 100 <= status <= 699 && ValidValue(reason)
  }

  /** A message whose text loses nothing: an upper-case method, a URI without white space, trimmed header values. */
  ghost predicate Printable(m: Message) {
    PrintableStart(m.start) && PrintableHeaders(m.headers) && |m.body| <= MAX_INT
  }

  lemma RequestStart(verb: string, uri: string)
    requires PrintableStart(RequestLine(verb, uri))
    ensures StartText(RequestLine(verb, uri)) == Some(verb + " " + uri + " " + VERSION)
    ensures Line(verb + " " + uri + " " + VERSION) && Trim(verb + " " + uri + " " + VERSION) != ""
  {
    SolidPlain(uri);
    TokenSolid(verb);
    NotBlank(verb + " " + uri + " " + VERSION);
  }

  lemma StatusStart(status: int, reason: string)
    requires PrintableStart(StatusLine(status, reason))
    ensures StartText(StatusLine(status, reason)) == Some(VERSION + " " + Itoa(status) + " " + reason)
    ensures Line(VERSION + " " + Itoa(status) + " " + reason) && Trim(VERSION + " " + Itoa(status) + " " + reason) != ""
  {
    DigitsPlain(Itoa(status));
    NotBlank(VERSION + " " + Itoa(status) + " " + reason);
  }

  lemma StartReads(start: Start)
    requires PrintableStart(start)
    ensures StartText(start).Some? && ReadStart(StartText(start).value) == Some(start)
    ensures Line(StartText(start).value) && Trim(StartText(start).value) != ""
  {
    match start
    case RequestLine(verb, uri) =>
      RequestStart(verb, uri);
      RequestReads(verb, uri);
    case StatusLine(status, reason) =>
      StatusStart(status, reason);
      StatusReads(status, reason);
  }

  lemma SolidPlain(s: string)
    requires Solid(s)
    ensures ValidValue(s) && s != ""
  {
  }

  lemma {:induction false} NotBlank(s: string)
    requires s != "" && !Space(s[0])
    ensures Trim(s) != ""
  {
    assert TrimLeft(s) == s;
    KeepsFirst(s);
  }

  lemma {:induction false} KeepsFirst(s: string)
    requires s != "" && !Space(s[0])
    ensures TrimRight(s) != ""
  {
    if Space(s[|s| - 1]) {
      KeepsFirst(s[..|s| - 1]);
    }
  }

  lemma HeadReads(lines: seq<string>, body: string)
    requires |lines| > 1 && Lines(lines) && Trim(lines[0]) != "" && forall i :: 0 < i < |lines| ==> !Folds(lines[i])
    ensures ReadHead(Join(lines, CRLF), CRLF, body) == ReadLines(lines, body)
  {
    assert forall i :: 0 <= i < |lines| ==> CRLF[0] !in lines[i];
    SplitJoin(lines, CRLF);
    NothingFolds(lines);
  }

  lemma PrintedSplits(lines: seq<string>, body: string, maximum: int)
    requires lines != [] && Lines(lines) && |Join(lines, CRLF) + CRLF + CRLF + body| <= Limit(maximum)
    ensures Parse(Join(lines, CRLF) + CRLF + CRLF + body, maximum) == ReadHead(Join(lines, CRLF), CRLF, body)
  {
    var head := Join(lines, CRLF);
    var data := head + CRLF + CRLF + body;
    HeadEnds(lines, body);
    assert data == head + (CRLF + CRLF + body);
    assert data[..|head|] == head && data[|head| + 4..] == body;
  }

  /** Printing always succeeds, and reading what was printed gives back the message in its canonical form. */
  lemma PrintReads(m: Message, maximum: int)
    requires Printable(m)
    ensures Print(m).Some?
    ensures |Print(m).value| <= Limit(maximum) ==> Parse(Print(m).value, maximum) == Read(Normal(m))
  {
    StartReads(m.start);
    HeadersRead(m.headers, m.body);
    var start, rest := StartText(m.start).value, HeaderLines(m.headers).value + [LengthLine(m.body)];
    var lines := [start] + rest;
    assert [start] + HeaderLines(m.headers).value + [LengthLine(m.body)] == lines;
    assert lines[1..] == rest;
    if |Print(m).value| <= Limit(maximum) {
      LinesOf(start, rest);
      PrintedSplits(lines, m.body, maximum);
      HeadReads(lines, m.body);
    }
  }

  lemma LinesOf(start: string, rest: seq<string>)
    requires Line(start) && Lines(rest) && forall i :: 0 <= i < |rest| ==> !Folds(rest[i])
    ensures Lines([start] + rest) && forall i :: 0 < i < |[start] + rest| ==> !Folds(([start] + rest)[i])
  {
  }

  lemma LinesFirst(h: Header, rest: seq<Header>)
    requires !IsLength(h) && ValidHeader(h) && HeaderLines(rest).Some?
    ensures HeaderLines([h] + rest) == Some([HeaderText(h)] + HeaderLines(rest).value)
  {
    assert ([h] + rest)[1..] == rest;
  }

  lemma LengthLines(body: string)
    ensures HeaderLines([LengthHeader(body)]) == Some([])
  {
    LengthName();
    assert [LengthHeader(body)][1..] == [];
  }

  /** A header and its normal form print the same line. */
  lemma NormalSame(h: Header)
    requires PrintableHeader(h) && !IsLength(h)
    ensures var n := Header(Canonical(h.name), h.value);
            !IsLength(n) && ValidHeader(n) && HeaderText(n) == HeaderText(h)
  {
    CanonicalTwice(h.name);
  }

  lemma {:induction false} LinesAgain(headers: seq<Header>, body: string)
    requires PrintableHeaders(headers)
    ensures HeaderLines(headers).Some?
            && HeaderLines(NormalHeaders(headers) + [LengthHeader(body)]) == HeaderLines(headers)
  {
    if headers == [] {
      LengthLines(body);
      assert [] + [LengthHeader(body)] == [LengthHeader(body)];
    } else {
      var h, rest := headers[0], NormalHeaders(headers[1..]) + [LengthHeader(body)];
      LinesAgain(headers[1..], body);
      if !IsLength(h) {
        var n := Header(Canonical(h.name), h.value);
        assert PrintableHeader(h);
        NormalSame(h);
        LinesFirst(n, rest);
        LinesFirst(h, headers[1..]);
        assert NormalHeaders(headers) + [LengthHeader(body)] == [n] + rest && headers == [h] + headers[1..];
      }
    }
  }

  /** The canonical form prints to the same bytes. */
  lemma PrintAgain(m: Message)
    requires Printable(m)
    ensures Print(Normal(m)) == Print(m) && Print(m).Some?
  {
    PrintReads(m, 0);
    LinesAgain(m.headers, m.body);
  }

  // The other direction.

  ghost predicate ReadHeadersFit(headers: seq<Header>) {
    forall i :: 0 <= i < |headers| ==> PrintableHeader(headers[i]) && Canonical(headers[i].name) == headers[i].name
  }

  lemma ReadHeaderFits(line: string)
    requires ReadHeader(line).Some?
    ensures var h := ReadHeader(line).value; PrintableHeader(h) && Canonical(h.name) == h.name
  {
    var colon := IndexOf(line, ":").value;
    CanonicalTwice(Trim(line[..colon]));
    TrimIs(line[colon + 1..]);
  }

  lemma {:induction false} ReadHeadersAllFit(lines: seq<string>)
    requires ReadHeaders(lines).Some?
    ensures ReadHeadersFit(ReadHeaders(lines).value)
  {
    if lines != [] {
      ReadHeaderFits(lines[0]);
      ReadHeadersAllFit(lines[1..]);
    }
  }

  lemma ReadRequestFits(line: string)
    requires ReadStart(line).Some? && ReadStart(line).value.RequestLine?
    ensures PrintableStart(ReadStart(line).value)
  {
    var parts := Fields(line);
    TokenSolid(parts[0]);
    UpperTwice(parts[0]);
  }

  /** Everything read has printable headers, and a start line that is printable but for the reason of a response. */
  lemma ReadFits(data: string, maximum: int)
    requires Parse(data, maximum).Read?
    ensures var m := Parse(data, maximum).message;
            && ReadHeadersFit(m.headers) && |m.body| <= |data|
            && (m.start.RequestLine? ==> PrintableStart(m.start))
            && (m.start.StatusLine? ==> 100 <= m.start.status <= 699)
  {
    var crlf := IndexOf(data, CRLF + CRLF);
    if crlf.Some? {
      HeadFits(data[..crlf.value], CRLF, data[crlf.value + 4..]);
    } else {
      var lf := IndexOf(data, "\n\n");
      HeadFits(data[..lf.value], "\n", data[lf.value + 2..]);
    }
  }

  lemma HeadFits(head: string, separator: string, body: string)
    requires separator != "" && ReadHead(head, separator, body).Read?
    ensures var m := ReadHead(head, separator, body).message;
            && ReadHeadersFit(m.headers) && m.body == body
            && (m.start.RequestLine? ==> PrintableStart(m.start))
            && (m.start.StatusLine? ==> 100 <= m.start.status <= 699)
  {
    var lines := Unfold(Split(head, separator)).value;
    ReadHeadersAllFit(lines[1..]);
    if ReadStart(lines[0]).value.RequestLine? {
      ReadRequestFits(lines[0]);
    }
  }

  /** A request that was read prints, and reads back as itself with one Content-Length. */
  lemma ReadPrints(data: string, maximum: int, limit: int)
    requires Parse(data, maximum).Read? && Parse(data, maximum).message.start.RequestLine? && |data| <= MAX_INT
    ensures var m := Parse(data, maximum).message;
            && Print(m).Some? && Print(Normal(m)) == Print(m)
            && (|Print(m).value| <= Limit(limit) ==> Parse(Print(m).value, limit) == Read(Normal(m)))
            && NormalHeaders(m.headers) == WithoutLength(m.headers)
  {
    var m := Parse(data, maximum).message;
    ReadFits(data, maximum);
    PrintReads(m, limit);
    PrintAgain(m);
    NormalAlready(m.headers);
  }

  function WithoutLength(headers: seq<Header>): seq<Header> {
    if headers == [] then []
    else if headers[0].name == CONTENT_LENGTH then WithoutLength(headers[1..])
    else [headers[0]] + WithoutLength(headers[1..])
  }

  /** Names that were read are canonical already. */
  lemma {:induction false} NormalAlready(headers: seq<Header>)
    requires ReadHeadersFit(headers)
    ensures NormalHeaders(headers) == WithoutLength(headers)
  {
    if headers != [] {
      NormalAlready(headers[1..]);
      assert Canonical(headers[0].name) == headers[0].name;
    }
  }

  /** A response that was read prints exactly when its reason has no bare line break. */
  lemma ResponsePrints(data: string, maximum: int)
    requires Parse(data, maximum).Read? && Parse(data, maximum).message.start.StatusLine? && |data| <= MAX_INT
    ensures Print(Parse(data, maximum).message).Some? <==> ValidValue(Parse(data, maximum).message.start.reason)
  {
    var m := Parse(data, maximum).message;
    ReadFits(data, maximum);
    HeadersRead(m.headers, m.body);
  }

  /** One line without a carriage return, and nothing else. */
  lemma OneLineRead(line: string)
    requires '\r' !in line && line != "" && !Space(line[0]) && |line| + 4 <= 64 * 1024
    ensures Parse(line + (CRLF + CRLF), 0) == ReadLines([line], "")
  {
    var data, end := line + (CRLF + CRLF), CRLF + CRLF;
    assert end[0] == '\r' && At(end, end);
    IndexAfter(line, end, end);
    assert data[..|line|] == line && data[|line| + 4..] == "";
    IndexNone(line, CRLF);
    NotBlank(line);
    assert line[|line| - 1] in line;
    assert Unfold([line]) == Some([line]);
  }

  /** And there is a response whose reason does have one. */
  lemma BareBreakRead()
    ensures var data := "SIP/2.0 200 O\nK" + (CRLF + CRLF);
            Parse(data, 0).Read? && Print(Parse(data, 0).message).None?
  {
    var line := "SIP/2.0 200 O\nK";
    OneLineRead(line);
    BareReasonRead();
    assert [line][1..] == [];
  }

  lemma TwoHundred()
    ensures Itoa(200) == "200"
  {
    assert Itoa(2) == "2" && Itoa(20) == "20";
  }

  lemma BareReasonRead()
    ensures ReadStart("SIP/2.0 200 O\nK") == Some(StatusLine(200, "O\nK"))
  {
    TwoHundred();
    StatusReads(200, "O\nK");
    assert VERSION + " " + Itoa(200) + " " + "O\nK" == "SIP/2.0 200 O\nK";
  }
}

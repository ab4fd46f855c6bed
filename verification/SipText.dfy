/** SIP messages as text: what is printed and what is read back (internal/sip/message.go). */
module SipText {
  import opened Options
  import opened Text

  const VERSION := "SIP/2.0"
  const CONTENT_LENGTH := "Content-Length"

  datatype Header = Header(name: string, value: string)

  datatype Start = RequestLine(verb: string, uri: string) | StatusLine(status: int, reason: string)

  datatype Message = Message(start: Start, headers: seq<Header>, body: string)

  datatype Reading = Read(message: Message) | Malformed | TooLarge

  // Names and tokens.

  predicate TokenChar(c: char) {
    32 as char < c < 127 as char && c !in "()<>@,;:\\\"/[]?={} "
  }

  predicate ValidToken(s: string) {
    s != "" && forall i :: 0 <= i < |s| ==> TokenChar(s[i])
  }

  predicate ValidValue(s: string) {
    '\r' !in s && '\n' !in s
  }

  function Expanded(lower: string): Option<string> {
    match lower
    case "v" => Some("Via")
    case "f" => Some("From")
    case "t" => Some("To")
    case "i" => Some("Call-ID")
    case "m" => Some("Contact")
    case "l" => Some(CONTENT_LENGTH)
    case "c" => Some("Content-Type")
    case "call-id" => Some("Call-ID")
    case "cseq" => Some("CSeq")
    case "www-authenticate" => Some("WWW-Authenticate")
    case _ => None
  }

  /** Every part between hyphens starts with a capital and goes on in lower case. */
  function Capitalized(s: string): (r: string)
    ensures |r| == |s|
  {
    seq(|s|, i requires 0 <= i < |s| => if i == 0 || s[i - 1] == '-' then Upper(s[i]) else Lower(s[i]))
  }

  function Canonical(name: string): string {
    var trimmed := Trim(name);
    match Expanded(LowerAll(trimmed))
    case Some(expanded) => expanded
    case None => Capitalized(trimmed)
  }

  lemma CharCases(c: char)
    ensures Upper(Upper(c)) == Upper(c) && Upper(Lower(c)) == Upper(c)
    ensures Lower(Upper(c)) == Lower(c) && Lower(Lower(c)) == Lower(c)
    ensures Space(Upper(c)) == Space(c) && Space(Lower(c)) == Space(c)
    ensures (Upper(c) == '-' <==> c == '-') && (Lower(c) == '-' <==> c == '-')
  {
  }

  lemma CapitalizedAt(s: string, i: nat)
    requires i < |s|
    ensures Capitalized(Capitalized(s))[i] == Capitalized(s)[i] && LowerAll(Capitalized(s))[i] == LowerAll(s)[i]
    ensures Space(Capitalized(s)[i]) == Space(s[i])
  {
    CharCases(s[i]);
    if i > 0 {
      CharCases(s[i - 1]);
    }
  }

  lemma CapitalizedTwice(s: string)
    ensures Capitalized(Capitalized(s)) == Capitalized(s) && LowerAll(Capitalized(s)) == LowerAll(s)
    ensures Trimmed(s) ==> Trimmed(Capitalized(s))
  {
    var t, u, l := Capitalized(s), Capitalized(Capitalized(s)), LowerAll(Capitalized(s));
    forall i | 0 <= i < |s|
      ensures u[i] == t[i] && l[i] == LowerAll(s)[i] && Space(t[i]) == Space(s[i])
    {
      CapitalizedAt(s, i);
    }
  }

  /** A canonical name is its own canonical name. */
  lemma CanonicalTwice(name: string)
    ensures Canonical(Canonical(name)) == Canonical(name)
  {
    var trimmed := Trim(name);
    TrimIs(name);
    if Expanded(LowerAll(trimmed)).Some? {
      ExpandedTwice(LowerAll(trimmed));
    } else {
      CapitalizedTwice(trimmed);
      TrimTrimmed(Capitalized(trimmed));
    }
  }

  /** A name that is no special one is canonical when it is capitalized. */
  lemma CapitalizedName(name: string, lower: string)
    requires Trimmed(name) && LowerAll(name) == lower && Expanded(lower) == None && Capitalized(name) == name
    ensures Canonical(name) == name
  {
    TrimTrimmed(name);
  }

  lemma SpecialName(name: string, lower: string)
    requires Trimmed(name) && LowerAll(name) == lower && Expanded(lower) == Some(name)
    ensures Canonical(name) == name
  {
    TrimTrimmed(name);
  }

  lemma ViaName()
    ensures Canonical("Via") == "Via"
  {
    assert LowerAll("Via") == "via";
    assert Capitalized("Via") == "Via";
    CapitalizedName("Via", "via");
  }

  lemma FromName()
    ensures Canonical("From") == "From"
  {
    assert LowerAll("From") == "from";
    assert Capitalized("From") == "From";
    CapitalizedName("From", "from");
  }

  lemma ToName()
    ensures Canonical("To") == "To"
  {
    assert LowerAll("To") == "to";
    assert Capitalized("To") == "To";
    CapitalizedName("To", "to");
  }

  lemma ContactName()
    ensures Canonical("Contact") == "Contact"
  {
    assert LowerAll("Contact") == "contact";
    assert Capitalized("Contact") == "Contact";
    CapitalizedName("Contact", "contact");
  }

  lemma ContentLengthName()
    ensures Canonical("Content-Length") == "Content-Length"
  {
    assert LowerAll("Content-Length") == "content-length";
    assert Capitalized("Content-Length") == "Content-Length";
    CapitalizedName("Content-Length", "content-length");
  }

  lemma ContentTypeName()
    ensures Canonical("Content-Type") == "Content-Type"
  {
    assert LowerAll("Content-Type") == "content-type";
    assert Capitalized("Content-Type") == "Content-Type";
    CapitalizedName("Content-Type", "content-type");
  }

  lemma CallIDName()
    ensures Canonical("Call-ID") == "Call-ID"
  {
    assert LowerAll("Call-ID") == "call-id";
    SpecialName("Call-ID", "call-id");
  }

  lemma CSeqName()
    ensures Canonical("CSeq") == "CSeq"
  {
    assert LowerAll("CSeq") == "cseq";
    SpecialName("CSeq", "cseq");
  }

  lemma WWWAuthenticateName()
    ensures Canonical("WWW-Authenticate") == "WWW-Authenticate"
  {
    assert LowerAll("WWW-Authenticate") == "www-authenticate";
    SpecialName("WWW-Authenticate", "www-authenticate");
  }

  /** The names that compact and special names stand for. */
  predicate ExpandedName(name: string) {
    || name == "Via" || name == "From" || name == "To" || name == "Contact"
    || name == "Content-Length" || name == "Content-Type"
    || name == "Call-ID" || name == "CSeq" || name == "WWW-Authenticate"
  }

  lemma ExpandedIsName(lower: string)
    ensures Expanded(lower).Some? ==> ExpandedName(Expanded(lower).value)
  {
  }

  lemma NameTwice(name: string)
    requires ExpandedName(name)
    ensures Canonical(name) == name
  {
    if name == "Via" {
      ViaName();
    } else if name == "From" {
      FromName();
    } else if name == "To" {
      ToName();
    } else if name == "Contact" {
      ContactName();
    } else if name == "Content-Length" {
      ContentLengthName();
    } else if name == "Content-Type" {
      ContentTypeName();
    } else if name == "Call-ID" {
      CallIDName();
    } else if name == "CSeq" {
      CSeqName();
    } else {
      WWWAuthenticateName();
    }
  }

  lemma ExpandedTwice(lower: string)
    requires Expanded(lower).Some?
    ensures Canonical(Expanded(lower).value) == Expanded(lower).value
  {
    ExpandedIsName(lower);
    NameTwice(Expanded(lower).value);
  }

  // Printing.

  function StartText(start: Start): Option<string> {
    match start
    case RequestLine(verb, uri) =>
      if ValidToken(verb) && ValidValue(uri) && uri != "" then Some(UpperAll(verb) + " " + uri + " " + VERSION)
      else None
    case StatusLine(status, reason) =>
      if 100 <= status <= 699 && ValidValue(reason) then Some(VERSION + " " + Itoa(status) + " " + reason) else None
  }

  function HeaderText(h: Header): string {
    Canonical(h.name) + ": " + h.value
  }

  predicate IsLength(h: Header) {
    Canonical(h.name) == CONTENT_LENGTH
  }

  predicate ValidHeader(h: Header) {
    ValidToken(Canonical(h.name)) && ValidValue(h.value)
  }

  /** The lines of the headers, without any Content-Length; none if one of them cannot be printed. */
  function HeaderLines(headers: seq<Header>): Option<seq<string>> {
    if headers == [] then Some([])
    else
      match HeaderLines(headers[1..])
      case None => None
      case Some(rest) =>
        if IsLength(headers[0]) then Some(rest)
        else if ValidHeader(headers[0]) then Some([HeaderText(headers[0])] + rest)
        else None
  }

  function LengthLine(body: string): string {
    CONTENT_LENGTH + ": " + Itoa(|body|)
  }

  function Print(m: Message): Option<string> {
    match StartText(m.start)
    case None => None
    case Some(start) =>
      match HeaderLines(m.headers)
      case None => None
      case Some(lines) => Some(Join([start] + lines + [LengthLine(m.body)], CRLF) + CRLF + CRLF + m.body)
  }

  // Reading.

  function TrimCarriage(s: string): string {
    if s != "" && s[|s| - 1] == '\r' then s[..|s| - 1] else s
  }

  predicate Folds(line: string) {
    line != "" && (line[0] == ' ' || line[0] == '\t')
  }

  /** The lines with one more, which may go on from the last header. */
  function AddLine(lines: seq<string>, line: string): Option<seq<string>> {
    if !Folds(line) then Some(lines + [line])
    else if |lines| <= 1 then None
    else Some(lines[..|lines| - 1] + [lines[|lines| - 1] + " " + Trim(line)])
  }

  /** Continuation lines joined to the lines they continue; none if there is nothing to continue but the start line. */
  function Unfold(raws: seq<string>): Option<seq<string>>
    requires raws != []
  {
    if |raws| == 1 then Some([TrimCarriage(raws[0])])
    else
      match Unfold(raws[..|raws| - 1])
      case None => None
      case Some(lines) => AddLine(lines, TrimCarriage(raws[|raws| - 1]))
  }

  function ReadStart(line: string): Option<Start> {
    if VERSION + " " <= line then
      var rest := line[|VERSION| + 1..];
      match IndexOf(rest, " ")
      case None => None
      case Some(i) =>
        match Atoi(rest[..i])
        case Some(status) => if 100 <= status <= 699 then Some(StatusLine(status, rest[i + 1..])) else None
        case None => None
    else
      var parts := Fields(line);
      if |parts| == 3 && parts[2] == VERSION && ValidToken(parts[0])
      then Some(RequestLine(UpperAll(parts[0]), parts[1])) else None
  }

  function ReadHeader(line: string): Option<Header> {
    match IndexOf(line, ":")
    case None => None
    case Some(colon) =>
      var name, value := Canonical(Trim(line[..colon])), Trim(line[colon + 1..]);
      if colon == 0 || !ValidToken(name) || !ValidValue(value) then None
      else if name == CONTENT_LENGTH && (Atoi(value).None? || Atoi(value).value < 0) then None
      else Some(Header(name, value))
  }

  function ReadHeaders(lines: seq<string>): Option<seq<Header>> {
    if lines == [] then Some([])
    else
      match ReadHeader(lines[0])
      case None => None
      case Some(h) =>
        match ReadHeaders(lines[1..])
        case None => None
        case Some(rest) => Some([h] + rest)
  }

  /** The lengths the headers announce. */
  function Lengths(headers: seq<Header>): seq<int> {
    if headers == [] then []
    else
      var rest := Lengths(headers[1..]);
      if headers[0].name == CONTENT_LENGTH && Atoi(headers[0].value).Some? then [Atoi(headers[0].value).value] + rest
      else rest
  }

  predicate LengthFits(lengths: seq<int>, size: nat) {
    forall i :: 0 <= i < |lengths| ==> lengths[i] == size
  }

  function ReadLines(lines: seq<string>, body: string): Reading
    requires lines != []
  {
    match ReadStart(lines[0])
    case None => Malformed
    case Some(start) =>
      match ReadHeaders(lines[1..])
      case None => Malformed
      case Some(headers) => if LengthFits(Lengths(headers), |body|) then Read(Message(start, headers, body))
                            else Malformed
  }

  function ReadHead(head: string, separator: string, body: string): Reading
    requires separator != ""
  {
    var raws := Split(head, separator);
    if Trim(raws[0]) == "" then Malformed
    else
      match Unfold(raws)
      case None => Malformed
      case Some(lines) => if lines == [] then Malformed else ReadLines(lines, body)
  }

  function Limit(maximum: int): int {
    if maximum <= 0 then 64 * 1024 else maximum
  }

  function Parse(data: string, maximum: int): Reading {
    if |data| > Limit(maximum) then TooLarge
    else
      match IndexOf(data, CRLF + CRLF)
      case Some(i) => ReadHead(data[..i], CRLF, data[i + 4..])
      case None =>
        match IndexOf(data, "\n\n")
        case Some(i) => ReadHead(data[..i], "\n", data[i + 2..])
        case None => Malformed
  }
}

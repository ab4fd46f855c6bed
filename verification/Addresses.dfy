/** SIP URIs and name-addr headers: what they are read as, and the caller's From header (internal/sip/fields.go). */
module Addresses {
  import opened Options
  import opened Text
  import opened Quotes

  datatype Uri = Uri(user: string, host: string, port: nat, parameters: map<string, string>)

  datatype Address = Address(displayName: string, uri: Uri, rawUri: string, tag: string,
                             parameters: map<string, string>)

  // Reading.

  function LastIndexOf(s: string, c: char): Option<nat>
    ensures LastIndexOf(s, c).Some? ==> LastIndexOf(s, c).value < |s|
  {
    if s == "" then None
    else if s[|s| - 1] == c then Some(|s| - 1)
    else LastIndexOf(s[..|s| - 1], c)
  }

  /** A decimal number of at most sixteen bits, without a sign. */
  function PortOf(s: string): Option<nat> {
    if s == "" || !AllDigits(s) || Natural(s) == 0 || Natural(s) > 0xFFFF then None else Some(Natural(s))
  }

  predicate Octet(s: string) {
    s != "" && AllDigits(s) && (s[0] == '0' ==> s == "0") && Natural(s) <= 255
  }

  /** A dotted IPv4 address other than 0.0.0.0. */
  predicate ConcreteV4(host: string) {
    var parts := Split(host, ".");
    |parts| == 4 && (forall i :: 0 <= i < 4 ==> Octet(parts[i])) && exists i :: 0 <= i < 4 && parts[i] != "0"
  }

  /** Name and value around the first equals sign; without one the value is empty. */
  function Parameter(text: string): (string, string) {
    match IndexOf(text, "=")
    case None => (LowerAll(Trim(text)), "")
    case Some(i) => (LowerAll(Trim(text[..i])), Trim(text[i + 1..]))
  }

  function Parameters(parts: seq<string>): map<string, string> {
    if parts == [] then map[]
    else
      var before, pair := Parameters(parts[..|parts| - 1]), Parameter(parts[|parts| - 1]);
      if pair.0 == "" then before else before[pair.0 := pair.1]
  }

  predicate BadUser(user: string) {
    '\r' in user || '\n' in user || '<' in user || '>' in user
  }

  function HostPort(user: string, hostPort: string, parameters: map<string, string>): Option<Uri> {
    if "[" <= hostPort then None
    else
      match LastIndexOf(hostPort, ':')
      case None => Some(Uri(user, hostPort, 5060, parameters))
      case Some(colon) =>
        match PortOf(hostPort[colon + 1..])
        case None => None
        case Some(port) => Some(Uri(user, hostPort[..colon], port, parameters))
  }

  function Authority(authority: string, parameters: map<string, string>): Option<Uri> {
    match LastIndexOf(authority, '@')
    case None => HostPort("", authority, parameters)
    case Some(at) =>
      if at == 0 || at == |authority| - 1 then None else HostPort(authority[..at], authority[at + 1..], parameters)
  }

  predicate Supported(uri: Uri) {
    var transport := Lookup(uri.parameters, "transport");
    !BadUser(uri.user) && ConcreteV4(uri.host) && (transport != "" ==> LowerAll(transport) == "udp")
  }

  function ParseUri(value: string): Option<Uri> {
    var trimmed := Trim(value);
    if !("sip:" <= LowerAll(trimmed)) then None
    else
      var parts := Split(trimmed[4..], ";");
      match Authority(parts[0], Parameters(parts[1..]))
      case None => None
      case Some(uri) => if Supported(uri) then Some(uri) else None
  }

  /** Display name, URI text and what follows it. */
  datatype Parts = Parts(display: string, rawUri: string, suffix: string)

  function DisplayOf(text: string): Option<string> {
    if "\"" <= text then Unquote(text) else Some(text)
  }

  /** An address whose URI stands in angle brackets that open at `left`. */
  function NameAddr(trimmed: string, left: nat): Option<Parts>
    requires left < |trimmed|
  {
    var rest := trimmed[left + 1..];
    match IndexOutside(OUTSIDE, rest, '>')
    case Unterminated => None
    case Absent => None
    case Found(right) =>
      if right >= |rest| then None
      else
        match DisplayOf(Trim(trimmed[..left]))
        case None => None
        case Some(display) => Some(Parts(display, Trim(rest[..right]), rest[right + 1..]))
  }

  function PartsOf(trimmed: string): Option<Parts> {
    match IndexOutside(OUTSIDE, trimmed, '<')
    case Unterminated => None
    case Found(left) => if left < |trimmed| then NameAddr(trimmed, left) else None
    case Absent =>
      match IndexOf(trimmed, ";")
      case None => Some(Parts("", trimmed, ""))
      case Some(i) => Some(Parts("", trimmed[..i], trimmed[i..]))
  }

  function TrimSemicolon(s: string): string {
    if ";" <= s then s[1..] else s
  }

  function ParseAddress(value: string): Option<Address> {
    match PartsOf(Trim(value))
    case None => None
    case Some(parts) =>
      match ParseUri(parts.rawUri)
      case None => None
      case Some(uri) =>
        match SplitOutside(TrimSemicolon(parts.suffix), ';')
        case None => None
        case Some(texts) =>
          var parameters := Parameters(texts);
          Some(Address(parts.display, uri, parts.rawUri, Lookup(parameters, "tag"), parameters))
  }

  // Printing.

  predicate Forbidden(c: char) {
    c == '\r' || c == '\n' || c == '<' || c == '>' || c == '@' || c == ';' || c == ' '
  }

  /** What a scenario accepts as a caller. */
  predicate ValidUser(user: string) {
    user != "" && forall i :: 0 <= i < |user| ==> !Forbidden(user[i])
  }

  function SanitizeUser(user: string): string {
    if ValidUser(user) then user else "sutel"
  }

  datatype V4 = V4(a: nat, b: nat, c: nat, d: nat) {
    predicate Concrete() {
      a <= 255 && b <= 255 && c <= 255 && d <= 255 && a + b + c + d != 0
    }

    function Octets(): seq<string> {
      [Itoa(a), Itoa(b), Itoa(c), Itoa(d)]
    }

    function Text(): string {
      Join(Octets(), ".")
    }
  }

  function SipUri(user: string, host: string, port: nat): string {
    "sip:" + SanitizeUser(user) + "@" + host + ":" + Itoa(port) + ";transport=udp"
  }

  /** The From header of a call. */
  function FromHeader(display: string, uri: string, tag: string): string {
    (if display == "" then "" else Quoted(display) + " ") + "<" + uri + ">;tag=" + tag
  }

  // What the printed URI reads as.

  lemma {:induction false} LastIndexAfter(a: string, c: char, b: string)
    requires c !in b
    ensures LastIndexOf(a + [c] + b, c) == Some(|a|)
  {
    var s := a + [c] + b;
    if b != "" {
      assert s[..|s| - 1] == a + [c] + b[..|b| - 1];
      assert s[|s| - 1] == b[|b| - 1] && b[|b| - 1] in b;
      LastIndexAfter(a, c, b[..|b| - 1]);
    }
  }

  lemma {:induction false} ItoaNoZero(n: nat)
    ensures Itoa(n)[0] == '0' <==> n == 0
    ensures n == 0 <==> Itoa(n) == "0"
  {
    if n >= 10 {
      ItoaNoZero(n / 10);
    }
  }

  lemma OctetText(n: nat)
    requires n <= 255
    ensures Octet(Itoa(n)) && '.' !in Itoa(n) && ':' !in Itoa(n) && ';' !in Itoa(n) && '@' !in Itoa(n)
  {
    NaturalItoa(n);
    ItoaNoZero(n);
  }

  lemma HostText(v: V4)
    requires v.Concrete()
    ensures ConcreteV4(v.Text()) && Split(v.Text(), ".") == v.Octets()
  {
    OctetsPlain(v);
    HostSplits(v.Octets());
    ItoaNoZero(v.a);
    ItoaNoZero(v.b);
    ItoaNoZero(v.c);
    ItoaNoZero(v.d);
    assert v.Octets()[0] == Itoa(v.a) && v.Octets()[1] == Itoa(v.b) && v.Octets()[2] == Itoa(v.c)
           && v.Octets()[3] == Itoa(v.d);
  }

  lemma OctetAt(octet: string, n: nat)
    requires n <= 255 && octet == Itoa(n)
    ensures Octet(octet) && '.' !in octet
  {
    OctetText(n);
  }

  lemma OctetsPlain(v: V4)
    requires v.Concrete()
    ensures forall i :: 0 <= i < |v.Octets()| ==> Octet(v.Octets()[i]) && '.' !in v.Octets()[i]
  {
    OctetAt(v.Octets()[0], v.a);
    OctetAt(v.Octets()[1], v.b);
    OctetAt(v.Octets()[2], v.c);
    OctetAt(v.Octets()[3], v.d);
  }

  lemma HostSplits(octets: seq<string>)
    requires octets != [] && forall i :: 0 <= i < |octets| ==> '.' !in octets[i]
    ensures Split(Join(octets, "."), ".") == octets
  {
    SplitJoin(octets, ".");
  }

  /** A host is digits and dots. */
  predicate HostChars(s: string) {
    forall i :: 0 <= i < |s| ==> IsDigit(s[i]) || s[i] == '.'
  }

  lemma {:induction false} JoinChars(parts: seq<string>)
    requires forall i :: 0 <= i < |parts| ==> AllDigits(parts[i])
    ensures HostChars(Join(parts, "."))
  {
    if |parts| > 1 {
      JoinChars(parts[1..]);
    }
  }

  lemma HostPlain(v: V4)
    ensures HostChars(v.Text()) && v.Text() != ""
  {
    JoinChars(v.Octets());
  }

  /** The three pieces of a string around its last `c`. */
  lemma AroundLast(a: string, c: char, b: string)
    requires c !in b
    ensures var s := a + [c] + b; LastIndexOf(s, c) == Some(|a|) && s[..|a|] == a && s[|a| + 1..] == b
  {
    LastIndexAfter(a, c, b);
  }

  lemma PortReads(port: nat)
    requires 0 < port <= 0xFFFF
    ensures PortOf(Itoa(port)) == Some(port) && ':' !in Itoa(port) && '@' !in Itoa(port)
  {
    NaturalItoa(port);
  }

  lemma HostPortReads(user: string, host: string, digits: string, port: nat, parameters: map<string, string>)
    requires HostChars(host) && host != "" && PortOf(digits) == Some(port) && ':' !in digits
    ensures HostPort(user, host + [':'] + digits, parameters) == Some(Uri(user, host, port, parameters))
  {
    assert (host + [':'] + digits)[0] == host[0];
    AroundLast(host, ':', digits);
  }

  lemma AuthorityIs(user: string, hostPort: string, parameters: map<string, string>)
    requires user != "" && hostPort != "" && '@' !in hostPort
    ensures Authority(user + ['@'] + hostPort, parameters) == HostPort(user, hostPort, parameters)
  {
    AroundLast(user, '@', hostPort);
  }

  lemma NoAt(host: string, digits: string)
    requires HostChars(host) && '@' !in digits
    ensures '@' !in host + [':'] + digits
  {
  }

  lemma AuthorityShape(user: string, host: string, digits: string)
    ensures user + "@" + host + ":" + digits == user + ['@'] + (host + [':'] + digits)
  {
  }

  lemma AuthorityReads(user: string, host: string, port: nat, parameters: map<string, string>, text: string)
    requires user != "" && HostChars(host) && host != "" && 0 < port <= 0xFFFF
    requires text == user + "@" + host + ":" + Itoa(port)
    ensures Authority(text, parameters) == Some(Uri(user, host, port, parameters))
  {
    var digits := Itoa(port);
    PortReads(port);
    NoAt(host, digits);
    HostPortReads(user, host, digits, port, parameters);
    AuthorityIs(user, host + [':'] + digits, parameters);
    AuthorityShape(user, host, digits);
  }

  predicate GoodName(name: string) {
    name != "" && Trimmed(name) && LowerAll(name) == name && '=' !in name
  }

  lemma ParameterReads(name: string, value: string)
    requires GoodName(name) && Trimmed(value)
    ensures Parameter(name + "=" + value) == (name, value)
    ensures Parameters([name + "=" + value]) == map[name := value]
  {
    NameValue(name, value);
    TrimTrimmed(name);
    TrimTrimmed(value);
    assert [name + "=" + value][..0] == [];
  }

  const UDP := map["transport" := "udp"]

  lemma TransportName()
    ensures GoodName("transport") && Trimmed("udp")
  {
    assert LowerAll("transport") == "transport";
  }

  lemma TransportReads()
    ensures Parameters(["transport=udp"]) == UDP
  {
    TransportName();
    ParameterReads("transport", "udp");
    assert "transport" + "=" + "udp" == "transport=udp";
  }

  lemma UdpSupported(user: string, host: string, port: nat)
    requires ValidUser(user) && ConcreteV4(host)
    ensures Supported(Uri(user, host, port, UDP))
  {
    UserPlain(user);
    assert LowerAll("udp") == "udp";
  }

  /** The authority, and after the semicolon the transport. */
  lemma UriSplits(authority: string)
    requires ';' !in authority
    ensures Split(authority + ";" + "transport=udp", ";") == [authority, "transport=udp"]
  {
    var parts := [authority, "transport=udp"];
    assert parts[1..] == ["transport=udp"];
    SplitJoin(parts, ";");
  }

  lemma UserPlain(user: string)
    requires ValidUser(user)
    ensures ';' !in user && '<' !in user && '>' !in user && '\r' !in user && '\n' !in user && '@' !in user
    ensures SanitizeUser(user) == user
  {
  }

  lemma UriTrimmed(user: string, host: string, port: nat)
    requires ValidUser(user)
    ensures var text := SipUri(user, host, port);
            && Trim(text) == text && "sip:" <= LowerAll(text) && text != ""
            && text[4..] == user + "@" + host + ":" + Itoa(port) + ";" + "transport=udp"
  {
    var text, tail := SipUri(user, host, port), user + "@" + host + ":" + Itoa(port) + ";" + "transport=udp";
    assert text == "sip:" + tail;
    assert text[0] == 's' && text[|text| - 1] == 'p';
    TrimTrimmed(text);
    assert LowerAll(text)[..4] == "sip:" by {
      assert text[..4] == "sip:";
    }
  }

  lemma NoSemicolon(user: string, host: string, digits: string)
    requires ';' !in user && HostChars(host) && AllDigits(digits)
    ensures ';' !in user + "@" + host + ":" + digits
  {
    assert ';' !in host && ';' !in digits && ';' !in "@" && ';' !in ":";
  }

  /** The printed URI reads back as its user, host and port. */
  lemma UriReads(user: string, v: V4, port: nat)
    requires ValidUser(user) && v.Concrete() && 0 < port <= 0xFFFF
    ensures ParseUri(SipUri(user, v.Text(), port)) == Some(Uri(user, v.Text(), port, UDP))
  {
    var host := v.Text();
    var authority := user + "@" + host + ":" + Itoa(port);
    UserPlain(user);
    UriTrimmed(user, host, port);
    HostText(v);
    HostPlain(v);
    NoSemicolon(user, host, Itoa(port));
    UriSplits(authority);
    TransportReads();
    AuthorityReads(user, host, port, UDP, authority);
    UdpSupported(user, host, port);
    assert [authority, "transport=udp"][1..] == ["transport=udp"];
    UriAssembled(SipUri(user, host, port), [authority, "transport=udp"], Uri(user, host, port, UDP));
  }

  lemma UriAssembled(text: string, parts: seq<string>, uri: Uri)
    requires Trim(text) == text && "sip:" <= LowerAll(text) && Split(text[4..], ";") == parts
    requires Authority(parts[0], Parameters(parts[1..])) == Some(uri) && Supported(uri)
    ensures ParseUri(text) == Some(uri)
  {
  }

  // What the printed header reads as.

  predicate TagChar(c: char) {
    'a' <= c <= 'z' || 'A' <= c <= 'Z' || '0' <= c <= '9' || c == '-'
  }

  predicate GoodTag(tag: string) {
    tag != "" && forall i :: 0 <= i < |tag| ==> TagChar(tag[i])
  }

  lemma {:induction false} PlainScan(s: string, target: char)
    requires '\"' !in s && target !in s
    ensures Uncut(OUTSIDE, s, target, false) && ScanAll(OUTSIDE, s, false) == OUTSIDE
  {
    if s != "" {
      assert s[0] in s;
      PlainScan(s[1..], target);
    }
  }

  /** Every quoted string in the text ends in it. */
  predicate QuotesEnd(text: string) {
    ScanAll(OUTSIDE, text, false) == OUTSIDE
  }

  lemma {:induction false} NeverCut(s: Scan, text: string, target: char)
    requires target !in text
    ensures Uncut(s, text, target, false)
    decreases |text|
  {
    if text != "" {
      assert text[0] in text;
      NeverCut(Next(s, text[0], false), text[1..], target);
    }
  }

  /** Only a quoted string can be left open. */
  lemma {:induction false} OpenIsQuoted(s: Scan, text: string)
    requires s.depth == 0 && (s.escaped ==> s.quoted)
    ensures var end := ScanAll(s, text, false); end == OUTSIDE || end.quoted
    decreases |text|
  {
    if text != "" {
      OpenIsQuoted(Next(s, text[0], false), text[1..]);
    }
  }

  /** In a quoted string that does not end nothing is found. */
  lemma {:induction false} QuotedOn(s: Scan, text: string, target: char)
    requires s.quoted && '\"' !in text
    ensures IndexOutside(s, text, target) == Unterminated
    decreases |text|
  {
    if text != "" {
      assert text[0] in text;
      QuotedOn(Next(s, text[0], false), text[1..], target);
    }
  }

  lemma TagPlain(tag: string)
    requires GoodTag(tag)
    ensures '\"' !in tag && ';' !in tag && Trimmed(tag)
  {
  }

  lemma TagParameter(tag: string)
    requires GoodTag(tag)
    ensures Parameters(["tag=" + tag]) == map["tag" := tag]
  {
    TagPlain(tag);
    assert LowerAll("tag") == "tag";
    ParameterReads("tag", tag);
    assert "tag" + "=" + tag == "tag=" + tag;
  }

  lemma WholeText(text: string)
    requires text != "" && '\"' !in text && ';' !in text
    ensures SplitOutside(text, ';') == Some([text])
  {
    PlainScan(text, ';');
    PiecesUncut(OUTSIDE, "", text, "", ';', false);
    assert text + "" == text && "" + text == text;
  }

  lemma TagReads(tag: string)
    requires GoodTag(tag)
    ensures SplitOutside("tag=" + tag, ';') == Some(["tag=" + tag])
    ensures Parameters(["tag=" + tag]) == map["tag" := tag]
  {
    TagPlain(tag);
    TagParameter(tag);
    WholeText("tag=" + tag);
  }

  lemma UriPlain(user: string, v: V4, port: nat)
    requires ValidUser(user)
    ensures var text := SipUri(user, v.Text(), port); '<' !in text && '>' !in text && Trim(text) == text
  {
    UserPlain(user);
    HostPlain(v);
    UriTrimmed(user, v.Text(), port);
    NotInUri(user, v.Text(), Itoa(port), '<');
    NotInUri(user, v.Text(), Itoa(port), '>');
  }

  /** What stands behind the user in the printed URI. */
  function Behind(v: V4, port: nat): string {
    "@" + v.Text() + ":" + Itoa(port) + ";transport=udp"
  }

  lemma UriOf(user: string, v: V4, port: nat)
    requires ValidUser(user)
    ensures SipUri(user, v.Text(), port) == ("sip:" + user) + Behind(v, port)
    ensures '\"' !in Behind(v, port) && '\"' !in "sip:"
  {
    HostPlain(v);
    UserPlain(user);
    assert '\"' !in "@" && '\"' !in ":" && '\"' !in ";transport=udp" && '\"' !in v.Text() && '\"' !in Itoa(port);
  }

  /** The scan of the printed URI depends on the user alone. */
  lemma UriScans(user: string, v: V4, port: nat)
    requires ValidUser(user)
    ensures ScanAll(OUTSIDE, "sip:" + user, false) == ScanAll(OUTSIDE, user, false)
    ensures QuotesEnd(user) ==> QuotesEnd(SipUri(user, v.Text(), port))
  {
    UriOf(user, v, port);
    PlainScan("sip:", '>');
    ScanJoin(OUTSIDE, "sip:", user, false);
    if QuotesEnd(user) {
      HostPlain(v);
      assert '>' !in Behind(v, port) by {
        UriPlain(user, v, port);
      }
      PlainScan(Behind(v, port), '>');
      ScanJoin(OUTSIDE, "sip:" + user, Behind(v, port), false);
    }
  }

  lemma NotInUri(user: string, host: string, digits: string, c: char)
    requires c == '<' || c == '>'
    requires c !in user && HostChars(host) && AllDigits(digits)
    ensures c !in "sip:" + user + "@" + host + ":" + digits + ";transport=udp"
  {
    assert c !in "sip:" && c !in "@" && c !in ":" && c !in ";transport=udp";
    assert c !in host && c !in digits;
  }

  /** The header before its URI: nothing, or the quoted name and a blank. */
  function Lead(display: string): string {
    if display == "" then "" else Quoted(display) + " "
  }

  lemma LeadScans(display: string)
    ensures Uncut(OUTSIDE, Lead(display), '<', false) && ScanAll(OUTSIDE, Lead(display), false) == OUTSIDE
  {
    if display != "" {
      QuotedWhole(display, '<', false);
      UncutJoin(OUTSIDE, Quoted(display), " ", '<', false);
      ScanJoin(OUTSIDE, Quoted(display), " ", false);
      assert " "[1..] == "";
    }
  }

  lemma LeadReads(display: string)
    requires '\r' !in display && '\n' !in display
    ensures DisplayOf(Trim(Lead(display))) == Some(display)
  {
    if display != "" {
      var quoted := Quoted(display);
      UnquoteQuoted(display);
      assert Lead(display)[..|quoted|] == quoted && Lead(display)[|quoted|] == ' ';
      assert quoted[0] == '\"' && quoted[|quoted| - 1] == '\"';
      assert TrimRight(Lead(display)) == TrimRight(quoted) == quoted;
    }
  }

  lemma FoundAfter(a: string, c: char, b: string)
    requires Uncut(OUTSIDE, a, c, false) && ScanAll(OUTSIDE, a, false) == OUTSIDE
    ensures IndexOutside(OUTSIDE, a + ([c] + b), c) == Found(|a|)
    ensures var s := a + ([c] + b); s[..|a|] == a && s[|a| + 1..] == b
  {
    IndexUncut(OUTSIDE, a, [c] + b, c);
  }

  lemma NameAddrReads(text: string, lead: string, uri: string, suffix: string, display: string)
    requires text == lead + (['<'] + (uri + (['>'] + suffix)))
    requires Uncut(OUTSIDE, lead, '<', false) && ScanAll(OUTSIDE, lead, false) == OUTSIDE
    requires Uncut(OUTSIDE, uri, '>', false) && ScanAll(OUTSIDE, uri, false) == OUTSIDE
    requires DisplayOf(Trim(lead)) == Some(display) && Trim(uri) == uri
    ensures PartsOf(text) == Some(Parts(display, uri, suffix))
  {
    FoundAfter(lead, '<', uri + (['>'] + suffix));
    UriEnds(uri, suffix);
    PartsFrom(text, lead, uri + (['>'] + suffix), uri, suffix, display);
  }

  lemma UriEnds(uri: string, suffix: string)
    requires Uncut(OUTSIDE, uri, '>', false) && ScanAll(OUTSIDE, uri, false) == OUTSIDE
    ensures var rest := uri + (['>'] + suffix);
            IndexOutside(OUTSIDE, rest, '>') == Found(|uri|) && rest[..|uri|] == uri && rest[|uri| + 1..] == suffix
  {
    FoundAfter(uri, '>', suffix);
  }

  lemma PartsFrom(text: string, lead: string, rest: string, uri: string, suffix: string, display: string)
    requires IndexOutside(OUTSIDE, text, '<') == Found(|lead|) && |lead| < |text| && text[..|lead|] == lead
             && text[|lead| + 1..] == rest
    requires IndexOutside(OUTSIDE, rest, '>') == Found(|uri|) && |uri| < |rest| && rest[..|uri|] == uri
             && rest[|uri| + 1..] == suffix
    requires DisplayOf(Trim(lead)) == Some(display) && Trim(uri) == uri
    ensures PartsOf(text) == Some(Parts(display, uri, suffix))
  {
  }

  lemma HeaderShape(display: string, uri: string, tag: string)
    ensures FromHeader(display, uri, tag) == Lead(display) + (['<'] + (uri + (['>'] + (";tag=" + tag))))
  {
  }

  lemma HeaderParts(display: string, uri: string, tag: string)
    requires '\r' !in display && '\n' !in display && QuotesEnd(uri) && '>' !in uri && Trim(uri) == uri
    ensures PartsOf(FromHeader(display, uri, tag)) == Some(Parts(display, uri, ";tag=" + tag))
  {
    LeadScans(display);
    LeadReads(display);
    NeverCut(OUTSIDE, uri, '>');
    HeaderShape(display, uri, tag);
    NameAddrReads(FromHeader(display, uri, tag), Lead(display), uri, ";tag=" + tag, display);
  }

  lemma HeaderTrimmed(display: string, uri: string, tag: string)
    requires GoodTag(tag)
    ensures Trim(FromHeader(display, uri, tag)) == FromHeader(display, uri, tag)
  {
    var text := FromHeader(display, uri, tag);
    assert text[0] == '\"' || text[0] == '<';
    assert text[|text| - 1] == tag[|tag| - 1];
    TrimTrimmed(text);
  }

  lemma AddressAssembled(text: string, parts: Parts, uri: Uri, tag: string)
    requires Trim(text) == text && PartsOf(text) == Some(parts) && ParseUri(parts.rawUri) == Some(uri)
    requires parts.suffix == ";" + ("tag=" + tag) && SplitOutside("tag=" + tag, ';') == Some(["tag=" + tag])
    requires Parameters(["tag=" + tag]) == map["tag" := tag]
    ensures ParseAddress(text) == Some(Address(parts.display, uri, parts.rawUri, tag, map["tag" := tag]))
  {
    assert TrimSemicolon(parts.suffix) == "tag=" + tag;
  }

  lemma SuffixOf(tag: string)
    ensures ";tag=" + tag == ";" + ("tag=" + tag)
  {
  }

  /** A header around a URI text that reads as some URI. */
  lemma HeaderReads(display: string, text: string, uri: Uri, tag: string)
    requires '\r' !in display && '\n' !in display && GoodTag(tag)
    requires ParseUri(text) == Some(uri) && QuotesEnd(text) && '>' !in text && Trim(text) == text
    ensures ParseAddress(FromHeader(display, text, tag)) == Some(Address(display, uri, text, tag, map["tag" := tag]))
  {
    HeaderTrimmed(display, text, tag);
    HeaderParts(display, text, tag);
    TagReads(tag);
    SuffixOf(tag);
    AddressAssembled(FromHeader(display, text, tag), Parts(display, text, ";tag=" + tag), uri, tag);
  }

  /** An open quoted string takes whatever follows with it. */
  lemma NeverClosed(open: string, after: string)
    requires '>' !in open && '\"' !in after && !QuotesEnd(open)
    ensures IndexOutside(OUTSIDE, open + after, '>') == Unterminated
  {
    NeverCut(OUTSIDE, open, '>');
    IndexUncut(OUTSIDE, open, after, '>');
    OpenIsQuoted(OUTSIDE, open);
    QuotedOn(ScanAll(OUTSIDE, open, false), after, '>');
  }

  lemma PartsRefused(text: string, lead: string, rest: string)
    requires text == lead + (['<'] + rest) && IndexOutside(OUTSIDE, rest, '>') == Unterminated
    requires Uncut(OUTSIDE, lead, '<', false) && ScanAll(OUTSIDE, lead, false) == OUTSIDE
    ensures PartsOf(text) == None
  {
    FoundAfter(lead, '<', rest);
  }

  lemma OpenShape(open: string, behind: string, tag: string)
    requires '\"' !in behind && GoodTag(tag)
    ensures (open + behind) + (['>'] + (";tag=" + tag)) == open + (behind + (">;tag=" + tag))
    ensures '\"' !in behind + (">;tag=" + tag)
  {
    TagPlain(tag);
    assert '\"' !in ">;tag=";
  }

  lemma HeaderRefused(display: string, open: string, behind: string, tag: string)
    requires '>' !in open && '\"' !in behind && !QuotesEnd(open) && GoodTag(tag)
    ensures ParseAddress(FromHeader(display, open + behind, tag)) == None
  {
    HeaderTrimmed(display, open + behind, tag);
    LeadScans(display);
    HeaderShape(display, open + behind, tag);
    OpenShape(open, behind, tag);
    NeverClosed(open, behind + (">;tag=" + tag));
    PartsRefused(FromHeader(display, open + behind, tag), Lead(display),
                 (open + behind) + (['>'] + (";tag=" + tag)));
  }

  /**
   * The caller's From header reads back as exactly its display name, user, host, port and tag if every quoted string
   * in the user ends there; otherwise it is refused.
   */
  lemma FromReads(display: string, user: string, v: V4, port: nat, tag: string)
    requires '\r' !in display && '\n' !in display
    requires ValidUser(user) && v.Concrete() && 0 < port <= 0xFFFF && GoodTag(tag)
    ensures var text, uri := SipUri(user, v.Text(), port), Uri(user, v.Text(), port, UDP);
            ParseAddress(FromHeader(display, text, tag))
            == if QuotesEnd(user) then Some(Address(display, uri, text, tag, map["tag" := tag])) else None
  {
    UriPlain(user, v, port);
    UriReads(user, v, port);
    UriScans(user, v, port);
    if QuotesEnd(user) {
      HeaderReads(display, SipUri(user, v.Text(), port), Uri(user, v.Text(), port, UDP), tag);
    } else {
      UriOf(user, v, port);
      UserPlain(user);
      HeaderRefused(display, "sip:" + user, Behind(v, port), tag);
    }
  }

  /** A caller that a scenario accepts and whose own header cannot be read, and one whose quotes balance. */
  lemma QuotedCallers(display: string, v: V4, port: nat, tag: string)
    requires '\r' !in display && '\n' !in display && v.Concrete() && 0 < port <= 0xFFFF && GoodTag(tag)
    ensures ValidUser("a\"b") && ParseAddress(FromHeader(display, SipUri("a\"b", v.Text(), port), tag)) == None
    ensures ValidUser("a\"b\"c")
    ensures ParseAddress(FromHeader(display, SipUri("a\"b\"c", v.Text(), port), tag)).Some?
  {
    assert "a\"b"[1..][1..][1..] == "";
    assert !QuotesEnd("a\"b");
    assert "a\"b\"c"[1..][1..][1..][1..][1..] == "";
    assert QuotesEnd("a\"b\"c");
    FromReads(display, "a\"b", v, port, tag);
    FromReads(display, "a\"b\"c", v, port, tag);
  }
}

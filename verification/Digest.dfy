/** Digest authentication: the challenge parser and the Authorization printer undo each other (inbound.go). */
module Digest {
  import opened Options
  import opened Text
  import opened Quotes

  /** One parameter of a Digest header. */
  datatype Param = Param(name: string, value: string, quoted: bool)

  function TextOf(p: Param): string {
    p.name + "=" + if p.quoted then Quoted(p.value) else p.value
  }

  // Reading.

  predicate SameFold(a: string, b: string) {
    LowerAll(a) == LowerAll(b)
  }

  /** The first blank or tab. */
  function SchemeEnd(s: string): Option<nat> {
    if s == "" then None
    else if s[0] == ' ' || s[0] == '\t' then Some(0)
    else
      match SchemeEnd(s[1..])
      case None => None
      case Some(i) => Some(i + 1)
  }

  function ValueOf(raw: string): string {
    if |raw| >= 2 && raw[0] == '\"' && raw[|raw| - 1] == '\"' then Unescape(raw[1..|raw| - 1]) else raw
  }

  /** A parameter, by name and value. */
  function ReadField(field: string): Option<(string, string)> {
    match IndexOf(field, "=")
    case None => None
    case Some(i) => Some((LowerAll(Trim(field[..i])), ValueOf(Trim(field[i + 1..]))))
  }

  function ReadFields(fields: seq<string>): Option<map<string, string>> {
    if fields == [] then Some(map[])
    else
      match ReadFields(fields[..|fields| - 1])
      case None => None
      case Some(parameters) =>
        match ReadField(fields[|fields| - 1])
        case None => None
        case Some(pair) => if pair.0 in parameters then None else Some(parameters[pair.0 := pair.1])
  }

  function ParseChallenge(value: string): Option<map<string, string>> {
    var trimmed := Trim(value);
    match SchemeEnd(trimmed)
    case None => None
    case Some(end) =>
      if end > |trimmed| || !SameFold(trimmed[..end], "Digest") then None
      else ReadFields(ListItems(Trim(trimmed[end..]), false))
  }

  /** The parameters of the fields; none if one is malformed or comes twice. */
  method ReadParameters(fields: seq<string>) returns (parameters: Option<map<string, string>>)
    ensures parameters == ReadFields(fields)
  {
    var read: map<string, string> := map[];
    for index := 0 to |fields|
      invariant ReadFields(fields[..index]) == Some(read)
    {
      assert fields[..index + 1][..index] == fields[..index];
      NoneStays(fields, index + 1);
      var pair := ReadField(fields[index]);
      if pair.None? || pair.value.0 in read {
        return None;
      }
      read := read[pair.value.0 := pair.value.1];
    }
    assert fields[..|fields|] == fields;
    parameters := Some(read);
  }

  method ParseDigestChallenge(value: string) returns (parameters: Option<map<string, string>>)
    ensures parameters == ParseChallenge(value)
  {
    var trimmed := Trim(value);
    var end := SchemeEnd(trimmed);
    if end.None? || end.value > |trimmed| || !SameFold(trimmed[..end.value], "Digest") {
      return None;
    }
    var fields := SplitDigestFields(Trim(trimmed[end.value..]));
    parameters := ReadParameters(fields);
  }

  lemma {:induction false} NoneStays(fields: seq<string>, n: nat)
    requires n <= |fields|
    ensures ReadFields(fields[..n]).None? ==> ReadFields(fields).None?
  {
    if n == |fields| {
      assert fields[..n] == fields;
    } else {
      assert fields[..|fields| - 1][..n] == fields[..n];
      NoneStays(fields[..|fields| - 1], n);
    }
  }

  // What was printed reads back.

  predicate NameChar(c: char) {
    'a' <= c <= 'z'
  }

  predicate PlainChar(c: char) {
    'a' <= c <= 'z' || 'A' <= c <= 'Z' || '0' <= c <= '9' || c == '-'
  }

  /** A lower-case name, and a value that is quoted or plain. */
  predicate GoodParam(p: Param) {
    && p.name != "" && (forall i :: 0 <= i < |p.name| ==> NameChar(p.name[i]))
    && (!p.quoted ==> p.value != "" && forall i :: 0 <= i < |p.value| ==> PlainChar(p.value[i]))
  }

  function MapOf(params: seq<Param>): map<string, string> {
    if params == [] then map[]
    else MapOf(params[..|params| - 1])[params[|params| - 1].name := params[|params| - 1].value]
  }

  function Texts(params: seq<Param>): (r: seq<string>)
    ensures |r| == |params| && forall i :: 0 <= i < |params| ==> r[i] == TextOf(params[i])
  {
    seq(|params|, i requires 0 <= i < |params| => TextOf(params[i]))
  }

  lemma NamePlain(name: string)
    requires name != "" && forall i :: 0 <= i < |name| ==> NameChar(name[i])
    ensures '=' !in name && Trimmed(name) && LowerAll(name) == name
  {
  }

  lemma QuotedTrimmed(value: string)
    ensures var q := Quoted(value); |q| >= 2 && q[0] == '\"' && q[|q| - 1] == '\"' && Trimmed(q) && ValueOf(q) == value
  {
    var q := Quoted(value);
    assert q[1..|q| - 1] == Escape(value);
    UnescapeEscape(value);
  }

  lemma FieldSplits(name: string, raw: string)
    requires '=' !in name && Trimmed(name) && LowerAll(name) == name && Trimmed(raw)
    ensures ReadField(name + "=" + raw) == Some((name, ValueOf(raw)))
  {
    NameValue(name, raw);
    TrimTrimmed(name);
    TrimTrimmed(raw);
  }

  lemma PlainValue(value: string)
    requires value != "" && forall i :: 0 <= i < |value| ==> PlainChar(value[i])
    ensures Trimmed(value) && ValueOf(value) == value
  {
    assert PlainChar(value[0]) && PlainChar(value[|value| - 1]);
  }

  lemma FieldReads(p: Param)
    requires GoodParam(p)
    ensures ReadField(TextOf(p)) == Some((p.name, p.value))
  {
    NamePlain(p.name);
    if p.quoted {
      QuotedTrimmed(p.value);
      FieldSplits(p.name, Quoted(p.value));
    } else {
      PlainValue(p.value);
      FieldSplits(p.name, p.value);
    }
  }

  ghost predicate DistinctNames(params: seq<Param>) {
    forall i, j :: 0 <= i < j < |params| ==> params[i].name != params[j].name
  }

  ghost predicate GoodParams(params: seq<Param>) {
    forall i :: 0 <= i < |params| ==> GoodParam(params[i])
  }

  lemma {:induction false} NotNamed(params: seq<Param>, name: string)
    requires forall i :: 0 <= i < |params| ==> params[i].name != name
    ensures name !in MapOf(params)
  {
    if params != [] {
      NotNamed(params[..|params| - 1], name);
    }
  }

  lemma {:induction false} FieldsRead(params: seq<Param>)
    requires GoodParams(params) && DistinctNames(params)
    ensures ReadFields(Texts(params)) == Some(MapOf(params))
  {
    if params != [] {
      var front, last := params[..|params| - 1], params[|params| - 1];
      FieldsRead(front);
      FieldReads(last);
      NotNamed(front, last.name);
      assert Texts(params)[..|params| - 1] == Texts(front);
    }
  }

  // The list of fields.

  lemma {:induction false} PlainUncut(s: string, angles: bool)
    requires forall i :: 0 <= i < |s| ==> PlainChar(s[i]) || s[i] == '=' || s[i] == ' '
    ensures Uncut(OUTSIDE, s, ',', false) && ScanAll(OUTSIDE, s, false) == OUTSIDE
  {
    if s != "" {
      PlainUncut(s[1..], angles);
    }
  }

  /** A printed parameter, with or without a blank before it, is one piece. */
  lemma ParamWhole(p: Param, blank: bool)
    requires GoodParam(p)
    ensures Whole((if blank then " " else "") + TextOf(p), ',', false)
  {
    var head, raw := (if blank then " " else "") + p.name + "=", if p.quoted then Quoted(p.value) else p.value;
    assert (if blank then " " else "") + TextOf(p) == head + raw;
    PlainUncut(head, false);
    if p.quoted {
      QuotedWhole(p.value, ',', false);
    } else {
      PlainUncut(raw, false);
    }
    UncutJoin(OUTSIDE, head, raw, ',', false);
    ScanJoin(OUTSIDE, head, raw, false);
  }

  lemma ParamTrimmed(p: Param)
    requires GoodParam(p)
    ensures Trimmed(TextOf(p)) && TextOf(p) != ""
  {
    QuotedTrimmed(p.value);
  }

  /** The items as the commas separate them: all but the first begin with a blank. */
  function Spaced(params: seq<Param>): (r: seq<string>)
    ensures |r| == |params|
    ensures forall i :: 0 <= i < |params| ==> r[i] == (if i == 0 then "" else " ") + TextOf(params[i])
  {
    seq(|params|, i requires 0 <= i < |params| => (if i == 0 then "" else " ") + TextOf(params[i]))
  }

  function Blanks(texts: seq<string>): (r: seq<string>)
    ensures |r| == |texts| && forall i :: 0 <= i < |texts| ==> r[i] == " " + texts[i]
  {
    seq(|texts|, i requires 0 <= i < |texts| => " " + texts[i])
  }

  /** Joining with a comma and a blank is joining the blank-led rest with commas. */
  lemma {:induction false} JoinBlanks(texts: seq<string>)
    requires texts != []
    ensures Join(texts, ", ") == Join([texts[0]] + Blanks(texts[1..]), ",")
  {
    if |texts| > 1 {
      JoinBlanks(texts[1..]);
      BlanksFirst(texts[1..]);
      JoinHead(" ", texts[1], Blanks(texts[2..]), ",");
      JoinMore(texts[0], Blanks(texts[1..]), ",");
      assert texts[1..][1..] == texts[2..];
    }
  }

  lemma BlanksFirst(texts: seq<string>)
    requires texts != []
    ensures Blanks(texts) == [" " + texts[0]] + Blanks(texts[1..])
  {
  }

  lemma JoinMore(first: string, rest: seq<string>, sep: string)
    requires rest != []
    ensures Join([first] + rest, sep) == first + sep + Join(rest, sep)
  {
    assert ([first] + rest)[1..] == rest;
  }

  lemma JoinHead(blank: string, first: string, rest: seq<string>, sep: string)
    ensures Join([blank + first] + rest, sep) == blank + Join([first] + rest, sep)
  {
    assert ([blank + first] + rest)[1..] == rest && ([first] + rest)[1..] == rest;
  }

  lemma PieceTrims(p: Param, piece: string)
    requires GoodParam(p) && (piece == TextOf(p) || piece == " " + TextOf(p))
    ensures Trim(piece) == TextOf(p) && TextOf(p) != ""
  {
    ParamTrimmed(p);
    TrimTrimmed(TextOf(p));
    TrimBlank(TextOf(p));
  }

  lemma {:induction false} ItemsTrim(params: seq<Param>, pieces: seq<string>)
    requires GoodParams(params) && |pieces| == |params|
    requires forall i :: 0 <= i < |params| ==> pieces[i] == TextOf(params[i]) || pieces[i] == " " + TextOf(params[i])
    ensures Items(pieces) == Texts(params)
  {
    if params != [] {
      ItemsTrim(params[1..], pieces[1..]);
      PieceTrims(params[0], pieces[0]);
      assert Texts(params) == [TextOf(params[0])] + Texts(params[1..]);
    }
  }

  /** A printed parameter list splits into its parameters. */
  lemma ListReads(params: seq<Param>)
    requires params != [] && GoodParams(params)
    ensures ListItems(Join(Texts(params), ", "), false) == Texts(params)
  {
    var texts, spaced := Texts(params), Spaced(params);
    JoinBlanks(texts);
    assert [texts[0]] + Blanks(texts[1..]) == spaced by {
      assert "" + texts[0] == texts[0];
    }
    forall i | 0 <= i < |spaced|
      ensures Whole(spaced[i], ',', false)
    {
      ParamWhole(params[i], i != 0);
    }
    PiecesJoin(spaced, ',', false);
    ItemsTrim(params, spaced);
  }

  lemma {:induction false} JoinEnds(texts: seq<string>, sep: string)
    requires texts != [] && forall i :: 0 <= i < |texts| ==> texts[i] != "" && Trimmed(texts[i])
    ensures Join(texts, sep) != "" && Trimmed(Join(texts, sep))
  {
    if |texts| > 1 {
      JoinEnds(texts[1..], sep);
    }
  }

  /** A printed header reads back as exactly its parameters. */
  lemma HeaderReads(params: seq<Param>)
    requires params != [] && GoodParams(params) && DistinctNames(params)
    ensures ParseChallenge("Digest " + Join(Texts(params), ", ")) == Some(MapOf(params))
  {
    var list := Join(Texts(params), ", ");
    var value := "Digest " + list;
    forall i | 0 <= i < |params|
      ensures Texts(params)[i] != "" && Trimmed(Texts(params)[i])
    {
      ParamTrimmed(params[i]);
    }
    JoinEnds(Texts(params), ", ");
    SchemeReads(list);
    ListReads(params);
    FieldsRead(params);
  }

  lemma SchemeReads(list: string)
    requires list != "" && Trimmed(list)
    ensures var value := "Digest " + list;
            Trim(value) == value && SchemeEnd(value) == Some(6) && value[..6] == "Digest" && Trim(value[6..]) == list
  {
    var value := "Digest " + list;
    TrimTrimmed(value);
    assert value[6..] == " " + list;
    TrimBlank(list);
    SchemeSkip("Digest", " " + list);
    assert value == "Digest" + (" " + list);
  }

  lemma {:induction false} SchemeSkip(word: string, rest: string)
    requires ' ' !in word && '\t' !in word && rest != "" && rest[0] == ' '
    ensures SchemeEnd(word + rest) == Some(|word|)
  {
    if word == "" {
      assert word + rest == rest;
    } else {
      assert (word + rest)[0] == word[0] && word[0] in word && (word + rest)[1..] == word[1..] + rest;
      SchemeSkip(word[1..], rest);
    }
  }

  // Answering a challenge.

  /** Some offered quality of protection is plain authentication. */
  predicate OffersAuth(offered: string) {
    exists i :: 0 <= i < |Split(offered, ",")| && SameFold(Trim(Split(offered, ",")[i]), "auth")
  }

  datatype Algorithm = Md5 | Sha256 | Unsupported

  function AlgorithmOf(offered: string): Algorithm {
    if offered == "" || SameFold(offered, "MD5") then Md5
    else if SameFold(offered, "SHA-256") then Sha256
    else Unsupported
  }

  datatype Account = Account(username: string, password: string)

  /** The two hashes, as functions to hexadecimal text. */
  datatype Hashes = Hashes(md5: string -> string, sha256: string -> string) {
    function Of(a: Algorithm): string -> string {
      if a == Sha256 then sha256 else md5
    }
  }

  predicate UsesAuth(m: map<string, string>) {
    Lookup(m, "qop") != ""
  }

  /** What the response hash is taken of. */
  function ResponseOf(m: map<string, string>, account: Account, verb: string, uri: string, cnonce: string,
                      hash: string -> string): string {
    var ha1 := hash(account.username + ":" + Lookup(m, "realm") + ":" + account.password);
    var ha2 := hash(verb + ":" + uri);
    hash(if UsesAuth(m) then ha1 + ":" + Lookup(m, "nonce") + ":00000001:" + cnonce + ":auth:" + ha2
         else ha1 + ":" + Lookup(m, "nonce") + ":" + ha2)
  }

  function FixedAnswer(m: map<string, string>, account: Account, uri: string, response: string,
                       algorithm: Algorithm): seq<Param> {
    [Param("username", account.username, true), Param("realm", Lookup(m, "realm"), true),
     Param("nonce", Lookup(m, "nonce"), true),
     Param("uri", uri, true), Param("response", response, true),
     Param("algorithm", if algorithm == Sha256 then "SHA-256" else "MD5", false)]
  }

  function OpaqueAnswer(m: map<string, string>): seq<Param> {
    if Lookup(m, "opaque") != "" then [Param("opaque", Lookup(m, "opaque"), true)] else []
  }

  function AuthAnswer(m: map<string, string>, cnonce: string): seq<Param> {
    if UsesAuth(m) then [Param("qop", "auth", false), Param("nc", "00000001", false), Param("cnonce", cnonce, true)]
    else []
  }

  function AnswerParams(m: map<string, string>, account: Account, uri: string, cnonce: string, response: string,
                        algorithm: Algorithm): seq<Param> {
    FixedAnswer(m, account, uri, response, algorithm) + OpaqueAnswer(m) + AuthAnswer(m, cnonce)
  }

  predicate Answerable(m: map<string, string>) {
    && Lookup(m, "realm") != "" && Lookup(m, "nonce") != ""
    && AlgorithmOf(Lookup(m, "algorithm")) != Unsupported
    && (UsesAuth(m) ==> OffersAuth(Lookup(m, "qop")))
  }

  /** What is being asked for, and by whom. */
  datatype Asking = Asking(account: Account, verb: string, uri: string, cnonce: string, hashes: Hashes) {
    function Response(m: map<string, string>): string {
      ResponseOf(m, account, verb, uri, cnonce, hashes.Of(AlgorithmOf(Lookup(m, "algorithm"))))
    }

    function Params(m: map<string, string>): seq<Param> {
      AnswerParams(m, account, uri, cnonce, Response(m), AlgorithmOf(Lookup(m, "algorithm")))
    }
  }

  /** The Authorization header that answers a challenge, if it can be answered. */
  function Answer(challenge: string, a: Asking): Option<string> {
    match ParseChallenge(challenge)
    case None => None
    case Some(m) => if Answerable(m) then Some("Digest " + Join(Texts(a.Params(m)), ", ")) else None
  }

  predicate Refused(challenges: seq<string>, n: nat, a: Asking)
    requires n <= |challenges|
  {
    forall j :: 0 <= j < n ==> Answer(challenges[j], a) == None
  }

  /** The first challenge that can be answered is. */
  method DigestAuthorization(challenges: seq<string>, a: Asking) returns (authorization: Option<string>, index: nat)
    ensures index <= |challenges| && Refused(challenges, index, a)
    ensures authorization == if index < |challenges| then Answer(challenges[index], a) else None
    ensures index < |challenges| ==> authorization.Some?
  {
    index := 0;
    while index < |challenges|
      invariant index <= |challenges| && Refused(challenges, index, a)
    {
      authorization := Answer(challenges[index], a);
      if authorization.Some? {
        return;
      }
      index := index + 1;
    }
    authorization := None;
  }

  lemma GoodJoin(a: seq<Param>, b: seq<Param>)
    requires GoodParams(a) && GoodParams(b)
    ensures GoodParams(a + b)
  {
  }

  lemma FixedGood(m: map<string, string>, account: Account, uri: string, response: string, algorithm: Algorithm)
    ensures GoodParams(FixedAnswer(m, account, uri, response, algorithm))
  {
  }

  lemma OpaqueGood(m: map<string, string>)
    ensures GoodParams(OpaqueAnswer(m))
  {
  }

  lemma AuthGood(m: map<string, string>, cnonce: string)
    ensures GoodParams(AuthAnswer(m, cnonce))
  {
  }

  lemma AnswerGood(m: map<string, string>, account: Account, uri: string, cnonce: string, response: string,
                   algorithm: Algorithm)
    ensures GoodParams(AnswerParams(m, account, uri, cnonce, response, algorithm))
  {
    var fixed := FixedAnswer(m, account, uri, response, algorithm);
    FixedGood(m, account, uri, response, algorithm);
    OpaqueGood(m);
    AuthGood(m, cnonce);
    GoodJoin(fixed, OpaqueAnswer(m));
    GoodJoin(fixed + OpaqueAnswer(m), AuthAnswer(m, cnonce));
  }

  lemma AnswerParamsGood(m: map<string, string>, a: Asking)
    ensures GoodParams(a.Params(m))
  {
    AnswerGood(m, a.account, a.uri, a.cnonce, a.Response(m), AlgorithmOf(Lookup(m, "algorithm")));
  }

  lemma DistinctJoin(a: seq<Param>, b: seq<Param>)
    requires DistinctNames(a) && DistinctNames(b)
    requires forall i, j :: 0 <= i < |a| && 0 <= j < |b| ==> a[i].name != b[j].name
    ensures DistinctNames(a + b)
  {
  }

  lemma FixedDistinct(m: map<string, string>, account: Account, uri: string, response: string, algorithm: Algorithm)
    ensures var fixed := FixedAnswer(m, account, uri, response, algorithm);
            && DistinctNames(fixed)
            && forall i :: 0 <= i < |fixed| ==>
                 fixed[i].name != "opaque" && fixed[i].name != "qop" && fixed[i].name != "nc"
                   && fixed[i].name != "cnonce"
  {
  }

  lemma AnswerParamsDistinct(m: map<string, string>, a: Asking)
    ensures DistinctNames(a.Params(m))
  {
    var fixed := FixedAnswer(m, a.account, a.uri, a.Response(m), AlgorithmOf(Lookup(m, "algorithm")));
    FixedDistinct(m, a.account, a.uri, a.Response(m), AlgorithmOf(Lookup(m, "algorithm")));
    DistinctJoin(fixed, OpaqueAnswer(m));
    DistinctJoin(fixed + OpaqueAnswer(m), AuthAnswer(m, a.cnonce));
  }

  lemma {:induction false} MapOfHas(params: seq<Param>, i: nat)
    requires DistinctNames(params) && i < |params|
    ensures params[i].name in MapOf(params) && MapOf(params)[params[i].name] == params[i].value
  {
    if i < |params| - 1 {
      MapOfHas(params[..|params| - 1], i);
    }
  }

  /** The parameters an answer to a challenge must carry. */
  predicate Carries(parsed: map<string, string>, m: map<string, string>, a: Asking) {
    && Lookup(parsed, "username") == a.account.username
    && Lookup(parsed, "realm") == Lookup(m, "realm")
    && Lookup(parsed, "nonce") == Lookup(m, "nonce")
    && Lookup(parsed, "uri") == a.uri
    && Lookup(parsed, "response") == a.Response(m)
    && ("opaque" in parsed <==> Lookup(m, "opaque") != "") && Lookup(parsed, "opaque") == Lookup(m, "opaque")
    && ("cnonce" in parsed <==> UsesAuth(m)) && (UsesAuth(m) ==> parsed["cnonce"] == a.cnonce)
    && ("qop" in parsed <==> UsesAuth(m)) && (UsesAuth(m) ==> parsed["qop"] == "auth")
  }

  lemma FixedParams(m: map<string, string>, a: Asking)
    ensures var parsed := MapOf(a.Params(m));
            && Lookup(parsed, "username") == a.account.username && Lookup(parsed, "realm") == Lookup(m, "realm")
            && Lookup(parsed, "nonce") == Lookup(m, "nonce") && Lookup(parsed, "uri") == a.uri
            && Lookup(parsed, "response") == a.Response(m)
  {
    var params := a.Params(m);
    AnswerParamsDistinct(m, a);
    MapOfHas(params, 0);
    MapOfHas(params, 1);
    MapOfHas(params, 2);
    MapOfHas(params, 3);
    MapOfHas(params, 4);
  }

  lemma OpaqueParams(m: map<string, string>, a: Asking)
    ensures var parsed := MapOf(a.Params(m));
            ("opaque" in parsed <==> Lookup(m, "opaque") != "") && Lookup(parsed, "opaque") == Lookup(m, "opaque")
  {
    var params := a.Params(m);
    AnswerParamsDistinct(m, a);
    if Lookup(m, "opaque") != "" {
      MapOfHas(params, 6);
    } else {
      NotNamed(params, "opaque");
    }
  }

  lemma AuthParams(m: map<string, string>, a: Asking)
    ensures var parsed := MapOf(a.Params(m));
            && ("cnonce" in parsed <==> UsesAuth(m)) && (UsesAuth(m) ==> parsed["cnonce"] == a.cnonce)
            && ("qop" in parsed <==> UsesAuth(m)) && (UsesAuth(m) ==> parsed["qop"] == "auth")
  {
    var params := a.Params(m);
    AnswerParamsDistinct(m, a);
    if UsesAuth(m) {
      MapOfHas(params, |params| - 3);
      MapOfHas(params, |params| - 1);
    } else {
      NotNamed(params, "qop");
      NotNamed(params, "cnonce");
    }
  }

  lemma AnswerIs(challenge: string, a: Asking, m: map<string, string>)
    requires ParseChallenge(challenge) == Some(m) && Answerable(m)
    ensures Answer(challenge, a) == Some("Digest " + Join(Texts(a.Params(m)), ", "))
  {
  }

  lemma ParamsRead(m: map<string, string>, a: Asking)
    ensures ParseChallenge("Digest " + Join(Texts(a.Params(m)), ", ")) == Some(MapOf(a.Params(m)))
  {
    AnswerParamsGood(m, a);
    AnswerParamsDistinct(m, a);
    HeaderReads(a.Params(m));
  }

  /** Whatever bytes the values hold, the printed answer reads back as exactly what was put into it. */
  lemma AnswerReads(challenge: string, a: Asking, m: map<string, string>)
    requires ParseChallenge(challenge) == Some(m) && Answerable(m)
    ensures Answer(challenge, a).Some? && ParseChallenge(Answer(challenge, a).value).Some?
    ensures Carries(ParseChallenge(Answer(challenge, a).value).value, m, a)
  {
    AnswerIs(challenge, a, m);
    ParamsRead(m, a);
    FixedParams(m, a);
    OpaqueParams(m, a);
    AuthParams(m, a);
  }

  /** A hash is hexadecimal, so its quotes need no escapes. */
  lemma {:induction false} EscapePlain(value: string)
    requires forall i :: 0 <= i < |value| ==> PlainChar(value[i])
    ensures Escape(value) == value && Quoted(value) == "\"" + value + "\""
  {
    if value != "" {
      EscapePlain(value[1..]);
    }
  }

  lemma ResponseAt(m: map<string, string>, account: Account, uri: string, cnonce: string, response: string,
                   algorithm: Algorithm)
    ensures var params := AnswerParams(m, account, uri, cnonce, response, algorithm);
            |params| > 4 && params[4] == Param("response", response, true)
  {
    var fixed := FixedAnswer(m, account, uri, response, algorithm);
    assert fixed[4] == Param("response", response, true);
  }

  lemma PlainText(value: string)
    requires forall i :: 0 <= i < |value| ==> PlainChar(value[i])
    ensures TextOf(Param("response", value, true)) == "response=" + ("\"" + value + "\"")
  {
    EscapePlain(value);
    assert "response" + "=" == "response=";
  }

  /** A response in hexadecimal is printed as it is. */
  lemma ResponseUnescaped(m: map<string, string>, a: Asking)
    requires forall i :: 0 <= i < |a.Response(m)| ==> PlainChar(a.Response(m)[i])
    ensures |a.Params(m)| > 4 && TextOf(a.Params(m)[4]) == "response=" + ("\"" + a.Response(m) + "\"")
  {
    ResponseAt(m, a.account, a.uri, a.cnonce, a.Response(m), AlgorithmOf(Lookup(m, "algorithm")));
    PlainText(a.Response(m));
  }
}

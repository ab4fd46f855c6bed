/** The digit in the body of a SIP INFO request, printed and parsed (dialog.go and signaling.go). */
module DtmfInfo {
  import opened Options
  import opened Text

  const RELAY := "application/dtmf-relay"

  /** The status of the answer; the digit and its duration in milliseconds when that is 200. */
  datatype Info = Info(status: nat, digit: string, duration: int)

  function Failed(status: nat): Info {
    Info(status, "", 0)
  }

  predicate IsDtmf(c: char) {
    '0' <= c <= '9' || c == '*' || c == '#' || 'A' <= c <= 'D' || 'a' <= c <= 'd'
  }

  /** A body's lines, whether they end in CRLF or in LF. */
  function LinesOf(body: string): seq<string> {
    Split(Join(Split(body, CRLF), "\n"), "\n")
  }

  /** The fields with those of one more line. */
  function AddField(fields: map<string, string>, line: string): Option<map<string, string>> {
    if line == "" then Some(fields)
    else
      match IndexOf(line, "=")
      case None => None
      case Some(i) =>
        var key := LowerAll(Trim(line[..i]));
        if key == "" || key in fields then None else Some(fields[key := Trim(line[i + 1..])])
  }

  /** The fields of the lines, by name; none if a line is no field, has no name or repeats one. */
  function FieldsOf(lines: seq<string>): Option<map<string, string>> {
    if lines == [] then Some(map[])
    else
      match FieldsOf(lines[..|lines| - 1])
      case None => None
      case Some(fields) => AddField(fields, Trim(lines[|lines| - 1]))
  }

  function DigitOf(fields: map<string, string>): Info {
    var digit, duration := UpperAll(Lookup(fields, "signal")), Atoi(Lookup(fields, "duration"));
    if |digit| != 1 || !IsDtmf(digit[0]) then Failed(400)
    else if duration.None? || duration.value <= 0 || duration.value > 10000 then Failed(400)
    else Info(200, digit, duration.value)
  }

  function ParseInfo(contentType: string, body: string): Info {
    if LowerAll(Trim(Split(contentType, ";")[0])) != RELAY then Failed(415)
    else
      match FieldsOf(LinesOf(body))
      case None => Failed(400)
      case Some(fields) => DigitOf(fields)
  }

  lemma {:induction false} FieldsStop(lines: seq<string>, n: nat)
    requires n <= |lines| && FieldsOf(lines[..n]).None?
    ensures FieldsOf(lines).None?
  {
    if n == |lines| {
      assert lines[..n] == lines;
    } else {
      assert lines[..|lines| - 1][..n] == lines[..n];
      FieldsStop(lines[..|lines| - 1], n);
    }
  }

  method ReadFields(lines: seq<string>) returns (fields: Option<map<string, string>>)
    ensures fields == FieldsOf(lines)
  {
    var read: map<string, string> := map[];
    for index := 0 to |lines|
      invariant FieldsOf(lines[..index]) == Some(read)
    {
      assert lines[..index + 1][..index] == lines[..index];
      var line := Trim(lines[index]);
      if line != "" {
        var equals := IndexOf(line, "=");
        if equals.None? {
          FieldsStop(lines, index + 1);
          return None;
        }
        var key := LowerAll(Trim(line[..equals.value]));
        if key == "" || key in read {
          FieldsStop(lines, index + 1);
          return None;
        }
        read := read[key := Trim(line[equals.value + 1..])];
      }
    }
    assert lines[..|lines|] == lines;
    fields := Some(read);
  }

  method ParseDtmfInfo(contentType: string, body: string) returns (info: Info)
    ensures info == ParseInfo(contentType, body)
  {
    if LowerAll(Trim(Split(contentType, ";")[0])) != RELAY {
      return Failed(415);
    }
    var fields := ReadFields(LinesOf(body));
    info := if fields.None? then Failed(400) else DigitOf(fields.value);
  }

  /** The body of the INFO that sends a digit. */
  function BodyOf(digit: char): string {
    "Signal=" + [Upper(digit)] + CRLF + "Duration=160" + CRLF
  }

  lemma JoinThree(a: string, b: string, sep: string)
    ensures Join([a, b, ""], sep) == a + sep + (b + sep)
  {
    assert [a, b, ""][1..] == [b, ""] && [b, ""][1..] == [""];
    assert Join([b, ""], sep) == b + sep + "" == b + sep;
  }

  lemma BodySplits(a: string, b: string, body: string)
    requires body == a + CRLF + (b + CRLF)
    requires '\r' !in a && '\r' !in b && '\n' !in a && '\n' !in b
    ensures LinesOf(body) == [a, b, ""]
  {
    JoinThree(a, b, CRLF);
    SplitJoin([a, b, ""], CRLF);
    SplitJoin([a, b, ""], "\n");
  }

  lemma BodyLines(digit: char)
    requires IsDtmf(digit)
    ensures LinesOf(BodyOf(digit)) == ["Signal=" + [Upper(digit)], "Duration=160", ""]
  {
    var first, second := "Signal=" + [Upper(digit)], "Duration=160";
    BodySplits(first, second, BodyOf(digit));
  }

  lemma FieldLine(fields: map<string, string>, name: string, value: string, key: string)
    requires '=' !in name && name != "" && Trimmed(name) && Trimmed(value) && value != ""
    requires LowerAll(name) == key && key !in fields
    ensures Trim(name + "=" + value) == name + "=" + value
    ensures AddField(fields, name + "=" + value) == Some(fields[key := value])
  {
    NameValue(name, value);
    TrimTrimmed(name + "=" + value);
    TrimTrimmed(name);
    TrimTrimmed(value);
  }

  lemma FieldReads(lines: seq<string>, name: string, value: string, key: string, fields: map<string, string>)
    requires FieldsOf(lines) == Some(fields) && '=' !in name && name != "" && Trimmed(name) && Trimmed(value)
             && value != ""
    requires LowerAll(name) == key && key !in fields
    ensures FieldsOf(lines + [name + "=" + value]) == Some(fields[key := value])
  {
    assert (lines + [name + "=" + value])[..|lines|] == lines;
    FieldLine(fields, name, value, key);
  }

  lemma EmptyReads(lines: seq<string>)
    ensures FieldsOf(lines + [""]) == FieldsOf(lines)
  {
    assert (lines + [""])[..|lines|] == lines;
  }

  lemma UpperDigit(digit: char)
    requires IsDtmf(digit)
    ensures IsDtmf(Upper(digit)) && !Space(Upper(digit)) && Upper(Upper(digit)) == Upper(digit)
  {
  }

  lemma DurationReads()
    ensures Atoi("160") == Some(160)
  {
    assert Itoa(1) == "1" && Itoa(16) == "16" && Itoa(160) == "160";
    AtoiItoa(160);
  }

  lemma SignalLower()
    ensures LowerAll("Signal") == "signal"
  {
  }

  lemma DurationLower()
    ensures LowerAll("Duration") == "duration"
  {
  }

  lemma RelayPlain()
    ensures LowerAll(RELAY) == RELAY && Trim(RELAY) == RELAY && ';' !in RELAY
  {
    TrimTrimmed(RELAY);
  }

  lemma SignalField(digit: char)
    requires IsDtmf(digit)
    ensures FieldsOf(["Signal=" + [Upper(digit)]]) == Some(map["signal" := [Upper(digit)]])
  {
    var value := [Upper(digit)];
    UpperDigit(digit);
    SignalLower();
    assert FieldsOf([]) == Some(map[]);
    FieldReads([], "Signal", value, "signal", map[]);
    assert "Signal" + "=" + value == "Signal=" + value;
    assert [] + ["Signal=" + value] == ["Signal=" + value];
  }

  lemma SecondField(first: string, signal: string)
    requires FieldsOf([first]) == Some(map["signal" := signal])
    ensures FieldsOf([first, "Duration=160"]) == Some(map["signal" := signal, "duration" := "160"])
  {
    DurationLower();
    FieldReads([first], "Duration", "160", "duration", map["signal" := signal]);
    assert "Duration" + "=" + "160" == "Duration=160";
    assert [first] + ["Duration=160"] == [first, "Duration=160"];
  }

  lemma BothFields(digit: char)
    requires IsDtmf(digit)
    ensures FieldsOf(["Signal=" + [Upper(digit)], "Duration=160", ""])
            == Some(map["signal" := [Upper(digit)], "duration" := "160"])
  {
    var first, second := "Signal=" + [Upper(digit)], "Duration=160";
    SignalField(digit);
    SecondField(first, [Upper(digit)]);
    EmptyReads([first, second]);
    assert [first, second] + [""] == [first, second, ""];
  }

  /** The digit that was sent is the digit that is read, in upper case, with its duration. */
  lemma InfoReads(digit: char)
    requires IsDtmf(digit)
    ensures ParseInfo(RELAY, BodyOf(digit)) == Info(200, [Upper(digit)], 160)
  {
    RelayPlain();
    IndexNone(RELAY, ";");
    BodyLines(digit);
    BothFields(digit);
    UpperDigit(digit);
    DurationReads();
    assert UpperAll([Upper(digit)]) == [Upper(digit)];
  }
}

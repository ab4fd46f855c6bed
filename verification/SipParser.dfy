/** The parser as it runs: unfolding lines, reading headers, checking announced lengths (internal/sip/message.go). */
module SipParser {
  import opened Options
  import opened Text
  import opened SipText

  lemma {:induction false} UnfoldStops(raws: seq<string>, n: nat)
    requires 0 < n <= |raws| && Unfold(raws[..n]).None?
    ensures Unfold(raws).None?
  {
    if n == |raws| {
      assert raws[..n] == raws;
    } else {
      assert raws[..|raws| - 1][..n] == raws[..n];
      UnfoldStops(raws[..|raws| - 1], n);
    }
  }

  lemma UnfoldNext(raws: seq<string>, n: nat, lines: seq<string>)
    requires 0 < n < |raws| && Unfold(raws[..n]) == Some(lines)
    ensures Unfold(raws[..n + 1]) == AddLine(lines, TrimCarriage(raws[n]))
    ensures AddLine(lines, TrimCarriage(raws[n])).None? ==> Unfold(raws).None?
  {
    assert raws[..n + 1][..n] == raws[..n];
    if AddLine(lines, TrimCarriage(raws[n])).None? {
      UnfoldStops(raws, n + 1);
    }
  }

  method UnfoldLines(raws: seq<string>) returns (lines: Option<seq<string>>)
    requires raws != []
    ensures lines == Unfold(raws)
  {
    var unfolded := [TrimCarriage(raws[0])];
    assert raws[..1] == [raws[0]];
    for index := 1 to |raws|
      invariant Unfold(raws[..index]) == Some(unfolded) && unfolded != []
    {
      UnfoldNext(raws, index, unfolded);
      var line := TrimCarriage(raws[index]);
      if Folds(line) {
        if |unfolded| == 1 {
          return None;
        }
        unfolded := unfolded[..|unfolded| - 1] + [unfolded[|unfolded| - 1] + " " + Trim(line)];
      } else {
        unfolded := unfolded + [line];
      }
    }
    assert raws[..|raws|] == raws;
    lines := Some(unfolded);
  }

  /** What one more header makes of those read so far. */
  function Extend(headers: Option<seq<Header>>, h: Option<Header>): Option<seq<Header>> {
    if headers.None? || h.None? then None else Some(headers.value + [h.value])
  }

  function Precede(h: Option<Header>, headers: Option<seq<Header>>): Option<seq<Header>> {
    if headers.None? || h.None? then None else Some([h.value] + headers.value)
  }

  lemma PrecedeExtend(a: Option<Header>, headers: Option<seq<Header>>, z: Option<Header>)
    ensures Precede(a, Extend(headers, z)) == Extend(Precede(a, headers), z)
  {
    if a.Some? && headers.Some? && z.Some? {
      assert [a.value] + (headers.value + [z.value]) == [a.value] + headers.value + [z.value];
    }
  }

  lemma ReadFirst(line: string, lines: seq<string>)
    ensures ReadHeaders([line] + lines) == Precede(ReadHeader(line), ReadHeaders(lines))
  {
    assert ([line] + lines)[1..] == lines;
  }

  lemma {:induction false} ReadHeadersLast(lines: seq<string>, line: string)
    ensures ReadHeaders(lines + [line]) == Extend(ReadHeaders(lines), ReadHeader(line))
  {
    if lines == [] {
      ReadFirst(line, []);
      assert [] + [line] == [line] + [];
      if ReadHeader(line).Some? {
        assert [ReadHeader(line).value] + [] == [] + [ReadHeader(line).value];
      }
    } else {
      ReadHeadersLast(lines[1..], line);
      ReadFirst(lines[0], lines[1..]);
      ReadFirst(lines[0], lines[1..] + [line]);
      PrecedeExtend(ReadHeader(lines[0]), ReadHeaders(lines[1..]), ReadHeader(line));
      assert lines == [lines[0]] + lines[1..];
      assert lines + [line] == [lines[0]] + (lines[1..] + [line]);
    }
  }

  lemma {:induction false} LengthsLast(headers: seq<Header>, h: Header)
    ensures Lengths(headers + [h]) == Lengths(headers) +
              if h.name == CONTENT_LENGTH && Atoi(h.value).Some? then [Atoi(h.value).value] else []
  {
    var all := headers + [h];
    if headers == [] {
      assert all == [h] && all[1..] == [];
    } else {
      assert all[0] == headers[0] && all[1..] == headers[1..] + [h];
      LengthsLast(headers[1..], h);
    }
  }

  lemma {:induction false} ReadHeadersStops(lines: seq<string>, n: nat)
    requires n <= |lines| && ReadHeaders(lines[..n]).None?
    ensures ReadHeaders(lines).None?
    decreases |lines| - n
  {
    if n == |lines| {
      assert lines[..n] == lines;
    } else {
      assert lines[..n + 1] == lines[..n] + [lines[n]];
      ReadHeadersLast(lines[..n], lines[n]);
      ReadHeadersStops(lines, n + 1);
    }
  }

  lemma ReadHeadersAt(lines: seq<string>, n: nat, before: seq<string>, after: seq<string>)
    requires n < |lines| && before == lines[..n] && after == lines[..n + 1]
    ensures ReadHeaders(after) == Extend(ReadHeaders(before), ReadHeader(lines[n]))
  {
    assert after == before + [lines[n]];
    ReadHeadersLast(before, lines[n]);
  }

  lemma ReadHeadersNext(lines: seq<string>, n: nat, read: seq<Header>, h: Option<Header>)
    requires n < |lines| && ReadHeaders(lines[..n]) == Some(read) && h == ReadHeader(lines[n])
    ensures ReadHeaders(lines[..n + 1]) == Extend(Some(read), h)
  {
    ReadHeadersAt(lines, n, lines[..n], lines[..n + 1]);
  }

  /** The headers, and the lengths they announce. */
  method ReadAllHeaders(lines: seq<string>) returns (headers: Option<seq<Header>>, lengths: seq<int>)
    ensures headers == ReadHeaders(lines)
    ensures headers.Some? ==> lengths == Lengths(headers.value)
  {
    var read: seq<Header> := [];
    lengths := [];
    for index := 0 to |lines|
      invariant ReadHeaders(lines[..index]) == Some(read) && lengths == Lengths(read)
    {
      var parsed := ReadHeader(lines[index]);
      ReadHeadersNext(lines, index, read, parsed);
      if parsed.None? {
        ReadHeadersStops(lines, index + 1);
        return None, lengths;
      }
      var header := parsed.value;
      LengthsLast(read, header);
      read := read + [header];
      if header.name == CONTENT_LENGTH {
        var length := Atoi(header.value);
        if length.Some? {
          lengths := lengths + [length.value];
        }
      }
    }
    assert lines[..|lines|] == lines;
    headers := Some(read);
  }

  /** The announced lengths agree with each other and with the body. */
  method CheckLengths(lengths: seq<int>, size: nat) returns (ok: bool)
    ensures ok == LengthFits(lengths, size)
  {
    var length: int := size;
    if |lengths| > 0 {
      length := lengths[0];
      for index := 1 to |lengths|
        invariant forall i :: 0 <= i < index ==> lengths[i] == length
      {
        if lengths[index] != length {
          return false;
        }
      }
    }
    ok := size == length;
  }

  method ParseLines(lines: seq<string>, body: string) returns (reading: Reading)
    requires lines != []
    ensures reading == ReadLines(lines, body)
  {
    var start := ReadStart(lines[0]);
    if start.None? {
      return Malformed;
    }
    var headers, lengths := ReadAllHeaders(lines[1..]);
    if headers.None? {
      return Malformed;
    }
    var ok := CheckLengths(lengths, |body|);
    reading := if ok then Read(Message(start.value, headers.value, body)) else Malformed;
  }

  method ParseHead(head: string, separator: string, body: string) returns (reading: Reading)
    requires separator != ""
    ensures reading == ReadHead(head, separator, body)
  {
    var raws := Split(head, separator);
    if Trim(raws[0]) == "" {
      return Malformed;
    }
    var lines := UnfoldLines(raws);
    if lines.None? || lines.value == [] {
      return Malformed;
    }
    reading := ParseLines(lines.value, body);
  }

  /** The head of the data ends here, and its lines are broken like this. */
  predicate Separated(data: string, separator: string, lineSeparator: string, index: Option<nat>) {
    index == IndexOf(data, separator) &&
    if separator == CRLF + CRLF then lineSeparator == CRLF && index.Some?
    else separator == "\n\n" && lineSeparator == "\n" && IndexOf(data, CRLF + CRLF).None?
  }

  lemma ParseFrom(data: string, maximum: int, separator: string, lineSeparator: string, index: Option<nat>)
    requires |data| <= Limit(maximum) && Separated(data, separator, lineSeparator, index)
    ensures lineSeparator != "" && (index.Some? ==> index.value + |separator| <= |data|)
    ensures Parse(data, maximum) ==
              if index.None? then Malformed
              else ReadHead(data[..index.value], lineSeparator, data[index.value + |separator|..])
  {
  }

  method ParseMessage(data: string, maximum: int) returns (reading: Reading)
    ensures reading == Parse(data, maximum)
  {
    var limit := if maximum <= 0 then 64 * 1024 else maximum;
    if |data| > limit {
      return TooLarge;
    }
    var separator, lineSeparator := CRLF + CRLF, CRLF;
    var index := IndexOf(data, separator);
    if index.None? {
      separator, lineSeparator := "\n\n", "\n";
      index := IndexOf(data, separator);
    }
    ParseFrom(data, maximum, separator, lineSeparator, index);
    if index.None? {
      return Malformed;
    }
    reading := ParseHead(data[..index.value], lineSeparator, data[index.value + |separator|..]);
  }
}

/**
 What the event-stream reader makes of a block: the fields of arbitrary blocks, and a round trip for
 events that are written out by the rules of section 9.2 of the WHATWG HTML Living Standard.
 */
module EventParsing {
  import opened Wrappers
  import opened EventStream

  // ----- lines

  predicate OneLine(s: string) { '\n' !in s }

  predicate OneLineEach(lines: seq<string>) { forall l :: l in lines ==> OneLine(l) }

  lemma {:induction false} LineEndIs(s: string)
    ensures OneLine(s[..LineEnd(s)]) && (LineEnd(s) < |s| ==> s[LineEnd(s)] == '\n')
    decreases |s|
  {
    if s != "" && s[0] != '\n' {
      LineEndIs(s[1..]);
      assert s[..LineEnd(s)] == [s[0]] + s[1..][..LineEnd(s[1..])];
    }
  }

  lemma {:induction false} LinesJoinToText(s: string)
    ensures SplitLines(s) != [] && OneLineEach(SplitLines(s)) && JoinLines(SplitLines(s)) == s
    decreases |s|
  {
    var i := LineEnd(s);
    LineEndIs(s);
    if i < |s| {
      LinesJoinToText(s[i + 1..]);
      assert s == s[..i] + "\n" + s[i + 1..];
    } else {
      assert s[..i] == s;
    }
  }

  lemma {:induction false} LineEndOfFirst(line: string, rest: string)
    requires OneLine(line)
    ensures LineEnd(line + "\n" + rest) == |line| && LineEnd(line) == |line|
  {
    if line != "" {
      LineEndOfFirst(line[1..], rest);
      assert (line + "\n" + rest)[1..] == line[1..] + "\n" + rest;
    }
  }

  lemma {:induction false} JoinedLinesSplit(lines: seq<string>)
    requires lines != [] && OneLineEach(lines)
    ensures SplitLines(JoinLines(lines)) == lines
  {
    assert lines[0] in lines;
    if |lines| == 1 {
      LineEndOfFirst(lines[0], "");
      assert lines[0][..|lines[0]|] == lines[0] && lines == [lines[0]];
    } else {
      var rest := JoinLines(lines[1..]);
      LineEndOfFirst(lines[0], rest);
      JoinedLinesSplit(lines[1..]);
      assert (lines[0] + "\n" + rest)[|lines[0]| + 1..] == rest && (lines[0] + "\n" + rest)[..|lines[0]|] == lines[0];
      assert lines == [lines[0]] + lines[1..];
    }
  }

  /** chunk.split('\n') is the one way to cut a block into lines. */
  lemma SplitLinesInvertsJoin(s: string, lines: seq<string>)
    ensures SplitLines(s) == lines <==> lines != [] && OneLineEach(lines) && JoinLines(lines) == s
  {
    LinesJoinToText(s);
    if lines != [] && OneLineEach(lines) {
      JoinedLinesSplit(lines);
    }
  }

  // ----- values

  /** White space in front is dropped, all of it and nothing else. */
  lemma {:induction false} DropSpacesDropsLeading(s: string) returns (n: nat)
    ensures n <= |s| && DropSpaces(s) == s[n..]
    ensures (forall i :: 0 <= i < n ==> IsSpace(s[i])) && (n < |s| ==> !IsSpace(s[n]))
  {
    n := 0;
    if s != "" && IsSpace(s[0]) {
      var m := DropSpacesDropsLeading(s[1..]);
      n := m + 1;
      assert s[1..][m..] == s[n..];
      forall i | 0 <= i < n
        ensures IsSpace(s[i])
      {
        assert i > 0 ==> s[i] == s[1..][i - 1];
      }
    }
  }

  lemma {:induction false} DropSpacesOf(spaces: string, s: string)
    requires (forall c :: c in spaces ==> IsSpace(c)) && (s != "" ==> !IsSpace(s[0]))
    ensures DropSpaces(spaces + s) == s
  {
    if spaces != "" {
      assert (spaces + s)[1..] == spaces[1..] + s;
      DropSpacesOf(spaces[1..], s);
    } else {
      assert spaces + s == s;
    }
  }

  function DigitOf(n: nat): char
    requires n < 10
  {
    ('0' as int + n) as char
  }

  /** n in decimal. */
  function Numeral(n: nat): (s: string)
    ensures s != ""
  {
    if n < 10 then [DigitOf(n)] else Numeral(n / 10) + [DigitOf(n % 10)]
  }

  lemma {:induction false} NumeralIsDigits(n: nat)
    ensures (forall c :: c in Numeral(n) ==> IsDigit(c)) && Decimal(Numeral(n)) == n
  {
    if n >= 10 {
      NumeralIsDigits(n / 10);
      assert Init(Numeral(n)) == Numeral(n / 10);
    } else {
      assert Init(Numeral(n)) == "";
    }
  }

  lemma {:induction false} DigitsOf(digits: string, rest: string)
    requires (forall c :: c in digits ==> IsDigit(c)) && (rest != "" ==> !IsDigit(rest[0]))
    ensures Digits(digits + rest) == digits
  {
    if digits != "" {
      assert (digits + rest)[1..] == digits[1..] + rest;
      DigitsOf(digits[1..], rest);
    } else {
      assert digits + rest == rest;
    }
  }

  lemma SignsAndDigitsAreNoSpace(c: char)
    requires c in "+-" || IsDigit(c)
    ensures !IsSpace(c)
  {
  }

  /** The number after its sign. */
  function Unsigned(text: string): string { if text != "" && text[0] in "+-" then text[1..] else text }

  lemma UnsignedOf(sign: string, rest: string)
    requires sign in {"", "+", "-"} && (sign == "" && rest != "" ==> rest[0] !in "+-")
    ensures Unsigned(sign + rest) == rest && (sign + rest != "" && (sign + rest)[0] == '-' <==> sign == "-")
  {
    if sign == "" {
      assert sign + rest == rest;
    } else {
      assert (sign + rest)[0] == sign[0] && (sign + rest)[1..] == rest;
    }
  }

  lemma ParseIntIs(s: string)
    ensures var text := DropSpaces(s);
            var digits := Digits(Unsigned(text));
            ParseInt(s) == if digits == "" then None
                           else if text != "" && text[0] == '-' then Some(0 - Decimal(digits))
                           else Some(Decimal(digits))
  {
  }

  lemma NumberStarts(n: nat, rest: string)
    ensures var text := Numeral(n) + rest; text != "" && IsDigit(text[0]) && text[0] !in "+-"
  {
    NumeralIsDigits(n);
    assert (Numeral(n) + rest)[0] == Numeral(n)[0];
    assert Numeral(n)[0] in Numeral(n);
  }

  /** Number.parseInt: white space, a sign if any, digits, and whatever follows them. */
  lemma ParseIntReads(spaces: string, sign: string, n: nat, rest: string)
    requires (forall c :: c in spaces ==> IsSpace(c)) && sign in {"", "+", "-"} && (rest != "" ==> !IsDigit(rest[0]))
    ensures ParseInt(spaces + (sign + Numeral(n) + rest)) == Some(if sign == "-" then 0 - n else n)
  {
    var text := sign + (Numeral(n) + rest);
    assert text == sign + Numeral(n) + rest;
    NumberStarts(n, rest);
    assert text[0] == if sign == "" then (Numeral(n) + rest)[0] else sign[0];
    SignsAndDigitsAreNoSpace(text[0]);
    DropSpacesOf(spaces, text);
    UnsignedOf(sign, Numeral(n) + rest);
    NumeralIsDigits(n);
    DigitsOf(Numeral(n), rest);
    ParseIntIs(spaces + (sign + Numeral(n) + rest));
  }

  /** Without a digit after the sign there is no number. */
  lemma ParseIntRefuses(spaces: string, sign: string, rest: string)
    requires (forall c :: c in spaces ==> IsSpace(c)) && sign in {"", "+", "-"}
    requires (rest != "" ==> !IsDigit(rest[0])) && (sign == "" && rest != "" ==> rest[0] !in "+-" && !IsSpace(rest[0]))
    ensures ParseInt(spaces + (sign + rest)) == None
  {
    var text := sign + rest;
    if sign != "" {
      SignsAndDigitsAreNoSpace(sign[0]);
      assert text[0] == sign[0] && text[1..] == rest;
    } else {
      assert text == rest;
    }
    DropSpacesOf(spaces, text);
    DigitsOf("", rest);
    assert "" + rest == rest;
  }

  // ----- arbitrary blocks

  predicate Says(line: string, name: string) { name <= line }

  /** The value a line gives to the field it names. */
  function ValueOf(line: string, name: string): string
    requires Says(line, name)
  {
    DropSpaces(line[|name|..])
  }

  /** What the lines give to the field, in their order. */
  function ValuesOf(lines: seq<string>, name: string): seq<string> {
    if lines == [] then []
    else if Says(Last(lines), name) then ValuesOf(Init(lines), name) + [ValueOf(Last(lines), name)]
    else ValuesOf(Init(lines), name)
  }

  /** The values that begin with a number. */
  function NumbersOf(values: seq<string>): seq<int> {
    if values == [] then []
    else if ParseInt(Last(values)).Some? then NumbersOf(Init(values)) + [ParseInt(Last(values)).value]
    else NumbersOf(Init(values))
  }

  function LastOr<T>(values: seq<T>, otherwise: T): T { if values == [] then otherwise else Last(values) }

  function LastOrNone<T>(values: seq<T>, otherwise: Option<T>): Option<T> {
    if values == [] then otherwise else Some(Last(values))
  }

  /** No line speaks of two fields. */
  lemma NamesDiffer(line: string)
    ensures !(Says(line, "data:") && Says(line, "event:")) && !(Says(line, "data:") && Says(line, "id:"))
    ensures !(Says(line, "data:") && Says(line, "retry:")) && !(Says(line, "event:") && Says(line, "id:"))
    ensures !(Says(line, "event:") && Says(line, "retry:")) && !(Says(line, "id:") && Says(line, "retry:"))
  {
    assert Says(line, "data:") ==> line[0] == 'd';
    assert Says(line, "event:") ==> line[0] == 'e';
    assert Says(line, "id:") ==> line[0] == 'i';
    assert Says(line, "retry:") ==> line[0] == 'r';
  }

  /** What one line does to each field. */
  lemma LineIsRead(f: Fields, line: string)
    ensures var g := ReadLine(f, line);
            && g.dataLines == f.dataLines + (if Says(line, "data:") then [ValueOf(line, "data:")] else [])
            && g.eventName == (if Says(line, "event:") then Some(ValueOf(line, "event:")) else f.eventName)
            && g.lastEventId == (if Says(line, "id:") then Some(ValueOf(line, "id:")) else f.lastEventId)
            && g.retryDelay == if Says(line, "retry:") && ParseInt(ValueOf(line, "retry:")).Some?
                               then ParseInt(ValueOf(line, "retry:")).value else f.retryDelay
  {
    NamesDiffer(line);
  }

  /** What the lines of a block make of the fields. */
  function Gathered(f: Fields, lines: seq<string>): Fields {
    Fields(f.dataLines + ValuesOf(lines, "data:"), LastOrNone(ValuesOf(lines, "event:"), f.eventName),
           LastOrNone(ValuesOf(lines, "id:"), f.lastEventId),
           LastOr(NumbersOf(ValuesOf(lines, "retry:")), f.retryDelay))
  }

  lemma LastIsGathered(f: Fields, lines: seq<string>)
    requires lines != []
    ensures Gathered(f, lines) == ReadLine(Gathered(f, Init(lines)), Last(lines))
  {
    var before, line := Init(lines), Last(lines);
    LineIsRead(Gathered(f, before), line);
    RetryIsGathered(f.retryDelay, ValuesOf(before, "retry:"), if Says(line, "retry:") then ValueOf(line, "retry:")
                      else "");
  }

  lemma RetryIsGathered(was: int, values: seq<string>, v: string)
    ensures LastOr(NumbersOf(values + [v]), was)
            == if ParseInt(v).Some? then ParseInt(v).value else LastOr(NumbersOf(values), was)
  {
    assert Init(values + [v]) == values && Last(values + [v]) == v;
  }

  lemma {:induction false} LinesGather(f: Fields, lines: seq<string>)
    ensures ReadLines(f, lines) == Gathered(f, lines)
  {
    if lines == [] {
      assert f.dataLines + [] == f.dataLines;
    } else {
      LinesGather(f, Init(lines));
      LastIsGathered(f, lines);
    }
  }

  /**
   Any block: one event, its data the values of all data lines joined, its name that of the last event
   line; the last id line and the last retry line with a number win and outlive the block, and without
   one the reader's values stay.  Other lines count for nothing.
   */
  lemma BlockIsRead(r: Reader, block: string)
    ensures var t, lines := ReadBlock(r, block), SplitLines(block);
            var data := ValuesOf(lines, "data:");
            var e := StreamEvent(if data == [] then None else Some(JoinLines(data)),
                                 LastOrNone(ValuesOf(lines, "event:"), None),
                                 LastOrNone(ValuesOf(lines, "id:"), r.lastEventId),
                                 LastOr(NumbersOf(ValuesOf(lines, "retry:")), r.retryDelay));
            t == r.(blocks := r.blocks + [block], events := r.events + [e], lastEventId := e.id, retryDelay := e.retry)
  {
    var was := Fields([], None, r.lastEventId, r.retryDelay);
    LinesGather(was, SplitLines(block));
    assert was.dataLines + ValuesOf(SplitLines(block), "data:") == ValuesOf(SplitLines(block), "data:");
  }

  // ----- a round trip

  /** A value that survives: no line break in it, no white space in front. */
  predicate Plain(v: string) { '\n' !in v && '\r' !in v && (v != "" ==> !IsSpace(v[0])) }

  function DataLines(data: seq<string>): (lines: seq<string>)
    ensures |lines| == |data|
  {
    seq(|data|, i requires 0 <= i < |data| => "data:" + data[i])
  }

  function OptionalLine(name: string, v: Option<string>): seq<string> {
    if v.Some? then [name + v.value] else []
  }

  /** The lines of an event: its data, then name, id and retry delay, as far as it has them. */
  function EventLines(data: seq<string>, event: Option<string>, id: Option<string>, retry: Option<nat>): seq<string> {
    DataLines(data) + OptionalLine("event:", event) + OptionalLine("id:", id)
    + OptionalLine("retry:", if retry.Some? then Some(Numeral(retry.value)) else None)
  }

  /** The event as it goes over the wire, with the blank line that ends it. */
  function Written(lines: seq<string>): string { JoinLines(lines) + "\n\n" }

  predicate PlainEvent(data: seq<string>, event: Option<string>, id: Option<string>) {
    (forall v :: v in data ==> Plain(v)) && (event.Some? ==> Plain(event.value)) && (id.Some? ==> Plain(id.value))
  }

  lemma {:induction false} LinesInTwo(f: Fields, a: seq<string>, b: seq<string>)
    ensures ReadLines(f, a + b) == ReadLines(ReadLines(f, a), b)
    decreases |b|
  {
    if b == [] {
      assert a + b == a;
    } else {
      assert Init(a + b) == a + Init(b) && Last(a + b) == Last(b);
      LinesInTwo(f, a, Init(b));
    }
  }

  lemma PlainValue(name: string, v: string)
    requires Plain(v)
    ensures Says(name + v, name) && ValueOf(name + v, name) == v
  {
    assert (name + v)[|name|..] == v;
    DropSpacesOf("", v);
    assert "" + v == v;
  }

  lemma {:induction false} DataIsRead(f: Fields, data: seq<string>)
    requires forall v :: v in data ==> Plain(v)
    ensures ReadLines(f, DataLines(data)) == f.(dataLines := f.dataLines + data)
  {
    if data != [] {
      var lines := DataLines(data);
      assert Init(lines) == DataLines(Init(data)) && Last(lines) == "data:" + Last(data);
      DataIsRead(f, Init(data));
      PlainValue("data:", Last(data));
      assert data == Init(data) + [Last(data)];
    }
  }

  lemma OneLineIsRead(f: Fields, line: string)
    ensures ReadLines(f, [line]) == ReadLine(f, line)
  {
    assert Init([line]) == [];
  }

  lemma EventNameIsRead(f: Fields, v: Option<string>)
    requires v.Some? ==> Plain(v.value)
    ensures ReadLines(f, OptionalLine("event:", v)) == if v.Some? then f.(eventName := v) else f
  {
    if v.Some? {
      OneLineIsRead(f, "event:" + v.value);
      PlainValue("event:", v.value);
      NamesDiffer("event:" + v.value);
    }
  }

  lemma IdIsRead(f: Fields, v: Option<string>)
    requires v.Some? ==> Plain(v.value)
    ensures ReadLines(f, OptionalLine("id:", v)) == if v.Some? then f.(lastEventId := v) else f
  {
    if v.Some? {
      OneLineIsRead(f, "id:" + v.value);
      PlainValue("id:", v.value);
      NamesDiffer("id:" + v.value);
    }
  }

  lemma NumeralIsPlain(n: nat)
    ensures Plain(Numeral(n)) && ParseInt(Numeral(n)) == Some(n)
  {
    NumeralIsDigits(n);
    SignsAndDigitsAreNoSpace(Numeral(n)[0]);
    ParseIntReads("", "", n, "");
    assert "" + ("" + Numeral(n) + "") == Numeral(n);
  }

  lemma RetryIsRead(f: Fields, n: nat)
    ensures ReadLines(f, OptionalLine("retry:", Some(Numeral(n)))) == f.(retryDelay := n)
  {
    NumeralIsPlain(n);
    OneLineIsRead(f, "retry:" + Numeral(n));
    PlainValue("retry:", Numeral(n));
    NamesDiffer("retry:" + Numeral(n));
  }

  lemma EventLinesAreRead(f: Fields, data: seq<string>, event: Option<string>, id: Option<string>, retry: Option<nat>)
    requires PlainEvent(data, event, id)
    ensures ReadLines(f, EventLines(data, event, id, retry)) ==
            Fields(f.dataLines + data, if event.Some? then event else f.eventName,
                   if id.Some? then id else f.lastEventId, if retry.Some? then retry.value else f.retryDelay)
  {
    var a, b, c := DataLines(data), OptionalLine("event:", event), OptionalLine("id:", id);
    var d := OptionalLine("retry:", if retry.Some? then Some(Numeral(retry.value)) else None);
    LinesInTwo(f, a + b + c, d);
    LinesInTwo(f, a + b, c);
    LinesInTwo(f, a, b);
    DataIsRead(f, data);
    EventNameIsRead(ReadLines(f, a), event);
    IdIsRead(ReadLines(f, a + b), id);
    if retry.Some? {
      RetryIsRead(ReadLines(f, a + b + c), retry.value);
    }
  }

  predicate Solid(line: string) { line != "" && '\n' !in line && '\r' !in line }

  lemma EventLinesAreSolid(data: seq<string>, event: Option<string>, id: Option<string>, retry: Option<nat>)
    requires PlainEvent(data, event, id)
    ensures forall l :: l in EventLines(data, event, id, retry) ==> Solid(l)
  {
    if retry.Some? {
      NumeralIsPlain(retry.value);
    }
    assert forall i :: 0 <= i < |data| ==> data[i] in data && DataLines(data)[i] == "data:" + data[i];
  }

  /** Lines that are not empty leave no blank line between them. */
  lemma {:induction false} SolidLinesHaveNoBreak(lines: seq<string>)
    requires lines != [] && forall l :: l in lines ==> Solid(l)
    ensures var b := JoinLines(lines);
            && b != "" && b[0] != '\n' && b[|b| - 1] != '\n' && '\r' !in b
            && forall j :: 0 <= j < |b| - 1 ==> !(b[j] == '\n' && b[j + 1] == '\n')
  {
    if |lines| == 1 {
      assert lines[0] in lines;
    } else {
      SolidLinesHaveNoBreak(lines[1..]);
      assert lines[0] in lines;
      TwoTextsHaveNoBreak(lines[0], JoinLines(lines[1..]));
    }
  }

  lemma TwoTextsHaveNoBreak(line: string, rest: string)
    requires Solid(line) && rest != "" && rest[0] != '\n' && rest[|rest| - 1] != '\n' && '\r' !in rest
    requires forall j :: 0 <= j < |rest| - 1 ==> !(rest[j] == '\n' && rest[j + 1] == '\n')
    ensures var b := line + "\n" + rest;
            && b != "" && b[0] != '\n' && b[|b| - 1] != '\n' && '\r' !in b
            && forall j :: 0 <= j < |b| - 1 ==> !(b[j] == '\n' && b[j + 1] == '\n')
  {
    var b := line + "\n" + rest;
    forall j | 0 <= j < |b| - 1
      ensures !(b[j] == '\n' && b[j + 1] == '\n')
    {
      if j < |line| {
        assert b[j] == line[j];
      } else if j == |line| {
        assert b[j + 1] == rest[0];
      } else {
        assert b[j] == rest[j - |line| - 1] && b[j + 1] == rest[j - |line|];
      }
    }
  }

  lemma {:induction false} CleanTextStays(s: string)
    requires '\r' !in s
    ensures Normalize(s) == s
    decreases |s|
  {
    if s != "" {
      CleanTextStays(s[1..]);
    }
  }

  lemma EndingBecomesNewline(end: string, rest: string)
    requires end in {"\r", "\n", "\r\n"} && (end == "\r" && rest != "" ==> rest[0] != '\n')
    ensures Normalize(end + rest) == "\n" + Normalize(rest)
  {
    var s := end + rest;
    if end == "\r\n" {
      assert s[0] == '\r' && s[1] == '\n' && s[2..] == rest;
    } else {
      assert s[0] == end[0] && s[1..] == rest;
    }
  }

  /** A line ending in CR, LF or CR LF ends in LF after normalisation, and nothing else changes. */
  lemma {:induction false} EndingsBecomeNewlines(line: string, end: string, rest: string)
    requires '\r' !in line && end in {"\r", "\n", "\r\n"} && (end == "\r" && rest != "" ==> rest[0] != '\n')
    ensures Normalize(line + end + rest) == line + "\n" + Normalize(rest)
    decreases |line|
  {
    var s := line + end + rest;
    if line != "" {
      assert s[0] == line[0] && s[1..] == line[1..] + end + rest;
      EndingsBecomeNewlines(line[1..], end, rest);
    } else {
      assert s == end + rest && line + "\n" + Normalize(rest) == "\n" + Normalize(rest);
      EndingBecomesNewline(end, rest);
    }
  }

  lemma WrittenIsOneBlock(lines: seq<string>)
    requires lines != [] && forall l :: l in lines ==> Solid(l)
    ensures Split(Normalize(Written(lines))) == [JoinLines(lines), ""] && !HasCrLf(Written(lines))
  {
    var b, s := JoinLines(lines), Written(lines);
    SolidLinesHaveNoBreak(lines);
    CleanTextStays(s);
    assert HasBreakAt(s, |b|);
    forall j: nat | j < |b|
      ensures !HasBreakAt(s, j)
    {
      assert s[j] == b[j] && (j + 1 < |b| ==> s[j + 1] == b[j + 1]);
    }
    FirstBreakIs(s, |b|);
    assert s[..|b|] == b && s[|b| + 2..] == "";
    assert Split("") == [""];
  }

  lemma OneBlockIsFed(r: Reader, text: string, block: string)
    requires r.buffer == "" && Split(Normalize(text)) == [block, ""]
    ensures Feed(r, text) == ReadBlock(r, block)
  {
    assert r.buffer + text == text;
    assert Init([block, ""]) == [block] && Last([block, ""]) == "" && Init([block]) == [] && Last([block]) == block;
    assert ReadBlocks(r, [block]) == ReadBlock(ReadBlocks(r, []), block);
  }

  /**
   Whatever the reader has read before, an event written out is read as one event with exactly those
   values; an id or a delay it does not carry is the reader's.
   */
  lemma WrittenEventIsRead(r: Reader, data: seq<string>, event: Option<string>, id: Option<string>, retry: Option<nat>)
    requires r.buffer == "" && PlainEvent(data, event, id) && EventLines(data, event, id, retry) != []
    ensures var t := Feed(r, Written(EventLines(data, event, id, retry)));
            var newId, newRetry := if id.Some? then id else r.lastEventId, if retry.Some? then retry.value
                else r.retryDelay;
            && t.events == r.events + [StreamEvent(if data == [] then None
                                                     else Some(JoinLines(data)), event, newId, newRetry)]
            && t.lastEventId == newId && t.retryDelay == newRetry && t.buffer == ""
  {
    var lines := EventLines(data, event, id, retry);
    EventLinesAreSolid(data, event, id, retry);
    WrittenIsOneBlock(lines);
    OneBlockIsFed(r, Written(lines), JoinLines(lines));
    JoinedLinesSplit(lines);
    var f := Fields([], None, r.lastEventId, r.retryDelay);
    EventLinesAreRead(f, data, event, id, retry);
    assert f.dataLines + data == data;
  }

  /** And in whatever pieces it arrives. */
  lemma WrittenEventIsReadInPieces(lastEventId: Option<string>, retryDelay: int, data: seq<string>,
                                   event: Option<string>,
                                   id: Option<string>, retry: Option<nat>, values: seq<string>)
    requires PlainEvent(data, event, id) && EventLines(data, event, id, retry) != []
    requires Flatten(values) == Written(EventLines(data, event, id, retry))
    ensures var t := FeedAll(Start(lastEventId, retryDelay), values);
            t.events == [StreamEvent(if data == [] then None else Some(JoinLines(data)), event,
                                     if id.Some? then id else lastEventId,
                                     if retry.Some? then retry.value else retryDelay)]
            && t.buffer == ""
  {
    var text, start := Written(EventLines(data, event, id, retry)), Start(lastEventId, retryDelay);
    EventLinesAreSolid(data, event, id, retry);
    WrittenIsOneBlock(EventLines(data, event, id, retry));
    AllChunkingsAgreeIff(lastEventId, retryDelay, text);
    WrittenEventIsRead(start, data, event, id, retry);
    assert Init([text]) == [];
    assert FeedAll(start, [text]) == Feed(FeedAll(start, []), text);
  }
}

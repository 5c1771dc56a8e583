/**
 The read loop of createSseClient: text arrives cut into reads at arbitrary places, is appended to a
 buffer, normalised, split into blocks at empty lines, and each block is parsed into an event.
 */
module EventStream {
  import opened Wrappers

  // ----- text

  /** buffer.replace(/\r\n?/g, '\n') */
  function Normalize(s: string): string
    decreases |s|
  {
    if s == "" then ""
    else if s[0] == '\r' then "\n" + Normalize(if |s| > 1 && s[1] == '\n' then s[2..] else s[1..])
    else [s[0]] + Normalize(s[1..])
  }

  /** Index of the first occurrence of "\n\n", or the length of the text. */
  function FirstBreak(s: string): nat
    decreases |s|
  {
    if |s| < 2 then |s|
    else if s[0] == '\n' && s[1] == '\n' then 0
    else 1 + FirstBreak(s[1..])
  }

  /** buffer.split('\n\n') */
  function Split(s: string): seq<string>
    decreases |s|
  {
    var i := FirstBreak(s);
    if i + 2 <= |s| then [s[..i]] + Split(s[i + 2..]) else [s]
  }

  function Last<T>(s: seq<T>): T
    requires s != []
  {
    s[|s| - 1]
  }

  function Init<T>(s: seq<T>): seq<T>
    requires s != []
  {
    s[..|s| - 1]
  }

  /** The text whose pieces these are. */
  function Join(pieces: seq<string>): string {
    if pieces == [] then ""
    else if |pieces| == 1 then pieces[0]
    else pieces[0] + "\n\n" + Join(pieces[1..])
  }

  function Flatten(values: seq<string>): string {
    if values == [] then "" else Flatten(Init(values)) + Last(values)
  }

  // ----- fields of a block

  /** \s of a JavaScript regular expression. */
  predicate IsSpace(c: char) {
    var code := c as int;
    code in {9, 10, 11, 12, 13, 32, 0xa0, 0x1680, 0x2028, 0x2029, 0x202f, 0x205f, 0x3000, 0xfeff}
        || 0x2000 <= code <= 0x200a
  }

  function DropSpaces(s: string): string {
    if s != "" && IsSpace(s[0]) then DropSpaces(s[1..]) else s
  }

  predicate StartsWith(s: string, prefix: string) { prefix <= s }

  /** What follows the field name, without leading white space, as line.replace leaves it. */
  function FieldValue(line: string, prefix: string): string
    requires StartsWith(line, prefix)
  {
    DropSpaces(line[|prefix|..])
  }

  predicate IsDigit(c: char) { '0' <= c <= '9' }

  function Digits(s: string): (digits: string)
    ensures forall c :: c in digits ==> IsDigit(c)
  {
    if s != "" && IsDigit(s[0]) then [s[0]] + Digits(s[1..]) else ""
  }

  function Decimal(digits: string): nat
    requires forall c :: c in digits ==> IsDigit(c)
  {
    if digits == "" then 0
    else
      assert IsDigit(Last(digits));
      10 * Decimal(Init(digits)) + (Last(digits) as int - '0' as int)
  }

  /** Number.parseInt(s, 10): optional sign, then digits, then anything; NaN without a digit. */
  function ParseInt(s: string): Option<int> {
    var text := DropSpaces(s);
    var negative := text != "" && text[0] == '-';
    var unsigned := if text != "" && text[0] in "+-" then text[1..] else text;
    var digits := Digits(unsigned);
    var value: int := Decimal(digits);
    if digits == "" then None else Some(if negative then -value else value)
  }

  function SplitLines(s: string): seq<string>
    decreases |s|
  {
    var i := LineEnd(s);
    if i < |s| then [s[..i]] + SplitLines(s[i + 1..]) else [s]
  }

  function LineEnd(s: string): (i: nat)
    ensures i <= |s|
  {
    if s == "" || s[0] == '\n' then 0 else 1 + LineEnd(s[1..])
  }

  /** What one block has said so far; dataLines.join('\n') is taken at the end. */
  datatype Fields = Fields(dataLines: seq<string>, eventName: Option<string>, lastEventId: Option<string>,
                           retryDelay: int)

  function ReadLine(f: Fields, line: string): Fields {
    if StartsWith(line, "data:") then f.(dataLines := f.dataLines + [FieldValue(line, "data:")])
    else if StartsWith(line, "event:") then f.(eventName := Some(FieldValue(line, "event:")))
    else if StartsWith(line, "id:") then f.(lastEventId := Some(FieldValue(line, "id:")))
    else if StartsWith(line, "retry:") then
      match ParseInt(FieldValue(line, "retry:"))
      case Some(delay) => f.(retryDelay := delay)
      case None => f
    else f
  }

  function ReadLines(f: Fields, lines: seq<string>): Fields {
    if lines == [] then f else ReadLine(ReadLines(f, Init(lines)), Last(lines))
  }

  function JoinLines(lines: seq<string>): string {
    if lines == [] then "" else if |lines| == 1 then lines[0] else lines[0] + "\n" + JoinLines(lines[1..])
  }

  /** The argument of onSseEvent before JSON.parse; data is absent when the block has no data line. */
  datatype StreamEvent = StreamEvent(data: Option<string>, event: Option<string>, id: Option<string>, retry: int)

  // ----- the reader

  /** `blocks` is the history of the chunks handed to the parser. */
  datatype Reader = Reader(buffer: string, lastEventId: Option<string>, retryDelay: int, blocks: seq<string>,
                           events: seq<StreamEvent>)

  /** One turn of `for (const chunk of chunks)`. */
  function ReadBlock(r: Reader, block: string): Reader {
    var f := ReadLines(Fields([], None, r.lastEventId, r.retryDelay), SplitLines(block));
    var data := if f.dataLines == [] then None else Some(JoinLines(f.dataLines));
    r.(lastEventId := f.lastEventId, retryDelay := f.retryDelay, blocks := r.blocks + [block],
       events := r.events + [StreamEvent(data, f.eventName, f.lastEventId, f.retryDelay)])
  }

  function ReadBlocks(r: Reader, blocks: seq<string>): Reader {
    if blocks == [] then r else ReadBlock(ReadBlocks(r, Init(blocks)), Last(blocks))
  }

  /** One turn of the read loop. */
  function Feed(r: Reader, value: string): Reader {
    SplitNotEmpty(Normalize(r.buffer + value));
    var chunks := Split(Normalize(r.buffer + value));
    ReadBlocks(r, Init(chunks)).(buffer := Last(chunks))
  }

  function FeedAll(r: Reader, values: seq<string>): Reader {
    if values == [] then r else Feed(FeedAll(r, Init(values)), Last(values))
  }

  function Start(lastEventId: Option<string>, retryDelay: int): Reader {
    Reader("", lastEventId, retryDelay, [], [])
  }

  // ----- splitting

  lemma SplitNotEmpty(s: string)
    ensures |Split(s)| > 0
  {
  }

  ghost predicate HasBreakAt(s: string, i: nat) {
    i + 2 <= |s| && s[i] == '\n' && s[i + 1] == '\n'
  }

  /** FirstBreak finds the leftmost separator, or says that there is none. */
  lemma {:induction false} FirstBreakIsFirst(s: string)
    ensures FirstBreak(s) <= |s|
    ensures forall j: nat :: j < FirstBreak(s) ==> !HasBreakAt(s, j)
    ensures if FirstBreak(s) + 2 <= |s| then HasBreakAt(s, FirstBreak(s)) else forall j: nat :: !HasBreakAt(s, j)
    decreases |s|
  {
    if |s| >= 2 && !(s[0] == '\n' && s[1] == '\n') {
      FirstBreakIsFirst(s[1..]);
      forall j: nat | HasBreakAt(s, j)
        ensures j > 0 && HasBreakAt(s[1..], j - 1)
      {
      }
    }
  }

  lemma FirstBreakIs(s: string, i: nat)
    requires HasBreakAt(s, i) && forall j: nat :: j < i ==> !HasBreakAt(s, j)
    ensures FirstBreak(s) == i
  {
    FirstBreakIsFirst(s);
  }

  /** No piece contains a separator, and a piece before a separator does not end in half of one. */
  ghost predicate ValidPieces(pieces: seq<string>) {
    && pieces != []
    && (forall k: nat, j: nat :: k < |pieces| ==> !HasBreakAt(pieces[k], j))
    && (forall k: nat :: k + 1 < |pieces| && pieces[k] != "" ==> Last(pieces[k]) != '\n')
  }

  lemma {:induction false} SplitIsValid(s: string)
    ensures ValidPieces(Split(s)) && Join(Split(s)) == s
    decreases |s|
  {
    FirstBreakIsFirst(s);
    var i := FirstBreak(s);
    if i + 2 <= |s| {
      SplitIsValid(s[i + 2..]);
      var piece := s[..i];
      assert s == piece + "\n\n" + s[i + 2..];
      assert forall j: nat :: HasBreakAt(piece, j) ==> HasBreakAt(s, j);
      if piece != "" && Last(piece) == '\n' {
        assert HasBreakAt(s, i - 1);
      }
    }
  }

  lemma {:induction false} ValidPiecesAreSplit(pieces: seq<string>)
    requires ValidPieces(pieces)
    ensures Split(Join(pieces)) == pieces
    decreases |pieces|
  {
    var s := Join(pieces);
    if |pieces| == 1 {
      FirstBreakIsFirst(s);
      assert !HasBreakAt(pieces[0], FirstBreak(s));
      assert pieces == [s];
    } else {
      var p, rest := pieces[0], pieces[1..];
      assert forall k: nat :: k < |rest| ==> rest[k] == pieces[k + 1];
      ValidPiecesAreSplit(rest);
      forall j: nat | j < |p|
        ensures !HasBreakAt(s, j)
      {
        assert s[j] == p[j];
        if j + 1 < |p| {
          assert !HasBreakAt(p, j);
        }
      }
      assert HasBreakAt(s, |p|);
      FirstBreakIs(s, |p|);
      assert s[|p| + 2..] == Join(rest) && s[..|p|] == p;
    }
  }

  /** Split is the one way to cut a text at its separators: it inverts Join on every list that can be a split. */
  lemma SplitInvertsJoin(s: string, pieces: seq<string>)
    ensures Split(s) == pieces <==> ValidPieces(pieces) && Join(pieces) == s
  {
    SplitIsValid(s);
    if ValidPieces(pieces) && Join(pieces) == s {
      ValidPiecesAreSplit(pieces);
    }
  }

  lemma SplitAtBreak(s: string, i: nat)
    requires HasBreakAt(s, i) && forall j: nat :: j < i ==> !HasBreakAt(s, j)
    ensures Split(s) == [s[..i]] + Split(s[i + 2..])
  {
    FirstBreakIs(s, i);
  }

  /** Splitting can stop at any point and go on with what is left: only the last piece is still open. */
  lemma {:induction false} SplitResumes(a: string, b: string)
    ensures |Split(a)| > 0 && Split(a + b) == Init(Split(a)) + Split(Last(Split(a)) + b)
    decreases |a|
  {
    FirstBreakIsFirst(a);
    var i := FirstBreak(a);
    if i + 2 <= |a| {
      var rest := a[i + 2..];
      SplitResumes(rest, b);
      forall j: nat | j < i
        ensures !HasBreakAt(a + b, j)
      {
        assert !HasBreakAt(a, j);
      }
      SplitAtBreak(a + b, i);
      SplitAtBreak(a, i);
      assert (a + b)[i + 2..] == rest + b && (a + b)[..i] == a[..i];
      PieceInFront(a[..i], Split(rest), Split(Last(Split(rest)) + b));
    } else {
      assert Split(a) == [a] && Init([a]) == [];
    }
  }

  lemma PieceInFront(piece: string, pieces: seq<string>, more: seq<string>)
    requires pieces != []
    ensures Init([piece] + pieces) + more == [piece] + (Init(pieces) + more) && Last([piece] + pieces) == Last(pieces)
  {
  }

  // ----- normalising

  predicate HasNoCr(s: string) { forall i :: 0 <= i < |s| ==> s[i] != '\r' }

  predicate EndsWithCr(s: string) { s != "" && Last(s) == '\r' }

  predicate StartsWithLf(s: string) { s != "" && s[0] == '\n' }

  lemma {:induction false} NormalizedHasNoCr(s: string)
    ensures HasNoCr(Normalize(s))
    decreases |s|
  {
    if s != "" {
      NormalizedHasNoCr(if s[0] == '\r' && |s| > 1 && s[1] == '\n' then s[2..] else s[1..]);
    }
  }

  lemma {:induction false} NormalizeAfterCleanText(a: string, b: string)
    requires HasNoCr(a)
    ensures Normalize(a + b) == a + Normalize(b)
    decreases |a|
  {
    if a == "" {
      assert a + b == b;
    } else {
      NormalizeAfterCleanText(a[1..], b);
      assert (a + b)[1..] == a[1..] + b;
      assert a == [a[0]] + a[1..];
    }
  }

  /** A cut is harmless unless it separates a CR from its LF; then the pair counts as two line ends. */
  lemma {:induction false} NormalizeAcrossCut(a: string, b: string)
    ensures !(EndsWithCr(a) && StartsWithLf(b)) ==> Normalize(a + b) == Normalize(a) + Normalize(b)
    ensures EndsWithCr(a) && StartsWithLf(b) ==> |Normalize(a)| + |Normalize(b)| == |Normalize(a + b)| + 1
    decreases |a|
  {
    if a == "" {
      assert a + b == b;
    } else if |a| == 1 && a[0] == '\r' {
      assert (a + b)[1..] == b;
      if StartsWithLf(b) {
        assert (a + b)[2..] == b[1..];
      }
    } else if a[0] == '\r' && a[1] == '\n' {
      NormalizeAcrossCut(a[2..], b);
      assert (a + b)[2..] == a[2..] + b;
      NormalizePrefix("\n", a[2..], b);
    } else {
      NormalizeAcrossCut(a[1..], b);
      assert (a + b)[1..] == a[1..] + b;
      NormalizePrefix(if a[0] == '\r' then "\n" else [a[0]], a[1..], b);
    }
  }

  lemma NormalizePrefix(head: string, a: string, b: string)
    ensures (head + Normalize(a)) + Normalize(b) == head + (Normalize(a) + Normalize(b))
  {
  }

  // ----- feeding

  /** The normalised text the buffer has seen when reads arrive one by one. */
  function Seen(values: seq<string>): string {
    if values == [] then "" else Seen(Init(values)) + Normalize(Last(values))
  }

  /** How many cuts between reads fall between a CR and its LF. */
  function TornPairs(values: seq<string>): nat {
    if values == [] then 0
    else TornPairs(Init(values)) + (if EndsWithCr(Flatten(Init(values))) && StartsWithLf(Last(values)) then 1 else 0)
  }

  lemma {:induction false} SeenHasNoCr(values: seq<string>)
    ensures HasNoCr(Seen(values))
  {
    if values != [] {
      SeenHasNoCr(Init(values));
      NormalizedHasNoCr(Last(values));
    }
  }

  lemma {:induction false} SeenVersusWhole(values: seq<string>)
    ensures |Seen(values)| == |Normalize(Flatten(values))| + TornPairs(values)
    ensures TornPairs(values) == 0 ==> Seen(values) == Normalize(Flatten(values))
  {
    if values != [] {
      SeenVersusWhole(Init(values));
      NormalizeAcrossCut(Flatten(Init(values)), Last(values));
    }
  }

  lemma {:induction false} ReadBlocksAppend(r: Reader, a: seq<string>, b: seq<string>)
    ensures ReadBlocks(r, a + b) == ReadBlocks(ReadBlocks(r, a), b)
    decreases |b|
  {
    if b == [] {
      assert a + b == a;
    } else {
      assert Init(a + b) == a + Init(b);
      ReadBlocksAppend(r, a, Init(b));
    }
  }

  lemma {:induction false} ReadBlocksKeepsBuffer(r: Reader, blocks: seq<string>, buffer: string)
    ensures ReadBlocks(r, blocks).(buffer := buffer) == ReadBlocks(r.(buffer := buffer), blocks)
  {
    if blocks != [] {
      ReadBlocksKeepsBuffer(r, Init(blocks), buffer);
    }
  }

  lemma {:induction false} ReadBlocksHistory(r: Reader, blocks: seq<string>)
    ensures ReadBlocks(r, blocks).blocks == r.blocks + blocks
  {
    if blocks == [] {
      assert r.blocks + blocks == r.blocks;
    } else {
      ReadBlocksHistory(r, Init(blocks));
      assert blocks == Init(blocks) + [Last(blocks)];
    }
  }

  lemma {:induction false} PiecesHaveNoCr(s: string)
    requires HasNoCr(s)
    ensures |Split(s)| > 0 && HasNoCr(Last(Split(s)))
    decreases |s|
  {
    var i := FirstBreak(s);
    if i + 2 <= |s| {
      PiecesHaveNoCr(s[i + 2..]);
    }
  }

  /** However the text was cut, the reader is where one split of the text seen so far would put it. */
  lemma {:induction false} FeedAllSplitsWhatWasSeen(lastEventId: Option<string>, retryDelay: int, values: seq<string>)
    ensures |Split(Seen(values))| > 0
    ensures FeedAll(Start(lastEventId, retryDelay), values) ==
            ReadBlocks(Start(lastEventId, retryDelay), Init(Split(Seen(values)))).(buffer := Last(Split(Seen(values))))
  {
    var r := Start(lastEventId, retryDelay);
    if values != [] {
      var before, value := Seen(Init(values)), Last(values);
      FeedAllSplitsWhatWasSeen(lastEventId, retryDelay, Init(values));
      var left := Last(Split(before));
      SeenHasNoCr(Init(values));
      PiecesHaveNoCr(before);
      NormalizeAfterCleanText(left, value);
      SplitResumes(before, Normalize(value));
      var more := Split(left + Normalize(value));
      SplitNotEmpty(left + Normalize(value));
      assert Init(Split(Seen(values))) == Init(Split(before)) + Init(more);
      assert Last(Split(Seen(values))) == Last(more);
      ReadBlocksAppend(r, Init(Split(before)), Init(more));
      ReadBlocksKeepsBuffer(ReadBlocks(r, Init(Split(before))), Init(more), left);
    }
  }

  /**
   The blocks parsed, the events emitted, the reconnection state and the leftover buffer are those of a
   single read of the whole text exactly when no cut falls between a CR and its LF.
   */
  lemma ChunkingIsInvisibleIff(lastEventId: Option<string>, retryDelay: int, values: seq<string>)
    ensures var start := Start(lastEventId, retryDelay);
            FeedAll(start, values) == FeedAll(start, [Flatten(values)]) <==> TornPairs(values) == 0
  {
    var r := Start(lastEventId, retryDelay);
    var whole := [Flatten(values)];
    assert Init(whole) == [];
    assert Seen(whole) == Normalize(Flatten(values));
    FeedAllSplitsWhatWasSeen(lastEventId, retryDelay, values);
    FeedAllSplitsWhatWasSeen(lastEventId, retryDelay, whole);
    SeenVersusWhole(values);
    if TornPairs(values) > 0 {
      TextIsRecoverable(r, Seen(values));
      TextIsRecoverable(r, Seen(whole));
    }
  }

  /** Blocks and leftover buffer together still spell the text they came from. */
  lemma TextIsRecoverable(r: Reader, text: string)
    requires r.blocks == []
    ensures |Split(text)| > 0 && Join(ReadBlocks(r, Init(Split(text))).blocks + [Last(Split(text))]) == text
  {
    SplitIsValid(text);
    ReadBlocksHistory(r, Init(Split(text)));
    assert [] + Init(Split(text)) + [Last(Split(text))] == Split(text);
  }

  ghost predicate HasCrLf(s: string) {
    exists i :: 0 <= i && i + 1 < |s| && s[i] == '\r' && s[i + 1] == '\n'
  }

  lemma {:induction false} TornPairsNeedCrLf(values: seq<string>)
    ensures TornPairs(values) > 0 ==> HasCrLf(Flatten(values))
  {
    if values != [] {
      TornPairsNeedCrLf(Init(values));
      var a, b := Flatten(Init(values)), Last(values);
      if EndsWithCr(a) && StartsWithLf(b) {
        assert (a + b)[|a| - 1] == '\r' && (a + b)[|a| - 1 + 1] == '\n';
      } else if TornPairs(values) > 0 {
        var i :| 0 <= i && i + 1 < |a| && a[i] == '\r' && a[i + 1] == '\n';
        assert (a + b)[i] == '\r' && (a + b)[i + 1] == '\n';
      }
    }
  }

  /** For a given text every way of cutting it gives the same result exactly when it contains no CRLF. */
  lemma AllChunkingsAgreeIff(lastEventId: Option<string>, retryDelay: int, text: string)
    ensures (forall values :: Flatten(values) == text ==>
              FeedAll(Start(lastEventId, retryDelay), values) == FeedAll(Start(lastEventId, retryDelay), [text]))
            <==> !HasCrLf(text)
  {
    if HasCrLf(text) {
      var i :| 0 <= i && i + 1 < |text| && text[i] == '\r' && text[i + 1] == '\n';
      CutInsideCrLf(text, i);
      ChunkingIsInvisibleIff(lastEventId, retryDelay, [text[..i + 1], text[i + 1..]]);
    } else {
      forall values | Flatten(values) == text
        ensures FeedAll(Start(lastEventId, retryDelay), values) == FeedAll(Start(lastEventId, retryDelay), [text])
      {
        TornPairsNeedCrLf(values);
        ChunkingIsInvisibleIff(lastEventId, retryDelay, values);
      }
    }
  }

  /** A text cut inside its CRLF. */
  lemma CutInsideCrLf(text: string, i: nat)
    requires i + 1 < |text| && text[i] == '\r' && text[i + 1] == '\n'
    ensures Flatten([text[..i + 1], text[i + 1..]]) == text && TornPairs([text[..i + 1], text[i + 1..]]) > 0
  {
    var values := [text[..i + 1], text[i + 1..]];
    assert Init(values) == [text[..i + 1]] && Init(Init(values)) == [];
    assert Flatten(Init(values)) == text[..i + 1];
  }

  // ----- the read loop

  class SseReader {
    var buffer: string
    var lastEventId: Option<string>
    var retryDelay: int
    var events: seq<StreamEvent>
    ghost var blocks: seq<string>

    ghost function State(): Reader
      reads this
    {
      Reader(buffer, lastEventId, retryDelay, blocks, events)
    }

    constructor (lastEventId: Option<string>, retryDelay: int)
      ensures State() == Start(lastEventId, retryDelay)
    {
      buffer, events, blocks := "", [], [];
      this.lastEventId, this.retryDelay := lastEventId, retryDelay;
    }

    /** The body of `for (const chunk of chunks)`. */
    method OnBlock(chunk: string)
      modifies this
      ensures State() == ReadBlock(old(State()), chunk)
    {
      var lines := SplitLines(chunk);
      var dataLines: seq<string> := [];
      var eventName: Option<string> := None;
      for k := 0 to |lines|
        invariant unchanged(`buffer, `events, `blocks)
        invariant Fields(dataLines, eventName, lastEventId, retryDelay)
                  == ReadLines(Fields([], None, old(lastEventId), old(retryDelay)), lines[..k])
      {
        var line := lines[k];
        assert Init(lines[..k + 1]) == lines[..k] && Last(lines[..k + 1]) == line;
        if StartsWith(line, "data:") {
          dataLines := dataLines + [FieldValue(line, "data:")];
        } else if StartsWith(line, "event:") {
          eventName := Some(FieldValue(line, "event:"));
        } else if StartsWith(line, "id:") {
          lastEventId := Some(FieldValue(line, "id:"));
        } else if StartsWith(line, "retry:") {
          var parsed := ParseInt(FieldValue(line, "retry:"));
          if parsed.Some? {
            retryDelay := parsed.value;
          }
        }
      }
      assert lines[..|lines|] == lines;
      var data := if dataLines == [] then None else Some(JoinLines(dataLines));
      events := events + [StreamEvent(data, eventName, lastEventId, retryDelay)];
      blocks := blocks + [chunk];
    }

    /** One turn of the read loop, from reader.read() to the last chunk. */
    method OnRead(value: string)
      modifies this
      ensures State() == Feed(old(State()), value)
    {
      buffer := buffer + value;
      buffer := Normalize(buffer);
      var chunks := Split(buffer);
      SplitNotEmpty(buffer);
      buffer := Last(chunks);
      chunks := Init(chunks);
      ghost var start := State();
      ReadBlocksKeepsBuffer(old(State()), chunks, buffer);
      for k := 0 to |chunks|
        invariant State() == ReadBlocks(start, chunks[..k])
      {
        assert Init(chunks[..k + 1]) == chunks[..k] && Last(chunks[..k + 1]) == chunks[k];
        OnBlock(chunks[k]);
      }
      assert chunks[..|chunks|] == chunks;
    }
  }
}

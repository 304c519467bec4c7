/** Server-sent events: splitting a byte stream into blocks at blank lines, reading the data lines of
    a block, and printing frames. */
module Sse {
  import opened Strings

  // ----- Lines -----

  predicate IsEol(c: char) {
    c == '\n' || c == '\r'
  }

  /** `strings.TrimRight(s, "\r\n")`. */
  function TrimEol(s: string): string {
    if s != "" && IsEol(s[|s| - 1]) then TrimEol(s[..|s| - 1]) else s
  }

  /** `strings.TrimRight(s, "\r")`. */
  function TrimCr(s: string): string {
    if s != "" && s[|s| - 1] == '\r' then TrimCr(s[..|s| - 1]) else s
  }

  /** `strings.TrimSuffix(s, c)` for a suffix of one character. */
  function TrimSuffix(s: string, c: char): string {
    if s != "" && s[|s| - 1] == c then s[..|s| - 1] else s
  }

  /** How many characters the first line takes, its line feed included; all of them if there is none. */
  function LineLength(text: string): (n: nat)
    ensures n <= |text| && (text != "" ==> n > 0)
  {
    if text == "" then 0
    else if text[0] == '\n' then 1
    else 1 + LineLength(text[1..])
  }

  predicate Terminated(text: string) {
    text != "" && text[LineLength(text) - 1] == '\n'
  }

  /** `strings.Split(block, "\n")`. */
  function SplitLines(text: string): seq<string>
    decreases |text|
  {
    var n := LineLength(text);
    if Terminated(text) then [text[..n - 1]] + SplitLines(text[n..]) else [text]
  }

  // ----- Data lines -----

  const DATA := "data:"

  /** The payload of one line, if it is a data line; one space after the colon is dropped. */
  function DataOfLine(line: string): seq<string> {
    var l := TrimCr(line);
    if DATA <= l then
      var data := l[|DATA|..];
      [if data != "" && data[0] == ' ' then data[1..] else data]
    else []
  }

  function DataOfLines(lines: seq<string>): seq<string> {
    if lines == [] then [] else DataOfLine(lines[0]) + DataOfLines(lines[1..])
  }

  /** The data lines of a block. */
  function DataLines(block: string): seq<string> {
    DataOfLines(SplitLines(block))
  }

  /** `strings.Join(parts, "\n")`. */
  function Join(parts: seq<string>): string {
    if parts == [] then ""
    else if |parts| == 1 then parts[0]
    else Join(parts[..|parts| - 1]) + "\n" + parts[|parts| - 1]
  }

  /** `ExtractDataLines` and `sseDataLines`, which are the same loop. */
  method ExtractDataLines(block: string) returns (data: string)
    ensures data == Join(DataLines(block))
  {
    hide DataOfLine, SplitLines, Join;
    var parts: seq<string> := [];
    var lines := SplitLines(block);
    for i := 0 to |lines|
      invariant parts + DataOfLines(lines[i..]) == DataLines(block)
    {
      assert lines[i..][0] == lines[i] && lines[i..][1..] == lines[i + 1..];
      Associative(parts, DataOfLine(lines[i]), DataOfLines(lines[i + 1..]));
      parts := parts + DataOfLine(lines[i]);
    }
    assert lines[|lines|..] == [] && parts + [] == parts;
    data := Join(parts);
  }

  // ----- Reading -----

  datatype ReadError = NoError | Eof | LineTooLong | ReadFailed

  /** What is left of the input, the size of the buffer, whether the input ends in an error, and whether
      that end is reported together with the last bytes or by a further read of its own. */
  datatype Source = Source(rest: string, limit: nat, failing: bool, eager: bool)

  /** `bufio.Reader.ReadSlice('\n')`: the next line, or what there is of it together with the reason. */
  function ReadSlice(s: Source): (r: (string, ReadError, Source))
    ensures r.1 == NoError ==> |r.2.rest| < |s.rest|
    ensures r.1 == Eof || r.1 == ReadFailed ==> r.0 == s.rest && r.2.rest == ""
  {
    var n := LineLength(s.rest);
    if Terminated(s.rest) && n <= s.limit then (s.rest[..n], NoError, s.(rest := s.rest[n..]))
    else if |s.rest| > s.limit || (|s.rest| == s.limit && !s.eager) then
      (s.rest[..s.limit], LineTooLong, s.(rest := s.rest[s.limit..]))
    else (s.rest, if s.failing then ReadFailed else Eof, s.(rest := ""))
  }

  /** The end of a block: at most one line feed, one carriage return and one more line feed. */
  function CutBlock(buffer: string): string {
    TrimSuffix(TrimSuffix(TrimSuffix(buffer, '\n'), '\r'), '\n')
  }

  predicate IsBlank(line: string) {
    line != "" && TrimEol(line) == ""
  }

  /** The blocks that reading to the end yields, when `buffer` has been read already. */
  function Blocks(s: Source, buffer: string): seq<string>
    decreases |s.rest|
  {
    var (chunk, err, next) := ReadSlice(s);
    var whole := buffer + chunk;
    if err == LineTooLong then []
    else if IsBlank(chunk) then [CutBlock(whole)] + (if err == NoError then Blocks(next, "") else [])
    else if err == NoError then Blocks(next, whole)
    else if TrimEol(whole) != "" then [TrimEol(whole)]
    else []
  }

  /** How the reading ends. */
  function Ending(s: Source): ReadError
    decreases |s.rest|
  {
    var (_, err, next) := ReadSlice(s);
    if err == NoError then Ending(next) else err
  }

  /** `BlockReader`. */
  class BlockReader {
    var source: Source
    var buffer: string
    var done: bool

    ghost predicate Valid()
      reads this
    {
      source.limit > 0 && (!done ==> buffer == "")
    }

    constructor (source: Source)
      requires source.limit > 0
      ensures Valid() && !done && this.source == source
    {
      this.source, buffer, done := source, "", false;
    }

    /** The next block, or none together with the reason unless the input simply ended. */
    method Next() returns (block: string, ok: bool, err: ReadError)
      requires Valid()
      modifies this
      ensures Valid()
      ensures old(done) ==> !ok && err == NoError && done && source == old(source)
      ensures !old(done) && ok ==>
                && Blocks(old(source), "") == [block] + Blocks(source, "")
                && Ending(source) == Ending(old(source)) && !done && err == NoError
                && |source.rest| < |old(source).rest|
      ensures !old(done) && !ok ==>
                && Blocks(old(source), "") == [] && done
                && err == if Ending(old(source)) == Eof then NoError else Ending(old(source))
    {
      if done {
        return "", false, NoError;
      }
      hide TrimEol, CutBlock, Blocks, Ending, ReadSlice;
      ghost var all, end := Blocks(source, ""), Ending(source);
      while true
        invariant Blocks(source, buffer) == all && Ending(source) == end
        invariant !done && source.limit > 0
        invariant |source.rest| <= |old(source).rest|
        invariant buffer != "" ==> |source.rest| < |old(source).rest|
        decreases |source.rest|
      {
        BlocksStep(source, buffer);
        var (chunk, e, next) := ReadSlice(source);
        source := next;
        if e == LineTooLong {
          done := true;
          return "", false, LineTooLong;
        }
        buffer := buffer + chunk;
        if IsBlank(chunk) {
          block := CutBlock(buffer);
          buffer := "";
          return block, true, NoError;
        }
        if e != NoError {
          block := TrimEol(buffer);
          buffer := "";
          if block != "" {
            return block, true, NoError;
          }
          done := true;
          return "", false, if e == Eof then NoError else e;
        }
      }
    }
  }

  /** One round of the reading loop. */
  lemma BlocksStep(s: Source, buffer: string)
    requires s.limit > 0
    ensures
      var (chunk, err, next) := ReadSlice(s);
      var whole := buffer + chunk;
      && next.limit == s.limit
      && |next.rest| <= |s.rest|
      && (chunk != "" ==> |next.rest| < |s.rest|)
      && (err != NoError ==> Ending(s) == err)
      && (err == NoError ==> |next.rest| < |s.rest| && Ending(next) == Ending(s))
      && (err == LineTooLong ==> Blocks(s, buffer) == [])
      && (err == Eof || err == ReadFailed ==> Blocks(next, "") == [] && Ending(next) == err)
      && (err != LineTooLong && IsBlank(chunk) ==> Blocks(s, buffer) == [CutBlock(whole)] + Blocks(next, ""))
      && (err == NoError && !IsBlank(chunk) ==> Blocks(s, buffer) == Blocks(next, whole))
      && ((err == Eof || err == ReadFailed) && !IsBlank(chunk) ==>
            Blocks(s, buffer) == if TrimEol(whole) != "" then [TrimEol(whole)] else [])
      && (whole != "" <== TrimEol(whole) != "")
  {
    hide CutBlock;
    var (chunk, err, next) := ReadSlice(s);
    if err == Eof || err == ReadFailed {
      AtTheEnd(next);
    }
  }

  lemma AtTheEnd(s: Source)
    requires s.limit > 0 && s.rest == ""
    ensures Blocks(s, "") == [] && ReadSlice(s) == ("", if s.failing then ReadFailed else Eof, s)
    ensures Ending(s) == if s.failing then ReadFailed else Eof
  {
  }

  // ----- What the lines of a stream mean, read line by line -----

  /** The data lines of every event of the stream.  As in section 9.2.6 of the WHATWG HTML Standard a blank
      line ends an event; unlike there, an event that the input ends without one is not discarded. */
  function EventData(text: string, open: bool, data: seq<string>): seq<seq<string>>
    decreases |text|
  {
    if text == "" then (if open then [data] else [])
    else
      var n := LineLength(text);
      var line := TrimEol(text[..n]);
      if line == "" then [data] + EventData(text[n..], false, [])
      else EventData(text[n..], true, data + DataOfLine(line))
  }

  /** Every line fits the reader's buffer, its line feed included.  A last line without one may fill the
      buffer only if the end of the input is reported with it. */
  predicate Fits(text: string, limit: nat, eager: bool)
    decreases |text|
  {
    var n := LineLength(text);
    if Terminated(text) then n <= limit && Fits(text[n..], limit, eager) else n < limit || (n == limit && eager)
  }

  function AllData(blocks: seq<string>): seq<seq<string>> {
    if blocks == [] then [] else [DataLines(blocks[0])] + AllData(blocks[1..])
  }

  // ----- Facts about lines -----

  lemma {:induction false} LineLengthIs(line: string, tail: string)
    requires '\n' !in line
    ensures LineLength(line + "\n" + tail) == |line| + 1 && Terminated(line + "\n" + tail)
    ensures LineLength(line) == |line| && !Terminated(line)
  {
    if line != "" {
      LineLengthIs(line[1..], tail);
      assert (line + "\n" + tail)[1..] == line[1..] + "\n" + tail;
      assert (line + "\n" + tail)[|line|] == '\n';
    }
  }

  lemma {:induction false} LineHasNoFeed(text: string)
    ensures
      var n := LineLength(text);
      '\n' !in text[..if Terminated(text) then n - 1 else n] && (Terminated(text) || n == |text|)
  {
    if text != "" && text[0] != '\n' {
      LineHasNoFeed(text[1..]);
      var n := LineLength(text[1..]);
      assert text[..n + 1] == [text[0]] + text[1..][..n];
      assert n > 0 ==> text[..n] == [text[0]] + text[1..][..n - 1];
      assert n > 0 ==> text[n] == text[1..][n - 1];
    }
  }

  lemma SplitLinesCons(line: string, tail: string)
    requires '\n' !in line
    ensures SplitLines(line + "\n" + tail) == [line] + SplitLines(tail)
  {
    LineLengthIs(line, tail);
    var whole := line + "\n" + tail;
    assert whole[..|line|] == line && whole[|line| + 1..] == tail;
  }

  lemma {:induction false} SplitLinesAppend(a: string, b: string)
    ensures SplitLines(a + "\n" + b) == SplitLines(a) + SplitLines(b)
    decreases |a|
  {
    LineHasNoFeed(a);
    var n := LineLength(a);
    if Terminated(a) {
      hide SplitLines, LineLength;
      var line, tail := a[..n - 1], a[n..];
      assert a == line + "\n" + tail;
      assert a + "\n" + b == line + "\n" + (tail + "\n" + b);
      SplitLinesCons(line, tail);
      SplitLinesCons(line, tail + "\n" + b);
      SplitLinesAppend(tail, b);
      Associative([line], SplitLines(tail), SplitLines(b));
    } else {
      assert a[..n] == a;
      SplitLinesCons(a, b);
    }
  }

  lemma {:induction false} DataOfLinesAppend(a: seq<string>, b: seq<string>)
    ensures DataOfLines(a + b) == DataOfLines(a) + DataOfLines(b)
  {
    hide DataOfLine;
    if a == [] {
      assert a + b == b;
    } else {
      DataOfLinesAppend(a[1..], b);
      assert (a + b)[1..] == a[1..] + b;
    }
  }

  lemma DataLinesAppend(a: string, b: string)
    ensures DataLines(a + "\n" + b) == DataLines(a) + DataLines(b)
  {
    hide SplitLines, DataOfLines;
    SplitLinesAppend(a, b);
    DataOfLinesAppend(SplitLines(a), SplitLines(b));
  }

  lemma NothingHasNoData()
    ensures DataLines("") == []
  {
    assert TrimCr("") == "";
  }

  lemma OneLineData(line: string)
    requires '\n' !in line
    ensures DataLines(line) == DataOfLine(line)
  {
    hide DataOfLine;
    LineLengthIs(line, "");
    assert SplitLines(line) == [line] && [line][1..] == [];
    assert DataOfLines([line]) == DataOfLine(line) + DataOfLines([]);
    assert DataOfLine(line) + [] == DataOfLine(line);
  }

  /** A trailing carriage return or line feed carries no data. */
  lemma TrailingEolIsNoData(s: string, c: char)
    requires IsEol(c)
    ensures DataLines(s + [c]) == DataLines(s)
  {
    if c == '\n' {
      NothingHasNoData();
      DataLinesAppend(s, "");
      assert s + "\n" + "" == s + [c];
    } else {
      TrailingCrIsNoData(s);
    }
  }

  lemma {:induction false} TrailingCrIsNoData(s: string)
    ensures DataLines(s + "\r") == DataLines(s)
    decreases |s|
  {
    LineHasNoFeed(s);
    if Terminated(s) {
      var n := LineLength(s);
      var line, tail := s[..n - 1], s[n..];
      assert s == line + "\n" + tail && s + "\r" == line + "\n" + (tail + "\r");
      hide DataLines;
      DataLinesAppend(line, tail);
      DataLinesAppend(line, tail + "\r");
      TrailingCrIsNoData(tail);
    } else {
      assert s[..|s|] == s;
      assert TrimCr(s + "\r") == TrimCr(s) by {
        assert (s + "\r")[..|s|] == s;
      }
      OneLineData(s);
      OneLineData(s + "\r");
    }
  }

  lemma TrimSuffixKeepsData(s: string, c: char)
    requires IsEol(c)
    ensures DataLines(TrimSuffix(s, c)) == DataLines(s)
  {
    hide DataLines;
    if s != "" && s[|s| - 1] == c {
      TrailingEolIsNoData(s[..|s| - 1], c);
      assert s[..|s| - 1] + [c] == s;
    }
  }

  lemma CutBlockKeepsData(buffer: string)
    ensures DataLines(CutBlock(buffer)) == DataLines(buffer)
  {
    hide DataLines, TrimSuffix;
    TrimSuffixKeepsData(buffer, '\n');
    TrimSuffixKeepsData(TrimSuffix(buffer, '\n'), '\r');
    TrimSuffixKeepsData(TrimSuffix(TrimSuffix(buffer, '\n'), '\r'), '\n');
  }

  /** The blocks of a CRLF stream keep the carriage return of their last line. */
  lemma CrlfBlockKeepsCr(lines: string)
    ensures CutBlock(lines + ['\r', '\n'] + ['\r', '\n']) == lines + ['\r']
  {
    var buffer := lines + ['\r', '\n'] + ['\r', '\n'];
    var once := TrimSuffix(buffer, '\n');
    assert once == lines + ['\r', '\n'] + ['\r'];
    var twice := TrimSuffix(once, '\r');
    assert twice == lines + ['\r', '\n'];
    assert TrimSuffix(twice, '\n') == lines + ['\r'];
  }

  lemma {:induction false} TrimEolKeepsData(s: string)
    ensures DataLines(TrimEol(s)) == DataLines(s)
  {
    hide DataLines;
    if s != "" && IsEol(s[|s| - 1]) {
      TrimEolKeepsData(s[..|s| - 1]);
      TrailingEolIsNoData(s[..|s| - 1], s[|s| - 1]);
      assert s[..|s| - 1] + [s[|s| - 1]] == s;
    }
  }

  lemma {:induction false} TrimEolHasNoFeed(line: string)
    requires '\n' !in line
    ensures '\n' !in TrimEol(line)
  {
    if line != "" && IsEol(line[|line| - 1]) {
      TrimEolHasNoFeed(line[..|line| - 1]);
    }
  }

  lemma TrimEolOfLine(line: string)
    ensures TrimEol(line + "\n") == TrimEol(line)
  {
    assert (line + "\n")[..|line|] == line;
  }

  /** Read so far: nothing, or whole lines. */
  predicate WholeLines(buffer: string) {
    buffer != "" ==> buffer[|buffer| - 1] == '\n'
  }

  lemma DataAfterWholeLines(buffer: string, more: string)
    requires WholeLines(buffer)
    ensures DataLines(buffer + more) == DataLines(buffer) + DataLines(more)
  {
    hide DataLines;
    if buffer == "" {
      NothingHasNoData();
      assert buffer + more == more && [] + DataLines(more) == DataLines(more);
    } else {
      var b := buffer[..|buffer| - 1];
      assert buffer == b + "\n" + "" && buffer + more == b + "\n" + more;
      DataLinesAppend(b, "");
      DataLinesAppend(b, more);
      NothingHasNoData();
      assert DataLines(b) + [] == DataLines(b);
    }
  }

  lemma {:induction false} TrimEolOfSum(a: string, b: string)
    requires TrimEol(b) != ""
    ensures TrimEol(a + b) != ""
  {
    if IsEol(b[|b| - 1]) {
      assert (a + b)[..|a + b| - 1] == a + b[..|b| - 1];
      TrimEolOfSum(a, b[..|b| - 1]);
    }
  }

  /** The data of the first line of a text. */
  lemma FirstLineData(text: string)
    requires text != ""
    ensures
      var chunk := text[..LineLength(text)];
      DataLines(chunk) == if TrimEol(chunk) == "" then [] else DataOfLine(TrimEol(chunk))
  {
    hide DataLines, DataOfLine;
    var n := LineLength(text);
    var chunk := text[..n];
    LineHasNoFeed(text);
    TrimEolKeepsData(chunk);
    NothingHasNoData();
    if Terminated(text) {
      assert chunk == text[..n - 1] + "\n";
      TrimEolOfLine(text[..n - 1]);
      TrimEolHasNoFeed(text[..n - 1]);
    } else {
      TrimEolHasNoFeed(chunk);
    }
    OneLineData(TrimEol(chunk));
  }

  /** Reading block by block delivers, event by event, exactly the data lines of the stream: none is
      lost, repeated, reordered or moved across a blank line, and the last event needs no blank line. */
  lemma {:induction false} BlocksCarryTheData(s: Source, buffer: string)
    requires s.limit > 0 && Fits(s.rest, s.limit, s.eager) && WholeLines(buffer)
    ensures AllData(Blocks(s, buffer)) == EventData(s.rest, TrimEol(buffer) != "", DataLines(buffer))
    decreases |s.rest|
  {
    hide DataLines, TrimEol, DataOfLine, CutBlock;
    var (chunk, err, next) := ReadSlice(s);
    var whole := buffer + chunk;
    NothingTrimmed();
    DataAfterWholeLines(buffer, chunk);
    CutBlockKeepsData(whole);
    TrimEolKeepsData(whole);
    if s.rest == "" {
      assert whole == buffer;
      AllDataOfOne(TrimEol(whole));
    } else {
      LineHasNoFeed(s.rest);
      FirstLineData(s.rest);
      assert chunk == s.rest[..LineLength(s.rest)];
      if TrimEol(chunk) != "" {
        TrimEolOfSum(buffer, chunk);
      } else {
        assert DataLines(buffer) + [] == DataLines(buffer);
      }
      AllDataOfOne(CutBlock(whole));
      AllDataOfOne(TrimEol(whole));
      if err == NoError {
        assert WholeLines(whole);
        NothingHasNoData();
        if IsBlank(chunk) {
          BlocksCarryTheData(next, "");
          assert ([CutBlock(whole)] + Blocks(next, ""))[1..] == Blocks(next, "");
        } else {
          BlocksCarryTheData(next, whole);
        }
      }
    }
  }

  lemma NothingTrimmed()
    ensures TrimEol("") == ""
  {
  }

  lemma AllDataOfOne(block: string)
    ensures AllData([block]) == [DataLines(block)]
  {
    hide DataLines;
    assert [block][1..] == [];
  }

  /** The same, for a whole stream. */
  lemma {:induction false} StreamDataIsDelivered(s: Source)
    requires s.limit > 0 && Fits(s.rest, s.limit, s.eager)
    ensures AllData(Blocks(s, "")) == EventData(s.rest, false, [])
    ensures Ending(s) == if s.failing then ReadFailed else Eof
  {
    BlocksCarryTheData(s, "");
    NothingHasNoData();
    FittingEnds(s);
  }

  lemma {:induction false} FittingEnds(s: Source)
    requires s.limit > 0
    ensures Fits(s.rest, s.limit, s.eager) <==> Ending(s) != LineTooLong
    ensures Ending(s) != LineTooLong ==> Ending(s) == if s.failing then ReadFailed else Eof
    decreases |s.rest|
  {
    var (_, err, next) := ReadSlice(s);
    LineHasNoFeed(s.rest);
    if err == NoError {
      FittingEnds(next);
    }
  }

  // ----- Single lines -----

  lemma TrimCrIs(line: string)
    requires OneLine(line)
    ensures TrimCr(line) == line
  {
  }

  /** A data line without a line feed or carriage return carries exactly what follows the colon, less one
      space if there is one; any other line carries nothing. */
  lemma OneLineCarries(x: string)
    requires OneLine(x)
    ensures DataLines("data: " + x) == [x]
    ensures (x == "" || x[0] != ' ') ==> DataLines("data:" + x) == [x]
    ensures !("data:" <= x) ==> DataLines(x) == []
  {
    DataFieldData(x);
    TightFieldData(x);
    CarriesLine("data: " + x);
    CarriesLine("data:" + x);
    CarriesLine(x);
    TrimCrIs(x);
    hide DataLines, OneLine, TrimCr;
  }

  lemma CarriesLine(line: string)
    requires OneLine(line)
    ensures DataLines(line) == DataOfLine(line)
  {
    hide DataOfLine, DataLines;
    NoFeedInside(line);
    OneLineData(line);
  }

  lemma NoFeedInside(x: string)
    requires OneLine(x)
    ensures '\n' !in x
  {
  }

  lemma OneLineSplits(line: string)
    requires OneLine(line)
    ensures SplitLines(line) == [line]
  {
    NoFeedInside(line);
    LineLengthIs(line, "");
  }

  /** Joined with line feeds, lines fall apart into themselves. */
  lemma {:induction false} JoinedLinesSplit(parts: seq<string>)
    requires parts != [] && forall i :: 0 <= i < |parts| ==> OneLine(parts[i])
    ensures SplitLines(Join(parts)) == parts
  {
    hide SplitLines, OneLine;
    var front, last := parts[..|parts| - 1], parts[|parts| - 1];
    OneLineSplits(last);
    if front == [] {
      assert parts == [last];
    } else {
      JoinedLinesSplit(front);
      JoinSnoc(parts);
      hide Join;
      SplitLinesAppend(Join(front), last);
      assert front + [last] == parts;
    }
  }

  lemma JoinSnoc(parts: seq<string>)
    requires |parts| > 1
    ensures Join(parts) == Join(parts[..|parts| - 1]) + "\n" + parts[|parts| - 1]
  {
  }

  /** A block of an LF stream is its lines, without the line feeds that end it. */
  lemma LfBlock(lines: string)
    requires lines == "" || !IsEol(lines[|lines| - 1])
    ensures CutBlock(lines + ['\n'] + ['\n']) == lines
  {
    assert TrimSuffix(lines + ['\n'] + ['\n'], '\n') == lines + ['\n'];
    assert TrimSuffix(lines + ['\n'], '\r') == lines + ['\n'];
    assert TrimSuffix(lines + ['\n'], '\n') == lines;
  }

  // ----- Printing -----

  /** The third kind is how others print the second: without the space. */
  datatype OutFrame = Named(event: string, payload: string) | Bare(payload: string) | Tight(payload: string)

  const EVENT_FIELD := "event: "
  const DATA_FIELD := "data: "

  /** `sseFrame`, and `sseDoneFrame` for a frame without an event name. */
  function Print(frame: OutFrame): string {
    match frame
    case Named(event, payload) => EVENT_FIELD + event + "\n" + (DATA_FIELD + payload + "\n" + "\n")
    case Bare(payload) => DATA_FIELD + payload + "\n" + "\n"
    case Tight(payload) => DATA + payload + "\n" + "\n"
  }

  function PrintAll(frames: seq<OutFrame>): string {
    if frames == [] then "" else Print(frames[0]) + PrintAll(frames[1..])
  }

  predicate OneLine(text: string) {
    forall i :: 0 <= i < |text| ==> !IsEol(text[i])
  }

  predicate Printable(frame: OutFrame, limit: nat) {
    && OneLine(frame.payload) && |DATA_FIELD| + |frame.payload| < limit
    && (frame.Named? ==> OneLine(frame.event) && |EVENT_FIELD| + |frame.event| < limit)
    && (frame.Tight? ==> frame.payload == "" || frame.payload[0] != ' ')
  }

  function Payloads(frames: seq<OutFrame>): seq<seq<string>> {
    if frames == [] then [] else [[frames[0].payload]] + Payloads(frames[1..])
  }

  /** One more non-blank line in front. */
  lemma EventDataLine(line: string, tail: string, open: bool, data: seq<string>, limit: nat,
                      eager: bool)
    requires OneLine(line)
    requires |line| < limit
    ensures line != "" ==>
              EventData(line + "\n" + tail, open, data) == EventData(tail, true, data + DataOfLine(line))
    ensures line == "" ==> EventData(line + "\n" + tail, open, data) == [data] + EventData(tail, false, [])
    ensures Fits(line + "\n" + tail, limit, eager) == Fits(tail, limit, eager)
  {
    hide DataOfLine;
    LineLengthIs(line, tail);
    var text := line + "\n" + tail;
    assert text[..|line| + 1] == line + "\n" && text[|line| + 1..] == tail;
    TrimEolOfLine(line);
    assert TrimEol(line) == line;
  }

  lemma DataFieldData(payload: string)
    requires OneLine(payload)
    ensures OneLine(DATA_FIELD + payload) && DataOfLine(DATA_FIELD + payload) == [payload]
  {
    var line := DATA_FIELD + payload;
    assert TrimCr(line) == line;
    assert line[|DATA|..] == " " + payload && (" " + payload)[1..] == payload;
    assert line[..|DATA|] == DATA;
  }

  lemma TightFieldData(payload: string)
    requires OneLine(payload)
    ensures OneLine(DATA + payload)
    ensures (payload == "" || payload[0] != ' ') ==> DataOfLine(DATA + payload) == [payload]
  {
    assert OneLine(DATA);
    TrimCrIs(DATA + payload);
    assert (DATA + payload)[|DATA|..] == payload;
  }

  lemma EventFieldData(event: string)
    requires OneLine(event)
    ensures OneLine(EVENT_FIELD + event) && DataOfLine(EVENT_FIELD + event) == []
  {
    var line := EVENT_FIELD + event;
    assert TrimCr(line) == line;
    assert line[0] != DATA[0];
  }

  lemma FrameData(frame: OutFrame, tail: string, limit: nat, eager: bool)
    requires Printable(frame, limit)
    ensures EventData(Print(frame) + tail, false, []) == [[frame.payload]] + EventData(tail, false, [])
    ensures Fits(Print(frame) + tail, limit, eager) == Fits(tail, limit, eager)
  {
    hide EventData, DataOfLine, Fits;
    var line := (if frame.Tight? then DATA else DATA_FIELD) + frame.payload;
    var end := "" + "\n" + tail;
    DataFieldData(frame.payload);
    TightFieldData(frame.payload);
    EventDataLine("", tail, true, [frame.payload], limit, eager);
    EventDataLine(line, end, false, [], limit, eager);
    EventDataLine(line, end, true, [], limit, eager);
    var none: seq<string> := [];
    assert none + [frame.payload] == [frame.payload] && none + none == none;
    assert line != "" && EVENT_FIELD != "";
    if frame.Named? {
      EventFieldData(frame.event);
      EventDataLine(EVENT_FIELD + frame.event, line + "\n" + end, false, [], limit, eager);
      assert Print(frame) + tail == EVENT_FIELD + frame.event + "\n" + (line + "\n" + end);
    } else {
      assert Print(frame) + tail == line + "\n" + end;
    }
  }

  lemma {:induction false} PrintedData(frames: seq<OutFrame>, limit: nat, eager: bool)
    requires limit > 0
    requires forall i :: 0 <= i < |frames| ==> Printable(frames[i], limit)
    ensures EventData(PrintAll(frames), false, []) == Payloads(frames)
    ensures Fits(PrintAll(frames), limit, eager)
  {
    if frames != [] {
      hide Printable, Print;
      PrintedData(frames[1..], limit, eager);
      FrameData(frames[0], PrintAll(frames[1..]), limit, eager);
    }
  }

  /** Reading back what was printed: one block for each frame, carrying exactly its payload, and then
      the end of the stream. */
  lemma {:induction false} PrintThenRead(frames: seq<OutFrame>, limit: nat, eager: bool)
    requires limit > 0
    requires forall i :: 0 <= i < |frames| ==> Printable(frames[i], limit)
    ensures
      var s := Source(PrintAll(frames), limit, false, eager);
      var blocks := Blocks(s, "");
      && |blocks| == |frames|
      && (forall i :: 0 <= i < |frames| ==> Join(DataLines(blocks[i])) == frames[i].payload)
      && Ending(s) == Eof
  {
    hide Printable, DataLines, Blocks, PrintAll, EventData, Fits;
    var s := Source(PrintAll(frames), limit, false, eager);
    PrintedData(frames, limit, eager);
    StreamDataIsDelivered(s);
    AllDataAt(Blocks(s, ""), frames);
  }

  lemma {:induction false} AllDataAt(blocks: seq<string>, frames: seq<OutFrame>)
    requires AllData(blocks) == Payloads(frames)
    ensures |blocks| == |frames|
    ensures forall i :: 0 <= i < |frames| ==> Join(DataLines(blocks[i])) == frames[i].payload
  {
    hide DataLines;
    AllDataLength(blocks);
    PayloadsLength(frames);
    if blocks != [] {
      assert AllData(blocks)[0] == Payloads(frames)[0];
      assert AllData(blocks)[1..] == AllData(blocks[1..]) && Payloads(frames)[1..] == Payloads(frames[1..]);
      AllDataAt(blocks[1..], frames[1..]);
    }
  }

  lemma AllDataLength(blocks: seq<string>)
    ensures |AllData(blocks)| == |blocks|
  {
    hide DataLines;
  }

  lemma PayloadsLength(frames: seq<OutFrame>)
    ensures |Payloads(frames)| == |frames|
  {
  }
}

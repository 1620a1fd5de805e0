/**
 * The text delta of one decoded chunk of the agent's data stream: the chunk
 * is cut into lines at '\n', empty lines are dropped, every remaining line is
 * parsed into a stream part, and the values of the `text` parts are
 * concatenated in order.
 */
module DataStream {
  import opened Wrappers
  import opened JsText

  /** A parsed line: its type tag and, for a `text` part, the text it carries. */
  datatype StreamPart = StreamPart(partType: string, value: string)

  /**
   * The line parser of the data-stream protocol, a library function whose code
   * is not part of this model: `None` where it throws on a malformed line.
   */
  type Parser = string -> Option<StreamPart>

  /** `.filter(line => line !== '')`: the non-empty lines, in order. */
  function NonEmptyLines(lines: seq<string>): (r: seq<string>)
    ensures |r| <= |lines|
    ensures forall l :: l in r <==> l in lines && l != ""
    ensures |lines| == 1 ==> r == (if lines[0] == "" then [] else lines)
  {
    if lines == [] then []
    else (if lines[0] == "" then [] else [lines[0]]) + NonEmptyLines(lines[1..])
  }

  /** The filter works line by line: filtering two runs of lines is filtering each. */
  lemma {:induction false} NonEmptyLinesAppend(a: seq<string>, b: seq<string>)
    ensures NonEmptyLines(a + b) == NonEmptyLines(a) + NonEmptyLines(b)
  {
    if a == [] {
      assert a + b == b;
    } else {
      assert (a + b)[0] == a[0] && (a + b)[1..] == a[1..] + b;
      NonEmptyLinesAppend(a[1..], b);
    }
  }

  /**
   * `.map(parseDataStreamPart)`: every line parsed, in order. The first line
   * that fails to parse aborts the whole map and is reported.
   */
  function ParseAll(lines: seq<string>, parse: Parser): (r: Result<seq<StreamPart>, string>)
    ensures r.Ok? <==> forall i :: 0 <= i < |lines| ==> parse(lines[i]).Some?
    ensures r.Ok? ==>
      && |r.value| == |lines|
      && forall i :: 0 <= i < |lines| ==> parse(lines[i]) == Some(r.value[i])
    ensures r.Err? ==>
      exists i :: (&& 0 <= i < |lines| && lines[i] == r.error && parse(lines[i]).None?
                   && forall j :: 0 <= j < i ==> parse(lines[j]).Some?)
  {
    if lines == [] then Ok([])
    else
      match parse(lines[0])
      case None => Err(lines[0])
      case Some(p) =>
        match ParseAll(lines[1..], parse)
        case Err(e) =>
          assert exists i :: (&& 0 <= i < |lines| - 1 && lines[1..][i] == e && parse(lines[1..][i]).None?
                              && forall j :: 0 <= j < i ==> parse(lines[1..][j]).Some?);
          Err(e)
        case Ok(ps) => Ok([p] + ps)
  }

  /** `.filter(({type}) => type === 'text').map(({value}) => value)`. */
  function TextValues(parts: seq<StreamPart>): (r: seq<string>)
    ensures |r| <= |parts|
    ensures forall v :: v in r ==> StreamPart("text", v) in parts
    ensures |parts| == 1 ==> r == (if parts[0].partType == "text" then [parts[0].value] else [])
  {
    if parts == [] then []
    else (if parts[0].partType == "text" then [parts[0].value] else []) + TextValues(parts[1..])
  }

  /** The filter and map work part by part: two runs of parts give their values in order. */
  lemma {:induction false} TextValuesAppend(a: seq<StreamPart>, b: seq<StreamPart>)
    ensures TextValues(a + b) == TextValues(a) + TextValues(b)
  {
    if a == [] {
      assert a + b == b;
    } else {
      var head := if a[0].partType == "text" then [a[0].value] else [];
      assert (a + b)[0] == a[0] && (a + b)[1..] == a[1..] + b;
      assert TextValues(a + b) == head + TextValues(a[1..] + b);
      assert TextValues(a) == head + TextValues(a[1..]);
      TextValuesAppend(a[1..], b);
      assert head + (TextValues(a[1..]) + TextValues(b)) == (head + TextValues(a[1..])) + TextValues(b);
    }
  }

  /** The in-order concatenation of a sequence of strings. */
  function Concat(values: seq<string>): string {
    if values == [] then "" else values[0] + Concat(values[1..])
  }

  /** A left fold of string concatenation starting from `acc`. */
  function FoldConcat(acc: string, rest: seq<string>): string
    decreases |rest|
  {
    if rest == [] then acc else FoldConcat(acc + rest[0], rest[1..])
  }

  /**
   * `stream.length > 0 ? stream.reduce((acc, cur) => acc + cur) : ''`: the
   * plain in-order concatenation, '' for no values.
   */
  function Reduce(values: seq<string>): (r: string)
    ensures r == Concat(values)
  {
    if values == [] then ""
    else
      FoldConcatIsConcat(values[0], values[1..]);
      FoldConcat(values[0], values[1..])
  }

  lemma {:induction false} ConcatAppend(a: seq<string>, b: seq<string>)
    ensures Concat(a + b) == Concat(a) + Concat(b)
  {
    if a == [] {
      assert a + b == b;
    } else {
      ConcatAppend(a[1..], b);
      assert (a + b)[0] == a[0] && (a + b)[1..] == a[1..] + b;
    }
  }

  lemma {:induction false} FoldConcatIsConcat(acc: string, rest: seq<string>)
    ensures FoldConcat(acc, rest) == acc + Concat(rest)
    decreases |rest|
  {
    if rest != [] {
      FoldConcatIsConcat(acc + rest[0], rest[1..]);
    }
  }

  /** The per-chunk pipeline after the split: filter, parse, keep `text` parts, reduce. */
  function LinesPipeline(lines: seq<string>, parse: Parser): (r: Result<string, string>)
    ensures r.Ok? <==> forall l :: l in lines && l != "" ==> parse(l).Some?
    ensures r.Err? ==> r.error in lines && r.error != "" && parse(r.error).None?
  {
    match ParseAll(NonEmptyLines(lines), parse)
    case Err(line) => Err(line)
    case Ok(parts) => Ok(Reduce(TextValues(parts)))
  }

  /** The text delta of one decoded chunk, or the first line that fails to parse. */
  function ChunkDelta(chunk: string, parse: Parser): (r: Result<string, string>)
    ensures r.Ok? <==> forall l :: l in Split(chunk, '\n') && l != "" ==> parse(l).Some?
    ensures r.Err? ==> r.error in Split(chunk, '\n') && '\n' !in r.error && r.error != "" && parse(r.error).None?
  {
    LinesPipeline(Split(chunk, '\n'), parse)
  }

  /** Sequencing of two deltas: the first failure wins, otherwise the texts concatenate. */
  function AndThen(x: Result<string, string>, y: Result<string, string>): Result<string, string> {
    match x
    case Err(_) => x
    case Ok(s) =>
      match y
      case Err(_) => y
      case Ok(t) => Ok(s + t)
  }

  lemma AndThenAssociative(x: Result<string, string>, y: Result<string, string>, z: Result<string, string>)
    ensures AndThen(AndThen(x, y), z) == AndThen(x, AndThen(y, z))
  {
    if x.Ok? && y.Ok? && z.Ok? {
      assert (x.value + y.value) + z.value == x.value + (y.value + z.value);
    }
  }

  /** What one line contributes: the text of a `text` part, '' for an empty line or any other part. */
  function LineDelta(line: string, parse: Parser): Result<string, string> {
    if line == "" then Ok("")
    else
      match parse(line)
      case None => Err(line)
      case Some(p) => Ok(if p.partType == "text" then p.value else "")
  }

  /** Reference reading of a chunk's lines, one line at a time. */
  function LinesDelta(lines: seq<string>, parse: Parser): Result<string, string> {
    if lines == [] then Ok("") else AndThen(LineDelta(lines[0], parse), LinesDelta(lines[1..], parse))
  }

  /** The source's pipeline and the line-at-a-time reading agree on every list of lines. */
  lemma {:induction false} PipelineIsLineByLine(lines: seq<string>, parse: Parser)
    ensures LinesPipeline(lines, parse) == LinesDelta(lines, parse)
  {
    if lines != [] {
      PipelineIsLineByLine(lines[1..], parse);
      var rest := NonEmptyLines(lines[1..]);
      var tail := LinesDelta(lines[1..], parse);
      if lines[0] == "" {
        assert NonEmptyLines(lines) == [] + rest == rest;
        assert tail.Ok? ==> "" + tail.value == tail.value;
      } else {
        var ne := [lines[0]] + rest;
        assert NonEmptyLines(lines) == ne;
        assert ne[0] == lines[0] && ne[1..] == rest;
        if parse(lines[0]).Some? {
          var p := parse(lines[0]).value;
          match ParseAll(rest, parse)
          case Err(_) =>
          case Ok(ps) =>
            assert ([p] + ps)[0] == p && ([p] + ps)[1..] == ps;
            var t := if p.partType == "text" then [p.value] else [];
            assert TextValues([p] + ps) == t + TextValues(ps);
            ConcatAppend(t, TextValues(ps));
            assert Concat(t) == if p.partType == "text" then p.value else "";
        }
      }
    }
  }

  /** The chunk's delta, read line by line from its split. */
  lemma ChunkDeltaLineByLine(chunk: string, parse: Parser)
    ensures ChunkDelta(chunk, parse) == LinesDelta(Split(chunk, '\n'), parse)
  {
    PipelineIsLineByLine(Split(chunk, '\n'), parse);
  }

  /** Reading two lists of lines one after the other. */
  lemma {:induction false} LinesDeltaAppend(l1: seq<string>, l2: seq<string>, parse: Parser)
    ensures LinesDelta(l1 + l2, parse) == AndThen(LinesDelta(l1, parse), LinesDelta(l2, parse))
  {
    if l1 == [] {
      assert l1 + l2 == l2;
      var y := LinesDelta(l2, parse);
      assert y.Ok? ==> "" + y.value == y.value;
    } else {
      LinesDeltaAppend(l1[1..], l2, parse);
      assert (l1 + l2)[0] == l1[0] && (l1 + l2)[1..] == l1[1..] + l2;
      AndThenAssociative(LineDelta(l1[0], parse), LinesDelta(l1[1..], parse), LinesDelta(l2, parse));
    }
  }

  /** Which lines of a list fail to parse: the empty lines are never parsed. */
  predicate LinesParse(lines: seq<string>, parse: Parser) {
    forall i :: 0 <= i < |lines| && lines[i] != "" ==> parse(lines[i]).Some?
  }

  /**
   * Reading lines fails exactly when a non-empty line fails to parse, and then
   * it reports the first such line.
   */
  lemma {:induction false} LinesDeltaFailure(lines: seq<string>, parse: Parser)
    ensures LinesDelta(lines, parse).Ok? <==> LinesParse(lines, parse)
    ensures LinesDelta(lines, parse).Err? ==>
      exists i :: 0 <= i < |lines| && lines[i] == LinesDelta(lines, parse).error
        && lines[i] != "" && parse(lines[i]).None?
        && LinesParse(lines[..i], parse)
  {
    if lines != [] {
      LinesDeltaFailure(lines[1..], parse);
      var r := LinesDelta(lines, parse);
      if LineDelta(lines[0], parse).Ok? {
        assert LinesParse(lines, parse) <==> LinesParse(lines[1..], parse) by {
          if LinesParse(lines[1..], parse) {
            forall i | 0 <= i < |lines| && lines[i] != "" ensures parse(lines[i]).Some? {
              if i > 0 { assert lines[i] == lines[1..][i - 1]; }
            }
          }
        }
        if r.Err? {
          var i :| 0 <= i < |lines| - 1 && lines[1..][i] == r.error
            && lines[1..][i] != "" && parse(lines[1..][i]).None?
            && LinesParse(lines[1..][..i], parse);
          assert lines[..i + 1][1..] == lines[1..][..i];
          assert lines[i + 1] == lines[1..][i];
        }
      } else {
        assert lines[..0] == [];
      }
    }
  }

  /** Lines that all parse to parts other than `text` contribute nothing. */
  lemma {:induction false} OtherPartsContributeNothing(lines: seq<string>, parse: Parser)
    requires forall i :: 0 <= i < |lines| && lines[i] != "" ==>
      parse(lines[i]).Some? && parse(lines[i]).value.partType != "text"
    ensures LinesDelta(lines, parse) == Ok("")
  {
    if lines != [] {
      OtherPartsContributeNothing(lines[1..], parse);
    }
  }

  /**
   * The delta of a chunk is defined exactly when every non-empty line parses,
   * and the first unparseable line is what the chunk fails with.
   */
  lemma ChunkDeltaFailure(chunk: string, parse: Parser)
    ensures ChunkDelta(chunk, parse).Ok? <==> LinesParse(Split(chunk, '\n'), parse)
    ensures ChunkDelta(chunk, parse).Err? ==>
      var lines := Split(chunk, '\n');
      exists i :: 0 <= i < |lines| && lines[i] == ChunkDelta(chunk, parse).error
        && lines[i] != "" && parse(lines[i]).None? && LinesParse(lines[..i], parse)
  {
    ChunkDeltaLineByLine(chunk, parse);
    LinesDeltaFailure(Split(chunk, '\n'), parse);
  }

  /** A chunk holding only frames of other kinds, or nothing at all, yields the empty delta. */
  lemma ChunkWithoutTextIsEmpty(chunk: string, parse: Parser)
    requires forall line :: line in Split(chunk, '\n') && line != "" ==>
      parse(line).Some? && parse(line).value.partType != "text"
    ensures ChunkDelta(chunk, parse) == Ok("")
  {
    ChunkDeltaLineByLine(chunk, parse);
    var lines := Split(chunk, '\n');
    assert forall i :: 0 <= i < |lines| ==> lines[i] in lines;
    OtherPartsContributeNothing(lines, parse);
  }

  /** Cutting a chunk at one of its newlines cuts its delta there too. */
  lemma ChunkDeltaAtNewline(a: string, b: string, parse: Parser)
    ensures ChunkDelta(a + "\n" + b, parse) == AndThen(ChunkDelta(a, parse), ChunkDelta(b, parse))
  {
    SplitAtSeparator(a, b, '\n');
    ChunkDeltaLineByLine(a + "\n" + b, parse);
    ChunkDeltaLineByLine(a, parse);
    ChunkDeltaLineByLine(b, parse);
    LinesDeltaAppend(Split(a, '\n'), Split(b, '\n'), parse);
  }

  /** The deltas of a sequence of chunks, each parsed on its own, in arrival order; the first failure wins. */
  function StreamDelta(chunks: seq<string>, parse: Parser): Result<string, string> {
    if chunks == [] then Ok("") else AndThen(ChunkDelta(chunks[0], parse), StreamDelta(chunks[1..], parse))
  }

  /** Every chunk but the last ends with a newline: no line is cut between two chunks. */
  predicate LineAligned(chunks: seq<string>) {
    forall i :: 0 <= i < |chunks| - 1 ==> chunks[i] != "" && chunks[i][|chunks[i]| - 1] == '\n'
  }

  /**
   * When the chunk boundaries fall on line boundaries, parsing chunk by chunk
   * gives what parsing the whole stream at once would.
   */
  lemma {:induction false} AlignedChunksDelta(chunks: seq<string>, parse: Parser)
    requires LineAligned(chunks)
    ensures StreamDelta(chunks, parse) == ChunkDelta(Concat(chunks), parse)
  {
    if chunks != [] {
      var c, rest := chunks[0], chunks[1..];
      if rest == [] {
        assert Concat(chunks) == c + "" == c;
        AndThenOkEmpty(ChunkDelta(c, parse));
      } else {
        assert LineAligned(rest) by {
          forall i | 0 <= i < |rest| - 1 ensures rest[i] != "" && rest[i][|rest[i]| - 1] == '\n' {
            assert rest[i] == chunks[i + 1];
          }
        }
        AlignedChunksDelta(rest, parse);
        var a := c[..|c| - 1];
        assert c == a + "\n";
        assert Concat(chunks) == a + "\n" + Concat(rest);
        LineEndedChunk(a, parse);
        ChunkDeltaAtNewline(a, Concat(rest), parse);
      }
    }
  }

  /** Appending nothing to a delta leaves it as it is. */
  lemma AndThenOkEmpty(x: Result<string, string>)
    ensures AndThen(x, Ok("")) == x
  {
    assert x.Ok? ==> x.value + "" == x.value;
  }

  /** An empty chunk yields the empty delta. */
  lemma EmptyChunkIsEmpty(parse: Parser)
    ensures ChunkDelta("", parse) == Ok("")
  {
    ChunkDeltaLineByLine("", parse);
    assert LineDelta("", parse) == Ok("");
    assert [""][1..] == [];
    assert "" + "" == "";
  }

  /** A final newline adds nothing to a chunk's delta. */
  lemma LineEndedChunk(a: string, parse: Parser)
    ensures ChunkDelta(a + "\n", parse) == ChunkDelta(a, parse)
  {
    assert a + "\n" == a + "\n" + "";
    ChunkDeltaAtNewline(a, "", parse);
    EmptyChunkIsEmpty(parse);
    AndThenOkEmpty(ChunkDelta(a, parse));
  }

  /**
   * A string that JSON writes between quotes as it is: no control character,
   * no quote, no backslash.
   */
  predicate PlainText(s: string) {
    forall i :: 0 <= i < |s| ==> ' ' <= s[i] && s[i] != '"' && s[i] != '\\'
  }

  /**
   * A stand-in for the library parser, for text frames only: it accepts the
   * lines `0:"s"` with `s` plain text, which the library parses to a text
   * part holding `s`, and nothing else.
   */
  function TextFrameParser(line: string): Option<StreamPart> {
    if |line| >= 4 && line[..3] == "0:\"" && line[|line| - 1] == '"' && PlainText(line[3..|line| - 1])
    then Some(StreamPart("text", line[3..|line| - 1]))
    else None
  }

  /** A text frame line, newline-terminated, as the agent sends it for plain text. */
  function TextFrame(text: string): string {
    "0:\"" + text + "\"\n"
  }

  /** The line of a text frame of plain text holds no newline and parses to that text. */
  lemma TextFrameLine(text: string)
    requires PlainText(text)
    ensures '\n' !in "0:\"" + text + "\""
    ensures TextFrameParser("0:\"" + text + "\"") == Some(StreamPart("text", text))
  {
    var line := "0:\"" + text + "\"";
    assert forall i :: 3 <= i < |line| - 1 ==> line[i] == text[i - 3] && text[i - 3] != '\n';
    assert forall i :: 0 <= i < |line| ==> line[i] != '\n';
    assert line[..3] == "0:\"" && line[3..|line| - 1] == text;
  }

  /** A chunk holding one text frame of plain text yields that text. */
  lemma TextFrameChunk(text: string)
    requires PlainText(text)
    ensures ChunkDelta(TextFrame(text), TextFrameParser) == Ok(text)
  {
    var line := "0:\"" + text + "\"";
    assert TextFrame(text) == line + "\n" + "";
    TextFrameLine(text);
    SplitAtSeparator(line, "", '\n');
    SplitNoSeparator(line, '\n');
    SplitNoSeparator("", '\n');
    ChunkDeltaLineByLine(line + "\n" + "", TextFrameParser);
    assert LineDelta(line, TextFrameParser) == Ok(text);
    assert [line, ""][1..] == [""] && [""][1..] == [];
    assert LinesDelta([""], TextFrameParser) == Ok("") by {
      assert LineDelta("", TextFrameParser) == Ok("");
      assert LinesDelta([], TextFrameParser) == Ok("");
      assert "" + "" == "";
    }
    assert text + "" == text;
  }

  /**
   * A record cut across two chunks is not reassembled: a text frame read as
   * one chunk yields its text, but cut anywhere before its closing quote and
   * read as two chunks, the first fragment fails to parse.
   */
  lemma CutFrameIsNotReassembled(text: string, k: nat)
    requires PlainText(text)
    requires 0 < k <= |text| + 3
    ensures ChunkDelta(TextFrame(text), TextFrameParser) == Ok(text)
    ensures var frame := TextFrame(text);
      StreamDelta([frame[..k], frame[k..]], TextFrameParser) == Err(frame[..k])
  {
    TextFrameChunk(text);
    var frame := TextFrame(text);
    var head := frame[..k];
    assert '\n' !in head by {
      assert forall i :: 0 <= i < k ==> head[i] == frame[i];
      assert forall i :: 0 <= i < 3 ==> frame[i] != '\n';
      assert forall i :: 3 <= i < |text| + 3 ==> frame[i] == text[i - 3] && text[i - 3] != '\n';
    }
    assert TextFrameParser(head) == None by {
      if k >= 4 {
        assert head[k - 1] == text[k - 4] && text[k - 4] != '"';
      }
    }
    SplitNoSeparator(head, '\n');
    ChunkDeltaLineByLine(head, TextFrameParser);
    assert LineDelta(head, TextFrameParser) == Err(head);
  }
}

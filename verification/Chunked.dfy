/** Chunked message bodies (src/net/chunked_parser.cc; section 3.6.1 of RFC 2616). */
module Chunked {
  import opened Numerals
  import opened Options
  import opened Pieces
  import opened Strings

  const CRLF := "\r\n"
  const WORD := 0x1_0000_0000

  // ---------------------------------------------------------------- chunk sizes

  function Until(s: string, c: char): (r: string)
    ensures r <= s && c !in r && (r == s || s[|r|] == c)
  {
    match FindChar(s, c, 0) case Some(k) => s[..k] case None => s
  }

  // get_chunk_size: what precedes an extension or a space, in 32 bits. None stands for the exception.
  function ChunkSize(line: string): Option<nat> {
    match StrictAtoi(Until(Until(line, ';'), ' '), 16)
    case Some(n) => Some(n % WORD)
    case None => None
  }

  // The line begins with n in base 16; only a space or an extension may follow.
  predicate SizeLine(line: string, n: nat) {
    exists k | 0 <= k <= |line| :: Written(line[..k], n, 16) && (k == |line| || line[k] in {' ', ';'})
  }

  lemma {:induction false} DigitsOnly(s: string, n: nat)
    requires Written(s, n, 16)
    ensures ' ' !in s && ';' !in s
  {
    var front := s[..|s| - 1];
    assert s == front + [s[|s| - 1]];
    if front != "" { DigitsOnly(front, n / 16); }
  }

  lemma UntilJoined(a: string, c: char, b: string)
    requires c !in a && (b == "" || b[0] == c)
    ensures Until(a + b, c) == a
  {
    if b == "" {
      assert a + b == a;
    } else {
      assert a + b == a + [c] + b[1..];
      FindJoined(a, c, b[1..], 0);
    }
  }

  // What precedes the first space or semicolon is all there is to the size.
  lemma SizeText(line: string, k: nat)
    requires k <= |line| && ' ' !in line[..k] && ';' !in line[..k] && (k == |line| || line[k] in {' ', ';'})
    ensures Until(Until(line, ';'), ' ') == line[..k]
  {
    var size, text := line[..k], Until(line, ';');
    var rest := text[k..];
    assert text == size + rest;
    if rest != "" {
      assert rest[0] == text[k] == line[k];
      assert line[k] != ';';
    }
    UntilJoined(size, ' ', rest);
  }

  /** The size that is read off a line is the one the line begins with - in either case, with or without leading
      zeros - if nothing but a space or an extension follows it, in 32 bits; any other line is malformed. */
  lemma SizeReadIff(line: string, n: nat)
    ensures ChunkSize(line) == Some(n) <==>
              exists m: nat :: SizeLine(line, m) && m < 0x8000_0000_0000_0000 && m % 0x1_0000_0000 == n
  {
    hide StrictAtoi, Written;
    var text := Until(Until(line, ';'), ' ');
    forall m: nat | SizeLine(line, m) ensures StrictAtoi(text, 16) == Some(m) <==> m < 0x8000_0000_0000_0000 {
      var k :| 0 <= k <= |line| && Written(line[..k], m, 16) && (k == |line| || line[k] in {' ', ';'});
      DigitsOnly(line[..k], m);
      SizeText(line, k);
      AtoiIff(text, m, 16);
    }
    if ChunkSize(line) == Some(n) {
      var m := StrictAtoi(text, 16).value;
      AtoiIff(text, m, 16);
      assert line[..|text|] == text;
      assert SizeLine(line, m);
    }
  }

  // ---------------------------------------------------------------- where a body ends in a stream

  datatype State = Header | Data(size: nat) | Trailer

  // More bytes are needed; the body ends after so many bytes; or the stream is malformed.
  datatype Verdict = More | End(size: nat) | Bad

  function Shift(n: nat, v: Verdict): Verdict { match v case End(k) => End(n + k) case _ => v }

  function Needle(trailers: bool): string { if trailers then CRLF + CRLF else CRLF }

  // One step of the state machine on a buffer: the next state and the bytes it takes, if there are enough.
  datatype Step = Next(state: State, taken: nat) | Wait | Fail

  function Parse(state: State, buffer: string): (r: Step)
    requires !state.Trailer?
    ensures r.Next? ==> r.taken <= |buffer| && (r.taken > 0 || (state.Data? && r.state.Header?))
  {
    match state
    case Header =>
      (match FirstIndex(buffer, CRLF, 0)
       case None => Wait
       case Some(k) =>
         match ChunkSize(buffer[..k])
         case None => Fail
         case Some(size) => Next(if size == 0 then Trailer else Data(size), k + 2))
    case Data(size) =>
      var needed := (size + 2) % WORD;
      if |buffer| < needed then Wait
      else if size + 2 <= |buffer| && buffer[size..size + 2] == CRLF then Next(Header, needed)
      else Fail
  }

  function Scan(trailers: bool, state: State, buffer: string): Verdict
    decreases |buffer|, if state.Data? then 1 else 0
  {
    if buffer == "" then More
    else if state.Trailer? then
      match FirstIndex(buffer, Needle(trailers), 0)
      case Some(k) => End(k + |Needle(trailers)|)
      case None => More
    else
      match Parse(state, buffer)
      case Wait => More
      case Fail => Bad
      case Next(next, taken) => Shift(taken, Scan(trailers, next, buffer[taken..]))
  }

  // ---------------------------------------------------------------- more bytes

  // A step that was possible is the same step when more bytes have arrived.
  lemma StepKept(state: State, buffer: string, t: string)
    requires !state.Trailer? && Parse(state, buffer).Next?
    ensures Parse(state, buffer + t) == Parse(state, buffer)
  {
    match state
    case Header =>
      FirstIndexKept(buffer, CRLF, t);
      var k := FirstIndex(buffer, CRLF, 0).value;
      assert (buffer + t)[..k] == buffer[..k];
    case Data(size) =>
      assert (buffer + t)[size..size + 2] == buffer[size..size + 2];
  }

  lemma ScanStep(trailers: bool, state: State, buffer: string, t: string)
    requires buffer != "" && !state.Trailer? && Parse(state, buffer).Next?
    ensures var step := Parse(state, buffer);
            Scan(trailers, state, buffer + t) == Shift(step.taken, Scan(trailers, step.state, buffer[step.taken..] + t))
  {
    StepKept(state, buffer, t);
    var taken := Parse(state, buffer).taken;
    assert (buffer + t)[taken..] == buffer[taken..] + t;
  }

  // The end lies behind everything that was not enough.
  lemma {:induction false} EndsLater(trailers: bool, state: State, buffer: string, t: string)
    requires Scan(trailers, state, buffer).More? && Scan(trailers, state, buffer + t).End?
    ensures Scan(trailers, state, buffer + t).size > |buffer|
    decreases |buffer|, if state.Data? then 1 else 0
  {
    if buffer == "" {
      assert buffer + t == t;
      EndIsPositive(trailers, state, t);
    } else if state.Trailer? {
      FirstIndexLater(buffer, Needle(trailers), t);
    } else if Parse(state, buffer).Next? {
      var step := Parse(state, buffer);
      ScanStep(trailers, state, buffer, t);
      ScanStep(trailers, state, buffer, "");
      assert buffer + "" == buffer && buffer[step.taken..] + "" == buffer[step.taken..];
      EndsLater(trailers, step.state, buffer[step.taken..], t);
    } else {
      WaitsLonger(trailers, state, buffer, t);
    }
  }

  lemma {:induction false} EndIsPositive(trailers: bool, state: State, buffer: string)
    requires Scan(trailers, state, buffer).End?
    ensures 0 < Scan(trailers, state, buffer).size <= |buffer|
    decreases |buffer|, if state.Data? then 1 else 0
  {
    if !state.Trailer? {
      var step := Parse(state, buffer);
      EndIsPositive(trailers, step.state, buffer[step.taken..]);
    }
  }

  // A step that had to wait takes more than was there.
  lemma WaitsLonger(trailers: bool, state: State, buffer: string, t: string)
    requires buffer != "" && !state.Trailer? && Parse(state, buffer).Wait? && Scan(trailers, state, buffer + t).End?
    ensures Scan(trailers, state, buffer + t).size > |buffer|
  {
    var all := buffer + t;
    var step := Parse(state, all);
    EndIsPositive(trailers, step.state, all[step.taken..]);
    if state.Header? { FirstIndexLater(buffer, CRLF, t); }
  }

  // ---------------------------------------------------------------- the parser

  // All of the input belongs to the body; only so much of it does, and the body is complete; or an error.
  datatype Reading = All | Part(size: nat) | Error

  // Going on from this state and buffer is the same as starting over with all, whatever arrives next.
  ghost predicate Continues(trailers: bool, all: string, state: State, buffer: string, parsed: nat) {
    && Scan(trailers, Header, all) == Shift(parsed, Scan(trailers, state, buffer))
    && forall t :: Scan(trailers, Header, all + t) == Shift(parsed, Scan(trailers, state, buffer + t))
  }

  class ChunkedBodyParser {
    var buffer: string
    var state: State
    var acked: nat
    var parsed: nat
    const trailers: bool

    // Everything read so far.
    ghost var stream: string

    // Whatever arrives next, going on from here is the same as starting over with the whole stream.
    ghost predicate Resumes(all: string)
      reads this
    {
      parsed + |buffer| == |all| && Continues(trailers, all, state, buffer, parsed)
    }

    // Between calls: the body has not ended yet.
    ghost predicate Valid()
      reads this
    {
      Resumes(stream) && acked == |stream| && Scan(trailers, Header, stream).More?
    }

    constructor (trailersEnabled: bool)
      ensures Valid() && stream == "" && trailers == trailersEnabled
    {
      trailers, buffer, state, acked, parsed := trailersEnabled, "", Header, 0, 0;
      stream := "";
    }

    /** Reads the next piece. Between calls all of the stream is acknowledged; when the body ends in this
        piece, exactly its share of the piece is: so what was parsed exceeds what was acknowledged. */
    method Read(input: string) returns (r: Reading)
      requires Valid()
      modifies this
      ensures stream == old(stream) + input
      ensures match Scan(trailers, Header, stream)
              case More => r == All && Valid()
              case End(n) => 0 < n - |old(stream)| <= |input| && r == Part(n - |old(stream)|)
              case Bad => r == Error
    {
      hide Scan, Parse, Continues;
      stream := stream + input;
      buffer := buffer + input;
      ArrivedContinues(trailers, old(stream), input, old(state), old(buffer), parsed);
      while buffer != ""
        invariant stream == old(stream) + input && Resumes(stream) && acked == |old(stream)|
        decreases |buffer|, if state.Data? then 1 else 0
      {
        if state.Trailer? {
          assert stream[..acked] == old(stream);
          r := ComputeAckSize(input);
          return;
        }
        var step := Parse(state, buffer);
        StepContinues(trailers, stream, state, buffer, parsed);
        match step {
          case Wait =>
            acked := acked + |input|;
            return All;
          case Fail =>
            return Error;
          case Next(next, taken) =>
            state, buffer, parsed := next, buffer[taken..], parsed + taken;
        }
      }
      NothingLeft(trailers, stream, state, parsed);
      acked := acked + |input|;
      return All;
    }

    // In the trailer only the empty line is looked for (compute_ack_size).
    method ComputeAckSize(input: string) returns (r: Reading)
      requires state.Trailer? && buffer != "" && Resumes(stream) && acked + |input| == |stream|
      requires Scan(trailers, Header, stream[..acked]).More? && stream[..acked] + input == stream
      modifies this`acked, this`parsed
      ensures match Scan(trailers, Header, stream)
              case More => r == All && Valid()
              case End(n) => 0 < n - old(acked) <= |input| && r == Part(n - old(acked))
              case Bad => false
    {
      var needle := Needle(trailers);
      var found := FirstIndex(buffer, needle, 0);
      if found.Some? {
        EndsLater(trailers, Header, stream[..acked], input);
        EndIsPositive(trailers, Header, stream);
        parsed := parsed + found.value + |needle|;
        assert parsed > acked;
        r := Part(parsed - acked);
      } else {
        acked := acked + |input|;
        r := All;
      }
    }
  }

  lemma NothingLeft(trailers: bool, all: string, state: State, parsed: nat)
    requires Continues(trailers, all, state, "", parsed)
    ensures Scan(trailers, Header, all) == More
  {
  }

  lemma ShiftTwice(a: nat, b: nat, v: Verdict)
    ensures Shift(a, Shift(b, v)) == Shift(a + b, v)
  {
  }

  lemma ArrivedContinues(trailers: bool, before: string, input: string, state: State, buffer: string, parsed: nat)
    requires Continues(trailers, before, state, buffer, parsed)
    ensures Continues(trailers, before + input, state, buffer + input, parsed)
  {
    hide Scan;
    forall t ensures Scan(trailers, Header, before + input + t) ==
        Shift(parsed, Scan(trailers, state, buffer + input + t)) {
      assert before + (input + t) == before + input + t && buffer + (input + t) == buffer + input + t;
    }
  }

  lemma StepContinues(trailers: bool, all: string, state: State, buffer: string, parsed: nat)
    requires buffer != "" && !state.Trailer? && Continues(trailers, all, state, buffer, parsed)
    ensures var step := Parse(state, buffer);
            && (step.Wait? ==> Scan(trailers, Header, all) == More)
            && (step.Fail? ==> Scan(trailers, Header, all) == Bad)
            && (step.Next? ==> Continues(trailers, all, step.state, buffer[step.taken..], parsed + step.taken))
  {
    hide Parse;
    var step := Parse(state, buffer);
    if step.Next? {
      forall t ensures Scan(trailers, Header, all + t) ==
          Shift(parsed + step.taken, Scan(trailers, step.state, buffer[step.taken..] + t)) {
        ScanStep(trailers, state, buffer, t);
        ShiftTwice(parsed, step.taken, Scan(trailers, step.state, buffer[step.taken..] + t));
      }
    }
  }

  // ---------------------------------------------------------------- well-formed bodies

  datatype Chunk = Chunk(line: string, data: string)
  datatype Body = Body(chunks: seq<Chunk>, last: string, fields: seq<string>)

  predicate Line(s: string) { FirstIndex(s, CRLF, 0).None? }

  function PrintChunk(c: Chunk): string { c.line + CRLF + c.data + CRLF }

  function PrintChunks(chunks: seq<Chunk>): string {
    if chunks == [] then "" else PrintChunk(chunks[0]) + PrintChunks(chunks[1..])
  }

  function PrintLines(lines: seq<string>): string {
    if lines == [] then "" else lines[0] + CRLF + PrintLines(lines[1..])
  }

  // Chunked-Body = *chunk last-chunk trailer CRLF.
  function Print(b: Body): string { PrintChunks(b.chunks) + b.last + CRLF + PrintLines(b.fields) + CRLF }

  predicate WellFormedChunk(c: Chunk) {
    Line(c.line) && c.data != "" && SizeLine(c.line, |c.data|) && |c.data| + 2 < WORD
  }

  // Sizes are right and fit the 32 bits the parser computes in; trailer fields are non-empty lines.
  predicate WellFormed(b: Body) {
    && (forall c | c in b.chunks :: WellFormedChunk(c))
    && Line(b.last) && SizeLine(b.last, 0)
    && forall f | f in b.fields :: Line(f) && f != ""
  }

  // Sizes for which the sum with the final CRLF wraps around are taken for errors as soon as a byte is there.
  lemma WaitsIff(size: nat)
    requires size < 0x1_0000_0000
    ensures (forall buffer :: 0 < |buffer| < size + 2 ==> Parse(Data(size), buffer) == Wait) <==>
              size + 2 < 0x1_0000_0000
  {
    assert size + 2 >= WORD ==> Parse(Data(size), "x") == Fail;
  }

  lemma LineEnds(line: string, rest: string)
    requires Line(line)
    ensures FirstIndex(line + CRLF + rest, CRLF, 0) == Some(|line|)
  {
    var s := line + CRLF + rest;
    assert s[|line|..][..2] == CRLF;
    forall j | 0 <= j < |line| ensures !OccursAt(s, CRLF, j) {
      if j + 1 < |line| {
        assert s[j..][..2] == line[j..][..2];
        assert !OccursAt(line, CRLF, j);
      } else {
        assert s[j..][1] == '\r';
      }
    }
    FirstIndexIs(s, CRLF, 0, |line|);
  }

  lemma HeaderStep(line: string, rest: string, size: nat)
    requires Line(line) && ChunkSize(line) == Some(size)
    ensures Parse(Header, line + CRLF + rest) == Next(if size == 0 then Trailer else Data(size), |line| + 2)
    ensures (line + CRLF + rest)[|line| + 2..] == rest
  {
    hide ChunkSize, Line;
    LineEnds(line, rest);
    assert (line + CRLF + rest)[..|line|] == line;
  }

  lemma DataStep(data: string, rest: string)
    requires |data| + 2 < WORD
    ensures Parse(Data(|data|), data + CRLF + rest) == Next(Header, |data| + 2)
    ensures (data + CRLF + rest)[|data| + 2..] == rest
  {
    var d := data + CRLF + rest;
    assert d[|data|..|data| + 2] == CRLF;
  }

  // The two steps of a chunk.
  lemma ChunkSteps(c: Chunk, rest: string)
    requires WellFormedChunk(c)
    ensures Parse(Header, PrintChunk(c) + rest) == Next(Data(|c.data|), |c.line| + 2)
    ensures (PrintChunk(c) + rest)[|c.line| + 2..] == c.data + CRLF + rest
    ensures Parse(Data(|c.data|), c.data + CRLF + rest) == Next(Header, |c.data| + 2)
    ensures (c.data + CRLF + rest)[|c.data| + 2..] == rest
  {
    hide Parse, ChunkSize, SizeLine, Line;
    SizeReadIff(c.line, |c.data|);
    assert PrintChunk(c) + rest == c.line + CRLF + (c.data + CRLF + rest);
    HeaderStep(c.line, c.data + CRLF + rest, |c.data|);
    DataStep(c.data, rest);
  }

  lemma ChunkScans(trailers: bool, c: Chunk, rest: string)
    requires WellFormedChunk(c)
    ensures Scan(trailers, Header, PrintChunk(c) + rest) == Shift(|PrintChunk(c)|, Scan(trailers, Header, rest))
    ensures SmallSizes(Header, PrintChunk(c) + rest) <==> SmallSizes(Header, rest)
  {
    hide Parse;
    ChunkSteps(c, rest);
    ShiftTwice(|c.line| + 2, |c.data| + 2, Scan(trailers, Header, rest));
    assert Scan(trailers, Data(|c.data|), c.data + CRLF + rest) == Shift(|c.data| + 2, Scan(trailers, Header, rest));
    assert SmallSizes(Data(|c.data|), c.data + CRLF + rest) <==> SmallSizes(Header, rest);
  }

  lemma {:induction false} ChunksScan(trailers: bool, chunks: seq<Chunk>, rest: string)
    requires forall c | c in chunks :: WellFormedChunk(c)
    ensures Scan(trailers, Header, PrintChunks(chunks) + rest) ==
              Shift(|PrintChunks(chunks)|, Scan(trailers, Header, rest))
    ensures SmallSizes(Header, PrintChunks(chunks) + rest) <==> SmallSizes(Header, rest)
  {
    hide Scan, SmallSizes, WellFormedChunk;
    if chunks == [] {
      assert PrintChunks(chunks) + rest == rest;
      ShiftTwice(0, 0, Scan(trailers, Header, rest));
      ShiftNone(Scan(trailers, Header, rest));
    } else {
      var more := PrintChunks(chunks[1..]) + rest;
      ChunksScan(trailers, chunks[1..], rest);
      ChunkScans(trailers, chunks[0], more);
      assert PrintChunks(chunks) + rest == PrintChunk(chunks[0]) + more;
      ShiftTwice(|PrintChunk(chunks[0])|, |PrintChunks(chunks[1..])|, Scan(trailers, Header, rest));
    }
  }

  lemma ShiftNone(v: Verdict)
    ensures Shift(0, v) == v
  {
  }

  lemma LastScans(trailers: bool, last: string, tail: string)
    requires Line(last) && SizeLine(last, 0)
    ensures Scan(trailers, Header, last + CRLF + tail) == Shift(|last| + 2, Scan(trailers, Trailer, tail))
    ensures SmallSizes(Header, last + CRLF + tail)
  {
    hide Parse, ChunkSize, SizeLine, Line;
    SizeReadIff(last, 0);
    HeaderStep(last, tail, 0);
  }

  lemma EmptyLineLater(f: string, rest: string, k: nat)
    requires Line(f) && !(CRLF <= rest) && FirstIndex(rest, CRLF + CRLF, 0) == Some(k)
    ensures FirstIndex(f + CRLF + rest, CRLF + CRLF, 0) == Some(|f| + 2 + k)
  {
    hide Line;
    var s := f + CRLF + rest;
    NoEmptyLineIn(f, rest);
    forall j | 0 <= j < |f| + 2 + k ensures !OccursAt(s, CRLF + CRLF, j) {
      if j >= |f| + 2 {
        assert s[j..] == rest[j - |f| - 2..];
        assert !OccursAt(rest, CRLF + CRLF, j - |f| - 2);
      }
    }
    assert s[|f| + 2 + k..] == rest[k..];
    FirstIndexIs(s, CRLF + CRLF, 0, |f| + 2 + k);
  }

  lemma EmptyLineNow(f: string, t: string)
    requires Line(f)
    ensures FirstIndex(f + CRLF + (CRLF + t), CRLF + CRLF, 0) == Some(|f|)
  {
    hide Line;
    var s := f + CRLF + (CRLF + t);
    NoEmptyLineIn(f, CRLF + t);
    assert s[|f|..][..4] == CRLF + CRLF;
    FirstIndexIs(s, CRLF + CRLF, 0, |f|);
  }

  lemma NotEmptyLine(f: string, rest: string)
    requires Line(f) && f != ""
    ensures !(CRLF <= f + CRLF + rest)
  {
    LineEnds(f, rest);
    assert !OccursAt(f + CRLF + rest, CRLF, 0);
  }

  lemma LinesSplit(fields: seq<string>, t: string)
    requires fields != []
    ensures PrintLines(fields) + CRLF + t == fields[0] + CRLF + (PrintLines(fields[1..]) + CRLF + t)
    ensures |PrintLines(fields)| == |fields[0]| + 2 + |PrintLines(fields[1..])|
  {
    var more := PrintLines(fields[1..]);
    Assoc(fields[0] + CRLF, more, CRLF);
    Assoc(fields[0] + CRLF, more + CRLF, t);
  }

  lemma NoLines(t: string)
    ensures PrintLines([]) == "" && PrintLines([]) + CRLF + t == CRLF + t
  {
  }

  // The empty line behind a non-empty trailer is the first one there.
  lemma {:induction false} TrailerEnds(fields: seq<string>, t: string)
    requires fields != [] && forall f | f in fields :: Line(f) && f != ""
    ensures FirstIndex(PrintLines(fields) + CRLF + t, CRLF + CRLF, 0) == Some(|PrintLines(fields)| - 2)
  {
    hide Line, FirstIndex, PrintLines;
    var f, others := fields[0], fields[1..];
    LinesSplit(fields, t);
    if others == [] {
      NoLines(t);
      EmptyLineNow(f, t);
    } else {
      TrailerEnds(others, t);
      LinesSplit(others, t);
      NotEmptyLine(others[0], PrintLines(others[1..]) + CRLF + t);
      EmptyLineLater(f, PrintLines(others) + CRLF + t, |PrintLines(others)| - 2);
    }
  }

  lemma NoEmptyLineIn(f: string, rest: string)
    requires Line(f)
    ensures forall j | 0 <= j < |f| + 2 :: OccursAt(f + CRLF + rest, CRLF + CRLF, j) ==> j == |f| && CRLF <= rest
  {
    var s := f + CRLF + rest;
    LineEnds(f, rest);
    forall j | 0 <= j < |f| + 2 && OccursAt(s, CRLF + CRLF, j) ensures j == |f| && CRLF <= rest {
      assert s[j..][..4] == CRLF + CRLF;
      assert s[j..][..2] == CRLF;
      assert OccursAt(s, CRLF, j);
      assert s[j] == '\r' && s[|f| + 1] == '\n';
      assert rest[..2] == s[|f|..][..4][2..];
    }
  }

  /** A well-formed body ends where it should, whatever follows it, just when the parser was told about the
      trailer: a Trailer header announced it, if and only if there are trailer fields. */
  lemma BodyEndIff(trailers: bool, b: Body, t: string)
    requires WellFormed(b)
    ensures Scan(trailers, Header, Print(b) + t) == End(|Print(b)|) <==> (trailers <==> b.fields != [])
    ensures SmallSizes(Header, Print(b) + t)
  {
    hide Scan, SmallSizes, SizeLine, Line;
    var tail := PrintLines(b.fields) + CRLF + t;
    assert Print(b) + t == PrintChunks(b.chunks) + (b.last + CRLF + tail);
    ChunksScan(trailers, b.chunks, b.last + CRLF + tail);
    LastScans(trailers, b.last, tail);
    ShiftTwice(|PrintChunks(b.chunks)|, |b.last| + 2, Scan(trailers, Trailer, tail));
    TrailerScans(trailers, b.fields, t);
  }

  lemma TrailerScans(trailers: bool, fields: seq<string>, t: string)
    requires forall f | f in fields :: Line(f) && f != ""
    ensures Scan(trailers, Trailer, PrintLines(fields) + CRLF + t) == End(|PrintLines(fields)| + 2) <==>
              (trailers <==> fields != [])
  {
    var tail := PrintLines(fields) + CRLF + t;
    if fields == [] {
      assert tail == "" + CRLF + t;
      LineEnds("", t);
    } else if trailers {
      TrailerEnds(fields, t);
    } else {
      var rest := PrintLines(fields[1..]) + CRLF + t;
      assert tail == fields[0] + CRLF + rest;
      LineEnds(fields[0], rest);
    }
  }

  // ---------------------------------------------------------------- malformed bodies

  lemma BadSizeLine(trailers: bool, line: string, rest: string)
    requires Line(line) && forall m: nat :: SizeLine(line, m) ==> m >= 0x8000_0000_0000_0000
    ensures Scan(trailers, Header, line + CRLF + rest) == Bad
  {
    hide Line, SizeLine;
    LineEnds(line, rest);
    assert (line + CRLF + rest)[..|line|] == line;
    if ChunkSize(line).Some? { SizeReadIff(line, ChunkSize(line).value); }
  }

  lemma BadDataEnd(trailers: bool, data: string, rest: string)
    requires |data| + 2 < WORD && |rest| >= 2 && !(CRLF <= rest)
    ensures Scan(trailers, Data(|data|), data + rest) == Bad
  {
    assert (data + rest)[|data|..|data| + 2] == rest[..2];
  }

  /** Behind well-formed chunks, a line without a size and data without a line end are errors. */
  lemma MalformedIsBad(trailers: bool, chunks: seq<Chunk>, line: string, data: string, rest: string)
    requires (forall c | c in chunks :: WellFormedChunk(c)) && Line(line)
    ensures (forall m: nat :: SizeLine(line, m) ==> m >= 0x8000_0000_0000_0000) ==>
              Scan(trailers, Header, PrintChunks(chunks) + (line + CRLF + rest)) == Bad
    ensures SizeLine(line, |data|) && data != "" && |data| + 2 < WORD && |rest| >= 2 && !(CRLF <= rest) ==>
              Scan(trailers, Header, PrintChunks(chunks) + (line + CRLF + (data + rest))) == Bad
  {
    hide Line, SizeLine, ChunkSize, SmallSizes, Parse, WellFormedChunk, PrintChunks;
    ChunksScan(trailers, chunks, line + CRLF + rest);
    ChunksScan(trailers, chunks, line + CRLF + (data + rest));
    if forall m: nat :: SizeLine(line, m) ==> m >= 0x8000_0000_0000_0000 { BadSizeLine(trailers, line, rest); }
    if SizeLine(line, |data|) && data != "" && |data| + 2 < WORD && |rest| >= 2 && !(CRLF <= rest) {
      SizeReadIff(line, |data|);
      HeaderStep(line, data + rest, |data|);
      BadDataEnd(trailers, data, rest);
    }
  }

  // ---------------------------------------------------------------- any cut

  // No chunk on the way is so long that its size wraps around.
  ghost predicate SmallSizes(state: State, buffer: string)
    decreases |buffer|, if state.Data? then 1 else 0
  {
    state.Trailer? ||
    ((state.Data? ==> state.size + 2 < WORD)
     && (buffer != "" && Parse(state, buffer).Next? ==>
         SmallSizes(Parse(state, buffer).state, buffer[Parse(state, buffer).taken..])))
  }

  lemma PrefixIndex(all: string, w: string, k: nat)
    requires w != "" && k <= |all| && FirstIndex(all, w, 0).Some?
    ensures FirstIndex(all[..k], w, 0) == if k < FirstIndex(all, w, 0).value + |w| then None else FirstIndex(all, w, 0)
  {
    var part := all[..k];
    assert all == part + all[k..];
    if FirstIndex(part, w, 0).Some? {
      FirstIndexKept(part, w, all[k..]);
    } else {
      FirstIndexLater(part, w, all[k..]);
    }
  }

  lemma PrefixStep(state: State, all: string, k: nat)
    requires !state.Trailer? && Parse(state, all).Next? && (state.Data? ==> state.size + 2 < WORD) && k <= |all|
    ensures Parse(state, all[..k]) == if k < Parse(state, all).taken then Wait else Parse(state, all)
  {
    hide ChunkSize, FirstIndex;
    var part := all[..k];
    if state.Header? {
      PrefixIndex(all, CRLF, k);
      var i := FirstIndex(all, CRLF, 0).value;
      assert k >= i + 2 ==> part[..i] == all[..i];
    } else {
      assert k >= state.size + 2 ==> part[state.size..state.size + 2] == all[state.size..state.size + 2];
    }
  }

  // Up to its last byte, every beginning of a body needs more; from then on, it has ended there.
  lemma {:induction false} PrefixVerdict(trailers: bool, state: State, all: string, k: nat)
    requires Scan(trailers, state, all).End? && SmallSizes(state, all) && k <= |all|
    ensures Scan(trailers, state, all[..k]) ==
              if k < Scan(trailers, state, all).size then More else Scan(trailers, state, all)
    decreases |all|, if state.Data? then 1 else 0
  {
    hide Parse, FirstIndex;
    var part := all[..k];
    if k == 0 {
      EndIsPositive(trailers, state, all);
    } else if state.Trailer? {
      PrefixIndex(all, Needle(trailers), k);
    } else {
      var step := Parse(state, all);
      PrefixStep(state, all, k);
      EndIsPositive(trailers, step.state, all[step.taken..]);
      if k >= step.taken {
        PrefixVerdict(trailers, step.state, all[step.taken..], k - step.taken);
        assert part[step.taken..] == all[step.taken..][..k - step.taken];
      }
    }
  }

  /** However the stream is cut: all pieces before the one with the body's last byte are taken whole, and of
      that one exactly the body's share. */
  method ReadBody(b: Body, following: string, pieces: seq<string>) returns (last: nat, share: nat)
    requires WellFormed(b) && Joined(pieces) == Print(b) + following
    ensures last < |pieces| && |Joined(pieces[..last])| < |Print(b)| == |Joined(pieces[..last])| + share
    ensures share <= |pieces[last]|
  {
    hide Scan, SmallSizes, WellFormed, Print;
    var trailers := b.fields != [];
    BodyEndIff(trailers, b, following);
    var parser := new ChunkedBodyParser(trailers);
    assert pieces[..|pieces|] == pieces;
    last := 0;
    while last < |pieces|
      invariant last <= |pieces| && fresh(parser) && parser.trailers == trailers
      invariant parser.Valid() && parser.stream == Joined(pieces[..last])
    {
      JoinedNext(pieces, last);
      JoinedSplit(pieces, last + 1);
      var k := |Joined(pieces[..last + 1])|;
      assert Joined(pieces)[..k] == Joined(pieces[..last + 1]);
      PrefixVerdict(trailers, Header, Joined(pieces), k);
      var r := parser.Read(pieces[last]);
      if r.Part? {
        return last, r.size;
      }
      last := last + 1;
    }
  }
}

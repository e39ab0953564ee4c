/** Parsing a connection's bytes into HTTP messages (src/net/http_message_sequence.hh, http_message.cc,
    http_response_parser.cc). The stream is what a peer prints; it may arrive in any non-empty pieces. */
module HttpSequences {
  import opened Options
  import opened Strings
  import opened Pieces
  import opened Http
  import Chunked

  datatype State = FirstLinePending | HeadersPending | BodyPending | Complete

  // The message being parsed, and the request that a response is matched up with.
  datatype InProgress = InProgress(state: State, request: string, firstLine: string, headers: seq<Header>,
      body: string, rule: BodyRule)

  function Blank(): InProgress { InProgress(FirstLinePending, "", "", [], "", UntilEof) }

  // The length of a body depends, for a response, on its request.
  function Rule(responses: bool, request: string, firstLine: string, headers: seq<Header>): BodyRule {
    if responses then ResponseRule(firstLine, headers, IsHead(request)) else RequestRule(firstLine, headers)
  }

  ghost predicate Fits(responses: bool, request: string, m: Message) {
    GoodMessage(m, Rule(responses, request, m.firstLine, m.headers))
  }

  /** The length rules of section 4.4, for every response: it is taken for well-formed just when it has a status
      line, and its body is the one its status, its request and its headers - their names in any case - call for. */
  lemma ResponseFitsIff(request: string, m: Message)
    ensures Fits(true, request, m) <==> GoodHead(m) && exists version, code, reason ::
                Words(m.firstLine, version, code, reason) && code != "" &&
                BodyOfResponse(code, "HEAD " <= request, m.headers, m.body)
  {
    hide GoodHead, GoodBody, ResponseRule, StatusCode, Words, BodyOfResponse;
    forall version, code, reason | Words(m.firstLine, version, code, reason)
      ensures StatusCode(m.firstLine) == if code == "" then None else Some(code)
    {
      StatusIff(m.firstLine, version, code, reason);
    }
    NoStatus(m.firstLine, m.headers, IsHead(request), m.body);
    if StatusCode(m.firstLine).Some? {
      StatusWords(m.firstLine);
      OfResponseIff(m.firstLine, m.headers, IsHead(request), m.body);
    }
  }

  lemma NoStatus(firstLine: string, headers: seq<Header>, head: bool, body: string)
    ensures StatusCode(firstLine).None? ==> !GoodBody(ResponseRule(firstLine, headers, head), body)
  {
  }

  // The same for every request.
  lemma RequestFitsIff(request: string, m: Message)
    ensures Fits(false, request, m) <==> GoodHead(m) && BodyOfRequest(m.firstLine, m.headers, m.body)
  {
    hide GoodHead, AsLongAsSaid, LengthGiven;
    LengthIff(m.headers, m.body);
  }

  // The k-th message is well-formed as the answer to the k-th request.
  ghost predicate AllFit(responses: bool, ms: seq<Message>, requests: seq<string>) {
    && (responses ==> |ms| <= |requests|)
    && forall i | 0 <= i < |ms| :: Fits(responses, if responses then requests[i] else "", ms[i])
  }

  // How far the parser has got: buffer and todo together are what is left of the expected messages.
  ghost predicate Tracks(p: InProgress, expected: seq<Message>, left: string) {
    match p.state
    case FirstLinePending => p.headers == [] && p.body == "" && left == PrintAll(expected)
    case HeadersPending =>
      && expected != [] && p.firstLine == expected[0].firstLine && p.headers <= expected[0].headers && p.body == ""
      && left == PrintHeaders(expected[0].headers[|p.headers|..]) + CRLF + (expected[0].body + PrintAll(expected[1..]))
    case BodyPending =>
      && expected != [] && p.firstLine == expected[0].firstLine && p.headers == expected[0].headers &&
          p.body <= expected[0].body
      && left == expected[0].body[|p.body|..] + PrintAll(expected[1..])
    case Complete =>
      expected != [] && Message(p.firstLine, p.headers, p.body) == expected[0] && left == PrintAll(expected[1..])
  }

  // Every message that has arrived in full has been taken off: more than all further ones is still to come.
  ghost predicate CaughtUp(expected: seq<Message>, todo: string) {
    if expected == [] then todo == "" else |todo| > |PrintAll(expected[1..])|
  }

  class MessageSequence {
    const responses: bool

    var buffer: string
    var complete: seq<Message>
    var requests: seq<string>
    var current: InProgress
    var bodyParser: Chunked.ChunkedBodyParser?

    // What is still to be parsed.
    ghost var expected: seq<Message>

    ghost function Repr(): set<object>
      reads this
    {
      {this} + if bodyParser == null then {} else {bodyParser}
    }

    // The requests of the expected messages.
    function Pending(): seq<string>
      reads this
    {
      if current.state == FirstLinePending then requests else [current.request] + requests
    }

    ghost predicate BodyReady()
      reads Repr()
    {
      current.state == BodyPending ==>
        && current.rule == Rule(responses, current.request, current.firstLine, current.headers)
        && (current.rule.Coded? ==>
              && bodyParser != null && bodyParser.Valid()
              && bodyParser.stream == current.body && bodyParser.trailers == current.rule.trailers)
    }

    // todo is what has not arrived yet.
    ghost predicate Ready(todo: string)
      reads Repr()
    {
      BodyReady() && AllFit(responses, expected, Pending()) && Tracks(current, expected, buffer + todo)
    }

    constructor (forResponses: bool)
      ensures responses == forResponses && Ready("") && expected == [] && complete == [] && requests == []
      ensures buffer == "" && current == Blank()
      ensures fresh(Repr())
    {
      responses := forResponses;
      buffer, complete, requests, current, bodyParser := "", [], [], Blank(), null;
      expected := [];
    }

    /** The parser learns which request the next unmatched response will belong to. */
    method NewRequestArrived(request: string, ghost todo: string)
      requires Ready(todo)
      modifies this`requests
      ensures Ready(todo) && requests == old(requests) + [request]
    {
      hide Fits, Tracks;
      requests := requests + [request];
    }

    // ---------------------------------------------------------------- one step of the parser

    method FirstLineStep(ghost todo: string) returns (more: bool)
      requires Ready(todo) && current.state == FirstLinePending
      modifies this`buffer, this`current, this`requests
      ensures Ready(todo)
      ensures if more then |buffer| < |old(buffer)| else
                buffer == old(buffer) && current == old(current) && CaughtUp(expected, todo)
    {
      hide Fits, PrintAll, PrintHeaders, FirstIndex;
      match FirstIndex(buffer, CRLF, 0) {
        case None =>
          NoFirstLine(responses, buffer, todo, expected, requests);
          return false;
        case Some(k) =>
          FirstLineThere(responses, buffer, todo, expected, requests);
          current := current.(firstLine := buffer[..k], state := HeadersPending);
          if responses {
            current, requests := current.(request := requests[0]), requests[1..];
          } else {
            current := current.(request := "");
          }
          buffer := buffer[k + 2..];
          return true;
      }
    }

    method HeaderStep(ghost todo: string) returns (more: bool)
      requires Ready(todo) && current.state == HeadersPending
      modifies this`buffer, this`current, this`bodyParser
      ensures Ready(todo) && fresh(Repr() - old(Repr()))
      ensures if more then |buffer| < |old(buffer)| else
                buffer == old(buffer) && current == old(current) && CaughtUp(expected, todo)
    {
      hide Fits, AllFit, PrintAll, PrintHeaders, ParseHeader, FirstIndex, Rule, Chunked.Scan;
      HeadersExpected(responses, current, buffer, todo, expected, Pending());
      match FirstIndex(buffer, CRLF, 0) {
        case None =>
          return false;
        case Some(k) =>
          var line := buffer[..k];
          buffer := buffer[k + 2..];
          if line == "" {
            current := current.(state := BodyPending,
                rule := Rule(responses, current.request, current.firstLine, current.headers));
            if current.rule.Coded? {
              bodyParser := new Chunked.ChunkedBodyParser(current.rule.trailers);
            }
          } else {
            current := current.(headers := current.headers + [ParseHeader(line).value]);
          }
          return true;
      }
    }

    method BodyStep(ghost todo: string) returns (more: bool)
      requires Ready(todo) && current.state == BodyPending
      modifies this`buffer, this`current, Repr() - {this}
      ensures Ready(todo) && bodyParser == old(bodyParser) && |buffer| <= |old(buffer)|
      ensures if more then current.state == Complete else current.state == BodyPending && CaughtUp(expected, todo)
    {
      hide Fits, AllFit, PrintAll, PrintHeaders, Rule, Chunked.Scan;
      BodyExpected(responses, current, buffer, todo, expected, requests);
      ghost var left := |expected[0].body| - |current.body|;
      var share, done := ReadInBody(|expected[0].body|);
      assert share == if |buffer| < left then |buffer| else left;
      BodyTaken(current.body, buffer, todo, expected[0], PrintAll(expected[1..]), share);
      current := current.(body := current.body + buffer[..share], state := if done then Complete else BodyPending);
      buffer := buffer[share..];
      more := done;
    }

    // How much of the buffer belongs to the body, and whether the body is complete then.
    method ReadInBody(ghost length: nat) returns (share: nat, done: bool)
      requires BodyReady() && current.state == BodyPending && |current.body| <= length
      requires current.rule.Known? ==> current.rule.size == length
      requires current.rule.Known? || current.rule.Coded?
      requires current.rule.Coded? ==>
                 Chunked.Scan(current.rule.trailers, Chunked.Header, current.body + buffer) ==
                   if |current.body| + |buffer| < length then Chunked.More else Chunked.End(length)
      modifies Repr() - {this}
      ensures share == if |buffer| < length - |current.body| then |buffer| else length - |current.body|
      ensures done <==> |current.body| + share == length
      ensures current.rule.Coded? && !done ==> bodyParser.Valid() && bodyParser.stream == current.body + buffer
    {
      hide Chunked.Scan;
      if current.rule.Known? {
        var missing := current.rule.size - |current.body|;
        share := if missing <= |buffer| then missing else |buffer|;
        done := share == missing;
      } else {
        var r := bodyParser.Read(buffer);
        share := if r.Part? then r.size else |buffer|;
        done := r.Part?;
      }
    }

    method CompleteStep(ghost todo: string)
      requires Ready(todo) && current.state == Complete
      modifies this`complete, this`current, this`expected, this`bodyParser
      ensures Ready(todo) && current == Blank() && bodyParser == null
      ensures old(expected) != [] && expected == old(expected)[1..] && complete == old(complete) + [old(expected)[0]]
    {
      hide Fits, PrintAll;
      complete := complete + [Message(current.firstLine, current.headers, current.body)];
      current, bodyParser := Blank(), null;
      expected := expected[1..];
    }

    // ---------------------------------------------------------------- the parser

    ghost function Rank(): nat
      reads this
    {
      match current.state case BodyPending => 2 case Complete => 1 case _ => 0
    }

    method Append(piece: string, ghost todo: string)
      requires Ready(piece + todo)
      modifies this`buffer
      ensures Ready(todo) && buffer == old(buffer) + piece
    {
      hide Fits, Tracks, AllFit;
      assert buffer + (piece + todo) == buffer + piece + todo;
      buffer := buffer + piece;
    }

    // More messages are about to arrive, behind what is still to come of the ones expected so far: responses to
    // requests that are waiting by now, or further requests. Some of the current message may have arrived.
    ghost method Expect(ms: seq<Message>, todo: string)
      requires Ready(todo) && AllFit(responses, expected + ms, Pending())
      modifies this`expected
      ensures Ready(todo + PrintAll(ms)) && expected == old(expected) + ms
      ensures CaughtUp(old(expected), todo) ==> CaughtUp(expected, todo + PrintAll(ms))
    {
      hide AllFit, CaughtUp;
      TracksMore(current, expected, buffer, todo, ms);
      CaughtUpMore(expected, todo, ms);
      expected := expected + ms;
    }

    /** One piece arrives. Whatever is complete by then is taken off, in order; nothing else is. */
    method Parse(piece: string, ghost todo: string)
      requires piece != "" && Ready(piece + todo)
      modifies Repr()
      ensures Ready(todo) && CaughtUp(expected, todo) && fresh(Repr() - old(Repr()))
      ensures complete + expected == old(complete) + old(expected)
    {
      hide Ready, CaughtUp;
      Append(piece, todo);
      var more := true;
      while more
        invariant Ready(todo) && fresh(Repr() - old(Repr())) && complete + expected == old(complete) + old(expected)
        invariant !more ==> CaughtUp(expected, todo)
        decreases |expected|, |buffer|, Rank(), more
      {
        match current.state {
          case FirstLinePending => more := FirstLineStep(todo);
          case HeadersPending => more := HeaderStep(todo);
          case BodyPending => more := BodyStep(todo);
          case Complete => CompleteStep(todo);
        }
      }
    }

    /** Printing and parsing are inverse: the messages come out as they went in, however the stream is cut, and
        wherever the parser was in the messages it expected before. */
    method ParseAll(pieces: seq<string>, ms: seq<Message>, ghost todo: string)
      requires Ready(todo) && CaughtUp(expected, todo) && AllFit(responses, expected + ms, Pending())
      requires Joined(pieces) == todo + PrintAll(ms) && forall p | p in pieces :: p != ""
      modifies Repr(), this`expected
      ensures complete == old(complete) + old(expected) + ms && expected == [] && Ready("")
    {
      hide Ready, Fits, AllFit, PrintAll, CaughtUp;
      Expect(ms, todo);
      assert pieces[0..] == pieces;
      assert complete + expected == old(complete) + old(expected) + ms;
      for i := 0 to |pieces|
        invariant Ready(Joined(pieces[i..])) && fresh(Repr() - old(Repr()))
        invariant complete + expected == old(complete) + old(expected) + ms
        invariant CaughtUp(expected, Joined(pieces[i..]))
      {
        assert pieces[i] in pieces;
        JoinedFirst(pieces, i);
        Parse(pieces[i], Joined(pieces[i + 1..]));
      }
      assert pieces[|pieces|..] == [];
      AllCaughtUp(expected);
    }
  }

  // ---------------------------------------------------------------- why each step is right

  lemma AllCaughtUp(expected: seq<Message>)
    requires CaughtUp(expected, "")
    ensures expected == []
  {
  }

  lemma {:induction false} PrintBoth(a: seq<Message>, b: seq<Message>)
    ensures PrintAll(a + b) == PrintAll(a) + PrintAll(b)
  {
    hide Print;
    if a == [] {
      assert a + b == b;
    } else {
      PrintBoth(a[1..], b);
      assert (a + b)[1..] == a[1..] + b;
      Assoc(Print(a[0]), PrintAll(a[1..]), PrintAll(b));
    }
  }

  lemma TracksMore(p: InProgress, expected: seq<Message>, buffer: string, todo: string, ms: seq<Message>)
    requires Tracks(p, expected, buffer + todo)
    ensures Tracks(p, expected + ms, buffer + (todo + PrintAll(ms)))
  {
    hide PrintAll, PrintHeaders;
    Assoc(buffer, todo, PrintAll(ms));
    PrintBoth(expected, ms);
    if p.state != FirstLinePending {
      assert (expected + ms)[1..] == expected[1..] + ms;
      PrintBoth(expected[1..], ms);
      var m, rest, more := expected[0], PrintAll(expected[1..]), PrintAll(ms);
      if p.state == HeadersPending {
        var lines := PrintHeaders(m.headers[|p.headers|..]) + CRLF;
        Assoc(lines, m.body + rest, more);
        Assoc(m.body, rest, more);
      } else if p.state == BodyPending {
        Assoc(m.body[|p.body|..], rest, more);
      }
    }
  }

  lemma CaughtUpMore(expected: seq<Message>, todo: string, ms: seq<Message>)
    ensures CaughtUp(expected, todo) ==> CaughtUp(expected + ms, todo + PrintAll(ms))
  {
    hide PrintAll;
    if expected == [] {
      assert expected + ms == ms;
      if ms != [] { PrintedIsLong(ms); } else { PrintsNothing(); }
    } else {
      assert (expected + ms)[1..] == expected[1..] + ms;
      PrintBoth(expected[1..], ms);
    }
  }

  lemma PrintsNothing()
    ensures PrintAll([]) == ""
  {
  }

  lemma PrintedIsLong(ms: seq<Message>)
    requires ms != []
    ensures |PrintAll(ms)| > |PrintAll(ms[1..])|
  {
  }

  lemma PrintSplits(ms: seq<Message>)
    requires ms != []
    ensures var m := ms[0];
            PrintAll(ms) == m.firstLine + CRLF + (PrintHeaders(m.headers) + CRLF + (m.body + PrintAll(ms[1..])))
  {
    hide PrintHeaders;
    var m, rest := ms[0], PrintAll(ms[1..]);
    var head, lines := m.firstLine + CRLF, PrintHeaders(m.headers);
    PrintOne(ms);
    Assoc(head, lines, CRLF);
    Assoc(head, lines + CRLF, m.body);
    Assoc(head, lines + CRLF + m.body, rest);
    Assoc(lines + CRLF, m.body, rest);
  }

  lemma PrintOne(ms: seq<Message>)
    requires ms != []
    ensures PrintAll(ms) == Print(ms[0]) + PrintAll(ms[1..])
  {
  }

  lemma FirstFits(responses: bool, expected: seq<Message>, requests: seq<string>)
    requires AllFit(responses, expected, requests) && expected != []
    ensures responses ==> requests != []
    ensures Fits(responses, if responses then requests[0] else "", expected[0])
    ensures Chunked.Line(expected[0].firstLine) && forall h | h in expected[0].headers :: GoodHeader(h)
  {
  }

  lemma NoFirstLine(responses: bool, buffer: string, todo: string, expected: seq<Message>, requests: seq<string>)
    requires AllFit(responses, expected, requests) && buffer + todo == PrintAll(expected)
    requires FirstIndex(buffer, CRLF, 0).None?
    ensures CaughtUp(expected, todo)
  {
    hide AllFit, Fits, PrintAll, PrintHeaders;
    if expected != [] {
      var m := expected[0];
      FirstFits(responses, expected, requests);
      PrintSplits(expected);
      LineMissing(buffer, todo, m.firstLine, PrintHeaders(m.headers) + CRLF + (m.body + PrintAll(expected[1..])));
    } else {
      NothingPrinted(buffer, todo);
    }
  }

  lemma NothingPrinted(buffer: string, todo: string)
    requires buffer + todo == PrintAll([])
    ensures buffer == "" && todo == ""
  {
  }

  lemma FirstLineThere(responses: bool, buffer: string, todo: string, expected: seq<Message>, requests: seq<string>)
    requires AllFit(responses, expected, requests) && buffer + todo == PrintAll(expected)
    requires FirstIndex(buffer, CRLF, 0).Some?
    ensures expected != [] && (responses ==> requests != [])
    ensures var k := FirstIndex(buffer, CRLF, 0).value;
            && buffer[..k] == expected[0].firstLine
            && buffer[k + 2..] + todo ==
                 PrintHeaders(expected[0].headers) + CRLF + (expected[0].body + PrintAll(expected[1..]))
  {
    hide AllFit, Fits, PrintAll, PrintHeaders;
    if expected == [] { NothingPrinted(buffer, todo); }
    var m := expected[0];
    FirstFits(responses, expected, requests);
    PrintSplits(expected);
    LinePopped(buffer, todo, m.firstLine, PrintHeaders(m.headers) + CRLF + (m.body + PrintAll(expected[1..])));
  }

  lemma HeaderLine(h: Header)
    requires GoodHeader(h)
    ensures PrintHeader(h) != "" && Chunked.Line(PrintHeader(h)) && ParseHeader(PrintHeader(h)) == Some(h)
  {
    HeaderRoundTripIff(h);
  }

  lemma EmptyLine()
    ensures Chunked.Line("")
  {
  }

  // The next line of the headers: another header, or the blank line behind them.
  lemma HeadersExpected(responses: bool, p: InProgress, buffer: string, todo: string, expected: seq<Message>,
      requests: seq<string>)
    requires p.state == HeadersPending && Tracks(p, expected, buffer + todo) && AllFit(responses, expected, requests)
    ensures match FirstIndex(buffer, CRLF, 0)
            case None => CaughtUp(expected, todo)
            case Some(k) =>
              var hs, rest := expected[0].headers[|p.headers|..], expected[0].body + PrintAll(expected[1..]);
              if buffer[..k] == "" then p.headers == expected[0].headers && buffer[k + 2..] + todo == rest
              else
                && ParseHeader(buffer[..k]).Some? && p.headers + [ParseHeader(buffer[..k]).value] <= expected[0].headers
                && buffer[k + 2..] + todo == PrintHeaders(expected[0].headers[|p.headers| + 1..]) + CRLF + rest
  {
    hide AllFit, Fits, PrintAll, GoodHeader, ParseHeader, PrintHeader, FirstIndex;
    FirstFits(responses, expected, requests);
    var m := expected[0];
    var hs, rest := m.headers[|p.headers|..], m.body + PrintAll(expected[1..]);
    if hs == [] {
      EmptyLine();
      assert buffer + todo == "" + CRLF + rest;
      NextLine(buffer, todo, "", rest, expected);
    } else {
      assert hs[0] == m.headers[|p.headers|];
      HeaderLine(hs[0]);
      var more := PrintHeaders(hs[1..]) + CRLF + rest;
      assert buffer + todo == PrintHeader(hs[0]) + CRLF + more;
      NextLine(buffer, todo, PrintHeader(hs[0]), more, expected);
      assert hs[1..] == m.headers[|p.headers| + 1..];
    }
  }

  lemma NextLine(buffer: string, todo: string, line: string, rest: string, expected: seq<Message>)
    requires Chunked.Line(line) && buffer + todo == line + CRLF + rest && expected != [] &&
               |rest| >= |PrintAll(expected[1..])|
    ensures match FirstIndex(buffer, CRLF, 0)
            case None => CaughtUp(expected, todo)
            case Some(k) => buffer[..k] == line && buffer[k + 2..] + todo == rest
  {
    hide PrintAll, FirstIndex;
    if FirstIndex(buffer, CRLF, 0).Some? {
      LinePopped(buffer, todo, line, rest);
    } else {
      LineMissing(buffer, todo, line, rest);
    }
  }

  // The length of the body is known, or its end will be recognised.
  lemma BodyExpected(responses: bool, p: InProgress, buffer: string, todo: string, expected: seq<Message>,
      requests: seq<string>)
    requires p.state == BodyPending && Tracks(p, expected, buffer + todo)
    requires AllFit(responses, expected, [p.request] + requests)
    requires p.rule == Rule(responses, p.request, p.firstLine, p.headers)
    ensures expected != [] && |p.body| <= |expected[0].body|
    ensures buffer + todo == expected[0].body[|p.body|..] + PrintAll(expected[1..]) && p.body <= expected[0].body
    ensures p.rule.Known? ==> p.rule.size == |expected[0].body|
    ensures p.rule.Known? || p.rule.Coded?
    ensures p.rule.Coded? ==>
              Chunked.Scan(p.rule.trailers, Chunked.Header, p.body + buffer) ==
                if |p.body| + |buffer| < |expected[0].body| then Chunked.More else Chunked.End(|expected[0].body|)
  {
    hide AllFit, PrintAll, RequestRule, ResponseRule, Chunked.Scan;
    FirstFits(responses, expected, [p.request] + requests);
    var m := expected[0];
    RuleIgnores(responses, p.request, m);
    if p.rule.Coded? { CodedVerdict(p.rule.trailers, p.body, buffer, todo, m.body, PrintAll(expected[1..])); }
  }

  // What the chunked parser will make of the body so far and the buffer.
  lemma CodedVerdict(trailers: bool, body: string, buffer: string, todo: string, whole: string, rest: string)
    requires GoodBody(Coded(trailers), whole) && body <= whole && buffer + todo == whole[|body|..] + rest
    ensures Chunked.Scan(trailers, Chunked.Header, body + buffer) ==
              if |body| + |buffer| < |whole| then Chunked.More else Chunked.End(|whole|)
  {
    hide Chunked.Scan, Chunked.SmallSizes, Chunked.WellFormed, Chunked.Print;
    var b :| Chunked.WellFormed(b) && Chunked.Print(b) == whole && (trailers <==> b.fields != []);
    Chunked.BodyEndIff(trailers, b, rest);
    Beginning(body, buffer, todo, whole, rest);
    Chunked.PrefixVerdict(trailers, Chunked.Header, whole + rest, |body| + |buffer|);
  }

  lemma Beginning(body: string, buffer: string, todo: string, whole: string, rest: string)
    requires body <= whole && buffer + todo == whole[|body|..] + rest
    ensures |body| + |buffer| <= |whole + rest| && (whole + rest)[..|body| + |buffer|] == body + buffer
  {
    assert whole + rest == body + (whole[|body|..] + rest) == body + (buffer + todo) == (body + buffer) + todo;
  }

  lemma RuleIgnores(responses: bool, request: string, m: Message)
    ensures Rule(responses, if responses then request else "", m.firstLine, m.headers) ==
              Rule(responses, request, m.firstLine, m.headers)
  {
  }

  // Taking share bytes for the body keeps the parser on track.
  lemma BodyTaken(body: string, buffer: string, todo: string, m: Message, rest: string, share: nat)
    requires body <= m.body && buffer + todo == m.body[|body|..] + rest
    requires share <= |buffer| && |body| + share <= |m.body|
    ensures body + buffer[..share] <= m.body
    ensures buffer[share..] + todo == m.body[|body| + share..] + rest
    ensures |body| + share == |m.body| ==> body + buffer[..share] == m.body && buffer[share..] + todo == rest
    ensures |body| + share < |m.body| && share == |buffer| ==> |todo| > |rest|
  {
    var left := m.body[|body|..];
    assert left[..share] == (buffer + todo)[..share] == buffer[..share];
    assert m.body == body + left && left == left[..share] + left[share..];
    assert buffer[share..] + todo == (buffer + todo)[share..] == left[share..] + rest;
    assert left[share..] == m.body[|body| + share..];
  }
}

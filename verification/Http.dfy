/** HTTP messages: headers, printing, and the rules for the length of a body
    (src/net/http_header.cc, http_message.cc, http_response.cc, http_request.cc; section 4.4 of RFC 2616). */
module Http {
  import opened Numerals
  import opened Options
  import opened Strings
  import opened Tokenize
  import Chunked

  const CRLF := Chunked.CRLF

  datatype Header = Header(key: string, value: string)
  datatype Message = Message(firstLine: string, headers: seq<Header>, body: string)

  // ---------------------------------------------------------------- strings

  function ToLower(c: char): char { if 'A' <= c <= 'Z' then c - 'A' + 'a' else c }

  // Without initial spaces.
  function Strip(s: string): (r: string)
    ensures |r| <= |s| && (r != "" ==> r[0] != ' ') && (r == s <==> s == "" || s[0] != ' ')
  {
    if s != "" && s[0] == ' ' then Strip(s[1..]) else s
  }

  // Comparison without regard to case or initial spaces (equivalent_strings).
  predicate Equivalent(a: string, b: string) {
    var x, y := Strip(a), Strip(b);
    |x| == |y| && forall i | 0 <= i < |x| :: ToLower(x[i]) == ToLower(y[i])
  }

  const SMALL := "abcdefghijklmnopqrstuvwxyz"
  const CAPITAL := "ABCDEFGHIJKLMNOPQRSTUVWXYZ"

  predicate SameLetter(c: char, d: char) {
    c == d || exists k | 0 <= k < 26 :: (c == SMALL[k] && d == CAPITAL[k]) || (c == CAPITAL[k] && d == SMALL[k])
  }

  // s is that name in any case, perhaps behind spaces.
  predicate Reads(s: string, name: string) {
    && |s| >= |name|
    && (forall i | 0 <= i < |s| - |name| :: s[i] == ' ')
    && forall i | 0 <= i < |name| :: SameLetter(s[|s| - |name| + i], name[i])
  }

  lemma Alphabet(k: nat)
    requires k < 26
    ensures SMALL[k] == 'a' + k as char && CAPITAL[k] == 'A' + k as char
  {
  }

  lemma SameLetterIff(c: char, d: char)
    ensures SameLetter(c, d) <==> ToLower(c) == ToLower(d)
  {
    if SameLetter(c, d) && c != d {
      var k :| 0 <= k < 26 && ((c == SMALL[k] && d == CAPITAL[k]) || (c == CAPITAL[k] && d == SMALL[k]));
      Alphabet(k);
    }
    if ToLower(c) == ToLower(d) && c != d {
      var k := (ToLower(c) - 'a') as nat;
      Alphabet(k);
    }
  }

  // What remains is all there is behind the initial spaces.
  lemma {:induction false} Stripped(s: string)
    ensures var r := Strip(s); s[|s| - |r|..] == r && forall i | 0 <= i < |s| - |r| :: s[i] == ' '
  {
    if s != "" && s[0] == ' ' { Stripped(s[1..]); }
  }

  /** Names are compared without regard to case and initial spaces. */
  lemma EquivalentIff(s: string, name: string)
    requires name != "" && name[0] != ' '
    ensures Equivalent(s, name) <==> Reads(s, name)
  {
    hide ToLower, SameLetter;
    var r := Strip(s);
    Stripped(s);
    forall c, d ensures SameLetter(c, d) <==> ToLower(c) == ToLower(d) { SameLetterIff(c, d); }
    if Reads(s, name) {
      var k := |s| - |name|;
      NoSpace(s[k], name[0]);
      assert |r| == |name|;
    }
    assert forall i | 0 <= i < |r| :: r[i] == s[|s| - |r| + i];
  }

  lemma NoSpace(c: char, d: char)
    requires SameLetter(c, d) && d != ' '
    ensures c != ' '
  {
  }

  // ---------------------------------------------------------------- headers

  function PrintHeader(h: Header): string { h.key + ": " + h.value }

  // The constructor from a line; it throws if there is no colon.
  function ParseHeader(line: string): Option<Header> {
    match FindChar(line, ':', 0)
    case None => None
    case Some(k) =>
      var value := line[k + 1..];
      Some(Header(line[..k], if Strip(value) == "" then value else Strip(value)))
  }

  // A header is read back from its line just when its key has no colon and its value neither is empty
  // nor begins with a space.
  lemma HeaderRoundTripIff(h: Header)
    ensures ParseHeader(PrintHeader(h)) == Some(h) <==> ':' !in h.key && h.value != "" && h.value[0] != ' '
  {
    var line := PrintHeader(h);
    if ':' !in h.key {
      var rest := " " + h.value;
      assert line == h.key + [':'] + rest;
      FindJoined(h.key, ':', rest, 0);
      assert line[..|h.key|] == h.key && line[|h.key| + 1..] == rest;
      assert rest[1..] == h.value;
      assert Strip(rest) == Strip(h.value);
    } else {
      var i :| 0 <= i < |h.key| && h.key[i] == ':';
      assert line[i] == ':';
    }
  }

  function Blanks(n: nat): string { seq(n, _ => ' ') }

  // Every line with a colon is a header: the key is what precedes the first colon, the value what follows it, without
  // initial spaces unless there is nothing else. A line without a colon is none.
  lemma HeaderOfLine(key: string, spaces: nat, value: string)
    requires ':' !in key && (value == "" || value[0] != ' ')
    ensures ParseHeader(key + ":" + Blanks(spaces) + value) ==
              Some(Header(key, if value == "" then Blanks(spaces) else value))
    ensures ParseHeader(key) == None
  {
    var rest := Blanks(spaces) + value;
    var line := key + [':'] + rest;
    assert key + ":" + Blanks(spaces) + value == line;
    FindJoined(key, ':', rest, 0);
    assert line[..|key|] == key && line[|key| + 1..] == rest;
    StripSpaces(spaces, value);
    assert value == "" ==> rest == Blanks(spaces);
  }

  lemma {:induction false} StripSpaces(spaces: nat, value: string)
    requires value == "" || value[0] != ' '
    ensures Strip(Blanks(spaces) + value) == value
  {
    if spaces > 0 {
      StripSpaces(spaces - 1, value);
      assert (Blanks(spaces) + value)[1..] == Blanks(spaces - 1) + value;
    } else {
      assert Blanks(spaces) + value == value;
    }
  }

  function PrintHeaders(headers: seq<Header>): string {
    if headers == [] then "" else PrintHeader(headers[0]) + CRLF + PrintHeaders(headers[1..])
  }

  // HTTPMessage::str.
  function Print(m: Message): string { m.firstLine + CRLF + PrintHeaders(m.headers) + CRLF + m.body }

  function PrintAll(ms: seq<Message>): string { if ms == [] then "" else Print(ms[0]) + PrintAll(ms[1..]) }

  // The value of the first header of that name.
  function Lookup(headers: seq<Header>, name: string): Option<string> {
    if headers == [] then None
    else if Equivalent(headers[0].key, name) then Some(headers[0].value)
    else Lookup(headers[1..], name)
  }

  predicate Has(headers: seq<Header>, name: string) { exists h | h in headers :: Reads(h.key, name) }

  // The value of the first header of that name, which may be spelt in any case.
  predicate First(headers: seq<Header>, name: string, value: string) {
    exists i | 0 <= i < |headers| ::
      && Reads(headers[i].key, name) && headers[i].value == value
      && !Has(headers[..i], name)
  }

  lemma {:induction false} LookupIff(headers: seq<Header>, name: string, value: string)
    requires name != "" && name[0] != ' '
    ensures Lookup(headers, name).Some? <==> Has(headers, name)
    ensures Lookup(headers, name) == Some(value) <==> First(headers, name, value)
  {
    hide Equivalent, Reads;
    if headers != [] {
      var h, others := headers[0], headers[1..];
      EquivalentIff(h.key, name);
      LookupIff(others, name, value);
      if Reads(h.key, name) {
        assert headers[..0] == [];
        assert forall i | 0 < i < |headers| :: h in headers[..i];
      } else {
        forall i | 0 <= i < |others| ensures Has(headers[..i + 1], name) <==> Has(others[..i], name) {
          assert headers[..i + 1] == [h] + others[..i];
        }
        FirstBehind(headers, name, value);
      }
    }
  }

  lemma FirstBehind(headers: seq<Header>, name: string, value: string)
    requires headers != [] && !Reads(headers[0].key, name)
    requires forall i | 0 <= i < |headers| - 1 :: Has(headers[..i + 1], name) <==> Has(headers[1..][..i], name)
    ensures First(headers, name, value) <==> First(headers[1..], name, value)
  {
    hide Has, Reads;
    var others := headers[1..];
    if First(headers, name, value) {
      var i :|
        0 <= i < |headers| && Reads(headers[i].key, name) && headers[i].value == value && !Has(headers[..i], name);
      assert others[i - 1] == headers[i] && i - 1 + 1 == i;
    }
    if First(others, name, value) {
      var i :| 0 <= i < |others| && Reads(others[i].key, name) && others[i].value == value && !Has(others[..i], name);
      assert headers[i + 1] == others[i];
    }
  }

  // ---------------------------------------------------------------- how long a body is

  // Known in advance; dictated by the chunked coding; until the connection closes; or not supported.
  datatype BodyRule = Known(size: nat) | Coded(trailers: bool) | UntilEof | Unsupported

  function LengthGiven(headers: seq<Header>): BodyRule {
    match Lookup(headers, "Content-Length")
    case None => Unsupported
    case Some(value) => match StrictAtoi(value, 10) case Some(n) => Known(n) case None => Unsupported
  }

  predicate StartsWith(s: string, prefix: string) { prefix <= s }

  predicate IsHead(requestLine: string) { StartsWith(requestLine, "HEAD ") }

  function RequestRule(firstLine: string, headers: seq<Header>): BodyRule {
    if StartsWith(firstLine, "GET ") || StartsWith(firstLine, "HEAD ") then Known(0)
    else if StartsWith(firstLine, "POST ") || StartsWith(firstLine, "PUT ") then LengthGiven(headers)
    else Unsupported
  }

  // The second of at least three words; the source throws if there are fewer, or if it is empty.
  function StatusCode(firstLine: string): (code: Option<string>)
    ensures code.Some? ==> code.value != ""
  {
    var tokens := Split(firstLine, ' ');
    if |tokens| < 3 || tokens[1] == "" then None else Some(tokens[1])
  }

  // The last transfer coding is the chunked one.
  predicate EndsChunked(coding: string) {
    var codings := Split(coding, ',');
    Equivalent(codings[|codings| - 1], "chunked")
  }

  predicate Words(line: string, version: string, code: string, reason: string) {
    line == version + " " + code + " " + reason && ' ' !in version && ' ' !in code
  }

  lemma StatusIff(line: string, version: string, code: string, reason: string)
    requires Words(line, version, code, reason)
    ensures StatusCode(line) == if code == "" then None else Some(code)
  {
    assert line == version + [' '] + (code + [' '] + reason);
    SplitFirst(version, ' ', code + [' '] + reason);
    SplitFirst(code, ' ', reason);
  }

  lemma StatusWords(line: string)
    requires StatusCode(line).Some?
    ensures exists version, reason :: Words(line, version, StatusCode(line).value, reason)
  {
    hide Split;
    var tokens := Split(line, ' ');
    JoinSplit(line, ' ');
    JoinNext(tokens, ' ');
    JoinNext(tokens[1..], ' ');
    assert Words(line, tokens[0], tokens[1], Join(tokens[1..][1..], ' '));
  }

  // What follows the last comma is the name of the chunked coding.
  predicate LastIsChunked(coding: string) {
    exists k | 0 <= k <= |coding| ::
      (k == 0 || coding[k - 1] == ',') && ',' !in coding[k..] && Reads(coding[k..], "chunked")
  }

  // The last comma is in one place only.
  lemma BehindLast(coding: string, i: nat, k: nat)
    requires i <= |coding| && (i == 0 || coding[i - 1] == ',') && ',' !in coding[i..]
    requires k <= |coding| && (k == 0 || coding[k - 1] == ',') && ',' !in coding[k..]
    ensures k == i
  {
    assert forall j | 0 <= j < |coding| - k :: coding[k..][j] == coding[k + j];
    assert forall j | 0 <= j < |coding| - i :: coding[i..][j] == coding[i + j];
  }

  lemma ChunkedIff(coding: string)
    ensures EndsChunked(coding) <==> LastIsChunked(coding)
  {
    hide Equivalent, Reads, Split;
    var codings := Split(coding, ',');
    var i := |coding| - |codings[|codings| - 1]|;
    SplitLast(coding, ',');
    EquivalentIff(coding[i..], "chunked");
    forall k | 0 <= k <= |coding| && (k == 0 || coding[k - 1] == ',') && ',' !in coding[k..] ensures k == i {
      BehindLast(coding, i, k);
    }
  }

  // Rules 1 to 5 of section 4.4 of RFC 2616.
  function ResponseRule(firstLine: string, headers: seq<Header>, head: bool): BodyRule {
    match StatusCode(firstLine)
    case None => Unsupported
    case Some(code) =>
      var coding := Lookup(headers, "Transfer-Encoding");
      if code[0] == '1' || code == "204" || code == "304" || head then Known(0)
      else if coding.Some? && EndsChunked(coding.value) then Coded(Lookup(headers, "Trailer").Some?)
      else if coding.None? && Lookup(headers, "Content-Length").Some? then LengthGiven(headers)
      else
        match Lookup(headers, "Content-Type")
        case None => UntilEof
        case Some(mime) =>
          var media := Split(mime, ';')[0];
          if media == "" || Equivalent(media, "multipart/byteranges") then Unsupported else UntilEof
  }

  // ---------------------------------------------------------------- well-formed messages

  predicate GoodHeader(h: Header) {
    Chunked.Line(PrintHeader(h)) && ':' !in h.key && h.value != "" && h.value[0] != ' '
  }

  // The body is as long as the rule says. (A body that lasts until the connection closes has no end in a stream.)
  ghost predicate GoodBody(rule: BodyRule, body: string) {
    match rule
    case Known(n) => |body| == n
    case Coded(trailers) => exists b ::
        Chunked.WellFormed(b) && Chunked.Print(b) == body && (trailers <==> b.fields != [])
    case UntilEof => false
    case Unsupported => false
  }

  predicate GoodHead(m: Message) { Chunked.Line(m.firstLine) && forall h | h in m.headers :: GoodHeader(h) }

  ghost predicate GoodMessage(m: Message, rule: BodyRule) { GoodHead(m) && GoodBody(rule, m.body) }

  // ---------------------------------------------------------------- section 4.4, message by message

  // The value of the first Content-Length header is the length of the body, in decimal.
  ghost predicate AsLongAsSaid(headers: seq<Header>, body: string) {
    exists value ::
      First(headers, "Content-Length", value) && Written(value, |body|, 10) && |body| < 0x8000_0000_0000_0000
  }

  ghost predicate SaidChunked(headers: seq<Header>) {
    exists coding :: First(headers, "Transfer-Encoding", coding) && LastIsChunked(coding)
  }

  // A chunked body, with trailer fields if and only if a Trailer header announces them.
  ghost predicate ChunkedBody(headers: seq<Header>, body: string) {
    exists b ::
      Chunked.WellFormed(b) && Chunked.Print(b) == body && (b.fields != [] <==> Has(headers, "Trailer"))
  }

  // No body for 1xx, 204, 304 and as the answer to HEAD; otherwise a chunked body if the last coding is chunked;
  // otherwise, and without any transfer coding, a body of the length given.
  ghost predicate BodyOfResponse(code: string, head: bool, headers: seq<Header>, body: string) {
    if "1" <= code || code in {"204", "304"} || head then body == ""
    else if SaidChunked(headers) then ChunkedBody(headers, body)
    else !Has(headers, "Transfer-Encoding") && AsLongAsSaid(headers, body)
  }

  // No body for GET and HEAD; a body of the length given for POST and PUT.
  ghost predicate BodyOfRequest(firstLine: string, headers: seq<Header>, body: string) {
    if "GET " <= firstLine || "HEAD " <= firstLine then body == ""
    else ("POST " <= firstLine || "PUT " <= firstLine) && AsLongAsSaid(headers, body)
  }

  lemma LengthIff(headers: seq<Header>, body: string)
    ensures GoodBody(LengthGiven(headers), body) <==> AsLongAsSaid(headers, body)
  {
    hide Lookup, First, StrictAtoi, Written;
    var name := "Content-Length";
    forall value ensures Lookup(headers, name) == Some(value) <==> First(headers, name, value) {
      LookupIff(headers, name, value);
    }
    forall value ensures StrictAtoi(value, 10) == Some(|body|) <==>
        Written(value, |body|, 10) && |body| < 0x8000_0000_0000_0000 {
      AtoiIff(value, |body|, 10);
    }
  }

  lemma CodingIff(headers: seq<Header>)
    ensures var coding := Lookup(headers, "Transfer-Encoding");
            && (coding.Some? && EndsChunked(coding.value) <==> SaidChunked(headers))
            && (coding.Some? <==> Has(headers, "Transfer-Encoding"))
  {
    hide Lookup, First, Has, EndsChunked, LastIsChunked;
    var name := "Transfer-Encoding";
    LookupIff(headers, name, "");
    forall value ensures Lookup(headers, name) == Some(value) <==> First(headers, name, value) {
      LookupIff(headers, name, value);
      ChunkedIff(value);
    }
    if Lookup(headers, name).Some? { ChunkedIff(Lookup(headers, name).value); }
  }

  lemma OfResponseIff(firstLine: string, headers: seq<Header>, head: bool, body: string)
    requires StatusCode(firstLine).Some?
    ensures GoodBody(ResponseRule(firstLine, headers, head), body) <==>
              BodyOfResponse(StatusCode(firstLine).value, head, headers, body)
  {
    hide StatusCode, Lookup, LengthGiven, EndsChunked, SaidChunked, Has, AsLongAsSaid, Split, Equivalent,
      Chunked.WellFormed, Chunked.Print;
    LengthIff(headers, body);
    CodingIff(headers);
    LookupIff(headers, "Trailer", "");
    LookupIff(headers, "Content-Length", "");
    NoneGiven(headers, body);
  }

  lemma NoneGiven(headers: seq<Header>, body: string)
    ensures Lookup(headers, "Content-Length").None? ==> !AsLongAsSaid(headers, body)
  {
    hide AsLongAsSaid;
    LengthIff(headers, body);
  }

  // ---------------------------------------------------------------- popping lines off a buffer

  // A complete line at the front of what has arrived is the next line of the stream ...
  lemma LinePopped(buffer: string, todo: string, line: string, rest: string)
    requires Chunked.Line(line) && buffer + todo == line + CRLF + rest && FirstIndex(buffer, CRLF, 0).Some?
    ensures var k := FirstIndex(buffer, CRLF, 0).value; buffer[..k] == line && buffer[k + 2..] + todo == rest
  {
    FirstIndexKept(buffer, CRLF, todo);
    Chunked.LineEnds(line, rest);
    var k := FirstIndex(buffer, CRLF, 0).value;
    assert buffer[..k] == (buffer + todo)[..k] == line;
    assert buffer[k + 2..] + todo == (buffer + todo)[k + 2..];
  }

  // ... and if there is none, more than what follows the line is still to come.
  lemma LineMissing(buffer: string, todo: string, line: string, rest: string)
    requires Chunked.Line(line) && buffer + todo == line + CRLF + rest && FirstIndex(buffer, CRLF, 0).None?
    ensures |todo| > |rest|
  {
    Chunked.LineEnds(line, rest);
    FirstIndexLater(buffer, CRLF, todo);
  }
}

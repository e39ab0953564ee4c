/** Length-prefixed messages between the coordinator and its workers (src/execution/meow/message.cc).
    The 32-bit arithmetic of the source is written out: lengths are taken modulo 2^32. */
module Framing {
  import opened Pieces

  newtype byte = x: int | 0 <= x < 0x100

  type Bytes = seq<byte>

  const WORD := 0x1_0000_0000

  // ---------------------------------------------------------------- the header

  // A 32-bit number in network order.
  function PutField(n: nat): (r: Bytes)
    requires n < WORD
    ensures |r| == 4
  {
    [(n / 0x100_0000) as byte, (n / 0x1_0000 % 0x100) as byte, (n / 0x100 % 0x100) as byte, (n % 0x100) as byte]
  }

  function Be32(b: Bytes): (n: nat)
    requires |b| >= 4
    ensures n < WORD
    ensures n == b[0] as nat * 0x100_0000 + b[1] as nat * 0x1_0000 + b[2] as nat * 0x100 + b[3] as nat
  {
    ((b[0] as nat * 0x100 + b[1] as nat) * 0x100 + b[2] as nat) * 0x100 + b[3] as nat
  }

  // Network order: the most significant byte comes first.
  lemma NetworkOrder(n: nat)
    requires n < WORD
    ensures var r := PutField(n);
            r[0] as nat * 0x100_0000 + r[1] as nat * 0x1_0000 + r[2] as nat * 0x100 + r[3] as nat == n
  {
    var a, b, c := n / 0x100, n / 0x1_0000, n / 0x100_0000;
    assert n == a * 0x100 + n % 0x100 && a == b * 0x100 + a % 0x100 && b == c * 0x100 + b % 0x100;
  }

  lemma FieldRoundTrip(n: nat)
    requires n < WORD
    ensures Be32(PutField(n)) == n
  {
    hide PutField, Be32;
    NetworkOrder(n);
  }

  // ---------------------------------------------------------------- messages

  datatype Message = Message(length: nat, opcode: byte, payload: Bytes)

  // The length field is as wide as the wire's.
  function Make(opcode: byte, payload: Bytes): Message { Message(|payload| % WORD, opcode, payload) }

  // Message::str.
  function Print(m: Message): (r: Bytes)
    requires m.length < WORD
    ensures |r| == 5 + |m.payload|
  {
    PutField(m.length) + [m.opcode] + m.payload
  }

  // Four bytes for the length of the payload, most significant first, then the opcode and the payload.
  lemma PrintedLayout(opcode: byte, payload: Bytes)
    requires |payload| < WORD
    ensures var s := Print(Make(opcode, payload));
            && |s| == 5 + |payload| && s[4] == opcode && s[5..] == payload
            && s[0] as nat * 0x100_0000 + s[1] as nat * 0x1_0000 + s[2] as nat * 0x100 + s[3] as nat == |payload|
  {
    hide PutField;
    NetworkOrder(|payload|);
  }

  // Message::expected_length, which wraps around.
  function ExpectedLength(chunk: Bytes): nat { if |chunk| < 5 then 5 else (5 + Be32(chunk)) % WORD }

  // The message made of a whole chunk; the constructor throws on fewer than five bytes.
  function FromChunk(chunk: Bytes): Message
    requires |chunk| >= 5
  {
    Message(Be32(chunk), chunk[4], chunk[5..])
  }

  // ---------------------------------------------------------------- decoding a stream

  // The messages found, the bytes left over, and whether no exception was thrown.
  datatype Decoded = Decoded(messages: seq<Message>, rest: Bytes, ok: bool)

  function Decode(s: Bytes): Decoded {
    var e := ExpectedLength(s);
    if |s| < e then Decoded([], s, true)
    else if e < 5 then Decoded([], s, false)
    else
      var tail := Decode(s[e..]);
      Decoded([FromChunk(s[..e])] + tail.messages, tail.rest, tail.ok)
  }

  // Messages that were found before.
  function After(before: seq<Message>, d: Decoded): Decoded { Decoded(before + d.messages, d.rest, d.ok) }

  lemma AfterNothing(d: Decoded)
    ensures After([], d) == d
  {
  }

  lemma AfterNext(before: seq<Message>, s: Bytes)
    requires |s| >= ExpectedLength(s) >= 5
    ensures After(before, Decode(s)) == After(before + [FromChunk(s[..ExpectedLength(s)])],
              Decode(s[ExpectedLength(s)..]))
  {
    hide ExpectedLength, FromChunk;
    DecodeStep(s);
    var e := ExpectedLength(s);
    Assoc(before, [FromChunk(s[..e])], Decode(s[e..]).messages);
  }

  lemma AfterLast(before: seq<Message>, s: Bytes)
    requires |s| < ExpectedLength(s) || ExpectedLength(s) < 5
    ensures After(before, Decode(s)) == Decoded(before, s, |s| < ExpectedLength(s))
  {
  }

  lemma DecodeStep(s: Bytes)
    requires |s| >= ExpectedLength(s) >= 5
    ensures var e := ExpectedLength(s); var tail := Decode(s[e..]);
            Decode(s) == Decoded([FromChunk(s[..e])] + tail.messages, tail.rest, tail.ok)
  {
  }

  // The header decides the length.
  lemma HeaderKept(a: Bytes, b: Bytes)
    requires |a| >= ExpectedLength(a)
    ensures |a| >= 5 && ExpectedLength(a + b) == ExpectedLength(a)
  {
  }

  class MessageParser {
    var raw: Bytes
    var completed: seq<Message>

    constructor ()
      ensures raw == [] && completed == []
    {
      raw, completed := [], [];
    }

    /** Appends buf and takes every complete message off the buffer (MessageParser::parse). */
    method Parse(buf: Bytes) returns (ok: bool)
      modifies this
      ensures var d := Decode(old(raw) + buf);
              raw == d.rest && completed == old(completed) + d.messages && ok == d.ok
    {
      hide ExpectedLength, FromChunk, Decode, After;
      raw := raw + buf;
      ghost var all := raw;
      ghost var before: seq<Message> := [];
      AfterNothing(Decode(raw));
      while true
        invariant completed == old(completed) + before
        invariant Decode(all) == After(before, Decode(raw))
        decreases |raw|
      {
        var expected := ExpectedLength(raw);
        if |raw| < expected {
          AfterLast(before, raw);
          return true;
        }
        if expected < 5 {
          AfterLast(before, raw);
          return false;
        }
        AfterNext(before, raw);
        var message := FromChunk(raw[..expected]);
        Assoc(old(completed), before, [message]);
        before := before + [message];
        raw := raw[expected..];
        completed := completed + [message];
      }
    }

    // No complete message waits in the buffer: so it is between calls.
    ghost predicate Waiting()
      reads this
    {
      |raw| < ExpectedLength(raw)
    }

    /** A stream that arrives in pieces is parsed as if it had arrived at once. */
    method ParseAll(pieces: seq<Bytes>) returns (ok: bool)
      requires Waiting()
      modifies this
      ensures var d := Decode(old(raw) + Joined(pieces));
              ok == d.ok && (ok ==> Waiting() && raw == d.rest && completed == old(completed) + d.messages)
    {
      hide Decode;
      ok := true;
      ghost var first := raw;
      assert first + Joined([]) == first;
      DecodeWaiting(first);
      for i := 0 to |pieces|
        invariant Decode(first + Joined(pieces[..i])).ok
        invariant var d := Decode(first + Joined(pieces[..i]));
                    raw == d.rest && completed == old(completed) + d.messages
      {
        ghost var stream := first + Joined(pieces[..i]);
        JoinedNext(pieces, i);
        assert first + Joined(pieces[..i + 1]) == stream + pieces[i];
        DecodeAppend(stream, pieces[i]);
        ok := Parse(pieces[i]);
        if !ok {
          JoinedSplit(pieces, i + 1);
          assert first + Joined(pieces) == stream + pieces[i] + Joined(pieces[i + 1..]);
          DecodeFails(stream + pieces[i], Joined(pieces[i + 1..]));
          return;
        }
      }
      assert pieces[..|pieces|] == pieces;
      RestWaits(first + Joined(pieces));
    }
  }

  // ---------------------------------------------------------------- cutting the stream

  lemma DecodeWaiting(s: Bytes)
    requires |s| < ExpectedLength(s)
    ensures Decode(s) == Decoded([], s, true)
  {
  }

  lemma {:induction false} RestWaits(s: Bytes)
    requires Decode(s).ok
    ensures |Decode(s).rest| < ExpectedLength(Decode(s).rest)
    decreases |s|
  {
    var e := ExpectedLength(s);
    if |s| >= e { RestWaits(s[e..]); }
  }

  // What has been decoded stays decoded; the rest is decoded together with what follows.
  lemma {:induction false} DecodeAppend(a: Bytes, b: Bytes)
    requires Decode(a).ok
    ensures var d := Decode(a); var more := Decode(d.rest + b);
            Decode(a + b) == Decoded(d.messages + more.messages, more.rest, more.ok)
    decreases |a|
  {
    hide ExpectedLength, FromChunk;
    var e := ExpectedLength(a);
    if |a| >= e {
      HeaderKept(a, b);
      assert (a + b)[..e] == a[..e] && (a + b)[e..] == a[e..] + b;
      DecodeStep(a);
      DecodeStep(a + b);
      DecodeAppend(a[e..], b);
    } else {
      DecodeWaiting(a);
    }
  }

  lemma {:induction false} DecodeFails(a: Bytes, b: Bytes)
    requires !Decode(a).ok
    ensures !Decode(a + b).ok && Decode(a + b).messages == Decode(a).messages
    decreases |a|
  {
    var e := ExpectedLength(a);
    assert |a| >= 5 && ExpectedLength(a + b) == e;
    if e >= 5 {
      assert (a + b)[..e] == a[..e] && (a + b)[e..] == a[e..] + b;
      DecodeFails(a[e..], b);
    }
  }

  // ---------------------------------------------------------------- round trip

  function PrintAll(ms: seq<(byte, Bytes)>): Bytes {
    if ms == [] then [] else Print(Make(ms[0].0, ms[0].1)) + PrintAll(ms[1..])
  }

  function MakeAll(ms: seq<(byte, Bytes)>): seq<Message> {
    seq(|ms|, i requires 0 <= i < |ms| => Make(ms[i].0, ms[i].1))
  }

  lemma PrintedHeader(m: Message, rest: Bytes)
    requires m.length < WORD
    ensures Be32(Print(m) + rest) == m.length && (Print(m) + rest)[4] == m.opcode
    ensures (Print(m) + rest)[5..] == m.payload + rest
  {
    FieldRoundTrip(m.length);
    var s := Print(m) + rest;
    assert s[..4] == PutField(m.length);
    assert Be32(s) == Be32(PutField(m.length));
  }

  lemma PrintedLength(m: Message)
    requires m.length < WORD
    ensures ExpectedLength(Print(m)) == (5 + m.length) % WORD
  {
    PrintedHeader(m, []);
    assert Print(m) + [] == Print(m);
  }

  lemma PrintedWhole(m: Message)
    requires m.length < WORD
    ensures FromChunk(Print(m)) == m
  {
    PrintedHeader(m, []);
    assert Print(m) + [] == Print(m) && m.payload + [] == m.payload;
  }

  lemma ShortPayload(opcode: byte, payload: Bytes)
    requires |payload| <= WORD - 6
    ensures Decode(Print(Make(opcode, payload))) == Decoded([Make(opcode, payload)], [], true)
  {
    hide Be32, PutField;
    var m := Make(opcode, payload);
    var s := Print(m);
    PrintedLength(m);
    PrintedWhole(m);
    assert s[..|s|] == s && s[|s|..] == [];
    DecodeStep(s);
    DecodeWaiting([]);
  }

  // A longer payload is cut short, because its length or the sum with the header's length wraps around.
  lemma LongPayload(opcode: byte, payload: Bytes)
    requires |payload| > WORD - 6
    ensures var d := Decode(Print(Make(opcode, payload))); d.ok && d.messages != [] ==>
              |d.messages[0].payload| < |payload|
  {
    hide Be32, PutField;
    var s := Print(Make(opcode, payload));
    PrintedLength(Make(opcode, payload));
    var e := ExpectedLength(s);
    assert e < 5 + |payload|;
    if |s| >= e >= 5 { DecodeStep(s); }
  }

  // A message comes back, with whatever follows it left over, just when its length fits the field with
  // room for the header: 2^32 - 6 bytes at most.
  lemma MessageRoundTripIff(opcode: byte, payload: Bytes)
    ensures Decode(Print(Make(opcode, payload))) == Decoded([Make(opcode, payload)], [], true) <==>
              |payload| <= 0x1_0000_0000 - 6
  {
    hide Decode, Print;
    if |payload| <= WORD - 6 { ShortPayload(opcode, payload); } else { LongPayload(opcode, payload); }
  }

  lemma MessageFirst(opcode: byte, payload: Bytes, rest: Bytes)
    requires |payload| <= WORD - 6
    ensures var d := Decode(rest);
            Decode(Print(Make(opcode, payload)) + rest) == Decoded([Make(opcode, payload)] + d.messages, d.rest, d.ok)
  {
    MessageRoundTripIff(opcode, payload);
    DecodeAppend(Print(Make(opcode, payload)), rest);
    assert [] + rest == rest;
  }

  // Printed messages, in whatever pieces they arrive, are parsed back with no residue.
  lemma {:induction false} StreamRoundTrip(ms: seq<(byte, Bytes)>)
    requires forall m | m in ms :: |m.1| <= WORD - 6
    ensures Decode(PrintAll(ms)) == Decoded(MakeAll(ms), [], true)
  {
    if ms != [] {
      StreamRoundTrip(ms[1..]);
      MessageFirst(ms[0].0, ms[0].1, PrintAll(ms[1..]));
      assert MakeAll(ms) == [Make(ms[0].0, ms[0].1)] + MakeAll(ms[1..]);
    }
  }

  /** One side prints, the other parses: the same messages, in the same order, and an empty buffer. */
  method Deliver(ms: seq<(byte, Bytes)>, pieces: seq<Bytes>) returns (parser: MessageParser)
    requires Joined(pieces) == PrintAll(ms) && forall m | m in ms :: |m.1| <= WORD - 6
    ensures parser.completed == MakeAll(ms) && parser.raw == []
  {
    parser := new MessageParser();
    StreamRoundTrip(ms);
    assert [] + Joined(pieces) == Joined(pieces);
    var ok := parser.ParseAll(pieces);
  }
}

/** A stream that was cut into pieces. */
module Pieces {
  lemma Assoc<T>(a: seq<T>, b: seq<T>, c: seq<T>)
    ensures (a + b) + c == a + (b + c)
  {
  }

  function Joined<T>(pieces: seq<seq<T>>): seq<T> {
    if pieces == [] then [] else Joined(pieces[..|pieces| - 1]) + pieces[|pieces| - 1]
  }

  lemma JoinedSnoc<T>(pieces: seq<seq<T>>, piece: seq<T>)
    ensures Joined(pieces + [piece]) == Joined(pieces) + piece
  {
    assert (pieces + [piece])[..|pieces|] == pieces;
  }

  lemma {:induction false} JoinedConcat<T>(a: seq<seq<T>>, b: seq<seq<T>>)
    ensures Joined(a + b) == Joined(a) + Joined(b)
  {
    if b == [] {
      assert a + b == a;
    } else {
      var last := |b| - 1;
      JoinedConcat(a, b[..last]);
      assert b == b[..last] + [b[last]];
      Assoc(a, b[..last], [b[last]]);
      JoinedSnoc(a + b[..last], b[last]);
      Assoc(Joined(a), Joined(b[..last]), b[last]);
    }
  }

  // What has arrived before piece i, and the rest.
  lemma JoinedSplit<T>(pieces: seq<seq<T>>, i: nat)
    requires i <= |pieces|
    ensures Joined(pieces) == Joined(pieces[..i]) + Joined(pieces[i..])
  {
    assert pieces == pieces[..i] + pieces[i..];
    JoinedConcat(pieces[..i], pieces[i..]);
  }

  lemma JoinedNext<T>(pieces: seq<seq<T>>, i: nat)
    requires i < |pieces|
    ensures Joined(pieces[..i + 1]) == Joined(pieces[..i]) + pieces[i]
  {
    assert pieces[..i + 1] == pieces[..i] + [pieces[i]];
    JoinedSnoc(pieces[..i], pieces[i]);
  }

  // What is still to come, from piece i on.
  lemma JoinedFirst<T>(pieces: seq<seq<T>>, i: nat)
    requires i < |pieces|
    ensures Joined(pieces[i..]) == pieces[i] + Joined(pieces[i + 1..])
  {
    assert pieces[i..] == [pieces[i]] + pieces[i + 1..];
    JoinedConcat([pieces[i]], pieces[i + 1..]);
    assert [] + [pieces[i]] == [pieces[i]];
    JoinedSnoc([], pieces[i]);
  }
}

/** Splitting strings at a one-character separator (src/util/tokenize.hh). */
module Tokenize {
  import opened Pieces
  import opened Strings

  function Split(s: string, c: char): (r: seq<string>)
    ensures r != [] && forall p | p in r :: c !in p
    decreases |s|
  {
    match FindChar(s, c, 0)
    case None => [s]
    case Some(k) => [s[..k]] + Split(s[k + 1..], c)
  }

  // A separator ends the first piece; without one there is only one piece.
  lemma SplitFirst(a: string, c: char, b: string)
    requires c !in a
    ensures Split(a, c) == [a] && Split(a + [c] + b, c) == [a] + Split(b, c)
  {
    var s := a + [c] + b;
    FindJoined(a, c, b, 0);
    assert s[..|a|] == a && s[|a| + 1..] == b;
  }

  // The last piece lies behind the last separator.
  lemma {:induction false} SplitLast(s: string, c: char)
    ensures var r := Split(s, c); var last := r[|r| - 1];
            |last| <= |s| && s[|s| - |last|..] == last && (|last| == |s| || s[|s| - |last| - 1] == c)
    decreases |s|
  {
    match FindChar(s, c, 0)
    case None =>
    case Some(k) => SplitLast(s[k + 1..], c);
  }

  function Join(pieces: seq<string>, c: char): string {
    if pieces == [] then ""
    else if |pieces| == 1 then pieces[0]
    else pieces[0] + [c] + Join(pieces[1..], c)
  }

  lemma JoinNext(pieces: seq<string>, c: char)
    requires |pieces| > 1
    ensures Join(pieces, c) == pieces[0] + [c] + Join(pieces[1..], c)
  {
  }

  // Nothing is lost by splitting ...
  lemma {:induction false} JoinSplit(s: string, c: char)
    ensures Join(Split(s, c), c) == s
    decreases |s|
  {
    match FindChar(s, c, 0)
    case None =>
    case Some(k) =>
      JoinSplit(s[k + 1..], c);
      assert s == s[..k] + [c] + s[k + 1..];
      assert Split(s, c)[1..] == Split(s[k + 1..], c);
  }

  // ... and pieces without separators are found again.
  lemma {:induction false} SplitJoin(pieces: seq<string>, c: char)
    requires pieces != [] && forall p | p in pieces :: c !in p
    ensures Split(Join(pieces, c), c) == pieces
  {
    var p, s := pieces[0], Join(pieces, c);
    assert p in pieces;
    if |pieces| == 1 {
      assert pieces == [p];
    } else {
      SplitJoin(pieces[1..], c);
      FindJoined(p, c, Join(pieces[1..], c), 0);
      assert s[..|p|] == p && s[|p| + 1..] == Join(pieces[1..], c);
    }
  }

  // ---------------------------------------------------------------- as the source computes it

  // indices are exactly the positions of c in s from start on.
  predicate Positions(s: string, c: char, start: nat, end: nat, indices: seq<nat>) {
    && start <= end <= |s|
    && (forall i | 0 <= i < |indices| :: start <= indices[i] < end && s[indices[i]] == c)
    && (forall i, j | 0 <= i < j < |indices| :: indices[i] < indices[j])
    && (forall k | start <= k < end && s[k] == c :: k in indices)
  }

  // The pieces between the positions.
  function Cut(s: string, start: nat, indices: seq<nat>): seq<string>
    requires start <= |s| && forall i | 0 <= i < |indices| :: start <= indices[i] < |s|
    requires forall i, j | 0 <= i < j < |indices| :: indices[i] < indices[j]
    decreases |indices|
  {
    if indices == [] then [s[start..]]
    else [s[start..indices[0]]] + Cut(s, indices[0] + 1, indices[1..])
  }

  lemma SplitAt(s: string, c: char, start: nat, k: nat)
    requires start <= k < |s| && s[k] == c && forall j | start <= j < k :: s[j] != c
    ensures Split(s[start..], c) == [s[start..k]] + Split(s[k + 1..], c)
  {
    var rest := s[start..];
    FindJoined(s[start..k], c, s[k + 1..], 0);
    assert rest == s[start..k] + [c] + s[k + 1..];
    assert rest[..k - start] == s[start..k] && rest[k - start + 1..] == s[k + 1..];
  }

  lemma SplitNone(s: string, c: char, start: nat)
    requires start <= |s| && forall j | start <= j < |s| :: s[j] != c
    ensures Split(s[start..], c) == [s[start..]]
  {
    forall k | 0 <= k < |s| - start ensures s[start..][k] != c { assert s[start..][k] == s[start + k]; }
  }

  lemma PositionsTail(s: string, c: char, start: nat, indices: seq<nat>)
    requires Positions(s, c, start, |s|, indices)
    ensures indices == [] ==> forall j | start <= j < |s| :: s[j] != c
    ensures indices != [] ==>
              && start <= indices[0] < |s| && s[indices[0]] == c && (forall j | start <= j < indices[0] :: s[j] != c)
              && Positions(s, c, indices[0] + 1, |s|, indices[1..])
  {
    if indices != [] {
      forall j | start <= j < indices[0] ensures s[j] != c { assert j !in indices; }
      forall j | indices[0] + 1 <= j < |s| && s[j] == c ensures j in indices[1..] { assert j in indices; }
    }
  }

  lemma PositionsRange(s: string, c: char, start: nat, indices: seq<nat>)
    requires Positions(s, c, start, |s|, indices)
    ensures start <= |s| && forall i | 0 <= i < |indices| :: start <= indices[i] < |s|
    ensures forall i, j | 0 <= i < j < |indices| :: indices[i] < indices[j]
  {
  }

  lemma CutUnfold(s: string, start: nat, indices: seq<nat>)
    requires start <= |s| && forall i | 0 <= i < |indices| :: start <= indices[i] < |s|
    requires forall i, j | 0 <= i < j < |indices| :: indices[i] < indices[j]
    ensures indices == [] ==> Cut(s, start, indices) == [s[start..]]
    ensures indices != [] ==>
              && (forall i | 0 <= i < |indices| - 1 :: indices[0] + 1 <= indices[1..][i] < |s|)
              && Cut(s, start, indices) == [s[start..indices[0]]] + Cut(s, indices[0] + 1, indices[1..])
  {
  }

  lemma {:induction false} CutIsSplit(s: string, c: char, start: nat, indices: seq<nat>)
    requires Positions(s, c, start, |s|, indices)
    ensures Cut(s, start, indices) == Split(s[start..], c)
    decreases |indices|
  {
    hide Split, Positions, Cut;
    PositionsTail(s, c, start, indices);
    PositionsRange(s, c, start, indices);
    CutUnfold(s, start, indices);
    if indices == [] {
      SplitNone(s, c, start);
    } else {
      SplitAt(s, c, start, indices[0]);
      CutIsSplit(s, c, indices[0] + 1, indices[1..]);
    }
  }

  // Where the separators are.
  method FindAll(str: string, separator: char) returns (indices: seq<nat>)
    ensures Positions(str, separator, 0, |str|, indices)
  {
    indices := [];
    var next := 0;
    while true
      invariant Positions(str, separator, 0, next, indices)
      decreases |str| - next
    {
      match FindChar(str, separator, next) {
        case None => return;
        case Some(k) =>
          indices := indices + [k];
          next := k + 1;
      }
    }
  }

  method SplitAll(str: string, separator: char) returns (tokens: seq<string>)
    ensures tokens == Split(str, separator)
  {
    hide Split, Cut, Positions;
    var indices := FindAll(str, separator);
    CutIsSplit(str, separator, 0, indices);
    PositionsRange(str, separator, 0, indices);
    assert str[0..] == str;
    CutFirst(str, indices);
    if indices == [] {
      return [str];
    }
    tokens := [str[0..indices[0]]];
    for i := 0 to |indices| - 1
      invariant tokens + Cut(str, indices[i] + 1, indices[i + 1..]) == Split(str, separator)
    {
      var token := str[indices[i] + 1..indices[i + 1]];
      CutNext(str, indices, i);
      Assoc(tokens, [token], Cut(str, indices[i + 1] + 1, indices[i + 2..]));
      tokens := tokens + [token];
    }
    CutLast(str, indices);
    tokens := tokens + [str[indices[|indices| - 1] + 1..]];
  }

  lemma CutFirst(s: string, indices: seq<nat>)
    requires forall j | 0 <= j < |indices| :: indices[j] < |s|
    requires forall j, k | 0 <= j < k < |indices| :: indices[j] < indices[k]
    ensures indices == [] ==> Cut(s, 0, indices) == [s[0..]]
    ensures indices != [] ==> Cut(s, 0, indices) == [s[0..indices[0]]] + Cut(s, indices[0] + 1, indices[1..])
  {
  }

  lemma CutNext(s: string, indices: seq<nat>, i: nat)
    requires i + 1 < |indices| && forall j | 0 <= j < |indices| :: indices[j] < |s|
    requires forall j, k | 0 <= j < k < |indices| :: indices[j] < indices[k]
    ensures Cut(s, indices[i] + 1, indices[i + 1..]) ==
              [s[indices[i] + 1..indices[i + 1]]] + Cut(s, indices[i + 1] + 1, indices[i + 2..])
  {
    assert indices[i + 1..][1..] == indices[i + 2..];
  }

  lemma CutLast(s: string, indices: seq<nat>)
    requires indices != [] && forall j | 0 <= j < |indices| :: indices[j] < |s|
    ensures var last := indices[|indices| - 1]; Cut(s, last + 1, indices[|indices|..]) == [s[last + 1..]]
  {
  }
}

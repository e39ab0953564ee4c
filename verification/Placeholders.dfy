/** The flat strings behind the token form of arguments: data placeholders, their replacement, and the
    string forms of addresses and data entries (src/thunk/thunk.cc, src/thunk/ggutils.cc). */
module Placeholders {
  import opened Options
  import opened Strings
  import opened Thunks

  // ---------------------------------------------------------------- replacing

  // Every occurrence of src, from left to right, becomes dst.
  function ReplaceAll(s: string, src: string, dst: string): string
    requires src != ""
  {
    if s == "" then ""
    else if src <= s then dst + ReplaceAll(s[|src|..], src, dst)
    else [s[0]] + ReplaceAll(s[1..], src, dst)
  }

  lemma {:induction false} ReplaceNothing(s: string, src: string, dst: string, k: nat)
    requires src != "" && k <= |s| && forall j | 0 <= j < k :: !OccursAt(s, src, j)
    ensures ReplaceAll(s, src, dst) == s[..k] + ReplaceAll(s[k..], src, dst)
  {
    if k == 0 {
      assert s[0..] == s;
    } else {
      assert !OccursAt(s, src, 0) && s[0..] == s;
      forall j | 0 <= j < k - 1 ensures !OccursAt(s[1..], src, j) {
        assert s[1..][j..] == s[j + 1..];
        assert !OccursAt(s, src, j + 1);
      }
      ReplaceNothing(s[1..], src, dst, k - 1);
      assert s[1..][k - 1..] == s[k..];
      assert s[..k] == [s[0]] + s[1..][..k - 1];
    }
  }

  lemma ReplaceNone(s: string, src: string, dst: string)
    requires src != "" && forall j | 0 <= j <= |s| :: !OccursAt(s, src, j)
    ensures ReplaceAll(s, src, dst) == s
  {
    ReplaceNothing(s, src, dst, |s|);
    assert s[..|s|] == s;
  }

  // Up to the next occurrence, at k, nothing is replaced.
  lemma ReplaceAtNext(str: string, index: nat, k: nat, src: string, dst: string)
    requires src != "" && index <= k && OccursAt(str, src, k) && forall j | index <= j < k :: !OccursAt(str, src, j)
    ensures ReplaceAll(str[index..], src, dst) == str[index..k] + dst + ReplaceAll(str[k + |src|..], src, dst)
  {
    var rest := str[index..];
    forall j | 0 <= j < k - index ensures !OccursAt(rest, src, j) {
      assert rest[j..] == str[index + j..] && !OccursAt(str, src, index + j);
    }
    ReplaceNothing(rest, src, dst, k - index);
    assert rest[k - index..] == str[k..] && rest[..k - index] == str[index..k];
    assert str[k..][|src|..] == str[k + |src|..];
  }

  lemma ReplaceNoMore(str: string, index: nat, src: string, dst: string)
    requires src != "" && index <= |str| && forall j | index <= j <= |str| :: !OccursAt(str, src, j)
    ensures ReplaceAll(str[index..], src, dst) == str[index..]
  {
    var rest := str[index..];
    forall j | 0 <= j <= |rest| ensures !OccursAt(rest, src, j) {
      assert rest[j..] == str[index + j..] && !OccursAt(str, src, index + j);
    }
    ReplaceNone(rest, src, dst);
  }

  /** update_placeholder: goes on behind each replacement, so that dst is never searched. */
  method UpdatePlaceholder(text: string, src: string, dst: string) returns (str: string)
    requires src != ""
    ensures str == ReplaceAll(text, src, dst)
  {
    hide ReplaceAll, OccursAt;
    str := text;
    var index: nat := 0;
    assert text[0..] == text;
    while true
      invariant index <= |str|
      invariant ReplaceAll(text, src, dst) == str[..index] + ReplaceAll(str[index..], src, dst)
      decreases |str| - index
    {
      var found := Find(str, src, index);
      if found.None? {
        ReplaceNoMore(str, index, src, dst);
        assert str == str[..index] + str[index..];
        return;
      }
      var k := found.value;
      ReplaceAtNext(str, index, k, src, dst);
      OccurrenceFits(str, src, k);
      var after := str[..k] + dst + str[k + |src|..];
      assert after[..k + |dst|] == str[..index] + str[index..k] + dst;
      assert after[k + |dst|..] == str[k + |src|..];
      str, index := after, k + |dst|;
    }
  }

  lemma OccurrenceFits(s: string, w: string, i: nat)
    requires OccursAt(s, w, i)
    ensures i + |w| <= |s|
  {
  }

  // ---------------------------------------------------------------- placeholders

  const START := "@{GGHASH:"
  const END := "}"

  function Placeholder(name: string): string { START + name + END }

  // No placeholder begins or ends within the name (CleanIff says what that is good for).
  predicate Clean(name: string) { '}' !in name && forall i | 0 <= i <= |name| :: !OccursAt(name, START, i) }

  // A stretch that ends a placeholder and in which none begins, whatever follows.
  predicate Inert(w: string) {
    w != "" ==> w[|w| - 1] == '}' && forall j | 0 <= j < |w| :: !OccursAt(w, START, j)
  }

  lemma InertTail(w: string)
    requires Inert(w) && w != ""
    ensures Inert(w[1..])
  {
    forall j | 0 <= j < |w| - 1 ensures !OccursAt(w[1..], START, j) {
      assert w[1..][j..] == w[j + 1..];
      assert !OccursAt(w, START, j + 1);
    }
  }

  lemma {:induction false} InertLater(w: string, i: nat)
    requires Inert(w) && i <= |w|
    ensures Inert(w[i..])
    decreases i
  {
    if i == 0 {
      assert w[0..] == w;
    } else {
      InertLater(w, i - 1);
      InertTail(w[i - 1..]);
      assert w[i - 1..][1..] == w[i..];
    }
  }

  lemma StartOpen()
    ensures '}' !in START && START[0] == '@' && forall j | 0 < j < |START| :: START[j] != '@'
  {
  }

  lemma DiffersAt(p: string, s: string, k: nat)
    requires k < |p| && k < |s| && p[k] != s[k]
    ensures !(p <= s)
  {
  }

  // No placeholder begins in an inert stretch, whether or not it reaches beyond it.
  lemma InertHides(w: string, t: string)
    requires Inert(w) && w != ""
    ensures !(START <= w + t)
  {
    StartOpen();
    if |w| <= |START| {
      DiffersAt(START, w + t, |w| - 1);
    } else {
      assert !OccursAt(w, START, 0) && w[0..] == w;
      assert (w + t)[..|START|] == w[..|START|];
    }
  }

  // Behind its first character the placeholder of a clean name is inert.
  lemma PlaceholderInert(n: string)
    requires Clean(n)
    ensures Placeholder(n) != "" && Inert(Placeholder(n)[1..])
  {
    var w := Placeholder(n)[1..];
    forall j | 0 <= j < |w| ensures !OccursAt(w, START, j) { NoStartBehind(n, j); }
  }

  lemma NoStartBehind(n: string, j: nat)
    requires Clean(n) && j < |Placeholder(n)[1..]|
    ensures !OccursAt(Placeholder(n)[1..], START, j)
  {
    StartOpen();
    var w := Placeholder(n)[1..];
    var at := j + 1 - |START|;
    if at < 0 {
      DiffersAt(START, w[j..], 0);
    } else if j + |START| == |w| {
      DiffersAt(START, w[j..], |START| - 1);
    } else if j + |START| < |w| {
      assert !OccursAt(n, START, at);
      assert w[j..][..|START|] == n[at..][..|START|];
    }
  }

  lemma StartsPlaceholder(a: string, s: string)
    ensures Placeholder(a) <= s ==> START <= s
  {
    assert START <= Placeholder(a);
  }

  // No placeholder begins inside another one.
  lemma NoneInside(n: string, rest: string, a: string, i: nat)
    requires Clean(n) && 0 < i < |Placeholder(n)|
    ensures !OccursAt(Placeholder(n) + rest, Placeholder(a), i)
  {
    var p := Placeholder(n);
    PlaceholderInert(n);
    InertLater(p[1..], i - 1);
    assert p[1..][i - 1..] == p[i..];
    InertHides(p[i..], rest);
    assert (p + rest)[i..] == p[i..] + rest;
    StartsPlaceholder(a, p[i..] + rest);
  }

  // The clean names are those whose placeholders contain no other placeholder.
  lemma CleanIff(n: string)
    ensures Clean(n) <==> forall a, i | a != n :: !OccursAt(Placeholder(n), Placeholder(a), i)
  {
    if Clean(n) {
      forall a, i | a != n ensures !OccursAt(Placeholder(n), Placeholder(a), i) { NoOtherWithin(n, a, i); }
    } else {
      var a, i := OtherWithin(n);
      assert OccursAt(Placeholder(n), Placeholder(a), i);
    }
  }

  lemma NoOtherWithin(n: string, a: string, i: nat)
    requires Clean(n) && a != n
    ensures !OccursAt(Placeholder(n), Placeholder(a), i)
  {
    var p := Placeholder(n);
    if 0 < i < |p| {
      assert p + "" == p;
      NoneInside(n, "", a, i);
    } else if i == 0 {
      assert p[0..] == p;
      if |a| < |n| {
        DiffersAt(Placeholder(a), p, |START| + |a|);
      } else if |a| == |n| {
        assert Placeholder(a)[|START|..|START| + |a|] == a && p[|START|..|START| + |n|] == n;
      }
    }
  }

  lemma OtherWithin(n: string) returns (a: string, i: nat)
    requires !Clean(n)
    ensures a != n && OccursAt(Placeholder(n), Placeholder(a), i)
  {
    var p := Placeholder(n);
    if '}' in n {
      var k :| 0 <= k < |n| && n[k] == '}';
      a, i := n[..k], 0;
      assert p[0..] == p && p[..|START| + k + 1] == Placeholder(a);
    } else {
      var k :| 0 <= k <= |n| && OccursAt(n, START, k);
      a, i := n[k + |START|..], |START| + k;
      assert n[k..][..|START|] == START;
      assert p[i..] == n[k..] + END;
      assert n[k..] == START + a;
    }
  }

  // The name of the placeholder s begins with, if it does.
  function Leading(s: string): (r: Option<string>)
    ensures r.Some? ==> Clean(r.value) && Placeholder(r.value) <= s
  {
    if !(START <= s) then None
    else match FindChar(s, '}', |START|)
      case None => None
      case Some(k) =>
        var name := s[|START|..k];
        assert s[..k + 1] == Placeholder(name);
        if Clean(name) then Some(name) else None
  }

  lemma LeadingIs(name: string, rest: string)
    requires Clean(name)
    ensures Leading(Placeholder(name) + rest) == Some(name)
  {
    var s := Placeholder(name) + rest;
    assert s == (START + name) + ['}'] + rest;
    FindJoined(START + name, '}', rest, |START|);
    assert s[|START|..|START| + |name|] == name;
    assert START <= s;
  }

  lemma LeadingOf(s: string, name: string)
    requires Clean(name) && Placeholder(name) <= s
    ensures Leading(s) == Some(name)
  {
    assert s == Placeholder(name) + s[|Placeholder(name)|..];
    LeadingIs(name, s[|Placeholder(name)|..]);
  }

  type Tokens = seq<Token<string>>

  // A string split at its placeholders.
  function Parse(s: string): Tokens {
    if s == "" then []
    else match Leading(s)
      case Some(name) => [Hole(name)] + Parse(s[|Placeholder(name)|..])
      case None => [Char(s[0])] + Parse(s[1..])
  }

  function RenderToken(t: Token<string>): string {
    match t case Char(c) => [c] case Hole(name) => Placeholder(name)
  }

  function Render(ts: Tokens): string {
    if ts == [] then "" else RenderToken(ts[0]) + Render(ts[1..])
  }

  // Nothing is lost by splitting.
  lemma {:induction false} RenderParse(s: string)
    ensures Render(Parse(s)) == s
  {
    if s != "" {
      match Leading(s)
      case Some(name) =>
        RenderParse(s[|Placeholder(name)|..]);
        assert s == Placeholder(name) + s[|Placeholder(name)|..];
      case None =>
        RenderParse(s[1..]);
        assert s == [s[0]] + s[1..];
    }
  }

  function RenameToken(t: Token<string>, a: string, b: string): Token<string> { if t == Hole(a) then Hole(b) else t }

  function Rename(ts: Tokens, a: string, b: string): Tokens {
    seq(|ts|, i requires 0 <= i < |ts| => RenameToken(ts[i], a, b))
  }

  lemma RenameCons(t: Token<string>, ts: Tokens, a: string, b: string)
    ensures Rename([t] + ts, a, b) == [RenameToken(t, a, b)] + Rename(ts, a, b)
  {
    var all := [t] + ts;
    assert forall i | 0 < i < |all| :: all[i] == ts[i - 1];
  }

  // The replaced string, as the tokens say it.
  function Renamed(s: string, a: string, b: string): string { Render(Rename(Parse(s), a, b)) }

  lemma RenamedHole(s: string, a: string, b: string)
    requires s != "" && Leading(s).Some?
    ensures var n := Leading(s).value;
            Renamed(s, a, b) == Placeholder(if n == a then b else n) + Renamed(s[|Placeholder(n)|..], a, b)
    ensures START <= Renamed(s, a, b)
  {
    var n := Leading(s).value;
    var rest := s[|Placeholder(n)|..];
    RenameCons(Hole(n), Parse(rest), a, b);
    var ts := Rename(Parse(s), a, b);
    assert ts[1..] == Rename(Parse(rest), a, b);
  }

  lemma RenamedChar(s: string, a: string, b: string)
    requires s != "" && Leading(s).None?
    ensures Renamed(s, a, b) == [s[0]] + Renamed(s[1..], a, b)
  {
    RenameCons(Char(s[0]), Parse(s[1..]), a, b);
    assert Rename(Parse(s), a, b)[1..] == Rename(Parse(s[1..]), a, b);
  }

  // No placeholder begins inside an inert stretch.
  lemma {:induction false} ReplaceSkips(w: string, t: string, a: string, b: string)
    requires Inert(w)
    ensures ReplaceAll(w + t, Placeholder(a), Placeholder(b)) == w + ReplaceAll(t, Placeholder(a), Placeholder(b))
  {
    hide Inert, Placeholder;
    PlaceholderNotEmpty(a);
    if w == "" {
      assert w + t == t;
    } else {
      InertHides(w, t);
      StartsPlaceholder(a, w + t);
      InertTail(w);
      assert (w + t)[1..] == w[1..] + t;
      ReplaceSkips(w[1..], t, a, b);
    }
  }

  lemma ReplaceOther(n: string, rest: string, a: string, b: string)
    requires Clean(n) && Clean(a) && n != a
    ensures ReplaceAll(Placeholder(n) + rest, Placeholder(a), Placeholder(b))
         == Placeholder(n) + ReplaceAll(rest, Placeholder(a), Placeholder(b))
  {
    var s, w := Placeholder(n) + rest, Placeholder(n)[1..];
    HoleIsOther(n, a, rest);
    assert s[1..] == w + rest && Placeholder(n) == [s[0]] + w;
    PlaceholderInert(n);
    ReplaceSkips(w, rest, a, b);
  }

  // Replacing placeholders in the string is renaming the tokens: all of them, at once, and nothing else.
  lemma {:induction false} ReplaceIsRename(s: string, a: string, b: string)
    requires Clean(a)
    ensures ReplaceAll(s, Placeholder(a), Placeholder(b)) == Renamed(s, a, b)
    decreases |s|
  {
    hide Leading, Renamed, Placeholder, Clean;
    PlaceholderNotEmpty(a);
    if s == "" {
      RenamedEmpty(a, b);
    } else if Leading(s).Some? {
      var n := Leading(s).value;
      PlaceholderNotEmpty(n);
      var rest := s[|Placeholder(n)|..];
      assert s == Placeholder(n) + rest;
      ReplaceIsRename(rest, a, b);
      RenamedHole(s, a, b);
      if n != a { ReplaceOther(n, rest, a, b); }
    } else {
      if Placeholder(a) <= s { LeadingOf(s, a); }
      ReplaceIsRename(s[1..], a, b);
      RenamedChar(s, a, b);
    }
  }

  lemma PlaceholderNotEmpty(a: string)
    ensures |Placeholder(a)| > 0
  {
  }

  lemma RenamedEmpty(a: string, b: string)
    ensures Renamed("", a, b) == ""
  {
  }

  lemma HoleIsOther(n: string, a: string, rest: string)
    requires Clean(n) && Clean(a) && n != a
    ensures !(Placeholder(a) <= Placeholder(n) + rest)
  {
    var s := Placeholder(n) + rest;
    if Placeholder(a) <= s {
      assert s == Placeholder(a) + s[|Placeholder(a)|..];
      LeadingIs(a, s[|Placeholder(a)|..]);
      LeadingIs(n, rest);
    }
  }

  // An inert stretch is the same before and after.
  lemma {:induction false} StretchKept(s: string, w: string, a: string, b: string)
    requires Inert(w) && w <= Renamed(s, a, b)
    ensures w <= s
    decreases |w|
  {
    if w != "" {
      assert s != "";
      if Leading(s).Some? {
        RenamedHole(s, a, b);
        var rest := Renamed(s, a, b)[|w|..];
        assert Renamed(s, a, b) == w + rest;
        InertHides(w, rest);
      } else {
        RenamedChar(s, a, b);
        InertTail(w);
        assert w[1..] <= Renamed(s[1..], a, b) by {
          assert Renamed(s, a, b)[1..] == Renamed(s[1..], a, b);
        }
        StretchKept(s[1..], w[1..], a, b);
      }
    }
  }

  // Renaming creates no placeholder that was not there.
  lemma NoNewHole(s: string, a: string, b: string)
    requires s != "" && Leading(s).None?
    ensures Leading(Renamed(s, a, b)).None?
  {
    RenamedChar(s, a, b);
    match Leading(Renamed(s, a, b))
    case None =>
    case Some(n) =>
      PlaceholderKept(s, a, b, n);
      LeadingOf(s, n);
  }

  lemma PlaceholderKept(s: string, a: string, b: string, n: string)
    requires s != "" && Renamed(s, a, b) == [s[0]] + Renamed(s[1..], a, b)
    requires Clean(n) && Placeholder(n) <= Renamed(s, a, b)
    ensures Placeholder(n) <= s
  {
    hide Renamed;
    var after, p := Renamed(s, a, b), Placeholder(n);
    assert after[1..] == Renamed(s[1..], a, b);
    PrefixTail(p, after);
    PlaceholderInert(n);
    StretchKept(s[1..], p[1..], a, b);
    assert p[0] == after[0] == s[0];
    PrefixCons(p, s);
  }

  lemma PrefixTail(p: string, s: string)
    requires p <= s && p != ""
    ensures p[1..] <= s[1..] && p[0] == s[0]
  {
    assert s[1..][..|p| - 1] == p[1..];
  }

  lemma PrefixCons(p: string, s: string)
    requires p != "" && s != "" && p[0] == s[0] && p[1..] <= s[1..]
    ensures p <= s
  {
    assert s[..|p|] == [s[0]] + s[1..][..|p| - 1];
  }

  // Splitting the replaced string gives the renamed tokens, so that the next replacement can go on from there.
  lemma {:induction false} ParseRenamed(s: string, a: string, b: string)
    requires Clean(b)
    ensures Parse(Renamed(s, a, b)) == Rename(Parse(s), a, b)
    decreases |s|
  {
    if s == "" {
    } else if Leading(s).Some? {
      var n := Leading(s).value;
      var rest := s[|Placeholder(n)|..];
      var m := if n == a then b else n;
      RenamedHole(s, a, b);
      ParseRenamed(rest, a, b);
      LeadingIs(m, Renamed(rest, a, b));
      RenameCons(Hole(n), Parse(rest), a, b);
      assert Renamed(s, a, b)[|Placeholder(m)|..] == Renamed(rest, a, b);
    } else {
      RenamedChar(s, a, b);
      NoNewHole(s, a, b);
      ParseRenamed(s[1..], a, b);
      RenameCons(Char(s[0]), Parse(s[1..]), a, b);
      assert Renamed(s, a, b)[1..] == Renamed(s[1..], a, b);
    }
  }

  // Every placeholder in a string is one of its tokens.
  lemma {:induction false} OccurrenceIsHole(s: string, a: string, i: nat)
    requires Clean(a) && OccursAt(s, Placeholder(a), i)
    ensures Hole(a) in Parse(s)
    decreases |s|
  {
    if Leading(s).Some? {
      var n := Leading(s).value;
      var rest := s[|Placeholder(n)|..];
      assert s == Placeholder(n) + rest;
      if i == 0 {
        assert s[0..] == s;
        if n != a { HoleIsOther(n, a, rest); }
      } else {
        if i < |Placeholder(n)| { NoneInside(n, rest, a, i); }
        assert s[i..] == rest[i - |Placeholder(n)|..];
        OccurrenceIsHole(rest, a, i - |Placeholder(n)|);
      }
    } else {
      assert s[0..] == s;
      if i == 0 { LeadingOf(s, a); }
      assert s[i..] == s[1..][i - 1..];
      OccurrenceIsHole(s[1..], a, i - 1);
    }
  }

  // After update_placeholder no old placeholder is left.
  lemma NoOldPlaceholder(s: string, a: string, b: string, i: nat)
    requires Clean(a) && Clean(b) && a != b
    ensures !OccursAt(ReplaceAll(s, Placeholder(a), Placeholder(b)), Placeholder(a), i)
  {
    ReplaceIsRename(s, a, b);
    ParseRenamed(s, a, b);
    if OccursAt(Renamed(s, a, b), Placeholder(a), i) {
      OccurrenceIsHole(Renamed(s, a, b), a, i);
    }
  }

  // ---------------------------------------------------------------- addresses

  // hash::for_output and hash::base.
  function ForOutput(hash: string, tag: string): string { hash + "#" + tag }

  function Base(hash: string): string {
    match FindChar(hash, '#', 0) case None => hash case Some(k) => hash[..k]
  }

  // The base of an output's address is the address it belongs to just when that has no '#' itself.
  lemma BaseOfOutputIff(hash: string, tag: string)
    ensures Base(ForOutput(hash, tag)) == hash <==> '#' !in hash
  {
    if '#' !in hash {
      FindJoined(hash, '#', tag, 0);
      assert ForOutput(hash, tag)[..|hash|] == hash;
    } else {
      var i :| 0 <= i < |hash| && hash[i] == '#';
      assert ForOutput(hash, tag)[i] == '#';
    }
  }

  // Content addresses as strings: any injective function into strings without separators.
  type Digest = Hash -> string

  ghost predicate GoodDigest(digest: Digest) {
    && (forall a, b | digest(a) == digest(b) :: a == b)
    && (forall a :: Clean(digest(a)) && '#' !in digest(a))
  }

  function Address(digest: Digest, r: Ref): string {
    match r.sel case First => digest(r.base) case Tag(tag) => ForOutput(digest(r.base), tag)
  }

  lemma AddressBase(digest: Digest, r: Ref)
    requires GoodDigest(digest)
    ensures Base(Address(digest, r)) == digest(r.base) && ('#' in Address(digest, r) <==> r.sel.Tag?)
  {
    match r.sel
    case First =>
    case Tag(tag) =>
      BaseOfOutputIff(digest(r.base), tag);
      assert Address(digest, r)[|digest(r.base)|] == '#';
  }

  // Different references have different addresses.
  lemma AddressInjective(digest: Digest, a: Ref, b: Ref)
    requires GoodDigest(digest) && Address(digest, a) == Address(digest, b)
    ensures a == b
  {
    AddressBase(digest, a);
    AddressBase(digest, b);
    assert a.base == b.base;
    if a.sel.Tag? {
      var n := |digest(a.base)| + 1;
      assert Address(digest, a)[n..] == a.sel.tag;
      assert Address(digest, b)[n..] == b.sel.tag;
    }
  }

  // ---------------------------------------------------------------- the strings refine the tokens

  function NameToken(digest: Digest, t: Token<Ref>): Token<string> {
    match t case Char(c) => Char(c) case Hole(r) => Hole(Address(digest, r))
  }

  function NamesOf(digest: Digest, text: Text): Tokens {
    seq(|text|, i requires 0 <= i < |text| => NameToken(digest, text[i]))
  }

  // The argument as the thunk stores it.
  function Flat(digest: Digest, text: Text): string { Render(NamesOf(digest, text)) }

  // text has no character runs that look like placeholders.
  predicate Unambiguous(digest: Digest, text: Text) { Parse(Flat(digest, text)) == NamesOf(digest, text) }

  lemma RenameNames(digest: Digest, text: Text, src: Ref, dst: Ref)
    requires GoodDigest(digest)
    ensures Rename(NamesOf(digest, text), Address(digest, src), Address(digest, dst)) ==
              NamesOf(digest, ApplyText(map[src := dst], text))
  {
    forall i | 0 <= i < |text|
      ensures RenameToken(NameToken(digest, text[i]), Address(digest, src), Address(digest, dst))
           == NameToken(digest, ApplyToken(map[src := dst], text[i])) {
      if text[i].Hole? && Address(digest, text[i].ref) == Address(digest, src) {
        AddressInjective(digest, text[i].ref, src);
      }
    }
  }

  // update_placeholder on the stored string is ReplaceHole on the tokens.
  lemma UpdateRefines(digest: Digest, text: Text, src: Ref, dst: Ref)
    requires GoodDigest(digest) && Clean(Address(digest, src)) && Clean(Address(digest, dst)) &&
               Unambiguous(digest, text)
    ensures ReplaceAll(Flat(digest, text), Placeholder(Address(digest, src)), Placeholder(Address(digest, dst)))
         == Flat(digest, ApplyText(map[src := dst], text))
    ensures Unambiguous(digest, ApplyText(map[src := dst], text))
  {
    var a, b := Address(digest, src), Address(digest, dst);
    ReplaceIsRename(Flat(digest, text), a, b);
    ParseRenamed(Flat(digest, text), a, b);
    RenameNames(digest, text, src, dst);
  }

  // ---------------------------------------------------------------- data entries

  // data_to_string and string_to_data.
  function DataToString(hash: string, name: string): string { if name != "" then hash + "=" + name else hash }

  function StringToData(s: string): (string, string) {
    match FindChar(s, '=', 0) case None => (s, "") case Some(k) => (s[..k], s[k + 1..])
  }

  // An entry can be read back just when its address has no '='.
  lemma DataRoundTripIff(hash: string, name: string)
    ensures StringToData(DataToString(hash, name)) == (hash, name) <==> '=' !in hash
  {
    var s := DataToString(hash, name);
    if '=' !in hash {
      if name != "" {
        FindJoined(hash, '=', name, 0);
        assert s[..|hash|] == hash && s[|hash| + 1..] == name;
      }
    } else {
      var i :| 0 <= i < |hash| && hash[i] == '=';
      assert s[i] == '=';
    }
  }

  // A string is an entry's own form unless its first '=' is its last character: the name is empty then.
  lemma EntryRoundTripIff(s: string)
    ensures var e := StringToData(s);
            DataToString(e.0, e.1) == s <==> !(s != "" && s[|s| - 1] == '=' && '=' !in s[..|s| - 1])
  {
    match FindChar(s, '=', 0)
    case None =>
      assert s[0..] == s;
    case Some(k) =>
      assert s == s[..k] + "=" + s[k + 1..];
      assert s[0..k] == s[..k];
      if k < |s| - 1 { assert s[..|s| - 1][k] == '='; }
  }
}

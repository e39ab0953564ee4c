/** Lexical normalisation of paths (src/util/path.cc). */
module Paths {
  import opened Tokenize

  // ---------------------------------------------------------------- what lexically_normal computes

  // One component of the path, on the stack of components kept so far.
  function Push(stack: seq<string>, component: string): seq<string> {
    if component == ".." then
      if stack == [] || stack[|stack| - 1] == ".." then stack + [component]
      else if stack[|stack| - 1] != "" then stack[..|stack| - 1]
      else stack
    else if component != "." && component != "" then stack + [component]
    else stack
  }

  function PushAll(stack: seq<string>, components: seq<string>): seq<string>
    decreases |components|
  {
    if components == [] then stack else PushAll(Push(stack, components[0]), components[1..])
  }

  lemma {:induction false} PushAllSnoc(stack: seq<string>, components: seq<string>, c: string)
    ensures PushAll(stack, components + [c]) == Push(PushAll(stack, components), c)
    decreases |components|
  {
    if components == [] {
      assert (components + [c])[1..] == [];
    } else {
      assert (components + [c])[1..] == components[1..] + [c];
      PushAllSnoc(Push(stack, components[0]), components[1..], c);
    }
  }

  // Every component followed by a slash, except that the last slash is dropped behind a name.
  function Slashed(stack: seq<string>): string { if stack == [] then "" else stack[0] + "/" + Slashed(stack[1..]) }

  function Render(stack: seq<string>): string {
    var p := Slashed(stack);
    if |p| > 1 && p[|p| - 1] == '/' then p[..|p| - 1] else p
  }

  // Does the first component say "root"? It does for the empty path, too.
  predicate Rooted(path: string) { Split(path, '/')[0] == "" }

  function Base(rooted: bool): seq<string> { if rooted then [""] else [] }

  function Normal(path: string): string { Render(PushAll(Base(Rooted(path)), Split(path, '/'))) }

  lemma {:induction false} SlashedSnoc(stack: seq<string>, c: string)
    ensures Slashed(stack + [c]) == Slashed(stack) + c + "/"
  {
    if stack != [] {
      assert (stack + [c])[1..] == stack[1..] + [c];
      SlashedSnoc(stack[1..], c);
    }
  }

  // The loop over the components.
  method Normalize(components: seq<string>) returns (normalized: seq<string>)
    requires components != []
    ensures normalized == PushAll(Base(components[0] == ""), components)
  {
    normalized := [];
    if components[0] == "" {
      normalized := normalized + [""];
    }
    ghost var base := Base(components[0] == "");
    assert normalized == base && components[..0] == [];
    for i := 0 to |components|
      invariant normalized == PushAll(base, components[..i])
    {
      var component := components[i];
      assert components[..i + 1] == components[..i] + [component];
      PushAllSnoc(base, components[..i], component);
      if component == ".." {
        if |normalized| == 0 || normalized[|normalized| - 1] == ".." {
          normalized := normalized + [component];
        } else if normalized[|normalized| - 1] != "" {
          normalized := normalized[..|normalized| - 1];
        }
      } else if component != "." && component != "" {
        normalized := normalized + [component];
      }
    }
    assert components[..|components|] == components;
  }

  /** path::lexically_normal. */
  method LexicallyNormal(path: string) returns (p: string)
    ensures p == Normal(path)
  {
    hide Split, PushAll;
    var components := SplitAll(path, '/');
    var normalized := Normalize(components);
    p := "";
    for i := 0 to |normalized|
      invariant p == Slashed(normalized[..i])
    {
      assert normalized[..i + 1] == normalized[..i] + [normalized[i]];
      SlashedSnoc(normalized[..i], normalized[i]);
      p := p + normalized[i] + "/";
    }
    assert normalized[..|normalized|] == normalized;
    if |p| > 1 && p[|p| - 1] == '/' {
      p := p[..|p| - 1];
    }
  }

  // ---------------------------------------------------------------- normal form

  // A name is neither empty nor one of the special components, and has no slash.
  predicate Name(c: string) { c != "" && c != "." && c != ".." && '/' !in c }

  // What the stack looks like: the root and names, or some ".." and then names.
  predicate Tidy(rooted: bool, stack: seq<string>) {
    && (rooted ==> stack != [] && stack[0] == "")
    && (forall i | |Base(rooted)| <= i < |stack| :: Name(stack[i]) || stack[i] == "..")
    && (forall i | |Base(rooted)| <= i < |stack| && stack[i] == ".." ::
        !rooted && forall j | 0 <= j < i :: stack[j] == "..")
  }

  lemma PushTidy(rooted: bool, stack: seq<string>, c: string)
    requires Tidy(rooted, stack) && '/' !in c
    ensures Tidy(rooted, Push(stack, c))
  {
  }

  lemma {:induction false} PushAllTidy(rooted: bool, stack: seq<string>, components: seq<string>)
    requires Tidy(rooted, stack) && forall c | c in components :: '/' !in c
    ensures Tidy(rooted, PushAll(stack, components))
    decreases |components|
  {
    hide Push, Tidy;
    if components != [] {
      PushTidy(rooted, stack, components[0]);
      PushAllTidy(rooted, Push(stack, components[0]), components[1..]);
    }
  }

  lemma {:induction false} SlashedIsJoin(stack: seq<string>)
    requires stack != []
    ensures Slashed(stack) == Join(stack, '/') + "/"
  {
    if |stack| > 1 { SlashedIsJoin(stack[1..]); }
  }

  lemma RenderIs(stack: seq<string>)
    ensures Render(stack) == if stack == [""] then "/" else Join(stack, '/')
  {
    if stack != [] { SlashedIsJoin(stack); }
    if stack != [] && Join(stack, '/') == "" { JoinEmpty(stack); }
  }

  lemma JoinEmpty(stack: seq<string>)
    requires stack != [] && Join(stack, '/') == ""
    ensures stack == [""]
  {
  }

  // The components of the result: those of the stack, and an empty one behind a lone root.
  lemma RenderSplit(rooted: bool, stack: seq<string>)
    requires Tidy(rooted, stack)
    ensures Split(Render(stack), '/') == if stack == [] then [""] else if stack == [""] then ["", ""] else stack
    ensures Rooted(Render(stack)) <==> rooted || stack == []
    ensures Render(stack) == "" <==> stack == []
  {
    hide Split;
    RenderIs(stack);
    if stack == [] {
      SplitJoin([""], '/');
    } else if stack == [""] {
      SplitJoin(["", ""], '/');
    } else {
      assert forall c | c in stack :: '/' !in c;
      SplitJoin(stack, '/');
      if Join(stack, '/') == "" { JoinEmpty(stack); }
    }
  }

  lemma NormalStack(path: string)
    ensures Tidy(Rooted(path), PushAll(Base(Rooted(path)), Split(path, '/')))
  {
    PushAllTidy(Rooted(path), Base(Rooted(path)), Split(path, '/'));
  }

  // No "." is left, no empty component other than around a root, and no ".." behind a name or the root.
  lemma NormalForm(path: string)
    ensures var cs := Split(Normal(path), '/');
            && "." !in cs
            && (forall i | 0 < i < |cs| && cs[i] == "" :: cs == ["", ""])
            && (forall i, j | 0 <= i < j < |cs| && cs[j] == ".." :: cs[i] == "..")
  {
    var stack := PushAll(Base(Rooted(path)), Split(path, '/'));
    NormalStack(path);
    RenderSplit(Rooted(path), stack);
  }

  // ---------------------------------------------------------------- idempotence

  lemma {:induction false} TidyStays(rooted: bool, stack: seq<string>, i: nat)
    requires Tidy(rooted, stack) && |Base(rooted)| <= i <= |stack|
    ensures PushAll(stack[..i], stack[i..]) == stack
    decreases |stack| - i
  {
    if i == |stack| {
      assert stack[..i] == stack;
    } else {
      TidyStays(rooted, stack, i + 1);
      assert stack[i..][1..] == stack[i + 1..];
      assert Push(stack[..i], stack[i]) == stack[..i + 1];
    }
  }

  lemma TidyAgain(rooted: bool, stack: seq<string>)
    requires Tidy(rooted, stack)
    ensures stack != [] ==> PushAll(Base(rooted), stack) == stack
    ensures stack == [""] ==> PushAll(Base(rooted), ["", ""]) == stack
  {
    if stack != [] {
      var b := |Base(rooted)|;
      TidyStays(rooted, stack, b);
      assert stack[..b] == Base(rooted);
      if rooted {
        assert PushAll(Base(rooted), stack) == PushAll(Base(rooted), stack[1..]);
      } else {
        assert stack[0..] == stack;
      }
    }
  }

  lemma NormalTwice(path: string)
    ensures Normal(Normal(path)) == Normal(path) <==> Normal(path) != ""
  {
    hide Split, Tidy, Render;
    var rooted := Rooted(path);
    var stack := PushAll(Base(rooted), Split(path, '/'));
    NormalStack(path);
    RenderSplit(rooted, stack);
    TidyAgain(rooted, stack);
    RootedStack(rooted, stack);
    RenderIs([""]);
  }

  lemma RootedStack(rooted: bool, stack: seq<string>)
    requires Tidy(rooted, stack)
    ensures stack == [] ==> !rooted
    ensures stack == [""] ==> rooted
    ensures PushAll([""], [""]) == [""]
  {
    assert stack == [""] ==> stack[0] == "";
  }

  // ---------------------------------------------------------------- location

  // A place in a tree without symbolic links: the names from the root down.
  type Location = seq<string>

  function Step(at: Location, component: string): Location {
    if component == "" || component == "." then at
    else if component == ".." then (if at == [] then [] else at[..|at| - 1])
    else at + [component]
  }

  function Walk(at: Location, components: seq<string>): Location
    decreases |components|
  {
    if components == [] then at else Walk(Step(at, components[0]), components[1..])
  }

  predicate Absolute(path: string) { path != "" && path[0] == '/' }

  // Where a path leads from a working directory.
  function Resolve(cwd: Location, path: string): Location {
    Walk(if Absolute(path) then [] else cwd, Split(path, '/'))
  }

  lemma {:induction false} WalkSnoc(at: Location, components: seq<string>, c: string)
    ensures Walk(at, components + [c]) == Step(Walk(at, components), c)
    decreases |components|
  {
    if components == [] {
      assert (components + [c])[1..] == [];
    } else {
      assert (components + [c])[1..] == components[1..] + [c];
      WalkSnoc(Step(at, components[0]), components[1..], c);
    }
  }

  // Pushing a component leads where walking it leads.
  lemma PushWalks(rooted: bool, at: Location, stack: seq<string>, c: string)
    requires Tidy(rooted, stack) && (rooted ==> at == [])
    ensures Walk(at, Push(stack, c)) == Step(Walk(at, stack), c)
  {
    if c != "" && c != "." {
      WalkSnoc(at, stack, c);
      if c == ".." && stack != [] {
        var last := |stack| - 1;
        WalkSnoc(at, stack[..last], stack[last]);
        assert stack == stack[..last] + [stack[last]];
      }
    }
  }

  lemma {:induction false} PushAllWalks(rooted: bool, at: Location, stack: seq<string>, components: seq<string>)
    requires Tidy(rooted, stack) && (rooted ==> at == []) && forall c | c in components :: '/' !in c
    ensures Walk(at, PushAll(stack, components)) == Walk(Walk(at, stack), components)
    decreases |components|
  {
    hide Tidy, Push;
    if components != [] {
      PushTidy(rooted, stack, components[0]);
      PushWalks(rooted, at, stack, components[0]);
      PushAllWalks(rooted, at, Push(stack, components[0]), components[1..]);
    }
  }

  lemma RootedIsAbsolute(path: string)
    ensures Rooted(path) <==> Absolute(path) || path == ""
  {
  }

  /** The normal path leads where the path leads, from every working directory, unless the path is empty. */
  lemma LocationKeptIff(path: string)
    ensures (forall cwd :: Resolve(cwd, Normal(path)) == Resolve(cwd, path)) <==> path != ""
  {
    hide Split, Tidy;
    if path != "" {
      forall cwd ensures Resolve(cwd, Normal(path)) == Resolve(cwd, path) { LocationKept(cwd, path); }
    } else {
      EmptyPath();
      assert Resolve(["home"], Normal(path)) != Resolve(["home"], path);
    }
  }

  lemma EmptyPath()
    ensures Normal("") == "/"
    ensures Resolve(["home"], "/") == [] && Resolve(["home"], "") == ["home"]
  {
    SplitJoin([""], '/');
    SplitJoin(["", ""], '/');
    RenderIs([""]);
  }

  lemma LocationKept(cwd: Location, path: string)
    requires path != ""
    ensures Resolve(cwd, Normal(path)) == Resolve(cwd, path)
  {
    hide Split, Tidy, Render;
    var rooted := Rooted(path);
    var stack := PushAll(Base(rooted), Split(path, '/'));
    var at := if rooted then [] else cwd;
    NormalStack(path);
    RenderSplit(rooted, stack);
    BaseTidy(rooted);
    PushAllWalks(rooted, at, Base(rooted), Split(path, '/'));
    RootedIsAbsolute(path);
    RootedIsAbsolute(Normal(path));
    RootedStack(rooted, stack);
    WalkAgain(at, stack);
  }

  lemma BaseTidy(rooted: bool)
    ensures Tidy(rooted, Base(rooted))
    ensures rooted ==> Walk([], Base(rooted)) == []
  {
  }

  lemma WalkAgain(at: Location, stack: seq<string>)
    ensures Walk(at, if stack == [] then [""] else if stack == [""] then ["", ""] else stack) == Walk(at, stack)
  {
  }

  // ---------------------------------------------------------------- when nothing is left of a path

  lemma {:induction false} WalkUp(at: Location, ups: seq<string>)
    requires forall i | 0 <= i < |ups| :: ups[i] == ".."
    ensures |Walk(at, ups)| <= |at|
    decreases |ups|
  {
    if ups != [] { WalkUp(Step(at, ups[0]), ups[1..]); }
  }

  // A normal path that is not empty leads away from the root or from a directory below it.
  lemma StackMoves(stack: seq<string>)
    requires Tidy(false, stack) && stack != []
    ensures Walk([], stack) != [] || Walk(["below"], stack) != ["below"]
  {
    var last := |stack| - 1;
    assert stack == stack[..last] + [stack[last]];
    if stack[last] == ".." {
      WalkUp(Step(["below"], stack[0]), stack[1..]);
      assert stack[0] == "..";
    } else {
      WalkSnoc([], stack[..last], stack[last]);
    }
  }

  /** Nothing is left of a path exactly when it is not empty and leads nowhere: to where one already is, wherever
      that may be. */
  lemma EmptyIff(path: string)
    ensures Normal(path) == "" <==> path != "" && forall cwd :: Resolve(cwd, path) == cwd
  {
    hide Split, Tidy, Render, Walk;
    EmptyPath();
    if path != "" {
      if Normal(path) == "" {
        forall cwd ensures Resolve(cwd, path) == cwd {
          LocationKept(cwd, path);
          ResolveEmpty(cwd);
        }
      } else {
        LeadsSomewhere(path);
      }
    }
  }

  lemma ResolveEmpty(cwd: Location)
    ensures Resolve(cwd, "") == cwd
  {
    SplitJoin([""], '/');
  }

  lemma LeadsSomewhere(path: string)
    requires path != "" && Normal(path) != ""
    ensures Resolve([], path) != [] || Resolve(["below"], path) != ["below"]
  {
    hide Split, Tidy, Render;
    var rooted := Rooted(path);
    RootedIsAbsolute(path);
    if !rooted {
      var stack := PushAll(Base(rooted), Split(path, '/'));
      NormalStack(path);
      RenderSplit(rooted, stack);
      BaseTidy(rooted);
      PushAllWalks(rooted, [], Base(rooted), Split(path, '/'));
      PushAllWalks(rooted, ["below"], Base(rooted), Split(path, '/'));
      StackMoves(stack);
    }
  }

  /** Normalising twice is normalising once, unless the path is not empty and leads nowhere: nothing is left of it
      then, and the empty path becomes the root. */
  lemma IdempotentIff(path: string)
    ensures Normal(Normal(path)) == Normal(path) <==> path == "" || exists cwd :: Resolve(cwd, path) != cwd
  {
    hide Normal, Resolve;
    NormalTwice(path);
    EmptyIff(path);
  }
}

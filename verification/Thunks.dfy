/** Content addresses, thunks and the substitution that reductions perform on them.

    A hash is modelled by what it addresses: the address of a thunk *is* the thunk, so the
    addressing is injective and a thunk can only name objects that existed before it.
    Blobs of values are opaque and identified by a number. */
module Thunks {
  import opened Bags

  datatype Hash = Value(id: nat) | Thk(thunk: Thunk)

  // "H" addresses the first output of H, "H#tag" the output called tag.
  datatype Selector = First | Tag(tag: string)
  datatype Ref = Ref(base: Hash, sel: Selector)

  // One entry of a DataList: the address and the file name (possibly empty).
  datatype Item = Item(ref: Ref, name: string)

  // Arguments and environment variables, split at their data placeholders
  // (module Placeholders relates this form to the flat strings of the source).
  datatype Token<R> = Char(c: char) | Hole(ref: R)
  type Text = seq<Token<Ref>>

  datatype Thunk = Thunk(
    program: Hash, args: seq<Text>, envars: seq<Text>,
    values: multiset<Item>, thunks: multiset<Item>, executables: multiset<Item>,
    outputs: seq<string>, links: seq<(string, string)>, timeout: nat)
  {
    // No unresolved dependency is left.
    predicate CanBeExecuted() { thunks == multiset{} }

    ghost function Data(): multiset<Item> { values + thunks }
  }

  datatype Output = Output(hash: Hash, tag: string)

  function Untagged(h: Hash): Ref { Ref(h, First) }

  // ---------------------------------------------------------------- what a thunk refers to

  function HoleRefs(texts: seq<Text>): set<Ref> {
    set j, k | 0 <= j < |texts| && 0 <= k < |texts[j]| && texts[j][k].Hole? :: texts[j][k].ref
  }

  function ItemRefs(items: multiset<Item>): set<Ref> { set i | i in items :: i.ref }

  // All references of a thunk, resolved or not.
  function Refs(t: Thunk): set<Ref> {
    ItemRefs(t.values) + ItemRefs(t.thunks) + HoleRefs(t.args) + HoleRefs(t.envars)
  }

  // Every reference that has to be resolved before the thunk can run.
  function Needs(t: Thunk): set<Ref> { set r | r in Refs(t) && r.base.Thk? }

  function Bases(refs: set<Ref>): set<Hash> { set r | r in refs :: r.base }

  // The hashes a thunk depends on: the keys its entry is indexed under in the graph.
  function Deps(t: Thunk): set<Hash> { Bases(ItemRefs(t.thunks)) }

  // Outputs other than the first one; only these may be referenced with a tag.
  function Tail(outputs: seq<string>): seq<string> { if outputs == [] then [] else outputs[1..] }

  // A reference with a tag must name a non-first output of the thunk it points to, and that tag
  // must also be a non-first output of the referring thunk (see ExecutionGraph.AddThunk).
  predicate TagFits(r: Ref, outputs: seq<string>) {
    r.sel.Tag? ==> r.base.Thk? && r.sel.tag in Tail(r.base.thunk.outputs) && r.sel.tag in Tail(outputs)
  }

  // The two data lists are split by object type.
  ghost predicate Split(t: Thunk) {
    (forall i | i in t.values :: i.ref.base.Value?) && (forall i | i in t.thunks :: i.ref.base.Thk?)
  }

  predicate Distinct(tags: seq<string>) { forall i, j | 0 <= i < j < |tags| :: tags[i] != tags[j] }

  ghost predicate TidyThunk(t: Thunk) {
    && t.outputs != [] && Distinct(t.outputs)
    && Split(t)
    && (forall r | r in Needs(t) :: TagFits(r, t.outputs) && r.base in Deps(t))
  }

  // A thunk that is tidy together with everything it depends on.
  ghost predicate WellFormed(h: Hash) {
    h.Thk? ==> TidyThunk(h.thunk) && forall i | i in h.thunk.thunks :: WellFormed(i.ref.base)
  }

  // All thunks that have to be loaded to load h.
  function Closure(h: Hash): set<Hash> {
    if h.Value? then {}
    else {h} + (set i, x | i in h.thunk.thunks && x in Closure(i.ref.base) :: x)
  }

  lemma ClosureOfDep(h: Hash, d: Hash)
    requires h.Thk? && d in Deps(h.thunk)
    ensures Closure(d) <= Closure(h) && d < h
  {
    var r :| r in ItemRefs(h.thunk.thunks) && r.base == d;
    var i :| i in h.thunk.thunks && i.ref == r;
  }

  // ---------------------------------------------------------------- substitution

  type Substitution = map<Ref, Ref>

  function Apply(s: Substitution, r: Ref): Ref { if r in s then s[r] else r }

  function ApplyToken(s: Substitution, t: Token<Ref>): Token<Ref> {
    match t case Char(_) => t case Hole(r) => Hole(Apply(s, r))
  }

  function ApplyText(s: Substitution, text: Text): Text {
    seq(|text|, i requires 0 <= i < |text| => ApplyToken(s, text[i]))
  }

  function ApplyTexts(s: Substitution, texts: seq<Text>): seq<Text> {
    seq(|texts|, i requires 0 <= i < |texts| => ApplyText(s, texts[i]))
  }

  function ApplyItem(s: Substitution, i: Item): Item { Item(Apply(s, i.ref), i.name) }

  function Applier(s: Substitution): Item -> Item { i => ApplyItem(s, i) }

  ghost function ApplyItems(s: Substitution, items: multiset<Item>): (r: multiset<Item>) {
    Image(Applier(s), items)
  }

  // The entries of one object type.
  ghost function OfType(items: multiset<Item>, value: bool): (r: multiset<Item>)
    ensures forall i :: r[i] == if i.ref.base.Value? == value then items[i] else 0
    decreases |items|
  {
    if items == multiset{} then multiset{}
    else
      var i := Bags.Some(items);
      var rest := OfType(items - multiset{i}, value);
      if i.ref.base.Value? == value then rest + multiset{i} else rest
  }

  // t with every reference replaced at once.
  ghost function Subst(t: Thunk, s: Substitution): Thunk {
    var data := ApplyItems(s, t.Data());
    t.(args := ApplyTexts(s, t.args), envars := ApplyTexts(s, t.envars),
       values := OfType(data, true), thunks := OfType(data, false))
  }

  // Substituting twice is substituting once.
  lemma SubstCompose(t: Thunk, s1: Substitution, s2: Substitution, s: Substitution)
    requires forall r | r in Refs(t) :: Apply(s2, Apply(s1, r)) == Apply(s, r)
    ensures Subst(Subst(t, s1), s2) == Subst(t, s)
  {
    var u := Subst(t, s1);
    DataOfSubst(t, s1);
    forall i | i in t.Data() ensures Apply(s2, Apply(s1, i.ref)) == Apply(s, i.ref) {
      assert i.ref in Refs(t);
    }
    ImageCompose(Applier(s1), Applier(s2), Applier(s), t.Data());
    TextsCompose(t.args, s1, s2, s);
    TextsCompose(t.envars, s1, s2, s);
  }

  lemma TextsCompose(texts: seq<Text>, s1: Substitution, s2: Substitution, s: Substitution)
    requires forall r | r in HoleRefs(texts) :: Apply(s2, Apply(s1, r)) == Apply(s, r)
    ensures ApplyTexts(s2, ApplyTexts(s1, texts)) == ApplyTexts(s, texts)
  {
    forall j | 0 <= j < |texts| ensures ApplyText(s2, ApplyText(s1, texts[j])) == ApplyText(s, texts[j]) {
      forall k | 0 <= k < |texts[j]|
        ensures ApplyToken(s2, ApplyToken(s1, texts[j][k])) == ApplyToken(s, texts[j][k]) {
        if texts[j][k].Hole? { assert texts[j][k].ref in HoleRefs(texts); }
      }
    }
  }

  lemma DataOfSubst(t: Thunk, s: Substitution)
    ensures Subst(t, s).Data() == ApplyItems(s, t.Data())
    ensures Split(Subst(t, s))
  {
  }

  lemma TextsIdentity(texts: seq<Text>, s: Substitution)
    requires forall r | r in HoleRefs(texts) :: Apply(s, r) == r
    ensures ApplyTexts(s, texts) == texts
  {
    forall j | 0 <= j < |texts| ensures ApplyText(s, texts[j]) == texts[j] {
      forall k | 0 <= k < |texts[j]| ensures ApplyToken(s, texts[j][k]) == texts[j][k] {
        if texts[j][k].Hole? { assert texts[j][k].ref in HoleRefs(texts); }
      }
    }
  }

  lemma SplitData(values: multiset<Item>, thunks: multiset<Item>)
    requires forall i | i in values :: i.ref.base.Value?
    requires forall i | i in thunks :: i.ref.base.Thk?
    ensures OfType(values + thunks, true) == values && OfType(values + thunks, false) == thunks
  {
  }

  // A substitution that moves no reference of t leaves t alone.
  lemma SubstIdentity(t: Thunk, s: Substitution)
    requires Split(t)
    requires forall r | r in Refs(t) :: Apply(s, r) == r
    ensures Subst(t, s) == t
  {
    forall i | i in t.Data() ensures Apply(s, i.ref) == i.ref { assert i.ref in Refs(t); }
    ImageIdentity(Applier(s), t.Data());
    SplitData(t.values, t.thunks);
    TextsIdentity(t.args, s);
    TextsIdentity(t.envars, s);
  }

  // ---------------------------------------------------------------- place by place

  // Every text keeps its length and its characters, and every placeholder is exchanged where it stands.
  ghost predicate TextsMoved(before: seq<Text>, after: seq<Text>, f: Ref -> Ref) {
    && |after| == |before|
    && (forall j | 0 <= j < |before| :: |after[j]| == |before[j]|)
    && forall j, k | 0 <= j < |before| && 0 <= k < |before[j]| ::
         after[j][k] == match before[j][k] case Char(c) => Char(c) case Hole(r) => Hole(f(r))
  }

  // Every entry keeps its name and is for what f makes of its reference; there are as many of each as there were
  // entries that become it. Values are in one list, thunks in the other.
  ghost predicate DataMoved(t: Thunk, u: Thunk, f: Ref -> Ref) {
    && (forall i | i in u.values :: i.ref.base.Value?) && (forall i | i in u.thunks :: i.ref.base.Thk?)
    && forall y: Item ::
         (u.values + u.thunks)[y] == |Select((i: Item) => f(i.ref) == y.ref && i.name == y.name, t.values + t.thunks)|
  }

  // u is t with f(r) wherever t has r, and nothing else is changed.
  ghost predicate Rewired(t: Thunk, u: Thunk, f: Ref -> Ref) {
    && TextsMoved(t.args, u.args, f) && TextsMoved(t.envars, u.envars, f) && DataMoved(t, u, f)
    && u.program == t.program && u.executables == t.executables
    && u.outputs == t.outputs && u.links == t.links && u.timeout == t.timeout
  }

  lemma TextsMove(texts: seq<Text>, s: Substitution, f: Ref -> Ref)
    requires forall r :: f(r) == Apply(s, r)
    ensures TextsMoved(texts, ApplyTexts(s, texts), f)
  {
    hide Apply;
  }

  lemma EntriesMove(items: multiset<Item>, s: Substitution, f: Ref -> Ref, y: Item)
    requires forall r :: f(r) == Apply(s, r)
    ensures ApplyItems(s, items)[y] == |Select((i: Item) => f(i.ref) == y.ref && i.name == y.name, items)|
  {
    hide Select, Apply, Image;
    var p := (i: Item) => f(i.ref) == y.ref && i.name == y.name;
    forall i: Item ensures p(i) <==> Applier(s)(i) == y { assert Applier(s)(i) == Item(f(i.ref), i.name); }
    ImageCount(Applier(s), items, y, p);
  }

  // Substituting goes place by place.
  lemma SubstMoves(t: Thunk, s: Substitution, f: Ref -> Ref)
    requires forall r :: f(r) == Apply(s, r)
    ensures Rewired(t, Subst(t, s), f)
  {
    hide Select, TextsMoved, ApplyTexts, ApplyItems, OfType, Apply;
    DataOfSubst(t, s);
    TextsMove(t.args, s, f);
    TextsMove(t.envars, s, f);
    forall y: Item ensures ApplyItems(s, t.values + t.thunks)[y] ==
        |Select((i: Item) => f(i.ref) == y.ref && i.name == y.name, t.values + t.thunks)| {
      EntriesMove(t.values + t.thunks, s, f, y);
    }
  }

  ghost predicate IsImage(s: Substitution, refs: set<Ref>, r: Ref) {
    exists r0 :: r0 in refs && Apply(s, r0) == r
  }

  lemma HolesOfSubst(texts: seq<Text>, s: Substitution, r: Ref)
    ensures r in HoleRefs(ApplyTexts(s, texts)) <==> IsImage(s, HoleRefs(texts), r)
  {
    var after := ApplyTexts(s, texts);
    if r in HoleRefs(after) {
      var j, k :| 0 <= j < |after| && 0 <= k < |after[j]| && after[j][k].Hole? && after[j][k].ref == r;
      assert texts[j][k].ref in HoleRefs(texts);
    }
    if IsImage(s, HoleRefs(texts), r) {
      var r0 :| r0 in HoleRefs(texts) && Apply(s, r0) == r;
      var j, k :| 0 <= j < |texts| && 0 <= k < |texts[j]| && texts[j][k].Hole? && texts[j][k].ref == r0;
      assert after[j][k] == Hole(r);
    }
  }

  lemma ItemsOfSubst(items: multiset<Item>, s: Substitution, r: Ref)
    ensures r in ItemRefs(ApplyItems(s, items)) <==> IsImage(s, ItemRefs(items), r)
  {
    if r in ItemRefs(ApplyItems(s, items)) {
      var y :| y in ApplyItems(s, items) && y.ref == r;
      ImageMember(Applier(s), items, y);
      var x :| x in items && Applier(s)(x) == y;
      assert x.ref in ItemRefs(items);
    }
    if IsImage(s, ItemRefs(items), r) {
      var r0 :| r0 in ItemRefs(items) && Apply(s, r0) == r;
      var x :| x in items && x.ref == r0;
      ImageMember(Applier(s), items, ApplyItem(s, x));
      assert Applier(s)(x) == ApplyItem(s, x);
    }
  }

  lemma ImageOfUnion(s: Substitution, a: set<Ref>, b: set<Ref>, c: set<Ref>, r: Ref)
    ensures IsImage(s, a + b + c, r) <==> IsImage(s, a, r) || IsImage(s, b, r) || IsImage(s, c, r)
  {
  }

  // The references of the substituted thunk are the images of the old ones.
  lemma RefsOfSubst(t: Thunk, s: Substitution, r: Ref)
    ensures r in Refs(Subst(t, s)) <==> IsImage(s, Refs(t), r)
  {
    var u := Subst(t, s);
    ItemsOfSubst(t.Data(), s, r);
    HolesOfSubst(t.args, s, r);
    HolesOfSubst(t.envars, s, r);
    ImageOfUnion(s, ItemRefs(t.Data()), HoleRefs(t.args), HoleRefs(t.envars), r);
    RefsSplit(t);
    DataOfSubst(t, s);
    RefsSplit(u);
  }

  lemma RefsSplit(t: Thunk)
    ensures Refs(t) == ItemRefs(t.Data()) + HoleRefs(t.args) + HoleRefs(t.envars)
  {
  }

  // ---------------------------------------------------------------- what update_data replaces

  // The address under which a referrer knows an output after the reduction.
  function NewRef(o: Output): Ref { if o.hash.Value? then Untagged(o.hash) else Ref(o.hash, Tag(o.tag)) }

  // The simultaneous replacement of all outputs of original; if a tag is listed twice the first wins.
  function OutputSub(original: Hash, outputs: seq<Output>): Substitution {
    if outputs == [] then map[]
    else if |outputs| == 1 then map[Untagged(original) := Untagged(outputs[0].hash)]
    else
      var last := outputs[|outputs| - 1];
      map[Ref(original, Tag(last.tag)) := NewRef(last)] + OutputSub(original, outputs[..|outputs| - 1])
  }

  lemma {:induction false} OutputSubShape(original: Hash, outputs: seq<Output>, r: Ref)
    ensures var s := OutputSub(original, outputs);
            && (r in s ==> r.base == original && exists o :: o in outputs && s[r].base == o.hash)
            && (r in s ==> s[r].sel == if s[r].base.Value? then First else r.sel)
            && (r in s <==>
                r.base == original && outputs != [] &&
                (r.sel.Tag? ==> exists i :: 1 <= i < |outputs| && outputs[i].tag == r.sel.tag))
  {
    if |outputs| > 1 {
      OutputSubShape(original, outputs[..|outputs| - 1], r);
    } else if |outputs| == 1 {
      assert outputs[0] in outputs;
    }
  }

  // Among outputs that have the same tag, the first one counts.
  lemma {:induction false} OutputSubFirst(original: Hash, outputs: seq<Output>, tag: string, i: nat)
    requires 1 <= i < |outputs| && outputs[i].tag == tag && forall j | 1 <= j < i :: outputs[j].tag != tag
    ensures var s := OutputSub(original, outputs); var r := Ref(original, Tag(tag));
            r in s && s[r] == NewRef(outputs[i])
  {
    var less := outputs[..|outputs| - 1];
    if i < |less| {
      OutputSubFirst(original, less, tag, i);
    } else {
      OutputSubShape(original, less, Ref(original, Tag(tag)));
    }
  }

  lemma {:induction false} OutputSubBare(original: Hash, outputs: seq<Output>)
    requires outputs != []
    ensures var s := OutputSub(original, outputs);
            Untagged(original) in s && s[Untagged(original)] == Untagged(outputs[0].hash)
  {
    if |outputs| > 1 { OutputSubBare(original, outputs[..|outputs| - 1]); }
  }

  // What a reference becomes when original is reduced to outputs: the bare hash of original that of the first
  // output; a tag the first of the further outputs with that tag, under this tag again unless it is a value.
  ghost function Successor(original: Hash, outputs: seq<Output>, r: Ref): (r': Ref)
    requires outputs != []
    ensures r.base != original ==> r' == r
    ensures r.base == original && r.sel.First? ==> r' == Ref(outputs[0].hash, First)
    ensures r.base == original && r.sel.Tag? ==>
              forall i | 1 <= i < |outputs| && outputs[i].tag == r.sel.tag
                         && forall j | 1 <= j < i :: outputs[j].tag != r.sel.tag ::
                r' == Ref(outputs[i].hash, if outputs[i].hash.Value? then First else r.sel)
    ensures r.base == original && r.sel.Tag? && (forall i | 1 <= i < |outputs| :: outputs[i].tag != r.sel.tag) ==>
              r' == r
  {
    OutputSubShape(original, outputs, r);
    OutputSubBare(original, outputs);
    assert r.base == original && r.sel.Tag? ==>
        forall i | 1 <= i < |outputs| && outputs[i].tag == r.sel.tag
                   && forall j | 1 <= j < i :: outputs[j].tag != r.sel.tag ::
          Apply(OutputSub(original, outputs), r) ==
            Ref(outputs[i].hash, if outputs[i].hash.Value? then First else r.sel) by {
      if r.base == original && r.sel.Tag? {
        forall i | 1 <= i < |outputs| && outputs[i].tag == r.sel.tag
            && forall j | 1 <= j < i :: outputs[j].tag != r.sel.tag
          ensures Apply(OutputSub(original, outputs), r) ==
            Ref(outputs[i].hash, if outputs[i].hash.Value? then First else r.sel) {
          OutputSubFirst(original, outputs, r.sel.tag, i);
        }
      }
    }
    Apply(OutputSub(original, outputs), r)
  }

  lemma UpdateMoves(t: Thunk, original: Hash, outputs: seq<Output>)
    requires outputs != []
    ensures Rewired(t, Subst(t, OutputSub(original, outputs)), (x: Ref) => Successor(original, outputs, x))
  {
    hide Rewired, OutputSub, Subst;
    SubstMoves(t, OutputSub(original, outputs), (x: Ref) => Successor(original, outputs, x));
  }

  ghost function Named(r: Ref, names: seq<string>): multiset<Item> {
    if names == [] then multiset{} else Named(r, names[..|names| - 1]) + multiset{Item(r, names[|names| - 1])}
  }

  lemma {:induction false} NamedImage(src: Ref, dst: Ref, names: seq<string>)
    ensures ApplyItems(map[src := dst], Named(src, names)) == Named(dst, names)
    ensures forall i | i in Named(dst, names) :: i.ref == dst
  {
    if names != [] {
      var less := names[..|names| - 1];
      NamedImage(src, dst, less);
      ImageAdd(Applier(map[src := dst]), Named(src, less), Item(src, names[|names| - 1]));
    }
  }

  // One round of update_data: every entry and placeholder for src is rewritten to dst.
  method ReplaceRef(t: Thunk, src: Ref, dst: Ref) returns (r: Thunk)
    requires Split(t) && src.base.Thk?
    ensures r == Subst(t, map[src := dst])
    ensures Rewired(t, r, (x: Ref) => if x == src then dst else x)
  {
    SubstMoves(t, map[src := dst], (x: Ref) => if x == src then dst else x);
    var names, thunks := TakeNames(t.thunks, src);
    ReplacedData(t.values, thunks, src, dst, names);
    var values := t.values;
    if dst.base.Thk? {
      thunks := AddNames(thunks, dst, names);
    } else {
      values := AddNames(values, dst, names);
    }
    var args := ReplaceHole(t.args, src, dst);
    var envars := ReplaceHole(t.envars, src, dst);
    r := t.(args := args, envars := envars, values := values, thunks := thunks);
  }

  // Erases the entries for src, keeping their names.
  method TakeNames(items: multiset<Item>, src: Ref) returns (names: seq<string>, rest: multiset<Item>)
    ensures items == rest + Named(src, names)
    ensures forall i | i in rest :: i.ref != src
  {
    names, rest := [], items;
    while exists i :: i in rest && i.ref == src
      invariant items == rest + Named(src, names)
      decreases |rest|
    {
      var i :| i in rest && i.ref == src;
      assert rest == (rest - multiset{i}) + multiset{i};
      assert (names + [i.name])[..|names|] == names;
      names := names + [i.name];
      rest := rest - multiset{i};
    }
  }

  method AddNames(items: multiset<Item>, dst: Ref, names: seq<string>) returns (r: multiset<Item>)
    ensures r == items + Named(dst, names)
  {
    r := items;
    for n := 0 to |names|
      invariant r == items + Named(dst, names[..n])
    {
      assert names[..n + 1][..n] == names[..n];
      r := r + multiset{Item(dst, names[n])};
    }
    assert names[..|names|] == names;
  }

  lemma RearrangedBag(v: multiset<Item>, r: multiset<Item>, m: multiset<Item>)
    ensures (v + m) + r == v + r + m && v + (r + m) == v + r + m
  {
  }

  // The entries that name src, and all others, after the substitution.
  lemma ReplacedData(values: multiset<Item>, rest: multiset<Item>, src: Ref, dst: Ref, names: seq<string>)
    requires src.base.Thk?
    requires forall i | i in values :: i.ref.base.Value?
    requires forall i | i in rest :: i.ref.base.Thk? && i.ref != src
    ensures var moved := Named(dst, names);
            var data := ApplyItems(map[src := dst], values + (rest + Named(src, names)));
            && OfType(data, true) == (if dst.base.Value? then values + moved else values)
            && OfType(data, false) == (if dst.base.Thk? then rest + moved else rest)
  {
    hide OfType, Named, Image;
    var f := Applier(map[src := dst]);
    var moved := Named(dst, names);
    RearrangedBag(values, rest, Named(src, names));
    ImageSum(f, values + rest, Named(src, names));
    ImageIdentity(f, values + rest);
    NamedImage(src, dst, names);
    RearrangedBag(values, rest, moved);
    if dst.base.Value? {
      SplitData(values + moved, rest);
    } else {
      SplitData(values, rest + moved);
    }
  }

  method ReplaceHole(texts: seq<Text>, src: Ref, dst: Ref) returns (r: seq<Text>)
    ensures r == ApplyTexts(map[src := dst], texts)
  {
    r := [];
    for j := 0 to |texts|
      invariant r == ApplyTexts(map[src := dst], texts)[..j]
    {
      r := r + [ApplyText(map[src := dst], texts[j])];
    }
  }

  /** Rewrites a thunk after original was reduced to outputs (Thunk::update_data): one round per
      output, the first output being known under the bare hash, the others under their tags. */
  method UpdateData(t: Thunk, original: Hash, outputs: seq<Output>) returns (r: Thunk)
    requires Split(t) && original.Thk? && outputs != []
    requires forall o | o in outputs :: o.hash != original
    ensures r == Subst(t, OutputSub(original, outputs))
    ensures Rewired(t, r, (x: Ref) => Successor(original, outputs, x))
  {
    hide Rewired, Successor;
    UpdateMoves(t, original, outputs);
    r := ReplaceRef(t, Untagged(original), Untagged(outputs[0].hash));
    assert outputs[..1] == [outputs[0]];
    for i := 1 to |outputs|
      invariant r == Subst(t, OutputSub(original, outputs[..i]))
    {
      var src := Ref(original, Tag(outputs[i].tag));
      var dst := NewRef(outputs[i]);
      ghost var before := OutputSub(original, outputs[..i]);
      DataOfSubst(t, before);
      r := ReplaceRef(r, src, dst);
      assert outputs[..i + 1][..i] == outputs[..i];
      assert OutputSub(original, outputs[..i + 1]) == map[src := dst] + before;
      forall x | x in Refs(t) ensures Apply(map[src := dst], Apply(before, x)) == Apply(map[src := dst] + before, x) {
        OutputSubShape(original, outputs[..i], x);
      }
      SubstCompose(t, before, map[src := dst], map[src := dst] + before);
    }
    assert outputs[..|outputs|] == outputs;
  }

  // ---------------------------------------------------------------- what a reduction does to a referrer

  lemma RefsOfType(items: multiset<Item>, value: bool, r: Ref)
    ensures r in ItemRefs(OfType(items, value)) <==> r in ItemRefs(items) && r.base.Value? == value
  {
    var kept := OfType(items, value);
    if r in ItemRefs(items) && r.base.Value? == value {
      var i :| i in items && i.ref == r;
      assert i in kept;
    }
    if r in ItemRefs(kept) {
      var i :| i in kept && i.ref == r;
      assert i in items;
    }
  }

  lemma DepsOfSubst(t: Thunk, s: Substitution, d: Hash)
    requires Split(t) && forall r | r in s :: r.base.Thk?
    ensures d in Deps(Subst(t, s)) <==> d.Thk? && exists r :: r in ItemRefs(t.thunks) && Apply(s, r).base == d
  {
    var data := ApplyItems(s, t.Data());
    if d in Deps(Subst(t, s)) {
      var r' :| r' in ItemRefs(OfType(data, false)) && r'.base == d;
      RefsOfType(data, false, r');
      ItemsOfSubst(t.Data(), s, r');
      var r :| r in ItemRefs(t.Data()) && Apply(s, r) == r';
      DataRefs(t, r);
    }
    if d.Thk? && exists r :: r in ItemRefs(t.thunks) && Apply(s, r).base == d {
      var r :| r in ItemRefs(t.thunks) && Apply(s, r).base == d;
      DataRefs(t, r);
      assert IsImage(s, ItemRefs(t.Data()), Apply(s, r));
      ItemsOfSubst(t.Data(), s, Apply(s, r));
      RefsOfType(data, false, Apply(s, r));
    }
  }

  lemma DataRefs(t: Thunk, r: Ref)
    ensures r in ItemRefs(t.Data()) <==> r in ItemRefs(t.values) || r in ItemRefs(t.thunks)
  {
  }

  // Every tag t uses for gone is among the tags of the outputs.
  ghost predicate Listed(t: Thunk, gone: Hash, outputs: seq<Output>) {
    forall r | r in Needs(t) && r.base == gone && r.sel.Tag? ::
        exists i :: 1 <= i < |outputs| && outputs[i].tag == r.sel.tag
  }

  lemma WhereRefsGo(t: Thunk, gone: Hash, outputs: seq<Output>, r: Ref)
    requires outputs != [] && Listed(t, gone, outputs) && gone.Thk? && r in Refs(t)
    ensures var r' := Apply(OutputSub(gone, outputs), r);
            if r.base == gone then (exists o :: o in outputs && r'.base == o.hash) &&
                r'.sel == (if r'.base.Value? then First else r.sel)
            else r' == r
  {
    OutputSubShape(gone, outputs, r);
  }

  lemma SubKeys(gone: Hash, outputs: seq<Output>)
    requires gone.Thk?
    ensures forall r | r in OutputSub(gone, outputs) :: r.base.Thk?
  {
    forall r | r in OutputSub(gone, outputs) ensures r.base.Thk? { OutputSubShape(gone, outputs, r); }
  }

  // The thunk t depends on once gone has become next.
  function MovedDeps(deps: set<Hash>, gone: Hash, next: Hash): set<Hash> {
    if gone !in deps then deps else if next.Thk? then deps - {gone} + {next} else deps - {gone}
  }

  // The outputs of a reduction: all values, or all outputs of one thunk called next.
  ghost predicate Uniform(outputs: seq<Output>, next: Hash) {
    outputs != [] && forall o | o in outputs :: if next.Value? then o.hash.Value? else o.hash == next
  }

  ghost predicate Moves(s: Substitution, refs: set<Ref>, gone: Hash, next: Hash) {
    forall r | r in refs ::
      if r.base != gone then Apply(s, r) == r
      else if next.Thk? then Apply(s, r).base == next else Apply(s, r).base.Value?
  }

  lemma MovedBases(s: Substitution, refs: set<Ref>, gone: Hash, next: Hash, d: Hash)
    requires Moves(s, refs, gone, next) && forall r | r in refs :: r.base.Thk?
    ensures (d.Thk? && exists r :: r in refs && Apply(s, r).base == d) <==> d in MovedDeps(Bases(refs), gone, next)
  {
    if d in Bases(refs) && d != gone {
      var r :| r in refs && r.base == d;
      assert Apply(s, r).base == d;
    }
    if gone in Bases(refs) && d == next && next.Thk? {
      var r :| r in refs && r.base == gone;
      assert Apply(s, r).base == next;
    }
  }

  lemma MovedDep(t: Thunk, s: Substitution, gone: Hash, next: Hash, d: Hash)
    requires Split(t) && forall r | r in s :: r.base.Thk?
    requires Moves(s, ItemRefs(t.thunks), gone, next)
    ensures d in Deps(Subst(t, s)) <==> d in MovedDeps(Deps(t), gone, next)
  {
    DepsOfSubst(t, s, d);
    MovedBases(s, ItemRefs(t.thunks), gone, next, d);
  }

  lemma MovedRef(t: Thunk, gone: Hash, outputs: seq<Output>, next: Hash, r: Ref)
    requires TidyThunk(t) && gone.Thk? && Uniform(outputs, next) && Listed(t, gone, outputs)
    requires forall r | r in Needs(t) && r.base == gone && r.sel.Tag? &&
               next.Thk? :: r.sel.tag in Tail(next.thunk.outputs)
    requires r in Needs(Subst(t, OutputSub(gone, outputs)))
    ensures TagFits(r, t.outputs) && r.base in MovedDeps(Deps(t), gone, next)
  {
    var s := OutputSub(gone, outputs);
    RefsOfSubst(t, s, r);
    var r0 :| r0 in Refs(t) && Apply(s, r0) == r;
    WhereRefsGo(t, gone, outputs, r0);
    assert r0 in Needs(t);
  }

  // Substituting the outputs of gone keeps a thunk tidy and moves exactly the dependency on gone.
  lemma MovedTidy(t: Thunk, gone: Hash, outputs: seq<Output>, next: Hash)
    requires TidyThunk(t) && gone.Thk? && Uniform(outputs, next) && Listed(t, gone, outputs)
    requires forall r | r in Needs(t) && r.base == gone && r.sel.Tag? &&
               next.Thk? :: r.sel.tag in Tail(next.thunk.outputs)
    ensures var u := Subst(t, OutputSub(gone, outputs));
            TidyThunk(u) && Deps(u) == MovedDeps(Deps(t), gone, next)
  {
    var u := Subst(t, OutputSub(gone, outputs));
    DataOfSubst(t, OutputSub(gone, outputs));
    SubKeys(gone, outputs);
    forall r | r in ItemRefs(t.thunks) { WhereRefsGo(t, gone, outputs, r); }
    forall d ensures d in Deps(u) <==> d in MovedDeps(Deps(t), gone, next) {
      MovedDep(t, OutputSub(gone, outputs), gone, next, d);
    }
    forall r | r in Needs(u) ensures TagFits(r, u.outputs) && r.base in MovedDeps(Deps(t), gone, next) {
      MovedRef(t, gone, outputs, next, r);
    }
  }

  // ---------------------------------------------------------------- what update_data conserves

  function NameOf(): Item -> string { (i: Item) => i.name }

  // Entries may change list, but none is lost, none is added and every one keeps its name.
  lemma SubstConserves(t: Thunk, s: Substitution)
    ensures var u := Subst(t, s);
            && |u.values| + |u.thunks| == |t.values| + |t.thunks|
            && Image(NameOf(), u.Data()) == Image(NameOf(), t.Data())
  {
    DataOfSubst(t, s);
    var data := ApplyItems(s, t.Data());
    assert |data| == |t.Data()|;
    assert |t.Data()| == |t.values| + |t.thunks|;
    ImageCompose(Applier(s), NameOf(), NameOf(), t.Data());
  }

  // The rewriting knows what r, a reference to the reduced thunk, has become.
  ghost predicate Covered(outputs: seq<Output>, r: Ref) {
    r.sel.Tag? ==> exists i :: 1 <= i < |outputs| && outputs[i].tag == r.sel.tag
  }

  lemma RefLeaves(original: Hash, outputs: seq<Output>, r: Ref)
    requires original.Thk? && outputs != [] && forall o | o in outputs :: o.hash != original
    ensures Apply(OutputSub(original, outputs), r).base == original <==> r.base == original && !Covered(outputs, r)
  {
    OutputSubShape(original, outputs, r);
  }

  // The reduced thunk is not referred to any more just when every tag it was referred to by is
  // among the tags the rewriting was given.
  lemma OriginalGoneIff(t: Thunk, original: Hash, outputs: seq<Output>)
    requires original.Thk? && outputs != [] && forall o | o in outputs :: o.hash != original
    ensures (forall r | r in Refs(Subst(t, OutputSub(original, outputs))) :: r.base != original) <==>
            (forall r | r in Refs(t) && r.base == original :: Covered(outputs, r))
  {
    hide OutputSub, Subst, Refs, Covered;
    var s := OutputSub(original, outputs);
    var u := Subst(t, s);
    forall r ensures r in Refs(u) <==> IsImage(s, Refs(t), r) { RefsOfSubst(t, s, r); }
    forall r | r in Refs(t) ensures Apply(s, r) in Refs(u) &&
        (Apply(s, r).base == original <==> r.base == original && !Covered(outputs, r)) {
      RefLeaves(original, outputs, r);
      assert IsImage(s, Refs(t), Apply(s, r));
    }
  }
}

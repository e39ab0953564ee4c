// Images of multisets under a function.
module Bags {
  ghost function Some<T>(b: multiset<T>): (x: T)
    requires b != multiset{}
    ensures x in b
  {
    var x :| x in b; x
  }

  ghost function Image<T, U>(f: T -> U, b: multiset<T>): (r: multiset<U>)
    ensures |r| == |b|
    decreases |b|
  {
    if b == multiset{} then multiset{}
    else
      var x := Some(b);
      Image(f, b - multiset{x}) + multiset{f(x)}
  }

  lemma ImageTake<T, U>(f: T -> U, b: multiset<T>)
    requires b != multiset{}
    ensures Image(f, b) == Image(f, b - multiset{Some(b)}) + multiset{f(Some(b))}
  {
  }

  lemma {:induction false} ImageAdd<T, U>(f: T -> U, b: multiset<T>, x: T)
    ensures Image(f, b + multiset{x}) == Image(f, b) + multiset{f(x)}
    decreases |b|
  {
    hide Image;
    var all := b + multiset{x};
    var i := Some(all);
    ImageTake(f, all);
    if i == x {
      assert all - multiset{i} == b;
    } else {
      var less := b - multiset{i};
      assert all - multiset{i} == less + multiset{x};
      assert b == less + multiset{i};
      ImageAdd(f, less, x);
      ImageAdd(f, less, i);
      var m := Image(f, less);
      assert Image(f, all) == (m + multiset{f(x)}) + multiset{f(i)};
      assert Image(f, b) == m + multiset{f(i)};
    }
  }

  lemma {:induction false} ImageSum<T, U>(f: T -> U, a: multiset<T>, b: multiset<T>)
    ensures Image(f, a + b) == Image(f, a) + Image(f, b)
    decreases |b|
  {
    if b == multiset{} {
      assert a + b == a;
    } else {
      var i := Some(b);
      var less := b - multiset{i};
      assert b == less + multiset{i};
      assert a + b == (a + less) + multiset{i};
      ImageAdd(f, a + less, i);
      ImageAdd(f, less, i);
      ImageSum(f, a, less);
    }
  }

  lemma {:induction false} ImageCompose<T, U, V>(f: T -> U, g: U -> V, h: T -> V, b: multiset<T>)
    requires forall x | x in b :: g(f(x)) == h(x)
    ensures Image(g, Image(f, b)) == Image(h, b)
    decreases |b|
  {
    if b != multiset{} {
      var x := Some(b);
      var less := b - multiset{x};
      ImageCompose(f, g, h, less);
      ImageAdd(g, Image(f, less), f(x));
    }
  }

  lemma {:induction false} ImageIdentity<T>(f: T -> T, b: multiset<T>)
    requires forall x | x in b :: f(x) == x
    ensures Image(f, b) == b
    decreases |b|
  {
    if b != multiset{} {
      var x := Some(b);
      var less := b - multiset{x};
      ImageIdentity(f, less);
      assert less + multiset{x} == b;
    }
  }

  lemma {:induction false} ImageMember<T, U>(f: T -> U, b: multiset<T>, y: U)
    ensures y in Image(f, b) <==> exists x :: x in b && f(x) == y
    decreases |b|
  {
    if b != multiset{} {
      var x := Some(b);
      ImageMember(f, b - multiset{x}, y);
    }
  }

  // The elements that satisfy p, as often as they occur.
  ghost function Select<T(!new)>(p: T -> bool, b: multiset<T>): (r: multiset<T>)
    ensures forall x :: r[x] == if p(x) then b[x] else 0
    decreases |b|
  {
    if b == multiset{} then multiset{}
    else
      var x := Some(b);
      var rest := Select(p, b - multiset{x});
      if p(x) then rest + multiset{x} else rest
  }

  lemma SelectAdd<T(!new)>(p: T -> bool, b: multiset<T>, x: T)
    ensures Select(p, b + multiset{x}) == Select(p, b) + if p(x) then multiset{x} else multiset{}
  {
    hide Select;
  }

  // y occurs in the image as often as there are elements that f takes to y.
  lemma {:induction false} ImageCount<T(!new), U>(f: T -> U, b: multiset<T>, y: U, p: T -> bool)
    requires forall x :: p(x) <==> f(x) == y
    ensures Image(f, b)[y] == |Select(p, b)|
    decreases |b|
  {
    hide Select;
    if b == multiset{} {
      assert Select(p, b) == multiset{};
    } else {
      var x := Some(b);
      var less := b - multiset{x};
      ImageCount(f, less, y, p);
      assert less + multiset{x} == b;
      SelectAdd(p, less, x);
    }
  }
}

/** Parts of a sequence in its order. */
module Subsequences {
  import opened Wrappers
  import opened Runs

  predicate Sub<T(==)>(a: seq<T>, b: seq<T>) {
    || a == []
    || (b != [] && ((a[|a| - 1] == b[|b| - 1] && Sub(a[..|a| - 1], b[..|b| - 1])) || Sub(a, b[..|b| - 1])))
  }

  lemma SubGrows<T>(a: seq<T>, b: seq<T>, x: T)
    requires Sub(a, b)
    ensures Sub(a, b + [x]) && Sub(a + [x], b + [x])
  {
    assert (b + [x])[..|b|] == b && (a + [x])[..|a|] == a;
  }

  lemma {:induction false} SubRefl<T>(a: seq<T>)
    ensures Sub(a, a)
  {
    if a == [] {
    } else {
      SubRefl(a[..|a| - 1]);
    }
  }

  lemma {:induction false} SubTrans<T>(a: seq<T>, b: seq<T>, c: seq<T>)
    requires Sub(a, b) && Sub(b, c)
    ensures Sub(a, c)
    decreases |c|
  {
    if a == [] || b == [] {
    } else if b[|b| - 1] == c[|c| - 1] && Sub(b[..|b| - 1], c[..|c| - 1]) {
      if a[|a| - 1] == b[|b| - 1] && Sub(a[..|a| - 1], b[..|b| - 1]) {
        SubTrans(a[..|a| - 1], b[..|b| - 1], c[..|c| - 1]);
      } else {
        SubTrans(a, b[..|b| - 1], c[..|c| - 1]);
      }
    } else {
      SubTrans(a, b, c[..|c| - 1]);
    }
  }

  lemma SubAppend<T>(a: seq<T>, b: seq<T>, x: Option<T>, y: Option<T>)
    requires Sub(a, b) && (x.Some? ==> y == x)
    ensures Sub(a + One(x), b + One(y))
  {
    if y.Some? {
      SubGrows(a, b, y.value);
    }
    assert b + [] == b && a + [] == a;
  }

  /** What is read off a part is a part of what is read off the whole. */
  lemma {:induction false} SubCollect<A, B>(f: A -> Option<B>, a: seq<A>, b: seq<A>)
    requires Sub(a, b)
    ensures Sub(Collect(f, a), Collect(f, b))
    decreases |b|
  {
    if a == [] {
    } else {
      var b0 := b[..|b| - 1];
      if a[|a| - 1] == b[|b| - 1] && Sub(a[..|a| - 1], b0) {
        SubCollect(f, a[..|a| - 1], b0);
        SubAppend(Collect(f, a[..|a| - 1]), Collect(f, b0), f(a[|a| - 1]), f(b[|b| - 1]));
      } else {
        SubCollect(f, a, b0);
        SubAppend(Collect(f, a), Collect(f, b0), None, f(b[|b| - 1]));
        assert Collect(f, a) + One(None) == Collect(f, a);
      }
    }
  }

  /** Reading off less gives a part. */
  lemma {:induction false} SubLess<A, B>(f: A -> Option<B>, g: A -> Option<B>, xs: seq<A>)
    requires forall x :: x in xs && f(x).Some? ==> g(x) == f(x)
    ensures Sub(Collect(f, xs), Collect(g, xs))
  {
    if xs == [] {
    } else {
      var rest, x := xs[..|xs| - 1], xs[|xs| - 1];
      SubLess(f, g, rest);
      assert x in xs;
      SubAppend(Collect(f, rest), Collect(g, rest), f(x), g(x));
    }
  }
}

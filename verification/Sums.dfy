/** Sums of an integer-valued function over a sequence, and the two wrappers the model shares. */
module Sums {

  datatype Option<+T> = None | Some(value: T)

  datatype Result<+T, +E> = Ok(value: T) | Err(error: E) {
    predicate IsFailure() { Err? }
    function PropagateFailure<U>(): Result<U, E>
      requires Err?
    {
      Err(error)
    }
    function Extract(): T
      requires Ok?
    {
      value
    }
  }

  function Min(a: int, b: int): int { if a <= b then a else b }

  function Sum<T>(s: seq<T>, f: T -> int): int {
    if s == [] then 0 else Sum(s[..|s| - 1], f) + f(s[|s| - 1])
  }

  lemma SumSnoc<T>(s: seq<T>, x: T, f: T -> int)
    ensures Sum(s + [x], f) == Sum(s, f) + f(x)
  {
    assert (s + [x])[..|s|] == s;
  }

  lemma {:induction false} SumConcat<T>(s: seq<T>, t: seq<T>, f: T -> int)
    ensures Sum(s + t, f) == Sum(s, f) + Sum(t, f)
  {
    if t == [] {
      assert s + t == s;
    } else {
      var t0, x := t[..|t| - 1], t[|t| - 1];
      assert s + t == (s + t0) + [x];
      SumSnoc(s + t0, x, f);
      SumConcat(s, t0, f);
    }
  }

  /** Replacing one element changes the sum by exactly the difference of its values. */
  lemma {:induction false} SumUpdate<T>(s: seq<T>, i: nat, x: T, f: T -> int)
    requires i < |s|
    ensures Sum(s[i := x], f) == Sum(s, f) - f(s[i]) + f(x)
  {
    var a, b := s[..i], s[i + 1..];
    assert s == a + [s[i]] + b && s[i := x] == a + [x] + b;
    SumConcat(a + [s[i]], b, f);
    SumConcat(a + [x], b, f);
    SumSnoc(a, s[i], f);
    SumSnoc(a, x, f);
  }

  lemma {:induction false} SumEqual<T>(s: seq<T>, f: T -> int, g: T -> int)
    requires forall x | x in s :: f(x) == g(x)
    ensures Sum(s, f) == Sum(s, g)
  {
    if s != [] {
      SumEqual(s[..|s| - 1], f, g);
    }
  }

  lemma {:induction false} SumZero<T>(s: seq<T>, f: T -> int)
    requires forall x | x in s :: f(x) == 0
    ensures Sum(s, f) == 0
  {
    if s != [] {
      SumZero(s[..|s| - 1], f);
    }
  }

  lemma {:induction false} SumPlus<T>(s: seq<T>, f: T -> int, g: T -> int, h: T -> int)
    requires forall x | x in s :: f(x) == g(x) + h(x)
    ensures Sum(s, f) == Sum(s, g) + Sum(s, h)
  {
    if s != [] {
      SumPlus(s[..|s| - 1], f, g, h);
    }
  }

  lemma {:induction false} SumAtMost<T>(s: seq<T>, f: T -> int, g: T -> int)
    requires forall x | x in s :: f(x) <= g(x)
    ensures Sum(s, f) <= Sum(s, g)
  {
    if s != [] {
      SumAtMost(s[..|s| - 1], f, g);
    }
  }

  lemma {:induction false} SumNonNegative<T>(s: seq<T>, f: T -> int)
    requires forall x | x in s :: 0 <= f(x)
    ensures 0 <= Sum(s, f)
  {
    if s != [] {
      SumNonNegative(s[..|s| - 1], f);
    }
  }

  /** A sum does not depend on the order of its terms. */
  lemma {:induction false} SumPermuted<T>(s: seq<T>, t: seq<T>, f: T -> int)
    requires multiset(s) == multiset(t)
    ensures Sum(s, f) == Sum(t, f)
  {
    if s == [] {
      assert |multiset(t)| == 0;
    } else {
      var init, x := s[..|s| - 1], s[|s| - 1];
      var a, b := SplitAt(init, x, s, t);
      SumPermuted(init, a + b, f);
      SumConcat(a + [x], b, f);
      SumConcat(a, b, f);
      SumSnoc(a, x, f);
    }
  }

  lemma SplitAt<T>(init: seq<T>, x: T, s: seq<T>, t: seq<T>) returns (a: seq<T>, b: seq<T>)
    requires s != [] && init == s[..|s| - 1] && x == s[|s| - 1] && multiset(s) == multiset(t)
    ensures t == a + [x] + b && multiset(init) == multiset(a + b)
  {
    assert s == init + [x] + [] && init + [] == init;
    Without(init, x, []);
    assert x in multiset(t);
    var i :| 0 <= i < |t| && t[i] == x;
    a, b := t[..i], t[i + 1..];
    assert t == a + [x] + b;
    Without(a, x, b);
  }

  lemma Without<T>(a: seq<T>, x: T, b: seq<T>)
    ensures multiset(a + b) == multiset(a + [x] + b) - multiset{x} && x in multiset(a + [x] + b)
  {
    assert multiset(a + [x] + b) == multiset(a + b) + multiset{x};
  }

  /** Two pointwise ordered functions with equal sums agree on every element. */
  lemma {:induction false} SumTight<T>(s: seq<T>, f: T -> int, g: T -> int)
    requires forall x | x in s :: f(x) <= g(x)
    requires Sum(s, f) == Sum(s, g)
    ensures forall x | x in s :: f(x) == g(x)
  {
    if s != [] {
      SumAtMost(s[..|s| - 1], f, g);
      SumTight(s[..|s| - 1], f, g);
      forall x | x in s
        ensures f(x) == g(x)
      {
        var i :| 0 <= i < |s| && s[i] == x;
        assert i < |s| - 1 ==> x == s[..|s| - 1][i];
      }
    }
  }
}

/** Sequences that keep the order of a longer one. */
module Subsequences {

  /** The elements of `a`, in order, are among those of `b`. */
  predicate IsSubsequence<T(==)>(a: seq<T>, b: seq<T>) {
    a == [] || (b != [] && (
      || (a[|a| - 1] == b[|b| - 1] && IsSubsequence(a[..|a| - 1], b[..|b| - 1]))
      || IsSubsequence(a, b[..|b| - 1])))
  }

  lemma {:induction false} Reflexive<T>(a: seq<T>)
    ensures IsSubsequence(a, a)
  {
    if a != [] {
      Reflexive(a[..|a| - 1]);
    }
  }

  lemma {:induction false} Transitive<T>(a: seq<T>, b: seq<T>, c: seq<T>)
    requires IsSubsequence(a, b) && IsSubsequence(b, c)
    ensures IsSubsequence(a, c)
    decreases |c|, |b|
  {
    if a == [] {
    } else if b[|b| - 1] == c[|c| - 1] && IsSubsequence(b[..|b| - 1], c[..|c| - 1]) {
      if a[|a| - 1] == b[|b| - 1] && IsSubsequence(a[..|a| - 1], b[..|b| - 1]) {
        Transitive(a[..|a| - 1], b[..|b| - 1], c[..|c| - 1]);
      } else {
        Transitive(a, b[..|b| - 1], c[..|c| - 1]);
      }
    } else {
      Transitive(a, b, c[..|c| - 1]);
    }
  }

  lemma FrontOfConcat<T>(a: seq<T>, b: seq<T>)
    requires b != []
    ensures (a + b)[..|a + b| - 1] == a + b[..|b| - 1]
    ensures (a + b)[|a + b| - 1] == b[|b| - 1]
  {
  }

  lemma PrefixOfFront<T>(xs: seq<T>, k: nat)
    requires k < |xs|
    ensures xs[..|xs| - 1][..k] == xs[..k]
  {
  }

  /** Subsequences can be put one after the other. */
  lemma {:induction false} Concatenates<T>(a: seq<T>, b: seq<T>, c: seq<T>, d: seq<T>)
    requires IsSubsequence(a, b) && IsSubsequence(c, d)
    ensures IsSubsequence(a + c, b + d)
    decreases |d|
  {
    if d == [] {
      assert a + c == a && b + d == b;
    } else if c == [] {
      Concatenates(a, b, c, d[..|d| - 1]);
      FrontOfConcat(b, d);
    } else {
      FrontOfConcat(b, d);
      FrontOfConcat(a, c);
      if c[|c| - 1] == d[|d| - 1] && IsSubsequence(c[..|c| - 1], d[..|d| - 1]) {
        Concatenates(a, b, c[..|c| - 1], d[..|d| - 1]);
      } else {
        Concatenates(a, b, c, d[..|d| - 1]);
      }
    }
  }

  /** A first element can be kept or dropped. */
  lemma KeepOrDropFirst<T>(x: T, a: seq<T>, b: seq<T>)
    requires IsSubsequence(a, b)
    ensures IsSubsequence([x] + a, [x] + b) && IsSubsequence(a, [x] + b)
  {
    Reflexive([x]);
    Concatenates([x], [x], a, b);
    Concatenates([], [x], a, b);
    assert [] + a == a;
  }
}

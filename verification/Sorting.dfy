/** sort.Slice with a less function on strings: some permutation in the order of the strings. */
module Sorting {
  import opened Common
  import opened Kube

  ghost predicate Sorted<T>(xs: seq<T>, text: T -> string) {
    forall i, j :: 0 <= i < j < |xs| ==> !StringLess(text(xs[j]), text(xs[i]))
  }

  lemma {:induction false} NotLessIsTransitive(a: string, b: string, c: string)
    requires !StringLess(b, a) && !StringLess(c, b)
    ensures !StringLess(c, a)
  {
    if a != [] && b != [] && c != [] && a[0] == b[0] == c[0] {
      NotLessIsTransitive(a[1..], b[1..], c[1..]);
    }
  }

  lemma {:induction false} LessOneWay(a: string, b: string)
    ensures !(StringLess(a, b) && StringLess(b, a))
  {
    if a != [] && b != [] {
      LessOneWay(a[1..], b[1..]);
    }
  }

  /** What comes first: a beginning of the other string, or the smaller byte at the first difference. */
  lemma {:induction false} LessExactlyWhen(a: string, b: string)
    ensures StringLess(a, b) <==>
      exists n :: 0 <= n <= |a| && n < |b| && a[..n] == b[..n] && (n < |a| ==> a[n] < b[n])
  {
    if a != [] && b != [] && a[0] == b[0] {
      LessExactlyWhen(a[1..], b[1..]);
      if n :| 0 <= n <= |a| && n < |b| && a[..n] == b[..n] && (n < |a| ==> a[n] < b[n]) {
        assert n > 0;
        assert a[1..][..n - 1] == a[..n][1..] && b[1..][..n - 1] == b[..n][1..];
      }
      if n :| 0 <= n <= |a[1..]| && n < |b[1..]| && a[1..][..n] == b[1..][..n] &&
              (n < |a[1..]| ==> a[1..][n] < b[1..][n])
      {
        assert a[..n + 1] == [a[0]] + a[1..][..n] && b[..n + 1] == [b[0]] + b[1..][..n];
      }
    } else if a == [] && b != [] {
      assert a[..0] == b[..0];
    } else if a != [] && b != [] {
      forall n | 0 < n <= |a| && n < |b| ensures a[..n] != b[..n] {
        assert a[..n][0] == a[0] && b[..n][0] == b[0];
      }
      assert a[..0] == b[..0];
    }
  }

  method Sort<T(==)>(xs: seq<T>, text: T -> string) returns (r: seq<T>)
    ensures multiset(r) == multiset(xs)
    ensures Sorted(r, text)
  {
    hide Sorted, StringLess;
    r := [];
    assert Sorted(r, text) by { NothingIsSorted(text); }
    for n := 0 to |xs|
      invariant multiset(r) == multiset(xs[..n])
      invariant Sorted(r, text)
    {
      var x, i := xs[n], 0;
      while i < |r| && !StringLess(text(x), text(r[i]))
        invariant i <= |r|
        invariant forall j :: 0 <= j < i ==> !StringLess(text(x), text(r[j]))
      {
        i := i + 1;
      }
      Insert(r, text, x, i);
      InsertCounts(r, x, i);
      r := r[..i] + [x] + r[i..];
      assert xs[..n + 1] == xs[..n] + [x];
    }
    assert xs[..|xs|] == xs;
  }

  lemma NothingIsSorted<T>(text: T -> string)
    ensures Sorted([], text)
  {
  }

  lemma InsertCounts<T>(r: seq<T>, x: T, i: nat)
    requires i <= |r|
    ensures multiset(r[..i] + [x] + r[i..]) == multiset(r) + multiset{x}
  {
    assert r == r[..i] + r[i..];
  }

  lemma Insert<T>(r: seq<T>, text: T -> string, x: T, i: nat)
    requires Sorted(r, text) && i <= |r|
    requires forall j :: 0 <= j < i ==> !StringLess(text(x), text(r[j]))
    requires i < |r| ==> StringLess(text(x), text(r[i]))
    ensures Sorted(r[..i] + [x] + r[i..], text)
  {
    if i < |r| {
      LessOneWay(text(x), text(r[i]));
      forall j | i <= j < |r| ensures !StringLess(text(r[j]), text(x)) {
        if i < j {
          NotLessIsTransitive(text(x), text(r[i]), text(r[j]));
        }
      }
    }
  }

  /** A permutation of a list without duplicates has the same elements, once each. */
  lemma PermutationFacts<T(!new)>(r: seq<T>, xs: seq<T>)
    requires multiset(r) == multiset(xs)
    ensures forall x :: x in r <==> x in xs
    ensures Distinct(xs) ==> Distinct(r)
  {
    forall x ensures x in r <==> x in xs {
      assert x in multiset(r) <==> x in multiset(xs);
    }
    OnceEach(xs);
    OnceEach(r);
  }

  lemma {:induction false} OnceEach<T(!new)>(xs: seq<T>)
    ensures Distinct(xs) <==> forall x :: multiset(xs)[x] <= 1
  {
    if xs != [] {
      var n := |xs| - 1;
      OnceEach(xs[..n]);
      assert xs == xs[..n] + [xs[n]];
      assert forall x :: multiset(xs)[x] == multiset(xs[..n])[x] + (if x == xs[n] then 1 else 0);
      assert Distinct(xs) <==> Distinct(xs[..n]) && xs[n] !in xs[..n] by {
        if Distinct(xs[..n]) && xs[n] !in xs[..n] {
          forall i, j | 0 <= i < j < |xs| ensures xs[i] != xs[j] {
            assert xs[i] == xs[..n][i];
            if j < n { assert xs[j] == xs[..n][j]; }
          }
        }
      }
      assert xs[n] in xs[..n] <==> multiset(xs[..n])[xs[n]] > 0;
    }
  }
}

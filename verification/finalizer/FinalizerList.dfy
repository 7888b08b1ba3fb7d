/** The loop in removeFinalizer (pkg/generic/remove.go), which shifts a slice while ranging over it. */
module FinalizerList {
  import opened Common

  /** append(a[:k], a[k+1:]...) on a slice with that backing array: everything after k moves down by
      one, and the last place keeps its old value. */
  function ShiftAt(a: seq<string>, k: nat): seq<string>
    requires k < |a|
  {
    a[..k] + a[k + 1..] + [a[|a| - 1]]
  }

  /** The backing array after the rest of the loop, from index k on.  The range goes over the old length
      and reads each place only when it gets there. */
  function Shifted(a: seq<string>, key: string, k: nat): (r: seq<string>)
    ensures |r| == |a|
    decreases |a| - k
  {
    if k >= |a| then a
    else if a[k] == key then Shifted(ShiftAt(a, k), key, k + 1)
    else Shifted(a, key, k + 1)
  }

  /** The list removeFinalizer stores: all but the last place of the array, if the key was met at all. */
  function Removed(a: seq<string>, key: string): seq<string> {
    if key in a then Shifted(a, key, 0)[..|a| - 1] else []
  }

  /** append(a[:k], a[k+1:]...) as a loop over the backing array. */
  method ShiftDown(a: array<string>, k: nat)
    requires k < a.Length
    modifies a
    ensures a[..] == ShiftAt(old(a[..]), k)
  {
    ghost var before := a[..];
    var n := a.Length;
    for j := k to n - 1
      invariant forall i :: 0 <= i < k ==> a[i] == before[i]
      invariant forall i :: k <= i < j ==> a[i] == before[i + 1]
      invariant forall i :: j <= i < n ==> a[i] == before[i]
    {
      a[j] := a[j + 1];
    }
    assert |ShiftAt(before, k)| == n;
    forall i | 0 <= i < n ensures a[i] == ShiftAt(before, k)[i] {
    }
  }

  method RemoveInPlace(finalizers: array<string>, key: string) returns (length: nat)
    modifies finalizers
    ensures length <= finalizers.Length
    ensures finalizers[..] == Shifted(old(finalizers[..]), key, 0)
    ensures finalizers[..length] == Removed(old(finalizers[..]), key)
  {
    hide ShiftAt;
    length := 0;
    var n := finalizers.Length;
    ghost var met := false;
    for k := 0 to n
      invariant length == if met then n - 1 else 0
      invariant met ==> key in old(finalizers[..])
      invariant !met ==> finalizers[..] == old(finalizers[..]) && key !in old(finalizers[..k])
      invariant Shifted(finalizers[..], key, k) == Shifted(old(finalizers[..]), key, 0)
    {
      if finalizers[k] == key {
        assert met || old(finalizers[..])[k] == key;
        ShiftDown(finalizers, k);
        length := n - 1;
        met := true;
      }
    }
    assert old(finalizers[..n]) == old(finalizers[..]);
  }

  // -------- what the loop computes --------

  lemma {:induction false} CountSnoc(a: seq<string>, y: string, x: string)
    ensures Count(a + [y], x) == Count(a, x) + (if y == x then 1 else 0)
  {
    if a == [] {
      assert a + [y] == [y];
    } else {
      CountSnoc(a[1..], y, x);
      assert (a + [y])[1..] == a[1..] + [y];
    }
  }

  lemma {:induction false} WithoutFacts(a: seq<string>, x: string)
    ensures |Without(a, x)| == |a| - Count(a, x)
    ensures Count(a, x) == 0 <==> x !in a
    ensures x !in a ==> Without(a, x) == a
  {
    if a != [] {
      WithoutFacts(a[1..], x);
      assert a == [a[0]] + a[1..];
    }
  }

  lemma {:induction false} OtherCount(a: seq<string>, x: string, y: string)
    requires x != y
    ensures Count(Without(a, x), y) == Count(a, y)
  {
    if a != [] {
      OtherCount(a[1..], x, y);
      var rest := Without(a[1..], x);
      if a[0] == x {
        assert Without(a, x) == rest;
      } else {
        assert Without(a, x) == [a[0]] + rest && ([a[0]] + rest)[1..] == rest;
      }
    }
  }

  lemma {:induction false} NothingToShift(a: seq<string>, key: string, k: nat)
    requires forall i :: k <= i < |a| ==> a[i] != key
    ensures Shifted(a, key, k) == a
    decreases |a| - k
  {
    if k < |a| {
      NothingToShift(a, key, k + 1);
    }
  }

  lemma {:induction false} OneToShift(a: seq<string>, key: string, k: nat, at: nat)
    requires k <= at < |a| && a[at] == key
    requires forall i :: 0 <= i < |a| && i != at ==> a[i] != key
    ensures Shifted(a, key, k)[..|a| - 1] == a[..at] + a[at + 1..]
    decreases at - k
  {
    if k < at {
      OneToShift(a, key, k + 1, at);
    } else {
      var s := ShiftAt(a, at);
      NothingToShift(s, key, at + 1);
      assert s[..|a| - 1] == a[..at] + a[at + 1..];
    }
  }

  /** Where the only copy is, and what is left without it. */
  lemma {:induction false} OneCopy(a: seq<string>, key: string) returns (at: nat)
    requires Count(a, key) == 1
    ensures at < |a| && a[at] == key
    ensures forall i :: 0 <= i < |a| && i != at ==> a[i] != key
    ensures Without(a, key) == a[..at] + a[at + 1..]
  {
    var rest := a[1..];
    if a[0] == key {
      at := 0;
      WithoutFacts(rest, key);
      forall i | 0 < i < |a| ensures a[i] != key {
        assert a[i] == rest[i - 1];
      }
      assert [] + rest == rest == a[..0] + a[1..];
    } else {
      var before := OneCopy(rest, key);
      at := before + 1;
      forall i | 0 <= i < |a| && i != at ensures a[i] != key {
        assert i > 0 ==> a[i] == rest[i - 1];
      }
      assert [a[0]] + (rest[..before] + rest[before + 1..]) == a[..at] + a[at + 1..];
    }
  }

  /** The loop removes the finalizer, and every copy of it, and nothing else, exactly when there is one
      copy.  With more, it stores a list of the wrong length. */
  lemma RemovesExactlyWhen(a: seq<string>, key: string)
    requires key in a
    ensures Removed(a, key) == Without(a, key) <==> Count(a, key) == 1
  {
    WithoutFacts(a, key);
    if Count(a, key) == 1 {
      hide Without, Count;
      var at := OneCopy(a, key);
      OneToShift(a, key, 0, at);
    }
  }

  /** With two copies the result can even be a list without the finalizer but with another one doubled. */
  lemma TwoCopiesGoWrong()
    ensures Removed(["a", "k", "a", "k", "b"], "k") == ["a", "a", "b", "b"]
  {
    var s0 := ["a", "k", "a", "k", "b"];
    var s1 := ["a", "a", "k", "b", "b"];
    assert ShiftAt(s0, 1) == s1;
    assert ShiftAt(s1, 2) == ["a", "a", "b", "b", "b"];
    assert Shifted(s0, "k", 1) == Shifted(s1, "k", 2);
    assert Shifted(s1, "k", 2) == Shifted(["a", "a", "b", "b", "b"], "k", 3);
    NothingToShift(["a", "a", "b", "b", "b"], "k", 3);
  }
}

// Shared vocabulary: optional values, duplicate-free sequences, filtering.

module Basics {

  datatype Option<+T> = None | Some(value: T)

  ghost predicate NoDup<T>(s: seq<T>) {
    forall i, k :: 0 <= i < k < |s| ==> s[i] != s[k]
  }

  // `[item for item in s if item not in drop]`
  function Without<T(==, !new)>(s: seq<T>, drop: set<T>): (r: seq<T>)
    ensures forall x :: x in r <==> x in s && x !in drop
    ensures |r| <= |s|
  {
    if s == [] then []
    else if s[0] in drop then Without(s[1..], drop)
    else [s[0]] + Without(s[1..], drop)
  }

  lemma {:induction false} WithoutNoDup<T(!new)>(s: seq<T>, drop: set<T>)
    requires NoDup(s)
    ensures NoDup(Without(s, drop))
  {
    if s != [] {
      WithoutNoDup(s[1..], drop);
      assert s[0] !in s[1..];
    }
  }

  lemma {:induction false} WithoutNothing<T(!new)>(s: seq<T>, drop: set<T>)
    requires forall x :: x in s ==> x !in drop
    ensures Without(s, drop) == s
  {
    if s != [] {
      WithoutNothing(s[1..], drop);
    }
  }

  lemma {:induction false} WithoutEverything<T(!new)>(s: seq<T>, drop: set<T>)
    requires forall x :: x in s ==> x in drop
    ensures Without(s, drop) == []
  {
    if s != [] {
      WithoutEverything(s[1..], drop);
    }
  }

  // Filtering is done element by element, in order.
  lemma {:induction false} WithoutAppend<T(!new)>(a: seq<T>, b: seq<T>, drop: set<T>)
    ensures Without(a + b, drop) == Without(a, drop) + Without(b, drop)
  {
    if a == [] {
      assert a + b == b;
    } else {
      assert (a + b)[1..] == a[1..] + b;
      WithoutAppend(a[1..], b, drop);
    }
  }

  lemma TakeHas<T>(s: seq<T>, n: nat)
    requires n <= |s|
    ensures forall k :: 0 <= k < n ==> s[k] in s[..n]
  {
    forall k | 0 <= k < n
      ensures s[k] in s[..n]
    {
      assert s[..n][k] == s[k];
    }
  }

  lemma Regroup<T>(a: seq<T>, b: seq<T>, c: seq<T>)
    ensures (a + b) + c == a + (b + c)
  {
  }

  ghost function Elements<T(!new)>(s: seq<T>): set<T> {
    set x | x in s
  }

  lemma {:induction false} CountNoDup<T(!new)>(s: seq<T>)
    requires NoDup(s)
    ensures |Elements(s)| == |s|
  {
    if s != [] {
      CountNoDup(s[1..]);
      assert Elements(s) == {s[0]} + Elements(s[1..]);
      assert s[0] !in s[1..];
    }
  }

  function Min(a: nat, b: nat): nat {
    if a <= b then a else b
  }
}

/** Sequence helpers shared by the models: the two array extensions of the
    controller (remove, removeAt), first-match search and orderings. */
module Collections {

  datatype Option<+T> = None | Some(value: T)

  predicate Distinct<T(==)>(s: seq<T>) {
    forall i, j :: 0 <= i < j < |s| ==> s[i] != s[j]
  }

  predicate Increasing(s: seq<nat>) {
    forall i, j :: 0 <= i < j < |s| ==> s[i] < s[j]
  }

  /** Array.prototype.removeAt: the sequence without the element at index i. */
  function RemoveAt<T>(s: seq<T>, i: nat): seq<T>
    requires i < |s|
  {
    s[..i] + s[i + 1..]
  }

  /** Array.prototype.remove: the sequence without any occurrence of x. */
  function Without(s: seq<nat>, x: nat): (r: seq<nat>)
    ensures forall y :: y in r <==> y in s && y != x
    ensures |r| <= |s|
    ensures x !in s ==> r == s
    ensures x in s ==> |r| < |s|
  {
    if s == [] then []
    else if s[0] == x then Without(s[1..], x)
    else [s[0]] + Without(s[1..], x)
  }

  /** The index of the first element that satisfies p, or |s| when there is none. */
  function First<T>(s: seq<T>, p: T -> bool): (i: nat)
    ensures i <= |s|
    ensures forall j :: 0 <= j < i ==> !p(s[j])
    ensures i < |s| ==> p(s[i])
  {
    if s == [] || p(s[0]) then 0 else 1 + First(s[1..], p)
  }

  lemma FirstIs<T>(s: seq<T>, p: T -> bool, i: nat)
    requires i <= |s| && (forall j :: 0 <= j < i ==> !p(s[j])) && (i < |s| ==> p(s[i]))
    ensures First(s, p) == i
  {
  }

  /** The index of the last occurrence of x. */
  function LastIndex(s: seq<nat>, x: nat): (i: nat)
    requires x in s
    ensures i < |s| && s[i] == x
    ensures forall j :: i < j < |s| ==> s[j] != x
  {
    if s[|s| - 1] == x then |s| - 1 else LastIndex(s[..|s| - 1], x)
  }

  lemma RemoveAtDistinct<T>(s: seq<T>, i: nat)
    requires Distinct(s) && i < |s|
    ensures Distinct(RemoveAt(s, i))
    ensures forall y :: y in RemoveAt(s, i) <==> y in s && y != s[i]
  {
    forall y | y in s && y != s[i] ensures y in RemoveAt(s, i) {
      var k :| 0 <= k < |s| && s[k] == y;
      assert RemoveAt(s, i)[if k < i then k else k - 1] == y;
    }
  }

  lemma {:induction false} WithoutDistinct(s: seq<nat>, x: nat)
    requires Distinct(s)
    ensures Distinct(Without(s, x))
    ensures x in s ==> |Without(s, x)| == |s| - 1
  {
    if s == [] {
    } else {
      assert Distinct(s[1..]);
      assert s[0] !in s[1..];
      WithoutDistinct(s[1..], x);
    }
  }

  lemma {:induction false} WithoutIncreasing(s: seq<nat>, x: nat)
    requires Increasing(s)
    ensures Increasing(Without(s, x))
  {
    if s == [] {
    } else {
      WithoutIncreasing(s[1..], x);
      var w := Without(s[1..], x);
      forall j | 0 <= j < |w| ensures s[0] < w[j] {
        assert w[j] in s[1..];
      }
    }
  }

  lemma IncreasingDistinct(s: seq<nat>)
    requires Increasing(s)
    ensures Distinct(s)
  {
  }

  /** Array.prototype.remove as the controller runs it: splice out one occurrence at a time. */
  method Remove(s: seq<nat>, x: nat) returns (r: seq<nat>)
    ensures r == Without(s, x)
  {
    r := s;
    while x in r
      invariant Without(r, x) == Without(s, x)
      decreases |r|
    {
      var ax := 0;
      while r[ax] != x
        invariant 0 <= ax < |r|
        invariant x in r[ax..]
        decreases |r| - ax
      {
        ax := ax + 1;
      }
      WithoutSplice(r, ax);
      r := RemoveAt(r, ax);
    }
  }

  lemma {:induction false} WithoutSplice(s: seq<nat>, i: nat)
    requires i < |s|
    ensures Without(RemoveAt(s, i), s[i]) == Without(s, s[i])
  {
    if i == 0 {
      assert RemoveAt(s, 0) == s[1..];
    } else {
      WithoutSplice(s[1..], i - 1);
      assert RemoveAt(s, i)[0] == s[0] && RemoveAt(s, i)[1..] == RemoveAt(s[1..], i - 1);
    }
  }

  lemma RemoveAtIsWithout(s: seq<nat>, i: nat)
    requires Distinct(s) && i < |s|
    ensures RemoveAt(s, i) == Without(s, s[i])
  {
    RemoveAtDistinct(s, i);
    WithoutSplice(s, i);
  }

  lemma HeadIn<T>(s: seq<T>)
    ensures s != [] ==> s[0] in s
  {
  }

  lemma SubsetSize<T>(a: set<T>, b: set<T>)
    requires a <= b
    ensures |a| <= |b|
    ensures a != b ==> |a| < |b|
  {
    assert b == a + (b - a);
    assert a != b ==> b - a != {};
  }
}

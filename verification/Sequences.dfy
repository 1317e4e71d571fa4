/** Duplicate-free lists: the list vocabulary of the exit pools. */
module Sequences {
  ghost predicate NoDuplicates<T>(s: seq<T>) {
    forall i, j :: 0 <= i < j < |s| ==> s[i] != s[j]
  }

  function Take<T>(s: seq<T>, n: nat): seq<T> {
    if |s| <= n then s else s[..n]
  }

  function Reverse<T>(s: seq<T>): seq<T> {
    if s == [] then [] else Reverse(s[1..]) + [s[0]]
  }

  function Without<T(==)>(s: seq<T>, x: T): seq<T> {
    if s == [] then []
    else if s[0] == x then Without(s[1..], x)
    else [s[0]] + Without(s[1..], x)
  }

  /** The elements of s in the order of their first occurrences. */
  function FirstOccurrences<T(==)>(s: seq<T>): seq<T> {
    if s == [] then [] else [s[0]] + Without(FirstOccurrences(s[1..]), s[0])
  }

  function MoveToFront<T(==)>(s: seq<T>, x: T, max: nat): seq<T> {
    Take([x] + Without(s, x), if max < 1 then 1 else max)
  }

  lemma {:induction false} WithoutMembers<T>(s: seq<T>, x: T)
    ensures forall y :: y in Without(s, x) <==> y in s && y != x
    ensures forall i :: 0 <= i < |Without(s, x)| ==> Without(s, x)[i] in s && Without(s, x)[i] != x
    ensures |Without(s, x)| <= |s|
  {
    if s != [] {
      WithoutMembers(s[1..], x);
      assert s == [s[0]] + s[1..];
    }
  }

  lemma {:induction false} WithoutAbsent<T>(s: seq<T>, x: T)
    requires x !in s
    ensures Without(s, x) == s
  {
    if s != [] {
      assert s == [s[0]] + s[1..];
      WithoutAbsent(s[1..], x);
    }
  }

  lemma {:induction false} WithoutConcat<T>(s: seq<T>, t: seq<T>, x: T)
    ensures Without(s + t, x) == Without(s, x) + Without(t, x)
  {
    if s == [] {
      assert s + t == t;
    } else {
      assert s + t == [s[0]] + (s[1..] + t) && (s + t)[1..] == s[1..] + t;
      WithoutConcat(s[1..], t, x);
      if s[0] != x {
        assert [s[0]] + (Without(s[1..], x) + Without(t, x)) == ([s[0]] + Without(s[1..], x)) + Without(t, x);
      }
    }
  }

  lemma {:induction false} WithoutNoDuplicates<T>(s: seq<T>, x: T)
    requires NoDuplicates(s)
    ensures NoDuplicates(Without(s, x))
  {
    if s != [] {
      WithoutNoDuplicates(s[1..], x);
      WithoutMembers(s[1..], x);
      assert s[0] !in s[1..];
    }
  }

  lemma WithoutSelf<T>(x: T)
    ensures Without([x], x) == []
  {
  }

  lemma WithoutBetween<T>(front: seq<T>, x: T, back: seq<T>)
    requires x !in front && x !in back
    ensures Without(front + ([x] + back), x) == front + back
  {
    hide Without;
    WithoutConcat(front, [x] + back, x);
    WithoutConcat([x], back, x);
    WithoutSelf(x);
    WithoutAbsent(front, x);
    WithoutAbsent(back, x);
    assert [] + back == back;
  }

  /** Removing the element at a known index of a duplicate-free list. */
  lemma WithoutAt<T>(s: seq<T>, i: nat)
    requires NoDuplicates(s) && i < |s|
    ensures Without(s, s[i]) == s[..i] + s[i + 1..]
  {
    hide Without;
    OccursOnce(s, i);
    WithoutBetween(s[..i], s[i], s[i + 1..]);
    SplitAt(s, i);
  }

  lemma OccursOnce<T>(s: seq<T>, i: nat)
    requires NoDuplicates(s) && i < |s|
    ensures s[i] !in s[..i] && s[i] !in s[i + 1..]
  {
  }

  lemma SplitAt<T>(s: seq<T>, i: nat)
    requires i < |s|
    ensures s[..i] + ([s[i]] + s[i + 1..]) == s
  {
  }

  lemma ConsNoDuplicates<T>(x: T, s: seq<T>)
    requires NoDuplicates(s) && x !in s
    ensures NoDuplicates([x] + s)
  {
    var t := [x] + s;
    forall i, j | 0 <= i < j < |t| ensures t[i] != t[j] {
      assert t[j] == s[j - 1];
      if i > 0 { assert t[i] == s[i - 1]; }
    }
  }

  lemma MoveToFrontMembers<T>(s: seq<T>, x: T, max: nat)
    ensures MoveToFront(s, x, max) != [] && MoveToFront(s, x, max)[0] == x
    ensures forall y :: y in MoveToFront(s, x, max) ==> y == x || y in s
    ensures |MoveToFront(s, x, max)| <= if max < 1 then 1 else max
    ensures NoDuplicates(s) ==> NoDuplicates(MoveToFront(s, x, max))
  {
    WithoutMembers(s, x);
    var full := [x] + Without(s, x);
    assert MoveToFront(s, x, max) <= full;
    assert forall i :: 0 < i < |full| ==> full[i] == Without(s, x)[i - 1];
    if NoDuplicates(s) {
      WithoutNoDuplicates(s, x);
      ConsNoDuplicates(x, Without(s, x));
    }
  }

  lemma {:induction false} FirstOccurrencesMembers<T>(s: seq<T>)
    ensures NoDuplicates(FirstOccurrences(s))
    ensures forall y :: y in FirstOccurrences(s) <==> y in s
  {
    if s != [] {
      FirstOccurrencesMembers(s[1..]);
      WithoutMembers(FirstOccurrences(s[1..]), s[0]);
      WithoutNoDuplicates(FirstOccurrences(s[1..]), s[0]);
      ConsNoDuplicates(s[0], Without(FirstOccurrences(s[1..]), s[0]));
      assert s == [s[0]] + s[1..];
    }
  }

  /** Cutting the tail before moving an element to the front loses nothing that
      survives the cut afterwards. */
  lemma CutThenRemove<T>(s: seq<T>, x: T, n: nat)
    requires NoDuplicates(s)
    ensures Take(Without(Take(s, n + 1), x), n) == Take(Without(s, x), n)
  {
    if |s| > n + 1 {
      var t := s[..n + 1];
      assert NoDuplicates(t);
      if x in t {
        var i :| 0 <= i < |t| && t[i] == x;
        assert s[i] == x;
        WithoutAt(s, i);
        WithoutAt(t, i);
        assert Without(t, x) == (s[..i] + s[i + 1..])[..n];
      } else {
        WithoutAbsent(t, x);
        assert Take(t, n) == s[..n];
        WithoutKeepsFront(s, x, n + 1);
        assert Take(Without(s, x), n) == s[..n];
      }
    }
  }

  lemma {:induction false} WithoutKeepsFront<T>(s: seq<T>, x: T, n: nat)
    requires n <= |s| && x !in s[..n]
    ensures |Without(s, x)| >= n && Without(s, x)[..n] == s[..n]
  {
    assert s == s[..n] + s[n..];
    WithoutConcat(s[..n], s[n..], x);
    WithoutAbsent(s[..n], x);
  }

  ghost predicate IsPrefix<T>(s: seq<T>, t: seq<T>) {
    |s| <= |t| && s == t[..|s|]
  }
}

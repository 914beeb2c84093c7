/** Python's `sorted` on strings, and on records by a string key. */
module Sorting {

  /** `a <= b` on Python strings: code-point lexicographic order. */
  predicate StrLe(a: string, b: string)
  {
    a == [] || (b != [] && (a[0] < b[0] || (a[0] == b[0] && StrLe(a[1..], b[1..]))))
  }

  lemma {:induction false} StrLeTotal(a: string, b: string)
    ensures StrLe(a, b) || StrLe(b, a)
  {
    if a != [] && b != [] && a[0] == b[0] {
      StrLeTotal(a[1..], b[1..]);
    }
  }

  lemma {:induction false} StrLeAntisymmetric(a: string, b: string)
    requires StrLe(a, b) && StrLe(b, a)
    ensures a == b
  {
    if a != [] && b != [] {
      StrLeAntisymmetric(a[1..], b[1..]);
      assert a == [a[0]] + a[1..] && b == [b[0]] + b[1..];
    }
  }

  /** Adjacent elements are in order of their keys. */
  predicate SortedBy<T>(s: seq<T>, key: T -> string)
  {
    forall i :: 0 < i < |s| ==> StrLe(key(s[i - 1]), key(s[i]))
  }

  /** Insert `x` before the first element whose key is not below its own. */
  function InsertBy<T>(x: T, s: seq<T>, key: T -> string): (r: seq<T>)
    requires SortedBy(s, key)
    ensures SortedBy(r, key)
    ensures multiset(r) == multiset(s) + multiset{x}
    ensures r[0] == x || (s != [] && r[0] == s[0])
  {
    if s == [] then [x]
    else if StrLe(key(x), key(s[0])) then [x] + s
    else
      StrLeTotal(key(x), key(s[0]));
      assert SortedBy(s[1..], key) by {
        forall i | 0 < i < |s| - 1 ensures StrLe(key(s[1..][i - 1]), key(s[1..][i])) {
          assert s[1..][i - 1] == s[i] && s[1..][i] == s[i + 1];
        }
      }
      var t := InsertBy(x, s[1..], key);
      assert s == [s[0]] + s[1..];
      [s[0]] + t
  }

  /** `sorted(s, key=key)`: ordered by key, and a permutation of `s`. */
  function SortBy<T>(s: seq<T>, key: T -> string): (r: seq<T>)
    ensures SortedBy(r, key)
    ensures multiset(r) == multiset(s)
    ensures |r| == |s|
  {
    if s == [] then []
    else
      assert s == [s[0]] + s[1..];
      InsertBy(s[0], SortBy(s[1..], key), key)
  }

  function Identity(s: string): string
  {
    s
  }

  /** `sorted(s)` on strings. */
  function Sort(s: seq<string>): (r: seq<string>)
    ensures SortedBy(r, Identity)
    ensures multiset(r) == multiset(s)
    ensures |r| == |s|
    ensures forall x :: x in r <==> x in s
  {
    var r := SortBy(s, Identity);
    assert forall x :: x in r <==> x in multiset(r);
    r
  }

  lemma {:induction false} StrLeTransitive(a: string, b: string, c: string)
    requires StrLe(a, b) && StrLe(b, c)
    ensures StrLe(a, c)
  {
    if a != [] && b != [] && c != [] && a[0] == b[0] && b[0] == c[0] {
      StrLeTransitive(a[1..], b[1..], c[1..]);
    }
  }

  /** The head of a sorted list is below every element. */
  lemma {:induction false} SortedHeadLeast(s: seq<string>, i: nat)
    requires SortedBy(s, Identity) && i < |s|
    ensures StrLe(s[0], s[i])
  {
    if i == 0 {
      StrLeTotal(s[0], s[0]);
    } else {
      SortedHeadLeast(s, i - 1);
      StrLeTransitive(s[0], s[i - 1], s[i]);
    }
  }

  lemma SortedTail(s: seq<string>)
    requires SortedBy(s, Identity) && s != []
    ensures SortedBy(s[1..], Identity)
  {
    forall k | 0 < k < |s| - 1 ensures StrLe(s[1..][k - 1], s[1..][k]) {
      assert s[1..][k - 1] == s[k] && s[1..][k] == s[k + 1];
    }
  }

  /** Two non-empty sorted lists with the same elements start alike. */
  lemma SortedSameHead(a: seq<string>, b: seq<string>)
    requires SortedBy(a, Identity) && SortedBy(b, Identity) && a != []
    requires multiset(a) == multiset(b)
    ensures b != [] && a[0] == b[0]
  {
    assert a[0] in multiset(b);
    assert b != [] && b[0] in multiset(a);
    var i :| 0 <= i < |b| && b[i] == a[0];
    var j :| 0 <= j < |a| && a[j] == b[0];
    SortedHeadLeast(a, j);
    SortedHeadLeast(b, i);
    StrLeAntisymmetric(a[0], b[0]);
  }

  /** Two sorted lists with the same elements are equal, so the result of
      `sorted` does not depend on the order its input was enumerated in. */
  lemma {:induction false} SortedUnique(a: seq<string>, b: seq<string>)
    requires SortedBy(a, Identity) && SortedBy(b, Identity)
    requires multiset(a) == multiset(b)
    ensures a == b
    decreases |a|
  {
    if a == [] {
      assert |b| == |multiset(b)| == 0;
    } else {
      SortedSameHead(a, b);
      assert a == [a[0]] + a[1..] && b == [b[0]] + b[1..];
      assert multiset(a) == multiset{a[0]} + multiset(a[1..]);
      assert multiset(b) == multiset{b[0]} + multiset(b[1..]);
      assert multiset(a[1..]) == multiset(a) - multiset{a[0]};
      assert multiset(b[1..]) == multiset(b) - multiset{b[0]};
      SortedTail(a);
      SortedTail(b);
      SortedUnique(a[1..], b[1..]);
    }
  }

  /** Sorting two enumerations of the same elements gives the same list. */
  lemma SortIndependentOfOrder(a: seq<string>, b: seq<string>)
    requires multiset(a) == multiset(b)
    ensures Sort(a) == Sort(b)
  {
    SortedUnique(Sort(a), Sort(b));
  }
}

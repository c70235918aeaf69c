/**
 * Django's order_by over two integer keys, as used by the video and exam
 * querysets: rows are compared by their primary key, then their secondary key.
 */
module Ordering {
  datatype Key = Key(primary: int, secondary: int)

  predicate KeyLe(a: Key, b: Key)
  {
    a.primary < b.primary || (a.primary == b.primary && a.secondary <= b.secondary)
  }

  predicate SortedBy<T>(s: seq<T>, key: T -> Key)
  {
    forall i, j :: 0 <= i < j < |s| ==> KeyLe(key(s[i]), key(s[j]))
  }

  /** x inserted before the first element whose key is above its own. */
  function Insert<T>(x: T, s: seq<T>, key: T -> Key): (r: seq<T>)
    requires SortedBy(s, key)
    ensures SortedBy(r, key)
    ensures multiset(r) == multiset(s) + multiset{x}
  {
    if |s| == 0 then [x]
    else if KeyLe(key(x), key(s[0])) then [x] + s
    else
      var rest := Insert(x, s[1..], key);
      InsertKeepsHead(x, s, rest, key);
      [s[0]] + rest
  }

  lemma InsertKeepsHead<T>(x: T, s: seq<T>, rest: seq<T>, key: T -> Key)
    requires SortedBy(s, key) && |s| > 0 && !KeyLe(key(x), key(s[0]))
    requires SortedBy(rest, key) && multiset(rest) == multiset(s[1..]) + multiset{x}
    ensures SortedBy([s[0]] + rest, key)
    ensures multiset([s[0]] + rest) == multiset(s) + multiset{x}
  {
    assert s == [s[0]] + s[1..];
    forall j | 0 <= j < |rest|
      ensures KeyLe(key(s[0]), key(rest[j]))
    {
      assert rest[j] in multiset(rest);
      if rest[j] != x {
        assert rest[j] in multiset(s[1..]);
        var k :| 0 <= k < |s[1..]| && s[1..][k] == rest[j];
        assert s[k + 1] == rest[j];
      }
    }
    var r := [s[0]] + rest;
    forall i, j | 0 <= i < j < |r|
      ensures KeyLe(key(r[i]), key(r[j]))
    {
      if i > 0 {
        assert r[i] == rest[i - 1] && r[j] == rest[j - 1];
      } else {
        assert r[j] == rest[j - 1];
      }
    }
  }

  /** The rows of s in key order (a permutation of s). */
  function SortBy<T>(s: seq<T>, key: T -> Key): (r: seq<T>)
    ensures SortedBy(r, key)
    ensures multiset(r) == multiset(s)
  {
    if |s| == 0 then []
    else
      assert s == [s[0]] + s[1..];
      Insert(s[0], SortBy(s[1..], key), key)
  }

  /** .first() of an ordered queryset has a key no greater than any row's. */
  lemma FirstIsMinimal<T>(s: seq<T>, key: T -> Key)
    requires SortedBy(s, key) && |s| > 0
    ensures forall x :: x in s ==> KeyLe(key(s[0]), key(x))
  {
    forall x | x in s
      ensures KeyLe(key(s[0]), key(x))
    {
      var i :| 0 <= i < |s| && s[i] == x;
      if i > 0 {
        assert KeyLe(key(s[0]), key(s[i]));
      }
    }
  }

  /** .filter(): the rows satisfying p, in their original order. */
  function Filter<T(!new)>(s: seq<T>, p: T -> bool): (r: seq<T>)
    ensures forall x :: x in r <==> x in s && p(x)
    ensures |r| <= |s|
  {
    if |s| == 0 then []
    else if p(s[0]) then [s[0]] + Filter(s[1..], p)
    else Filter(s[1..], p)
  }

  /** Filtering with two predicates that agree everywhere gives the same rows. */
  lemma {:induction false} FilterCongruent<T(!new)>(s: seq<T>, p: T -> bool, q: T -> bool)
    requires forall x :: p(x) == q(x)
    ensures Filter(s, p) == Filter(s, q)
  {
    if |s| > 0 {
      FilterCongruent(s[1..], p, q);
    }
  }
}

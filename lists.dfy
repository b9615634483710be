/** The array operations the tracker builds on: `filter`, and `sort` on a
    copy with a numeric comparator whose keys may be +Infinity. */
module Lists {

  /** `r` keeps some of the elements of `s`, in the order they have in `s`. */
  ghost predicate IsSubsequence<T>(r: seq<T>, s: seq<T>)
    decreases |s|
  {
    if r == [] then true
    else if s == [] then false
    else if r[0] == s[0] then IsSubsequence(r[1..], s[1..])
    else IsSubsequence(r, s[1..])
  }

  /** `s.filter(keep)`: exactly the elements that pass, in their original order. */
  function Filter<T>(s: seq<T>, keep: T -> bool): (r: seq<T>)
    ensures |r| <= |s|
    ensures forall i :: 0 <= i < |r| ==> r[i] in s && keep(r[i])
    ensures forall i :: 0 <= i < |s| && keep(s[i]) ==> s[i] in r
    ensures IsSubsequence(r, s)
    ensures (forall i :: 0 <= i < |s| ==> keep(s[i])) ==> r == s
    decreases |s|
  {
    if s == [] then []
    else
      var rest := Filter(s[1..], keep);
      assert forall i :: 0 <= i < |s| - 1 ==> s[1..][i] == s[i + 1];
      if keep(s[0]) then [s[0]] + rest else rest
  }

  /** `filter` keeps every copy of an element that passes and no copy of one
      that fails. */
  lemma {:induction false} FilterMultiplicity<T(!new)>(s: seq<T>, keep: T -> bool)
    ensures forall x :: multiset(Filter(s, keep))[x] == if keep(x) then multiset(s)[x] else 0
    decreases |s|
  {
    if s != [] {
      FilterMultiplicity(s[1..], keep);
      var rest := Filter(s[1..], keep);
      assert s == [s[0]] + s[1..];
      assert multiset(s) == multiset{s[0]} + multiset(s[1..]);
      if keep(s[0]) {
        assert multiset(Filter(s, keep)) == multiset{s[0]} + multiset(rest);
      } else {
        assert Filter(s, keep) == rest;
      }
    }
  }

  /** Filtering distributes over concatenation. */
  lemma {:induction false} FilterAppend<T>(a: seq<T>, b: seq<T>, keep: T -> bool)
    ensures Filter(a + b, keep) == Filter(a, keep) + Filter(b, keep)
    decreases |a|
  {
    if a == [] {
      assert a + b == b;
    } else {
      assert (a + b)[1..] == a[1..] + b;
      FilterAppend(a[1..], b, keep);
    }
  }

  /** A sort key: a finite number, or +Infinity (which sorts last). */
  datatype Key = Finite(v: real) | Infinite

  /** `a - b <= 0` for the comparator `(x, y) => key(x) - key(y)`;
      two infinite keys compare as equal (NaN is read as +0). */
  predicate KeyLe(a: Key, b: Key) {
    b.Infinite? || (a.Finite? && a.v <= b.v)
  }

  ghost predicate SortedBy<T>(s: seq<T>, key: T -> Key) {
    forall i, j :: 0 <= i < j < |s| ==> KeyLe(key(s[i]), key(s[j]))
  }

  /** Inserts `x` into a sorted sequence, ahead of every element with a key
      that is not smaller. */
  function Insert<T>(x: T, s: seq<T>, key: T -> Key): (r: seq<T>)
    requires SortedBy(s, key)
    ensures multiset(r) == multiset(s) + multiset{x}
    ensures SortedBy(r, key)
    ensures |r| == |s| + 1
    ensures r[0] == x || (s != [] && r[0] == s[0])
    decreases |s|
  {
    if s == [] || KeyLe(key(x), key(s[0])) then [x] + s
    else
      SortedTail(s, key);
      var rest := Insert(x, s[1..], key);
      assert s == [s[0]] + s[1..];
      assert KeyLe(key(s[0]), key(x));
      assert KeyLe(key(s[0]), key(rest[0])) by {
        if rest[0] != x {
          assert rest[0] == s[1];
        }
      }
      SortedCons(s[0], rest, key);
      assert multiset([s[0]] + rest) == multiset{s[0]} + multiset(rest);
      [s[0]] + rest
  }

  /** Dropping the head keeps a sequence sorted. */
  lemma SortedTail<T>(s: seq<T>, key: T -> Key)
    requires s != [] && SortedBy(s, key)
    ensures SortedBy(s[1..], key)
  {
    forall i, j | 0 <= i < j < |s| - 1
      ensures KeyLe(key(s[1..][i]), key(s[1..][j]))
    {
      assert s[1..][i] == s[i + 1] && s[1..][j] == s[j + 1];
    }
  }

  /** A sorted sequence stays sorted under a head that no element is below. */
  lemma SortedCons<T>(h: T, s: seq<T>, key: T -> Key)
    requires SortedBy(s, key)
    requires s != [] ==> KeyLe(key(h), key(s[0]))
    ensures SortedBy([h] + s, key)
  {
    var r := [h] + s;
    forall i, j | 0 <= i < j < |r|
      ensures KeyLe(key(r[i]), key(r[j]))
    {
      assert r[j] == s[j - 1];
      if i > 0 {
        assert r[i] == s[i - 1];
      } else if j > 1 {
        assert KeyLe(key(s[0]), key(s[j - 1]));
      }
    }
  }

  /** `[...s].sort((a, b) => key(a) - key(b))`: a new sequence holding the
      same elements, ordered by non-decreasing key. */
  function SortBy<T>(s: seq<T>, key: T -> Key): (r: seq<T>)
    ensures multiset(r) == multiset(s)
    ensures SortedBy(r, key)
    decreases |s|
  {
    if s == [] then []
    else
      assert s == [s[0]] + s[1..];
      Insert(s[0], SortBy(s[1..], key), key)
  }

  /** `s.slice(0, n)`: the first `n` elements, or all of them when fewer. */
  function Take<T>(s: seq<T>, n: nat): (r: seq<T>)
    ensures |r| == if |s| < n then |s| else n
    ensures r == s[..|r|]
  {
    if |s| <= n then s else s[..n]
  }
}

/**
 * Strings and orderings used by both halves of the system: ASCII case mapping,
 * prefix/substring tests, code-point lexicographic order and a stable
 * insertion sort for ORDER BY.
 */
module Text {

  /** ASCII lower-casing of one character. */
  function LowerChar(c: char): (r: char)
    ensures 'A' <= c <= 'Z' ==> 'a' <= r <= 'z'
    ensures !('A' <= c <= 'Z') ==> r == c
  {
    if 'A' <= c <= 'Z' then (c as int + 32) as char else c
  }

  /** ASCII upper-casing of one character. */
  function UpperChar(c: char): (r: char)
    ensures 'a' <= c <= 'z' ==> 'A' <= r <= 'Z'
    ensures !('a' <= c <= 'z') ==> r == c
  {
    if 'a' <= c <= 'z' then (c as int - 32) as char else c
  }

  function Lower(s: string): (r: string)
    ensures |r| == |s|
    ensures forall i :: 0 <= i < |s| ==> r[i] == LowerChar(s[i])
  {
    if s == [] then [] else [LowerChar(s[0])] + Lower(s[1..])
  }

  function Upper(s: string): (r: string)
    ensures |r| == |s|
    ensures forall i :: 0 <= i < |s| ==> r[i] == UpperChar(s[i])
  {
    if s == [] then [] else [UpperChar(s[0])] + Upper(s[1..])
  }

  lemma {:induction false} LowerAppend(a: string, b: string)
    ensures Lower(a + b) == Lower(a) + Lower(b)
  {
    if a == [] {
      assert a + b == b;
    } else {
      assert (a + b)[0] == a[0] && (a + b)[1..] == a[1..] + b;
      LowerAppend(a[1..], b);
      AppendAssoc([LowerChar(a[0])], Lower(a[1..]), Lower(b));
    }
  }

  predicate StartsWith(s: string, t: string)
  {
    |t| <= |s| && s[..|t|] == t
  }

  /** `t` occurs in `s` as a contiguous substring. */
  predicate Contains(s: string, t: string)
    decreases |s|
  {
    StartsWith(s, t) || (s != [] && Contains(s[1..], t))
  }

  /** Code-point lexicographic order on strings (the model's stand-in for a collation). */
  predicate StrLe(a: string, b: string)
    decreases |a|
  {
    a == [] || (b != [] && (a[0] < b[0] || (a[0] == b[0] && StrLe(a[1..], b[1..]))))
  }

  lemma {:induction false} StrLeTotal(a: string, b: string)
    ensures StrLe(a, b) || StrLe(b, a)
    decreases |a|
  {
    if a != [] && b != [] && a[0] == b[0] {
      StrLeTotal(a[1..], b[1..]);
    }
  }

  lemma {:induction false} StrLeTransitive(a: string, b: string, c: string)
    requires StrLe(a, b) && StrLe(b, c)
    ensures StrLe(a, c)
    decreases |a|
  {
    if a != [] && b != [] && c != [] && a[0] == b[0] && b[0] == c[0] {
      StrLeTransitive(a[1..], b[1..], c[1..]);
    }
  }

  lemma {:induction false} StrLeAntisymmetric(a: string, b: string)
    requires StrLe(a, b) && StrLe(b, a)
    ensures a == b
    decreases |a|
  {
    if a != [] && b != [] {
      StrLeAntisymmetric(a[1..], b[1..]);
      assert a == [a[0]] + a[1..] && b == [b[0]] + b[1..];
    }
  }

  // ---------------------------------------------------------------------
  // Stable insertion sort, the model of a SQL ORDER BY whose ties keep the
  // storage order.

  /** `le` is a total preorder's "<=": any two elements are comparable. */
  ghost predicate Total<T(!new)>(le: (T, T) -> bool)
  {
    forall a, b :: le(a, b) || le(b, a)
  }

  /** Each element is `le` its successor. */
  predicate SortedBy<T>(s: seq<T>, le: (T, T) -> bool)
  {
    forall i :: 0 < i < |s| ==> le(s[i - 1], s[i])
  }

  function Insert<T>(x: T, s: seq<T>, le: (T, T) -> bool): (r: seq<T>)
    ensures multiset(r) == multiset(s) + multiset{x}
    ensures |r| == |s| + 1
  {
    if s == [] || le(x, s[0]) then [x] + s
    else
      assert s == [s[0]] + s[1..];
      [s[0]] + Insert(x, s[1..], le)
  }

  function SortBy<T>(s: seq<T>, le: (T, T) -> bool): (r: seq<T>)
    ensures multiset(r) == multiset(s)
    ensures |r| == |s|
  {
    if s == [] then []
    else
      assert s == [s[0]] + s[1..];
      Insert(s[0], SortBy(s[1..], le), le)
  }

  /** Sorting keeps exactly the elements it was given. */
  lemma SortByMember<T>(s: seq<T>, le: (T, T) -> bool, x: T)
    ensures x in SortBy(s, le) <==> x in s
  {
    assert x in SortBy(s, le) <==> x in multiset(SortBy(s, le));
  }

  lemma {:induction false} InsertKeepsSorted<T(!new)>(x: T, s: seq<T>, le: (T, T) -> bool)
    requires Total(le)
    requires SortedBy(s, le)
    ensures SortedBy(Insert(x, s, le), le)
    ensures Insert(x, s, le)[0] == x || (s != [] && Insert(x, s, le)[0] == s[0])
  {
    if s == [] || le(x, s[0]) {
    } else {
      assert le(s[0], x);
      InsertKeepsSorted(x, s[1..], le);
    }
  }

  /** SortBy returns its input rearranged so that neighbours are in `le` order. */
  lemma {:induction false} SortBySorted<T(!new)>(s: seq<T>, le: (T, T) -> bool)
    requires Total(le)
    ensures SortedBy(SortBy(s, le), le)
    ensures multiset(SortBy(s, le)) == multiset(s)
  {
    if s != [] {
      SortBySorted(s[1..], le);
      InsertKeepsSorted(s[0], SortBy(s[1..], le), le);
    }
  }

  /** Every element comes `le`-before every later one. */
  ghost predicate OrderedBy<T>(s: seq<T>, le: (T, T) -> bool)
  {
    forall i, j :: 0 <= i < j < |s| ==> le(s[i], s[j])
  }

  /** Two rearrangements of the same elements, each ordered by a `le` under
      which no two different elements tie, are the same sequence: such an
      order leaves the engine no choice. */
  lemma {:induction false} OrderedPermutationUnique<T>(p: seq<T>, q: seq<T>, le: (T, T) -> bool)
    requires multiset(p) == multiset(q)
    requires OrderedBy(p, le) && OrderedBy(q, le)
    requires forall a, b :: a in p && b in p && le(a, b) && le(b, a) ==> a == b
    ensures p == q
    decreases |p|
  {
    if p == [] {
      assert |q| == |multiset(q)|;
    } else {
      OrderedHeadsAgree(p, q, le);
      SameHeadTails(p, q);
      assert forall x :: x in p[1..] ==> x in p;
      OrderedPermutationUnique(p[1..], q[1..], le);
      assert p == [p[0]] + p[1..] && q == [q[0]] + q[1..];
    }
  }

  /** Both orders start with an element that comes before all the others, so
      they start with the same one. */
  lemma OrderedHeadsAgree<T>(p: seq<T>, q: seq<T>, le: (T, T) -> bool)
    requires p != [] && multiset(p) == multiset(q)
    requires OrderedBy(p, le) && OrderedBy(q, le)
    requires forall a, b :: a in p && b in p && le(a, b) && le(b, a) ==> a == b
    ensures q != [] && p[0] == q[0]
  {
    assert p[0] in multiset(q);
    assert q[0] in multiset(p);
    var k :| 0 <= k < |q| && q[k] == p[0];
    var m :| 0 <= m < |p| && p[m] == q[0];
  }

  lemma SameHeadTails<T>(p: seq<T>, q: seq<T>)
    requires p != [] && q != [] && p[0] == q[0] && multiset(p) == multiset(q)
    ensures multiset(p[1..]) == multiset(q[1..])
  {
    assert p == [p[0]] + p[1..];
    assert q == [q[0]] + q[1..];
    forall x ensures multiset(p[1..])[x] == multiset(q[1..])[x] {
      assert multiset(p)[x] == multiset([p[0]])[x] + multiset(p[1..])[x];
      assert multiset(q)[x] == multiset([q[0]])[x] + multiset(q[1..])[x];
    }
  }

  /** No two elements share a key. */
  ghost predicate DistinctBy<T, K>(s: seq<T>, key: T -> K)
  {
    forall i, j :: 0 <= i < j < |s| ==> key(s[i]) != key(s[j])
  }

  lemma {:induction false} InsertKeepsDistinct<T, K>(x: T, s: seq<T>, le: (T, T) -> bool, key: T -> K)
    requires DistinctBy(s, key)
    requires forall y :: y in s ==> key(y) != key(x)
    ensures DistinctBy(Insert(x, s, le), key)
  {
    if s == [] || le(x, s[0]) {
    } else {
      InsertKeepsDistinct(x, s[1..], le, key);
      var r := Insert(x, s[1..], le);
      forall z | z in r ensures key(z) != key(s[0]) {
        assert multiset(r)[z] > 0;
        assert z == x || z in s[1..];
      }
    }
  }

  /** Sorting rearranges without duplicating, so distinct keys stay distinct. */
  lemma {:induction false} SortByKeepsDistinct<T, K>(s: seq<T>, le: (T, T) -> bool, key: T -> K)
    requires DistinctBy(s, key)
    ensures DistinctBy(SortBy(s, le), key)
  {
    if s != [] {
      SortByKeepsDistinct(s[1..], le, key);
      var r := SortBy(s[1..], le);
      forall y | y in r ensures key(y) != key(s[0]) {
        assert multiset(r)[y] > 0;
        assert y in s[1..];
      }
      InsertKeepsDistinct(s[0], r, le, key);
    }
  }

  /** The elements of `s` that `keep` accepts, in their original order. */
  function Filter<T(!new)>(s: seq<T>, keep: T -> bool): (r: seq<T>)
    ensures |r| <= |s|
    ensures forall x :: x in r <==> x in s && keep(x)
  {
    if s == [] then []
    else (if keep(s[0]) then [s[0]] else []) + Filter(s[1..], keep)
  }

  /** Filtering depends only on the verdicts for the elements present. */
  lemma {:induction false} FilterSame<T(!new)>(s: seq<T>, p: T -> bool, q: T -> bool)
    requires forall x :: x in s ==> p(x) == q(x)
    ensures Filter(s, p) == Filter(s, q)
  {
    if s != [] {
      assert forall x :: x in s[1..] ==> x in s;
      FilterSame(s[1..], p, q);
    }
  }

  /** Two disjoint refinements of a filter select at most as many elements as
      the filter; exactly as many when every kept element falls in one of them. */
  lemma {:induction false} FilterSplit<T(!new)>(s: seq<T>, keep: T -> bool, p: T -> bool, q: T -> bool)
    requires forall x :: p(x) ==> keep(x) && !q(x)
    requires forall x :: q(x) ==> keep(x)
    ensures |Filter(s, p)| + |Filter(s, q)| <= |Filter(s, keep)|
    ensures (forall x :: x in s && keep(x) ==> p(x) || q(x)) ==>
              |Filter(s, p)| + |Filter(s, q)| == |Filter(s, keep)|
  {
    if s != [] {
      assert forall x :: x in s[1..] ==> x in s;
      FilterSplit(s[1..], keep, p, q);
    }
  }

  /** The concatenation of `f` over `s`, in order. */
  function FlatMap<A, B>(s: seq<A>, f: A -> seq<B>): seq<B>
  {
    if s == [] then [] else f(s[0]) + FlatMap(s[1..], f)
  }

  lemma {:induction false} FlatMapAppend<A, B>(p: seq<A>, q: seq<A>, f: A -> seq<B>)
    ensures FlatMap(p + q, f) == FlatMap(p, f) + FlatMap(q, f)
  {
    if p == [] {
      assert p + q == q;
    } else {
      assert (p + q)[1..] == p[1..] + q;
      FlatMapAppend(p[1..], q, f);
    }
  }

  /** An element that maps to nothing can be dropped. */
  lemma FlatMapSkip<A, B>(p: seq<A>, x: A, q: seq<A>, f: A -> seq<B>)
    requires f(x) == []
    ensures FlatMap(p + [x] + q, f) == FlatMap(p + q, f)
  {
    FlatMapAppend(p + [x], q, f);
    FlatMapAppend(p, [x], f);
    FlatMapAppend(p, q, f);
    assert FlatMap([x], f) == f(x) + FlatMap([], f);
  }

  /** One step of a traversal from position `k`. */
  lemma FlatMapStep<A, B>(s: seq<A>, k: nat, f: A -> seq<B>)
    requires k < |s|
    ensures FlatMap(s[k..], f) == f(s[k]) + FlatMap(s[k + 1..], f)
  {
    assert s[k..][1..] == s[k + 1..];
  }

  lemma AppendAssoc<T>(a: seq<T>, b: seq<T>, c: seq<T>)
    ensures a + (b + c) == (a + b) + c
  {
  }
}

/** Sorting as the library calls `sort.Slice` and `slices.Sort` promise it: the result is an ordered
    permutation of the input. Which ordered permutation is left open, so a result that must be
    deterministic needs the uniqueness lemmas below. */
module Ordering {

  ghost predicate TotalPreorder<T(!new)>(le: (T, T) -> bool) {
    && (forall x, y :: le(x, y) || le(y, x))
    && (forall x, y, z :: le(x, y) && le(y, z) ==> le(x, z))
  }

  ghost predicate SortedBy<T>(s: seq<T>, le: (T, T) -> bool) {
    forall i, j :: 0 <= i < j < |s| ==> le(s[i], s[j])
  }

  /** What a caller may rely on after sorting `before` with a comparison function. */
  ghost predicate IsSortOf<T>(after: seq<T>, before: seq<T>, le: (T, T) -> bool) {
    multiset(after) == multiset(before) && SortedBy(after, le)
  }

  ghost predicate NoDuplicates<T>(s: seq<T>) {
    forall i, j :: 0 <= i < j < |s| ==> s[i] != s[j]
  }

  function Elements<T>(s: seq<T>): (r: set<T>) {
    set x | x in s
  }

  function Insert<T>(x: T, s: seq<T>, le: (T, T) -> bool): (r: seq<T>) {
    if s == [] || le(x, s[0]) then [x] + s else [s[0]] + Insert(x, s[1..], le)
  }

  lemma {:induction false} InsertPermutes<T>(x: T, s: seq<T>, le: (T, T) -> bool)
    ensures multiset(Insert(x, s, le)) == multiset(s) + multiset{x}
  {
    if s != [] && !le(x, s[0]) {
      InsertPermutes(x, s[1..], le);
      assert s == [s[0]] + s[1..];
    }
  }

  lemma SortedCons<T>(x: T, s: seq<T>, le: (T, T) -> bool)
    requires SortedBy(s, le)
    requires forall y :: y in s ==> le(x, y)
    ensures SortedBy([x] + s, le)
  {
  }

  lemma {:induction false} InsertSorts<T(!new)>(x: T, s: seq<T>, le: (T, T) -> bool)
    requires TotalPreorder(le) && SortedBy(s, le)
    ensures SortedBy(Insert(x, s, le), le)
  {
    if s == [] {
    } else if le(x, s[0]) {
      forall y | y in s ensures le(x, y) {
        var i :| 0 <= i < |s| && s[i] == y;
        assert i == 0 || le(s[0], s[i]);
      }
      SortedCons(x, s, le);
    } else {
      InsertSorts(x, s[1..], le);
      forall y | y in Insert(x, s[1..], le) ensures le(s[0], y) {
        InsertPermutes(x, s[1..], le);
        assert y in multiset(Insert(x, s[1..], le));
        assert y == x || y in s[1..];
      }
      SortedCons(s[0], Insert(x, s[1..], le), le);
    }
  }

  /** One sorting algorithm; `SortSorts` is all that its callers use. */
  function Sort<T>(s: seq<T>, le: (T, T) -> bool): (r: seq<T>) {
    if s == [] then [] else Insert(s[0], Sort(s[1..], le), le)
  }

  lemma {:induction false} SortSorts<T(!new)>(s: seq<T>, le: (T, T) -> bool)
    requires TotalPreorder(le)
    ensures IsSortOf(Sort(s, le), s, le)
  {
    if s != [] {
      assert s == [s[0]] + s[1..];
      SortSorts(s[1..], le);
      InsertPermutes(s[0], Sort(s[1..], le), le);
      InsertSorts(s[0], Sort(s[1..], le), le);
    }
  }

  lemma SameElements<T>(a: seq<T>, b: seq<T>)
    requires multiset(a) == multiset(b)
    ensures |a| == |b|
    ensures forall x :: x in a <==> x in b
  {
    assert |a| == |multiset(a)| == |multiset(b)| == |b|;
    assert forall x :: x in a <==> x in multiset(a);
    assert forall x :: x in b <==> x in multiset(b);
  }

  /** The order tells apart any two elements that occur in the sequence. */
  ghost predicate Separates<T>(s: seq<T>, le: (T, T) -> bool) {
    forall i, j :: 0 <= i < |s| && 0 <= j < |s| && le(s[i], s[j]) && le(s[j], s[i]) ==> s[i] == s[j]
  }

  /** The least element comes first in every ordered permutation. */
  lemma SortedHeadIsUnique<T>(a: seq<T>, b: seq<T>, le: (T, T) -> bool)
    requires multiset(a) == multiset(b) && a != []
    requires SortedBy(a, le) && SortedBy(b, le) && Separates(a, le)
    ensures b != [] && a[0] == b[0]
  {
    SameElements(a, b);
    assert a[0] in b && b[0] in a;
    var i :| 0 <= i < |b| && b[i] == a[0];
    var j :| 0 <= j < |a| && a[j] == b[0];
    if i != 0 && j != 0 {
      assert le(b[0], b[i]) && le(a[0], a[j]);
      assert le(a[0], a[j]) && le(a[j], a[0]);
    }
  }

  lemma TailKeepsOrder<T>(s: seq<T>, le: (T, T) -> bool)
    requires s != [] && SortedBy(s, le)
    ensures SortedBy(s[1..], le)
    ensures multiset(s[1..]) == multiset(s) - multiset{s[0]}
    ensures Separates(s, le) ==> Separates(s[1..], le)
  {
    assert s == [s[0]] + s[1..];
  }

  /** Two ordered permutations of each other are the same sequence as soon as the order tells the
      elements that occur in them apart. */
  lemma {:induction false} SortedIsUnique<T>(a: seq<T>, b: seq<T>, le: (T, T) -> bool)
    requires multiset(a) == multiset(b)
    requires SortedBy(a, le) && SortedBy(b, le) && Separates(a, le)
    ensures a == b
    decreases |a|
  {
    if a == [] {
      SameElements(a, b);
    } else {
      SortedHeadIsUnique(a, b, le);
      TailKeepsOrder(a, le);
      TailKeepsOrder(b, le);
      SortedIsUnique(a[1..], b[1..], le);
      assert a == [a[0]] + a[1..] && b == [b[0]] + b[1..];
    }
  }

  lemma {:induction false} MultisetOfDistinct<T>(s: seq<T>)
    requires NoDuplicates(s)
    ensures multiset(s) == multiset(Elements(s))
  {
    if s != [] {
      assert s == [s[0]] + s[1..];
      MultisetOfDistinct(s[1..]);
      assert s[0] !in s[1..];
      assert Elements(s) == {s[0]} + Elements(s[1..]);
    }
  }

  lemma PermutationKeepsDistinct<T>(a: seq<T>, b: seq<T>)
    requires multiset(a) == multiset(b) && NoDuplicates(b)
    ensures NoDuplicates(a)
  {
    MultisetOfDistinct(b);
    forall i, j | 0 <= i < j < |a| ensures a[i] != a[j] {
      assert a == a[..i] + [a[i]] + a[i + 1..j] + [a[j]] + a[j + 1..];
      assert a[i] == a[j] ==> multiset(a)[a[i]] >= 2;
    }
  }

  /** Duplicate-free sequences over the same set are permutations of each other. */
  lemma DistinctSameSet<T>(a: seq<T>, b: seq<T>)
    requires NoDuplicates(a) && NoDuplicates(b)
    requires Elements(a) == Elements(b)
    ensures multiset(a) == multiset(b)
  {
    MultisetOfDistinct(a);
    MultisetOfDistinct(b);
  }

  function Map<T, U>(f: T -> U, s: seq<T>): (r: seq<U>) {
    seq(|s|, i requires 0 <= i < |s| => f(s[i]))
  }

  lemma MultisetOfMap<T, U>(f: T -> U, s: seq<T>, j: nat)
    requires j < |s|
    ensures multiset(s[..j] + s[j + 1..]) == multiset(s) - multiset{s[j]}
    ensures multiset(Map(f, s)) == multiset(Map(f, s[..j] + s[j + 1..])) + multiset{f(s[j])}
  {
    assert s == s[..j] + [s[j]] + s[j + 1..];
    assert Map(f, s) == Map(f, s[..j]) + [f(s[j])] + Map(f, s[j + 1..]);
    assert Map(f, s[..j] + s[j + 1..]) == Map(f, s[..j]) + Map(f, s[j + 1..]);
  }

  /** Mapping permutations gives permutations. */
  lemma {:induction false} MapPermutes<T, U>(f: T -> U, a: seq<T>, b: seq<T>)
    requires multiset(a) == multiset(b)
    ensures multiset(Map(f, a)) == multiset(Map(f, b))
    decreases |a|
  {
    SameElements(a, b);
    if a != [] {
      assert a[0] in b;
      var j :| 0 <= j < |b| && b[j] == a[0];
      MultisetOfMap(f, a, 0);
      MultisetOfMap(f, b, j);
      MapPermutes(f, a[..0] + a[1..], b[..j] + b[j + 1..]);
    }
  }

  // ---- Byte-wise order on strings, as Go's `<` on strings ----

  predicate StringLe(a: string, b: string) {
    a == [] || (b != [] && (a[0] < b[0] || (a[0] == b[0] && StringLe(a[1..], b[1..]))))
  }

  lemma {:induction false} StringLeAntisymmetric(a: string, b: string)
    requires StringLe(a, b) && StringLe(b, a)
    ensures a == b
  {
    if a != [] {
      StringLeAntisymmetric(a[1..], b[1..]);
      assert a == [a[0]] + a[1..] && b == [b[0]] + b[1..];
    }
  }

  lemma {:induction false} StringLeTransitive(a: string, b: string, c: string)
    requires StringLe(a, b) && StringLe(b, c)
    ensures StringLe(a, c)
  {
    if a != [] && a[0] == b[0] == c[0] {
      StringLeTransitive(a[1..], b[1..], c[1..]);
    }
  }

  lemma {:induction false} StringLeTotal(a: string, b: string)
    ensures StringLe(a, b) || StringLe(b, a)
  {
    if a != [] && b != [] && a[0] == b[0] {
      StringLeTotal(a[1..], b[1..]);
    }
  }

  lemma StringLeIsTotalOrder()
    ensures TotalPreorder(StringLe)
    ensures forall x, y :: StringLe(x, y) && StringLe(y, x) ==> x == y
  {
    forall x, y ensures StringLe(x, y) || StringLe(y, x) { StringLeTotal(x, y); }
    forall x, y, z | StringLe(x, y) && StringLe(y, z) ensures StringLe(x, z) { StringLeTransitive(x, y, z); }
    forall x, y | StringLe(x, y) && StringLe(y, x) ensures x == y { StringLeAntisymmetric(x, y); }
  }
}

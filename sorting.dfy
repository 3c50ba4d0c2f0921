/**
 * Ordering of labels and a sort by a total preorder, standing for pandas'
 * `sort_index` / `sort_values` and the sorted group keys of `groupby`.
 */
module Sorting {
  import opened Wrappers
  import opened Seqs

  /** `le` is total and transitive, as every sort key comparison used here is. */
  ghost predicate TotalPreorder<T(!new)>(le: (T, T) -> bool) {
    && (forall a, b :: le(a, b) || le(b, a))
    && (forall a, b, c :: le(a, b) && le(b, c) ==> le(a, c))
  }

  /** Every element is `le` every later one. */
  predicate SortedBy<T>(s: seq<T>, le: (T, T) -> bool) {
    forall i, j :: 0 <= i < j < |s| ==> le(s[i], s[j])
  }

  /** Inserts `x` into a sorted sequence before the first element it is `le` to. */
  function Insert<T(!new)>(x: T, s: seq<T>, le: (T, T) -> bool): (r: seq<T>)
    requires TotalPreorder(le) && SortedBy(s, le)
    ensures SortedBy(r, le)
    ensures multiset(r) == multiset(s) + multiset{x}
  {
    if s == [] then [x]
    else if le(x, s[0]) then [x] + s
    else
      var rest := Insert(x, s[1..], le);
      assert s == [s[0]] + s[1..];
      forall i | 0 <= i < |rest|
        ensures le(s[0], rest[i])
      {
        assert rest[i] in multiset(rest);
        if rest[i] != x {
          assert rest[i] in multiset(s[1..]);
          var k :| 0 <= k < |s[1..]| && s[1..][k] == rest[i];
          assert s[k + 1] == rest[i];
        }
      }
      [s[0]] + rest
  }

  /** An insertion sort: sorted by `le` and a permutation of the input. */
  function Sort<T(!new)>(s: seq<T>, le: (T, T) -> bool): (r: seq<T>)
    requires TotalPreorder(le)
    ensures SortedBy(r, le)
    ensures multiset(r) == multiset(s)
  {
    if s == [] then []
    else
      assert s == [s[0]] + s[1..];
      Insert(s[0], Sort(s[1..], le), le)
  }

  /** Python's string order: lexicographic by code point, a prefix first. */
  predicate StrLe(a: string, b: string) {
    if a == [] then true
    else if b == [] then false
    else if a[0] != b[0] then a[0] < b[0]
    else StrLe(a[1..], b[1..])
  }

  lemma {:induction false} StrLeTotal(a: string, b: string)
    ensures StrLe(a, b) || StrLe(b, a)
  {
    if a != [] && b != [] && a[0] == b[0] {
      StrLeTotal(a[1..], b[1..]);
    }
  }

  lemma {:induction false} StrLeAntisymmetric(a: string, b: string)
    requires StrLe(a, b) && StrLe(b, a)
    ensures a == b
  {
    if a != [] && b != [] {
      StrLeAntisymmetric(a[1..], b[1..]);
      assert a == [a[0]] + a[1..] && b == [b[0]] + b[1..];
    }
  }

  lemma {:induction false} StrLeTransitive(a: string, b: string, c: string)
    requires StrLe(a, b) && StrLe(b, c)
    ensures StrLe(a, c)
  {
    if a != [] && b != [] && c != [] && a[0] == b[0] && b[0] == c[0] {
      StrLeTransitive(a[1..], b[1..], c[1..]);
    }
  }

  /** The empty string sorts before every string. */
  lemma EmptyFirst(a: string)
    ensures StrLe("", a)
  {
  }

  lemma StrLeIsTotalPreorder()
    ensures TotalPreorder(StrLe)
  {
    forall a, b ensures StrLe(a, b) || StrLe(b, a) {
      StrLeTotal(a, b);
    }
    forall a, b, c | StrLe(a, b) && StrLe(b, c) ensures StrLe(a, c) {
      StrLeTransitive(a, b, c);
    }
  }

  /** Ascending order on a key that may be missing: NaN goes last, as `na_position="last"`. */
  predicate OptLe(a: Option<string>, b: Option<string>) {
    match a
    case None => b.None?
    case Some(x) => b.None? || StrLe(x, b.value)
  }

  lemma OptLeTotal(a: Option<string>, b: Option<string>)
    ensures OptLe(a, b) || OptLe(b, a)
  {
    if a.Some? && b.Some? {
      StrLeTotal(a.value, b.value);
    }
  }

  lemma OptLeAntisymmetric(a: Option<string>, b: Option<string>)
    requires OptLe(a, b) && OptLe(b, a)
    ensures a == b
  {
    if a.Some? && b.Some? {
      StrLeAntisymmetric(a.value, b.value);
    }
  }

  lemma OptLeTransitive(a: Option<string>, b: Option<string>, c: Option<string>)
    requires OptLe(a, b) && OptLe(b, c)
    ensures OptLe(a, c)
  {
    if a.Some? && b.Some? && c.Some? {
      StrLeTransitive(a.value, b.value, c.value);
    }
  }

  /** Ascending order of dates (days). */
  predicate IntLe(a: int, b: int) {
    a <= b
  }

  lemma IntLeIsTotalPreorder()
    ensures TotalPreorder(IntLe)
  {
  }

  /** The distinct elements of `s` in ascending order, as `groupby` keys come out. */
  function SortedDistinct<T(!new, ==)>(s: seq<T>, le: (T, T) -> bool): (r: seq<T>)
    requires TotalPreorder(le)
    ensures SortedBy(r, le) && NoDup(r)
    ensures forall i :: 0 <= i < |r| ==> r[i] in s
    ensures forall i :: 0 <= i < |s| ==> s[i] in r
  {
    var d := Distinct(s);
    var r := Sort(d, le);
    PermutationNoDup(d, r);
    assert forall x :: x in r <==> x in multiset(d);
    forall i | 0 <= i < |r| ensures r[i] in s {
      assert r[i] in multiset(d);
      var k :| 0 <= k < |d| && d[k] == r[i];
    }
    r
  }
}

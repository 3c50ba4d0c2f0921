/** Sequence operations behind the pipeline's list and mask manipulations. */
module Seqs {
  import opened Wrappers

  /** Boolean-mask selection `df[mask]`: the elements of `s` satisfying `p`, in order. */
  function Where<T>(s: seq<T>, p: T -> bool): (r: seq<T>)
    ensures |r| <= |s|
    ensures forall i :: 0 <= i < |r| ==> r[i] in s && p(r[i])
    ensures forall i :: 0 <= i < |s| && p(s[i]) ==> s[i] in r
  {
    if s == [] then [] else (if p(s[0]) then [s[0]] else []) + Where(s[1..], p)
  }

  /** Selection keeps each element that satisfies `p` as often as it occurs,
      and no other element. */
  lemma WhereCounts<T>(s: seq<T>, p: T -> bool)
    ensures forall x :: multiset(Where(s, p))[x] == if p(x) then multiset(s)[x] else 0
  {
    forall x ensures multiset(Where(s, p))[x] == if p(x) then multiset(s)[x] else 0 {
      WhereCount(s, p, x);
    }
  }

  lemma {:induction false} WhereCount<T>(s: seq<T>, p: T -> bool, x: T)
    ensures multiset(Where(s, p))[x] == if p(x) then multiset(s)[x] else 0
  {
    if s != [] {
      WhereCount(s[1..], p, x);
      assert s == [s[0]] + s[1..];
    }
  }

  /** `a` is `b` with some elements left out, the rest kept in order. */
  predicate IsSubseq<T(==)>(a: seq<T>, b: seq<T>)
    decreases |b|
  {
    a == [] || (b != [] && ((a[0] == b[0] && IsSubseq(a[1..], b[1..])) || IsSubseq(a, b[1..])))
  }

  /** A mask selection keeps the surviving elements in their original order. */
  lemma {:induction false} WhereIsSubseq<T>(s: seq<T>, p: T -> bool)
    ensures IsSubseq(Where(s, p), s)
  {
    if s != [] {
      WhereIsSubseq(s[1..], p);
      if p(s[0]) {
        assert Where(s, p) == [s[0]] + Where(s[1..], p);
        assert Where(s, p)[1..] == Where(s[1..], p);
      } else {
        assert Where(s, p) == Where(s[1..], p);
      }
    }
  }

  /** A selection over a concatenation is the concatenation of the selections. */
  lemma {:induction false} WhereConcat<T>(a: seq<T>, b: seq<T>, p: T -> bool)
    ensures Where(a + b, p) == Where(a, p) + Where(b, p)
  {
    if a != [] {
      var h := if p(a[0]) then [a[0]] else [];
      assert (a + b)[0] == a[0];
      assert (a + b)[1..] == a[1..] + b;
      WhereConcat(a[1..], b, p);
      calc {
        Where(a + b, p);
        h + Where(a[1..] + b, p);
        h + (Where(a[1..], p) + Where(b, p));
        (h + Where(a[1..], p)) + Where(b, p);
      }
    } else {
      assert a + b == b;
    }
  }

  /** Two successive mask selections select what their conjunction selects. */
  lemma {:induction false} WhereWhere<T>(s: seq<T>, p: T -> bool, q: T -> bool)
    ensures Where(Where(s, p), q) == Where(s, x => p(x) && q(x))
  {
    if s != [] {
      WhereWhere(s[1..], p, q);
      var w := Where(s, p);
      if p(s[0]) {
        assert w == [s[0]] + Where(s[1..], p);
        assert w[1..] == Where(s[1..], p);
        assert Where(w, q) == (if q(s[0]) then [s[0]] else []) + Where(w[1..], q);
      } else {
        assert w == Where(s[1..], p);
      }
    }
  }

  /** The same, for any predicate `pq` that is the conjunction on the elements of `s`. */
  lemma WhereBoth<T>(s: seq<T>, p: T -> bool, q: T -> bool, pq: T -> bool)
    requires forall i :: 0 <= i < |s| ==> pq(s[i]) == (p(s[i]) && q(s[i]))
    ensures Where(Where(s, p), q) == Where(s, pq)
  {
    WhereWhere(s, p, q);
    WhereCongruent(s, x => p(x) && q(x), pq);
  }

  /** Selections by predicates that agree on every element give the same result. */
  lemma {:induction false} WhereCongruent<T>(s: seq<T>, p: T -> bool, q: T -> bool)
    requires forall x :: x in s ==> p(x) == q(x)
    ensures Where(s, p) == Where(s, q)
  {
    if s != [] {
      WhereCongruent(s[1..], p, q);
    }
  }

  /** A selection commutes with an element-wise map `f` when the two
      predicates agree along it: selecting then mapping `a` gives the
      selection of `b`. */
  lemma {:induction false} WhereAlong<T, U>(a: seq<T>, b: seq<U>, f: T -> U, p: T -> bool, q: U -> bool)
    requires |a| == |b|
    requires forall i :: 0 <= i < |a| ==> f(a[i]) == b[i] && p(a[i]) == q(b[i])
    ensures |Where(a, p)| == |Where(b, q)|
    ensures forall i :: 0 <= i < |Where(a, p)| ==> f(Where(a, p)[i]) == Where(b, q)[i]
  {
    if a != [] {
      assert f(a[0]) == b[0] && p(a[0]) == q(b[0]);
      WhereAlong(a[1..], b[1..], f, p, q);
    }
  }

  /** The order in which two mask selections are applied does not matter. */
  lemma WhereCommutes<T>(s: seq<T>, p: T -> bool, q: T -> bool)
    ensures Where(Where(s, p), q) == Where(Where(s, q), p)
  {
    WhereWhere(s, p, q);
    WhereWhere(s, q, p);
    WhereCongruent(s, x => p(x) && q(x), x => q(x) && p(x));
  }

  /** No element occurs twice. */
  predicate NoDup<T(==)>(s: seq<T>) {
    forall i, j :: 0 <= i < j < |s| ==> s[i] != s[j]
  }

  /** An element occurs at most once in a sequence without duplicates. */
  lemma {:induction false} NoDupCount<T>(s: seq<T>, x: T)
    requires NoDup(s)
    ensures multiset(s)[x] <= 1
  {
    if s != [] {
      assert s == [s[0]] + s[1..];
      NoDupCount(s[1..], x);
      if s[0] == x {
        assert x !in s[1..];
      }
    }
  }

  /** Reordering a sequence without duplicates introduces none. */
  lemma PermutationNoDup<T>(a: seq<T>, b: seq<T>)
    requires multiset(a) == multiset(b) && NoDup(a)
    ensures NoDup(b)
  {
    forall i, j | 0 <= i < j < |b|
      ensures b[i] != b[j]
    {
      if b[i] == b[j] {
        assert b == b[..j] + b[j..];
        assert b[i] in b[..j] && b[j] in b[j..];
        assert multiset(b[..j])[b[i]] >= 1 && multiset(b[j..])[b[i]] >= 1;
        NoDupCount(a, b[i]);
      }
    }
  }

  /** The distinct elements of `s`, each at its first occurrence. */
  function Distinct<T(==)>(s: seq<T>): (r: seq<T>)
    ensures NoDup(r)
    ensures forall i :: 0 <= i < |r| ==> r[i] in s
    ensures forall i :: 0 <= i < |s| ==> s[i] in r
    decreases |s|
  {
    if s == [] then []
    else
      var rest := Distinct(Where(s[1..], x => x != s[0]));
      assert s[0] !in rest;
      [s[0]] + rest
  }

  /** `list.index(x)`: the first position of `x`, or None where Python raises. */
  function IndexOf<T(==)>(s: seq<T>, x: T): (r: Option<nat>)
    ensures r.None? <==> x !in s
    ensures r.Some? ==> r.value < |s| && s[r.value] == x && x !in s[..r.value]
  {
    if s == [] then None
    else if s[0] == x then Some(0)
    else
      var r := IndexOf(s[1..], x);
      if r.None? then None
      else
        assert s[1..][..r.value] == s[1..r.value + 1];
        Some(r.value + 1)
  }

  /** The number of occurrences of `x` in `s`. */
  function Count<T(==)>(s: seq<T>, x: T): (r: nat) {
    multiset(s)[x]
  }

  /** `s` with every occurrence of `x` taken out. */
  function Without<T(==)>(s: seq<T>, x: T): (r: seq<T>)
    ensures x !in r
  {
    if s == [] then [] else (if s[0] == x then [] else [s[0]]) + Without(s[1..], x)
  }

  lemma {:induction false} WithoutConcat<T>(a: seq<T>, b: seq<T>, x: T)
    ensures Without(a + b, x) == Without(a, x) + Without(b, x)
  {
    if a != [] {
      var h := if a[0] == x then [] else [a[0]];
      assert (a + b)[0] == a[0];
      assert (a + b)[1..] == a[1..] + b;
      WithoutConcat(a[1..], b, x);
      calc {
        Without(a + b, x);
        h + Without(a[1..] + b, x);
        h + (Without(a[1..], x) + Without(b, x));
        (h + Without(a[1..], x)) + Without(b, x);
      }
    } else {
      assert a + b == b;
    }
  }

  /** `list.remove(x)`: `s` without its first occurrence of `x` (unchanged when absent). */
  function RemoveFirst<T(==)>(s: seq<T>, x: T): (r: seq<T>)
    ensures multiset(r) == multiset(s) - multiset{x}
    ensures Without(r, x) == Without(s, x)
  {
    if s == [] then []
    else if s[0] == x then
      assert s == [s[0]] + s[1..];
      s[1..]
    else
      var r := [s[0]] + RemoveFirst(s[1..], x);
      assert s == [s[0]] + s[1..];
      assert r[1..] == RemoveFirst(s[1..], x);
      r
  }
}

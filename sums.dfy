/** Column sums over groups of rows, and the algebra that connects them. */
module Sums {
  import opened Wrappers
  import opened Text
  import opened Seqs
  import opened Enrich

  /** Summed quantity, revenue (`item-price`) and cost of a group of rows. */
  datatype Totals = Totals(quantity: real, price: real, cost: real)

  const Zero := Totals(0.0, 0.0, 0.0)

  function Add(a: Totals, b: Totals): (r: Totals) {
    Totals(a.quantity + b.quantity, a.price + b.price, a.cost + b.cost)
  }

  /** The selection that keeps every element: no key, row or order is left out. */
  predicate Everything<T>(x: T) {
    true
  }

  /** A quantity as `sum` counts it: a value that is not a number adds nothing. */
  function QuantityOf(c: Cell): (r: real) {
    if c.Num? then c.value else 0.0
  }

  /** What one order contributes to a sum; a NaN price adds nothing. */
  function Amounts(o: Order): (r: Totals) {
    Totals(QuantityOf(o.quantity), FillZero(o.price), o.cost)
  }

  /** The sum of `amount` over the elements of `s` satisfying `g`. */
  function SumIf<T>(s: seq<T>, amount: T -> Totals, g: T -> bool): (r: Totals) {
    if s == [] then Zero else Add(if g(s[0]) then amount(s[0]) else Zero, SumIf(s[1..], amount, g))
  }

  lemma {:induction false} SumIfCongruent<T>(s: seq<T>, amount: T -> Totals, g1: T -> bool, g2: T -> bool)
    requires forall i :: 0 <= i < |s| ==> g1(s[i]) == g2(s[i])
    ensures SumIf(s, amount, g1) == SumIf(s, amount, g2)
  {
    if s != [] {
      SumIfCongruent(s[1..], amount, g1, g2);
    }
  }

  lemma AddShuffle(a: Totals, b: Totals, c: Totals, d: Totals)
    ensures Add(Add(a, b), Add(c, d)) == Add(Add(a, c), Add(b, d))
  {
  }

  /** Sums over two disjoint selections add up to the sum over their union `u`. */
  lemma {:induction false} SumIfUnion<T>(s: seq<T>, amount: T -> Totals, g1: T -> bool, g2: T -> bool, u: T -> bool)
    requires forall i :: 0 <= i < |s| ==> !(g1(s[i]) && g2(s[i]))
    requires forall i :: 0 <= i < |s| ==> u(s[i]) == (g1(s[i]) || g2(s[i]))
    ensures Add(SumIf(s, amount, g1), SumIf(s, amount, g2)) == SumIf(s, amount, u)
  {
    if s != [] {
      var t := s[1..];
      assert forall i :: 0 <= i < |t| ==> t[i] == s[i + 1];
      SumIfUnion(t, amount, g1, g2, u);
      var h1 := if g1(s[0]) then amount(s[0]) else Zero;
      var h2 := if g2(s[0]) then amount(s[0]) else Zero;
      var hu := if u(s[0]) then amount(s[0]) else Zero;
      assert hu == Add(h1, h2);
      AddShuffle(h1, SumIf(t, amount, g1), h2, SumIf(t, amount, g2));
    }
  }

  /** The sum over the elements whose key is `k`. */
  function KeySum<T, K(==)>(s: seq<T>, amount: T -> Totals, keyOf: T -> Option<K>, k: K): (r: Totals) {
    if s == [] then Zero
    else Add(if keyOf(s[0]) == Some(k) then amount(s[0]) else Zero, KeySum(s[1..], amount, keyOf, k))
  }

  /** A per-key sum is the sum over any selection that picks exactly that key. */
  lemma {:induction false} KeySumIsSumIf<T, K>(s: seq<T>, amount: T -> Totals, keyOf: T -> Option<K>, k: K, g: T -> bool)
    requires forall i :: 0 <= i < |s| ==> g(s[i]) == (keyOf(s[i]) == Some(k))
    ensures KeySum(s, amount, keyOf, k) == SumIf(s, amount, g)
  {
    if s != [] {
      var t := s[1..];
      assert forall i :: 0 <= i < |t| ==> t[i] == s[i + 1];
      KeySumIsSumIf(t, amount, keyOf, k, g);
    }
  }

  /** The sum of the per-key sums of those `keys` that satisfy `sel`. */
  function SelectedSum<T, K(==)>(s: seq<T>, amount: T -> Totals, keyOf: T -> Option<K>, keys: seq<K>, sel: K -> bool): (r: Totals) {
    if keys == [] then Zero
    else Add(if sel(keys[0]) then KeySum(s, amount, keyOf, keys[0]) else Zero,
             SelectedSum(s, amount, keyOf, keys[1..], sel))
  }

  /** The elements whose key is among `keys` and satisfies `sel`. */
  predicate KeyedIn<K(==)>(key: Option<K>, keys: seq<K>, sel: K -> bool) {
    key.Some? && key.value in keys && sel(key.value)
  }

  /** The partition law: summing the per-key sums of distinct keys is summing
      once over every element whose key is one of them (selected by `u`). */
  lemma {:induction false} SelectedSumPartition<T, K>(s: seq<T>, amount: T -> Totals, keyOf: T -> Option<K>, keys: seq<K>, sel: K -> bool, u: T -> bool)
    requires NoDup(keys)
    requires forall i :: 0 <= i < |s| ==> u(s[i]) == KeyedIn(keyOf(s[i]), keys, sel)
    ensures SelectedSum(s, amount, keyOf, keys, sel) == SumIf(s, amount, u)
  {
    if keys == [] {
      SumIfCongruent(s, amount, u, _ => false);
      SumIfNone(s, amount);
    } else {
      var k, rest := keys[0], keys[1..];
      assert NoDup(rest);
      var inRest := x => KeyedIn(keyOf(x), rest, sel);
      SelectedSumPartition(s, amount, keyOf, rest, sel, inRest);
      forall i | 0 <= i < |s|
        ensures u(s[i]) == ((sel(k) && keyOf(s[i]) == Some(k)) || inRest(s[i]))
      {
        KeyedInCons(keyOf(s[i]), keys, sel);
      }
      if sel(k) {
        var isK := x => keyOf(x) == Some(k);
        KeySumIsSumIf(s, amount, keyOf, k, isK);
        assert forall i :: 0 <= i < |s| ==> !(isK(s[i]) && inRest(s[i])) by {
          forall i | 0 <= i < |s| && isK(s[i])
            ensures !inRest(s[i])
          {
            assert k !in rest;
          }
        }
        SumIfUnion(s, amount, isK, inRest, u);
      } else {
        SumIfCongruent(s, amount, inRest, u);
        assert Add(Zero, SumIf(s, amount, inRest)) == SumIf(s, amount, inRest);
      }
    }
  }

  lemma KeyedInCons<K>(key: Option<K>, keys: seq<K>, sel: K -> bool)
    requires keys != []
    ensures KeyedIn(key, keys, sel) == ((sel(keys[0]) && key == Some(keys[0])) || KeyedIn(key, keys[1..], sel))
  {
    assert keys == [keys[0]] + keys[1..];
  }

  lemma {:induction false} SumIfNone<T>(s: seq<T>, amount: T -> Totals)
    ensures SumIf(s, amount, _ => false) == Zero
  {
    if s != [] {
      SumIfNone(s[1..], amount);
    }
  }

  /** The values of the keys present in `s`, in order. */
  function Collect<T, K>(s: seq<T>, keyOf: T -> Option<K>): (r: seq<K>)
    ensures forall i :: 0 <= i < |s| && keyOf(s[i]).Some? ==> keyOf(s[i]).value in r
    ensures forall i :: 0 <= i < |r| ==> exists j :: 0 <= j < |s| && keyOf(s[j]) == Some(r[i])
  {
    if s == [] then []
    else
      var rest := Collect(s[1..], keyOf);
      var r := (if keyOf(s[0]).Some? then [keyOf(s[0]).value] else []) + rest;
      assert forall i :: 0 <= i < |rest| ==> exists j :: 0 <= j < |s| && keyOf(s[j]) == Some(rest[i]) by {
        forall i | 0 <= i < |rest|
          ensures exists j :: 0 <= j < |s| && keyOf(s[j]) == Some(rest[i])
        {
          var j :| 0 <= j < |s[1..]| && keyOf(s[1..][j]) == Some(rest[i]);
          assert keyOf(s[j + 1]) == Some(rest[i]);
        }
      }
      r
  }
}

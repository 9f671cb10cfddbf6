/** Sums over finite maps of amounts, for wait lists keyed by user and batch. */
module Sums {
  import opened Fixed

  /** A wait-list key: the user and the batch the request belongs to. */
  datatype Ticket = Ticket(user: string, batch: nat)

  type Amounts = map<Ticket, nat>

  /** The sum of all values, taken in any order (see `SumRemove`). */
  ghost function Sum(m: Amounts): nat
    decreases |m|
  {
    if m == map[] then 0
    else
      var k :| k in m;
      assert |m - {k}| < |m| by { SmallerWithout(m, k); }
      m[k] + Sum(m - {k})
  }

  lemma SmallerWithout(m: Amounts, k: Ticket)
    requires k in m
    ensures |m - {k}| == |m| - 1
  {
    assert (m - {k}).Keys == m.Keys - {k};
  }

  /** Any key may be taken out first. */
  lemma {:induction false} SumRemove(m: Amounts, k: Ticket)
    requires k in m
    ensures Sum(m) == m[k] + Sum(m - {k})
    decreases |m|
  {
    var k0 :| k0 in m && Sum(m) == m[k0] + Sum(m - {k0});
    if k0 != k {
      SmallerWithout(m, k0);
      SumRemove(m - {k0}, k);
      SmallerWithout(m, k);
      SumRemove(m - {k}, k0);
      assert m - {k0} - {k} == m - {k} - {k0};
    }
  }

  lemma SumInsert(m: Amounts, k: Ticket, v: nat)
    requires k !in m
    ensures Sum(m[k := v]) == Sum(m) + v
  {
    SumRemove(m[k := v], k);
    assert m[k := v] - {k} == m;
  }

  /** Replacing or adding one value changes the sum by the difference. */
  lemma SumUpdate(m: Amounts, k: Ticket, v: nat)
    ensures Sum(m[k := v]) + (if k in m then m[k] else 0) == Sum(m) + v
  {
    if k in m {
      SumRemove(m, k);
      SumRemove(m[k := v], k);
      assert m[k := v] - {k} == m - {k};
    } else {
      SumInsert(m, k, v);
    }
  }

  lemma {:induction false} SumSplit(a: Amounts, b: Amounts)
    requires a.Keys !! b.Keys
    ensures Sum(a + b) == Sum(a) + Sum(b)
    decreases |a|
  {
    if a == map[] {
      assert a + b == b;
    } else {
      var k :| k in a;
      SumRemove(a, k);
      SmallerWithout(a, k);
      SumSplit(a - {k}, b);
      MergeWithout(a, b, k);
      SumRemove(a + b, k);
    }
  }

  lemma MergeWithout(a: Amounts, b: Amounts, k: Ticket)
    requires k in a && k !in b
    ensures (a + b)[k] == a[k]
    ensures (a + b) - {k} == (a - {k}) + b
  {
  }

  lemma {:induction false} SumMono(a: Amounts, b: Amounts)
    requires a.Keys <= b.Keys
    requires forall k | k in a :: a[k] <= b[k]
    ensures Sum(a) <= Sum(b)
    decreases |a|
  {
    if a != map[] {
      var k :| k in a;
      SumRemove(a, k);
      SumRemove(b, k);
      SmallerWithout(a, k);
      SumMono(a - {k}, b - {k});
    }
  }

  /** Every amount converted at a decimal rate and floored on its own. */
  function FloorEach(m: Amounts, rate: nat): Amounts {
    map k | k in m :: Floor(m[k] * rate, ONE)
  }

  lemma FloorEachWithout(m: Amounts, rate: nat, k: Ticket)
    requires k in m
    ensures FloorEach(m, rate) - {k} == FloorEach(m - {k}, rate)
  {
  }

  /** Flooring ticket by ticket pays at most the floor of the whole. */
  lemma {:induction false} SumOfFloors(m: Amounts, rate: nat)
    ensures Sum(FloorEach(m, rate)) * ONE <= Sum(m) * rate
    decreases |m|
  {
    var f := FloorEach(m, rate);
    if m == map[] {
      assert f == map[];
    } else {
      var k :| k in m;
      var rest := m - {k};
      SmallerWithout(m, k);
      SumOfFloors(rest, rate);
      SumRemove(m, k);
      SumRemove(f, k);
      FloorEachWithout(m, rate, k);
      AddFloors(m[k], Sum(rest), rate, Sum(f - {k}), Sum(m), Sum(f));
    }
  }

  lemma AddFloors(v: nat, rest: nat, rate: nat, paid: nat, total: nat, out: nat)
    requires paid * ONE <= rest * rate
    requires total == v + rest && out == Floor(v * rate, ONE) + paid
    ensures out * ONE <= total * rate
  {
    assert total * rate == v * rate + rest * rate;
  }

  /** ... and at least the whole less one unit, short of an atomic, per ticket. */
  lemma {:induction false} SumOfFloorsLower(m: Amounts, rate: nat)
    ensures Sum(m) * rate <= Sum(FloorEach(m, rate)) * ONE + |m| * (ONE - 1)
    decreases |m|
  {
    var f := FloorEach(m, rate);
    if m != map[] {
      var k :| k in m;
      var rest := m - {k};
      SmallerWithout(m, k);
      SumOfFloorsLower(rest, rate);
      SumRemove(m, k);
      SumRemove(f, k);
      FloorEachWithout(m, rate, k);
      AddFloorsLower(m[k], Sum(rest), rate, Sum(f - {k}), |rest|);
    }
  }

  lemma AddFloorsLower(v: nat, rest: nat, rate: nat, paid: nat, n: nat)
    requires rest * rate <= paid * ONE + n * (ONE - 1)
    ensures (v + rest) * rate <= (Floor(v * rate, ONE) + paid) * ONE + (n + 1) * (ONE - 1)
  {
    assert (v + rest) * rate == v * rate + rest * rate;
  }
}

/** What the random choices of the allocator amount to: draining the delegations in any order. */
module Shuffles {
  import opened Fixed
  import opened HubTypes
  import opened Undelegation

  /** Every index in range can be drawn. */
  lemma ChosenIsDraw(draw: Draws, i: nat, n: nat)
    requires draw(i) < n
    ensures Chosen(draw, i, n) == draw(i)
  {
  }

  /** The delegations in the order in which they are drawn. */
  function Drawn(ds: seq<Delegation>, draw: Draws, i: nat): seq<Delegation>
    decreases |ds|
  {
    if ds == [] then []
    else
      var k := Chosen(draw, i, |ds|);
      [ds[k]] + Drawn(Without(ds, k), draw, i + 1)
  }

  /** Taking a claim from a list of delegations from the front. */
  function Drain(ds: seq<Delegation>, claim: nat): Result<seq<Msg>>
    decreases |ds|
  {
    if claim == 0 then Ok([])
    else if ds == [] then Err(NoDelegation)
    else
      var taken := Min(ds[0].amount, claim);
      var rest :- Drain(ds[1..], claim - taken);
      Ok(if taken > 0 then [Undelegate(ds[0].validator, taken)] + rest else rest)
  }

  /** Removing random entries one by one is draining the delegations in a shuffled order. */
  lemma {:induction false} PickDrains(ds: seq<Delegation>, claim: nat, draw: Draws, i: nat)
    ensures Pick(ds, claim, draw, i) == Drain(Drawn(ds, draw, i), claim)
    decreases |ds|
  {
    if claim > 0 && ds != [] {
      var k := Chosen(draw, i, |ds|);
      var taken := Min(ds[k].amount, claim);
      PickDrains(Without(ds, k), claim - taken, draw, i + 1);
      assert Drawn(ds, draw, i)[1..] == Drawn(Without(ds, k), draw, i + 1);
    }
  }

  /** Earlier draws do not matter. */
  lemma {:induction false} DrawnFrame(ds: seq<Delegation>, draw: Draws, other: Draws, i: nat)
    requires forall j: nat | j >= i :: draw(j) == other(j)
    ensures Drawn(ds, draw, i) == Drawn(ds, other, i)
    decreases |ds|
  {
    if ds != [] {
      DrawnFrame(Without(ds, Chosen(draw, i, |ds|)), draw, other, i + 1);
    }
  }

  /** The order is a permutation of the delegations... */
  lemma {:induction false} DrawnPermutes(ds: seq<Delegation>, draw: Draws, i: nat)
    ensures multiset(Drawn(ds, draw, i)) == multiset(ds)
    decreases |ds|
  {
    if ds != [] {
      var k := Chosen(draw, i, |ds|);
      WithoutOne(ds, k);
      DrawnPermutes(Without(ds, k), draw, i + 1);
    }
  }

  lemma RestPermutes(ds: seq<Delegation>, order: seq<Delegation>, k: nat)
    requires k < |ds| && order != [] && ds[k] == order[0] && multiset(order) == multiset(ds)
    ensures multiset(order[1..]) == multiset(Without(ds, k)) && |Without(ds, k)| < |ds|
  {
    WithoutOne(ds, k);
    assert order == [order[0]] + order[1..];
    assert multiset(order) - multiset{order[0]} == multiset(order[1..]);
    assert multiset(ds) - multiset{ds[k]} == multiset(Without(ds, k));
  }

  /** ... and any permutation can be drawn. */
  lemma {:induction false} AnyOrderIsDrawn(ds: seq<Delegation>, order: seq<Delegation>, i: nat) returns (draw: Draws)
    requires multiset(order) == multiset(ds)
    ensures Drawn(ds, draw, i) == order
    decreases |ds|
  {
    hide Chosen, Without;
    assert |multiset(order)| == |order| && |multiset(ds)| == |ds|;
    if ds == [] {
      draw := j => 0;
    } else {
      assert order[0] in multiset(order);
      var k :| 0 <= k < |ds| && ds[k] == order[0];
      RestPermutes(ds, order, k);
      var later := AnyOrderIsDrawn(Without(ds, k), order[1..], i + 1);
      draw := j => if j == i then k else later(j);
      ChosenIsDraw(draw, i, |ds|);
      DrawnFrame(Without(ds, k), draw, later, i + 1);
    }
  }

  /** So the allocator can come out as draining the delegations in any order at all, and in no
      other way (`PickDrains`, `DrawnPermutes`). */
  lemma AnyOrderCanHappen(ds: seq<Delegation>, order: seq<Delegation>, claim: nat) returns (draw: Draws)
    requires multiset(order) == multiset(ds)
    ensures Pick(ds, claim, draw, 0) == Drain(order, claim)
  {
    draw := AnyOrderIsDrawn(ds, order, 0);
    PickDrains(ds, claim, draw, 0);
  }
}

/** Splitting an undelegation over the hub's delegations, one arbitrary choice at a time. */
module Undelegation {
  import opened Fixed
  import opened HubTypes

  /** The draws of the random generator, one per iteration: arbitrary numbers, so that
      `Chosen` is an arbitrary in-range choice. */
  type Draws = nat -> nat

  function Chosen(draw: Draws, i: nat, n: nat): (k: nat)
    requires n > 0
    ensures k < n
  {
    Min(draw(i), n - 1)
  }

  function Without(ds: seq<Delegation>, k: nat): seq<Delegation>
    requires k < |ds|
  {
    ds[..k] + ds[k + 1..]
  }

  /** The undelegate messages for `claim`: drain chosen delegations until the claim is met. */
  function Pick(ds: seq<Delegation>, claim: nat, draw: Draws, i: nat): Result<seq<Msg>>
    decreases |ds|
  {
    if claim == 0 then Ok([])
    else if ds == [] then Err(NoDelegation)
    else
      var d := ds[Chosen(draw, i, |ds|)];
      var taken := Min(d.amount, claim);
      var rest :- Pick(Without(ds, Chosen(draw, i, |ds|)), claim - taken, draw, i + 1);
      Ok(if taken > 0 then [Undelegate(d.validator, taken)] + rest else rest)
  }

  lemma {:induction false} TotalWithout(ds: seq<Delegation>, k: nat)
    requires k < |ds|
    ensures TotalDelegated(Without(ds, k)) + ds[k].amount == TotalDelegated(ds)
  {
    if k == 0 {
      assert Without(ds, k) == ds[1..];
    } else {
      TotalWithout(ds[1..], k - 1);
      assert Without(ds, k)[1..] == Without(ds[1..], k - 1);
    }
  }

  /** Removing one entry removes exactly that entry. */
  lemma WithoutOne(ds: seq<Delegation>, k: nat)
    requires k < |ds|
    ensures multiset(ds) == multiset(Without(ds, k)) + multiset{ds[k]}
  {
    assert ds == ds[..k] + [ds[k]] + ds[k + 1..];
  }

  lemma WithoutKeeps(ds: seq<Delegation>, k: nat)
    requires k < |ds| && DistinctValidators(ds)
    ensures DistinctValidators(Without(ds, k))
    ensures forall e | e in Without(ds, k) :: e in ds && e.validator != ds[k].validator
  {
    forall e | e in Without(ds, k) ensures e in ds && e.validator != ds[k].validator {
      var j :| 0 <= j < |ds| - 1 && Without(ds, k)[j] == e;
      var i := if j < k then j else j + 1;
      assert e == ds[i] && i != k;
    }
  }

  /** One iteration of `Pick`. */
  lemma PickOnce(ds: seq<Delegation>, claim: nat, draw: Draws, i: nat)
      returns (k: nat, taken: nat, tail: Result<seq<Msg>>)
    requires claim > 0 && ds != []
    ensures k < |ds| && taken == Min(ds[k].amount, claim)
    ensures |Without(ds, k)| < |ds|
    ensures tail == Pick(Without(ds, k), claim - taken, draw, i + 1)
    ensures Pick(ds, claim, draw, i) ==
              if tail.Ok? && taken > 0 then Ok([Undelegate(ds[k].validator, taken)] + tail.value)
              else tail
  {
    k := Chosen(draw, i, |ds|);
    taken := Min(ds[k].amount, claim);
    tail := Pick(Without(ds, k), claim - taken, draw, i + 1);
  }

  lemma PickStops(ds: seq<Delegation>, claim: nat, draw: Draws, i: nat)
    ensures claim == 0 ==> Pick(ds, claim, draw, i) == Ok([])
    ensures claim > 0 && ds == [] ==> Pick(ds, claim, draw, i).Err?
  {
  }

  /** Whatever is drawn, the claim can be split exactly when it is at most the sum of the
      delegations; then the emitted amounts are positive and sum to the claim. */
  lemma {:induction false} PickSplitsTheClaim(ds: seq<Delegation>, claim: nat, draw: Draws, i: nat)
    ensures Pick(ds, claim, draw, i).Ok? <==> claim <= TotalDelegated(ds)
    ensures Pick(ds, claim, draw, i).Ok? ==> SplitsInto(Pick(ds, claim, draw, i).value, claim)
    decreases |ds|
  {
    hide Pick, Without;
    PickStops(ds, claim, draw, i);
    if claim > 0 && ds != [] {
      var k, taken, tail := PickOnce(ds, claim, draw, i);
      TotalWithout(ds, k);
      PickSplitsTheClaim(Without(ds, k), claim - taken, draw, i + 1);
      if tail.Ok? && taken > 0 {
        SplitsCons(ds[k].validator, taken, tail.value, claim - taken);
      }
    }
  }

  /** The messages are undelegations of positive amounts that sum to `claim`. */
  predicate SplitsInto(msgs: seq<Msg>, claim: nat)
    decreases |msgs|
  {
    if msgs == [] then claim == 0
    else
      && msgs[0].Undelegate?
      && 0 < msgs[0].amount <= claim
      && SplitsInto(msgs[1..], claim - msgs[0].amount)
  }

  lemma SplitsCons(validator: string, taken: nat, tail: seq<Msg>, rest: nat)
    requires taken > 0 && SplitsInto(tail, rest)
    ensures SplitsInto([Undelegate(validator, taken)] + tail, taken + rest)
  {
    assert ([Undelegate(validator, taken)] + tail)[1..] == tail;
  }

  /** Message `m` takes all or part of delegation `d`. */
  predicate TakesFrom(m: Msg, d: Delegation) {
    m.Undelegate? && m.validator == d.validator && 0 < m.amount <= d.amount
  }

  /** Message by message the delegations in `used` are taken from, and all but the last
      are drained. */
  ghost predicate Drains(msgs: seq<Msg>, used: seq<Delegation>) {
    && |used| == |msgs|
    && (forall j | 0 <= j < |msgs| :: TakesFrom(msgs[j], used[j]))
    && (forall j | 0 <= j < |msgs| - 1 :: msgs[j].amount == used[j].amount)
  }

  /** The emitted messages use pairwise different entries of the delegation list -- `used`,
      a sub-multiset of it, lists them in order -- each within its amount, and every message
      but the last drains its delegation. */
  lemma {:induction false} PickUsesEachOnce(ds: seq<Delegation>, claim: nat, draw: Draws, i: nat)
      returns (used: seq<Delegation>)
    requires claim <= TotalDelegated(ds)
    ensures Pick(ds, claim, draw, i).Ok?
    ensures Drains(Pick(ds, claim, draw, i).value, used)
    ensures multiset(used) <= multiset(ds)
    decreases |ds|
  {
    hide Pick, Without;
    PickStops(ds, claim, draw, i);
    used := [];
    if claim > 0 {
      var k, taken, tail := PickOnce(ds, claim, draw, i);
      TotalWithout(ds, k);
      WithoutOne(ds, k);
      used := PickUsesEachOnce(Without(ds, k), claim - taken, draw, i + 1);
      if taken > 0 {
        PickStops(Without(ds, k), claim - taken, draw, i + 1);
        used := [ds[k]] + used;
      }
    }
  }

  /** Every entry of `ds` is still delegated in `held`. */
  ghost predicate StillHeld(ds: seq<Delegation>, held: seq<Delegation>) {
    forall d | d in ds :: d in held
  }

  /** The chain takes an undelegation within an amount it holds, and leaves every other
      validator's delegation alone. */
  lemma {:induction false} UndelegatedHeld(held: seq<Delegation>, d: Delegation, amount: nat)
    requires DistinctValidators(held) && d in held && 0 < amount <= d.amount
    ensures Undelegated(held, d.validator, amount).Ok?
    ensures var after := Undelegated(held, d.validator, amount).value;
      && TotalDelegated(after) + amount == TotalDelegated(held)
      && DistinctValidators(after)
      && (forall e | e in held && e.validator != d.validator :: e in after)
      && (forall e | e in after :: HasValidator(held, e.validator))
  {
    assert held == [held[0]] + held[1..];
    if held[0] == d {
      var after := Undelegated(held, d.validator, amount).value;
      if held[0].amount == amount {
        assert after == held[1..];
      } else {
        assert after[1..] == held[1..];
      }
    } else {
      assert d in held[1..];
      assert held[0].validator != d.validator;
      UndelegatedHeld(held[1..], d, amount);
      ConsDistinct(held, Undelegated(held[1..], d.validator, amount).value);
    }
  }

  lemma ConsDistinct(held: seq<Delegation>, rest: seq<Delegation>)
    requires held != [] && DistinctValidators(held) && DistinctValidators(rest)
    requires forall e | e in rest :: HasValidator(held[1..], e.validator)
    ensures DistinctValidators([held[0]] + rest)
    ensures forall e | e in [held[0]] + rest :: HasValidator(held, e.validator)
    ensures ([held[0]] + rest)[1..] == rest
  {
    forall e | e in rest ensures e.validator != held[0].validator && HasValidator(held, e.validator) {
      var k :| 0 <= k < |held[1..]| && held[1..][k].validator == e.validator;
      assert held[k + 1].validator == e.validator;
    }
    var after := [held[0]] + rest;
    forall j | 1 <= j < |after| ensures after[j].validator != held[0].validator {
      assert after[j] in rest;
    }
  }

  lemma AcceptedCons(c: Chain, next: Chain, msg: Msg, tail: seq<Msg>, claim: nat)
    requires Apply(c, msg) == Ok(next) && msg.Undelegate?
    requires TotalDelegated(next.delegations) + msg.amount == TotalDelegated(c.delegations)
    requires Accepted(next, tail, claim)
    ensures Accepted(c, [msg] + tail, msg.amount + claim)
  {
    assert ([msg] + tail)[1..] == tail;
  }

  /** The chain accepts all emitted messages, and the hub's delegations then sum to the
      claim less. */
  lemma {:induction false} PickIsAccepted(ds: seq<Delegation>, claim: nat, draw: Draws, i: nat, c: Chain)
    requires claim <= TotalDelegated(ds)
    requires DistinctValidators(ds) && DistinctValidators(c.delegations)
    requires StillHeld(ds, c.delegations)
    ensures Pick(ds, claim, draw, i).Ok?
    ensures Accepted(c, Pick(ds, claim, draw, i).value, claim)
    decreases |ds|
  {
    hide Pick, Without;
    PickStops(ds, claim, draw, i);
    if claim > 0 {
      var k, taken, tail := PickOnce(ds, claim, draw, i);
      TotalWithout(ds, k);
      WithoutKeeps(ds, k);
      if taken > 0 {
        UndelegatedHeld(c.delegations, ds[k], taken);
        var next := c.(delegations := Undelegated(c.delegations, ds[k].validator, taken).value);
        PickIsAccepted(Without(ds, k), claim - taken, draw, i + 1, next);
        AcceptedCons(c, next, Undelegate(ds[k].validator, taken), tail.value, claim - taken);
      } else {
        PickIsAccepted(Without(ds, k), claim - taken, draw, i + 1, c);
      }
    }
  }

  /** The chain applies all of `msgs`, changing nothing but the delegations, which go down
      by `claim`. */
  ghost predicate Accepted(c: Chain, msgs: seq<Msg>, claim: nat) {
    match ApplyAll(c, msgs)
    case Err(_) => false
    case Ok(after) =>
      && after == c.(delegations := after.delegations)
      && TotalDelegated(after.delegations) + claim == TotalDelegated(c.delegations)
      && DistinctValidators(after.delegations)
  }
}

/** What a successful transaction does to the hub and the chain, call by call. */
module Effects {
  import opened Fixed
  import opened HubTypes
  import opened ExchangeRate
  import opened Undelegation
  import opened HubSteps

  /** A chain that differs only in its delegations, still one per validator. */
  ghost predicate OnlyDelegations(before: Chain, after: Chain) {
    && after == before.(delegations := after.delegations)
    && DistinctValidators(after.delegations)
  }

  /** The undelegations of an epoch are always accepted, and the recorded bond and the
      delegations go down together. */
  lemma EpochEffect(s: Storage, c: Chain, draw: nat -> nat)
    requires DistinctValidators(c.delegations) && EpochStep(s, c, draw).Ok?
    ensures Accepted(c, EpochStep(s, c, draw).value.1, s.totalBond - EpochStep(s, c, draw).value.0.totalBond)
  {
    var value := BatchValue(s);
    PickSplitsTheClaim(c.delegations, value, draw, 0);
    PickIsAccepted(c.delegations, value, draw, 0, c);
  }

  lemma ApplyOne(c: Chain, m: Msg)
    ensures ApplyAll(c, [m]) == Apply(c, m)
  {
    assert [m][1..] == [];
  }

  lemma ApplyTwo(c: Chain, m: Msg, n: Msg)
    requires Apply(c, m).Ok?
    ensures ApplyAll(c, [m, n]) == Apply(Apply(c, m).value, n)
  {
    assert [m, n][1..] == [n];
    ApplyOne(Apply(c, m).value, n);
  }

  /** The chain takes everything an unbond emits: the tokens are burnt and, if the batch
      closes, its value is undelegated; the delegations go down by as much as the bond
      recorded after the slashing check. */
  lemma UnbondEffect(s: Storage, c: Chain, p: Settings, sender: string, amount: nat, draw: nat -> nat)
    requires DistinctValidators(c.delegations)
    requires UnbondStep(s, c, p, sender, amount, draw).Ok?
    ensures amount <= c.supply
    ensures var sent := ApplyAll(c, UnbondStep(s, c, p, sender, amount, draw).value.1);
      && sent.Ok?
      && OnlyDelegations(c.(supply := c.supply - amount), sent.value)
      && TotalDelegated(c.delegations) - TotalDelegated(sent.value.delegations)
         == SlashingStep(s, c).value.totalBond - UnbondStep(s, c, p, sender, amount, draw).value.0.totalBond
  {
    var checked := SlashingStep(s, c).value;
    var asked := RequestStep(checked, c.supply, p, sender, amount).value;
    if c.now - asked.lastUnbondedTime > p.epochPeriod {
      EpochEffect(asked, c, draw);
      var msgs := EpochStep(asked, c, draw).value.1;
      ApplyConcat(c, msgs, [Burn(amount)]);
      ApplyOne(ApplyAll(c, msgs).value, Burn(amount));
    } else {
      ApplyOne(c, Burn(amount));
    }
  }

  /** A bond passes its payment on to the validator: the liquid balance is what it was
      before the payment was attached. */
  lemma BondEffect(s: Storage, c: Chain, paid: Chain, op: Op, r: (Storage, seq<Msg>))
    requires DistinctValidators(c.delegations)
    requires op.Bond? && paid == Attached(c, op)
    requires BondStep(s, paid, op.p, op.sender, op.validator, op.payment) == Ok(r)
    ensures |r.1| == 2 && r.1[1].Mint?
    ensures ApplyAll(paid, r.1).Ok?
    ensures OnlyDelegations(c.(supply := c.supply + r.1[1].amount), ApplyAll(paid, r.1).value)
    ensures SlashingStep(s, paid).Ok? && r.0.totalBond == SlashingStep(s, paid).value.totalBond + op.payment
    ensures TotalDelegated(ApplyAll(paid, r.1).value.delegations) == TotalDelegated(c.delegations) + op.payment
  {
    DelegatedTotal(c.delegations, op.validator, op.payment);
    DelegatedDistinct(c.delegations, op.validator, op.payment);
    ApplyTwo(paid, r.1[0], r.1[1]);
  }

  /** A reward is passed on entirely: the floored fee to the collector, the rest delegated
      and added to the recorded bond. */
  lemma RewardEffect(s: Storage, c: Chain, paid: Chain, op: Op, r: (Storage, seq<Msg>))
    requires DistinctValidators(c.delegations)
    requires op.Reward? && paid == Attached(c, op)
    requires RewardStep(s, paid, op.p, op.sender, op.payment, op.draw) == Ok(r)
    ensures ApplyAll(paid, r.1).Ok?
    ensures OnlyDelegations(c, ApplyAll(paid, r.1).value)
    ensures s.totalBond <= r.0.totalBond <= s.totalBond + op.payment
    ensures var fee := op.payment - (r.0.totalBond - s.totalBond);
      fee * ONE <= op.payment * op.p.protocolFee < (fee + 1) * ONE
    ensures TotalDelegated(ApplyAll(paid, r.1).value.delegations)
         == TotalDelegated(c.delegations) + (r.0.totalBond - s.totalBond)
  {
    var fee := Floor(op.payment * op.p.protocolFee, ONE);
    var to := c.delegations[Chosen(op.draw, 0, |c.delegations|)].validator;
    var send, delegate := Send(op.p.feeCollector.GetOr(""), fee), Delegate(to, op.payment - fee);
    DelegatedDistinct(c.delegations, to, op.payment - fee);
    DelegatedTotal(c.delegations, to, op.payment - fee);
    if fee == 0 {
      assert r.1 == [delegate];
      ApplyOne(paid, delegate);
    } else if fee == op.payment {
      assert r.1 == [send];
      ApplyOne(paid, send);
    } else {
      assert r.1 == [send, delegate];
      ApplyTwo(paid, send, delegate);
    }
  }
}

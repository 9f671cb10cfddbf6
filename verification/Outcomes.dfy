/** The whole outcome of the calls that move the exchange rate, and of instantiation. */
module Outcomes {
  import opened Fixed
  import opened HubTypes
  import opened ExchangeRate
  import opened Undelegation
  import opened HubSteps
  import opened Peg
  import opened Books
  import opened Runs
  import opened Requests

  /** `rate` is what `bond` coins make of `tokens` tokens: the largest rate they back, or 1.0
      if there are no coins or no tokens. */
  ghost predicate IsRate(rate: nat, bond: nat, tokens: nat) {
    if bond == 0 || tokens == 0 then rate == ONE
    else forall r: nat :: Backed(r, tokens, bond) <==> r <= rate
  }

  lemma UpdatedRateIs(bond: nat, issued: nat, requested: nat)
    requires UpdatedRate(bond, issued, requested).Ok?
    ensures IsRate(UpdatedRate(bond, issued, requested).value, bond, issued + requested)
  {
    if bond > 0 && issued + requested > 0 {
      var tokens, rate := issued + requested, UpdatedRate(bond, issued, requested).value;
      forall r: nat ensures Backed(r, tokens, bond) <==> r <= rate {
        UpdatedRateIsLargest(bond, issued, requested, r);
      }
    }
  }

  /** There is only one such rate. */
  lemma RateIsUnique(rate: nat, other: nat, bond: nat, tokens: nat)
    requires IsRate(rate, bond, tokens) && IsRate(other, bond, tokens)
    ensures rate == other
  {
    if bond > 0 && tokens > 0 {
      assert Backed(rate, tokens, bond) <==> rate <= other;
      assert Backed(other, tokens, bond) <==> other <= rate;
    }
  }

  // ----- instantiation -----

  /** At instantiation the rate is 1.0, the deposit is bonded, the first batch is open and
      empty, nothing is closed, waits or is recorded as received, and the epoch clock shows the
      block time. */
  lemma InitialIs(w: World)
    requires Initial(w)
    ensures w.hub.exchangeRate == ONE
    ensures w.hub.totalBond == TotalDelegated(w.chain.delegations) > 0
    ensures w.hub.prevHubBalance == 0 && w.hub.actualUnbonded == 0
    ensures w.hub.lastUnbondedTime == w.chain.now
    ensures w.hub.batchId == 1 && w.hub.lastProcessed == 0 && w.hub.requested == 0
    ensures w.hub.history == map[] && w.hub.waits == map[]
  {
  }

  // ----- slashing check -----

  /** A check that finds no loss changes nothing.  One that does records what is delegated and
      recomputes the rate for all tokens, issued or requested; nothing else changes. */
  lemma CheckOutcome(s: Storage, c: Chain)
    requires SlashingStep(s, c).Ok?
    ensures var after, delegated := SlashingStep(s, c).value, TotalDelegated(c.delegations);
      if c.delegations == [] || s.totalBond <= delegated then after == s
      else
        && after == s.(totalBond := delegated, exchangeRate := after.exchangeRate)
        && IsRate(after.exchangeRate, delegated, c.supply + s.requested)
  {
    var delegated := TotalDelegated(c.delegations);
    if c.delegations != [] && s.totalBond > delegated {
      UpdatedRateIs(delegated, c.supply, s.requested);
    }
  }

  // ----- bond -----

  /** A bond takes a listed validator and a payment; the payment joins the checked bond, the
      rate is recomputed with the minted tokens, and nothing else changes.  (For the minted
      amount see `Requests.BondFee`.) */
  lemma BondOutcome(s: Storage, c: Chain, op: Op, after: Storage, msgs: seq<Msg>) returns (minted: nat)
    requires op.Bond? && BondStep(s, c, op.p, op.sender, op.validator, op.payment) == Ok((after, msgs))
    ensures op.validator in op.p.validators && op.payment > 0
    ensures msgs == [Delegate(op.validator, op.payment), Mint(op.sender, minted)]
    ensures after == s.(totalBond := Checked(s, c).totalBond + op.payment, exchangeRate := after.exchangeRate)
    ensures IsRate(after.exchangeRate, after.totalBond, c.supply + minted + s.requested)
  {
    var checked := Checked(s, c);
    minted := MintAmount(checked, c.supply, op.p, op.payment).value;
    CheckRecords(s, c);
    hide SlashingStep, MintAmount, IsRate;
    UpdatedRateIs(checked.totalBond + op.payment, c.supply + minted, checked.requested);
  }

  // ----- rewards -----

  /** What a reward emits: the fee to the collector, if there is a fee, and the rest, if there
      is a rest, to a validator the hub has delegated to -- the one that is drawn, if a number
      in range is drawn. */
  ghost predicate PassesOn(c: Chain, op: Op, fee: nat, kept: nat, msgs: seq<Msg>)
    requires op.Reward?
  {
    exists k: nat ::
      && k < |c.delegations|
      && (op.draw(0) < |c.delegations| ==> k == op.draw(0))
      && msgs == (if fee > 0 then [Send(op.p.feeCollector.GetOr(""), fee)] else [])
               + (if kept > 0 then [Delegate(c.delegations[k].validator, kept)] else [])
  }

  /** A reward comes from the rewards contract and is split into the floored fee and the rest.
      The rest joins the bond and raises the rate by its floored part per token, neither more
      nor less; nothing else changes. */
  lemma RewardOutcome(s: Storage, c: Chain, op: Op, after: Storage, msgs: seq<Msg>)
    requires op.Reward? && RewardStep(s, c, op.p, op.sender, op.payment, op.draw) == Ok((after, msgs))
    ensures op.sender == op.p.rewardsContract && op.payment > 0
    ensures s.exchangeRate <= after.exchangeRate && s.totalBond <= after.totalBond <= s.totalBond + op.payment
    ensures after == s.(exchangeRate := after.exchangeRate, totalBond := after.totalBond)
    ensures var gain, kept := after.exchangeRate - s.exchangeRate, after.totalBond - s.totalBond;
      gain * (c.supply + s.requested) <= kept * ONE < (gain + 1) * (c.supply + s.requested)
    ensures var kept := after.totalBond - s.totalBond;
      var fee := op.payment - kept;
      && fee * ONE <= op.payment * op.p.protocolFee < (fee + 1) * ONE
      && (fee > 0 ==> op.p.feeCollector.Some?)
      && PassesOn(c, op, fee, kept, msgs)
  {
    var fee := Floor(op.payment * op.p.protocolFee, ONE);
    var k := Chosen(op.draw, 0, |c.delegations|);
    var kept := op.payment - fee;
    assert k < |c.delegations| && (op.draw(0) < |c.delegations| ==> k == op.draw(0));
    assert msgs == (if fee > 0 then [Send(op.p.feeCollector.GetOr(""), fee)] else [])
                 + (if kept > 0 then [Delegate(c.delegations[k].validator, kept)] else []);
  }

  /** Exactly when a reward goes through. */
  lemma RewardSucceedsIff(s: Storage, c: Chain, op: Op)
    requires op.Reward? && op.payment < LIMIT
    ensures RewardStep(s, c, op.p, op.sender, op.payment, op.draw).Ok? <==>
      var fee, tokens := Floor(op.payment * op.p.protocolFee, ONE), c.supply + s.requested;
      && op.sender == op.p.rewardsContract && op.payment > 0
      && fee <= op.payment
      && 0 < tokens < LIMIT
      && s.exchangeRate + Floor((op.payment - fee) * ONE, tokens) < LIMIT
      && s.totalBond + op.payment - fee < LIMIT
      && c.delegations != []
      && (fee > 0 ==> op.p.feeCollector.Some?)
  {
  }

  // ----- withdrawal -----

  /** A withdrawal pays its sender out of the liquid balance and records the rest; of the
      storage it changes the history, the last released batch, the wait lists and the two
      balances, and of the chain only the liquid balance.  (For what is paid see
      `Payouts.WithdrawClearsExactly`.) */
  lemma WithdrawOutcome(w: World, op: Op, after: World)
    requires Inv(w) && op.Withdraw? && Transact(w, op) == Ok(after)
    ensures op.p.unbondingPeriod <= w.chain.now && after.chain.balance < w.chain.balance
    ensures after.hub == w.hub.(history := after.hub.history, lastProcessed := after.hub.lastProcessed,
                                waits := after.hub.waits, actualUnbonded := 0,
                                prevHubBalance := after.chain.balance)
    ensures after.chain == w.chain.(balance := after.chain.balance)
    ensures HubCall(w.hub, w.chain, op)
         == Ok((after.hub, [Send(op.sender, w.chain.balance - after.chain.balance)]))
  {
    hide Transact, ReleaseStep, HubCall;
    var released, paid := WithdrawParts(w, op, after);
    ReleaseFrame(w.hub, w.chain.now, w.chain.now - op.p.unbondingPeriod, w.chain.balance, released);
  }

  // ----- widths -----

  /** Amounts are 128 bits wide, and 1.0 has 18 places. */
  lemma WidthIs()
    ensures LIMIT == 340_282_366_920_938_463_463_374_607_431_768_211_456
    ensures ONE == 1_000_000_000 * GRAIN && GRAIN == 1_000_000_000
  {
  }
}

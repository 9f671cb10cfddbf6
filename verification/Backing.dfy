/** The stored exchange rate never overstates the backing. */
module Backing {
  import opened Fixed
  import opened HubTypes
  import opened ExchangeRate
  import opened HubSteps

  /** The stored rate is backed, with `supply` tokens issued. */
  predicate Sound(s: Storage, supply: nat) {
    Backed(s.exchangeRate, supply + s.requested, s.totalBond)
  }

  /** Tokens are outstanding with no bonded coin behind them. */
  predicate Stranded(s: Storage, supply: nat) {
    s.totalBond == 0 && supply + s.requested > 0
  }

  /** The hub's delegations are all worth nothing. */
  predicate Wiped(c: Chain) {
    |c.delegations| > 0 && TotalDelegated(c.delegations) == 0
  }

  /** The rate falls behind the backing by less than one atomic for every token. */
  predicate Close(s: Storage, supply: nat) {
    s.totalBond * ONE < (s.exchangeRate + 1) * (supply + s.requested)
  }

  /** A slashing check loses the backing exactly when it finds a recorded bond all gone
      behind outstanding tokens; a rate it recomputes over some bond is close to the backing. */
  lemma SlashingKeepsSoundIff(s: Storage, c: Chain)
    requires Sound(s, c.supply) && SlashingStep(s, c).Ok?
    ensures Sound(SlashingStep(s, c).value, c.supply)
       <==> !(Wiped(c) && s.totalBond > 0 && c.supply + s.requested > 0)
    ensures var after := SlashingStep(s, c).value;
      after != s && after.totalBond > 0 && c.supply + s.requested > 0 ==> Close(after, c.supply)
  {
    if SlashingStep(s, c).value != s {
      UpdatedRateBackedIff(TotalDelegated(c.delegations), c.supply, s.requested);
    }
  }

  /** The bond a check leaves is zero exactly when it was, or the delegations are wiped. */
  lemma NoBondLeftIff(s: Storage, c: Chain)
    requires SlashingStep(s, c).Ok?
    ensures SlashingStep(s, c).value.totalBond == 0 <==> s.totalBond == 0 || Wiped(c)
  {
  }

  /** A bond restores soundness, whatever the rate was before. */
  lemma BondIsSound(s: Storage, c: Chain, p: Settings, sender: string, validator: string, payment: nat)
    requires BondStep(s, c, p, sender, validator, payment).Ok?
    ensures var r := BondStep(s, c, p, sender, validator, payment).value;
      && r.1 == [Delegate(validator, payment), Mint(sender, r.1[1].amount)]
      && Sound(r.0, c.supply + r.1[1].amount)
  {
    var r := BondStep(s, c, p, sender, validator, payment).value;
    UpdatedRateBackedIff(r.0.totalBond, c.supply + r.1[1].amount, r.0.requested);
  }

  /** A reward keeps the rate backed, and what it leaves of the backing unaccounted for grows
      by less than one atomic for every token: so the rate rises with the bond. */
  lemma RewardKeepsSound(s: Storage, c: Chain, p: Settings, sender: string, payment: nat, draw: nat -> nat)
    requires Sound(s, c.supply) && RewardStep(s, c, p, sender, payment, draw).Ok?
    ensures var after := RewardStep(s, c, p, sender, payment, draw).value.0;
      && Sound(after, c.supply)
      && after.totalBond * ONE - after.exchangeRate * (c.supply + after.requested)
           < s.totalBond * ONE - s.exchangeRate * (c.supply + s.requested) + (c.supply + s.requested)
  {
    var after := RewardStep(s, c, p, sender, payment, draw).value.0;
    var supply, kept := c.supply + s.requested, after.totalBond - s.totalBond;
    RewardArithmetic(s.exchangeRate, Floor(kept * ONE, supply), supply, s.totalBond, kept);
  }

  lemma RewardArithmetic(rate: nat, gain: nat, supply: nat, bond: nat, kept: nat)
    requires rate * supply <= bond * ONE && gain * supply <= kept * ONE < (gain + 1) * supply
    ensures (rate + gain) * supply <= (bond + kept) * ONE
    ensures (bond + kept) * ONE - (rate + gain) * supply < bond * ONE - rate * supply + supply
  {
    assert (rate + gain) * supply == rate * supply + gain * supply;
    assert (gain + 1) * supply == gain * supply + supply;
  }

  /** After a request is recorded, the rate is sound exactly when nothing is stranded. */
  lemma RequestSoundIff(s: Storage, supply: nat, p: Settings, sender: string, amount: nat)
    requires RequestStep(s, supply, p, sender, amount).Ok?
    ensures amount <= supply
    ensures var after := RequestStep(s, supply, p, sender, amount).value;
      && after.totalBond == s.totalBond
      && (Sound(after, supply - amount) <==> !Stranded(after, supply - amount))
  {
    var after := RequestStep(s, supply, p, sender, amount).value;
    UpdatedRateBackedIff(s.totalBond, supply - amount, after.requested);
  }

  /** Closing a batch takes its value out of the bond and its tokens out of the count. */
  lemma EpochKeepsSound(s: Storage, c: Chain, draw: nat -> nat, supply: nat)
    requires Sound(s, supply) && EpochStep(s, c, draw).Ok?
    ensures Sound(EpochStep(s, c, draw).value.0, supply)
  {
    EpochArithmetic(s.exchangeRate, supply, s.requested, s.totalBond,
                    BatchValue(s));
  }

  lemma EpochArithmetic(rate: nat, supply: nat, requested: nat, bond: nat, value: nat)
    requires rate * (supply + requested) <= bond * ONE
    requires value * ONE <= requested * rate
    ensures rate * supply <= (bond - value) * ONE
  {
    assert rate * (supply + requested) == rate * supply + requested * rate;
  }

  /** There is no bond, recorded or delegated, for an unbond of `amount` to find, and it
      does not take all tokens there are: some are not handed in, or some are requested. */
  predicate UnbondsUnbacked(s: Storage, c: Chain, p: Settings, amount: nat)
    requires SlashingStep(s, c).Ok?
  {
    && (s.totalBond == 0 || Wiped(c))
    && (|| amount < c.supply
        || s.requested > 0
        || UnbondAmount(SlashingStep(s, c).value, c.supply, p, amount) != Ok(0))
  }

  /** An unbond leaves the rate sound exactly when there was a bond to find or no token stays
      outstanding. */
  lemma UnbondSoundIff(s: Storage, c: Chain, p: Settings, sender: string, amount: nat, draw: nat -> nat)
    requires UnbondStep(s, c, p, sender, amount, draw).Ok?
    ensures amount <= c.supply
    ensures Sound(UnbondStep(s, c, p, sender, amount, draw).value.0, c.supply - amount)
       <==> !UnbondsUnbacked(s, c, p, amount)
  {
    var checked := SlashingStep(s, c).value;
    var asked := RequestStep(checked, c.supply, p, sender, amount).value;
    NoBondLeftIff(s, c);
    RequestSoundIff(checked, c.supply, p, sender, amount);
    hide SlashingStep, UnbondAmount;
    if c.now - asked.lastUnbondedTime > p.epochPeriod {
      if Sound(asked, c.supply - amount) {
        EpochKeepsSound(asked, c, draw, c.supply - amount);
      } else {
        EpochWithoutBond(asked, c, draw);
      }
    }
  }

  /** Without a bond only an empty batch can be closed. */
  lemma EpochWithoutBond(s: Storage, c: Chain, draw: nat -> nat)
    requires s.totalBond == 0 && s.exchangeRate == ONE && EpochStep(s, c, draw).Ok?
    ensures s.requested == 0
    ensures var after := EpochStep(s, c, draw).value.0;
      after.totalBond == 0 && after.exchangeRate == ONE && after.requested == 0
  {
    assert Floor(s.requested * ONE, ONE) == s.requested;
  }

  /** A sound rate lets the whole current batch be undelegated. */
  lemma RequestedIsCovered(s: Storage, supply: nat)
    requires Sound(s, supply)
    ensures BatchValue(s) <= s.totalBond
  {
    assert s.exchangeRate * (supply + s.requested)
        == s.exchangeRate * supply + s.requested * s.exchangeRate;
  }
}

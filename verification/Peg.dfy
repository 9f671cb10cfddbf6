/** How bonding and unbonding move the exchange rate. */
module Peg {
  import opened Fixed
  import opened HubTypes
  import opened ExchangeRate
  import opened HubSteps
  import opened Backing

  /** The state a bond or unbond works on: storage after the slashing check. */
  function Checked(s: Storage, c: Chain): Storage {
    match SlashingStep(s, c)
    case Ok(checked) => checked
    case Err(_) => s
  }

  /** A rate computed with at least as many tokens as coins is at most 1.0. */
  lemma AtMostPar(bond: nat, issued: nat, requested: nat)
    requires UpdatedRate(bond, issued, requested).Ok?
    requires bond <= issued + requested
    ensures UpdatedRate(bond, issued, requested).value <= ONE
  {
    var supply := issued + requested;
    if bond > 0 {
      assert supply * ONE < (ONE + 1) * supply;
      FloorIsLargest(bond * ONE, supply, ONE + 1);
    }
  }

  /** Peg recovery on bond: when the fee applies, the rate ends at 1.0 or below. */
  lemma BondRecoversPeg(s: Storage, c: Chain, p: Settings, sender: string, validator: string, payment: nat)
    requires BondStep(s, c, p, sender, validator, payment).Ok?
    requires Checked(s, c).exchangeRate < p.erThreshold
    ensures BondStep(s, c, p, sender, validator, payment).value.0.exchangeRate <= ONE
  {
    var checked := Checked(s, c);
    var minted := MintAmount(checked, c.supply, p, payment).value;
    AtMostPar(checked.totalBond + payment, c.supply + minted, checked.requested);
  }

  /** Peg recovery on unbond, with or without closing the batch. */
  lemma UnbondRecoversPeg(s: Storage, c: Chain, p: Settings, sender: string, amount: nat, draw: nat -> nat)
    requires UnbondStep(s, c, p, sender, amount, draw).Ok?
    requires Checked(s, c).exchangeRate < p.erThreshold
    ensures UnbondStep(s, c, p, sender, amount, draw).value.0.exchangeRate <= ONE
  {
    var checked := Checked(s, c);
    var net := UnbondAmount(checked, c.supply, p, amount).value;
    AtMostPar(checked.totalBond, c.supply - amount, checked.requested + net);
  }

  /** What an unbond's rate is computed from: the peg fee takes at most the tokens in
      excess of the bonded coins. */
  lemma UnbondRate(s: Storage, c: Chain, p: Settings, sender: string, amount: nat, draw: nat -> nat)
      returns (net: nat)
    requires UnbondStep(s, c, p, sender, amount, draw).Ok?
    ensures net <= amount <= c.supply
    ensures net < amount ==>
              Checked(s, c).totalBond <= c.supply - amount + Checked(s, c).requested + net
    ensures UpdatedRate(Checked(s, c).totalBond, c.supply - amount, Checked(s, c).requested + net)
         == Ok(UnbondStep(s, c, p, sender, amount, draw).value.0.exchangeRate)
  {
    net := UnbondAmount(Checked(s, c), c.supply, p, amount).value;
  }

  /** An unbond never lowers a sound rate, with or without the fee or the epoch -- except
      when no token is outstanding at all, where a rate above 1.0 is reset to 1.0. */
  lemma UnbondKeepsRateIff(s: Storage, c: Chain, p: Settings, sender: string, amount: nat, draw: nat -> nat)
    requires UnbondStep(s, c, p, sender, amount, draw).Ok?
    requires Sound(Checked(s, c), c.supply)
    ensures UnbondStep(s, c, p, sender, amount, draw).value.0.exchangeRate >= Checked(s, c).exchangeRate
      <==> Checked(s, c).exchangeRate <= ONE || c.supply + Checked(s, c).requested > 0
  {
    var checked := Checked(s, c);
    var net := UnbondRate(s, c, p, sender, amount, draw);
    hide UnbondStep;
    RateKeptIff(checked.exchangeRate, checked.totalBond, c.supply - amount, checked.requested + net,
                c.supply + checked.requested);
  }

  lemma RateKeptIff(rate: nat, bond: nat, issued: nat, requested: nat, before: nat)
    requires UpdatedRate(bond, issued, requested).Ok?
    requires Backed(rate, before, bond)
    requires issued + requested <= before
    requires issued + requested < before ==> bond <= issued + requested
    ensures UpdatedRate(bond, issued, requested).value >= rate <==> rate <= ONE || before > 0
  {
    if bond == 0 && before > 0 {
      assert rate == 0;
    } else if bond > 0 && issued + requested > 0 {
      MulMono(issued + requested, before, rate);
      UpdatedRateIsLargest(bond, issued, requested, rate);
    }
  }

  // ----- dilution by bonding -----

  /** A rate truncated to nine decimal places. */
  function Truncated(rate: nat): (r: nat)
    ensures rate - GRAIN < r <= rate
    ensures rate % GRAIN == 0 ==> r == rate
  {
    Floor(rate, GRAIN) * GRAIN
  }

  /** What a bond's rate is computed from: the payment joins the bonded coins, and the
      minted tokens never exceed the truncated quotient. */
  lemma BondRate(s: Storage, c: Chain, p: Settings, sender: string, validator: string, payment: nat)
      returns (minted: nat)
    requires BondStep(s, c, p, sender, validator, payment).Ok?
    ensures payment > 0
    ensures Floor(Checked(s, c).exchangeRate, GRAIN) > 0
    ensures minted * Floor(Checked(s, c).exchangeRate, GRAIN) <= payment * GRAIN
    ensures c.supply + Checked(s, c).requested == 0 ==>
              (minted == 0 <==> payment * GRAIN < Floor(Checked(s, c).exchangeRate, GRAIN))
    ensures UpdatedRate(Checked(s, c).totalBond + payment, c.supply + minted, Checked(s, c).requested)
         == Ok(BondStep(s, c, p, sender, validator, payment).value.0.exchangeRate)
  {
    var checked := Checked(s, c);
    minted := MintAmount(checked, c.supply, p, payment).value;
    DecimalDivisionIs(payment, checked.exchangeRate);
    var q, full := Floor(checked.exchangeRate, GRAIN), DecimalDivision(payment, checked.exchangeRate).value;
    MulMono(minted, full, q);
    FloorIsLargest(payment * GRAIN, q, 1);
  }

  /** A bond lowers a sound rate by less than 10^-9 -- it never falls below its truncation
      to nine places -- except when the first tokens would be minted at a rate so far above
      1.0 that the payment buys none, where the rate is reset to 1.0. */
  lemma BondDilutionIff(s: Storage, c: Chain, p: Settings, sender: string, validator: string, payment: nat)
    requires BondStep(s, c, p, sender, validator, payment).Ok?
    requires Sound(Checked(s, c), c.supply)
    ensures var checked := Checked(s, c);
      BondStep(s, c, p, sender, validator, payment).value.0.exchangeRate >= Truncated(checked.exchangeRate)
      <==> || Truncated(checked.exchangeRate) <= ONE
           || c.supply + checked.requested > 0
           || payment * GRAIN >= Floor(checked.exchangeRate, GRAIN)
  {
    var checked := Checked(s, c);
    var minted := BondRate(s, c, p, sender, validator, payment);
    hide BondStep;
    var q := Floor(checked.exchangeRate, GRAIN);
    var before := c.supply + checked.requested;
    if before + minted > 0 {
      DilutionArithmetic(checked.exchangeRate, q, before, minted, checked.totalBond, payment);
      UpdatedRateIsLargest(checked.totalBond + payment, c.supply + minted, checked.requested, q * GRAIN);
    }
  }

  lemma DilutionArithmetic(rate: nat, q: nat, before: nat, minted: nat, bond: nat, payment: nat)
    requires q * GRAIN <= rate && rate * before <= bond * ONE
    requires minted * q <= payment * GRAIN
    ensures (q * GRAIN) * (before + minted) <= (bond + payment) * ONE
  {
    MulMono(q * GRAIN, rate, before);
    Assoc(minted, q, GRAIN);
    assert (q * GRAIN) * (before + minted) == (q * GRAIN) * before + minted * (GRAIN * q);
  }
}

/** What a user gets back who bonds and at once unbonds what was minted. */
module RoundTrips {
  import opened Fixed
  import opened Sums
  import opened HubTypes
  import opened ExchangeRate
  import opened Undelegation
  import opened HubSteps
  import opened Effects
  import opened Ledger
  import opened Books
  import opened Peg
  import opened Runs
  import opened Requests
  import opened Liveness

  /** A bond, and right after it an unbond of no more than it minted. */
  ghost predicate RoundTrip(w: World, bond: Op, mid: World, unbond: Op, end: World) {
    && bond.Bond? && Transact(w, bond) == Ok(mid)
    && unbond.Unbond? && Transact(mid, unbond) == Ok(end)
    && w.chain.supply + unbond.amount <= mid.chain.supply
  }

  /** `net` is what the unbond adds to its sender's ticket. */
  ghost predicate Adds(mid: World, unbond: Op, end: World, net: nat)
    requires unbond.Unbond?
  {
    var ticket := Ticket(unbond.sender, mid.hub.batchId);
    end.hub.waits ==
      mid.hub.waits[ticket := (if ticket in mid.hub.waits then mid.hub.waits[ticket] else 0) + net]
  }

  /** The coins a user who bonds now will find bonded when unbonding, besides the payment: the
      recorded bond after the slashing check, as far as it is delegated. */
  function Coins(w: World): nat {
    Min(Checked(w.hub, w.chain).totalBond, TotalDelegated(w.chain.delegations))
  }

  /** The tokens outstanding before. */
  function Tokens(w: World): nat {
    w.chain.supply + w.hub.requested
  }

  /** The price of a token before: the rate after the slashing check, truncated to nine places. */
  function Price(w: World): nat {
    Truncated(Checked(w.hub, w.chain).exchangeRate)
  }

  /** What tokens are worth at a rate. */
  function Value(tokens: nat, rate: nat): nat {
    Floor(tokens * rate, ONE)
  }

  /** The bound on the gain of a round trip that records `net`, for a payment made while
      `tokens` were outstanding behind `coins`. */
  predicate GainWithin(worth: nat, payment: nat, net: nat, coins: nat, tokens: nat, truncated: nat) {
    (worth - payment) * (truncated * (tokens + net)) <= payment * (coins * ONE - truncated * tokens)
  }

  /** The bond's half: what is minted for the payment costs at least the price. */
  lemma Bought(w: World, bond: Op, mid: World) returns (minted: nat)
    requires Inv(w) && bond.Bond? && Transact(w, bond) == Ok(mid)
    ensures mid.chain.supply == w.chain.supply + minted
    ensures mid.hub.requested == w.hub.requested
    ensures mid.hub.totalBond == Checked(w.hub, w.chain).totalBond + bond.payment
    ensures minted * Price(w) <= bond.payment * ONE && Price(w) > 0 && bond.payment > 0
    ensures TotalDelegated(mid.chain.delegations) == TotalDelegated(w.chain.delegations) + bond.payment
    ensures DistinctValidators(mid.chain.delegations)
  {
    var c := Attached(w.chain, bond);
    assert SlashingStep(w.hub, c) == SlashingStep(w.hub, w.chain);
    var r := HubCall(w.hub, c, bond).value;
    BondEffect(w.hub, w.chain, c, bond, r);
    minted := r.1[1].amount;
    BondCost(w.hub, c, bond, minted);
  }

  lemma BondCost(s: Storage, c: Chain, bond: Op, minted: nat)
    requires bond.Bond? && BondStep(s, c, bond.p, bond.sender, bond.validator, bond.payment).Ok?
    requires BondStep(s, c, bond.p, bond.sender, bond.validator, bond.payment).value.1[1] == Mint(bond.sender, minted)
    ensures minted * Truncated(Checked(s, c).exchangeRate) <= bond.payment * ONE
    ensures Truncated(Checked(s, c).exchangeRate) > 0 && bond.payment > 0
  {
    var rate := Checked(s, c).exchangeRate;
    var full := DecimalDivision(bond.payment, rate).value;
    DecimalDivisionIs(bond.payment, rate);
    var q := Floor(rate, GRAIN);
    FloorIsLargest(rate, GRAIN, 1);
    MulMono(minted, full, q);
    Assoc(minted, q, GRAIN);
  }

  /** The unbond's half: what it records is worth its part of the bond, floored. */
  lemma Returned(mid: World, unbond: Op, end: World) returns (net: nat)
    requires unbond.Unbond? && Transact(mid, unbond) == Ok(end)
    requires DistinctValidators(mid.chain.delegations)
    requires TotalDelegated(mid.chain.delegations) > 0 && mid.hub.totalBond > 0
    ensures Adds(mid, unbond, end, net)
    ensures net <= unbond.amount <= mid.chain.supply
    ensures end.hub.exchangeRate * (mid.chain.supply - unbond.amount + mid.hub.requested + net)
         <= Min(mid.hub.totalBond, TotalDelegated(mid.chain.delegations)) * ONE
  {
    hide Transact, Adds;
    net := UnbondNet(mid, unbond, end);
    var bond := SlashingStep(mid.hub, mid.chain).value.totalBond;
    CheckLeavesSome(mid.hub, mid.chain);
    hide SlashingStep, UpdatedRate;
    UpdatedRateBackedIff(bond, mid.chain.supply - unbond.amount, mid.hub.requested + net);
  }

  lemma CheckLeavesSome(s: Storage, c: Chain)
    requires SlashingStep(s, c).Ok? && TotalDelegated(c.delegations) > 0 && s.totalBond > 0
    ensures 0 < SlashingStep(s, c).value.totalBond == Min(s.totalBond, TotalDelegated(c.delegations))
  {
  }

  lemma UnbondNet(mid: World, unbond: Op, end: World) returns (net: nat)
    requires unbond.Unbond? && Transact(mid, unbond) == Ok(end)
    ensures Adds(mid, unbond, end, net) && net <= unbond.amount <= mid.chain.supply
    ensures SlashingStep(mid.hub, mid.chain).Ok?
    ensures UpdatedRate(SlashingStep(mid.hub, mid.chain).value.totalBond, mid.chain.supply - unbond.amount,
                        mid.hub.requested + net) == Ok(end.hub.exchangeRate)
    ensures UnbondAmount(SlashingStep(mid.hub, mid.chain).value, mid.chain.supply, unbond.p, unbond.amount) == Ok(net)
  {
    var checked, asked := UnbondAsks(mid, unbond, end);
    hide Transact, SlashingStep, RequestStep;
    CheckRecords(mid.hub, mid.chain);
    net := RequestRecords(checked, mid.chain.supply, unbond.p, unbond.sender, unbond.amount, asked);
  }

  lemma UnbondAsks(mid: World, unbond: Op, end: World) returns (checked: Storage, asked: Storage)
    requires unbond.Unbond? && Transact(mid, unbond) == Ok(end)
    ensures SlashingStep(mid.hub, mid.chain) == Ok(checked)
    ensures RequestStep(checked, mid.chain.supply, unbond.p, unbond.sender, unbond.amount) == Ok(asked)
    ensures end.hub.waits == asked.waits && end.hub.exchangeRate == asked.exchangeRate
  {
    checked := SlashingStep(mid.hub, mid.chain).value;
    asked := RequestStep(checked, mid.chain.supply, unbond.p, unbond.sender, unbond.amount).value;
    hide SlashingStep, RequestStep;
  }

  /** Both halves of a round trip. */
  lemma BothHalves(w: World, bond: Op, mid: World, unbond: Op, end: World) returns (kept: nat, net: nat)
    requires Inv(w) && RoundTrip(w, bond, mid, unbond, end)
    ensures Adds(mid, unbond, end, net)
    ensures Price(w) > 0 && net * Price(w) <= bond.payment * ONE
    ensures end.hub.exchangeRate * (kept + Tokens(w) + net) <= (Coins(w) + bond.payment) * ONE
  {
    hide Transact, Inv, Checked, Truncated, Adds;
    var minted := Bought(w, bond, mid);
    net := Returned(mid, unbond, end);
    kept := minted - unbond.amount;
    MulMono(net, minted, Price(w));
  }

  /** Whoever bonds and unbonds gains at most the payment's part in what the price understates
      the backing: what the request is worth at the end exceeds the payment by no more than
      `payment * (coins - price * tokens) / (price * (tokens + net))`. */
  lemma RoundTripGain(w: World, bond: Op, mid: World, unbond: Op, end: World) returns (net: nat)
    requires Inv(w) && RoundTrip(w, bond, mid, unbond, end)
    ensures Adds(mid, unbond, end, net)
    ensures Price(w) > 0
    ensures GainWithin(Value(net, end.hub.exchangeRate), bond.payment, net, Coins(w), Tokens(w), Price(w))
  {
    hide Transact, Inv, GainWithin, Value, Adds, Price, Tokens, Coins;
    var kept;
    kept, net := BothHalves(w, bond, mid, unbond, end);
    TripArithmetic(bond.payment, Coins(w), Tokens(w), net, kept, end.hub.exchangeRate, Price(w));
  }

  lemma TripArithmetic(payment: nat, coins: nat, tokens: nat, net: nat, kept: nat, rate: nat, truncated: nat)
    requires rate * (kept + tokens + net) <= (coins + payment) * ONE
    requires net * truncated <= payment * ONE
    ensures GainWithin(Value(net, rate), payment, net, coins, tokens, truncated)
  {
    var worth, all := Value(net, rate), tokens + net;
    MulMono(all, kept + all, rate);
    WorthOfPart(worth, net, rate, all, coins + payment);
    GainOfPart(worth, payment, tokens, net, coins);
    ScaleGain(worth - payment, all, truncated, net * coins - payment * tokens);
    ScaleBound(net, coins, payment, tokens, truncated);
  }

  lemma GainOfPart(worth: nat, payment: nat, tokens: nat, net: nat, coins: nat)
    requires worth * (tokens + net) <= net * (coins + payment)
    ensures (worth - payment) * (tokens + net) <= net * coins - payment * tokens
  {
    assert (worth - payment) * (tokens + net) == worth * (tokens + net) - payment * (tokens + net);
    assert net * (coins + payment) == net * coins + net * payment;
  }

  lemma ScaleBound(net: nat, coins: nat, payment: nat, tokens: nat, truncated: nat)
    requires net * truncated <= payment * ONE
    ensures truncated * (net * coins - payment * tokens) <= payment * (coins * ONE - truncated * tokens)
  {
    MulMono(net * truncated, payment * ONE, coins);
    assert truncated * (net * coins) == (net * truncated) * coins;
    assert truncated * (payment * tokens) == payment * (truncated * tokens);
    assert (payment * ONE) * coins == payment * (coins * ONE);
  }

  lemma WorthOfPart(worth: nat, net: nat, rate: nat, all: nat, coins: nat)
    requires worth * ONE <= net * rate && rate * all <= coins * ONE
    ensures worth * all <= net * coins
  {
    MulMono(worth * ONE, net * rate, all);
    MulMono(rate * all, coins * ONE, net);
    assert (net * rate) * all == (rate * all) * net;
    assert (worth * ONE) * all == (worth * all) * ONE;
    assert (coins * ONE) * net == (net * coins) * ONE;
    MulCancel(worth * all, net * coins, ONE);
  }

  lemma ScaleGain(gain: int, all: nat, truncated: nat, bound: int)
    requires gain * all <= bound
    ensures gain * (truncated * all) <= truncated * bound
  {
    assert gain * (truncated * all) == truncated * (gain * all);
    MulMonoInt(truncated, gain * all, bound);
  }

  lemma MulMonoInt(a: nat, b: int, c: int)
    requires b <= c
    ensures a * b <= a * c
  {
  }

  lemma CancelInt(a: int, b: int, c: nat)
    requires c > 0 && a * c <= b * c
    ensures a <= b
  {
    assert (a - b) * c == a * c - b * c;
    if a > b {
      MulPositive(a - b, c);
    }
  }

  /** The coins exceed the tokens, at one atomic more than the price, by a whole coin. */
  predicate Underpriced(coins: nat, tokens: nat, price: nat) {
    coins * ONE >= (price + 1) * tokens + ONE
  }

  /** Nothing is gained by any round trip unless the tokens are underpriced. */
  lemma NoGain(w: World, bond: Op, mid: World, unbond: Op, end: World) returns (net: nat)
    requires Inv(w) && RoundTrip(w, bond, mid, unbond, end)
    requires !Underpriced(Coins(w), Tokens(w), Price(w))
    ensures Adds(mid, unbond, end, net)
    ensures Value(net, end.hub.exchangeRate) <= bond.payment
  {
    hide Transact, Inv, Value, Adds, Price, Tokens, Coins, Underpriced;
    var kept;
    kept, net := BothHalves(w, bond, mid, unbond, end);
    if Value(net, end.hub.exchangeRate) > bond.payment {
      GainNeedsUnderpriced(bond.payment, Coins(w), Tokens(w), net, kept, end.hub.exchangeRate, Price(w));
    }
  }

  lemma GainNeedsUnderpriced(payment: nat, coins: nat, tokens: nat, net: nat, kept: nat, rate: nat, price: nat)
    requires rate * (kept + tokens + net) <= (coins + payment) * ONE
    requires net * price <= payment * ONE
    requires Value(net, rate) > payment
    ensures Underpriced(coins, tokens, price)
  {
    MulMono(payment + 1, Value(net, rate), ONE);
    assert net * price < net * rate;
    MulCancelStrict(price, rate, net);
    MulMono(tokens + net, kept + tokens + net, rate);
    assert (tokens + net) * rate == tokens * rate + net * rate;
    MulMono(price + 1, rate, tokens);
  }

  /** Amounts leave room for a payment of the price, and for one more token. */
  ghost predicate Roomy(w: World) {
    && SlashingStep(w.hub, w.chain).Ok?
    && Checked(w.hub, w.chain).totalBond + Price(w) < LIMIT
    && TotalDelegated(w.chain.delegations) + Price(w) < LIMIT
    && Tokens(w) + ONE < LIMIT
  }

  /** A payment of the price, in coins for a rate of 10^18 atomics, buys 10^18 tokens. */
  lemma PriceBuysOne(rate: nat)
    requires rate >= GRAIN && Truncated(rate) < LIMIT
    ensures Truncated(rate) > 0 && Divides(Truncated(rate), rate)
    ensures Quotient(Truncated(rate), rate) == ONE
  {
    var q := Floor(rate, GRAIN);
    FloorIsLargest(rate, GRAIN, 1);
    assert q * GRAIN * GRAIN == ONE * q;
    FloorUnique(q * GRAIN * GRAIN, q, ONE);
    assert q * GRAIN * ONE == (GRAIN * ONE) * q;
    FloorUnique(q * GRAIN * ONE, q, GRAIN * ONE);
  }

  /** The bond of a payment of the price, when no fee is due. */
  lemma BuyOne(w: World, p: Settings, user: string, validator: string) returns (mid: World)
    requires Inv(w) && Roomy(w) && Price(w) > 0
    requires validator in p.validators && p.erThreshold <= Price(w)
    ensures Transact(w, Bond(p, user, validator, Price(w))) == Ok(mid)
    ensures mid.chain.supply == w.chain.supply + ONE
    ensures mid.hub == Checked(w.hub, w.chain).(totalBond := mid.hub.totalBond, exchangeRate := mid.hub.exchangeRate)
    ensures UpdatedRate(mid.hub.totalBond, w.chain.supply + ONE, w.hub.requested) == Ok(mid.hub.exchangeRate)
  {
    var checked := Checked(w.hub, w.chain);
    var op := Bond(p, user, validator, Price(w));
    var c := Attached(w.chain, op);
    assert SlashingStep(w.hub, c) == Ok(checked);
    CheckRecords(w.hub, c);
    PriceBuysOne(checked.exchangeRate);
    BondSucceedsIff(w.hub, c, op, checked);
    DecimalDivisionIs(Price(w), checked.exchangeRate);
    assert MintAmount(checked, c.supply, p, Price(w)) == Ok(ONE);
    OneRateFits(checked.totalBond + Price(w), Tokens(w));
    var r := BondStep(w.hub, c, p, user, validator, Price(w)).value;
    BondEffect(w.hub, w.chain, c, op, r);
    mid := World(r.0, ApplyAll(c, r.1).value);
  }

  lemma OneRateFits(bond: nat, tokens: nat)
    requires bond < LIMIT
    ensures RateFits(bond, tokens + ONE)
  {
  }

  /** Underpriced tokens can be had at a profit, if no fee is due: a user pays the price, is
      minted 10^18 tokens and hands them back; the request is worth more than the payment. */
  lemma GainingTrip(w: World, p: Settings, user: string, validator: string, draw: Draws)
      returns (bond: Op, mid: World, unbond: Op, end: World)
    requires Inv(w) && Roomy(w) && Price(w) > 0
    requires validator in p.validators && p.erThreshold <= Price(w)
    requires Underpriced(Coins(w), Tokens(w), Price(w))
    ensures RoundTrip(w, bond, mid, unbond, end) && bond.payment == Price(w)
    ensures Adds(mid, unbond, end, ONE) && Value(ONE, end.hub.exchangeRate) > bond.payment
  {
    hide Inv, Transact;
    bond := Bond(p, user, validator, Price(w));
    unbond := Unbond(p, user, ONE, draw);
    mid := BuyOne(w, p, user, validator);
    end := SellOne(w, bond, mid, unbond);
  }

  lemma RateAbovePrice(coins: nat, tokens: nat, price: nat, rate: nat)
    requires Underpriced(coins, tokens, price)
    requires rate == Floor((coins + price) * ONE, tokens + ONE)
    ensures rate > price
  {
    assert (price + 1) * (tokens + ONE) == (price + 1) * tokens + (price + 1) * ONE;
    FloorIsLargest((coins + price) * ONE, tokens + ONE, price + 1);
  }

  lemma SellOne(w: World, bond: Op, mid: World, unbond: Op) returns (end: World)
    requires Inv(w) && Roomy(w) && Price(w) > 0 && Underpriced(Coins(w), Tokens(w), Price(w))
    requires bond.Bond? && bond.payment == Price(w) && Transact(w, bond) == Ok(mid)
    requires mid.chain.supply == w.chain.supply + ONE
    requires UpdatedRate(mid.hub.totalBond, w.chain.supply + ONE, w.hub.requested) == Ok(mid.hub.exchangeRate)
    requires unbond.Unbond? && unbond.amount == ONE && unbond.p.erThreshold <= Price(w)
    ensures Transact(mid, unbond) == Ok(end)
    ensures Adds(mid, unbond, end, ONE) && Value(ONE, end.hub.exchangeRate) > Price(w)
  {
    hide Transact, Adds;
    var minted := Bought(w, bond, mid);
    StepKeepsInv(w, bond);
    StepIs(w, bond, mid);
    NothingSlashed(w, mid);
    var rate := mid.hub.exchangeRate;
    RateAbovePrice(Coins(w), Tokens(w), Price(w), rate);
    SellOneStep(mid, unbond, w.chain.supply);
    end := UnbondGoesThrough(mid, unbond);
    var net := UnbondNet(mid, unbond, end);
    FloorUnique(ONE * rate, ONE, rate);
  }

  lemma StepIs(w: World, op: Op, after: World)
    requires Transact(w, op) == Ok(after)
    ensures Step(w, op) == after
  {
    hide Transact;
  }

  /** With underpriced tokens there is a bond that is delegated, so the next check finds
      nothing slashed. */
  lemma NothingSlashed(w: World, mid: World)
    requires Roomy(w) && Underpriced(Coins(w), Tokens(w), Price(w))
    requires mid.hub.totalBond == Checked(w.hub, w.chain).totalBond + Price(w)
    requires TotalDelegated(mid.chain.delegations) == TotalDelegated(w.chain.delegations) + Price(w)
    ensures Coins(w) == Checked(w.hub, w.chain).totalBond
    ensures SlashingStep(mid.hub, mid.chain) == Ok(mid.hub)
  {
    assert Coins(w) > 0;
  }

  /** Handing in 10^18 tokens at a rate above the threshold. */
  lemma SellOneStep(mid: World, unbond: Op, supply: nat)
    requires Inv(mid) && unbond.Unbond? && unbond.amount == ONE
    requires mid.chain.supply == supply + ONE && supply + mid.hub.requested + ONE < LIMIT
    requires SlashingStep(mid.hub, mid.chain) == Ok(mid.hub)
    requires mid.hub.totalBond > 0 && TotalDelegated(mid.chain.delegations) > 0
    requires UpdatedRate(mid.hub.totalBond, supply + ONE, mid.hub.requested) == Ok(mid.hub.exchangeRate)
    requires mid.hub.exchangeRate >= 2 && mid.hub.exchangeRate >= unbond.p.erThreshold
    ensures UnbondStep(mid.hub, mid.chain, unbond.p, unbond.sender, ONE, unbond.draw).Ok?
    ensures UnbondAmount(mid.hub, mid.chain.supply, unbond.p, ONE) == Ok(ONE)
    ensures UpdatedRate(mid.hub.totalBond, supply, mid.hub.requested + ONE) == Ok(mid.hub.exchangeRate)
  {
    var rate := mid.hub.exchangeRate;
    UpdatedRateOkIff(mid.hub.totalBond, supply, mid.hub.requested + ONE);
    UnbondCannotGetStuck(mid.hub, mid.chain, unbond, mid.hub);
    hide SlashingStep, Conserved, Shape, UnbondStep;
    var asked := RequestStep(mid.hub, mid.chain.supply, unbond.p, unbond.sender, ONE).value;
    MulMono(ONE, asked.requested, rate);
    FloorIsLargest(asked.requested * rate, ONE, rate);
  }

  lemma UnbondGoesThrough(mid: World, unbond: Op) returns (end: World)
    requires DistinctValidators(mid.chain.delegations) && unbond.Unbond?
    requires UnbondStep(mid.hub, mid.chain, unbond.p, unbond.sender, unbond.amount, unbond.draw).Ok?
    ensures Transact(mid, unbond) == Ok(end)
  {
    var r := UnbondStep(mid.hub, mid.chain, unbond.p, unbond.sender, unbond.amount, unbond.draw).value;
    UnbondEffect(mid.hub, mid.chain, unbond.p, unbond.sender, unbond.amount, unbond.draw);
    hide UnbondStep;
    end := World(r.0, ApplyAll(mid.chain, r.1).value);
  }

  /** A round trip that pays. */
  ghost predicate Profitable(w: World, bond: Op, mid: World, unbond: Op, end: World, net: nat) {
    && RoundTrip(w, bond, mid, unbond, end) && Adds(mid, unbond, end, net)
    && Value(net, end.hub.exchangeRate) > bond.payment
  }

  /** Some round trip pays exactly when the tokens are underpriced.  That it then can needs
      a fee that is not due, a listed validator, and amounts with room; that none does otherwise
      needs nothing of this (`NoGain`). */
  lemma ProfitableIff(w: World, p: Settings, user: string, validator: string, draw: Draws)
    requires Inv(w) && Roomy(w) && Price(w) > 0
    requires validator in p.validators && p.erThreshold <= Price(w)
    ensures (exists bond, mid, unbond, end, net :: Profitable(w, bond, mid, unbond, end, net))
       <==> Underpriced(Coins(w), Tokens(w), Price(w))
  {
    hide Inv, Roomy, Underpriced, Transact, Adds, Value, Coins, Tokens, Price;
    if Underpriced(Coins(w), Tokens(w), Price(w)) {
      var bond, mid, unbond, end := GainingTrip(w, p, user, validator, draw);
      assert Profitable(w, bond, mid, unbond, end, ONE);
    } else {
      forall bond, mid, unbond, end, net | Profitable(w, bond, mid, unbond, end, net) ensures false {
        var same := NoGain(w, bond, mid, unbond, end);
        AddsOnce(mid, unbond, end, net, same);
      }
    }
  }

  lemma AddsOnce(mid: World, unbond: Op, end: World, net: nat, same: nat)
    requires unbond.Unbond? && Adds(mid, unbond, end, net) && Adds(mid, unbond, end, same)
    ensures net == same
  {
    var ticket := Ticket(unbond.sender, mid.hub.batchId);
    assert end.hub.waits[ticket] == (if ticket in mid.hub.waits then mid.hub.waits[ticket] else 0) + net;
  }

  /** At a freshly computed rate the gain is at most 10^-9 of the payment, over the price:
      all there is to gain is what the division truncates. */
  lemma FreshGain(w: World, bond: Op, mid: World, unbond: Op, end: World) returns (net: nat)
    requires Inv(w) && RoundTrip(w, bond, mid, unbond, end)
    requires var checked := Checked(w.hub, w.chain);
      && checked.totalBond > 0 && Tokens(w) > 0
      && UpdatedRate(checked.totalBond, w.chain.supply, w.hub.requested) == Ok(checked.exchangeRate)
    ensures Adds(mid, unbond, end, net)
    ensures (Value(net, end.hub.exchangeRate) - bond.payment) * Price(w) <= bond.payment * GRAIN
  {
    hide Transact, Inv, Checked, GainWithin, Value, UpdatedRate, Adds;
    net := RoundTripGain(w, bond, mid, unbond, end);
    var checked := Checked(w.hub, w.chain);
    FreshRate(checked.totalBond, w.chain.supply, w.hub.requested, checked.exchangeRate);
    MulMono(Coins(w), checked.totalBond, ONE);
    hide Truncated;
    FreshArithmetic(Value(net, end.hub.exchangeRate), Price(w), checked.exchangeRate, Coins(w), Tokens(w), net,
                    bond.payment);
  }

  lemma FreshRate(coins: nat, issued: nat, requested: nat, rate: nat)
    requires coins > 0 && issued + requested > 0 && UpdatedRate(coins, issued, requested) == Ok(rate)
    ensures coins * ONE < (rate + 1) * (issued + requested)
  {
  }

  lemma FreshArithmetic(worth: nat, truncated: nat, rate: nat, coins: nat, tokens: nat, net: nat, payment: nat)
    requires tokens > 0 && rate < truncated + GRAIN && coins * ONE < (rate + 1) * tokens
    requires GainWithin(worth, payment, net, coins, tokens, truncated)
    ensures (worth - payment) * truncated <= payment * GRAIN
  {
    var gain, all := worth - payment, tokens + net;
    MulMono(rate + 1, truncated + GRAIN, tokens);
    assert (truncated + GRAIN) * tokens == truncated * tokens + GRAIN * tokens;
    MulMonoInt(payment, coins * ONE - truncated * tokens, GRAIN * all);
    assert payment * (GRAIN * all) == (payment * GRAIN) * all;
    assert gain * (truncated * all) == (gain * truncated) * all;
    CancelInt(gain * truncated, payment * GRAIN, all);
  }
}

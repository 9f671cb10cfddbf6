/** How far the exchange rate can fall over whole runs. */
module Rates {
  import opened Fixed
  import opened HubTypes
  import opened ExchangeRate
  import opened HubSteps
  import opened Backing
  import opened Books
  import opened Peg
  import opened Runs
  import opened Requests
  import opened Guarantees

  ghost predicate Bonds(w: World, op: Op) {
    op.Bond? && Transact(w, op).Ok?
  }

  /** Bonds of a run that go through. */
  ghost function BondCount(w: World, ops: seq<Op>): nat
    decreases |ops|
  {
    if ops == [] then 0 else (if Bonds(w, ops[0]) then 1 else 0) + BondCount(Step(w, ops[0]), ops[1..])
  }

  /** Some token is outstanding before every transaction of the run. */
  ghost predicate AlwaysOutstanding(w: World, ops: seq<Op>)
    decreases |ops|
  {
    ops == [] || (w.chain.supply + w.hub.requested > 0 && AlwaysOutstanding(Step(w, ops[0]), ops[1..]))
  }

  lemma NothingToCheck(w: World, c: Chain)
    requires Exact(w) && c == w.chain.(balance := c.balance)
    ensures Checked(w.hub, c) == w.hub
  {
  }

  lemma BondRateFalls(w: World, op: Op, after: World)
    requires Inv(w) && Exact(w) && Sound(w.hub, w.chain.supply)
    requires op.Bond? && Transact(w, op) == Ok(after) && w.chain.supply + w.hub.requested > 0
    ensures after.hub.exchangeRate >= Truncated(w.hub.exchangeRate)
  {
    var c := Attached(w.chain, op);
    NothingToCheck(w, c);
    assert BondStep(w.hub, c, op.p, op.sender, op.validator, op.payment).Ok?;
    hide BondStep, Truncated;
    BondDilutionIff(w.hub, c, op.p, op.sender, op.validator, op.payment);
  }

  lemma UnbondRateRises(w: World, op: Op, after: World)
    requires Inv(w) && Exact(w) && Sound(w.hub, w.chain.supply)
    requires op.Unbond? && Transact(w, op) == Ok(after) && w.chain.supply + w.hub.requested > 0
    ensures after.hub.exchangeRate >= w.hub.exchangeRate
  {
    NothingToCheck(w, w.chain);
    UnbondKeepsInv(w, op, after);
    hide UnbondStep, Transact;
    UnbondKeepsRateIff(w.hub, w.chain, op.p, op.sender, op.amount, op.draw);
  }

  lemma RewardRateRises(w: World, op: Op, after: World)
    requires op.Reward? && Transact(w, op) == Ok(after)
    ensures after.hub.exchangeRate >= w.hub.exchangeRate
  {
  }

  /** With nothing slashed and some token outstanding only a bond lowers the rate, to its
      truncation to nine places at worst. */
  lemma StepRate(w: World, op: Op)
    requires Inv(w) && Exact(w) && Sound(w.hub, w.chain.supply)
    requires !op.Slash? && w.chain.supply + w.hub.requested > 0
    ensures Step(w, op).hub.exchangeRate
         >= if Bonds(w, op) then Truncated(w.hub.exchangeRate) else w.hub.exchangeRate
  {
    if Transact(w, op).Ok? {
      var after := Transact(w, op).value;
      match op
      case Bond(_, _, _, _) => BondRateFalls(w, op, after);
      case Unbond(_, _, _, _) => UnbondRateRises(w, op, after);
      case Reward(_, _, _, _) => RewardRateRises(w, op, after);
      case CheckSlashing => CheckedExact(w.hub, w.chain);
      case Withdraw(_, _) => WithdrawKeepsRate(w, op, after);
      case _ =>
    }
  }

  /** Over every run without slashing in which some token stays outstanding, the rate falls by
      less than 10^-9 for every bond, and not otherwise. */
  lemma {:induction false} RateOverRuns(w: World, ops: seq<Op>)
    requires Inv(w) && Exact(w) && Behind(w) && Sound(w.hub, w.chain.supply)
    requires Unslashed(ops) && AlwaysOutstanding(w, ops)
    ensures w.hub.exchangeRate <= Run(w, ops).hub.exchangeRate + BondCount(w, ops) * (GRAIN - 1)
    decreases |ops|
  {
    if ops != [] {
      hide Transact, Inv, Exact, Behind, Sound, Strands, Bonds;
      var next := Step(w, ops[0]);
      StepKeepsInv(w, ops[0]);
      StepExact(w, ops[0]);
      StepKeepsBehind(w, ops[0]);
      BehindStrandsNothing(w, ops[0]);
      StepSoundIff(w, ops[0]);
      StepRate(w, ops[0]);
      RateOverRuns(next, ops[1..]);
    }
  }
}

/** What one bond or unbond does for its sender, and how the recorded bond follows the
    delegations. */
module Requests {
  import opened Fixed
  import opened Sums
  import opened HubTypes
  import opened ExchangeRate
  import opened HubSteps
  import opened Peg
  import opened Ledger
  import opened Effects
  import opened Books
  import opened Runs

  // ----- fees -----

  /** `fee` is at most the cap, and below the cap only if it brings the rate to 1.0. */
  predicate FairFee(fee: int, cap: nat, rate: nat) {
    && 0 <= fee <= cap
    && rate <= ONE
    && (fee < cap ==> rate == ONE)
  }

  lemma ParRate(coins: nat, issued: nat, requested: nat)
    requires coins == issued + requested && UpdatedRate(coins, issued, requested).Ok?
    ensures UpdatedRate(coins, issued, requested).value == ONE
  {
    if coins > 0 {
      assert ONE * coins == coins * ONE;
      FloorUnique(coins * ONE, coins, ONE);
    }
  }

  /** A bond without the fee mints the quotient of payment and rate; with the fee it mints
      that less a fee within the cap, and less than the cap only to end exactly at 1.0. */
  lemma BondFee(s: Storage, c: Chain, op: Op, after: Storage, msgs: seq<Msg>)
    requires op.Bond? && BondStep(s, c, op.p, op.sender, op.validator, op.payment) == Ok((after, msgs))
    ensures DecimalDivision(op.payment, Checked(s, c).exchangeRate).Ok?
    ensures |msgs| == 2 && msgs[0] == Delegate(op.validator, op.payment)
    ensures msgs[1] == Mint(op.sender, msgs[1].amount)
    ensures var full := DecimalDivision(op.payment, Checked(s, c).exchangeRate).value;
      if Checked(s, c).exchangeRate < op.p.erThreshold
      then FairFee(full - msgs[1].amount, Floor(full * op.p.pegRecoveryFee, ONE), after.exchangeRate)
      else msgs[1].amount == full
  {
    var checked := Checked(s, c);
    BondRecoversPegIfLow(s, c, op);
    var full := DecimalDivision(op.payment, checked.exchangeRate).value;
    if checked.exchangeRate < op.p.erThreshold && full - msgs[1].amount < Floor(full * op.p.pegRecoveryFee, ONE) {
      ParRate(checked.totalBond + op.payment, c.supply + msgs[1].amount, checked.requested);
    }
  }

  lemma BondRecoversPegIfLow(s: Storage, c: Chain, op: Op)
    requires op.Bond? && BondStep(s, c, op.p, op.sender, op.validator, op.payment).Ok?
    ensures Checked(s, c).exchangeRate < op.p.erThreshold ==>
              BondStep(s, c, op.p, op.sender, op.validator, op.payment).value.0.exchangeRate <= ONE
  {
    if Checked(s, c).exchangeRate < op.p.erThreshold {
      BondRecoversPeg(s, c, op.p, op.sender, op.validator, op.payment);
    }
  }

  /** The same for the part of an unbond that is not recorded for the sender. */
  lemma RequestFee(s: Storage, supply: nat, op: Op, after: Storage)
    requires op.Unbond? && RequestStep(s, supply, op.p, op.sender, op.amount) == Ok(after)
    ensures if s.exchangeRate < op.p.erThreshold
            then FairFee(op.amount - (after.requested - s.requested),
                         Floor(op.amount * op.p.pegRecoveryFee, ONE), after.exchangeRate)
            else after.requested == s.requested + op.amount
  {
    var net := after.requested - s.requested;
    if s.exchangeRate < op.p.erThreshold {
      AtMostPar(s.totalBond, supply - op.amount, after.requested);
      if op.amount - net < Floor(op.amount * op.p.pegRecoveryFee, ONE) {
        ParRate(s.totalBond, supply - op.amount, after.requested);
      }
    }
  }

  // ----- requests -----

  /** The whole storage after an unbond.  It records its amount less the fee for its sender in
      the current batch, and touches no other ticket.  Once per epoch, and only then, it closes
      the batch: the new entry records the batch's tokens, the rate and the time, it is promised
      exactly what is taken out of the bond, the next batch starts empty, and the epoch clock is
      set.  Otherwise nothing else changes, the clock included. */
  lemma UnbondRecords(s: Storage, c: Chain, op: Op, after: Storage, msgs: seq<Msg>) returns (net: nat)
    requires op.Unbond? && UnbondStep(s, c, op.p, op.sender, op.amount, op.draw) == Ok((after, msgs))
    ensures net <= op.amount <= c.supply
    ensures UpdatedRate(SlashingStep(s, c).value.totalBond, c.supply - op.amount, s.requested + net)
         == Ok(after.exchangeRate)
    ensures var ticket := Ticket(op.sender, s.batchId);
      after.waits == s.waits[ticket := (if ticket in s.waits then s.waits[ticket] else 0) + net]
    ensures c.now >= s.lastUnbondedTime
    ensures var bond := SlashingStep(s, c).value.totalBond;
      if c.now - s.lastUnbondedTime > op.p.epochPeriod then
        && after == s.(exchangeRate := after.exchangeRate, totalBond := after.totalBond, waits := after.waits,
                       batchId := s.batchId + 1, requested := 0, lastUnbondedTime := c.now,
                       history := s.history[s.batchId := UnbondHistory(
                         s.batchId, c.now, s.requested + net, after.exchangeRate, after.exchangeRate, false)])
        && Promised(after.history[s.batchId]) == bond - after.totalBond
      else
        after == s.(exchangeRate := after.exchangeRate, totalBond := bond, waits := after.waits,
                    requested := s.requested + net)
  {
    var checked := SlashingStep(s, c).value;
    var asked := RequestStep(checked, c.supply, op.p, op.sender, op.amount).value;
    net := RequestRecords(checked, c.supply, op.p, op.sender, op.amount, asked);
    CheckRecords(s, c);
    hide SlashingStep, RequestStep;
  }

  lemma CheckRecords(s: Storage, c: Chain)
    requires SlashingStep(s, c).Ok?
    ensures var checked := SlashingStep(s, c).value;
      checked == s.(totalBond := checked.totalBond, exchangeRate := checked.exchangeRate)
  {
  }

  lemma RequestRecords(s: Storage, supply: nat, p: Settings, sender: string, amount: nat, asked: Storage)
      returns (net: nat)
    requires RequestStep(s, supply, p, sender, amount) == Ok(asked)
    ensures net <= amount <= supply && UnbondAmount(s, supply, p, amount) == Ok(net)
    ensures var ticket := Ticket(sender, s.batchId);
      asked == s.(requested := s.requested + net, exchangeRate := asked.exchangeRate,
                  waits := s.waits[ticket := (if ticket in s.waits then s.waits[ticket] else 0) + net])
    ensures UpdatedRate(s.totalBond, supply - amount, asked.requested) == Ok(asked.exchangeRate)
  {
    net := asked.requested - s.requested;
  }

  // ----- the recorded bond -----

  /** The hub never records less than it has delegated. */
  ghost predicate Tracks(w: World) {
    TotalDelegated(w.chain.delegations) <= w.hub.totalBond
  }

  lemma CheckedBond(s: Storage, c: Chain)
    requires SlashingStep(s, c).Ok? && TotalDelegated(c.delegations) <= s.totalBond
    ensures TotalDelegated(c.delegations) <= SlashingStep(s, c).value.totalBond
    ensures SlashingStep(s, c).value.totalBond == TotalDelegated(c.delegations)
       <==> c.delegations != [] || s.totalBond == 0
  {
  }

  /** The record is what is delegated. */
  ghost predicate Exact(w: World) {
    w.hub.totalBond == TotalDelegated(w.chain.delegations)
  }

  /** Every transaction keeps that, and one that checks for slashing leaves the record equal
      to the delegations -- exactly unless the hub has no delegation at all and records a
      bond, which the check does not look at. */
  lemma StepTracks(w: World, op: Op)
    requires Inv(w) && Tracks(w)
    ensures Tracks(Step(w, op))
    ensures Transact(w, op).Ok? && (op.Bond? || op.Unbond? || op.CheckSlashing?) ==>
              (Exact(Step(w, op)) <==> w.chain.delegations != [] || w.hub.totalBond == 0)
  {
    if Transact(w, op).Ok? {
      match op
      case Bond(_, _, _, _) => BondTracks(w, op);
      case Unbond(_, _, _, _) => UnbondTracks(w, op);
      case Reward(_, _, _, _) => RewardTracks(w, op);
      case CheckSlashing => CheckedBond(w.hub, w.chain);
      case Withdraw(_, _) => WithdrawKeepsBond(w, op);
      case _ =>
    }
  }

  lemma BondTracks(w: World, op: Op)
    requires Inv(w) && Tracks(w) && op.Bond? && Transact(w, op).Ok?
    ensures Tracks(Step(w, op))
    ensures Exact(Step(w, op)) <==> w.chain.delegations != [] || w.hub.totalBond == 0
  {
    var c := Attached(w.chain, op);
    BondEffect(w.hub, w.chain, c, op, HubCall(w.hub, c, op).value);
    CheckedBond(w.hub, c);
  }

  lemma UnbondTracks(w: World, op: Op)
    requires Inv(w) && Tracks(w) && op.Unbond? && Transact(w, op).Ok?
    ensures Tracks(Step(w, op))
    ensures Exact(Step(w, op)) <==> w.chain.delegations != [] || w.hub.totalBond == 0
  {
    UnbondEffect(w.hub, w.chain, op.p, op.sender, op.amount, op.draw);
    CheckedBond(w.hub, w.chain);
  }

  lemma RewardTracks(w: World, op: Op)
    requires Inv(w) && Tracks(w) && op.Reward? && Transact(w, op).Ok?
    ensures Tracks(Step(w, op))
  {
    var c := Attached(w.chain, op);
    RewardEffect(w.hub, w.chain, c, op, HubCall(w.hub, c, op).value);
  }

  lemma WithdrawKeepsBond(w: World, op: Op)
    requires Inv(w) && op.Withdraw? && Transact(w, op).Ok?
    ensures Step(w, op).hub.totalBond == w.hub.totalBond && Step(w, op).hub.requested == w.hub.requested
    ensures Step(w, op).chain == w.chain.(balance := Step(w, op).chain.balance)
  {
    hide Conserved, ReleaseStep;
    var released, paid := WithdrawParts(w, op, Step(w, op));
    ReleaseFrame(w.hub, w.chain.now, w.chain.now - op.p.unbondingPeriod, w.chain.balance, released);
  }

  /** No validator is slashed during the run. */
  predicate Unslashed(ops: seq<Op>) {
    forall i | 0 <= i < |ops| :: !ops[i].Slash?
  }

  /** Without slashing the recorded bond equals the delegations in every run, to the coin:
      what bonds and rewards delegate and what closed batches undelegate is all there is. */
  lemma {:induction false} BondExactOverRuns(w: World, ops: seq<Op>)
    requires Inv(w) && Exact(w) && Unslashed(ops)
    ensures Exact(Run(w, ops))
    decreases |ops|
  {
    if ops != [] {
      StepKeepsInv(w, ops[0]);
      StepExact(w, ops[0]);
      BondExactOverRuns(Step(w, ops[0]), ops[1..]);
    }
  }

  lemma StepExact(w: World, op: Op)
    requires Inv(w) && Exact(w) && !op.Slash?
    ensures Exact(Step(w, op))
  {
    if Transact(w, op).Ok? {
      var c := Attached(w.chain, op);
      match op
      case Bond(_, _, _, _) =>
        BondEffect(w.hub, w.chain, c, op, HubCall(w.hub, c, op).value);
        CheckedExact(w.hub, c);
      case Unbond(_, _, _, _) =>
        UnbondEffect(w.hub, w.chain, op.p, op.sender, op.amount, op.draw);
        CheckedExact(w.hub, w.chain);
      case Reward(_, _, _, _) =>
        RewardEffect(w.hub, w.chain, c, op, HubCall(w.hub, c, op).value);
      case CheckSlashing => CheckedExact(w.hub, w.chain);
      case Withdraw(_, _) => WithdrawKeepsBond(w, op);
      case _ =>
    }
  }

  lemma CheckedExact(s: Storage, c: Chain)
    requires SlashingStep(s, c).Ok? && s.totalBond == TotalDelegated(c.delegations)
    ensures SlashingStep(s, c).value == s
  {
  }

  /** Over every run, with slashing, the record never falls below the delegations. */
  lemma {:induction false} TracksOverRuns(w: World, ops: seq<Op>)
    requires Inv(w) && Tracks(w)
    ensures Tracks(Run(w, ops))
    decreases |ops|
  {
    if ops != [] {
      StepKeepsInv(w, ops[0]);
      StepTracks(w, ops[0]);
      TracksOverRuns(Step(w, ops[0]), ops[1..]);
    }
  }
}

/** The guarantees of the hub over whole runs from its instantiation, under conditions that
    speak of slashings and arrivals only. */
module Guarantees {
  import opened Fixed
  import opened HubTypes
  import opened ExchangeRate
  import opened HubSteps
  import opened Backing
  import opened Ledger
  import opened Effects
  import opened Books
  import opened Runs
  import opened Requests

  /** No slashing takes the last delegated coin. */
  predicate Spares(ops: seq<Op>) {
    forall i | 0 <= i < |ops| :: ops[i].Slash? ==> TotalDelegated(ops[i].delegations) > 0
  }

  /** The hub records at least what it has delegated, and while any token is outstanding,
      or any bond recorded, something is delegated. */
  ghost predicate Behind(w: World) {
    && Tracks(w)
    && (TotalDelegated(w.chain.delegations) == 0 ==>
          w.hub.totalBond == 0 && w.chain.supply + w.hub.requested == 0)
  }

  lemma BehindStrandsNothing(w: World, op: Op)
    requires Behind(w)
    ensures !Strands(w, op)
  {
    if Transact(w, op).Ok? && op.Unbond? {
      assert UnbondStep(w.hub, w.chain, op.p, op.sender, op.amount, op.draw).Ok?;
    }
  }

  /** Undelegating a closed batch leaves no token outstanding when it takes the whole bond. */
  lemma EpochTakesAll(s: Storage, c: Chain, draw: nat -> nat, supply: nat)
    requires Sound(s, supply) && s.totalBond > 0 && EpochStep(s, c, draw).Ok?
    ensures var after := EpochStep(s, c, draw).value.0;
      after.totalBond == 0 ==> supply + after.requested == 0
  {
    EpochKeepsSound(s, c, draw, supply);
    var after := EpochStep(s, c, draw).value.0;
    if after.totalBond == 0 && supply > 0 {
      MulPositive(s.exchangeRate, supply);
    }
  }

  lemma UnbondKeepsBehind(w: World, op: Op, after: World)
    requires Inv(w) && Behind(w) && Sound(w.hub, w.chain.supply)
    requires op.Unbond? && Transact(w, op) == Ok(after)
    ensures Behind(after)
  {
    UnbondKeepsInv(w, op, after);
    UnbondTracks(w, op);
    hide Inv, Transact, EpochStep;
    var checked := SlashingStep(w.hub, w.chain).value;
    var asked := RequestStep(checked, w.chain.supply, op.p, op.sender, op.amount).value;
    CheckedBond(w.hub, w.chain);
    RequestSoundIff(checked, w.chain.supply, op.p, op.sender, op.amount);
    if checked.totalBond > 0 && w.chain.now - asked.lastUnbondedTime > op.p.epochPeriod {
      EpochTakesAll(asked, w.chain, op.draw, w.chain.supply - op.amount);
    }
  }

  lemma StepKeepsBehind(w: World, op: Op)
    requires Inv(w) && Behind(w) && Sound(w.hub, w.chain.supply) && Spares([op])
    ensures Behind(Step(w, op))
  {
    assert [op][0] == op;
    if Transact(w, op).Ok? {
      var after := Transact(w, op).value;
      match op
      case Bond(_, _, _, _) => BondTracks(w, op);
      case Unbond(_, _, _, _) => UnbondKeepsBehind(w, op, after);
      case Reward(_, _, _, _) => RewardKeepsBehind(w, op, after);
      case CheckSlashing => CheckedBond(w.hub, w.chain);
      case Withdraw(_, _) => WithdrawKeepsBond(w, op);
      case _ =>
    }
  }

  lemma RewardKeepsBehind(w: World, op: Op, after: World)
    requires Inv(w) && Behind(w) && op.Reward? && Transact(w, op) == Ok(after)
    ensures Behind(after)
  {
    var c := Attached(w.chain, op);
    RewardEffect(w.hub, w.chain, c, op, HubCall(w.hub, c, op).value);
  }

  /** As long as no slashing takes the last delegated coin, nothing is ever stranded and the
      exchange rate never overstates the backing: no other hypothesis, whoever calls what. */
  lemma {:induction false} BackedWhenSpared(w: World, ops: seq<Op>)
    requires Inv(w) && Behind(w) && Sound(w.hub, w.chain.supply)
    requires Spares(ops)
    ensures NeverStrands(w, ops) && AlwaysSound(w, ops)
    ensures Behind(Run(w, ops)) && Sound(Run(w, ops).hub, Run(w, ops).chain.supply)
    decreases |ops|
  {
    if ops != [] {
      StepKeepsInv(w, ops[0]);
      StepKeepsBehind(w, ops[0]);
      BehindStrandsNothing(w, ops[0]);
      StepSoundIff(w, ops[0]);
      BackedWhenSpared(Step(w, ops[0]), ops[1..]);
    }
  }

  // ----- the only way to lose the backing -----

  /** With tokens outstanding and no bond, the rate is not zero. */
  ghost predicate Solid(w: World) {
    w.hub.totalBond == 0 && w.chain.supply + w.hub.requested > 0 ==> w.hub.exchangeRate > 0
  }

  lemma CheckKeepsSolid(s: Storage, c: Chain)
    requires SlashingStep(s, c).Ok?
    requires s.totalBond == 0 && c.supply + s.requested > 0 ==> s.exchangeRate > 0
    ensures var checked := SlashingStep(s, c).value;
      checked.totalBond == 0 && c.supply + checked.requested > 0 ==> checked.exchangeRate > 0
  {
  }

  lemma UnbondKeepsSolid(w: World, op: Op, after: World)
    requires Inv(w) && op.Unbond? && Transact(w, op) == Ok(after)
    ensures Solid(after)
  {
    hide Inv, Transact;
    UnbondKeepsInv(w, op, after);
    UnbondSolid(w.hub, w.chain, op, after.hub);
  }

  lemma UnbondSolid(s: Storage, c: Chain, op: Op, after: Storage)
    requires op.Unbond? && UnbondStep(s, c, op.p, op.sender, op.amount, op.draw).Ok?
    requires UnbondStep(s, c, op.p, op.sender, op.amount, op.draw).value.0 == after
    ensures after.totalBond == 0 && c.supply - op.amount + after.requested > 0 ==> after.exchangeRate > 0
  {
    var checked := SlashingStep(s, c).value;
    var asked := RequestStep(checked, c.supply, op.p, op.sender, op.amount).value;
    RequestSolid(checked, c.supply, op.p, op.sender, op.amount, asked);
    hide SlashingStep, RequestStep;
    if c.now - asked.lastUnbondedTime > op.p.epochPeriod && asked.exchangeRate == 0 {
      assert BatchValue(asked) == 0;
    }
  }

  lemma RequestSolid(s: Storage, supply: nat, p: Settings, sender: string, amount: nat, asked: Storage)
    requires RequestStep(s, supply, p, sender, amount) == Ok(asked)
    ensures amount <= supply && (asked.totalBond == 0 ==> asked.exchangeRate == ONE)
  {
  }

  lemma RewardKeepsSolid(w: World, op: Op, after: World)
    requires Inv(w) && Solid(w) && op.Reward? && Transact(w, op) == Ok(after)
    ensures Solid(after)
  {
    var c := Attached(w.chain, op);
    RewardEffect(w.hub, w.chain, c, op, HubCall(w.hub, c, op).value);
  }

  lemma StepKeepsSolid(w: World, op: Op)
    requires Inv(w) && Solid(w)
    ensures Solid(Step(w, op))
  {
    if Transact(w, op).Ok? {
      var after := Transact(w, op).value;
      match op
      case Bond(_, _, _, _) => BondKeepsSolid(w, op, after);
      case Unbond(_, _, _, _) => UnbondKeepsSolid(w, op, after);
      case Reward(_, _, _, _) => RewardKeepsSolid(w, op, after);
      case CheckSlashing => CheckKeepsSolid(w.hub, w.chain);
      case Withdraw(_, _) =>
        WithdrawKeepsBond(w, op);
        WithdrawKeepsRate(w, op, after);
      case _ => ChainKeepsInv(w, op, after);
    }
  }

  lemma BondKeepsSolid(w: World, op: Op, after: World)
    requires Inv(w) && op.Bond? && Transact(w, op) == Ok(after)
    ensures Solid(after)
  {
    var c := Attached(w.chain, op);
    BondEffect(w.hub, w.chain, c, op, HubCall(w.hub, c, op).value);
    assert op.payment > 0;
  }

  lemma WithdrawKeepsRate(w: World, op: Op, after: World)
    requires Inv(w) && op.Withdraw? && Transact(w, op) == Ok(after)
    ensures after.hub.exchangeRate == w.hub.exchangeRate
  {
    hide Transact, ReleaseStep;
    var released, paid := WithdrawParts(w, op, after);
    ReleaseFrame(w.hub, w.chain.now, w.chain.now - op.p.unbondingPeriod, w.chain.balance, released);
  }

  lemma {:induction false} SolidOverRuns(w: World, ops: seq<Op>)
    requires Inv(w) && Solid(w)
    ensures Inv(Run(w, ops)) && Solid(Run(w, ops))
    decreases |ops|
  {
    if ops != [] {
      StepKeepsInv(w, ops[0]);
      StepKeepsSolid(w, ops[0]);
      SolidOverRuns(Step(w, ops[0]), ops[1..]);
    }
  }

  lemma BackedWithoutBond(w: World)
    requires Solid(w) && Sound(w.hub, w.chain.supply) && w.hub.totalBond == 0
    ensures w.chain.supply + w.hub.requested == 0
  {
    if w.chain.supply + w.hub.requested > 0 {
      MulPositive(w.hub.exchangeRate, w.chain.supply + w.hub.requested);
    }
  }

  /** From instantiation on, a backed world without a bond has no token outstanding; and a
      transaction loses the backing only by finding, in its slashing check, delegations that
      are worth nothing behind a recorded bond. */
  lemma LosesOnlyWhenWiped(w: World, ops: seq<Op>, op: Op)
    requires Initial(w) && Sound(Run(w, ops).hub, Run(w, ops).chain.supply)
    ensures var here := Run(w, ops);
      here.hub.totalBond == 0 ==> here.chain.supply + here.hub.requested == 0
    ensures var here := Run(w, ops);
      !Sound(Step(here, op).hub, Step(here, op).chain.supply) ==>
        (op.CheckSlashing? || op.Unbond?) && Wiped(here.chain) && here.hub.totalBond > 0
  {
    InitialInv(w);
    SolidOverRuns(w, ops);
    hide Run, Inv;
    var here := Run(w, ops);
    StepSoundIff(here, op);
    if here.hub.totalBond == 0 {
      BackedWithoutBond(here);
      UnbackedNeedsTokens(here, op);
    }
  }

  lemma UnbackedNeedsTokens(w: World, op: Op)
    requires w.chain.supply + w.hub.requested == 0
    ensures !Strands(w, op)
  {
    if Transact(w, op).Ok? && op.Unbond? {
      assert UnbondStep(w.hub, w.chain, op.p, op.sender, op.amount, op.draw).Ok?;
    }
  }

  // ----- all guarantees -----

  /** From instantiation on, if no slashing takes the last delegated coin and every
      withdrawal finds ample coins for what it releases: the books are kept, the rate is
      backed, and the claims of all users are covered by coins the hub holds. */
  lemma FromInstantiation(w: World, ops: seq<Op>)
    requires Initial(w) && Spares(ops) && AlwaysAmple(w, ops)
    ensures var end := Run(w, ops);
      && Inv(end) && AlwaysSound(w, ops) && Sound(end.hub, end.chain.supply) && Solvent(end)
      && Owed(end.hub.history, end.hub.waits) <= end.hub.prevHubBalance <= end.chain.balance
  {
    InitialInv(w);
    BackedWhenSpared(w, ops);
    SolvencyOverRuns(w, ops);
  }
}

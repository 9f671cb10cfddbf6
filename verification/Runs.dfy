/** What holds over every run of transactions, in any order, by any users. */
module Runs {
  import opened Fixed
  import opened Sums
  import opened HubTypes
  import opened ExchangeRate
  import opened HubSteps
  import opened Backing
  import opened Ledger
  import opened Effects
  import opened Books
  import Release

  // ----- the books -----

  lemma InitialInv(w: World)
    requires Initial(w)
    ensures Inv(w)
    ensures Owed(w.hub.history, w.hub.waits) == 0
    ensures Sound(w.hub, w.chain.supply)
    ensures w.hub.totalBond == TotalDelegated(w.chain.delegations)
    ensures w.hub.lastUnbondedTime == w.chain.now
  {
    forall b ensures ConservedIn(w.hub, b) {
      assert BatchTickets(w.hub.waits, b) == map[];
    }
    assert Claims(w.hub.history, w.hub.waits) == map[];
  }

  /** The pieces of a successful withdrawal: the matured batches are released, the sender's
      payable tickets are paid and settled, and the rest of the balance is recorded. */
  lemma WithdrawParts(w: World, op: Op, after: World) returns (released: Storage, paid: nat)
    requires op.Withdraw? && Transact(w, op) == Ok(after)
    ensures w.chain.now >= op.p.unbondingPeriod
    ensures ReleaseStep(w.hub, w.chain.now - op.p.unbondingPeriod, w.chain.balance) == Ok(released)
    ensures paid == Sum(UserClaims(released.history, released.waits, op.sender))
    ensures 0 < paid <= w.chain.balance
    ensures after.hub == released.(waits := Settled(released.history, released.waits, op.sender),
                                   prevHubBalance := w.chain.balance - paid)
    ensures after.chain == w.chain.(balance := w.chain.balance - paid)
    ensures HubCall(w.hub, w.chain, op) == Ok((after.hub, [Send(op.sender, paid)]))
  {
    hide ReleaseStep;
    released := ReleaseStep(w.hub, w.chain.now - op.p.unbondingPeriod, w.chain.balance).value;
    paid := Sum(UserClaims(released.history, released.waits, op.sender));
    ApplyOne(w.chain, Send(op.sender, paid));
  }

  lemma WithdrawKeepsInv(w: World, op: Op, after: World)
    requires Inv(w) && op.Withdraw? && Transact(w, op) == Ok(after)
    ensures Inv(after) && Extends(w.hub.history, after.hub.history)
    ensures after.hub.prevHubBalance == after.chain.balance
    ensures after.chain == w.chain.(balance := after.chain.balance)
    ensures Sound(w.hub, w.chain.supply) ==> Sound(after.hub, after.chain.supply)
  {
    hide Transact, ReleaseStep, Conserved, Settled, UserClaims, Extends;
    var released, paid := WithdrawParts(w, op, after);
    ReleaseKeepsBooks(w.hub, w.chain.now, w.chain.now - op.p.unbondingPeriod, w.chain.balance, released);
    SettlingConserved(released, op.sender, w.chain.balance - paid);
  }

  /** A withdrawal seen from outside: the wait lists of before, settled for the sender under
      the history of after, and exactly the settled claims paid. */
  lemma WithdrawSettles(w: World, op: Op, after: World)
    requires Inv(w) && op.Withdraw? && Transact(w, op) == Ok(after)
    ensures after.hub.waits == Settled(after.hub.history, w.hub.waits, op.sender)
    ensures after.chain.balance + Sum(UserClaims(after.hub.history, w.hub.waits, op.sender))
         == w.chain.balance
    ensures after.hub.history.Keys == w.hub.history.Keys
    ensures Extends(w.hub.history, after.hub.history)
    ensures Conserved(w.hub.(history := after.hub.history, lastProcessed := after.hub.lastProcessed,
                             actualUnbonded := 0))
  {
    hide Transact, ReleaseStep, Conserved, Settled, UserClaims, Extends;
    var released, paid := WithdrawParts(w, op, after);
    ReleaseKeepsBooks(w.hub, w.chain.now, w.chain.now - op.p.unbondingPeriod, w.chain.balance, released);
  }

  lemma UnbondKeepsInv(w: World, op: Op, after: World)
    requires Inv(w) && op.Unbond? && Transact(w, op) == Ok(after)
    ensures Inv(after) && Extends(w.hub.history, after.hub.history)
    ensures SameClaims(w.hub, after.hub)
    ensures after.hub.prevHubBalance == w.hub.prevHubBalance
    ensures after.chain.balance == w.chain.balance
    ensures UnbondStep(w.hub, w.chain, op.p, op.sender, op.amount, op.draw).Ok?
    ensures after.hub == UnbondStep(w.hub, w.chain, op.p, op.sender, op.amount, op.draw).value.0
    ensures op.amount <= w.chain.supply && after.chain.supply == w.chain.supply - op.amount
  {
    var r := UnbondStep(w.hub, w.chain, op.p, op.sender, op.amount, op.draw).value;
    UnbondKeepsBooks(w.hub, w.chain, op, r.0, r.1);
    UnbondEffect(w.hub, w.chain, op.p, op.sender, op.amount, op.draw);
  }

  /** Calls that touch neither the history nor the wait lists nor the liquid balance. */
  predicate OffBooks(op: Op) {
    op.Bond? || op.Reward? || op.CheckSlashing?
  }

  lemma OffBooksKeepsInv(w: World, op: Op, after: World)
    requires Inv(w) && OffBooks(op) && Transact(w, op) == Ok(after)
    ensures Inv(after) && SameBooks(w.hub, after.hub)
    ensures after.chain.balance == w.chain.balance
  {
    hide Conserved, Shape;
    var c := Attached(w.chain, op);
    var r := HubCall(w.hub, c, op).value;
    if op.Bond? {
      BondEffect(w.hub, w.chain, c, op, r);
    } else if op.Reward? {
      RewardEffect(w.hub, w.chain, c, op, r);
    } else {
      assert r.1 == [];
    }
    SameBooksConserved(w.hub, after.hub);
  }

  /** Every transaction keeps the books and only extends the history; the hub's liquid
      balance never drops below what the hub recorded. */
  lemma StepKeepsInv(w: World, op: Op)
    requires Inv(w)
    ensures Inv(Step(w, op)) && Extends(w.hub.history, Step(w, op).hub.history)
  {
    if Transact(w, op).Ok? {
      var after := Transact(w, op).value;
      if OffBooks(op) {
        OffBooksKeepsInv(w, op, after);
      } else if op.Unbond? {
        UnbondKeepsInv(w, op, after);
      } else if op.Withdraw? {
        WithdrawKeepsInv(w, op, after);
      } else {
        ChainKeepsInv(w, op, after);
      }
    }
  }

  lemma ChainKeepsInv(w: World, op: Op, after: World)
    requires Inv(w) && Transact(w, op) == Ok(after)
    requires op.Elapse? || op.Receive? || op.Slash?
    ensures Inv(after) && after.hub == w.hub && after.chain.supply == w.chain.supply
  {
  }

  /** The books over every run, and the history only ever extended: amounts, times and
      applied rates of closed batches never change, nor anything of a released batch. */
  lemma {:induction false} BooksOverRuns(w: World, ops: seq<Op>)
    requires Inv(w)
    ensures Inv(Run(w, ops)) && Extends(w.hub.history, Run(w, ops).hub.history)
    decreases |ops|
  {
    if ops != [] {
      StepKeepsInv(w, ops[0]);
      BooksOverRuns(Step(w, ops[0]), ops[1..]);
    }
  }

  // ----- backing -----

  /** The call goes through although its slashing check finds the delegations wiped, or no
      bond was recorded, and tokens stay outstanding. */
  ghost predicate Strands(w: World, op: Op) {
    && Transact(w, op).Ok?
    && SlashingStep(w.hub, w.chain).Ok?
    && match op {
         case CheckSlashing =>
           Wiped(w.chain) && w.hub.totalBond > 0 && w.chain.supply + w.hub.requested > 0
         case Unbond(p, _, amount, _) => UnbondsUnbacked(w.hub, w.chain, p, amount)
         case _ => false
       }
  }

  lemma UnbondStepSoundIff(w: World, op: Op, after: World)
    requires Inv(w) && op.Unbond? && Transact(w, op) == Ok(after)
    ensures Sound(after.hub, after.chain.supply) <==> !Strands(w, op)
  {
    UnbondKeepsInv(w, op, after);
    UnbondSoundIff(w.hub, w.chain, op.p, op.sender, op.amount, op.draw);
    assert SlashingStep(w.hub, w.chain).Ok?;
    hide UnbondStep, SlashingStep, Transact;
  }

  lemma BondStepIsSound(w: World, op: Op, after: World)
    requires Inv(w) && op.Bond? && Transact(w, op) == Ok(after)
    ensures Sound(after.hub, after.chain.supply)
  {
    var c := Attached(w.chain, op);
    BondEffect(w.hub, w.chain, c, op, HubCall(w.hub, c, op).value);
    BondIsSound(w.hub, c, op.p, op.sender, op.validator, op.payment);
  }

  lemma RewardStepIsSound(w: World, op: Op, after: World)
    requires Inv(w) && op.Reward? && Transact(w, op) == Ok(after) && Sound(w.hub, w.chain.supply)
    ensures Sound(after.hub, after.chain.supply)
  {
    var c := Attached(w.chain, op);
    RewardEffect(w.hub, w.chain, c, op, HubCall(w.hub, c, op).value);
    RewardKeepsSound(w.hub, c, op.p, op.sender, op.payment, op.draw);
  }

  /** A transaction keeps the rate backed exactly when it does not strand tokens. */
  lemma StepSoundIff(w: World, op: Op)
    requires Inv(w) && Sound(w.hub, w.chain.supply)
    ensures Sound(Step(w, op).hub, Step(w, op).chain.supply) <==> !Strands(w, op)
  {
    if Transact(w, op).Ok? {
      var after := Transact(w, op).value;
      match op
      case Bond(_, _, _, _) => BondStepIsSound(w, op, after);
      case Reward(_, _, _, _) => RewardStepIsSound(w, op, after);
      case CheckSlashing => SlashingKeepsSoundIff(w.hub, w.chain);
      case Unbond(_, _, _, _) => UnbondStepSoundIff(w, op, after);
      case Withdraw(_, _) => WithdrawKeepsInv(w, op, after);
      case _ => ChainKeepsInv(w, op, after);
    }
  }

  ghost predicate NeverStrands(w: World, ops: seq<Op>)
    decreases |ops|
  {
    ops == [] || (!Strands(w, ops[0]) && NeverStrands(Step(w, ops[0]), ops[1..]))
  }

  /** The rate is backed at the start and after every transaction. */
  ghost predicate AlwaysSound(w: World, ops: seq<Op>)
    decreases |ops|
  {
    && Sound(w.hub, w.chain.supply)
    && (ops == [] || AlwaysSound(Step(w, ops[0]), ops[1..]))
  }

  /** The rate is backed throughout a run exactly when no transaction of it strands tokens. */
  lemma {:induction false} AlwaysSoundIff(w: World, ops: seq<Op>)
    requires Inv(w) && Sound(w.hub, w.chain.supply)
    ensures AlwaysSound(w, ops) <==> NeverStrands(w, ops)
    decreases |ops|
  {
    if ops != [] {
      hide Transact, Inv, Strands, Sound;
      StepKeepsInv(w, ops[0]);
      StepSoundIff(w, ops[0]);
      if !Strands(w, ops[0]) {
        AlwaysSoundIff(Step(w, ops[0]), ops[1..]);
      } else {
        assert !AlwaysSound(Step(w, ops[0]), ops[1..]);
      }
    }
  }

  /** Over every run without stranded tokens the exchange rate never overstates the
      backing. */
  lemma {:induction false} BackingOverRuns(w: World, ops: seq<Op>)
    requires Inv(w) && Sound(w.hub, w.chain.supply)
    requires NeverStrands(w, ops)
    ensures Sound(Run(w, ops).hub, Run(w, ops).chain.supply)
    decreases |ops|
  {
    if ops != [] {
      StepKeepsInv(w, ops[0]);
      StepSoundIff(w, ops[0]);
      BackingOverRuns(Step(w, ops[0]), ops[1..]);
    }
  }

  // ----- solvency -----

  /** The recorded balance covers every outstanding claim of every user. */
  ghost predicate Solvent(w: World) {
    Owed(w.hub.history, w.hub.waits) <= w.hub.prevHubBalance
  }

  /** What a release would credit its batches with, all together. */
  ghost function Credited(s: Storage, cutoff: nat, balance: nat): int {
    var us := WindowPromises(s, cutoff);
    if Release.Total(us) == 0 then 0
    else Release.Credits(us, Release.Total(us), Arrived(s, balance))
  }

  /** A release credits no more than arrived. */
  ghost predicate Covered(s: Storage, cutoff: nat, balance: nat) {
    Credited(s, cutoff, balance) <= Arrived(s, balance)
  }

  /** What can be seen before a release, if any batch has matured: something arrived, every
      matured batch was promised something, and the shortfall times one less than the number
      of matured batches is at most 10^18. */
  ghost predicate Ample(s: Storage, cutoff: nat, balance: nat) {
    var us := WindowPromises(s, cutoff);
    us != [] ==> Release.Ample(us, Arrived(s, balance))
  }

  /** A moderate release is covered exactly unless nothing arrived for it and some batch's
      weight is exact. */
  lemma CoveredIff(s: Storage, cutoff: nat, balance: nat)
    requires Release.Moderate(WindowPromises(s, cutoff), Arrived(s, balance))
    ensures var us := WindowPromises(s, cutoff);
      Covered(s, cutoff, balance) <==>
        || Arrived(s, balance) > 0
        || us == []
        || !Release.SomeExactWeight(us, Release.Total(us))
  {
    hide Promises;
    var us := WindowPromises(s, cutoff);
    assert us != [] ==> us[0] > 0 && Release.Total(us) > 0;
    if Release.Total(us) > 0 {
      Release.ModerateCoveredIff(us, Arrived(s, balance));
    }
  }

  /** The exact condition for any shortfall of the hub's window. */
  lemma ShortfallCoveredIff(s: Storage, cutoff: nat, balance: nat)
    requires Arrived(s, balance) < Release.Total(WindowPromises(s, cutoff))
    ensures var us, arrived := WindowPromises(s, cutoff), Arrived(s, balance);
      var total := Release.Total(us);
      Covered(s, cutoff, balance) <==>
        Release.LostWeight(us) * (total - arrived) + Release.Residues(us, total, total - arrived)
          + 2 * Release.FlipCount(us, total, arrived) * ONE <= |us| * ONE
  {
    Release.ShortfallCoveredIff(WindowPromises(s, cutoff), Arrived(s, balance));
  }

  lemma AmpleIsCovered(s: Storage, cutoff: nat, balance: nat)
    requires Ample(s, cutoff, balance)
    ensures Covered(s, cutoff, balance)
  {
    if WindowPromises(s, cutoff) != [] {
      CoveredIff(s, cutoff, balance);
    }
  }

  /** Claims grow by at most what a release credits. */
  lemma ReleaseOwes(w: World, cutoff: nat, released: Storage)
    requires Inv(w) && ReleaseStep(w.hub, cutoff, w.chain.balance) == Ok(released)
    ensures Owed(released.history, released.waits)
         <= Owed(w.hub.history, w.hub.waits) + Credited(w.hub, cutoff, w.chain.balance)
  {
    var s, first := w.hub, w.hub.lastProcessed + 1;
    var end := WindowEnd(s.history, first, cutoff);
    var us := WindowPromises(s, cutoff);
    var arrived := Arrived(s, w.chain.balance);
    if first < end {
      WindowConserved(s, w.chain.now, cutoff);
      hide Inv, Owed;
      FirstReleased(s.history, first, end, Release.Total(us), arrived, released.history);
      ReleaseAddsAtMostCredits(s.history, s.waits, first, end, Release.Total(us), arrived, released.history);
    }
  }

  /** A covered release leaves all claims within the liquid balance. */
  lemma CoveredReleaseIsSolvent(w: World, cutoff: nat, released: Storage)
    requires Inv(w) && Solvent(w)
    requires ReleaseStep(w.hub, cutoff, w.chain.balance) == Ok(released)
    requires Covered(w.hub, cutoff, w.chain.balance)
    ensures Owed(released.history, released.waits) <= w.chain.balance
  {
    ReleaseOwes(w, cutoff, released);
    hide ReleaseStep, Credited;
    assert Arrived(w.hub, w.chain.balance) == w.chain.balance - w.hub.prevHubBalance;
  }

  lemma FirstReleased(h: History, lo: nat, hi: nat, total: nat, arrived: nat, after: History)
    requires lo < hi && forall k | lo <= k < hi :: k in h
    requires ReleaseBatches(h, lo, hi, total, arrived) == Ok(after)
    ensures total > 0
  {
    ReleasedEntryIs(h[lo], total, arrived, ReleasedEntry(h[lo], total, arrived).value);
  }

  lemma WindowConserved(s: Storage, now: nat, cutoff: nat)
    requires Shape(s, now) && Conserved(s)
    ensures forall k | s.lastProcessed + 1 <= k < WindowEnd(s.history, s.lastProcessed + 1, cutoff) ::
              k in s.history && !s.history[k].released && BatchTotal(s.waits, k) <= s.history[k].amount
  {
    forall k | s.lastProcessed + 1 <= k < WindowEnd(s.history, s.lastProcessed + 1, cutoff)
      ensures k in s.history && !s.history[k].released && BatchTotal(s.waits, k) <= s.history[k].amount
    {
      assert Matured(s.history, k, cutoff);
      assert ConservedIn(s, k);
    }
  }

  /** The payout of a withdrawal never exceeds the liquid balance, so recording the new
      balance cannot fail. */
  lemma PayoutIsCovered(w: World, cutoff: nat, released: Storage, user: string)
    requires Inv(w) && Solvent(w)
    requires ReleaseStep(w.hub, cutoff, w.chain.balance) == Ok(released)
    requires Covered(w.hub, cutoff, w.chain.balance)
    ensures Sum(UserClaims(released.history, released.waits, user)) <= w.chain.balance
  {
    CoveredReleaseIsSolvent(w, cutoff, released);
    SettlingPays(released.history, released.waits, user);
  }

  /** A successful withdrawal that releases batches does so under cover. */
  ghost predicate CoveredStep(w: World, op: Op) {
    op.Withdraw? && op.p.unbondingPeriod <= w.chain.now && Transact(w, op).Ok? ==>
      Covered(w.hub, w.chain.now - op.p.unbondingPeriod, w.chain.balance)
  }

  lemma WithdrawKeepsSolvent(w: World, op: Op, after: World)
    requires Inv(w) && Solvent(w) && CoveredStep(w, op)
    requires op.Withdraw? && Transact(w, op) == Ok(after)
    ensures Solvent(after)
  {
    hide Inv, ReleaseStep, Settled, UserClaims, Covered, Owed, Transact;
    var released, paid := WithdrawParts(w, op, after);
    CoveredReleaseIsSolvent(w, w.chain.now - op.p.unbondingPeriod, released);
    SettlingPays(released.history, released.waits, op.sender);
  }

  lemma StepKeepsSolvent(w: World, op: Op)
    requires Inv(w) && Solvent(w) && CoveredStep(w, op)
    ensures Solvent(Step(w, op))
  {
    if Transact(w, op).Ok? {
      var after := Transact(w, op).value;
      if OffBooks(op) {
        OffBooksKeepsInv(w, op, after);
      } else if op.Unbond? {
        UnbondKeepsInv(w, op, after);
      } else if op.Withdraw? {
        WithdrawKeepsSolvent(w, op, after);
      } else {
        ChainKeepsInv(w, op, after);
      }
    }
  }

  ghost predicate AlwaysCovered(w: World, ops: seq<Op>)
    decreases |ops|
  {
    ops == [] || (CoveredStep(w, ops[0]) && AlwaysCovered(Step(w, ops[0]), ops[1..]))
  }

  /** Over every run whose releases are covered the recorded balance covers the claims of all
      users on all released batches. */
  lemma {:induction false} CoveredRunsAreSolvent(w: World, ops: seq<Op>)
    requires Inv(w) && Solvent(w) && AlwaysCovered(w, ops)
    ensures Inv(Run(w, ops)) && Solvent(Run(w, ops))
    decreases |ops|
  {
    if ops != [] {
      StepKeepsInv(w, ops[0]);
      StepKeepsSolvent(w, ops[0]);
      CoveredRunsAreSolvent(Step(w, ops[0]), ops[1..]);
    }
  }

  /** Every successful withdrawal of a run finds ample coins for what it releases. */
  ghost predicate AlwaysAmple(w: World, ops: seq<Op>)
    decreases |ops|
  {
    ops == [] || (AmpleStep(w, ops[0]) && AlwaysAmple(Step(w, ops[0]), ops[1..]))
  }

  ghost predicate AmpleStep(w: World, op: Op) {
    op.Withdraw? && op.p.unbondingPeriod <= w.chain.now && Transact(w, op).Ok? ==>
      Ample(w.hub, w.chain.now - op.p.unbondingPeriod, w.chain.balance)
  }

  lemma {:induction false} AmpleRunIsCovered(w: World, ops: seq<Op>)
    requires AlwaysAmple(w, ops)
    ensures AlwaysCovered(w, ops)
    decreases |ops|
  {
    if ops != [] {
      AmpleStepIsCovered(w, ops[0]);
      AmpleRunIsCovered(Step(w, ops[0]), ops[1..]);
    }
  }

  lemma AmpleStepIsCovered(w: World, op: Op)
    requires AmpleStep(w, op)
    ensures CoveredStep(w, op)
  {
    hide Transact, Ample, Covered;
    if && op.Withdraw? && op.p.unbondingPeriod <= w.chain.now
       && Ample(w.hub, w.chain.now - op.p.unbondingPeriod, w.chain.balance)
    {
      AmpleIsCovered(w.hub, w.chain.now - op.p.unbondingPeriod, w.chain.balance);
    }
  }

  /** Solvency over every run whose withdrawals find ample coins for what they release: the
      recorded balance, and with it the liquid balance, always covers the claims of all users
      on all released batches. */
  lemma SolvencyOverRuns(w: World, ops: seq<Op>)
    requires Inv(w) && Solvent(w) && AlwaysAmple(w, ops)
    ensures Inv(Run(w, ops)) && Solvent(Run(w, ops))
  {
    AmpleRunIsCovered(w, ops);
    CoveredRunsAreSolvent(w, ops);
  }
}

/** Which steps go through: closing a batch never gets stuck, and exactly when a release
    succeeds. */
module Liveness {
  import opened Fixed
  import opened Sums
  import opened HubTypes
  import opened ExchangeRate
  import opened Undelegation
  import opened HubSteps
  import opened Backing
  import opened Effects
  import opened Ledger
  import opened Books
  import opened Runs
  import opened Requests
  import opened Payouts
  import Release

  // ----- closing a batch -----

  /** With a sound rate and a bond within the delegations, the epoch undelegation goes
      through unless the batch is worth exactly one coin, and the chain takes it. */
  lemma EpochSucceedsIff(s: Storage, c: Chain, draw: Draws, supply: nat)
    requires Sound(s, supply) && s.totalBond <= TotalDelegated(c.delegations)
    requires s.totalBond < LIMIT && DistinctValidators(c.delegations)
    ensures EpochStep(s, c, draw).Ok? <==> BatchValue(s) != 1
    ensures EpochStep(s, c, draw).Ok? ==>
              Accepted(c, EpochStep(s, c, draw).value.1, BatchValue(s))
  {
    var value := BatchValue(s);
    RequestedIsCovered(s, supply);
    PickSplitsTheClaim(c.delegations, value, draw, 0);
    PickIsAccepted(c.delegations, value, draw, 0, c);
  }

  // ----- recording a request -----

  /** `bond` coins over `tokens` tokens are a rate that fits. */
  predicate RateFits(bond: nat, tokens: nat) {
    tokens == 0 || bond * ONE < LIMIT * tokens
  }

  lemma UpdatedRateOkIff(bond: nat, issued: nat, requested: nat)
    ensures UpdatedRate(bond, issued, requested).Ok? <==>
              issued + requested < LIMIT && RateFits(bond, issued + requested)
  {
    var tokens := issued + requested;
    if tokens > 0 {
      FloorIsLargest(bond * ONE, tokens, LIMIT);
      MulPositive(LIMIT, tokens);
    }
  }

  /** Exactly when a slashing check goes through. */
  lemma CheckSucceedsIff(s: Storage, c: Chain)
    ensures var delegated := TotalDelegated(c.delegations);
      SlashingStep(s, c).Ok? <==>
        || c.delegations == []
        || (delegated < LIMIT
            && (s.totalBond > delegated ==>
                  c.supply + s.requested < LIMIT && RateFits(delegated, c.supply + s.requested)))
  {
    UpdatedRateOkIff(TotalDelegated(c.delegations), c.supply, s.requested);
  }

  /** The peg fee is not due, or it can be charged on `amount`: there are no more coins than
      tokens -- otherwise the required fee is negative -- and the fee is at most the amount.
      `coins` and `tokens` count the payment and what it mints. */
  predicate Chargeable(s: Storage, p: Settings, coins: nat, tokens: nat, amount: nat) {
    s.exchangeRate < p.erThreshold ==>
      && coins <= tokens
      && Floor(amount * p.pegRecoveryFee, ONE) < LIMIT
      && Min(Floor(amount * p.pegRecoveryFee, ONE), tokens - coins) <= amount
  }

  /** The peg fee is due, but there are more coins than tokens. */
  predicate PegLocked(s: Storage, p: Settings, coins: nat, tokens: nat) {
    s.exchangeRate < p.erThreshold && tokens < coins
  }

  /** With a recovery fee of at most 1.0 a lock is the only obstacle. */
  lemma ChargeableIff(s: Storage, p: Settings, coins: nat, tokens: nat, amount: nat)
    requires p.pegRecoveryFee <= ONE && amount < LIMIT
    ensures Chargeable(s, p, coins, tokens, amount) <==> !PegLocked(s, p, coins, tokens)
  {
    MulMono(p.pegRecoveryFee, ONE, amount);
    assert Floor(amount * p.pegRecoveryFee, ONE) <= amount;
  }

  lemma UnbondAmountOkIff(s: Storage, supply: nat, p: Settings, amount: nat)
    requires supply + s.requested < LIMIT
    ensures UnbondAmount(s, supply, p, amount).Ok? <==>
              Chargeable(s, p, s.totalBond, supply + s.requested, amount)
    ensures UnbondAmount(s, supply, p, amount).Ok? ==> UnbondAmount(s, supply, p, amount).value <= amount
  {
  }

  /** A request is for no more tokens than there are, the peg fee can be charged, and the new
      rate fits. */
  predicate Admits(s: Storage, supply: nat, p: Settings, amount: nat) {
    && amount <= supply
    && Chargeable(s, p, s.totalBond, supply + s.requested, amount)
    && match UnbondAmount(s, supply, p, amount)
       case Ok(net) => RateFits(s.totalBond, supply - amount + s.requested + net)
       case Err(_) => true
  }

  /** With token amounts that fit, these are the only reasons for a request to fail. */
  lemma RequestSucceedsIff(s: Storage, supply: nat, p: Settings, sender: string, amount: nat)
    requires supply + s.requested < LIMIT
    requires var ticket := Ticket(sender, s.batchId); ticket in s.waits ==> s.waits[ticket] <= s.requested
    ensures RequestStep(s, supply, p, sender, amount).Ok? <==> Admits(s, supply, p, amount)
  {
    if amount <= supply {
      UnbondAmountOkIff(s, supply, p, amount);
      if UnbondAmount(s, supply, p, amount).Ok? {
        UpdatedRateOkIff(s.totalBond, supply - amount, s.requested + UnbondAmount(s, supply, p, amount).value);
      }
    }
  }

  /** With a sender's ticket counted in the requested amount, as the books say. */
  lemma TicketWithinRequested(s: Storage, ticket: Ticket)
    requires Conserved(s) && ticket in s.waits && ticket.batch == s.batchId
    ensures s.waits[ticket] <= s.requested
  {
    assert ConservedIn(s, s.batchId);
    SumRemove(BatchTickets(s.waits, s.batchId), ticket);
  }

  lemma EpochOkIff(s: Storage, c: Chain, draw: Draws)
    ensures EpochStep(s, c, draw).Ok? <==>
      BatchValue(s) != 1 && BatchValue(s) <= Min(s.totalBond, TotalDelegated(c.delegations)) && BatchValue(s) < LIMIT
  {
    PickSplitsTheClaim(c.delegations, BatchValue(s), draw, 0);
  }

  /** What any call of the hub may assume: conserved books and token amounts that fit. */
  ghost predicate Regular(s: Storage, c: Chain) {
    Conserved(s) && s.lastUnbondedTime <= c.now && c.supply + s.requested < LIMIT
  }

  /** Exactly when an unbond goes through, bond or no bond: the request is admitted, and a
      batch that closes is not worth one coin and fits the bond and the delegations. */
  lemma UnbondSucceedsIff(s: Storage, c: Chain, op: Op, checked: Storage)
    requires op.Unbond? && Regular(s, c)
    requires SlashingStep(s, c) == Ok(checked) && checked.totalBond < LIMIT
    ensures var asked := RequestStep(checked, c.supply, op.p, op.sender, op.amount);
      && (asked.Ok? <==> Admits(checked, c.supply, op.p, op.amount))
      && (UnbondStep(s, c, op.p, op.sender, op.amount, op.draw).Ok? <==>
            && asked.Ok?
            && (c.now - s.lastUnbondedTime > op.p.epochPeriod ==>
                  && BatchValue(asked.value) != 1
                  && BatchValue(asked.value) <= Min(checked.totalBond, TotalDelegated(c.delegations))))
  {
    var ticket := Ticket(op.sender, s.batchId);
    CheckRecords(s, c);
    if ticket in s.waits {
      TicketWithinRequested(s, ticket);
    }
    RequestSucceedsIff(checked, c.supply, op.p, op.sender, op.amount);
    hide SlashingStep, Admits, EpochStep;
    if RequestStep(checked, c.supply, op.p, op.sender, op.amount).Ok? {
      var asked := RequestStep(checked, c.supply, op.p, op.sender, op.amount).value;
      EpochOkIff(asked, c, op.draw);
    }
  }

  /** Once the slashing check has left a positive bond, an admitted request fails only over a
      batch worth exactly one coin: neither the bond nor the delegations can run short,
      whatever was slashed before and whichever validators are drawn. */
  lemma UnbondCannotGetStuck(s: Storage, c: Chain, op: Op, checked: Storage)
    requires op.Unbond? && Regular(s, c) && c.delegations != []
    requires SlashingStep(s, c) == Ok(checked) && checked.totalBond > 0
    ensures var asked := RequestStep(checked, c.supply, op.p, op.sender, op.amount);
      && (asked.Ok? <==> Admits(checked, c.supply, op.p, op.amount))
      && (UnbondStep(s, c, op.p, op.sender, op.amount, op.draw).Ok? <==>
            && asked.Ok?
            && (c.now - s.lastUnbondedTime > op.p.epochPeriod ==> BatchValue(asked.value) != 1))
  {
    BondWithinDelegations(s, c);
    UnbondSucceedsIff(s, c, op, checked);
    hide Admits, SlashingStep, EpochStep;
    var asked := RequestStep(checked, c.supply, op.p, op.sender, op.amount);
    if asked.Ok? {
      RequestSoundIff(checked, c.supply, op.p, op.sender, op.amount);
      RequestedIsCovered(asked.value, c.supply - op.amount);
    }
  }

  lemma BondWithinDelegations(s: Storage, c: Chain)
    requires SlashingStep(s, c).Ok? && c.delegations != []
    ensures SlashingStep(s, c).value.totalBond <= TotalDelegated(c.delegations) < LIMIT
  {
  }

  /** Tokens a payment buys before the fee. */
  function Quotient(payment: nat, rate: nat): nat
    requires rate >= GRAIN
  {
    Floor(payment * GRAIN, Floor(rate, GRAIN))
  }

  /** With amounts that fit, a payment is refused exactly when the division does not fit, when
      the peg fee cannot be charged, or when the new rate does not fit. */
  lemma BondSucceedsIff(s: Storage, c: Chain, op: Op, checked: Storage)
    requires op.Bond? && op.validator in op.p.validators && op.payment > 0
    requires SlashingStep(s, c) == Ok(checked) && checked.totalBond + op.payment < LIMIT
    requires Divides(op.payment, checked.exchangeRate) ==>
      c.supply + Quotient(op.payment, checked.exchangeRate) + checked.requested < LIMIT
    ensures MintAmount(checked, c.supply, op.p, op.payment).Ok? <==>
      && Divides(op.payment, checked.exchangeRate)
      && var minted := Quotient(op.payment, checked.exchangeRate);
         Chargeable(checked, op.p, checked.totalBond + op.payment, c.supply + minted + checked.requested, minted)
    ensures BondStep(s, c, op.p, op.sender, op.validator, op.payment).Ok? <==>
      && MintAmount(checked, c.supply, op.p, op.payment).Ok?
      && RateFits(checked.totalBond + op.payment,
                  c.supply + MintAmount(checked, c.supply, op.p, op.payment).value + checked.requested)
  {
    DecimalDivisionIs(op.payment, checked.exchangeRate);
    hide SlashingStep, DecimalDivision, Divides;
    if Divides(op.payment, checked.exchangeRate) {
      if MintAmount(checked, c.supply, op.p, op.payment).Ok? {
        UpdatedRateOkIff(checked.totalBond + op.payment,
                         c.supply + MintAmount(checked, c.supply, op.p, op.payment).value, checked.requested);
      }
    }
  }

  // ----- releasing -----

  /** A batch can be released: it records some tokens, gets at least one unit of any surplus,
      and its cut, its credit and its new rate fit. */
  predicate Releasable(e: UnbondHistory, total: nat, arrived: nat) {
    && e.amount > 0 && total > 0
    && (arrived > total ==> Release.Share(Promised(e), total, arrived - total) > 0)
    && (arrived == 0 ==> Promised(e) < LIMIT - 1)
    && Release.Credit(Promised(e), total, arrived) < LIMIT
    && Floor(Release.Credit(Promised(e), total, arrived) * ONE, e.amount) < LIMIT
  }

  lemma EntryReleasesIff(e: UnbondHistory, total: nat, arrived: nat)
    requires total < LIMIT && arrived < LIMIT && Promised(e) <= total
    ensures ReleasedEntry(e, total, arrived).Ok? <==> Releasable(e, total, arrived)
  {
    if total > 0 {
      var u, gap := Promised(e), Release.Gap(total, arrived);
      WeightAtMostOne(u, total);
      ShareAtMostGap(Release.Weight(u, total), gap);
      assert FromSubtraction(total, arrived).magnitude == gap;
      if total == LIMIT - 1 && arrived == 0 {
        LargestCut(u);
      }
    }
  }

  /** The cut overflows only for a batch that was promised the largest amount there is. */
  lemma LargestCut(u: nat)
    requires u <= LIMIT - 1
    ensures Release.Share(u, LIMIT - 1, LIMIT - 1) == LIMIT - 1 <==> u == LIMIT - 1
  {
    Release.FlipsIff(u, LIMIT - 1, 0);
    if u == LIMIT - 1 {
      FloorUnique(u * ONE, LIMIT - 1, ONE);
      FloorUnique(ONE * (LIMIT - 1), ONE, LIMIT - 1);
    }
  }

  lemma WeightAtMostOne(u: nat, total: nat)
    requires total > 0 && u <= total
    ensures Release.Weight(u, total) <= ONE
  {
    MulMono(u, total, ONE);
    assert total * ONE < (ONE + 1) * total;
    FloorIsLargest(u * ONE, total, ONE + 1);
  }

  lemma ShareAtMostGap(weight: nat, gap: nat)
    requires weight <= ONE
    ensures Floor(weight * gap, ONE) <= gap
  {
    MulMono(weight, ONE, gap);
  }

  /** A release goes through exactly when every batch of its window can be released. */
  lemma {:induction false} BatchesReleaseIff(h: History, lo: nat, hi: nat, total: nat, arrived: nat)
    requires forall k | lo <= k < hi :: k in h
    ensures ReleaseBatches(h, lo, hi, total, arrived).Ok? <==>
              forall k | lo <= k < hi :: ReleasedEntry(h[k], total, arrived).Ok?
    decreases hi - lo
  {
    hide ReleasedEntry;
    if lo < hi && ReleasedEntry(h[lo], total, arrived).Ok? {
      var next := h[lo := ReleasedEntry(h[lo], total, arrived).value];
      BatchesReleaseIff(next, lo + 1, hi, total, arrived);
      assert forall k | lo < k < hi :: next[k] == h[k];
    }
  }

  /** A matured batch is in the window, and was promised no more than the whole window. */
  lemma WindowBatch(s: Storage, now: nat, cutoff: nat, k: nat)
    requires Shape(s, now)
    ensures Matured(s.history, k, cutoff) <==>
              s.lastProcessed < k < WindowEnd(s.history, s.lastProcessed + 1, cutoff)
    ensures Matured(s.history, k, cutoff) ==>
              Promised(s.history[k]) <= Release.Total(WindowPromises(s, cutoff))
  {
    hide Shape, Release.Total, Matured, WindowEnd;
    MaturedInWindow(s, now, cutoff, k);
    if Matured(s.history, k, cutoff) {
      hide Promises;
      ItemWithinTotal(WindowPromises(s, cutoff), k - s.lastProcessed - 1);
    }
  }

  lemma MaturedInWindow(s: Storage, now: nat, cutoff: nat, k: nat)
    requires Shape(s, now)
    ensures Matured(s.history, k, cutoff) <==>
              s.lastProcessed < k < WindowEnd(s.history, s.lastProcessed + 1, cutoff)
  {
    WindowIsTheMatured(s, now, cutoff, k);
  }

  lemma {:induction false} ItemWithinTotal(us: seq<nat>, i: nat)
    requires i < |us|
    ensures us[i] <= Release.Total(us)
  {
    if i > 0 {
      ItemWithinTotal(us[1..], i - 1);
    }
  }

  /** Exactly when the hub can release what has matured: the arrivals and the promised total
      fit, and every matured batch can be released -- also when all of them together were
      promised nothing, which makes the release fail. */
  lemma ReleaseSucceedsIff(s: Storage, now: nat, cutoff: nat, balance: nat)
    requires Shape(s, now)
    ensures var total, arrived := Release.Total(WindowPromises(s, cutoff)), Arrived(s, balance);
      ReleaseStep(s, cutoff, balance).Ok? <==>
        && arrived < LIMIT
        && total < LIMIT
        && forall k: nat | Matured(s.history, k, cutoff) :: Releasable(s.history[k], total, arrived)
  {
    hide Shape, Promises, Release.Total, Arrived, WindowEnd, ReleasedEntry, Releasable, ReleaseBatches;
    var total, arrived := Release.Total(WindowPromises(s, cutoff)), Arrived(s, balance);
    var first, end := s.lastProcessed + 1, WindowEnd(s.history, s.lastProcessed + 1, cutoff);
    if arrived < LIMIT && total < LIMIT {
      BatchesReleaseIff(s.history, first, end, total, arrived);
      forall k: nat | Matured(s.history, k, cutoff)
        ensures first <= k < end
        ensures ReleasedEntry(s.history[k], total, arrived).Ok? <==> Releasable(s.history[k], total, arrived)
      {
        WindowBatch(s, now, cutoff, k);
        EntryReleasesIff(s.history[k], total, arrived);
      }
    }
  }

  /** Exactly when a withdrawal goes through, solvent or not: the release does, and the sender is
      then owed something, which the balance covers. */
  lemma WithdrawOkIff(w: World, op: Op)
    requires op.Withdraw?
    ensures Transact(w, op).Ok? <==>
      && w.chain.now >= op.p.unbondingPeriod
      && var released := ReleaseStep(w.hub, w.chain.now - op.p.unbondingPeriod, w.chain.balance);
      && released.Ok?
      && var claims := Sum(UserClaims(released.value.history, released.value.waits, op.sender));
      && 0 < claims < LIMIT && claims <= w.chain.balance
  {
    hide ReleaseStep, UserClaims, Settled;
    if w.chain.now >= op.p.unbondingPeriod {
      var released := ReleaseStep(w.hub, w.chain.now - op.p.unbondingPeriod, w.chain.balance);
      if released.Ok? {
        ApplyOne(w.chain, Send(op.sender, Sum(UserClaims(released.value.history, released.value.waits, op.sender))));
      }
    }
  }

  /** For a solvent hub and an ample release a withdrawal goes through exactly when the
      release does and the sender is then owed something that fits: recording the rest of the
      balance and sending the coins never fail. */
  lemma WithdrawSucceedsIff(w: World, op: Op)
    requires Inv(w) && Solvent(w) && op.Withdraw?
    requires w.chain.now >= op.p.unbondingPeriod
    requires Ample(w.hub, w.chain.now - op.p.unbondingPeriod, w.chain.balance)
    ensures var released := ReleaseStep(w.hub, w.chain.now - op.p.unbondingPeriod, w.chain.balance);
      Transact(w, op).Ok? <==>
        released.Ok? && 0 < Sum(UserClaims(released.value.history, released.value.waits, op.sender)) < LIMIT
  {
    hide ReleaseStep, UserClaims, Settled, Inv, Solvent, Ample, Transact;
    var cutoff := w.chain.now - op.p.unbondingPeriod;
    var released := ReleaseStep(w.hub, cutoff, w.chain.balance);
    WithdrawOkIff(w, op);
    if released.Ok? {
      AmpleIsCovered(w.hub, cutoff, w.chain.balance);
      PayoutIsCovered(w, cutoff, released.value, op.sender);
    }
  }

  /** One matured batch that cannot be released blocks the withdrawals of every user. */
  lemma OneBatchBlocksAll(w: World, op: Op, k: nat)
    requires Inv(w) && op.Withdraw? && w.chain.now >= op.p.unbondingPeriod
    requires Matured(w.hub.history, k, w.chain.now - op.p.unbondingPeriod)
    requires var us := WindowPromises(w.hub, w.chain.now - op.p.unbondingPeriod);
      ReleasedEntry(w.hub.history[k], Release.Total(us), Arrived(w.hub, w.chain.balance)).Err?
    ensures Transact(w, op).Err?
  {
    hide ReleasedEntry, Matured, Arrived, Transact;
    BatchBlocksRelease(w.hub, w.chain.now, w.chain.now - op.p.unbondingPeriod, w.chain.balance, k);
    FailedReleaseBlocks(w, op);
  }

  lemma FailedReleaseBlocks(w: World, op: Op)
    requires op.Withdraw? && w.chain.now >= op.p.unbondingPeriod
    requires ReleaseStep(w.hub, w.chain.now - op.p.unbondingPeriod, w.chain.balance).Err?
    ensures Transact(w, op).Err?
  {
    hide ReleaseStep;
  }

  lemma BatchBlocksRelease(s: Storage, now: nat, cutoff: nat, balance: nat, k: nat)
    requires Shape(s, now) && Matured(s.history, k, cutoff)
    requires ReleasedEntry(s.history[k], Release.Total(WindowPromises(s, cutoff)), Arrived(s, balance)).Err?
    ensures ReleaseStep(s, cutoff, balance).Err?
  {
    hide ReleasedEntry, ReleaseBatches, Promises, Release.Total, Arrived;
    WindowIsTheMatured(s, now, cutoff, k);
    var end := WindowEnd(s.history, s.lastProcessed + 1, cutoff);
    BatchesReleaseIff(s.history, s.lastProcessed + 1, end, Release.Total(WindowPromises(s, cutoff)),
                      Arrived(s, balance));
  }

  /** A surplus too small for a batch to get a unit of it -- a single stray coin, once two
      batches worth something mature together -- makes every withdrawal fail. */
  lemma SmallSurplusBlocks(w: World, op: Op, k: nat)
    requires Inv(w) && op.Withdraw? && w.chain.now >= op.p.unbondingPeriod
    requires Matured(w.hub.history, k, w.chain.now - op.p.unbondingPeriod)
    requires var total := Release.Total(WindowPromises(w.hub, w.chain.now - op.p.unbondingPeriod));
      var arrived := w.chain.balance - w.hub.prevHubBalance;
      arrived > total && Promised(w.hub.history[k]) * (arrived - total) < total
    ensures Transact(w, op).Err?
  {
    var total := Release.Total(WindowPromises(w.hub, w.chain.now - op.p.unbondingPeriod));
    NoUnitForBatch(w.hub.history[k], total, w.chain.balance - w.hub.prevHubBalance);
    assert Arrived(w.hub, w.chain.balance) == w.chain.balance - w.hub.prevHubBalance;
    hide Inv, Arrived, ReleasedEntry;
    OneBatchBlocksAll(w, op, k);
  }

  lemma NoUnitForBatch(e: UnbondHistory, total: nat, arrived: nat)
    requires arrived > total && Promised(e) * (arrived - total) < total
    ensures ReleasedEntry(e, total, arrived).Err?
  {
    if ReleasedEntry(e, total, arrived).Ok? {
      ReleasedEntryIs(e, total, arrived, ReleasedEntry(e, total, arrived).value);
      Release.ShareBounds(Promised(e), total, arrived - total);
      MulMono(1, Release.Share(Promised(e), total, arrived - total), total);
    }
  }

  /** A batch closed without tokens blocks every withdrawal once it matures. */
  lemma EmptyBatchBlocks(w: World, op: Op, k: nat)
    requires Inv(w) && op.Withdraw? && w.chain.now >= op.p.unbondingPeriod
    requires Matured(w.hub.history, k, w.chain.now - op.p.unbondingPeriod)
    requires w.hub.history[k].amount == 0
    ensures Transact(w, op).Err?
  {
    OneBatchBlocksAll(w, op, k);
  }

  /** Batch `k` was closed without tokens and is not released. */
  ghost predicate Empty(w: World, k: nat) {
    k in w.hub.history && !w.hub.history[k].released && w.hub.history[k].amount == 0
  }

  lemma StepKeepsEmpty(w: World, op: Op, k: nat)
    requires Inv(w) && Empty(w, k)
    ensures Empty(Step(w, op), k) && Step(w, op).hub.history[k] == w.hub.history[k]
  {
    StepKeepsInv(w, op);
    if IsReleased(Step(w, op), k) {
      if op.Withdraw? && Transact(w, op).Ok? {
        WithdrawReleases(w, op, Step(w, op), k);
        EmptyBatchBlocks(w, op, k);
      } else {
        NothingElseReleases(w, op, k);
      }
    }
  }

  /** Only a matured batch is released. */
  lemma WithdrawReleases(w: World, op: Op, after: World, k: nat)
    requires Inv(w) && op.Withdraw? && Transact(w, op) == Ok(after)
    requires k in w.hub.history && !w.hub.history[k].released && IsReleased(after, k)
    ensures w.chain.now >= op.p.unbondingPeriod
    ensures Matured(w.hub.history, k, w.chain.now - op.p.unbondingPeriod)
  {
    hide ReleaseStep, Transact, Conserved;
    var released, paid := WithdrawParts(w, op, after);
    ReleaseMarks(w.hub, w.chain.now, w.chain.now - op.p.unbondingPeriod, w.chain.balance, released, k);
  }

  /** There is no way out: once a batch is closed without tokens, after any run at all every
      withdrawal whose cutoff reaches it fails, and neither it nor any later batch is ever
      released or paid. */
  lemma {:induction false} EmptyBatchBlocksForever(w: World, ops: seq<Op>, op: Op, k: nat, b: nat)
    requires Inv(w) && Empty(w, k) && op.Withdraw? && b >= k
    ensures Empty(Run(w, ops), k)
    ensures Run(w, ops).chain.now >= op.p.unbondingPeriod + w.hub.history[k].time ==>
              Transact(Run(w, ops), op).Err?
    ensures !IsReleased(Run(w, ops), b) && Paid(w, ops, b) == 0
    decreases |ops|
  {
    if ops == [] {
      if w.chain.now >= op.p.unbondingPeriod + w.hub.history[k].time {
        EmptyBatchBlocks(w, op, k);
      }
    } else {
      hide Transact, Inv;
      StepKeepsInv(w, ops[0]);
      StepKeepsEmpty(w, ops[0], k);
      NotReleasedAfter(w, k, b);
      NotReleasedAfter(Step(w, ops[0]), k, b);
      ReleasingStepPays(w, ops[0], b);
      EmptyBatchBlocksForever(Step(w, ops[0]), ops[1..], op, k, b);
    }
    BooksOverRuns(w, ops);
    NotReleasedAfter(Run(w, ops), k, b);
  }

  lemma NotReleasedAfter(w: World, k: nat, b: nat)
    requires Inv(w) && k in w.hub.history && !w.hub.history[k].released && b >= k
    ensures !IsReleased(w, b)
  {
  }

  /** Every withdrawal counts what has arrived as received, also when no batch is released:
      coins that come in before their batch matures are not set aside for it, so that the
      next release starts from nothing. */
  lemma EarlyCoinsAreAbsorbed(w: World, op: Op, after: World)
    requires Inv(w) && op.Withdraw? && Transact(w, op) == Ok(after)
    ensures Arrived(after.hub, after.chain.balance) == 0
    ensures WindowPromises(w.hub, w.chain.now - op.p.unbondingPeriod) == [] ==>
              after.hub.history == w.hub.history && after.hub.lastProcessed == w.hub.lastProcessed
  {
    hide ReleaseStep, WindowPromises, Transact, Inv;
    var released, paid := WithdrawParts(w, op, after);
    EmptyRelease(w.hub, w.chain.now - op.p.unbondingPeriod, w.chain.balance, released);
  }

  lemma EmptyRelease(s: Storage, cutoff: nat, balance: nat, released: Storage)
    requires ReleaseStep(s, cutoff, balance) == Ok(released)
    ensures released.actualUnbonded == 0
    ensures WindowPromises(s, cutoff) == [] ==>
              released.history == s.history && released.lastProcessed == s.lastProcessed
  {
  }
}

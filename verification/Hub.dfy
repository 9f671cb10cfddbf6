/** The hub contract: storage fields updated in place by its entry points.

    Every method is proved against the step functions of `HubSteps`. */
module HubContract {
  import opened Fixed
  import opened Sums
  import opened HubTypes
  import opened ExchangeRate
  import opened Undelegation
  import opened HubSteps
  import Release

  /** A method that returned `r` and left storage `s` did what `spec` says. */
  ghost predicate Performs<T>(r: Result<T>, s: Storage, spec: Result<(Storage, T)>) {
    match spec
    case Ok(done) => r == Ok(done.1) && s == done.0
    case Err(e) => r == Err(e)
  }

  ghost function NoMessage(spec: Result<Storage>): Result<(Storage, ())> {
    match spec
    case Ok(s) => Ok((s, ()))
    case Err(e) => Err(e)
  }

  /** Who administers the hub, and whether it is paused. */
  datatype Guard = Guard(admin: string, paused: bool)

  /** What the first pass of a release finds. */
  datatype Summed = Summed(total: nat, batchCount: nat)

  /** Messages already emitted, followed by those still to come. */
  function After(emitted: seq<Msg>, rest: Result<seq<Msg>>): Result<seq<Msg>> {
    match rest
    case Ok(msgs) => Ok(emitted + msgs)
    case Err(e) => Err(e)
  }

  lemma AfterNone(rest: Result<seq<Msg>>)
    ensures After([], rest) == rest
  {
    assert rest.Ok? ==> [] + rest.value == rest.value;
  }

  lemma AfterOne(emitted: seq<Msg>, m: Msg, rest: Result<seq<Msg>>)
    ensures After(emitted, After([m], rest)) == After(emitted + [m], rest)
  {
    assert rest.Ok? ==> emitted + ([m] + rest.value) == emitted + [m] + rest.value;
  }

  lemma NothingMatured(h: History, lo: nat, hi: nat, total: nat, arrived: nat)
    requires forall k | lo <= k < hi :: k in h
    ensures hi <= lo ==> ReleaseBatches(h, lo, hi, total, arrived) == Ok(h)
  {
  }

  ghost function Among(claims: Amounts, todo: set<Ticket>): Amounts {
    map t | t in claims && t in todo :: claims[t]
  }

  lemma TakeAmong(claims: Amounts, todo: set<Ticket>, t: Ticket)
    requires t in todo
    ensures Sum(Among(claims, todo))
         == Sum(Among(claims, todo - {t})) + if t in claims then claims[t] else 0
  {
    var all, rest := Among(claims, todo), Among(claims, todo - {t});
    if t in claims {
      assert all == rest[t := claims[t]];
      SumInsert(rest, t, claims[t]);
    } else {
      assert all == rest;
    }
  }

  class Hub {
    var exchangeRate: nat
    var totalBond: nat
    var prevHubBalance: nat
    var actualUnbonded: nat
    var lastUnbondedTime: nat
    var lastProcessed: nat
    var batchId: nat
    var requested: nat
    var history: History
    var waits: Amounts
    var guard: Guard

    ghost function Stored(): Storage
      reads this
    {
      Storage(exchangeRate, totalBond, prevHubBalance, actualUnbonded, lastUnbondedTime,
              lastProcessed, batchId, requested, history, waits)
    }

    constructor Instantiate(deposit: nat, now: nat, sender: string)
      ensures Stored() == InitialStorage(deposit, now)
      ensures guard == Guard(sender, false)
    {
      guard := Guard(sender, false);
      exchangeRate, totalBond := ONE, deposit;
      prevHubBalance, actualUnbonded := 0, 0;
      lastUnbondedTime, lastProcessed := now, 0;
      batchId, requested := 1, 0;
      history, waits := map[], map[];
    }

    // ----- exchange rate -----

    method UpdateExchangeRate(totalIssued: nat, requestedWithFee: nat) returns (r: Result<()>)
      modifies this`exchangeRate
      ensures match UpdatedRate(totalBond, totalIssued, requestedWithFee)
              case Ok(rate) => r == Ok(()) && exchangeRate == rate
              case Err(e) => r == Err(e)
    {
      var actualSupply :- Add(totalIssued, requestedWithFee);
      if totalBond == 0 || actualSupply == 0 {
        exchangeRate := ONE;
      } else {
        var rate :- Ratio(totalBond, actualSupply);
        exchangeRate := rate;
      }
      r := Ok(());
    }

    /** Sums the delegations; a lower sum than recorded is a slashing. */
    method Slashing(c: Chain) returns (r: Result<()>)
      modifies this`exchangeRate, this`totalBond
      ensures Performs(r, Stored(), NoMessage(SlashingStep(old(Stored()), c)))
    {
      if |c.delegations| == 0 {
        return Ok(());
      }
      var actual: nat, i: nat := 0, 0;
      while i < |c.delegations|
        invariant 0 <= i <= |c.delegations|
        invariant actual + TotalDelegated(c.delegations[i..]) == TotalDelegated(c.delegations)
        invariant actual < LIMIT
      {
        assert c.delegations[i..][1..] == c.delegations[i + 1..];
        actual :- Add(actual, c.delegations[i].amount);
        i := i + 1;
      }
      if totalBond > actual {
        totalBond := actual;
        var updated :- UpdateExchangeRate(c.supply, requested);
      }
      r := Ok(());
    }

    // ----- bond and rewards -----

    method ExecuteBond(c: Chain, p: Settings, sender: string, validator: string, funds: seq<Coin>)
      returns (r: Result<seq<Msg>>)
      modifies this
      ensures guard == old(guard)
      ensures Performs(r, Stored(), BondCall(old(Stored()), c, p, sender, validator, funds))
    {
      if validator !in p.validators {
        return Err(InvalidValidator);
      }
      if |funds| > 1 {
        return Err(TooManyCoins);
      }
      var payment := FirstPaid(funds, p.coinDenom);
      if payment == 0 {
        return Err(NothingPaid);
      }
      var checked :- Slashing(c);
      var minted :- DecimalDivision(payment, exchangeRate);
      var mintedWithFee := minted;
      if exchangeRate < p.erThreshold {
        var maxFee :- Times(minted, p.pegRecoveryFee);
        var withMint :- Add(c.supply, minted);
        var owed :- Add(withMint, requested);
        var bond :- Add(totalBond, payment);
        var requiredFee :- Sub(owed, bond);
        mintedWithFee :- Sub(minted, Min(maxFee, requiredFee));
      }
      var supply :- Add(c.supply, mintedWithFee);
      totalBond :- Add(totalBond, payment);
      var updated :- UpdateExchangeRate(supply, requested);
      r := Ok([Delegate(validator, payment), Mint(sender, mintedWithFee)]);
    }

    method ExecuteUpdateExchangeRate(c: Chain, p: Settings, sender: string, funds: seq<Coin>, draw: Draws)
      returns (r: Result<seq<Msg>>)
      modifies this
      ensures guard == old(guard)
      ensures Performs(r, Stored(), RewardStep(old(Stored()), c, p, sender, FirstPaid(funds, p.coinDenom), draw))
    {
      if sender != p.rewardsContract {
        return Err(Unauthorized);
      }
      var payment := FirstPaid(funds, p.coinDenom);
      if payment == 0 {
        return Err(NothingPaid);
      }
      var fee := 0;
      if p.protocolFee != 0 {
        fee :- Times(payment, p.protocolFee);
      }
      var userRewards :- Sub(payment, fee);
      var supply :- Add(c.supply, requested);
      var gain :- Ratio(userRewards, supply);
      exchangeRate :- Add(exchangeRate, gain);
      totalBond :- Add(totalBond, userRewards);
      if |c.delegations| == 0 {
        return Err(NoDelegation);
      }
      var index := Chosen(draw, 0, |c.delegations|);
      var messages: seq<Msg> := [];
      if fee != 0 {
        match p.feeCollector
        case Some(collector) => messages := messages + [Send(collector, fee)];
        case None => return Err(MissingFeeCollector);
      }
      if userRewards != 0 {
        messages := messages + [Delegate(c.delegations[index].validator, userRewards)];
      }
      assert messages == (if fee != 0 then [Send(p.feeCollector.value, fee)] else [])
        + (if userRewards != 0 then [Delegate(c.delegations[index].validator, userRewards)] else []);
      r := Ok(messages);
    }

    // ----- unbond -----

    /** Adds to what the sender already waits for in the batch. */
    method StoreUnbondWaitList(batch: nat, sender: string, amount: nat) returns (r: Result<()>)
      modifies this`waits
      ensures var ticket := Ticket(sender, batch);
        match Add(if ticket in old(waits) then old(waits)[ticket] else 0, amount)
        case Ok(waiting) => r == Ok(()) && waits == old(waits)[ticket := waiting]
        case Err(e) => r == Err(e)
    {
      var ticket := Ticket(sender, batch);
      var waiting :- Add(if ticket in waits then waits[ticket] else 0, amount);
      waits := waits[ticket := waiting];
      r := Ok(());
    }

    /** Drains randomly chosen delegations until the claim is met. */
    static method PickValidator(delegations: seq<Delegation>, claim: nat, draw: Draws)
      returns (r: Result<seq<Msg>>)
      ensures r == Pick(delegations, claim, draw, 0)
    {
      var messages: seq<Msg> := [];
      var claimed: nat, iteration: nat, deletable := claim, 0, delegations;
      AfterNone(Pick(deletable, claimed, draw, iteration));
      while claimed > 0
        invariant Pick(delegations, claim, draw, 0) == After(messages, Pick(deletable, claimed, draw, iteration))
        decreases |deletable|
      {
        if |deletable| == 0 {
          return Err(NoDelegation);
        }
        var index := Chosen(draw, iteration, |deletable|);
        var delegation := deletable[index];
        deletable := Without(deletable, index);
        var undelegated;
        if delegation.amount > claimed {
          undelegated, claimed := claimed, 0;
        } else {
          undelegated, claimed := delegation.amount, claimed - delegation.amount;
        }
        iteration := iteration + 1;
        if undelegated > 0 {
          AfterOne(messages, Undelegate(delegation.validator, undelegated), Pick(deletable, claimed, draw, iteration));
          messages := messages + [Undelegate(delegation.validator, undelegated)];
        }
      }
      assert messages + [] == messages;
      r := Ok(messages);
    }

    method ExecuteUnbond(c: Chain, p: Settings, sender: string, amount: nat, draw: Draws)
      returns (r: Result<seq<Msg>>)
      modifies this
      ensures guard == old(guard)
      ensures Performs(r, Stored(), UnbondStep(old(Stored()), c, p, sender, amount, draw))
    {
      var checked :- Slashing(c);
      var asked :- Request(c.supply, p, sender, amount);
      var passed :- Sub(c.now, lastUnbondedTime);
      var messages: seq<Msg> := [];
      if passed > p.epochPeriod {
        messages :- UndelegateBatch(c, draw);
      }
      messages := messages + [Burn(amount)];
      assert passed <= p.epochPeriod ==> messages == [Burn(amount)];
      r := Ok(messages);
    }

    /** The first half of an unbond: fee, wait list, and the rate after burning. */
    method Request(supply: nat, p: Settings, sender: string, amount: nat) returns (r: Result<()>)
      modifies this
      ensures guard == old(guard)
      ensures Performs(r, Stored(), NoMessage(RequestStep(old(Stored()), supply, p, sender, amount)))
    {
      var amountWithFee := amount;
      if exchangeRate < p.erThreshold {
        var maxFee :- Times(amount, p.pegRecoveryFee);
        var owed :- Add(supply, requested);
        var requiredFee :- Sub(owed, totalBond);
        amountWithFee :- Sub(amount, Min(maxFee, requiredFee));
      }
      requested :- Add(requested, amountWithFee);
      var stored :- StoreUnbondWaitList(batchId, sender, amountWithFee);
      var left :- Sub(supply, amount);
      var updated :- UpdateExchangeRate(left, requested);
      r := Ok(());
    }

    /** The second half, once per epoch: undelegate the batch and open the next. */
    method UndelegateBatch(c: Chain, draw: Draws) returns (r: Result<seq<Msg>>)
      modifies this
      ensures guard == old(guard)
      ensures Performs(r, Stored(), EpochStep(old(Stored()), c, draw))
    {
      var undelegation :- Times(requested, exchangeRate);
      if undelegation == 1 {
        return Err(DustUndelegation);
      }
      var messages :- PickValidator(c.delegations, undelegation, draw);
      totalBond :- Sub(totalBond, undelegation);
      history := history[batchId := UnbondHistory(batchId, c.now, requested, exchangeRate, exchangeRate, false)];
      batchId := batchId + 1;
      requested := 0;
      lastUnbondedTime := c.now;
      r := Ok(messages);
    }

    // ----- release and withdrawal -----

    /** Two passes over the matured batches: the first adds up what they were promised, the
        second shares out the gap to what arrived, rewriting the entries as it goes.  Both
        stop at the same batch. */
    method ProcessWithdrawRate(historicalTime: nat, hubBalance: nat) returns (r: Result<()>)
      modifies this
      ensures guard == old(guard)
      ensures Performs(r, Stored(), NoMessage(ReleaseStep(old(Stored()), historicalTime, hubBalance)))
    {
      hide WindowEnd, Promises, ReleaseBatches, Release.Total, Matured, Promised;
      var balanceChange := FromSubtraction(hubBalance, prevHubBalance);
      actualUnbonded :- Add(actualUnbonded, balanceChange.magnitude);
      ghost var end := WindowEnd(history, lastProcessed + 1, historicalTime);
      var summed :- AddUp(historicalTime, end);
      NothingMatured(history, lastProcessed + 1, end, summed.total, actualUnbonded);
      if summed.batchCount >= 1 {
        var shared :- ShareOut(historicalTime, summed.total, end);
      }
      actualUnbonded := 0;
      r := Ok(());
    }

    /** The first pass. */
    method AddUp(historicalTime: nat, ghost end: nat) returns (r: Result<Summed>)
      requires end == WindowEnd(history, lastProcessed + 1, historicalTime)
      ensures var us := Promises(history, lastProcessed + 1, end);
        r == match Fit(Release.Total(us)) case Ok(total) => Ok(Summed(total, |us|)) case Err(e) => Err(e)
    {
      var first := lastProcessed + 1;
      var total: nat, batchCount: nat, i: nat := 0, 0, first;
      while true
        invariant first <= i <= end && batchCount == i - first
        invariant WindowEnd(history, i, historicalTime) == end
        invariant total + Release.Total(Promises(history, i, end)) == Release.Total(Promises(history, first, end))
        invariant total < LIMIT
        decreases ClosedFrom(history, i)
      {
        if i !in history || history[i].time > historicalTime || history[i].released {
          break;
        }
        assert Promises(history, i, end)[1..] == Promises(history, i + 1, end);
        assert i in ClosedFrom(history, i) && i !in ClosedFrom(history, i + 1);
        var unbonded :- Times(history[i].amount, history[i].withdrawRate);
        total :- Add(total, unbonded);
        batchCount := batchCount + 1;
        i := i + 1;
      }
      r := Ok(Summed(total, batchCount));
    }

    /** The second pass. */
    method ShareOut(historicalTime: nat, total: nat, ghost end: nat) returns (r: Result<()>)
      requires end == WindowEnd(history, lastProcessed + 1, historicalTime)
      modifies this`history, this`lastProcessed
      ensures match ReleaseBatches(old(history), old(lastProcessed) + 1, end, total, actualUnbonded)
              case Ok(released) => r == Ok(()) && history == released && lastProcessed == end - 1
              case Err(e) => r == Err(e)
    {
      hide ReleasedEntry;
      var slashed := FromSubtraction(total, actualUnbonded);
      ghost var before := history;
      var first := lastProcessed + 1;
      var current := first;
      while true
        invariant first <= current <= end && lastProcessed == current - 1
        invariant forall k | k >= current :: k in history <==> k in before
        invariant forall k | k >= current && k in before :: history[k] == before[k]
        invariant ReleaseBatches(before, first, end, total, actualUnbonded)
               == ReleaseBatches(history, current, end, total, actualUnbonded)
        decreases end - current
      {
        if current !in history || history[current].time > historicalTime || history[current].released {
          break;
        }
        assert Matured(before, current, historicalTime);
        var entry :- Share(history[current], total, slashed);
        history := history[current := entry];
        lastProcessed := current;
        current := current + 1;
      }
      r := Ok(());
    }

    /** One batch of the second pass. */
    static method Share(batch: UnbondHistory, total: nat, slashed: SignedInt) returns (r: Result<UnbondHistory>)
      ensures forall arrived: nat | slashed == FromSubtraction(total, arrived) ::
                r == ReleasedEntry(batch, total, arrived)
    {
      var unbonded :- Times(batch.amount, batch.withdrawRate);
      var weight :- Ratio(unbonded, total);
      var slashedOfBatch :- Times(weight, slashed.magnitude);
      var actual;
      if slashed.negative {
        slashedOfBatch :- Sub(slashedOfBatch, 1);
        actual :- Add(unbonded, slashedOfBatch);
      } else {
        if slashed.magnitude != 0 {
          slashedOfBatch :- Add(slashedOfBatch, 1);
        }
        actual := FromSubtraction(unbonded, slashedOfBatch).magnitude;
      }
      var rate :- Ratio(actual, batch.amount);
      r := Ok(batch.(withdrawRate := rate, released := true));
    }

    /** The user's payable tickets at their worth. */
    method GetFinishedAmount(user: string) returns (r: Result<nat>)
      ensures r == Fit(Sum(UserClaims(history, waits, user)))
    {
      ghost var claims := UserClaims(history, waits, user);
      var todo := set t | t in waits && t.user == user;
      var amount: nat := 0;
      assert Among(claims, todo) == claims;
      while todo != {}
        invariant forall t | t in todo :: t in waits && t.user == user
        invariant amount + Sum(Among(claims, todo)) == Sum(claims)
        invariant amount < LIMIT
        decreases todo
      {
        var t :| t in todo;
        TakeAmong(claims, todo, t);
        if t.batch in history && history[t.batch].released {
          var worth :- Times(waits[t], history[t.batch].withdrawRate);
          amount :- Add(amount, worth);
        }
        todo := todo - {t};
      }
      assert Among(claims, {}) == map[];
      r := Ok(amount);
    }

    /** The released batches the user has tickets for. */
    method GetUnbondBatches(user: string) returns (batches: seq<nat>)
      ensures forall b :: b in batches <==> Ticket(user, b) in waits && Payable(history, Ticket(user, b))
    {
      batches := [];
      var todo := set t | t in waits && t.user == user;
      while todo != {}
        invariant forall t | t in todo :: t in waits && t.user == user
        invariant forall b :: b in batches <==>
          Ticket(user, b) in waits && Ticket(user, b) !in todo && Payable(history, Ticket(user, b))
        decreases todo
      {
        var t :| t in todo;
        assert t == Ticket(user, t.batch);
        if t.batch in history && history[t.batch].released {
          batches := batches + [t.batch];
        }
        todo := todo - {t};
      }
    }

    method RemoveUnbondWaitList(batches: seq<nat>, user: string)
      modifies this`waits
      ensures waits == map t | t in old(waits) && !(t.user == user && t.batch in batches) :: old(waits)[t]
    {
      var i := 0;
      while i < |batches|
        invariant 0 <= i <= |batches|
        invariant waits == map t | t in old(waits) && !(t.user == user && t.batch in batches[..i]) :: old(waits)[t]
      {
        waits := waits - {Ticket(user, batches[i])};
        assert batches[..i + 1] == batches[..i] + [batches[i]];
        i := i + 1;
      }
      assert batches[..i] == batches;
    }

    method ExecuteWithdrawUnbonded(c: Chain, p: Settings, sender: string) returns (r: Result<seq<Msg>>)
      modifies this
      ensures guard == old(guard)
      ensures Performs(r, Stored(), WithdrawStep(old(Stored()), c, p, sender))
    {
      var historicalTime :- Sub(c.now, p.unbondingPeriod);
      var processed :- ProcessWithdrawRate(historicalTime, c.balance);
      var amount :- GetFinishedAmount(sender);
      if amount == 0 {
        return Err(NothingToWithdraw);
      }
      var deprecated := GetUnbondBatches(sender);
      ghost var before := waits;
      RemoveUnbondWaitList(deprecated, sender);
      assert waits == Settled(history, before, sender);
      prevHubBalance :- Sub(c.balance, amount);
      r := Ok([Send(sender, amount)]);
    }

    // ----- entry point -----

    /** Only the admin pauses the hub or resumes it. */
    method SetPaused(sender: string, paused: bool) returns (r: Result<seq<Msg>>)
      modifies this`guard
      ensures if sender == old(guard).admin then r == Ok([]) && guard == old(guard).(paused := paused)
              else r == Err(Unauthorized) && guard == old(guard)
    {
      if sender != guard.admin {
        return Err(Unauthorized);
      }
      guard := guard.(paused := paused);
      r := Ok([]);
    }

    method Dispatch(c: Chain, op: Op) returns (r: Result<seq<Msg>>)
      requires op.Bond? || op.Unbond? || op.Reward? || op.CheckSlashing? || op.Withdraw?
      modifies this
      ensures guard == old(guard)
      ensures Performs(r, Stored(), HubCall(old(Stored()), c, op))
    {
      hide BondStep, BondCall, UnbondStep, RewardStep, SlashingStep, WithdrawStep;
      match op {
      case Bond(p, sender, validator, payment) =>
        BondsItsCoin(Stored(), c, p, sender, validator, [Coin(p.coinDenom, payment)]);
        r := ExecuteBond(c, p, sender, validator, [Coin(p.coinDenom, payment)]);
      case Unbond(p, sender, amount, draw) => r := ExecuteUnbond(c, p, sender, amount, draw);
      case Reward(p, sender, payment, draw) =>
        OneCoin(p.coinDenom, payment);
        r := ExecuteUpdateExchangeRate(c, p, sender, [Coin(p.coinDenom, payment)], draw);
      case CheckSlashing =>
        var checked := Slashing(c);
        r := if checked.Ok? then Ok([]) else Err(checked.error);
      case Withdraw(p, sender) => r := ExecuteWithdrawUnbonded(c, p, sender);
      }
    }

    /** Runs a call, unless the hub is paused; a call that fails reverts the storage to what it
        was. */
    method Execute(c: Chain, op: Op) returns (r: Result<seq<Msg>>)
      requires op.Bond? || op.Unbond? || op.Reward? || op.CheckSlashing? || op.Withdraw?
      modifies this
      ensures guard == old(guard)
      ensures if guard.paused then r == Err(Paused)
              else Performs(r, Stored(), HubCall(old(Stored()), c, op))
      ensures r.Err? ==> Stored() == old(Stored())
    {
      hide HubCall;
      if guard.paused {
        return Err(Paused);
      }
      var saved := Storage(exchangeRate, totalBond, prevHubBalance, actualUnbonded, lastUnbondedTime,
                           lastProcessed, batchId, requested, history, waits);
      r := Dispatch(c, op);
      if r.Err? {
        exchangeRate, totalBond := saved.exchangeRate, saved.totalBond;
        prevHubBalance, actualUnbonded := saved.prevHubBalance, saved.actualUnbonded;
        lastUnbondedTime, lastProcessed := saved.lastUnbondedTime, saved.lastProcessed;
        batchId, requested := saved.batchId, saved.requested;
        history, waits := saved.history, saved.waits;
      }
    }
  }
}

/** The state-changing steps of the hub as functions of its storage and the chain.

    Every step returns the new storage and the messages it emits, or the reason it
    aborts.  The methods of class `Hub` are proved to compute these functions. */
module HubSteps {
  import opened Fixed
  import opened Sums
  import opened HubTypes
  import opened ExchangeRate
  import opened Undelegation
  import Release

  type Outcome = Result<(Storage, seq<Msg>)>

  function InitialStorage(deposit: nat, now: nat): Storage {
    Storage(ONE, deposit, 0, 0, now, 0, 1, 0, map[], map[])
  }

  // ----- bond -----

  /** Tokens minted for a payment, after the peg recovery fee. */
  function MintAmount(s: Storage, supply: nat, p: Settings, payment: nat): Result<nat> {
    var minted :- DecimalDivision(payment, s.exchangeRate);
    if s.exchangeRate < p.erThreshold then
      var maxFee :- Times(minted, p.pegRecoveryFee);
      var withMint :- Add(supply, minted);
      var owed :- Add(withMint, s.requested);
      var bond :- Add(s.totalBond, payment);
      var requiredFee :- Sub(owed, bond);
      Sub(minted, Min(maxFee, requiredFee))
    else Ok(minted)
  }

  function BondStep(s: Storage, c: Chain, p: Settings, sender: string, validator: string, payment: nat): Outcome {
    if validator !in p.validators then Err(InvalidValidator)
    else if payment == 0 then Err(NothingPaid)
    else
      var checked :- SlashingStep(s, c);
      var minted :- MintAmount(checked, c.supply, p, payment);
      var supply :- Add(c.supply, minted);
      var bond :- Add(checked.totalBond, payment);
      var rate :- UpdatedRate(bond, supply, checked.requested);
      Ok((checked.(totalBond := bond, exchangeRate := rate),
          [Delegate(validator, payment), Mint(sender, minted)]))
  }

  /** A bond with its attached coins: at most one, of any denomination. */
  function BondCall(s: Storage, c: Chain, p: Settings, sender: string, validator: string, funds: seq<Coin>): Outcome {
    if validator !in p.validators then Err(InvalidValidator)
    else if |funds| > 1 then Err(TooManyCoins)
    else BondStep(s, c, p, sender, validator, FirstPaid(funds, p.coinDenom))
  }

  /** A bond only goes through with exactly one coin attached, some of the staking coin, and
      bonds all of it; so runs need no other bonds than those. */
  lemma BondsItsCoin(s: Storage, c: Chain, p: Settings, sender: string, validator: string, funds: seq<Coin>)
    ensures |funds| == 1 && funds[0].denom == p.coinDenom ==>
              BondCall(s, c, p, sender, validator, funds) == BondStep(s, c, p, sender, validator, funds[0].amount)
    ensures BondCall(s, c, p, sender, validator, funds).Ok? ==>
              |funds| == 1 && funds[0].denom == p.coinDenom && funds[0].amount > 0
  {
    hide SlashingStep;
    if |funds| == 1 {
      assert FirstPaid(funds[1..], p.coinDenom) == 0;
    }
  }

  // ----- rewards -----

  function RewardStep(s: Storage, c: Chain, p: Settings, sender: string, payment: nat, draw: Draws): Outcome {
    if sender != p.rewardsContract then Err(Unauthorized)
    else if payment == 0 then Err(NothingPaid)
    else
      var fee :- Times(payment, p.protocolFee);
      var kept :- Sub(payment, fee);
      var supply :- Add(c.supply, s.requested);
      var gain :- Ratio(kept, supply);
      var rate :- Add(s.exchangeRate, gain);
      var bond :- Add(s.totalBond, kept);
      if |c.delegations| == 0 then Err(NoDelegation)
      else if fee != 0 && p.feeCollector.None? then Err(MissingFeeCollector)
      else
        var to := c.delegations[Chosen(draw, 0, |c.delegations|)].validator;
        Ok((s.(exchangeRate := rate, totalBond := bond),
            (if fee != 0 then [Send(p.feeCollector.value, fee)] else [])
            + (if kept != 0 then [Delegate(to, kept)] else [])))
  }

  // ----- unbond -----

  /** The part of `amount` that is unbonded, after the peg recovery fee. */
  function UnbondAmount(s: Storage, supply: nat, p: Settings, amount: nat): Result<nat> {
    if s.exchangeRate < p.erThreshold then
      var maxFee :- Times(amount, p.pegRecoveryFee);
      var owed :- Add(supply, s.requested);
      var requiredFee :- Sub(owed, s.totalBond);
      Sub(amount, Min(maxFee, requiredFee))
    else Ok(amount)
  }

  /** Recording the request in the current batch and the sender's wait list, and burning. */
  function RequestStep(s: Storage, supply: nat, p: Settings, sender: string, amount: nat): Result<Storage> {
    var net :- UnbondAmount(s, supply, p, amount);
    var requested :- Add(s.requested, net);
    var ticket := Ticket(sender, s.batchId);
    var waiting :- Add(if ticket in s.waits then s.waits[ticket] else 0, net);
    var left :- Sub(supply, amount);
    var rate :- UpdatedRate(s.totalBond, left, requested);
    Ok(s.(requested := requested, waits := s.waits[ticket := waiting], exchangeRate := rate))
  }

  /** The coins the current batch is worth at the current rate. */
  function BatchValue(s: Storage): nat {
    Floor(s.requested * s.exchangeRate, ONE)
  }

  /** Closing the current batch once per epoch: its value is undelegated. */
  function EpochStep(s: Storage, c: Chain, draw: Draws): Outcome {
    var value :- Times(s.requested, s.exchangeRate);
    if value == 1 then Err(DustUndelegation)
    else
      var msgs :- Pick(c.delegations, value, draw, 0);
      var bond :- Sub(s.totalBond, value);
      var entry := UnbondHistory(s.batchId, c.now, s.requested, s.exchangeRate, s.exchangeRate, false);
      Ok((s.(totalBond := bond, history := s.history[s.batchId := entry],
             batchId := s.batchId + 1, requested := 0, lastUnbondedTime := c.now),
          msgs))
  }

  function UnbondStep(s: Storage, c: Chain, p: Settings, sender: string, amount: nat, draw: Draws): Outcome {
    var checked :- SlashingStep(s, c);
    var asked :- RequestStep(checked, c.supply, p, sender, amount);
    var elapsed :- Sub(c.now, asked.lastUnbondedTime);
    if elapsed > p.epochPeriod then
      var closed :- EpochStep(asked, c, draw);
      Ok((closed.0, closed.1 + [Burn(amount)]))
    else Ok((asked, [Burn(amount)]))
  }

  // ----- release and withdrawal -----

  /** Batch `i` is closed, old enough, and not released. */
  predicate Matured(h: History, i: nat, cutoff: nat) {
    i in h && h[i].time <= cutoff && !h[i].released
  }

  function ClosedFrom(h: History, i: nat): set<nat> {
    set k | k in h && k >= i
  }

  /** The first batch from `i` on that is not matured. */
  function WindowEnd(h: History, i: nat, cutoff: nat): (end: nat)
    ensures i <= end
    ensures forall k | i <= k < end :: k in h && Matured(h, k, cutoff)
    ensures !Matured(h, end, cutoff)
    decreases ClosedFrom(h, i)
  {
    if Matured(h, i, cutoff) then
      assert i in ClosedFrom(h, i) && i !in ClosedFrom(h, i + 1);
      WindowEnd(h, i + 1, cutoff)
    else i
  }

  /** The coins a closed batch was promised. */
  function Promised(e: UnbondHistory): nat {
    Floor(e.amount * e.withdrawRate, ONE)
  }

  function Promises(h: History, lo: nat, hi: nat): (us: seq<nat>)
    requires forall k | lo <= k < hi :: k in h
    ensures |us| == if lo <= hi then hi - lo else 0
    ensures forall j | 0 <= j < |us| :: us[j] == Promised(h[lo + j])
    decreases hi - lo
  {
    if lo >= hi then [] else [Promised(h[lo])] + Promises(h, lo + 1, hi)
  }

  /** What the batches matured at a cutoff were promised. */
  function WindowPromises(s: Storage, cutoff: nat): seq<nat> {
    var first := s.lastProcessed + 1;
    Promises(s.history, first, WindowEnd(s.history, first, cutoff))
  }

  /** The released entry of one batch, when `total` was promised and `arrived` came in. */
  function ReleasedEntry(e: UnbondHistory, total: nat, arrived: nat): Result<UnbondHistory> {
    var promised :- Times(e.amount, e.withdrawRate);
    var weight :- Ratio(promised, total);
    var gap := FromSubtraction(total, arrived);
    var share :- Times(weight, gap.magnitude);
    var actual :-
      if gap.negative then
        var bonus :- Sub(share, 1);
        Add(promised, bonus)
      else
        var cut :- Add(share, if gap.magnitude != 0 then 1 else 0);
        Ok(FromSubtraction(promised, cut).magnitude);
    var rate :- Ratio(actual, e.amount);
    Ok(e.(withdrawRate := rate, released := true))
  }

  function ReleaseBatches(h: History, lo: nat, hi: nat, total: nat, arrived: nat): Result<History>
    requires forall k | lo <= k < hi :: k in h
    decreases hi - lo
  {
    if lo >= hi then Ok(h)
    else
      var entry :- ReleasedEntry(h[lo], total, arrived);
      ReleaseBatches(h[lo := entry], lo + 1, hi, total, arrived)
  }

  /** The coins that arrived since the last withdrawal. */
  function Arrived(s: Storage, balance: nat): nat {
    s.actualUnbonded + FromSubtraction(balance, s.prevHubBalance).magnitude
  }

  /** Releasing all matured batches. */
  function ReleaseStep(s: Storage, cutoff: nat, balance: nat): Result<Storage> {
    var arrived :- Fit(Arrived(s, balance));
    var first := s.lastProcessed + 1;
    var end := WindowEnd(s.history, first, cutoff);
    var total :- Fit(Release.Total(Promises(s.history, first, end)));
    var history :- ReleaseBatches(s.history, first, end, total, arrived);
    Ok(s.(history := history, lastProcessed := end - 1, actualUnbonded := 0))
  }

  /** A ticket of a released batch. */
  predicate Payable(h: History, t: Ticket) {
    t.batch in h && h[t.batch].released
  }

  /** What a payable ticket is worth. */
  function Worth(h: History, amount: nat, t: Ticket): nat
    requires Payable(h, t)
  {
    Floor(amount * h[t.batch].withdrawRate, ONE)
  }

  /** The payable tickets of one user, at their worth. */
  function UserClaims(h: History, waits: Amounts, user: string): Amounts {
    map t | t in waits && t.user == user && Payable(h, t) :: Worth(h, waits[t], t)
  }

  /** The wait lists without a user's payable tickets. */
  function Settled(h: History, waits: Amounts, user: string): Amounts {
    map t | t in waits && !(t.user == user && Payable(h, t)) :: waits[t]
  }

  ghost function WithdrawStep(s: Storage, c: Chain, p: Settings, sender: string): Outcome {
    var cutoff :- Sub(c.now, p.unbondingPeriod);
    var released :- ReleaseStep(s, cutoff, c.balance);
    var amount :- Fit(Sum(UserClaims(released.history, released.waits, sender)));
    if amount == 0 then Err(NothingToWithdraw)
    else
      var balance :- Sub(c.balance, amount);
      Ok((released.(waits := Settled(released.history, released.waits, sender),
                    prevHubBalance := balance),
          [Send(sender, amount)]))
  }

  // ----- whole transactions -----

  datatype World = World(hub: Storage, chain: Chain)

  /** Calls to the hub, and what the chain does on its own: time passes, coins arrive
      (matured undelegations or transfers), and validators are slashed. */
  datatype Op =
    | Bond(p: Settings, sender: string, validator: string, payment: nat)
    | Unbond(p: Settings, sender: string, amount: nat, draw: Draws)
    | Reward(p: Settings, sender: string, payment: nat, draw: Draws)
    | CheckSlashing
    | Withdraw(p: Settings, sender: string)
    | Elapse(seconds: nat)
    | Receive(amount: nat)
    | Slash(delegations: seq<Delegation>)

  /** The coins attached to a call reach the hub before it runs. */
  function Attached(c: Chain, op: Op): Chain {
    match op
    case Bond(_, _, _, payment) => c.(balance := c.balance + payment)
    case Reward(_, _, payment, _) => c.(balance := c.balance + payment)
    case _ => c
  }

  ghost function HubCall(s: Storage, c: Chain, op: Op): Outcome
    requires op.Bond? || op.Unbond? || op.Reward? || op.CheckSlashing? || op.Withdraw?
  {
    match op
    case Bond(p, sender, validator, payment) => BondStep(s, c, p, sender, validator, payment)
    case Unbond(p, sender, amount, draw) => UnbondStep(s, c, p, sender, amount, draw)
    case Reward(p, sender, payment, draw) => RewardStep(s, c, p, sender, payment, draw)
    case CheckSlashing =>
      var checked :- SlashingStep(s, c);
      Ok((checked, []))
    case Withdraw(p, sender) => WithdrawStep(s, c, p, sender)
  }

  /** One transaction: the call and all messages it emits, or nothing. */
  ghost function Transact(w: World, op: Op): Result<World> {
    match op
    case Elapse(seconds) => Ok(w.(chain := w.chain.(now := w.chain.now + seconds)))
    case Receive(amount) => Ok(w.(chain := w.chain.(balance := w.chain.balance + amount)))
    case Slash(ds) =>
      if DistinctValidators(ds) && TotalDelegated(ds) <= TotalDelegated(w.chain.delegations)
      then Ok(w.(chain := w.chain.(delegations := ds)))
      else Err(ChainRejected)
    case _ =>
      var c := Attached(w.chain, op);
      var called :- HubCall(w.hub, c, op);
      var after :- ApplyAll(c, called.1);
      Ok(World(called.0, after))
  }

  /** A failed transaction leaves everything as it was. */
  ghost function Step(w: World, op: Op): World {
    match Transact(w, op)
    case Ok(after) => after
    case Err(_) => w
  }

  ghost function Run(w: World, ops: seq<Op>): World
    decreases |ops|
  {
    if ops == [] then w else Run(Step(w, ops[0]), ops[1..])
  }

  /** The hub as instantiated with a deposit, which is delegated without minting, beside a
      token supply that the deposit covers. */
  ghost predicate Initial(w: World) {
    exists deposit: nat, validator: string ::
      && deposit > 0
      && w.chain.delegations == [Delegation(validator, deposit)]
      && w.chain.supply <= deposit
      && w.hub == InitialStorage(deposit, w.chain.now)
  }
}

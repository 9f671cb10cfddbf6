/** What goes wrong, shown on worlds that a run reaches from instantiation. */
module Counterexamples {
  import opened Fixed
  import opened Sums
  import opened HubTypes
  import opened ExchangeRate
  import opened Undelegation
  import opened HubSteps
  import opened Backing
  import opened Ledger
  import opened Effects
  import opened Books
  import opened Runs
  import opened Liveness
  import Release

  // ----- runs -----

  lemma {:induction false} RunAppend(w: World, ops: seq<Op>, op: Op)
    ensures Run(w, ops + [op]) == Step(Run(w, ops), op)
    decreases |ops|
  {
    if ops == [] {
      assert ops + [op] == [op];
      assert [op][1..] == [];
    } else {
      assert (ops + [op])[0] == ops[0] && (ops + [op])[1..] == ops[1..] + [op];
      RunAppend(Step(w, ops[0]), ops[1..], op);
    }
  }

  /** One more transaction of a run, that goes through. */
  lemma Then(w: World, ops: seq<Op>, here: World, op: Op, next: World)
    requires Run(w, ops) == here && Transact(here, op) == Ok(next)
    ensures Run(w, ops + [op]) == next
  {
    hide Transact;
    RunAppend(w, ops, op);
  }

  /** The hub just instantiated, at time 0. */
  function Start(validator: string, deposit: nat, supply: nat): World {
    World(InitialStorage(deposit, 0), Chain(supply, [Delegation(validator, deposit)], 0, 0))
  }

  lemma StartIsInitial(validator: string, deposit: nat, supply: nat)
    requires 0 < deposit && supply <= deposit
    ensures Initial(Start(validator, deposit, supply))
    ensures Inv(Start(validator, deposit, supply))
  {
    InitialInv(Start(validator, deposit, supply));
  }

  lemma AtStart(w: World)
    ensures Run(w, []) == w
  {
  }

  // ----- unbonding at par -----

  function Held(validator: string, amount: nat): seq<Delegation> {
    if amount == 0 then [] else [Delegation(validator, amount)]
  }

  lemma HeldTotal(validator: string, amount: nat)
    ensures TotalDelegated(Held(validator, amount)) == amount
  {
    assert amount > 0 ==> Held(validator, amount)[1..] == [];
  }

  lemma PickHeld(validator: string, held: nat, claim: nat, draw: Draws)
    requires 0 < claim <= held
    ensures Pick(Held(validator, held), claim, draw, 0) == Ok([Undelegate(validator, claim)])
    ensures Undelegated(Held(validator, held), validator, claim) == Ok(Held(validator, held - claim))
  {
    var ds := Held(validator, held);
    assert Without(ds, 0) == [] && ds[1..] == [];
    assert Pick([], 0, draw, 1) == Ok([]);
    assert [Delegation(validator, held - claim)] + ds[1..] == [Delegation(validator, held - claim)];
    assert [Undelegate(validator, claim)] + [] == [Undelegate(validator, claim)];
  }

  /** One coin behind every token, all at one validator, and a rate of 1.0. */
  ghost predicate AtPar(w: World, validator: string) {
    && w.hub.exchangeRate == ONE && w.hub.totalBond < LIMIT
    && w.chain.delegations == Held(validator, w.hub.totalBond)
    && w.chain.supply + w.hub.requested == w.hub.totalBond
    && w.hub.lastUnbondedTime <= w.chain.now
  }

  /** Batches close at every new block time, mature one second later, and the fee does not
      apply at par. */
  predicate Plain(p: Settings) {
    p.epochPeriod == 0 && p.unbondingPeriod == 1 && p.erThreshold <= ONE
  }

  function Asked(s: Storage, user: string, amount: nat): Storage {
    var ticket := Ticket(user, s.batchId);
    s.(requested := s.requested + amount,
       waits := s.waits[ticket := (if ticket in s.waits then s.waits[ticket] else 0) + amount])
  }

  lemma ParCheck(w: World, validator: string)
    requires AtPar(w, validator)
    ensures SlashingStep(w.hub, w.chain) == Ok(w.hub)
  {
    HeldTotal(validator, w.hub.totalBond);
  }

  lemma ParRequest(w: World, validator: string, p: Settings, user: string, amount: nat)
    requires AtPar(w, validator) && Plain(p) && amount <= w.chain.supply
    requires var ticket := Ticket(user, w.hub.batchId); ticket in w.hub.waits ==> w.hub.waits[ticket] <= w.hub.requested
    ensures RequestStep(w.hub, w.chain.supply, p, user, amount) == Ok(Asked(w.hub, user, amount))
  {
    var bond := w.hub.totalBond;
    if bond > 0 {
      assert ONE * bond == bond * ONE;
      FloorUnique(bond * ONE, bond, ONE);
    }
    assert UpdatedRate(bond, w.chain.supply - amount, w.hub.requested + amount) == Ok(ONE);
  }

  /** A request in a block time that has already seen a batch close. */
  lemma ParUnbond(w: World, validator: string, p: Settings, user: string, amount: nat, draw: Draws)
    requires AtPar(w, validator) && Plain(p) && amount <= w.chain.supply
    requires var ticket := Ticket(user, w.hub.batchId); ticket in w.hub.waits ==> w.hub.waits[ticket] <= w.hub.requested
    requires w.chain.now == w.hub.lastUnbondedTime
    ensures var after := World(Asked(w.hub, user, amount), w.chain.(supply := w.chain.supply - amount));
      Transact(w, Unbond(p, user, amount, draw)) == Ok(after) && AtPar(after, validator)
  {
    ParCheck(w, validator);
    ParRequest(w, validator, p, user, amount);
    hide SlashingStep, RequestStep;
    ApplyOne(w.chain, Burn(amount));
  }

  function Closed(s: Storage, now: nat): Storage {
    s.(totalBond := if s.totalBond >= s.requested then s.totalBond - s.requested else 0,
       history := s.history[s.batchId := UnbondHistory(s.batchId, now, s.requested, ONE, ONE, false)],
       batchId := s.batchId + 1, requested := 0, lastUnbondedTime := now)
  }

  lemma ParEpoch(s: Storage, c: Chain, validator: string, draw: Draws)
    requires s.exchangeRate == ONE && s.totalBond < LIMIT && 1 < s.requested <= s.totalBond
    requires c.delegations == Held(validator, s.totalBond)
    ensures EpochStep(s, c, draw) == Ok((Closed(s, c.now), [Undelegate(validator, s.requested)]))
  {
    assert Floor(s.requested * ONE, ONE) == s.requested;
    PickHeld(validator, s.totalBond, s.requested, draw);
  }

  /** A request that closes its batch: the batch's coins are undelegated. */
  lemma ParClosing(w: World, validator: string, p: Settings, user: string, amount: nat, draw: Draws)
    requires AtPar(w, validator) && Plain(p) && amount <= w.chain.supply
    requires var ticket := Ticket(user, w.hub.batchId); ticket in w.hub.waits ==> w.hub.waits[ticket] <= w.hub.requested
    requires w.chain.now > w.hub.lastUnbondedTime && w.hub.requested + amount > 1
    ensures var left := w.chain.supply - amount;
      var after := World(Closed(Asked(w.hub, user, amount), w.chain.now),
                         w.chain.(supply := left, delegations := Held(validator, left)));
      Transact(w, Unbond(p, user, amount, draw)) == Ok(after) && AtPar(after, validator)
  {
    var asked := Asked(w.hub, user, amount);
    ParCheck(w, validator);
    ParRequest(w, validator, p, user, amount);
    ParEpoch(asked, w.chain, validator, draw);
    hide SlashingStep, RequestStep, EpochStep;
    PickHeld(validator, asked.totalBond, asked.requested, draw);
    var undelegate := Undelegate(validator, asked.requested);
    assert [undelegate] + [Burn(amount)] == [undelegate, Burn(amount)];
    ApplyTwo(w.chain, undelegate, Burn(amount));
  }

  // ----- two batches -----

  /** The second user asks for `z` and the first for `x` in one batch, then the second for
      `y` in the next. */
  function TwoBatches(p: Settings, draw: Draws, first: string, second: string, z: nat, x: nat, y: nat): seq<Op> {
    [Unbond(p, second, z, draw), Elapse(1), Unbond(p, first, x, draw), Elapse(1), Unbond(p, second, y, draw)]
  }

  function Batch(id: nat, amount: nat, rate: nat, released: bool): UnbondHistory {
    UnbondHistory(id, id, amount, ONE, rate, released)
  }

  /** The world they leave behind: everything is being undelegated. */
  function Queued(first: string, second: string, z: nat, x: nat, y: nat): World {
    World(Storage(ONE, 0, 0, 0, 2, 0, 3, 0,
                  map[1 := Batch(1, z + x, ONE, false), 2 := Batch(2, y, ONE, false)],
                  map[Ticket(second, 1) := z, Ticket(first, 1) := x, Ticket(second, 2) := y]),
          Chain(0, [], 0, 2))
  }

  function AskedOnce(v: string, second: string, z: nat, x: nat, y: nat, now: nat): World {
    World(Storage(ONE, z + x + y, 0, 0, 0, 0, 1, z, map[], map[Ticket(second, 1) := z]),
          Chain(x + y, Held(v, z + x + y), 0, now))
  }

  function ClosedOnce(v: string, first: string, second: string, z: nat, x: nat, y: nat, now: nat): World {
    World(Storage(ONE, y, 0, 0, 1, 0, 2, 0, map[1 := Batch(1, z + x, ONE, false)],
                  map[Ticket(second, 1) := z, Ticket(first, 1) := x]),
          Chain(y, Held(v, y), 0, now))
  }

  lemma FirstRequest(v: string, p: Settings, draw: Draws, second: string, z: nat, x: nat, y: nat)
    requires Plain(p) && z > 0 && x > 0 && y > 1 && z + x + y < LIMIT
    ensures Transact(Start(v, z + x + y, z + x + y), Unbond(p, second, z, draw))
         == Ok(AskedOnce(v, second, z, x, y, 0))
  {
    var w := Start(v, z + x + y, z + x + y);
    ParUnbond(w, v, p, second, z, draw);
    hide Transact;
    assert World(Asked(w.hub, second, z), w.chain.(supply := x + y)) == AskedOnce(v, second, z, x, y, 0);
  }

  lemma SecondRequest(v: string, p: Settings, draw: Draws, first: string, second: string, z: nat, x: nat, y: nat)
    requires Plain(p) && first != second && z > 0 && x > 0 && y > 1 && z + x + y < LIMIT
    ensures Transact(AskedOnce(v, second, z, x, y, 1), Unbond(p, first, x, draw))
         == Ok(ClosedOnce(v, first, second, z, x, y, 1))
  {
    var w := AskedOnce(v, second, z, x, y, 1);
    assert Ticket(first, 1) !in w.hub.waits;
    ParClosing(w, v, p, first, x, draw);
    hide Transact;
    assert Closed(Asked(w.hub, first, x), 1) == ClosedOnce(v, first, second, z, x, y, 1).hub;
  }

  lemma ThirdRequest(v: string, p: Settings, draw: Draws, first: string, second: string, z: nat, x: nat, y: nat)
    requires Plain(p) && first != second && z > 0 && x > 0 && y > 1 && z + x + y < LIMIT
    ensures Transact(ClosedOnce(v, first, second, z, x, y, 2), Unbond(p, second, y, draw))
         == Ok(Queued(first, second, z, x, y))
  {
    var w := ClosedOnce(v, first, second, z, x, y, 2);
    assert Ticket(second, 2) !in w.hub.waits;
    ParClosing(w, v, p, second, y, draw);
    hide Transact;
    assert Closed(Asked(w.hub, second, y), 2) == Queued(first, second, z, x, y).hub;
  }

  lemma ReachQueued(v: string, p: Settings, draw: Draws, first: string, second: string, z: nat, x: nat, y: nat)
    requires Plain(p) && first != second && z > 0 && x > 0 && y > 1 && z + x + y < LIMIT
    ensures Run(Start(v, z + x + y, z + x + y), TwoBatches(p, draw, first, second, z, x, y))
         == Queued(first, second, z, x, y)
  {
    var ops := TwoBatches(p, draw, first, second, z, x, y);
    hide Transact, Start, AskedOnce, ClosedOnce, Queued;
    FirstRequest(v, p, draw, second, z, x, y);
    SecondRequest(v, p, draw, first, second, z, x, y);
    ThirdRequest(v, p, draw, first, second, z, x, y);
    TimePasses(v, first, second, z, x, y);
    RunFive(Start(v, z + x + y, z + x + y), ops, AskedOnce(v, second, z, x, y, 0), AskedOnce(v, second, z, x, y, 1),
            ClosedOnce(v, first, second, z, x, y, 1), ClosedOnce(v, first, second, z, x, y, 2),
            Queued(first, second, z, x, y));
  }

  lemma TimePasses(v: string, first: string, second: string, z: nat, x: nat, y: nat)
    ensures Transact(AskedOnce(v, second, z, x, y, 0), Elapse(1)) == Ok(AskedOnce(v, second, z, x, y, 1))
    ensures Transact(ClosedOnce(v, first, second, z, x, y, 1), Elapse(1))
         == Ok(ClosedOnce(v, first, second, z, x, y, 2))
  {
  }

  lemma RunFive(w0: World, ops: seq<Op>, w1: World, w2: World, w3: World, w4: World, w5: World)
    requires |ops| == 5
    requires Transact(w0, ops[0]) == Ok(w1) && Transact(w1, ops[1]) == Ok(w2)
    requires Transact(w2, ops[2]) == Ok(w3) && Transact(w3, ops[3]) == Ok(w4)
    requires Transact(w4, ops[4]) == Ok(w5)
    ensures Run(w0, ops) == w5
  {
    hide Transact;
    AtStart(w0);
    Then(w0, ops[..0], w0, ops[0], w1);
    assert ops[..0] + [ops[0]] == ops[..1];
    Then(w0, ops[..1], w1, ops[1], w2);
    assert ops[..1] + [ops[1]] == ops[..2];
    Then(w0, ops[..2], w2, ops[2], w3);
    assert ops[..2] + [ops[2]] == ops[..3];
    Then(w0, ops[..3], w3, ops[3], w4);
    assert ops[..3] + [ops[3]] == ops[..4];
    Then(w0, ops[..4], w4, ops[4], w5);
    assert ops[..4] + [ops[4]] == ops;
  }

  lemma SumOne(t: Ticket, v: nat)
    ensures Sum(map[t := v]) == v
  {
    SumInsert(map[], t, v);
    assert map[][t := v] == map[t := v];
  }

  lemma SumTwo(t: Ticket, v: nat, u: Ticket, x: nat)
    requires t != u
    ensures Sum(map[t := v, u := x]) == v + x
  {
    SumOne(t, v);
    SumInsert(map[t := v], u, x);
    assert map[t := v][u := x] == map[t := v, u := x];
  }

  /** A withdrawal, from what it releases, pays and leaves. */
  lemma Withdrawal(w: World, p: Settings, user: string, released: Storage, paid: nat, left: Amounts)
    requires w.chain.now >= p.unbondingPeriod
    requires ReleaseStep(w.hub, w.chain.now - p.unbondingPeriod, w.chain.balance) == Ok(released)
    requires Sum(UserClaims(released.history, released.waits, user)) == paid && 0 < paid < LIMIT
    requires paid <= w.chain.balance
    requires Settled(released.history, released.waits, user) == left
    ensures Transact(w, Withdraw(p, user)) == Ok(World(
      released.(waits := left, prevHubBalance := w.chain.balance - paid),
      w.chain.(balance := w.chain.balance - paid)))
  {
    hide ReleaseStep, UserClaims, Settled;
    ApplyOne(w.chain, Send(user, paid));
  }

  // ----- nothing arrived for a batch -----

  function WithBalance(w: World, balance: nat, now: nat): World {
    w.(chain := w.chain.(balance := balance, now := now))
  }

  /** Batch 1 is released in full: the second user has been paid 1 out of it, the first user
      is still owed 5 -- and the hub holds 5. */
  function Unpaid(first: string, second: string, now: nat): World {
    World(Storage(ONE, 0, 5, 0, 2, 1, 3, 0,
                  map[1 := Batch(1, 6, ONE, true), 2 := Batch(2, 5, ONE, false)],
                  map[Ticket(first, 1) := 5, Ticket(second, 2) := 5]),
          Chain(0, [], 5, now))
  }

  /** A release of exactly one batch. */
  lemma OneBatch(s: Storage, cutoff: nat, balance: nat, arrived: nat, e: UnbondHistory)
    requires var k := s.lastProcessed + 1;
      && Matured(s.history, k, cutoff) && !Matured(s.history, k + 1, cutoff)
      && ReleasedEntry(s.history[k], Promised(s.history[k]), arrived) == Ok(e)
      && Promised(s.history[k]) < LIMIT
    requires arrived == Arrived(s, balance) < LIMIT
    ensures var k := s.lastProcessed + 1;
      ReleaseStep(s, cutoff, balance) == Ok(s.(history := s.history[k := e], lastProcessed := k, actualUnbonded := 0))
  {
    hide ReleasedEntry, Matured, Promised;
    var h, k := s.history, s.lastProcessed + 1;
    assert WindowEnd(h, k, cutoff) == k + 1;
    assert Promises(h, k, k + 1) == [Promised(h[k])];
    Release.SingleBatch(Promised(h[k]), 1, 0);
    assert ReleaseBatches(h[k := e], k + 1, k + 1, Promised(h[k]), arrived) == Ok(h[k := e]);
  }

  lemma FirstEntry()
    ensures ReleasedEntry(Batch(1, 6, ONE, false), 6, 6) == Ok(Batch(1, 6, ONE, true))
    ensures Promised(Batch(1, 6, ONE, false)) == 6
  {
  }

  lemma FirstWindow(first: string, second: string)
    ensures var s := Queued(first, second, 1, 5, 5).hub;
      ReleaseStep(s, 1, 6) == Ok(s.(lastProcessed := 1, history := Unpaid(first, second, 2).hub.history))
  {
    var s := Queued(first, second, 1, 5, 5).hub;
    FirstEntry();
    hide ReleaseStep, ReleasedEntry, Promised;
    OneBatch(s, 1, 6, 6, Batch(1, 6, ONE, true));
    assert s.history[1 := Batch(1, 6, ONE, true)] == Unpaid(first, second, 2).hub.history;
  }

  lemma FirstWithdrawal(p: Settings, first: string, second: string)
    requires Plain(p) && first != second
    ensures Transact(WithBalance(Queued(first, second, 1, 5, 5), 6, 2), Withdraw(p, second))
         == Ok(Unpaid(first, second, 2))
  {
    var w := WithBalance(Queued(first, second, 1, 5, 5), 6, 2);
    hide ReleaseStep, Transact, UserClaims, Settled;
    FirstWindow(first, second);
    FirstPaid(first, second);
    Withdrawal(w, p, second, ReleaseStep(w.hub, 1, 6).value, 1, Unpaid(first, second, 2).hub.waits);
  }

  lemma FirstPaid(first: string, second: string)
    requires first != second
    ensures var h, waits := Unpaid(first, second, 2).hub.history, Queued(first, second, 1, 5, 5).hub.waits;
      && Sum(UserClaims(h, waits, second)) == 1
      && Settled(h, waits, second) == Unpaid(first, second, 2).hub.waits
  {
    var h, waits := Unpaid(first, second, 2).hub.history, Queued(first, second, 1, 5, 5).hub.waits;
    FirstSettled(h, waits, first, second);
    assert UserClaims(h, waits, second) == map[Ticket(second, 1) := 1];
    hide UserClaims;
    SumOne(Ticket(second, 1), 1);
  }

  lemma FirstSettled(h: History, waits: Amounts, first: string, second: string)
    requires first != second
    requires waits == map[Ticket(second, 1) := 1, Ticket(first, 1) := 5, Ticket(second, 2) := 5]
    requires forall t: Ticket :: Payable(h, t) <==> t.batch == 1
    ensures Settled(h, waits, second) == map[Ticket(first, 1) := 5, Ticket(second, 2) := 5]
  {
  }

  /** The second user is paid again, with a coin the first user is owed. */
  function Short(first: string): World {
    World(Storage(ONE, 0, 4, 0, 2, 2, 3, 0,
                  map[1 := Batch(1, 6, ONE, true), 2 := Batch(2, 5, ONE / 5, true)],
                  map[Ticket(first, 1) := 5]),
          Chain(0, [], 4, 3))
  }

  /** Batch 2 is credited one coin although none arrived. */
  lemma SecondEntry()
    ensures ReleasedEntry(Batch(2, 5, ONE, false), 5, 0) == Ok(Batch(2, 5, ONE / 5, true))
    ensures Promised(Batch(2, 5, ONE, false)) == 5
  {
  }

  lemma SecondWindow(first: string, second: string)
    ensures var s := Unpaid(first, second, 3).hub;
      ReleaseStep(s, 2, 5) == Ok(s.(lastProcessed := 2, history := Short(first).hub.history))
  {
    var s := Unpaid(first, second, 3).hub;
    SecondEntry();
    hide ReleaseStep, ReleasedEntry, Promised;
    OneBatch(s, 2, 5, 0, Batch(2, 5, ONE / 5, true));
    assert s.history[2 := Batch(2, 5, ONE / 5, true)] == Short(first).hub.history;
  }

  lemma SecondWithdrawal(p: Settings, first: string, second: string)
    requires Plain(p) && first != second
    ensures Transact(Unpaid(first, second, 3), Withdraw(p, second)) == Ok(Short(first))
  {
    var w := Unpaid(first, second, 3);
    hide ReleaseStep, Transact, UserClaims, Settled;
    SecondWindow(first, second);
    SecondPaid(first, second);
    Withdrawal(w, p, second, ReleaseStep(w.hub, 2, 5).value, 1, Short(first).hub.waits);
  }

  lemma SecondPaid(first: string, second: string)
    requires first != second
    ensures var h, waits := Short(first).hub.history, Unpaid(first, second, 3).hub.waits;
      && Sum(UserClaims(h, waits, second)) == 1
      && Settled(h, waits, second) == Short(first).hub.waits
  {
    var h, waits := Short(first).hub.history, Unpaid(first, second, 3).hub.waits;
    assert UserClaims(h, waits, second) == map[Ticket(second, 2) := 1];
    SumOne(Ticket(second, 2), 1);
  }

  /** Two users, eleven tokens: both ask in batch 1, the second also in batch 2; six coins
      arrive and the second user withdraws from batch 1. */
  function UnpaidRun(p: Settings, draw: Draws, first: string, second: string): seq<Op> {
    TwoBatches(p, draw, first, second, 1, 5, 5) + [Receive(6)] + [Withdraw(p, second)] + [Elapse(1)]
  }

  lemma ReachUnpaid(v: string, p: Settings, draw: Draws, first: string, second: string)
    requires Plain(p) && first != second
    ensures Run(Start(v, 11, 11), UnpaidRun(p, draw, first, second)) == Unpaid(first, second, 3)
  {
    var ops := TwoBatches(p, draw, first, second, 1, 5, 5);
    var w, q := Start(v, 11, 11), Queued(first, second, 1, 5, 5);
    ReachQueued(v, p, draw, first, second, 1, 5, 5);
    Then(w, ops, q, Receive(6), WithBalance(q, 6, 2));
    FirstWithdrawal(p, first, second);
    hide Queued;
    Then(w, ops + [Receive(6)], WithBalance(q, 6, 2), Withdraw(p, second), Unpaid(first, second, 2));
    Then(w, ops + [Receive(6)] + [Withdraw(p, second)], Unpaid(first, second, 2), Elapse(1), Unpaid(first, second, 3));
  }

  lemma UnpaidIsSolvent(first: string, second: string)
    ensures Solvent(Unpaid(first, second, 3)) && !Solvent(Short(first))
  {
    var s, t := Unpaid(first, second, 3).hub, Short(first).hub;
    assert Claims(s.history, s.waits) == map[Ticket(first, 1) := 5];
    assert Claims(t.history, t.waits) == map[Ticket(first, 1) := 5];
    SumOne(Ticket(first, 1), 5);
  }

  /** A withdrawal for which nothing arrived breaks solvency: a run from instantiation reaches
      a solvent world in which the second user's withdrawal succeeds, and leaves the first
      user's claim of 5 with 4 coins behind it. */
  lemma NothingArrivedRun(v: string, p: Settings, draw: Draws, first: string, second: string)
    requires Plain(p) && first != second
    ensures var start, op := Start(v, 11, 11), Withdraw(p, second);
      var ops := UnpaidRun(p, draw, first, second);
      var here := Run(start, ops);
      && Initial(start) && Inv(here) && Solvent(here)
      && Transact(here, op).Ok? && !CoveredStep(here, op)
      && Run(start, ops + [op]) == Short(first) && !Solvent(Short(first))
  {
    hide Transact, Inv, Run, Solvent, CoveredStep;
    var start, op, ops := Start(v, 11, 11), Withdraw(p, second), UnpaidRun(p, draw, first, second);
    StartIsInitial(v, 11, 11);
    ReachUnpaid(v, p, draw, first, second);
    BooksOverRuns(start, ops);
    UnpaidIsSolvent(first, second);
    SecondWithdrawal(p, first, second);
    Then(start, ops, Unpaid(first, second, 3), op, Short(first));
    if CoveredStep(Unpaid(first, second, 3), op) {
      StepKeepsSolvent(Unpaid(first, second, 3), op);
    }
  }

  // ----- coins that come in too early -----

  /** The first user has withdrawn although no batch was released: the five coins that had
      come in for the second batch no longer count. */
  function Absorbed(second: string, now: nat): World {
    World(Storage(ONE, 0, 5, 0, 2, 1, 3, 0,
                  map[1 := Batch(1, 6, ONE, true), 2 := Batch(2, 5, ONE, false)], map[Ticket(second, 2) := 5]),
          Chain(0, [], 5, now))
  }

  lemma FirstIsPaid(first: string, second: string)
    requires first != second
    ensures var h, waits := Unpaid(first, second, 2).hub.history, Unpaid(first, second, 2).hub.waits;
      && Sum(UserClaims(h, waits, first)) == 5
      && Settled(h, waits, first) == map[Ticket(second, 2) := 5]
  {
    var h, waits := Unpaid(first, second, 2).hub.history, Unpaid(first, second, 2).hub.waits;
    assert UserClaims(h, waits, first) == map[Ticket(first, 1) := 5];
    hide UserClaims;
    SumOne(Ticket(first, 1), 5);
  }

  lemma AbsorbingWithdrawal(p: Settings, first: string, second: string)
    requires Plain(p) && first != second
    ensures Transact(WithBalance(Unpaid(first, second, 2), 10, 2), Withdraw(p, first)) == Ok(Absorbed(second, 2))
  {
    var w := WithBalance(Unpaid(first, second, 2), 10, 2);
    assert !Matured(w.hub.history, 2, 1);
    NothingReleased(w.hub, 1, 10);
    hide ReleaseStep, Transact, UserClaims, Settled;
    FirstIsPaid(first, second);
    Withdrawal(w, p, first, w.hub, 5, map[Ticket(second, 2) := 5]);
  }

  /** Nobody has a claim left, and four coins are left over. */
  function LeftOver(): World {
    World(Storage(ONE, 0, 4, 0, 2, 2, 3, 0,
                  map[1 := Batch(1, 6, ONE, true), 2 := Batch(2, 5, ONE / 5, true)], map[]),
          Chain(0, [], 4, 3))
  }

  lemma LeftOverIs()
    ensures LeftOver().chain.balance == 4 && LeftOver().hub.waits == map[]
    ensures 2 in LeftOver().hub.history && Promised(LeftOver().hub.history[2]) == 1
  {
  }

  lemma LateWindow(second: string)
    ensures var s := Absorbed(second, 3).hub;
      ReleaseStep(s, 2, 5) == Ok(s.(lastProcessed := 2, history := LeftOver().hub.history))
  {
    var s := Absorbed(second, 3).hub;
    SecondEntry();
    hide ReleaseStep, ReleasedEntry, Promised;
    OneBatch(s, 2, 5, 0, Batch(2, 5, ONE / 5, true));
    assert s.history[2 := Batch(2, 5, ONE / 5, true)] == LeftOver().hub.history;
  }

  lemma LastIsPaid(second: string)
    ensures var h, waits := LeftOver().hub.history, Absorbed(second, 3).hub.waits;
      Sum(UserClaims(h, waits, second)) == 1 && Settled(h, waits, second) == map[]
  {
    var h, waits := LeftOver().hub.history, Absorbed(second, 3).hub.waits;
    assert UserClaims(h, waits, second) == map[Ticket(second, 2) := 1];
    hide UserClaims;
    SumOne(Ticket(second, 2), 1);
  }

  lemma LateWithdrawal(p: Settings, second: string)
    requires Plain(p)
    ensures Transact(Absorbed(second, 3), Withdraw(p, second)) == Ok(LeftOver())
  {
    hide ReleaseStep, Transact, UserClaims, Settled;
    LateWindow(second);
    LastIsPaid(second);
    var w := Absorbed(second, 3);
    Withdrawal(w, p, second, ReleaseStep(w.hub, 2, 5).value, 1, map[]);
  }

  /** The same eleven tokens; all eleven promised coins arrive, the last five of them before
      their batch has matured, and the first user withdraws in between. */
  function EarlyRun(p: Settings, draw: Draws, first: string, second: string): seq<Op> {
    TwoBatches(p, draw, first, second, 1, 5, 5) + [Receive(6)] + [Withdraw(p, second)]
      + [Receive(5)] + [Withdraw(p, first)]
  }

  lemma CoinsArrive(first: string, second: string)
    ensures var q := Queued(first, second, 1, 5, 5); Transact(q, Receive(6)) == Ok(WithBalance(q, 6, 2))
    ensures var u := Unpaid(first, second, 2); Transact(u, Receive(5)) == Ok(WithBalance(u, 10, 2))
    ensures Transact(Absorbed(second, 2), Elapse(1)) == Ok(Absorbed(second, 3))
  {
  }

  lemma ReachAbsorbed(v: string, p: Settings, draw: Draws, first: string, second: string)
    requires Plain(p) && first != second
    ensures Run(Start(v, 11, 11), EarlyRun(p, draw, first, second)) == Absorbed(second, 2)
  {
    hide Transact, Start, Queued, Unpaid, Absorbed, WithBalance, TwoBatches;
    var start, ops := Start(v, 11, 11), TwoBatches(p, draw, first, second, 1, 5, 5);
    var q, u := Queued(first, second, 1, 5, 5), Unpaid(first, second, 2);
    ReachQueued(v, p, draw, first, second, 1, 5, 5);
    CoinsArrive(first, second);
    FirstWithdrawal(p, first, second);
    AbsorbingWithdrawal(p, first, second);
    Then(start, ops, q, Receive(6), WithBalance(q, 6, 2));
    Then(start, ops + [Receive(6)], WithBalance(q, 6, 2), Withdraw(p, second), u);
    Then(start, ops + [Receive(6)] + [Withdraw(p, second)], u, Receive(5), WithBalance(u, 10, 2));
    Then(start, ops + [Receive(6)] + [Withdraw(p, second)] + [Receive(5)], WithBalance(u, 10, 2), Withdraw(p, first),
         Absorbed(second, 2));
  }

  /** A run from instantiation in which every promised coin arrives, and yet the second user is
      paid 1 coin instead of 5 for the second batch; the other 4 stay in the hub, and there is
      no claim on them. */
  lemma EarlyCoinsRun(v: string, p: Settings, draw: Draws, first: string, second: string)
    requires Plain(p) && first != second
    ensures var start := Start(v, 11, 11);
      var end := Run(start, EarlyRun(p, draw, first, second) + [Elapse(1)] + [Withdraw(p, second)]);
      && Initial(start) && end == LeftOver()
      && end.chain.balance == 4 && end.hub.waits == map[]
      && 2 in end.hub.history && Promised(end.hub.history[2]) == 1
  {
    hide Transact, Start, Absorbed, EarlyRun, Inv, Run, Initial, LeftOver;
    var start, ops := Start(v, 11, 11), EarlyRun(p, draw, first, second);
    StartIsInitial(v, 11, 11);
    LeftOverIs();
    ReachAbsorbed(v, p, draw, first, second);
    CoinsArrive(first, second);
    LateWithdrawal(p, second);
    Then(start, ops, Absorbed(second, 2), Elapse(1), Absorbed(second, 3));
    Then(start, ops + [Elapse(1)], Absorbed(second, 3), Withdraw(p, second), LeftOver());
  }

  // ----- a shortfall just above 10^18 -----

  const HALF: nat := 500_000_000_000_000_000
  const TWO_THIRDS: nat := 666_666_666_666_666_666

  /** 10^18 tokens in batch 1, half of each user, and 2 * 10^18 of the second user in batch 2;
      three coins less than 2 * 10^18 have arrived. */
  function Slashed(first: string, second: string): World {
    WithBalance(Queued(first, second, HALF, HALF, 2 * ONE), 2 * ONE - 3, 3)
  }

  function SlashedRun(p: Settings, draw: Draws, first: string, second: string): seq<Op> {
    TwoBatches(p, draw, first, second, HALF, HALF, 2 * ONE) + [Receive(2 * ONE - 3)] + [Elapse(1)]
  }

  lemma ReachSlashed(v: string, p: Settings, draw: Draws, first: string, second: string)
    requires Plain(p) && first != second
    ensures Run(Start(v, 3 * ONE, 3 * ONE), SlashedRun(p, draw, first, second)) == Slashed(first, second)
  {
    var ops := TwoBatches(p, draw, first, second, HALF, HALF, 2 * ONE);
    var w, q := Start(v, 3 * ONE, 3 * ONE), Queued(first, second, HALF, HALF, 2 * ONE);
    ReachQueued(v, p, draw, first, second, HALF, HALF, 2 * ONE);
    hide Start;
    Then(w, ops, q, Receive(2 * ONE - 3), WithBalance(q, 2 * ONE - 3, 2));
    Then(w, ops + [Receive(2 * ONE - 3)], WithBalance(q, 2 * ONE - 3, 2), Elapse(1), Slashed(first, second));
  }

  /** A release of exactly two batches. */
  lemma TwoBatchesReleased(s: Storage, cutoff: nat, balance: nat, arrived: nat, d: UnbondHistory, e: UnbondHistory)
    requires var k := s.lastProcessed + 1;
      && Matured(s.history, k, cutoff) && Matured(s.history, k + 1, cutoff) && !Matured(s.history, k + 2, cutoff)
      && var total := Promised(s.history[k]) + Promised(s.history[k + 1]);
      && total < LIMIT
      && ReleasedEntry(s.history[k], total, arrived) == Ok(d)
      && ReleasedEntry(s.history[k + 1], total, arrived) == Ok(e)
    requires arrived == Arrived(s, balance) < LIMIT
    ensures var k := s.lastProcessed + 1;
      ReleaseStep(s, cutoff, balance)
        == Ok(s.(history := s.history[k := d][k + 1 := e], lastProcessed := k + 1, actualUnbonded := 0))
  {
    hide ReleasedEntry, Matured, Promised;
    var h, k := s.history, s.lastProcessed + 1;
    assert WindowEnd(h, k + 1, cutoff) == k + 2;
    assert WindowEnd(h, k, cutoff) == k + 2;
    assert Promises(h, k + 1, k + 2) == [Promised(h[k + 1])];
    assert Promises(h, k, k + 2) == [Promised(h[k])] + [Promised(h[k + 1])];
    PairTotal(Promised(h[k]), Promised(h[k + 1]));
    var total := Promised(h[k]) + Promised(h[k + 1]);
    var g := h[k := d];
    assert ReleaseBatches(g[k + 1 := e], k + 2, k + 2, total, arrived) == Ok(g[k + 1 := e]);
    assert ReleaseBatches(g, k + 1, k + 2, total, arrived) == Ok(g[k + 1 := e]);
  }

  lemma PairTotal(u: nat, v: nat)
    ensures Release.Total([u] + [v]) == u + v
  {
    assert ([u] + [v])[1..] == [v];
    Release.SingleBatch(v, 1, 0);
  }

  lemma SlashedEntries()
    ensures Promised(Batch(1, ONE, ONE, false)) == ONE && Promised(Batch(2, 2 * ONE, ONE, false)) == 2 * ONE
    ensures ReleasedEntry(Batch(1, ONE, ONE, false), 3 * ONE, 2 * ONE - 3) == Ok(Batch(1, ONE, TWO_THIRDS, true))
    ensures ReleasedEntry(Batch(2, 2 * ONE, ONE, false), 3 * ONE, 2 * ONE - 3)
         == Ok(Batch(2, 2 * ONE, TWO_THIRDS, true))
  {
    FirstSlashed();
    SecondSlashed();
    hide ReleasedEntry;
  }

  lemma FirstSlashed()
    ensures ReleasedEntry(Batch(1, ONE, ONE, false), 3 * ONE, 2 * ONE - 3) == Ok(Batch(1, ONE, TWO_THIRDS, true))
  {
    assert Times(ONE, ONE) == Ok(ONE);
    assert Ratio(ONE, 3 * ONE) == Ok(333_333_333_333_333_333);
    assert Times(333_333_333_333_333_333, ONE + 3) == Ok(333_333_333_333_333_333);
    assert Ratio(TWO_THIRDS, ONE) == Ok(TWO_THIRDS);
    hide Times, Ratio;
  }

  lemma SecondSlashed()
    ensures ReleasedEntry(Batch(2, 2 * ONE, ONE, false), 3 * ONE, 2 * ONE - 3)
         == Ok(Batch(2, 2 * ONE, TWO_THIRDS, true))
  {
    assert Times(2 * ONE, ONE) == Ok(2 * ONE);
    assert Ratio(2 * ONE, 3 * ONE) == Ok(TWO_THIRDS);
    assert Times(TWO_THIRDS, ONE + 3) == Ok(666_666_666_666_666_667);
    assert Ratio(1_333_333_333_333_333_332, 2 * ONE) == Ok(TWO_THIRDS);
    hide Times, Ratio;
  }

  function SlashedHistory(): History {
    map[1 := Batch(1, ONE, TWO_THIRDS, true), 2 := Batch(2, 2 * ONE, TWO_THIRDS, true)]
  }

  lemma SlashedRelease(first: string, second: string)
    ensures var s := Slashed(first, second).hub;
      ReleaseStep(s, 2, 2 * ONE - 3) == Ok(s.(history := SlashedHistory(), lastProcessed := 2))
  {
    var s := Slashed(first, second).hub;
    SlashedEntries();
    hide ReleaseStep, ReleasedEntry, Promised;
    var d, e := Batch(1, ONE, TWO_THIRDS, true), Batch(2, 2 * ONE, TWO_THIRDS, true);
    TwoBatchesReleased(s, 2, 2 * ONE - 3, 2 * ONE - 3, d, e);
    assert s.history[1 := d][2 := e] == SlashedHistory();
  }

  /** The first user has been paid; the second is owed one coin more than there is. */
  function OneShort(second: string): World {
    World(Storage(ONE, 0, 1_666_666_666_666_666_664, 0, 2, 2, 3, 0, SlashedHistory(),
                  map[Ticket(second, 1) := HALF, Ticket(second, 2) := 2 * ONE]),
          Chain(0, [], 1_666_666_666_666_666_664, 3))
  }

  lemma HalvesSettled(h: History, waits: Amounts, first: string, second: string)
    requires first != second
    requires waits == map[Ticket(second, 1) := HALF, Ticket(first, 1) := HALF, Ticket(second, 2) := 2 * ONE]
    requires h == SlashedHistory()
    ensures Settled(h, waits, first) == map[Ticket(second, 1) := HALF, Ticket(second, 2) := 2 * ONE]
    ensures Sum(UserClaims(h, waits, first)) == 333_333_333_333_333_333
  {
    assert UserClaims(h, waits, first) == map[Ticket(first, 1) := 333_333_333_333_333_333];
    hide UserClaims;
    SumOne(Ticket(first, 1), 333_333_333_333_333_333);
  }

  lemma SlashedWithdrawal(p: Settings, first: string, second: string)
    requires Plain(p) && first != second
    ensures Transact(Slashed(first, second), Withdraw(p, first)) == Ok(OneShort(second))
  {
    var w := Slashed(first, second);
    hide ReleaseStep, Transact, UserClaims, Settled, SlashedHistory;
    SlashedRelease(first, second);
    HalvesSettled(SlashedHistory(), w.hub.waits, first, second);
    Withdrawal(w, p, first, w.hub.(history := SlashedHistory(), lastProcessed := 2), 333_333_333_333_333_333,
               OneShort(second).hub.waits);
  }

  lemma OwedToSecond(second: string)
    ensures var s := OneShort(second).hub;
      && Owed(s.history, s.waits) == 1_666_666_666_666_666_665
      && Sum(UserClaims(s.history, s.waits, second)) == 1_666_666_666_666_666_665
  {
    var s := OneShort(second).hub;
    var claims := map[Ticket(second, 1) := 333_333_333_333_333_333, Ticket(second, 2) := 1_333_333_333_333_333_332];
    assert UserClaims(s.history, s.waits, second) == claims;
    assert Claims(s.history, s.waits) == claims;
    hide UserClaims, Claims;
    SumTwo(Ticket(second, 1), 333_333_333_333_333_333, Ticket(second, 2), 1_333_333_333_333_333_332);
  }

  /** The second user's withdrawal fails at recording the rest of the balance. */
  lemma SecondCannotWithdraw(p: Settings, second: string)
    requires Plain(p)
    ensures Transact(OneShort(second), Withdraw(p, second)) == Err(Underflow)
  {
    var w := OneShort(second);
    OwedToSecond(second);
    assert !Matured(w.hub.history, 3, 2);
    NothingReleased(w.hub, 2, w.chain.balance);
    hide ReleaseStep, UserClaims, Transact, Owed;
    CannotPay(w, p, second, w.hub, 1_666_666_666_666_666_665);
  }

  /** A withdrawal that the balance cannot pay. */
  lemma CannotPay(w: World, p: Settings, user: string, released: Storage, claimed: nat)
    requires w.chain.now >= p.unbondingPeriod
    requires ReleaseStep(w.hub, w.chain.now - p.unbondingPeriod, w.chain.balance) == Ok(released)
    requires Sum(UserClaims(released.history, released.waits, user)) == claimed
    requires w.chain.balance < claimed < LIMIT
    ensures Transact(w, Withdraw(p, user)) == Err(Underflow)
  {
    hide ReleaseStep, UserClaims;
  }

  lemma NothingReleased(s: Storage, cutoff: nat, balance: nat)
    requires !Matured(s.history, s.lastProcessed + 1, cutoff) && Arrived(s, balance) < LIMIT
    ensures ReleaseStep(s, cutoff, balance) == Ok(s.(actualUnbonded := 0))
  {
  }

  /** Solvency also breaks with coins arrived and every batch worth something: in a run from
      instantiation, a shortfall of 10^18 + 3 lets the first user's withdrawal leave claims of
      one coin more than the hub holds, and the second user's withdrawal then fails. */
  lemma LargeShortfallRun(v: string, p: Settings, draw: Draws, first: string, second: string)
    requires Plain(p) && first != second
    ensures var start, op := Start(v, 3 * ONE, 3 * ONE), Withdraw(p, first);
      var ops := SlashedRun(p, draw, first, second);
      var here := Run(start, ops);
      && Initial(start) && Inv(here) && Solvent(here)
      && Transact(here, op).Ok?
      && Run(start, ops + [op]) == OneShort(second) && !Solvent(OneShort(second))
      && Transact(OneShort(second), Withdraw(p, second)) == Err(Underflow)
  {
    hide Transact, Inv, Run;
    var start, op, ops := Start(v, 3 * ONE, 3 * ONE), Withdraw(p, first), SlashedRun(p, draw, first, second);
    StartIsInitial(v, 3 * ONE, 3 * ONE);
    ReachSlashed(v, p, draw, first, second);
    BooksOverRuns(start, ops);
    SlashedWithdrawal(p, first, second);
    Then(start, ops, Slashed(first, second), op, OneShort(second));
    OwedToSecond(second);
    SecondCannotWithdraw(p, second);
    NothingOwed(Slashed(first, second).hub);
  }

  lemma NothingOwed(s: Storage)
    requires forall b | b in s.history :: !s.history[b].released
    ensures Owed(s.history, s.waits) == 0
  {
    assert Claims(s.history, s.waits) == map[];
  }

  // ----- a surplus of one coin -----

  /** A run in which five coins arrive for two batches worth two each: nobody can withdraw. */
  lemma SmallSurplusRun(v: string, p: Settings, draw: Draws, first: string, second: string, user: string)
    requires Plain(p) && first != second
    ensures var start := Start(v, 4, 4);
      var ops := TwoBatches(p, draw, first, second, 1, 1, 2) + [Receive(5)] + [Elapse(1)];
      && Initial(start)
      && Run(start, ops) == WithBalance(Queued(first, second, 1, 1, 2), 5, 3)
      && Transact(Run(start, ops), Withdraw(p, user)).Err?
  {
    var start, ops := Start(v, 4, 4), TwoBatches(p, draw, first, second, 1, 1, 2);
    var q := Queued(first, second, 1, 1, 2);
    StartIsInitial(v, 4, 4);
    ReachQueued(v, p, draw, first, second, 1, 1, 2);
    hide Run, Inv;
    Then(start, ops, q, Receive(5), WithBalance(q, 5, 2));
    Then(start, ops + [Receive(5)], WithBalance(q, 5, 2), Elapse(1), WithBalance(q, 5, 3));
    BooksOverRuns(start, ops + [Receive(5)] + [Elapse(1)]);
    SmallTotal(q.hub);
    hide Transact;
    SmallSurplusBlocks(WithBalance(q, 5, 3), Withdraw(p, user), 1);
  }

  lemma SmallTotal(s: Storage)
    requires s.lastProcessed == 0 && s.history == map[1 := Batch(1, 2, ONE, false), 2 := Batch(2, 2, ONE, false)]
    ensures Release.Total(WindowPromises(s, 2)) == 4
    ensures Matured(s.history, 1, 2) && Promised(s.history[1]) == 2
  {
    var h := s.history;
    assert WindowEnd(h, 2, 2) == 3 && WindowEnd(h, 1, 2) == 3;
    assert Promises(h, 2, 3) == [2];
    assert Promises(h, 1, 3) == [2] + [2];
    PairTotal(2, 2);
  }

  // ----- a batch without tokens -----

  /** Half of the two bonded coins is gone, and the whole of a one-token request went into the
      fee: the batch is closed with nothing in it. */
  function EmptyClosed(v: string, user: string): World {
    World(Storage(ONE, 1, 0, 0, 1, 0, 2, 0, map[1 := UnbondHistory(1, 1, 0, ONE, ONE, false)],
                  map[Ticket(user, 1) := 0]),
          Chain(1, [Delegation(v, 1)], 0, 1))
  }

  /** At a threshold and a fee of 1.0. */
  predicate FullFee(p: Settings) {
    p.epochPeriod == 0 && p.pegRecoveryFee == ONE && p.erThreshold == ONE
  }

  lemma SingleTotal(d: Delegation)
    ensures TotalDelegated([d]) == d.amount
  {
    assert [d][1..] == [];
  }

  lemma FullFeeRequest(v: string, p: Settings, user: string)
    requires FullFee(p)
    ensures var s := InitialStorage(2, 0);
      var checked := s.(totalBond := 1, exchangeRate := ONE / 2);
      && SlashingStep(s, Chain(2, [Delegation(v, 1)], 0, 1)) == Ok(checked)
      && RequestStep(checked, 2, p, user, 1)
         == Ok(checked.(waits := map[Ticket(user, 1) := 0], exchangeRate := ONE))
  {
    SingleTotal(Delegation(v, 1));
    var s := InitialStorage(2, 0).(totalBond := 1, exchangeRate := ONE / 2);
    assert UnbondAmount(s, 2, p, 1) == Ok(0);
    assert UpdatedRate(1, 1, 0) == Ok(ONE);
  }

  lemma FullFeeUnbond(v: string, p: Settings, user: string, draw: Draws)
    requires FullFee(p)
    ensures Transact(World(InitialStorage(2, 0), Chain(2, [Delegation(v, 1)], 0, 1)), Unbond(p, user, 1, draw))
         == Ok(EmptyClosed(v, user))
  {
    var c := Chain(2, [Delegation(v, 1)], 0, 1);
    var asked := InitialStorage(2, 0).(totalBond := 1, waits := map[Ticket(user, 1) := 0]);
    FullFeeRequest(v, p, user);
    assert EpochStep(asked, c, draw) == Ok((EmptyClosed(v, user).hub, []));
    hide SlashingStep, RequestStep, EpochStep;
    assert [] + [Burn(1)] == [Burn(1)];
    ApplyOne(c, Burn(1));
  }

  /** A run that closes a batch without tokens; whatever follows, nobody's withdrawal that
      reaches the batch ever goes through again. */
  lemma EmptyBatchRun(v: string, p: Settings, user: string, draw: Draws, more: seq<Op>, op: Op)
    requires FullFee(p) && op.Withdraw?
    ensures var start := Start(v, 2, 2);
      var here := Run(start, [Slash([Delegation(v, 1)])] + [Elapse(1)] + [Unbond(p, user, 1, draw)]);
      && Initial(start) && here == EmptyClosed(v, user) && Empty(here, 1)
      && (Run(here, more).chain.now >= op.p.unbondingPeriod + 1 ==> Transact(Run(here, more), op).Err?)
  {
    var start, half, slash := Start(v, 2, 2), [Delegation(v, 1)], Slash([Delegation(v, 1)]);
    StartIsInitial(v, 2, 2);
    SingleTotal(Delegation(v, 1));
    SingleTotal(Delegation(v, 2));
    FullFeeUnbond(v, p, user, draw);
    hide Inv;
    AtStart(start);
    assert [] + [slash] == [slash];
    var ops := [slash] + [Elapse(1)];
    Then(start, [], start, slash, start.(chain := Chain(2, half, 0, 0)));
    Then(start, [slash], start.(chain := Chain(2, half, 0, 0)), Elapse(1), start.(chain := Chain(2, half, 0, 1)));
    Then(start, ops, start.(chain := Chain(2, half, 0, 1)), Unbond(p, user, 1, draw), EmptyClosed(v, user));
    hide Run, Transact;
    BooksOverRuns(start, ops + [Unbond(p, user, 1, draw)]);
    EmptyBatchBlocksForever(EmptyClosed(v, user), more, op, 1, 1);
  }

  // ----- a bond all gone -----

  /** The only delegation is slashed away; the next check leaves a rate of 1.0 with a token
      outstanding and no coin behind it. */
  lemma StrandingRun(v: string)
    ensures var start := Start(v, 1, 1);
      var here := Run(start, [Slash([Delegation(v, 0)])]);
      && Initial(start) && Sound(here.hub, here.chain.supply) && Strands(here, CheckSlashing)
      && !Sound(Step(here, CheckSlashing).hub, Step(here, CheckSlashing).chain.supply)
  {
    var start, slash := Start(v, 1, 1), Slash([Delegation(v, 0)]);
    var here := start.(chain := Chain(1, [Delegation(v, 0)], 0, 0));
    StartIsInitial(v, 1, 1);
    SingleTotal(Delegation(v, 1));
    SingleTotal(Delegation(v, 0));
    AtStart(start);
    assert [] + [slash] == [slash];
    Then(start, [], start, slash, here);
    assert SlashingStep(here.hub, here.chain) == Ok(here.hub.(totalBond := 0));
    assert Transact(here, CheckSlashing) == Ok(here.(hub := here.hub.(totalBond := 0)));
  }

  // ----- a rate without tokens -----

  /** All tokens are handed in at a rate of 1.5. */
  function Cleared(user: string): World {
    World(Storage(3 * ONE / 2, 0, 0, 0, 1, 0, 2, 0,
                  map[1 := UnbondHistory(1, 1, 2, 3 * ONE / 2, 3 * ONE / 2, false)], map[Ticket(user, 1) := 2]),
          Chain(0, [], 0, 1))
  }

  lemma ClearingUnbond(v: string, p: Settings, user: string, draw: Draws)
    requires p.epochPeriod == 0 && p.erThreshold <= ONE
    ensures Transact(World(InitialStorage(3, 0), Chain(2, [Delegation(v, 3)], 0, 1)), Unbond(p, user, 2, draw))
         == Ok(Cleared(user))
  {
    var s, c := InitialStorage(3, 0), Chain(2, [Delegation(v, 3)], 0, 1);
    var asked := s.(requested := 2, waits := map[Ticket(user, 1) := 2], exchangeRate := 3 * ONE / 2);
    SingleTotal(Delegation(v, 3));
    assert SlashingStep(s, c) == Ok(s);
    assert RequestStep(s, 2, p, user, 2) == Ok(asked);
    PickHeld(v, 3, 3, draw);
    assert EpochStep(asked, c, draw) == Ok((Cleared(user).hub, [Undelegate(v, 3)]));
    hide SlashingStep, RequestStep, EpochStep;
    assert [Undelegate(v, 3)] + [Burn(2)] == [Undelegate(v, 3), Burn(2)];
    ApplyTwo(c, Undelegate(v, 3), Burn(2));
  }

  lemma ReachCleared(v: string, p: Settings, user: string, draw: Draws)
    requires p.epochPeriod == 0 && p.erThreshold <= ONE
    ensures Initial(Start(v, 3, 2))
    ensures Run(Start(v, 3, 2), [Elapse(1)] + [Unbond(p, user, 2, draw)]) == Cleared(user)
  {
    var start := Start(v, 3, 2);
    StartIsInitial(v, 3, 2);
    ClearingUnbond(v, p, user, draw);
    AtStart(start);
    assert [] + [Elapse(1)] == [Elapse(1)];
    Then(start, [], start, Elapse(1), start.(chain := Chain(2, [Delegation(v, 3)], 0, 1)));
    hide Run, Transact;
    Then(start, [Elapse(1)], start.(chain := Chain(2, [Delegation(v, 3)], 0, 1)), Unbond(p, user, 2, draw),
         Cleared(user));
  }

  /** In a world that a run reaches, bonding one coin mints nothing and resets the rate from
      1.5 to 1.0, and so does an unbond of nothing. */
  lemma ResettingRun(v: string, p: Settings, user: string, draw: Draws)
    requires p.epochPeriod == 0 && p.erThreshold <= ONE && v in p.validators
    ensures var start := Start(v, 3, 2);
      var here := Run(start, [Elapse(1)] + [Unbond(p, user, 2, draw)]);
      && Initial(start) && here.hub.exchangeRate == 3 * ONE / 2 && Sound(here.hub, here.chain.supply)
      && BondStep(here.hub, here.chain, p, user, v, 1)
         == Ok((here.hub.(totalBond := 1, exchangeRate := ONE), [Delegate(v, 1), Mint(user, 0)]))
      && UnbondStep(here.hub, here.chain, p, user, 0, draw).Ok?
      && UnbondStep(here.hub, here.chain, p, user, 0, draw).value.0.exchangeRate == ONE
  {
    hide Run, Initial, Transact, BondStep, UnbondStep;
    ReachCleared(v, p, user, draw);
    ClearedBond(v, p, user);
    ClearedUnbond(p, user, draw);
  }

  lemma ClearedBond(v: string, p: Settings, user: string)
    requires p.erThreshold <= ONE && v in p.validators
    ensures var here := Cleared(user);
      BondStep(here.hub, here.chain, p, user, v, 1)
        == Ok((here.hub.(totalBond := 1, exchangeRate := ONE), [Delegate(v, 1), Mint(user, 0)]))
  {
    var s, c := Cleared(user).hub, Cleared(user).chain;
    assert SlashingStep(s, c) == Ok(s);
    assert DecimalDivision(1, s.exchangeRate) == Ok(0);
    assert UpdatedRate(1, 0, 0) == Ok(ONE);
    hide SlashingStep, DecimalDivision, UpdatedRate;
  }

  lemma ClearedUnbond(p: Settings, user: string, draw: Draws)
    requires p.erThreshold <= ONE
    ensures var here := Cleared(user);
      && UnbondStep(here.hub, here.chain, p, user, 0, draw).Ok?
      && UnbondStep(here.hub, here.chain, p, user, 0, draw).value.0.exchangeRate == ONE
  {
    var s, c := Cleared(user).hub, Cleared(user).chain;
    assert SlashingStep(s, c) == Ok(s);
    assert UpdatedRate(0, 0, 0) == Ok(ONE);
    hide SlashingStep, UpdatedRate, EpochStep;
  }

  // ----- a locked peg -----

  /** The rate has fallen just below 1.0, and two rewards of one coin have since brought more
      coins than there are tokens without moving it. */
  function Locked(v: string): World {
    World(InitialStorage(2 * ONE, 0).(exchangeRate := ONE - 1, totalBond := 2 * ONE + 1),
          Chain(2 * ONE, [Delegation(v, 2 * ONE + 1)], 0, 0))
  }

  function BelowPar(v: string, coins: nat): World {
    World(InitialStorage(2 * ONE, 0).(exchangeRate := ONE - 1, totalBond := coins),
          Chain(2 * ONE, [Delegation(v, coins)], 0, 0))
  }

  lemma TinyReward(v: string, p: Settings, coins: nat, draw: Draws)
    requires p.protocolFee == 0 && 0 < coins && coins + 1 < LIMIT
    ensures Transact(BelowPar(v, coins), Reward(p, p.rewardsContract, 1, draw)) == Ok(BelowPar(v, coins + 1))
  {
    var w := BelowPar(v, coins);
    var c := w.chain.(balance := 1);
    assert Times(1, 0) == Ok(0);
    assert Ratio(1, 2 * ONE) == Ok(0);
    var r := RewardStep(w.hub, c, p, p.rewardsContract, 1, draw);
    assert r == Ok((BelowPar(v, coins + 1).hub, [] + [Delegate(v, 1)]));
    assert [] + [Delegate(v, 1)] == [Delegate(v, 1)];
    hide RewardStep;
    ApplyOne(c, Delegate(v, 1));
    assert Delegated([Delegation(v, coins)], v, 1) == [Delegation(v, coins + 1)];
  }

  lemma FirstCheck(v: string)
    ensures var here := Start(v, 2 * ONE, 2 * ONE).(chain := Chain(2 * ONE, [Delegation(v, 2 * ONE - 1)], 0, 0));
      Transact(here, CheckSlashing) == Ok(BelowPar(v, 2 * ONE - 1))
  {
    var here := Start(v, 2 * ONE, 2 * ONE).(chain := Chain(2 * ONE, [Delegation(v, 2 * ONE - 1)], 0, 0));
    SingleTotal(Delegation(v, 2 * ONE - 1));
    assert UpdatedRate(2 * ONE - 1, 2 * ONE, 0) == Ok(ONE - 1);
    assert SlashingStep(here.hub, here.chain) == Ok(BelowPar(v, 2 * ONE - 1).hub);
  }

  function LockingRun(v: string, p: Settings, draw: Draws): seq<Op> {
    [Slash([Delegation(v, 2 * ONE - 1)])] + [CheckSlashing]
      + [Reward(p, p.rewardsContract, 1, draw)] + [Reward(p, p.rewardsContract, 1, draw)]
  }

  lemma ReachLocked(v: string, p: Settings, draw: Draws)
    requires p.protocolFee == 0
    ensures Initial(Start(v, 2 * ONE, 2 * ONE))
    ensures Run(Start(v, 2 * ONE, 2 * ONE), LockingRun(v, p, draw)) == Locked(v)
  {
    var start, slash := Start(v, 2 * ONE, 2 * ONE), Slash([Delegation(v, 2 * ONE - 1)]);
    var here := start.(chain := Chain(2 * ONE, [Delegation(v, 2 * ONE - 1)], 0, 0));
    var reward := Reward(p, p.rewardsContract, 1, draw);
    StartIsInitial(v, 2 * ONE, 2 * ONE);
    SingleTotal(Delegation(v, 2 * ONE));
    SingleTotal(Delegation(v, 2 * ONE - 1));
    assert Transact(start, slash) == Ok(here);
    FirstCheck(v);
    TinyReward(v, p, 2 * ONE - 1, draw);
    TinyReward(v, p, 2 * ONE, draw);
    AtStart(start);
    hide Run, Transact;
    assert [] + [slash] == [slash];
    Then(start, [], start, slash, here);
    Then(start, [slash], here, CheckSlashing, BelowPar(v, 2 * ONE - 1));
    Then(start, [slash] + [CheckSlashing], BelowPar(v, 2 * ONE - 1), reward, BelowPar(v, 2 * ONE));
    Then(start, [slash] + [CheckSlashing] + [reward], BelowPar(v, 2 * ONE), reward, BelowPar(v, 2 * ONE + 1));
  }

  /** In a world that a run reaches, with a backed rate, a threshold of 1.0 refuses every
      unbond of any user and amount, and every bond of less than 999999999 coins. */
  lemma LockedRun(v: string, p: Settings, draw: Draws, op: Op)
    requires p.protocolFee == 0
    requires (op.Unbond? || (op.Bond? && op.payment < GRAIN - 1)) && op.p.erThreshold == ONE
    ensures var start := Start(v, 2 * ONE, 2 * ONE);
      var here := Run(start, LockingRun(v, p, draw));
      && Initial(start) && Sound(here.hub, here.chain.supply)
      && Transact(here, op).Err?
  {
    ReachLocked(v, p, draw);
    hide Run;
    var w := Locked(v);
    SingleTotal(Delegation(v, 2 * ONE + 1));
    assert SlashingStep(w.hub, Attached(w.chain, op)) == Ok(w.hub);
    hide SlashingStep;
    if op.Bond? {
      SmallPayment(op.payment);
      hide DecimalDivision;
      assert MintAmount(w.hub, 2 * ONE, op.p, op.payment).Err?;
    } else {
      assert UnbondAmount(w.hub, 2 * ONE, op.p, op.amount).Err?;
    }
  }

  lemma SmallPayment(payment: nat)
    requires payment < GRAIN - 1
    ensures DecimalDivision(payment, ONE - 1) == Ok(payment)
  {
    DecimalDivisionIs(payment, ONE - 1);
    assert Floor(ONE - 1, GRAIN) == GRAIN - 1;
    FloorUnique(payment * GRAIN, GRAIN - 1, payment);
  }

  // ----- a deposit without tokens -----

  /** After a deposit for which nothing was minted, the first to bond takes it: the payment of
      3 is minted 3 tokens, and these are promised all 6 coins when they are handed in. */
  lemma FirstBondTakesDeposit(v: string, p: Settings, user: string, draw: Draws)
    requires p.epochPeriod == 0 && p.erThreshold <= ONE && v in p.validators
    ensures var start := Start(v, 3, 0);
      var end := Run(start, [Bond(p, user, v, 3)] + [Elapse(1)] + [Unbond(p, user, 3, draw)]);
      && Initial(start)
      && end.hub.waits == map[Ticket(user, 1) := 3]
      && 1 in end.hub.history && end.hub.history[1].amount == 3 && Promised(end.hub.history[1]) == 6
  {
    var start := Start(v, 3, 0);
    StartIsInitial(v, 3, 0);
    FirstBond(v, p, user);
    DepositUnbond(v, p, user, draw);
    AtStart(start);
    assert [] + [Bond(p, user, v, 3)] == [Bond(p, user, v, 3)];
    Then(start, [], start, Bond(p, user, v, 3), Doubled(v, 0));
    Then(start, [Bond(p, user, v, 3)], Doubled(v, 0), Elapse(1), Doubled(v, 1));
    hide Run, Transact;
    Then(start, [Bond(p, user, v, 3)] + [Elapse(1)], Doubled(v, 1), Unbond(p, user, 3, draw), Taken(user));
  }

  function Doubled(v: string, now: nat): World {
    World(InitialStorage(6, 0).(exchangeRate := 2 * ONE), Chain(3, [Delegation(v, 6)], 0, now))
  }

  function Taken(user: string): World {
    World(Storage(2 * ONE, 0, 0, 0, 1, 0, 2, 0, map[1 := UnbondHistory(1, 1, 3, 2 * ONE, 2 * ONE, false)],
                  map[Ticket(user, 1) := 3]),
          Chain(0, [], 0, 1))
  }

  lemma FirstBond(v: string, p: Settings, user: string)
    requires p.erThreshold <= ONE && v in p.validators
    ensures Transact(Start(v, 3, 0), Bond(p, user, v, 3)) == Ok(Doubled(v, 0))
  {
    var w := Start(v, 3, 0);
    var c := w.chain.(balance := 3);
    SingleTotal(Delegation(v, 3));
    assert SlashingStep(w.hub, c) == Ok(w.hub);
    assert DecimalDivision(3, ONE) == Ok(3);
    assert UpdatedRate(6, 3, 0) == Ok(2 * ONE);
    assert BondStep(w.hub, c, p, user, v, 3) == Ok((Doubled(v, 0).hub, [Delegate(v, 3), Mint(user, 3)]));
    hide BondStep;
    ApplyTwo(c, Delegate(v, 3), Mint(user, 3));
    assert Delegated([Delegation(v, 3)], v, 3) == [Delegation(v, 6)];
  }

  lemma DepositUnbond(v: string, p: Settings, user: string, draw: Draws)
    requires p.epochPeriod == 0 && p.erThreshold <= ONE
    ensures Transact(Doubled(v, 1), Unbond(p, user, 3, draw)) == Ok(Taken(user))
  {
    var s, c := Doubled(v, 1).hub, Doubled(v, 1).chain;
    var asked := s.(requested := 3, waits := map[Ticket(user, 1) := 3]);
    SingleTotal(Delegation(v, 6));
    assert SlashingStep(s, c) == Ok(s);
    assert UpdatedRate(6, 0, 3) == Ok(2 * ONE);
    assert RequestStep(s, 3, p, user, 3) == Ok(asked);
    PickHeld(v, 6, 6, draw);
    assert EpochStep(asked, c, draw) == Ok((Taken(user).hub, [Undelegate(v, 6)]));
    hide SlashingStep, RequestStep, EpochStep;
    assert [Undelegate(v, 6)] + [Burn(3)] == [Undelegate(v, 6), Burn(3)];
    ApplyTwo(c, Undelegate(v, 6), Burn(3));
  }
}

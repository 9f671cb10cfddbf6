/** The hub's accounts over whole runs: what arrived, what was credited, what was paid. */
module Accounts {
  import opened Fixed
  import opened HubSteps
  import opened Ledger
  import opened Books
  import opened Runs
  import opened Payouts

  /** A withdrawal that goes through; the only step that moves the accounts. */
  ghost predicate Withdraws(w: World, op: Op) {
    op.Withdraw? && Transact(w, op).Ok? && op.p.unbondingPeriod <= w.chain.now
  }

  /** Coins a transaction counts as arrived. */
  ghost function ArrivedIn(w: World, op: Op): nat {
    if Withdraws(w, op) then Arrived(w.hub, w.chain.balance) else 0
  }

  /** What a transaction credits to batches. */
  ghost function CreditedIn(w: World, op: Op): int {
    if Withdraws(w, op) then Credited(w.hub, w.chain.now - op.p.unbondingPeriod, w.chain.balance) else 0
  }

  /** What a transaction pays to users. */
  ghost function PaidOutIn(w: World, op: Op): int {
    if Withdraws(w, op) then w.chain.balance - Step(w, op).chain.balance else 0
  }

  ghost function AllArrived(w: World, ops: seq<Op>): nat
    decreases |ops|
  {
    if ops == [] then 0 else ArrivedIn(w, ops[0]) + AllArrived(Step(w, ops[0]), ops[1..])
  }

  ghost function AllCredited(w: World, ops: seq<Op>): int
    decreases |ops|
  {
    if ops == [] then 0 else CreditedIn(w, ops[0]) + AllCredited(Step(w, ops[0]), ops[1..])
  }

  ghost function AllPaidOut(w: World, ops: seq<Op>): int
    decreases |ops|
  {
    if ops == [] then 0 else PaidOutIn(w, ops[0]) + AllPaidOut(Step(w, ops[0]), ops[1..])
  }

  lemma ArrivedIs(w: World)
    requires Inv(w)
    ensures Arrived(w.hub, w.chain.balance) == w.chain.balance - w.hub.prevHubBalance
  {
  }

  lemma WithdrawAccounts(w: World, op: Op, after: World)
    requires Inv(w) && op.Withdraw? && Transact(w, op) == Ok(after)
    ensures w.chain.now >= op.p.unbondingPeriod
    ensures after.hub.prevHubBalance
         == w.hub.prevHubBalance + Arrived(w.hub, w.chain.balance) - (w.chain.balance - after.chain.balance)
    ensures Owed(after.hub.history, after.hub.waits) + (w.chain.balance - after.chain.balance)
         <= Owed(w.hub.history, w.hub.waits)
            + Credited(w.hub, w.chain.now - op.p.unbondingPeriod, w.chain.balance)
  {
    hide Inv, ReleaseStep, Settled, UserClaims, Owed, Transact, Arrived, Credited, HubCall;
    ArrivedIs(w);
    var released, paid := WithdrawParts(w, op, after);
    ReleaseOwes(w, w.chain.now - op.p.unbondingPeriod, released);
    SettlingPays(released.history, released.waits, op.sender);
  }

  lemma StepAccounts(w: World, op: Op)
    requires Inv(w)
    ensures Step(w, op).hub.prevHubBalance == w.hub.prevHubBalance + ArrivedIn(w, op) - PaidOutIn(w, op)
    ensures Owed(Step(w, op).hub.history, Step(w, op).hub.waits) + PaidOutIn(w, op)
         <= Owed(w.hub.history, w.hub.waits) + CreditedIn(w, op)
  {
    hide Inv, Arrived, Credited, Owed, HubCall;
    if Transact(w, op).Ok? {
      var after := Transact(w, op).value;
      if OffBooks(op) {
        OffBooksKeepsInv(w, op, after);
      } else if op.Unbond? {
        UnbondKeepsInv(w, op, after);
      } else if op.Withdraw? {
        WithdrawAccounts(w, op, after);
      } else {
        ChainKeepsInv(w, op, after);
      }
    }
  }

  /** Over every run, covered or not: the recorded balance is what it was plus all arrivals
      less all payouts, to the coin, and the claims are at most what they were plus all
      credits less all payouts. */
  lemma {:induction false} AccountsOverRuns(w: World, ops: seq<Op>)
    requires Inv(w)
    ensures Run(w, ops).hub.prevHubBalance == w.hub.prevHubBalance + AllArrived(w, ops) - AllPaidOut(w, ops)
    ensures Owed(Run(w, ops).hub.history, Run(w, ops).hub.waits) + AllPaidOut(w, ops)
         <= Owed(w.hub.history, w.hub.waits) + AllCredited(w, ops)
    decreases |ops|
  {
    if ops != [] {
      StepKeepsInv(w, ops[0]);
      StepAccounts(w, ops[0]);
      AccountsOverRuns(Step(w, ops[0]), ops[1..]);
    }
  }

  /** So a run ends solvent as soon as its credits, all together, are covered by its
      arrivals and by what the recorded balance exceeded the claims at the start; a release
      may be short if another left something over. */
  lemma SolventInTotal(w: World, ops: seq<Op>)
    requires Inv(w)
    requires Owed(w.hub.history, w.hub.waits) + AllCredited(w, ops)
          <= w.hub.prevHubBalance + AllArrived(w, ops)
    ensures Solvent(Run(w, ops))
  {
    AccountsOverRuns(w, ops);
  }

  // ----- arrivals -----

  /** Coins a transaction brings to the hub for nothing. */
  function ReceivedIn(op: Op): nat {
    if op.Receive? then op.amount else 0
  }

  function AllReceived(ops: seq<Op>): nat
    decreases |ops|
  {
    if ops == [] then 0 else ReceivedIn(ops[0]) + AllReceived(ops[1..])
  }

  /** A withdrawal counts all that has arrived, whether it releases a batch or not; every other
      transaction leaves it for later and adds what it brings. */
  lemma StepArrivals(w: World, op: Op)
    requires Inv(w)
    ensures Arrived(Step(w, op).hub, Step(w, op).chain.balance)
         == if Withdraws(w, op) then 0 else Arrived(w.hub, w.chain.balance) + ReceivedIn(op)
  {
    StepKeepsInv(w, op);
    if Transact(w, op).Ok? {
      var after := Transact(w, op).value;
      if OffBooks(op) {
        OffBooksKeepsInv(w, op, after);
      } else if op.Unbond? {
        UnbondKeepsInv(w, op, after);
      } else if op.Withdraw? {
        WithdrawKeepsInv(w, op, after);
        WithdrawAccounts(w, op, after);
      } else {
        ChainKeepsInv(w, op, after);
      }
    }
  }

  /** The coins received since the last withdrawal that went through, or since `seen`. */
  ghost function SinceLast(w: World, ops: seq<Op>, seen: nat): nat
    decreases |ops|
  {
    if ops == [] then seen
    else SinceLast(Step(w, ops[0]), ops[1..], if Withdraws(w, ops[0]) then 0 else seen + ReceivedIn(ops[0]))
  }

  /** Exactly which coins the next release will see, after any run: those received since the
      last withdrawal that went through, by whomever and whatever it released. */
  lemma {:induction false} ArrivedSinceLast(w: World, ops: seq<Op>)
    requires Inv(w)
    ensures Arrived(Run(w, ops).hub, Run(w, ops).chain.balance)
         == SinceLast(w, ops, Arrived(w.hub, w.chain.balance))
    decreases |ops|
  {
    if ops != [] {
      hide Inv, Step, Arrived, Withdraws;
      StepKeepsInv(w, ops[0]);
      StepArrivals(w, ops[0]);
      ArrivedSinceLast(Step(w, ops[0]), ops[1..]);
    }
  }

  /** No coin is lost between the counts: what had arrived and what a run receives is what its
      withdrawals counted and what is still uncounted.  So all of it is left for the next
      release exactly if every withdrawal of the run found nothing. */
  lemma {:induction false} ArrivalsOverRuns(w: World, ops: seq<Op>)
    requires Inv(w)
    ensures Arrived(w.hub, w.chain.balance) + AllReceived(ops)
         == AllArrived(w, ops) + Arrived(Run(w, ops).hub, Run(w, ops).chain.balance)
    decreases |ops|
  {
    if ops != [] {
      hide Inv, Step, Arrived, Withdraws;
      StepKeepsInv(w, ops[0]);
      StepArrivals(w, ops[0]);
      ArrivalsOverRuns(Step(w, ops[0]), ops[1..]);
    }
  }

  /** No withdrawal of the run goes through. */
  ghost predicate NoneWithdraws(w: World, ops: seq<Op>)
    decreases |ops|
  {
    ops == [] || (!Withdraws(w, ops[0]) && NoneWithdraws(Step(w, ops[0]), ops[1..]))
  }

  /** Early coins count in full for the next release if nobody withdraws in between. */
  lemma {:induction false} ArrivalsWait(w: World, ops: seq<Op>)
    requires Inv(w) && NoneWithdraws(w, ops)
    ensures Arrived(Run(w, ops).hub, Run(w, ops).chain.balance)
         == Arrived(w.hub, w.chain.balance) + AllReceived(ops)
    decreases |ops|
  {
    if ops != [] {
      hide Inv, Step, Arrived, Withdraws;
      StepKeepsInv(w, ops[0]);
      StepArrivals(w, ops[0]);
      ArrivalsWait(Step(w, ops[0]), ops[1..]);
    }
  }

  // ----- by batch -----

  lemma StepKeepsIds(w: World, op: Op)
    requires Inv(w)
    ensures Step(w, op).hub.batchId >= w.hub.batchId
  {
    StepKeepsInv(w, op);
    hide Transact, Conserved;
    if w.hub.batchId > 1 {
      assert w.hub.batchId - 1 in w.hub.history;
    }
  }

  lemma {:induction false} RunKeepsIds(w: World, ops: seq<Op>)
    requires Inv(w)
    ensures Run(w, ops).hub.batchId >= w.hub.batchId
    decreases |ops|
  {
    if ops != [] {
      StepKeepsInv(w, ops[0]);
      StepKeepsIds(w, ops[0]);
      RunKeepsIds(Step(w, ops[0]), ops[1..]);
    }
  }

  lemma StepPaysByBatch(w: World, op: Op, n: nat)
    requires Inv(w) && n >= Step(w, op).hub.batchId
    ensures PaidOutIn(w, op) == PaidBelow(w, op, n)
  {
    if op.Withdraw? && Transact(w, op).Ok? {
      WithdrawAccounts(w, op, Transact(w, op).value);
      PaidByBatch(w, op, n);
    } else {
      NothingPaid(w, op, n);
    }
  }

  lemma {:induction false} NothingPaid(w: World, op: Op, n: nat)
    requires !(op.Withdraw? && Transact(w, op).Ok?)
    ensures PaidBelow(w, op, n) == 0
  {
    if n > 0 {
      NothingPaid(w, op, n - 1);
    }
  }

  /** Over every run the coins sent to users are the payouts of its batches, to the coin. */
  lemma {:induction false} PaidOutByBatch(w: World, ops: seq<Op>, n: nat)
    requires Inv(w) && n >= Run(w, ops).hub.batchId
    ensures AllPaidOut(w, ops) == RunPaidBelow(w, ops, n)
    decreases |ops|
  {
    RunPaidStep(w, ops, n);
    if ops != [] {
      hide PaidOutIn, PaidBelow, Step, Inv;
      StepKeepsInv(w, ops[0]);
      RunKeepsIds(Step(w, ops[0]), ops[1..]);
      StepPaysByBatch(w, ops[0], n);
      PaidOutByBatch(Step(w, ops[0]), ops[1..], n);
    }
  }

  /** From instantiation on, all coins ever paid to users are at most what the released
      batches are worth at their recorded rates. */
  lemma PaidOutWithinBatches(w: World, ops: seq<Op>)
    requires Initial(w)
    ensures AllPaidOut(w, ops) <= ReleasedWorth(Run(w, ops).hub.history, Run(w, ops).hub.batchId)
  {
    InitialInv(w);
    PaidOutByBatch(w, ops, Run(w, ops).hub.batchId);
    RunPaidWithin(w, ops, Run(w, ops).hub.batchId);
  }
}

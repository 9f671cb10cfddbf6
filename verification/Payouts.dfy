/** What users are paid: exactly their released claims, and over any run never more than
    what a batch actually received. */
module Payouts {
  import opened Fixed
  import opened Sums
  import opened HubTypes
  import opened HubSteps
  import opened Ledger
  import opened Books
  import opened Runs
  import Release

  /** A withdrawal pays the sender's payable tickets at their worth and takes exactly those
      out of the wait lists: nothing payable is left for the sender, and every other ticket
      -- other users', or of unreleased batches -- is untouched. */
  lemma WithdrawClearsExactly(w: World, op: Op, after: World)
    requires Inv(w) && op.Withdraw? && Transact(w, op) == Ok(after)
    ensures w.chain.balance - after.chain.balance
         == Sum(UserClaims(after.hub.history, w.hub.waits, op.sender))
    ensures UserClaims(after.hub.history, after.hub.waits, op.sender) == map[]
    ensures forall t :: t in after.hub.waits <==>
              t in w.hub.waits && !(t.user == op.sender && Payable(after.hub.history, t))
    ensures forall t | t in after.hub.waits :: after.hub.waits[t] == w.hub.waits[t]
    ensures forall u | u != op.sender ::
              UserClaims(after.hub.history, after.hub.waits, u) == UserClaims(after.hub.history, w.hub.waits, u)
  {
    hide Transact, Inv;
    WithdrawSettles(w, op, after);
  }

  /** What a transaction pays out on batch `b`. */
  ghost function PaidIn(w: World, op: Op, b: nat): nat {
    if op.Withdraw? && Transact(w, op).Ok? then
      Sum(UserBatchClaims(Step(w, op).hub.history, w.hub.waits, op.sender, b))
    else 0
  }

  ghost function Paid(w: World, ops: seq<Op>, b: nat): nat
    decreases |ops|
  {
    if ops == [] then 0 else PaidIn(w, ops[0], b) + Paid(Step(w, ops[0]), ops[1..], b)
  }

  ghost predicate IsReleased(w: World, b: nat) {
    b in w.hub.history && w.hub.history[b].released
  }

  /** A withdrawal moves claims of a batch from owed to paid, one for one. */
  lemma WithdrawPaysBatch(w: World, op: Op, after: World, b: nat)
    requires Inv(w) && op.Withdraw? && Transact(w, op) == Ok(after)
    ensures PaidIn(w, op, b) + OwedOf(after.hub.history, after.hub.waits, b)
         == OwedOf(after.hub.history, w.hub.waits, b)
  {
    hide Transact, Inv;
    WithdrawSettles(w, op, after);
    SettlingPaysBatch(after.hub.history, w.hub.waits, op.sender, b);
  }

  /** Claims on a batch depend on its own entry only. */
  lemma OwedOfFrame(h: History, g: History, waits: Amounts, b: nat)
    requires b in h <==> b in g
    requires b in h ==> h[b] == g[b]
    ensures OwedOf(h, waits, b) == OwedOf(g, waits, b)
  {
    assert BatchClaims(h, waits, b) == BatchClaims(g, waits, b);
  }

  /** For a released batch, every transaction conserves claims outstanding plus paid. */
  lemma StepConservesClaims(w: World, op: Op, b: nat)
    requires Inv(w) && IsReleased(w, b)
    ensures IsReleased(Step(w, op), b)
    ensures OwedOf(w.hub.history, w.hub.waits, b)
         == PaidIn(w, op, b) + OwedOf(Step(w, op).hub.history, Step(w, op).hub.waits, b)
  {
    StepKeepsInv(w, op);
    if Transact(w, op).Ok? {
      var after := Transact(w, op).value;
      if OffBooks(op) {
        OffBooksKeepsInv(w, op, after);
      } else if op.Unbond? {
        UnbondKeepsInv(w, op, after);
      } else if op.Withdraw? {
        WithdrawPaysBatch(w, op, after, b);
        OwedOfFrame(w.hub.history, after.hub.history, w.hub.waits, b);
      } else {
        ChainKeepsInv(w, op, after);
      }
    }
  }

  /** Conservation over every run: what is owed on a released batch is either still owed
      or has been paid, to the unit. */
  lemma {:induction false} ClaimsConservedOverRuns(w: World, ops: seq<Op>, b: nat)
    requires Inv(w) && IsReleased(w, b)
    ensures OwedOf(w.hub.history, w.hub.waits, b)
         == Paid(w, ops, b) + OwedOf(Run(w, ops).hub.history, Run(w, ops).hub.waits, b)
    decreases |ops|
  {
    if ops != [] {
      StepKeepsInv(w, ops[0]);
      StepConservesClaims(w, ops[0], b);
      ClaimsConservedOverRuns(Step(w, ops[0]), ops[1..], b);
    }
  }

  /** The claims on a released batch are worth at most its amount at its rate. */
  lemma OwedWithinRate(s: Storage, b: nat)
    requires ConservedIn(s, b) && b != s.batchId
    requires b in s.history && s.history[b].released
    ensures OwedOf(s.history, s.waits, b) <= Promised(s.history[b])
  {
    var e := s.history[b];
    assert BatchClaims(s.history, s.waits, b) == FloorEach(BatchTickets(s.waits, b), e.withdrawRate);
    SumOfFloors(BatchTickets(s.waits, b), e.withdrawRate);
    MulMono(BatchTotal(s.waits, b), e.amount, e.withdrawRate);
    FloorIsLargest(e.amount * e.withdrawRate, ONE, OwedOf(s.history, s.waits, b));
  }

  /** What a batch is worth at its released rate is at most what it was credited. */
  lemma RateWithinCredit(e: UnbondHistory, total: nat, arrived: nat, after: UnbondHistory)
    requires ReleasedEntry(e, total, arrived) == Ok(after)
    ensures total > 0 && Promised(after) <= Release.Credit(Promised(e), total, arrived)
  {
    ReleasedEntryIs(e, total, arrived, after);
    var credit := Release.Credit(Promised(e), total, arrived);
    CreditArithmetic(Promised(after), e.amount, e.amount, credit, after.withdrawRate);
  }

  lemma WithdrawPaysWithin(w: World, op: Op, after: World, b: nat)
    requires Inv(w) && op.Withdraw? && Transact(w, op) == Ok(after)
    ensures if IsReleased(after, b)
            then PaidIn(w, op, b) + OwedOf(after.hub.history, after.hub.waits, b) <= Promised(after.hub.history[b])
            else PaidIn(w, op, b) == 0
  {
    WithdrawSettles(w, op, after);
    WithdrawPaysBatch(w, op, after, b);
    var marked := w.hub.(history := after.hub.history, lastProcessed := after.hub.lastProcessed,
                         actualUnbonded := 0);
    hide Transact, Extends, Settled;
    if IsReleased(after, b) {
      assert b in w.hub.history;
      assert ConservedIn(marked, b);
      OwedWithinRate(marked, b);
    } else {
      assert UserBatchClaims(after.hub.history, w.hub.waits, op.sender, b) == map[];
    }
  }

  /** In the transaction that releases a batch, its payouts and remaining claims together
      stay within its amount at the released rate; before, nothing is paid on it. */
  lemma ReleasingStepPays(w: World, op: Op, b: nat)
    requires Inv(w) && !IsReleased(w, b)
    ensures if IsReleased(Step(w, op), b)
            then PaidIn(w, op, b) + OwedOf(Step(w, op).hub.history, Step(w, op).hub.waits, b)
                   <= Promised(Step(w, op).hub.history[b])
            else PaidIn(w, op, b) == 0
  {
    StepKeepsInv(w, op);
    if op.Withdraw? && Transact(w, op).Ok? {
      WithdrawPaysWithin(w, op, Step(w, op), b);
    } else if IsReleased(Step(w, op), b) {
      NothingElseReleases(w, op, b);
    }
  }

  lemma NothingElseReleases(w: World, op: Op, b: nat)
    requires Inv(w) && !IsReleased(w, b) && !(op.Withdraw? && Transact(w, op).Ok?)
    ensures !IsReleased(Step(w, op), b)
  {
    if Transact(w, op).Ok? {
      var after := Transact(w, op).value;
      if OffBooks(op) {
        OffBooksKeepsInv(w, op, after);
      } else if op.Unbond? {
        UnbondKeepsInv(w, op, after);
        UnbondKeepsProcessed(w, op);
      } else {
        ChainKeepsInv(w, op, after);
      }
    }
  }

  lemma UnbondKeepsProcessed(w: World, op: Op)
    requires op.Unbond? && UnbondStep(w.hub, w.chain, op.p, op.sender, op.amount, op.draw).Ok?
    ensures UnbondStep(w.hub, w.chain, op.p, op.sender, op.amount, op.draw).value.0.lastProcessed
         == w.hub.lastProcessed
  {
  }

  /** Over every run that starts before a batch is released -- or even opened -- all its
      payouts, together with the claims still open, stay within its recorded amount at its
      released rate, which is within what it was credited (`RateWithinCredit`). */
  lemma {:induction false} PayoutsWithinBatch(w: World, ops: seq<Op>, b: nat)
    requires Inv(w) && !IsReleased(w, b)
    ensures if IsReleased(Run(w, ops), b)
            then Paid(w, ops, b) + OwedOf(Run(w, ops).hub.history, Run(w, ops).hub.waits, b)
                   <= Promised(Run(w, ops).hub.history[b])
            else Paid(w, ops, b) == 0
    decreases |ops|
  {
    if ops != [] {
      var next := Step(w, ops[0]);
      StepKeepsInv(w, ops[0]);
      ReleasingStepPays(w, ops[0], b);
      if IsReleased(next, b) {
        ClaimsConservedOverRuns(next, ops[1..], b);
        BooksOverRuns(next, ops[1..]);
      } else {
        PayoutsWithinBatch(next, ops[1..], b);
      }
    }
  }

  // ----- how much of its credit a batch pays -----

  /** A ticket of `v` tokens, in a batch of `n` tokens credited `credit` coins, is worth at most
      its part `v * credit / n`, and misses it by less than one coin plus `v / 10^18`. */
  lemma TicketWorth(v: nat, n: nat, credit: nat, rate: nat)
    requires n > 0 && rate == Floor(credit * ONE, n)
    ensures Floor(v * rate, ONE) * n <= v * credit
    ensures v * credit * ONE < (Floor(v * rate, ONE) + 1) * n * ONE + v * n || v == 0
  {
    var worth := Floor(v * rate, ONE);
    TicketAbove(v, n, credit, rate, worth);
    if v > 0 {
      TicketBelow(v, n, credit, rate, worth);
    }
  }

  lemma TicketAbove(v: nat, n: nat, credit: nat, rate: nat, worth: nat)
    requires worth * ONE <= v * rate && rate * n <= credit * ONE
    ensures worth * n <= v * credit
  {
    MulMono(worth * ONE, v * rate, n);
    MulMono(rate * n, credit * ONE, v);
    Rotate(worth, ONE, n);
    Rotate(v, rate, n);
    Rotate(v, credit, ONE);
    MulCancel(worth * n, v * credit, ONE);
  }

  lemma TicketBelow(v: nat, n: nat, credit: nat, rate: nat, worth: nat)
    requires v > 0 && n > 0
    requires v * rate < (worth + 1) * ONE && credit * ONE < (rate + 1) * n
    ensures v * credit * ONE < (worth + 1) * n * ONE + v * n
  {
    Release.ScaleUpStrict(credit * ONE, (rate + 1) * n, v);
    Release.ScaleUpStrict(v * rate, (worth + 1) * ONE, n);
    Rotate(v, credit, ONE);
    Rotate(worth + 1, ONE, n);
    Expanded(v, rate, n);
  }

  lemma Expanded(v: nat, rate: nat, n: nat)
    ensures ((rate + 1) * n) * v == (v * rate) * n + v * n
  {
    assert (rate + 1) * n == rate * n + n;
    assert (rate * n + n) * v == (rate * n) * v + n * v;
    Rotate(v, rate, n);
  }

  lemma Rotate(a: nat, b: nat, c: nat)
    ensures (a * b) * c == (a * c) * b == (b * c) * a
  {
  }

  /** What a withdrawal that releases batch `b` credits to it. */
  ghost function CreditOf(w: World, op: Op, b: nat): int {
    if op.Withdraw? && op.p.unbondingPeriod <= w.chain.now && b in w.hub.history then
      var total := Release.Total(WindowPromises(w.hub, w.chain.now - op.p.unbondingPeriod));
      if total > 0 then Release.Credit(Promised(w.hub.history[b]), total, Arrived(w.hub, w.chain.balance)) else 0
    else 0
  }

  /** The world and the call in which a run releases batch `b`. */
  ghost function Releasing(w: World, ops: seq<Op>, b: nat): (World, Op)
    requires !IsReleased(w, b) && IsReleased(Run(w, ops), b)
    decreases |ops|
  {
    if IsReleased(Step(w, ops[0]), b) then (w, ops[0]) else Releasing(Step(w, ops[0]), ops[1..], b)
  }

  lemma ReleasedAtCredit(w: World, op: Op, after: World, b: nat)
    requires Inv(w) && op.Withdraw? && Transact(w, op) == Ok(after)
    requires !IsReleased(w, b) && IsReleased(after, b)
    ensures b in w.hub.history && after.hub.history[b].amount == w.hub.history[b].amount > 0
    ensures CreditOf(w, op, b) >= 0
    ensures after.hub.history[b].withdrawRate == Floor(CreditOf(w, op, b) * ONE, w.hub.history[b].amount)
  {
    hide Transact, Conserved, ReleaseStep, WindowPromises, Shape, UserClaims, Settled, HubCall, Release.Credit;
    var released, paid := WithdrawParts(w, op, after);
    ReleasedCredit(w.hub, w.chain.now, w.chain.now - op.p.unbondingPeriod, w.chain.balance, released, b);
  }

  lemma ReleasedCredit(s: Storage, now: nat, cutoff: nat, balance: nat, released: Storage, b: nat)
    requires Shape(s, now) && ReleaseStep(s, cutoff, balance) == Ok(released)
    requires b in released.history && released.history[b].released && !(b in s.history && s.history[b].released)
    ensures b in s.history && released.history[b].amount == s.history[b].amount > 0
    ensures var total := Release.Total(WindowPromises(s, cutoff));
      && total > 0
      && var credit := Release.Credit(Promised(s.history[b]), total, Arrived(s, balance));
      && credit >= 0
      && released.history[b].withdrawRate == Floor(credit * ONE, s.history[b].amount)
  {
    hide ReleasedEntry, Shape, WindowPromises, ReleaseStep, Release.Credit;
    ReleaseFrame(s, now, cutoff, balance, released);
    ReleasedFrom(s, now, cutoff, balance, released, b);
    ReleasedEntryIs(s.history[b], Release.Total(WindowPromises(s, cutoff)), Arrived(s, balance), released.history[b]);
  }

  lemma ReleasedFrom(s: Storage, now: nat, cutoff: nat, balance: nat, released: Storage, b: nat)
    requires Shape(s, now) && ReleaseStep(s, cutoff, balance) == Ok(released)
    requires b in s.history && b in released.history && !s.history[b].released && released.history[b].released
    ensures ReleasedEntry(s.history[b], Release.Total(WindowPromises(s, cutoff)), Arrived(s, balance))
         == Ok(released.history[b])
  {
    var first := s.lastProcessed + 1;
    var end := WindowEnd(s.history, first, cutoff);
    hide ReleasedEntry, Shape;
    ReleaseRewrites(s.history, first, end, Release.Total(WindowPromises(s, cutoff)), Arrived(s, balance),
                    released.history);
  }

  /** The claims on a batch when it is released, from its credit and its tickets. */
  lemma ClaimsNearCredit(w: World, op: Op, after: World, b: nat)
    requires Inv(w) && op.Withdraw? && Transact(w, op) == Ok(after)
    requires !IsReleased(w, b) && IsReleased(after, b)
    ensures b in w.hub.history
    ensures var claims := OwedOf(after.hub.history, w.hub.waits, b);
      && claims <= CreditOf(w, op, b)
      && CreditOf(w, op, b) * ONE < claims * ONE + |BatchTickets(w.hub.waits, b)| * (ONE - 1) + w.hub.history[b].amount
  {
    hide Transact, Inv, CreditOf, FloorEach, BatchTickets, BatchClaims;
    ReleasedAtCredit(w, op, after, b);
    TicketsAreAll(w, b);
    var rate := after.hub.history[b].withdrawRate;
    ClaimsAreFloors(after.hub.history, w.hub.waits, b);
    TicketsWorth(BatchTickets(w.hub.waits, b), w.hub.history[b].amount, CreditOf(w, op, b), rate);
  }

  lemma ClaimsAreFloors(h: History, waits: Amounts, b: nat)
    requires b in h && h[b].released
    ensures BatchClaims(h, waits, b) == FloorEach(BatchTickets(waits, b), h[b].withdrawRate)
  {
  }

  /** All tickets of a batch together, against its credit. */
  lemma TicketsWorth(tickets: Amounts, n: nat, credit: nat, rate: nat)
    requires Sum(tickets) == n > 0 && rate == Floor(credit * ONE, n)
    ensures Sum(FloorEach(tickets, rate)) <= credit
    ensures credit * ONE < Sum(FloorEach(tickets, rate)) * ONE + |tickets| * (ONE - 1) + n
  {
    SumOfFloors(tickets, rate);
    SumOfFloorsLower(tickets, rate);
    CreditArithmetic(Sum(FloorEach(tickets, rate)), n, n, credit, rate);
    assert (rate + 1) * n == n * rate + n;
  }

  /** Before its release the tickets of a closed batch are its whole amount. */
  lemma TicketsAreAll(w: World, b: nat)
    requires Inv(w) && b in w.hub.history && !w.hub.history[b].released
    ensures BatchTotal(w.hub.waits, b) == w.hub.history[b].amount
  {
    assert ConservedIn(w.hub, b);
  }

  /** Over every run that releases a batch, its payouts and the claims still open come to what
      it was credited at the release, less than one coin per ticket and `amount / 10^18` short
      of it, and never more. */
  lemma {:induction false} PayoutsNearCredit(w: World, ops: seq<Op>, b: nat)
    requires Inv(w) && !IsReleased(w, b) && IsReleased(Run(w, ops), b)
    ensures var (here, op) := Releasing(w, ops, b);
      var come := Paid(w, ops, b) + OwedOf(Run(w, ops).hub.history, Run(w, ops).hub.waits, b);
      && b in here.hub.history
      && come <= CreditOf(here, op, b)
      && CreditOf(here, op, b) * ONE
           < come * ONE + |BatchTickets(here.hub.waits, b)| * (ONE - 1) + here.hub.history[b].amount
    decreases |ops|
  {
    var next := Step(w, ops[0]);
    StepKeepsInv(w, ops[0]);
    if IsReleased(next, b) {
      ReleasingCall(w, ops[0], b);
      ClaimsNearCredit(w, ops[0], next, b);
      WithdrawPaysBatch(w, ops[0], next, b);
      ClaimsConservedOverRuns(next, ops[1..], b);
    } else {
      NotYetPaid(w, ops[0], b);
      PayoutsNearCredit(next, ops[1..], b);
    }
  }

  lemma ReleasingCall(w: World, op: Op, b: nat)
    requires Inv(w) && !IsReleased(w, b) && IsReleased(Step(w, op), b)
    ensures op.Withdraw? && Transact(w, op) == Ok(Step(w, op))
  {
    if !(op.Withdraw? && Transact(w, op).Ok?) {
      NothingElseReleases(w, op, b);
    }
  }

  lemma NotYetPaid(w: World, op: Op, b: nat)
    requires Inv(w) && !IsReleased(w, b) && !IsReleased(Step(w, op), b)
    ensures PaidIn(w, op, b) == 0
  {
    ReleasingStepPays(w, op, b);
  }

  // ----- all batches together -----

  /** What a transaction pays out on the batches below `n`. */
  ghost function PaidBelow(w: World, op: Op, n: nat): nat {
    if n == 0 then 0 else PaidBelow(w, op, n - 1) + PaidIn(w, op, n - 1)
  }

  function UserClaimsBelow(h: History, waits: Amounts, user: string, n: nat): Amounts {
    map t | t in waits && t.user == user && t.batch < n && Payable(h, t) :: Worth(h, waits[t], t)
  }

  lemma {:induction false} PaidBelowIs(w: World, op: Op, n: nat)
    requires op.Withdraw? && Transact(w, op).Ok?
    ensures PaidBelow(w, op, n) == Sum(UserClaimsBelow(Step(w, op).hub.history, w.hub.waits, op.sender, n))
  {
    hide Transact, UserClaimsBelow, UserBatchClaims;
    ClaimsBelow(Step(w, op).hub.history, w.hub.waits, op.sender, n);
    if n > 0 {
      PaidBelowIs(w, op, n - 1);
    }
  }

  lemma ClaimsBelow(h: History, waits: Amounts, user: string, n: nat)
    ensures Sum(UserClaimsBelow(h, waits, user, n))
         == if n == 0 then 0
            else Sum(UserClaimsBelow(h, waits, user, n - 1)) + Sum(UserBatchClaims(h, waits, user, n - 1))
  {
    var all := UserClaimsBelow(h, waits, user, n);
    if n == 0 {
      assert all == map[];
    } else {
      var below, last := UserClaimsBelow(h, waits, user, n - 1), UserBatchClaims(h, waits, user, n - 1);
      assert all == below + last;
      SumSplit(below, last);
    }
  }

  /** The coins a withdrawal sends are what it pays on the batches, one by one. */
  lemma PaidByBatch(w: World, op: Op, n: nat)
    requires Inv(w) && op.Withdraw? && Transact(w, op).Ok? && n >= Step(w, op).hub.batchId
    ensures w.chain.balance - Step(w, op).chain.balance == PaidBelow(w, op, n)
  {
    var after := Step(w, op);
    WithdrawClearsExactly(w, op, after);
    StepKeepsInv(w, op);
    PaidBelowIs(w, op, n);
    hide Transact;
    assert UserClaimsBelow(after.hub.history, w.hub.waits, op.sender, n)
        == UserClaims(after.hub.history, w.hub.waits, op.sender);
  }

  /** What a run pays out on the batches below `n`. */
  ghost function RunPaidBelow(w: World, ops: seq<Op>, n: nat): nat {
    if n == 0 then 0 else RunPaidBelow(w, ops, n - 1) + Paid(w, ops, n - 1)
  }

  lemma {:induction false} RunPaidStep(w: World, ops: seq<Op>, n: nat)
    ensures ops == [] ==> RunPaidBelow(w, ops, n) == 0
    ensures ops != [] ==>
      RunPaidBelow(w, ops, n) == PaidBelow(w, ops[0], n) + RunPaidBelow(Step(w, ops[0]), ops[1..], n)
  {
    if n > 0 {
      hide PaidIn, Step;
      RunPaidStep(w, ops, n - 1);
    }
  }

  /** What the released batches below `n` are worth at their rates. */
  function ReleasedWorth(h: History, n: nat): nat {
    if n == 0 then 0
    else ReleasedWorth(h, n - 1) + if n - 1 in h && h[n - 1].released then Promised(h[n - 1]) else 0
  }

  lemma {:induction false} RunPaidWithin(w: World, ops: seq<Op>, n: nat)
    requires Inv(w) && w.hub.lastProcessed == 0
    ensures RunPaidBelow(w, ops, n) <= ReleasedWorth(Run(w, ops).hub.history, n)
  {
    if n > 0 {
      RunPaidWithin(w, ops, n - 1);
      PayoutsWithinBatch(w, ops, n - 1);
    }
  }
}

/** The epoch clock: how often batches close over whole runs. */
module Epochs {
  import opened Fixed
  import opened HubTypes
  import opened ExchangeRate
  import opened HubSteps
  import opened Ledger
  import opened Books
  import opened Runs
  import opened Requests
  import opened Outcomes

  /** The last closing before batch `i` could be closed: of the batch before, or else the time
      of instantiation. */
  function LastClosing(h: History, start: nat, i: nat): nat {
    if i > 0 && i - 1 in h then h[i - 1].time else start
  }

  /** The clock shows when the last batch was closed, or else the time of instantiation, and
      between one closing and the next, and before the first, more than `epoch` passed. */
  ghost predicate Paced(w: World, start: nat, epoch: nat) {
    PacedStorage(w.hub, start, epoch)
  }

  ghost predicate PacedStorage(s: Storage, start: nat, epoch: nat) {
    && s.lastUnbondedTime == LastClosing(s.history, start, s.batchId)
    && (forall i | i in s.history :: s.history[i].time > LastClosing(s.history, start, i) + epoch)
  }

  /** Every unbond of the run is under an epoch period of at least `epoch`. */
  predicate EpochAtLeast(ops: seq<Op>, epoch: nat) {
    forall i | 0 <= i < |ops| :: ops[i].Unbond? ==> ops[i].p.epochPeriod >= epoch
  }

  lemma InitialPaced(w: World, epoch: nat)
    requires Initial(w)
    ensures Paced(w, w.chain.now, epoch)
  {
    InitialIs(w);
  }

  /** An unbond closes the batch exactly when more than the epoch period has passed on the
      clock; a batch is closed by nothing else. */
  lemma UnbondCloses(w: World, op: Op, after: World)
    requires Inv(w) && op.Unbond? && Transact(w, op) == Ok(after)
    ensures if w.chain.now > w.hub.lastUnbondedTime + op.p.epochPeriod
            then && after.hub.batchId == w.hub.batchId + 1 && after.hub.lastUnbondedTime == w.chain.now
                 && w.hub.batchId in after.hub.history
                 && after.hub.history == w.hub.history[w.hub.batchId := after.hub.history[w.hub.batchId]]
                 && after.hub.history[w.hub.batchId].time == w.chain.now
            else && after.hub.batchId == w.hub.batchId && after.hub.lastUnbondedTime == w.hub.lastUnbondedTime
                 && after.hub.history == w.hub.history
  {
    var r := UnbondStep(w.hub, w.chain, op.p, op.sender, op.amount, op.draw).value;
    hide UnbondStep, Inv, SlashingStep;
    var net := UnbondRecords(w.hub, w.chain, op, r.0, r.1);
  }

  lemma UnbondKeepsPaced(w: World, op: Op, after: World, start: nat, epoch: nat)
    requires Inv(w) && op.Unbond? && op.p.epochPeriod >= epoch && Transact(w, op) == Ok(after)
    requires Paced(w, start, epoch)
    ensures Paced(after, start, epoch)
  {
    hide Transact, Conserved;
    UnbondCloses(w, op, after);
    if w.chain.now > w.hub.lastUnbondedTime + op.p.epochPeriod {
      ClosingPaced(w.hub, after.hub, w.chain.now, start, epoch);
    } else {
      hide Inv;
    }
  }

  lemma BeforeIsKept(h: History, b: nat, e: UnbondHistory, start: nat, i: nat)
    requires i <= b
    ensures LastClosing(h[b := e], start, i) == LastClosing(h, start, i)
  {
  }

  lemma ClosingPaced(s: Storage, after: Storage, now: nat, start: nat, epoch: nat)
    requires forall i | i in s.history :: 1 <= i < s.batchId
    requires PacedStorage(s, start, epoch) && now > s.lastUnbondedTime + epoch
    requires s.batchId in after.history && after.history[s.batchId].time == now
    requires after.history == s.history[s.batchId := after.history[s.batchId]]
    requires after.batchId == s.batchId + 1 && after.lastUnbondedTime == now
    ensures PacedStorage(after, start, epoch)
  {
    var h, g := s.history, after.history;
    forall i | i in g ensures g[i].time > LastClosing(g, start, i) + epoch {
      BeforeIsKept(h, s.batchId, g[s.batchId], start, i);
      assert i != s.batchId ==> h[i].time > LastClosing(h, start, i) + epoch;
    }
  }

  /** Calls that leave clock, batch and the times of closed batches alone. */
  lemma SameTimes(s: Storage, after: Storage, start: nat, epoch: nat)
    requires PacedStorage(s, start, epoch)
    requires after.lastUnbondedTime == s.lastUnbondedTime && after.batchId == s.batchId
    requires after.history.Keys == s.history.Keys && Extends(s.history, after.history)
    ensures PacedStorage(after, start, epoch)
  {
    assert forall i :: i in after.history <==> i in s.history;
    forall i | i in after.history
      ensures after.history[i].time > LastClosing(after.history, start, i) + epoch
    {
      assert s.history[i].time > LastClosing(s.history, start, i) + epoch;
    }
  }

  lemma WithdrawKeepsClock(w: World, op: Op, after: World)
    requires Inv(w) && op.Withdraw? && Transact(w, op) == Ok(after)
    ensures after.hub.lastUnbondedTime == w.hub.lastUnbondedTime && after.hub.batchId == w.hub.batchId
    ensures after.hub.history.Keys == w.hub.history.Keys && Extends(w.hub.history, after.hub.history)
  {
    hide Transact, ReleaseStep, Conserved, Extends;
    var released, paid := WithdrawParts(w, op, after);
    ReleaseKeepsBooks(w.hub, w.chain.now, w.chain.now - op.p.unbondingPeriod, w.chain.balance, released);
  }

  lemma StepKeepsPaced(w: World, op: Op, start: nat, epoch: nat)
    requires Inv(w) && Paced(w, start, epoch) && EpochAtLeast([op], epoch)
    ensures Paced(Step(w, op), start, epoch)
  {
    assert [op][0] == op;
    hide PacedStorage, Inv;
    if Transact(w, op).Ok? {
      var after := Transact(w, op).value;
      if OffBooks(op) {
        OffBooksKeepsInv(w, op, after);
        assert after.hub.history == w.hub.history;
        SameTimes(w.hub, after.hub, start, epoch);
      } else if op.Unbond? {
        UnbondKeepsPaced(w, op, after, start, epoch);
      } else if op.Withdraw? {
        WithdrawKeepsClock(w, op, after);
        SameTimes(w.hub, after.hub, start, epoch);
      } else {
        ChainKeepsInv(w, op, after);
      }
    }
  }

  lemma {:induction false} PacedOverRuns(w: World, ops: seq<Op>, start: nat, epoch: nat)
    requires Inv(w) && Paced(w, start, epoch) && EpochAtLeast(ops, epoch)
    ensures Inv(Run(w, ops)) && Paced(Run(w, ops), start, epoch)
    decreases |ops|
  {
    if ops != [] {
      hide Inv, Paced, Step;
      StepKeepsInv(w, ops[0]);
      StepKeepsPaced(w, ops[0], start, epoch);
      PacedOverRuns(Step(w, ops[0]), ops[1..], start, epoch);
    }
  }

  /** From instantiation on, with an epoch period of at least `epoch` in every unbond: the
      clock shows the last closing, any two closings are more than `epoch` apart, and none
      comes earlier than that after instantiation. */
  lemma OncePerEpoch(w: World, ops: seq<Op>, epoch: nat)
    requires Initial(w) && EpochAtLeast(ops, epoch)
    ensures Paced(Run(w, ops), w.chain.now, epoch)
    ensures Run(w, ops).chain.now <= w.chain.now + epoch ==> Run(w, ops).hub.batchId == 1
  {
    InitialInv(w);
    InitialPaced(w, epoch);
    PacedOverRuns(w, ops, w.chain.now, epoch);
    hide Run, Initial;
    var end := Run(w, ops);
    if end.hub.batchId > 1 {
      assert 1 in end.hub.history && 0 !in end.hub.history;
    }
  }
}

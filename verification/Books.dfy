/** Every transaction keeps the hub's books. */
module Books {
  import opened Fixed
  import opened Sums
  import opened HubTypes
  import opened ExchangeRate
  import opened HubSteps
  import opened Ledger

  /** What holds in every reachable world: history in shape, wait lists conserved, and a
      liquid balance of at least what the hub recorded. */
  ghost predicate Inv(w: World) {
    && DistinctValidators(w.chain.delegations)
    && Shape(w.hub, w.chain.now)
    && Conserved(w.hub)
    && w.hub.actualUnbonded == 0
    && w.hub.prevHubBalance <= w.chain.balance
  }

  /** The books of two storages agree. */
  ghost predicate SameBooks(s: Storage, t: Storage) {
    t == s.(exchangeRate := t.exchangeRate, totalBond := t.totalBond)
  }

  /** Nothing owed changes: in total and batch by batch. */
  ghost predicate SameClaims(s: Storage, t: Storage) {
    && Owed(t.history, t.waits) == Owed(s.history, s.waits)
    && forall b :: OwedOf(t.history, t.waits, b) == OwedOf(s.history, s.waits, b)
  }

  lemma SameBooksConserved(s: Storage, t: Storage)
    requires Conserved(s) && SameBooks(s, t)
    ensures Conserved(t)
    ensures forall now: nat :: Shape(s, now) ==> Shape(t, now)
  {
    forall b ensures ConservedIn(t, b) {
      assert ConservedIn(s, b);
    }
  }

  /** Recording a request keeps the wait lists conserved. */
  lemma RequestConserved(s: Storage, supply: nat, p: Settings, sender: string, amount: nat, after: Storage)
    requires Conserved(s) && RequestStep(s, supply, p, sender, amount) == Ok(after)
    requires s.batchId !in s.history
    ensures Conserved(after)
    ensures SameClaims(s, after)
    ensures SameBooks(s.(requested := after.requested, waits := after.waits), after)
  {
    var ticket, net := Ticket(sender, s.batchId), after.requested - s.requested;
    forall b ensures ConservedIn(after, b) {
      assert ConservedIn(s, b);
      TicketAdds(s.waits, ticket, net, b);
    }
    assert Claims(after.history, after.waits) == Claims(s.history, s.waits);
    forall b ensures OwedOf(after.history, after.waits, b) == OwedOf(s.history, s.waits, b) {
      assert BatchClaims(after.history, after.waits, b) == BatchClaims(s.history, s.waits, b);
    }
  }

  /** Closing the batch moves its tickets under the recorded amount. */
  lemma EpochConserved(s: Storage, c: Chain, draw: nat -> nat, after: Storage, msgs: seq<Msg>)
    requires Conserved(s) && s.batchId !in s.history && s.batchId + 1 !in s.history
    requires EpochStep(s, c, draw) == Ok((after, msgs))
    ensures Conserved(after)
    ensures SameClaims(s, after)
  {
    forall b ensures ConservedIn(after, b) {
      assert ConservedIn(s, b);
    }
    assert Claims(after.history, after.waits) == Claims(s.history, s.waits);
    forall b ensures OwedOf(after.history, after.waits, b) == OwedOf(s.history, s.waits, b) {
      assert BatchClaims(after.history, after.waits, b) == BatchClaims(s.history, s.waits, b);
    }
  }

  lemma EpochShape(s: Storage, c: Chain, draw: nat -> nat, after: Storage, msgs: seq<Msg>)
    requires Shape(s, c.now) && EpochStep(s, c, draw) == Ok((after, msgs))
    requires c.now > s.lastUnbondedTime
    ensures Shape(after, c.now) && Extends(s.history, after.history)
    ensures after.prevHubBalance == s.prevHubBalance && after.actualUnbonded == s.actualUnbonded
  {
    var entry := UnbondHistory(s.batchId, c.now, s.requested, s.exchangeRate, s.exchangeRate, false);
    ClosedShape(s, entry, after, c.now);
  }

  lemma ClosedShape(s: Storage, entry: UnbondHistory, after: Storage, now: nat)
    requires Shape(s, now) && now > s.lastUnbondedTime
    requires entry.batchId == s.batchId && entry.time == now && !entry.released
    requires after.history == s.history[s.batchId := entry]
    requires after.batchId == s.batchId + 1 && after.lastUnbondedTime == now
    requires after.lastProcessed == s.lastProcessed
    ensures Shape(after, now) && Extends(s.history, after.history)
  {
  }

  /** An unbond keeps the books and changes nothing that is owed. */
  lemma UnbondKeepsBooks(s: Storage, c: Chain, op: Op, after: Storage, msgs: seq<Msg>)
    requires Conserved(s) && Shape(s, c.now)
    requires op.Unbond? && UnbondStep(s, c, op.p, op.sender, op.amount, op.draw) == Ok((after, msgs))
    ensures Conserved(after) && Shape(after, c.now) && Extends(s.history, after.history)
    ensures SameClaims(s, after)
    ensures after.prevHubBalance == s.prevHubBalance && after.actualUnbonded == s.actualUnbonded
  {
    var checked := SlashingStep(s, c).value;
    SameBooksConserved(s, checked);
    var asked := RequestStep(checked, c.supply, op.p, op.sender, op.amount).value;
    RequestConserved(checked, c.supply, op.p, op.sender, op.amount, asked);
    if c.now - asked.lastUnbondedTime > op.p.epochPeriod {
      var closed := EpochStep(asked, c, op.draw).value;
      EpochConserved(asked, c, op.draw, closed.0, closed.1);
      EpochShape(asked, c, op.draw, closed.0, closed.1);
    }
  }

  /** Entry by entry, a release marks exactly the unreleased batches that are old enough. */
  lemma ReleaseMarks(s: Storage, now: nat, cutoff: nat, balance: nat, after: Storage, i: nat)
    requires Shape(s, now) && ReleaseStep(s, cutoff, balance) == Ok(after)
    requires i in s.history
    ensures i in after.history
    ensures if Matured(s.history, i, cutoff)
            then after.history[i] == s.history[i].(released := true, withdrawRate := after.history[i].withdrawRate)
            else after.history[i] == s.history[i]
    ensures Matured(s.history, i, cutoff) <==> s.lastProcessed < i <= after.lastProcessed
  {
    var first := s.lastProcessed + 1;
    var end := WindowEnd(s.history, first, cutoff);
    var total := Release.Total(Promises(s.history, first, end));
    WindowIsTheMatured(s, now, cutoff, i);
    ReleaseRewrites(s.history, first, end, total, Arrived(s, balance), after.history);
    if first <= i < end {
      ReleasedEntryIs(s.history[i], total, Arrived(s, balance), after.history[i]);
    }
  }

  /** A release keeps the books, and changes no wait list. */
  lemma ReleaseKeepsBooks(s: Storage, now: nat, cutoff: nat, balance: nat, after: Storage)
    requires Conserved(s) && Shape(s, now) && ReleaseStep(s, cutoff, balance) == Ok(after)
    ensures Conserved(after) && Shape(after, now) && Extends(s.history, after.history)
    ensures after == s.(history := after.history, lastProcessed := after.lastProcessed, actualUnbonded := 0)
    ensures s.lastProcessed <= after.lastProcessed
    ensures after.history.Keys == s.history.Keys
  {
    ReleaseFrame(s, now, cutoff, balance, after);
    hide ReleaseStep, Matured, Conserved, Release.Total;
    forall i | i in s.history
      ensures Marked(s.history[i], after.history[i])
      ensures after.history[i].released <==> i <= after.lastProcessed
    {
      MarksFacts(s, now, cutoff, balance, after, i);
    }
    MarkedConserved(s, after);
    MarkedShape(s, now, after);
  }

  /** A closed batch is left alone, or released with a new rate. */
  predicate Marked(e: UnbondHistory, after: UnbondHistory) {
    || after == e
    || (!e.released && after == e.(released := true, withdrawRate := after.withdrawRate))
  }

  lemma ReleaseFrame(s: Storage, now: nat, cutoff: nat, balance: nat, after: Storage)
    requires Shape(s, now) && ReleaseStep(s, cutoff, balance) == Ok(after)
    ensures after == s.(history := after.history, lastProcessed := after.lastProcessed, actualUnbonded := 0)
    ensures s.lastProcessed <= after.lastProcessed < s.batchId
    ensures after.history.Keys == s.history.Keys
  {
    var first := s.lastProcessed + 1;
    var end := WindowEnd(s.history, first, cutoff);
    var total := Release.Total(Promises(s.history, first, end));
    ReleaseRewrites(s.history, first, end, total, Arrived(s, balance), after.history);
    WindowIsTheMatured(s, now, cutoff, 0);
  }

  lemma MarkedShape(s: Storage, now: nat, after: Storage)
    requires Shape(s, now)
    requires after == s.(history := after.history, lastProcessed := after.lastProcessed, actualUnbonded := 0)
    requires s.lastProcessed <= after.lastProcessed < s.batchId
    requires after.history.Keys == s.history.Keys
    requires forall i | i in s.history ::
      Marked(s.history[i], after.history[i]) && (after.history[i].released <==> i <= after.lastProcessed)
    ensures Shape(after, now) && Extends(s.history, after.history)
  {
    assert forall i :: i in after.history <==> i in s.history;
  }

  lemma MarksFacts(s: Storage, now: nat, cutoff: nat, balance: nat, after: Storage, i: nat)
    requires Shape(s, now) && ReleaseStep(s, cutoff, balance) == Ok(after)
    requires i in s.history
    ensures i in after.history
    ensures Marked(s.history[i], after.history[i])
    ensures after.history[i].released <==> i <= after.lastProcessed
  {
    ReleaseMarks(s, now, cutoff, balance, after, i);
  }

  lemma MarkedConserved(s: Storage, after: Storage)
    requires Conserved(s)
    requires after == s.(history := after.history, lastProcessed := after.lastProcessed, actualUnbonded := 0)
    requires after.history.Keys == s.history.Keys
    requires forall i | i in s.history :: Marked(s.history[i], after.history[i])
    ensures Conserved(after)
  {
    forall b ensures ConservedIn(after, b) {
      assert ConservedIn(s, b);
      assert b in after.history <==> b in s.history;
    }
  }

  lemma SettlingConserved(s: Storage, user: string, balance: nat)
    requires Conserved(s) && s.batchId !in s.history
    ensures Conserved(s.(waits := Settled(s.history, s.waits, user), prevHubBalance := balance))
  {
    var after := s.(waits := Settled(s.history, s.waits, user), prevHubBalance := balance);
    forall b ensures ConservedIn(after, b) {
      assert ConservedIn(s, b);
      SettledTotals(s.history, s.waits, user, b);
    }
  }
}

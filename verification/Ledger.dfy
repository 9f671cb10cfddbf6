/** The invariants of the hub's books: wait lists, unbond history and liquid balance. */
module Ledger {
  import opened Fixed
  import opened Sums
  import opened HubTypes
  import opened HubSteps
  import Release

  // ----- unbond history -----

  /** Closed batches are exactly the ids below the current one, with strictly increasing
      times, and the released ones are exactly those up to the last processed batch. */
  ghost predicate Shape(s: Storage, now: nat) {
    && s.lastProcessed < s.batchId
    && (forall i :: i in s.history <==> 1 <= i < s.batchId)
    && (forall i | i in s.history ::
          && s.history[i].batchId == i
          && s.history[i].time <= s.lastUnbondedTime
          && (s.history[i].released <==> i <= s.lastProcessed))
    && (forall i, j | i in s.history && j in s.history && i < j ::
          s.history[i].time < s.history[j].time)
    && s.lastUnbondedTime <= now
  }

  /** Nothing recorded about a closed batch ever changes, except that an unreleased batch
      may be released with a new withdraw rate. */
  ghost predicate Extends(h: History, after: History) {
    forall i | i in h ::
      && i in after
      && (h[i].released ==> after[i] == h[i])
      && after[i] == h[i].(withdrawRate := after[i].withdrawRate, released := after[i].released)
      && (!after[i].released ==> after[i] == h[i])
  }

  /** With the books in shape, the window of a release is exactly the set of unreleased
      batches that are old enough. */
  lemma WindowIsTheMatured(s: Storage, now: nat, cutoff: nat, i: nat)
    requires Shape(s, now)
    ensures s.lastProcessed < WindowEnd(s.history, s.lastProcessed + 1, cutoff) <= s.batchId
    ensures s.lastProcessed + 1 <= i < WindowEnd(s.history, s.lastProcessed + 1, cutoff)
       <==> i in s.history && !s.history[i].released && s.history[i].time <= cutoff
  {
    var end := WindowEnd(s.history, s.lastProcessed + 1, cutoff);
    if end - 1 > s.lastProcessed {
      assert end - 1 in s.history;
    }
    if i in s.history && i > end {
      assert end in s.history;
    }
  }

  lemma {:induction false} PromisesFrame(h: History, b: nat, e: UnbondHistory, lo: nat, hi: nat)
    requires b < lo
    requires forall k | lo <= k < hi :: k in h
    ensures Promises(h[b := e], lo, hi) == Promises(h, lo, hi)
    decreases hi - lo
  {
    if lo < hi {
      PromisesFrame(h, b, e, lo + 1, hi);
    }
  }

  /** A release rewrites exactly the batches of its window, each to its released entry. */
  lemma {:induction false} ReleaseRewrites(h: History, lo: nat, hi: nat, total: nat, arrived: nat, after: History)
    requires forall k | lo <= k < hi :: k in h
    requires ReleaseBatches(h, lo, hi, total, arrived) == Ok(after)
    ensures after.Keys == h.Keys
    ensures forall k | k in h && !(lo <= k < hi) :: after[k] == h[k]
    ensures forall k | lo <= k < hi :: ReleasedEntry(h[k], total, arrived) == Ok(after[k])
    decreases hi - lo
  {
    if lo < hi {
      hide ReleasedEntry;
      var entry := ReleasedEntry(h[lo], total, arrived).value;
      var next := h[lo := entry];
      ReleaseRewrites(next, lo + 1, hi, total, arrived, after);
      assert after[lo] == next[lo];
      forall k | lo < k < hi ensures ReleasedEntry(h[k], total, arrived) == Ok(after[k]) {
        assert next[k] == h[k];
      }
    }
  }

  /** What one released entry records: the batch's credit, spread over its tokens. */
  lemma ReleasedEntryIs(e: UnbondHistory, total: nat, arrived: nat, after: UnbondHistory)
    requires ReleasedEntry(e, total, arrived) == Ok(after)
    ensures total > 0 && e.amount > 0
    ensures Release.Credit(Promised(e), total, arrived) >= 0
    ensures after == e.(released := true,
              withdrawRate := Floor(Release.Credit(Promised(e), total, arrived) * ONE, e.amount))
    ensures arrived > total ==> Release.Share(Promised(e), total, arrived - total) > 0
  {
  }

  // ----- wait lists -----

  function BatchTickets(waits: Amounts, b: nat): Amounts {
    map t | t in waits && t.batch == b :: waits[t]
  }

  /** All that users wait for in batch `b`. */
  ghost function BatchTotal(waits: Amounts, b: nat): nat {
    Sum(BatchTickets(waits, b))
  }

  /** Wait-list conservation: the tickets of a batch sum to what is requested in the current
      batch, to the recorded amount of a closed batch until it is released and to at most
      that afterwards, and there are none for any other id. */
  ghost predicate Conserved(s: Storage) {
    forall b :: ConservedIn(s, b)
  }

  ghost predicate ConservedIn(s: Storage, b: nat) {
    var waiting := BatchTotal(s.waits, b);
    if b == s.batchId then waiting == s.requested
    else if b !in s.history then waiting == 0
    else if s.history[b].released then waiting <= s.history[b].amount
    else waiting == s.history[b].amount
  }

  /** A new request adds to its own batch only. */
  lemma TicketAdds(waits: Amounts, ticket: Ticket, amount: nat, b: nat)
    ensures var was := if ticket in waits then waits[ticket] else 0;
      BatchTotal(waits[ticket := was + amount], b)
        == BatchTotal(waits, b) + if b == ticket.batch then amount else 0
  {
    var was := if ticket in waits then waits[ticket] else 0;
    var after := waits[ticket := was + amount];
    if b == ticket.batch {
      assert BatchTickets(after, b) == BatchTickets(waits, b)[ticket := was + amount];
      SumUpdate(BatchTickets(waits, b), ticket, was + amount);
    } else {
      assert BatchTickets(after, b) == BatchTickets(waits, b);
    }
  }

  /** Settling a user takes tickets out of released batches only. */
  lemma SettledTotals(h: History, waits: Amounts, user: string, b: nat)
    ensures BatchTotal(Settled(h, waits, user), b) <= BatchTotal(waits, b)
    ensures (b in h && h[b].released) || BatchTotal(Settled(h, waits, user), b) == BatchTotal(waits, b)
  {
    var after := Settled(h, waits, user);
    SumMono(BatchTickets(after, b), BatchTickets(waits, b));
    if !(b in h && h[b].released) {
      assert BatchTickets(after, b) == BatchTickets(waits, b);
    }
  }

  // ----- what is owed -----

  /** All payable tickets at their worth. */
  function Claims(h: History, waits: Amounts): Amounts {
    map t | t in waits && Payable(h, t) :: Worth(h, waits[t], t)
  }

  /** Outstanding claims of all users on all released batches. */
  ghost function Owed(h: History, waits: Amounts): nat {
    Sum(Claims(h, waits))
  }

  function BatchClaims(h: History, waits: Amounts, b: nat): Amounts {
    map t | t in waits && t.batch == b && Payable(h, t) :: Worth(h, waits[t], t)
  }

  /** Outstanding claims on batch `b`. */
  ghost function OwedOf(h: History, waits: Amounts, b: nat): nat {
    Sum(BatchClaims(h, waits, b))
  }

  /** What a user holds of batch `b`. */
  function UserBatchClaims(h: History, waits: Amounts, user: string, b: nat): Amounts {
    map t | t in waits && t.user == user && t.batch == b && Payable(h, t) :: Worth(h, waits[t], t)
  }

  /** Paying a user everything settles exactly that much of the total... */
  lemma SettlingPays(h: History, waits: Amounts, user: string)
    ensures Owed(h, Settled(h, waits, user)) + Sum(UserClaims(h, waits, user)) == Owed(h, waits)
  {
    var left, paid := Claims(h, Settled(h, waits, user)), UserClaims(h, waits, user);
    assert left + paid == Claims(h, waits);
    SumSplit(left, paid);
  }

  /** ... and of every batch. */
  lemma SettlingPaysBatch(h: History, waits: Amounts, user: string, b: nat)
    ensures OwedOf(h, Settled(h, waits, user), b) + Sum(UserBatchClaims(h, waits, user, b))
         == OwedOf(h, waits, b)
  {
    var left, paid := BatchClaims(h, Settled(h, waits, user), b), UserBatchClaims(h, waits, user, b);
    assert left + paid == BatchClaims(h, waits, b);
    SumSplit(left, paid);
  }

  /** Releasing one batch adds its tickets, floored one by one, to what is owed. */
  lemma ReleasingAdds(h: History, waits: Amounts, b: nat, e: UnbondHistory)
    requires b in h && !h[b].released && e.released
    ensures Owed(h[b := e], waits)
         == Owed(h, waits) + Sum(FloorEach(BatchTickets(waits, b), e.withdrawRate))
  {
    var old', new' := Claims(h, waits), FloorEach(BatchTickets(waits, b), e.withdrawRate);
    assert Claims(h[b := e], waits) == old' + new';
    SumSplit(old', new');
  }

  /** The tickets of a batch are worth at most its credit. */
  lemma WorthAtMostCredit(waits: Amounts, b: nat, amount: nat, credit: nat, rate: nat)
    requires BatchTotal(waits, b) <= amount && amount > 0
    requires rate == Floor(credit * ONE, amount)
    ensures Sum(FloorEach(BatchTickets(waits, b), rate)) <= credit
  {
    SumOfFloors(BatchTickets(waits, b), rate);
    CreditArithmetic(Sum(FloorEach(BatchTickets(waits, b), rate)), BatchTotal(waits, b), amount, credit, rate);
  }

  lemma CreditArithmetic(paid: nat, waiting: nat, amount: nat, credit: nat, rate: nat)
    requires paid * ONE <= waiting * rate && waiting <= amount
    requires rate * amount <= credit * ONE
    ensures paid <= credit
  {
    MulMono(waiting, amount, rate);
  }

  lemma ReleasingOne(h: History, waits: Amounts, b: nat, total: nat, arrived: nat, e: UnbondHistory)
    requires b in h && !h[b].released && BatchTotal(waits, b) <= h[b].amount
    requires ReleasedEntry(h[b], total, arrived) == Ok(e)
    ensures total > 0
    ensures Owed(h[b := e], waits) <= Owed(h, waits) + Release.Credit(Promised(h[b]), total, arrived)
    ensures OwedOf(h[b := e], waits, b) <= Release.Credit(Promised(h[b]), total, arrived)
  {
    ReleasedEntryIs(h[b], total, arrived, e);
    var credit := Release.Credit(Promised(h[b]), total, arrived);
    WorthAtMostCredit(waits, b, h[b].amount, credit, e.withdrawRate);
    ReleasingAdds(h, waits, b, e);
    assert BatchClaims(h[b := e], waits, b) == FloorEach(BatchTickets(waits, b), e.withdrawRate);
  }

  /** A release one batch at a time. */
  lemma ReleaseFirst(h: History, lo: nat, hi: nat, total: nat, arrived: nat, after: History)
      returns (e: UnbondHistory)
    requires lo < hi && total > 0
    requires forall k | lo <= k < hi :: k in h
    requires ReleaseBatches(h, lo, hi, total, arrived) == Ok(after)
    ensures ReleasedEntry(h[lo], total, arrived) == Ok(e)
    ensures ReleaseBatches(h[lo := e], lo + 1, hi, total, arrived) == Ok(after)
    ensures Release.Credits(Promises(h, lo, hi), total, arrived)
         == Release.Credit(Promised(h[lo]), total, arrived)
            + Release.Credits(Promises(h[lo := e], lo + 1, hi), total, arrived)
  {
    e := ReleasedEntry(h[lo], total, arrived).value;
    PromisesFrame(h, lo, e, lo + 1, hi);
    assert Promises(h, lo, hi)[1..] == Promises(h, lo + 1, hi);
  }

  /** A whole release adds at most its credits to what is owed. */
  lemma {:induction false} ReleaseAddsAtMostCredits(
      h: History, waits: Amounts, lo: nat, hi: nat, total: nat, arrived: nat, after: History)
    requires lo <= hi && total > 0
    requires forall k | lo <= k < hi :: k in h && !h[k].released && BatchTotal(waits, k) <= h[k].amount
    requires ReleaseBatches(h, lo, hi, total, arrived) == Ok(after)
    ensures Owed(after, waits) <= Owed(h, waits) + Release.Credits(Promises(h, lo, hi), total, arrived)
    decreases hi - lo
  {
    if lo < hi {
      hide ReleaseBatches, Promises, ReleasedEntry, Promised, Owed, BatchTotal, Release.Credit, Release.Credits;
      var e := ReleaseFirst(h, lo, hi, total, arrived, after);
      ReleasingOne(h, waits, lo, total, arrived, e);
      ReleaseAddsAtMostCredits(h[lo := e], waits, lo + 1, hi, total, arrived, after);
    }
  }
}

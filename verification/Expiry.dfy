/** What one expired hold takes from its agent, and what all of them take together. */
module Expiry {
  import opened Basics
  import opened Consent
  import opened Database
  import opened Sums
  import opened Accounting

  /** A pending hold of the envelope that has timed out. */
  predicate Overdue(h: Hold, envelope: Id, timeoutSecs: int, now: nat) {
    h.status.Pending? && h.envelope == envelope && HasTimedOut(h, timeoutSecs, now)
  }

  /** What an overdue hold of the agent has reserved. */
  function OverdueReserve(envelope: Id, timeoutSecs: int, now: nat, agent: Id): (w: Hold -> nat) {
    (h: Hold) => if Overdue(h, envelope, timeoutSecs, now) && h.agent == agent then h.reserved else 0
  }

  /** The commitment that an overdue hold of the agent will cost: a fifth of its reserve, rounded up. */
  function OverdueFee(envelope: Id, timeoutSecs: int, now: nat, agent: Id): (w: Hold -> nat) {
    (h: Hold) => if Overdue(h, envelope, timeoutSecs, now) && h.agent == agent then CommitmentCost(h.reserved) else 0
  }

  /** Between `p` and `q`, the agent's row has paid for what is no longer overdue. */
  ghost predicate PaidFor(p: Db, q: Db, envelope: Id, timeoutSecs: int, now: nat, agent: Id) {
    && ReservedOf(q.ledger, agent) - MapSum(q.holds, OverdueReserve(envelope, timeoutSecs, now, agent))
       == ReservedOf(p.ledger, agent) - MapSum(p.holds, OverdueReserve(envelope, timeoutSecs, now, agent))
    && BalanceOf(q.ledger, agent) - MapSum(q.holds, OverdueFee(envelope, timeoutSecs, now, agent))
       == BalanceOf(p.ledger, agent) - MapSum(p.holds, OverdueFee(envelope, timeoutSecs, now, agent))
  }

  /** The holds of `q` are those of `p`, with the listed overdue ones timed out. */
  ghost predicate TimedOutOf(p: map<Id, Hold>, q: map<Id, Hold>, ids: set<Id>, envelope: Id, timeoutSecs: int,
                             now: nat) {
    && q.Keys == p.Keys
    && forall h | h in p ::
         q[h] == if h in ids && Overdue(p[h], envelope, timeoutSecs, now) then p[h].(status := TimedOut) else p[h]
  }

  /** Timing one hold out pays for exactly that hold. */
  lemma TimeoutPays(p: Db, hold: Id, envelope: Id, timeoutSecs: int, now: nat, agent: Id)
    requires TxTimeout(p, hold, now).Ok? && Overdue(p.holds[hold], envelope, timeoutSecs, now)
    ensures PaidFor(p, TxTimeout(p, hold, now).value, envelope, timeoutSecs, now, agent)
  {
    hide MapSum, Settle, AppendEvent;
    var q := TxTimeout(p, hold, now).value;
    var h := p.holds[hold];
    assert q.holds == p.holds[hold := h.(status := TimedOut)];
    SumReplace(p.holds, hold, h.(status := TimedOut), OverdueReserve(envelope, timeoutSecs, now, agent));
    SumReplace(p.holds, hold, h.(status := TimedOut), OverdueFee(envelope, timeoutSecs, now, agent));
    if h.reserved > 0 {
      SettleRow(p.ledger, h.agent, h.reserved, CommitmentCost(h.reserved), agent);
    }
  }

  lemma PaidForBoth(p: Db, q: Db, r: Db, envelope: Id, timeoutSecs: int, now: nat, agent: Id)
    requires PaidFor(p, q, envelope, timeoutSecs, now, agent) && PaidFor(q, r, envelope, timeoutSecs, now, agent)
    ensures PaidFor(p, r, envelope, timeoutSecs, now, agent)
  {
  }

  /** Once nothing is overdue, the agent has paid for everything that was. */
  lemma AllPaid(p: Db, q: Db, envelope: Id, timeoutSecs: int, now: nat, agent: Id)
    requires PaidFor(p, q, envelope, timeoutSecs, now, agent)
    requires forall h | h in q.holds :: !Overdue(q.holds[h], envelope, timeoutSecs, now)
    ensures ReservedOf(q.ledger, agent)
         == ReservedOf(p.ledger, agent) - MapSum(p.holds, OverdueReserve(envelope, timeoutSecs, now, agent))
    ensures BalanceOf(q.ledger, agent)
         == BalanceOf(p.ledger, agent) - MapSum(p.holds, OverdueFee(envelope, timeoutSecs, now, agent))
  {
    SumZero(q.holds, OverdueReserve(envelope, timeoutSecs, now, agent));
    SumZero(q.holds, OverdueFee(envelope, timeoutSecs, now, agent));
  }

  // ----- the loop over the listed holds -----------------------------------------------------

  function Ids(list: seq<Id>): (ids: set<Id>) {
    set h | h in list
  }

  /** One iteration: the listed hold is timed out if it is overdue, and only it. */
  lemma NextTimedOut(first: map<Id, Hold>, p: map<Id, Hold>, q: map<Id, Hold>, list: seq<Id>, i: nat,
                     envelope: Id, timeoutSecs: int, now: nat)
    requires IsPendingList(first, envelope, list) && i < |list|
    requires TimedOutOf(first, p, Ids(list[..i]), envelope, timeoutSecs, now)
    requires list[i] in p
    requires q == if Overdue(p[list[i]], envelope, timeoutSecs, now)
               then p[list[i] := p[list[i]].(status := TimedOut)] else p
    ensures TimedOutOf(first, q, Ids(list[..i + 1]), envelope, timeoutSecs, now)
  {
    StillPending(first, p, list, i, envelope, timeoutSecs, now);
    assert list[..i + 1] == list[..i] + [list[i]];
    assert Ids(list[..i + 1]) == Ids(list[..i]) + {list[i]};
  }

  /** A listed hold is still pending when its turn comes. */
  lemma StillPending(first: map<Id, Hold>, p: map<Id, Hold>, list: seq<Id>, i: nat, envelope: Id,
                     timeoutSecs: int, now: nat)
    requires IsPendingList(first, envelope, list) && i < |list|
    requires TimedOutOf(first, p, Ids(list[..i]), envelope, timeoutSecs, now)
    ensures list[i] in p && p[list[i]] == first[list[i]] && p[list[i]].status.Pending?
    ensures p[list[i]].envelope == envelope
  {
    assert list[i] in list;
    assert forall j | 0 <= j < i :: list[..i][j] == list[j];
  }

  /** After the last iteration nothing of the envelope is overdue, and everything that was is timed out. */
  lemma EndOfExpiry(first: map<Id, Hold>, q: map<Id, Hold>, list: seq<Id>, envelope: Id, timeoutSecs: int, now: nat)
    requires IsPendingList(first, envelope, list)
    requires TimedOutOf(first, q, Ids(list), envelope, timeoutSecs, now)
    ensures TimedOutOf(first, q, first.Keys, envelope, timeoutSecs, now)
    ensures forall h | h in q :: !Overdue(q[h], envelope, timeoutSecs, now)
  {
  }

  /** After `i` iterations: the listed overdue holds are timed out and paid for, and no actor or envelope changed. */
  ghost predicate Progress(first: Db, q: Db, list: seq<Id>, i: nat, envelope: Id, timeoutSecs: int, now: nat)
    requires i <= |list|
  {
    && TimedOutOf(first.holds, q.holds, Ids(list[..i]), envelope, timeoutSecs, now)
    && (forall a :: PaidFor(first, q, envelope, timeoutSecs, now, a))
    && q.actors == first.actors && q.envelopes == first.envelopes
  }

  lemma ProgressStarts(p: Db, list: seq<Id>, envelope: Id, timeoutSecs: int, now: nat)
    ensures Progress(p, p, list, 0, envelope, timeoutSecs, now)
  {
  }

  lemma ProgressGoesOn(first: Db, p: Db, q: Db, list: seq<Id>, i: nat, envelope: Id, timeoutSecs: int, now: nat)
    requires IsPendingList(first.holds, envelope, list) && i < |list| && list[i] in p.holds
    requires Progress(first, p, list, i, envelope, timeoutSecs, now)
    requires if HasTimedOut(p.holds[list[i]], timeoutSecs, now) then TxTimeout(p, list[i], now) == Ok(q) else q == p
    ensures Progress(first, q, list, i + 1, envelope, timeoutSecs, now)
  {
    hide PaidFor, Settle, AppendEvent, TimedOutOf, HasTimedOut, IsPendingList, Ids;
    StillPending(first.holds, p.holds, list, i, envelope, timeoutSecs, now);
    NextTimedOut(first.holds, p.holds, q.holds, list, i, envelope, timeoutSecs, now);
    if Overdue(p.holds[list[i]], envelope, timeoutSecs, now) {
      forall a
        ensures PaidFor(first, q, envelope, timeoutSecs, now, a)
      {
        TimeoutPays(p, list[i], envelope, timeoutSecs, now, a);
        PaidForBoth(first, p, q, envelope, timeoutSecs, now, a);
      }
    }
  }

  /** What the loop has achieved at its end. */
  ghost predicate Expired(p: Db, q: Db, envelope: Id, timeoutSecs: int, now: nat) {
    && TimedOutOf(p.holds, q.holds, p.holds.Keys, envelope, timeoutSecs, now)
    && (forall h | h in q.holds :: !Overdue(q.holds[h], envelope, timeoutSecs, now))
    && (forall a :: ReservedOf(q.ledger, a)
                 == ReservedOf(p.ledger, a) - MapSum(p.holds, OverdueReserve(envelope, timeoutSecs, now, a)))
    && (forall a :: BalanceOf(q.ledger, a)
                 == BalanceOf(p.ledger, a) - MapSum(p.holds, OverdueFee(envelope, timeoutSecs, now, a)))
    && q.actors == p.actors && q.envelopes == p.envelopes
  }

  lemma ProgressEnds(p: Db, q: Db, list: seq<Id>, envelope: Id, timeoutSecs: int, now: nat)
    requires IsPendingList(p.holds, envelope, list) && Progress(p, q, list, |list|, envelope, timeoutSecs, now)
    ensures Expired(p, q, envelope, timeoutSecs, now)
  {
    hide PaidFor, IsPendingList, TimedOutOf, Overdue;
    assert list[..|list|] == list;
    EndOfExpiry(p.holds, q.holds, list, envelope, timeoutSecs, now);
    forall a
      ensures ReservedOf(q.ledger, a) == ReservedOf(p.ledger, a)
               - MapSum(p.holds, OverdueReserve(envelope, timeoutSecs, now, a))
      ensures BalanceOf(q.ledger, a) == BalanceOf(p.ledger, a)
               - MapSum(p.holds, OverdueFee(envelope, timeoutSecs, now, a))
    {
      AllPaid(p, q, envelope, timeoutSecs, now, a);
    }
  }
}

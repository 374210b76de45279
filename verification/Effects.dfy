/** What each transaction writes, in every reachable state in which it commits. */
module Effects {
  import opened Basics
  import opened Consent
  import opened Database
  import opened Kernel
  import opened Tasks
  import opened Accounting
  import opened HoldLog
  import opened Provenance
  import opened Lineage
  import opened AuditTrail
  import opened Delegation
  import opened Charges
  import opened Theorems
  import opened Stranding

  /** A hold request: the quote is reserved, and the event and the pending hold record it. */
  lemma TriggerEffect(c: Config, s: State, hold: Id, envelope: Id, a: Action)
    requires Reachable(c, s) && !CannotReserve(s.db, a) && hold !in s.db.holds
    ensures TxTrigger(s.db, hold, envelope, a, s.now).Ok?
    ensures var q, cost, row := TxTrigger(s.db, hold, envelope, a, s.now).value, QuoteCost(a), s.db.ledger[a.actor];
            q == s.db.(
              ledger := s.db.ledger[a.actor := Account(row.balance, row.reserved + cost)],
              holds := s.db.holds[hold := Hold(envelope, a.actor, a, cost, Pending, s.now)],
              events := s.db.events
                + [Event(a.actor, HOLD_PREFIX + hold, cost, 0, s.now, HoldRequested(hold, a.kind, a.target))],
              rows := q.rows)
  {
    hide Run, AppendEvent, QuoteCost;
    TriggerSucceeds(c, s, hold, envelope, a);
    var cost, row := QuoteCost(a), s.db.ledger[a.actor];
    assert row.(reserved := row.reserved + cost) == Account(row.balance, row.reserved + cost);
  }

  /** What resolving a hold costs its agent: nothing on approve, else a fifth rounded up. */
  function Fee(h: Hold, approve: bool): (fee: nat) {
    if approve then 0 else CommitmentCost(h.reserved)
  }

  /** The ledger after a hold was resolved: an approval leaves the reservation for the re-submission. */
  function LedgerAfter(db: Db, h: Hold, approve: bool): (ledger: Ledger)
    requires h.agent in db.ledger
  {
    if approve then db.ledger
    else
      var row := db.ledger[h.agent];
      db.ledger[h.agent := Account(row.balance - Fee(h, false), row.reserved - h.reserved)]
  }

  lemma HoldFacts(c: Config, s: State, hold: Id)
    requires Reachable(c, s) && Open(s.db, hold)
    ensures var h := s.db.holds[hold];
            && h.reserved > 0 && h.agent in s.db.ledger && h.action.actor == h.agent
            && Settle(s.db.ledger, h.agent, h.reserved, CommitmentCost(h.reserved)) == Ok(LedgerAfter(s.db, h, false))
  {
    hide Run, LogOk, EventsOk, LineageOk, BudgetsOk, ChargesOk, TrailOk, TaskOk;
    ReachableInv(c, s);
    assert HoldOk(s.db, s.db.holds[hold]);
    HoldSettles(s, hold);
  }

  /** A human's answer to an open hold. */
  lemma AnswerEffect(c: Config, s: State, hold: Id, approve: bool, human: Id)
    requires Reachable(c, s) && Open(s.db, hold)
    ensures s.db.holds[hold].agent in s.db.ledger
    ensures TxRespond(s.db, hold, approve, human, s.now).Ok?
    ensures var q, h := TxRespond(s.db, hold, approve, human, s.now).value, s.db.holds[hold];
            q == s.db.(
              ledger := LedgerAfter(s.db, h, approve),
              holds := s.db.holds[hold := h.(status := if approve then Approved else Rejected)],
              events := s.db.events
                + [Event(human, HOLD_PREFIX + hold, h.reserved, Fee(h, approve), s.now,
                           HoldResponded(hold, h.agent, approve))],
              rows := q.rows)
  {
    hide Run, AppendEvent, Settle, CommitmentCost;
    PendingHoldsResolve(c, s, hold, approve, human, s.now);
    HoldFacts(c, s, hold);
  }

  /** An open hold timed out. */
  lemma TimeoutEffect(c: Config, s: State, hold: Id)
    requires Reachable(c, s) && Open(s.db, hold)
    ensures s.db.holds[hold].agent in s.db.ledger
    ensures TxTimeout(s.db, hold, s.now).Ok?
    ensures var q, h := TxTimeout(s.db, hold, s.now).value, s.db.holds[hold];
            q == s.db.(
              ledger := LedgerAfter(s.db, h, false),
              holds := s.db.holds[hold := h.(status := TimedOut)],
              events := s.db.events
                + [Event(h.agent, HOLD_PREFIX + hold, h.reserved, Fee(h, false), s.now, HoldTimedOut(hold))],
              rows := q.rows)
  {
    hide Run, AppendEvent, Settle, CommitmentCost;
    PendingHoldsResolve(c, s, hold, false, ROOT, s.now);
    HoldFacts(c, s, hold);
  }

  /** The ledger after a commit: the reservation is spent, and a new actor gets its grant. */
  function CommitLedger(ledger: Ledger, actor: Id, cost: nat, spec: Spec): (r: Ledger)
    requires actor in ledger
  {
    var row := ledger[actor];
    var settled := ledger[actor := Account(row.balance - cost, row.reserved - cost)];
    if spec.NewActor? then settled[spec.request.id := Account(spec.request.balance, 0)] else settled
  }

  function CommitActors(actors: map<Id, Actor>, creator: Id, spec: Spec): (r: map<Id, Actor>) {
    if spec.NewActor? then actors[spec.request.id := NewActorRow(creator, spec.request)] else actors
  }

  function CommitEnvelopes(db: Db, grantor: Id, spec: Spec, now: nat): (r: map<Id, Envelope>) {
    if spec.NewEnvelope?
    then db.envelopes[spec.id := NewEnvelopeRow(grantor, spec.terms, spec.parent, now, |db.events|)]
    else db.envelopes
  }

  /** A commit without a clash: settle, new rows and event. */
  lemma CommitEffect(c: Config, s: State, tid: nat)
    requires Reachable(c, s) && tid in s.tasks && s.tasks[tid].pc.Reserved? && !Clashes(s.db, s.tasks[tid].pc.spec)
    ensures s.tasks[tid].action.actor in s.db.ledger
    ensures var t := s.tasks[tid];
            TxFinalize(s.db, t.action, t.pc.cost, t.pc.spec, t.pc.checked, t.via, s.now).Ok?
    ensures var t, a := s.tasks[tid], s.tasks[tid].action;
            var q := TxFinalize(s.db, a, t.pc.cost, t.pc.spec, t.pc.checked, t.via, s.now).value;
            q == s.db.(
              ledger := CommitLedger(s.db.ledger, a.actor, t.pc.cost, t.pc.spec),
              actors := CommitActors(s.db.actors, a.actor, t.pc.spec),
              envelopes := CommitEnvelopes(s.db, a.actor, t.pc.spec, s.now),
              events := s.db.events
                + [Event(a.actor, a.target, t.pc.cost, t.pc.cost, s.now, Acted(a.kind, t.pc.checked, t.via))],
              rows := q.rows)
  {
    hide Run, TasksOk, AccountsOk, LogOk, EventsOk, LineageOk, BudgetsOk, ChargesOk, TrailOk, AppendEvent,
         NewActorRow, NewEnvelopeRow;
    CommitFailsOnlyOnClash(c, s, tid);
    ReachableInv(c, s);
    ClaimsExactly(c, s, tid);
    TaskSettles(c, s, tid);
  }
}

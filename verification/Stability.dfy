/** What no step ever takes back: the two-state relation between any state and a later one. */
module Stability {
  import opened Basics
  import opened Consent
  import opened Database
  import opened Kernel

  /** Actor type, creator, lineage and boundary are immutable. */
  predicate SameActor(x: Actor, y: Actor) {
    x.kind == y.kind && x.creator == y.creator && x.lineage == y.lineage && x.writable == y.writable
  }

  /** An envelope's terms are immutable, its consumption only grows, it is never reactivated. */
  predicate SameEnvelope(x: Envelope, y: Envelope) {
    && y == x.(consumed := y.consumed, status := y.status)
    && x.consumed <= y.consumed
    && (y.status.EnvActive? ==> x.status.EnvActive?)
  }

  /** A hold keeps everything but its status, and leaves Pending at most once. */
  predicate SameHold(x: Hold, y: Hold) {
    && y == x.(status := y.status)
    && (!x.status.Pending? ==> y.status == x.status)
  }

  ghost predicate ActorsGrow(p: map<Id, Actor>, q: map<Id, Actor>) {
    forall a | a in p :: a in q && SameActor(p[a], q[a])
  }

  ghost predicate EnvelopesGrow(p: map<Id, Envelope>, q: map<Id, Envelope>) {
    forall e | e in p :: e in q && SameEnvelope(p[e], q[e])
  }

  ghost predicate HoldsGrow(p: map<Id, Hold>, q: map<Id, Hold>) {
    forall h | h in p :: h in q && SameHold(p[h], q[h])
  }

  /** The log is append only, and no row loses what it fixed. */
  ghost predicate Grows(p: Db, q: Db) {
    && ActorsGrow(p.actors, q.actors)
    && EnvelopesGrow(p.envelopes, q.envelopes)
    && HoldsGrow(p.holds, q.holds)
    && p.events <= q.events
  }

  lemma GrowsTransitive(p: Db, q: Db, r: Db)
    requires Grows(p, q) && Grows(q, r)
    ensures Grows(p, r)
  {
  }

  lemma TriggerGrows(db: Db, hold: Id, envelope: Id, a: Action, now: nat)
    requires TxTrigger(db, hold, envelope, a, now).Ok?
    ensures Grows(db, TxTrigger(db, hold, envelope, a, now).value)
  {
  }

  lemma RespondGrows(db: Db, hold: Id, approve: bool, human: Id, now: nat)
    requires TxRespond(db, hold, approve, human, now).Ok?
    ensures Grows(db, TxRespond(db, hold, approve, human, now).value)
  {
  }

  lemma TimeoutGrows(db: Db, hold: Id, now: nat)
    requires TxTimeout(db, hold, now).Ok?
    ensures Grows(db, TxTimeout(db, hold, now).value)
  {
  }

  lemma FinalizeGrows(db: Db, a: Action, cost: nat, spec: Spec, checked: Option<Id>, via: Option<Id>, now: nat)
    requires TxFinalize(db, a, cost, spec, checked, via, now).Ok?
    ensures Grows(db, TxFinalize(db, a, cost, spec, checked, via, now).value)
  {
    hide Settle, ApplySpec, ActorsGrow, EnvelopesGrow, HoldsGrow, AppendEvent;
    var db1 := if cost == 0 then db else db.(ledger := Settle(db.ledger, a.actor, cost, cost).value);
    SpecGrows(db1, a, spec, now);
  }

  lemma SpecGrows(db: Db, a: Action, spec: Spec, now: nat)
    requires ApplySpec(db, a, spec, now).Ok?
    ensures Grows(db, ApplySpec(db, a, spec, now).value)
    ensures ApplySpec(db, a, spec, now).value.events == db.events
  {
    hide CreateAccount;
  }

  lemma SameTablesGrow(p: Db, q: Db)
    requires p.actors == q.actors && p.envelopes == q.envelopes && p.holds == q.holds && p.events == q.events
    ensures Grows(p, q)
  {
  }

  lemma LapseGrows(db: Db, id: Id)
    requires id in db.envelopes
    ensures Grows(db, SetEnvelopeStatus(db, id, EnvExpired))
  {
  }

  lemma ConsumeGrows(db: Db, id: Id, amount: nat, level: CheckpointLevel)
    requires TxConsume(db, id, amount, level).Ok?
    ensures Grows(db, TxConsume(db, id, amount, level).value)
  {
  }

  lemma LifecycleGrows(db: Db, subject: Id, op: LifecycleOp)
    ensures Grows(db, TxLifecycle(db, subject, op))
  {
    hide EnvelopesGrow, HoldsGrow, ActiveDescendant;
    EnvelopesReflexive(db);
  }

  lemma EnvelopesReflexive(db: Db)
    ensures EnvelopesGrow(db.envelopes, db.envelopes) && HoldsGrow(db.holds, db.holds)
  {
  }

  /** A transaction that commits only grows the tables, whichever effect it belongs to. */
  lemma ApplyGrows(s: State, e: Effect)
    requires Applicable(s, e)
    ensures Grows(s.db, Apply(s, e).db)
  {
    hide TxTrigger, TxRespond, TxTimeout, TxFinalize, TxConsume, TxLifecycle, CreditAll, Grows, SetEnvelopeStatus;
    var db' := Apply(s, e).db;
    if db'.actors == s.db.actors && db'.envelopes == s.db.envelopes
         && db'.holds == s.db.holds && db'.events == s.db.events {
      SameTablesGrow(s.db, db');
    } else if ForTask(e) {
      var t := s.tasks[e.tid];
      match e
      case LapseEnvelope(tid, id) =>
        LapseGrows(s.db, id);
      case TimeOutHold(tid, hold, pc) =>
        if TxTimeout(s.db, hold, s.now).Ok? {
          TimeoutGrows(s.db, hold, s.now);
        }
      case TriggerHold(tid, hold, envelope) =>
        if TxTrigger(s.db, hold, envelope, t.action, s.now).Ok? {
          TriggerGrows(s.db, hold, envelope, t.action, s.now);
        }
      case AnswerHold(tid, hold, approve) =>
        if TxRespond(s.db, hold, approve, t.action.actor, s.now).Ok? {
          RespondGrows(s.db, hold, approve, t.action.actor, s.now);
        }
      case Commit(tid, checked, spec, cost) =>
        if TxFinalize(s.db, t.action, cost, spec, checked, t.via, s.now).Ok? {
          FinalizeGrows(s.db, t.action, cost, spec, checked, t.via, s.now);
        }
      case ConsumeBudget(tid, spec, charge) =>
        if TxConsume(s.db, charge.envelope, charge.amount, charge.level).Ok? {
          ConsumeGrows(s.db, charge.envelope, charge.amount, charge.level);
        }
      case ManageActor(tid, subject, op) =>
        LifecycleGrows(s.db, subject, op);
      case _ =>
    }
  }

  /** Every step of every task, and of the environment, only grows the tables. */
  lemma StepGrows(c: Config, s: State, l: Label)
    ensures Grows(s.db, Step(c, s, l).db)
  {
    hide Apply, Decide, Grows;
    ApplyGrows(s, Decide(c, s, l));
  }

  /** Whatever the schedule, later tables have grown from earlier ones. */
  lemma {:induction false} RunGrows(c: Config, s: State, schedule: seq<Label>)
    ensures Grows(s.db, Run(c, s, schedule).db)
    decreases |schedule|
  {
    hide Step, Grows;
    if schedule == [] {
      GrowsReflexive(s.db);
    } else {
      var n := |schedule| - 1;
      RunGrows(c, s, schedule[..n]);
      var s1 := Run(c, s, schedule[..n]);
      StepGrows(c, s1, schedule[n]);
      GrowsTransitive(s.db, s1.db, Step(c, s1, schedule[n]).db);
    }
  }

  lemma GrowsReflexive(db: Db)
    ensures Grows(db, db)
  {
  }

  /** The effects whose transaction writes an event. */
  predicate WritesEvent(e: Effect) {
    e.TimeOutHold? || e.TriggerHold? || e.AnswerHold? || e.Commit?
  }

  /** What an effect leaves alone, by its kind. */
  ghost predicate Framed(s: State, e: Effect, s': State) {
    && (!WritesEvent(e) ==> s'.db.events == s.db.events && s'.db.rows == s.db.rows
                            && s'.db.holds == s.db.holds && s'.receipts == s.receipts)
    && (!e.Commit? && !e.ManageActor? ==> s'.db.actors == s.db.actors)
    && (!e.Commit? && !e.ConsumeBudget? && !e.LapseEnvelope? ==> s'.db.envelopes == s.db.envelopes)
    && (!e.StoreCheckpoint? ==> s'.db.checkpoints == s.db.checkpoints)
    && (!e.ConsumeBudget? ==> s'.meter == s.meter)
  }

  lemma WriteFrame(s: State, e: Effect)
    requires Applicable(s, e) && WritesEvent(e)
    ensures Framed(s, e, Apply(s, e))
  {
    hide TxTrigger, TxRespond, TxTimeout, TxFinalize;
  }

  lemma LedgerFrame(s: State, e: Effect)
    requires Applicable(s, e) && (e.ReserveFor? || e.CreditTick? || e.ConsumeBudget? || e.ManageActor?)
    ensures Framed(s, e, Apply(s, e))
  {
    hide CreditAll, MintAll, Database.Reserve, TxConsume, TxLifecycle;
  }

  lemma PlainFrame(s: State, e: Effect)
    requires Applicable(s, e) && !WritesEvent(e)
    requires !e.ReserveFor? && !e.CreditTick? && !e.ConsumeBudget? && !e.ManageActor?
    ensures Framed(s, e, Apply(s, e))
  {
  }

  /** Which effects touch which tables. */
  lemma EffectFrame(s: State, e: Effect)
    requires Applicable(s, e)
    ensures Framed(s, e, Apply(s, e))
  {
    hide Apply, Framed;
    if WritesEvent(e) {
      WriteFrame(s, e);
    } else if e.ReserveFor? || e.CreditTick? || e.ConsumeBudget? || e.ManageActor? {
      LedgerFrame(s, e);
    } else {
      PlainFrame(s, e);
    }
  }
}

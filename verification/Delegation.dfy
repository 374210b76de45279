/** Envelopes over a run: budgets, reporting, and delegation chains. */
module Delegation {
  import opened Basics
  import opened Consent
  import opened Database
  import opened Kernel
  import opened Stability
  import opened Tasks
  import opened Lineage

  ghost predicate EnvelopeOk(c: Config, db: Db, e: Envelope) {
    && 0 < e.budget && e.consumed <= e.budget
    && e.born < |db.events|
    && (e.parent.Some? ==>
          ParentOk(c, db, e.budget, e.actions, e.targets, e.parent.value) && db.envelopes[e.parent.value].born < e.born)
  }

  ghost predicate EnvelopesOk(c: Config, db: Db) {
    forall id | id in db.envelopes :: EnvelopeOk(c, db, db.envelopes[id])
  }

  /** What the charges that the budget took add up to. */
  function Total(meter: seq<Consumption>, id: Id): (n: nat) {
    if meter == [] then 0
    else
      var m := meter[|meter| - 1];
      Total(meter[..|meter| - 1], id) + if m.charge.envelope == id && m.kept then m.charge.amount else 0
  }

  /** What the charges that were dropped add up to. */
  function Dropped(meter: seq<Consumption>, id: Id): (n: nat) {
    if meter == [] then 0
    else
      var m := meter[|meter| - 1];
      Dropped(meter[..|meter| - 1], id) + if m.charge.envelope == id && !m.kept then m.charge.amount else 0
  }

  /** A charge continues where the envelope's earlier ones ended, and is kept exactly when the budget has room. */
  ghost predicate ConsumptionOk(envelopes: map<Id, Envelope>, earlier: seq<Consumption>, m: Consumption) {
    && m.charge.envelope in envelopes && m.charge.amount > 0
    && m.charge.seen <= m.before && m.before == Total(earlier, m.charge.envelope)
    && (m.kept <==> m.before + m.charge.amount <= envelopes[m.charge.envelope].budget)
    && DueCheckpoint(envelopes, m.charge)
    && (m.kept && m.charge.level.Halt? ==> !envelopes[m.charge.envelope].status.EnvActive?)
  }

  ghost predicate MetersOk(s: State) {
    && (forall k | 0 <= k < |s.meter| :: ConsumptionOk(s.db.envelopes, s.meter[..k], s.meter[k]))
    && (forall id :: ConsumedOf(s.db.envelopes, id) == Total(s.meter, id))
  }

  ghost predicate BudgetsOk(c: Config, s: State) {
    EnvelopesOk(c, s.db) && MetersOk(s)
  }

  // ----- stability ---------------------------------------------------------------------

  lemma TermsStable(c: Config, p: Db, q: Db, x: Envelope, y: Envelope)
    requires Grows(p, q) && EnvelopeOk(c, p, x) && SameEnvelope(x, y) && y.consumed <= y.budget
    ensures EnvelopeOk(c, q, y)
  {
  }

  lemma SameEnvelopes(c: Config, s: State, s': State)
    requires BudgetsOk(c, s) && Grows(s.db, s'.db) && s'.db.envelopes == s.db.envelopes && s'.meter == s.meter
    ensures BudgetsOk(c, s')
  {
    hide Grows, EnvelopeOk, ConsumptionOk, Total;
    forall id | id in s'.db.envelopes
      ensures EnvelopeOk(c, s'.db, s'.db.envelopes[id])
    {
      SameRow(c, s.db, s'.db, s.db.envelopes[id]);
    }
    forall id
      ensures ConsumedOf(s'.db.envelopes, id) == Total(s'.meter, id)
    {
      assert ConsumedOf(s.db.envelopes, id) == Total(s.meter, id);
    }
  }

  lemma SameRow(c: Config, p: Db, q: Db, e: Envelope)
    requires Grows(p, q) && EnvelopeOk(c, p, e)
    ensures EnvelopeOk(c, q, e)
  {
    TermsStable(c, p, q, e, e);
  }

  /** One row changed, within its terms. */
  lemma OneRowChanged(c: Config, p: Db, q: Db, id: Id)
    requires EnvelopesOk(c, p) && Grows(p, q) && id in p.envelopes
    requires q.envelopes == p.envelopes[id := q.envelopes[id]]
    requires q.envelopes[id].consumed <= q.envelopes[id].budget
    ensures EnvelopesOk(c, q)
  {
    hide EnvelopeOk;
    forall x | x in q.envelopes
      ensures EnvelopeOk(c, q, q.envelopes[x])
    {
      RowConsumed(c, p, x);
      TermsStable(c, p, q, p.envelopes[x], q.envelopes[x]);
    }
  }

  // ----- effects -----------------------------------------------------------------------

  lemma LapseKeepsBudgets(c: Config, s: State, e: Effect)
    requires BudgetsOk(c, s) && Applicable(s, e) && e.LapseEnvelope? && Grows(s.db, Apply(s, e).db)
    ensures BudgetsOk(c, Apply(s, e))
  {
    hide Grows, EnvelopeOk, Total;
    var s' := Apply(s, e);
    assert EnvelopeOk(c, s.db, s.db.envelopes[e.envelope]);
    RowConsumed(c, s.db, e.envelope);
    OneRowChanged(c, s.db, s'.db, e.envelope);
    forall id
      ensures ConsumedOf(s'.db.envelopes, id) == Total(s'.meter, id)
    {
      assert ConsumedOf(s.db.envelopes, id) == Total(s.meter, id);
    }
  }

  lemma RowConsumed(c: Config, db: Db, id: Id)
    requires EnvelopesOk(c, db) && id in db.envelopes
    ensures db.envelopes[id].consumed <= db.envelopes[id].budget && 0 < db.envelopes[id].budget
  {
    assert EnvelopeOk(c, db, db.envelopes[id]);
  }

  lemma TotalAppend(meter: seq<Consumption>, m: Consumption, id: Id)
    ensures Total(meter + [m], id) == Total(meter, id) +
            if m.charge.envelope == id && m.kept then m.charge.amount else 0
    ensures Dropped(meter + [m], id) == Dropped(meter, id) +
            if m.charge.envelope == id && !m.kept then m.charge.amount else 0
  {
    assert (meter + [m])[..|meter|] == meter;
  }

  /** Terms are immutable, so a consumption stays in order. */
  lemma ConsumptionStable(p: map<Id, Envelope>, q: map<Id, Envelope>, earlier: seq<Consumption>, m: Consumption)
    requires ConsumptionOk(p, earlier, m) && EnvelopesGrow(p, q)
    ensures ConsumptionOk(q, earlier, m)
  {
    hide CheckCheckpoint, Total;
    assert SameEnvelope(p[m.charge.envelope], q[m.charge.envelope]);
  }

  lemma ConsumeKeepsEnvelopes(c: Config, s: State, e: Effect)
    requires EnvelopesOk(c, s.db) && Applicable(s, e) && e.ConsumeBudget? && Grows(s.db, Apply(s, e).db)
    ensures EnvelopesOk(c, Apply(s, e).db)
  {
    hide Grows, EnvelopeOk;
    var q := Apply(s, e).db;
    if TxConsume(s.db, e.charge.envelope, e.charge.amount, e.charge.level).Ok? {
      OneRowChanged(c, s.db, q, e.charge.envelope);
    }
  }

  /** The meter and the row move together, whether the charge is kept or dropped. */
  lemma ConsumeKeepsMeters(s: State, e: Effect)
    requires MetersOk(s) && Applicable(s, e) && e.ConsumeBudget?
    requires EnvelopesGrow(s.db.envelopes, Apply(s, e).db.envelopes)
    requires e.charge.amount > 0 && e.charge.envelope in s.db.envelopes && DueCheckpoint(s.db.envelopes, e.charge)
    requires e.charge.seen <= s.db.envelopes[e.charge.envelope].consumed
    ensures MetersOk(Apply(s, e))
  {
    hide Total, ConsumptionOk, DueCheckpoint, EnvelopesGrow, Apply, Dropped;
    var s' := Apply(s, e);
    var m := NewConsumption(s, e);
    forall id
      ensures ConsumedOf(s'.db.envelopes, id) == Total(s'.meter, id)
    {
      TotalAppend(s.meter, m, id);
      ConsumedMoves(s, e, id);
      assert ConsumedOf(s.db.envelopes, id) == Total(s.meter, id);
    }
    forall k | 0 <= k < |s'.meter|
      ensures ConsumptionOk(s'.db.envelopes, s'.meter[..k], s'.meter[k])
    {
      if k < |s.meter| {
        assert s'.meter[..k] == s.meter[..k];
        ConsumptionStable(s.db.envelopes, s'.db.envelopes, s.meter[..k], s.meter[k]);
      } else {
        assert s'.meter[..k] == s.meter;
      }
    }
  }

  /** The entry that a charge adds to the meter. */
  lemma NewConsumption(s: State, e: Effect) returns (m: Consumption)
    requires MetersOk(s) && Applicable(s, e) && e.ConsumeBudget?
    requires e.charge.amount > 0 && e.charge.envelope in s.db.envelopes && DueCheckpoint(s.db.envelopes, e.charge)
    requires e.charge.seen <= s.db.envelopes[e.charge.envelope].consumed
    ensures Apply(s, e).meter == s.meter + [m] && m.charge == e.charge
    ensures m.kept <==> TxConsume(s.db, e.charge.envelope, e.charge.amount, e.charge.level).Ok?
    ensures ConsumptionOk(Apply(s, e).db.envelopes, s.meter, m)
  {
    hide CheckCheckpoint, Total;
    m := Apply(s, e).meter[|s.meter|];
    assert ConsumedOf(s.db.envelopes, e.charge.envelope) == Total(s.meter, e.charge.envelope);
  }

  lemma ConsumedMoves(s: State, e: Effect, id: Id)
    requires Applicable(s, e) && e.ConsumeBudget?
    ensures ConsumedOf(Apply(s, e).db.envelopes, id) == ConsumedOf(s.db.envelopes, id)
      + if id == e.charge.envelope && TxConsume(s.db, id, e.charge.amount, e.charge.level).Ok?
          then e.charge.amount else 0
  {
  }

  lemma MeteringFacts(c: Config, s: State, tid: nat)
    requires TasksOk(c, s) && tid in s.tasks && s.tasks[tid].pc.Metering?
    ensures var charge := s.tasks[tid].pc.charge;
            && charge.amount > 0 && charge.envelope in s.db.envelopes && DueCheckpoint(s.db.envelopes, charge)
            && s.db.envelopes[charge.envelope].actor == s.tasks[tid].action.actor
            && charge.seen <= s.db.envelopes[charge.envelope].consumed
  {
    hide PcOk, ViaOk, DueCheckpoint;
    assert TaskOk(c, s.db, s.tasks[tid]);
  }

  lemma ConsumeKeepsBudgets(c: Config, s: State, e: Effect)
    requires BudgetsOk(c, s) && TasksOk(c, s) && Applicable(s, e) && EffectOk(c, s, e) && e.ConsumeBudget?
    requires Grows(s.db, Apply(s, e).db)
    ensures BudgetsOk(c, Apply(s, e))
  {
    hide MetersOk, EnvelopesOk, TasksOk, DueCheckpoint, TxConsume, EnvelopesGrow, ActorsGrow, HoldsGrow, Apply;
    MeteringFacts(c, s, e.tid);
    ConsumeKeepsEnvelopes(c, s, e);
    ConsumeKeepsMeters(s, e);
  }

  // ----- a commit may create an envelope -------------------------------------------------

  lemma CreatedEnvelopesOk(c: Config, p: Db, q: Db, id: Id)
    requires EnvelopesOk(c, p) && Grows(p, q)
    requires id !in p.envelopes && id in q.envelopes && q.envelopes == p.envelopes[id := q.envelopes[id]]
    requires EnvelopeOk(c, q, q.envelopes[id])
    ensures EnvelopesOk(c, q)
  {
    hide EnvelopeOk, Grows;
    forall x | x in q.envelopes
      ensures EnvelopeOk(c, q, q.envelopes[x])
    {
      if x != id {
        SameRow(c, p, q, p.envelopes[x]);
      }
    }
  }

  lemma CreatedMetersOk(s: State, s': State, id: Id)
    requires MetersOk(s) && s'.meter == s.meter && id !in s.db.envelopes && id in s'.db.envelopes
    requires s'.db.envelopes == s.db.envelopes[id := s'.db.envelopes[id]]
    requires s'.db.envelopes[id].consumed == 0 < s'.db.envelopes[id].budget
    ensures MetersOk(s')
  {
    hide Total, CheckCheckpoint;
    forall x
      ensures ConsumedOf(s'.db.envelopes, x) == Total(s'.meter, x)
    {
      assert ConsumedOf(s.db.envelopes, x) == Total(s.meter, x);
    }
  }

  lemma CommitEnvelope(c: Config, s: State, e: Effect)
    requires BudgetsOk(c, s) && TasksOk(c, s) && Applicable(s, e) && EffectOk(c, s, e) && e.Commit?
    requires Grows(s.db, Apply(s, e).db)
    requires e.spec.NewEnvelope? && Apply(s, e) != Fail(s, e.tid)
    ensures BudgetsOk(c, Apply(s, e))
  {
    hide EnvelopesOk, MetersOk, Grows, TasksOk;
    CommitSpecOk(c, s, e.tid);
    var s', id := Apply(s, e), e.spec.id;
    CommittedEnvelope(c, s, e);
    NewEnvelopeOk(c, s, e);
    CreatedEnvelopesOk(c, s.db, s'.db, id);
    CreatedMetersOk(s, s', id);
  }

  lemma CommittedEnvelope(c: Config, s: State, e: Effect)
    requires Applicable(s, e) && e.Commit? && e.spec.NewEnvelope? && Apply(s, e) != Fail(s, e.tid)
    ensures var s' := Apply(s, e);
            && e.spec.id !in s.db.envelopes
            && s'.meter == s.meter && |s'.db.events| == |s.db.events| + 1
            && s'.db.envelopes == s.db.envelopes[e.spec.id :=
                   NewEnvelopeRow(s.tasks[e.tid].action.actor, e.spec.terms, e.spec.parent, s.now, |s.db.events|)]
  {
    hide AppendEvent, Settle, NewEnvelopeRow;
  }

  lemma NewEnvelopeOk(c: Config, s: State, e: Effect)
    requires EnvelopesOk(c, s.db) && Applicable(s, e) && e.Commit? && e.spec.NewEnvelope?
    requires SpecOk(c, s.db, s.tasks[e.tid].action, e.spec)
    requires var q := Apply(s, e).db;
            && e.spec.id !in s.db.envelopes && |q.events| == |s.db.events| + 1
            && q.envelopes == s.db.envelopes[e.spec.id :=
                   NewEnvelopeRow(s.tasks[e.tid].action.actor, e.spec.terms, e.spec.parent, s.now, |s.db.events|)]
    ensures EnvelopeOk(c, Apply(s, e).db, Apply(s, e).db.envelopes[e.spec.id])
  {
    hide Apply;
    if e.spec.parent.Some? {
      assert EnvelopeOk(c, s.db, s.db.envelopes[e.spec.parent.value]);
    }
  }

  lemma CommitKeepsBudgets(c: Config, s: State, e: Effect)
    requires BudgetsOk(c, s) && TasksOk(c, s) && Applicable(s, e) && EffectOk(c, s, e) && e.Commit?
    requires Grows(s.db, Apply(s, e).db)
    ensures BudgetsOk(c, Apply(s, e))
  {
    hide BudgetsOk, Grows, TasksOk, Apply, Fail;
    if e.spec.NewEnvelope? && Apply(s, e) != Fail(s, e.tid) {
      CommitEnvelope(c, s, e);
    } else {
      CommitSameEnvelopes(s, e);
      SameEnvelopes(c, s, Apply(s, e));
    }
  }

  lemma CommitSameEnvelopes(s: State, e: Effect)
    requires Applicable(s, e) && e.Commit? && (!e.spec.NewEnvelope? || Apply(s, e) == Fail(s, e.tid))
    ensures Apply(s, e).db.envelopes == s.db.envelopes && Apply(s, e).meter == s.meter
  {
    hide AppendEvent, Settle, CreateAccount, NewActorRow;
  }

  /** Every effect of every step keeps budgets, meters and delegation. */
  lemma ApplyKeepsBudgets(c: Config, s: State, e: Effect)
    requires BudgetsOk(c, s) && TasksOk(c, s) && Applicable(s, e) && EffectOk(c, s, e)
    ensures BudgetsOk(c, Apply(s, e))
  {
    hide BudgetsOk, Grows, TasksOk, TaskOk, Apply;
    ApplyGrows(s, e);
    EffectFrame(s, e);
    match e
    case LapseEnvelope(_, _) => LapseKeepsBudgets(c, s, e);
    case ConsumeBudget(_, _, _) => ConsumeKeepsBudgets(c, s, e);
    case Commit(_, _, _, _) => CommitKeepsBudgets(c, s, e);
    case _ => SameEnvelopes(c, s, Apply(s, e));
  }
}

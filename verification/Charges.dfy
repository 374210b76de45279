/** Which event every charge to an envelope is for. */
module Charges {
  import opened Basics
  import opened Consent
  import opened Database
  import opened Kernel
  import opened Stability
  import opened Sums
  import opened Tasks
  import opened Delegation

  /** The log's `n`-th event is an action of this actor that settled this amount. */
  ghost predicate Spent(db: Db, n: nat, actor: Id, amount: nat) {
    n < |db.events| && db.events[n].body.Acted? && db.events[n].actor == actor && db.events[n].settled == amount
  }

  ghost predicate BillsOk(s: State) {
    && (forall i | i in s.tasks && Bill(s.tasks[i]).Some? ::
          Spent(s.db, Bill(s.tasks[i]).value.0, s.tasks[i].action.actor, Bill(s.tasks[i]).value.1))
    && (forall i, j | i in s.tasks && j in s.tasks && i != j && Bill(s.tasks[i]).Some? && Bill(s.tasks[j]).Some? ::
          Bill(s.tasks[i]).value.0 != Bill(s.tasks[j]).value.0)
    && (forall i, k | i in s.tasks && Bill(s.tasks[i]).Some? && 0 <= k < |s.meter| ::
          Bill(s.tasks[i]).value.0 != s.meter[k].charge.event)
  }

  /** Every charge is for an action of the envelope's actor that settled as much, and no two are for the same. */
  ghost predicate ChargesOk(s: State) {
    && (forall k | 0 <= k < |s.meter| ::
          && s.meter[k].charge.envelope in s.db.envelopes
          && Spent(s.db, s.meter[k].charge.event,
                         s.db.envelopes[s.meter[k].charge.envelope].actor, s.meter[k].charge.amount))
    && (forall j, k | 0 <= j < k < |s.meter| :: s.meter[j].charge.event != s.meter[k].charge.event)
    && BillsOk(s)
  }

  lemma SpentStable(p: Db, q: Db, n: nat, actor: Id, amount: nat)
    requires Spent(p, n, actor, amount) && p.events <= q.events
    ensures Spent(q, n, actor, amount)
  {
  }

  /** At most the one task changed, and what it has still to charge, if anything, is as before. */
  ghost predicate SameBills(s: State, s': State) {
    forall i | i in s'.tasks && Bill(s'.tasks[i]).Some? ::
      i in s.tasks && Bill(s'.tasks[i]) == Bill(s.tasks[i]) && s'.tasks[i].action.actor == s.tasks[i].action.actor
  }

  lemma QuietCharges(s: State, s': State)
    requires ChargesOk(s) && Grows(s.db, s'.db) && s'.meter == s.meter && SameBills(s, s')
    ensures ChargesOk(s')
  {
    hide ActorsGrow, HoldsGrow, Bill;
    forall k | 0 <= k < |s.meter|
      ensures Spent(s'.db, s.meter[k].charge.event,
                     s.db.envelopes[s.meter[k].charge.envelope].actor, s.meter[k].charge.amount)
    {
      SpentStable(s.db, s'.db, s.meter[k].charge.event, s.db.envelopes[s.meter[k].charge.envelope].actor,
                  s.meter[k].charge.amount);
    }
  }

  lemma EffectKeepsBills(c: Config, s: State, e: Effect)
    requires Applicable(s, e) && EffectOk(c, s, e) && !e.ConsumeBudget?
    requires e.Commit? ==> Apply(s, e) == Fail(s, e.tid)
    ensures SameBills(s, Apply(s, e))
  {
    hide TxTrigger, TxRespond, TxTimeout, TxFinalize, TxLifecycle, CreditAll, MintAll, Database.Reserve, TaskOk,
         QuoteCost;
  }

  /** A commit bills its own event, which nobody else can know yet. */
  lemma CommitKeepsCharges(s: State, e: Effect)
    requires ChargesOk(s) && Applicable(s, e) && e.Commit? && Grows(s.db, Apply(s, e).db)
    requires Apply(s, e) != Fail(s, e.tid) && s.tasks[e.tid].pc == Reserved(e.checked, e.spec, e.cost)
    ensures ChargesOk(Apply(s, e))
  {
    hide Apply, ActorsGrow, HoldsGrow;
    CommittedBill(s, e);
    var s' := Apply(s, e);
    forall k | 0 <= k < |s.meter|
      ensures Spent(s'.db, s.meter[k].charge.event,
                     s.db.envelopes[s.meter[k].charge.envelope].actor, s.meter[k].charge.amount)
    {
      SpentStable(s.db, s'.db, s.meter[k].charge.event, s.db.envelopes[s.meter[k].charge.envelope].actor,
                  s.meter[k].charge.amount);
    }
  }

  lemma CommittedBill(s: State, e: Effect)
    requires Applicable(s, e) && e.Commit? && Apply(s, e) != Fail(s, e.tid)
    ensures var s', t := Apply(s, e), s.tasks[e.tid];
            && s'.meter == s.meter && |s'.db.events| == |s.db.events| + 1
            && s'.tasks == s.tasks[e.tid := t.(via := None, pc := Committed(e.spec, e.cost, |s.db.events|))]
            && Spent(s'.db, |s.db.events|, t.action.actor, e.cost)
  {
    hide Settle, ApplySpec, AuditStore.AppendLeaf;
  }

  /** A charge moves the task's bill to the meter. */
  lemma ConsumeKeepsCharges(s: State, e: Effect)
    requires ChargesOk(s) && Applicable(s, e) && e.ConsumeBudget? && Grows(s.db, Apply(s, e).db)
    requires s.tasks[e.tid].pc == Metering(e.spec, e.charge) && e.charge.envelope in s.db.envelopes
    requires s.db.envelopes[e.charge.envelope].actor == s.tasks[e.tid].action.actor
    ensures ChargesOk(Apply(s, e))
  {
    hide Apply, ActorsGrow, HoldsGrow, BillsOk;
    ChargeMade(s, e);
    var s', n := Apply(s, e), |s.meter|;
    BilledCharge(s, e);
    BillsMove(s, e);
    forall k | 0 <= k < |s'.meter|
      ensures k < n ==> s'.meter[k] == s.meter[k]
      ensures k == n ==> s'.meter[k].charge == e.charge
    {
      assert s'.meter[..n][..] == s.meter;
    }
    forall k | 0 <= k < |s'.meter|
      ensures s'.meter[k].charge.envelope in s'.db.envelopes
      ensures Spent(s'.db, s'.meter[k].charge.event,
                     s'.db.envelopes[s'.meter[k].charge.envelope].actor, s'.meter[k].charge.amount)
    {
      SpentStable(s.db, s'.db, s'.meter[k].charge.event, s.db.envelopes[s'.meter[k].charge.envelope].actor,
                  s'.meter[k].charge.amount);
    }
  }

  /** What the charging task has to charge is its own, and is not in the meter yet. */
  lemma BilledCharge(s: State, e: Effect)
    requires BillsOk(s) && Applicable(s, e) && e.ConsumeBudget? && s.tasks[e.tid].pc == Metering(e.spec, e.charge)
    ensures Spent(s.db, e.charge.event, s.tasks[e.tid].action.actor, e.charge.amount)
    ensures forall k | 0 <= k < |s.meter| :: s.meter[k].charge.event != e.charge.event
  {
    assert Bill(s.tasks[e.tid]) == Some((e.charge.event, e.charge.amount));
  }

  lemma BillsMove(s: State, e: Effect)
    requires BillsOk(s) && Applicable(s, e) && e.ConsumeBudget? && s.tasks[e.tid].pc == Metering(e.spec, e.charge)
    ensures BillsOk(Apply(s, e))
  {
    hide Apply;
    ChargeMade(s, e);
    var s' := Apply(s, e);
    assert Bill(s.tasks[e.tid]) == Some((e.charge.event, e.charge.amount));
    assert Bill(s'.tasks[e.tid]).None?;
    assert forall k | 0 <= k < |s.meter| :: s'.meter[k] == s'.meter[..|s.meter|][k];
  }

  lemma ChargeMade(s: State, e: Effect)
    requires Applicable(s, e) && e.ConsumeBudget?
    ensures var s' := Apply(s, e);
            && |s'.meter| == |s.meter| + 1 && s'.meter[..|s.meter|] == s.meter && s'.meter[|s.meter|].charge == e.charge
            && s'.tasks == s.tasks[e.tid := s.tasks[e.tid].At(Metered(e.spec))] && s'.db.events == s.db.events
  {
    hide TxConsume;
  }

  /** Every effect of every step keeps every charge to its own event. */
  lemma ApplyKeepsCharges(c: Config, s: State, e: Effect)
    requires ChargesOk(s) && TasksOk(c, s) && Applicable(s, e) && EffectOk(c, s, e)
    ensures ChargesOk(Apply(s, e))
  {
    hide ChargesOk, Grows, TasksOk, TaskOk, Apply, Fail;
    ApplyGrows(s, e);
    EffectFrame(s, e);
    if e.ConsumeBudget? {
      MeteringFacts(c, s, e.tid);
      ConsumeKeepsCharges(s, e);
    } else if e.Commit? && Apply(s, e) != Fail(s, e.tid) {
      CommitKeepsCharges(s, e);
    } else {
      EffectKeepsBills(c, s, e);
      QuietCharges(s, Apply(s, e));
    }
  }

  // ----- what was spent under an envelope --------------------------------------------------

  /** The events that were charged to the envelope, kept or dropped. */
  function EventsUnder(meter: seq<Consumption>, id: Id): (events: set<nat>) {
    set k | 0 <= k < |meter| && meter[k].charge.envelope == id :: meter[k].charge.event
  }

  function SettledAt(events: seq<Event>): (f: nat -> int) {
    (n: nat) => if n < |events| then events[n].settled else 0
  }

  /** The energy that the log settled for the events charged to the envelope. */
  ghost function SpentUnder(s: State, id: Id): (n: int) {
    SumOver(EventsUnder(s.meter, id), SettledAt(s.db.events))
  }

  lemma {:induction false} ChargesAddUp(db: Db, meter: seq<Consumption>, id: Id)
    requires forall k | 0 <= k < |meter| ::
               && meter[k].charge.event < |db.events|
               && db.events[meter[k].charge.event].settled == meter[k].charge.amount
    requires forall j, k | 0 <= j < k < |meter| :: meter[j].charge.event != meter[k].charge.event
    ensures SumOver(EventsUnder(meter, id), SettledAt(db.events)) == Total(meter, id) + Dropped(meter, id)
    decreases |meter|
  {
    hide SumOver;
    if meter == [] {
      assert EventsUnder(meter, id) == {};
      SumOverNone(db.events);
    } else {
      var n := |meter| - 1;
      var init, m := meter[..n], meter[n];
      ChargesAddUp(db, init, id);
      EventsSplit(meter, id);
      if m.charge.envelope == id {
        SumOverRemove(EventsUnder(meter, id), m.charge.event, SettledAt(db.events));
      }
    }
  }

  lemma SumOverNone(events: seq<Event>)
    ensures SumOver<nat>({}, SettledAt(events)) == 0
  {
  }

  lemma EventsSplit(meter: seq<Consumption>, id: Id)
    requires meter != []
    requires forall j, k | 0 <= j < k < |meter| :: meter[j].charge.event != meter[k].charge.event
    ensures var n := |meter| - 1;
            if meter[n].charge.envelope == id
            then meter[n].charge.event in EventsUnder(meter, id)
                 && EventsUnder(meter[..n], id) == EventsUnder(meter, id) - {meter[n].charge.event}
            else EventsUnder(meter[..n], id) == EventsUnder(meter, id)
  {
    var n := |meter| - 1;
    var init := meter[..n];
    forall x | x in EventsUnder(meter, id) && x != meter[n].charge.event
      ensures x in EventsUnder(init, id)
    {
      var k :| 0 <= k < |meter| && meter[k].charge.envelope == id && meter[k].charge.event == x;
      assert init[k] == meter[k];
    }
    forall x | x in EventsUnder(init, id)
      ensures x in EventsUnder(meter, id) && x != meter[n].charge.event
    {
      var k :| 0 <= k < |init| && init[k].charge.envelope == id && init[k].charge.event == x;
      assert init[k] == meter[k];
    }
    if meter[n].charge.envelope != id {
      assert forall x | x in EventsUnder(meter, id) :: x in EventsUnder(init, id) by {
        forall x | x in EventsUnder(meter, id)
          ensures x in EventsUnder(init, id)
        {
          var k :| 0 <= k < |meter| && meter[k].charge.envelope == id && meter[k].charge.event == x;
          assert init[k] == meter[k];
        }
      }
    }
  }

  /** Something was dropped exactly when the dropped charges add up to more than nothing. */
  lemma {:induction false} DroppedSomething(meter: seq<Consumption>, id: Id)
    requires forall k | 0 <= k < |meter| :: meter[k].charge.amount > 0
    ensures Dropped(meter, id) > 0 <==> exists k :: 0 <= k < |meter| && meter[k].charge.envelope == id && !meter[k].kept
    decreases |meter|
  {
    if meter != [] {
      var n := |meter| - 1;
      DroppedSomething(meter[..n], id);
      if exists k :: 0 <= k < n && meter[k].charge.envelope == id && !meter[k].kept {
        var k :| 0 <= k < n && meter[k].charge.envelope == id && !meter[k].kept;
        assert meter[..n][k] == meter[k];
      }
    }
  }
}

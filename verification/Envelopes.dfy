/** What holds of every envelope in every reachable state: delegation chains, budgets and reports. */
module Envelopes {
  import opened Basics
  import opened Consent
  import opened Database
  import opened Kernel
  import opened Tasks
  import opened Delegation
  import opened Charges
  import opened Theorems

  // ----- delegation chains ------------------------------------------------------------

  /** A walk along `parent_envelope_id`, from a descendant up. */
  ghost predicate Chain(envelopes: map<Id, Envelope>, chain: seq<Id>) {
    && (forall i | 0 <= i < |chain| :: chain[i] in envelopes)
    && (forall i, j | 0 <= i && j == i + 1 && j < |chain| :: envelopes[chain[i]].parent == Some(chain[j]))
  }

  lemma ChainLink(c: Config, db: Db, chain: seq<Id>, i: nat)
    requires EnvelopesOk(c, db) && Chain(db.envelopes, chain) && i + 1 < |chain|
    ensures var child, parent := db.envelopes[chain[i]], db.envelopes[chain[i + 1]];
            && parent.born < child.born && child.budget <= parent.budget
            && (forall x | x in child.actions :: x in parent.actions)
            && TargetsCovered(c, parent.targets, child.targets)
  {
    assert EnvelopeOk(c, db, db.envelopes[chain[i]]);
    var j := i + 1;
    assert db.envelopes[chain[i]].parent == Some(chain[j]);
  }

  lemma {:induction false} ChainShrinks(c: Config, db: Db, chain: seq<Id>, i: nat, j: nat)
    requires EnvelopesOk(c, db) && Chain(db.envelopes, chain) && i < j < |chain|
    ensures var child, ancestor := db.envelopes[chain[i]], db.envelopes[chain[j]];
            && ancestor.born < child.born && child.budget <= ancestor.budget
            && forall x | x in child.actions :: x in ancestor.actions
    decreases j - i
  {
    hide EnvelopesOk, Chain;
    ChainRows(db, chain);
    ChainLink(c, db, chain, j - 1);
    if i < j - 1 {
      ChainShrinks(c, db, chain, i, j - 1);
    }
  }

  lemma ChainRows(db: Db, chain: seq<Id>)
    requires Chain(db.envelopes, chain)
    ensures forall i | 0 <= i < |chain| :: chain[i] in db.envelopes
  {
  }

  /**
   * Delegation only shrinks: along any chain no envelope repeats, so the links
   * are acyclic, and a descendant has at most the budget and only the actions of
   * every ancestor; each of its targets is covered by a pattern of its parent.
   */
  lemma DelegationShrinks(c: Config, s: State, chain: seq<Id>, i: nat, j: nat)
    requires Reachable(c, s) && Chain(s.db.envelopes, chain) && i < j < |chain|
    ensures chain[i] != chain[j]
    ensures s.db.envelopes[chain[i]].budget <= s.db.envelopes[chain[j]].budget
    ensures forall x | x in s.db.envelopes[chain[i]].actions :: x in s.db.envelopes[chain[j]].actions
    ensures j == i + 1 ==>
              forall t | t in s.db.envelopes[chain[i]].targets ::
                exists p | p in s.db.envelopes[chain[j]].targets :: p == "**" || p == t || c.glob(p, t)
  {
    hide Run;
    ReachableInv(c, s);
    ChainShrinks(c, s.db, chain, i, j);
    if j == i + 1 {
      ChainLink(c, s.db, chain, i);
    }
  }

  // ----- budgets -------------------------------------------------------------------------

  /** The consumed budget is within bounds and is the sum of the committed consumptions. */
  lemma BudgetBounded(c: Config, s: State, id: Id)
    requires Reachable(c, s) && id in s.db.envelopes
    ensures 0 <= s.db.envelopes[id].consumed <= s.db.envelopes[id].budget && 0 < s.db.envelopes[id].budget
    ensures s.db.envelopes[id].consumed == Total(s.meter, id)
  {
    ReachableInv(c, s);
    RowConsumed(c, s.db, id);
    assert ConsumedOf(s.db.envelopes, id) == Total(s.meter, id);
  }

  /** The charge was taken into account on the strength of a read that another charge had overtaken. */
  predicate Stale(m: Consumption) {
    m.charge.seen < m.before
  }

  /** The charge took the last of the envelope's budget. */
  predicate Fills(m: Consumption, id: Id, budget: int) {
    m.charge.envelope == id && m.kept && m.before + m.charge.amount == budget
  }

  /**
   * When an active envelope has no budget left, exactly: the charge that took the
   * last of it had been overtaken since its read.
   */
  lemma ActiveButFullExactly(c: Config, s: State, id: Id)
    requires Reachable(c, s) && id in s.db.envelopes && s.db.envelopes[id].status.EnvActive?
    ensures s.db.envelopes[id].consumed == s.db.envelopes[id].budget
       <==> exists k :: 0 <= k < |s.meter| && Fills(s.meter[k], id, s.db.envelopes[id].budget) && Stale(s.meter[k])
  {
    hide Run, Inv, Total, CheckCheckpoint, Crosses;
    BudgetBounded(c, s, id);
    MeterFacts(c, s);
    var budget := s.db.envelopes[id].budget;
    if s.db.envelopes[id].consumed == budget {
      var k := CrossingExists(s.meter, id, budget);
      LastCharge(s, id, k);
    }
    forall k | 0 <= k < |s.meter| && Fills(s.meter[k], id, budget)
      ensures s.db.envelopes[id].consumed == budget
    {
      FilledUp(s.meter, id, k);
    }
  }

  /** A charge that reaches the budget fills it, and on a read that was still current would have halted. */
  lemma LastCharge(s: State, id: Id, k: nat)
    requires MetersOk(s) && id in s.db.envelopes && s.db.envelopes[id].status.EnvActive?
    requires k < |s.meter| && s.db.envelopes[id].budget >= 0 && Crosses(s.meter[k], id, s.db.envelopes[id].budget)
    ensures Fills(s.meter[k], id, s.db.envelopes[id].budget) && Stale(s.meter[k])
  {
    hide Total;
    assert ConsumptionOk(s.db.envelopes, s.meter[..k], s.meter[k]);
  }

  lemma FilledUp(meter: seq<Consumption>, id: Id, k: nat)
    requires InOrder(meter) && k < |meter| && meter[k].charge.envelope == id && meter[k].kept
    ensures meter[k].before + meter[k].charge.amount <= Total(meter, id)
  {
    TotalGrows(meter, id, k + 1);
    assert meter[..k + 1][..k] == meter[..k];
  }

  /** While no charge to it was overtaken, an active envelope has budget left. */
  lemma ActiveHasRoom(c: Config, s: State, id: Id)
    requires Reachable(c, s) && id in s.db.envelopes && s.db.envelopes[id].status.EnvActive?
    requires forall k | 0 <= k < |s.meter| && s.meter[k].charge.envelope == id && s.meter[k].kept :: !Stale(s.meter[k])
    ensures s.db.envelopes[id].consumed < s.db.envelopes[id].budget
  {
    hide Run;
    BudgetBounded(c, s, id);
    ActiveButFullExactly(c, s, id);
  }

  /** A charge leaves an active envelope without budget exactly when it fills it on a stale read. */
  lemma FullButActive(db: Db, id: Id, seen: nat, amount: nat)
    requires id in db.envelopes && db.envelopes[id].consumed <= db.envelopes[id].budget
    requires var e := db.envelopes[id];
             TxConsume(db, id, amount, CheckCheckpoint(e.budget, e.reportEvery, seen, amount)).Ok?
    ensures var e := db.envelopes[id];
            var level := CheckCheckpoint(e.budget, e.reportEvery, seen, amount);
            var row := TxConsume(db, id, amount, level).value.envelopes[id];
            row.status.EnvActive? && row.consumed == e.budget <==>
              e.status.EnvActive? && e.consumed + amount == e.budget && seen < e.consumed
  {
  }

  /** A charge beyond the budget stays committed: it is dropped exactly when it does not fit. */
  lemma OvershootStaysCommitted(c: Config, s: State, tid: nat)
    requires Reachable(c, s) && tid in s.tasks && s.tasks[tid].pc.Metering?
    ensures var pc, s' := s.tasks[tid].pc, Step(c, s, Consume(tid));
            && pc.charge.envelope in s.db.envelopes
            && var row := s.db.envelopes[pc.charge.envelope];
               var kept := row.consumed + pc.charge.amount <= row.budget;
               && s'.meter == s.meter + [Consumption(pc.charge, row.consumed, kept)]
               && s'.tasks == s.tasks[tid := s.tasks[tid].At(Metered(pc.spec))] && s'.db.events == s.db.events
               && (!kept ==> s'.db == s.db)
  {
    hide Inv, Run, TasksOk, DueCheckpoint;
    ReachableInv(c, s);
    InvTasks(c, s);
    MeteringFacts(c, s, tid);
  }

  /**
   * What an envelope's actor spent under it, by the log, is what the budget took and
   * what was dropped; it is within the budget if and only if nothing was dropped.
   */
  lemma SpendingAgainstBudget(c: Config, s: State, id: Id)
    requires Reachable(c, s) && id in s.db.envelopes
    ensures SpentUnder(s, id) == s.db.envelopes[id].consumed + Dropped(s.meter, id)
    ensures SpentUnder(s, id) <= s.db.envelopes[id].budget
       <==> forall k | 0 <= k < |s.meter| && s.meter[k].charge.envelope == id :: s.meter[k].kept
  {
    hide Run, Total, Dropped, DueCheckpoint, EventsUnder;
    BudgetBounded(c, s, id);
    MeterFacts(c, s);
    ChargeFacts(c, s);
    ChargesAddUp(s.db, s.meter, id);
    forall k | 0 <= k < |s.meter|
      ensures s.meter[k].charge.amount > 0
    {
      assert ConsumptionOk(s.db.envelopes, s.meter[..k], s.meter[k]);
    }
    DroppedSomething(s.meter, id);
    if k :| 0 <= k < |s.meter| && s.meter[k].charge.envelope == id && !s.meter[k].kept {
      assert ConsumptionOk(s.db.envelopes, s.meter[..k], s.meter[k]);
      TotalGrows(s.meter, id, k);
      DroppedAtLeast(s.meter, id, k);
    }
  }

  lemma {:induction false} DroppedAtLeast(meter: seq<Consumption>, id: Id, k: nat)
    requires k < |meter| && meter[k].charge.envelope == id && !meter[k].kept
    ensures meter[k].charge.amount <= Dropped(meter, id)
    decreases |meter|
  {
    if k < |meter| - 1 {
      DroppedAtLeast(meter[..|meter| - 1], id, k);
    }
  }

  lemma ChargeFacts(c: Config, s: State)
    requires Reachable(c, s)
    ensures ChargesOk(s)
  {
    hide Run, ChargesOk;
    ReachableInv(c, s);
  }

  lemma InvTasks(c: Config, s: State)
    requires Inv(c, s)
    ensures TasksOk(c, s)
  {
  }

  // ----- reports ---------------------------------------------------------------------------

  /** The consumption takes its envelope's total across `x`. */
  predicate Crosses(m: Consumption, id: Id, x: nat) {
    m.charge.envelope == id && m.kept && m.before < x <= m.before + m.charge.amount
  }

  /** Each consumption of an envelope begins where the earlier ones ended. */
  ghost predicate InOrder(meter: seq<Consumption>) {
    forall k | 0 <= k < |meter| :: meter[k].before == Total(meter[..k], meter[k].charge.envelope)
  }

  lemma {:induction false} TotalGrows(meter: seq<Consumption>, id: Id, i: nat)
    requires i <= |meter|
    ensures Total(meter[..i], id) <= Total(meter, id)
    decreases |meter|
  {
    if i < |meter| {
      var n := |meter| - 1;
      assert meter[..n][..i] == meter[..i];
      TotalGrows(meter[..n], id, i);
    } else {
      assert meter[..i] == meter;
    }
  }

  lemma {:induction false} CrossingExists(meter: seq<Consumption>, id: Id, x: nat) returns (k: nat)
    requires InOrder(meter) && 0 < x <= Total(meter, id)
    ensures k < |meter| && Crosses(meter[k], id, x)
    decreases |meter|
  {
    var n := |meter| - 1;
    if x <= Total(meter[..n], id) {
      assert InOrder(meter[..n]) by {
        forall j | 0 <= j < n
          ensures meter[..n][j].before == Total(meter[..n][..j], meter[..n][j].charge.envelope)
        {
          assert meter[..n][..j] == meter[..j];
        }
      }
      k := CrossingExists(meter[..n], id, x);
    } else {
      k := n;
    }
  }

  lemma CrossingUnique(meter: seq<Consumption>, id: Id, x: nat, i: nat, j: nat)
    requires InOrder(meter) && i < j < |meter|
    ensures !(Crosses(meter[i], id, x) && Crosses(meter[j], id, x))
  {
    if meter[i].charge.envelope == id && meter[j].charge.envelope == id && meter[i].kept {
      assert meter[..j][..i + 1] == meter[..i + 1];
      TotalGrows(meter[..j], id, i + 1);
      assert meter[..i + 1][..i] == meter[..i];
    }
  }

  /** Integer division goes up exactly when a multiple is crossed. */
  lemma QuotientGrows(before: nat, amount: nat, r: nat, q: nat)
    requires r > 0 && before < q * r <= before + amount
    ensures (before + amount) / r > before / r
  {
    Multiples(before, r);
    Multiples(before + amount, r);
    var a, b := before / r, (before + amount) / r;
    if b <= a {
      if q <= a {
        MultipleMono(q, a, r);
      } else {
        MultipleMono(b + 1, q, r);
      }
      assert false;
    }
  }

  lemma Multiples(x: nat, r: nat)
    requires r > 0
    ensures (x / r) * r <= x < (x / r + 1) * r
  {
    assert x == (x / r) * r + x % r;
  }

  lemma MultipleMono(a: int, b: int, r: nat)
    requires a <= b
    ensures a * r <= b * r
  {
    assert b * r - a * r == (b - a) * r;
  }

  lemma QuotientGrew(before: nat, amount: nat, r: nat) returns (q: nat)
    requires r > 0 && (before + amount) / r > before / r
    ensures q > 0 && before < q * r <= before + amount
  {
    q := (before + amount) / r;
    Multiples(before, r);
    Multiples(before + amount, r);
    MultipleMono(before / r + 1, q, r);
  }

  /** From what the charge had read, it would not meet the budget and not cross a multiple. */
  ghost predicate SeemsToCrossNothing(charge: Charge, budget: int, r: nat) {
    && charge.seen + charge.amount < budget
    && !(exists p: nat :: p > 0 && charge.seen < Multiple(p, r) <= charge.seen + charge.amount)
  }

  /**
   * Reporting over a run: every positive multiple of `report_every` up to what was
   * consumed was crossed by exactly one charge. It went unreported if and only if
   * that charge, from what it had read, seemed to cross nothing; a charge that was
   * not overtaken since its read is never that.
   */
  lemma EveryMultipleReported(c: Config, s: State, id: Id, r: nat, q: nat) returns (k: nat)
    requires Reachable(c, s) && id in s.db.envelopes && s.db.envelopes[id].reportEvery == Some(r)
    requires r > 0 && q > 0 && q * r <= s.db.envelopes[id].consumed
    ensures k < |s.meter| && Crosses(s.meter[k], id, q * r)
    ensures forall j | 0 <= j < |s.meter| && j != k :: !Crosses(s.meter[j], id, q * r)
    ensures s.meter[k].charge.level.NoCheckpoint?
       <==> SeemsToCrossNothing(s.meter[k].charge, s.db.envelopes[id].budget, r)
    ensures !Stale(s.meter[k]) ==> s.meter[k].charge.level.Report? || s.meter[k].charge.level.Halt?
  {
    hide Run, MetersOk, Total, Inv;
    var x := q * r;
    MultipleMono(1, q, r);
    BudgetBounded(c, s, id);
    MeterFacts(c, s);
    k := CrossingExists(s.meter, id, x);
    forall j | 0 <= j < |s.meter| && j != k
      ensures !Crosses(s.meter[j], id, x)
    {
      if j < k {
        CrossingUnique(s.meter, id, x, j, k);
      } else {
        CrossingUnique(s.meter, id, x, k, j);
      }
    }
    QuotientGrows(s.meter[k].before, s.meter[k].charge.amount, r, q);
    CheckpointMeansCrossing(s.db.envelopes[id].budget, r, s.meter[k].charge.seen, s.meter[k].charge.amount);
  }

  lemma MeterFacts(c: Config, s: State)
    requires Reachable(c, s)
    ensures MetersOk(s) && InOrder(s.meter)
    ensures forall k | 0 <= k < |s.meter| ::
      var m := s.meter[k];
      m.charge.envelope in s.db.envelopes && m.charge.seen <= m.before && DueCheckpoint(s.db.envelopes, m.charge)
  {
    hide CheckCheckpoint, Total, Run;
    ReachableInv(c, s);
    forall k | 0 <= k < |s.meter|
      ensures ConsumptionOk(s.db.envelopes, s.meter[..k], s.meter[k])
    {
    }
  }

  /** An exact read's checkpoint says whether a multiple was crossed or the budget met. */
  lemma CheckpointMeansCrossing(budget: int, r: nat, before: nat, amount: nat)
    requires r > 0
    ensures CheckCheckpoint(budget, Some(r), before, amount) != NoCheckpoint
       <==> before + amount >= budget || exists q: nat :: q > 0 && before < Multiple(q, r) <= before + amount
  {
    if exists q: nat :: q > 0 && before < Multiple(q, r) <= before + amount {
      var q: nat :| q > 0 && before < Multiple(q, r) <= before + amount;
      QuotientGrows(before, amount, r, q);
    }
    if (before + amount) / r > before / r {
      var q := QuotientGrew(before, amount, r);
      assert before < Multiple(q, r) <= before + amount;
    }
  }

  function Multiple(q: nat, r: nat): (x: nat) {
    q * r
  }
}

/**
 * Energy accounting under any interleaving: every reserved unit is owed to a
 * pending hold, a submission in flight or a failed one, and every balance is
 * what was minted minus what the log settled.
 */
module Accounting {
  import opened Basics
  import opened Consent
  import opened Database
  import opened Kernel
  import opened Sums
  import opened Tasks

  function HoldClaim(actor: Id): (w: Hold -> nat) {
    (h: Hold) => if h.status.Pending? && h.agent == actor then h.reserved else 0
  }

  function TaskClaim(actor: Id): (w: Task -> nat) {
    (t: Task) => if t.action.actor == actor then t.Claim() else 0
  }

  /** Pending holds, plus submissions in flight, plus reservations stranded by failed submissions. */
  ghost function Owed(s: State, actor: Id): (n: nat) {
    MapSum(s.db.holds, HoldClaim(actor)) + MapSum(s.tasks, TaskClaim(actor)) + StrandedBy(s.stranded, actor)
  }

  function ReservedOf(ledger: Ledger, actor: Id): (n: int) {
    if actor in ledger then ledger[actor].reserved else 0
  }

  function BalanceOf(ledger: Ledger, actor: Id): (n: int) {
    if actor in ledger then ledger[actor].balance else 0
  }

  function MintedOf(minted: map<Id, int>, actor: Id): (n: int) {
    if actor in minted then minted[actor] else 0
  }

  /** The actor whose energy an event spends: the hold's agent for a hold_response. */
  function Charged(e: Event): (actor: Id) {
    if e.body.HoldResponded? then e.body.agent else e.actor
  }

  /** The energy that the log has settled for an actor. */
  function Settled(events: seq<Event>, actor: Id): (n: int) {
    if events == [] then 0
    else
      var e := events[|events| - 1];
      Settled(events[..|events| - 1], actor) + if Charged(e) == actor then e.settled else 0
  }

  ghost predicate RowsOk(ledger: Ledger) {
    forall a | a in ledger :: 0 <= ledger[a].reserved <= ledger[a].balance
  }

  ghost predicate Balanced(s: State) {
    forall a :: ReservedOf(s.db.ledger, a) == Owed(s, a)
  }

  ghost predicate Replayed(s: State) {
    forall a :: BalanceOf(s.db.ledger, a) == MintedOf(s.minted, a) - Settled(s.db.events, a)
  }

  ghost predicate AccountsOk(s: State) {
    && s.db.ledger.Keys == s.db.actors.Keys == s.minted.Keys
    && RowsOk(s.db.ledger) && Balanced(s) && Replayed(s)
  }

  // ----- the sums under one change ------------------------------------------------------

  lemma SettledAppend(events: seq<Event>, e: Event, actor: Id)
    ensures Settled(events + [e], actor) == Settled(events, actor) + if Charged(e) == actor then e.settled else 0
  {
    assert (events + [e])[..|events|] == events;
  }

  lemma TaskReplaced(s: State, tid: nat, t: Task, actor: Id)
    requires tid in s.tasks
    ensures MapSum(s.tasks[tid := t], TaskClaim(actor))
          + (if s.tasks[tid].action.actor == actor then s.tasks[tid].Claim() else 0)
         == MapSum(s.tasks, TaskClaim(actor)) + (if t.action.actor == actor then t.Claim() else 0)
  {
    SumReplace(s.tasks, tid, t, TaskClaim(actor));
  }

  lemma TaskRemoved(s: State, tid: nat, actor: Id)
    requires tid in s.tasks
    ensures MapSum(s.tasks, TaskClaim(actor))
         == TaskClaim(actor)(s.tasks[tid]) + MapSum(s.tasks - {tid}, TaskClaim(actor))
  {
    SumRemove(s.tasks, tid, TaskClaim(actor));
  }

  lemma HoldResolved(holds: map<Id, Hold>, hold: Id, status: HoldStatus, actor: Id)
    requires hold in holds && holds[hold].status.Pending? && !status.Pending?
    ensures MapSum(holds[hold := holds[hold].(status := status)], HoldClaim(actor)) + HoldClaim(actor)(holds[hold])
         == MapSum(holds, HoldClaim(actor))
  {
    SumReplace(holds, hold, holds[hold].(status := status), HoldClaim(actor));
  }

  // ----- no settle fails ------------------------------------------------------------------

  /** What a pending hold reserved is still reserved for its agent. */
  lemma HoldCovered(s: State, hold: Id)
    requires AccountsOk(s) && hold in s.db.holds && s.db.holds[hold].status.Pending? && s.db.holds[hold].reserved > 0
    ensures s.db.holds[hold].agent in s.db.ledger
    ensures s.db.holds[hold].reserved <= s.db.ledger[s.db.holds[hold].agent].reserved
  {
    var agent := s.db.holds[hold].agent;
    SumAtLeast(s.db.holds, hold, HoldClaim(agent));
    assert ReservedOf(s.db.ledger, agent) == Owed(s, agent);
  }

  /** What a submission reserved is still reserved for its actor. */
  lemma TaskCovered(s: State, tid: nat)
    requires AccountsOk(s) && tid in s.tasks && s.tasks[tid].Claim() > 0
    ensures s.tasks[tid].action.actor in s.db.ledger
    ensures s.tasks[tid].Claim() <= s.db.ledger[s.tasks[tid].action.actor].reserved
  {
    var actor := s.tasks[tid].action.actor;
    SumAtLeast(s.tasks, tid, TaskClaim(actor));
    assert ReservedOf(s.db.ledger, actor) == Owed(s, actor);
  }

  /** Rejecting or timing out a pending hold never meets a mismatch or a lack of energy. */
  lemma HoldSettles(s: State, hold: Id)
    requires AccountsOk(s) && hold in s.db.holds && s.db.holds[hold].status.Pending? && s.db.holds[hold].reserved > 0
    ensures var h := s.db.holds[hold]; Settle(s.db.ledger, h.agent, h.reserved, CommitmentCost(h.reserved)).Ok?
  {
    HoldCovered(s, hold);
  }

  /** The settle of a commit never meets a mismatch or a lack of energy. */
  lemma TaskSettles(c: Config, s: State, tid: nat)
    requires AccountsOk(s) && TasksOk(c, s) && tid in s.tasks && s.tasks[tid].pc.Reserved?
    ensures var t := s.tasks[tid];
            t.pc.cost == t.Claim() && Settle(s.db.ledger, t.action.actor, t.pc.cost, t.pc.cost).Ok?
  {
    hide HoldTriggered, SpecOk, MeterOk, CheckedOk;
    var t := s.tasks[tid];
    assert TaskOk(c, s.db, t);
    if t.via.Some? {
      assert HoldOk(s.db, s.db.holds[t.via.value]);
    }
    TaskCovered(s, tid);
  }

  // ----- effects without a transaction ------------------------------------------------------

  lemma FailKeepsAccounts(s: State, tid: nat)
    requires AccountsOk(s) && tid in s.tasks
    ensures AccountsOk(Fail(s, tid))
  {
    forall a
      ensures Owed(Fail(s, tid), a) == Owed(s, a)
    {
      TaskRemoved(s, tid, a);
    }
    assert Balanced(Fail(s, tid)) by {
      forall a ensures ReservedOf(s.db.ledger, a) == Owed(Fail(s, tid), a) {
        assert ReservedOf(s.db.ledger, a) == Owed(s, a);
      }
    }
  }

  /** A change of one task that keeps its claim keeps all accounts. */
  lemma MoveKeepsAccounts(s: State, tid: nat, t: Task)
    requires AccountsOk(s) && tid in s.tasks
    requires t.action == s.tasks[tid].action && t.Claim() == s.tasks[tid].Claim()
    ensures AccountsOk(s.(tasks := s.tasks[tid := t]))
  {
    var s' := s.(tasks := s.tasks[tid := t]);
    forall a
      ensures ReservedOf(s'.db.ledger, a) == Owed(s', a)
    {
      TaskReplaced(s, tid, t, a);
      assert ReservedOf(s.db.ledger, a) == Owed(s, a);
    }
    assert Replayed(s') by {
      forall a ensures BalanceOf(s'.db.ledger, a) == MintedOf(s'.minted, a) - Settled(s'.db.events, a) {
        assert BalanceOf(s.db.ledger, a) == MintedOf(s.minted, a) - Settled(s.db.events, a);
      }
    }
  }

  lemma DoneKeepsAccounts(s: State, tid: nat)
    requires AccountsOk(s) && tid in s.tasks && s.tasks[tid].Claim() == 0
    ensures AccountsOk(Done(s, tid))
  {
    var s' := Done(s, tid);
    forall a
      ensures ReservedOf(s'.db.ledger, a) == Owed(s', a)
    {
      TaskRemoved(s, tid, a);
      assert ReservedOf(s.db.ledger, a) == Owed(s, a);
    }
  }

  lemma BeginKeepsAccounts(s: State, tid: nat, a: Action)
    requires AccountsOk(s) && tid !in s.tasks
    ensures AccountsOk(s.(tasks := s.tasks[tid := Task(a, None, 0, 0, Entered)]))
  {
    var s' := s.(tasks := s.tasks[tid := Task(a, None, 0, 0, Entered)]);
    forall x
      ensures ReservedOf(s'.db.ledger, x) == Owed(s', x)
    {
      SumInsert(s.tasks, tid, Task(a, None, 0, 0, Entered), TaskClaim(x));
      assert ReservedOf(s.db.ledger, x) == Owed(s, x);
    }
  }

  /** A step that touches neither ledger, holds, tasks, actors' keys nor log keeps all accounts. */
  lemma FrameAccounts(s: State, s': State)
    requires AccountsOk(s)
    requires s'.db.ledger == s.db.ledger && s'.db.actors.Keys == s.db.actors.Keys && s'.db.holds == s.db.holds
    requires s'.db.events == s.db.events && s'.tasks == s.tasks && s'.stranded == s.stranded && s'.minted == s.minted
    ensures AccountsOk(s')
  {
    forall a
      ensures ReservedOf(s'.db.ledger, a) == Owed(s', a)
    {
      assert ReservedOf(s.db.ledger, a) == Owed(s, a);
    }
    forall a
      ensures BalanceOf(s'.db.ledger, a) == MintedOf(s'.minted, a) - Settled(s'.db.events, a)
    {
      assert BalanceOf(s.db.ledger, a) == MintedOf(s.minted, a) - Settled(s.db.events, a);
    }
  }

  // ----- transactions ---------------------------------------------------------------------

  lemma SettleRow(ledger: Ledger, actor: Id, reserved: int, actual: int, a: Id)
    requires Settle(ledger, actor, reserved, actual).Ok?
    ensures var l := Settle(ledger, actor, reserved, actual).value;
            && l.Keys == ledger.Keys && (RowsOk(ledger) && actual <= reserved ==> RowsOk(l))
            && ReservedOf(l, a) == ReservedOf(ledger, a) - (if a == actor then reserved else 0)
            && BalanceOf(l, a) == BalanceOf(ledger, a) - (if a == actor then actual else 0)
  {
  }

  lemma ReserveRow(ledger: Ledger, actor: Id, cost: int, a: Id)
    requires RowsOk(ledger) && Database.Reserve(ledger, actor, cost).Ok?
    ensures var l := Database.Reserve(ledger, actor, cost).value;
            && RowsOk(l) && l.Keys == ledger.Keys
            && ReservedOf(l, a) == ReservedOf(ledger, a) + (if a == actor then cost else 0)
            && BalanceOf(l, a) == BalanceOf(ledger, a)
  {
  }

  /** Settling a reservation, for any part of it, undoes it and charges just that part. */
  lemma ReserveThenSettle(ledger: Ledger, actor: Id, cost: int, actual: int)
    requires RowsOk(ledger) && Database.Reserve(ledger, actor, cost).Ok? && 0 <= actual <= cost
    ensures Settle(Database.Reserve(ledger, actor, cost).value, actor, cost, actual)
         == Ok(ledger[actor := ledger[actor].(balance := ledger[actor].balance - actual)])
  {
    var row := ledger[actor];
    var held := ledger[actor := row.(reserved := row.reserved + cost)];
    assert held[actor := Account(row.balance - actual, row.reserved)]
             == ledger[actor := row.(balance := row.balance - actual)];
  }

  /**
   * The step from `s` to `s'`, seen by one actor: its reservation, what it is
   * owed, its balance, what was minted for it and what the log settled move together.
   */
  ghost predicate MovesTogether(s: State, s': State, a: Id) {
    && ReservedOf(s'.db.ledger, a) - ReservedOf(s.db.ledger, a) == Owed(s', a) - Owed(s, a)
    && BalanceOf(s'.db.ledger, a) - BalanceOf(s.db.ledger, a)
       == (MintedOf(s'.minted, a) - MintedOf(s.minted, a)) - (Settled(s'.db.events, a) - Settled(s.db.events, a))
  }

  lemma TogetherKeepsAccounts(s: State, s': State)
    requires AccountsOk(s) && RowsOk(s'.db.ledger)
    requires s'.db.ledger.Keys == s'.db.actors.Keys == s'.minted.Keys
    requires forall a :: MovesTogether(s, s', a)
    ensures AccountsOk(s')
  {
    forall a
      ensures ReservedOf(s'.db.ledger, a) == Owed(s', a)
      ensures BalanceOf(s'.db.ledger, a) == MintedOf(s'.minted, a) - Settled(s'.db.events, a)
    {
      assert MovesTogether(s, s', a);
      assert ReservedOf(s.db.ledger, a) == Owed(s, a);
      assert BalanceOf(s.db.ledger, a) == MintedOf(s.minted, a) - Settled(s.db.events, a);
    }
  }

  /** A timeout: the hold's claim and its reservation go, the commitment is charged. */
  lemma TimeoutKeepsAccounts(s: State, tid: nat, hold: Id, pc: Pc)
    requires AccountsOk(s) && tid in s.tasks && s.tasks[tid].At(pc).Claim() == s.tasks[tid].Claim()
    requires TxTimeout(s.db, hold, s.now).Ok?
    ensures AccountsOk(ApplyTimeout(s, tid, hold, pc))
  {
    hide MovesTogether, RowsOk, Balanced, Replayed, TxTimeout;
    var s' := ApplyTimeout(s, tid, hold, pc);
    forall a
      ensures MovesTogether(s, s', a)
    {
      TimeoutMovesTogether(s, tid, hold, pc, a);
    }
    TimeoutMovesTogether(s, tid, hold, pc, ROOT);
    TogetherKeepsAccounts(s, s');
  }

  lemma TimeoutMovesTogether(s: State, tid: nat, hold: Id, pc: Pc, a: Id)
    requires AccountsOk(s) && tid in s.tasks && s.tasks[tid].At(pc).Claim() == s.tasks[tid].Claim()
    requires TxTimeout(s.db, hold, s.now).Ok?
    ensures var s' := ApplyTimeout(s, tid, hold, pc);
            MovesTogether(s, s', a) && RowsOk(s'.db.ledger) && s'.db.ledger.Keys == s.db.ledger.Keys
  {
    hide MapSum, Settle, RowsOk, Balanced, Replayed, Settled, AppendEvent;
    var s' := ApplyTimeout(s, tid, hold, pc);
    var h := s.db.holds[hold];
    HoldResolved(s.db.holds, hold, TimedOut, a);
    TaskReplaced(s, tid, s.tasks[tid].At(pc), a);
    SettledAppend(s.db.events, s'.db.events[|s.db.events|], a);
    if h.reserved > 0 {
      SettleRow(s.db.ledger, h.agent, h.reserved, CommitmentCost(h.reserved), a);
    }
  }

  /** A trigger: the new hold's claim is what was reserved for it. */
  lemma TriggerKeepsAccounts(s: State, tid: nat, hold: Id, id: Id)
    requires AccountsOk(s) && tid in s.tasks && s.tasks[tid].Claim() == 0
    requires TxTrigger(s.db, hold, id, s.tasks[tid].action, s.now).Ok?
    ensures AccountsOk(ApplyTrigger(s, tid, hold, id))
  {
    hide MovesTogether, RowsOk, Balanced, Replayed, TxTrigger;
    var s' := ApplyTrigger(s, tid, hold, id);
    forall a
      ensures MovesTogether(s, s', a)
    {
      TriggerMovesTogether(s, tid, hold, id, a);
    }
    TriggerMovesTogether(s, tid, hold, id, ROOT);
    TogetherKeepsAccounts(s, s');
  }

  lemma TriggerMovesTogether(s: State, tid: nat, hold: Id, id: Id, a: Id)
    requires AccountsOk(s) && tid in s.tasks && s.tasks[tid].Claim() == 0
    requires TxTrigger(s.db, hold, id, s.tasks[tid].action, s.now).Ok?
    ensures var s' := ApplyTrigger(s, tid, hold, id);
            MovesTogether(s, s', a) && RowsOk(s'.db.ledger) && s'.db.ledger.Keys == s.db.ledger.Keys
  {
    hide MapSum, Database.Reserve, RowsOk, Balanced, Replayed, Settled, AppendEvent;
    var s', t := ApplyTrigger(s, tid, hold, id), s.tasks[tid];
    SumInsert(s.db.holds, hold, s'.db.holds[hold], HoldClaim(a));
    TaskRemoved(s, tid, a);
    SettledAppend(s.db.events, s'.db.events[|s.db.events|], a);
    ReserveRow(s.db.ledger, t.action.actor, QuoteCost(t.action), a);
  }

  /** An approval hands the hold's claim to the re-submission. */
  lemma ApproveKeepsAccounts(c: Config, s: State, tid: nat, hold: Id)
    requires AccountsOk(s) && TasksOk(c, s) && tid in s.tasks && s.tasks[tid].Claim() == 0
    requires TxRespond(s.db, hold, true, s.tasks[tid].action.actor, s.now).Ok?
    ensures AccountsOk(ApplyAnswer(s, tid, hold, true))
  {
    hide MovesTogether, RowsOk, Balanced, Replayed, TxRespond, TasksOk;
    var s' := ApplyAnswer(s, tid, hold, true);
    forall a
      ensures MovesTogether(s, s', a)
    {
      ApproveMovesTogether(c, s, tid, hold, a);
    }
    ApproveMovesTogether(c, s, tid, hold, ROOT);
    TogetherKeepsAccounts(s, s');
  }

  lemma ApproveMovesTogether(c: Config, s: State, tid: nat, hold: Id, a: Id)
    requires AccountsOk(s) && TasksOk(c, s) && tid in s.tasks && s.tasks[tid].Claim() == 0
    requires TxRespond(s.db, hold, true, s.tasks[tid].action.actor, s.now).Ok?
    ensures var s' := ApplyAnswer(s, tid, hold, true);
            MovesTogether(s, s', a) && s'.db.ledger == s.db.ledger
  {
    hide MapSum, RowsOk, Balanced, Replayed, Settled, AppendEvent, TaskOk;
    var s', t := ApplyAnswer(s, tid, hold, true), s.tasks[tid];
    assert HoldOk(s.db, s.db.holds[hold]);
    HoldResolved(s.db.holds, hold, Approved, a);
    TaskReplaced(s, tid, Resubmit(t, hold, s.db.holds[hold]), a);
    SettledAppend(s.db.events, s'.db.events[|s.db.events|], a);
  }

  /** A rejection: the hold's claim and its reservation go, the commitment is charged to its agent. */
  lemma RejectKeepsAccounts(s: State, tid: nat, hold: Id)
    requires AccountsOk(s) && tid in s.tasks && s.tasks[tid].Claim() == 0
    requires TxRespond(s.db, hold, false, s.tasks[tid].action.actor, s.now).Ok?
    ensures AccountsOk(ApplyAnswer(s, tid, hold, false))
  {
    hide MovesTogether, RowsOk, Balanced, Replayed, TxRespond;
    var s' := ApplyAnswer(s, tid, hold, false);
    forall a
      ensures MovesTogether(s, s', a)
    {
      RejectMovesTogether(s, tid, hold, a);
    }
    RejectMovesTogether(s, tid, hold, ROOT);
    TogetherKeepsAccounts(s, s');
  }

  lemma RejectMovesTogether(s: State, tid: nat, hold: Id, a: Id)
    requires AccountsOk(s) && tid in s.tasks && s.tasks[tid].Claim() == 0
    requires TxRespond(s.db, hold, false, s.tasks[tid].action.actor, s.now).Ok?
    ensures var s' := ApplyAnswer(s, tid, hold, false);
            MovesTogether(s, s', a) && RowsOk(s'.db.ledger) && s'.db.ledger.Keys == s.db.ledger.Keys
  {
    hide MapSum, Settle, RowsOk, Balanced, Replayed, Settled, AppendEvent;
    var s' := ApplyAnswer(s, tid, hold, false);
    var h := s.db.holds[hold];
    HoldResolved(s.db.holds, hold, Rejected, a);
    TaskRemoved(s, tid, a);
    SettledAppend(s.db.events, s'.db.events[|s.db.events|], a);
    if h.reserved > 0 {
      SettleRow(s.db.ledger, h.agent, h.reserved, CommitmentCost(h.reserved), a);
    }
  }

  lemma ReserveKeepsAccounts(c: Config, s: State, tid: nat)
    requires AccountsOk(s) && tid in s.tasks && s.tasks[tid].pc.Specced?
    ensures AccountsOk(ApplyReserve(s, tid, s.tasks[tid].pc.checked, s.tasks[tid].pc.spec))
  {
    var t := s.tasks[tid];
    var s' := ApplyReserve(s, tid, t.pc.checked, t.pc.spec);
    if s' == Fail(s, tid) {
      FailKeepsAccounts(s, tid);
    } else {
      forall a
        ensures MovesTogether(s, s', a) && RowsOk(s'.db.ledger) && s'.db.ledger.Keys == s.db.ledger.Keys
      {
        hide MapSum, Database.Reserve;
        TaskReplaced(s, tid, s'.tasks[tid], a);
        if t.via.None? {
          ReserveRow(s.db.ledger, t.action.actor, QuoteCost(t.action), a);
        }
      }
      TogetherKeepsAccounts(s, s');
    }
  }

  /** The rows that a commit adds: a new actor starts with its grant and nothing reserved. */
  lemma SpecRow(db: Db, act: Action, spec: Spec, now: nat, minted: map<Id, int>, a: Id)
    requires RowsOk(db.ledger) && ApplySpec(db, act, spec, now).Ok?
    requires db.ledger.Keys == db.actors.Keys == minted.Keys
    ensures var q := ApplySpec(db, act, spec, now).value;
            var minted' := if spec.NewActor? then minted[spec.request.id := spec.request.balance] else minted;
            && RowsOk(q.ledger) && q.ledger.Keys == q.actors.Keys == minted'.Keys
            && ReservedOf(q.ledger, a) == ReservedOf(db.ledger, a)
            && BalanceOf(q.ledger, a) - BalanceOf(db.ledger, a) == MintedOf(minted', a) - MintedOf(minted, a)
  {
  }

  /** A commit: the task's claim and its reservation go, the cost is charged. */
  lemma CommitKeepsAccounts(c: Config, s: State, tid: nat)
    requires AccountsOk(s) && TasksOk(c, s) && tid in s.tasks && s.tasks[tid].pc.Reserved?
    ensures AccountsOk(ApplyCommit(s, tid, s.tasks[tid].pc.checked, s.tasks[tid].pc.spec, s.tasks[tid].pc.cost))
  {
    hide MovesTogether, RowsOk, Balanced, Replayed, TxFinalize, TasksOk;
    var t := s.tasks[tid];
    var s' := ApplyCommit(s, tid, t.pc.checked, t.pc.spec, t.pc.cost);
    TaskSettles(c, s, tid);
    if s' == Fail(s, tid) {
      FailKeepsAccounts(s, tid);
    } else {
      forall a
        ensures MovesTogether(s, s', a)
      {
        CommitMovesTogether(s, tid, a);
      }
      CommitMovesTogether(s, tid, ROOT);
      TogetherKeepsAccounts(s, s');
    }
  }

  lemma CommitMovesTogether(s: State, tid: nat, a: Id)
    requires AccountsOk(s) && tid in s.tasks && s.tasks[tid].pc.Reserved?
    requires s.tasks[tid].Claim() == s.tasks[tid].pc.cost
    requires var t := s.tasks[tid]; TxFinalize(s.db, t.action, t.pc.cost, t.pc.spec, t.pc.checked, t.via, s.now).Ok?
    ensures var t := s.tasks[tid];
            var s' := ApplyCommit(s, tid, t.pc.checked, t.pc.spec, t.pc.cost);
            MovesTogether(s, s', a) && RowsOk(s'.db.ledger) && s'.db.ledger.Keys == s'.db.actors.Keys == s'.minted.Keys
  {
    hide MapSum, Settle, ApplySpec, Balanced, Replayed, RowsOk, Settled, AppendEvent, TaskClaim, HoldClaim;
    var t := s.tasks[tid];
    var s' := ApplyCommit(s, tid, t.pc.checked, t.pc.spec, t.pc.cost);
    TaskReplaced(s, tid, s'.tasks[tid], a);
    SettledAppend(s.db.events, s'.db.events[|s.db.events|], a);
    var db1 := s.db.(ledger :=
            if t.pc.cost == 0 then s.db.ledger else Settle(s.db.ledger, t.action.actor, t.pc.cost, t.pc.cost).value);
    if t.pc.cost > 0 {
      SettleRow(s.db.ledger, t.action.actor, t.pc.cost, t.pc.cost, a);
    }
    SpecRow(db1, t.action, t.pc.spec, s.now, s.minted, a);
  }

  /** A tick credits and mints the same amounts, and cannot fail. */
  lemma {:induction false} CreditsMinted(ledger: Ledger, minted: map<Id, int>, list: seq<Id>, credits: seq<int>)
    requires RowsOk(ledger) && ledger.Keys == minted.Keys && |list| == |credits|
    requires forall x | x in list :: x in ledger
    ensures CreditAll(ledger, list, credits).Ok?
    ensures var l, m := CreditAll(ledger, list, credits).value, MintAll(minted, list, credits);
            && RowsOk(l) && l.Keys == ledger.Keys == m.Keys
            && forall a :: ReservedOf(l, a) == ReservedOf(ledger, a)
                        && BalanceOf(l, a) - BalanceOf(ledger, a) == MintedOf(m, a) - MintedOf(minted, a)
    decreases |list|
  {
    if list != [] {
      var n := |list| - 1;
      CreditsMinted(ledger, minted, list[..n], credits[..n]);
      assert list[n] in list;
    }
  }

  lemma TickKeepsAccounts(s: State, list: seq<Id>, credits: seq<int>)
    requires AccountsOk(s) && |list| == |credits|
    requires forall x | x in list :: x in s.db.actors
    ensures AccountsOk(ApplyTick(s, list, credits))
  {
    hide CreditAll, MintAll;
    CreditsMinted(s.db.ledger, s.minted, list, credits);
    var s' := ApplyTick(s, list, credits);
    forall a
      ensures MovesTogether(s, s', a)
    {
      assert ReservedOf(s'.db.ledger, a) == ReservedOf(s.db.ledger, a);
    }
    TogetherKeepsAccounts(s, s');
  }

  lemma AnswerKeepsAccounts(c: Config, s: State, tid: nat, hold: Id, approve: bool)
    requires AccountsOk(s) && TasksOk(c, s) && tid in s.tasks && s.tasks[tid].pc == Responding(hold, approve)
    ensures AccountsOk(ApplyAnswer(s, tid, hold, approve))
  {
    hide AccountsOk, TxRespond, MeterOk;
    var t := s.tasks[tid];
    assert TaskOk(c, s.db, t);
    if TxRespond(s.db, hold, approve, t.action.actor, s.now).Err? {
      FailKeepsAccounts(s, tid);
    } else if approve {
      ApproveKeepsAccounts(c, s, tid, hold);
    } else {
      RejectKeepsAccounts(s, tid, hold);
    }
  }

  lemma ConsumeKeepsAccounts(s: State, tid: nat, spec: Spec, charge: Charge)
    requires AccountsOk(s) && tid in s.tasks && s.tasks[tid].pc.Metering?
    ensures AccountsOk(ApplyConsume(s, tid, spec, charge))
  {
    hide AccountsOk, TxConsume;
    MoveKeepsAccounts(s, tid, s.tasks[tid].At(Metered(spec)));
    FrameAccounts(Goto(s, tid, Metered(spec)), ApplyConsume(s, tid, spec, charge));
  }

  lemma ManageKeepsAccounts(s: State, tid: nat, subject: Id, op: LifecycleOp)
    requires AccountsOk(s) && tid in s.tasks && s.tasks[tid].Claim() == 0
    ensures AccountsOk(Done(s.(db := TxLifecycle(s.db, subject, op)), tid))
  {
    hide AccountsOk, TxLifecycle;
    LifecycleKeys(s.db, subject, op);
    DoneKeepsAccounts(s, tid);
    FrameAccounts(Done(s, tid), Done(s.(db := TxLifecycle(s.db, subject, op)), tid));
  }

  lemma LifecycleKeys(db: Db, subject: Id, op: LifecycleOp)
    ensures TxLifecycle(db, subject, op).actors.Keys == db.actors.Keys
  {
  }

  lemma LapseKeepsAccounts(s: State, tid: nat, id: Id)
    requires AccountsOk(s) && tid in s.tasks && s.tasks[tid].pc.Entered? && id in s.db.envelopes
    ensures AccountsOk(Goto(s.(db := SetEnvelopeStatus(s.db, id, EnvExpired)), tid, Lapsed))
  {
    hide AccountsOk;
    MoveKeepsAccounts(s, tid, s.tasks[tid].At(Lapsed));
    FrameAccounts(Goto(s, tid, Lapsed), Goto(s.(db := SetEnvelopeStatus(s.db, id, EnvExpired)), tid, Lapsed));
  }

  /** Every effect of every step keeps the accounts. */
  lemma ApplyKeepsAccounts(c: Config, s: State, e: Effect)
    requires AccountsOk(s) && TasksOk(c, s) && Applicable(s, e) && EffectOk(c, s, e)
    ensures AccountsOk(Apply(s, e))
  {
    hide AccountsOk, TasksOk, TaskOk, ApplyTimeout, ApplyTrigger, ApplyAnswer, ApplyReserve, ApplyCommit, ApplyConsume,
         ApplyTick, TxLifecycle;
    match e
    case Begin(tid, a) =>
      if tid !in s.tasks {
        BeginKeepsAccounts(s, tid, a);
      }
    case FailTask(tid) => FailKeepsAccounts(s, tid);
    case Move(tid, pc) => MoveKeepsAccounts(s, tid, s.tasks[tid].At(pc));
    case Finish(tid) => DoneKeepsAccounts(s, tid);
    case LapseEnvelope(tid, id) => LapseKeepsAccounts(s, tid, id);
    case TimeOutHold(tid, hold, pc) => TimeoutOrFail(s, tid, hold, pc);
    case TriggerHold(tid, hold, id) => TriggerOrFail(s, tid, hold, id);
    case AnswerHold(tid, hold, approve) => AnswerKeepsAccounts(c, s, tid, hold, approve);
    case ReserveFor(tid, checked, spec) => ReserveKeepsAccounts(c, s, tid);
    case Commit(tid, checked, spec, cost) => CommitKeepsAccounts(c, s, tid);
    case ConsumeBudget(tid, spec, charge) => ConsumeKeepsAccounts(s, tid, spec, charge);
    case ManageActor(tid, subject, op) =>
      MeteredClaim(c, s, tid);
      ManageKeepsAccounts(s, tid, subject, op);
    case CreditTick(list, credits) => TickKeepsAccounts(s, list, credits);
    case _ => FrameAccounts(s, Apply(s, e));
  }

  lemma MeteredClaim(c: Config, s: State, tid: nat)
    requires TasksOk(c, s) && tid in s.tasks && s.tasks[tid].pc.Metered?
    ensures s.tasks[tid].Claim() == 0
  {
    assert TaskOk(c, s.db, s.tasks[tid]);
  }

  lemma TimeoutOrFail(s: State, tid: nat, hold: Id, pc: Pc)
    requires AccountsOk(s) && tid in s.tasks && s.tasks[tid].At(pc).Claim() == s.tasks[tid].Claim()
    ensures AccountsOk(ApplyTimeout(s, tid, hold, pc))
  {
    hide AccountsOk, TxTimeout;
    if TxTimeout(s.db, hold, s.now).Ok? {
      TimeoutKeepsAccounts(s, tid, hold, pc);
    } else {
      FailKeepsAccounts(s, tid);
    }
  }

  lemma TriggerOrFail(s: State, tid: nat, hold: Id, id: Id)
    requires AccountsOk(s) && tid in s.tasks && s.tasks[tid].Claim() == 0
    ensures AccountsOk(ApplyTrigger(s, tid, hold, id))
  {
    hide AccountsOk, TxTrigger;
    if TxTrigger(s.db, hold, id, s.tasks[tid].action, s.now).Ok? {
      TriggerKeepsAccounts(s, tid, hold, id);
    } else {
      FailKeepsAccounts(s, tid);
    }
  }
}

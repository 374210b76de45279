/**
 * The kernel as an object over its stores. Each method does what the source
 * does, in place, and records the steps of the transition system that it took,
 * so that whatever holds of every run holds of the object.
 */
module Runtime {
  import opened Basics
  import opened Merkle
  import opened AuditStore
  import opened Consent
  import opened Database
  import opened Kernel
  import opened Stores
  import opened Tasks
  import opened Accounting
  import opened Expiry
  import opened Conservation
  import opened Theorems
  import opened Overlap
  import opened Calls
  import opened Payouts
  import opened Answers
  import opened Stranding
  import opened Stability
  import Tick

  /** A step of this task other than a crash. */
  predicate Own(tid: nat, l: Label) {
    OfTask(l) && !l.Abort? && l.tid == tid
  }

  /** `later` extends `earlier` by steps of this task alone. */
  ghost predicate Uninterrupted(tid: nat, earlier: seq<Label>, later: seq<Label>) {
    && earlier <= later
    && forall i | |earlier| <= i < |later| :: Own(tid, later[i])
  }

  /** A transaction committed what `spec` says, or changed nothing. */
  ghost predicate Transacted<T>(r: Result<T>, spec: Result<Db>, before: Db, after: Db) {
    match spec
    case Ok(db) => r.Ok? && after == db
    case Err(_) => r.Err? && after == before
  }

  /** The part that reject and timeout share: resolve, release the reserve, keep the commitment. */
  function Resolution(db: Db, hold: Id, status: HoldStatus, charge: bool): (r: Result<(Db, nat)>) {
    var holds :- ResolveHold(db.holds, hold, status);
    var row := db.holds[hold];
    if !charge || row.reserved == 0 then Ok((db.(holds := holds), 0))
    else
      var cost := CommitmentCost(row.reserved);
      var ledger :- Settle(db.ledger, row.agent, row.reserved, cost);
      Ok((db.(holds := holds, ledger := ledger), cost))
  }

  lemma RespondResolves(db: Db, hold: Id, approve: bool, human: Id, now: nat)
    ensures match Resolution(db, hold, if approve then Approved else Rejected, !approve)
            case Err(_) => TxRespond(db, hold, approve, human, now).Err?
            case Ok((db1, cost)) =>
              && hold in db.holds
              && TxRespond(db, hold, approve, human, now)
                 == AppendEvent(db1, Event(human, HOLD_PREFIX + hold, db.holds[hold].reserved, cost, now,
                                           HoldResponded(hold, db.holds[hold].agent, approve)))
  {
    hide Settle, AppendEvent, CommitmentCost;
  }

  lemma TimeoutResolves(db: Db, hold: Id, now: nat)
    ensures match Resolution(db, hold, TimedOut, true)
            case Err(_) => TxTimeout(db, hold, now).Err?
            case Ok((db1, cost)) =>
              && hold in db.holds
              && TxTimeout(db, hold, now)
                 == AppendEvent(db1, Event(db.holds[hold].agent, HOLD_PREFIX + hold, db.holds[hold].reserved, cost, now,
                                           HoldTimedOut(hold)))
  {
    hide Settle, AppendEvent;
  }

  class KernelRuntime {
    const config: Config
    const ledger: EnergyLedger
    const actors: ActorStore
    const envelopes: EnvelopeStore
    const log: EventLog
    const audit: AuditLog
    var clock: nat
    ghost var s: State
    ghost var history: seq<Label>

    function Stores(): (r: set<object>) {
      {ledger, actors, envelopes, log, audit}
    }

    /** The committed tables. */
    function Tables(): (db: Db)
      reads Stores()
    {
      Db(ledger.accounts, actors.actors, envelopes.envelopes, envelopes.holds,
         log.events, audit.rows, audit.checkpoints)
    }

    /** The object is in the state that its history leads to. */
    ghost predicate Valid()
      reads this, Stores()
    {
      && s == Run(config, Init(), history)
      && s.db == Tables() && s.now == clock
    }

    constructor (config: Config)
      ensures Valid() && history == []
      ensures fresh(Stores())
    {
      this.config := config;
      ledger := new EnergyLedger();
      actors := new ActorStore();
      envelopes := new EnvelopeStore();
      log := new EventLog();
      audit := new AuditLog();
      clock := 0;
      s := Init();
      history := [];
    }

    /** Takes note of a step of the transition system. */
    ghost method Note(l: Label)
      requires s == Run(config, Init(), history)
      modifies this`s, this`history
      ensures s == Run(config, Init(), history)
      ensures s == Step(config, old(s), l) && history == old(history) + [l]
    {
      hide Step;
      s := Step(config, s, l);
      history := history + [l];
      assert history[..|history| - 1] == old(history);
    }

    /** Takes note of a task's step that the object has made. */
    ghost method Record(tid: nat, l: Label, e: Effect)
      requires s == Run(config, Init(), history)
      requires Own(tid, l) && tid in s.tasks && DecideTask(config, s, l) == e
      modifies this`s, this`history
      ensures s == Run(config, Init(), history)
      ensures Applicable(old(s), e) && s == Apply(old(s), e)
      ensures history == old(history) + [l]
    {
      hide Run, DecideTask, Apply;
      Note(l);
    }

    lemma ValidReachable()
      requires Valid()
      ensures Reachable(config, s)
    {
      hide Run;
    }

    // ----- transactions -----------------------------------------------------------------

    method Rollback(saved: Db)
      modifies Stores()
      ensures Tables() == saved
    {
      ledger.accounts := saved.ledger;
      actors.actors := saved.actors;
      envelopes.envelopes := saved.envelopes;
      envelopes.holds := saved.holds;
      log.events := saved.events;
      audit.rows := saved.rows;
      audit.checkpoints := saved.checkpoints;
    }

    /** The event and its leaf, inside the caller's transaction. */
    method Append(e: Event) returns (r: Result<Receipt>)
      modifies log, audit`rows
      ensures r.Ok? <==> AppendEvent(old(Tables()), e).Ok?
      ensures r.Ok? ==> Tables() == AppendEvent(old(Tables()), e).value && r.value == LastReceipt(Tables())
    {
      hide AppendLeaf, EventHash;
      var receipt := log.AppendInTx(e);
      var leaf := audit.AppendLeafInTx(receipt.index, receipt.hash);
      if leaf.Err? {
        return Err(leaf.error);
      }
      return Ok(receipt);
    }

    method FinalizeEnergyAndEvent(a: Action, cost: nat, spec: Spec, checked: Option<Id>, via: Option<Id>)
      returns (r: Result<Receipt>)
      modifies Stores()
      ensures Transacted(r, TxFinalize(old(Tables()), a, cost, spec, checked, via, clock), old(Tables()), Tables())
      ensures r.Ok? ==> r.value == LastReceipt(Tables())
    {
      hide Settle, AppendLeaf, EventHash, CreateAccount, AppendEvent, ApplySpec;
      var saved := Tables();
      if cost > 0 {
        var settled := ledger.SettleInTx(a.actor, cost, cost);
        if settled.Err? {
          return Err(settled.error);
        }
      }
      var created := Create(a, spec);
      if created.Err? {
        Rollback(saved);
        return Err(created.error);
      }
      r := Append(Event(a.actor, a.target, cost, cost, clock, Acted(a.kind, checked, via)));
      if r.Err? {
        Rollback(saved);
      }
    }

    /** The actor or envelope that a commit creates, inside the caller's transaction. */
    method Create(a: Action, spec: Spec) returns (r: Result<()>)
      modifies ledger, actors, envelopes`envelopes
      ensures r.Ok? <==> ApplySpec(old(Tables()), a, spec, clock).Ok?
      ensures r.Ok? ==> Tables() == ApplySpec(old(Tables()), a, spec, clock).value
    {
      hide CreateAccount;
      match spec
      case NewActor(q) =>
        r := ledger.CreateActorInTx(q.id, q.balance);
        if r.Ok? {
          r := actors.CreateInTx(q.id, NewActorRow(a.actor, q));
        }
      case NewEnvelope(id, q, parent) =>
        r := envelopes.CreateInTx(id, NewEnvelopeRow(a.actor, q, parent, clock, log.Count()));
      case _ => r := Ok(());
    }

    /** Hold trigger: reserve, hold_request event and hold row in one transaction. */
    method RequestHold(hold: Id, envelope: Id, a: Action) returns (r: Result<()>)
      modifies Stores()
      ensures Transacted(r, TxTrigger(old(Tables()), hold, envelope, a, clock), old(Tables()), Tables())
    {
      hide Database.Reserve, AppendEvent, AppendLeaf, EventHash, QuoteCost;
      var saved := Tables();
      var cost := QuoteCost(a);
      r := ledger.ReserveInTx(a.actor, cost);
      if r.Err? {
        return;
      }
      var appended := Append(Event(a.actor, HOLD_PREFIX + hold, cost, 0, clock, HoldRequested(hold, a.kind, a.target)));
      if appended.Err? {
        Rollback(saved);
        return Err(appended.error);
      }
      r := envelopes.CreateHoldRequestInTx(hold, Hold(envelope, a.actor, a, cost, Pending, clock));
      if r.Err? {
        Rollback(saved);
      }
    }

    /** Resolves a hold and, where it is charged, releases its reserve and keeps the commitment. */
    method ResolveHoldRow(hold: Id, status: HoldStatus, charge: bool) returns (r: Result<nat>)
      modifies envelopes`holds, ledger
      ensures match Resolution(old(Tables()), hold, status, charge)
              case Ok((db, cost)) => r == Ok(cost) && Tables() == db
              case Err(_) => r.Err? && Tables() == old(Tables())
    {
      hide Settle, CommitmentCost;
      var before := envelopes.holds;
      var resolved := envelopes.ResolveHoldRequestInTx(hold, status);
      if resolved.Err? {
        return Err(resolved.error);
      }
      var row := before[hold];
      if !charge || row.reserved == 0 {
        return Ok(0);
      }
      var cost := CommitmentCost(row.reserved);
      var settled := ledger.SettleInTx(row.agent, row.reserved, cost);
      if settled.Err? {
        envelopes.holds := before;
        return Err(settled.error);
      }
      return Ok(cost);
    }

    /** The transaction of a hold_response: resolve, settle the commitment on reject, write the event. */
    method AnswerRequest(hold: Id, approve: bool, human: Id) returns (r: Result<Receipt>)
      modifies Stores()
      ensures Transacted(r, TxRespond(old(Tables()), hold, approve, human, clock), old(Tables()), Tables())
      ensures r.Ok? ==> r.value == LastReceipt(Tables())
    {
      hide AppendEvent, Resolution, TxRespond;
      var saved := Tables();
      RespondResolves(saved, hold, approve, human, clock);
      var cost := ResolveHoldRow(hold, if approve then Approved else Rejected, !approve);
      if cost.Err? {
        return Err(cost.error);
      }
      var row := saved.holds[hold];
      r := Append(Event(human, HOLD_PREFIX + hold, row.reserved, cost.value, clock,
                              HoldResponded(hold, row.agent, approve)));
      if r.Err? {
        Rollback(saved);
      }
    }

    /** The transaction that times one hold out. */
    method TimeOut(hold: Id) returns (r: Result<()>)
      modifies Stores()
      ensures Transacted(r, TxTimeout(old(Tables()), hold, clock), old(Tables()), Tables())
    {
      hide AppendEvent, Resolution, TxTimeout;
      var saved := Tables();
      TimeoutResolves(saved, hold, clock);
      var cost := ResolveHoldRow(hold, TimedOut, true);
      if cost.Err? {
        return Err(cost.error);
      }
      var row := saved.holds[hold];
      var appended := Append(Event(row.agent, HOLD_PREFIX + hold, row.reserved, cost.value, clock, HoldTimedOut(hold)));
      if appended.Err? {
        Rollback(saved);
        return Err(appended.error);
      }
      return Ok(());
    }

    /** Consume the budget and, on a Halt checkpoint, expire the envelope. */
    method ConsumeBudget(id: Id, amount: nat, level: CheckpointLevel) returns (r: Result<()>)
      modifies envelopes
      ensures Transacted(r, TxConsume(old(Tables()), id, amount, level), old(Tables()), Tables())
    {
      var consumed := envelopes.ConsumeBudgetInTx(id, amount);
      if consumed.Err? {
        return Err(consumed.error);
      }
      if level.Halt? {
        envelopes.SetStatusInTx(id, EnvExpired);
      }
      return Ok(());
    }

    /** The lifecycle operation after the commit. */
    method ExecuteLifecycle(subject: Id, op: LifecycleOp)
      modifies actors
      ensures Tables() == TxLifecycle(old(Tables()), subject, op)
    {
      if subject in actors.actors {
        match op
        case Freeze => actors.ExecuteFreeze(subject);
        case Terminate => actors.ExecuteFreeze(subject);
        case Unfreeze => actors.SetStatusInTx(subject, Active);
        case UpdateEnergyShare(share) =>
          if share >= 0.0 {
            actors.UpdateEnergyShareInTx(subject, share);
          }
      }
    }

    // ----- submit_action ------------------------------------------------------------------

    /** Times out the overdue holds of an envelope; no hold is in the way and no settle fails. */
    method ExpireTimedOutHolds(envelope: Id, timeoutSecs: int, ghost tid: nat, ghost reading: seq<Id> -> Label,
                               ghost checked: Option<Id>, ghost thenFail: bool)
      returns (r: Result<()>)
      requires Valid() && tid in s.tasks
      requires forall list | IsPendingList(envelopes.holds, envelope, list) ::
                 && Own(tid, reading(list))
                 && DecideTask(config, s, reading(list))
                      == Move(tid, Expiring(checked, list, clock, timeoutSecs, thenFail))
      modifies this`s, this`history, Stores()
      ensures Went(tid, old(history), old(s.receipts))
      ensures r.Ok?
      ensures if thenFail then tid !in s.tasks
              else s.tasks == old(s.tasks)[tid := old(s.tasks[tid]).At(Cleared(checked))]
      ensures Expired(old(Tables()), Tables(), envelope, timeoutSecs, clock)
    {
      hide Run, DecideTask, Progress, Expired, IsPendingList, Uninterrupted;
      var holds := envelopes.ListPendingHoldsForEnvelope(envelope);
      ghost var pc, before, started := Expiring(checked, holds, clock, timeoutSecs, thenFail), Tables(), history;
      Moves(tid, reading(holds), pc);
      started := history;
      ExpireEach(holds, envelope, timeoutSecs, tid);
      HistoryGrows(tid, old(history), started, history);
      started := history;
      EndExpiry(tid, checked, thenFail);
      HistoryGrows(tid, old(history), started, history);
      ProgressEnds(before, Tables(), holds, envelope, timeoutSecs, clock);
      return Ok(());
    }

    /** The loop over the listed holds. */
    method ExpireEach(holds: seq<Id>, envelope: Id, timeoutSecs: int, ghost tid: nat)
      requires Valid() && tid in s.tasks && IsPendingList(envelopes.holds, envelope, holds)
      requires var pc := s.tasks[tid].pc;
               pc.Expiring? && pc.todo == holds && pc.asOf == clock && pc.timeoutSecs == timeoutSecs
      modifies this`s, this`history, Stores()
      ensures Went(tid, old(history), old(s.receipts))
      ensures s.tasks == old(s.tasks)[tid := old(s.tasks[tid]).At(old(s.tasks[tid].pc).(todo := []))]
      ensures Progress(old(Tables()), Tables(), holds, |holds|, envelope, timeoutSecs, clock)
    {
      hide Run, Progress, TxTimeout, IsPendingList, Uninterrupted;
      ghost var before, task := Tables(), s.tasks[tid];
      ProgressStarts(before, holds, envelope, timeoutSecs, clock);
      assert holds[0..] == holds;
      for i := 0 to |holds|
        invariant Went(tid, old(history), old(s.receipts))
        invariant s.tasks == old(s.tasks)[tid := task.At(task.pc.(todo := holds[i..]))]
        invariant Progress(before, Tables(), holds, i, envelope, timeoutSecs, clock)
      {
        ghost var p, earlier := Tables(), history;
        PendingInTurn(before, p, holds, i, envelope, timeoutSecs, clock);
        assert holds[i..][1..] == holds[i + 1..];
        ExpireOne(holds[i], timeoutSecs, tid);
        HistoryGrows(tid, old(history), earlier, history);
        ProgressGoesOn(before, p, Tables(), holds, i, envelope, timeoutSecs, clock);
      }
      assert holds[|holds|..] == [];
    }

    ghost method EndExpiry(tid: nat, checked: Option<Id>, thenFail: bool)
      requires Valid() && tid in s.tasks && s.tasks[tid].pc.Expiring? && s.tasks[tid].pc.todo == []
      requires s.tasks[tid].pc.checked == checked && s.tasks[tid].pc.thenFail == thenFail
      modifies this`s, this`history
      ensures Went(tid, old(history), old(s.receipts))
      ensures if thenFail then tid !in s.tasks
              else s.tasks == old(s.tasks)[tid := old(s.tasks[tid]).At(Cleared(checked))]
    {
      hide Run, DecideTask;
      ExpiryEnds(config, s, tid);
      if thenFail {
        Fails(tid, Expire(tid));
      } else {
        Moves(tid, Expire(tid), Cleared(checked));
      }
    }

    /** One iteration of the loop: times the hold out if it is overdue, which cannot fail. */
    method ExpireOne(hold: Id, timeoutSecs: int, ghost tid: nat)
      requires Valid() && tid in s.tasks
      requires hold in envelopes.holds && envelopes.holds[hold].status.Pending?
      requires var pc := s.tasks[tid].pc;
               pc.Expiring? && |pc.todo| > 0 && pc.todo[0] == hold && pc.asOf == clock && pc.timeoutSecs == timeoutSecs
      modifies this`s, this`history, Stores()
      ensures Went(tid, old(history), old(s.receipts))
      ensures var t := old(s.tasks[tid]); s.tasks == old(s.tasks)[tid := t.At(t.pc.(todo := t.pc.todo[1..]))]
      ensures if HasTimedOut(old(envelopes.holds)[hold], timeoutSecs, clock)
              then TxTimeout(old(Tables()), hold, clock) == Ok(Tables())
              else Tables() == old(Tables())
    {
      hide Run, DecideTask, Apply, TxTimeout;
      ExpiryGoesOn(config, s, tid);
      ghost var pc := s.tasks[tid].pc;
      ghost var rest := pc.(todo := pc.todo[1..]);
      if clock - envelopes.holds[hold].triggeredAt <= timeoutSecs * 1000 {
        Record(tid, Expire(tid), Move(tid, rest));
      } else {
        ValidReachable();
        PendingHoldsResolve(config, s, hold, false, ROOT, clock);
        var done := TimeOut(hold);
        Record(tid, Expire(tid), TimeOutHold(tid, hold, rest));
      }
    }

    /** What every part of a submission keeps: the object stays true to its history, which only this task extends. */
    ghost predicate Went(tid: nat, earlier: seq<Label>, receipts: seq<Receipt>)
      reads this, Stores()
    {
      Valid() && (history == earlier || Uninterrupted(tid, earlier, history)) && s.receipts == receipts
    }

    /** The task goes on without a transaction. */
    ghost method Moves(tid: nat, l: Label, pc: Pc)
      requires Valid() && Own(tid, l) && tid in s.tasks && DecideTask(config, s, l) == Move(tid, pc)
      modifies this`s, this`history
      ensures Went(tid, old(history), old(s.receipts))
      ensures s == old(s).(tasks := old(s.tasks)[tid := old(s.tasks[tid]).At(pc)])
    {
      hide Run, DecideTask, Apply;
      MoveApplied(s, tid, pc);
      Record(tid, l, Move(tid, pc));
    }

    /** The task ends with an error and without a transaction. */
    ghost method Fails(tid: nat, l: Label)
      requires Valid() && Own(tid, l) && tid in s.tasks && DecideTask(config, s, l) == FailTask(tid)
      modifies this`s, this`history
      ensures Went(tid, old(history), old(s.receipts)) && tid !in s.tasks
    {
      hide Run, DecideTask;
      Record(tid, l, FailTask(tid));
    }

    /** Validation, actor existence, frozen check, boundary and lineage. */
    method Admit(action: Action) returns (r: Result<()>)
      ensures r.Ok? <==> Admitted(config, Tables(), action)
    {
      if !ValidAction(action) {
        return Err("invalid action");
      }
      if action.actor !in actors.actors {
        return Err("actor not found");
      }
      var actor := actors.actors[action.actor];
      if actor.status == Frozen && action.kind.StateChanging() {
        return Err("actor is frozen");
      }
      if !WithinBoundary(config, actor, action.target, action.kind) {
        return Err("outside the writable boundary");
      }
      if actor.kind == Agent && action.kind.StateChanging() && !LineageActive(actors.actors, actor.lineage) {
        return Err("lineage is not active");
      }
      return Ok(());
    }

    /** Everything before the hold check; on success, the envelope that the action was checked against. */
    method Authorize(action: Action, ghost tid: nat) returns (r: Result<Option<Id>>)
      requires Valid() && tid in s.tasks && s.tasks[tid].action == action && s.tasks[tid].pc == Entered
      modifies this`s, this`history, Stores()
      ensures Went(tid, old(history), old(s.receipts))
      ensures if r.Err? then tid !in s.tasks else s.tasks == old(s.tasks)[tid := old(s.tasks[tid]).At(Cleared(r.value))]
      ensures r.Ok? && r.value.Some? ==> r.value.value in envelopes.envelopes
      ensures Is(old(Tables()), action.actor, Human) ==>
                && envelopes.holds == old(envelopes.holds) && (r.Ok? ==> r.value == None)
                && (Admitted(config, old(Tables()), action) ==> r.Ok?)
    {
      hide Run, DecideTask, Apply, DecideMode, Admitted, IsExpired, Uninterrupted;
      var admitted := Admit(action);
      AuthorizeCases(config, s, tid);
      if admitted.Err? {
        Fails(tid, Label.Authorize(tid, None, []));
        return Err(admitted.error);
      }
      if !action.kind.StateChanging() {
        Moves(tid, Label.Authorize(tid, None, []), Cleared(None));
        return Ok(None);
      }
      var envelope := ReadEnvelope(action, tid);
      ghost var earlier := history;
      r := AuthorizeMode(action, envelope, tid);
      HistoryGrows(tid, old(history), earlier, history);
    }

    /** The actor's active envelope; one that has expired is marked and counts as none. */
    method ReadEnvelope(action: Action, ghost tid: nat) returns (envelope: Option<Id>)
      requires Valid() && tid in s.tasks && s.tasks[tid].action == action && s.tasks[tid].pc == Entered
      requires Admitted(config, Tables(), action) && action.kind.StateChanging()
      modifies this`s, this`history, envelopes`envelopes
      ensures Went(tid, old(history), old(s.receipts)) && action.actor in actors.actors
      ensures tid in s.tasks && s.tasks == old(s.tasks)[tid := old(s.tasks[tid]).At(s.tasks[tid].pc)]
      ensures envelope.Some? ==> envelope.value in envelopes.envelopes
      ensures forall pending ::
                DecideTask(config, s, Label.Authorize(tid, envelope, pending))
                == DecideMode(config, s, tid, envelope, pending)
    {
      hide Run, DecideTask, DecideMode, Admitted, IsExpired;
      AuthorizeCases(config, s, tid);
      envelope := envelopes.GetActiveForActor(action.actor);
      assert IsActiveEnvelope(Tables(), action.actor, envelope);
      if envelope.Some? && IsExpired(envelopes.envelopes[envelope.value], clock) {
        envelopes.SetStatusInTx(envelope.value, EnvExpired);
        Record(tid, Label.Authorize(tid, envelope, []), LapseEnvelope(tid, envelope.value));
        envelope := None;
        LapsedMode(config, s, tid);
      }
    }

    /** Authorization mode, envelope coverage and the lazy expiry of holds. */
    method AuthorizeMode(action: Action, envelope: Option<Id>, ghost tid: nat) returns (r: Result<Option<Id>>)
      requires Valid() && tid in s.tasks && s.tasks[tid].action == action && action.actor in actors.actors
      requires envelope.Some? ==> envelope.value in envelopes.envelopes
      requires forall pending ::
                DecideTask(config, s, Label.Authorize(tid, envelope, pending))
                == DecideMode(config, s, tid, envelope, pending)
      modifies this`s, this`history, Stores()
      ensures Went(tid, old(history), old(s.receipts))
      ensures if r.Err? then tid !in s.tasks else s.tasks == old(s.tasks)[tid := old(s.tasks[tid]).At(Cleared(r.value))]
      ensures r.Ok? && r.value.Some? ==> r.value.value in envelopes.envelopes
      ensures old(actors.actors[action.actor].kind.Human?) ==> r == Ok(None) && envelopes.holds == old(envelopes.holds)
    {
      hide Run, DecideTask, EnvelopeCovers, IsPendingList, Expired, Uninterrupted;
      var row := if envelope.Some? then Some(envelopes.envelopes[envelope.value]) else None;
      var mode := CheckAuthorization(actors.actors[action.actor], row);
      if mode.Err? {
        Fails(tid, Label.Authorize(tid, envelope, []));
        return Err(mode.error);
      }
      if mode.value.ManInTheLoop? {
        Moves(tid, Label.Authorize(tid, envelope, []), Cleared(None));
        return Ok(None);
      }
      if !EnvelopeCovers(config, row.value, action.target, action.kind) {
        Fails(tid, Label.Authorize(tid, envelope, []));
        return Err("envelope does not cover the action");
      }
      var timeout := row.value.holdTimeoutSecs;
      if row.value.holdOn == [] || timeout.None? || timeout.value <= 0 {
        Moves(tid, Label.Authorize(tid, envelope, []), Cleared(envelope));
        return Ok(envelope);
      }
      var expired := ExpireTimedOutHolds(envelope.value, timeout.value, tid,
                                         pending => Label.Authorize(tid, envelope, pending),
                                         envelope, false);
      ExpiredFrame(old(Tables()), Tables(), envelope.value, timeout.value, clock);
      return Ok(envelope);
    }

    /** Hold trigger: the task ends, with the hold on record or with an error. */
    method TriggerHoldRequest(action: Action, envelope: Id, hold: Id, ghost tid: nat)
      requires Valid() && tid in s.tasks && s.tasks[tid].action == action && s.tasks[tid].pc == Cleared(Some(envelope))
      requires MustHold(config, Tables(), s.tasks[tid], Some(envelope))
      modifies this`s, this`history, Stores()
      ensures Went(tid, old(history), old(s.receipts)) && tid !in s.tasks
      ensures match TxTrigger(old(Tables()), hold, envelope, action, clock)
              case Ok(db) => Tables() == db
              case Err(_) => Tables() == old(Tables())
    {
      hide Run, TxTrigger, MustHold, DecideParse, DecideReadHold, DecideAuthorize;
      var requested := RequestHold(hold, envelope, action);
      Record(tid, Trigger(tid, hold), TriggerHold(tid, hold, envelope));
    }

    /** `parse_create_actor_spec`, `parse_create_envelope_spec` and the lifecycle authorization. */
    method ParseSpecs(action: Action, uuid: Id, ghost tid: nat) returns (r: Result<Spec>)
      requires Valid() && tid in s.tasks && s.tasks[tid].action == action && s.tasks[tid].pc.Cleared?
      requires !MustHold(config, Tables(), s.tasks[tid], s.tasks[tid].pc.checked) && ParseHoldResponse(action).None?
      modifies this`s, this`history
      ensures Went(tid, old(history), old(s.receipts))
      ensures if r.Err? then tid !in s.tasks
              else s.tasks == old(s.tasks)[tid := old(s.tasks[tid]).At(Specced(old(s.tasks[tid].pc.checked), r.value))]
    {
      hide Run, ParseSpec, ParseHoldResponse, MustHold, DecideReadHold, DecideAuthorize;
      var grant := envelopes.GetActiveForActor(action.actor);
      assert IsActiveEnvelope(Tables(), action.actor, grant);
      r := ParseSpec(config, Tables(), action, uuid, grant);
      if r.Err? {
        Fails(tid, Parse(tid, uuid, grant));
      } else {
        Moves(tid, Parse(tid, uuid, grant), Specced(s.tasks[tid].pc.checked, r.value));
      }
    }

    /** Quote and reserve, unless the reservation was made at hold trigger. */
    method ReserveCost(action: Action, via: Option<Id>, preReserved: nat, ghost tid: nat) returns (r: Result<nat>)
      requires Valid() && tid in s.tasks && s.tasks[tid].pc.Specced?
      requires var t := s.tasks[tid]; t.action == action && t.via == via && t.preReserved == preReserved
      modifies this`s, this`history, ledger
      ensures Went(tid, old(history), old(s.receipts))
      ensures var pc := old(s.tasks[tid].pc);
              if r.Err? then tid !in s.tasks
              else s.tasks == old(s.tasks)[tid := old(s.tasks[tid]).At(Reserved(pc.checked, pc.spec, r.value))]
    {
      hide Run, DecideParse, DecideReadHold, DecideAuthorize, QuoteCost;
      ghost var pc := s.tasks[tid].pc;
      if via.Some? {
        Record(tid, ReserveEnergy(tid), ReserveFor(tid, pc.checked, pc.spec));
        return Ok(preReserved);
      }
      var cost := QuoteCost(action);
      var reserved := ledger.ReserveInTx(action.actor, cost);
      Record(tid, ReserveEnergy(tid), ReserveFor(tid, pc.checked, pc.spec));
      if reserved.Err? {
        return Err(reserved.error);
      }
      return Ok(cost);
    }

    /** Validates an execute payload, then settles, creates and appends in one transaction. */
    method Commit(action: Action, via: Option<Id>, checked: Option<Id>, spec: Spec, cost: nat, ghost tid: nat)
      returns (r: Result<Receipt>)
      requires Valid() && tid in s.tasks && s.tasks[tid].pc == Reserved(checked, spec, cost)
      requires s.tasks[tid].action == action && s.tasks[tid].via == via
      modifies this`s, this`history, Stores()
      ensures Valid() && Uninterrupted(tid, old(history), history)
      ensures s.receipts == if r.Ok? then old(s.receipts) + [r.value] else old(s.receipts)
      ensures if r.Err? then tid !in s.tasks
              else s.tasks == old(s.tasks)[tid := old(s.tasks[tid])
                       .(via := None, pc := Committed(spec, cost, r.value.index))]
    {
      hide Run, TxFinalize, DecideParse, DecideReadHold, DecideAuthorize;
      if action.kind == Execute && !action.payload.executeOk {
        Fails(tid, Finalize(tid));
        return Err("invalid execute payload");
      }
      r := FinalizeEnergyAndEvent(action, cost, spec, checked, via);
      Record(tid, Finalize(tid), Effect.Commit(tid, checked, spec, cost));
    }

    /**
     * Post-commit: charges an agent's latest active envelope, if there is one. The
     * charge is dropped when it overshoots, and halts the envelope when it fills it.
     */
    method MeterBudget(action: Action, spec: Spec, cost: nat, index: nat, ghost tid: nat)
      requires Valid() && tid in s.tasks && s.tasks[tid].action == action
      requires s.tasks[tid].pc == Committed(spec, cost, index)
      modifies this`s, this`history, Stores()
      ensures Went(tid, old(history), old(s.receipts))
      ensures s.tasks == old(s.tasks)[tid := old(s.tasks[tid]).At(Metered(spec))]
      ensures if Chargeable(old(Tables()), action, cost)
              then ChargedTo(old(Tables()), Tables(), action.actor, cost)
              else Tables() == old(Tables())
    {
      hide Run, DecideTask, CheckCheckpoint, IsActiveEnvelope, Uninterrupted, AfterCharge;
      if !action.kind.StateChanging() || cost == 0
         || action.actor !in actors.actors || actors.actors[action.actor].kind != Agent {
        BudgetRead(config, s, tid, None);
        Moves(tid, ReadBudget(tid, None), Metered(spec));
        return;
      }
      var envelope := envelopes.GetActiveForActor(action.actor);
      ActiveAnswer(Tables(), action.actor, envelope);
      BudgetRead(config, s, tid, envelope);
      if envelope.None? {
        Moves(tid, ReadBudget(tid, None), Metered(spec));
        return;
      }
      var charge := ChargeFor(envelopes.envelopes[envelope.value], envelope.value, index, cost);
      Moves(tid, ReadBudget(tid, envelope), Metering(spec, charge));
      ghost var earlier := history;
      ConsumeMetered(spec, charge, tid);
      HistoryGrows(tid, old(history), earlier, history);
    }

    /** The budget transaction on a current read; an overshoot is rolled back and only logged. */
    method ConsumeMetered(spec: Spec, charge: Charge, ghost tid: nat)
      requires Valid() && tid in s.tasks && s.tasks[tid].pc == Metering(spec, charge)
      requires charge.envelope in envelopes.envelopes
      requires charge == ChargeFor(envelopes.envelopes[charge.envelope], charge.envelope, charge.event, charge.amount)
      modifies this`s, this`history, envelopes
      ensures Went(tid, old(history), old(s.receipts))
      ensures s.tasks == old(s.tasks)[tid := old(s.tasks[tid]).At(Metered(spec))]
      ensures Tables() == AfterCharge(old(Tables()), charge.envelope, charge.amount)
    {
      hide Run, DecideParse, DecideReadHold, DecideAuthorize, TxConsume, AfterCharge, ChargeFor;
      ConsumeOnCurrentRead(Tables(), charge);
      var consumed := ConsumeBudget(charge.envelope, charge.amount, charge.level);
      Record(tid, Consume(tid), Effect.ConsumeBudget(tid, spec, charge));
    }

    /** Post-commit: the lifecycle operation, and the end of the task. */
    method Manage(spec: Spec, ghost tid: nat)
      requires Valid() && tid in s.tasks && s.tasks[tid].pc == Metered(spec)
      modifies this`s, this`history, Stores()
      ensures Went(tid, old(history), old(s.receipts)) && tid !in s.tasks
    {
      hide Run, DecideParse, DecideReadHold, DecideAuthorize, TxLifecycle;
      if spec.Lifecycle? {
        ExecuteLifecycle(spec.subject, spec.op);
        Record(tid, Label.Manage(tid), ManageActor(tid, spec.subject, spec.op));
      } else {
        Record(tid, Label.Manage(tid), Finish(tid));
      }
    }

    /**
     * `submit_action` for a task that has just begun: the pipeline, uninterrupted.
     * A receipt is returned exactly when one was recorded, and the task ends.
     */
    method Pipeline(action: Action, via: Option<Id>, preReserved: nat, uuid: Id, ghost tid: nat)
      returns (r: Result<Receipt>)
      requires Valid() && tid in s.tasks && s.tasks[tid] == Task(action, via, preReserved, s.tasks[tid].depth, Entered)
      modifies this`s, this`history, Stores()
      ensures Valid() && Uninterrupted(tid, old(history), history) && tid !in s.tasks
      ensures s.receipts == if r.Ok? then old(s.receipts) + [r.value] else old(s.receipts)
      ensures AnsweredRight(old(Tables()), clock, Tables(), action, r.Ok?)
      decreases 1 - s.tasks[tid].depth, 1
    {
      hide Run, Uninterrupted, HoldTriggered, ParseHoldResponse, MustHold, AnsweredRight, MayAnswer, Settles, Admitted,
           Grows, Open;
      ghost var depth, first, before := s.tasks[tid].depth, s, Tables();
      DepthBounded(tid);
      ValidReachable();
      AnswerPasses(config, before, action);
      var checked := Authorize(action, tid);
      if checked.Err? {
        CallAnswers(before, clock, Tables(), action, false);
        return Err(checked.error);
      }
      ghost var h1, mid := history, Tables();
      TablesGrow(tid, old(history), before);
      MustHoldMeans(config, Tables(), s.tasks[tid], checked.value);
      if via.None? && checked.value.Some?
         && HoldTriggered(config, envelopes.envelopes[checked.value.value].holdOn, action.target, action.kind)
      {
        TriggerHoldRequest(action, checked.value.value, uuid, tid);
        HistoryGrows(tid, old(history), h1, history);
        CallAnswers(before, clock, Tables(), action, false);
        return Err("hold triggered");
      }
      var response := ParseHoldResponse(action);
      if response.Some? {
        if MayAnswer(before, action.actor) && Open(before, response.value.0) {
          JudgedAlike(config, first, mid, clock, action.actor, response.value.0, response.value.1);
        }
        r := ExecuteHoldResponse(action, response.value.0, response.value.1, uuid, tid);
      } else {
        r := Proceed(action, via, preReserved, checked.value, uuid, tid);
      }
      HistoryGrows(tid, old(history), h1, history);
      CallAnswers(before, clock, Tables(), action, r.Ok?);
    }

    /** From the creation specs to the receipt. */
    method Proceed(action: Action, via: Option<Id>, preReserved: nat, checked: Option<Id>, uuid: Id, ghost tid: nat)
      returns (r: Result<Receipt>)
      requires Valid() && tid in s.tasks
      requires s.tasks[tid] == Task(action, via, preReserved, s.tasks[tid].depth, Cleared(checked))
      requires !MustHold(config, Tables(), s.tasks[tid], checked) && ParseHoldResponse(action).None?
      modifies this`s, this`history, Stores()
      ensures Valid() && Uninterrupted(tid, old(history), history) && tid !in s.tasks
      ensures s.receipts == if r.Ok? then old(s.receipts) + [r.value] else old(s.receipts)
    {
      hide Run, Uninterrupted, ParseHoldResponse, MustHold;
      var spec := ParseSpecs(action, uuid, tid);
      if spec.Err? {
        return Err(spec.error);
      }
      ghost var h1 := history;
      var cost := ReserveCost(action, via, preReserved, tid);
      HistoryGrows(tid, old(history), h1, history);
      if cost.Err? {
        return Err(cost.error);
      }
      h1 := history;
      r := Commit(action, via, checked, spec.value, cost.value, tid);
      HistoryGrows(tid, old(history), h1, history);
      if r.Err? {
        return;
      }
      h1 := history;
      MeterBudget(action, spec.value, cost.value, r.value.index, tid);
      HistoryGrows(tid, old(history), h1, history);
      h1 := history;
      Manage(spec.value, tid);
      HistoryGrows(tid, old(history), h1, history);
    }

    /**
     * `execute_hold_response`: the human check, the timeout check, the answer, and on
     * approve the re-submission. Only a human's answer in time to an open hold counts;
     * a late one leaves the hold timed out.
     */
    method ExecuteHoldResponse(action: Action, hold: Id, approve: bool, uuid: Id, ghost tid: nat)
      returns (r: Result<Receipt>)
      requires Valid() && tid in s.tasks && s.tasks[tid].action == action && s.tasks[tid].pc.Cleared?
      requires ParseHoldResponse(action) == Some((hold, approve))
      requires !MustHold(config, Tables(), s.tasks[tid], s.tasks[tid].pc.checked)
      modifies this`s, this`history, Stores()
      ensures Valid() && Uninterrupted(tid, old(history), history) && tid !in s.tasks
      ensures s.receipts == if r.Ok? then old(s.receipts) + [r.value] else old(s.receipts)
      ensures r.Ok? ==>
                && Is(old(Tables()), action.actor, Human) && Open(old(Tables()), hold)
                && !TooLate(old(Tables()), hold, clock)
      ensures Is(old(Tables()), action.actor, Human) && Open(old(Tables()), hold) ==>
                Settles(old(Tables()), clock, Tables(), hold, approve, r.Ok?)
      decreases 1 - s.tasks[tid].depth, 0
    {
      hide Run, Uninterrupted, ParseHoldResponse, MustHold, AnsweredRight, Grows;
      var answering := CheckHold(action, hold, approve, tid);
      if answering.Err? {
        return Err(answering.error);
      }
      DepthBounded(tid);
      ghost var h1, mid := history, Tables();
      r := Answer(action.actor, hold, approve, tid);
      HistoryGrows(tid, old(history), h1, history);
      if r.Ok? && approve {
        h1, mid := history, Tables();
        r := Pipeline(answering.value.action, Some(hold), answering.value.reserved, uuid, tid);
        TablesGrow(tid, h1, mid);
        StillSettled(old(Tables()), clock, mid, Tables(), hold, approve);
        HistoryGrows(tid, old(history), h1, history);
      }
    }

    /** Who may answer, and whether the hold is still open; an overdue one is timed out instead. */
    method CheckHold(action: Action, hold: Id, approve: bool, ghost tid: nat) returns (r: Result<Hold>)
      requires Valid() && tid in s.tasks && s.tasks[tid].action == action && s.tasks[tid].pc.Cleared?
      requires ParseHoldResponse(action) == Some((hold, approve))
      requires !MustHold(config, Tables(), s.tasks[tid], s.tasks[tid].pc.checked)
      modifies this`s, this`history, Stores()
      ensures Went(tid, old(history), old(s.receipts)) && history != old(history)
      ensures if r.Err? then tid !in s.tasks
              else && s.tasks == old(s.tasks)[tid := old(s.tasks[tid]).At(Responding(hold, approve))]
                   && hold in envelopes.holds && envelopes.holds[hold] == r.value
      ensures r.Ok? <==>
                && Is(old(Tables()), action.actor, Human) && Open(old(Tables()), hold)
                && !TooLate(old(Tables()), hold, clock)
      ensures r.Ok? ==> Tables() == old(Tables())
      ensures Is(old(Tables()), action.actor, Human) && Open(old(Tables()), hold)
              && TooLate(old(Tables()), hold, clock) ==>
                Settles(old(Tables()), clock, Tables(), hold, approve, false)
    {
      hide Settles, Run, ParseHoldResponse, MustHold, DecideAuthorize, DecideParse, IsPendingList, Expired,
           Uninterrupted;
      if action.actor !in actors.actors {
        Fails(tid, ReadHold(tid, []));
        return Err("actor not found");
      }
      if actors.actors[action.actor].kind != Human {
        Fails(tid, ReadHold(tid, []));
        return Err("only Human actors can resolve holds");
      }
      if hold !in envelopes.holds || envelopes.holds[hold].status != Pending {
        Fails(tid, ReadHold(tid, []));
        return Err("hold_request not found or already resolved");
      }
      var row := envelopes.holds[hold];
      var timeout := if row.envelope in envelopes.envelopes
              then envelopes.envelopes[row.envelope].holdTimeoutSecs else None;
      if timeout.Some? && timeout.value > 0 && HasTimedOut(row, timeout.value, clock) {
        var expired := ExpireTimedOutHolds(row.envelope, timeout.value, tid,
                                           pending => ReadHold(tid, pending), None, true);
        LateTimedOut(old(Tables()), Tables(), hold, approve, clock);
        return Err("hold_request has timed out and was auto-rejected");
      }
      Moves(tid, ReadHold(tid, []), Responding(hold, approve));
      return Ok(row);
    }

    /** The answer's transaction; on approve the task becomes the re-submission. */
    method Answer(human: Id, hold: Id, approve: bool, ghost tid: nat) returns (r: Result<Receipt>)
      requires Valid() && tid in s.tasks && s.tasks[tid].pc == Responding(hold, approve)
      requires s.tasks[tid].action.actor == human
      requires hold in envelopes.holds
      modifies this`s, this`history, Stores()
      ensures Valid() && Uninterrupted(tid, old(history), history)
      ensures s.receipts == if r.Ok? && !approve then old(s.receipts) + [r.value] else old(s.receipts)
      ensures if r.Ok? && approve
              then s.tasks == old(s.tasks)[tid := Resubmit(old(s.tasks[tid]), hold, old(envelopes.holds[hold]))]
              else tid !in s.tasks
      ensures Open(old(Tables()), hold) ==>
                r.Ok? && hold in envelopes.holds
                && envelopes.holds[hold].status == if approve then Approved else Rejected
    {
      hide Run, TxRespond, DecideAuthorize, DecideParse, DecideReadHold;
      OpenAnswered(hold, approve, human);
      r := AnswerRequest(hold, approve, human);
      Record(tid, Respond(tid), AnswerHold(tid, hold, approve));
    }

    /** The answer to an open hold goes through. */
    lemma OpenAnswered(hold: Id, approve: bool, human: Id)
      requires Valid()
      ensures Open(Tables(), hold) ==>
                var r := TxRespond(Tables(), hold, approve, human, clock);
                && r.Ok? && hold in r.value.holds
                && r.value.holds[hold].status == if approve then Approved else Rejected
    {
      hide Run, TxRespond;
      ValidReachable();
      PendingHoldsResolve(config, s, hold, approve, human, clock);
      if Open(Tables(), hold) {
        AnswerFrame(Tables(), hold, approve, human, clock);
      }
    }

    /** The tables only grow along the history. */
    lemma TablesGrow(tid: nat, earlier: seq<Label>, before: Db)
      requires Valid() && before == Run(config, Init(), earlier).db
      requires history == earlier || Uninterrupted(tid, earlier, history)
      ensures Grows(before, Tables())
    {
      hide Run, Grows;
      var rest := history[|earlier|..];
      assert history == earlier + rest;
      RunAppend(config, Init(), earlier, rest);
      RunGrows(config, Run(config, Init(), earlier), rest);
    }

    /** The recursion is bounded: a task that answers a hold is not itself a re-submission. */
    lemma DepthBounded(tid: nat)
      requires Valid() && tid in s.tasks
      ensures s.tasks[tid].depth <= 1
      ensures s.tasks[tid].pc.Responding? ==> s.tasks[tid].depth == 0
    {
      hide Run;
      ValidReachable();
      RecursionIsBounded(config, s, tid);
    }

    /**
     * A submission that nothing interrupts: from outside it is one run of the
     * transition system by one task, which ends with a receipt or an error. An
     * error strands energy exactly if the commit or an approved re-submission was
     * refused; any other that holds nothing back leaves the tables as they were,
     * but for what was due to expire.
     */
    method SubmitAction(action: Action, uuid: Id, ghost tid: nat) returns (r: Result<Receipt>)
      requires Valid() && tid !in s.tasks
      modifies this`s, this`history, Stores()
      ensures Valid() && tid !in s.tasks
      ensures Uninterrupted(tid, old(history) + [Submit(tid, action)], history)
      ensures s.receipts == if r.Ok? then old(s.receipts) + [r.value] else old(s.receipts)
      ensures AnsweredRight(old(Tables()), clock, Tables(), action, r.Ok?)
      ensures r.Ok? ==> !Stranded(old(s), s)
      ensures r.Err? ==>
                (Stranded(old(s), s) <==> RefusedLate(old(s), s, action) || RefusedAgain(old(s), s, action))
      ensures r.Err? && !Stranded(old(s), s) && !HeldBack(old(s), s, action) ==>
                && Waited(old(Tables()), Tables(), clock)
                && (NothingDue(old(Tables()), clock) ==> Tables() == old(Tables()))
      ensures OneByOne(old(history)) && New(old(history), tid) ==> OneByOne(history)
    {
      hide Run, Uninterrupted, AnsweredRight, Stranded, RefusedLate, RefusedAgain, HeldBack, Waited, NothingDue,
           OneByOne, New;
      Enter(action, tid);
      r := Pipeline(action, None, 0, uuid, tid);
      CallDone(old(s), old(history), action, tid, r.Ok?);
    }

    /** What the steps that the call has recorded say about it. */
    lemma CallDone(s0: State, earlier: seq<Label>, action: Action, tid: nat, ok: bool)
      requires Valid() && s0 == Run(config, Init(), earlier) && tid !in s0.tasks && tid !in s.tasks
      requires Uninterrupted(tid, earlier + [Submit(tid, action)], history)
      requires |s.receipts| == |s0.receipts| + (if ok then 1 else 0) && (!ok ==> s.receipts == s0.receipts)
      ensures ok ==> !Stranded(s0, s)
      ensures !ok ==> (Stranded(s0, s) <==> RefusedLate(s0, s, action) || RefusedAgain(s0, s, action))
      ensures !ok && !Stranded(s0, s) && !HeldBack(s0, s, action) ==>
                Waited(s0.db, s.db, s0.now) && (NothingDue(s0.db, s0.now) ==> s.db == s0.db)
      ensures OneByOne(earlier) && New(earlier, tid) ==> OneByOne(history)
    {
      hide Run, Waited, NothingDue, HasReserved, HasApproved, Clashes, TxTrigger, Strands, OneByOne, New;
      var rest := history[|earlier| + 1..];
      assert history == earlier + [Submit(tid, action)] + rest;
      assert forall i | 0 <= i < |rest| :: rest[i] == history[i + |earlier| + 1];
      HistoryEnds(config, earlier, action, tid, rest);
      EndedStrands(config, s0, s, action);
      if !ok && !Stranded(s0, s) && !HeldBack(s0, s, action) {
        EndedUntouched(s0, s, action);
      }
      if OneByOne(earlier) && New(earlier, tid) {
        OneMoreCall(earlier, tid, history);
      }
    }

    ghost method Enter(action: Action, tid: nat)
      requires Valid() && tid !in s.tasks
      modifies this`s, this`history
      ensures Valid() && history == old(history) + [Submit(tid, action)] && s.receipts == old(s.receipts)
      ensures s.tasks == old(s.tasks)[tid := Task(action, None, 0, 0, Entered)]
    {
      hide Run;
      Note(Submit(tid, action));
    }

    // ----- the producer and checkpoints -----------------------------------------------------

    /**
     * `produce_tick`: each active agent with a share gets its part of the tick's
     * production, rounded to one unit, and the parts are the whole.
     */
    method ProduceTick() returns (r: Result<int>)
      requires Valid()
      modifies this`s, this`history, ledger
      ensures Valid()
      ensures r.Ok? && TotalMinted(s.minted) == TotalMinted(old(s.minted)) + r.value
      ensures r.value == if config.energyPerTick > 0 && SomeoneProduces(actors.actors) then config.energyPerTick else 0
      ensures Paid(config.energyPerTick, actors.actors, old(ledger.accounts), ledger.accounts)
      ensures s == old(s).(db := s.db, minted := s.minted)
      ensures OneByOne(old(history)) ==> OneByOne(history)
    {
      hide OneByOne, Run, CreditAll, TotalMinted, Tick.SumShares, Tick.Allocations, Positives, Shares, PaidPart,
           Producers;
      var list := actors.ListActiveWithShares();
      if |list| == 0 {
        NobodyProduces(actors.actors);
        assert !SomeoneProduces(actors.actors);
        return Ok(0);
      }
      assert SomeoneProduces(actors.actors) by {
        assert list[0] in list;
      }
      var shares := Shares(actors.actors, list);
      TickDecided(config, s, list);
      var allocations := Tick.Allocate(config.energyPerTick, shares);
      TickHandsOut(config.energyPerTick, shares);
      ghost var before := s;
      NoCreditFails(list, allocations[..]);
      r := CreditEach(list, allocations[..]);
      Note(Label.ProduceTick(list));
      if OneByOne(old(history)) {
        OneMoreOther(old(history), Label.ProduceTick(list));
      }
      MintedByTick(config, before, list);
      TickPays(config, before, list);
    }

    lemma NoCreditFails(list: seq<Id>, credits: seq<int>)
      requires Valid() && IsShareList(actors.actors, list) && |list| == |credits|
      ensures Reachable(config, s)
      ensures CreditAll(ledger.accounts, list, credits).Ok?
    {
      hide Run, CreditAll, MintAll;
      ValidReachable();
      ReachableInv(config, s);
      InvAccounts(config, s);
      CreditsMinted(s.db.ledger, s.minted, list, credits);
    }

    /** The transaction of a tick: each positive credit, or none. */
    method CreditEach(list: seq<Id>, credits: seq<int>) returns (r: Result<int>)
      requires |list| == |credits|
      modifies ledger
      ensures match CreditAll(old(ledger.accounts), list, credits)
              case Ok(accounts) => r == Ok(Positives(credits)) && ledger.accounts == accounts
              case Err(_) => r.Err? && ledger.accounts == old(ledger.accounts)
    {
      var saved, total := ledger.accounts, 0;
      for i := 0 to |list|
        invariant CreditAll(saved, list[..i], credits[..i]) == Ok(ledger.accounts)
        invariant total == Positives(credits[..i])
      {
        assert list[..i + 1][..i] == list[..i] && credits[..i + 1][..i] == credits[..i];
        if credits[i] > 0 {
          var credited := ledger.CreditEnergyInTx(list[i], credits[i]);
          if credited.Err? {
            CreditFailsEarly(saved, list, credits, i + 1);
            ledger.accounts := saved;
            return Err(credited.error);
          }
          total := total + credits[i];
        }
      }
      assert list[..|list|] == list && credits[..|list|] == credits;
      return Ok(total);
    }

    /** Brings the latest checkpoint up to the event count; it is then the tree head of the whole log. */
    method EnsureCheckpoint() returns (r: Result<()>)
      requires Valid()
      modifies this`s, this`history, audit`checkpoints
      ensures Valid() && r.Ok?
      ensures s == old(s).(db := s.db) && s.db == old(s.db).(checkpoints := s.db.checkpoints)
      ensures log.events != [] ==>
                && |log.events| in audit.checkpoints && audit.checkpoints[|log.events|] == Mth(EventHashes(log.events))
                && forall m | m in audit.checkpoints :: m <= |log.events|
      ensures OneByOne(old(history)) ==> OneByOne(history)
    {
      hide OneByOne, Run, Mth, StoreOk, EventHashes, TreeHash;
      var count := log.Count();
      TrailHolds();
      ghost var d := EventHashes(log.events);
      assert d[..count] == d;
      r := audit.EnsureCheckpoint(count, d);
      if count > 0 {
        RootCorrect(audit.rows, d, count);
      }
      Note(Checkpoint(count));
      if OneByOne(old(history)) {
        OneMoreOther(old(history), Checkpoint(count));
      }
    }

    lemma TrailHolds()
      requires Valid()
      ensures StoreOk(audit.rows, EventHashes(log.events))
      ensures forall m | m in audit.checkpoints ::
              0 < m <= |log.events| && audit.checkpoints[m] == Mth(EventHashes(log.events)[..m])
    {
      hide Run, Mth, StoreOk, EventHashes;
      ValidReachable();
      ReachableInv(config, s);
    }
  }

  /** A human's answer that may be given is admitted. */
  lemma AnswerPasses(c: Config, db: Db, a: Action)
    ensures MayAnswer(db, a.actor) && ParseHoldResponse(a).Some? ==> Is(db, a.actor, Human) && Admitted(c, db, a)
  {
    hide Admitted, ParseHoldResponse;
    if MayAnswer(db, a.actor) && ParseHoldResponse(a).Some? {
      AnswerAdmitted(c, db, a);
    }
  }

  lemma MoveApplied(s: State, tid: nat, pc: Pc)
    requires tid in s.tasks
    ensures Apply(s, Move(tid, pc)) == s.(tasks := s.tasks[tid := s.tasks[tid].At(pc)])
  {
  }

  lemma PendingInTurn(first: Db, p: Db, list: seq<Id>, i: nat, envelope: Id, timeoutSecs: int, now: nat)
    requires IsPendingList(first.holds, envelope, list) && i < |list|
    requires Progress(first, p, list, i, envelope, timeoutSecs, now)
    ensures list[i] in p.holds && p.holds[list[i]].status.Pending?
  {
    hide PaidFor, TimedOutOf, IsPendingList;
    StillPending(first.holds, p.holds, list, i, envelope, timeoutSecs, now);
  }

  /** What one step of the loop decides, and what it then does. */
  lemma ExpiryGoesOn(c: Config, s: State, tid: nat)
    requires tid in s.tasks && s.tasks[tid].pc.Expiring? && |s.tasks[tid].pc.todo| > 0
    requires s.tasks[tid].pc.todo[0] in s.db.holds
    ensures var pc := s.tasks[tid].pc;
            var h, rest := pc.todo[0], pc.(todo := pc.todo[1..]);
            var next := s.tasks[tid := s.tasks[tid].At(rest)];
            && DecideTask(c, s, Expire(tid)) ==
                 (if HasTimedOut(s.db.holds[h], pc.timeoutSecs, pc.asOf)
                     then TimeOutHold(tid, h, rest) else Move(tid, rest))
            && Apply(s, Move(tid, rest)) == s.(tasks := next)
            && (TxTimeout(s.db, h, s.now).Ok? ==>
                  Apply(s, TimeOutHold(tid, h, rest)) == s.(db := TxTimeout(s.db, h, s.now).value, tasks := next))
  {
    hide TxTimeout;
  }

  lemma ExpiryEnds(c: Config, s: State, tid: nat)
    requires tid in s.tasks && s.tasks[tid].pc.Expiring? && s.tasks[tid].pc.todo == []
    ensures var pc := s.tasks[tid].pc;
            DecideTask(c, s, Expire(tid)) == if pc.thenFail then FailTask(tid) else Move(tid, Cleared(pc.checked))
  {
  }

  lemma ExpiredFrame(p: Db, q: Db, envelope: Id, timeoutSecs: int, now: nat)
    requires Expired(p, q, envelope, timeoutSecs, now)
    ensures q.actors == p.actors && q.envelopes == p.envelopes
  {
  }

  lemma HistoryGrows(tid: nat, h0: seq<Label>, h1: seq<Label>, h2: seq<Label>)
    requires h1 == h0 || Uninterrupted(tid, h0, h1)
    requires h2 == h1 || Uninterrupted(tid, h1, h2)
    ensures h2 == h0 || Uninterrupted(tid, h0, h2)
  {
  }

  lemma LapsedMode(c: Config, s: State, tid: nat)
    requires tid in s.tasks && s.tasks[tid].pc.Lapsed? && s.tasks[tid].action.actor in s.db.actors
    ensures forall pending ::
              DecideTask(c, s, Label.Authorize(tid, None, pending)) == DecideMode(c, s, tid, None, pending)
  {
    hide EnvelopeCovers, IsPendingList;
  }

  /** On the envelope it was checked against, the hold check of the model is the one of the pipeline. */
  lemma MustHoldMeans(c: Config, db: Db, t: Task, checked: Option<Id>)
    requires checked.Some? ==> checked.value in db.envelopes
    ensures MustHold(c, db, t, checked) <==>
              t.via.None? && checked.Some?
              && HoldTriggered(c, db.envelopes[checked.value].holdOn, t.action.target, t.action.kind)
  {
  }

  /** What `get_active_for_actor` promises. */
  lemma ActiveAnswer(db: Db, actor: Id, answer: Option<Id>)
    requires answer.None? ==> forall id | id in db.envelopes ::
          !(db.envelopes[id].actor == actor && db.envelopes[id].status.EnvActive?)
    requires answer.Some? ==>
               var e := answer.value;
               && e in db.envelopes && db.envelopes[e].actor == actor && db.envelopes[e].status.EnvActive?
               && forall id | id in db.envelopes
                    && db.envelopes[id].actor == actor && db.envelopes[id].status.EnvActive? ::
                    db.envelopes[id].createdAt <= db.envelopes[e].createdAt
    ensures IsActiveEnvelope(db, actor, answer)
  {
  }

  /** Whether a committed action is charged to an envelope. */
  predicate Chargeable(db: Db, a: Action, cost: nat) {
    a.kind.StateChanging() && cost > 0 && a.actor in db.actors && db.actors[a.actor].kind.Agent?
  }

  /** The tables after a charge that nothing came before: full means halted, too much means dropped. */
  function AfterCharge(db: Db, id: Id, cost: nat): (r: Db)
    requires id in db.envelopes
  {
    var row := db.envelopes[id];
    var total := row.consumed + cost;
    if total > row.budget then db
    else
      var status := if total == row.budget then EnvExpired else row.status;
      db.(envelopes := db.envelopes[id := row.(consumed := total, status := status)])
  }

  ghost predicate ChargedTo(p: Db, q: Db, actor: Id, cost: nat) {
    || (IsActiveEnvelope(p, actor, None) && q == p)
    || (exists id :: id in p.envelopes && IsActiveEnvelope(p, actor, Some(id)) && q == AfterCharge(p, id, cost))
  }

  lemma ConsumeOnCurrentRead(db: Db, charge: Charge)
    requires charge.envelope in db.envelopes
    requires charge == ChargeFor(db.envelopes[charge.envelope], charge.envelope, charge.event, charge.amount)
    ensures match TxConsume(db, charge.envelope, charge.amount, charge.level)
            case Ok(q) => q == AfterCharge(db, charge.envelope, charge.amount)
            case Err(_) => db == AfterCharge(db, charge.envelope, charge.amount)
  {
  }

  lemma BudgetRead(c: Config, s: State, tid: nat, envelope: Option<Id>)
    requires tid in s.tasks && s.tasks[tid].pc.Committed?
    ensures var t := s.tasks[tid];
            var a, e := t.action, DecideTask(c, s, ReadBudget(tid, envelope));
            && (!Chargeable(s.db, a, t.pc.cost) ==> e == Move(tid, Metered(t.pc.spec)))
            && (Chargeable(s.db, a, t.pc.cost) && IsActiveEnvelope(s.db, a.actor, envelope) ==>
                  e == Move(tid,
                            if envelope.None? then Metered(t.pc.spec)
                            else
                              var row := s.db.envelopes[envelope.value];
                              Metering(t.pc.spec, ChargeFor(row, envelope.value, t.pc.event, t.pc.cost))))
  {
    hide CheckCheckpoint;
  }

  // ----- ticks ---------------------------------------------------------------------------

  predicate SomeoneProduces(actors: map<Id, Actor>) {
    exists a | a in actors :: actors[a].status.Active? && actors[a].share > 0.0 && actors[a].kind.Agent?
  }

  lemma TickDecided(c: Config, s: State, list: seq<Id>)
    requires list != [] && IsShareList(s.db.actors, list)
    ensures Tick.Positive(Shares(s.db.actors, list)) && Tick.SumShares(Shares(s.db.actors, list)) > 0.0
    ensures Decide(c, s, Label.ProduceTick(list))
         == CreditTick(list, Tick.Allocations(c.energyPerTick, Shares(s.db.actors, list)))
  {
    var shares := Shares(s.db.actors, list);
    forall i | 0 <= i < |shares|
      ensures shares[i] > 0.0
    {
      assert list[i] in list;
    }
    Tick.SumPositive(shares);
  }

  /** A tick that was decided raises what is minted by its whole production. */
  lemma MintedByTick(c: Config, s: State, list: seq<Id>)
    requires Reachable(c, s) && list != [] && IsShareList(s.db.actors, list)
    ensures TotalMinted(Step(c, s, Label.ProduceTick(list)).minted)
         == TotalMinted(s.minted) + if c.energyPerTick > 0 then c.energyPerTick else 0
  {
    hide Run, Step, Decide, TotalMinted, IsShareList, Tick.Allocations, Inv, AccountsOk, Mints, Shares;
    ReachableInv(c, s);
    TickDecided(c, s, list);
    InvAccounts(c, s);
    StepMints(c, s, Label.ProduceTick(list));
    TickMintsProduction(c, s, Decide(c, s, Label.ProduceTick(list)));
  }

  lemma TickMintsProduction(c: Config, s: State, e: Effect)
    requires Applicable(s, e) && e.CreditTick?
    ensures Mints(c, s, e) == if c.energyPerTick > 0 then c.energyPerTick else 0
  {
    hide Apply, Fail;
  }

  lemma InvAccounts(c: Config, s: State)
    requires Inv(c, s)
    ensures AccountsOk(s)
  {
  }

  lemma {:induction false} CreditFailsEarly(ledger: Ledger, list: seq<Id>, credits: seq<int>, i: nat)
    requires |list| == |credits| && i <= |list| && CreditAll(ledger, list[..i], credits[..i]).Err?
    ensures CreditAll(ledger, list, credits).Err?
    decreases |list|
  {
    var n := |list| - 1;
    if i <= n {
      assert list[..n][..i] == list[..i] && credits[..n][..i] == credits[..i];
      CreditFailsEarly(ledger, list[..n], credits[..n], i);
    } else {
      assert list[..i] == list && credits[..i] == credits;
    }
  }
}

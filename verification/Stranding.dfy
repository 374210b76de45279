/** When a submission fails, and what stays reserved for good when it does. */
module Stranding {
  import opened Basics
  import opened Consent
  import opened Database
  import opened Kernel
  import opened Sums
  import opened Tasks
  import opened Accounting
  import opened HoldLog
  import opened Provenance
  import opened Lineage
  import opened AuditTrail
  import opened Delegation
  import opened Charges
  import opened Theorems
  import opened Reference

  /** The effect ends its task with an error. */
  predicate Errs(s: State, e: Effect)
    requires Applicable(s, e)
  {
    match e
    case FailTask(_) => true
    case TimeOutHold(_, hold, _) => TxTimeout(s.db, hold, s.now).Err?
    case TriggerHold(tid, hold, id) => TxTrigger(s.db, hold, id, s.tasks[tid].action, s.now).Err?
    case AnswerHold(tid, hold, approve) => TxRespond(s.db, hold, approve, s.tasks[tid].action.actor, s.now).Err?
    case ReserveFor(tid, _, _) =>
      var t := s.tasks[tid];
      t.via.None? && Database.Reserve(s.db.ledger, t.action.actor, QuoteCost(t.action)).Err?
    case Commit(tid, checked, spec, cost) =>
      var t := s.tasks[tid];
      TxFinalize(s.db, t.action, cost, spec, checked, t.via, s.now).Err?
    case _ => false
  }

  /** An error changes no table and strands what the task had reserved; nothing else strands. */
  lemma ErrorStrands(s: State, e: Effect, actor: Id)
    requires Applicable(s, e)
    ensures Errs(s, e) ==> Apply(s, e) == Fail(s, e.tid)
    ensures !Errs(s, e) ==> Apply(s, e).stranded == s.stranded
  {
    hide TxTrigger, TxRespond, TxTimeout, TxFinalize, TxConsume, TxLifecycle, CreditAll, MintAll, Database.Reserve,
         QuoteCost;
  }

  // ----- the tables decide which steps fail ------------------------------------------------

  /** The envelope that was read does not authorize the action. */
  predicate NotCovered(c: Config, db: Db, a: Action, envelope: Option<Id>) {
    || envelope.None?
    || envelope.value !in db.envelopes
    || db.envelopes[envelope.value].consumed >= db.envelopes[envelope.value].budget
    || !InScope(c, db.envelopes[envelope.value], a.target, a.kind)
  }

  /** Validation, frozen check, boundary, lineage and, for an agent, its envelope. */
  ghost predicate AuthorizeRefuses(c: Config, s: State, t: Task, envelope: Option<Id>) {
    var a := t.action;
    if t.pc.Lapsed? then a.actor !in s.db.actors || s.db.actors[a.actor].kind.Agent?
    else if !t.pc.Entered? then false
    else if !Named(a.actor) || !Named(a.target) || a.actor !in s.db.actors then true
    else
      var actor := s.db.actors[a.actor];
      || (actor.status == Frozen && a.kind != Observe)
      || !MayWrite(c, actor, a.target, a.kind)
      || (a.kind != Observe && actor.kind == Agent && !CreatorActive(s.db.actors, actor))
      || (a.kind != Observe && actor.kind == Agent && IsActiveEnvelope(s.db, a.actor, envelope)
          && NotCovered(c, s.db, a, envelope)
          && !(envelope.Some? && envelope.value in s.db.envelopes
               && PastDeadline(s.db.envelopes[envelope.value], s.now)))
  }

  predicate Open(db: Db, hold: Id) {
    hold in db.holds && db.holds[hold].status.Pending?
  }

  /** A hold in the way was resolved by someone else, or the holds were expired on behalf of a late answer. */
  predicate ExpireRefuses(s: State, t: Task) {
    && t.pc.Expiring?
    && if t.pc.todo == [] then t.pc.thenFail
       else
         var h := t.pc.todo[0];
         h !in s.db.holds || (Late(s.db.holds[h], t.pc.timeoutSecs, t.pc.asOf) && !s.db.holds[h].status.Pending?)
  }

  predicate CannotReserve(db: Db, a: Action) {
    a.actor !in db.ledger || db.ledger[a.actor].balance - db.ledger[a.actor].reserved < QuoteCost(a)
  }

  /** The action answers a hold, but not as a human or not an open one. */
  predicate AnswerRefused(db: Db, a: Action) {
    && ParseHoldResponse(a).Some?
    && (a.actor !in db.actors || !db.actors[a.actor].kind.Human? || !Open(db, ParseHoldResponse(a).value.0))
  }

  /** The lifecycle check and the two creation parsers. */
  ghost predicate SpecRefused(c: Config, db: Db, a: Action, grant: Option<Id>) {
    if a.actor !in db.actors then true
    else if ParseLifecycleOp(a).Some? then !CreatorOf(db.actors, a.actor, ParseLifecycleOp(a).value.0)
    else if a.kind.Create? && a.target == "ledger/actor" then
      || a.payload.actor.None?
      || (db.actors[a.actor].kind.Agent? && a.payload.actor.value.kind.Agent?)
      || !HandsOn(c, db.actors[a.actor].writable, a.payload.actor.value.writable)
    else if a.kind.Create? && a.target == "ledger/envelope" then
      || a.payload.envelope.None? || a.payload.envelope.value.budget <= 0
      || (grant.Some? && grant.value in db.envelopes
            && !Reduces(c, db.envelopes[grant.value], a.payload.envelope.value))
    else false
  }

  /** The action was checked against an envelope of which some rule holds it, and no human approved it. */
  ghost predicate Held(c: Config, db: Db, t: Task) {
    && t.pc.Cleared? && t.via.None? && t.pc.checked.Some? && t.pc.checked.value in db.envelopes
    && SomeRuleApplies(c, db.envelopes[t.pc.checked.value].holdOn, t.action.target, t.action.kind)
  }

  lemma HeldMeans(c: Config, db: Db, t: Task)
    requires t.pc.Cleared?
    ensures Held(c, db, t) <==> MustHold(c, db, t, t.pc.checked)
  {
    hide HoldTriggered, SomeRuleApplies;
    if t.pc.checked.Some? && t.pc.checked.value in db.envelopes {
      HoldRulesDecide(c, db.envelopes[t.pc.checked.value].holdOn, t.action.target, t.action.kind);
    }
  }

  /** What the tables say about the next step of a task: that it fails. */
  ghost predicate Refuses(c: Config, s: State, l: Label)
    requires OfTask(l) && l.tid in s.tasks
  {
    var t := s.tasks[l.tid];
    var held := t.pc.Cleared? && Held(c, s.db, t);
    match l
    case Abort(_) => true
    case Authorize(_, envelope, _) => AuthorizeRefuses(c, s, t, envelope)
    case Expire(_) => ExpireRefuses(s, t)
    case Trigger(_, hold) => held && (CannotReserve(s.db, t.action) || hold in s.db.holds)
    case ReadHold(_, _) => t.pc.Cleared? && !held && AnswerRefused(s.db, t.action)
    case Respond(_) => t.pc.Responding? && !Open(s.db, t.pc.hold)
    case Parse(_, _, grant) =>
      && t.pc.Cleared? && !held && ParseHoldResponse(t.action).None?
      && IsActiveEnvelope(s.db, t.action.actor, grant) && SpecRefused(c, s.db, t.action, grant)
    case ReserveEnergy(_) => t.pc.Specced? && t.via.None? && CannotReserve(s.db, t.action)
    case Finalize(_) =>
      t.pc.Reserved? && ((t.action.kind.Execute? && !t.action.payload.executeOk) || Clashes(s.db, t.pc.spec))
    case _ => false
  }

  lemma AuthorizeFails(c: Config, s: State, tid: nat, envelope: Option<Id>, pending: seq<Id>)
    requires LineageOk(c, s.db.actors) && tid in s.tasks
    ensures var e := DecideAuthorize(c, s, tid, envelope, pending);
            Errs(s, e) <==> Refuses(c, s, Authorize(tid, envelope, pending))
  {
    hide WithinBoundary, Blank, Named, MayWrite, LineageActive, CreatorActive, DecideMode, InScope, IsExpired,
         PastDeadline, IsPendingList, MustHold, Held, LineageOk;
    var a := s.tasks[tid].action;
    BlankDecides(a.actor);
    BlankDecides(a.target);
    if a.actor in s.db.actors {
      ModeFails(c, s, tid, None, []);
      BoundaryDecides(c, s.db.actors[a.actor], a.target, a.kind);
      CreatorDecides(c, s.db.actors, a.actor);
      if envelope.Some? ==> envelope.value in s.db.envelopes {
        ModeFails(c, s, tid, envelope, pending);
      }
      if envelope.Some? && envelope.value in s.db.envelopes {
        ExpiryDecides(s.db.envelopes[envelope.value], s.now);
      }
    }
  }

  lemma CreatorDecides(c: Config, actors: map<Id, Actor>, id: Id)
    requires LineageOk(c, actors) && id in actors
    ensures LineageActive(actors, actors[id].lineage) <==> CreatorActive(actors, actors[id])
  {
    hide LineageActive, CreatorActive, ChildTargetsCovered, DistinctIds, SovereignsActive;
    assert ActorOk(c, actors, id);
    LineageDecides(actors, actors[id]);
  }

  lemma ModeFails(c: Config, s: State, tid: nat, envelope: Option<Id>, pending: seq<Id>)
    requires tid in s.tasks && s.tasks[tid].action.actor in s.db.actors
    requires envelope.Some? ==> envelope.value in s.db.envelopes
    ensures var a, e := s.tasks[tid].action, DecideMode(c, s, tid, envelope, pending);
            && (e.FailTask? || e.Move? || e.Stay?)
            && (s.db.actors[a.actor].kind.Human? ==> e.Move?)
            && (s.db.actors[a.actor].kind.Agent?
                  && (envelope.None? || s.db.envelopes[envelope.value].status.EnvActive?) ==>
                  (e.FailTask? <==> NotCovered(c, s.db, a, envelope)))
  {
    hide IsPendingList;
  }

  lemma ExpireFails(c: Config, s: State, tid: nat)
    requires Reachable(c, s) && tid in s.tasks
    ensures Errs(s, DecideExpire(s, tid)) <==> Refuses(c, s, Expire(tid))
  {
    hide Run, TxTimeout, HasTimedOut, Late, MustHold, Held;
    var pc := s.tasks[tid].pc;
    if pc.Expiring? && pc.todo != [] && pc.todo[0] in s.db.holds {
      TimeoutDecides(s.db.holds[pc.todo[0]], pc.timeoutSecs, pc.asOf);
    }
    if pc.Expiring? && pc.todo != [] {
      PendingHoldsResolve(c, s, pc.todo[0], false, ROOT, s.now);
    }
  }

  lemma TriggerFails(c: Config, s: State, tid: nat, hold: Id)
    requires Reachable(c, s) && tid in s.tasks
    ensures Errs(s, DecideTrigger(c, s, tid, hold)) <==> Refuses(c, s, Trigger(tid, hold))
  {
    hide Run, MustHold, Held, Inv, TxTrigger;
    var t := s.tasks[tid];
    if t.pc.Cleared? {
      HeldMeans(c, s.db, t);
    }
    if t.pc.Cleared? && MustHold(c, s.db, t, t.pc.checked) {
      MustHoldHasEnvelope(c, s.db, t);
      TriggerSucceeds(c, s, hold, t.pc.checked.value, t.action);
    }
  }

  lemma MustHoldHasEnvelope(c: Config, db: Db, t: Task)
    requires t.pc.Cleared? && MustHold(c, db, t, t.pc.checked)
    ensures t.pc.checked.Some?
  {
  }

  lemma TriggerSucceeds(c: Config, s: State, hold: Id, envelope: Id, a: Action)
    requires Reachable(c, s)
    ensures TxTrigger(s.db, hold, envelope, a, s.now).Err? <==> CannotReserve(s.db, a) || hold in s.db.holds
  {
    hide Run, TasksOk, AccountsOk, LogOk, EventsOk, LineageOk, BudgetsOk, ChargesOk, TrailOk, AppendEvent, QuoteCost;
    ReachableInv(c, s);
    var ledger := Database.Reserve(s.db.ledger, a.actor, QuoteCost(a));
    if ledger.Ok? {
      AppendsOk(s, ledger.value, s.db.holds);
      assert s.db.(ledger := ledger.value) == s.db.(holds := s.db.holds, ledger := ledger.value);
    }
  }

  lemma ReadHoldFails(c: Config, s: State, tid: nat, pending: seq<Id>)
    requires tid in s.tasks
    ensures Errs(s, DecideReadHold(c, s, tid, pending)) <==> Refuses(c, s, ReadHold(tid, pending))
  {
    hide MustHold, Held, HasTimedOut, IsPendingList, ParseHoldResponse;
    if s.tasks[tid].pc.Cleared? {
      HeldMeans(c, s.db, s.tasks[tid]);
    }
  }

  lemma RespondFails(c: Config, s: State, tid: nat)
    requires Reachable(c, s) && tid in s.tasks
    ensures Errs(s, DecideRespond(s, tid)) <==> Refuses(c, s, Respond(tid))
  {
    hide Run, TxRespond, MustHold, Held;
    var t := s.tasks[tid];
    if t.pc.Responding? {
      PendingHoldsResolve(c, s, t.pc.hold, t.pc.approve, t.action.actor, s.now);
    }
  }

  lemma ParseFails(c: Config, s: State, tid: nat, newId: Id, grant: Option<Id>)
    requires LineageOk(c, s.db.actors) && tid in s.tasks
    ensures Errs(s, DecideParse(c, s, tid, newId, grant)) <==> Refuses(c, s, Parse(tid, newId, grant))
  {
    hide MustHold, Held, ParseHoldResponse, IsActiveEnvelope, ParseSpec, SpecRefused, LineageOk;
    var t := s.tasks[tid];
    if t.pc.Cleared? {
      HeldMeans(c, s.db, t);
    }
    if IsActiveEnvelope(s.db, t.action.actor, grant) {
      ActiveExists(s.db, t.action.actor, grant);
      SpecFails(c, s.db, t.action, newId, grant);
    }
  }

  lemma SpecFails(c: Config, db: Db, a: Action, newId: Id, grant: Option<Id>)
    requires LineageOk(c, db.actors) && (grant.Some? ==> grant.value in db.envelopes)
    ensures ParseSpec(c, db, a, newId, grant).Err? <==> SpecRefused(c, db, a, grant)
  {
    hide ChildTargetsCovered, HandsOn, EnvelopeReduced, Reduces, ParseLifecycleOp, MayManage, CreatorOf, LineageOk;
    if a.actor in db.actors {
      if ParseLifecycleOp(a).Some? {
        ManagerDecides(c, db.actors, a.actor, ParseLifecycleOp(a).value.0);
      }
      if a.payload.actor.Some? {
        ChildTargetsDecide(c, db.actors[a.actor], a.payload.actor.value.writable);
      }
      if grant.Some? && a.payload.envelope.Some? {
        ReductionDecides(c, db.envelopes[grant.value], a.payload.envelope.value);
      }
    }
  }

  lemma ManagerDecides(c: Config, actors: map<Id, Actor>, initiator: Id, subject: Id)
    requires LineageOk(c, actors) && initiator in actors
    ensures subject in actors && MayManage(initiator, actors[initiator], actors[subject])
       <==> CreatorOf(actors, initiator, subject)
  {
    hide ChildTargetsCovered, DistinctIds, SovereignsActive;
    if subject in actors {
      assert ActorOk(c, actors, subject);
      ManagementDecides(actors, initiator, subject);
    }
  }

  lemma FinalizeFails(c: Config, s: State, tid: nat)
    requires Reachable(c, s) && tid in s.tasks
    ensures Errs(s, DecideFinalize(s, tid)) <==> Refuses(c, s, Finalize(tid))
  {
    hide Run, TxFinalize, MustHold, Held, Clashes;
    if s.tasks[tid].pc.Reserved? {
      CommitFailsOnlyOnClash(c, s, tid);
    }
  }

  /** Every step of every task fails exactly when the tables refuse it. */
  lemma FailsExactly(c: Config, s: State, l: Label)
    requires Reachable(c, s) && OfTask(l) && l.tid in s.tasks
    ensures Errs(s, Decide(c, s, l)) <==> Refuses(c, s, l)
  {
    hide Run, DecideAuthorize, DecideExpire, DecideTrigger, DecideReadHold, DecideRespond, DecideParse, DecideFinalize,
         Errs, Refuses, LineageOk;
    LineageHolds(c, s);
    match l
    case Authorize(tid, envelope, pending) => AuthorizeFails(c, s, tid, envelope, pending);
    case Expire(tid) => ExpireFails(c, s, tid);
    case Trigger(tid, hold) => TriggerFails(c, s, tid, hold);
    case ReadHold(tid, pending) => ReadHoldFails(c, s, tid, pending);
    case Respond(tid) => RespondFails(c, s, tid);
    case Parse(tid, newId, grant) => ParseFails(c, s, tid, newId, grant);
    case Finalize(tid) => FinalizeFails(c, s, tid);
    case _ => OtherFails(c, s, l);
  }

  lemma LineageHolds(c: Config, s: State)
    requires Reachable(c, s)
    ensures LineageOk(c, s.db.actors)
  {
    hide Run, TasksOk, AccountsOk, LogOk, EventsOk, LineageOk, BudgetsOk, ChargesOk, TrailOk;
    ReachableInv(c, s);
  }

  lemma OtherFails(c: Config, s: State, l: Label)
    requires l.Abort? || l.ReserveEnergy? || l.ReadBudget? || l.Consume? || l.Manage?
    requires OfTask(l) && l.tid in s.tasks
    ensures Errs(s, DecideTask(c, s, l)) <==> Refuses(c, s, l)
  {
    hide MustHold, Held, QuoteCost, IsActiveEnvelope, CheckCheckpoint;
    QuoteIsPositive(s.tasks[l.tid].action);
  }

  lemma QuoteIsPositive(a: Action)
    ensures QuoteCost(a) > 0
  {
  }

  // ----- what strands ----------------------------------------------------------------------

  /** A step of a task decides on an effect of that task; no other step ends a task. */
  lemma OwnEffect(c: Config, s: State, l: Label)
    ensures var e := Decide(c, s, l);
            && (ForTask(e) ==> OfTask(l) && l.tid in s.tasks && e.tid == l.tid)
            && (Errs(s, e) ==> ForTask(e))
  {
    hide ParseSpec, MustHold, WithinBoundary, IsActiveEnvelope, CheckAuthorization, EnvelopeCovers, IsPendingList,
         IsShareList, Shares, TxTimeout, TxTrigger, TxRespond, TxFinalize, Database.Reserve;
  }

  /** A task holds a reservation exactly when it has reserved and not committed, or re-executes an approved hold. */
  lemma ClaimsExactly(c: Config, s: State, tid: nat)
    requires Reachable(c, s) && tid in s.tasks
    ensures s.tasks[tid].Claim() > 0 <==> s.tasks[tid].via.Some? || s.tasks[tid].pc.Reserved?
    ensures s.tasks[tid].via.Some? ==>
              s.tasks[tid].via.value in s.db.holds
              && s.tasks[tid].Claim() == s.db.holds[s.tasks[tid].via.value].reserved
  {
    hide Run, AccountsOk, LogOk, EventsOk, LineageOk, BudgetsOk, ChargesOk, TrailOk, SpecOk, MeterOk, CheckedOk,
         MustHold;
    ReachableInv(c, s);
    var t := s.tasks[tid];
    assert TaskOk(c, s.db, t);
    if t.via.Some? {
      assert HoldOk(s.db, s.db.holds[t.via.value]);
    }
  }

  /**
   * What strands, exactly: a step strands energy if and only if it ends a task
   * that holds a reservation and the tables refuse the step. It then strands the
   * whole reservation and changes no table.
   */
  lemma StrandsExactly(c: Config, s: State, l: Label, actor: Id)
    requires Reachable(c, s)
    ensures var s' := Step(c, s, l);
            if OfTask(l) && l.tid in s.tasks && Refuses(c, s, l)
            then
              var t := s.tasks[l.tid];
              && s'.db == s.db && l.tid !in s'.tasks
              && StrandedBy(s'.stranded, actor)
                 == StrandedBy(s.stranded, actor) + if actor == t.action.actor then t.Claim() else 0
            else StrandedBy(s'.stranded, actor) == StrandedBy(s.stranded, actor)
  {
    hide Run, Decide, Apply, Errs, Refuses;
    var e := Decide(c, s, l);
    OwnEffect(c, s, l);
    ErrorStrands(s, e, actor);
    if OfTask(l) && l.tid in s.tasks {
      FailsExactly(c, s, l);
    }
  }

  /** What is stranded stays so: it never becomes less, and it is part of what is reserved. */
  lemma {:induction false} StrandedForGood(c: Config, s: State, later: seq<Label>, actor: Id)
    requires Reachable(c, s)
    ensures StrandedBy(Run(c, s, later).stranded, actor) >= StrandedBy(s.stranded, actor)
    ensures actor in Run(c, s, later).db.ledger ==>
              Run(c, s, later).db.ledger[actor].reserved >= StrandedBy(s.stranded, actor)
    decreases |later|
  {
    hide Step, Reachable, MapSum, Refuses;
    LaterReachable(c, s, later);
    if later != [] {
      var n := |later| - 1;
      var before := Run(c, s, later[..n]);
      StrandedForGood(c, s, later[..n], actor);
      LaterReachable(c, s, later[..n]);
      StrandsExactly(c, before, later[n], actor);
    }
    if actor in Run(c, s, later).db.ledger {
      ReservationsAccounted(c, Run(c, s, later), actor);
    }
  }
}

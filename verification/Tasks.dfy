/**
 * What is true of every submission in flight and of every hold, in every
 * reachable state: the facts that a task read and relies on later stay true
 * whatever the other tasks do in between.
 */
module Tasks {
  import opened Basics
  import opened Consent
  import opened Database
  import opened Kernel
  import opened Stability
  import opened AuditStore
  import Tick

  ghost predicate Is(db: Db, id: Id, kind: ActorType) {
    id in db.actors && db.actors[id].kind == kind
  }

  /** A hold belongs to an agent, is under an envelope, and reserved its action's quote. */
  ghost predicate HoldOk(db: Db, h: Hold) {
    && Is(db, h.agent, Agent)
    && h.envelope in db.envelopes
    && h.action.actor == h.agent && h.action.kind.StateChanging()
    && h.reserved == QuoteCost(h.action)
  }

  /** The action and target are in the envelope's scope; terms never change, so it stays so. */
  predicate InScope(c: Config, e: Envelope, target: string, kind: ActionType) {
    kind.Name() in e.actions && exists p | p in e.targets :: c.glob(p, target)
  }

  /** The action is within its actor's boundary. */
  predicate Bounded(c: Config, db: Db, id: Id, target: string, kind: ActionType) {
    id in db.actors && WithinBoundary(c, db.actors[id], target, kind)
  }

  /** An agent's state-changing action was checked against one of its own envelopes. */
  ghost predicate CheckedOk(c: Config, db: Db, a: Action, checked: Option<Id>) {
    && Bounded(c, db, a.actor, a.target, a.kind)
    && (checked.Some? ==> checked.value in db.envelopes && InScope(c, db.envelopes[checked.value], a.target, a.kind))
    && (checked.Some? ==> checked.value in db.envelopes && db.envelopes[checked.value].actor == a.actor)
    && (checked.Some? ==> Is(db, a.actor, Agent) && a.kind.StateChanging())
    && (Is(db, a.actor, Agent) && a.kind.StateChanging() ==> checked.Some?)
  }

  /** The action asks for this creation or this operation. */
  predicate SpecFor(a: Action, spec: Spec) {
    && (spec.NewActor? ==> a.kind.Create? && a.target == "ledger/actor" && a.payload.actor == Some(spec.request))
    && (spec.NewEnvelope? ==> a.kind.Create? && a.target == "ledger/envelope" && a.payload.envelope == Some(spec.terms))
    && (spec.Lifecycle? ==> ParseLifecycleOp(a) == Some((spec.subject, spec.op)))
  }

  /** What was parsed from the action is still what the tables allow. */
  ghost predicate SpecOk(c: Config, db: Db, a: Action, spec: Spec) {
    && a.actor in db.actors && SpecFor(a, spec)
    && match spec
       case NoSpec => true
       case NewActor(q) =>
         (q.kind.Agent? ==> Is(db, a.actor, Human)) && ChildTargetsCovered(c, db.actors[a.actor], q.writable)
       case NewEnvelope(_, q, parent) =>
         q.budget > 0 && (parent.Some? ==> ParentOk(c, db, q.budget, q.actions, q.targets, parent.value))
       case Lifecycle(subject, _) =>
         Is(db, subject, Agent) && Is(db, a.actor, Human) && a.actor in db.actors[subject].lineage
  }

  /** Each target is covered by one of the parent's patterns. */
  predicate TargetsCovered(c: Config, parent: seq<string>, targets: seq<string>) {
    forall t | t in targets :: exists p | p in parent :: PatternCovers(c, p, t)
  }

  ghost predicate ParentOk(c: Config, db: Db, budget: int, actions: seq<string>, targets: seq<string>, parent: Id) {
    && parent in db.envelopes
    && budget <= db.envelopes[parent].budget
    && (forall x | x in actions :: x in db.envelopes[parent].actions)
    && TargetsCovered(c, db.envelopes[parent].targets, targets)
  }

  /** A re-submission carries an approved hold of its own actor, and that hold's reservation. */
  ghost predicate ViaOk(db: Db, t: Task) {
    t.via.Some? ==>
      && t.via.value in db.holds
      && db.holds[t.via.value].status.Approved?
      && t.action == db.holds[t.via.value].action
      && t.preReserved == db.holds[t.via.value].reserved
      && t.depth == 1
  }

  /** The checkpoint of a charge is the one that its read calls for. */
  predicate DueCheckpoint(envelopes: map<Id, Envelope>, charge: Charge)
    requires charge.envelope in envelopes
  {
    var e := envelopes[charge.envelope];
    charge.level == CheckCheckpoint(e.budget, e.reportEvery, charge.seen, charge.amount)
  }

  ghost predicate MeterOk(db: Db, t: Task) {
    t.pc.Metering? ==>
      && var charge := t.pc.charge;
         charge.amount > 0 && charge.envelope in db.envelopes
         && db.envelopes[charge.envelope].actor == t.action.actor
         && charge.seen <= db.envelopes[charge.envelope].consumed
         && DueCheckpoint(db.envelopes, charge)
  }

  ghost predicate PcOk(c: Config, db: Db, t: Task) {
    match t.pc
    case Entered => true
    case Lapsed => t.action.kind.StateChanging() && Bounded(c, db, t.action.actor, t.action.target, t.action.kind)
    case Expiring(checked, _, _, _, thenFail) => thenFail || CheckedOk(c, db, t.action, checked)
    case Cleared(checked) => CheckedOk(c, db, t.action, checked)
    case Responding(hold, _) => t.via.None? && Is(db, t.action.actor, Human)
    case Specced(checked, spec) =>
      CheckedOk(c, db, t.action, checked) && !MustHold(c, db, t, checked) && SpecOk(c, db, t.action, spec)
    case Reserved(checked, spec, cost) =>
      && CheckedOk(c, db, t.action, checked) && !MustHold(c, db, t, checked) && SpecOk(c, db, t.action, spec)
      && cost == if t.via.Some? then t.preReserved else QuoteCost(t.action)
    case Committed(spec, _, _) => t.via.None? && SpecOk(c, db, t.action, spec)
    case Metering(spec, _) => t.via.None? && SpecOk(c, db, t.action, spec)
    case Metered(spec) => t.via.None? && SpecOk(c, db, t.action, spec)
  }

  ghost predicate TaskOk(c: Config, db: Db, t: Task) {
    && ViaOk(db, t)
    && t.depth <= 1 && (t.depth == 1 ==> Is(db, t.action.actor, Agent))
    && MeterOk(db, t)
    && PcOk(c, db, t)
  }

  ghost predicate TasksOk(c: Config, s: State) {
    && (forall tid | tid in s.tasks :: TaskOk(c, s.db, s.tasks[tid]))
    && (forall h | h in s.db.holds :: HoldOk(s.db, s.db.holds[h]))
  }

  // ----- stability -----------------------------------------------------------------

  lemma HoldStable(p: Db, q: Db, h: Hold, h': Hold)
    requires Grows(p, q) && HoldOk(p, h) && SameHold(h, h')
    ensures HoldOk(q, h')
  {
  }

  lemma TaskStable(c: Config, p: Db, q: Db, t: Task)
    requires Grows(p, q) && TaskOk(c, p, t)
    ensures TaskOk(c, q, t)
  {
    hide HoldTriggered, CheckCheckpoint;
    PcStable(c, p, q, t);
  }

  lemma PcStable(c: Config, p: Db, q: Db, t: Task)
    requires Grows(p, q) && PcOk(c, p, t)
    ensures PcOk(c, q, t)
  {
    hide HoldTriggered, SpecOk;
    match t.pc
    case Specced(checked, spec) => SpecStable(c, p, q, t.action, spec);
    case Reserved(checked, spec, cost) => SpecStable(c, p, q, t.action, spec);
    case Committed(spec, _, _) => SpecStable(c, p, q, t.action, spec);
    case Metering(spec, _) => SpecStable(c, p, q, t.action, spec);
    case Metered(spec) => SpecStable(c, p, q, t.action, spec);
    case _ =>
  }

  lemma SpecStable(c: Config, p: Db, q: Db, a: Action, spec: Spec)
    requires Grows(p, q) && SpecOk(c, p, a, spec)
    ensures SpecOk(c, q, a, spec)
  {
    hide SpecFor;
  }

  /** Other tasks and holds keep their facts under any growth of the tables. */
  lemma OthersStable(c: Config, s: State, q: Db)
    requires TasksOk(c, s) && Grows(s.db, q)
    ensures forall tid | tid in s.tasks :: TaskOk(c, q, s.tasks[tid])
    ensures forall h | h in s.db.holds && h in q.holds :: HoldOk(q, q.holds[h])
  {
    forall tid | tid in s.tasks
      ensures TaskOk(c, q, s.tasks[tid])
    {
      TaskStable(c, s.db, q, s.tasks[tid]);
    }
    forall h | h in s.db.holds && h in q.holds
      ensures HoldOk(q, q.holds[h])
    {
      HoldStable(s.db, q, s.db.holds[h], q.holds[h]);
    }
  }

  // ----- decisions ------------------------------------------------------------------

  /** The event that a committed task has still to charge, and its cost. */
  function Bill(t: Task): (b: Option<(nat, nat)>) {
    match t.pc
    case Committed(_, cost, event) => Some((event, cost))
    case Metering(_, charge) => Some((charge.event, charge.amount))
    case _ => None
  }

  /** The task's facts, its claim and its bill survive the move. */
  ghost predicate MoveOk(c: Config, s: State, tid: nat, pc: Pc)
    requires tid in s.tasks
  {
    var t, t' := s.tasks[tid], s.tasks[tid].At(pc);
    TaskOk(c, s.db, t') && t'.Claim() == t.Claim() && (Bill(t').Some? ==> Bill(t') == Bill(t))
  }

  /** Validation, actor existence, frozen check, boundary and lineage. */
  predicate Admitted(c: Config, db: Db, a: Action) {
    && ValidAction(a) && a.actor in db.actors
    && var actor := db.actors[a.actor];
       && !(actor.status.Frozen? && a.kind.StateChanging())
       && WithinBoundary(c, actor, a.target, a.kind)
       && (actor.kind.Agent? && a.kind.StateChanging() ==> LineageActive(db.actors, actor.lineage))
  }

  lemma AuthorizeCases(c: Config, s: State, tid: nat)
    requires tid in s.tasks && s.tasks[tid].pc.Entered?
    ensures Admitted(c, s.db, s.tasks[tid].action) ==> s.tasks[tid].action.actor in s.db.actors
    ensures forall envelope, pending ::
      var a, e := s.tasks[tid].action, DecideTask(c, s, Label.Authorize(tid, envelope, pending));
      && (!Admitted(c, s.db, a) ==> e == FailTask(tid))
      && (Admitted(c, s.db, a) && !a.kind.StateChanging() ==> e == Move(tid, Cleared(None)))
      && (Admitted(c, s.db, a) && a.kind.StateChanging() && IsActiveEnvelope(s.db, a.actor, envelope) ==>
            e == if envelope.Some? && IsExpired(s.db.envelopes[envelope.value], s.now)
                 then LapseEnvelope(tid, envelope.value)
                 else DecideMode(c, s, tid, envelope, pending))
  {
    hide DecideMode, WithinBoundary, ValidAction, LineageActive, IsExpired;
  }

  /** What the invariants need to know about the effect that a step decided on. */
  ghost predicate EffectOk(c: Config, s: State, e: Effect)
    requires Applicable(s, e)
  {
    match e
    case Move(tid, pc) => MoveOk(c, s, tid, pc)
    case TimeOutHold(tid, hold, pc) => MoveOk(c, s, tid, pc)
    case Finish(tid) => s.tasks[tid].Claim() == 0
    case LapseEnvelope(tid, _) =>
      var a := s.tasks[tid].action;
      s.tasks[tid].pc.Entered? && a.kind.StateChanging() && Bounded(c, s.db, a.actor, a.target, a.kind)
    case TriggerHold(tid, hold, id) =>
      && s.tasks[tid].pc == Cleared(Some(id)) && s.tasks[tid].via.None?
      && Is(s.db, s.tasks[tid].action.actor, Agent) && s.tasks[tid].action.kind.StateChanging()
      && id in s.db.envelopes && s.db.envelopes[id].actor == s.tasks[tid].action.actor
      && MustHold(c, s.db, s.tasks[tid], Some(id))
    case AnswerHold(tid, hold, approve) => s.tasks[tid].pc == Responding(hold, approve)
    case ReserveFor(tid, checked, spec) => s.tasks[tid].pc == Specced(checked, spec)
    case Commit(tid, checked, spec, cost) => s.tasks[tid].pc == Reserved(checked, spec, cost)
    case ConsumeBudget(tid, spec, charge) => s.tasks[tid].pc == Metering(spec, charge)
    case ManageActor(tid, subject, op) => s.tasks[tid].pc == Metered(Lifecycle(subject, op))
    case CreditTick(list, credits) => forall a | a in list :: a in s.db.actors
    case StoreCheckpoint(n, root) => n > 0 && TreeHash(s.db.rows, 0, n) == Ok(root)
    case _ => true
  }

  lemma AuthorizeOk(c: Config, s: State, tid: nat, envelope: Option<Id>, pending: seq<Id>)
    requires tid in s.tasks && TaskOk(c, s.db, s.tasks[tid])
    ensures EffectOk(c, s, DecideAuthorize(c, s, tid, envelope, pending))
  {
    hide ValidAction, WithinBoundary, LineageActive, IsExpired, DecideMode;
    var t := s.tasks[tid];
    if Bounded(c, s.db, t.action.actor, t.action.target, t.action.kind) && t.action.kind.StateChanging() {
      if t.pc.Lapsed? {
        ModeOk(c, s, tid, None, []);
      } else if t.pc.Entered? && IsActiveEnvelope(s.db, t.action.actor, envelope) {
        ModeOk(c, s, tid, envelope, pending);
      }
    }
  }

  lemma ModeOk(c: Config, s: State, tid: nat, envelope: Option<Id>, pending: seq<Id>)
    requires tid in s.tasks && TaskOk(c, s.db, s.tasks[tid])
    requires s.tasks[tid].pc.Entered? || s.tasks[tid].pc.Lapsed?
    requires s.tasks[tid].action.actor in s.db.actors && s.tasks[tid].action.kind.StateChanging()
    requires Bounded(c, s.db, s.tasks[tid].action.actor, s.tasks[tid].action.target, s.tasks[tid].action.kind)
    requires envelope.Some? ==>
             envelope.value in s.db.envelopes && s.db.envelopes[envelope.value].actor == s.tasks[tid].action.actor
    ensures EffectOk(c, s, DecideMode(c, s, tid, envelope, pending))
  {
    hide IsPendingList, WithinBoundary;
  }

  lemma ReadHoldOk(c: Config, s: State, tid: nat, pending: seq<Id>)
    requires tid in s.tasks && TaskOk(c, s.db, s.tasks[tid])
    requires ViaAgents(s)
    ensures EffectOk(c, s, DecideReadHold(c, s, tid, pending))
  {
    hide MustHold, IsPendingList, HasTimedOut;
  }

  /** No re-submission has a human actor. */
  ghost predicate ViaAgents(s: State) {
    forall tid | tid in s.tasks && s.tasks[tid].via.Some? :: Is(s.db, s.tasks[tid].action.actor, Agent)
  }

  lemma TriggerOk(c: Config, s: State, tid: nat, hold: Id)
    requires tid in s.tasks && TaskOk(c, s.db, s.tasks[tid])
    ensures EffectOk(c, s, DecideTrigger(c, s, tid, hold))
  {
    hide HoldTriggered;
  }

  lemma ParseOk(c: Config, s: State, tid: nat, newId: Id, grant: Option<Id>)
    requires tid in s.tasks && TaskOk(c, s.db, s.tasks[tid])
    ensures EffectOk(c, s, DecideParse(c, s, tid, newId, grant))
  {
    hide HoldTriggered, ParseSpec, IsActiveEnvelope, SpecOk;
    var t := s.tasks[tid];
    if IsActiveEnvelope(s.db, t.action.actor, grant) {
      ActiveExists(s.db, t.action.actor, grant);
      ParseSpecOk(c, s.db, t.action, newId, grant);
    }
  }

  lemma ActiveExists(db: Db, actor: Id, answer: Option<Id>)
    requires IsActiveEnvelope(db, actor, answer)
    ensures answer.Some? ==> answer.value in db.envelopes
  {
  }

  lemma ParseSpecOk(c: Config, db: Db, a: Action, newId: Id, grant: Option<Id>)
    requires grant.Some? ==> grant.value in db.envelopes
    ensures ParseSpec(c, db, a, newId, grant).Ok? ==> SpecOk(c, db, a, ParseSpec(c, db, a, newId, grant).value)
  {
    hide ChildTargetsCovered, PatternCovers, ParseLifecycleOp;
    if a.actor in db.actors && ParseLifecycleOp(a).Some? {
      LifecycleOk(c, db, a, newId, grant);
    }
  }

  lemma LifecycleOk(c: Config, db: Db, a: Action, newId: Id, grant: Option<Id>)
    requires (grant.Some? ==> grant.value in db.envelopes) && a.actor in db.actors && ParseLifecycleOp(a).Some?
    ensures ParseSpec(c, db, a, newId, grant).Ok? ==> SpecOk(c, db, a, ParseSpec(c, db, a, newId, grant).value)
  {
    hide ParseLifecycleOp;
    var (subject, op) := ParseLifecycleOp(a).value;
    assert ParseLifecycleOp(a) == Some((subject, op));
    if subject in db.actors && MayManage(a.actor, db.actors[a.actor], db.actors[subject]) {
      assert ParseSpec(c, db, a, newId, grant) == Ok(Lifecycle(subject, op));
    }
  }

  lemma ReadBudgetOk(c: Config, s: State, tid: nat, envelope: Option<Id>)
    requires tid in s.tasks && TaskOk(c, s.db, s.tasks[tid])
    ensures EffectOk(c, s, DecideReadBudget(s, tid, envelope))
  {
    hide CheckCheckpoint, SpecOk;
  }

  lemma ExpireOk(c: Config, s: State, tid: nat)
    requires tid in s.tasks && TaskOk(c, s.db, s.tasks[tid])
    ensures EffectOk(c, s, DecideExpire(s, tid))
  {
    hide HasTimedOut;
  }

  lemma ViaAreAgents(c: Config, s: State)
    requires TasksOk(c, s)
    ensures ViaAgents(s)
  {
    hide PcOk, MeterOk;
  }

  /** Every decision of every step is backed by facts that still hold when it is applied. */
  lemma DecideOk(c: Config, s: State, l: Label)
    requires TasksOk(c, s)
    ensures EffectOk(c, s, Decide(c, s, l))
  {
    hide HoldOk, TaskOk, DecideAuthorize, DecideExpire, DecideReadHold, DecideTrigger, DecideParse, DecideReadBudget,
         DecideManage, ViaAgents, MustHold, MoveOk, Bounded, TreeHash;
    if OfTask(l) && l.tid in s.tasks {
      var tid := l.tid;
      match l
      case Authorize(_, envelope, pending) => AuthorizeOk(c, s, tid, envelope, pending);
      case Expire(_) => ExpireOk(c, s, tid);
      case Trigger(_, hold) => TriggerOk(c, s, tid, hold);
      case ReadHold(_, pending) =>
        ViaAreAgents(c, s);
        ReadHoldOk(c, s, tid, pending);
      case Parse(_, newId, grant) => ParseOk(c, s, tid, newId, grant);
      case ReadBudget(_, envelope) => ReadBudgetOk(c, s, tid, envelope);
      case Manage(_) => ManageOk(c, s, tid);
      case _ =>
    }
  }

  lemma ManageOk(c: Config, s: State, tid: nat)
    requires tid in s.tasks && TaskOk(c, s.db, s.tasks[tid])
    ensures EffectOk(c, s, DecideManage(s, tid))
  {
    hide SpecOk;
  }

  // ----- effects --------------------------------------------------------------------

  /** The task that an effect leaves behind, if any, and the one new hold, are in order. */
  lemma FailKeepsTasks(c: Config, s: State, tid: nat)
    requires TasksOk(c, s) && tid in s.tasks
    ensures TasksOk(c, Fail(s, tid))
  {
    hide TaskOk, HoldOk;
  }

  lemma WriteKeepsTasks(c: Config, s: State, s': State, tid: nat)
    requires TasksOk(c, s) && Grows(s.db, s'.db)
    requires forall k | k in s'.tasks && k != tid :: k in s.tasks && s'.tasks[k] == s.tasks[k]
    requires tid in s'.tasks ==> TaskOk(c, s'.db, s'.tasks[tid])
    requires forall h | h in s'.db.holds && h !in s.db.holds :: HoldOk(s'.db, s'.db.holds[h])
    ensures TasksOk(c, s')
  {
    hide TaskOk, HoldOk, Grows;
    OthersStable(c, s, s'.db);
  }

  lemma CommitTaskOk(c: Config, db: Db, q: Db, t: Task)
    requires TaskOk(c, db, t) && t.pc.Reserved? && Grows(db, q)
    ensures TaskOk(c, q, t.(via := None, pc := Committed(t.pc.spec, t.pc.cost, |db.events|)))
  {
    TaskStable(c, db, q, t);
    hide HoldTriggered, SpecOk;
  }

  lemma ResubmitOk(c: Config, s: State, tid: nat, hold: Id, db: Db)
    requires TasksOk(c, s) && tid in s.tasks && s.tasks[tid].pc == Responding(hold, true)
    requires TxRespond(s.db, hold, true, s.tasks[tid].action.actor, s.now) == Ok(db)
    ensures hold in s.db.holds && TaskOk(c, db, Resubmit(s.tasks[tid], hold, s.db.holds[hold]))
  {
    hide AppendEvent;
    var t := s.tasks[tid];
    assert TaskOk(c, s.db, t);
    assert HoldOk(s.db, s.db.holds[hold]);
  }

  lemma TriggeredHoldOk(c: Config, s: State, tid: nat, hold: Id, id: Id, db: Db)
    requires TasksOk(c, s) && tid in s.tasks && EffectOk(c, s, TriggerHold(tid, hold, id))
    requires TxTrigger(s.db, hold, id, s.tasks[tid].action, s.now) == Ok(db)
    ensures forall h | h in db.holds && h !in s.db.holds :: HoldOk(db, db.holds[h])
  {
    hide AppendEvent, Database.Reserve, TaskOk;
  }

  /** Every effect leaves every task and every hold in order. */
  lemma ApplyKeepsTasks(c: Config, s: State, e: Effect)
    requires TasksOk(c, s) && Applicable(s, e) && EffectOk(c, s, e)
    ensures TasksOk(c, Apply(s, e))
  {
    hide Grows, TxTrigger, TxRespond, TxTimeout, TxFinalize, TxConsume, TxLifecycle, CreditAll, MintAll,
         TaskOk, HoldOk, SetEnvelopeStatus, TasksOk, EffectOk, QuoteCost, Database.Reserve;
    var s' := Apply(s, e);
    ApplyGrows(s, e);
    if ForTask(e) {
      var tid := e.tid;
      if s' == Fail(s, tid) {
        FailKeepsTasks(c, s, tid);
      } else {
        NewTaskOk(c, s, e);
        NewHoldOk(c, s, e);
        WriteKeepsTasks(c, s, s', tid);
      }
    } else {
      var tid := if e.Begin? then e.tid else 0;
      if e.Begin? && tid !in s.tasks {
        FreshTaskOk(c, s.db, e.action);
        WriteKeepsTasks(c, s, s', tid);
      } else {
        TablesOnly(c, s, s');
      }
    }
  }

  lemma FreshTaskOk(c: Config, db: Db, a: Action)
    ensures TaskOk(c, db, Task(a, None, 0, 0, Entered))
  {
  }

  lemma TablesOnly(c: Config, s: State, s': State)
    requires TasksOk(c, s) && Grows(s.db, s'.db) && s'.tasks == s.tasks && s'.db.holds == s.db.holds
    ensures TasksOk(c, s')
  {
    hide TaskOk, HoldOk, Grows;
    OthersStable(c, s, s'.db);
  }

  lemma NewHoldOk(c: Config, s: State, e: Effect)
    requires TasksOk(c, s) && Applicable(s, e) && EffectOk(c, s, e) && ForTask(e)
    ensures forall h | h in Apply(s, e).db.holds && h !in s.db.holds :: HoldOk(Apply(s, e).db, Apply(s, e).db.holds[h])
  {
    hide TaskOk, HoldOk, TxConsume, TxLifecycle, TxTrigger, TxFinalize, TxRespond, TxTimeout;
    if e.TriggerHold? && TxTrigger(s.db, e.hold, e.envelope, s.tasks[e.tid].action, s.now).Ok? {
      TriggeredHoldOk(c, s, e.tid, e.hold, e.envelope,
                      TxTrigger(s.db, e.hold, e.envelope, s.tasks[e.tid].action, s.now).value);
    }
  }

  lemma NewTaskOk(c: Config, s: State, e: Effect)
    requires TasksOk(c, s) && Applicable(s, e) && EffectOk(c, s, e) && ForTask(e)
    requires Grows(s.db, Apply(s, e).db)
    requires Apply(s, e) != Fail(s, e.tid)
    ensures e.tid in Apply(s, e).tasks ==> TaskOk(c, Apply(s, e).db, Apply(s, e).tasks[e.tid])
  {
    hide Grows, TaskOk, HoldOk, TxTrigger, TxRespond, TxTimeout, TxFinalize, TxConsume, TxLifecycle,
         SetEnvelopeStatus, Bounded;
    var t, db := s.tasks[e.tid], Apply(s, e).db;
    assert TaskOk(c, s.db, t);
    match e
    case Move(_, pc) => TaskStable(c, s.db, db, t.At(pc));
    case TimeOutHold(_, _, pc) => TaskStable(c, s.db, db, t.At(pc));
    case LapseEnvelope(_, _) =>
      TaskStable(c, s.db, db, t);
      LapsedOk(c, s.db, db, t);
    case AnswerHold(_, hold, approve) =>
      if approve {
        ResubmitOk(c, s, e.tid, hold, db);
      }
    case ReserveFor(_, checked, spec) =>
      TaskStable(c, s.db, db, t);
      ReservedOk(c, db, t);
    case Commit(_, _, _, _) => CommitTaskOk(c, s.db, db, t);
    case ConsumeBudget(_, spec, _) =>
      TaskStable(c, s.db, db, t);
      MeteredOk(c, db, t);
    case _ =>
  }

  lemma LapsedOk(c: Config, p: Db, q: Db, t: Task)
    requires Grows(p, q) && TaskOk(c, q, t) && t.pc.Entered?
    requires t.action.kind.StateChanging() && Bounded(c, p, t.action.actor, t.action.target, t.action.kind)
    ensures TaskOk(c, q, t.At(Lapsed))
  {
  }

  lemma ReservedOk(c: Config, db: Db, t: Task)
    requires TaskOk(c, db, t) && t.pc.Specced?
    ensures TaskOk(c, db, t.At(Reserved(t.pc.checked, t.pc.spec,
              if t.via.Some? then t.preReserved else QuoteCost(t.action))))
  {
    hide HoldTriggered, SpecOk;
  }

  lemma MeteredOk(c: Config, db: Db, t: Task)
    requires TaskOk(c, db, t) && t.pc.Metering?
    ensures TaskOk(c, db, t.At(Metered(t.pc.spec)))
  {
    hide SpecOk;
  }
}

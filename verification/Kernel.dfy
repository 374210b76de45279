/**
 * The kernel as a transition system. A task is a call of `submit_action`; its
 * steps are its reads and its SQL transactions, and the steps of any number of
 * tasks interleave with each other, with ticks, checkpoints and the clock.
 * A step first decides, from what it reads, on one effect, then applies it.
 */
module Kernel {
  import opened Basics
  import opened Merkle
  import opened AuditStore
  import opened Consent
  import opened Database
  import Tick

  /**
   * What a submission is about to consume of an envelope: the log index and the
   * cost of its event, the consumption that it read, and the checkpoint due then.
   */
  datatype Charge = Charge(envelope: Id, event: nat, seen: nat, amount: nat, level: CheckpointLevel)

  /** Where a task stands, with the locals that its next step uses. */
  datatype Pc =
    | Entered
    | Lapsed
    | Expiring(checked: Option<Id>, todo: seq<Id>, asOf: nat, timeoutSecs: int, thenFail: bool)
    | Cleared(checked: Option<Id>)
    | Responding(hold: Id, approve: bool)
    | Specced(checked: Option<Id>, spec: Spec)
    | Reserved(checked: Option<Id>, spec: Spec, cost: nat)
    | Committed(spec: Spec, cost: nat, event: nat)
    | Metering(spec: Spec, charge: Charge)
    | Metered(spec: Spec)

  /**
   * A submission in flight. `via` is the approved hold it re-executes, whose
   * reservation `preReserved` it carries until it commits; `depth` counts the
   * submissions it is nested in.
   */
  datatype Task = Task(action: Action, via: Option<Id>, preReserved: nat, depth: nat, pc: Pc)
  {
    /** The reserved energy that this task is answerable for. */
    function Claim(): (c: nat) {
      if via.Some? then preReserved else if pc.Reserved? then pc.cost else 0
    }

    function At(pc': Pc): (t: Task) {
      this.(pc := pc')
    }
  }

  datatype Receipt = Receipt(index: nat, hash: Hash)

  /** A charge that was made: what the row held then, and whether the budget took it or it was dropped. */
  datatype Consumption = Consumption(charge: Charge, before: nat, kept: bool)

  /**
   * The tables, the tasks and the clock, with four history variables: energy
   * stranded by failed tasks, energy minted per actor, receipts, and charges to envelopes.
   */
  datatype State = State(db: Db, tasks: map<nat, Task>, now: nat, stranded: map<Id, nat>, minted: map<Id, int>,
                         receipts: seq<Receipt>, meter: seq<Consumption>)

  const ROOT := "root"
  const ROOT_BALANCE := 1000000

  /** `seed_defaults`. */
  function Init(): (s: State) {
    var root := Actor(Human, None, [], Active, [WritableTarget("**", ["create", "mutate", "execute"])], 0.0);
    State(Db(map[ROOT := Account(ROOT_BALANCE, 0)], map[ROOT := root], map[], map[], [], map[], map[]),
          map[], 0, map[], map[ROOT := ROOT_BALANCE], [], [])
  }

  function StrandedBy(stranded: map<Id, nat>, actor: Id): (n: nat) {
    if actor in stranded then stranded[actor] else 0
  }

  /** A task ends with an error; what it had reserved stays reserved. */
  function Fail(s: State, tid: nat): (r: State)
    requires tid in s.tasks
  {
    var t := s.tasks[tid];
    s.(tasks := s.tasks - {tid},
       stranded := s.stranded[t.action.actor := StrandedBy(s.stranded, t.action.actor) + t.Claim()])
  }

  function Goto(s: State, tid: nat, pc: Pc): (r: State)
    requires tid in s.tasks
  {
    s.(tasks := s.tasks[tid := s.tasks[tid].At(pc)])
  }

  /** The task returns. */
  function Done(s: State, tid: nat): (r: State) {
    s.(tasks := s.tasks - {tid})
  }

  // ----- the producer ------------------------------------------------------------

  /** An answer of `list_active_with_shares`. */
  predicate IsShareList(actors: map<Id, Actor>, list: seq<Id>) {
    && (forall a | a in list ::
          a in actors && actors[a].status.Active? && actors[a].share > 0.0 && actors[a].kind.Agent?)
    && (forall a | a in actors && actors[a].status.Active? && actors[a].share > 0.0 && actors[a].kind.Agent? ::
          a in list)
    && (forall i, j | 0 <= i < j < |list| :: list[i] != list[j])
  }

  function Shares(actors: map<Id, Actor>, list: seq<Id>): (r: seq<real>)
    requires forall a | a in list :: a in actors
    ensures |r| == |list|
    ensures forall i | 0 <= i < |list| :: r[i] == actors[list[i]].share
  {
    seq(|list|, i requires 0 <= i < |list| => actors[list[i]].share)
  }

  /** The crediting loop of `produce_tick`; credits that are not positive are skipped. */
  function CreditAll(ledger: Ledger, list: seq<Id>, credits: seq<int>): (r: Result<Ledger>)
    requires |list| == |credits|
    decreases |list|
  {
    if list == [] then Ok(ledger)
    else
      var n := |list| - 1;
      var before :- CreditAll(ledger, list[..n], credits[..n]);
      if credits[n] <= 0 then Ok(before) else Credit(before, list[n], credits[n])
  }

  function MintAll(minted: map<Id, int>, list: seq<Id>, credits: seq<int>): (r: map<Id, int>)
    requires |list| == |credits|
    decreases |list|
  {
    if list == [] then minted
    else
      var n := |list| - 1;
      var before := MintAll(minted, list[..n], credits[..n]);
      if credits[n] <= 0 || list[n] !in before then before else before[list[n] := before[list[n]] + credits[n]]
  }

  // ----- effects -----------------------------------------------------------------

  /** What one step writes: nothing, a task's next point, or one SQL transaction. */
  datatype Effect =
    | Stay
    | Begin(tid: nat, action: Action)
    | FailTask(tid: nat)
    | Move(tid: nat, pc: Pc)
    | Finish(tid: nat)
    | LapseEnvelope(tid: nat, envelope: Id)
    | TimeOutHold(tid: nat, hold: Id, pc: Pc)
    | TriggerHold(tid: nat, hold: Id, envelope: Id)
    | AnswerHold(tid: nat, hold: Id, approve: bool)
    | ReserveFor(tid: nat, checked: Option<Id>, spec: Spec)
    | Commit(tid: nat, checked: Option<Id>, spec: Spec, cost: nat)
    | ConsumeBudget(tid: nat, spec: Spec, charge: Charge)
    | ManageActor(tid: nat, subject: Id, op: LifecycleOp)
    | CreditTick(list: seq<Id>, credits: seq<int>)
    | StoreCheckpoint(size: nat, root: Hash)
    | Elapse(millis: nat)

  /** The effects on behalf of a task. */
  predicate ForTask(e: Effect) {
    !e.Stay? && !e.Begin? && !e.CreditTick? && !e.StoreCheckpoint? && !e.Elapse?
  }

  /** The re-submission of an approved hold's pending action. */
  function Resubmit(t: Task, hold: Id, h: Hold): (r: Task) {
    Task(h.action, Some(hold), h.reserved, t.depth + 1, Entered)
  }

  function LastReceipt(db: Db): (r: Receipt)
    requires db.events != []
  {
    Receipt(|db.events| - 1, EventHash(db.events[|db.events| - 1], |db.events| - 1))
  }

  function ApplyTimeout(s: State, tid: nat, hold: Id, pc: Pc): (r: State)
    requires tid in s.tasks
  {
    match TxTimeout(s.db, hold, s.now)
    case Err(_) => Fail(s, tid)
    case Ok(db) => Goto(s.(db := db), tid, pc)
  }

  function ApplyTrigger(s: State, tid: nat, hold: Id, envelope: Id): (r: State)
    requires tid in s.tasks
  {
    match TxTrigger(s.db, hold, envelope, s.tasks[tid].action, s.now)
    case Err(_) => Fail(s, tid)
    case Ok(db) => Done(s.(db := db), tid)
  }

  /** On approve the same call goes on as the re-submission; on reject it returns a receipt. */
  function ApplyAnswer(s: State, tid: nat, hold: Id, approve: bool): (r: State)
    requires tid in s.tasks
  {
    var t := s.tasks[tid];
    match TxRespond(s.db, hold, approve, t.action.actor, s.now)
    case Err(_) => Fail(s, tid)
    case Ok(db) =>
      if approve then s.(db := db, tasks := s.tasks[tid := Resubmit(t, hold, s.db.holds[hold])])
      else Done(s.(db := db, receipts := s.receipts + [LastReceipt(db)]), tid)
  }

  /** A re-submission already holds its reservation and does not reserve again. */
  function ApplyReserve(s: State, tid: nat, checked: Option<Id>, spec: Spec): (r: State)
    requires tid in s.tasks
  {
    var t := s.tasks[tid];
    if t.via.Some? then Goto(s, tid, Reserved(checked, spec, t.preReserved))
    else
      var cost := QuoteCost(t.action);
      match Reserve(s.db.ledger, t.action.actor, cost)
      case Err(_) => Fail(s, tid)
      case Ok(ledger) => Goto(s.(db := s.db.(ledger := ledger)), tid, Reserved(checked, spec, cost))
  }

  function ApplyCommit(s: State, tid: nat, checked: Option<Id>, spec: Spec, cost: nat): (r: State)
    requires tid in s.tasks
  {
    var t := s.tasks[tid];
    match TxFinalize(s.db, t.action, cost, spec, checked, t.via, s.now)
    case Err(_) => Fail(s, tid)
    case Ok(db) =>
      s.(db := db, tasks := s.tasks[tid := t.(via := None, pc := Committed(spec, cost, |s.db.events|))],
         minted := if spec.NewActor? then s.minted[spec.request.id := spec.request.balance] else s.minted,
         receipts := s.receipts + [LastReceipt(db)])
  }

  function ConsumedOf(envelopes: map<Id, Envelope>, id: Id): (n: nat) {
    if id in envelopes then envelopes[id].consumed else 0
  }

  /** A consumption that would overshoot is rolled back and dropped; the event stays committed. */
  function ApplyConsume(s: State, tid: nat, spec: Spec, charge: Charge): (r: State)
    requires tid in s.tasks
  {
    var before := ConsumedOf(s.db.envelopes, charge.envelope);
    match TxConsume(s.db, charge.envelope, charge.amount, charge.level)
    case Err(_) => Goto(s.(meter := s.meter + [Consumption(charge, before, false)]), tid, Metered(spec))
    case Ok(db) => Goto(s.(db := db, meter := s.meter + [Consumption(charge, before, true)]), tid, Metered(spec))
  }

  function ApplyTick(s: State, list: seq<Id>, credits: seq<int>): (r: State)
    requires |list| == |credits|
  {
    match CreditAll(s.db.ledger, list, credits)
    case Err(_) => s
    case Ok(ledger) => s.(db := s.db.(ledger := ledger), minted := MintAll(s.minted, list, credits))
  }

  predicate Applicable(s: State, e: Effect) {
    && (ForTask(e) ==> e.tid in s.tasks)
    && (e.LapseEnvelope? ==> e.envelope in s.db.envelopes)
    && (e.CreditTick? ==> |e.list| == |e.credits|)
  }

  function Apply(s: State, e: Effect): (r: State)
    requires Applicable(s, e)
  {
    match e
    case Stay => s
    case Begin(tid, a) => if tid in s.tasks then s else s.(tasks := s.tasks[tid := Task(a, None, 0, 0, Entered)])
    case FailTask(tid) => Fail(s, tid)
    case Move(tid, pc) => Goto(s, tid, pc)
    case Finish(tid) => Done(s, tid)
    case LapseEnvelope(tid, id) => Goto(s.(db := SetEnvelopeStatus(s.db, id, EnvExpired)), tid, Lapsed)
    case TimeOutHold(tid, hold, pc) => ApplyTimeout(s, tid, hold, pc)
    case TriggerHold(tid, hold, id) => ApplyTrigger(s, tid, hold, id)
    case AnswerHold(tid, hold, approve) => ApplyAnswer(s, tid, hold, approve)
    case ReserveFor(tid, checked, spec) => ApplyReserve(s, tid, checked, spec)
    case Commit(tid, checked, spec, cost) => ApplyCommit(s, tid, checked, spec, cost)
    case ConsumeBudget(tid, spec, charge) => ApplyConsume(s, tid, spec, charge)
    case ManageActor(tid, subject, op) => Done(s.(db := TxLifecycle(s.db, subject, op)), tid)
    case CreditTick(list, credits) => ApplyTick(s, list, credits)
    case StoreCheckpoint(n, root) => s.(db := s.db.(checkpoints := s.db.checkpoints[n := root]))
    case Elapse(ms) => s.(now := s.now + ms)
  }

  // ----- decisions ---------------------------------------------------------------

  /** Validation, boundary, lineage and authorization; `envelope` and `pending` are query answers. */
  function DecideAuthorize(c: Config, s: State, tid: nat, envelope: Option<Id>, pending: seq<Id>): (e: Effect)
    requires tid in s.tasks
    ensures Applicable(s, e)
  {
    var t := s.tasks[tid];
    var a := t.action;
    if t.pc.Lapsed? then
      if a.actor !in s.db.actors then FailTask(tid) else DecideMode(c, s, tid, None, [])
    else if !t.pc.Entered? then Stay
    else if !ValidAction(a) || a.actor !in s.db.actors then FailTask(tid)
    else
      var actor := s.db.actors[a.actor];
      if actor.status.Frozen? && a.kind.StateChanging() then FailTask(tid)
      else if !WithinBoundary(c, actor, a.target, a.kind) then FailTask(tid)
      else if !a.kind.StateChanging() then Move(tid, Cleared(None))
      else if actor.kind.Agent? && !LineageActive(s.db.actors, actor.lineage) then FailTask(tid)
      else if !IsActiveEnvelope(s.db, a.actor, envelope) then Stay
      else if envelope.Some? && IsExpired(s.db.envelopes[envelope.value], s.now) then LapseEnvelope(tid, envelope.value)
      else DecideMode(c, s, tid, envelope, pending)
  }

  /** Authorization with the envelope that was read; `pending` lists the holds that may time out. */
  function DecideMode(c: Config, s: State, tid: nat, envelope: Option<Id>, pending: seq<Id>): (e: Effect)
    requires tid in s.tasks && s.tasks[tid].action.actor in s.db.actors
    requires envelope.Some? ==> envelope.value in s.db.envelopes
    ensures Applicable(s, e)
  {
    var a := s.tasks[tid].action;
    var row := if envelope.Some? then Some(s.db.envelopes[envelope.value]) else None;
    match CheckAuthorization(s.db.actors[a.actor], row)
    case Err(_) => FailTask(tid)
    case Ok(ManInTheLoop) => Move(tid, Cleared(None))
    case Ok(ManOnTheLoop) =>
      if !EnvelopeCovers(c, row.value, a.target, a.kind) then FailTask(tid)
      else if row.value.holdOn == [] || row.value.holdTimeoutSecs.None? || row.value.holdTimeoutSecs.value <= 0 then
        Move(tid, Cleared(envelope))
      else if !IsPendingList(s.db.holds, envelope.value, pending) then Stay
      else Move(tid, Expiring(envelope, pending, s.now, row.value.holdTimeoutSecs.value, false))
  }

  /** One iteration of the loop of `expire_timed_out_holds`, or its end. */
  function DecideExpire(s: State, tid: nat): (e: Effect)
    requires tid in s.tasks
    ensures Applicable(s, e)
  {
    var pc := s.tasks[tid].pc;
    if !pc.Expiring? then Stay
    else if pc.todo == [] then
      if pc.thenFail then FailTask(tid) else Move(tid, Cleared(pc.checked))
    else
      var h, rest := pc.todo[0], pc.(todo := pc.todo[1..]);
      if h in s.db.holds && !HasTimedOut(s.db.holds[h], pc.timeoutSecs, pc.asOf) then Move(tid, rest)
      else TimeOutHold(tid, h, rest)
  }

  /** Whether the task's action must be held: the rules match and no human approved it. */
  predicate MustHold(c: Config, db: Db, t: Task, checked: Option<Id>) {
    && checked.Some? && checked.value in db.envelopes && t.via.None?
    && HoldTriggered(c, db.envelopes[checked.value].holdOn, t.action.target, t.action.kind)
  }

  function DecideTrigger(c: Config, s: State, tid: nat, hold: Id): (e: Effect)
    requires tid in s.tasks
    ensures Applicable(s, e)
  {
    var t := s.tasks[tid];
    if t.pc.Cleared? && MustHold(c, s.db, t, t.pc.checked) then TriggerHold(tid, hold, t.pc.checked.value) else Stay
  }

  /** The reads of `execute_hold_response` before its transaction. */
  function DecideReadHold(c: Config, s: State, tid: nat, pending: seq<Id>): (e: Effect)
    requires tid in s.tasks
    ensures Applicable(s, e)
  {
    var t := s.tasks[tid];
    if !t.pc.Cleared? || MustHold(c, s.db, t, t.pc.checked) || ParseHoldResponse(t.action).None? then Stay
    else
      var (hold, approve) := ParseHoldResponse(t.action).value;
      if t.action.actor !in s.db.actors || !s.db.actors[t.action.actor].kind.Human? then FailTask(tid)
      else if hold !in s.db.holds || !s.db.holds[hold].status.Pending? then FailTask(tid)
      else
        var h := s.db.holds[hold];
        var timeout := if h.envelope in s.db.envelopes then s.db.envelopes[h.envelope].holdTimeoutSecs else None;
        if timeout.None? || timeout.value <= 0 || !HasTimedOut(h, timeout.value, s.now) then
          Move(tid, Responding(hold, approve))
        else if !IsPendingList(s.db.holds, h.envelope, pending) then Stay
        else Move(tid, Expiring(None, pending, s.now, timeout.value, true))
  }

  function DecideRespond(s: State, tid: nat): (e: Effect)
    requires tid in s.tasks
    ensures Applicable(s, e)
  {
    var pc := s.tasks[tid].pc;
    if pc.Responding? then AnswerHold(tid, pc.hold, pc.approve) else Stay
  }

  /** Lifecycle authorization and the creation specs; `newId` is a fresh envelope id. */
  function DecideParse(c: Config, s: State, tid: nat, newId: Id, grant: Option<Id>): (e: Effect)
    requires tid in s.tasks
    ensures Applicable(s, e)
  {
    var t := s.tasks[tid];
    if !t.pc.Cleared? || MustHold(c, s.db, t, t.pc.checked) || ParseHoldResponse(t.action).Some? then Stay
    else if !IsActiveEnvelope(s.db, t.action.actor, grant) then Stay
    else
      match ParseSpec(c, s.db, t.action, newId, grant)
      case Err(_) => FailTask(tid)
      case Ok(spec) => Move(tid, Specced(t.pc.checked, spec))
  }

  /** `parse_create_actor_spec`, `parse_create_envelope_spec` and the lifecycle check. */
  function ParseSpec(c: Config, db: Db, a: Action, newId: Id, grant: Option<Id>): (r: Result<Spec>)
    requires grant.Some? ==> grant.value in db.envelopes
  {
    if a.actor !in db.actors then Err("actor not found")
    else if ParseLifecycleOp(a).Some? then
      var (subject, op) := ParseLifecycleOp(a).value;
      if subject !in db.actors then Err("actor not found")
      else if !MayManage(a.actor, db.actors[a.actor], db.actors[subject]) then Err("not in lineage")
      else Ok(Lifecycle(subject, op))
    else if a.kind.Create? && a.target == "ledger/actor" then
      if a.payload.actor.None? then Err("invalid actor payload")
      else
        var q := a.payload.actor.value;
        if db.actors[a.actor].kind.Agent? && q.kind.Agent? then Err("agents cannot create agents")
        else if !ChildTargetsCovered(c, db.actors[a.actor], q.writable) then Err("exceeds parent boundary")
        else Ok(NewActor(q))
    else if a.kind.Create? && a.target == "ledger/envelope" then
      if a.payload.envelope.None? then Err("invalid envelope payload")
      else
        var q := a.payload.envelope.value;
        if q.budget <= 0 then Err("envelope budget must be positive")
        else if grant.Some? && !EnvelopeReduced(c, db.envelopes[grant.value], q) then Err("exceeds parent envelope")
        else Ok(NewEnvelope(newId, q, grant))
    else Ok(NoSpec)
  }

  function DecideReserve(s: State, tid: nat): (e: Effect)
    requires tid in s.tasks
    ensures Applicable(s, e)
  {
    var pc := s.tasks[tid].pc;
    if pc.Specced? then ReserveFor(tid, pc.checked, pc.spec) else Stay
  }

  /** The execute payload is validated after the reserve, so its failure strands the reservation. */
  function DecideFinalize(s: State, tid: nat): (e: Effect)
    requires tid in s.tasks
    ensures Applicable(s, e)
  {
    var t := s.tasks[tid];
    if !t.pc.Reserved? then Stay
    else if t.action.kind.Execute? && !t.action.payload.executeOk then FailTask(tid)
    else Commit(tid, t.pc.checked, t.pc.spec, t.pc.cost)
  }

  /** The charge to an envelope whose row was read as `e`. */
  function ChargeFor(e: Envelope, id: Id, event: nat, cost: nat): (charge: Charge) {
    Charge(id, event, e.consumed, cost, CheckCheckpoint(e.budget, e.reportEvery, e.consumed, cost))
  }

  /** The reads before the budget transaction; the checkpoint is computed from them. */
  function DecideReadBudget(s: State, tid: nat, envelope: Option<Id>): (e: Effect)
    requires tid in s.tasks
    ensures Applicable(s, e)
  {
    var t := s.tasks[tid];
    var a := t.action;
    if !t.pc.Committed? then Stay
    else if !a.kind.StateChanging() || t.pc.cost == 0
            || a.actor !in s.db.actors || !s.db.actors[a.actor].kind.Agent? then
      Move(tid, Metered(t.pc.spec))
    else if !IsActiveEnvelope(s.db, a.actor, envelope) then Stay
    else if envelope.None? then Move(tid, Metered(t.pc.spec))
    else
      var e := s.db.envelopes[envelope.value];
      Move(tid, Metering(t.pc.spec, ChargeFor(e, envelope.value, t.pc.event, t.pc.cost)))
  }

  function DecideConsume(s: State, tid: nat): (e: Effect)
    requires tid in s.tasks
    ensures Applicable(s, e)
  {
    var pc := s.tasks[tid].pc;
    if pc.Metering? then ConsumeBudget(tid, pc.spec, pc.charge) else Stay
  }

  function DecideManage(s: State, tid: nat): (e: Effect)
    requires tid in s.tasks
    ensures Applicable(s, e)
  {
    var pc := s.tasks[tid].pc;
    if !pc.Metered? then Stay
    else if pc.spec.Lifecycle? then ManageActor(tid, pc.spec.subject, pc.spec.op)
    else Finish(tid)
  }

  // ----- the producer and checkpoints -----------------------------------------------

  function DecideTick(c: Config, s: State, list: seq<Id>): (e: Effect)
    ensures Applicable(s, e)
  {
    if list == [] || !IsShareList(s.db.actors, list) then Stay
    else
      var shares := Shares(s.db.actors, list);
      if Tick.SumShares(shares) <= 0.0 then Stay
      else CreditTick(list, Tick.Allocations(c.energyPerTick, shares))
  }

  /** `make_checkpoint` for an event count that was read at or before this step. */
  function DecideCheckpoint(s: State, n: nat): (e: Effect)
    ensures Applicable(s, e)
  {
    if n == 0 then Stay
    else
      match TreeHash(s.db.rows, 0, n)
      case Err(_) => Stay
      case Ok(root) => StoreCheckpoint(n, root)
  }

  // ----- steps and runs --------------------------------------------------------------

  datatype Label =
    | Submit(tid: nat, action: Action)
    | Abort(tid: nat)
    | Authorize(tid: nat, envelope: Option<Id>, pending: seq<Id>)
    | Expire(tid: nat)
    | Trigger(tid: nat, hold: Id)
    | ReadHold(tid: nat, pending: seq<Id>)
    | Respond(tid: nat)
    | Parse(tid: nat, newId: Id, grant: Option<Id>)
    | ReserveEnergy(tid: nat)
    | Finalize(tid: nat)
    | ReadBudget(tid: nat, envelope: Option<Id>)
    | Consume(tid: nat)
    | Manage(tid: nat)
    | ProduceTick(list: seq<Id>)
    | Checkpoint(size: nat)
    | Advance(millis: nat)

  predicate OfTask(l: Label) {
    !l.Submit? && !l.ProduceTick? && !l.Checkpoint? && !l.Advance?
  }

  function Decide(c: Config, s: State, l: Label): (e: Effect)
    ensures Applicable(s, e)
  {
    match l
    case Submit(tid, a) => Begin(tid, a)
    case ProduceTick(list) => DecideTick(c, s, list)
    case Checkpoint(n) => DecideCheckpoint(s, n)
    case Advance(ms) => Elapse(ms)
    case _ => if l.tid !in s.tasks then Stay else DecideTask(c, s, l)
  }

  /** Any error of a task, including a crash, is an `Abort`. */
  function DecideTask(c: Config, s: State, l: Label): (e: Effect)
    requires OfTask(l) && l.tid in s.tasks
    ensures Applicable(s, e)
  {
    match l
    case Abort(tid) => FailTask(tid)
    case Authorize(tid, envelope, pending) => DecideAuthorize(c, s, tid, envelope, pending)
    case Expire(tid) => DecideExpire(s, tid)
    case Trigger(tid, hold) => DecideTrigger(c, s, tid, hold)
    case ReadHold(tid, pending) => DecideReadHold(c, s, tid, pending)
    case Respond(tid) => DecideRespond(s, tid)
    case Parse(tid, newId, grant) => DecideParse(c, s, tid, newId, grant)
    case ReserveEnergy(tid) => DecideReserve(s, tid)
    case Finalize(tid) => DecideFinalize(s, tid)
    case ReadBudget(tid, envelope) => DecideReadBudget(s, tid, envelope)
    case Consume(tid) => DecideConsume(s, tid)
    case Manage(tid) => DecideManage(s, tid)
  }

  function Step(c: Config, s: State, l: Label): (r: State) {
    Apply(s, Decide(c, s, l))
  }

  /** The state after a schedule of steps. */
  function Run(c: Config, s: State, schedule: seq<Label>): (r: State)
    decreases |schedule|
  {
    if schedule == [] then s
    else Step(c, Run(c, s, schedule[..|schedule| - 1]), schedule[|schedule| - 1])
  }
}

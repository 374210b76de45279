/**
 * The kernel's tables and its SQL transactions. A transaction is a function
 * from tables to tables; a failing one leaves no new tables, which is how
 * rollback shows.
 */
module Database {
  import opened Basics
  import opened Merkle
  import opened AuditStore
  import opened Consent
  import Sql

  datatype Account = Account(balance: int, reserved: int)

  type Ledger = map<Id, Account>

  datatype HoldStatus = Pending | Approved | Rejected | TimedOut

  /** A hold request; `action` is the pending action, `reserved` its quote at trigger time. */
  datatype Hold = Hold(envelope: Id, agent: Id, action: Action, reserved: nat,
                       status: HoldStatus, triggeredAt: nat)

  /**
   * What an event records beyond its actor and energy. For an action, `checked`
   * is the envelope it was checked against and `via` the hold whose approval
   * marked its payload.
   */
  datatype Body =
    | Acted(kind: ActionType, checked: Option<Id>, via: Option<Id>)
    | HoldRequested(hold: Id, pending: ActionType, pendingTarget: string)
    | HoldResponded(hold: Id, agent: Id, approved: bool)
    | HoldTimedOut(hold: Id)
  {
    function Name(): (s: string) {
      match this
      case Acted(kind, _, _) => kind.Name()
      case HoldRequested(_, _, _) => "hold_request"
      case HoldResponded(_, _, _) => "hold_response"
      case HoldTimedOut(_) => "hold_timeout"
    }
  }

  datatype Event = Event(actor: Id, target: string, reserved: int, settled: int, time: nat, body: Body)

  datatype Db = Db(ledger: Ledger, actors: map<Id, Actor>, envelopes: map<Id, Envelope>, holds: map<Id, Hold>,
                   events: seq<Event>, rows: Rows, checkpoints: map<nat, Hash>)

  // ----- energy ledger ------------------------------------------------------

  /** `reserve` and `reserve_in_tx`. */
  function Reserve(ledger: Ledger, actor: Id, cost: int): (r: Result<Ledger>) {
    if cost <= 0 then Err("reserve cost must be positive")
    else if actor !in ledger then Err("actor not found")
    else
      var row := ledger[actor];
      if row.balance - row.reserved < cost then Err("insufficient energy")
      else Ok(ledger[actor := row.(reserved := row.reserved + cost)])
  }

  /** `settle_in_tx`: releases a reservation and charges what was used of it. */
  function Settle(ledger: Ledger, actor: Id, reservedCost: int, actualCost: int): (r: Result<Ledger>) {
    if reservedCost < 0 || actualCost < 0 then Err("settle values cannot be negative")
    else if actor !in ledger then Err("actor not found")
    else
      var row := ledger[actor];
      var extra := if actualCost > reservedCost then actualCost - reservedCost else 0;
      if row.reserved < reservedCost then Err("reserved mismatch")
      else if row.balance - row.reserved < extra then Err("insufficient energy")
      else if row.balance - actualCost < 0 then Err("insufficient energy")
      else Ok(ledger[actor := Account(row.balance - actualCost, row.reserved - reservedCost)])
  }

  /** `credit_energy_in_tx`. */
  function Credit(ledger: Ledger, actor: Id, amount: int): (r: Result<Ledger>) {
    if amount <= 0 then Err("credit amount must be positive")
    else if actor !in ledger then Err("actor not found")
    else Ok(ledger[actor := ledger[actor].(balance := ledger[actor].balance + amount)])
  }

  /** `create_actor_in_tx` of the ledger. */
  function CreateAccount(ledger: Ledger, actor: Id, balance: int): (r: Result<Ledger>) {
    if Blank(actor) then Err("actor_id cannot be empty")
    else if balance < 0 then Err("energy_balance cannot be negative")
    else if actor in ledger then Err("actor already exists")
    else Ok(ledger[actor := Account(balance, 0)])
  }

  // ----- event log and audit trail -------------------------------------------

  function EventHash(e: Event, index: nat): (h: Hash)
    ensures h.LeafHash? && h.event.index == index
  {
    LeafHash(Canonical(e.body.Name(), e.actor, index, e.reserved, e.settled, e.time))
  }

  function EventHashes(events: seq<Event>): (d: seq<Hash>)
    ensures |d| == |events|
    ensures forall i | 0 <= i < |events| :: d[i] == EventHash(events[i], i)
  {
    if events == [] then []
    else EventHashes(events[..|events| - 1]) + [EventHash(events[|events| - 1], |events| - 1)]
  }

  /** `append_in_tx` then `append_leaf_in_tx`. */
  function AppendEvent(db: Db, e: Event): (r: Result<Db>)
    ensures r.Ok? ==> r.value == db.(events := db.events + [e], rows := r.value.rows)
  {
    var rows :- AppendLeaf(db.rows, |db.events|, EventHash(e, |db.events|));
    Ok(db.(events := db.events + [e], rows := rows))
  }

  // ----- hold transactions -----------------------------------------------------

  /** Hold trigger: reserve, write the hold_request event and the hold row. */
  function TxTrigger(db: Db, hold: Id, envelope: Id, a: Action, now: nat): (r: Result<Db>)
    ensures r.Ok? ==>
              r.value.actors == db.actors && r.value.envelopes == db.envelopes && r.value.checkpoints == db.checkpoints
    ensures r.Ok? ==> hold !in db.holds && r.value.holds.Keys == db.holds.Keys + {hold}
  {
    var cost := QuoteCost(a);
    var ledger :- Reserve(db.ledger, a.actor, cost);
    var db1 :- AppendEvent(db.(ledger := ledger),
                           Event(a.actor, HOLD_PREFIX + hold, cost, 0, now, HoldRequested(hold, a.kind, a.target)));
    if hold in db.holds then Err("duplicate hold_id")
    else Ok(db1.(holds := db.holds[hold := Hold(envelope, a.actor, a, cost, Pending, now)]))
  }

  /** `resolve_hold_request_in_tx`. */
  function ResolveHold(holds: map<Id, Hold>, hold: Id, status: HoldStatus): (r: Result<map<Id, Hold>>) {
    if hold !in holds || !holds[hold].status.Pending? then Err("hold_request not found or already resolved")
    else Ok(holds[hold := holds[hold].(status := status)])
  }

  /** A human's answer: resolve the hold, settle the commitment on reject, write the event. */
  function TxRespond(db: Db, hold: Id, approve: bool, human: Id, now: nat): (r: Result<Db>)
    ensures r.Ok? ==>
              r.value.actors == db.actors && r.value.envelopes == db.envelopes && r.value.checkpoints == db.checkpoints
    ensures r.Ok? ==> hold in db.holds && db.holds[hold].status.Pending? && r.value.holds.Keys == db.holds.Keys
  {
    var holds :- ResolveHold(db.holds, hold, if approve then Approved else Rejected);
    var row := db.holds[hold];
    var cost := if approve || row.reserved == 0 then 0 else CommitmentCost(row.reserved);
    var ledger :- if approve || row.reserved == 0 then Ok(db.ledger)
                  else Settle(db.ledger, row.agent, row.reserved, cost);
    AppendEvent(db.(holds := holds, ledger := ledger),
                Event(human, HOLD_PREFIX + hold, row.reserved, cost, now, HoldResponded(hold, row.agent, approve)))
  }

  /** One iteration of `expire_timed_out_holds` on a hold that timed out. */
  function TxTimeout(db: Db, hold: Id, now: nat): (r: Result<Db>)
    ensures r.Ok? ==>
              r.value.actors == db.actors && r.value.envelopes == db.envelopes && r.value.checkpoints == db.checkpoints
    ensures r.Ok? ==> hold in db.holds && db.holds[hold].status.Pending? && r.value.holds.Keys == db.holds.Keys
  {
    var holds :- ResolveHold(db.holds, hold, TimedOut);
    var row := db.holds[hold];
    var cost := CommitmentCost(row.reserved);
    var ledger :- if row.reserved == 0 then Ok(db.ledger) else Settle(db.ledger, row.agent, row.reserved, cost);
    AppendEvent(db.(holds := holds, ledger := ledger),
                Event(row.agent, HOLD_PREFIX + hold, row.reserved, cost, now, HoldTimedOut(hold)))
  }

  predicate HasTimedOut(h: Hold, timeoutSecs: int, now: nat) {
    now - h.triggeredAt > timeoutSecs * 1000
  }

  // ----- the commit transaction ----------------------------------------------

  /** What a submission does besides writing its event. */
  datatype Spec =
    | NoSpec
    | NewActor(request: ActorRequest)
    | NewEnvelope(id: Id, terms: EnvelopeRequest, parent: Option<Id>)
    | Lifecycle(subject: Id, op: LifecycleOp)

  /** `build_lineage`. */
  function BuildLineage(creator: Id): (l: seq<Id>) {
    [creator]
  }

  function NewActorRow(creator: Id, q: ActorRequest): (a: Actor) {
    Actor(q.kind, Some(creator), BuildLineage(creator), Active, q.writable, q.share)
  }

  function NewEnvelopeRow(grantor: Id, q: EnvelopeRequest, parent: Option<Id>, now: nat, born: nat): (e: Envelope) {
    Envelope(q.actor, grantor, parent, q.budget, 0, q.targets, q.actions, q.reportEvery, q.holdOn, q.holdTimeoutSecs,
             EnvActive, now, if q.durationSecs.Some? then Some(now + q.durationSecs.value * 1000) else None, born)
  }

  /** The actor and envelope rows that a commit adds. */
  function ApplySpec(db: Db, a: Action, spec: Spec, now: nat): (r: Result<Db>)
    ensures r.Ok? ==> r.value == db.(ledger := r.value.ledger, actors := r.value.actors, envelopes := r.value.envelopes)
  {
    match spec
    case NewActor(q) =>
      var ledger :- CreateAccount(db.ledger, q.id, q.balance);
      if q.id in db.actors then Err("actor already exists")
      else Ok(db.(ledger := ledger, actors := db.actors[q.id := NewActorRow(a.actor, q)]))
    case NewEnvelope(id, q, parent) =>
      if id in db.envelopes then Err("duplicate envelope_id")
      else Ok(db.(envelopes := db.envelopes[id := NewEnvelopeRow(a.actor, q, parent, now, |db.events|)]))
    case _ => Ok(db)
  }

  /** `finalize_energy_and_event`. */
  function TxFinalize(db: Db, a: Action, cost: nat, spec: Spec, checked: Option<Id>, via: Option<Id>,
                      now: nat): (r: Result<Db>)
    ensures r.Ok? ==> r.value.holds == db.holds && r.value.checkpoints == db.checkpoints
    ensures r.Ok? ==> |r.value.events| == |db.events| + 1
  {
    var ledger :- if cost == 0 then Ok(db.ledger) else Settle(db.ledger, a.actor, cost, cost);
    var db1 :- ApplySpec(db.(ledger := ledger), a, spec, now);
    AppendEvent(db1, Event(a.actor, a.target, cost, cost, now, Acted(a.kind, checked, via)))
  }

  // ----- envelopes and lifecycle -----------------------------------------------

  function SetEnvelopeStatus(db: Db, id: Id, status: EnvelopeStatus): (r: Db)
    requires id in db.envelopes
  {
    db.(envelopes := db.envelopes[id := db.envelopes[id].(status := status)])
  }

  /** `consume_budget_in_tx`, then the status change of a Halt checkpoint. */
  function TxConsume(db: Db, id: Id, amount: nat, level: CheckpointLevel): (r: Result<Db>)
    ensures r.Ok? ==> r.value == db.(envelopes := r.value.envelopes)
  {
    if id !in db.envelopes then Err("envelope not found")
    else
      var e := db.envelopes[id];
      if e.consumed + amount > e.budget then Err("budget exceeded")
      else
        var e' := e.(consumed := e.consumed + amount, status := if level.Halt? then EnvExpired else e.status);
        Ok(db.(envelopes := db.envelopes[id := e']))
  }

  /** An answer of `get_active_for_actor`: a latest active envelope of the actor. */
  predicate IsActiveEnvelope(db: Db, actor: Id, answer: Option<Id>) {
    match answer
    case None => forall id | id in db.envelopes ::
          !(db.envelopes[id].actor == actor && db.envelopes[id].status.EnvActive?)
    case Some(e) =>
      && e in db.envelopes && db.envelopes[e].actor == actor && db.envelopes[e].status.EnvActive?
      && forall id | id in db.envelopes && db.envelopes[id].actor == actor && db.envelopes[id].status.EnvActive? ::
           db.envelopes[id].createdAt <= db.envelopes[e].createdAt
  }

  /** An answer of `list_pending_holds_for_envelope`. */
  predicate IsPendingList(holds: map<Id, Hold>, envelope: Id, list: seq<Id>) {
    && (forall h | h in list :: h in holds && holds[h].envelope == envelope && holds[h].status.Pending?)
    && (forall h | h in holds && holds[h].envelope == envelope && holds[h].status.Pending? :: h in list)
    && (forall i, j | 0 <= i < j < |list| :: list[i] != list[j])
  }

  /** `list_descendants`: the active actors whose lineage column is LIKE the ancestor's pattern. */
  predicate ActiveDescendant(actors: map<Id, Actor>, ancestor: Id, id: Id) {
    id in actors && Sql.Names(ancestor, actors[id].lineage) && actors[id].status.Active?
  }

  /** `execute_freeze`: the target, then its active descendants. */
  function FreezeCascade(actors: map<Id, Actor>, target: Id): (r: map<Id, Actor>) {
    map id | id in actors ::
      if id == target || ActiveDescendant(actors, target, id) then actors[id].(status := Frozen) else actors[id]
  }

  /** The lifecycle transaction after the commit; its failures are only logged. */
  function TxLifecycle(db: Db, subject: Id, op: LifecycleOp): (r: Db)
    ensures r == db.(actors := r.actors)
  {
    if subject !in db.actors then db
    else
      match op
      case Freeze => db.(actors := FreezeCascade(db.actors, subject))
      case Terminate => db.(actors := FreezeCascade(db.actors, subject))
      case Unfreeze => db.(actors := db.actors[subject := db.actors[subject].(status := Active)])
      case UpdateEnergyShare(share) =>
        if share < 0.0 then db else db.(actors := db.actors[subject := db.actors[subject].(share := share)])
  }

  /** `check_lineage_active`. */
  predicate LineageActive(actors: map<Id, Actor>, lineage: seq<Id>) {
    forall x | x in lineage :: x in actors && actors[x].status.Active?
  }

  /** `validate_lifecycle_authorization`. */
  predicate MayManage(initiatorId: Id, initiator: Actor, target: Actor) {
    target.kind.Agent? && initiator.kind.Human? && initiatorId in target.lineage
  }
}

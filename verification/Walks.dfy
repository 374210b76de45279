/** The steps of one submission, one by one and as a whole, in any state of the other tasks. */
module Walks {
  import opened Basics
  import opened Consent
  import opened Database
  import opened Kernel
  import opened Tasks
  import opened Theorems
  import opened Stranding
  import opened Effects

  /** The state with this task in it. */
  function With(s: State, tid: nat, t: Task): (r: State) {
    s.(tasks := s.tasks[tid := t])
  }

  lemma RunSnoc(c: Config, s: State, first: seq<Label>, l: Label)
    ensures Run(c, s, first + [l]) == Step(c, Run(c, s, first), l)
  {
    hide Step;
    assert (first + [l])[..|first|] == first;
  }

  lemma Enters(c: Config, s: State, tid: nat, a: Action)
    requires tid !in s.tasks
    ensures Step(c, s, Submit(tid, a)) == With(s, tid, Task(a, None, 0, 0, Entered))
  {
  }

  /** A human needs no envelope. */
  lemma HumanClears(c: Config, s: State, tid: nat, t: Task)
    requires t.pc.Entered? && Admitted(c, s.db, t.action) && t.action.kind.StateChanging()
    requires Is(s.db, t.action.actor, Human) && IsActiveEnvelope(s.db, t.action.actor, None)
    ensures Step(c, With(s, tid, t), Authorize(tid, None, [])) == With(s, tid, t.At(Cleared(None)))
  {
    hide WithinBoundary, ValidAction, LineageActive;
    AuthorizeCases(c, With(s, tid, t), tid);
  }

  /** An agent is checked against its envelope, which here has no hold to expire. */
  lemma AgentClears(c: Config, s: State, tid: nat, t: Task, envelope: Id)
    requires t.pc.Entered? && Admitted(c, s.db, t.action) && t.action.kind.StateChanging()
    requires Is(s.db, t.action.actor, Agent) && IsActiveEnvelope(s.db, t.action.actor, Some(envelope))
    requires !IsExpired(s.db.envelopes[envelope], s.now) && s.db.envelopes[envelope].holdTimeoutSecs.None?
    requires EnvelopeCovers(c, s.db.envelopes[envelope], t.action.target, t.action.kind)
    ensures Step(c, With(s, tid, t), Authorize(tid, Some(envelope), [])) == With(s, tid, t.At(Cleared(Some(envelope))))
  {
    hide WithinBoundary, ValidAction, LineageActive, EnvelopeCovers, IsExpired;
    AuthorizeCases(c, With(s, tid, t), tid);
  }

  lemma Parses(c: Config, s: State, tid: nat, t: Task, newId: Id, grant: Option<Id>, spec: Spec)
    requires t.pc.Cleared? && !MustHold(c, s.db, t, t.pc.checked) && ParseHoldResponse(t.action).None?
    requires IsActiveEnvelope(s.db, t.action.actor, grant) && (grant.Some? ==> grant.value in s.db.envelopes)
    requires ParseSpec(c, s.db, t.action, newId, grant) == Ok(spec)
    ensures Step(c, With(s, tid, t), Parse(tid, newId, grant)) == With(s, tid, t.At(Specced(t.pc.checked, spec)))
  {
    hide ParseSpec, MustHold, ParseHoldResponse, IsActiveEnvelope;
  }

  /** The quote is reserved. */
  function Reserving(s: State, a: Action): (r: State)
    requires a.actor in s.db.ledger
  {
    var row := s.db.ledger[a.actor];
    s.(db := s.db.(ledger := s.db.ledger[a.actor := Account(row.balance, row.reserved + QuoteCost(a))]))
  }

  lemma Reserves(c: Config, s: State, tid: nat, t: Task)
    requires t.pc.Specced? && t.via.None? && !CannotReserve(s.db, t.action)
    ensures Step(c, With(s, tid, t), ReserveEnergy(tid))
         == With(Reserving(s, t.action), tid, t.At(Reserved(t.pc.checked, t.pc.spec, QuoteCost(t.action))))
  {
    hide QuoteCost;
    QuoteIsPositive(t.action);
    var row, cost := s.db.ledger[t.action.actor], QuoteCost(t.action);
    assert row.(reserved := row.reserved + cost) == Account(row.balance, row.reserved + cost);
  }

  /** The tables after a commit, with whatever rows the Merkle store then has. */
  ghost predicate Committing(s: State, t: Task, r: State)
    requires t.pc.Reserved? && t.action.actor in s.db.ledger
  {
    var a := t.action;
    r == s.(
      db := s.db.(
        ledger := CommitLedger(s.db.ledger, a.actor, t.pc.cost, t.pc.spec),
        actors := CommitActors(s.db.actors, a.actor, t.pc.spec),
        envelopes := CommitEnvelopes(s.db, a.actor, t.pc.spec, s.now),
        events := s.db.events
          + [Event(a.actor, a.target, t.pc.cost, t.pc.cost, s.now, Acted(a.kind, t.pc.checked, t.via))],
        rows := r.db.rows),
      minted := r.minted, receipts := r.receipts)
  }

  lemma Commits(c: Config, s: State, tid: nat, t: Task) returns (r: State)
    requires Reachable(c, With(s, tid, t)) && t.pc.Reserved? && !Clashes(s.db, t.pc.spec)
    requires t.action.kind.Execute? ==> t.action.payload.executeOk
    ensures t.action.actor in s.db.ledger && Committing(s, t, r)
    ensures Step(c, With(s, tid, t), Finalize(tid))
         == With(r, tid, t.(via := None, pc := Committed(t.pc.spec, t.pc.cost, |s.db.events|)))
  {
    hide Run, TxFinalize, Reachable, CommitLedger, CommitActors, CommitEnvelopes, Clashes;
    CommitEffect(c, With(s, tid, t), tid);
    SameClashes(With(s, tid, t).db, s.db, t.pc.spec);
    var x := Step(c, With(s, tid, t), Finalize(tid));
    r := s.(db := x.db, minted := x.minted, receipts := x.receipts);
  }

  /** A human's action is charged to no envelope. */
  lemma HumanUncharged(c: Config, s: State, tid: nat, t: Task)
    requires t.pc.Committed? && Is(s.db, t.action.actor, Human)
    ensures Step(c, With(s, tid, t), ReadBudget(tid, None)) == With(s, tid, t.At(Metered(t.pc.spec)))
  {
  }

  lemma AgentCharged(c: Config, s: State, tid: nat, t: Task, envelope: Id)
    requires t.pc.Committed? && t.pc.cost > 0 && t.action.kind.StateChanging() && Is(s.db, t.action.actor, Agent)
    requires IsActiveEnvelope(s.db, t.action.actor, Some(envelope))
    ensures var charge := ChargeFor(s.db.envelopes[envelope], envelope, t.pc.event, t.pc.cost);
            Step(c, With(s, tid, t), ReadBudget(tid, Some(envelope))) == With(s, tid, t.At(Metering(t.pc.spec, charge)))
  {
    hide CheckCheckpoint;
  }

  /** The last step of a submission that manages nobody. */
  lemma Finishes(c: Config, s: State, tid: nat, t: Task)
    requires tid !in s.tasks && t.pc.Metered? && !t.pc.spec.Lifecycle?
    ensures Step(c, With(s, tid, t), Manage(tid)) == s
  {
    assert With(s, tid, t).tasks - {tid} == s.tasks;
  }

  lemma Manages(c: Config, s: State, tid: nat, t: Task)
    requires tid !in s.tasks && t.pc.Metered? && t.pc.spec.Lifecycle?
    ensures Step(c, With(s, tid, t), Manage(tid)) == s.(db := TxLifecycle(s.db, t.pc.spec.subject, t.pc.spec.op))
  {
    hide TxLifecycle, DecideAuthorize, DecideExpire, DecideTrigger, DecideReadHold, DecideParse, DecideReadBudget,
         DecideFinalize, DecideReserve, DecideRespond, DecideConsume, ApplyTimeout, ApplyTrigger, ApplyAnswer,
         ApplyReserve, ApplyCommit, ApplyConsume, ApplyTick;
    assert With(s, tid, t).tasks - {tid} == s.tasks;
  }

  // ----- up to the commit ------------------------------------------------------------------

  /** The steps from the entry to the commit. */
  function ToCommit(tid: nat, a: Action, envelope: Option<Id>, newId: Id): (schedule: seq<Label>) {
    [Submit(tid, a), Authorize(tid, envelope, []), Parse(tid, newId, envelope), ReserveEnergy(tid), Finalize(tid)]
  }

  lemma RunFive(c: Config, s: State, l: seq<Label>)
    requires |l| == 5
    ensures Run(c, s, l) == Step(c, Step(c, Step(c, Step(c, Step(c, s, l[0]), l[1]), l[2]), l[3]), l[4])
  {
    hide Step;
    assert l == [] + [l[0]] + [l[1]] + [l[2]] + [l[3]] + [l[4]];
    RunSnoc(c, s, [], l[0]);
    RunSnoc(c, s, [] + [l[0]], l[1]);
    RunSnoc(c, s, [] + [l[0]] + [l[1]], l[2]);
    RunSnoc(c, s, [] + [l[0]] + [l[1]] + [l[2]], l[3]);
    RunSnoc(c, s, [] + [l[0]] + [l[1]] + [l[2]] + [l[3]], l[4]);
  }

  /** The submission may go through: admitted, authorized, parsed, affordable and without a clash. */
  ghost predicate MayCommit(c: Config, s: State, a: Action, envelope: Option<Id>, newId: Id, spec: Spec) {
    && Admitted(c, s.db, a) && a.kind.StateChanging()
    && (if envelope.None? then Is(s.db, a.actor, Human)
        else
          && Is(s.db, a.actor, Agent) && envelope.value in s.db.envelopes
          && !IsExpired(s.db.envelopes[envelope.value], s.now)
          && s.db.envelopes[envelope.value].holdOn == [] && s.db.envelopes[envelope.value].holdTimeoutSecs.None?
          && EnvelopeCovers(c, s.db.envelopes[envelope.value], a.target, a.kind))
    && IsActiveEnvelope(s.db, a.actor, envelope)
    && ParseHoldResponse(a).None? && ParseSpec(c, s.db, a, newId, envelope) == Ok(spec)
    && !CannotReserve(s.db, a) && !Clashes(s.db, spec) && (a.kind.Execute? ==> a.payload.executeOk)
  }

  /** The tables after the reserve and the commit together: the quote is gone, the reservation as before. */
  ghost predicate CommittedBy(s: State, a: Action, envelope: Option<Id>, spec: Spec, r: State)
    requires a.actor in s.db.ledger
  {
    var cost, row := QuoteCost(a), s.db.ledger[a.actor];
    var paid := s.db.ledger[a.actor := Account(row.balance - cost, row.reserved)];
    r == s.(
      db := s.db.(
        ledger := if spec.NewActor? then paid[spec.request.id := Account(spec.request.balance, 0)] else paid,
        actors := CommitActors(s.db.actors, a.actor, spec),
        envelopes := CommitEnvelopes(s.db, a.actor, spec, s.now),
        events := s.db.events + [Event(a.actor, a.target, cost, cost, s.now, Acted(a.kind, envelope, None))],
        rows := r.db.rows),
      minted := r.minted, receipts := r.receipts)
  }

  lemma Clears(c: Config, s: State, tid: nat, a: Action, envelope: Option<Id>, newId: Id, spec: Spec)
    requires MayCommit(c, s, a, envelope, newId, spec)
    ensures Step(c, With(s, tid, Task(a, None, 0, 0, Entered)), Authorize(tid, envelope, []))
         == With(s, tid, Task(a, None, 0, 0, Cleared(envelope)))
    ensures !MustHold(c, s.db, Task(a, None, 0, 0, Cleared(envelope)), envelope)
  {
    hide Step, Admitted, ParseSpec, Clashes, EnvelopeCovers, QuoteCost, ParseHoldResponse, IsActiveEnvelope;
    var t := Task(a, None, 0, 0, Entered);
    if envelope.None? {
      HumanClears(c, s, tid, t);
    } else {
      AgentClears(c, s, tid, t, envelope.value);
    }
  }

  /** From the entry to the commit, uninterrupted. */
  lemma ReachesCommit(c: Config, s: State, tid: nat, a: Action, envelope: Option<Id>, newId: Id, spec: Spec)
    returns (r: State)
    requires Reachable(c, s) && tid !in s.tasks && MayCommit(c, s, a, envelope, newId, spec)
    ensures a.actor in s.db.ledger && CommittedBy(s, a, envelope, spec, r)
    ensures Run(c, s, ToCommit(tid, a, envelope, newId))
         == With(r, tid, Task(a, None, 0, 0, Committed(spec, QuoteCost(a), |s.db.events|)))
  {
    hide Run, Step, Reachable, Admitted, ParseSpec, MustHold, Clashes, QuoteCost, EnvelopeCovers, ParseHoldResponse,
         IsActiveEnvelope, CommitActors, CommitEnvelopes;
    var l := ToCommit(tid, a, envelope, newId);
    RunFive(c, s, l);
    var t := Task(a, None, 0, 0, Entered);
    Enters(c, s, tid, a);
    Clears(c, s, tid, a, envelope, newId, spec);
    Parses(c, s, tid, t.At(Cleared(envelope)), newId, envelope, spec);
    Reserves(c, s, tid, t.At(Specced(envelope, spec)));
    var reserved := t.At(Reserved(envelope, spec, QuoteCost(a)));
    BeforeCommit(c, s, l);
    SameClashes(Reserving(s, a).db, s.db, spec);
    r := Commits(c, Reserving(s, a), tid, reserved);
    PaidOnce(s, a, spec);
    SameEnvelopeRows(Reserving(s, a).db, s.db, a.actor, spec, s.now);
  }

  lemma BeforeCommit(c: Config, s: State, l: seq<Label>)
    requires Reachable(c, s) && |l| == 5
    ensures Reachable(c, Step(c, Step(c, Step(c, Step(c, s, l[0]), l[1]), l[2]), l[3]))
  {
    hide Step, Reachable;
    LaterReachable(c, s, [l[0]] + [l[1]] + [l[2]] + [l[3]]);
    RunSnoc(c, s, [], l[0]);
    assert [] + [l[0]] == [l[0]];
    RunSnoc(c, s, [l[0]], l[1]);
    RunSnoc(c, s, [l[0]] + [l[1]], l[2]);
    RunSnoc(c, s, [l[0]] + [l[1]] + [l[2]], l[3]);
  }

  lemma PaidOnce(s: State, a: Action, spec: Spec)
    requires a.actor in s.db.ledger
    ensures CommitLedger(Reserving(s, a).db.ledger, a.actor, QuoteCost(a), spec)
         == (var cost, row := QuoteCost(a), s.db.ledger[a.actor];
             var paid := s.db.ledger[a.actor := Account(row.balance - cost, row.reserved)];
             if spec.NewActor? then paid[spec.request.id := Account(spec.request.balance, 0)] else paid)
  {
    hide QuoteCost;
    var cost, row := QuoteCost(a), s.db.ledger[a.actor];
    var x := s.db.ledger[a.actor := Account(row.balance, row.reserved + cost)];
    assert x[a.actor := Account(row.balance - cost, row.reserved)]
             == s.db.ledger[a.actor := Account(row.balance - cost, row.reserved)];
  }

  lemma SameEnvelopeRows(p: Db, q: Db, grantor: Id, spec: Spec, now: nat)
    requires p.envelopes == q.envelopes && p.events == q.events
    ensures CommitEnvelopes(p, grantor, spec, now) == CommitEnvelopes(q, grantor, spec, now)
  {
  }

  // ----- whole submissions -------------------------------------------------------------------

  /** All the steps of a human's submission. */
  function HumanSteps(tid: nat, a: Action, newId: Id): (schedule: seq<Label>) {
    ToCommit(tid, a, None, newId) + [ReadBudget(tid, None)] + [Manage(tid)]
  }

  /** The tables after the lifecycle operation, if there is one. */
  function Managed(s: State, spec: Spec): (r: State) {
    if spec.Lifecycle? then s.(db := TxLifecycle(s.db, spec.subject, spec.op)) else s
  }

  lemma HumanWalks(c: Config, s: State, tid: nat, a: Action, newId: Id, spec: Spec) returns (r: State)
    requires Reachable(c, s) && tid !in s.tasks && MayCommit(c, s, a, None, newId, spec)
    ensures a.actor in s.db.ledger && CommittedBy(s, a, None, spec, r)
    ensures Run(c, s, HumanSteps(tid, a, newId)) == Managed(r, spec)
  {
    hide Run, Step, Reachable, Admitted, ParseSpec, Clashes, QuoteCost, ParseHoldResponse, IsActiveEnvelope,
         CannotReserve, CommitEnvelopes, ToCommit, TxLifecycle, NewActorRow;
    r := ReachesCommit(c, s, tid, a, None, newId, spec);
    var t := Task(a, None, 0, 0, Committed(spec, QuoteCost(a), |s.db.events|));
    NewcomerIsOther(s.db, a.actor, spec);
    RunSnoc(c, s, ToCommit(tid, a, None, newId), ReadBudget(tid, None));
    HumanUncharged(c, r, tid, t);
    RunSnoc(c, s, ToCommit(tid, a, None, newId) + [ReadBudget(tid, None)], Manage(tid));
    if spec.Lifecycle? {
      Manages(c, r, tid, t.At(Metered(spec)));
    } else {
      Finishes(c, r, tid, t.At(Metered(spec)));
    }
  }

  lemma NewcomerIsOther(db: Db, actor: Id, spec: Spec)
    requires actor in db.actors && !Clashes(db, spec)
    ensures CommitActors(db.actors, actor, spec)[actor] == db.actors[actor]
  {
  }

  /** The steps of an agent's submission up to the read of its budget. */
  function ToMeter(tid: nat, a: Action, envelope: Id): (schedule: seq<Label>) {
    ToCommit(tid, a, Some(envelope), "") + [ReadBudget(tid, Some(envelope))]
  }

  lemma AgentReachesMeter(c: Config, s: State, tid: nat, a: Action, envelope: Id) returns (r: State)
    requires Reachable(c, s) && tid !in s.tasks && MayCommit(c, s, a, Some(envelope), "", NoSpec)
    ensures a.actor in s.db.ledger && CommittedBy(s, a, Some(envelope), NoSpec, r)
    ensures envelope in s.db.envelopes
    ensures var charge := ChargeFor(s.db.envelopes[envelope], envelope, |s.db.events|, QuoteCost(a));
            Run(c, s, ToMeter(tid, a, envelope)) == With(r, tid, Task(a, None, 0, 0, Metering(NoSpec, charge)))
  {
    hide Run, Step, Reachable, Admitted, ParseSpec, Clashes, QuoteCost, ParseHoldResponse,
         CannotReserve, ToCommit, ChargeFor;
    r := ReachesCommit(c, s, tid, a, Some(envelope), "", NoSpec);
    QuoteIsPositive(a);
    RunSnoc(c, s, ToCommit(tid, a, Some(envelope), ""), ReadBudget(tid, Some(envelope)));
    AgentCharged(c, r, tid, Task(a, None, 0, 0, Committed(NoSpec, QuoteCost(a), |s.db.events|)), envelope);
  }

  /** The state after a charge: kept and counted, or dropped. */
  function Charged(s: State, charge: Charge): (r: State)
    requires charge.envelope in s.db.envelopes
  {
    var row := s.db.envelopes[charge.envelope];
    var kept := row.consumed + charge.amount <= row.budget;
    var status := if charge.level.Halt? then EnvExpired else row.status;
    var after := if kept then row.(consumed := row.consumed + charge.amount, status := status) else row;
    s.(db := s.db.(envelopes := s.db.envelopes[charge.envelope := after]),
       meter := s.meter + [Consumption(charge, row.consumed, kept)])
  }

  /** The last two steps of an agent's submission. */
  function FromMeter(tid: nat): (schedule: seq<Label>) {
    [] + [Consume(tid)] + [Manage(tid)]
  }

  lemma AgentFinishes(c: Config, s: State, tid: nat, a: Action, charge: Charge)
    requires tid !in s.tasks && charge.envelope in s.db.envelopes
    ensures Run(c, With(s, tid, Task(a, None, 0, 0, Metering(NoSpec, charge))), FromMeter(tid)) == Charged(s, charge)
  {
    hide Run, Step;
    var t := Task(a, None, 0, 0, Metering(NoSpec, charge));
    RunNothing(c, With(s, tid, t));
    RunSnoc(c, With(s, tid, t), [], Consume(tid));
    Consumes(c, s, tid, t);
    RunSnoc(c, With(s, tid, t), [] + [Consume(tid)], Manage(tid));
    Finishes(c, Charged(s, charge), tid, t.At(Metered(NoSpec)));
  }

  lemma RunNothing(c: Config, s: State)
    ensures Run(c, s, []) == s
  {
  }

  lemma Consumes(c: Config, s: State, tid: nat, t: Task)
    requires t.pc.Metering? && t.pc.charge.envelope in s.db.envelopes
    ensures Step(c, With(s, tid, t), Consume(tid)) == With(Charged(s, t.pc.charge), tid, t.At(Metered(t.pc.spec)))
  {
    hide DecideAuthorize, DecideExpire, DecideTrigger, DecideReadHold, DecideParse, DecideReadBudget,
         DecideFinalize, DecideReserve, DecideRespond, DecideManage, ApplyTimeout, ApplyTrigger, ApplyAnswer,
         ApplyReserve, ApplyCommit, ApplyTick;
    var row := s.db.envelopes[t.pc.charge.envelope];
    assert s.db.envelopes[t.pc.charge.envelope := row] == s.db.envelopes;
  }

  // ----- holds -------------------------------------------------------------------------------

  /** A held action ends its submission, with the hold on record. */
  lemma Triggers(c: Config, s: State, tid: nat, t: Task, hold: Id) returns (r: State)
    requires Reachable(c, With(s, tid, t)) && tid !in s.tasks && hold !in s.db.holds && !CannotReserve(s.db, t.action)
    requires t.pc.Cleared? && MustHold(c, s.db, t, t.pc.checked)
    ensures var a, row := t.action, s.db.ledger[t.action.actor];
            r == s.(db := s.db.(
              ledger := s.db.ledger[a.actor := Account(row.balance, row.reserved + QuoteCost(a))],
              holds := s.db.holds[hold := Hold(t.pc.checked.value, a.actor, a, QuoteCost(a), Pending, s.now)],
              events := r.db.events, rows := r.db.rows))
    ensures Step(c, With(s, tid, t), Trigger(tid, hold)) == r
  {
    hide Run, TxTrigger, Reachable, QuoteCost, HoldTriggered;
    TriggerEffect(c, With(s, tid, t), hold, t.pc.checked.value, t.action);
    assert With(s, tid, t).tasks - {tid} == s.tasks;
    r := Step(c, With(s, tid, t), Trigger(tid, hold));
  }

  /** The hold is open, and its envelope sets no timeout. */
  lemma ReadsHold(c: Config, s: State, tid: nat, t: Task, hold: Id, approve: bool)
    requires t.pc.Cleared? && t.pc.checked.None? && ParseHoldResponse(t.action) == Some((hold, approve))
    requires Is(s.db, t.action.actor, Human) && Open(s.db, hold)
    requires s.db.holds[hold].envelope in s.db.envelopes ==>
               s.db.envelopes[s.db.holds[hold].envelope].holdTimeoutSecs.None?
    ensures Step(c, With(s, tid, t), ReadHold(tid, [])) == With(s, tid, t.At(Responding(hold, approve)))
  {
    hide ParseHoldResponse, HoldTriggered;
  }

  /** On approve the task becomes the re-submission of the held action. */
  lemma Approves(c: Config, s: State, tid: nat, t: Task, hold: Id) returns (r: State)
    requires Reachable(c, With(s, tid, t)) && t.pc == Responding(hold, true) && Open(s.db, hold)
    ensures r == s.(db := s.db.(holds := s.db.holds[hold := s.db.holds[hold].(status := Approved)],
                                events := r.db.events, rows := r.db.rows))
    ensures Step(c, With(s, tid, t), Respond(tid)) == With(r, tid, Resubmit(t, hold, s.db.holds[hold]))
  {
    hide Run, TxRespond, Reachable;
    AnswerEffect(c, With(s, tid, t), hold, true, t.action.actor);
    r := s.(db := Step(c, With(s, tid, t), Respond(tid)).db);
  }
}

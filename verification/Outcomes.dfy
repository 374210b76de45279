/** What a step of a submission leads to when the tables do not refuse it. */
module Outcomes {
  import opened Basics
  import opened Consent
  import opened Database
  import opened Kernel
  import opened Tasks
  import opened Theorems
  import opened Stranding
  import opened Effects
  import opened Management
  import opened Answers
  import opened Reference

  // ----- authorization -------------------------------------------------------------------

  /** The envelope's rules hold something, and what they hold can time out. */
  predicate CanTimeOut(e: Envelope) {
    && e.holdOn != []
    && match e.holdTimeoutSecs
       case None => false
       case Some(n) => n > 0
  }

  /** A newly entered submission that reads an envelope past its deadline. */
  predicate Lapses(s: State, t: Task, envelope: Option<Id>) {
    && t.pc.Entered? && t.action.kind != Observe
    && envelope.Some? && envelope.value in s.db.envelopes && PastDeadline(s.db.envelopes[envelope.value], s.now)
  }

  /**
   * Where authorization leads: an observer and a human go on unchecked; an agent goes
   * on under its envelope, through the holds that may time out if there can be any.
   */
  predicate ClearedTo(s: State, t: Task, envelope: Option<Id>, pending: seq<Id>, pc: Pc)
    requires t.action.actor in s.db.actors
  {
    if t.action.kind == Observe || s.db.actors[t.action.actor].kind == Human then pc == Cleared(None)
    else
      && envelope.Some? && envelope.value in s.db.envelopes
      && var e := s.db.envelopes[envelope.value];
         pc == if CanTimeOut(e) then Expiring(envelope, pending, s.now, e.holdTimeoutSecs.value, false)
               else Cleared(envelope)
  }

  /** The outcome of every authorization that the tables do not refuse. */
  lemma AuthorizeExactly(c: Config, s: State, tid: nat, envelope: Option<Id>, pending: seq<Id>)
    requires Reachable(c, s) && tid in s.tasks && (s.tasks[tid].pc.Entered? || s.tasks[tid].pc.Lapsed?)
    requires IsActiveEnvelope(s.db, s.tasks[tid].action.actor, envelope)
    requires envelope.Some? ==> IsPendingList(s.db.holds, envelope.value, pending)
    requires !Refuses(c, s, Label.Authorize(tid, envelope, pending))
    ensures var t, s' := s.tasks[tid], Step(c, s, Label.Authorize(tid, envelope, pending));
            && t.action.actor in s.db.actors && tid in s'.tasks
            && if Lapses(s, t, envelope) then
                 && s'.tasks == s.tasks[tid := t.At(Lapsed)]
                 && var row := s.db.envelopes[envelope.value].(status := EnvExpired);
                    s'.db == s.db.(envelopes := s.db.envelopes[envelope.value := row])
               else
                 && s'.tasks == s.tasks[tid := t.At(s'.tasks[tid].pc)] && s'.db == s.db
                 && ClearedTo(s, t, envelope, pending, s'.tasks[tid].pc)
  {
    hide Reachable, Refuses, DecideMode, WithinBoundary, ValidAction, LineageActive, IsPendingList, Errs,
         DecideExpire, DecideTrigger, DecideReadHold, DecideParse, DecideFinalize, DecideRespond, DecideReadBudget;
    var l, t := Label.Authorize(tid, envelope, pending), s.tasks[tid];
    FailsExactly(c, s, l);
    NotFailed(s, Decide(c, s, l));
    if t.action.actor in s.db.actors {
      ModeLeads(c, s, tid, None, []);
      if t.action.kind != Observe {
        ModeLeads(c, s, tid, envelope, pending);
      }
    }
  }

  lemma NotFailed(s: State, e: Effect)
    requires Applicable(s, e) && !Errs(s, e)
    ensures !e.FailTask?
  {
    hide TxTimeout, TxTrigger, TxRespond, TxFinalize;
  }

  lemma ModeLeads(c: Config, s: State, tid: nat, envelope: Option<Id>, pending: seq<Id>)
    requires tid in s.tasks && s.tasks[tid].action.actor in s.db.actors
    requires envelope.Some? ==> s.tasks[tid].action.kind != Observe
    requires envelope.Some? ==>
               envelope.value in s.db.envelopes && s.db.envelopes[envelope.value].status.EnvActive?
               && IsPendingList(s.db.holds, envelope.value, pending)
    ensures var t, e := s.tasks[tid], DecideMode(c, s, tid, envelope, pending);
            e == FailTask(tid) || (e.Move? && e.tid == tid && ClearedTo(s, t, envelope, pending, e.pc))
  {
    hide IsPendingList, EnvelopeCovers;
  }

  // ----- what was asked for ----------------------------------------------------------------

  predicate AsksActor(a: Action, q: ActorRequest) {
    a.kind == Create && a.target == "ledger/actor" && a.payload.actor == Some(q)
  }

  predicate AsksEnvelope(a: Action, q: EnvelopeRequest) {
    a.kind == Create && a.target == "ledger/envelope" && a.payload.envelope == Some(q)
  }

  /** The spec is what the action asks for, and a new envelope has the grantor's own active one as parent. */
  ghost predicate Asked(a: Action, newId: Id, grant: Option<Id>, spec: Spec) {
    && (forall subject, op :: spec == Lifecycle(subject, op) <==> AsksFor(a, subject, op))
    && (forall q :: spec == NewActor(q) <==> AsksActor(a, q))
    && (forall id, q, parent ::
          spec == NewEnvelope(id, q, parent) <==> AsksEnvelope(a, q) && id == newId && parent == grant)
  }

  /** A cleared action that is neither held nor an answer, and not refused, goes on with just what it asks for. */
  lemma ParsesExactly(c: Config, s: State, tid: nat, newId: Id, grant: Option<Id>)
    requires Reachable(c, s) && tid in s.tasks && s.tasks[tid].pc.Cleared? && !Held(c, s.db, s.tasks[tid])
    requires forall hold, approve :: !AnswersHold(s.tasks[tid].action, hold, approve)
    requires IsActiveEnvelope(s.db, s.tasks[tid].action.actor, grant)
    requires !SpecRefused(c, s.db, s.tasks[tid].action, grant)
    ensures var t, s' := s.tasks[tid], Step(c, s, Parse(tid, newId, grant));
            && tid in s'.tasks && s'.tasks[tid].pc.Specced?
            && s' == s.(tasks := s.tasks[tid := t.At(Specced(t.pc.checked, s'.tasks[tid].pc.spec))])
            && Asked(t.action, newId, grant, s'.tasks[tid].pc.spec)
  {
    hide Reachable, Held, MustHold, AnswersHold, ParseHoldResponse, IsActiveEnvelope, SpecRefused, ParseSpec, Asked;
    var t := s.tasks[tid];
    HeldMeans(c, s.db, t);
    NotAnswering(t.action);
    ActiveExists(s.db, t.action.actor, grant);
    LineageHolds(c, s);
    SpecFails(c, s.db, t.action, newId, grant);
    ParsedAsAsked(c, s.db, t.action, newId, grant);
  }

  lemma NotAnswering(a: Action)
    requires forall hold, approve :: !AnswersHold(a, hold, approve)
    ensures ParseHoldResponse(a).None?
  {
    hide AnswersHold, ParseHoldResponse;
    if ParseHoldResponse(a).Some? {
      var (hold, approve) := ParseHoldResponse(a).value;
      AnswerParses(a, hold, approve);
    }
  }

  lemma ParsedAsAsked(c: Config, db: Db, a: Action, newId: Id, grant: Option<Id>)
    requires (grant.Some? ==> grant.value in db.envelopes) && ParseSpec(c, db, a, newId, grant).Ok?
    ensures Asked(a, newId, grant, ParseSpec(c, db, a, newId, grant).value)
  {
    hide ParseLifecycleOp, AsksFor, ChildTargetsCovered, EnvelopeReduced, MayManage;
    var spec := ParseSpec(c, db, a, newId, grant).value;
    OnlyMutatesManage(a);
    LifecycleParsed(c, db, a, newId, grant);
    forall subject, op
      ensures spec == Lifecycle(subject, op) <==> AsksFor(a, subject, op)
    {
      AskingParses(a, subject, op);
      if ParseLifecycleOp(a).Some? {
        assert ParseLifecycleOp(a).value == (subject, op) <==> spec == Lifecycle(subject, op);
      }
    }
  }

  lemma LifecycleParsed(c: Config, db: Db, a: Action, newId: Id, grant: Option<Id>)
    requires (grant.Some? ==> grant.value in db.envelopes) && ParseSpec(c, db, a, newId, grant).Ok?
    ensures var spec := ParseSpec(c, db, a, newId, grant).value;
            if ParseLifecycleOp(a).Some?
            then spec == Lifecycle(ParseLifecycleOp(a).value.0, ParseLifecycleOp(a).value.1)
            else !spec.Lifecycle?
  {
    hide ParseLifecycleOp, ChildTargetsCovered, EnvelopeReduced, MayManage;
  }

  lemma OnlyMutatesManage(a: Action)
    ensures ParseLifecycleOp(a).Some? ==> a.kind == Mutate
  {
  }

  // ----- what it costs and what it writes ----------------------------------------------------

  /** Whatever was held or is about to be committed was reserved at the price of its action. */
  lemma ReservedAtPrice(c: Config, s: State)
    requires Reachable(c, s)
    ensures forall h | h in s.db.holds :: Price(s.db.holds[h].action, s.db.holds[h].reserved)
    ensures forall tid | tid in s.tasks && s.tasks[tid].pc.Reserved? :: Price(s.tasks[tid].action, s.tasks[tid].pc.cost)
  {
    hide Reachable, Price, QuoteCost, SpecOk, MustHold, CheckedOk, MeterOk;
    ReachableTasks(c, s);
    forall h | h in s.db.holds
      ensures Price(s.db.holds[h].action, s.db.holds[h].reserved)
    {
      assert HoldOk(s.db, s.db.holds[h]);
      QuoteDecides(s.db.holds[h].action, s.db.holds[h].reserved);
    }
    forall tid | tid in s.tasks && s.tasks[tid].pc.Reserved?
      ensures Price(s.tasks[tid].action, s.tasks[tid].pc.cost)
    {
      var t := s.tasks[tid];
      assert TaskOk(c, s.db, t);
      if t.via.None? {
        QuoteDecides(t.action, t.pc.cost);
      } else {
        assert HoldOk(s.db, s.db.holds[t.via.value]);
      }
    }
  }

  /** A new actor's row: as requested, active, its creator the one who asked. */
  predicate ActorAsRequested(row: Actor, q: ActorRequest, creator: Id) {
    && row.kind == q.kind && row.writable == q.writable && row.share == q.share
    && row.creator == Some(creator) && row.lineage == [creator] && row.status == Active
  }

  /** A new envelope's row: as requested, active and unspent, with its deadline so many seconds from now. */
  predicate EnvelopeAsRequested(row: Envelope, q: EnvelopeRequest, parent: Option<Id>, grantor: Id, now: nat) {
    && row.actor == q.actor && row.budget == q.budget && row.targets == q.targets && row.actions == q.actions
    && row.reportEvery == q.reportEvery && row.holdOn == q.holdOn && row.holdTimeoutSecs == q.holdTimeoutSecs
    && row.grantor == grantor && row.parent == parent
    && row.consumed == 0 && row.status == EnvActive && row.createdAt == now
    && match q.durationSecs
       case None => row.expiresAt == None
       case Some(n) => row.expiresAt == Some(now + 1000 * n)
  }

  /** The rows that `q` has and `p` has not are those that the action asked for. */
  ghost predicate Created(p: Db, a: Action, spec: Spec, now: nat, q: Db) {
    match spec
    case NewActor(r) =>
      && AsksActor(a, r) && Named(r.id) && r.balance >= 0
      && r.id !in p.actors && q.actors.Keys == p.actors.Keys + {r.id} && q.envelopes == p.envelopes
      && (forall x | x in p.actors :: q.actors[x] == p.actors[x])
      && ActorAsRequested(q.actors[r.id], r, a.actor)
      && r.id in q.ledger && q.ledger[r.id] == Account(r.balance, 0)
    case NewEnvelope(id, r, parent) =>
      && AsksEnvelope(a, r)
      && id !in p.envelopes && q.envelopes.Keys == p.envelopes.Keys + {id} && q.actors == p.actors
      && (forall x | x in p.envelopes :: q.envelopes[x] == p.envelopes[x])
      && EnvelopeAsRequested(q.envelopes[id], r, parent, a.actor, now)
    case _ => q.actors == p.actors && q.envelopes == p.envelopes
  }

  /** What a commit creates: the actor or envelope of the action's own payload, as requested, and nothing else. */
  lemma CommitCreates(c: Config, s: State, tid: nat)
    requires Reachable(c, s) && tid in s.tasks && s.tasks[tid].pc.Reserved? && !Refuses(c, s, Finalize(tid))
    ensures Created(s.db, s.tasks[tid].action, s.tasks[tid].pc.spec, s.now, Step(c, s, Finalize(tid)).db)
  {
    hide Reachable, TxFinalize, TaskOk, Created, Clashes, CommitActors, CommitEnvelopes, CommitLedger;
    var t := s.tasks[tid];
    CommitEffect(c, s, tid);
    ReachableTasks(c, s);
    SpecHolds(c, s, tid);
    RowsCreated(c, s.db, t.action, t.pc.cost, t.pc.spec, s.now, Step(c, s, Finalize(tid)).db);
  }

  lemma RowsCreated(c: Config, p: Db, a: Action, cost: nat, spec: Spec, now: nat, q: Db)
    requires a.actor in p.ledger && !Clashes(p, spec) && SpecOk(c, p, a, spec)
    requires q.ledger == CommitLedger(p.ledger, a.actor, cost, spec)
    requires q.actors == CommitActors(p.actors, a.actor, spec)
    requires q.envelopes == CommitEnvelopes(p, a.actor, spec, now)
    ensures Created(p, a, spec, now, q)
  {
    hide Blank, Named, ParseLifecycleOp, ChildTargetsCovered;
    if spec.NewActor? {
      BlankDecides(spec.request.id);
    }
  }

  /** On approve the call goes on with exactly the held action, and the reservation that was made for it. */
  lemma ApprovalResumes(c: Config, s: State, tid: nat)
    requires Reachable(c, s) && tid in s.tasks && s.tasks[tid].pc.Responding? && s.tasks[tid].pc.approve
    requires Open(s.db, s.tasks[tid].pc.hold)
    ensures var hold, s' := s.tasks[tid].pc.hold, Step(c, s, Respond(tid));
            && tid in s'.tasks && s'.tasks[tid].pc == Entered && s'.tasks[tid].via == Some(hold)
            && s'.tasks[tid].action == s.db.holds[hold].action
            && s'.tasks[tid].preReserved == s.db.holds[hold].reserved
            && (forall x | x in s.tasks && x != tid :: x in s'.tasks && s'.tasks[x] == s.tasks[x])
            && s'.db.ledger == s.db.ledger
            && s'.db.holds == s.db.holds[hold := s.db.holds[hold].(status := Approved)]
  {
    hide Reachable, TxRespond;
    AnswerEffect(c, s, s.tasks[tid].pc.hold, true, s.tasks[tid].action.actor);
  }
}

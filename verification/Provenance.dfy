/** What every event of the log proves about who wrote it and what it was checked against. */
module Provenance {
  import opened Consent
  import opened Database
  import opened Kernel
  import opened Stability
  import opened Tasks

  /** An agent's unheld action passed the hold rules of the envelope it was checked against. */
  ghost predicate UnheldOk(c: Config, db: Db, e: Event) {
    e.body.Acted? && Is(db, e.actor, Agent) && e.body.kind.StateChanging() ==>
      && e.body.checked.Some? && e.body.checked.value in db.envelopes
      && db.envelopes[e.body.checked.value].actor == e.actor
      && InScope(c, db.envelopes[e.body.checked.value], e.target, e.body.kind)
      && (e.body.via.None? ==> !HoldTriggered(c, db.envelopes[e.body.checked.value].holdOn, e.target, e.body.kind))
  }

  /** A hold was requested under an envelope of its agent, for what the envelope's rules hold. */
  ghost predicate RequestOk(c: Config, db: Db, e: Event) {
    e.body.HoldRequested? ==>
      && e.body.hold in db.holds && db.holds[e.body.hold].envelope in db.envelopes
      && var envelope := db.envelopes[db.holds[e.body.hold].envelope];
         envelope.actor == e.actor && HoldTriggered(c, envelope.holdOn, e.body.pendingTarget, e.body.pending)
  }

  ghost predicate EventOk(c: Config, db: Db, e: Event) {
    && e.actor in db.actors
    && e.reserved >= 0 && e.settled >= 0
    && (e.body.Acted? ==> e.reserved > 0 && e.settled > 0 && Bounded(c, db, e.actor, e.target, e.body.kind))
    && (e.body.HoldResponded? ==> Is(db, e.actor, Human) && e.body.agent in db.actors)
    && (e.body.HoldRequested? || e.body.HoldTimedOut? ==> Is(db, e.actor, Agent))
    && UnheldOk(c, db, e)
    && RequestOk(c, db, e)
  }

  ghost predicate EventsOk(c: Config, db: Db) {
    forall i | 0 <= i < |db.events| :: EventOk(c, db, db.events[i])
  }

  lemma EventStable(c: Config, p: Db, q: Db, e: Event)
    requires Grows(p, q) && EventOk(c, p, e)
    ensures EventOk(c, q, e)
  {
    hide HoldTriggered;
  }

  lemma SameEvents(c: Config, p: Db, q: Db)
    requires EventsOk(c, p) && Grows(p, q) && q.events == p.events
    ensures EventsOk(c, q)
  {
    hide EventOk, Grows;
    forall i | 0 <= i < |q.events|
      ensures EventOk(c, q, q.events[i])
    {
      EventStable(c, p, q, p.events[i]);
    }
  }

  lemma OneMoreEvent(c: Config, p: Db, q: Db, e: Event)
    requires EventsOk(c, p) && Grows(p, q) && q.events == p.events + [e] && (EventOk(c, p, e) || EventOk(c, q, e))
    ensures EventsOk(c, q)
  {
    hide EventOk, Grows;
    forall i | 0 <= i < |q.events|
      ensures EventOk(c, q, q.events[i])
    {
      if i < |p.events| {
        EventStable(c, p, q, p.events[i]);
      } else if EventOk(c, p, e) {
        EventStable(c, p, q, e);
      }
    }
  }

  lemma TimeoutEvent(c: Config, s: State, e: Effect)
    requires TasksOk(c, s) && EventsOk(c, s.db) && Applicable(s, e) && EffectOk(c, s, e)
    requires e.TimeOutHold? && Grows(s.db, Apply(s, e).db)
    ensures EventsOk(c, Apply(s, e).db)
  {
    hide AppendEvent, Settle, TaskOk, EventsOk, Grows;
    var q := Apply(s, e).db;
    if TxTimeout(s.db, e.hold, s.now).Ok? {
      assert HoldOk(s.db, s.db.holds[e.hold]);
      OneMoreEvent(c, s.db, q, q.events[|s.db.events|]);
    }
  }

  lemma TriggerEvent(c: Config, s: State, e: Effect)
    requires EventsOk(c, s.db) && Applicable(s, e) && EffectOk(c, s, e)
    requires e.TriggerHold? && Grows(s.db, Apply(s, e).db)
    ensures EventsOk(c, Apply(s, e).db)
  {
    hide AppendEvent, Database.Reserve, EventsOk, Grows, HoldTriggered, QuoteCost;
    var q := Apply(s, e).db;
    if TxTrigger(s.db, e.hold, e.envelope, s.tasks[e.tid].action, s.now).Ok? {
      OneMoreEvent(c, s.db, q, q.events[|s.db.events|]);
    }
  }

  /** The event that an answer writes: the human's, about the hold's agent. */
  lemma AnswerWrites(s: State, e: Effect)
    requires Applicable(s, e) && e.AnswerHold?
    requires TxRespond(s.db, e.hold, e.approve, s.tasks[e.tid].action.actor, s.now).Ok?
    ensures var q, h := Apply(s, e).db, s.db.holds[e.hold];
            var cost := if e.approve || h.reserved == 0 then 0 else CommitmentCost(h.reserved);
            q.events == s.db.events + [Event(s.tasks[e.tid].action.actor, HOLD_PREFIX + e.hold, h.reserved, cost, s.now,
                                             HoldResponded(e.hold, h.agent, e.approve))]
  {
    hide AppendEvent, Settle, CommitmentCost;
  }

  /** Only a human's answer is ever recorded. */
  lemma AnswerEvent(c: Config, s: State, e: Effect)
    requires TasksOk(c, s) && EventsOk(c, s.db) && Applicable(s, e) && e.AnswerHold?
    requires Is(s.db, s.tasks[e.tid].action.actor, Human)
    requires Grows(s.db, Apply(s, e).db)
    ensures EventsOk(c, Apply(s, e).db)
  {
    hide Apply, TxRespond, EventsOk, Grows, TaskOk, CommitmentCost;
    var q := Apply(s, e).db;
    if TxRespond(s.db, e.hold, e.approve, s.tasks[e.tid].action.actor, s.now).Ok? {
      AnswerWrites(s, e);
      assert HoldOk(s.db, s.db.holds[e.hold]);
      OneMoreEvent(c, s.db, q, q.events[|s.db.events|]);
    } else {
      AnswerFails(s, e);
    }
  }

  lemma AnswerFails(s: State, e: Effect)
    requires Applicable(s, e) && e.AnswerHold?
    requires TxRespond(s.db, e.hold, e.approve, s.tasks[e.tid].action.actor, s.now).Err?
    ensures Apply(s, e).db == s.db
  {
    hide TxRespond;
  }

  lemma ResponderIsHuman(c: Config, s: State, tid: nat)
    requires TasksOk(c, s) && tid in s.tasks && s.tasks[tid].pc.Responding?
    ensures Is(s.db, s.tasks[tid].action.actor, Human)
  {
    hide MeterOk, ViaOk;
    assert TaskOk(c, s.db, s.tasks[tid]);
  }

  /** The event that a commit writes, and why it may. */
  lemma CommittedEventOk(c: Config, s: State, tid: nat)
    requires TasksOk(c, s) && tid in s.tasks && s.tasks[tid].pc.Reserved?
    ensures var t := s.tasks[tid];
            EventOk(c, s.db, Event(t.action.actor, t.action.target, t.pc.cost, t.pc.cost, s.now,
                    Acted(t.action.kind, t.pc.checked, t.via)))
  {
    hide MeterOk, SpecOk, HoldTriggered;
    var t := s.tasks[tid];
    assert TaskOk(c, s.db, t);
    if t.via.Some? {
      assert HoldOk(s.db, s.db.holds[t.via.value]);
    }
  }

  lemma CommitEvent(c: Config, s: State, e: Effect)
    requires TasksOk(c, s) && EventsOk(c, s.db) && Applicable(s, e) && EffectOk(c, s, e)
    requires e.Commit? && Grows(s.db, Apply(s, e).db)
    ensures EventsOk(c, Apply(s, e).db)
  {
    hide AppendEvent, Settle, ApplySpec, EventsOk, Grows, EventOk, TasksOk;
    var t, q := s.tasks[e.tid], Apply(s, e).db;
    if TxFinalize(s.db, t.action, e.cost, e.spec, e.checked, t.via, s.now).Ok? {
      CommittedEventOk(c, s, e.tid);
      OneMoreEvent(c, s.db, q, q.events[|s.db.events|]);
    }
  }

  /** Every effect of every step keeps every event accounted for. */
  lemma ApplyKeepsEvents(c: Config, s: State, e: Effect)
    requires EventsOk(c, s.db) && TasksOk(c, s) && Applicable(s, e) && EffectOk(c, s, e)
    ensures EventsOk(c, Apply(s, e).db)
  {
    hide Apply, EventsOk, Grows, TasksOk, TaskOk;
    ApplyGrows(s, e);
    EffectFrame(s, e);
    match e
    case TimeOutHold(_, _, _) => TimeoutEvent(c, s, e);
    case TriggerHold(_, _, _) => TriggerEvent(c, s, e);
    case AnswerHold(tid, _, _) =>
      ResponderIsHuman(c, s, tid);
      AnswerEvent(c, s, e);
    case Commit(_, _, _, _) => CommitEvent(c, s, e);
    case _ => SameEvents(c, s.db, Apply(s, e).db);
  }
}

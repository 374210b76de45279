/**
 * The hold table is a view of the log, and the log itself is lawful: a hold is
 * requested once, resolved at most once, and an approved one is executed at
 * most once, for exactly what was quoted when it was triggered.
 */
module HoldLog {
  import opened Basics
  import opened Consent
  import opened Database
  import opened Kernel
  import opened Stability
  import opened Tasks

  /** What the log says about one hold. */
  datatype HoldLine = HoldLine(agent: Id, kind: ActionType, target: string, reserved: int, status: HoldStatus)

  type HoldView = map<Id, HoldLine>

  function Answer(approved: bool): (s: HoldStatus) {
    if approved then Approved else Rejected
  }

  function ViewNext(v: HoldView, e: Event): (r: HoldView) {
    match e.body
    case HoldRequested(h, kind, target) => v[h := HoldLine(e.actor, kind, target, e.reserved, Pending)]
    case HoldResponded(h, _, approved) => if h in v then v[h := v[h].(status := Answer(approved))] else v
    case HoldTimedOut(h) => if h in v then v[h := v[h].(status := TimedOut)] else v
    case Acted(_, _, _) => v
  }

  /** The holds that a log tells of. */
  function View(events: seq<Event>): (v: HoldView) {
    if events == [] then map[] else ViewNext(View(events[..|events| - 1]), events[|events| - 1])
  }

  function UsedNext(used: set<Id>, e: Event): (r: set<Id>) {
    if e.body.Acted? && e.body.via.Some? then used + {e.body.via.value} else used
  }

  /** The holds whose pending action a log shows as executed. */
  function Used(events: seq<Event>): (u: set<Id>) {
    if events == [] then {} else UsedNext(Used(events[..|events| - 1]), events[|events| - 1])
  }

  /** Whether `e` may follow a log that tells of the holds `v` and executed `used`. */
  predicate LegalNext(v: HoldView, used: set<Id>, e: Event) {
    match e.body
    case HoldRequested(h, _, _) => h !in v && e.reserved > 0 && e.settled == 0
    case HoldResponded(h, agent, approved) =>
      && h in v && v[h].status.Pending? && v[h].reserved > 0
      && agent == v[h].agent && e.reserved == v[h].reserved
      && e.settled == if approved then 0 else CommitmentCost(v[h].reserved)
    case HoldTimedOut(h) =>
      && h in v && v[h].status.Pending? && v[h].reserved > 0
      && e.actor == v[h].agent && e.reserved == v[h].reserved
      && e.settled == CommitmentCost(v[h].reserved)
    case Acted(kind, _, via) =>
      via.Some? ==>
        && via.value in v && v[via.value].status.Approved? && via.value !in used
        && e.actor == v[via.value].agent && kind == v[via.value].kind && e.target == v[via.value].target
        && e.reserved == e.settled == v[via.value].reserved
  }

  predicate LegalLog(events: seq<Event>) {
    events == [] ||
    var n := |events| - 1;
    LegalLog(events[..n]) && LegalNext(View(events[..n]), Used(events[..n]), events[n])
  }

  function TableView(holds: map<Id, Hold>): (v: HoldView) {
    map h | h in holds ::
        HoldLine(holds[h].agent, holds[h].action.kind, holds[h].action.target, holds[h].reserved, holds[h].status)
  }

  /** No two re-submissions share a hold, and none has a hold that was already executed. */
  ghost predicate OwnedOnce(s: State) {
    && (forall i, j | i in s.tasks && j in s.tasks && i != j && s.tasks[i].via.Some? ::
          s.tasks[i].via != s.tasks[j].via)
    && (forall i | i in s.tasks && s.tasks[i].via.Some? :: s.tasks[i].via.value !in Used(s.db.events))
  }

  /** The log is lawful and the hold table is its view. */
  ghost predicate ViewOk(db: Db) {
    LegalLog(db.events) && View(db.events) == TableView(db.holds)
  }

  ghost predicate LogOk(s: State) {
    ViewOk(s.db) && OwnedOnce(s)
  }

  lemma LogAppend(events: seq<Event>, e: Event)
    ensures View(events + [e]) == ViewNext(View(events), e)
    ensures Used(events + [e]) == UsedNext(Used(events), e)
    ensures LegalLog(events + [e]) <==> LegalLog(events) && LegalNext(View(events), Used(events), e)
  {
    assert (events + [e])[..|events|] == events;
  }

  // ----- effects ----------------------------------------------------------------------

  lemma SameView(p: Db, q: Db)
    requires ViewOk(p) && p.events == q.events && p.holds == q.holds
    ensures ViewOk(q)
  {
  }

  /** Fewer re-submissions, the same log and holds. */
  lemma FrameLog(s: State, s': State)
    requires LogOk(s) && s'.db.events == s.db.events && s'.db.holds == s.db.holds
    requires forall i | i in s'.tasks && s'.tasks[i].via.Some? :: i in s.tasks && s'.tasks[i].via == s.tasks[i].via
    ensures LogOk(s')
  {
    hide ViewOk, Used;
    assert ViewOk(s'.db) by {
      SameView(s.db, s'.db);
    }
  }

  lemma TimeoutKeepsView(db: Db, hold: Id, now: nat)
    requires ViewOk(db) && TxTimeout(db, hold, now).Ok? && db.holds[hold].reserved > 0
    ensures ViewOk(TxTimeout(db, hold, now).value)
    ensures Used(TxTimeout(db, hold, now).value.events) == Used(db.events)
  {
    hide AppendEvent, Settle, View, LegalLog, Used;
    var q := TxTimeout(db, hold, now).value;
    LogAppend(db.events, q.events[|db.events|]);
    assert View(q.events) == TableView(q.holds);
  }

  lemma TriggerKeepsView(db: Db, hold: Id, id: Id, a: Action, now: nat)
    requires ViewOk(db) && TxTrigger(db, hold, id, a, now).Ok?
    ensures ViewOk(TxTrigger(db, hold, id, a, now).value)
    ensures Used(TxTrigger(db, hold, id, a, now).value.events) == Used(db.events)
  {
    hide AppendEvent, Database.Reserve, View, LegalLog, Used;
    var q := TxTrigger(db, hold, id, a, now).value;
    LogAppend(db.events, q.events[|db.events|]);
    assert View(q.events) == TableView(q.holds);
  }

  lemma AnswerKeepsView(db: Db, hold: Id, approve: bool, human: Id, now: nat)
    requires ViewOk(db) && TxRespond(db, hold, approve, human, now).Ok? && db.holds[hold].reserved > 0
    ensures ViewOk(TxRespond(db, hold, approve, human, now).value)
    ensures Used(TxRespond(db, hold, approve, human, now).value.events) == Used(db.events)
  {
    hide AppendEvent, Settle, View, LegalLog, Used;
    var q := TxRespond(db, hold, approve, human, now).value;
    LogAppend(db.events, q.events[|db.events|]);
    assert View(q.events) == TableView(q.holds);
  }

  /** A commit through a hold needs the hold approved, not yet executed, and its own action and quote. */
  lemma CommitKeepsView(db: Db, a: Action, cost: nat, spec: Spec, checked: Option<Id>, via: Option<Id>, now: nat)
    requires ViewOk(db) && TxFinalize(db, a, cost, spec, checked, via, now).Ok?
    requires via.Some? ==>
      && via.value in db.holds && db.holds[via.value].status.Approved? && via.value !in Used(db.events)
      && db.holds[via.value].agent == a.actor && db.holds[via.value].action == a && db.holds[via.value].reserved == cost
    ensures ViewOk(TxFinalize(db, a, cost, spec, checked, via, now).value)
    ensures Used(TxFinalize(db, a, cost, spec, checked, via, now).value.events)
         == Used(db.events) + if via.Some? then {via.value} else {}
  {
    hide AppendEvent, Settle, ApplySpec, View, LegalLog, Used;
    var q := TxFinalize(db, a, cost, spec, checked, via, now).value;
    LogAppend(db.events, q.events[|db.events|]);
  }

  /** A pending hold is carried by no task and executed by no event. */
  lemma PendingUnowned(c: Config, s: State, hold: Id)
    requires LogOk(s) && TasksOk(c, s) && hold in s.db.holds && s.db.holds[hold].status.Pending?
    ensures forall i | i in s.tasks :: s.tasks[i].via != Some(hold)
    ensures hold !in Used(s.db.events)
  {
    hide PcOk, MeterOk, HoldOk;
    if hold in Used(s.db.events) {
      UsedApproved(s.db.events, hold);
      assert false;
    }
  }

  /** Only approved holds are executed. */
  lemma {:induction false} UsedApproved(events: seq<Event>, h: Id)
    requires LegalLog(events) && h in Used(events)
    ensures h in View(events) && View(events)[h].status.Approved?
    decreases |events|
  {
    var n := |events| - 1;
    if h in Used(events[..n]) {
      UsedApproved(events[..n], h);
    }
  }

  lemma TimeoutKeepsLog(c: Config, s: State, tid: nat, hold: Id, pc: Pc)
    requires LogOk(s) && TasksOk(c, s) && tid in s.tasks && TxTimeout(s.db, hold, s.now).Ok?
    ensures LogOk(ApplyTimeout(s, tid, hold, pc))
  {
    hide TxTimeout, ViewOk, TaskOk, Used;
    assert HoldOk(s.db, s.db.holds[hold]);
    TimeoutKeepsView(s.db, hold, s.now);
  }

  lemma TriggerKeepsLog(s: State, tid: nat, hold: Id, id: Id)
    requires LogOk(s) && tid in s.tasks && TxTrigger(s.db, hold, id, s.tasks[tid].action, s.now).Ok?
    ensures LogOk(ApplyTrigger(s, tid, hold, id))
  {
    hide TxTrigger, ViewOk, Used;
    TriggerKeepsView(s.db, hold, id, s.tasks[tid].action, s.now);
  }

  /** An approval is the first moment that a task carries the hold. */
  lemma AnswerKeepsLog(c: Config, s: State, tid: nat, hold: Id, approve: bool)
    requires LogOk(s) && TasksOk(c, s) && tid in s.tasks
    requires TxRespond(s.db, hold, approve, s.tasks[tid].action.actor, s.now).Ok?
    ensures LogOk(ApplyAnswer(s, tid, hold, approve))
  {
    hide TxRespond, ViewOk, TaskOk, Used;
    assert HoldOk(s.db, s.db.holds[hold]);
    PendingUnowned(c, s, hold);
    AnswerKeepsView(s.db, hold, approve, s.tasks[tid].action.actor, s.now);
  }

  lemma CommitKeepsLog(c: Config, s: State, tid: nat)
    requires LogOk(s) && TasksOk(c, s) && tid in s.tasks && s.tasks[tid].pc.Reserved?
    requires var t := s.tasks[tid]; TxFinalize(s.db, t.action, t.pc.cost, t.pc.spec, t.pc.checked, t.via, s.now).Ok?
    ensures LogOk(ApplyCommit(s, tid, s.tasks[tid].pc.checked, s.tasks[tid].pc.spec, s.tasks[tid].pc.cost))
  {
    hide TxFinalize, ViewOk, Used, TasksOk;
    var t := s.tasks[tid];
    if t.via.Some? {
      ReservedVia(c, s, tid);
    }
    CommitKeepsView(s.db, t.action, t.pc.cost, t.pc.spec, t.pc.checked, t.via, s.now);
  }

  /** A re-submission commits what its hold asked for, at the hold's price. */
  lemma ReservedVia(c: Config, s: State, tid: nat)
    requires TasksOk(c, s) && tid in s.tasks && s.tasks[tid].pc.Reserved? && s.tasks[tid].via.Some?
    ensures var t := s.tasks[tid];
            && t.via.value in s.db.holds
            && var h := s.db.holds[t.via.value];
               h.status.Approved? && h.agent == t.action.actor && h.action == t.action && h.reserved == t.pc.cost
  {
    hide SpecOk, CheckedOk, MustHold, MeterOk, QuoteCost;
    var t := s.tasks[tid];
    assert TaskOk(c, s.db, t);
    assert HoldOk(s.db, s.db.holds[t.via.value]);
  }

  /** The effects that neither write an event nor touch a hold or its re-submission. */
  lemma QuietKeepsLog(s: State, e: Effect)
    requires LogOk(s) && Applicable(s, e)
    requires !e.TimeOutHold? && !e.TriggerHold? && !e.AnswerHold? && !e.Commit?
    ensures LogOk(Apply(s, e))
  {
    hide LogOk, Apply;
    EffectFrame(s, e);
    QuietVias(s, e);
    FrameLog(s, Apply(s, e));
  }

  lemma QuietVias(s: State, e: Effect)
    requires Applicable(s, e) && !e.TimeOutHold? && !e.TriggerHold? && !e.AnswerHold? && !e.Commit?
    ensures forall i | i in Apply(s, e).tasks && Apply(s, e).tasks[i].via.Some? ::
              i in s.tasks && Apply(s, e).tasks[i].via == s.tasks[i].via
  {
    hide TxConsume, TxLifecycle, CreditAll, MintAll, Database.Reserve, QuoteCost;
  }

  lemma FailKeepsLog(s: State, tid: nat)
    requires LogOk(s) && tid in s.tasks
    ensures LogOk(Fail(s, tid))
  {
    hide LogOk;
    FrameLog(s, Fail(s, tid));
  }

  /** Every effect of every step keeps the log lawful and the hold table its view. */
  lemma ApplyKeepsLog(c: Config, s: State, e: Effect)
    requires LogOk(s) && TasksOk(c, s) && Applicable(s, e) && EffectOk(c, s, e)
    ensures LogOk(Apply(s, e))
  {
    hide LogOk, TasksOk, TaskOk, TxTrigger, TxRespond, TxTimeout, TxFinalize, Fail;
    if e.TimeOutHold? || e.TriggerHold? || e.AnswerHold? || e.Commit? {
      FailKeepsLog(s, e.tid);
      var t := s.tasks[e.tid];
      if e.TimeOutHold? && TxTimeout(s.db, e.hold, s.now).Ok? {
        TimeoutKeepsLog(c, s, e.tid, e.hold, e.pc);
      } else if e.TriggerHold? && TxTrigger(s.db, e.hold, e.envelope, t.action, s.now).Ok? {
        TriggerKeepsLog(s, e.tid, e.hold, e.envelope);
      } else if e.AnswerHold? && TxRespond(s.db, e.hold, e.approve, t.action.actor, s.now).Ok? {
        AnswerKeepsLog(c, s, e.tid, e.hold, e.approve);
      } else if e.Commit? && TxFinalize(s.db, t.action, e.cost, e.spec, e.checked, t.via, s.now).Ok? {
        CommitKeepsLog(c, s, e.tid);
      }
    } else {
      QuietKeepsLog(s, e);
    }
  }

  // ----- what a lawful log means ---------------------------------------------------------

  predicate Requests(e: Event, h: Id) {
    e.body.HoldRequested? && e.body.hold == h
  }

  predicate Resolves(e: Event, h: Id) {
    (e.body.HoldResponded? || e.body.HoldTimedOut?) && e.body.hold == h
  }

  predicate Executes(e: Event, h: Id) {
    e.body.Acted? && e.body.via == Some(h)
  }

  function Outcome(e: Event): (s: HoldStatus)
    requires e.body.HoldResponded? || e.body.HoldTimedOut?
  {
    if e.body.HoldTimedOut? then TimedOut else Answer(e.body.approved)
  }

  lemma {:induction false} LegalPrefix(events: seq<Event>, j: nat)
    requires LegalLog(events) && j <= |events|
    ensures LegalLog(events[..j])
    ensures j < |events| ==> LegalNext(View(events[..j]), Used(events[..j]), events[j])
    decreases |events|
  {
    if j == |events| {
      assert events[..j] == events;
    } else if j < |events| - 1 {
      var init := events[..|events| - 1];
      assert init[..j] == events[..j];
      LegalPrefix(init, j);
    }
  }

  /** A hold that the log tells of was requested, by its agent, with its quote. */
  lemma {:induction false} RequestFound(events: seq<Event>, h: Id) returns (i: nat)
    requires LegalLog(events) && h in View(events)
    ensures i < |events| && Requests(events[i], h)
    ensures var v := View(events)[h];
            events[i].actor == v.agent && events[i].reserved == v.reserved > 0
            && events[i].body.pending == v.kind && events[i].body.pendingTarget == v.target
    decreases |events|
  {
    var n := |events| - 1;
    if Requests(events[n], h) {
      i := n;
    } else {
      i := RequestFound(events[..n], h);
    }
  }

  /** A hold that is no longer pending was resolved by an event that says so, after its request. */
  lemma {:induction false} ResolutionFound(events: seq<Event>, h: Id) returns (i: nat, k: nat)
    requires LegalLog(events) && h in View(events) && !View(events)[h].status.Pending?
    ensures i < k < |events| && Requests(events[i], h) && Resolves(events[k], h)
    ensures Outcome(events[k]) == View(events)[h].status
    decreases |events|
  {
    var n := |events| - 1;
    if Resolves(events[n], h) {
      k := n;
      i := RequestFound(events[..n], h);
    } else {
      i, k := ResolutionFound(events[..n], h);
    }
  }

  lemma {:induction false} RequestKnown(events: seq<Event>, i: nat, h: Id)
    requires LegalLog(events) && i < |events| && Requests(events[i], h)
    ensures h in View(events)
    decreases |events|
  {
    var n := |events| - 1;
    if i < n {
      RequestKnown(events[..n], i, h);
    }
  }

  lemma {:induction false} ResolutionKnown(events: seq<Event>, k: nat, h: Id)
    requires LegalLog(events) && k < |events| && Resolves(events[k], h)
    ensures h in View(events) && View(events)[h].status == Outcome(events[k])
    decreases |events|
  {
    var n := |events| - 1;
    if k < n {
      ResolutionKnown(events[..n], k, h);
    }
  }

  lemma {:induction false} ExecutionKnown(events: seq<Event>, k: nat, h: Id)
    requires k < |events| && Executes(events[k], h)
    ensures h in Used(events)
    decreases |events|
  {
    var n := |events| - 1;
    if k < n {
      ExecutionKnown(events[..n], k, h);
    }
  }

  /** Pending means exactly: requested and not resolved. */
  lemma PendingMeansUnresolved(events: seq<Event>, h: Id)
    requires LegalLog(events)
    ensures h in View(events) && View(events)[h].status.Pending?
       <==> (exists i | 0 <= i < |events| :: Requests(events[i], h))
            && (forall k | 0 <= k < |events| :: !Resolves(events[k], h))
  {
    if h in View(events) {
      var i := RequestFound(events, h);
      if View(events)[h].status.Pending? {
        forall k | 0 <= k < |events|
          ensures !Resolves(events[k], h)
        {
          if Resolves(events[k], h) {
            ResolutionKnown(events, k, h);
          }
        }
      } else {
        var _, k := ResolutionFound(events, h);
      }
    } else {
      forall i | 0 <= i < |events|
        ensures !Requests(events[i], h)
      {
        if Requests(events[i], h) {
          RequestKnown(events, i, h);
        }
      }
    }
  }

  /** A hold is requested once, resolved at most once, executed at most once. */
  lemma AtMostOnce(events: seq<Event>, h: Id, i: nat, j: nat)
    requires LegalLog(events) && i < j < |events|
    ensures !(Requests(events[i], h) && Requests(events[j], h))
    ensures !(Resolves(events[i], h) && Resolves(events[j], h))
    ensures !(Executes(events[i], h) && Executes(events[j], h))
  {
    var before := events[..j];
    LegalPrefix(events, j);
    assert before[i] == events[i];
    if Requests(events[i], h) {
      RequestKnown(before, i, h);
    }
    if Resolves(events[i], h) {
      ResolutionKnown(before, i, h);
    }
    if Executes(events[i], h) {
      ExecutionKnown(before, i, h);
    }
  }

  /**
   * An action executed through a hold comes after its hold_request and an
   * approving hold_response, by the same agent, for the same action and target,
   * and settles exactly the quote made at trigger time.
   */
  lemma ExecutedAfterApproval(events: seq<Event>, n: nat, h: Id) returns (i: nat, k: nat)
    requires LegalLog(events) && n < |events| && Executes(events[n], h)
    ensures i < k < n && Requests(events[i], h) && Resolves(events[k], h) && Outcome(events[k]) == Approved
    ensures events[i].actor == events[n].actor
    ensures events[i].body.pending == events[n].body.kind && events[i].body.pendingTarget == events[n].target
    ensures events[n].settled == events[i].reserved > 0
  {
    var before := events[..n];
    LegalPrefix(events, n);
    i, k := ResolutionFound(before, h);
    var i' := RequestFound(before, h);
    if i < i' {
      AtMostOnce(before, h, i, i');
    } else if i' < i {
      AtMostOnce(before, h, i', i);
    }
  }
}

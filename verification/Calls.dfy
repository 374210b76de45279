/** How a call of `submit_action` ends that nothing interrupts, and what it leaves behind when it fails. */
module Calls {
  import opened Basics
  import opened Consent
  import opened Database
  import opened Kernel
  import opened Tasks
  import opened Theorems
  import opened Stranding
  import opened Effects

  // ----- what a call expires on its way ------------------------------------------------------

  predicate HoldDue(db: Db, h: Id, now: nat) {
    && h in db.holds && db.holds[h].status.Pending? && db.holds[h].envelope in db.envelopes
    && var timeout := db.envelopes[db.holds[h].envelope].holdTimeoutSecs;
       timeout.Some? && timeout.value > 0 && HasTimedOut(db.holds[h], timeout.value, now)
  }

  predicate EnvelopeDue(db: Db, e: Id, now: nat) {
    e in db.envelopes && db.envelopes[e].status.EnvActive? && IsExpired(db.envelopes[e], now)
  }

  /** No hold and no envelope is waiting to be expired. */
  ghost predicate NothingDue(db: Db, now: nat) {
    (forall h :: !HoldDue(db, h, now)) && (forall e :: !EnvelopeDue(db, e, now))
  }

  /** Between the tables `p` and `q` only holds and envelopes that were due have been expired. */
  ghost predicate Waited(p: Db, q: Db, now: nat) {
    && q.actors == p.actors && q.checkpoints == p.checkpoints
    && q.holds.Keys == p.holds.Keys && q.envelopes.Keys == p.envelopes.Keys
    && (forall h | h in p.holds ::
          q.holds[h] == p.holds[h] || (HoldDue(p, h, now) && q.holds[h] == p.holds[h].(status := TimedOut)))
    && (forall e | e in p.envelopes ::
          || q.envelopes[e] == p.envelopes[e]
          || (EnvelopeDue(p, e, now) && q.envelopes[e] == p.envelopes[e].(status := EnvExpired)))
    && (q.holds == p.holds ==> q.ledger == p.ledger && q.events == p.events && q.rows == p.rows)
  }

  lemma WaitedForNothing(p: Db, q: Db, now: nat)
    requires Waited(p, q, now) && NothingDue(p, now)
    ensures q == p
  {
    assert q.holds == p.holds;
    assert q.envelopes == p.envelopes;
  }

  lemma WaitedLapse(p: Db, q: Db, e: Id, now: nat)
    requires Waited(p, q, now) && EnvelopeDue(q, e, now)
    ensures Waited(p, SetEnvelopeStatus(q, e, EnvExpired), now)
  {
  }

  lemma WaitedTimeout(p: Db, q: Db, h: Id, now: nat)
    requires Waited(p, q, now) && HoldDue(q, h, now) && TxTimeout(q, h, now).Ok?
    ensures Waited(p, TxTimeout(q, h, now).value, now)
  {
    hide AppendEvent, Settle, HasTimedOut;
    var r := TxTimeout(q, h, now).value;
    assert r.holds == q.holds[h := q.holds[h].(status := TimedOut)];
    assert r.holds[h] != p.holds[h];
  }

  // ----- where a call stands -----------------------------------------------------------------

  /** The stranded energy grew by this much for this actor, and for nobody else. */
  ghost predicate Strands(s0: State, s: State, actor: Id, n: nat) {
    forall x :: StrandedBy(s.stranded, x) == StrandedBy(s0.stranded, x) + if x == actor then n else 0
  }

  /** Nothing was receipted or stranded yet. */
  ghost predicate Quiet(s0: State, s: State) {
    s.receipts == s0.receipts && s.now == s0.now && forall x :: StrandedBy(s.stranded, x) == StrandedBy(s0.stranded, x)
  }

  ghost predicate Early(s0: State, s: State) {
    Quiet(s0, s) && Waited(s0.db, s.db, s0.now)
  }

  /** The tables with the quote of the action reserved. */
  function WithQuote(db: Db, a: Action): (r: Db)
    requires a.actor in db.ledger
  {
    var row := db.ledger[a.actor];
    db.(ledger := db.ledger[a.actor := Account(row.balance, row.reserved + QuoteCost(a))])
  }

  /** The call's own writes so far are its reserve, after what was due to expire. */
  ghost predicate HasReserved(s0: State, db: Db, a: Action) {
    exists mid :: Waited(s0.db, mid, s0.now) && a.actor in mid.ledger && db == WithQuote(mid, a)
  }

  /** The call has approved a hold that was open when it began. */
  ghost predicate HasApproved(s0: State, db: Db, a: Action, hold: Id) {
    && ParseHoldResponse(a) == Some((hold, true)) && Open(s0.db, hold)
    && hold in db.holds && db.holds[hold] == s0.db.holds[hold].(status := Approved)
  }

  ghost predicate Receipted(s0: State, s: State) {
    && |s.receipts| == |s0.receipts| + 1 && s.receipts[..|s0.receipts|] == s0.receipts
    && s.now == s0.now && forall x :: StrandedBy(s.stranded, x) == StrandedBy(s0.stranded, x)
  }

  /** The holds that the loop has still to look at are under envelopes with its timeout. */
  predicate TodoDue(db: Db, pc: Pc, now: nat) {
    && pc.Expiring? && pc.asOf == now && pc.timeoutSecs > 0
    && forall h | h in pc.todo ::
         && h in db.holds && db.holds[h].envelope in db.envelopes
         && db.envelopes[db.holds[h].envelope].holdTimeoutSecs == Some(pc.timeoutSecs)
  }

  /** What is true of a call's task at each point of the pipeline. */
  ghost predicate Running(s0: State, s: State, a: Action, t: Task) {
    if t.pc.Committed? || t.pc.Metering? || t.pc.Metered? then t.via.None? && Receipted(s0, s)
    else if t.via.Some? then
      && Quiet(s0, s) && HasApproved(s0, s.db, a, t.via.value)
      && t.action == s0.db.holds[t.via.value].action
    else
      && t.action == a && Quiet(s0, s)
      && match t.pc
         case Reserved(_, spec, cost) => SpecFor(a, spec) && cost == QuoteCost(a) && HasReserved(s0, s.db, a)
         case Specced(_, spec) => SpecFor(a, spec) && Early(s0, s)
         case Expiring(_, _, _, _, _) => Early(s0, s) && TodoDue(s.db, t.pc, s.now)
         case Responding(hold, approve) => Early(s0, s) && ParseHoldResponse(a) == Some((hold, approve))
         case _ => Early(s0, s)
  }

  // ----- how a call ends ----------------------------------------------------------------------

  /** The action was put on hold. */
  ghost predicate HeldBack(s0: State, s: State, a: Action) {
    && Quiet(s0, s)
    && exists mid, hold, envelope :: Waited(s0.db, mid, s0.now) && TxTrigger(mid, hold, envelope, a, s0.now) == Ok(s.db)
  }

  /** The commit was refused: the quote stays reserved. */
  ghost predicate RefusedLate(s0: State, s: State, a: Action) {
    && s.receipts == s0.receipts && HasReserved(s0, s.db, a) && Strands(s0, s, a.actor, QuoteCost(a))
    && ((a.kind.Execute? && !a.payload.executeOk) || exists spec :: SpecFor(a, spec) && Clashes(s.db, spec))
  }

  /** A hold was approved and its re-submission refused: the hold's reservation stays reserved. */
  ghost predicate RefusedAgain(s0: State, s: State, a: Action) {
    && s.receipts == s0.receipts
    && exists hold ::
         HasApproved(s0, s.db, a, hold)
         && Strands(s0, s, s0.db.holds[hold].agent, s0.db.holds[hold].reserved)
  }

  /**
   * The ways in which a call ends: with a receipt; refused before it wrote anything
   * of its own; held back; refused at its commit; or refused on the re-submission of
   * an approved hold. Only the last two strand.
   */
  ghost predicate Ended(s0: State, s: State, a: Action) {
    || Receipted(s0, s) || Early(s0, s) || HeldBack(s0, s, a) || RefusedLate(s0, s, a) || RefusedAgain(s0, s, a)
  }

  ghost predicate CallOk(s0: State, s: State, a: Action, tid: nat) {
    if tid in s.tasks then Running(s0, s, a, s.tasks[tid]) else Ended(s0, s, a)
  }

  // ----- what a task's step decides on ---------------------------------------------------------

  /** From which point of the pipeline a move leads to which. */
  ghost predicate MoveFits(s: State, t: Task, pc: Pc) {
    match pc
    case Expiring(_, todo, _, _, _) =>
      || (t.pc.Expiring? && t.pc.todo != [] && pc == t.pc.(todo := t.pc.todo[1..]))
      || ((t.pc.Entered? || t.pc.Lapsed? || t.pc.Cleared?) && TodoDue(s.db, pc, s.now))
    case Cleared(_) => t.pc.Entered? || t.pc.Lapsed? || t.pc.Expiring?
    case Responding(hold, approve) => t.pc.Cleared? && ParseHoldResponse(t.action) == Some((hold, approve))
    case Specced(_, spec) => t.pc.Cleared? && SpecFor(t.action, spec)
    case Metering(_, _) => t.pc.Committed?
    case Metered(_) => t.pc.Committed?
    case _ => false
  }

  ghost predicate Fits(s: State, tid: nat, e: Effect)
    requires tid in s.tasks
  {
    var t := s.tasks[tid];
    match e
    case Stay => true
    case FailTask(i) => i == tid
    case Move(i, pc) => i == tid && MoveFits(s, t, pc)
    case LapseEnvelope(i, id) => i == tid && t.pc.Entered? && EnvelopeDue(s.db, id, s.now)
    case TimeOutHold(i, hold, pc) =>
      && i == tid && t.pc.Expiring? && t.pc.todo != [] && hold == t.pc.todo[0] && pc == t.pc.(todo := t.pc.todo[1..])
      && (hold in s.db.holds ==> HasTimedOut(s.db.holds[hold], t.pc.timeoutSecs, t.pc.asOf))
    case TriggerHold(i, _, _) => i == tid && t.pc.Cleared? && t.via.None?
    case AnswerHold(i, hold, approve) => i == tid && t.pc == Responding(hold, approve)
    case ReserveFor(i, checked, spec) => i == tid && t.pc == Specced(checked, spec)
    case Commit(i, checked, spec, cost) => i == tid && t.pc == Reserved(checked, spec, cost)
    case ConsumeBudget(i, spec, charge) => i == tid && t.pc == Metering(spec, charge)
    case ManageActor(i, _, _) => i == tid && t.pc.Metered?
    case Finish(i) => i == tid && t.pc.Metered?
    case _ => false
  }

  lemma AuthorizeFits(c: Config, s: State, tid: nat, envelope: Option<Id>, pending: seq<Id>)
    requires tid in s.tasks
    ensures Fits(s, tid, DecideAuthorize(c, s, tid, envelope, pending))
  {
    hide WithinBoundary, ValidAction, LineageActive, DecideMode, IsExpired;
    var a := s.tasks[tid].action;
    if a.actor in s.db.actors {
      if s.tasks[tid].pc.Lapsed? {
        ModeFits(c, s, tid, None, []);
      } else if s.tasks[tid].pc.Entered? && (envelope.Some? ==> envelope.value in s.db.envelopes) {
        ModeFits(c, s, tid, envelope, pending);
      }
    }
  }

  lemma ModeFits(c: Config, s: State, tid: nat, envelope: Option<Id>, pending: seq<Id>)
    requires tid in s.tasks && s.tasks[tid].action.actor in s.db.actors
    requires s.tasks[tid].pc.Entered? || s.tasks[tid].pc.Lapsed?
    requires envelope.Some? ==> envelope.value in s.db.envelopes
    ensures Fits(s, tid, DecideMode(c, s, tid, envelope, pending))
  {
    hide EnvelopeCovers;
  }

  lemma ReadHoldFits(c: Config, s: State, tid: nat, pending: seq<Id>)
    requires tid in s.tasks
    ensures Fits(s, tid, DecideReadHold(c, s, tid, pending))
  {
    hide MustHold, HasTimedOut, ParseHoldResponse;
  }

  lemma ParseFits(c: Config, s: State, tid: nat, newId: Id, grant: Option<Id>)
    requires tid in s.tasks
    ensures Fits(s, tid, DecideParse(c, s, tid, newId, grant))
  {
    hide MustHold, ParseHoldResponse, ParseSpec, SpecFor;
    var a := s.tasks[tid].action;
    if grant.Some? ==> grant.value in s.db.envelopes {
      ParsedFor(c, s.db, a, newId, grant);
    }
  }

  lemma ParsedFor(c: Config, db: Db, a: Action, newId: Id, grant: Option<Id>)
    requires grant.Some? ==> grant.value in db.envelopes
    ensures ParseSpec(c, db, a, newId, grant).Ok? ==> SpecFor(a, ParseSpec(c, db, a, newId, grant).value)
  {
    hide ParseSpec, SpecFor;
    ParseSpecOk(c, db, a, newId, grant);
  }

  lemma DecideFits(c: Config, s: State, l: Label)
    requires OfTask(l) && l.tid in s.tasks
    ensures Fits(s, l.tid, Decide(c, s, l))
  {
    hide DecideAuthorize, DecideReadHold, DecideParse, Fits;
    match l
    case Authorize(tid, envelope, pending) => AuthorizeFits(c, s, tid, envelope, pending);
    case ReadHold(tid, pending) => ReadHoldFits(c, s, tid, pending);
    case Parse(tid, newId, grant) => ParseFits(c, s, tid, newId, grant);
    case _ => OthersFit(c, s, l);
  }

  lemma OthersFit(c: Config, s: State, l: Label)
    requires OfTask(l) && l.tid in s.tasks && !l.Authorize? && !l.ReadHold? && !l.Parse?
    ensures Fits(s, l.tid, DecideTask(c, s, l))
  {
    hide HoldTriggered, HasTimedOut, IsActiveEnvelope, CheckCheckpoint;
  }

  // ----- one step of the call --------------------------------------------------------------------

  lemma QuietLedger(s: State, s0: State, tid: nat)
    requires tid in s.tasks && Quiet(s0, s)
    ensures Strands(s0, Fail(s, tid), s.tasks[tid].action.actor, s.tasks[tid].Claim())
    ensures s.tasks[tid].Claim() == 0 ==> Quiet(s0, Fail(s, tid))
  {
  }

  /** A refused step ends the call as its point in the pipeline says. */
  lemma StepRefused(c: Config, s0: State, s: State, a: Action, l: Label)
    requires Reachable(c, s0) && Reachable(c, s) && OfTask(l) && !l.Abort? && l.tid in s.tasks
    requires Running(s0, s, a, s.tasks[l.tid]) && Refuses(c, s, l)
    ensures Ended(s0, Fail(s, l.tid), a)
  {
    hide Run, Reachable, Waited, Clashes, QuoteCost, HasApproved, AuthorizeRefuses, ExpireRefuses, Held,
         CannotReserve, AnswerRefused, SpecRefused, Quiet, Strands, HasReserved, SpecFor, Early, Receipted, TodoDue;
    var t := s.tasks[l.tid];
    PastCommit(c, s, l);
    QuietLedger(s, s0, l.tid);
    if t.via.Some? {
      RefusedRedo(c, s0, s, a, l.tid);
    } else if t.pc.Reserved? {
      assert RefusedLate(s0, Fail(s, l.tid), a) by {
        LateRefusal(s0, s, a, l.tid, c, l);
      }
    } else {
      assert Early(s0, Fail(s, l.tid)) by {
        EarlyFail(s0, s, l.tid);
      }
    }
  }

  lemma PastCommit(c: Config, s: State, l: Label)
    requires OfTask(l) && !l.Abort? && l.tid in s.tasks && Refuses(c, s, l)
    ensures !s.tasks[l.tid].pc.Committed? && !s.tasks[l.tid].pc.Metering? && !s.tasks[l.tid].pc.Metered?
    ensures s.tasks[l.tid].pc.Reserved? ==>
              var t := s.tasks[l.tid];
              (t.action.kind.Execute? && !t.action.payload.executeOk) || Clashes(s.db, t.pc.spec)
  {
    hide Held, CannotReserve, AnswerRefused, SpecRefused, Clashes;
  }

  lemma EarlyFail(s0: State, s: State, tid: nat)
    requires tid in s.tasks && Early(s0, s) && s.tasks[tid].Claim() == 0
    ensures Early(s0, Fail(s, tid))
  {
    hide Waited;
    QuietLedger(s, s0, tid);
  }

  lemma LateRefusal(s0: State, s: State, a: Action, tid: nat, c: Config, l: Label)
    requires tid in s.tasks && s.tasks[tid].pc.Reserved? && s.tasks[tid].via.None? && Running(s0, s, a, s.tasks[tid])
    requires OfTask(l) && !l.Abort? && l.tid == tid && Refuses(c, s, l)
    ensures RefusedLate(s0, Fail(s, tid), a)
  {
    hide Waited, Clashes, QuoteCost, SpecFor, Refuses;
    PastCommit(c, s, l);
    QuietLedger(s, s0, tid);
    var spec := s.tasks[tid].pc.spec;
    assert SpecFor(a, spec);
  }

  lemma RefusedRedo(c: Config, s0: State, s: State, a: Action, tid: nat)
    requires Reachable(c, s0) && tid in s.tasks && s.tasks[tid].via.Some?
    requires Reachable(c, s) && Running(s0, s, a, s.tasks[tid])
    requires !s.tasks[tid].pc.Committed? && !s.tasks[tid].pc.Metering? && !s.tasks[tid].pc.Metered?
    ensures RefusedAgain(s0, Fail(s, tid), a)
  {
    hide Run, Reachable, ParseHoldResponse;
    var hold := s.tasks[tid].via.value;
    QuietLedger(s, s0, tid);
    ClaimsExactly(c, s, tid);
    HoldFacts(c, s0, hold);
    assert HasApproved(s0, Fail(s, tid).db, a, hold);
  }

  /** A move keeps the call where its new point says. */
  lemma StepMoves(s0: State, s: State, a: Action, tid: nat, pc: Pc)
    requires tid in s.tasks && Running(s0, s, a, s.tasks[tid]) && MoveFits(s, s.tasks[tid], pc)
    ensures Running(s0, Goto(s, tid, pc), a, s.tasks[tid].At(pc))
  {
    hide Waited, HasReserved, QuoteCost, ParseHoldResponse;
  }

  lemma StepLapses(s0: State, s: State, a: Action, tid: nat, id: Id)
    requires tid in s.tasks && Running(s0, s, a, s.tasks[tid]) && s.tasks[tid].pc.Entered?
             && EnvelopeDue(s.db, id, s.now)
    ensures Running(s0, Goto(s.(db := SetEnvelopeStatus(s.db, id, EnvExpired)), tid, Lapsed),
                    a, s.tasks[tid].At(Lapsed))
  {
    hide Waited, QuoteCost, ParseHoldResponse, SetEnvelopeStatus, EnvelopeDue;
    if s.tasks[tid].via.None? {
      WaitedLapse(s0.db, s.db, id, s.now);
    } else {
      LapseKeepsHolds(s.db, id, s.now);
    }
  }

  lemma LapseKeepsHolds(db: Db, id: Id, now: nat)
    requires EnvelopeDue(db, id, now)
    ensures SetEnvelopeStatus(db, id, EnvExpired).holds == db.holds
  {
  }

  lemma StepTimesOut(s0: State, s: State, a: Action, tid: nat, hold: Id)
    requires tid in s.tasks && Running(s0, s, a, s.tasks[tid]) && s.tasks[tid].pc.Expiring?
    requires s.tasks[tid].pc.todo != [] && hold == s.tasks[tid].pc.todo[0] && TxTimeout(s.db, hold, s.now).Ok?
    requires HasTimedOut(s.db.holds[hold], s.tasks[tid].pc.timeoutSecs, s.tasks[tid].pc.asOf)
    ensures var pc := s.tasks[tid].pc.(todo := s.tasks[tid].pc.todo[1..]);
            Running(s0, Goto(s.(db := TxTimeout(s.db, hold, s.now).value), tid, pc), a, s.tasks[tid].At(pc))
  {
    hide Waited, QuoteCost, ParseHoldResponse, TxTimeout, HasTimedOut;
    var t, q := s.tasks[tid], TxTimeout(s.db, hold, s.now).value;
    TimeoutFrame(s.db, hold, s.now);
    if t.via.None? {
      assert hold in t.pc.todo;
      assert HoldDue(s.db, hold, s.now);
      WaitedTimeout(s0.db, s.db, hold, s.now);
      forall h | h in t.pc.todo[1..]
        ensures h in t.pc.todo
      {
      }
    }
  }

  lemma TimeoutFrame(db: Db, hold: Id, now: nat)
    requires TxTimeout(db, hold, now).Ok?
    ensures var q := TxTimeout(db, hold, now).value;
            && hold in db.holds && db.holds[hold].status.Pending?
            && q.holds == db.holds[hold := db.holds[hold].(status := TimedOut)] && q.envelopes == db.envelopes
  {
    hide AppendEvent, Settle, CommitmentCost;
  }

  lemma StepTriggers(s0: State, s: State, a: Action, tid: nat, hold: Id, envelope: Id)
    requires tid in s.tasks && Running(s0, s, a, s.tasks[tid]) && s.tasks[tid].pc.Cleared? && s.tasks[tid].via.None?
    requires TxTrigger(s.db, hold, envelope, s.tasks[tid].action, s.now).Ok?
    ensures HeldBack(s0, ApplyTrigger(s, tid, hold, envelope), a)
  {
    hide Waited, QuoteCost, ParseHoldResponse, TxTrigger;
  }

  lemma StepAnswers(s0: State, s: State, a: Action, tid: nat, hold: Id, approve: bool)
    requires tid in s.tasks && Running(s0, s, a, s.tasks[tid]) && s.tasks[tid].pc == Responding(hold, approve)
    requires s.tasks[tid].via.None? && TxRespond(s.db, hold, approve, s.tasks[tid].action.actor, s.now).Ok?
    ensures CallOk(s0, ApplyAnswer(s, tid, hold, approve), a, tid)
  {
    hide QuoteCost, ParseHoldResponse, TxRespond;
    AnswerFrame(s.db, hold, approve, s.tasks[tid].action.actor, s.now);
  }

  lemma AnswerFrame(db: Db, hold: Id, approve: bool, human: Id, now: nat)
    requires TxRespond(db, hold, approve, human, now).Ok?
    ensures var q := TxRespond(db, hold, approve, human, now).value;
            && hold in db.holds && db.holds[hold].status.Pending?
            && q.holds == db.holds[hold := db.holds[hold].(status := if approve then Approved else Rejected)]
  {
    hide AppendEvent, Settle, CommitmentCost;
  }

  lemma StepReserves(s0: State, s: State, a: Action, tid: nat, checked: Option<Id>, spec: Spec)
    requires tid in s.tasks && Running(s0, s, a, s.tasks[tid]) && s.tasks[tid].pc == Specced(checked, spec)
    requires s.tasks[tid].via.None? ==>
               Database.Reserve(s.db.ledger, s.tasks[tid].action.actor, QuoteCost(s.tasks[tid].action)).Ok?
    ensures CallOk(s0, ApplyReserve(s, tid, checked, spec), a, tid)
  {
    hide Waited, QuoteCost, ParseHoldResponse, SpecFor;
    if s.tasks[tid].via.None? {
      var s' := ApplyReserve(s, tid, checked, spec);
      var row := s.db.ledger[a.actor];
      assert row.(reserved := row.reserved + QuoteCost(a)) == Account(row.balance, row.reserved + QuoteCost(a));
      assert s'.db == WithQuote(s.db, a);
    }
  }

  lemma StepCommits(s0: State, s: State, a: Action, tid: nat, checked: Option<Id>, spec: Spec, cost: nat)
    requires tid in s.tasks && Running(s0, s, a, s.tasks[tid]) && s.tasks[tid].pc == Reserved(checked, spec, cost)
    requires TxFinalize(s.db, s.tasks[tid].action, cost, spec, checked, s.tasks[tid].via, s.now).Ok?
    ensures CallOk(s0, ApplyCommit(s, tid, checked, spec, cost), a, tid)
  {
    hide QuoteCost, ParseHoldResponse, TxFinalize, HasReserved, HasApproved, SpecFor;
  }

  lemma StepAfterCommit(s0: State, s: State, a: Action, tid: nat, e: Effect)
    requires tid in s.tasks && Running(s0, s, a, s.tasks[tid]) && Applicable(s, e)
    requires (e.ConsumeBudget? && e.tid == tid && s.tasks[tid].pc == Metering(e.spec, e.charge))
          || ((e.ManageActor? || e.Finish?) && e.tid == tid && s.tasks[tid].pc.Metered?)
    ensures CallOk(s0, Apply(s, e), a, tid)
  {
    hide TxConsume, TxLifecycle, Ended, HasReserved, HasApproved, Early;
    var s' := Apply(s, e);
    assert Receipted(s0, s');
    if tid !in s'.tasks {
      EndsReceipted(s0, s', a);
    }
  }

  lemma EndsReceipted(s0: State, s: State, a: Action)
    requires Receipted(s0, s)
    ensures Ended(s0, s, a)
  {
  }

  /** Every step of the call that is not refused keeps it where the pipeline says. */
  lemma StepGoesOn(s0: State, s: State, a: Action, tid: nat, e: Effect)
    requires tid in s.tasks && Running(s0, s, a, s.tasks[tid]) && Applicable(s, e) && Fits(s, tid, e) && !Errs(s, e)
    requires e.AnswerHold? ==> s.tasks[tid].via.None?
    ensures CallOk(s0, Apply(s, e), a, tid)
  {
    hide Running, TxTrigger, TxRespond, TxTimeout, TxFinalize, Ended, MoveFits, QuoteCost, HasTimedOut, EnvelopeDue,
         SetEnvelopeStatus, Database.Reserve;
    match e
    case Stay =>
    case Move(_, pc) => StepMoves(s0, s, a, tid, pc);
    case LapseEnvelope(_, id) => StepLapses(s0, s, a, tid, id);
    case TimeOutHold(_, hold, pc) =>
      TimeoutFrame(s.db, hold, s.now);
      StepTimesOut(s0, s, a, tid, hold);
    case TriggerHold(_, hold, id) =>
      StepTriggers(s0, s, a, tid, hold, id);
      EndsHeld(s0, Apply(s, e), a);
    case AnswerHold(_, hold, approve) => StepAnswers(s0, s, a, tid, hold, approve);
    case ReserveFor(_, checked, spec) => StepReserves(s0, s, a, tid, checked, spec);
    case Commit(_, checked, spec, cost) => StepCommits(s0, s, a, tid, checked, spec, cost);
    case _ => StepAfterCommit(s0, s, a, tid, e);
  }

  lemma EndsHeld(s0: State, s: State, a: Action)
    requires HeldBack(s0, s, a)
    ensures Ended(s0, s, a)
  {
  }

  /** Every step of the call, and every step it is offered after its end, keeps the account of it. */
  lemma CallStep(c: Config, s0: State, s: State, a: Action, tid: nat, l: Label)
    requires Reachable(c, s0) && Reachable(c, s) && CallOk(s0, s, a, tid)
    requires OfTask(l) && !l.Abort? && l.tid == tid
    ensures CallOk(s0, Step(c, s, l), a, tid)
  {
    hide Run, Reachable, Running, Ended, Decide, Apply, Errs, Refuses, Fits;
    if tid in s.tasks {
      var e := Decide(c, s, l);
      FailsExactly(c, s, l);
      ErrorStrands(s, e, a.actor);
      OwnEffect(c, s, l);
      if Errs(s, e) {
        StepRefused(c, s0, s, a, l);
      } else {
        DecideFits(c, s, l);
        AnswersOnlyOnce(c, s, l);
        StepGoesOn(s0, s, a, tid, e);
      }
    } else {
      NoTaskNoStep(c, s, l);
    }
  }

  lemma NoTaskNoStep(c: Config, s: State, l: Label)
    requires OfTask(l) && l.tid !in s.tasks
    ensures Step(c, s, l) == s
  {
  }

  lemma AnswersOnlyOnce(c: Config, s: State, l: Label)
    requires Reachable(c, s) && OfTask(l) && l.tid in s.tasks
    ensures Decide(c, s, l).AnswerHold? ==> s.tasks[l.tid].via.None?
  {
    hide Run, Reachable, Decide, Fits;
    DecideFits(c, s, l);
    if Decide(c, s, l).AnswerHold? {
      AnswerFits(s, l.tid, Decide(c, s, l));
      RespondsAtTop(c, s, l.tid);
    }
  }

  lemma AnswerFits(s: State, tid: nat, e: Effect)
    requires tid in s.tasks && Fits(s, tid, e) && e.AnswerHold?
    ensures s.tasks[tid].pc.Responding?
  {
  }

  lemma RespondsAtTop(c: Config, s: State, tid: nat)
    requires Reachable(c, s) && tid in s.tasks && s.tasks[tid].pc.Responding?
    ensures s.tasks[tid].via.None?
  {
    hide Run, Inv, TasksOk, SpecOk, MeterOk, ViaOk;
    ReachableInv(c, s);
    InvTasks(c, s);
    TaskHolds(c, s, tid);
  }

  lemma InvTasks(c: Config, s: State)
    requires Inv(c, s)
    ensures TasksOk(c, s)
  {
    hide TasksOk;
  }

  lemma TaskHolds(c: Config, s: State, tid: nat)
    requires TasksOk(c, s) && tid in s.tasks
    ensures TaskOk(c, s.db, s.tasks[tid])
  {
    hide TaskOk;
  }

  // ----- the whole call --------------------------------------------------------------------------

  lemma {:induction false} CallRuns(c: Config, s0: State, a: Action, tid: nat, schedule: seq<Label>)
    requires Reachable(c, s0) && tid !in s0.tasks
    requires forall i | 0 <= i < |schedule| :: OfTask(schedule[i]) && !schedule[i].Abort? && schedule[i].tid == tid
    ensures CallOk(s0, Run(c, Step(c, s0, Submit(tid, a)), schedule), a, tid)
    decreases |schedule|
  {
    hide Step, CallOk, Reachable;
    var s1 := Step(c, s0, Submit(tid, a));
    if schedule == [] {
      CallBegins(c, s0, a, tid);
    } else {
      var n := |schedule| - 1;
      CallRuns(c, s0, a, tid, schedule[..n]);
      BegunReachable(c, s0, a, tid, schedule[..n]);
      CallStep(c, s0, Run(c, s1, schedule[..n]), a, tid, schedule[n]);
    }
  }

  lemma CallBegins(c: Config, s0: State, a: Action, tid: nat)
    requires tid !in s0.tasks
    ensures CallOk(s0, Step(c, s0, Submit(tid, a)), a, tid)
  {
  }

  lemma BegunReachable(c: Config, s0: State, a: Action, tid: nat, schedule: seq<Label>)
    requires Reachable(c, s0)
    ensures Reachable(c, Run(c, Step(c, s0, Submit(tid, a)), schedule))
  {
    hide Step, Reachable;
    var first := [Submit(tid, a)];
    assert first[..0] == [];
    assert Run(c, s0, first) == Step(c, s0, Submit(tid, a));
    LaterReachable(c, s0, first);
    LaterReachable(c, Run(c, s0, first), schedule);
  }

  /**
   * How a call ends that nothing interrupts, whatever other submissions are in
   * flight: with a receipt and nothing stranded; refused with nothing of its own
   * written; held back; refused at its commit with its quote stranded; or refused on
   * the re-submission of a hold that it approved, with that hold's reservation stranded.
   */
  lemma CallEnds(c: Config, s0: State, a: Action, tid: nat, schedule: seq<Label>)
    requires Reachable(c, s0) && tid !in s0.tasks
    requires forall i | 0 <= i < |schedule| :: OfTask(schedule[i]) && !schedule[i].Abort? && schedule[i].tid == tid
    requires tid !in Run(c, Step(c, s0, Submit(tid, a)), schedule).tasks
    ensures Ended(s0, Run(c, Step(c, s0, Submit(tid, a)), schedule), a)
  {
    hide Run, Step, Running, Ended, Reachable;
    CallRuns(c, s0, a, tid, schedule);
  }

  /** Somebody has more energy stranded than before. */
  ghost predicate Stranded(s0: State, s: State) {
    exists x :: StrandedBy(s.stranded, x) != StrandedBy(s0.stranded, x)
  }

  /** A call that has ended strands energy exactly if it was refused at its commit or on a re-submission. */
  lemma EndedStrands(c: Config, s0: State, s: State, a: Action)
    requires Reachable(c, s0) && Ended(s0, s, a)
    ensures Stranded(s0, s) <==> RefusedLate(s0, s, a) || RefusedAgain(s0, s, a)
  {
    hide Run, Reachable, Waited, HasReserved, Clashes, SpecFor, TxTrigger, QuoteCost;
    if RefusedLate(s0, s, a) {
      QuoteIsPositive(a);
      assert StrandedBy(s.stranded, a.actor) != StrandedBy(s0.stranded, a.actor);
    }
    if RefusedAgain(s0, s, a) {
      var hold :| HasApproved(s0, s.db, a, hold)
        && Strands(s0, s, s0.db.holds[hold].agent, s0.db.holds[hold].reserved);
      HoldFacts(c, s0, hold);
      var agent := s0.db.holds[hold].agent;
      assert StrandedBy(s.stranded, agent) != StrandedBy(s0.stranded, agent);
    }
  }

  /** A call without receipt that neither strands nor holds back changes only what was due to expire. */
  lemma EndedUntouched(s0: State, s: State, a: Action)
    requires Ended(s0, s, a) && s.receipts == s0.receipts
    requires !RefusedLate(s0, s, a) && !RefusedAgain(s0, s, a) && !HeldBack(s0, s, a)
    ensures Waited(s0.db, s.db, s0.now)
    ensures NothingDue(s0.db, s0.now) ==> s.db == s0.db
  {
    hide Waited, NothingDue, RefusedLate, RefusedAgain, HeldBack;
    if NothingDue(s0.db, s0.now) {
      WaitedForNothing(s0.db, s.db, s0.now);
    }
  }

  /** The same for a call whose steps end a history. */
  lemma HistoryEnds(c: Config, earlier: seq<Label>, a: Action, tid: nat, rest: seq<Label>)
    requires tid !in Run(c, Init(), earlier).tasks && tid !in Run(c, Init(), earlier + [Submit(tid, a)] + rest).tasks
    requires forall i | 0 <= i < |rest| :: OfTask(rest[i]) && !rest[i].Abort? && rest[i].tid == tid
    ensures Reachable(c, Run(c, Init(), earlier))
    ensures Ended(Run(c, Init(), earlier), Run(c, Init(), earlier + [Submit(tid, a)] + rest), a)
  {
    hide Run, Step, Ended;
    RunAppend(c, Init(), earlier + [Submit(tid, a)], rest);
    SubmitStep(c, earlier, Submit(tid, a));
    CallEnds(c, Run(c, Init(), earlier), a, tid, rest);
  }

  lemma SubmitStep(c: Config, earlier: seq<Label>, l: Label)
    ensures Run(c, Init(), earlier + [l]) == Step(c, Run(c, Init(), earlier), l)
  {
    hide Step;
    assert (earlier + [l])[..|earlier|] == earlier;
  }
}

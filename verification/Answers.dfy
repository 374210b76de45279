/** When a human's answer to a hold is in time, and what becomes of one that is not. */
module Answers {
  import opened Basics
  import opened Consent
  import opened Database
  import opened Kernel
  import opened Stability
  import opened Tasks
  import opened Expiry
  import opened Theorems
  import opened Stranding
  import opened Reference

  /** The action is this answer to this hold. */
  predicate AnswersHold(a: Action, hold: Id, approve: bool) {
    && a.kind == Mutate && a.target == "ledger/hold/" + hold && hold != "" && '/' !in hold
    && a.payload.decision == Some(if approve then "approve" else "reject")
  }

  lemma AnswerParses(a: Action, hold: Id, approve: bool)
    ensures AnswersHold(a, hold, approve) <==> ParseHoldResponse(a) == Some((hold, approve))
  {
    hide ParseHoldResponse;
    HoldAnswerParses(a, hold, approve);
  }

  /** The hold's envelope sets a positive timeout, and more than so many seconds have passed since the trigger. */
  predicate TooLate(db: Db, hold: Id, now: nat) {
    && hold in db.holds && db.holds[hold].envelope in db.envelopes
    && match db.envelopes[db.holds[hold].envelope].holdTimeoutSecs
       case None => false
       case Some(n) => n > 0 && now - db.holds[hold].triggeredAt > n * 1000
  }

  /**
   * What becomes of a human's answer to an open hold: in time it goes on to its
   * transaction; too late, every hold of the envelope that is overdue is timed out
   * instead, and then the call fails.
   */
  lemma AnswerInTimeOrNever(c: Config, s: State, tid: nat, pending: seq<Id>, hold: Id, approve: bool)
    requires Reachable(c, s) && tid in s.tasks && s.tasks[tid].pc.Cleared?
    requires AnswersHold(s.tasks[tid].action, hold, approve) && Is(s.db, s.tasks[tid].action.actor, Human)
    requires Open(s.db, hold) && IsPendingList(s.db.holds, s.db.holds[hold].envelope, pending)
    ensures var s', h := Step(c, s, ReadHold(tid, pending)), s.db.holds[hold];
            && h.envelope in s.db.envelopes
            && if TooLate(s.db, hold, s.now) then
                 var n := s.db.envelopes[h.envelope].holdTimeoutSecs.value;
                 s' == s.(tasks := s.tasks[tid := s.tasks[tid].At(Expiring(None, pending, s.now, n, true))])
               else s' == s.(tasks := s.tasks[tid := s.tasks[tid].At(Responding(hold, approve))])
  {
    hide Run, TasksOk, ParseHoldResponse, IsPendingList, MustHold;
    var t := s.tasks[tid];
    HumanCleared(c, s, tid, hold);
    AnswerParses(t.action, hold, approve);
  }

  lemma HumanCleared(c: Config, s: State, tid: nat, hold: Id)
    requires Reachable(c, s) && tid in s.tasks && s.tasks[tid].pc.Cleared? && hold in s.db.holds
    requires Is(s.db, s.tasks[tid].action.actor, Human)
    ensures s.tasks[tid].pc == Cleared(None) && s.db.holds[hold].envelope in s.db.envelopes
    ensures !MustHold(c, s.db, s.tasks[tid], None)
  {
    hide Reachable;
    ReachableTasks(c, s);
    assert TaskOk(c, s.db, s.tasks[tid]);
    assert HoldOk(s.db, s.db.holds[hold]);
  }

  /** Whatever else runs: no task gets to answer a hold unless it is open, and in time, and a human asked it to. */
  lemma NoLateAnswer(c: Config, s: State, l: Label, hold: Id, approve: bool)
    requires Reachable(c, s) && OfTask(l) && l.tid in s.tasks && s.tasks[l.tid].pc.Cleared?
    requires var s' := Step(c, s, l); l.tid in s'.tasks && s'.tasks[l.tid].pc == Responding(hold, approve)
    ensures Open(s.db, hold) && !TooLate(s.db, hold, s.now)
    ensures AnswersHold(s.tasks[l.tid].action, hold, approve) && Is(s.db, s.tasks[l.tid].action.actor, Human)
  {
    hide Reachable, ParseHoldResponse, AnswersHold, IsPendingList, MustHold, Step;
    OnlyReadHoldLeads(c, s, l, hold, approve);
    AnswerParses(s.tasks[l.tid].action, hold, approve);
  }

  lemma OnlyReadHoldLeads(c: Config, s: State, l: Label, hold: Id, approve: bool)
    requires OfTask(l) && l.tid in s.tasks && s.tasks[l.tid].pc.Cleared?
    requires var s' := Step(c, s, l); l.tid in s'.tasks && s'.tasks[l.tid].pc == Responding(hold, approve)
    ensures l.ReadHold? && DecideReadHold(c, s, l.tid, l.pending) == Move(l.tid, Responding(hold, approve))
  {
    hide MustHold, ParseSpec, IsActiveEnvelope, TxTrigger, DecideReadHold;
    if l.ReadHold? {
      hide Apply;
      ReadHoldMoves(c, s, l.tid, l.pending);
      MoveOnly(s, l.tid, DecideReadHold(c, s, l.tid, l.pending));
    }
  }

  lemma ReadHoldMoves(c: Config, s: State, tid: nat, pending: seq<Id>)
    requires tid in s.tasks
    ensures var e := DecideReadHold(c, s, tid, pending); e.Stay? || e == FailTask(tid) || (e.Move? && e.tid == tid)
  {
    hide MustHold, IsPendingList, ParseHoldResponse, HasTimedOut;
  }

  lemma MoveOnly(s: State, tid: nat, e: Effect)
    requires tid in s.tasks && (e.Stay? || e == FailTask(tid) || (e.Move? && e.tid == tid))
    ensures var s' := Apply(s, e);
            tid in s'.tasks ==> s'.tasks[tid].pc == if e.Move? then e.pc else s.tasks[tid].pc
  {
  }

  // ----- a whole call ----------------------------------------------------------------------

  /** A human that may answer holds: an active one that may write everywhere. */
  ghost predicate MayAnswer(db: Db, actor: Id) {
    && Named(actor) && Is(db, actor, Human) && db.actors[actor].status == Active
    && exists w | w in db.actors[actor].writable :: w.target == "**"
  }

  /** Such a human's answer passes everything before the hold check. */
  lemma AnswerAdmitted(c: Config, db: Db, a: Action)
    requires MayAnswer(db, a.actor) && ParseHoldResponse(a).Some?
    ensures Admitted(c, db, a)
  {
    BlankDecides(a.actor);
    BlankDecides(a.target);
    assert a.target[0] == HOLD_PREFIX[0] == 'l';
    assert "ledger/" <= a.target;
  }

  /** What the answer makes of the hold. */
  function Resolved(db: Db, hold: Id, approve: bool, now: nat): (status: HoldStatus) {
    if TooLate(db, hold, now) then TimedOut else if approve then Approved else Rejected
  }

  /** The call has answered the open hold if it was in time, and timed it out otherwise. */
  predicate Settles(p: Db, now: nat, q: Db, hold: Id, approve: bool, ok: bool) {
    && hold in q.holds && q.holds[hold].status == Resolved(p, hold, approve, now)
    && (TooLate(p, hold, now) ==> !ok)
    && (!TooLate(p, hold, now) && !approve ==> ok)
  }

  /**
   * Between the tables `p` and `q` a call has done with the action, if that is an
   * answer to an open hold by a human who may give it, what the rules say.
   */
  ghost predicate AnsweredRight(p: Db, now: nat, q: Db, a: Action, ok: bool) {
    forall hold, approve | AnswersHold(a, hold, approve) && MayAnswer(p, a.actor) && Open(p, hold) ::
      Settles(p, now, q, hold, approve, ok)
  }

  lemma CallAnswers(p: Db, now: nat, q: Db, a: Action, ok: bool)
    requires MayAnswer(p, a.actor) && ParseHoldResponse(a).Some? && Open(p, ParseHoldResponse(a).value.0) ==>
               Settles(p, now, q, ParseHoldResponse(a).value.0, ParseHoldResponse(a).value.1, ok)
    ensures AnsweredRight(p, now, q, a, ok)
  {
    hide Settles, AnswersHold, ParseHoldResponse, MayAnswer;
    forall hold, approve | AnswersHold(a, hold, approve) && MayAnswer(p, a.actor) && Open(p, hold)
      ensures Settles(p, now, q, hold, approve, ok)
    {
      AnswerParses(a, hold, approve);
    }
  }

  /** An overdue hold is among those that the expiry times out. */
  lemma LateTimedOut(p: Db, q: Db, hold: Id, approve: bool, now: nat)
    requires Open(p, hold) && TooLate(p, hold, now)
    requires var e := p.holds[hold].envelope; Expired(p, q, e, p.envelopes[e].holdTimeoutSecs.value, now)
    ensures Settles(p, now, q, hold, approve, false)
  {
    hide OverdueReserve, OverdueFee;
  }

  /** What a call has settled stays so while the tables grow. */
  lemma StillSettled(p: Db, now: nat, q: Db, r: Db, hold: Id, approve: bool)
    requires Settles(p, now, q, hold, approve, true) && Grows(q, r)
    ensures forall ok | ok || approve :: Settles(p, now, r, hold, approve, ok)
  {
  }

  /** Tables that have grown with the holds unchanged judge the answer alike. */
  lemma JudgedAlike(c: Config, s: State, p: Db, now: nat, actor: Id, hold: Id, approve: bool)
    requires Reachable(c, s) && Grows(s.db, p) && p.holds == s.db.holds && Open(s.db, hold) && MayAnswer(s.db, actor)
    ensures Is(p, actor, Human) && Open(p, hold)
    ensures forall q, ok :: Settles(p, now, q, hold, approve, ok) == Settles(s.db, now, q, hold, approve, ok)
  {
    hide Reachable;
    ReachableTasks(c, s);
    assert HoldOk(s.db, s.db.holds[hold]);
  }
}

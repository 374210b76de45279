/** What a receipt says about the action that it was given for. */
module Receipts {
  import opened Merkle
  import opened AuditStore
  import opened Consent
  import opened Database
  import opened Kernel
  import opened Stability
  import opened Tasks
  import opened AuditTrail
  import opened Theorems
  import opened Stranding
  import opened Effects

  /** The two events agree in everything that a hash covers. */
  predicate SameRecord(e: Event, f: Event) {
    && e.body.Name() == f.body.Name() && e.actor == f.actor && e.time == f.time
    && e.reserved == f.reserved && e.settled == f.settled
  }

  /** Two events have the same hash exactly when they have the same index and the same record. */
  lemma HashFixesRecord(e: Event, i: nat, f: Event, j: nat)
    ensures EventHash(e, i) == EventHash(f, j) <==> i == j && SameRecord(e, f)
  {
  }

  /** The hash covers the event's own name, actor, index, energies and time. */
  predicate Covered(e: Event, index: nat, h: Hash) {
    && h.LeafHash?
    && h.event.actionType == e.body.Name() && h.event.actor == e.actor && h.event.index == index
    && h.event.reserved == e.reserved && h.event.settled == e.settled && h.event.time == e.time
  }

  /**
   * Whatever event the verifier accepts at a receipt's index, in whatever later
   * state and against whichever stored checkpoint, agrees with the event that the
   * receipt was given for: same index, name, actor, energies and time.
   */
  lemma AcceptedMeansRecorded(c: Config, s: State, later: seq<Label>, r: Receipt, m: nat, f: Event, j: nat,
                              proof: seq<Hash>)
    requires Reachable(c, s) && r in s.receipts
    requires var db := Run(c, s, later).db;
             && m in db.checkpoints && r.index < m && |proof| == PathLength(r.index, m)
             && Climb(EventHash(f, j), r.index, m - 1, proof) == db.checkpoints[m]
    ensures r.index < |s.db.events| && Covered(s.db.events[r.index], r.index, r.hash)
    ensures j == r.index && SameRecord(f, s.db.events[r.index])
  {
    hide Run, Climb, InclusionProof, EventHash, SameRecord, StoreOk, CheckpointsOk;
    ReachableInv(c, s);
    ReceiptsHold(s, r);
    ReceiptsStay(c, s, later, r);
    LaterReachable(c, s, later);
    OnlyTheReceiptVerifies(c, Run(c, s, later), r, m, EventHash(f, j), proof);
    HashFixesRecord(f, j, s.db.events[r.index], r.index);
    HashCovers(s.db.events[r.index], r.index);
  }

  lemma HashCovers(e: Event, index: nat)
    ensures Covered(e, index, EventHash(e, index))
  {
  }

  lemma ReceiptsHold(s: State, r: Receipt)
    requires ReceiptsOk(s) && r in s.receipts
    ensures r.index < |s.db.events| && r.hash == EventHash(s.db.events[r.index], r.index)
  {
    hide EventHash;
    var i :| 0 <= i < |s.receipts| && s.receipts[i] == r;
  }

  lemma {:induction false} ReceiptsStay(c: Config, s: State, later: seq<Label>, r: Receipt)
    requires r in s.receipts
    ensures r in Run(c, s, later).receipts
    decreases |later|
  {
    hide Step;
    if later != [] {
      var n := |later| - 1;
      ReceiptsStay(c, s, later[..n], r);
      ReceiptsGrow(c, Run(c, s, later[..n]), later[n]);
    }
  }

  lemma ReceiptsGrow(c: Config, s: State, l: Label)
    ensures s.receipts <= Step(c, s, l).receipts
  {
    hide Decide, Apply;
    var e := Decide(c, s, l);
    EffectFrame(s, e);
    if WritesEvent(e) {
      WriteReceipt(s, e);
    }
  }

  /** Only a commit and a rejection add a receipt, which is for the event that they add. */
  lemma WriteReceipt(s: State, e: Effect)
    requires Applicable(s, e) && WritesEvent(e)
    ensures var s' := Apply(s, e);
            || s'.receipts == s.receipts
            || (&& (e.Commit? || (e.AnswerHold? && !e.approve)) && s' != Fail(s, e.tid)
                && s'.db.events != [] && s'.receipts == s.receipts + [LastReceipt(s'.db)])
  {
    hide TxTrigger, TxRespond, TxTimeout, TxFinalize, EventHash;
  }

  /**
   * A receipt is for the event that its own call added, and its hash covers what the
   * call did: its actor, the kind of its action or the rejection, the energies, the time.
   */
  lemma ReceiptRecordsTheCall(c: Config, s: State, l: Label)
    requires Reachable(c, s) && Step(c, s, l).receipts != s.receipts
    ensures OfTask(l) && l.tid in s.tasks
    ensures var s', n, t := Step(c, s, l), |s.db.events|, s.tasks[l.tid];
            && |s'.db.events| == n + 1
            && s'.receipts == s.receipts + [Receipt(n, EventHash(s'.db.events[n], n))]
            && Covered(s'.db.events[n], n, EventHash(s'.db.events[n], n))
            && RecordsCall(s, t, s'.db.events[n])
  {
    hide Run, Decide, Apply, EventHash, TasksOk, Errs, RecordsCall;
    var e := Decide(c, s, l);
    ReachableInv(c, s);
    DecideOk(c, s, l);
    OwnEffect(c, s, l);
    EffectFrame(s, e);
    WriteReceipt(s, e);
    if e.Commit? {
      CommitRecords(c, s, e);
    } else {
      AnswerRecords(c, s, e);
    }
    HashCovers(Apply(s, e).db.events[|s.db.events|], |s.db.events|);
  }

  /** What the event of a call that returns says. */
  predicate RecordsCall(s: State, t: Task, e: Event) {
    && e.actor == t.action.actor && e.time == s.now
    && if t.pc.Reserved? then
         && e.target == t.action.target && e.body == Acted(t.action.kind, t.pc.checked, t.via)
         && e.settled == t.pc.cost && e.reserved == t.pc.cost
       else
         && t.pc.Responding? && !t.pc.approve && t.pc.hold in s.db.holds
         && e.body == HoldResponded(t.pc.hold, s.db.holds[t.pc.hold].agent, false)
         && e.reserved == s.db.holds[t.pc.hold].reserved
         && 5 * e.settled - 4 <= e.reserved <= 5 * e.settled
  }

  lemma CommitRecords(c: Config, s: State, e: Effect)
    requires Reachable(c, s) && Applicable(s, e) && EffectOk(c, s, e) && e.Commit? && Apply(s, e) != Fail(s, e.tid)
    ensures |Apply(s, e).db.events| == |s.db.events| + 1
    ensures RecordsCall(s, s.tasks[e.tid], Apply(s, e).db.events[|s.db.events|])
  {
    hide Run, TxFinalize;
    CommitFailsOnlyOnClash(c, s, e.tid);
    CommitEffect(c, s, e.tid);
  }

  lemma AnswerRecords(c: Config, s: State, e: Effect)
    requires Reachable(c, s) && Applicable(s, e) && EffectOk(c, s, e) && e.AnswerHold? && !e.approve
    requires Apply(s, e) != Fail(s, e.tid)
    ensures |Apply(s, e).db.events| == |s.db.events| + 1
    ensures RecordsCall(s, s.tasks[e.tid], Apply(s, e).db.events[|s.db.events|])
  {
    hide Run, TxRespond;
    PendingHoldsResolve(c, s, e.hold, false, s.tasks[e.tid].action.actor, s.now);
    AnswerEffect(c, s, e.hold, false, s.tasks[e.tid].action.actor);
  }
}

/** The audit trail of the running kernel: the Merkle store, checkpoints and receipts. */
module AuditTrail {
  import opened Basics
  import opened Merkle
  import opened AuditStore
  import opened Consent
  import opened Database
  import opened Kernel
  import opened Stability
  import opened Tasks

  /** Every stored checkpoint is the tree head of the log's first `m` events. */
  ghost predicate CheckpointsOk(db: Db) {
    forall m | m in db.checkpoints :: 0 < m <= |db.events| && db.checkpoints[m] == Mth(EventHashes(db.events)[..m])
  }

  ghost predicate ReceiptsOk(s: State) {
    forall i | 0 <= i < |s.receipts| ::
      s.receipts[i].index < |s.db.events| && s.receipts[i].hash == EventHashes(s.db.events)[s.receipts[i].index]
  }

  ghost predicate TrailOk(s: State) {
    StoreOk(s.db.rows, EventHashes(s.db.events)) && CheckpointsOk(s.db) && ReceiptsOk(s)
  }

  lemma HashesAppend(events: seq<Event>, e: Event)
    ensures EventHashes(events + [e]) == EventHashes(events) + [EventHash(e, |events|)]
  {
    assert (events + [e])[..|events|] == events;
  }

  /** Appending an event never fails, keeps the store, and no old tree head changes. */
  lemma AppendEventOk(db: Db, e: Event)
    requires StoreOk(db.rows, EventHashes(db.events)) && CheckpointsOk(db)
    ensures AppendEvent(db, e).Ok?
    ensures StoreOk(AppendEvent(db, e).value.rows, EventHashes(db.events + [e]))
    ensures CheckpointsOk(AppendEvent(db, e).value)
  {
    hide StoreOk, Mth, AppendLeaf, EventHash;
    var d := EventHashes(db.events);
    HashesAppend(db.events, e);
    AppendKeepsStore(db.rows, d, EventHash(e, |db.events|));
    forall m | m in db.checkpoints
      ensures db.checkpoints[m] == Mth(EventHashes(db.events + [e])[..m])
    {
      assert EventHashes(db.events + [e])[..m] == d[..m];
    }
  }

  /** `q` has one more event than `p`, and the rows of its leaf. */
  ghost predicate OneAppended(p: Db, q: Db) {
    && |q.events| == |p.events| + 1 && q.events[..|p.events|] == p.events
    && AppendLeaf(p.rows, |p.events|, EventHash(q.events[|p.events|], |p.events|)) == Ok(q.rows)
    && q.checkpoints == p.checkpoints
  }

  lemma AppendedTrail(s: State, s': State)
    requires TrailOk(s) && OneAppended(s.db, s'.db)
    requires s'.receipts == s.receipts || s'.receipts == s.receipts + [LastReceipt(s'.db)]
    ensures TrailOk(s')
  {
    hide StoreOk, Mth, AppendLeaf, EventHash, EventHashes;
    var e := s'.db.events[|s.db.events|];
    assert s'.db.events == s.db.events + [e];
    AppendEventOk(s.db, e);
    HashesAppend(s.db.events, e);
  }

  lemma SameTrail(s: State, s': State)
    requires TrailOk(s) && s'.db.events == s.db.events && s'.db.rows == s.db.rows
    requires s'.db.checkpoints == s.db.checkpoints && s'.receipts == s.receipts
    ensures TrailOk(s')
  {
    hide StoreOk, Mth;
  }

  lemma WriteTrail(s: State, e: Effect)
    requires TrailOk(s) && Applicable(s, e) && WritesEvent(e) && Apply(s, e) != Fail(s, e.tid)
    ensures TrailOk(Apply(s, e))
  {
    hide TrailOk, Settle, AppendLeaf, Database.Reserve, ApplySpec, OneAppended;
    var s' := Apply(s, e);
    WriteAppends(s, e);
    AppendedTrail(s, s');
  }

  lemma HoldTransactionsAppend(db: Db, hold: Id, approve: bool, human: Id, now: nat)
    ensures TxRespond(db, hold, approve, human, now).Ok? ==>
            OneAppended(db, TxRespond(db, hold, approve, human, now).value)
    ensures TxTimeout(db, hold, now).Ok? ==> OneAppended(db, TxTimeout(db, hold, now).value)
  {
    hide Settle, AppendLeaf, EventHash, CommitmentCost;
  }

  lemma TriggerAppends(db: Db, hold: Id, envelope: Id, a: Action, now: nat)
    requires TxTrigger(db, hold, envelope, a, now).Ok?
    ensures OneAppended(db, TxTrigger(db, hold, envelope, a, now).value)
  {
    hide Database.Reserve, AppendLeaf, EventHash, QuoteCost;
  }

  lemma FinalizeAppends(db: Db, a: Action, cost: nat, spec: Spec, checked: Option<Id>, via: Option<Id>, now: nat)
    requires TxFinalize(db, a, cost, spec, checked, via, now).Ok?
    ensures OneAppended(db, TxFinalize(db, a, cost, spec, checked, via, now).value)
  {
    hide Settle, ApplySpec, AppendLeaf, EventHash;
  }

  /** Whatever the transaction, it appends one event together with its leaf. */
  lemma WriteAppends(s: State, e: Effect)
    requires Applicable(s, e) && WritesEvent(e) && Apply(s, e) != Fail(s, e.tid)
    ensures OneAppended(s.db, Apply(s, e).db)
  {
    hide TxTrigger, TxRespond, TxTimeout, TxFinalize, OneAppended;
    var t := s.tasks[e.tid];
    match e
    case TimeOutHold(_, hold, _) => HoldTransactionsAppend(s.db, hold, true, ROOT, s.now);
    case TriggerHold(_, hold, id) => TriggerAppends(s.db, hold, id, t.action, s.now);
    case AnswerHold(_, hold, approve) => HoldTransactionsAppend(s.db, hold, approve, t.action.actor, s.now);
    case Commit(_, checked, spec, cost) => FinalizeAppends(s.db, t.action, cost, spec, checked, t.via, s.now);
  }

  lemma CheckpointTrail(s: State, n: nat, root: Hash)
    requires TrailOk(s) && n > 0 && TreeHash(s.db.rows, 0, n) == Ok(root)
    ensures TrailOk(s.(db := s.db.(checkpoints := s.db.checkpoints[n := root])))
  {
    hide StoreOk, Mth, TreeHash;
    RootCorrect(s.db.rows, EventHashes(s.db.events), n);
  }

  /** Every effect of every step keeps the audit trail. */
  lemma ApplyKeepsTrail(c: Config, s: State, e: Effect)
    requires TrailOk(s) && Applicable(s, e) && EffectOk(c, s, e)
    ensures TrailOk(Apply(s, e))
  {
    EffectFrame(s, e);
    if WritesEvent(e) {
      hide TrailOk, Apply, EffectOk;
      if Apply(s, e) == Fail(s, e.tid) {
        SameTrail(s, Apply(s, e));
      } else {
        WriteTrail(s, e);
      }
    } else if e.StoreCheckpoint? {
      hide TrailOk, TreeHash;
      CheckpointTrail(s, e.size, e.root);
    } else {
      hide TrailOk, Apply, EffectOk;
      SameTrail(s, Apply(s, e));
    }
  }
}

/** Who manages whom, and what a managed actor's row is afterwards. */
module Management {
  import opened Basics
  import opened Consent
  import opened Database
  import opened Kernel
  import opened Tasks
  import opened Lineage
  import opened Theorems
  import opened Stranding
  import opened Freezing
  import opened Reference

  /** What a task that is past its parse is about to do besides its event. */
  function SpecOf(pc: Pc): (spec: Option<Spec>) {
    match pc
    case Specced(_, spec) => Some(spec)
    case Reserved(_, spec, _) => Some(spec)
    case Committed(spec, _, _) => Some(spec)
    case Metering(spec, _) => Some(spec)
    case Metered(spec) => Some(spec)
    case _ => None
  }

  /** The action names the operation on the actor. */
  predicate AsksFor(a: Action, subject: Id, op: LifecycleOp) {
    && a.kind == Mutate && a.target == "actor/" + subject && subject != ""
    && a.payload.op == Some(match op
                            case Freeze => "freeze"
                            case Unfreeze => "unfreeze"
                            case Terminate => "terminate"
                            case UpdateEnergyShare(_) => "update_energy_share")
    && (op.UpdateEnergyShare? ==> a.payload.share == Some(op.share))
  }

  lemma AskingParses(a: Action, subject: Id, op: LifecycleOp)
    ensures AsksFor(a, subject, op) <==> ParseLifecycleOp(a) == Some((subject, op))
  {
    hide ParseLifecycleOp;
    LifecycleParses(a, subject, op);
  }

  lemma SpecHolds(c: Config, s: State, tid: nat)
    requires TasksOk(c, s) && tid in s.tasks && SpecOf(s.tasks[tid].pc).Some?
    ensures SpecOk(c, s.db, s.tasks[tid].action, SpecOf(s.tasks[tid].pc).value)
  {
    hide SpecOk, CheckedOk, MustHold, ViaOk, MeterOk;
    assert TaskOk(c, s.db, s.tasks[tid]);
  }

  /**
   * Only its creator manages an agent: a task that is about to freeze, unfreeze,
   * terminate or re-share an actor was asked to do just that by the human who
   * created it, and the actor is an agent.
   */
  lemma OnlyItsCreatorManages(c: Config, s: State, tid: nat, subject: Id, op: LifecycleOp)
    requires Reachable(c, s) && tid in s.tasks && SpecOf(s.tasks[tid].pc) == Some(Lifecycle(subject, op))
    ensures AsksFor(s.tasks[tid].action, subject, op) && CreatorOf(s.db.actors, s.tasks[tid].action.actor, subject)
  {
    hide Run, ParseLifecycleOp, LineageOk, TasksOk, AsksFor, TaskOk;
    ReachableTasks(c, s);
    SpecHolds(c, s, tid);
    AskingParses(s.tasks[tid].action, subject, op);
    LineageHolds(c, s);
    LineageIsCreator(c, s.db.actors, subject);
  }

  lemma LineageIsCreator(c: Config, actors: map<Id, Actor>, id: Id)
    requires LineageOk(c, actors) && id in actors
    ensures actors[id].lineage == if actors[id].creator.Some? then [actors[id].creator.value] else []
  {
    hide ChildTargetsCovered, DistinctIds, SovereignsActive;
    assert ActorOk(c, actors, id);
  }

  /** The creator is not refused: a cleared task that asks for it is going to do it. */
  lemma ItsCreatorMayManage(c: Config, s: State, tid: nat, newId: Id, grant: Option<Id>, subject: Id, op: LifecycleOp)
    requires Reachable(c, s) && tid in s.tasks && s.tasks[tid].pc.Cleared?
    requires IsActiveEnvelope(s.db, s.tasks[tid].action.actor, grant)
    requires AsksFor(s.tasks[tid].action, subject, op) && CreatorOf(s.db.actors, s.tasks[tid].action.actor, subject)
    ensures Step(c, s, Parse(tid, newId, grant))
         == s.(tasks := s.tasks[tid := s.tasks[tid].At(Specced(None, Lifecycle(subject, op)))])
  {
    hide Run, ParseLifecycleOp, ParseHoldResponse, LineageOk, TasksOk, IsActiveEnvelope, MayManage;
    var t := s.tasks[tid];
    ReachableTasks(c, s);
    ClearedHuman(c, s, tid);
    AskingParses(t.action, subject, op);
    LineageHolds(c, s);
    ManagerDecides(c, s.db.actors, t.action.actor, subject);
    NoAnswer(t.action, subject);
    ActiveExists(s.db, t.action.actor, grant);
  }

  lemma ClearedHuman(c: Config, s: State, tid: nat)
    requires TasksOk(c, s) && tid in s.tasks && s.tasks[tid].pc.Cleared? && Is(s.db, s.tasks[tid].action.actor, Human)
    ensures s.tasks[tid].pc == Cleared(None)
  {
    assert TaskOk(c, s.db, s.tasks[tid]);
  }

  lemma NoAnswer(a: Action, subject: Id)
    requires a.target == "actor/" + subject
    ensures ParseHoldResponse(a).None?
  {
    assert a.target[0] == 'a' && HOLD_PREFIX[0] == 'l';
  }

  /** An actor's row after the operation on the subject; a freeze reaches further, as a pattern of the subject's id. */
  ghost function RowAfter(row: Actor, id: Id, subject: Id, op: LifecycleOp): (r: Actor) {
    match op
    case Unfreeze => if id == subject then row.(status := Active) else row
    case UpdateEnergyShare(x) => if id == subject && x >= 0.0 then row.(share := x) else row
    case _ =>
      if id == subject || (row.creator.Some? && Sql.Names(subject, [row.creator.value])) then row.(status := Frozen)
      else row
  }

  /** The actor's row after this step. */
  ghost function RowOf(s: State, l: Label, id: Id): (r: Actor)
    requires id in s.db.actors
  {
    if l.Manage? && l.tid in s.tasks && s.tasks[l.tid].pc.Metered? && s.tasks[l.tid].pc.spec.Lifecycle? then
      RowAfter(s.db.actors[id], id, s.tasks[l.tid].pc.spec.subject, s.tasks[l.tid].pc.spec.op)
    else s.db.actors[id]
  }

  /** What becomes of every actor in every step: only its own lifecycle step changes a row, and just so. */
  lemma ManagedExactly(c: Config, s: State, l: Label, id: Id)
    requires Reachable(c, s) && id in s.db.actors
    ensures id in Step(c, s, l).db.actors && Step(c, s, l).db.actors[id] == RowOf(s, l, id)
  {
    hide Run, Decide, Apply, TasksOk, LineageOk, Sql.Names, RowAfter;
    var e := Decide(c, s, l);
    WhoManages(c, s, l);
    if e.ManageActor? {
      ReachableTasks(c, s);
      ManagedAgent(c, s, l.tid);
      ManagedActors(s, e);
      LineageHolds(c, s);
      LineageIsCreator(c, s.db.actors, id);
      ManagedRow(s.db, e.subject, e.op, id);
    } else {
      OthersKeepActors(s, e);
    }
  }

  lemma ManagedRow(db: Db, subject: Id, op: LifecycleOp, id: Id)
    requires id in db.actors && subject in db.actors
    requires db.actors[id].lineage == if db.actors[id].creator.Some? then [db.actors[id].creator.value] else []
    ensures id in TxLifecycle(db, subject, op).actors
    ensures TxLifecycle(db, subject, op).actors[id] == RowAfter(db.actors[id], id, subject, op)
  {
    hide Sql.Names;
    Sql.NobodyNamesRoot(subject);
    var row := db.actors[id];
    assert row.status == Frozen ==> row == row.(status := Frozen);
  }
}

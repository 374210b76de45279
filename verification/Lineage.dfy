/** Who created whom, and who can be frozen. */
module Lineage {
  import opened Basics
  import opened Consent
  import opened Database
  import opened Kernel
  import opened Stability
  import opened Tasks
  import Sql

  /** Whether the actor is root or a human that a human created. */
  predicate Sovereign(actors: map<Id, Actor>, id: Id) {
    && id in actors && actors[id].kind.Human?
    && (actors[id].creator.None?
          || (actors[id].creator.value in actors && actors[actors[id].creator.value].kind.Human?))
  }

  ghost predicate ActorOk(c: Config, actors: map<Id, Actor>, id: Id)
    requires id in actors
  {
    var a := actors[id];
    && (a.creator.None? ==> a.kind.Human? && a.lineage == [])
    && (a.creator.Some? ==> a.lineage == [a.creator.value] && a.creator.value in actors)
    && (a.kind.Agent? ==> a.creator.Some? && actors[a.creator.value].kind.Human?)
    && (a.creator.Some? ==> ChildTargetsCovered(c, actors[a.creator.value], a.writable))
    && (a.creator.None? ==> a.status.Active?)
  }

  /** No agent's id, as a LIKE pattern, selects another actor's id. */
  ghost predicate DistinctIds(actors: map<Id, Actor>) {
    forall a, o | a in actors && o in actors && a != o && actors[a].kind.Agent? :: !Sql.Names(a, [o])
  }

  ghost predicate SovereignsActive(actors: map<Id, Actor>) {
    forall id | Sovereign(actors, id) :: actors[id].status.Active?
  }

  ghost predicate LineageOk(c: Config, actors: map<Id, Actor>) {
    && (forall id | id in actors :: ActorOk(c, actors, id))
    && (DistinctIds(actors) ==> SovereignsActive(actors))
  }

  lemma CreateKeepsLineage(c: Config, actors: map<Id, Actor>, creator: Id, q: ActorRequest)
    requires LineageOk(c, actors) && creator in actors && q.id !in actors
    requires (q.kind.Agent? ==> actors[creator].kind.Human?) && ChildTargetsCovered(c, actors[creator], q.writable)
    ensures LineageOk(c, actors[q.id := NewActorRow(creator, q)])
  {
    hide ChildTargetsCovered;
    var after := actors[q.id := NewActorRow(creator, q)];
    FewerIds(actors, after);
    forall id | id in after
      ensures ActorOk(c, after, id)
    {
      assert id in actors ==> ActorOk(c, actors, id);
    }
    forall id | Sovereign(after, id) && DistinctIds(after)
      ensures after[id].status.Active?
    {
      assert id in actors ==> ActorOk(c, actors, id) && Sovereign(actors, id);
    }
  }

  /** Ids that are distinct stay so when there are fewer. */
  lemma FewerIds(p: map<Id, Actor>, q: map<Id, Actor>)
    requires forall a | a in p :: a in q && p[a].kind == q[a].kind
    ensures DistinctIds(q) ==> DistinctIds(p)
  {
  }

  /** A freeze keeps who is whose, whomever it reaches, and reaches no sovereign if ids are distinct. */
  lemma FreezeKeepsLineage(c: Config, actors: map<Id, Actor>, subject: Id)
    requires LineageOk(c, actors) && subject in actors && actors[subject].kind.Agent?
    ensures LineageOk(c, FreezeCascade(actors, subject))
  {
    hide ChildTargetsCovered;
    var q := FreezeCascade(actors, subject);
    FewerIds(actors, q);
    forall id | id in q
      ensures ActorOk(c, q, id)
    {
      assert ActorOk(c, actors, id);
      if actors[id].creator.Some? {
        CoveredFrame(c, actors, q, id);
      }
      Sql.NobodyNamesRoot(subject);
    }
    forall id | Sovereign(q, id) && DistinctIds(q)
      ensures q[id].status.Active?
    {
      assert ActorOk(c, actors, id) && Sovereign(actors, id);
      Sql.NobodyNamesRoot(subject);
    }
  }

  lemma LifecycleKeepsLineage(c: Config, db: Db, subject: Id, op: LifecycleOp)
    requires LineageOk(c, db.actors) && Is(db, subject, Agent)
    ensures LineageOk(c, TxLifecycle(db, subject, op).actors)
  {
    hide FreezeCascade, LineageOk;
    match op
    case Freeze => FreezeKeepsLineage(c, db.actors, subject);
    case Terminate => FreezeKeepsLineage(c, db.actors, subject);
    case _ => AgentRowKeepsLineage(c, db.actors, subject, TxLifecycle(db, subject, op).actors[subject]);
  }

  lemma AgentRowKeepsLineage(c: Config, actors: map<Id, Actor>, subject: Id, row: Actor)
    requires LineageOk(c, actors) && subject in actors && actors[subject].kind.Agent?
    requires row.kind == actors[subject].kind && row.creator == actors[subject].creator
    requires row.lineage == actors[subject].lineage
    requires row.writable == actors[subject].writable
    ensures LineageOk(c, actors[subject := row])
  {
    hide ChildTargetsCovered;
    var q := actors[subject := row];
    FewerIds(actors, q);
    forall id | id in q
      ensures ActorOk(c, q, id)
    {
      assert ActorOk(c, actors, id);
      if actors[id].creator.Some? {
        CoveredFrame(c, actors, q, id);
      }
    }
    forall id | Sovereign(q, id) && DistinctIds(q)
      ensures q[id].status.Active?
    {
      assert Sovereign(actors, id);
    }
  }

  lemma CoveredFrame(c: Config, p: map<Id, Actor>, q: map<Id, Actor>, id: Id)
    requires p.Keys == q.Keys && (forall x | x in p :: p[x].writable == q[x].writable && p[x].creator == q[x].creator)
    requires id in p && p[id].creator.Some? && p[id].creator.value in p
    ensures ChildTargetsCovered(c, p[p[id].creator.value], p[id].writable)
         == ChildTargetsCovered(c, q[q[id].creator.value], q[id].writable)
  {
  }

  lemma CommitLineage(c: Config, s: State, e: Effect)
    requires LineageOk(c, s.db.actors) && TasksOk(c, s) && Applicable(s, e) && EffectOk(c, s, e) && e.Commit?
    ensures LineageOk(c, Apply(s, e).db.actors)
  {
    hide Apply, LineageOk, TasksOk, NewActorRow;
    CommitSpecOk(c, s, e.tid);
    CommittedActors(s, e);
    if Apply(s, e).db.actors != s.db.actors {
      CreateKeepsLineage(c, s.db.actors, s.tasks[e.tid].action.actor, e.spec.request);
    }
  }

  /** A commit creates at most the actor that it was asked for. */
  lemma CommittedActors(s: State, e: Effect)
    requires Applicable(s, e) && e.Commit?
    ensures Apply(s, e).db.actors == s.db.actors
         || (e.spec.NewActor? && e.spec.request.id !in s.db.actors
             && Apply(s, e).db.actors
                  == s.db.actors[e.spec.request.id := NewActorRow(s.tasks[e.tid].action.actor, e.spec.request)])
  {
    hide AppendEvent, Settle, CreateAccount, NewActorRow;
  }

  lemma CommitSpecOk(c: Config, s: State, tid: nat)
    requires TasksOk(c, s) && tid in s.tasks && s.tasks[tid].pc.Reserved?
    ensures SpecOk(c, s.db, s.tasks[tid].action, s.tasks[tid].pc.spec)
  {
    hide MeterOk, ViaOk, CheckedOk, MustHold;
    assert TaskOk(c, s.db, s.tasks[tid]);
  }

  lemma ManageLineage(c: Config, s: State, e: Effect)
    requires LineageOk(c, s.db.actors) && TasksOk(c, s) && Applicable(s, e) && EffectOk(c, s, e) && e.ManageActor?
    ensures LineageOk(c, Apply(s, e).db.actors)
  {
    hide LineageOk, TasksOk, TxLifecycle;
    ManagedAgent(c, s, e.tid);
    LifecycleKeepsLineage(c, s.db, e.subject, e.op);
  }

  /** Every effect of every step keeps lineage and sovereignty. */
  lemma ApplyKeepsLineage(c: Config, s: State, e: Effect)
    requires LineageOk(c, s.db.actors) && TasksOk(c, s) && Applicable(s, e) && EffectOk(c, s, e)
    ensures LineageOk(c, Apply(s, e).db.actors)
  {
    hide LineageOk, Apply, TasksOk, TaskOk;
    EffectFrame(s, e);
    match e
    case Commit(_, _, _, _) => CommitLineage(c, s, e);
    case ManageActor(_, _, _) => ManageLineage(c, s, e);
    case _ =>
  }

  lemma ManagedAgent(c: Config, s: State, tid: nat)
    requires TasksOk(c, s) && tid in s.tasks && s.tasks[tid].pc.Metered? && s.tasks[tid].pc.spec.Lifecycle?
    ensures Is(s.db, s.tasks[tid].pc.spec.subject, Agent)
  {
    assert TaskOk(c, s.db, s.tasks[tid]);
  }
}

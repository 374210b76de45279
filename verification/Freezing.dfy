/** Whom a freeze reaches, and who stays active. */
module Freezing {
  import opened Basics
  import opened Consent
  import opened Database
  import opened Kernel
  import opened Stability
  import opened Tasks
  import opened Accounting
  import opened HoldLog
  import opened Provenance
  import opened Lineage
  import opened AuditTrail
  import opened Delegation
  import opened Theorems
  import Sql

  /** Root is active in every reachable state: no pattern selects its empty lineage. */
  lemma RootStaysActive(c: Config, s: State)
    requires Reachable(c, s)
    ensures ROOT in s.db.actors && s.db.actors[ROOT].status.Active?
  {
    hide Run, TasksOk, AccountsOk, LogOk, EventsOk, BudgetsOk, TrailOk;
    ReachableInv(c, s);
    var schedule :| s == Run(c, Init(), schedule);
    RunGrows(c, Init(), schedule);
    assert ROOT in Init().db.actors;
    assert ActorOk(c, s.db.actors, ROOT);
  }

  /**
   * While no agent's id selects another actor's id, root and every human whom a
   * human created are active, whatever was frozen.
   */
  lemma SovereignsStayActive(c: Config, s: State, id: Id)
    requires Reachable(c, s) && Sovereign(s.db.actors, id) && DistinctIds(s.db.actors)
    ensures s.db.actors[id].status.Active?
  {
    hide Run, TasksOk, AccountsOk, LogOk, EventsOk, BudgetsOk, TrailOk, DistinctIds;
    ReachableInv(c, s);
  }

  /** Ids without wildcards, quotes or escapes that differ in more than case are distinct. */
  lemma PlainIdsAreDistinct(actors: map<Id, Actor>)
    requires forall a | a in actors :: Sql.Plain(a)
    requires forall a, o | a in actors && o in actors && a != o :: Sql.Lower(a) != Sql.Lower(o)
    ensures DistinctIds(actors)
  {
    hide Sql.Plain, Sql.Lower, Sql.Names;
    forall a, o | a in actors && o in actors && a != o
      ensures !Sql.Names(a, [o])
    {
      Sql.PlainNames(a, o);
    }
  }

  /** What a freeze reaches: its target, and the active actors whose lineage its target's id selects. */
  lemma FreezeReaches(c: Config, s: State, subject: Id, id: Id)
    requires Reachable(c, s) && id in s.db.actors && Is(s.db, subject, Agent)
    ensures id in TxLifecycle(s.db, subject, Freeze).actors
    ensures var before, after := s.db.actors[id], TxLifecycle(s.db, subject, Freeze).actors[id];
            && (after.status.Frozen? <==>
                  || id == subject || before.status.Frozen?
                  || (before.creator.Some? && Sql.Names(subject, [before.creator.value])))
            && after == before.(status := after.status)
  {
    hide Run, TasksOk, AccountsOk, LogOk, EventsOk, BudgetsOk, TrailOk, Sql.Names;
    ReachableInv(c, s);
    assert ActorOk(c, s.db.actors, id);
    Sql.NobodyNamesRoot(subject);
  }

  /** With distinct ids a freeze reaches only its target and humans whom the target created, never another agent. */
  lemma FreezeReachesItsOwn(c: Config, s: State, subject: Id, id: Id)
    requires Reachable(c, s) && id in s.db.actors && Is(s.db, subject, Agent) && DistinctIds(s.db.actors)
    ensures id in TxLifecycle(s.db, subject, Freeze).actors
    ensures TxLifecycle(s.db, subject, Freeze).actors[id] != s.db.actors[id] ==>
              id == subject || (s.db.actors[id].creator == Some(subject) && s.db.actors[id].kind.Human?)
  {
    hide Run, TasksOk, AccountsOk, LogOk, EventsOk, BudgetsOk, TrailOk, Sql.Names, TxLifecycle;
    ReachableInv(c, s);
    FreezeReaches(c, s, subject, id);
    assert ActorOk(c, s.db.actors, id);
    var before, after := s.db.actors[id], TxLifecycle(s.db, subject, Freeze).actors[id];
    assert before.status == after.status ==> before == before.(status := after.status);
  }

  /** The step freezes: it ends a task that froze or terminated this actor. */
  predicate Freezes(s: State, l: Label, subject: Id) {
    && l.Manage? && l.tid in s.tasks && s.tasks[l.tid].pc.Metered? && s.tasks[l.tid].pc.spec.Lifecycle?
    && s.tasks[l.tid].pc.spec.subject == subject
    && (s.tasks[l.tid].pc.spec.op.Freeze? || s.tasks[l.tid].pc.spec.op.Terminate?)
  }

  lemma WhoManages(c: Config, s: State, l: Label)
    ensures Decide(c, s, l).ManageActor? <==>
              l.Manage? && l.tid in s.tasks && s.tasks[l.tid].pc.Metered? && s.tasks[l.tid].pc.spec.Lifecycle?
    ensures Decide(c, s, l).ManageActor? ==>
              var spec := s.tasks[l.tid].pc.spec; Decide(c, s, l) == ManageActor(l.tid, spec.subject, spec.op)
  {
    hide ParseSpec, MustHold, WithinBoundary, IsActiveEnvelope, CheckAuthorization, EnvelopeCovers, IsPendingList,
         IsShareList, Shares;
  }

  /** Only the lifecycle transaction changes an existing actor. */
  lemma OthersKeepActors(s: State, e: Effect)
    requires Applicable(s, e) && !e.ManageActor?
    ensures forall id | id in s.db.actors :: id in Apply(s, e).db.actors && Apply(s, e).db.actors[id] == s.db.actors[id]
  {
    hide Apply, NewActorRow;
    EffectFrame(s, e);
    if e.Commit? {
      CommittedActors(s, e);
    }
  }

  /**
   * When an active actor is frozen by a step, exactly: the step freezes that actor,
   * or an agent whose id, as a LIKE pattern, selects the id of the actor's creator.
   */
  lemma FrozenExactly(c: Config, s: State, l: Label, id: Id)
    requires Reachable(c, s) && id in s.db.actors && s.db.actors[id].status.Active?
    ensures id in Step(c, s, l).db.actors
    ensures Step(c, s, l).db.actors[id].status.Frozen? <==>
              exists subject :: Freezes(s, l, subject) && Is(s.db, subject, Agent)
                && (id == subject || Sql.Names(subject, s.db.actors[id].lineage))
  {
    hide Run, AccountsOk, LogOk, EventsOk, BudgetsOk, TrailOk, LineageOk, Sql.Names, Decide, Apply, TasksOk;
    ReachableInv(c, s);
    var e := Decide(c, s, l);
    WhoManages(c, s, l);
    if e.ManageActor? {
      ManagedAgent(c, s, l.tid);
      ManagedStatus(s, e, id);
      assert e.op.Freeze? || e.op.Terminate? ==> Freezes(s, l, e.subject);
    } else {
      OthersKeepActors(s, e);
    }
  }

  lemma ManagedStatus(s: State, e: Effect, id: Id)
    requires Applicable(s, e) && e.ManageActor? && id in s.db.actors && e.subject in s.db.actors
    ensures id in Apply(s, e).db.actors
    ensures var before, after := s.db.actors[id].status, Apply(s, e).db.actors[id].status;
            && (before.Active? ==> (after.Frozen? <==>
                  (e.op.Freeze? || e.op.Terminate?)
                  && (id == e.subject || Sql.Names(e.subject, s.db.actors[id].lineage))))
            && (before.Frozen? && id != e.subject ==> after.Frozen?)
  {
    hide Apply, Sql.Names;
    ManagedActors(s, e);
  }

  lemma ManagedActors(s: State, e: Effect)
    requires Applicable(s, e) && e.ManageActor?
    ensures Apply(s, e).db.actors == TxLifecycle(s.db, e.subject, e.op).actors
  {
    hide TxLifecycle;
  }

  /** A human that was frozen once is frozen for good: only agents can be unfrozen. */
  lemma {:induction false} FrozenHumansStayFrozen(c: Config, s: State, later: seq<Label>, id: Id)
    requires Reachable(c, s) && Is(s.db, id, Human) && s.db.actors[id].status.Frozen?
    ensures Is(Run(c, s, later).db, id, Human) && Run(c, s, later).db.actors[id].status.Frozen?
    decreases |later|
  {
    hide Step, Reachable;
    if later != [] {
      var n := |later| - 1;
      FrozenHumansStayFrozen(c, s, later[..n], id);
      LaterReachable(c, s, later[..n]);
      FrozenHumanKept(c, Run(c, s, later[..n]), later[n], id);
    }
  }

  lemma FrozenHumanKept(c: Config, s: State, l: Label, id: Id)
    requires Reachable(c, s) && Is(s.db, id, Human) && s.db.actors[id].status.Frozen?
    ensures Is(Step(c, s, l).db, id, Human) && Step(c, s, l).db.actors[id].status.Frozen?
  {
    hide Run, AccountsOk, LogOk, EventsOk, BudgetsOk, TrailOk, LineageOk, Sql.Names, Decide, Apply, TasksOk, Grows;
    ReachableInv(c, s);
    var e := Decide(c, s, l);
    WhoManages(c, s, l);
    KindKept(c, s, l, id);
    if e.ManageActor? {
      ManagedAgent(c, s, l.tid);
      ManagedStatus(s, e, id);
    } else {
      OthersKeepActors(s, e);
    }
  }

  lemma KindKept(c: Config, s: State, l: Label, id: Id)
    requires id in s.db.actors
    ensures id in Step(c, s, l).db.actors && Step(c, s, l).db.actors[id].kind == s.db.actors[id].kind
  {
    hide Step;
    StepGrows(c, s, l);
  }
}

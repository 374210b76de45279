/**
 * The kernel's guarantees, over every schedule of every number of submissions,
 * ticks, checkpoints and crashes.
 */
module Theorems {
  import opened Basics
  import opened Merkle
  import opened AuditStore
  import opened Consent
  import opened Database
  import opened Kernel
  import opened Stability
  import opened Tasks
  import opened Accounting
  import opened HoldLog
  import opened Provenance
  import opened Lineage
  import opened AuditTrail
  import opened Delegation
  import opened Charges
  import opened Sums
  import opened Conservation
  import opened Reference

  ghost predicate Inv(c: Config, s: State) {
    && TasksOk(c, s)
    && AccountsOk(s)
    && LogOk(s)
    && EventsOk(c, s.db)
    && LineageOk(c, s.db.actors)
    && TrailOk(s)
    && BudgetsOk(c, s)
    && ChargesOk(s)
  }

  lemma InitAccounts()
    ensures AccountsOk(Init())
  {
    forall a
      ensures ReservedOf(Init().db.ledger, a) == Owed(Init(), a)
    {
      SumZero(Init().db.holds, HoldClaim(a));
      SumZero(Init().tasks, TaskClaim(a));
    }
  }

  lemma InitBudgets(c: Config)
    ensures BudgetsOk(c, Init())
  {
  }

  lemma InitTrail()
    ensures TrailOk(Init())
  {
    EmptyStoreOk();
  }

  lemma InitLineage(c: Config)
    ensures LineageOk(c, Init().db.actors)
  {
  }

  /** The seeded state satisfies every invariant. */
  lemma InitInv(c: Config)
    ensures Inv(c, Init())
  {
    hide AccountsOk, BudgetsOk, TrailOk, LineageOk;
    InitAccounts();
    InitBudgets(c);
    InitTrail();
    InitLineage(c);
  }

  /** Every step keeps every invariant, whatever the other tasks have done. */
  lemma StepInv(c: Config, s: State, l: Label)
    requires Inv(c, s)
    ensures Inv(c, Step(c, s, l))
  {
    hide TasksOk, AccountsOk, LogOk, EventsOk, LineageOk, TrailOk, BudgetsOk, ChargesOk, Apply, Decide, EffectOk;
    var e := Decide(c, s, l);
    DecideOk(c, s, l);
    ApplyKeepsTasks(c, s, e);
    ApplyKeepsAccounts(c, s, e);
    ApplyKeepsLog(c, s, e);
    ApplyKeepsEvents(c, s, e);
    ApplyKeepsLineage(c, s, e);
    ApplyKeepsTrail(c, s, e);
    ApplyKeepsBudgets(c, s, e);
    ApplyKeepsCharges(c, s, e);
  }

  lemma {:induction false} RunInv(c: Config, s: State, schedule: seq<Label>)
    requires Inv(c, s)
    ensures Inv(c, Run(c, s, schedule))
    decreases |schedule|
  {
    hide Inv, Step;
    if schedule != [] {
      var n := |schedule| - 1;
      RunInv(c, s, schedule[..n]);
      StepInv(c, Run(c, s, schedule[..n]), schedule[n]);
    }
  }

  /** A state that some schedule reaches from the seeded one. */
  ghost predicate Reachable(c: Config, s: State) {
    exists schedule :: s == Run(c, Init(), schedule)
  }

  lemma ReachableInv(c: Config, s: State)
    requires Reachable(c, s)
    ensures Inv(c, s)
  {
    hide Inv, Run;
    var schedule :| s == Run(c, Init(), schedule);
    InitInv(c);
    RunInv(c, Init(), schedule);
  }

  lemma ReachableTasks(c: Config, s: State)
    requires Reachable(c, s)
    ensures TasksOk(c, s)
  {
    hide Run, TasksOk, AccountsOk, LogOk, EventsOk, LineageOk, BudgetsOk, ChargesOk, TrailOk;
    ReachableInv(c, s);
  }

  lemma {:induction false} RunAppend(c: Config, s: State, first: seq<Label>, later: seq<Label>)
    ensures Run(c, s, first + later) == Run(c, Run(c, s, first), later)
    decreases |later|
  {
    hide Step;
    if later == [] {
      assert first + later == first;
    } else {
      var n := |later| - 1;
      assert (first + later)[..|first| + n] == first + later[..n];
      RunAppend(c, s, first, later[..n]);
    }
  }

  lemma LaterReachable(c: Config, s: State, later: seq<Label>)
    requires Reachable(c, s)
    ensures Reachable(c, Run(c, s, later))
  {
    hide Run;
    var schedule :| s == Run(c, Init(), schedule);
    RunAppend(c, Init(), schedule, later);
  }

  // ----- receipts and checkpoints -------------------------------------------------------

  /**
   * Receipts stay provable: for every receipt ever returned, in every later
   * state and for every size that covers it, the audit path read from the store
   * makes the verifier accept it against the root of that size.
   */
  lemma ReceiptsStayProvable(c: Config, s: State, later: seq<Label>, r: Receipt, n: nat)
    requires Reachable(c, s) && r in s.receipts
    requires r.index < n <= |Run(c, s, later).db.events|
    ensures var db := Run(c, s, later).db;
            && InclusionProof(db.rows, r.index, n).Ok? && TreeHash(db.rows, 0, n).Ok?
            && Climb(r.hash, r.index, n - 1, InclusionProof(db.rows, r.index, n).value) == TreeHash(db.rows, 0, n).value
  {
    hide Run, TasksOk, AccountsOk, LogOk, EventsOk, LineageOk, BudgetsOk, StoreOk, InclusionProof, TreeHash, Climb,
         Mth, Path;
    var s' := Run(c, s, later);
    ReachableInv(c, s);
    LaterReachable(c, s, later);
    ReachableInv(c, s');
    RunGrows(c, s, later);
    var d := EventHashes(s'.db.events);
    assert r.hash == d[r.index];
    ProofCorrect(s'.db.rows, d, r.index, n);
    RootCorrect(s'.db.rows, d, n);
    VerifierDecidesPath(r.hash, r.index, d[..n], Path(r.index, d[..n]));
  }

  /** Nothing but the receipt's own hash, with its own audit path, is accepted at its index. */
  lemma OnlyTheReceiptVerifies(c: Config, s: State, r: Receipt, m: nat, h: Hash, proof: seq<Hash>)
    requires Reachable(c, s) && r in s.receipts
    requires m in s.db.checkpoints && r.index < m && |proof| == PathLength(r.index, m)
    ensures Climb(h, r.index, m - 1, proof) == s.db.checkpoints[m]
       <==> h == r.hash && InclusionProof(s.db.rows, r.index, m) == Ok(proof)
  {
    hide Run, TasksOk, AccountsOk, LogOk, EventsOk, LineageOk, BudgetsOk, StoreOk, InclusionProof, Climb, Mth, Path;
    ReachableInv(c, s);
    var d := EventHashes(s.db.events);
    ProofCorrect(s.db.rows, d, r.index, m);
    VerifierDecidesPath(h, r.index, d[..m], proof);
  }

  lemma CheckpointKept(c: Config, s: State, l: Label, m: nat)
    requires m in s.db.checkpoints
    ensures m in Step(c, s, l).db.checkpoints
  {
    hide Decide;
    var e := Decide(c, s, l);
    if !e.StoreCheckpoint? {
      hide Apply;
      EffectFrame(s, e);
    }
  }

  lemma {:induction false} CheckpointStays(c: Config, s: State, later: seq<Label>, m: nat)
    requires m in s.db.checkpoints
    ensures m in Run(c, s, later).db.checkpoints
    decreases |later|
  {
    hide Step;
    if later != [] {
      var n := |later| - 1;
      CheckpointStays(c, s, later[..n], m);
      CheckpointKept(c, Run(c, s, later[..n]), later[n], m);
    }
  }

  /** Checkpoints are permanent: each stays stored with its root, the tree head of its prefix. */
  lemma CheckpointsArePermanent(c: Config, s: State, later: seq<Label>, m: nat)
    requires Reachable(c, s) && m in s.db.checkpoints
    ensures var s' := Run(c, s, later);
            && m in s'.db.checkpoints && s'.db.checkpoints[m] == s.db.checkpoints[m]
            && 0 < m <= |s.db.events| <= |s'.db.events|
            && s.db.checkpoints[m] == Mth(EventHashes(s'.db.events)[..m])
  {
    hide Run, TasksOk, AccountsOk, LogOk, EventsOk, LineageOk, BudgetsOk, StoreOk, Mth;
    var s' := Run(c, s, later);
    ReachableInv(c, s);
    LaterReachable(c, s, later);
    ReachableInv(c, s');
    RunGrows(c, s, later);
    CheckpointStays(c, s, later, m);
    assert EventHashes(s'.db.events)[..m] == EventHashes(s.db.events)[..m];
  }

  // ----- energy ---------------------------------------------------------------------------

  /** Reservation accounting under any interleaving. */
  lemma ReservationsAccounted(c: Config, s: State, actor: Id)
    requires Reachable(c, s) && actor in s.db.ledger
    ensures s.db.ledger[actor].reserved
         == MapSum(s.db.holds, HoldClaim(actor)) + MapSum(s.tasks, TaskClaim(actor)) + StrandedBy(s.stranded, actor)
    ensures 0 <= s.db.ledger[actor].reserved <= s.db.ledger[actor].balance
  {
    hide Run, TasksOk, LogOk, EventsOk, LineageOk, BudgetsOk, TrailOk, MapSum;
    ReachableInv(c, s);
    assert ReservedOf(s.db.ledger, actor) == Owed(s, actor);
  }

  /** In every reachable state a pending hold can be answered and timed out: no settle fails. */
  lemma PendingHoldsResolve(c: Config, s: State, hold: Id, approve: bool, human: Id, now: nat)
    requires Reachable(c, s)
    ensures TxRespond(s.db, hold, approve, human, now).Ok? <==> hold in s.db.holds && s.db.holds[hold].status.Pending?
    ensures TxTimeout(s.db, hold, now).Ok? <==> hold in s.db.holds && s.db.holds[hold].status.Pending?
  {
    hide Run, LogOk, EventsOk, LineageOk, BudgetsOk, AccountsOk, TrailOk, TaskOk, AppendEvent;
    ReachableInv(c, s);
    if hold in s.db.holds && s.db.holds[hold].status.Pending? {
      var h := s.db.holds[hold];
      assert HoldOk(s.db, h);
      HoldSettles(s, hold);
      var ledger := Settle(s.db.ledger, h.agent, h.reserved, CommitmentCost(h.reserved)).value;
      AppendsOk(s, ledger, s.db.holds[hold := h.(status := Approved)]);
      AppendsOk(s, ledger, s.db.holds[hold := h.(status := Rejected)]);
      AppendsOk(s, ledger, s.db.holds[hold := h.(status := TimedOut)]);
      AppendsOk(s, s.db.ledger, s.db.holds[hold := h.(status := Approved)]);
    }
  }

  /** In every reachable state an event can be appended, whatever else the transaction wrote. */
  lemma AppendsOk(s: State, ledger: Ledger, holds: map<Id, Hold>)
    requires TrailOk(s)
    ensures forall e :: AppendEvent(s.db.(holds := holds, ledger := ledger), e).Ok?
  {
    hide AppendEvent, StoreOk;
    forall e
      ensures AppendEvent(s.db.(holds := holds, ledger := ledger), e).Ok?
    {
      AppendEventOk(s.db.(holds := holds, ledger := ledger), e);
    }
  }

  /** A commit fails only because its new row clashes or is refused, never over energy or the audit trail. */
  lemma CommitFailsOnlyOnClash(c: Config, s: State, tid: nat)
    requires Reachable(c, s) && tid in s.tasks && s.tasks[tid].pc.Reserved?
    ensures var t := s.tasks[tid];
            TxFinalize(s.db, t.action, t.pc.cost, t.pc.spec, t.pc.checked, t.via, s.now).Err?
            <==> Clashes(s.db, t.pc.spec)
  {
    hide Run, LogOk, EventsOk, LineageOk, BudgetsOk, TasksOk, StoreOk, AppendEvent, Balanced, Replayed, RowsOk,
         ApplySpec, Clashes;
    ReachableInv(c, s);
    var t := s.tasks[tid];
    TaskSettles(c, s, tid);
    var ledger :=
          if t.pc.cost == 0 then s.db.ledger else Settle(s.db.ledger, t.action.actor, t.pc.cost, t.pc.cost).value;
    var db := s.db.(ledger := ledger);
    SpecClashes(db, t.action, t.pc.spec, s.now);
    SameClashes(db, s.db, t.pc.spec);
    if ApplySpec(db, t.action, t.pc.spec, s.now).Ok? {
      AppendEventOk(ApplySpec(db, t.action, t.pc.spec, s.now).value,
                    Event(t.action.actor, t.action.target, t.pc.cost, t.pc.cost, s.now,
                            Acted(t.action.kind, t.pc.checked, t.via)));
    }
  }

  lemma SpecClashes(db: Db, a: Action, spec: Spec, now: nat)
    requires db.ledger.Keys == db.actors.Keys
    ensures ApplySpec(db, a, spec, now).Err? <==> Clashes(db, spec)
  {
    hide Blank;
  }

  lemma SameClashes(p: Db, q: Db, spec: Spec)
    requires p.actors == q.actors && p.envelopes == q.envelopes
    ensures Clashes(p, spec) == Clashes(q, spec)
  {
  }

  /** The creation of the task's rows is refused. */
  predicate Clashes(db: Db, spec: Spec) {
    || (spec.NewActor? && (Blank(spec.request.id) || spec.request.balance < 0 || spec.request.id in db.actors))
    || (spec.NewEnvelope? && spec.id in db.envelopes)
  }

  /** The ledger refines log replay: a balance is what was minted minus what the log settled. */
  lemma LedgerRefinesReplay(c: Config, s: State, actor: Id)
    requires Reachable(c, s) && actor in s.db.ledger
    ensures actor in s.minted && s.db.ledger[actor].balance == s.minted[actor] - Settled(s.db.events, actor)
  {
    hide Run, TasksOk, LogOk, EventsOk, LineageOk, BudgetsOk, TrailOk, Settled;
    ReachableInv(c, s);
    assert BalanceOf(s.db.ledger, actor) == MintedOf(s.minted, actor) - Settled(s.db.events, actor);
  }

  /** Conservation: all energy ever minted is in a balance or was settled by an event of the log. */
  lemma EnergyIsConserved(c: Config, s: State)
    requires Reachable(c, s)
    ensures TotalMinted(s.minted) == TotalBalance(s.db.ledger) + TotalSettled(s.db.events)
  {
    hide Run, TasksOk, AccountsOk, LogOk, EventsOk, LineageOk, BudgetsOk, TrailOk, TotalMinted, TotalBalance,
         TotalSettled;
    ReachableInv(c, s);
    BooksBalance(c, s);
  }

  /** Only ticks and grants to new actors mint: a tick its whole production, a grant its announced balance. */
  lemma MintingIsAnnounced(c: Config, s: State, l: Label)
    requires Reachable(c, s)
    ensures TotalMinted(Step(c, s, l).minted) == TotalMinted(s.minted) + Mints(c, s, Decide(c, s, l))
  {
    hide Run, Step, TasksOk, AccountsOk, LogOk, EventsOk, LineageOk, BudgetsOk, TrailOk, TotalMinted, Mints, Decide;
    ReachableInv(c, s);
    StepMints(c, s, l);
  }

  // ----- holds ----------------------------------------------------------------------------

  /** The hold table is a view of the log: pending means requested and not yet resolved. */
  lemma HoldTableIsView(c: Config, s: State, h: Id)
    requires Reachable(c, s)
    ensures h in s.db.holds && s.db.holds[h].status.Pending?
       <==> (exists i | 0 <= i < |s.db.events| :: Requests(s.db.events[i], h))
            && (forall k | 0 <= k < |s.db.events| :: !Resolves(s.db.events[k], h))
    ensures forall k | 0 <= k < |s.db.events| && Resolves(s.db.events[k], h) ::
              h in s.db.holds && s.db.holds[h].status == Outcome(s.db.events[k])
  {
    hide Run, TasksOk, AccountsOk, EventsOk, LineageOk, BudgetsOk, TrailOk, OwnedOnce, View, LegalLog;
    ReachableInv(c, s);
    PendingMeansUnresolved(s.db.events, h);
    forall k | 0 <= k < |s.db.events| && Resolves(s.db.events[k], h)
      ensures h in s.db.holds && s.db.holds[h].status == Outcome(s.db.events[k])
    {
      ResolutionKnown(s.db.events, k, h);
    }
  }

  /** A hold leaves Pending at most once, and nothing else about it ever changes. */
  lemma HoldsNeverChangeAgain(c: Config, s: State, later: seq<Label>, h: Id)
    requires h in s.db.holds
    ensures var s' := Run(c, s, later);
            && h in s'.db.holds && s'.db.holds[h] == s.db.holds[h].(status := s'.db.holds[h].status)
            && (!s.db.holds[h].status.Pending? ==> s'.db.holds[h] == s.db.holds[h])
  {
    hide Run;
    RunGrows(c, s, later);
  }

  /**
   * No held action commits without a human: an agent's state-changing event that
   * any hold rule of the envelope it was checked against is about comes after its
   * own hold_request and a human's approving hold_response, for the same action
   * and target, and settles exactly the quote made at trigger time.
   */
  lemma NoHeldActionWithoutHuman(c: Config, s: State, n: nat, rule: HoldRule) returns (h: Id, i: nat, k: nat)
    requires Reachable(c, s) && n < |s.db.events|
    requires var e := s.db.events[n];
             && e.body.Acted? && e.body.kind.StateChanging() && Is(s.db, e.actor, Agent)
             && e.body.checked.Some? && e.body.checked.value in s.db.envelopes
             && rule in s.db.envelopes[e.body.checked.value].holdOn
             && c.glob(rule.target, e.target) && e.body.kind.Name() in rule.actions
    ensures var events := s.db.events;
            && i < k < n && Requests(events[i], h) && Executes(events[n], h)
            && events[k].body == HoldResponded(h, events[n].actor, true) && Is(s.db, events[k].actor, Human)
            && events[i].actor == events[n].actor
            && events[i].body.pending == events[n].body.kind && events[i].body.pendingTarget == events[n].target
            && events[n].settled == events[n].reserved == events[i].reserved > 0
  {
    hide Run, TasksOk, AccountsOk, LineageOk, BudgetsOk, TrailOk, OwnedOnce, View, LegalLog, Used, HoldTriggered;
    ReachableInv(c, s);
    var events := s.db.events;
    assert EventOk(c, s.db, events[n]);
    RuleTriggers(c, s.db.envelopes[events[n].body.checked.value].holdOn, rule, events[n].target, events[n].body.kind);
    h := events[n].body.via.value;
    i, k := ExecutedAfterApproval(events, n, h);
    assert EventOk(c, s.db, events[k]);
    HeldDetails(events, n, i, k, h);
  }

  lemma RuleTriggers(c: Config, rules: seq<HoldRule>, rule: HoldRule, target: string, kind: ActionType)
    requires rule in rules && c.glob(rule.target, target) && kind.Name() in rule.actions
    ensures HoldTriggered(c, rules, target, kind)
  {
  }

  /**
   * Nothing is held without a rule: every hold_request is about an action that some
   * rule of the hold's envelope names, on a target that the rule is about.
   */
  lemma NoHoldWithoutRule(c: Config, s: State, i: nat) returns (rule: HoldRule)
    requires Reachable(c, s) && i < |s.db.events| && s.db.events[i].body.HoldRequested?
    ensures var e := s.db.events[i];
            && e.body.hold in s.db.holds && s.db.holds[e.body.hold].envelope in s.db.envelopes
            && var envelope := s.db.envelopes[s.db.holds[e.body.hold].envelope];
               && envelope.actor == e.actor && rule in envelope.holdOn
               && c.glob(rule.target, e.body.pendingTarget) && e.body.pending.Name() in rule.actions
  {
    hide Run, TasksOk, AccountsOk, LogOk, LineageOk, BudgetsOk, ChargesOk, TrailOk, UnheldOk, Bounded;
    ReachableInv(c, s);
    var e := s.db.events[i];
    assert EventOk(c, s.db, e);
    rule :| rule in s.db.envelopes[s.db.holds[e.body.hold].envelope].holdOn
         && c.glob(rule.target, e.body.pendingTarget) && e.body.pending.Name() in rule.actions;
  }

  lemma HeldDetails(events: seq<Event>, n: nat, i: nat, k: nat, h: Id)
    requires LegalLog(events) && i < k < n < |events| && Executes(events[n], h)
    requires Requests(events[i], h) && Resolves(events[k], h) && events[i].actor == events[n].actor
    ensures events[n].settled == events[n].reserved
    ensures events[k].body.HoldResponded? ==> events[k].body.agent == events[n].actor
  {
    hide View, LegalLog, Used;
    LegalPrefix(events, n);
    LegalPrefix(events, k);
    var i' := RequestFound(events[..k], h);
    if i < i' {
      AtMostOnce(events[..k], h, i, i');
    } else if i' < i {
      AtMostOnce(events[..k], h, i', i);
    }
  }

  /** A hold is requested once, resolved at most once, and yields at most one executed action. */
  lemma EachHoldOnce(c: Config, s: State, h: Id, i: nat, j: nat)
    requires Reachable(c, s) && i < j < |s.db.events|
    ensures !(Requests(s.db.events[i], h) && Requests(s.db.events[j], h))
    ensures !(Resolves(s.db.events[i], h) && Resolves(s.db.events[j], h))
    ensures !(Executes(s.db.events[i], h) && Executes(s.db.events[j], h))
  {
    hide Run, TasksOk, AccountsOk, EventsOk, LineageOk, BudgetsOk, TrailOk, OwnedOnce, LegalLog;
    ReachableInv(c, s);
    AtMostOnce(s.db.events, h, i, j);
  }

  /**
   * The event that resolves a hold follows its request and charges the same agent:
   * nothing on approve, else a fifth.
   */
  lemma ResolutionFollowsRequest(c: Config, s: State, h: Id, k: nat) returns (i: nat)
    requires Reachable(c, s) && k < |s.db.events| && Resolves(s.db.events[k], h)
    ensures var e := s.db.events[k];
            && i < k && Requests(s.db.events[i], h)
            && Charged(e) == s.db.events[i].actor && e.reserved == s.db.events[i].reserved > 0
            && e.settled == if Outcome(e) == Approved then 0 else CommitmentCost(e.reserved)
  {
    hide Run, TasksOk, AccountsOk, EventsOk, LineageOk, BudgetsOk, TrailOk, OwnedOnce, LegalLog, View, Used;
    ReachableInv(c, s);
    LegalPrefix(s.db.events, k);
    i := RequestFound(s.db.events[..k], h);
  }

  /**
   * Every committed action is within its actor's writable boundary, and an agent's
   * state-changing action is in the scope of an envelope of its own.
   */
  lemma ActionsStayInBounds(c: Config, s: State, n: nat)
    requires Reachable(c, s) && n < |s.db.events| && s.db.events[n].body.Acted?
    ensures var e := s.db.events[n];
            && e.actor in s.db.actors && MayWrite(c, s.db.actors[e.actor], e.target, e.body.kind)
            && (Is(s.db, e.actor, Agent) && e.body.kind.StateChanging() ==>
                  && e.body.checked.Some? && e.body.checked.value in s.db.envelopes
                  && var envelope := s.db.envelopes[e.body.checked.value];
                     && envelope.actor == e.actor && e.body.kind.Name() in envelope.actions
                     && exists p | p in envelope.targets :: c.glob(p, e.target))
  {
    hide Run, TasksOk, AccountsOk, LogOk, LineageOk, BudgetsOk, TrailOk, HoldTriggered, WithinBoundary, MayWrite;
    ReachableInv(c, s);
    var e := s.db.events[n];
    assert EventOk(c, s.db, e);
    BoundaryDecides(c, s.db.actors[e.actor], e.target, e.body.kind);
  }

  /** The recursion of `submit_action` through `execute_hold_response` nests at most once. */
  lemma RecursionIsBounded(c: Config, s: State, tid: nat)
    requires Reachable(c, s) && tid in s.tasks
    ensures s.tasks[tid].depth <= 1
    ensures s.tasks[tid].pc.Responding? ==> s.tasks[tid].depth == 0
  {
    hide Run, AccountsOk, LogOk, EventsOk, LineageOk, BudgetsOk, TrailOk, ViaOk, MeterOk;
    ReachableInv(c, s);
    assert TaskOk(c, s.db, s.tasks[tid]);
  }

  // ----- the kernel's own startup check ------------------------------------------------------

  const KNOWN_ACTION_TYPES := ["observe", "create", "mutate", "execute", "circuit_breaker",
                               "hold_request", "hold_response", "hold_timeout"]

  /** `run_startup_integrity_checks`; audit coverage only warns. */
  predicate StartupChecksPass(db: Db) {
    && !(exists a | a in db.ledger ::
           db.ledger[a].reserved < 0 || db.ledger[a].balance < 0 || db.ledger[a].reserved > db.ledger[a].balance)
    && !(exists e | e in db.events :: e.body.Name() !in KNOWN_ACTION_TYPES)
    && !(exists e | e in db.events ::
           || (e.body.Name() in ["mutate", "execute"] && (e.reserved <= 0 || e.settled <= 0))
           || e.reserved < 0 || e.settled < 0)
  }

  lemma NamesKnown(b: Body)
    ensures b.Name() in KNOWN_ACTION_TYPES
    ensures b.Name() in ["mutate", "execute"] ==> b.Acted?
  {
    assert KNOWN_ACTION_TYPES[0] == "observe" && KNOWN_ACTION_TYPES[1] == "create";
    assert KNOWN_ACTION_TYPES[2] == "mutate" && KNOWN_ACTION_TYPES[3] == "execute";
    assert KNOWN_ACTION_TYPES[5] == "hold_request" && KNOWN_ACTION_TYPES[6] == "hold_response";
    assert KNOWN_ACTION_TYPES[7] == "hold_timeout";
    assert "hold_request"[0] == 'h' && "hold_response"[0] == 'h' && "hold_timeout"[0] == 'h';
    assert "mutate"[0] == 'm' && "execute"[0] == 'e';
  }

  /** Every reachable state passes the kernel's own startup check. */
  lemma StartupChecksAlwaysPass(c: Config, s: State)
    requires Reachable(c, s)
    ensures StartupChecksPass(s.db)
  {
    hide Run, TasksOk, LogOk, LineageOk, BudgetsOk, TrailOk, Balanced, Replayed, UnheldOk;
    ReachableInv(c, s);
    forall e | e in s.db.events
      ensures e.body.Name() in KNOWN_ACTION_TYPES
      ensures !(e.body.Name() in ["mutate", "execute"] && (e.reserved <= 0 || e.settled <= 0))
      ensures e.reserved >= 0 && e.settled >= 0
    {
      var i :| 0 <= i < |s.db.events| && s.db.events[i] == e;
      assert EventOk(c, s.db, s.db.events[i]);
      NamesKnown(e.body);
    }
  }

  // ----- actors ----------------------------------------------------------------------------

  /** Every agent's lineage is exactly one existing human. */
  lemma AgentsHaveOneHuman(c: Config, s: State, id: Id)
    requires Reachable(c, s) && id in s.db.actors && s.db.actors[id].kind.Agent?
    ensures |s.db.actors[id].lineage| == 1 && Is(s.db, s.db.actors[id].lineage[0], Human)
  {
    hide Run, TasksOk, AccountsOk, LogOk, EventsOk, BudgetsOk, TrailOk;
    ReachableInv(c, s);
    assert ActorOk(c, s.db.actors, id);
  }

  /** A submission that would change state fails at once while its actor, or an agent's lineage, is frozen. */
  lemma FrozenCannotAct(c: Config, s: State, tid: nat, envelope: Option<Id>, pending: seq<Id>)
    requires Reachable(c, s) && tid in s.tasks && s.tasks[tid].pc.Entered? && s.tasks[tid].action.kind.StateChanging()
    requires s.tasks[tid].action.actor in s.db.actors
    requires var actor := s.db.actors[s.tasks[tid].action.actor];
             || actor.status.Frozen?
             || (actor.kind.Agent? && actor.creator.Some? && actor.creator.value in s.db.actors
                 && s.db.actors[actor.creator.value].status.Frozen?)
    ensures Step(c, s, Authorize(tid, envelope, pending)) == Fail(s, tid)
  {
    hide Run, TasksOk, AccountsOk, LogOk, EventsOk, BudgetsOk, TrailOk, WithinBoundary, ValidAction, DecideMode, Fail;
    ReachableInv(c, s);
    var id := s.tasks[tid].action.actor;
    assert ActorOk(c, s.db.actors, id);
    if s.db.actors[id].kind.Agent? {
      assert s.db.actors[id].creator.value in s.db.actors[id].lineage;
    }
  }

  /** What a human or an agent hands to an actor it creates stays within what it may write itself. */
  lemma BoundariesOnlyShrink(c: Config, s: State, id: Id, w: WritableTarget)
    requires Reachable(c, s) && id in s.db.actors && s.db.actors[id].creator.Some? && w in s.db.actors[id].writable
    ensures s.db.actors[id].creator.value in s.db.actors
    ensures exists p | p in s.db.actors[s.db.actors[id].creator.value].writable ::
              && (p.target == "**" || p.target == w.target || c.glob(p.target, w.target))
              && forall x | x in w.actions :: x in p.actions
  {
    hide Run, TasksOk, AccountsOk, LogOk, EventsOk, BudgetsOk, TrailOk;
    ReachableInv(c, s);
    assert ActorOk(c, s.db.actors, id);
    var p :| p in s.db.actors[s.db.actors[id].creator.value].writable
      && PatternCovers(c, p.target, w.target) && forall x | x in w.actions :: x in p.actions;
  }

  /** The task goes on, checked against this envelope. */
  predicate AuthorizedUnder(pc: Pc, envelope: Option<Id>) {
    (pc.Cleared? || pc.Expiring?) && pc.checked.Some? && pc.checked == envelope
  }

  /**
   * When an agent's state-changing submission is authorized, and with what: it names
   * its actor and target, the agent and its creator are active, it is within its
   * boundary, and its latest active envelope is not past its deadline, has budget
   * left and covers the action.
   */
  lemma AgentAuthorizedExactly(c: Config, s: State, tid: nat, envelope: Option<Id>, pending: seq<Id>)
    requires Reachable(c, s) && tid in s.tasks && s.tasks[tid].pc.Entered?
    requires var a := s.tasks[tid].action; a.kind != Observe && Is(s.db, a.actor, Agent)
    requires IsActiveEnvelope(s.db, s.tasks[tid].action.actor, envelope)
    requires envelope.Some? ==> IsPendingList(s.db.holds, envelope.value, pending)
    ensures var a, s' := s.tasks[tid].action, Step(c, s, Authorize(tid, envelope, pending));
            var actor := s.db.actors[a.actor];
            tid in s'.tasks && AuthorizedUnder(s'.tasks[tid].pc, envelope) <==>
              && Named(a.actor) && Named(a.target) && actor.status.Active?
              && (exists creator | creator in s.db.actors ::
                    actor.creator == Some(creator) && s.db.actors[creator].status.Active?)
              && MayWrite(c, actor, a.target, a.kind)
              && envelope.Some? && s.db.envelopes[envelope.value].status.EnvActive?
              && !PastDeadline(s.db.envelopes[envelope.value], s.now)
              && s.db.envelopes[envelope.value].consumed < s.db.envelopes[envelope.value].budget
              && InScope(c, s.db.envelopes[envelope.value], a.target, a.kind)
  {
    hide Run, TasksOk, AccountsOk, LogOk, EventsOk, BudgetsOk, ChargesOk, TrailOk, LineageOk, WithinBoundary,
         ValidAction, MayWrite, Named, PastDeadline, IsPendingList, IsExpired, InScope, Admitted, Step;
    ReachableInv(c, s);
    AdmittedAgent(c, s.db, s.tasks[tid].action);
    StepAuthorizes(c, s, tid, envelope, pending);
    if envelope.Some? {
      ExpiryDecides(s.db.envelopes[envelope.value], s.now);
    }
  }

  lemma AdmittedAgent(c: Config, db: Db, a: Action)
    requires LineageOk(c, db.actors) && Is(db, a.actor, Agent) && a.kind.StateChanging()
    ensures var actor := db.actors[a.actor];
            Admitted(c, db, a) <==>
              && Named(a.actor) && Named(a.target) && actor.status.Active?
              && (exists creator | creator in db.actors ::
                    actor.creator == Some(creator) && db.actors[creator].status.Active?)
              && MayWrite(c, actor, a.target, a.kind)
  {
    hide WithinBoundary, MayWrite, Blank, Named, ChildTargetsCovered;
    BlankDecides(a.actor);
    BlankDecides(a.target);
    BoundaryDecides(c, db.actors[a.actor], a.target, a.kind);
    var actor := db.actors[a.actor];
    assert ActorOk(c, db.actors, a.actor);
    assert actor.lineage == [actor.creator.value];
    assert LineageActive(db.actors, actor.lineage) <==> db.actors[actor.creator.value].status.Active?;
  }

  lemma StepAuthorizes(c: Config, s: State, tid: nat, envelope: Option<Id>, pending: seq<Id>)
    requires tid in s.tasks && s.tasks[tid].pc.Entered?
    requires s.tasks[tid].action.kind.StateChanging() && Is(s.db, s.tasks[tid].action.actor, Agent)
    requires IsActiveEnvelope(s.db, s.tasks[tid].action.actor, envelope)
    requires envelope.Some? ==> IsPendingList(s.db.holds, envelope.value, pending)
    ensures var a, s' := s.tasks[tid].action, Step(c, s, Authorize(tid, envelope, pending));
            tid in s'.tasks && AuthorizedUnder(s'.tasks[tid].pc, envelope) <==>
              && Admitted(c, s.db, a)
              && envelope.Some? && s.db.envelopes[envelope.value].status.EnvActive?
              && !IsExpired(s.db.envelopes[envelope.value], s.now)
              && s.db.envelopes[envelope.value].consumed < s.db.envelopes[envelope.value].budget
              && InScope(c, s.db.envelopes[envelope.value], a.target, a.kind)
  {
    hide IsPendingList, IsExpired, InScope, Admitted, DecideTask, DecideMode;
    AuthorizeCases(c, s, tid);
    ModeAuthorizes(c, s, tid, envelope, pending);
  }

  lemma ModeAuthorizes(c: Config, s: State, tid: nat, envelope: Option<Id>, pending: seq<Id>)
    requires tid in s.tasks && Is(s.db, s.tasks[tid].action.actor, Agent)
    requires IsActiveEnvelope(s.db, s.tasks[tid].action.actor, envelope)
    requires envelope.Some? ==> IsPendingList(s.db.holds, envelope.value, pending)
    ensures var a, e := s.tasks[tid].action, DecideMode(c, s, tid, envelope, pending);
            if envelope.Some? && s.db.envelopes[envelope.value].consumed < s.db.envelopes[envelope.value].budget
               && InScope(c, s.db.envelopes[envelope.value], a.target, a.kind)
            then e.Move? && e.tid == tid && AuthorizedUnder(e.pc, envelope)
            else e == FailTask(tid)
  {
    hide IsPendingList;
  }
}

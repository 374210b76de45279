/** Runs of one agent under one envelope that show what budgets and holds do not promise. */
module AgentScenarios {
  import opened Basics
  import opened Consent
  import opened Database
  import opened Kernel
  import opened Tasks
  import opened Delegation
  import opened Charges
  import opened Theorems
  import opened Walks
  import opened Envelopes
  import opened Scenarios

  const AGENT := "a"
  const ENVELOPE := "e"
  const AGENT_TARGETS := [WritableTarget("**", ["mutate", "execute"])]

  function AgentRow(): (a: Actor) {
    Actor(Agent, Some(ROOT), [ROOT], Active, AGENT_TARGETS, 0.0)
  }

  function Terms(budget: int, reportEvery: Option<int>, holdOn: seq<HoldRule>): (q: EnvelopeRequest) {
    EnvelopeRequest(AGENT, budget, ["**"], ["mutate", "execute"], None, reportEvery, holdOn, None)
  }

  /** The agent's envelope, after some of its budget was consumed. */
  function Row(budget: int, reportEvery: Option<int>, holdOn: seq<HoldRule>, consumed: nat): (e: Envelope) {
    Envelope(AGENT, ROOT, None, budget, consumed, ["**"], ["mutate", "execute"],
             reportEvery, holdOn, None, EnvActive, 0, None, 1)
  }

  /** Root and one agent with one envelope, and the agent's account. */
  ghost predicate Stage(s: State, row: Envelope, account: Account) {
    && s.db.actors == Init().db.actors[AGENT := AgentRow()]
    && s.db.envelopes == map[ENVELOPE := row]
    && s.db.ledger.Keys == {ROOT, AGENT} && s.db.ledger[AGENT] == account
    && s.db.ledger[ROOT] == Account(ROOT_BALANCE - 22, 0)
    && s.db.holds == map[] && s.stranded == map[] && s.now == 0
  }

  function MakeEnvelope(budget: int, reportEvery: Option<int>, holdOn: seq<HoldRule>): (a: Action) {
    Action(ROOT, Create, "ledger/envelope", PLAIN.(envelope := Some(Terms(budget, reportEvery, holdOn))))
  }

  lemma RootMayGrant(c: Config, s: State, budget: int, reportEvery: Option<int>, holdOn: seq<HoldRule>)
    requires Reachable(c, s) && Everywhere(c) && s.db.envelopes == map[] && budget > 0
    requires ROOT in s.db.ledger && s.db.ledger[ROOT].balance - s.db.ledger[ROOT].reserved >= 11
    ensures var a := MakeEnvelope(budget, reportEvery, holdOn);
            QuoteCost(a) == 11
            && MayCommit(c, s, a, None, ENVELOPE, NewEnvelope(ENVELOPE, Terms(budget, reportEvery, holdOn), None))
  {
    hide Run, Reachable, Everywhere, MayCommit;
    RootRow(c, s);
    TargetsNamed();
    RootMay(c, s, MakeEnvelope(budget, reportEvery, holdOn), ENVELOPE,
                NewEnvelope(ENVELOPE, Terms(budget, reportEvery, holdOn), None));
  }

  /** Root makes the agent and grants it the envelope. */
  lemma Setup(c: Config, balance: nat, budget: int, reportEvery: Option<int>, holdOn: seq<HoldRule>)
    returns (schedule: seq<Label>, s: State)
    requires Everywhere(c) && budget > 0
    ensures s == Run(c, Init(), schedule) && Reachable(c, s)
    ensures Stage(s, Row(budget, reportEvery, holdOn, 0), Account(balance, 0)) && s.tasks == map[] && s.meter == []
  {
    hide Run, Reachable, Everywhere, HumanSteps, MayCommit, QuoteCost, Blank;
    StartReachable(c);
    AgentNamed();
    var q := ActorRequest(AGENT, Agent, balance, 0.0, AGENT_TARGETS);
    var l1 := HumanSteps(0, MakeActor(AGENT, Agent, balance, AGENT_TARGETS), "");
    var l2 := HumanSteps(0, MakeEnvelope(budget, reportEvery, holdOn), ENVELOPE);
    var s1 := RootMakes(c, Init(), q);
    LaterReachable(c, Init(), l1);
    RootMayGrant(c, s1, budget, reportEvery, holdOn);
    s := HumanWalks(c, s1, 0, MakeEnvelope(budget, reportEvery, holdOn), ENVELOPE,
                    NewEnvelope(ENVELOPE, Terms(budget, reportEvery, holdOn), None));
    LaterReachable(c, s1, l2);
    schedule := l1 + l2;
    RunAppend(c, Init(), l1, l2);
  }

  lemma AgentNamed()
    ensures !Blank(AGENT) && AGENT != ROOT
  {
    assert AGENT[0] in AGENT && |AGENT| == 1;
  }

  // ----- the agent's own submissions ----------------------------------------------------------

  /** A mutate for 16, or an execute for 26. */
  function Work(kind: ActionType): (a: Action) {
    Action(AGENT, kind, "note", PLAIN)
  }

  lemma AgentAdmitted(c: Config, s: State, row: Envelope, account: Account, kind: ActionType)
    requires Stage(s, row, account) && Everywhere(c) && (kind.Mutate? || kind.Execute?)
    ensures Admitted(c, s.db, Work(kind)) && QuoteCost(Work(kind)) == if kind.Mutate? then 16 else 26
    ensures ParseHoldResponse(Work(kind)).None? && ParseSpec(c, s.db, Work(kind), "", Some(ENVELOPE)) == Ok(NoSpec)
  {
    var a := Work(kind);
    AgentNamed();
    assert a.target[0] in a.target && a.target[0] == 'n' && HOLD_PREFIX[0] == 'l' && ACTOR_PREFIX[0] == 'a';
    assert "system/"[0] == 's' && "ledger/"[0] == 'l';
    assert AGENT_TARGETS[0] in AGENT_TARGETS;
    var actions := AGENT_TARGETS[0].actions;
    assert actions[0] == "mutate" && actions[1] == "execute";
    assert c.glob("**", a.target);
  }

  lemma AgentMay(c: Config, s: State, budget: int, reportEvery: Option<int>, consumed: nat, account: Account,
                 kind: ActionType)
    requires Stage(s, Row(budget, reportEvery, [], consumed), account) && Everywhere(c)
             && (kind.Mutate? || kind.Execute?)
    requires consumed < budget && account.balance - account.reserved >= 26
    ensures MayCommit(c, s, Work(kind), Some(ENVELOPE), "", NoSpec)
  {
    hide Admitted, ParseSpec, ParseHoldResponse, QuoteCost, AgentRow;
    AgentAdmitted(c, s, Row(budget, reportEvery, [], consumed), account, kind);
    var row := Row(budget, reportEvery, [], consumed);
    EnvelopeInScope(c, row, Work(kind));
    assert AgentRow().kind.Agent? by {
      AgentIsAgent();
    }
  }

  lemma AgentIsAgent()
    ensures AgentRow().kind.Agent?
  {
  }

  lemma EnvelopeInScope(c: Config, row: Envelope, a: Action)
    requires Everywhere(c) && row.targets == ["**"] && row.actions == ["mutate", "execute"] && row.consumed < row.budget
    requires a.kind.Mutate? || a.kind.Execute?
    ensures EnvelopeCovers(c, row, a.target, a.kind)
  {
    assert row.targets[0] in row.targets && row.actions[0] in row.actions && row.actions[1] in row.actions;
  }

  /** One uninterrupted submission of the agent. */
  lemma AgentWalks(c: Config, s: State, budget: int, reportEvery: Option<int>, consumed: nat, account: Account,
                   kind: ActionType)
    returns (schedule: seq<Label>, r: State)
    requires Reachable(c, s) && Everywhere(c) && s.tasks == map[]
    requires Stage(s, Row(budget, reportEvery, [], consumed), account) && (kind.Mutate? || kind.Execute?)
    requires consumed < budget && account.balance - account.reserved >= 26
    ensures r == Run(c, s, schedule) && r.tasks == map[]
    ensures var cost := if kind.Mutate? then 16 else 26;
            var charge := ChargeFor(Row(budget, reportEvery, [], consumed), ENVELOPE, |s.db.events|, cost);
            && r.meter == s.meter + [Consumption(charge, consumed, consumed + cost <= budget)]
            && (consumed + cost > budget ==>
                  Stage(r, Row(budget, reportEvery, [], consumed), Account(account.balance - cost, account.reserved)))
  {
    hide Run, Reachable, Everywhere, MayCommit, QuoteCost, ToMeter, FromMeter, CheckCheckpoint;
    AgentMay(c, s, budget, reportEvery, consumed, account, kind);
    AgentAdmitted(c, s, Row(budget, reportEvery, [], consumed), account, kind);
    var a, cost := Work(kind), if kind.Mutate? then 16 else 26;
    var charge := ChargeFor(Row(budget, reportEvery, [], consumed), ENVELOPE, |s.db.events|, cost);
    var mid := AgentReachesMeter(c, s, 0, a, ENVELOPE);
    AgentFinishes(c, mid, 0, a, charge);
    r := Charged(mid, charge);
    schedule := ToMeter(0, a, ENVELOPE) + FromMeter(0);
    RunAppend(c, s, ToMeter(0, a, ENVELOPE), FromMeter(0));
  }

  // ----- a budget does not bound what is spent -------------------------------------------------

  lemma DroppedOneMore(meter: seq<Consumption>, m: Consumption, id: Id)
    requires m.charge.envelope == id && !m.kept
    ensures Dropped(meter + [m], id) == Dropped(meter, id) + m.charge.amount
  {
    assert (meter + [m])[..|meter|] == meter;
  }

  /** The agent executes for 26 under a budget of 20, again and again. */
  lemma {:induction false} KeepsOvershooting(c: Config, total: nat, n: nat) returns (schedule: seq<Label>, s: State)
    requires Everywhere(c) && n <= total
    ensures s == Run(c, Init(), schedule) && Reachable(c, s) && s.tasks == map[]
    ensures Stage(s, Row(20, None, [], 0), Account(26 * (total - n), 0)) && Dropped(s.meter, ENVELOPE) == 26 * n
    decreases n
  {
    hide Run, Reachable, Everywhere, Dropped, CheckCheckpoint;
    if n == 0 {
      schedule, s := Setup(c, 26 * total, 20, None, []);
      NothingDropped();
    } else {
      var l, before := KeepsOvershooting(c, total, n - 1);
      var more, after := AgentWalks(c, before, 20, None, 0, Account(26 * (total - n + 1), 0), Execute);
      schedule, s := l + more, after;
      RunAppend(c, Init(), l, more);
      LaterReachable(c, before, more);
      DroppedOneMore(before.meter, after.meter[|before.meter|], ENVELOPE);
    }
  }

  lemma NothingDropped()
    ensures Dropped([], ENVELOPE) == 0
  {
  }

  /**
   * A budget does not bound what is spent: for every n there is a run after which
   * an agent has spent 26 n under a budget of 20 that is still active and untouched.
   */
  lemma SpendingIsUnbounded(c: Config, n: nat) returns (schedule: seq<Label>)
    requires Everywhere(c)
    ensures var s := Run(c, Init(), schedule);
            && ENVELOPE in s.db.envelopes && s.db.envelopes[ENVELOPE] == Row(20, None, [], 0)
            && SpentUnder(s, ENVELOPE) == 26 * n
  {
    hide Run, Reachable, Everywhere, SpentUnder, Dropped;
    var s: State;
    schedule, s := KeepsOvershooting(c, n, n);
    SpendingAgainstBudget(c, s, ENVELOPE);
  }

  // ----- overlapping submissions miss the halt --------------------------------------------------

  /** The task between its budget read and its charge. */
  function AtMeter(charge: Charge): (t: Task) {
    Task(Work(Mutate), None, 0, 0, Metering(NoSpec, charge))
  }

  /** Two mutates of 16, both decided on when nothing was consumed and nothing seemed to be crossed. */
  lemma TwoMetering(c: Config, budget: int, reportEvery: Option<int>)
    returns (schedule: seq<Label>, s: State, one: Charge, two: Charge)
    requires Everywhere(c) && budget > 16 && (reportEvery.Some? ==> reportEvery.value > 16)
    ensures s.tasks == map[] && s.db.envelopes == map[ENVELOPE := Row(budget, reportEvery, [], 0)] && s.meter == []
    ensures one == Charge(ENVELOPE, one.event, 0, 16, NoCheckpoint)
    ensures two == Charge(ENVELOPE, two.event, 0, 16, NoCheckpoint)
    ensures Run(c, Init(), schedule) == With(With(s, 2, AtMeter(two)), 1, AtMeter(one))
  {
    hide Run, Reachable, Everywhere, MayCommit, QuoteCost, ToMeter;
    var row, a := Row(budget, reportEvery, [], 0), Work(Mutate);
    var l0, s0 := Setup(c, 100, budget, reportEvery, []);
    AgentMay(c, s0, budget, reportEvery, 0, Account(100, 0), Mutate);
    AgentAdmitted(c, s0, row, Account(100, 0), Mutate);
    one := ChargeFor(row, ENVELOPE, |s0.db.events|, 16);
    var mid := AgentReachesMeter(c, s0, 1, a, ENVELOPE);
    var s1 := With(mid, 1, AtMeter(one));
    LaterReachable(c, s0, ToMeter(1, a, ENVELOPE));
    AgentMay(c, s1, budget, reportEvery, 0, Account(84, 0), Mutate);
    two := ChargeFor(row, ENVELOPE, |s1.db.events|, 16);
    var last := AgentReachesMeter(c, s1, 2, a, ENVELOPE);
    s := last.(tasks := map[]);
    assert map[1 := AtMeter(one)][2 := AtMeter(two)] == map[2 := AtMeter(two)][1 := AtMeter(one)];
    schedule := l0 + ToMeter(1, a, ENVELOPE) + ToMeter(2, a, ENVELOPE);
    RunAppend(c, Init(), l0, ToMeter(1, a, ENVELOPE));
    RunAppend(c, Init(), l0 + ToMeter(1, a, ENVELOPE), ToMeter(2, a, ENVELOPE));
  }

  /** The two overlapping submissions to their end: neither charge saw the other. */
  lemma Overlapped(c: Config, budget: int, reportEvery: Option<int>)
    returns (schedule: seq<Label>, one: Charge, two: Charge)
    requires Everywhere(c) && budget >= 32 && (reportEvery.Some? ==> reportEvery.value > 16)
    ensures one == Charge(ENVELOPE, one.event, 0, 16, NoCheckpoint)
    ensures two == Charge(ENVELOPE, two.event, 0, 16, NoCheckpoint)
    ensures var s := Run(c, Init(), schedule);
            && s.tasks == map[] && s.db.envelopes == map[ENVELOPE := Row(budget, reportEvery, [], 32)]
            && s.meter == [Consumption(one, 0, true), Consumption(two, 16, true)]
  {
    hide Run, Reachable, Everywhere, FromMeter;
    var l: seq<Label>, s: State;
    l, s, one, two := TwoMetering(c, budget, reportEvery);
    AgentFinishes(c, With(s, 2, AtMeter(two)), 1, Work(Mutate), one);
    var between := Charged(s, one);
    assert Charged(With(s, 2, AtMeter(two)), one) == With(between, 2, AtMeter(two));
    AgentFinishes(c, between, 2, Work(Mutate), two);
    schedule := l + FromMeter(1) + FromMeter(2);
    RunAppend(c, Init(), l, FromMeter(1));
    RunAppend(c, Init(), l + FromMeter(1), FromMeter(2));
  }

  /**
   * Overlapping submissions miss the halt: two charges of 16, both decided when
   * nothing was consumed, leave an envelope of 32 spent and active.
   */
  lemma OverlapMissesHalt(c: Config) returns (schedule: seq<Label>)
    requires Everywhere(c)
    ensures var s := Run(c, Init(), schedule);
            s.tasks == map[] && s.db.envelopes == map[ENVELOPE := Row(32, None, [], 32)]
  {
    hide Run, Reachable, Everywhere;
    var one, two: Charge;
    schedule, one, two := Overlapped(c, 32, None);
  }

  /**
   * Overlapping submissions skip a report: under a budget of 100 that is to be
   * reported on every 20, two charges of 16 take the total from 0 to 32, and the
   * second crosses 20, but neither is due a checkpoint.
   */
  lemma OverlapSkipsReport(c: Config) returns (schedule: seq<Label>)
    requires Everywhere(c)
    ensures var s := Run(c, Init(), schedule);
            && s.db.envelopes == map[ENVELOPE := Row(100, Some(20), [], 32)]
            && |s.meter| == 2 && Crosses(s.meter[1], ENVELOPE, 20)
            && s.meter[0].charge.level.NoCheckpoint? && s.meter[1].charge.level.NoCheckpoint?
  {
    hide Run, Reachable, Everywhere;
    var one, two: Charge;
    schedule, one, two := Overlapped(c, 100, Some(20));
  }

  // ----- an approval that fails strands its reservation ------------------------------------------

  const HOLD := "h"
  const HELD := [HoldRule("**", ["mutate"])]

  function ApproveHold(): (a: Action) {
    Action(ROOT, Mutate, HOLD_PREFIX + HOLD, PLAIN.(decision := Some("approve")))
  }

  lemma RunThree(c: Config, s: State, x: Label, y: Label, z: Label)
    ensures Run(c, s, [x] + [y] + [z]) == Step(c, Step(c, Step(c, s, x), y), z)
    ensures Run(c, s, [x] + [y]) == Step(c, Step(c, s, x), y)
  {
    hide Step;
    RunSnoc(c, s, [], x);
    assert [] + [x] == [x];
    RunSnoc(c, s, [x], y);
    RunSnoc(c, s, [x] + [y], z);
  }

  lemma AgentMustHold(c: Config, s: State)
    requires Stage(s, Row(100, None, HELD, 0), Account(100, 0)) && Everywhere(c)
    ensures MustHold(c, s.db, Task(Work(Mutate), None, 0, 0, Cleared(Some(ENVELOPE))), Some(ENVELOPE))
  {
    assert HELD[0] in HELD && HELD[0].actions[0] in HELD[0].actions;
  }

  /** The agent's mutate is held. */
  lemma AgentIsHeld(c: Config, s: State) returns (r: State)
    requires Reachable(c, s) && Everywhere(c) && s.tasks == map[]
    requires Stage(s, Row(100, None, HELD, 0), Account(100, 0))
    ensures r == Run(c, s, [Submit(0, Work(Mutate))] + [Authorize(0, Some(ENVELOPE), [])] + [Trigger(0, HOLD)])
    ensures r == s.(db := s.db.(
              ledger := s.db.ledger[AGENT := Account(100, 16)],
              holds := map[HOLD := Hold(ENVELOPE, AGENT, Work(Mutate), 16, Pending, 0)],
              events := r.db.events, rows := r.db.rows))
  {
    hide Run, Reachable, Everywhere, Admitted, ParseSpec, ParseHoldResponse, QuoteCost, EnvelopeCovers, MustHold, Step;
    var row, a := Row(100, None, HELD, 0), Work(Mutate);
    var t := Task(a, None, 0, 0, Entered);
    AgentAdmitted(c, s, row, Account(100, 0), Mutate);
    AgentIsAgent();
    EnvelopeInScope(c, row, a);
    AgentMustHold(c, s);
    Enters(c, s, 0, a);
    AgentClears(c, s, 0, t, ENVELOPE);
    RunThree(c, s, Submit(0, a), Authorize(0, Some(ENVELOPE), []), Trigger(0, HOLD));
    LaterReachable(c, s, [Submit(0, a)] + [Authorize(0, Some(ENVELOPE), [])]);
    r := Triggers(c, s, 0, t.At(Cleared(Some(ENVELOPE))), HOLD);
  }

  lemma ApproveParses()
    ensures ParseHoldResponse(ApproveHold()) == Some((HOLD, true)) && ValidAction(ApproveHold())
  {
    var a := ApproveHold();
    assert a.target[|HOLD_PREFIX|..] == HOLD && HOLD[0] == 'h';
    assert a.target[0] in a.target && ROOT[0] in ROOT;
  }

  /** The steps of the approval, up to the first step of the re-submission. */
  function ApprovalSteps(): (schedule: seq<Label>) {
    [Submit(0, ApproveHold()), Authorize(0, None, []), ReadHold(0, []), Respond(0), Authorize(0, None, [])]
  }

  lemma RootAdmitted(c: Config, s: State)
    requires Reachable(c, s)
    ensures Admitted(c, s.db, ApproveHold()) && Is(s.db, ROOT, Human)
  {
    hide Run, Reachable;
    RootRow(c, s);
    ApproveParses();
    assert s.db.actors[ROOT].writable[0] in s.db.actors[ROOT].writable;
    assert "ledger/" <= ApproveHold().target;
  }

  /** A human approves the hold of an agent that was frozen meanwhile. */
  lemma ApprovalFails(c: Config, s: State)
    requires Reachable(c, s) && s.tasks == map[] && s.stranded == map[] && ENVELOPE in s.db.envelopes
    requires s.db.envelopes == map[ENVELOPE := Row(100, None, HELD, 0)]
    requires s.db.holds == map[HOLD := Hold(ENVELOPE, AGENT, Work(Mutate), 16, Pending, 0)]
    requires Is(s.db, AGENT, Agent) && s.db.actors[AGENT].status.Frozen?
    ensures var r := Run(c, s, ApprovalSteps());
            && r.tasks == map[] && r.stranded == map[AGENT := 16] && r.db.ledger == s.db.ledger
            && r.db.holds == map[HOLD := Hold(ENVELOPE, AGENT, Work(Mutate), 16, Approved, 0)]
  {
    hide Run, Reachable, Step, Admitted, ParseHoldResponse;
    var a, l := ApproveHold(), ApprovalSteps();
    var t := Task(a, None, 0, 0, Entered);
    RunFive(c, s, l);
    BeforeCommit(c, s, l);
    ThreeReachable(c, s, l);
    Enters(c, s, 0, a);
    RootAdmitted(c, s);
    ApproveParses();
    AgentNamed();
    HumanClears(c, s, 0, t);
    ReadsHold(c, s, 0, t.At(Cleared(None)), HOLD, true);
    var r := Approves(c, s, 0, t.At(Responding(HOLD, true)), HOLD);
    var again := Resubmit(t.At(Responding(HOLD, true)), HOLD, s.db.holds[HOLD]);
    FrozenCannotAct(c, With(r, 0, again), 0, None, []);
  }

  lemma ThreeReachable(c: Config, s: State, l: seq<Label>)
    requires Reachable(c, s) && |l| == 5
    ensures Reachable(c, Step(c, Step(c, Step(c, s, l[0]), l[1]), l[2]))
  {
    hide Step, Reachable;
    RunThree(c, s, l[0], l[1], l[2]);
    LaterReachable(c, s, [l[0]] + [l[1]] + [l[2]]);
  }

  /**
   * An approval does not always release what the hold reserved: an agent's action
   * is held, the agent is frozen, and a human approves. The re-submission fails,
   * no task is left, the hold is approved, and its 16 units stay reserved.
   */
  lemma ApprovedThenFrozen(c: Config) returns (schedule: seq<Label>)
    requires Everywhere(c)
    ensures var s := Run(c, Init(), schedule);
            && s.tasks == map[] && s.stranded == map[AGENT := 16]
            && AGENT in s.db.ledger && s.db.ledger[AGENT] == Account(100, 16)
            && HOLD in s.db.holds && s.db.holds[HOLD].status.Approved?
  {
    hide Run, Reachable, Everywhere, HumanSteps, ApprovalSteps, QuoteCost;
    var l0, s0 := Setup(c, 100, 100, None, HELD);
    var l1 := [Submit(0, Work(Mutate))] + [Authorize(0, Some(ENVELOPE), [])] + [Trigger(0, HOLD)];
    var l2 := HumanSteps(0, FreezeActor(AGENT), "");
    AgentNamed();
    var s1 := AgentIsHeld(c, s0);
    LaterReachable(c, s0, l1);
    var s2 := RootFreezes(c, s1, AGENT);
    LaterReachable(c, s1, l2);
    ApprovalFails(c, s2);
    schedule := l0 + l1 + l2 + ApprovalSteps();
    RunAppend(c, Init(), l0, l1);
    RunAppend(c, Init(), l0 + l1, l2);
    RunAppend(c, Init(), l0 + l1 + l2, ApprovalSteps());
  }
}

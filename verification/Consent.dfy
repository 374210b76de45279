/** Actions, their cost, actors, envelopes, and the rules that authorize actions. */
module Consent {
  import opened Basics

  // ----- actions --------------------------------------------------------

  datatype ActionType = Observe | Create | Mutate | Execute
  {
    predicate StateChanging() { this != Observe }

    function Name(): (s: string) {
      match this
      case Observe => "observe"
      case Create => "create"
      case Mutate => "mutate"
      case Execute => "execute"
    }
  }

  datatype LifecycleOp = Freeze | Unfreeze | Terminate | UpdateEnergyShare(share: real)

  datatype WritableTarget = WritableTarget(target: string, actions: seq<string>)

  datatype HoldRule = HoldRule(target: string, actions: seq<string>)

  /** The fields of a `ledger/actor` creation payload. */
  datatype ActorRequest = ActorRequest(id: Id, kind: ActorType, balance: int, share: real,
                                       writable: seq<WritableTarget>)

  /** The fields of a `ledger/envelope` creation payload. */
  datatype EnvelopeRequest = EnvelopeRequest(actor: Id, budget: int, targets: seq<string>, actions: seq<string>,
                                             durationSecs: Option<nat>, reportEvery: Option<int>,
                                             holdOn: seq<HoldRule>, holdTimeoutSecs: Option<int>)

  /** What the kernel reads from a client payload; it carries no `_hold_*` key. */
  datatype Payload = Payload(bytes: nat, outputBytes: nat, executeOk: bool,
                             decision: Option<string>, op: Option<string>, share: Option<real>,
                             actor: Option<ActorRequest>, envelope: Option<EnvelopeRequest>)

  datatype Action = Action(actor: Id, kind: ActionType, target: string, payload: Payload)

  function AppendCost(p: Payload): (c: nat) {
    1 + p.bytes / 1024
  }

  /** `quote_cost`: action cost plus append cost. */
  function QuoteCost(a: Action): (c: nat)
    ensures c > 0
    ensures a.kind.Execute? ==> c > 25
    ensures a.kind.Mutate? ==> c > 15
  {
    var actionCost := match a.kind
      case Observe => 0
      case Create => 10
      case Mutate => 15
      case Execute => 25 + a.payload.outputBytes / 256;
    actionCost + AppendCost(a.payload)
  }

  /** The 20% commitment kept on reject and timeout. */
  function CommitmentCost(reserved: nat): (c: nat)
    ensures 5 * c >= reserved && (c > 0 ==> 5 * (c - 1) < reserved)
    ensures c <= reserved
  {
    (reserved + 4) / 5
  }

  function StripPrefix(s: string, prefix: string): (r: Option<string>)
    ensures r.Some? <==> prefix <= s
    ensures r.Some? ==> s == prefix + r.value
  {
    if prefix <= s then Some(s[|prefix|..]) else None
  }

  const HOLD_PREFIX := "ledger/hold/"
  const ACTOR_PREFIX := "actor/"

  /** `parse_hold_response`: the hold named by the target and whether it is approved. */
  function ParseHoldResponse(a: Action): (r: Option<(Id, bool)>)
    ensures r.Some? ==> a.kind.Mutate? && a.target == HOLD_PREFIX + r.value.0
    ensures r.Some? ==> r.value.0 != "" && '/' !in r.value.0
  {
    if !a.kind.Mutate? then None
    else
      match StripPrefix(a.target, HOLD_PREFIX)
      case None => None
      case Some(rest) =>
        if rest == "" || '/' in rest then None
        else if a.payload.decision == Some("approve") then Some((rest, true))
        else if a.payload.decision == Some("reject") then Some((rest, false))
        else None
  }

  /** An action answers a hold exactly when it spells the hold's target and one of the two decisions. */
  lemma HoldAnswerParses(a: Action, hold: Id, approve: bool)
    ensures ParseHoldResponse(a) == Some((hold, approve)) <==>
              && a.kind.Mutate? && a.target == HOLD_PREFIX + hold && hold != "" && '/' !in hold
              && a.payload.decision == Some(if approve then "approve" else "reject")
  {
    if a.target == HOLD_PREFIX + hold {
      assert a.target[|HOLD_PREFIX|..] == hold;
    }
    assert "approve"[0] != "reject"[0];
  }

  /** The operation that a payload names. */
  function ParseOp(p: Payload): (r: Option<LifecycleOp>) {
    if p.op == Some("freeze") then Some(Freeze)
    else if p.op == Some("unfreeze") then Some(Unfreeze)
    else if p.op == Some("terminate") then Some(Terminate)
    else if p.op == Some("update_energy_share") && p.share.Some? then Some(UpdateEnergyShare(p.share.value))
    else None
  }

  /** `parse_lifecycle_op`. */
  function ParseLifecycleOp(a: Action): (r: Option<(Id, LifecycleOp)>) {
    if !a.kind.Mutate? then None
    else
      match StripPrefix(a.target, ACTOR_PREFIX)
      case None => None
      case Some(id) =>
        if id == "" || ParseOp(a.payload).None? then None else Some((id, ParseOp(a.payload).value))
  }

  function OpName(op: LifecycleOp): (s: string) {
    match op
    case Freeze => "freeze"
    case Unfreeze => "unfreeze"
    case Terminate => "terminate"
    case UpdateEnergyShare(_) => "update_energy_share"
  }

  /** An action is a lifecycle operation exactly when it mutates the actor's target and names the operation in full. */
  lemma LifecycleParses(a: Action, id: Id, op: LifecycleOp)
    ensures ParseLifecycleOp(a) == Some((id, op)) <==>
              && a.kind.Mutate? && a.target == ACTOR_PREFIX + id && id != "" && a.payload.op == Some(OpName(op))
              && (op.UpdateEnergyShare? ==> a.payload.share == Some(op.share))
  {
    if a.target == ACTOR_PREFIX + id {
      assert a.target[|ACTOR_PREFIX|..] == id;
    }
    OpNamesDiffer();
  }

  lemma OpNamesDiffer()
    ensures |"freeze"| == 6 && |"unfreeze"| == 8 && |"terminate"| == 9 && |"update_energy_share"| == 19
  {
  }

  // ----- actors and their boundary ---------------------------------------

  datatype ActorType = Human | Agent

  datatype ActorStatus = Active | Frozen

  datatype Actor = Actor(kind: ActorType, creator: Option<Id>, lineage: seq<Id>, status: ActorStatus,
                         writable: seq<WritableTarget>, share: real)

  /** What the model takes as given: glob matching and the energy produced per tick. */
  datatype Config = Config(glob: (string, string) -> bool, energyPerTick: int)

  predicate Blank(s: string) {
    forall c | c in s :: c == ' ' || c == '\t' || c == '\n' || c == '\r'
  }

  /** `validate_action`; every action has a positive cost. */
  predicate ValidAction(a: Action) {
    !Blank(a.actor) && !Blank(a.target)
  }

  predicate Privileged(target: string) {
    "system/" <= target || "ledger/" <= target
  }

  /** `check_writable_boundary`. */
  predicate WithinBoundary(c: Config, actor: Actor, target: string, kind: ActionType) {
    if kind.Observe? then true
    else if Privileged(target) then exists w | w in actor.writable :: w.target == "**"
    else exists w | w in actor.writable :: c.glob(w.target, target) && kind.Name() in w.actions
  }

  predicate PatternCovers(c: Config, parent: string, child: string) {
    parent == "**" || parent == child || c.glob(parent, child)
  }

  /** `validate_child_targets`. */
  predicate ChildTargetsCovered(c: Config, parent: Actor, child: seq<WritableTarget>) {
    forall w | w in child ::
      exists p | p in parent.writable ::
        PatternCovers(c, p.target, w.target) && forall x | x in w.actions :: x in p.actions
  }

  // ----- envelopes ---------------------------------------------------------

  datatype EnvelopeStatus = EnvActive | EnvExpired | EnvRevoked

  /** An envelope row; `born` is the log index of the event that created it. */
  datatype Envelope = Envelope(actor: Id, grantor: Id, parent: Option<Id>, budget: int, consumed: nat,
                               targets: seq<string>, actions: seq<string>, reportEvery: Option<int>,
                               holdOn: seq<HoldRule>, holdTimeoutSecs: Option<int>,
                               status: EnvelopeStatus, createdAt: nat, expiresAt: Option<nat>, born: nat)

  datatype AuthorizationMode = ManInTheLoop | ManOnTheLoop

  datatype CheckpointLevel = NoCheckpoint | Report | Halt

  /** `check_hold_trigger`. */
  predicate HoldTriggered(c: Config, holdOn: seq<HoldRule>, target: string, kind: ActionType) {
    exists r | r in holdOn :: c.glob(r.target, target) && kind.Name() in r.actions
  }

  /** `check_authorization`. */
  function CheckAuthorization(actor: Actor, envelope: Option<Envelope>): (r: Result<AuthorizationMode>)
    ensures actor.kind.Human? ==> r == Ok(ManInTheLoop)
    ensures actor.kind.Agent? ==> (r.Ok? <==> envelope.Some? && envelope.value.status.EnvActive?)
    ensures actor.kind.Agent? && r.Ok? ==> r.value.ManOnTheLoop?
  {
    match actor.kind
    case Human => Ok(ManInTheLoop)
    case Agent =>
      if envelope.None? then Err("authorization required")
      else if !envelope.value.status.EnvActive? then Err("envelope is not active")
      else Ok(ManOnTheLoop)
  }

  /** `check_envelope_covers`. */
  predicate EnvelopeCovers(c: Config, e: Envelope, target: string, kind: ActionType) {
    && kind.Name() in e.actions
    && (exists p | p in e.targets :: c.glob(p, target))
    && e.budget - e.consumed > 0
  }

  /** `check_checkpoint` on an envelope whose consumed budget reads `seen`. */
  function CheckCheckpoint(budget: int, reportEvery: Option<int>, seen: nat, amount: nat): (l: CheckpointLevel)
    ensures l.Halt? <==> seen + amount >= budget
  {
    var total := seen + amount;
    if total >= budget then Halt
    else if reportEvery.Some? && reportEvery.value > 0
            && total / reportEvery.value > seen / reportEvery.value then Report
    else NoCheckpoint
  }

  /** `validate_envelope_reduction`. */
  predicate EnvelopeReduced(c: Config, parent: Envelope, child: EnvelopeRequest) {
    && child.budget <= parent.budget - parent.consumed
    && (forall x | x in child.actions :: x in parent.actions)
    && (forall t | t in child.targets :: exists p | p in parent.targets :: PatternCovers(c, p, t))
  }

  /** `is_envelope_expired`. */
  predicate IsExpired(e: Envelope, now: nat) {
    e.expiresAt.Some? && now >= e.expiresAt.value
  }
}

/**
 * What the kernel's rules mean, apart from the functions that decide them. The
 * theorems speak of these; each lemma here says that a function decides one.
 */
module Reference {
  import opened Basics
  import opened Consent
  import opened Database

  /** Each kind of action has its own name, and so has each kind of event that is not an action. */
  lemma NamesDecide(kind: ActionType, b: Body)
    ensures (kind.Name() == "observe" <==> kind == Observe) && (kind.Name() == "create" <==> kind == Create)
    ensures (kind.Name() == "mutate" <==> kind == Mutate) && (kind.Name() == "execute" <==> kind == Execute)
    ensures b.Name() == kind.Name() <==> b.Acted? && b.kind == kind
    ensures (b.Name() == "hold_request" <==> b.HoldRequested?) && (b.Name() == "hold_timeout" <==> b.HoldTimedOut?)
    ensures b.Name() == "hold_response" <==> b.HoldResponded?
  {
    assert |"observe"| == |"execute"| == 7 && |"create"| == |"mutate"| == 6;
    assert |"hold_request"| == |"hold_timeout"| == 12 && |"hold_response"| == 13;
    assert "observe"[0] != "execute"[0] && "create"[0] != "mutate"[0] && "hold_request"[5] != "hold_timeout"[5];
  }

  /** The text has something other than white space. */
  predicate Named(s: string) {
    exists i | 0 <= i < |s| :: s[i] !in " \t\n\r"
  }

  lemma BlankDecides(s: string)
    ensures Blank(s) <==> !Named(s)
  {
    var spaces := " \t\n\r";
    assert spaces[0] == ' ' && spaces[1] == '\t' && spaces[2] == '\n' && spaces[3] == '\r';
    forall i | 0 <= i < |s|
      ensures s[i] in s
    {
    }
  }

  /**
   * Everyone may observe; `system/` and `ledger/` take the wildcard, anything else a
   * pattern that grants the action.
   */
  ghost predicate MayWrite(c: Config, actor: Actor, target: string, kind: ActionType) {
    || kind == Observe
    || exists i | 0 <= i < |actor.writable| ::
         if (|target| >= 7 && (target[..7] == "system/" || target[..7] == "ledger/"))
         then actor.writable[i].target == "**"
         else c.glob(actor.writable[i].target, target) && kind.Name() in actor.writable[i].actions
  }

  lemma BoundaryDecides(c: Config, actor: Actor, target: string, kind: ActionType)
    ensures WithinBoundary(c, actor, target, kind) <==> MayWrite(c, actor, target, kind)
  {
    assert |"system/"| == 7 && |"ledger/"| == 7;
    forall i | 0 <= i < |actor.writable|
      ensures actor.writable[i] in actor.writable
    {
    }
  }

  /** The parent's pattern is the wildcard, the child's own text, or matches it. */
  predicate Covers(c: Config, parent: string, child: string) {
    parent == "**" || child == parent || c.glob(parent, child)
  }

  /** Some target of the giver covers this one and has all its actions. */
  ghost predicate HandedOn(c: Config, giver: seq<WritableTarget>, w: WritableTarget) {
    exists j | 0 <= j < |giver| ::
      Covers(c, giver[j].target, w.target) && forall x | x in w.actions :: x in giver[j].actions
  }

  /** Each target that is handed on is covered by a target of the giver that has all its actions. */
  ghost predicate HandsOn(c: Config, giver: seq<WritableTarget>, given: seq<WritableTarget>) {
    forall i | 0 <= i < |given| :: HandedOn(c, giver, given[i])
  }

  lemma ChildTargetsDecide(c: Config, parent: Actor, child: seq<WritableTarget>)
    ensures ChildTargetsCovered(c, parent, child) <==> HandsOn(c, parent.writable, child)
  {
    if ChildTargetsCovered(c, parent, child) {
      forall i | 0 <= i < |child|
        ensures HandedOn(c, parent.writable, child[i])
      {
        assert child[i] in child;
        TargetDecides(c, parent, child[i]);
      }
    }
    if HandsOn(c, parent.writable, child) {
      forall w | w in child
        ensures exists p | p in parent.writable ::
          PatternCovers(c, p.target, w.target) && forall x | x in w.actions :: x in p.actions
      {
        var i :| 0 <= i < |child| && child[i] == w;
        TargetDecides(c, parent, w);
      }
    }
  }

  lemma TargetDecides(c: Config, parent: Actor, w: WritableTarget)
    ensures HandedOn(c, parent.writable, w)
       <==> exists p | p in parent.writable ::
              PatternCovers(c, p.target, w.target) && forall x | x in w.actions :: x in p.actions
  {
    var giver := parent.writable;
    if p :| p in giver && PatternCovers(c, p.target, w.target) && forall x | x in w.actions :: x in p.actions {
      var j :| 0 <= j < |giver| && giver[j] == p;
      assert Covers(c, giver[j].target, w.target);
    }
    if HandedOn(c, giver, w) {
      var j :| 0 <= j < |giver| && Covers(c, giver[j].target, w.target)
        && forall x | x in w.actions :: x in giver[j].actions;
      var p := giver[j];
      assert p in giver && PatternCovers(c, p.target, w.target);
    }
  }

  /** A delegated envelope: within what is left of the parent's budget, its actions and its targets. */
  ghost predicate Reduces(c: Config, parent: Envelope, child: EnvelopeRequest) {
    && parent.consumed + child.budget <= parent.budget
    && (forall x | x in child.actions :: x in parent.actions)
    && (forall i | 0 <= i < |child.targets| :: SomeCovers(c, parent.targets, child.targets[i]))
  }

  ghost predicate SomeCovers(c: Config, patterns: seq<string>, t: string) {
    exists j | 0 <= j < |patterns| :: Covers(c, patterns[j], t)
  }

  lemma ReductionDecides(c: Config, parent: Envelope, child: EnvelopeRequest)
    ensures EnvelopeReduced(c, parent, child) <==> Reduces(c, parent, child)
  {
    if EnvelopeReduced(c, parent, child) {
      forall i | 0 <= i < |child.targets|
        ensures SomeCovers(c, parent.targets, child.targets[i])
      {
        assert child.targets[i] in child.targets;
        PatternDecides(c, parent.targets, child.targets[i]);
      }
    }
    if Reduces(c, parent, child) {
      forall t | t in child.targets
        ensures exists p | p in parent.targets :: PatternCovers(c, p, t)
      {
        var i :| 0 <= i < |child.targets| && child.targets[i] == t;
        PatternDecides(c, parent.targets, t);
      }
    }
  }

  lemma PatternDecides(c: Config, patterns: seq<string>, t: string)
    ensures SomeCovers(c, patterns, t) <==> exists p | p in patterns :: PatternCovers(c, p, t)
  {
    if p :| p in patterns && PatternCovers(c, p, t) {
      var j :| 0 <= j < |patterns| && patterns[j] == p;
      assert Covers(c, patterns[j], t);
    }
    if j :| 0 <= j < |patterns| && Covers(c, patterns[j], t) {
      var p := patterns[j];
      assert p in patterns && PatternCovers(c, p, t);
    }
  }

  /** The rule is about this target and names this action. */
  predicate Applies(c: Config, rule: HoldRule, target: string, kind: ActionType) {
    c.glob(rule.target, target) && kind.Name() in rule.actions
  }

  /** Some rule applies, whichever it is. */
  ghost predicate SomeRuleApplies(c: Config, rules: seq<HoldRule>, target: string, kind: ActionType) {
    exists i | 0 <= i < |rules| :: Applies(c, rules[i], target, kind)
  }

  lemma HoldRulesDecide(c: Config, rules: seq<HoldRule>, target: string, kind: ActionType)
    ensures HoldTriggered(c, rules, target, kind) <==> SomeRuleApplies(c, rules, target, kind)
  {
    if SomeRuleApplies(c, rules, target, kind) {
      var i :| 0 <= i < |rules| && Applies(c, rules[i], target, kind);
      assert rules[i] in rules;
    }
  }

  /** The envelope's deadline has come. */
  predicate PastDeadline(e: Envelope, now: nat) {
    match e.expiresAt
    case None => false
    case Some(deadline) => deadline <= now
  }

  lemma ExpiryDecides(e: Envelope, now: nat)
    ensures IsExpired(e, now) <==> PastDeadline(e, now)
  {
  }

  /** More than so many seconds, in milliseconds, have passed since the hold was triggered. */
  predicate Late(h: Hold, seconds: int, now: nat) {
    h.triggeredAt + 1000 * seconds < now
  }

  lemma TimeoutDecides(h: Hold, seconds: int, now: nat)
    ensures HasTimedOut(h, seconds, now) <==> Late(h, seconds, now)
  {
  }

  /** So many full units of the size are in the bytes. */
  predicate Full(units: nat, size: nat, bytes: nat) {
    units * size <= bytes < (units + 1) * size
  }

  lemma FullDecides(units: nat, size: nat, bytes: nat)
    requires size > 0
    ensures Full(units, size, bytes) <==> units == bytes / size
  {
    var q := bytes / size;
    if units < q {
      assert (units + 1) * size <= q * size;
    } else if units > q {
      assert units * size >= (q + 1) * size;
    }
  }

  /**
   * An action's price: a fixed part, one per full 256 bytes that an execute put out,
   * one, and one per full KiB of payload.
   */
  ghost predicate Price(a: Action, cost: nat) {
    exists kibs: nat | Full(kibs, 1024, a.payload.bytes) ::
      exists blocks: nat | Full(blocks, 256, Output(a)) ::
        cost == Base(a.kind) + blocks + 1 + kibs
  }

  /** Only what an execute put out is priced. */
  function Output(a: Action): (bytes: nat) {
    if a.kind == Execute then a.payload.outputBytes else 0
  }

  function Base(kind: ActionType): (n: nat) {
    match kind
    case Observe => 0
    case Create => 10
    case Mutate => 15
    case Execute => 25
  }

  /** The quote is the price, and an action has no other. */
  lemma QuoteDecides(a: Action, cost: nat)
    ensures Price(a, cost) <==> cost == QuoteCost(a)
  {
    hide Full;
    var kibs, blocks := a.payload.bytes / 1024, Output(a) / 256;
    forall units: nat
      ensures Full(units, 1024, a.payload.bytes) <==> units == kibs
      ensures Full(units, 256, Output(a)) <==> units == blocks
    {
      FullDecides(units, 1024, a.payload.bytes);
      FullDecides(units, 256, Output(a));
    }
    assert Full(kibs, 1024, a.payload.bytes) && Full(blocks, 256, Output(a));
    assert QuoteCost(a) == Base(a.kind) + blocks + 1 + kibs;
  }

  /** A human manages the agents that it is the creator of. */
  predicate CreatorOf(actors: map<Id, Actor>, initiator: Id, subject: Id) {
    && initiator in actors && actors[initiator].kind == Human
    && subject in actors && actors[subject].kind == Agent && actors[subject].creator == Some(initiator)
  }

  lemma ManagementDecides(actors: map<Id, Actor>, initiator: Id, subject: Id)
    requires initiator in actors && subject in actors
    requires actors[subject].kind == Agent ==>
               actors[subject].creator.Some? && actors[subject].lineage == [actors[subject].creator.value]
    ensures MayManage(initiator, actors[initiator], actors[subject]) <==> CreatorOf(actors, initiator, subject)
  {
  }

  /** The creator, if there is one, is active. */
  predicate CreatorActive(actors: map<Id, Actor>, actor: Actor) {
    match actor.creator
    case None => true
    case Some(id) => id in actors && actors[id].status == Active
  }

  lemma LineageDecides(actors: map<Id, Actor>, actor: Actor)
    requires actor.lineage == if actor.creator.Some? then [actor.creator.value] else []
    ensures LineageActive(actors, actor.lineage) <==> CreatorActive(actors, actor)
  {
  }

  // ----- the ledger ----------------------------------------------------------------------------

  /**
   * On a row in order, a settle goes through exactly when it releases no more than
   * is reserved and what stays reserved stays covered.
   */
  lemma SettleDecides(ledger: Ledger, actor: Id, released: int, charged: int)
    requires actor in ledger ==> 0 <= ledger[actor].reserved <= ledger[actor].balance
    ensures Settle(ledger, actor, released, charged).Ok? <==>
              && actor in ledger && 0 <= released <= ledger[actor].reserved && 0 <= charged
              && ledger[actor].reserved - released <= ledger[actor].balance - charged
    ensures Settle(ledger, actor, released, charged).Ok? ==>
              Settle(ledger, actor, released, charged).value
              == ledger[actor := Account(ledger[actor].balance - charged, ledger[actor].reserved - released)]
  {
  }

  /** A reserve goes through exactly when it is for something and the balance covers all that is then reserved. */
  lemma ReserveDecides(ledger: Ledger, actor: Id, cost: int)
    ensures Reserve(ledger, actor, cost).Ok? <==>
              cost > 0 && actor in ledger && ledger[actor].reserved + cost <= ledger[actor].balance
    ensures Reserve(ledger, actor, cost).Ok? ==>
              Reserve(ledger, actor, cost).value
              == ledger[actor := Account(ledger[actor].balance, ledger[actor].reserved + cost)]
  {
  }

  /** A credit goes through exactly when it is for something to someone, and only raises that balance. */
  lemma CreditDecides(ledger: Ledger, actor: Id, amount: int)
    ensures Credit(ledger, actor, amount).Ok? <==> amount > 0 && actor in ledger
    ensures Credit(ledger, actor, amount).Ok? ==>
              Credit(ledger, actor, amount).value
              == ledger[actor := Account(ledger[actor].balance + amount, ledger[actor].reserved)]
  {
  }

  /** An account is opened exactly for a new named actor with a balance that is not negative. */
  lemma AccountDecides(ledger: Ledger, actor: Id, balance: int)
    ensures CreateAccount(ledger, actor, balance).Ok? <==> Named(actor) && balance >= 0 && actor !in ledger
    ensures CreateAccount(ledger, actor, balance).Ok? ==>
              CreateAccount(ledger, actor, balance).value == ledger[actor := Account(balance, 0)]
  {
    BlankDecides(actor);
  }
}

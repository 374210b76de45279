/** Runs that show what the kernel does not promise. */
module Scenarios {
  import opened Basics
  import opened Consent
  import opened Database
  import opened Kernel
  import opened Stability
  import opened Tasks
  import opened Lineage
  import opened Theorems
  import opened Freezing
  import opened Stranding
  import opened Walks
  import Sql

  // ----- a submission that fails after its reserve -------------------------------------------

  /** An execute by root whose payload lacks a valid artifact. */
  function BadExecute(): (a: Action) {
    Action(ROOT, Execute, "ledger/note", Payload(0, 0, false, None, None, None, None, None))
  }

  function BadSchedule(): (schedule: seq<Label>) {
    [Submit(0, BadExecute()), Authorize(0, None, []), Parse(0, "", None), ReserveEnergy(0), Finalize(0)]
  }

  function WithTask(reserved: int, pc: Pc): (s: State) {
    Init().(tasks := map[0 := Task(BadExecute(), None, 0, 0, pc)],
            db := Init().db.(ledger := map[ROOT := Account(ROOT_BALANCE, reserved)]))
  }

  lemma BadEnters(c: Config)
    ensures Step(c, Init(), Submit(0, BadExecute())) == WithTask(0, Entered)
  {
  }

  lemma RootMayAct(c: Config)
    ensures ValidAction(BadExecute()) && WithinBoundary(c, Init().db.actors[ROOT], BadExecute().target, Execute)
  {
    var root := Init().db.actors[ROOT];
    assert ROOT[0] in ROOT && BadExecute().target[0] in BadExecute().target;
    assert root.writable[0] in root.writable;
  }

  lemma BadClears(c: Config)
    ensures Step(c, WithTask(0, Entered), Authorize(0, None, [])) == WithTask(0, Cleared(None))
  {
    hide ValidAction, WithinBoundary, EnvelopeCovers;
    RootMayAct(c);
  }

  lemma BadParses(c: Config)
    ensures Step(c, WithTask(0, Cleared(None)), Parse(0, "", None)) == WithTask(0, Specced(None, NoSpec))
  {
  }

  lemma BadReserves(c: Config)
    ensures Step(c, WithTask(0, Specced(None, NoSpec)), ReserveEnergy(0)) == WithTask(26, Reserved(None, NoSpec, 26))
  {
    assert QuoteCost(BadExecute()) == 26;
  }

  lemma BadStrands(c: Config)
    ensures var s := Step(c, WithTask(26, Reserved(None, NoSpec, 26)), Finalize(0));
            && s.tasks == map[] && s.db == WithTask(26, Entered).db && s.stranded == map[ROOT := 26]
  {
  }

  /**
   * A failed submission is not always refunded: after this run no task and no
   * hold is left, no event was written, and 26 units stay reserved.
   */
  lemma FailedSubmissionKeepsReserve(c: Config)
    ensures var s := Run(c, Init(), BadSchedule());
            && s.tasks == map[] && s.db.holds == map[] && s.db.events == []
            && s.db.ledger == map[ROOT := Account(ROOT_BALANCE, 26)] && s.stranded == map[ROOT := 26]
  {
    hide Step, Run;
    var l := BadSchedule();
    RunFive(c, Init(), l);
    BadEnters(c);
    BadClears(c);
    BadParses(c);
    BadReserves(c);
    BadStrands(c);
  }

  // ----- what root may do ---------------------------------------------------------------------

  /** `**` matches every target. */
  ghost predicate Everywhere(c: Config) {
    forall target :: c.glob("**", target)
  }

  const PLAIN := Payload(0, 0, true, None, None, None, None, None)

  lemma RootRow(c: Config, s: State)
    requires Reachable(c, s)
    ensures ROOT in s.db.actors && s.db.actors[ROOT].status.Active? && s.db.actors[ROOT].kind.Human?
    ensures s.db.actors[ROOT].writable == [WritableTarget("**", ["create", "mutate", "execute"])]
  {
    hide Run;
    RootStaysActive(c, s);
    var schedule :| s == Run(c, Init(), schedule);
    RunGrows(c, Init(), schedule);
    assert SameActor(Init().db.actors[ROOT], s.db.actors[ROOT]);
  }

  /** Root may do what can be parsed, paid for and created. */
  lemma RootMay(c: Config, s: State, a: Action, newId: Id, spec: Spec)
    requires Reachable(c, s) && Everywhere(c) && a.actor == ROOT && a.kind.StateChanging() && !Blank(a.target)
    requires forall id | id in s.db.envelopes :: s.db.envelopes[id].actor != ROOT
    requires ParseHoldResponse(a).None? && ParseSpec(c, s.db, a, newId, None) == Ok(spec)
    requires !CannotReserve(s.db, a) && !Clashes(s.db, spec) && (a.kind.Execute? ==> a.payload.executeOk)
    ensures MayCommit(c, s, a, None, newId, spec)
  {
    hide Run, Reachable, ParseSpec, ParseHoldResponse, CannotReserve, Clashes;
    RootRow(c, s);
    RootIsNamed();
    var root := s.db.actors[ROOT];
    assert root.writable[0] in root.writable;
    var actions := root.writable[0].actions;
    assert actions[0] == "create" && actions[1] == "mutate" && actions[2] == "execute";
    assert a.kind.Name() in actions;
  }

  lemma RootIsNamed()
    ensures !Blank(ROOT)
  {
    assert ROOT[0] in ROOT;
  }

  // ----- a pattern freezes a sovereign human --------------------------------------------------

  const BOB := "bob"
  const PATTERN := "r__t"

  function MakeActor(id: Id, kind: ActorType, balance: int, writable: seq<WritableTarget>): (a: Action) {
    Action(ROOT, Create, "ledger/actor", PLAIN.(actor := Some(ActorRequest(id, kind, balance, 0.0, writable))))
  }

  function FreezeActor(id: Id): (a: Action) {
    Action(ROOT, Mutate, ACTOR_PREFIX + id, PLAIN.(op := Some("freeze")))
  }

  /** The `i`-th character of the pattern matches the `j`-th of the text. */
  lemma LikeAt(p: string, text: string, i: nat, j: nat)
    requires i < |p| && j < |text| && p[i] != '%' && (p[i] == '_' || Sql.Fold(p[i]) == Sql.Fold(text[j]))
    ensures Sql.Like(p[i..], text[j..]) == Sql.Like(p[i + 1..], text[j + 1..])
  {
    assert p[i..][1..] == p[i + 1..] && text[j..][1..] == text[j + 1..];
  }

  /** The id `r__t` selects the id `root`. */
  lemma PatternNamesRoot()
    ensures Sql.Names(PATTERN, [ROOT])
  {
    hide Sql.Like;
    var p, text := "\"r__t\"%", "[\"root\"]";
    RootText();
    Sql.PercentSkips(p, text);
    LikeAt(p, text, 0, 1);
    LikeAt(p, text, 1, 2);
    LikeAt(p, text, 2, 3);
    LikeAt(p, text, 3, 4);
    LikeAt(p, text, 4, 5);
    LikeAt(p, text, 5, 6);
    assert p[0..] == p && p[6..] == "%";
    Sql.PercentMatchesAll(text[7..]);
  }

  lemma RootText()
    ensures Sql.LineageText([ROOT]) == "[\"root\"]" && Sql.LineagePattern(PATTERN) == "%" + "\"r__t\"%"
  {
    Sql.PlainUnescaped(ROOT);
  }

  /** Root makes an actor. */
  lemma RootMakes(c: Config, s: State, q: ActorRequest) returns (r: State)
    requires Reachable(c, s) && Everywhere(c) && s.tasks == map[]
    requires forall id | id in s.db.envelopes :: s.db.envelopes[id].actor != ROOT
    requires q.id !in s.db.actors && !Blank(q.id) && q.balance >= 0 && q.share == 0.0
    requires q.writable == [] || q.writable == [WritableTarget("**", ["mutate", "execute"])]
    requires ROOT in s.db.ledger && s.db.ledger[ROOT].balance - s.db.ledger[ROOT].reserved >= 11
    ensures var row := s.db.ledger[ROOT];
            r == s.(
              db := s.db.(
                ledger := s.db.ledger[ROOT := Account(row.balance - 11, row.reserved)][q.id := Account(q.balance, 0)],
                actors := s.db.actors[q.id := NewActorRow(ROOT, q)],
                events := r.db.events, rows := r.db.rows),
              minted := r.minted, receipts := r.receipts)
    ensures |r.db.events| == |s.db.events| + 1
    ensures r == Run(c, s, HumanSteps(0, MakeActor(q.id, q.kind, q.balance, q.writable), ""))
  {
    hide Run, Reachable, Everywhere, NewActorRow, HumanSteps, MayCommit, QuoteCost, Blank;
    RootMayMake(c, s, q);
    r := HumanWalks(c, s, 0, MakeActor(q.id, q.kind, q.balance, q.writable), "", NewActor(q));
  }

  lemma RootMayMake(c: Config, s: State, q: ActorRequest)
    requires Reachable(c, s) && Everywhere(c)
    requires forall id | id in s.db.envelopes :: s.db.envelopes[id].actor != ROOT
    requires q.id !in s.db.actors && !Blank(q.id) && q.balance >= 0 && q.share == 0.0
    requires q.writable == [] || q.writable == [WritableTarget("**", ["mutate", "execute"])]
    requires ROOT in s.db.ledger && s.db.ledger[ROOT].balance - s.db.ledger[ROOT].reserved >= 11
    ensures var a := MakeActor(q.id, q.kind, q.balance, q.writable);
            QuoteCost(a) == 11 && MayCommit(c, s, a, None, "", NewActor(q))
  {
    hide Run, Reachable, Everywhere, MayCommit, ParseSpec, ParseHoldResponse;
    var a := MakeActor(q.id, q.kind, q.balance, q.writable);
    RootRow(c, s);
    ParsesActor(c, s.db, q);
    assert QuoteCost(a) == 11;
    TargetsNamed();
    RootMay(c, s, a, "", NewActor(q));
  }

  lemma TargetsNamed()
    ensures !Blank("ledger/actor") && !Blank("ledger/envelope")
  {
    assert "ledger/actor"[0] in "ledger/actor" && "ledger/envelope"[0] in "ledger/envelope";
  }

  lemma ParsesActor(c: Config, db: Db, q: ActorRequest)
    requires ROOT in db.actors && db.actors[ROOT].kind.Human? && q.share == 0.0
    requires db.actors[ROOT].writable == [WritableTarget("**", ["create", "mutate", "execute"])]
    requires q.writable == [] || q.writable == [WritableTarget("**", ["mutate", "execute"])]
    ensures ParseSpec(c, db, MakeActor(q.id, q.kind, q.balance, q.writable), "", None) == Ok(NewActor(q))
    ensures ParseHoldResponse(MakeActor(q.id, q.kind, q.balance, q.writable)).None?
  {
    var root := db.actors[ROOT];
    var actions := ["create", "mutate", "execute"];
    assert root.writable[0] in root.writable;
    assert actions[1] == "mutate" && actions[2] == "execute";
    assert ChildTargetsCovered(c, root, q.writable);
  }

  /** Root freezes an agent of its own. */
  lemma RootFreezes(c: Config, s: State, id: Id) returns (r: State)
    requires Reachable(c, s) && Everywhere(c) && s.tasks == map[]
    requires forall e | e in s.db.envelopes :: s.db.envelopes[e].actor != ROOT
    requires Is(s.db, id, Agent) && ROOT in s.db.actors[id].lineage && id != ""
    requires ROOT in s.db.ledger && s.db.ledger[ROOT].balance - s.db.ledger[ROOT].reserved >= 16
    ensures var row := s.db.ledger[ROOT];
            r == s.(
              db := s.db.(
                ledger := s.db.ledger[ROOT := Account(row.balance - 16, row.reserved)],
                actors := FreezeCascade(s.db.actors, id),
                events := r.db.events, rows := r.db.rows),
              minted := r.minted, receipts := r.receipts)
    ensures r == Run(c, s, HumanSteps(0, FreezeActor(id), ""))
  {
    hide Run, Reachable, Everywhere, HumanSteps, FreezeCascade, MayCommit, QuoteCost;
    RootMayFreeze(c, s, id);
    var before := HumanWalks(c, s, 0, FreezeActor(id), "", Lifecycle(id, Freeze));
    r := Managed(before, Lifecycle(id, Freeze));
  }

  lemma RootMayFreeze(c: Config, s: State, id: Id)
    requires Reachable(c, s) && Everywhere(c)
    requires forall e | e in s.db.envelopes :: s.db.envelopes[e].actor != ROOT
    requires Is(s.db, id, Agent) && ROOT in s.db.actors[id].lineage && id != ""
    requires ROOT in s.db.ledger && s.db.ledger[ROOT].balance - s.db.ledger[ROOT].reserved >= 16
    ensures QuoteCost(FreezeActor(id)) == 16 && MayCommit(c, s, FreezeActor(id), None, "", Lifecycle(id, Freeze))
  {
    hide Run, Reachable, Everywhere, MayCommit, ParseSpec, ParseHoldResponse;
    RootRow(c, s);
    ParsesFreeze(c, s.db, id);
    assert QuoteCost(FreezeActor(id)) == 16;
    RootMay(c, s, FreezeActor(id), "", Lifecycle(id, Freeze));
  }

  lemma ParsesFreeze(c: Config, db: Db, id: Id)
    requires Is(db, ROOT, Human) && Is(db, id, Agent) && ROOT in db.actors[id].lineage && id != ""
    ensures ParseSpec(c, db, FreezeActor(id), "", None) == Ok(Lifecycle(id, Freeze))
    ensures ParseHoldResponse(FreezeActor(id)).None? && !Blank(FreezeActor(id).target)
  {
    var target := FreezeActor(id).target;
    assert target[0] == 'a' && target[0] in target && HOLD_PREFIX[0] == 'l';
    assert target[|ACTOR_PREFIX|..] == id;
  }

  /**
   * Ids are patterns: root makes the human `bob` and the agent `r__t`, freezes the
   * agent, and freezes bob with it.
   */
  lemma PatternFreezesSovereign(c: Config) returns (schedule: seq<Label>)
    requires Everywhere(c)
    ensures var s := Run(c, Init(), schedule);
            && Sovereign(s.db.actors, BOB) && s.db.actors[BOB].status.Frozen?
            && Is(s.db, PATTERN, Agent) && s.db.actors[BOB].creator == Some(ROOT)
  {
    hide Run, Everywhere, HumanSteps, Sql.Names;
    NamesNamed();
    StartReachable(c);
    var bob, agent := ActorRequest(BOB, Human, 0, 0.0, []), ActorRequest(PATTERN, Agent, 0, 0.0, []);
    var l1, l2 := HumanSteps(0, MakeActor(BOB, Human, 0, []), ""), HumanSteps(0, MakeActor(PATTERN, Agent, 0, []), "");
    var l3 := HumanSteps(0, FreezeActor(PATTERN), "");
    var s1 := RootMakes(c, Init(), bob);
    LaterReachable(c, Init(), l1);
    var s2 := RootMakes(c, s1, agent);
    LaterReachable(c, s1, l2);
    var s3 := RootFreezes(c, s2, PATTERN);
    PatternNamesRoot();
    schedule := l1 + l2 + l3;
    RunAppend(c, Init(), l1, l2);
    RunAppend(c, Init(), l1 + l2, l3);
  }

  lemma StartReachable(c: Config)
    ensures Reachable(c, Init())
  {
    RunNothing(c, Init());
  }

  lemma NamesNamed()
    ensures !Blank(BOB) && !Blank(PATTERN) && BOB != PATTERN && BOB != ROOT && PATTERN != ROOT && PATTERN != ""
  {
    assert BOB[0] in BOB && PATTERN[0] in PATTERN;
    assert |BOB| == 3 && PATTERN[1] == '_' && ROOT[1] == 'o';
  }
}

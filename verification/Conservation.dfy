/** Energy over all actors: what was minted is what is left plus what the log settled. */
module Conservation {
  import opened Basics
  import opened Consent
  import opened Database
  import opened Kernel
  import opened Accounting
  import opened Sums
  import opened Provenance
  import Tick

  // ----- conservation --------------------------------------------------------------------

  ghost function TotalBalance(ledger: Ledger): (n: int) {
    SumOver(ledger.Keys, a => BalanceOf(ledger, a))
  }

  ghost function TotalMinted(minted: map<Id, int>): (n: int) {
    SumOver(minted.Keys, a => MintedOf(minted, a))
  }

  function TotalSettled(events: seq<Event>): (n: int) {
    if events == [] then 0 else TotalSettled(events[..|events| - 1]) + events[|events| - 1].settled
  }

  /** Every event is charged to exactly one actor of the set. */
  lemma {:induction false} SettledByActor(actors: set<Id>, events: seq<Event>)
    requires forall i | 0 <= i < |events| :: Charged(events[i]) in actors
    ensures SumOver(actors, a => Settled(events, a)) == TotalSettled(events)
    decreases |events|
  {
    if events == [] {
      NothingSettled(actors);
      SumOverSame(actors, a => Settled(events, a), a => 0);
    } else {
      var n := |events| - 1;
      var init, e := events[..n], events[n];
      SettledByActor(actors, init);
      SumOverPoint(actors, a => Settled(init, a), a => Settled(events, a), Charged(e), e.settled);
    }
  }

  lemma {:induction false} NothingSettled(actors: set<Id>)
    ensures SumOver(actors, a => 0) == 0
    decreases |actors|
  {
    if actors != {} {
      var a :| a in actors;
      SumOverRemove(actors, a, x => 0);
      NothingSettled(actors - {a});
    }
  }

  lemma ChargedActorsExist(c: Config, db: Db)
    requires EventsOk(c, db)
    ensures forall i | 0 <= i < |db.events| :: Charged(db.events[i]) in db.actors
  {
    hide UnheldOk;
    forall i | 0 <= i < |db.events|
      ensures Charged(db.events[i]) in db.actors
    {
      assert EventOk(c, db, db.events[i]);
    }
  }

  lemma BooksBalance(c: Config, s: State)
    requires AccountsOk(s) && EventsOk(c, s.db)
    ensures TotalMinted(s.minted) == TotalBalance(s.db.ledger) + TotalSettled(s.db.events)
  {
    hide Balanced, RowsOk, EventsOk, Settled, TotalSettled, SumOver;
    var actors := s.db.actors.Keys;
    ChargedActorsExist(c, s.db);
    SettledByActor(actors, s.db.events);
    var balance := a => BalanceOf(s.db.ledger, a);
    var settled := a => Settled(s.db.events, a);
    var minted := a => MintedOf(s.minted, a);
    forall a | a in actors
      ensures minted(a) == balance(a) + settled(a)
    {
      assert BalanceOf(s.db.ledger, a) == MintedOf(s.minted, a) - Settled(s.db.events, a);
    }
    SumOverAdds(actors, balance, settled, minted);
  }

  // ----- what mints ------------------------------------------------------------------------

  /** The credits of a tick that are positive. */
  function Positives(credits: seq<int>): (n: int) {
    if credits == [] then 0
    else
      var x := credits[|credits| - 1];
      Positives(credits[..|credits| - 1]) + if x > 0 then x else 0
  }

  lemma {:induction false} MintAllTotal(minted: map<Id, int>, list: seq<Id>, credits: seq<int>)
    requires |list| == |credits| && forall x | x in list :: x in minted
    ensures MintAll(minted, list, credits).Keys == minted.Keys
    ensures TotalMinted(MintAll(minted, list, credits)) == TotalMinted(minted) + Positives(credits)
    decreases |list|
  {
    hide SumOver;
    if list != [] {
      var n := |list| - 1;
      MintAllTotal(minted, list[..n], credits[..n]);
      var before, after := MintAll(minted, list[..n], credits[..n]), MintAll(minted, list, credits);
      assert list[n] in list;
      if credits[n] > 0 {
        SumOverPoint(minted.Keys, a => MintedOf(before, a), a => MintedOf(after, a), list[n], credits[n]);
      }
    }
  }

  lemma {:induction false} PositivesOfNonNegative(credits: seq<int>)
    requires forall i | 0 <= i < |credits| :: credits[i] >= 0
    ensures Positives(credits) == Tick.Sum(credits)
    decreases |credits|
  {
    if credits != [] {
      PositivesOfNonNegative(credits[..|credits| - 1]);
    }
  }

  lemma {:induction false} PositivesOfNonPositive(credits: seq<int>)
    requires forall i | 0 <= i < |credits| :: credits[i] <= 0
    ensures Positives(credits) == 0
    decreases |credits|
  {
    if credits != [] {
      PositivesOfNonPositive(credits[..|credits| - 1]);
    }
  }

  /** What a tick hands out is the whole of a positive production, and nothing otherwise. */
  lemma TickHandsOut(e: int, shares: seq<real>)
    requires Tick.Positive(shares) && shares != []
    ensures Tick.SumShares(shares) > 0.0
    ensures Positives(Tick.Allocations(e, shares)) == if e > 0 then e else 0
  {
    hide Tick.Allocations, Tick.Sum, Tick.SumShares, Positives;
    Tick.TickIsNeutral(e, shares);
    var credits := Tick.Allocations(e, shares);
    if e >= 0 {
      forall i | 0 <= i < |credits|
        ensures credits[i] >= 0
      {
        Tick.CreditNonNegative(e, shares, i);
      }
      PositivesOfNonNegative(credits);
    } else {
      forall i | 0 <= i < |credits|
        ensures credits[i] <= 0
      {
        NegativeCredit(e, shares, i);
      }
      PositivesOfNonPositive(credits);
    }
  }

  lemma NegativeCredit(e: int, shares: seq<real>, i: nat)
    requires e < 0 && Tick.Positive(shares) && i < |shares|
    ensures Tick.SumShares(shares) > 0.0
    ensures Tick.Allocations(e, shares)[i] <= 0
  {
    hide Tick.SumShares, Tick.Due;
    Tick.SumPositive(shares);
    NegativeDue(e, shares[i], Tick.SumShares(shares));
  }

  lemma NegativeDue(e: int, share: real, total: real)
    requires e < 0 && share > 0.0 && total > 0.0
    ensures Tick.Due(e, share, total) < 0.0
  {
    var p := share / total;
    assert p > 0.0;
    assert e as real * p < 0.0;
  }

  /** The energy that a decided effect is due to mint. */
  function Mints(c: Config, s: State, e: Effect): (n: int)
    requires Applicable(s, e)
  {
    match e
    case CreditTick(_, _) => if c.energyPerTick > 0 then c.energyPerTick else 0
    case Commit(tid, _, NewActor(q), _) => if Apply(s, e) == Fail(s, tid) then 0 else q.balance
    case _ => 0
  }

  lemma NewActorMints(minted: map<Id, int>, id: Id, n: int)
    requires id !in minted
    ensures TotalMinted(minted[id := n]) == TotalMinted(minted) + n
  {
    hide SumOver;
    var after := minted[id := n];
    SumOverRemove(after.Keys, id, a => MintedOf(after, a));
    assert after.Keys - {id} == minted.Keys;
    SumOverSame(minted.Keys, a => MintedOf(minted, a), a => MintedOf(after, a));
  }

  /** A tick credits the producing agents whose shares it read. */
  lemma TickMints(c: Config, s: State, list: seq<Id>)
    requires AccountsOk(s) && DecideTick(c, s, list).CreditTick?
    ensures var e := DecideTick(c, s, list); TotalMinted(Apply(s, e).minted) == TotalMinted(s.minted) + Mints(c, s, e)
  {
    hide CreditAll, MintAll, TotalMinted, Tick.Allocations, Balanced, Replayed, Positives, Tick.SumShares;
    var shares := Shares(s.db.actors, list);
    var credits := Tick.Allocations(c.energyPerTick, shares);
    forall i | 0 <= i < |shares|
      ensures shares[i] > 0.0
    {
      assert list[i] in list;
    }
    TickHandsOut(c.energyPerTick, shares);
    CreditsMinted(s.db.ledger, s.minted, list, credits);
    MintAllTotal(s.minted, list, credits);
  }

  lemma CommitMints(s: State, e: Effect)
    requires AccountsOk(s) && Applicable(s, e) && e.Commit?
    ensures !e.spec.NewActor? || Apply(s, e) == Fail(s, e.tid) ==> Apply(s, e).minted == s.minted
    ensures e.spec.NewActor? && Apply(s, e) != Fail(s, e.tid) ==>
              && e.spec.request.id !in s.minted
              && Apply(s, e).minted == s.minted[e.spec.request.id := e.spec.request.balance]
  {
    hide Settle, AppendEvent, Balanced, Replayed, RowsOk, Blank;
    assert s.minted.Keys == s.db.actors.Keys;
  }

  lemma OthersMintNothing(s: State, e: Effect)
    requires Applicable(s, e) && !e.Commit? && !e.CreditTick?
    ensures Apply(s, e).minted == s.minted
  {
    hide TxTrigger, TxRespond, TxTimeout, TxConsume, TxLifecycle, Database.Reserve;
  }

  /** Only a tick and the creation of an actor mint, and exactly what they announce. */
  lemma StepMints(c: Config, s: State, l: Label)
    requires AccountsOk(s)
    ensures TotalMinted(Step(c, s, l).minted) == TotalMinted(s.minted) + Mints(c, s, Decide(c, s, l))
  {
    hide AccountsOk, TotalMinted, Apply, Fail;
    var e := Decide(c, s, l);
    if e.CreditTick? {
      OnlyTicksCredit(c, s, l);
      TickMints(c, s, l.list);
    } else if e.Commit? {
      CommitMints(s, e);
      if e.spec.NewActor? && Apply(s, e) != Fail(s, e.tid) {
        NewActorMints(s.minted, e.spec.request.id, e.spec.request.balance);
      }
    } else {
      OthersMintNothing(s, e);
    }
  }

  lemma OnlyTicksCredit(c: Config, s: State, l: Label)
    requires Decide(c, s, l).CreditTick?
    ensures l.ProduceTick? && Decide(c, s, l) == DecideTick(c, s, l.list)
  {
    hide ParseSpec, MustHold, WithinBoundary, IsActiveEnvelope, CheckAuthorization, EnvelopeCovers, IsPendingList;
  }
}

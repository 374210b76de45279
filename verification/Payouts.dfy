/** What a tick pays to whom, row by row. */
module Payouts {
  import opened Basics
  import opened Consent
  import opened Database
  import opened Kernel
  import opened Accounting
  import opened Theorems

  /** The active agents with a positive share. */
  function Producers(actors: map<Id, Actor>): (ids: set<Id>) {
    set a | a in actors && actors[a].kind == Agent && actors[a].status == Active && actors[a].share > 0.0
  }

  /** The shares of these actors, added up in any order. */
  ghost function ShareTotal(actors: map<Id, Actor>, ids: set<Id>): (total: real)
    requires ids <= actors.Keys
    decreases |ids|
  {
    if ids == {} then 0.0
    else
      var a :| a in ids;
      actors[a].share + ShareTotal(actors, ids - {a})
  }

  /** Every producer gets its part of the tick, rounded down or one more; nobody else gets anything. */
  ghost predicate Paid(e: int, actors: map<Id, Actor>, p: Ledger, q: Ledger) {
    && q.Keys == p.Keys
    && forall a | a in p ::
         && q[a].reserved == p[a].reserved
         && if e >= 0 && a in Producers(actors)
            then PaidPart(e, actors[a].share, ShareTotal(actors, Producers(actors)), q[a].balance - p[a].balance)
            else q[a].balance == p[a].balance
  }

  /** Within one unit of the exact part: rounded down, or one more than that. */
  predicate PaidPart(e: int, share: real, total: real, gain: int) {
    && total > 0.0
    && var part := e as real * (share / total);
       part - 1.0 < gain as real <= part + 1.0 && (gain == part.Floor || gain == part.Floor + 1)
  }

  // ----- the total of the shares ---------------------------------------------------------

  lemma {:induction false} TotalWithout(actors: map<Id, Actor>, ids: set<Id>, a: Id)
    requires ids <= actors.Keys && a in ids
    ensures ShareTotal(actors, ids) == actors[a].share + ShareTotal(actors, ids - {a})
    decreases |ids|
  {
    var b :| b in ids && ShareTotal(actors, ids) == actors[b].share + ShareTotal(actors, ids - {b});
    if b != a {
      TotalWithout(actors, ids - {b}, a);
      TotalWithout(actors, ids - {a}, b);
      assert ids - {b} - {a} == ids - {a} - {b};
    }
  }

  predicate Distinct(list: seq<Id>) {
    forall i, j | 0 <= i < j < |list| :: list[i] != list[j]
  }

  /** The total does not depend on the order in which the shares are listed. */
  lemma {:induction false} ListedTotal(actors: map<Id, Actor>, list: seq<Id>, ids: set<Id>)
    requires Distinct(list) && (forall a | a in list :: a in actors) && (forall a :: a in ids <==> a in list)
    ensures ids <= actors.Keys
    ensures Tick.SumShares(Shares(actors, list)) == ShareTotal(actors, ids)
    decreases |list|
  {
    if list != [] {
      var n := |list| - 1;
      var init := list[..n];
      assert list == init + [list[n]];
      assert Shares(actors, list)[..n] == Shares(actors, init) && Shares(actors, list)[n] == actors[list[n]].share;
      hide Shares;
      ListedTotal(actors, init, ids - {list[n]});
      TotalWithout(actors, ids, list[n]);
    }
  }

  // ----- the rows ------------------------------------------------------------------------

  /** Each listed actor gets its own credit, if it is positive, and no row changes otherwise. */
  lemma {:induction false} CreditRows(ledger: Ledger, list: seq<Id>, credits: seq<int>, a: Id)
    requires |list| == |credits| && Distinct(list) && CreditAll(ledger, list, credits).Ok?
    ensures var q := CreditAll(ledger, list, credits).value;
            && q.Keys == ledger.Keys
            && (a in ledger && a !in list ==> q[a] == ledger[a])
            && (a in ledger ==> q[a].reserved == ledger[a].reserved)
            && (forall i | 0 <= i < |list| && a == list[i] && a in ledger ::
                  q[a].balance == ledger[a].balance + if credits[i] > 0 then credits[i] else 0)
    decreases |list|
  {
    if list != [] {
      var n := |list| - 1;
      assert forall i | 0 <= i < n :: list[..n][i] == list[i] && credits[..n][i] == credits[i];
      CreditRows(ledger, list[..n], credits[..n], a);
      assert list == list[..n] + [list[n]];
    }
  }

  /** A credit is the part rounded down, or one more. */
  lemma CreditIsPart(e: int, shares: seq<real>, i: nat)
    requires e >= 0 && Tick.Positive(shares) && i < |shares|
    ensures Tick.SumShares(shares) > 0.0
    ensures Tick.Allocations(e, shares)[i] >= 0
    ensures PaidPart(e, shares[i], Tick.SumShares(shares), Tick.Allocations(e, shares)[i])
  {
    hide Tick.SumShares, Tick.Positive, Tick.Remainder;
    Tick.SumPositive(shares);
    Tick.CreditNonNegative(e, shares, i);
    assert Tick.Due(e, shares[i], Tick.SumShares(shares)) == e as real * (shares[i] / Tick.SumShares(shares));
  }

  /** A tick of negative energy has no positive credit. */
  lemma NoCredit(e: int, shares: seq<real>, i: nat)
    requires e < 0 && Tick.Positive(shares) && i < |shares|
    ensures Tick.SumShares(shares) > 0.0
    ensures Tick.Allocations(e, shares)[i] <= 0
  {
    Tick.SumPositive(shares);
    assert shares[i] / Tick.SumShares(shares) > 0.0;
    assert Tick.Due(e, shares[i], Tick.SumShares(shares)) < 0.0;
  }

  /** The crediting loop pays every producer its part. */
  lemma CreditsPay(e: int, actors: map<Id, Actor>, list: seq<Id>, p: Ledger)
    requires IsShareList(actors, list) && list != []
    ensures Tick.SumShares(Shares(actors, list)) > 0.0
    ensures var r := CreditAll(p, list, Tick.Allocations(e, Shares(actors, list)));
            r.Ok? ==> Paid(e, actors, p, r.value)
  {
    hide Tick.SumShares, Tick.Allocations, CreditAll, PaidPart;
    var shares := Shares(actors, list);
    assert Tick.Positive(shares) by {
      assert forall i | 0 <= i < |shares| :: list[i] in list;
    }
    Tick.SumPositive(shares);
    var credits := Tick.Allocations(e, shares);
    ListedTotal(actors, list, Producers(actors));
    if CreditAll(p, list, credits).Ok? {
      var q := CreditAll(p, list, credits).value;
      CreditRows(p, list, credits, "");
      forall a | a in p
        ensures q[a].reserved == p[a].reserved
        ensures if e >= 0 && a in Producers(actors)
                then PaidPart(e, actors[a].share, ShareTotal(actors, Producers(actors)), q[a].balance - p[a].balance)
                else q[a].balance == p[a].balance
      {
        CreditRows(p, list, credits, a);
        if a in list {
          var i :| 0 <= i < |list| && list[i] == a;
          if e >= 0 {
            CreditIsPart(e, shares, i);
          } else {
            NoCredit(e, shares, i);
          }
        }
      }
    }
  }

  /** In every reachable state the credits of a tick go through. */
  lemma CreditsGoThrough(c: Config, s: State, list: seq<Id>, credits: seq<int>)
    requires Reachable(c, s) && IsShareList(s.db.actors, list) && |list| == |credits|
    ensures CreditAll(s.db.ledger, list, credits).Ok?
  {
    hide Run, CreditAll, MintAll;
    ReachableInv(c, s);
    assert AccountsOk(s);
    CreditsMinted(s.db.ledger, s.minted, list, credits);
  }

  /** Whoever lists the producers, a tick pays each its part and changes nothing else. */
  lemma TickPays(c: Config, s: State, list: seq<Id>)
    requires Reachable(c, s) && IsShareList(s.db.actors, list)
    ensures Paid(c.energyPerTick, s.db.actors, s.db.ledger, Step(c, s, Label.ProduceTick(list)).db.ledger)
    ensures Step(c, s, Label.ProduceTick(list)).db == s.db.(ledger := Step(c, s, Label.ProduceTick(list)).db.ledger)
  {
    hide Reachable, Tick.SumShares, Tick.Allocations, CreditAll, MintAll, Shares, PaidPart, Producers;
    if list == [] {
      NobodyProduces(s.db.actors);
    } else {
      CreditsPay(c.energyPerTick, s.db.actors, list, s.db.ledger);
      CreditsGoThrough(c, s, list, Tick.Allocations(c.energyPerTick, Shares(s.db.actors, list)));
    }
  }

  lemma NobodyProduces(actors: map<Id, Actor>)
    requires IsShareList(actors, [])
    ensures Producers(actors) == {}
  {
  }
}

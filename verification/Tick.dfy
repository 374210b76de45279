/** Tick allocation: floor shares plus a round-robin remainder, over exact shares. */
module Tick {

  function SumShares(shares: seq<real>): (s: real)
  {
    if shares == [] then 0.0 else SumShares(shares[..|shares| - 1]) + shares[|shares| - 1]
  }

  function Sum(xs: seq<int>): (s: int)
  {
    if xs == [] then 0 else Sum(xs[..|xs| - 1]) + xs[|xs| - 1]
  }

  predicate Positive(shares: seq<real>) {
    forall i | 0 <= i < |shares| :: shares[i] > 0.0
  }

  lemma {:induction false} SumPositive(shares: seq<real>)
    requires Positive(shares) && shares != []
    ensures SumShares(shares) > 0.0
    decreases |shares|
  {
    if |shares| > 1 {
      SumPositive(shares[..|shares| - 1]);
    }
  }

  /** The exact share of `e` that a share is due. */
  function Due(e: int, share: real, total: real): (x: real)
    requires total > 0.0
  {
    e as real * (share / total)
  }

  function Floors(e: int, shares: seq<real>, total: real): (xs: seq<int>)
    requires total > 0.0
    ensures |xs| == |shares|
    ensures forall i | 0 <= i < |xs| :: xs[i] == Due(e, shares[i], total).Floor
  {
    seq(|shares|, i requires 0 <= i < |shares| => Due(e, shares[i], total).Floor)
  }

  function Remainder(e: int, shares: seq<real>): (r: int)
    requires SumShares(shares) > 0.0
  {
    e - Sum(Floors(e, shares, SumShares(shares)))
  }

  /** The credits: the floors, and one more for each of the first `Remainder` actors. */
  function Allocations(e: int, shares: seq<real>): (xs: seq<int>)
    requires SumShares(shares) > 0.0
    ensures |xs| == |shares|
  {
    WithExtra(Floors(e, shares, SumShares(shares)), Remainder(e, shares))
  }

  function WithExtra(floors: seq<int>, r: int): (xs: seq<int>)
    ensures |xs| == |floors|
    ensures forall i | 0 <= i < |xs| :: xs[i] == floors[i] + if i < r then 1 else 0
  {
    seq(|floors|, i requires 0 <= i < |floors| => floors[i] + if i < r then 1 else 0)
  }

  /** The floors lose less than one unit per actor. */
  lemma {:induction false} FloorSumBounds(e: int, shares: seq<real>, total: real)
    requires total > 0.0
    ensures Sum(Floors(e, shares, total)) as real <= Due(e, SumShares(shares), total)
    ensures shares != [] ==> Due(e, SumShares(shares), total) < (Sum(Floors(e, shares, total)) + |shares|) as real
    decreases |shares|
  {
    if shares != [] {
      var n := |shares| - 1;
      var init, x := shares[..n], shares[n];
      FloorSumBounds(e, init, total);
      assert Floors(e, shares, total)[..n] == Floors(e, init, total);
      DueAdds(e, SumShares(init), x, total);
    } else {
      assert Due(e, 0.0, total) == 0.0;
    }
  }

  lemma DueAdds(e: int, a: real, b: real, total: real)
    requires total > 0.0
    ensures Due(e, a + b, total) == Due(e, a, total) + Due(e, b, total)
  {
    assert (a + b) / total == a / total + b / total;
  }

  lemma {:induction false} SumWithExtra(floors: seq<int>, r: int)
    ensures Sum(WithExtra(floors, r)) == Sum(floors) + if r < 0 then 0 else if r < |floors| then r else |floors|
    decreases |floors|
  {
    if floors != [] {
      var n := |floors| - 1;
      SumWithExtra(floors[..n], r);
      assert WithExtra(floors, r)[..n] == WithExtra(floors[..n], r);
    }
  }

  /** Fewer than one extra unit per actor is left, so the round robin never wraps. */
  lemma RemainderBounds(e: int, shares: seq<real>)
    requires Positive(shares) && shares != []
    ensures SumShares(shares) > 0.0
    ensures 0 <= Remainder(e, shares) < |shares|
  {
    hide Due, Floors, Sum, SumShares;
    SumPositive(shares);
    FloorSumBounds(e, shares, SumShares(shares));
    DueWhole(e, SumShares(shares));
  }

  lemma DueWhole(e: int, total: real)
    requires total > 0.0
    ensures Due(e, total, total) == e as real
  {
    assert total / total == 1.0;
  }

  /** Energy neutrality: the credits of a tick sum to exactly what it produced. */
  lemma TickIsNeutral(e: int, shares: seq<real>)
    requires Positive(shares) && shares != []
    ensures SumShares(shares) > 0.0
    ensures Sum(Allocations(e, shares)) == e
  {
    RemainderBounds(e, shares);
    SumWithExtra(Floors(e, shares, SumShares(shares)), Remainder(e, shares));
  }

  /** Every credit is within one unit of the exact share. */
  lemma CreditNearDue(e: int, shares: seq<real>, i: nat)
    requires Positive(shares) && i < |shares|
    ensures SumShares(shares) > 0.0
    ensures Due(e, shares[i], SumShares(shares)) - 1.0 < Allocations(e, shares)[i] as real
    ensures Allocations(e, shares)[i] as real <= Due(e, shares[i], SumShares(shares)) + 1.0
  {
    SumPositive(shares);
  }

  /** A larger share never gets more than one unit less. */
  lemma TickIsMonotone(e: int, shares: seq<real>, i: nat, j: nat)
    requires e >= 0 && Positive(shares) && i < |shares| && j < |shares|
    requires shares[i] >= shares[j]
    ensures SumShares(shares) > 0.0
    ensures Allocations(e, shares)[i] >= Allocations(e, shares)[j] - 1
  {
    SumPositive(shares);
    DueMonotone(e, shares[j], shares[i], SumShares(shares));
  }

  lemma DueMonotone(e: int, a: real, b: real, total: real)
    requires e >= 0 && total > 0.0 && a <= b
    ensures Due(e, a, total) <= Due(e, b, total)
  {
    DueAdds(e, a, b - a, total);
    assert (b - a) / total >= 0.0;
  }

  lemma CreditNonNegative(e: int, shares: seq<real>, i: nat)
    requires e >= 0 && Positive(shares) && i < |shares|
    ensures SumShares(shares) > 0.0
    ensures Allocations(e, shares)[i] >= 0
  {
    SumPositive(shares);
    DueMonotone(e, 0.0, shares[i], SumShares(shares));
  }

  method TotalShares(shares: seq<real>) returns (total: real)
    ensures total == SumShares(shares)
  {
    total := 0.0;
    for i := 0 to |shares|
      invariant total == SumShares(shares[..i])
    {
      assert shares[..i + 1][..i] == shares[..i];
      total := total + shares[i];
    }
    assert shares[..|shares|] == shares;
  }

  /** The proportional loop: the floors and their sum. */
  method FloorCredits(e: int, shares: seq<real>, total: real) returns (allocations: array<int>, handedOut: int)
    requires total > 0.0
    ensures fresh(allocations)
    ensures allocations[..] == Floors(e, shares, total)
    ensures handedOut == Sum(Floors(e, shares, total))
  {
    hide Sum;
    var n := |shares|;
    ghost var floors := Floors(e, shares, total);
    allocations := new int[n];
    handedOut := 0;
    SumSnoc(floors, 0);
    for i := 0 to n
      invariant handedOut == Sum(floors[..i])
      invariant allocations[..i] == floors[..i]
    {
      var proportion := shares[i] / total;
      var credit := (e as real * proportion).Floor;
      allocations[i] := credit;
      SumSnoc(floors, i);
      handedOut := handedOut + credit;
    }
    assert floors[..n] == floors;
  }

  lemma SumSnoc(xs: seq<int>, i: nat)
    requires i <= |xs|
    ensures i < |xs| ==> Sum(xs[..i + 1]) == Sum(xs[..i]) + xs[i]
    ensures Sum(xs[..0]) == 0
  {
    if i < |xs| {
      assert xs[..i + 1][..i] == xs[..i];
    }
  }

  /** The round-robin loop over the remainder. */
  method SpreadRemainder(allocations: array<int>, remaining: int)
    requires remaining < allocations.Length
    modifies allocations
    ensures allocations[..] == WithExtra(old(allocations[..]), remaining)
  {
    var remainder, idx := remaining, 0;
    while remainder > 0
      invariant remainder <= remaining
      invariant if remaining < 0 then remainder == remaining && idx == 0
                else 0 <= remainder && idx == remaining - remainder
      invariant forall i | 0 <= i < allocations.Length ::
        allocations[i] == old(allocations[i]) + if i < idx then 1 else 0
    {
      allocations[idx] := allocations[idx] + 1;
      remainder := remainder - 1;
      idx := (idx + 1) % allocations.Length;
    }
  }

  /** The allocation of `produce_tick`: total, floors, remainder. */
  method Allocate(e: int, shares: seq<real>) returns (allocations: array<int>)
    requires Positive(shares) && shares != []
    ensures SumShares(shares) > 0.0
    ensures allocations[..] == Allocations(e, shares)
    ensures Sum(allocations[..]) == e
  {
    hide Sum, SumShares, Floors, WithExtra;
    RemainderBounds(e, shares);
    TickIsNeutral(e, shares);
    var handedOut: int;
    var total := TotalShares(shares);
    allocations, handedOut := FloorCredits(e, shares, total);
    SpreadRemainder(allocations, e - handedOut);
  }
}

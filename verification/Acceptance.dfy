/** Exactly what the shifting verifier accepts, for every index, size and proof length. */
module Acceptance {
  import opened Basics
  import opened Merkle
  import opened Database

  /** The leaves are leaf hashes, no two the same; the hashes of a log are, since each covers its index. */
  predicate Leaves(d: seq<Hash>) {
    && d != []
    && (forall i | 0 <= i < |d| :: d[i].LeafHash?)
    && (forall i, j | 0 <= i < j < |d| :: d[i] != d[j])
  }

  /** The hashes of a log are leaves in this sense. */
  lemma LogIsLeaves(events: seq<Event>)
    requires events != []
    ensures Leaves(EventHashes(events))
  {
  }

  /**
   * From the head of a tree of `n` leaves, down `m` levels: right where the verifier
   * hashes as a right child, else left. Whether that stays inside the tree.
   */
  predicate Descends(n: nat, idx: nat, last: nat, m: nat)
    requires n > 0
    decreases m
  {
    if m == 0 then true
    else if n == 1 then false
    else
      var k := Split(n);
      if GoesRight(idx, last, m - 1) then Descends(n - k, idx, last, m - 1) else Descends(k, idx, last, m - 1)
  }

  /** The subtree that the descent arrives at, by its first leaf and its size. */
  function Arrives(n: nat, idx: nat, last: nat, m: nat): (r: (nat, nat))
    requires n > 0 && Descends(n, idx, last, m)
    ensures r.1 > 0 && r.0 + r.1 <= n
    decreases m
  {
    if m == 0 then (0, n)
    else
      var k := Split(n);
      if GoesRight(idx, last, m - 1) then
        var sub := Arrives(n - k, idx, last, m - 1);
        (k + sub.0, sub.1)
      else Arrives(k, idx, last, m - 1)
  }

  /** The heads of the subtrees that the descent passes by, lowest first. */
  function PassedBy(d: seq<Hash>, idx: nat, last: nat, m: nat): (p: seq<Hash>)
    requires |d| > 0 && Descends(|d|, idx, last, m)
    ensures |p| == m
    decreases m
  {
    if m == 0 then []
    else
      var k := Split(|d|);
      if GoesRight(idx, last, m - 1) then PassedBy(d[k..], idx, last, m - 1) + [Mth(d[..k])]
      else PassedBy(d[..k], idx, last, m - 1) + [Mth(d[k..])]
  }

  /** The head of the subtree that the descent arrives at. */
  function Arrived(d: seq<Hash>, idx: nat, last: nat, m: nat): (h: Hash)
    requires |d| > 0 && Descends(|d|, idx, last, m)
  {
    var (first, size) := Arrives(|d|, idx, last, m);
    Mth(d[first..first + size])
  }

  /**
   * What the verifier accepts, for every index, claimed size and proof: a proof of
   * m hashes is accepted for the head of a tree if and only if m turns stay inside
   * it, the hash is the head of the subtree they arrive at, and the proof is what
   * they pass by.
   */
  lemma {:induction false} AcceptsExactly(h: Hash, idx: nat, last: nat, proof: seq<Hash>, d: seq<Hash>)
    requires Leaves(d)
    ensures Climb(h, idx, last, proof) == Mth(d) <==>
              && Descends(|d|, idx, last, |proof|)
              && h == Arrived(d, idx, last, |proof|) && proof == PassedBy(d, idx, last, |proof|)
    decreases |proof|
  {
    hide Split, GoesRight, Leaves, Climb, Mth;
    var m := |proof|;
    if m == 0 {
      assert d[0..0 + |d|] == d;
      ClimbNothing(h, idx, last);
    } else {
      var q, t := proof[..m - 1], proof[m - 1];
      assert proof == q + [t];
      TopTurn(h, idx, last, q, t);
      TopHead(d);
      if |d| > 1 {
        LeavesSplit(d, Split(|d|));
        if GoesRight(idx, last, m - 1) {
          AcceptsExactly(h, idx, last, q, d[Split(|d|)..]);
          ArrivedRight(d, idx, last, m);
        } else {
          AcceptsExactly(h, idx, last, q, d[..Split(|d|)]);
          ArrivedLeft(d, idx, last, m);
        }
      }
    }
  }

  lemma ClimbNothing(h: Hash, idx: nat, last: nat)
    ensures Climb(h, idx, last, []) == h
  {
  }

  lemma TopHead(d: seq<Hash>)
    requires Leaves(d)
    ensures |d| == 1 ==> Mth(d).LeafHash?
    ensures |d| > 1 ==> Mth(d) == NodeHash(Mth(d[..Split(|d|)]), Mth(d[Split(|d|)..]))
  {
  }

  lemma LeavesSplit(d: seq<Hash>, k: nat)
    requires Leaves(d) && 0 < k < |d|
    ensures Leaves(d[..k]) && Leaves(d[k..])
  {
  }

  lemma ArrivedRight(d: seq<Hash>, idx: nat, last: nat, m: nat)
    requires |d| > 1 && m > 0 && GoesRight(idx, last, m - 1)
    ensures var k := Split(|d|);
            Descends(|d|, idx, last, m) ==> Arrived(d, idx, last, m) == Arrived(d[k..], idx, last, m - 1)
  {
    hide Mth, GoesRight, Split;
    var k := Split(|d|);
    if Descends(|d|, idx, last, m) {
      var (first, size) := Arrives(|d| - k, idx, last, m - 1);
      assert d[k..][first..first + size] == d[k + first..k + first + size];
    }
  }

  lemma ArrivedLeft(d: seq<Hash>, idx: nat, last: nat, m: nat)
    requires |d| > 1 && m > 0 && !GoesRight(idx, last, m - 1)
    ensures var k := Split(|d|);
            Descends(|d|, idx, last, m) ==> Arrived(d, idx, last, m) == Arrived(d[..k], idx, last, m - 1)
  {
    hide Mth, GoesRight, Split;
    var k := Split(|d|);
    if Descends(|d|, idx, last, m) {
      var (first, size) := Arrives(k, idx, last, m - 1);
      assert d[..k][first..first + size] == d[first..first + size];
    }
  }

  lemma TopTurn(h: Hash, idx: nat, last: nat, q: seq<Hash>, t: Hash)
    ensures Climb(h, idx, last, q + [t])
         == if GoesRight(idx, last, |q|) then NodeHash(t, Climb(h, idx, last, q))
            else NodeHash(Climb(h, idx, last, q), t)
  {
    ClimbLast(h, idx, last, q, t);
  }

  /** A descent that arrives at a single leaf has taken as many turns as that leaf's audit path has hashes. */
  lemma {:induction false} LeafDepth(n: nat, idx: nat, last: nat, m: nat)
    requires n > 0 && Descends(n, idx, last, m) && Arrives(n, idx, last, m).1 == 1
    ensures PathLength(Arrives(n, idx, last, m).0, n) == m
    decreases m
  {
    hide GoesRight;
    if m > 0 {
      var k := Split(n);
      if GoesRight(idx, last, m - 1) {
        LeafDepth(n - k, idx, last, m - 1);
      } else {
        LeafDepth(k, idx, last, m - 1);
      }
    }
  }

  lemma HeadOfMany(d: seq<Hash>)
    requires |d| > 1
    ensures Mth(d).NodeHash?
  {
  }

  /** The verifier accepts this for the head of the tree, and it is not the indexed leaf. */
  predicate WrongAccepted(d: seq<Hash>, i: nat, h: Hash, proof: seq<Hash>)
    requires d != []
  {
    Climb(h, i, |d| - 1, proof) == Mth(d) && !(i < |d| && h == d[i])
  }

  /**
   * When the verifier accepts something other than the indexed leaf, exactly: the
   * turns stay inside the tree, and the index is not in the tree or the proof does
   * not have the length of its audit path.
   */
  lemma WrongAcceptedExactly(d: seq<Hash>, i: nat, m: nat)
    requires Leaves(d)
    ensures (exists h, proof :: |proof| == m && WrongAccepted(d, i, h, proof))
       <==> Descends(|d|, i, |d| - 1, m) && !(i < |d| && m == PathLength(i, |d|))
  {
    hide Climb, Mth, Descends, Arrives, PassedBy, PathLength;
    var n, last: nat := |d|, |d| - 1;
    forall h, proof | |proof| == m && WrongAccepted(d, i, h, proof)
      ensures Descends(n, i, last, m) && !(i < n && m == PathLength(i, n))
    {
      AcceptsExactly(h, i, last, proof, d);
      if i < n && m == PathLength(i, n) {
        VerifierDecidesPath(h, i, d, proof);
      }
    }
    if Descends(n, i, last, m) && !(i < n && m == PathLength(i, n)) {
      var h, proof := Arrived(d, i, last, m), PassedBy(d, i, last, m);
      AcceptsExactly(h, i, last, proof, d);
      var (first, size) := Arrives(n, i, last, m);
      if size > 1 {
        HeadOfMany(d[first..first + size]);
      } else {
        LeafDepth(n, i, last, m);
        LeafHead(d[first..first + size]);
      }
      assert |proof| == m && WrongAccepted(d, i, h, proof);
    }
  }

  lemma LeafHead(d: seq<Hash>)
    requires |d| == 1
    ensures Mth(d) == d[0]
  {
  }

  /** The empty proof passes for the root itself, at every index of every tree. */
  lemma RootPassesAsLeaf(d: seq<Hash>, i: nat)
    requires d != []
    ensures Climb(Mth(d), i, |d| - 1, []) == Mth(d)
  {
  }

  // ----- a proof that is too long -----------------------------------------------------------

  /** No descent is longer than ceil(log2 n). */
  lemma {:induction false} DescentBound(n: nat, idx: nat, last: nat, m: nat)
    requires n > 0 && Descends(n, idx, last, m)
    ensures m <= CeilLog2(n)
    decreases m
  {
    hide GoesRight;
    if m > 0 {
      var l, k := SplitLevel(n), Split(n);
      LogMono(k, l);
      LogMono(n - k, l);
      if GoesRight(idx, last, m - 1) {
        DescentBound(n - k, idx, last, m - 1);
      } else {
        DescentBound(k, idx, last, m - 1);
      }
    }
  }

  /** Only the turns matter. */
  lemma {:induction false} SameDescent(n: nat, i: nat, last: nat, i': nat, last': nat, m: nat)
    requires n > 0 && forall j: nat | j < m :: GoesRight(i, last, j) == GoesRight(i', last', j)
    ensures Descends(n, i, last, m) == Descends(n, i', last', m)
    decreases m
  {
    hide GoesRight;
    if m > 0 && n > 1 {
      var k := Split(n);
      SameDescent(n - k, i, last, i', last', m - 1);
      SameDescent(k, i, last, i', last', m - 1);
    }
  }

  /** Once on the right border, a position stays there. */
  lemma {:induction false} BorderStays(i: nat, last: nat, m: nat, j: nat)
    requires Shr(i, m) == Shr(last, m) && m <= j
    ensures Shr(i, j) == Shr(last, j)
    decreases j
  {
    if m < j {
      BorderStays(i, last, m, j - 1);
      ShrLast(i, j);
      ShrLast(last, j);
    }
  }

  /** In the right subtree a long descent keeps to the right border, and goes on as it would there. */
  lemma DescentStaysRight(i: nat, n: nat, m: nat)
    requires n > 1 && Split(n) <= i < n && m > PathLength(i, n) && Descends(n, i, n - 1, m)
    ensures Descends(n - Split(n), i - Split(n), n - Split(n) - 1, m - 1)
  {
    hide Shr, PathLength, SplitLevel;
    var l, k := SplitLevel(n), Split(n);
    var last: nat, i': nat, last': nat := n - 1, i - k, n - k - 1;
    DescentBound(n, i, last, m);
    PathReachesBorder(i, last, PathLength(i, n));
    BorderStays(i, last, PathLength(i, n), m - 1);
    forall j: nat | j < m - 1
      ensures GoesRight(i, last, j) == GoesRight(i', last', j)
    {
      TurnsRight(i, n, l, j);
    }
    SameDescent(n - k, i, last, i', last', m - 1);
  }

  lemma {:induction false} NoLongerDescent(i: nat, n: nat, m: nat)
    requires i < n && m > PathLength(i, n)
    ensures !Descends(n, i, n - 1, m)
    decreases n
  {
    hide Shr, GoesRight, SplitLevel, Descends;
    if n > 1 && Descends(n, i, n - 1, m) {
      if i < Split(n) {
        PathLengthComplete(i, SplitLevel(n));
        DescentBound(n, i, n - 1, m);
      } else {
        DescentStaysRight(i, n, m);
        NoLongerDescent(i - Split(n), n - Split(n), m - 1);
      }
    } else if n == 1 {
      SingleLeaf(i, n, m);
    }
  }

  lemma SingleLeaf(i: nat, n: nat, m: nat)
    requires n == 1 && m > 0
    ensures !Descends(n, i, n - 1, m)
  {
  }

  /** A proof longer than the audit path never passes, whatever the hash. */
  lemma LongerProofFails(h: Hash, i: nat, d: seq<Hash>, proof: seq<Hash>)
    requires Leaves(d) && i < |d| && |proof| > PathLength(i, |d|)
    ensures Climb(h, i, |d| - 1, proof) != Mth(d)
  {
    AcceptsExactly(h, i, |d| - 1, proof, d);
    NoLongerDescent(i, |d|, |proof|);
  }
}

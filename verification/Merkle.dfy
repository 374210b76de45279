/**
 * The Merkle tree of RFC 6962: the recursive tree head (section 2.1), the
 * recursive audit path (section 2.1.1), and the shifting verifier that the
 * benchmarks use to check receipts.
 */
module Merkle {
  import opened Basics

  /** The fields of an event that its hash covers; `target` is not one of them. */
  datatype Canonical = Canonical(actionType: string, actor: Id, index: nat,
                                 reserved: int, settled: int, time: nat)

  /** Hashing as a free constructor: collision free, leaves disjoint from nodes. */
  datatype Hash = LeafHash(event: Canonical) | NodeHash(left: Hash, right: Hash)

  /** The `l` with 2^l < n <= 2^(l+1). */
  function SplitLevel(n: nat): (l: nat)
    requires n > 1
    ensures Pow2(l) < n <= Pow2(l + 1)
  {
    if n == 2 then 0 else SplitLevel((n + 1) / 2) + 1
  }

  /** The largest power of two smaller than `n`. */
  function Split(n: nat): (k: nat)
    requires n > 1
    ensures 0 < k < n <= 2 * k
  {
    Pow2(SplitLevel(n))
  }

  /** MTH of a non-empty list of leaf hashes. */
  function Mth(d: seq<Hash>): (h: Hash)
    requires |d| > 0
    decreases |d|
  {
    if |d| == 1 then d[0]
    else
      var k := Split(|d|);
      NodeHash(Mth(d[..k]), Mth(d[k..]))
  }

  /** PATH(i, D). */
  function Path(i: nat, d: seq<Hash>): (p: seq<Hash>)
    requires i < |d|
    ensures |p| == PathLength(i, |d|)
    decreases |d|
  {
    if |d| == 1 then []
    else
      var k := Split(|d|);
      if i < k then Path(i, d[..k]) + [Mth(d[k..])]
      else Path(i - k, d[k..]) + [Mth(d[..k])]
  }

  function PathLength(i: nat, n: nat): (m: nat)
    requires i < n
    decreases n
  {
    if n == 1 then 0
    else
      var k := Split(n);
      1 + if i < k then PathLength(i, k) else PathLength(i - k, n - k)
  }

  function CeilLog2(n: nat): (r: nat)
    requires n > 0
    ensures n <= Pow2(r) && (r > 0 ==> Pow2(r - 1) < n)
  {
    if n == 1 then 0 else SplitLevel(n) + 1
  }

  // ----- the verifier --------------------------------------------------

  /** One level of the verifier's loop. */
  function Climb1(current: Hash, idx: nat, last: nat, sibling: Hash): (h: Hash) {
    if idx % 2 == 1 then NodeHash(sibling, current)
    else if idx < last then NodeHash(current, sibling)
    else NodeHash(sibling, current)
  }

  function Climb(current: Hash, idx: nat, last: nat, proof: seq<Hash>): (h: Hash)
    decreases |proof|
  {
    if proof == [] then current
    else Climb(Climb1(current, idx, last, proof[0]), idx / 2, last / 2, proof[1..])
  }

  /** `verify_inclusion`: folds the proof from the leaf up and compares with the root. */
  method VerifyInclusion(leaf: Hash, leafIndex: nat, treeSize: nat, root: Hash, proof: seq<Hash>)
    returns (ok: bool)
    requires treeSize > 0
    ensures ok <==> Climb(leaf, leafIndex, treeSize - 1, proof) == root
  {
    var current, idx: nat, last: nat := leaf, leafIndex, treeSize - 1;
    for i := 0 to |proof|
      invariant Climb(current, idx, last, proof[i..]) == Climb(leaf, leafIndex, treeSize - 1, proof)
    {
      var sibling := proof[i];
      assert proof[i..][1..] == proof[i + 1..];
      if idx % 2 == 1 {
        current := NodeHash(sibling, current);
      } else if idx < last {
        current := NodeHash(current, sibling);
      } else {
        current := NodeHash(sibling, current);
      }
      idx, last := idx / 2, last / 2;
    }
    ok := current == root;
  }

  /** The verifier's last step joins the climbed subtree with the last proof element. */
  lemma {:induction false} ClimbLast(h: Hash, idx: nat, last: nat, q: seq<Hash>, t: Hash)
    ensures Climb(h, idx, last, q + [t])
         == Climb1(Climb(h, idx, last, q), Shr(idx, |q|), Shr(last, |q|), t)
    decreases |q|
  {
    if q != [] {
      assert (q + [t])[1..] == q[1..] + [t];
      ClimbLast(Climb1(h, idx, last, q[0]), idx / 2, last / 2, q[1..], t);
    }
  }

  /** Whether `current` is hashed as the right child at height `j`. */
  predicate GoesRight(idx: nat, last: nat, j: nat) {
    Shr(idx, j) % 2 == 1 || Shr(idx, j) >= Shr(last, j)
  }

  /** Only the directions matter: two positions with the same turns climb alike. */
  lemma {:induction false} SameTurns(h: Hash, i: nat, l: nat, i': nat, l': nat, q: seq<Hash>)
    requires forall j: nat | j < |q| :: GoesRight(i, l, j) == GoesRight(i', l', j)
    ensures Climb(h, i, l, q) == Climb(h, i', l', q)
    decreases |q|
  {
    if q != [] {
      assert GoesRight(i, l, 0) == GoesRight(i', l', 0);
      forall j: nat | j < |q[1..]|
        ensures GoesRight(i / 2, l / 2, j) == GoesRight(i' / 2, l' / 2, j)
      {
        assert GoesRight(i, l, j + 1) == GoesRight(i', l', j + 1);
      }
      SameTurns(Climb1(h, i, l, q[0]), i / 2, l / 2, i' / 2, l' / 2, q[1..]);
    }
  }

  lemma {:induction false} PathLengthComplete(i: nat, l: nat)
    requires i < Pow2(l)
    ensures PathLength(i, Pow2(l)) == l
    decreases l
  {
    if l > 0 {
      SplitComplete(l);
      if i < Pow2(l - 1) {
        PathLengthComplete(i, l - 1);
      } else {
        PathLengthComplete(i - Pow2(l - 1), l - 1);
      }
    }
  }

  lemma {:induction false} SplitComplete(l: nat)
    requires l > 0
    ensures SplitLevel(Pow2(l)) == l - 1
  {
    var m := SplitLevel(Pow2(l));
    if m < l - 1 {
      Pow2Mono(m + 1, l - 1);
    } else if m > l - 1 {
      Pow2Mono(l, m);
    }
  }

  /** A proof has at most ceil(log2 n) hashes. */
  lemma {:induction false} PathLengthBound(i: nat, n: nat)
    requires i < n
    ensures PathLength(i, n) <= CeilLog2(n)
    decreases n
  {
    if n > 1 {
      var l := SplitLevel(n);
      var k := Split(n);
      if i < k {
        PathLengthComplete(i, l);
      } else {
        PathLengthBound(i - k, n - k);
        LogMono(n - k, l);
      }
    }
  }

  lemma {:induction false} LogMono(n: nat, l: nat)
    requires 0 < n <= Pow2(l)
    ensures CeilLog2(n) <= l
  {
    var c := CeilLog2(n);
    if c > l {
      Pow2Mono(l, c - 1);
    }
  }

  lemma RightLength(x: nat, n: nat, l: nat)
    requires x < n <= Pow2(l)
    ensures PathLength(x, n) <= l
  {
    PathLengthBound(x, n);
    LogMono(n, l);
  }

  lemma BorderLeft(i: nat, last: nat, l: nat)
    requires i <= last < Pow2(l)
    ensures Shr(i, l) == Shr(last, l)
  {
    ShrSmall(i, l);
    ShrSmall(last, l);
  }

  /** Two positions that meet at height `j` in the right subtree meet one level higher. */
  lemma BorderRight(i: nat, last: nat, l: nat, j: nat)
    requires Pow2(l) <= i <= last && j <= l
    requires Shr(i - Pow2(l), j) == Shr(last - Pow2(l), j)
    ensures Shr(i, j + 1) == Shr(last, j + 1)
  {
    ShrLast(i, j + 1);
    ShrLast(last, j + 1);
    ShrAddPow2(i - Pow2(l), l, j);
    ShrAddPow2(last - Pow2(l), l, j);
  }

  /** Past its audit path, every position coincides with the right border. */
  lemma {:induction false} PathReachesBorder(i: nat, last: nat, m: nat)
    requires i <= last && m == PathLength(i, last + 1)
    ensures Shr(i, m) == Shr(last, m)
    decreases last
  {
    hide Shr, SplitLevel;
    if last > 0 {
      var l, k := SplitLevel(last + 1), Split(last + 1);
      if i < k {
        PathLengthComplete(i, l);
        BorderLeft(i, last, m);
      } else {
        RightLength(i - k, last + 1 - k, l);
        PathReachesBorder(i - k, last - k, m - 1);
        BorderRight(i, last, l, m - 1);
      }
    }
  }

  /** In the left, complete subtree the verifier turns as it would in that subtree alone. */
  lemma TurnsLeft(i: nat, n: nat, l: nat, j: nat)
    requires i < Pow2(l) < n && j < l
    ensures GoesRight(i, n - 1, j) == GoesRight(i, Pow2(l) - 1, j)
  {
    hide Shr;
    ShrPow2Ones(l, j);
    ShrMono(i, Pow2(l) - 1, j);
    ShrMono(Pow2(l), n - 1, j);
    ShrAddPow2(0, l, j);
    ShrSmallZero(j);
    if Shr(i, j) % 2 == 0 {
      EvenBelow(Shr(i, j), Pow2(l - j - 1));
    }
  }

  lemma EvenBelow(a: nat, q: nat)
    requires a < 2 * q && a % 2 == 0
    ensures a < 2 * q - 1
  {
  }

  lemma {:induction false} ShrSmallZero(j: nat)
    ensures Shr(0, j) == 0
  {
    ShrSmall(0, j);
  }

  /** In the right subtree the verifier turns as it would in that subtree alone. */
  lemma TurnsRight(i: nat, n: nat, l: nat, j: nat)
    requires Pow2(l) <= i < n && j < l
    ensures GoesRight(i, n - 1, j) == GoesRight(i - Pow2(l), n - Pow2(l) - 1, j)
  {
    hide Shr;
    ShrAddPow2(i - Pow2(l), l, j);
    ShrAddPow2(n - Pow2(l) - 1, l, j);
    assert Pow2(l - j) == 2 * Pow2(l - j - 1);
  }

  /**
   * The shifting verifier decides exactly the recursive definition: a proof of
   * the length of the audit path is accepted for the tree head if and only if
   * the leaf is the `i`-th leaf and the proof is the audit path.
   */
  lemma {:induction false} VerifierDecidesPath(h: Hash, i: nat, d: seq<Hash>, proof: seq<Hash>)
    requires i < |d|
    requires |proof| == PathLength(i, |d|)
    ensures Climb(h, i, |d| - 1, proof) == Mth(d) <==> h == d[i] && proof == Path(i, d)
    decreases |d|
  {
    hide Pow2, Shr, SplitLevel;
    var n := |d|;
    if n > 1 {
      var k := Split(n);
      var m := |proof| - 1;
      var q, t := proof[..m], proof[m];
      assert proof == q + [t];
      if i < k {
        VerifierLeft(h, i, d, q, t);
        VerifierDecidesPath(h, i, d[..k], q);
      } else {
        VerifierRight(h, i, d, q, t);
        VerifierDecidesPath(h, i - k, d[k..], q);
      }
    }
  }

  /** The top step for a leaf of the left subtree. */
  lemma VerifierLeft(h: Hash, i: nat, d: seq<Hash>, q: seq<Hash>, t: Hash)
    requires |d| > 1 && i < Split(|d|)
    requires |q| == PathLength(i, Split(|d|))
    ensures Climb(h, i, |d| - 1, q + [t]) == NodeHash(Climb(h, i, Split(|d|) - 1, q), t)
  {
    var l, k: nat, last: nat, subLast: nat := SplitLevel(|d|), Split(|d|), |d| - 1, Split(|d|) - 1;
    PathLengthComplete(i, l);
    ClimbLast(h, i, last, q, t);
    forall j: nat | j < |q|
      ensures GoesRight(i, last, j) == GoesRight(i, subLast, j)
    {
      TurnsLeft(i, |d|, l, j);
    }
    SameTurns(h, i, last, i, subLast, q);
    ShrSmall(i, l);
    ShrMono(k, last, l);
    ShrAddPow2(0, l, l);
  }

  /** The top step for a leaf of the right subtree. */
  lemma VerifierRight(h: Hash, i: nat, d: seq<Hash>, q: seq<Hash>, t: Hash)
    requires |d| > 1 && Split(|d|) <= i < |d|
    requires |q| == PathLength(i - Split(|d|), |d| - Split(|d|))
    ensures Climb(h, i, |d| - 1, q + [t])
         == NodeHash(t, Climb(h, i - Split(|d|), |d| - Split(|d|) - 1, q))
  {
    hide Pow2, Shr, Climb, PathLength, SplitLevel;
    var l, k := SplitLevel(|d|), Split(|d|);
    RightLength(i - k, |d| - k, l);
    PathReachesBorder(i - k, |d| - k - 1, |q|);
    ClimbRight(h, i, |d| - 1, l, q, t);
  }

  lemma ClimbRight(h: Hash, i: nat, last: nat, l: nat, q: seq<Hash>, t: Hash)
    requires Pow2(l) <= i <= last && |q| <= l
    requires Shr(i - Pow2(l), |q|) == Shr(last - Pow2(l), |q|)
    ensures Climb(h, i, last, q + [t]) == NodeHash(t, Climb(h, i - Pow2(l), last - Pow2(l), q))
  {
    var i': nat, last': nat := i - Pow2(l), last - Pow2(l);
    ClimbLast(h, i, last, q, t);
    forall j: nat | j < |q|
      ensures GoesRight(i, last, j) == GoesRight(i', last', j)
    {
      TurnsRight(i, last + 1, l, j);
    }
    SameTurns(h, i, last, i', last', q);
    RightOfSplit(i, last, l, |q|);
  }

  /** A position that meets the right border at height `j` is a right child there. */
  lemma RightOfSplit(i: nat, last: nat, l: nat, j: nat)
    requires Pow2(l) <= i <= last && j <= l
    requires Shr(i - Pow2(l), j) == Shr(last - Pow2(l), j)
    ensures GoesRight(i, last, j)
  {
    ShrAddPow2(i - Pow2(l), l, j);
    ShrAddPow2(last - Pow2(l), l, j);
  }

  /**
   * The verifier does not look at the proof's length, and needs it: in a tree
   * of three leaves, leaf 2 is accepted at index 1 with a one-hash proof.
   */
  lemma ShortProofAccepted(a: Hash, b: Hash, c: Hash)
    ensures PathLength(1, 3) == 2
    ensures Climb(c, 1, 2, [NodeHash(a, b)]) == Mth([a, b, c])
  {
    var d := [a, b, c];
    assert Split(3) == 2 && Split(2) == 1;
    assert d[..2] == [a, b] && d[2..] == [c];
    assert [a, b][..1] == [a] && [a, b][1..] == [b];
    assert Mth([a, b]) == NodeHash(a, b);
    assert PathLength(1, 2) == 1;
    assert Climb1(c, 1, 2, NodeHash(a, b)) == NodeHash(NodeHash(a, b), c);
  }

  /** Nor does it look at the index: in a tree of two leaves, leaf 1 is accepted at index 3. */
  lemma IndexBeyondAccepted(a: Hash, b: Hash)
    ensures PathLength(1, 2) == 1
    ensures Climb(b, 3, 1, [a]) == Mth([a, b])
  {
    var d := [a, b];
    assert Split(2) == 1 && d[..1] == [a] && d[1..] == [b];
    assert Climb1(b, 3, 1, a) == NodeHash(a, b);
  }

  /** With the index and the length checked as well, acceptance means membership, for every index and proof. */
  lemma CheckedLengthDecides(h: Hash, i: nat, d: seq<Hash>, proof: seq<Hash>)
    requires d != []
    ensures i < |d| && |proof| == PathLength(i, |d|) && Climb(h, i, |d| - 1, proof) == Mth(d)
       <==> i < |d| && h == d[i] && proof == Path(i, d)
  {
    if i < |d| && |proof| == PathLength(i, |d|) {
      VerifierDecidesPath(h, i, d, proof);
    }
  }
}

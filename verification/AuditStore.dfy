/**
 * The audit log: complete-subtree hashes kept incrementally as leaves are
 * appended, checkpoints computed from them, and audit paths read from them.
 * `stored_hash_index(level, n)` is modelled by the pair `(level, n)`.
 */
module AuditStore {
  import opened Basics
  import opened Merkle

  type Key = (nat, nat)
  type Rows = map<Key, Hash>

  /** One past the last leaf of the `k`-th complete subtree of height `l`. */
  function End(l: nat, k: nat): (r: nat) {
    Shl(k + 1, l)
  }

  /** The leaves under the `k`-th complete subtree of height `l`. */
  function Sub(d: seq<Hash>, l: nat, k: nat): (r: seq<Hash>)
    requires End(l, k) <= |d|
    ensures |r| == Pow2(l)
  {
    ShlSucc(k, l);
    d[Shl(k, l)..End(l, k)]
  }

  /** Position (l, k) is stored exactly when its subtree is complete, and holds its tree head. */
  ghost predicate StoreOk(rows: Rows, d: seq<Hash>) {
    forall l: nat, k: nat ::
      && ((l, k) in rows <==> End(l, k) <= |d|)
      && ((l, k) in rows ==> End(l, k) <= |d| && rows[(l, k)] == Mth(Sub(d, l, k)))
  }

  // ----- append ---------------------------------------------------------

  /** The parent rows that the carry loop adds above height `level`. */
  function Carry(rows: Rows, n: nat, level: nat, current: Hash): (r: Result<seq<(Key, Hash)>>)
    decreases Shr(n, level)
  {
    var m := Shr(n, level);
    ShrLast(n, level + 1);
    if m % 2 == 0 then Ok([])
    else if (level, m - 1) !in rows then Err("hash not found")
    else
      var parent := NodeHash(rows[(level, m - 1)], current);
      var rest :- Carry(rows, n, level + 1, parent);
      Ok([((level + 1, m / 2), parent)] + rest)
  }

  function InsertAll(rows: Rows, added: seq<(Key, Hash)>): (r: Rows)
    decreases |added|
  {
    if added == [] then rows else InsertAll(rows[added[0].0 := added[0].1], added[1..])
  }

  function AppendLeaf(rows: Rows, n: nat, leaf: Hash): (r: Result<Rows>) {
    var added :- Carry(rows, n, 0, leaf);
    Ok(InsertAll(rows, [((0, n), leaf)] + added))
  }

  /** Doubling: a complete subtree is the node over its two halves. */
  lemma MthDouble(d: seq<Hash>, l: nat, k: nat)
    requires End(l + 1, k) <= |d|
    ensures End(l, 2 * k) <= |d| && End(l, 2 * k + 1) <= |d|
    ensures Mth(Sub(d, l + 1, k)) == NodeHash(Mth(Sub(d, l, 2 * k)), Mth(Sub(d, l, 2 * k + 1)))
  {
    hide Shl, Mth;
    EndDouble(l, k);
    MthSplit(d, Shl(2 * k, l), End(l + 1, k), l);
  }

  lemma EndDouble(l: nat, k: nat)
    ensures Shl(k, l + 1) == Shl(2 * k, l)
    ensures End(l, 2 * k) == Shl(2 * k, l) + Pow2(l) == Shl(2 * k + 1, l)
    ensures End(l + 1, k) == End(l, 2 * k + 1) == Shl(2 * k, l) + Pow2(l + 1)
  {
    ShlSucc(2 * k, l);
    ShlSucc(2 * k + 1, l);
  }

  /** Like `StoreOk` for `d`, with the subtrees that end at the last leaf present only below `top`. */
  ghost predicate Partial(rows: Rows, d: seq<Hash>, top: nat) {
    forall l: nat, k: nat ::
      && ((l, k) in rows <==> End(l, k) < |d| || (End(l, k) == |d| && l < top))
      && ((l, k) in rows ==> End(l, k) <= |d| && rows[(l, k)] == Mth(Sub(d, l, k)))
  }

  lemma SubPrefix(d: seq<Hash>, leaf: Hash, l: nat, k: nat)
    requires End(l, k) <= |d|
    ensures Sub(d + [leaf], l, k) == Sub(d, l, k)
  {
    ShlSucc(k, l);
  }

  lemma PartialStart(rows: Rows, d: seq<Hash>, leaf: Hash)
    requires StoreOk(rows, d)
    ensures Partial(rows, d + [leaf], 0)
  {
    forall l: nat, k: nat | (l, k) in rows
      ensures rows[(l, k)] == Mth(Sub(d + [leaf], l, k))
    {
      SubPrefix(d, leaf, l, k);
    }
  }

  lemma PartialStep(rows: Rows, d: seq<Hash>, top: nat, m: nat)
    requires Partial(rows, d, top)
    requires End(top, m) == |d|
    ensures Partial(rows[(top, m) := Mth(Sub(d, top, m))], d, top + 1)
  {
    forall k: nat | End(top, k) == |d|
      ensures k == m
    {
      ShlInjective(k + 1, m + 1, top);
    }
  }

  lemma PartialEnd(rows: Rows, d: seq<Hash>, level: nat, m: nat)
    requires Partial(rows, d, level + 1)
    requires End(level, m) == |d| && m % 2 == 0
    ensures StoreOk(rows, d)
  {
    forall l: nat, k: nat | l > level
      ensures End(l, k) != |d|
    {
      EndsDiffer(level, m, l, k);
    }
  }

  /** Only an odd subtree ends where a higher one does. */
  lemma EndsDiffer(level: nat, m: nat, l: nat, k: nat)
    requires l > level && m % 2 == 0
    ensures End(l, k) != End(level, m)
  {
    var half := Shl(k + 1, l - level - 1);
    ShlShl(k + 1, l - level - 1, 1);
    ShlShl(k + 1, l - level, level);
    if End(l, k) == End(level, m) {
      ShlInjective(2 * half, m + 1, level);
      assert false;
    }
  }

  lemma {:induction false} CarryKeeps(rows: Rows, d: seq<Hash>, leaf: Hash, level: nat, m: nat, current: Hash,
                                      now: Rows)
    requires StoreOk(rows, d)
    requires Partial(now, d + [leaf], level + 1)
    requires m == Shr(|d|, level) && End(level, m) == |d| + 1
    requires current == Mth(Sub(d + [leaf], level, m))
    ensures Carry(rows, |d|, level, current).Ok?
    ensures StoreOk(InsertAll(now, Carry(rows, |d|, level, current).value), d + [leaf])
    decreases m
  {
    hide StoreOk, Partial, Shl, Mth, Shr;
    if m % 2 == 0 {
      PartialEnd(now, d + [leaf], level, m);
    } else {
      var p := m / 2;
      LeftSiblingStored(rows, d, leaf, level, p);
      ParentHead(rows, d, leaf, level, p);
      ShrLast(|d|, level + 1);
      var parent := NodeHash(rows[(level, m - 1)], current);
      PartialStep(now, d + [leaf], level + 1, p);
      var now' := now[(level + 1, p) := parent];
      CarryKeeps(rows, d, leaf, level + 1, p, parent, now');
      var rest := Carry(rows, |d|, level + 1, parent).value;
      assert ([((level + 1, p), parent)] + rest)[1..] == rest;
    }
  }

  /** Every left-sibling read of the carry loop succeeds. */
  lemma LeftSiblingStored(rows: Rows, d: seq<Hash>, leaf: Hash, level: nat, p: nat)
    requires StoreOk(rows, d)
    requires End(level, 2 * p + 1) == |d| + 1
    ensures (level, 2 * p) in rows
    ensures End(level, 2 * p) <= |d|
    ensures rows[(level, 2 * p)] == Mth(Sub(d + [leaf], level, 2 * p))
  {
    ShlMono(2 * p + 1, 2 * p + 2, level);
    SubPrefix(d, leaf, level, 2 * p);
  }

  /** The node over the left sibling and the carried hash is the parent's tree head. */
  lemma ParentHead(rows: Rows, d: seq<Hash>, leaf: Hash, level: nat, p: nat)
    requires (level, 2 * p) in rows && End(level, 2 * p) <= |d|
    requires End(level, 2 * p + 1) == |d| + 1
    requires rows[(level, 2 * p)] == Mth(Sub(d + [leaf], level, 2 * p))
    ensures End(level + 1, p) == |d| + 1
    ensures Mth(Sub(d + [leaf], level + 1, p))
         == NodeHash(rows[(level, 2 * p)], Mth(Sub(d + [leaf], level, 2 * p + 1)))
  {
    hide Shl, Mth, Sub;
    EndDouble(level, p);
    MthDouble(d + [leaf], level, p);
  }

  /** Appending keeps the complete-subtree store: no read fails, whatever the size. */
  lemma AppendKeepsStore(rows: Rows, d: seq<Hash>, leaf: Hash)
    requires StoreOk(rows, d)
    ensures AppendLeaf(rows, |d|, leaf).Ok?
    ensures StoreOk(AppendLeaf(rows, |d|, leaf).value, d + [leaf])
  {
    var d', n := d + [leaf], |d|;
    PartialStart(rows, d, leaf);
    assert Sub(d', 0, n) == [leaf];
    PartialStep(rows, d', 0, n);
    CarryKeeps(rows, d, leaf, 0, n, leaf, rows[(0, n) := leaf]);
    var added := Carry(rows, n, 0, leaf).value;
    assert ([((0, n), leaf)] + added)[1..] == added;
  }

  /** Appending replaces no stored row. */
  lemma AppendReplacesNothing(rows: Rows, d: seq<Hash>, leaf: Hash, key: Key)
    requires StoreOk(rows, d) && key in rows
    ensures AppendLeaf(rows, |d|, leaf).Ok?
    ensures key in AppendLeaf(rows, |d|, leaf).value
    ensures AppendLeaf(rows, |d|, leaf).value[key] == rows[key]
  {
    AppendKeepsStore(rows, d, leaf);
    var (l, k) := key;
    assert (l, k) in rows;
    SubPrefix(d, leaf, l, k);
  }

  lemma EmptyStoreOk()
    ensures StoreOk(map[], [])
  {
    forall l: nat, k: nat
      ensures End(l, k) > 0
    {
      ShlMono(0, k + 1, l);
    }
  }

  // ----- tree heads -----------------------------------------------------

  /** The `l` with 2^l <= n < 2^(l+1). */
  function FloorLevel(n: nat): (l: nat)
    requires n > 0
    ensures Pow2(l) <= n < Pow2(l + 1)
  {
    if n == 1 then 0 else FloorLevel(n / 2) + 1
  }

  /** The complete subtrees that cover leaves [lo, hi), left to right. */
  function Subtrees(lo: nat, hi: nat): (keys: seq<Key>)
    requires lo <= hi
    ensures lo < hi ==> keys != []
    decreases hi - lo
  {
    if lo == hi then []
    else
      var l := FloorLevel(hi - lo);
      [(l, Shr(lo, l))] + Subtrees(lo + Pow2(l), hi)
  }

  function Lookup(rows: Rows, keys: seq<Key>): (r: Result<seq<Hash>>)
    ensures r.Ok? ==> |r.value| == |keys|
  {
    if keys == [] then Ok([])
    else if keys[0] !in rows then Err("indexes not in tree")
    else
      var rest :- Lookup(rows, keys[1..]);
      Ok([rows[keys[0]]] + rest)
  }

  /** The right-to-left fold of a non-empty list of hashes. */
  function Join(hs: seq<Hash>): (h: Hash)
    requires hs != []
    decreases |hs|
  {
    if |hs| == 1 then hs[0] else NodeHash(hs[0], Join(hs[1..]))
  }

  function TreeHash(rows: Rows, lo: nat, hi: nat): (r: Result<Hash>)
    requires lo < hi
  {
    var hs :- Lookup(rows, Subtrees(lo, hi));
    Ok(Join(hs))
  }

  /** `lo` is a multiple of 2^b. */
  ghost predicate Aligned(lo: nat, b: nat) {
    Shl(Shr(lo, b), b) == lo
  }

  lemma {:induction false} AlignedBelow(lo: nat, b: nat, l: nat)
    requires Aligned(lo, b) && l <= b
    ensures Aligned(lo, l)
  {
    ShlShl(Shr(lo, b), b - l, l);
    ShrShl(Shl(Shr(lo, b), b - l), l);
  }

  lemma AlignedNext(lo: nat, l: nat)
    requires Aligned(lo, l)
    ensures lo + Pow2(l) == Shl(Shr(lo, l) + 1, l)
    ensures Aligned(lo + Pow2(l), l)
  {
    ShlSucc(Shr(lo, l), l);
    ShrShl(Shr(lo, l) + 1, l);
  }

  /** The stored subtrees of [lo, hi) fold to its tree head, and are there exactly when hi leaves are. */
  lemma {:induction false} TreeHashCorrect(rows: Rows, d: seq<Hash>, lo: nat, hi: nat, b: nat)
    requires StoreOk(rows, d)
    requires lo < hi && hi - lo <= Pow2(b) && Aligned(lo, b)
    ensures TreeHash(rows, lo, hi).Ok? <==> hi <= |d|
    ensures hi <= |d| ==> TreeHash(rows, lo, hi).value == Mth(d[lo..hi])
    decreases hi - lo
  {
    hide StoreOk, Shl, Shr, Mth, Aligned;
    var n := hi - lo;
    var l := FloorLevel(n);
    if l > b {
      Pow2Mono(b + 1, l);
    }
    AlignedBelow(lo, b, l);
    AlignedNext(lo, l);
    var key := (l, Shr(lo, l));
    var keys := Subtrees(lo, hi);
    var mid := lo + Pow2(l);
    assert keys[1..] == Subtrees(mid, hi);
    SubtreeRead(rows, d, lo, l);
    if mid < hi {
      TreeHashCorrect(rows, d, mid, hi, l);
      if hi <= |d| {
        MthSplit(d, lo, hi, l);
        var rest := Lookup(rows, keys[1..]).value;
        assert ([rows[key]] + rest)[1..] == rest;
      }
    } else {
      assert keys == [key];
    }
  }

  /** A stored subtree is there exactly when its leaves are, and holds their tree head. */
  lemma SubtreeRead(rows: Rows, d: seq<Hash>, lo: nat, l: nat)
    requires StoreOk(rows, d) && Aligned(lo, l)
    ensures (l, Shr(lo, l)) in rows <==> lo + Pow2(l) <= |d|
    ensures lo + Pow2(l) <= |d| ==> rows[(l, Shr(lo, l))] == Mth(d[lo..lo + Pow2(l)])
  {
    AlignedNext(lo, l);
    var k := Shr(lo, l);
    assert (l, k) in rows <==> End(l, k) <= |d|;
  }

  lemma MthSplit(d: seq<Hash>, lo: nat, hi: nat, l: nat)
    requires lo + Pow2(l) < hi <= |d| && hi - lo <= Pow2(l + 1)
    ensures Mth(d[lo..hi]) == NodeHash(Mth(d[lo..lo + Pow2(l)]), Mth(d[lo + Pow2(l)..hi]))
  {
    hide Pow2, SplitLevel;
    SplitUnique(hi - lo, l);
    assert d[lo..hi][..Pow2(l)] == d[lo..lo + Pow2(l)];
    assert d[lo..hi][Pow2(l)..] == d[lo + Pow2(l)..hi];
  }

  lemma SplitUnique(n: nat, l: nat)
    requires n > 1 && Pow2(l) < n <= Pow2(l + 1)
    ensures SplitLevel(n) == l
  {
    var m := SplitLevel(n);
    if m < l {
      Pow2Mono(m + 1, l);
    } else if m > l {
      Pow2Mono(l + 1, m);
    }
  }

  /** The root computed from the store for any past size is the tree head of that prefix. */
  lemma RootCorrect(rows: Rows, d: seq<Hash>, n: nat)
    requires StoreOk(rows, d) && n > 0
    ensures TreeHash(rows, 0, n).Ok? <==> n <= |d|
    ensures n <= |d| ==> TreeHash(rows, 0, n).value == Mth(d[..n])
  {
    var b := CeilLog2(n);
    ShrSmall(0, b);
    ShlZero(b);
    TreeHashCorrect(rows, d, 0, n, b);
  }

  // ----- audit paths ----------------------------------------------------

  /** The audit path of leaf `i` in [lo, hi), read from the store. */
  function LeafProof(rows: Rows, lo: nat, hi: nat, i: nat): (r: Result<seq<Hash>>)
    requires lo <= i < hi
    decreases hi - lo
  {
    if lo + 1 == hi then Ok([])
    else
      var k := Split(hi - lo);
      if i < lo + k then
        var p :- LeafProof(rows, lo, lo + k, i);
        var t :- TreeHash(rows, lo + k, hi);
        Ok(p + [t])
      else
        var t :- TreeHash(rows, lo, lo + k);
        var p :- LeafProof(rows, lo + k, hi, i);
        Ok(p + [t])
  }

  /** `inclusion_proof`. */
  function InclusionProof(rows: Rows, logIndex: nat, treeSize: nat): (r: Result<seq<Hash>>) {
    if logIndex >= treeSize then Err("invalid inputs")
    else LeafProof(rows, 0, treeSize, logIndex)
  }

  lemma {:induction false} LeafProofCorrect(rows: Rows, d: seq<Hash>, lo: nat, hi: nat, i: nat, b: nat)
    requires StoreOk(rows, d)
    requires lo <= i < hi <= |d| && hi - lo <= Pow2(b) && Aligned(lo, b)
    ensures LeafProof(rows, lo, hi, i) == Ok(Path(i - lo, d[lo..hi]))
    decreases hi - lo
  {
    hide StoreOk, Shl, Shr, Aligned, TreeHash, Pow2, PathLength, Mth;
    if lo + 1 < hi {
      var l := SplitLevel(hi - lo);
      var mid := lo + Pow2(l);
      SplitAligned(lo, hi, b);
      assert d[lo..hi][..Pow2(l)] == d[lo..mid];
      assert d[lo..hi][Pow2(l)..] == d[mid..hi];
      TreeHashCorrect(rows, d, lo, mid, l);
      TreeHashCorrect(rows, d, mid, hi, l);
      if i < mid {
        LeafProofCorrect(rows, d, lo, mid, i, l);
      } else {
        LeafProofCorrect(rows, d, mid, hi, i, l);
      }
    }
  }

  /** Both halves of an aligned range are aligned. */
  lemma SplitAligned(lo: nat, hi: nat, b: nat)
    requires lo + 1 < hi && hi - lo <= Pow2(b) && Aligned(lo, b)
    ensures Aligned(lo, SplitLevel(hi - lo)) && Aligned(lo + Split(hi - lo), SplitLevel(hi - lo))
  {
    var l := SplitLevel(hi - lo);
    if l >= b {
      Pow2Mono(b, l);
    }
    AlignedBelow(lo, b, l);
    AlignedNext(lo, l);
  }

  /** The proof served for any index and any past size is the audit path of RFC 6962. */
  lemma ProofCorrect(rows: Rows, d: seq<Hash>, i: nat, n: nat)
    requires StoreOk(rows, d)
    requires i < n <= |d|
    ensures InclusionProof(rows, i, n) == Ok(Path(i, d[..n]))
  {
    hide StoreOk, LeafProof, Path, Mth;
    var b := CeilLog2(n);
    ShrSmall(0, b);
    ShlZero(b);
    LeafProofCorrect(rows, d, 0, n, i, b);
    assert d[0..n] == d[..n];
  }
}

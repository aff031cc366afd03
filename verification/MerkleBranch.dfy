/** The sparse-branch Merkle check: a branch names the depth of each sibling, so levels at which a node was
    promoted without a partner are skipped. */
module MerkleBranch {
  import opened Basics

  /** `signature` is the truncated hash of the solution. */
  datatype Metadata = Metadata(nonce: nat, runtimeSignature: nat, fuelConsumed: nat, signature: nat)

  /** Collision-free digests; `Raw` is any string of bytes that no hash produced. */
  datatype Hash = LeafHash(meta: Metadata) | NodeHash(left: Hash, right: Hash) | Raw(bytes: nat)

  type Branch = seq<(nat, Hash)>

  datatype Proof = Proof(meta: Metadata, arch: string, branch: Branch)

  const UINT64 := 0x1_0000_0000_0000_0000

  function Shift(n: nat, k: nat): nat {
    if k == 0 then n else Shift(n / 2, k - 1)
  }

  predicate Bit(n: nat, k: nat) {
    Shift(n, k) % 2 == 1
  }

  function BitLength(n: nat): nat {
    if n == 0 then 0 else 1 + BitLength(n / 2)
  }

  lemma {:induction false} ShiftShift(n: nat, a: nat, b: nat)
    ensures Shift(Shift(n, a), b) == Shift(n, a + b)
    decreases a
  {
    if a > 0 { ShiftShift(n / 2, a - 1, b); }
  }

  // ------------------------------------------------------------------ the check

  /** What a branch says, by the bits of the nonce: at depth d the sibling goes left when bit d is set. */
  function Climb(value: Hash, nonce: nat, level: nat, branch: Branch, maximum: nat): Option<Hash>
    decreases |branch|
  {
    if branch == [] then Some(value)
    else
      var (depth, other) := branch[0];
      if depth < level || depth >= maximum then None
      else Climb(if Bit(nonce, depth) then NodeHash(other, value) else NodeHash(value, other),
                 nonce, depth + 1, branch[1..], maximum)
  }

  predicate WellFormed(p: Proof, count: nat) {
    && p.meta.nonce < UINT64 && p.meta.runtimeSignature < UINT64 && p.meta.fuelConsumed < UINT64
    && p.meta.nonce < count && p.arch in {"amd64", "arm64"}
    && |p.branch| <= BitLength(count - 1)
  }

  function RootOf(p: Proof, count: nat): Option<Hash> {
    if !WellFormed(p, count) then None
    else Climb(LeafHash(p.meta), p.meta.nonce, 0, p.branch, BitLength(count - 1))
  }

  /** The original's loop: it shifts the position by the levels skipped, instead of reading nonce bits. */
  method ProofRoot(p: Proof, count: nat) returns (root: Option<Hash>)
    ensures root == RootOf(p, count)
  {
    if p.meta.nonce >= UINT64 || p.meta.runtimeSignature >= UINT64 || p.meta.fuelConsumed >= UINT64 { return None; }
    if p.meta.nonce >= count || p.arch !in {"amd64", "arm64"} { return None; }
    var maximum := BitLength(count - 1);
    if |p.branch| > maximum { return None; }
    var value, position, level, i := LeafHash(p.meta), p.meta.nonce, 0, 0;
    while i < |p.branch|
      invariant 0 <= i <= |p.branch|
      invariant position == Shift(p.meta.nonce, level)
      invariant RootOf(p, count) == Climb(value, p.meta.nonce, level, p.branch[i..], maximum)
    {
      var (depth, other) := p.branch[i];
      if depth < level || depth >= maximum { return None; }
      ShiftShift(p.meta.nonce, level, depth - level);
      position := Shift(position, depth - level);
      value := if position % 2 == 1 then NodeHash(other, value) else NodeHash(value, other);
      ShiftShift(p.meta.nonce, depth, 1);
      assert Shift(position, 1) == position / 2;
      position := position / 2;
      level := depth + 1;
      i := i + 1;
    }
    return Some(value);
  }

  // ------------------------------------------------------------------ the committed tree

  /** One level up: neighbours are hashed together, an odd last node is promoted as it is. */
  function Up(layer: seq<Hash>): (up: seq<Hash>)
    ensures |up| == (|layer| + 1) / 2
  {
    seq((|layer| + 1) / 2, k requires 0 <= k < (|layer| + 1) / 2 =>
      if 2 * k + 1 < |layer| then NodeHash(layer[2 * k], layer[2 * k + 1]) else layer[2 * k])
  }

  function Root(layer: seq<Hash>): Hash
    requires |layer| > 0
    decreases |layer|
  {
    if |layer| == 1 then layer[0] else Root(Up(layer))
  }

  function Leaves(metas: seq<Metadata>): seq<Hash> {
    seq(|metas|, i requires 0 <= i < |metas| => LeafHash(metas[i]))
  }

  function Partner(p: nat): nat {
    if p % 2 == 0 then p + 1 else p - 1
  }

  /** The branch an honest prover sends: one sibling per level at which there is one. */
  function BranchOf(layer: seq<Hash>, p: nat, depth: nat): Branch
    requires p < |layer|
    decreases |layer|
  {
    if |layer| == 1 then []
    else (if Partner(p) < |layer| then [(depth, layer[Partner(p)])] else []) + BranchOf(Up(layer), p / 2, depth + 1)
  }

  lemma {:induction false} BranchFits(layer: seq<Hash>, p: nat, depth: nat)
    requires p < |layer|
    ensures |BranchOf(layer, p, depth)| <= BitLength(|layer| - 1)
    decreases |layer|
  {
    if |layer| > 1 {
      BranchFits(Up(layer), p / 2, depth + 1);
      assert |Up(layer)| - 1 == (|layer| - 1) / 2;
    }
  }

  /** One level of the climb: with a partner the two are hashed in order, without one the node moves up. */
  lemma OneLevel(layer: seq<Hash>, p: nat, nonce: nat, level: nat, depth: nat, maximum: nat)
    requires p < |layer| && |layer| > 1 && level <= depth < maximum && p == Shift(nonce, depth)
    ensures Climb(layer[p], nonce, level, BranchOf(layer, p, depth), maximum)
      == Climb(Up(layer)[p / 2], nonce, if Partner(p) < |layer| then depth + 1 else level, BranchOf(Up(layer), p / 2, depth + 1), maximum)
  {
    var branch, rest := BranchOf(layer, p, depth), BranchOf(Up(layer), p / 2, depth + 1);
    if Partner(p) < |layer| {
      assert branch == [(depth, layer[Partner(p)])] + rest;
      assert branch[1..] == rest;
    } else {
      assert branch == rest;
    }
  }

  lemma {:induction false} BranchClimbs(layer: seq<Hash>, p: nat, nonce: nat, level: nat, depth: nat, maximum: nat)
    requires p < |layer| && level <= depth && p == Shift(nonce, depth) && maximum >= depth + BitLength(|layer| - 1)
    ensures Climb(layer[p], nonce, level, BranchOf(layer, p, depth), maximum) == Some(Root(layer))
    decreases |layer|
  {
    if |layer| > 1 {
      ShiftShift(nonce, depth, 1);
      assert Shift(p, 1) == p / 2 && |Up(layer)| - 1 == (|layer| - 1) / 2;
      OneLevel(layer, p, nonce, level, depth, maximum);
      BranchClimbs(Up(layer), p / 2, nonce, if Partner(p) < |layer| then depth + 1 else level, depth + 1, maximum);
    }
  }

  /** Every honest branch is accepted: for any number of leaves and any leaf it leads to the tree's root. */
  lemma HonestProofAccepted(metas: seq<Metadata>, p: Proof)
    requires p.meta.nonce < |metas| && p.meta == metas[p.meta.nonce] && p.branch == BranchOf(Leaves(metas), p.meta.nonce, 0)
    requires p.meta.nonce < UINT64 && p.meta.runtimeSignature < UINT64 && p.meta.fuelConsumed < UINT64
    requires p.arch in {"amd64", "arm64"}
    ensures RootOf(p, |metas|) == Some(Root(Leaves(metas)))
  {
    BranchFits(Leaves(metas), p.meta.nonce, 0);
    BranchClimbs(Leaves(metas), p.meta.nonce, p.meta.nonce, 0, 0, BitLength(|metas| - 1));
  }

  // ------------------------------------------------------------------ only committed leaves are accepted

  predicate Occurs(m: Metadata, h: Hash) {
    match h
    case LeafHash(x) => x == m
    case NodeHash(l, r) => Occurs(m, l) || Occurs(m, r)
    case Raw(_) => false
  }

  /** `m` is at exactly one place in `h`. */
  predicate Once(m: Metadata, h: Hash) {
    match h
    case LeafHash(x) => x == m
    case NodeHash(l, r) => (Once(m, l) && !Occurs(m, r)) || (Once(m, r) && !Occurs(m, l))
    case Raw(_) => false
  }

  /** The siblings on the way from `m` up to the top of `h`. */
  function Siblings(m: Metadata, h: Hash): seq<Hash> {
    match h
    case NodeHash(l, r) => if Occurs(m, l) then Siblings(m, l) + [r] else Siblings(m, r) + [l]
    case _ => []
  }

  function Others(branch: Branch): (others: seq<Hash>)
    ensures |others| == |branch|
  {
    seq(|branch|, i requires 0 <= i < |branch| => branch[i].1)
  }

  /** Whatever is in the tree is in one of its leaves. */
  lemma {:induction false} OccursInRoot(m: Metadata, layer: seq<Hash>) returns (i: nat)
    requires |layer| > 0 && Occurs(m, Root(layer))
    ensures i < |layer| && Occurs(m, layer[i])
    decreases |layer|
  {
    if |layer| == 1 {
      i := 0;
    } else {
      var k := OccursInRoot(m, Up(layer));
      i := if Occurs(m, layer[2 * k]) then 2 * k else 2 * k + 1;
    }
  }

  lemma {:induction false} OnceInRoot(m: Metadata, layer: seq<Hash>, i: nat)
    requires i < |layer| && Once(m, layer[i]) && forall j :: 0 <= j < |layer| && j != i ==> !Occurs(m, layer[j])
    ensures Once(m, Root(layer))
    decreases |layer|
  {
    if |layer| > 1 {
      var up := Up(layer);
      forall k | 0 <= k < |up| && k != i / 2 ensures !Occurs(m, up[k]) {
        assert 2 * k != i && 2 * k + 1 != i;
      }
      OnceInRoot(m, up, i / 2);
    }
  }

  lemma {:induction false} OnceOccurs(m: Metadata, h: Hash)
    ensures Once(m, h) ==> Occurs(m, h)
  {
    if h.NodeHash? {
      OnceOccurs(m, h.left);
      OnceOccurs(m, h.right);
    }
  }

  /** Climbing only ever wraps the value: what it reaches contains what it started from. */
  lemma {:induction false} ClimbContains(m: Metadata, value: Hash, nonce: nat, level: nat, branch: Branch, maximum: nat)
    requires Climb(value, nonce, level, branch, maximum).Some? && Occurs(m, value)
    ensures Occurs(m, Climb(value, nonce, level, branch, maximum).value)
    decreases |branch|
  {
    if branch != [] {
      var (depth, other) := branch[0];
      ClimbContains(m, if Bit(nonce, depth) then NodeHash(other, value) else NodeHash(value, other),
                    nonce, depth + 1, branch[1..], maximum);
    }
  }

  lemma {:induction false} ClimbSiblings(m: Metadata, value: Hash, nonce: nat, level: nat, branch: Branch, maximum: nat)
    requires Climb(value, nonce, level, branch, maximum).Some? && Occurs(m, value)
    requires Once(m, Climb(value, nonce, level, branch, maximum).value)
    ensures Once(m, value)
    ensures Siblings(m, Climb(value, nonce, level, branch, maximum).value) == Siblings(m, value) + Others(branch)
    decreases |branch|
  {
    if branch != [] {
      var (depth, other) := branch[0];
      var next := if Bit(nonce, depth) then NodeHash(other, value) else NodeHash(value, other);
      ClimbSiblings(m, next, nonce, depth + 1, branch[1..], maximum);
      OnceOccurs(m, other);
      assert Siblings(m, next) == Siblings(m, value) + [other];
      assert Others(branch) == [other] + Others(branch[1..]);
    }
  }

  /** The committed tree: leaf i carries nonce i. */
  predicate Numbered(metas: seq<Metadata>) {
    forall i :: 0 <= i < |metas| ==> metas[i].nonce == i
  }

  lemma CommittedOnce(metas: seq<Metadata>, m: Metadata)
    requires |metas| > 0 && Numbered(metas) && Occurs(m, Root(Leaves(metas)))
    ensures m.nonce < |metas| && m == metas[m.nonce] && Once(m, Root(Leaves(metas)))
  {
    var i := OccursInRoot(m, Leaves(metas));
    assert m == metas[i];
    OnceInRoot(m, Leaves(metas), m.nonce);
  }

  /** Any proof accepted against the root carries exactly the metadata committed for its nonce, and the
      siblings it lists are exactly those of the honest branch. */
  lemma AcceptedProofIsCommitted(metas: seq<Metadata>, p: Proof)
    requires |metas| > 0 && Numbered(metas) && RootOf(p, |metas|) == Some(Root(Leaves(metas)))
    ensures p.meta == metas[p.meta.nonce]
    ensures Others(p.branch) == Others(BranchOf(Leaves(metas), p.meta.nonce, 0))
  {
    var maximum := BitLength(|metas| - 1);
    ClimbContains(p.meta, LeafHash(p.meta), p.meta.nonce, 0, p.branch, maximum);
    CommittedOnce(metas, p.meta);
    ClimbSiblings(p.meta, LeafHash(p.meta), p.meta.nonce, 0, p.branch, maximum);
    var honest := p.(branch := BranchOf(Leaves(metas), p.meta.nonce, 0));
    HonestProofAccepted(metas, honest);
    ClimbSiblings(p.meta, LeafHash(p.meta), p.meta.nonce, 0, honest.branch, maximum);
    assert [] + Others(p.branch) == Others(p.branch) && [] + Others(honest.branch) == Others(honest.branch);
  }

  /** The position alone binds nothing: with five leaves, the branch of the promoted last leaf is also
      accepted for nonce 1.  It is the nonce inside the leaf that ties a proof to its place. */
  lemma PositionAloneIsNotBinding(m: Metadata, metas: seq<Metadata>)
    requires |metas| == 5 && m.nonce == 1 && metas[4] == m
    requires m.runtimeSignature < UINT64 && m.fuelConsumed < UINT64
    ensures var four := NodeHash(NodeHash(LeafHash(metas[0]), LeafHash(metas[1])), NodeHash(LeafHash(metas[2]), LeafHash(metas[3])));
      RootOf(Proof(m, "amd64", [(0, four)]), 5) == Some(Root(Leaves(metas)))
  {
    var layer := Leaves(metas);
    var first, second := NodeHash(layer[0], layer[1]), NodeHash(layer[2], layer[3]);
    assert Up(layer) == [first, second, layer[4]];
    assert Up(Up(layer)) == [NodeHash(first, second), layer[4]];
    var four := NodeHash(first, second);
    assert Up(Up(Up(layer))) == [NodeHash(four, layer[4])];
    assert Root(Up(Up(layer))) == Root(Up(Up(Up(layer)))) == NodeHash(four, layer[4]);
    assert Root(layer) == Root(Up(layer)) == NodeHash(four, layer[4]);
    assert BitLength(4) == 3 && Bit(1, 0);
    assert Climb(NodeHash(four, LeafHash(m)), 1, 1, [], 3) == Some(NodeHash(four, LeafHash(m)));
    assert Climb(LeafHash(m), 1, 0, [(0, four)], 3) == Climb(NodeHash(four, LeafHash(m)), 1, 1, [(0, four)][1..], 3);
  }

  /** Depths can vary: with six leaves, nonce 4's first sibling may be given at depth 0 or at depth 1. */
  lemma DepthsAreNotUnique(metas: seq<Metadata>, p: Proof)
    requires |metas| == 6 && Numbered(metas) && WellFormed(p, 6) && p.meta == metas[4]
    requires BranchOf(Leaves(metas), 4, 0) == p.branch
    ensures |p.branch| == 2
    ensures RootOf(p.(branch := [(1, p.branch[0].1), p.branch[1]]), 6) == RootOf(p, 6)
  {
    var layer := Leaves(metas);
    assert |Up(layer)| == 3 && |Up(Up(layer))| == 2 && |Up(Up(Up(layer)))| == 1;
    var top := (2, Up(Up(layer))[0]);
    assert BranchOf(Up(Up(Up(layer))), 0, 3) == [];
    assert BranchOf(Up(Up(layer)), 1, 2) == [top];
    assert BranchOf(Up(layer), 2, 1) == [top];
    assert p.branch == [(0, layer[5]), top];
    assert !Bit(4, 0) && !Bit(4, 1) && BitLength(5) == 3;
    var other := [(1, layer[5]), top];
    assert p.branch[1..] == [top] && other[1..] == [top];
    var pair := NodeHash(LeafHash(p.meta), layer[5]);
    assert Climb(pair, 4, 1, [top], 3) == Climb(pair, 4, 2, [top], 3);
  }

  // ------------------------------------------------------------------ the whole upload

  function Nonces(proofs: seq<Proof>): seq<nat> {
    seq(|proofs|, i requires 0 <= i < |proofs| => proofs[i].meta.nonce)
  }

  predicate AllReach(proofs: seq<Proof>, count: nat, root: Hash) {
    forall i :: 0 <= i < |proofs| ==> RootOf(proofs[i], count) == Some(root)
  }

  /** The upload is taken only if every proof leads to the stored root and the nonces are the sampled ones,
      each once. */
  method CheckProofs(proofs: seq<Proof>, count: nat, root: Hash, sampled: set<nat>) returns (ok: bool)
    ensures ok == (AllReach(proofs, count, root) && multiset(Nonces(proofs)) == multiset(sampled))
  {
    var nonces: seq<nat>, i := [], 0;
    while i < |proofs|
      invariant 0 <= i <= |proofs|
      invariant AllReach(proofs[..i], count, root)
      invariant nonces == Nonces(proofs[..i])
    {
      var reached := ProofRoot(proofs[i], count);
      if reached != Some(root) { return false; }
      nonces := nonces + [proofs[i].meta.nonce];
      i := i + 1;
    }
    assert proofs[..i] == proofs;
    return multiset(nonces) == multiset(sampled);
  }

  /** An accepted upload against an honest commitment holds the committed metadata of every sampled nonce,
      once, and nothing else. */
  lemma UploadIsCommitted(proofs: seq<Proof>, metas: seq<Metadata>, sampled: set<nat>)
    requires |metas| > 0 && Numbered(metas) && multiset(Nonces(proofs)) == multiset(sampled)
    requires AllReach(proofs, |metas|, Root(Leaves(metas)))
    ensures forall i :: 0 <= i < |proofs| ==> proofs[i].meta.nonce in sampled && proofs[i].meta == metas[proofs[i].meta.nonce]
    ensures forall n :: n in sampled ==> exists i :: 0 <= i < |proofs| && proofs[i].meta.nonce == n
    ensures |proofs| == |sampled|
  {
    forall i | 0 <= i < |proofs| ensures proofs[i].meta.nonce in sampled && proofs[i].meta == metas[proofs[i].meta.nonce] {
      AcceptedProofIsCommitted(metas, proofs[i]);
      assert Nonces(proofs)[i] in multiset(Nonces(proofs));
    }
    forall n | n in sampled ensures exists i :: 0 <= i < |proofs| && proofs[i].meta.nonce == n {
      assert n in multiset(Nonces(proofs));
      assert n in Nonces(proofs);
    }
    assert |multiset(Nonces(proofs))| == |Nonces(proofs)|;
  }
}

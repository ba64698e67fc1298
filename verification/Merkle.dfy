/**
 Merkle roots and inclusion proofs over 64-digit hexadecimal hashes (src/crypto/merkle.ts).
 The hash function is a parameter about which nothing is assumed: where the trees' binding
 needs two different inputs not to collide, the statement names the collision it would take.
 */
module Merkle {
  import opened Ledger
  import opened Numbers

  type Sha = string -> string

  predicate IsHashHex(s: string) {
    |s| == 64 && forall i :: 0 <= i < |s| ==> IsLowerHex(s[i])
  }

  predicate AllHashes(level: seq<string>) {
    forall i :: 0 <= i < |level| ==> IsHashHex(level[i])
  }

  /** Digests are 64 hexadecimal digits. */
  ghost predicate Digests(sha: Sha) {
    forall x :: IsHashHex(sha(x))
  }

  // ---------------------------------------------------------------- levels and roots

  /** The text hashed into node `k` of the next level; the last node of an odd level counts twice. */
  function PairAt(level: seq<string>, k: nat): string
    requires 2 * k < |level|
  {
    level[2 * k] + (if 2 * k + 1 < |level| then level[2 * k + 1] else level[2 * k])
  }

  function NextLevel(sha: Sha, level: seq<string>): seq<string> {
    seq((|level| + 1) / 2, k requires 0 <= k < (|level| + 1) / 2 => sha(PairAt(level, k)))
  }

  function Root(sha: Sha, level: seq<string>): string
    requires |level| > 0
    decreases |level|
  {
    if |level| == 1 then level[0] else Root(sha, NextLevel(sha, level))
  }

  /** The roots of one, two and three leaves: pairs are hashed left to right, and the odd one with itself. */
  lemma {:induction false} FewLeaves(sha: Sha, a: string, b: string, c: string)
    ensures Root(sha, [a]) == a && Root(sha, [a, b]) == sha(a + b)
    ensures Root(sha, [a, b, c]) == sha(sha(a + b) + sha(c + c))
  {
    OnePair(sha, a, b);
    var l := [a, b, c];
    assert l[2] == c && PairAt(l, 0) == a + b && PairAt(l, 1) == c + c;
    assert NextLevel(sha, l) == [sha(a + b), sha(c + c)];
    OnePair(sha, sha(a + b), sha(c + c));
  }

  lemma {:induction false} OnePair(sha: Sha, a: string, b: string)
    ensures Root(sha, [a, b]) == sha(a + b)
  {
    var l := [a, b];
    assert l[1] == b && PairAt(l, 0) == a + b;
    assert NextLevel(sha, l) == [sha(a + b)];
  }

  /** Height of the tree over `n` leaves: the least h with n <= 2^h. */
  function Height(n: nat): nat
    requires n > 0
  {
    if n == 1 then 0 else 1 + Height((n + 1) / 2)
  }

  lemma {:induction false} HeightIsCeilLog2(n: nat)
    requires n > 0
    ensures n <= Pow2(Height(n))
    ensures n > 1 ==> Pow2(Height(n) - 1) < n
  {
    if n > 1 {
      HeightIsCeilLog2((n + 1) / 2);
    }
  }

  method NextLevelOf(sha: Sha, level: seq<string>) returns (next: seq<string>)
    ensures next == NextLevel(sha, level)
  {
    next := [];
    var i := 0;
    while i < |level|
      invariant i % 2 == 0 && 0 <= i <= |level| + 1
      invariant |next| == i / 2
      invariant forall k :: 0 <= k < |next| ==> next[k] == sha(PairAt(level, k))
    {
      var left := level[i];
      var right := if i + 1 < |level| then level[i + 1] else left;
      assert PairAt(level, i / 2) == left + right;
      next := next + [sha(left + right)];
      i := i + 2;
    }
  }

  /** Fails on the empty list, as the source throws. */
  method MerkleRoot(sha: Sha, hashes: seq<string>) returns (root: Option<string>)
    ensures root == if |hashes| == 0 then None else Some(Root(sha, hashes))
  {
    if |hashes| == 0 { return None; }
    var level := hashes;
    while |level| > 1
      invariant |level| > 0 && Root(sha, level) == Root(sha, hashes)
      decreases |level|
    {
      level := NextLevelOf(sha, level);
    }
    return Some(level[0]);
  }

  // ---------------------------------------------------------------- proofs

  datatype Position = Left | Right | Unknown

  datatype Step = Step(hash: string, position: Position)

  function SiblingOf(level: seq<string>, i: nat): Step
    requires i < |level|
  {
    if i % 2 == 0 then Step(if i + 1 < |level| then level[i + 1] else level[i], Right)
    else Step(level[i - 1], Left)
  }

  function ProofOf(sha: Sha, level: seq<string>, i: nat): seq<Step>
    requires i < |level|
    decreases |level|
  {
    if |level| == 1 then [] else [SiblingOf(level, i)] + ProofOf(sha, NextLevel(sha, level), i / 2)
  }

  method MerkleProof(sha: Sha, hashes: seq<string>, index: int) returns (proof: Option<seq<Step>>)
    ensures proof == if 0 <= index < |hashes| then Some(ProofOf(sha, hashes, index)) else None
  {
    if |hashes| == 0 || index < 0 || index >= |hashes| { return None; }
    var steps: seq<Step> := [];
    var level, i := hashes, index;
    while |level| > 1
      invariant 0 <= i < |level|
      invariant steps + ProofOf(sha, level, i) == ProofOf(sha, hashes, index)
      decreases |level|
    {
      steps := steps + [SiblingOf(level, i)];
      level := NextLevelOf(sha, level);
      i := i / 2;
    }
    assert steps + [] == steps;
    return Some(steps);
  }

  /** What is hashed when `current` is folded with one step. */
  function StepInput(current: string, step: Step): string {
    if step.position == Right then current + step.hash else step.hash + current
  }

  function Fold(sha: Sha, current: string, proof: seq<Step>): string
    decreases |proof|
  {
    if |proof| == 0 then current else Fold(sha, sha(StepInput(current, proof[0])), proof[1..])
  }

  predicate WellFormed(proof: seq<Step>) {
    forall i :: 0 <= i < |proof| ==> IsHashHex(proof[i].hash) && proof[i].position != Unknown
  }

  predicate Verifies(sha: Sha, leaf: string, proof: seq<Step>, root: string) {
    IsHashHex(leaf) && IsHashHex(root) && WellFormed(proof) && Fold(sha, leaf, proof) == root
  }

  method VerifyMerkleProof(sha: Sha, leaf: string, proof: seq<Step>, root: string) returns (ok: bool)
    ensures ok <==> Verifies(sha, leaf, proof, root)
  {
    if !IsHashHex(leaf) || !IsHashHex(root) { return false; }
    var current := leaf;
    for i := 0 to |proof|
      invariant forall k :: 0 <= k < i ==> IsHashHex(proof[k].hash) && proof[k].position != Unknown
      invariant Fold(sha, current, proof[i..]) == Fold(sha, leaf, proof)
    {
      if !IsHashHex(proof[i].hash) { return false; }
      if proof[i].position == Unknown { return false; }
      assert proof[i..][1..] == proof[i + 1..];
      current := sha(StepInput(current, proof[i]));
    }
    return current == root;
  }

  // ---------------------------------------------------------------- completeness

  lemma {:induction false} NextLevelHashes(sha: Sha, level: seq<string>)
    requires Digests(sha)
    ensures AllHashes(NextLevel(sha, level))
  {
    forall k | 0 <= k < (|level| + 1) / 2 ensures IsHashHex(NextLevel(sha, level)[k]) {
      assert IsHashHex(sha(PairAt(level, k)));
    }
  }

  lemma {:induction false} RootIsHash(sha: Sha, level: seq<string>)
    requires Digests(sha) && AllHashes(level) && |level| > 0
    ensures IsHashHex(Root(sha, level))
    decreases |level|
  {
    if |level| > 1 {
      NextLevelHashes(sha, level);
      RootIsHash(sha, NextLevel(sha, level));
    }
  }

  /** Every leaf's generated proof verifies and is as long as the tree is high. */
  lemma {:induction false} ProofVerifies(sha: Sha, hashes: seq<string>, i: nat)
    requires Digests(sha) && AllHashes(hashes) && i < |hashes|
    ensures |ProofOf(sha, hashes, i)| == Height(|hashes|)
    ensures Verifies(sha, hashes[i], ProofOf(sha, hashes, i), Root(sha, hashes))
    decreases |hashes|
  {
    RootIsHash(sha, hashes);
    if |hashes| > 1 {
      var next := NextLevel(sha, hashes);
      var step := SiblingOf(hashes, i);
      assert StepInput(hashes[i], step) == PairAt(hashes, i / 2);
      NextLevelHashes(sha, hashes);
      ProofVerifies(sha, next, i / 2);
      var proof := ProofOf(sha, hashes, i);
      assert proof[1..] == ProofOf(sha, next, i / 2);
    }
  }

  // ---------------------------------------------------------------- binding

  /** Everything hashed while computing the root. */
  function TreeInputs(sha: Sha, level: seq<string>): set<string>
    decreases |level|
  {
    if |level| <= 1 then {}
    else (set k | 0 <= k < (|level| + 1) / 2 :: PairAt(level, k)) + TreeInputs(sha, NextLevel(sha, level))
  }

  function FoldInputs(sha: Sha, current: string, proof: seq<Step>): set<string>
    decreases |proof|
  {
    if |proof| == 0 then {}
    else {StepInput(current, proof[0])} + FoldInputs(sha, sha(StepInput(current, proof[0])), proof[1..])
  }

  /** Two different strings of `inputs` have the same digest. */
  ghost predicate Collides(sha: Sha, inputs: set<string>) {
    exists x, y :: x in inputs && y in inputs && x != y && sha(x) == sha(y)
  }

  lemma {:induction false} CollidesMore(sha: Sha, inputs: set<string>, more: set<string>)
    requires Collides(sha, inputs) && inputs <= more
    ensures Collides(sha, more)
  {
    var x, y :| x in inputs && y in inputs && x != y && sha(x) == sha(y);
    assert x in more && y in more;
  }

  lemma {:induction false} PairHalves(a: string, b: string, c: string, d: string)
    requires |a| == |c| && a + b == c + d
    ensures a == c && b == d
  {
    assert a == (a + b)[..|a|] && c == (c + d)[..|c|];
    assert b == (a + b)[|a|..] && d == (c + d)[|c|..];
  }

  /** A verifying proof as long as the tree is high shows a leaf of the list, or a collision. */
  lemma {:induction false} VerifiedIsMember(sha: Sha, hashes: seq<string>, leaf: string, proof: seq<Step>)
    requires Digests(sha) && AllHashes(hashes) && |hashes| > 0 && IsHashHex(leaf) && WellFormed(proof)
    requires |proof| == Height(|hashes|) && Fold(sha, leaf, proof) == Root(sha, hashes)
    ensures leaf in hashes || Collides(sha, FoldInputs(sha, leaf, proof) + TreeInputs(sha, hashes))
    decreases |proof|
  {
    if |proof| > 0 {
      var next := NextLevel(sha, hashes);
      var input := StepInput(leaf, proof[0]);
      var here := FoldInputs(sha, leaf, proof) + TreeInputs(sha, hashes);
      NextLevelHashes(sha, hashes);
      assert IsHashHex(sha(input));
      VerifiedIsMember(sha, next, sha(input), proof[1..]);
      if sha(input) in next {
        var k :| 0 <= k < |next| && next[k] == sha(input);
        assert PairAt(hashes, k) in TreeInputs(sha, hashes);
        if input == PairAt(hashes, k) {
          LeafInPair(hashes, k, leaf, proof[0]);
        } else {
          assert input in here && PairAt(hashes, k) in here;
        }
      } else {
        CollidesMore(sha, FoldInputs(sha, sha(input), proof[1..]) + TreeInputs(sha, next), here);
      }
    }
  }

  lemma {:induction false} LeafInPair(hashes: seq<string>, k: nat, leaf: string, step: Step)
    requires AllHashes(hashes) && 2 * k < |hashes| && IsHashHex(leaf) && IsHashHex(step.hash)
    requires StepInput(leaf, step) == PairAt(hashes, k)
    ensures leaf in hashes
  {
    var left := hashes[2 * k];
    var right := if 2 * k + 1 < |hashes| then hashes[2 * k + 1] else left;
    if step.position == Right {
      PairHalves(leaf, step.hash, left, right);
    } else {
      PairHalves(step.hash, leaf, left, right);
    }
  }

  predicate Distinct(level: seq<string>) {
    forall i, j :: 0 <= i < j < |level| ==> level[i] != level[j]
  }

  lemma {:induction false} PairsDiffer(level: seq<string>, k: nat, l: nat)
    requires AllHashes(level) && Distinct(level) && k < l && 2 * l < |level|
    ensures PairAt(level, k) != PairAt(level, l)
  {
    if PairAt(level, k) == PairAt(level, l) {
      var right := if 2 * l + 1 < |level| then level[2 * l + 1] else level[2 * l];
      PairHalves(level[2 * k], level[2 * k + 1], level[2 * l], right);
    }
  }

  lemma {:induction false} NextLevelDistinct(sha: Sha, level: seq<string>)
    requires AllHashes(level) && Distinct(level) && |level| > 1
    ensures Distinct(NextLevel(sha, level)) || Collides(sha, TreeInputs(sha, level))
  {
    var next := NextLevel(sha, level);
    if !Distinct(next) {
      var k, l :| 0 <= k < l < |next| && next[k] == next[l];
      PairsDiffer(level, k, l);
      assert PairAt(level, k) in TreeInputs(sha, level) && PairAt(level, l) in TreeInputs(sha, level);
    }
  }

  /** Equal pairs all along mean equal lists, unless one repeats its last leaf. */
  lemma {:induction false} PairsDecideLevel(a: seq<string>, b: seq<string>)
    requires AllHashes(a) && AllHashes(b) && Distinct(a) && Distinct(b)
    requires (|a| + 1) / 2 == (|b| + 1) / 2 && |a| > 0
    requires forall k :: 0 <= k < (|a| + 1) / 2 ==> PairAt(a, k) == PairAt(b, k)
    ensures a == b
  {
    forall k | 0 <= k < (|a| + 1) / 2
      ensures a[2 * k] == b[2 * k]
      ensures 2 * k + 1 < |a| && 2 * k + 1 < |b| ==> a[2 * k + 1] == b[2 * k + 1]
      ensures 2 * k + 1 < |a| <==> 2 * k + 1 < |b|
    {
      var ra := if 2 * k + 1 < |a| then a[2 * k + 1] else a[2 * k];
      var rb := if 2 * k + 1 < |b| then b[2 * k + 1] else b[2 * k];
      assert PairAt(a, k) == PairAt(b, k);
      PairHalves(a[2 * k], ra, b[2 * k], rb);
    }
    var last := (|a| + 1) / 2 - 1;
    assert a[2 * last] == b[2 * last];
    assert |a| == |b|;
    forall i | 0 <= i < |a| ensures a[i] == b[i] {
      assert i == 2 * (i / 2) || i == 2 * (i / 2) + 1;
      assert a[2 * (i / 2)] == b[2 * (i / 2)];
    }
  }

  /** Two duplicate-free lists of equal tree height with one root are the same list, or their
      trees exhibit a collision. */
  lemma {:induction false} RootBinds(sha: Sha, a: seq<string>, b: seq<string>)
    requires Digests(sha) && AllHashes(a) && AllHashes(b) && Distinct(a) && Distinct(b)
    requires |a| > 0 && |b| > 0 && Height(|a|) == Height(|b|) && Root(sha, a) == Root(sha, b)
    ensures a == b || Collides(sha, TreeInputs(sha, a) + TreeInputs(sha, b))
    decreases |a|
  {
    if |a| > 1 {
      assert |b| > 1;
      var inputs := TreeInputs(sha, a) + TreeInputs(sha, b);
      var na, nb := NextLevel(sha, a), NextLevel(sha, b);
      NextLevelDistinct(sha, a);
      NextLevelDistinct(sha, b);
      if Collides(sha, TreeInputs(sha, a)) {
        CollidesMore(sha, TreeInputs(sha, a), inputs);
      } else if Collides(sha, TreeInputs(sha, b)) {
        CollidesMore(sha, TreeInputs(sha, b), inputs);
      } else {
        NextLevelHashes(sha, a);
        NextLevelHashes(sha, b);
        RootBinds(sha, na, nb);
        if na != nb {
          CollidesMore(sha, TreeInputs(sha, na) + TreeInputs(sha, nb), inputs);
        } else {
          SameNextLevel(sha, a, b);
        }
      }
    }
  }

  lemma {:induction false} SameNextLevel(sha: Sha, a: seq<string>, b: seq<string>)
    requires AllHashes(a) && AllHashes(b) && Distinct(a) && Distinct(b)
    requires |a| > 1 && |b| > 1 && NextLevel(sha, a) == NextLevel(sha, b)
    ensures a == b || Collides(sha, TreeInputs(sha, a) + TreeInputs(sha, b))
  {
    assert |NextLevel(sha, a)| == |NextLevel(sha, b)|;
    if k :| 0 <= k < (|a| + 1) / 2 && PairAt(a, k) != PairAt(b, k) {
      assert NextLevel(sha, a)[k] == NextLevel(sha, b)[k];
      assert PairAt(a, k) in TreeInputs(sha, a) && PairAt(b, k) in TreeInputs(sha, b);
    } else {
      PairsDecideLevel(a, b);
    }
  }

  /** What an inner node hashes: two digests side by side. */
  predicate IsPair(x: string) {
    |x| == 128 && forall i :: 0 <= i < |x| ==> IsLowerHex(x[i])
  }

  lemma {:induction false} PairsArePairs(level: seq<string>, k: nat)
    requires AllHashes(level) && 2 * k < |level|
    ensures IsPair(PairAt(level, k))
  {
    var left := level[2 * k];
    var right := if 2 * k + 1 < |level| then level[2 * k + 1] else left;
    forall i | 0 <= i < 128 ensures IsLowerHex((left + right)[i]) {
      assert (left + right)[i] == if i < 64 then left[i] else right[i - 64];
    }
  }

  /** The leaves are digests of `texts`, none of which reads like a pair of digests. */
  predicate LeavesOf(sha: Sha, level: seq<string>, texts: seq<string>) {
    |level| == |texts| && forall i :: 0 <= i < |level| ==> level[i] == sha(texts[i]) && !IsPair(texts[i])
  }

  function TextSet(texts: seq<string>): set<string> {
    set i | 0 <= i < |texts| :: texts[i]
  }

  lemma {:induction false} OneLevelUp(sha: Sha, b: seq<string>)
    requires |b| > 1
    ensures var next := NextLevel(sha, b);
            0 < |next| < |b| && TreeInputs(sha, next) <= TreeInputs(sha, b) && Root(sha, next) == Root(sha, b)
            && Height(|b|) == 1 + Height(|next|)
  {
  }

  lemma {:induction false} TallerDiffers(sha: Sha, a: seq<string>, texts: seq<string>, b: seq<string>)
    requires Digests(sha) && AllHashes(a) && AllHashes(b) && Distinct(a) && Distinct(b) && LeavesOf(sha, a, texts)
    requires |a| > 0 && |b| > 0 && Height(|a|) < Height(|b|) && Root(sha, a) == Root(sha, b)
    ensures Collides(sha, TreeInputs(sha, a) + TreeInputs(sha, b) + TextSet(texts))
    decreases |b|
  {
    hide TreeInputs, TextSet, Collides, Root, NextLevel, AllHashes, Distinct, LeavesOf, Digests;
    var inputs, next := TreeInputs(sha, a) + TreeInputs(sha, b) + TextSet(texts), NextLevel(sha, b);
    assert |b| > 1;
    NextLevelDistinct(sha, b);
    NextLevelHashes(sha, b);
    OneLevelUp(sha, b);
    if Collides(sha, TreeInputs(sha, b)) {
      CollidesMore(sha, TreeInputs(sha, b), inputs);
    } else if Height(|a|) < Height(|next|) {
      TallerDiffers(sha, a, texts, next);
      CollidesMore(sha, TreeInputs(sha, a) + TreeInputs(sha, next) + TextSet(texts), inputs);
    } else {
      RootBinds(sha, a, next);
      if a == next {
        LeavesArePairs(sha, a, texts, b);
        CollidesMore(sha, TreeInputs(sha, b) + TextSet(texts), inputs);
      } else {
        CollidesMore(sha, TreeInputs(sha, a) + TreeInputs(sha, next), inputs);
      }
    }
  }

  lemma {:induction false} LeavesArePairs(sha: Sha, a: seq<string>, texts: seq<string>, b: seq<string>)
    requires AllHashes(b) && LeavesOf(sha, a, texts) && |b| > 1 && a == NextLevel(sha, b)
    ensures Collides(sha, TreeInputs(sha, b) + TextSet(texts))
  {
    PairsArePairs(b, 0);
    assert a[0] == sha(PairAt(b, 0)) && a[0] == sha(texts[0]);
    assert PairAt(b, 0) in TreeInputs(sha, b) && texts[0] in TextSet(texts);
  }

  /** With leaves that are digests themselves the root binds duplicate-free lists of any lengths. */
  lemma {:induction false} RootBindsLeaves(
    sha: Sha, a: seq<string>, ta: seq<string>, b: seq<string>, tb: seq<string>)
    requires Digests(sha) && Distinct(a) && Distinct(b) && LeavesOf(sha, a, ta) && LeavesOf(sha, b, tb)
    requires |a| > 0 && |b| > 0 && Root(sha, a) == Root(sha, b)
    ensures a == b || Collides(sha, TreeInputs(sha, a) + TextSet(ta) + (TreeInputs(sha, b) + TextSet(tb)))
  {
    var inputs := TreeInputs(sha, a) + TextSet(ta) + (TreeInputs(sha, b) + TextSet(tb));
    assert AllHashes(a) && AllHashes(b);
    if Height(|a|) < Height(|b|) {
      TallerDiffers(sha, a, ta, b);
      CollidesMore(sha, TreeInputs(sha, a) + TreeInputs(sha, b) + TextSet(ta), inputs);
    } else if Height(|b|) < Height(|a|) {
      TallerDiffers(sha, b, tb, a);
      CollidesMore(sha, TreeInputs(sha, b) + TreeInputs(sha, a) + TextSet(tb), inputs);
    } else {
      RootBinds(sha, a, b);
      if a != b {
        CollidesMore(sha, TreeInputs(sha, a) + TreeInputs(sha, b), inputs);
      }
    }
  }

  /** Neither condition of `RootBinds` can be dropped: repeating the last leaf of an odd list,
      or replacing a list by its next level, keeps the root for every hash function. */
  lemma {:induction false} RootDoesNotBind(sha: Sha, x: string, y: string, z: string)
    ensures Root(sha, [x, y, z]) == Root(sha, [x, y, z, z])
    ensures Root(sha, [x, y]) == Root(sha, [sha(x + y)])
  {
    assert PairAt([x, y, z], 0) == x + y && PairAt([x, y, z], 1) == z + z;
    assert NextLevel(sha, [x, y, z]) == [sha(x + y), sha(z + z)];
    assert PairAt([x, y, z, z], 0) == x + y && PairAt([x, y, z, z], 1) == z + z;
    assert NextLevel(sha, [x, y, z, z]) == [sha(x + y), sha(z + z)];
    assert PairAt([x, y], 0) == x + y;
    assert NextLevel(sha, [x, y]) == [sha(x + y)];
  }
}

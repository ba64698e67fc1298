/**
 The tree of stored blocks: each block's chain back to genesis, and the plan that moves the
 canonical chain from one block to another (src/node/node.ts:1677-1705).
 */
module Tree {
  import opened Ledger

  type Blocks = map<Hash, Block>

  /** Stored under its own hash, and one above a stored parent unless it is genesis. */
  predicate BlockOk(blocks: Blocks, genesis: Hash, h: Hash)
    requires h in blocks
  {
    var b := blocks[h];
    && b.hash == h
    && 0 <= b.header.height
    && (b.header.height == 0 <==> h == genesis)
    && (0 < b.header.height ==>
        && b.header.previousHash in blocks
        && blocks[b.header.previousHash].header.height == b.header.height - 1)
  }

  predicate TreeOk(blocks: Blocks, genesis: Hash) {
    forall h {:trigger BlockOk(blocks, genesis, h)} :: h in blocks ==> BlockOk(blocks, genesis, h)
  }

  /** The blocks from genesis to `h`, in order. */
  function ChainOf(blocks: Blocks, genesis: Hash, h: Hash): seq<Block>
    requires TreeOk(blocks, genesis) && h in blocks
    decreases blocks[h].header.height
  {
    assert BlockOk(blocks, genesis, h);
    if blocks[h].header.height <= 0 then [blocks[h]]
    else ChainOf(blocks, genesis, blocks[h].header.previousHash) + [blocks[h]]
  }

  /** Block `k` sits at height `k` and links to block `k-1`. */
  predicate Linked(chain: seq<Block>) {
    && (forall k :: 0 <= k < |chain| ==> chain[k].header.height == k)
    && (forall k :: 0 < k < |chain| ==> chain[k].header.previousHash == chain[k - 1].hash)
  }

  lemma {:induction false} ChainShape(blocks: Blocks, genesis: Hash, h: Hash)
    requires TreeOk(blocks, genesis) && h in blocks
    ensures |ChainOf(blocks, genesis, h)| == blocks[h].header.height + 1
    ensures ChainOf(blocks, genesis, h)[blocks[h].header.height] == blocks[h]
    ensures Linked(ChainOf(blocks, genesis, h))
    ensures ChainOf(blocks, genesis, h)[0].hash == genesis
    decreases blocks[h].header.height
  {
    assert BlockOk(blocks, genesis, h);
    if blocks[h].header.height > 0 {
      ChainShape(blocks, genesis, blocks[h].header.previousHash);
      assert BlockOk(blocks, genesis, blocks[h].header.previousHash);
    }
  }

  /** Every block of a chain is stored, and its own chain is the part of it below. */
  lemma {:induction false} ChainPrefix(blocks: Blocks, genesis: Hash, h: Hash, k: nat)
    requires TreeOk(blocks, genesis) && h in blocks && k <= blocks[h].header.height
    ensures k < |ChainOf(blocks, genesis, h)|
    ensures ChainOf(blocks, genesis, h)[k].hash in blocks
    ensures blocks[ChainOf(blocks, genesis, h)[k].hash] == ChainOf(blocks, genesis, h)[k]
    ensures ChainOf(blocks, genesis, ChainOf(blocks, genesis, h)[k].hash) == ChainOf(blocks, genesis, h)[..k + 1]
    decreases blocks[h].header.height
  {
    ChainShape(blocks, genesis, h);
    assert BlockOk(blocks, genesis, h);
    var chain := ChainOf(blocks, genesis, h);
    if k == blocks[h].header.height {
      assert chain[..k + 1] == chain;
    } else {
      var parent := blocks[h].header.previousHash;
      ChainPrefix(blocks, genesis, parent, k);
      assert chain[..k + 1] == ChainOf(blocks, genesis, parent)[..k + 1];
    }
  }

  lemma {:induction false} DistinctHashes(blocks: Blocks, genesis: Hash, h: Hash)
    requires TreeOk(blocks, genesis) && h in blocks
    ensures var chain := ChainOf(blocks, genesis, h);
      forall i, j :: 0 <= i < j < |chain| ==> chain[i].hash != chain[j].hash
  {
    var chain := ChainOf(blocks, genesis, h);
    ChainShape(blocks, genesis, h);
    forall i, j | 0 <= i < j < |chain| ensures chain[i].hash != chain[j].hash {
      ChainPrefix(blocks, genesis, h, i);
      ChainPrefix(blocks, genesis, h, j);
    }
  }

  /** Storing more blocks changes no chain. */
  lemma {:induction false} ChainStable(blocks: Blocks, more: Blocks, genesis: Hash, h: Hash)
    requires TreeOk(blocks, genesis) && TreeOk(more, genesis) && h in blocks
    requires forall k :: k in blocks ==> k in more && more[k] == blocks[k]
    ensures h in more && ChainOf(more, genesis, h) == ChainOf(blocks, genesis, h)
    decreases blocks[h].header.height
  {
    assert BlockOk(blocks, genesis, h);
    if blocks[h].header.height > 0 {
      ChainStable(blocks, more, genesis, blocks[h].header.previousHash);
    }
  }

  lemma {:induction false} AddChild(blocks: Blocks, genesis: Hash, b: Block)
    requires TreeOk(blocks, genesis)
    requires b.header.previousHash in blocks
    requires b.header.height == blocks[b.header.previousHash].header.height + 1
    requires b.hash in blocks ==> blocks[b.hash] == b
    requires b.hash != genesis
    ensures TreeOk(blocks[b.hash := b], genesis)
    ensures ChainOf(blocks[b.hash := b], genesis, b.hash) == ChainOf(blocks, genesis, b.header.previousHash) + [b]
  {
    var more := blocks[b.hash := b];
    forall h | h in more ensures BlockOk(more, genesis, h) {
      if h in blocks {
        assert BlockOk(blocks, genesis, h);
      }
      assert BlockOk(blocks, genesis, b.header.previousHash);
    }
    ChainStable(blocks, more, genesis, b.header.previousHash);
  }

  /** `r` lists the same blocks as `s`, last first. */
  predicate IsReversed(r: seq<Block>, s: seq<Block>) {
    |r| == |s| && forall i :: 0 <= i < |s| ==> r[i] == s[|s| - 1 - i]
  }

  /** `fork` blocks are shared and the chains part above them. */
  predicate ForkAt(a: seq<Block>, b: seq<Block>, fork: nat) {
    && 0 < fork <= |a| && fork <= |b|
    && a[..fork] == b[..fork]
    && (fork < |a| && fork < |b| ==> a[fork].hash != b[fork].hash)
  }

  method Reversed(s: seq<Block>) returns (r: seq<Block>)
    ensures IsReversed(r, s)
  {
    r := [];
    for k := 0 to |s|
      invariant |r| == k && forall i :: 0 <= i < k ==> r[i] == s[|s| - 1 - i]
    {
      r := r + [s[|s| - 1 - k]];
    }
  }

  /** A walk back from `h` has reached `b`, having met the blocks `seen` above it. */
  predicate Walked(blocks: Blocks, genesis: Hash, h: Hash, b: Block, seen: seq<Block>)
    requires TreeOk(blocks, genesis) && h in blocks
  {
    var chain := ChainOf(blocks, genesis, h);
    && 0 <= b.header.height < |chain| && chain[b.header.height] == b
    && |seen| == |chain| - 1 - b.header.height
    && forall i :: 0 <= i < |seen| ==> seen[i] == chain[|chain| - 1 - i]
  }

  lemma {:induction false} WalkStart(blocks: Blocks, genesis: Hash, h: Hash)
    requires TreeOk(blocks, genesis) && h in blocks
    ensures Walked(blocks, genesis, h, blocks[h], [])
  {
    ChainShape(blocks, genesis, h);
  }

  lemma {:induction false} WalkBack(blocks: Blocks, genesis: Hash, h: Hash, b: Block, seen: seq<Block>)
    requires TreeOk(blocks, genesis) && h in blocks && Walked(blocks, genesis, h, b, seen)
    requires 0 < b.header.height
    ensures b.header.previousHash in blocks
    ensures blocks[b.header.previousHash].header.height == b.header.height - 1
    ensures Walked(blocks, genesis, h, blocks[b.header.previousHash], seen + [b])
  {
    ChainShape(blocks, genesis, h);
    ChainPrefix(blocks, genesis, h, b.header.height);
    ChainPrefix(blocks, genesis, h, b.header.height - 1);
    assert BlockOk(blocks, genesis, b.hash);
  }

  /** Two walks at genesis height have met. */
  lemma {:induction false} WalksMeetAtGenesis(blocks: Blocks, genesis: Hash, h: Hash, b: Block, seen: seq<Block>)
    requires TreeOk(blocks, genesis) && h in blocks && Walked(blocks, genesis, h, b, seen)
    requires b.header.height == 0
    ensures b.hash == genesis
  {
    ChainShape(blocks, genesis, h);
  }

  lemma {:induction false} WalksMeet(
    blocks: Blocks, genesis: Hash, h1: Hash, h2: Hash, b: Block, seen1: seq<Block>, seen2: seq<Block>)
    requires TreeOk(blocks, genesis) && h1 in blocks && h2 in blocks
    requires Walked(blocks, genesis, h1, b, seen1) && Walked(blocks, genesis, h2, b, seen2)
    requires |seen1| > 0 && |seen2| > 0 ==> seen1[|seen1| - 1].hash != seen2[|seen2| - 1].hash
    ensures ForkAt(ChainOf(blocks, genesis, h1), ChainOf(blocks, genesis, h2), b.header.height + 1)
    ensures IsReversed(seen1, ChainOf(blocks, genesis, h1)[b.header.height + 1..])
    ensures IsReversed(seen2, ChainOf(blocks, genesis, h2)[b.header.height + 1..])
  {
    var c1, c2, fork := ChainOf(blocks, genesis, h1), ChainOf(blocks, genesis, h2), b.header.height + 1;
    assert c1[..fork] == c2[..fork] by {
      ChainShape(blocks, genesis, h1);
      ChainShape(blocks, genesis, h2);
      ChainPrefix(blocks, genesis, h1, b.header.height);
      ChainPrefix(blocks, genesis, h2, b.header.height);
    }
    if fork < |c1| && fork < |c2| {
      assert seen1[|seen1| - 1] == c1[fork] && seen2[|seen2| - 1] == c2[fork];
    }
  }

  lemma {:induction false} ReversedTwice(r: seq<Block>, s: seq<Block>, t: seq<Block>)
    requires IsReversed(s, r) && IsReversed(t, s)
    ensures t == r
  {
  }

  lemma {:induction false} SameHashSameBlock(blocks: Blocks, genesis: Hash, h1: Hash, h2: Hash, a: Block, b: Block,
                          seen1: seq<Block>, seen2: seq<Block>)
    requires TreeOk(blocks, genesis) && h1 in blocks && h2 in blocks
    requires Walked(blocks, genesis, h1, a, seen1) && Walked(blocks, genesis, h2, b, seen2)
    ensures a.hash in blocks && b.hash in blocks && (a.hash == b.hash ==> a == b)
  {
    ChainShape(blocks, genesis, h1);
    ChainShape(blocks, genesis, h2);
    ChainPrefix(blocks, genesis, h1, a.header.height);
    ChainPrefix(blocks, genesis, h2, b.header.height);
  }

  /** Walks back from `start` while it is above `height`. */
  method WalkDown(blocks: Blocks, genesis: Hash, start: Block, height: int)
      returns (b: Block, seen: seq<Block>)
    requires TreeOk(blocks, genesis) && start.hash in blocks && blocks[start.hash] == start
    requires 0 <= height
    ensures Walked(blocks, genesis, start.hash, b, seen)
    ensures b.header.height == if height < start.header.height then height else start.header.height
    ensures seen == [] <==> start.header.height <= height
  {
    WalkStart(blocks, genesis, start.hash);
    b, seen := start, [];
    while b.header.height > height
      invariant Walked(blocks, genesis, start.hash, b, seen)
      invariant (b == start && seen == []) || (height <= b.header.height < start.header.height && seen != [])
      decreases b.header.height
    {
      WalkBack(blocks, genesis, start.hash, b, seen);
      seen := seen + [b];
      b := blocks[b.header.previousHash];
    }
  }

  lemma {:induction false} HeightsStart(blocks: Blocks, genesis: Hash, h: Hash)
    requires TreeOk(blocks, genesis) && h in blocks
    ensures 0 <= blocks[h].header.height
  {
    assert BlockOk(blocks, genesis, h);
  }

  /** Two walks that stand at one height go on together until they meet. */
  method WalkTogether(
    blocks: Blocks, genesis: Hash, to: Hash, from: Hash, a: Block, seenA: seq<Block>, b: Block, seenB: seq<Block>)
      returns (m: Block, outA: seq<Block>, outB: seq<Block>)
    requires TreeOk(blocks, genesis) && to in blocks && from in blocks && 0 <= a.header.height == b.header.height
    requires Walked(blocks, genesis, to, a, seenA) && Walked(blocks, genesis, from, b, seenB)
    requires |seenA| == 0 || |seenB| == 0
    ensures Walked(blocks, genesis, to, m, outA) && Walked(blocks, genesis, from, m, outB) && 0 <= m.header.height
    ensures |outA| > 0 && |outB| > 0 ==> outB[|outB| - 1].hash != outA[|outA| - 1].hash
  {
    hide TreeOk, ChainOf, Walked;
    m, outA, outB := a, seenA, seenB;
    var n := b;
    while m.hash != n.hash
      invariant 0 <= m.header.height == n.header.height
      invariant Walked(blocks, genesis, to, m, outA) && Walked(blocks, genesis, from, n, outB)
      invariant |outB| > 0 && |outA| > 0 ==> outB[|outB| - 1].hash != outA[|outA| - 1].hash
      decreases m.header.height
    {
      if m.header.height == 0 {
        WalksMeetAtGenesis(blocks, genesis, to, m, outA);
        WalksMeetAtGenesis(blocks, genesis, from, n, outB);
      }
      WalkBack(blocks, genesis, to, m, outA);
      WalkBack(blocks, genesis, from, n, outB);
      outA, outB := outA + [m], outB + [n];
      m, n := blocks[m.header.previousHash], blocks[n.header.previousHash];
    }
    SameHashSameBlock(blocks, genesis, to, from, m, n, outA, outB);
  }

  /** From both heads down to the fork: what the old chain has above it, highest first, and
      what the new chain has above it, lowest first. */
  method PlanReorg(blocks: Blocks, genesis: Hash, from: Block, to: Block)
      returns (toDisconnect: seq<Block>, toConnect: seq<Block>, ghost fork: nat)
    requires TreeOk(blocks, genesis)
    requires from.hash in blocks && blocks[from.hash] == from
    requires to.hash in blocks && blocks[to.hash] == to
    ensures ForkAt(ChainOf(blocks, genesis, from.hash), ChainOf(blocks, genesis, to.hash), fork)
    ensures IsReversed(toDisconnect, ChainOf(blocks, genesis, from.hash)[fork..])
    ensures toConnect == ChainOf(blocks, genesis, to.hash)[fork..]
  {
    HeightsStart(blocks, genesis, from.hash);
    HeightsStart(blocks, genesis, to.hash);
    hide TreeOk, BlockOk, ChainOf, Walked, ForkAt, IsReversed;
    var a, upper := WalkDown(blocks, genesis, to, from.header.height);
    var b, lower := WalkDown(blocks, genesis, from, a.header.height);
    var m, walked;
    m, walked, toDisconnect := WalkTogether(blocks, genesis, to.hash, from.hash, a, upper, b, lower);
    fork := m.header.height + 1;
    WalksMeet(blocks, genesis, from.hash, to.hash, m, toDisconnect, walked);
    toConnect := Reversed(walked);
    ReversedTwice(ChainOf(blocks, genesis, to.hash)[fork..], walked, toConnect);
  }
}

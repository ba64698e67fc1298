/**
 * Looking again at waiting blocks (src/node/node.ts:1479-1488). A look that raises ends every
 * enclosing loop, so what those loops had taken out of the queue is stranded: its hashes count as waiting
 * and no group holds them.
 */
module Looks {

  import opened Ledger
  import opened Store
  import opened Branches
  import opened NodeState
  import opened HeaderIndex
  import opened Orphans
  import opened Arrivals

  /** One look at a waiting block: what it was judged against, and the hashes taken out of their groups but not yet
      looked at. */
  datatype Look = Look(
    s: State, processed: set<Hash>, invalid: set<Hash>, verified: int, block: Block, out: set<Hash>)

  predicate Faults(r: Rules, l: Look, now: int) {
    Judge(r, l.s, l.processed, l.invalid, l.verified, l.block, now).Fault?
  }

  /** The store is sane and the parent, which has just been accepted, is stored above genesis. */
  ghost predicate LookOk(r: Rules, w: World, l: Look) {
    var parent := l.block.header.previousHash;
    && Sane(r, w, l.s) && HighestReached(r.checkpoints, Canonical(r, l.s), l.verified)
    && parent in l.s.blocks && l.s.blocks[parent].header.height >= 1
  }

  /** Without checkpoints none rules anything out. */
  lemma {:induction false} NoCheckpointRules(r: Rules, w: World, l: Look)
    requires LookOk(r, w, l) && r.checkpoints == map[]
    ensures !ConflictsWithVerified(l.verified, l.s.heights, l.block.header.height, l.block.hash)
  {
    hide Sane;
    SaneTree(r, w, l.s);
    assert l.verified == -1;
  }

  /** A look raises exactly for an undecided block of height below 1 that no verified checkpoint rules out. */
  lemma {:induction false} LookFaults(r: Rules, w: World, l: Look, now: int)
    requires Assumes(r, w) && LookOk(r, w, l)
    ensures Faults(r, l, now) <==>
            && Undecided(l.processed, l.invalid, l.block) && l.block.header.height < 1
            && !ConflictsWithVerified(l.verified, l.s.heights, l.block.header.height, l.block.hash)
  {
    hide Sane, Assumes, Judge;
    FaultExactly(r, w, l.s, l.processed, l.invalid, l.verified, l.block, now);
  }

  /** Looks at blocks of `waiting` in order; only the last can have raised. */
  ghost predicate Looked(
    r: Rules, w: World, looks: seq<Look>, now: int, extra: set<Hash>, stranded: set<Hash>, waiting: set<Block>) {
    forall k :: 0 <= k < |looks| ==>
      && LookOk(r, w, looks[k]) && extra <= looks[k].out && looks[k].out !! stranded && looks[k].block in waiting
      && (k < |looks| - 1 ==> !Faults(r, looks[k], now))
  }

  predicate Stopped(r: Rules, looks: seq<Look>, now: int) {
    |looks| > 0 && Faults(r, looks[|looks| - 1], now)
  }

  function LastOut(looks: seq<Look>): set<Hash> {
    if |looks| == 0 then {} else looks[|looks| - 1].out
  }

  lemma {:induction false} NoLooks(
    r: Rules, w: World, now: int, extra: set<Hash>, stranded: set<Hash>, waiting: set<Block>)
    ensures Looked(r, w, [], now, extra, stranded, waiting) && !Stopped(r, [], now) && LastOut([]) == {}
  {
  }

  lemma {:induction false} MoreLooks(
    r: Rules, w: World, looks: seq<Look>, l: Look, nested: seq<Look>, now: int, extra: set<Hash>, inner: set<Hash>,
    stranded: set<Hash>, waiting: set<Block>, left: set<Block>)
    requires Looked(r, w, looks, now, extra, stranded, waiting) && !Stopped(r, looks, now)
    requires LookOk(r, w, l) && extra <= l.out && l.out !! stranded && l.block in waiting
    requires Looked(r, w, nested, now, inner, stranded, left) && extra <= inner && left <= waiting
    requires Faults(r, l, now) ==> nested == []
    ensures Looked(r, w, looks + [l] + nested, now, extra, stranded, waiting)
    ensures Stopped(r, looks + [l] + nested, now) <==> Faults(r, l, now) || Stopped(r, nested, now)
    ensures LastOut(looks + [l] + nested) == if nested == [] then l.out else LastOut(nested)
  {
    hide LookOk, Faults;
    var all, n := looks + [l] + nested, |looks|;
    forall k | 0 <= k < |all|
      ensures LookOk(r, w, all[k]) && extra <= all[k].out && all[k].out !! stranded && all[k].block in waiting
      ensures k < |all| - 1 ==> !Faults(r, all[k], now)
    {
      if k < n {
        assert all[k] == looks[k];
      } else if k == n {
        assert all[k] == l;
      } else {
        assert all[k] == nested[k - n - 1];
      }
    }
  }

  lemma {:induction false} LooksJoin(
    r: Rules, w: World, looks: seq<Look>, more: seq<Look>, now: int, extra: set<Hash>, stranded: set<Hash>,
    waiting: set<Block>)
    requires Looked(r, w, looks, now, extra, stranded, waiting) && !Stopped(r, looks, now)
    requires Looked(r, w, more, now, extra, stranded, waiting) && |more| > 0
    ensures Looked(r, w, looks + more, now, extra, stranded, waiting)
    ensures Stopped(r, looks + more, now) <==> Stopped(r, more, now)
    ensures LastOut(looks + more) == LastOut(more)
  {
    hide LookOk, Faults;
    MoreLooks(r, w, looks, more[0], more[1..], now, extra, extra, stranded, waiting, waiting);
    assert looks + [more[0]] + more[1..] == looks + more;
  }

  /** What looking at a block that nothing waits for leaves: no further looks, and no mark but its own. */
  predicate Quiet(h: Hash, nested: seq<Look>, p: set<Hash>, p': set<Hash>, v: set<Hash>, v': set<Hash>) {
    nested == [] && p' <= p + {h} && v' <= v + ({h} - p)
  }

  /** One look per block of a group in order, with the later ones out and marks only on the earlier ones. */
  ghost predicate OnePerBlock(looks: seq<Look>, bs: seq<Block>, p: set<Hash>, v: set<Hash>, extra: set<Hash>) {
    && |looks| <= |bs|
    && forall k :: 0 <= k < |looks| ==>
         && looks[k].block == bs[k] && looks[k].out == extra + HashesOf(bs[k + 1..])
         && p <= looks[k].processed <= p + HashesOf(bs[..k]) && v <= looks[k].invalid <= v + (HashesOf(bs[..k]) - p)
  }

  /** All blocks of the group were looked at so, or all up to one that raised. */
  ghost predicate Orderly(
    r: Rules, looks: seq<Look>, now: int, bs: seq<Block>, p: set<Hash>, v: set<Hash>, extra: set<Hash>) {
    OnePerBlock(looks, bs, p, v, extra) && (|looks| == |bs| || Stopped(r, looks, now))
  }

  lemma {:induction false} LookOnce(
    looks: seq<Look>, l: Look, bs: seq<Block>, p: set<Hash>, v: set<Hash>, extra: set<Hash>)
    requires OnePerBlock(looks, bs, p, v, extra) && |looks| < |bs| && l.block == bs[|looks|]
    requires l.out == extra + HashesOf(bs[|looks| + 1..]) && p <= l.processed <= p + HashesOf(bs[..|looks|])
    requires v <= l.invalid <= v + (HashesOf(bs[..|looks|]) - p)
    ensures OnePerBlock(looks + [l], bs, p, v, extra)
  {
    hide HashesOf;
    var all := looks + [l];
    forall k | 0 <= k < |all|
      ensures all[k].block == bs[k] && all[k].out == extra + HashesOf(bs[k + 1..])
      ensures p <= all[k].processed <= p + HashesOf(bs[..k]) && v <= all[k].invalid <= v + (HashesOf(bs[..k]) - p)
    {
      if k < |looks| {
        assert all[k] == looks[k];
      }
    }
  }

  lemma {:induction false} MarksGrow(
    bs: seq<Block>, i: nat, p: set<Hash>, now: set<Hash>, later: set<Hash>, v: set<Hash>, vn: set<Hash>, vl: set<Hash>)
    requires i < |bs| && p <= now <= p + HashesOf(bs[..i]) && v <= vn <= v + (HashesOf(bs[..i]) - p)
    requires now <= later <= now + {bs[i].hash} && vn <= vl <= vn + ({bs[i].hash} - now)
    ensures p <= later <= p + HashesOf(bs[..i + 1]) && v <= vl <= v + (HashesOf(bs[..i + 1]) - p)
  {
    hide HashesOf;
    TakeOneMore(bs, i);
    HashesPush(bs[..i], bs[i]);
  }

  lemma {:induction false} NotEarlier(bs: seq<Block>, k: nat)
    requires Distinct(bs) && k < |bs|
    ensures bs[k].hash !in HashesOf(bs[..k])
  {
    hide HashesOf, Distinct;
    TakeOneMore(bs, k);
    assert bs == bs[..k + 1] + bs[k + 1..];
    HashesConcat(bs[..k + 1], bs[k + 1..]);
    HashesPush(bs[..k], bs[k]);
  }

  lemma {:induction false} LaterOut(bs: seq<Block>, k: nat)
    requires k < |bs|
    ensures HashesOf(bs[k + 1..]) == {} <==> k == |bs| - 1
  {
    var rest := bs[k + 1..];
    if rest != [] {
      assert rest[|rest| - 1].hash in HashesOf(rest);
    }
  }

  /** A look at a group in order raises exactly when the block was undecided before and its height is below 1. */
  lemma {:induction false} InOrderFaults(
    r: Rules, w: World, looks: seq<Look>, now: int, bs: seq<Block>, p: set<Hash>, v: set<Hash>, parent: Hash, k: nat)
    requires Assumes(r, w) && k < |looks| && LookOk(r, w, looks[k]) && r.checkpoints == map[]
    requires OnePerBlock(looks, bs, p, v, {}) && Distinct(bs) && AllUnder(parent, bs) && parent in p
    ensures Faults(r, looks[k], now) <==> Undecided(p, v, bs[k]) && bs[k].header.height < 1
  {
    hide Assumes, LookOk, Faults, HashesOf, Distinct;
    LookFaults(r, w, looks[k], now);
    NoCheckpointRules(r, w, looks[k]);
    NotEarlier(bs, k);
  }

  /** Only the last of a group may be an undecided block below height 1. */
  predicate LowOnlyLast(bs: seq<Block>, p: set<Hash>, v: set<Hash>) {
    forall k :: 0 <= k < |bs| - 1 && Undecided(p, v, bs[k]) ==> 1 <= bs[k].header.height
  }

  /**
   * Over the queue before the call: without checkpoints, and when nothing waits for the blocks of the group, nothing is
   * stranded exactly when no undecided block of the group but the last has a height below 1.
   */
  lemma {:induction false} OrderlyStrands(
    r: Rules, w: World, looks: seq<Look>, now: int, stranded: set<Hash>, waiting: set<Block>, after: set<Hash>,
    bs: seq<Block>, p: set<Hash>, v: set<Hash>, parent: Hash)
    requires Assumes(r, w) && Looked(r, w, looks, now, {}, stranded, waiting) && r.checkpoints == map[]
    requires after == stranded + if Stopped(r, looks, now) then LastOut(looks) else {}
    requires Orderly(r, looks, now, bs, p, v, {}) && Distinct(bs) && AllUnder(parent, bs) && parent in p
    ensures after == stranded <==> LowOnlyLast(bs, p, v)
  {
    hide Assumes, LookOk, Faults, HashesOf, Distinct, Undecided, AllUnder;
    StrandsExactly(r, w, looks, now, stranded, waiting, after);
    forall k | 0 <= k < |looks|
      ensures Faults(r, looks[k], now) <==> Undecided(p, v, bs[k]) && bs[k].header.height < 1
      ensures looks[k].out == {} <==> k == |bs| - 1
    {
      InOrderFaults(r, w, looks, now, bs, p, v, parent, k);
      LaterOut(bs, k);
    }
    if |looks| < |bs| {
      var n := |looks| - 1;
      assert Faults(r, looks[n], now);
      assert Undecided(p, v, bs[n]) && bs[n].header.height < 1;
    }
  }

  /** Nothing is stranded exactly when no look that raised had other blocks still out. */
  lemma {:induction false} StrandsExactly(
    r: Rules, w: World, looks: seq<Look>, now: int, stranded: set<Hash>, waiting: set<Block>, after: set<Hash>)
    requires Looked(r, w, looks, now, {}, stranded, waiting)
    requires after == stranded + if Stopped(r, looks, now) then LastOut(looks) else {}
    ensures after == stranded <==> forall k :: 0 <= k < |looks| && Faults(r, looks[k], now) ==> looks[k].out == {}
  {
    hide LookOk, Faults;
    if Stopped(r, looks, now) {
      var out := looks[|looks| - 1].out;
      if out != {} {
        var x :| x in out;
        assert x in after && x !in stranded;
      }
    }
  }

  /** Something a caller can see beforehand: while nothing below height 1 waits, no look raises. */
  lemma {:induction false} HighBlocksAreSafe(
    r: Rules, w: World, looks: seq<Look>, now: int, extra: set<Hash>, stranded: set<Hash>, waiting: set<Block>)
    requires Assumes(r, w) && Looked(r, w, looks, now, extra, stranded, waiting)
    requires forall b :: b in waiting ==> b.header.height >= 1
    ensures !Stopped(r, looks, now)
  {
    hide Assumes, LookOk, Faults;
    if |looks| > 0 {
      LookFaults(r, w, looks[|looks| - 1], now);
    }
  }
}

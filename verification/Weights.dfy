/**
 * What the weight of a chain means (src/consensus/forkChoice.ts:6-18, src/consensus/engine.ts:65-67, 150-152) and
 * which target each header must carry (src/consensus/difficulty.ts:53-73): harder chains win under proof of work,
 * scheduled ones under proof of authority, and a chain that keeps its pace keeps its target.
 */
module Weights {

  import opened Ledger
  import opened Store
  import opened Consensus
  import opened HeaderChain
  import opened HeaderIndex
  import opened NodeState

  // ---------------------------------------------------------------- weight

  /** Of two chains of one length, the one whose targets are nowhere higher weighs at least as much. */
  lemma {:induction false} HarderChainWeighsMore(a: seq<ChainHeader>, b: seq<ChainHeader>)
    requires |a| == |b|
    requires forall k :: 0 <= k < |a| ==> a[k].header.difficultyTarget <= b[k].header.difficultyTarget
    ensures ChainWork(Pow, b) <= ChainWork(Pow, a)
  {
    hide WorkForTarget;
    if |a| > 0 {
      var n := |a| - 1;
      HarderChainWeighsMore(a[..n], b[..n]);
      LowerTargetWeighsMore(a[n].header.difficultyTarget, b[n].header.difficultyTarget);
    }
  }

  /** If the last target is at most half the other's, the chain is the better one. */
  lemma {:induction false} HarderTipWins(a: seq<ChainHeader>, b: seq<ChainHeader>)
    requires 0 < |a| == |b|
    requires forall k :: 0 <= k < |a| ==> a[k].header.difficultyTarget <= b[k].header.difficultyTarget
    requires b[|b| - 1].header.difficultyTarget <= MAX_TARGET
    requires 2 * (a[|a| - 1].header.difficultyTarget + 1) <= b[|b| - 1].header.difficultyTarget + 1
    ensures IsBetterChain(ChainWork(Pow, a), ChainWork(Pow, b)) && !IsBetterChain(ChainWork(Pow, b), ChainWork(Pow, a))
  {
    hide WorkForTarget;
    var n := |a| - 1;
    HarderChainWeighsMore(a[..n], b[..n]);
    LowerTargetWeighsMore(a[n].header.difficultyTarget, b[n].header.difficultyTarget);
    WorkPositive(Pow, b[n].header);
  }

  /** The authority whose turn it was has signed the header. */
  predicate Scheduled(authorities: seq<Key>, header: Header)
    requires 0 < |authorities| && 0 <= header.height
  {
    header.signer == Some(authorities[header.height % |authorities|])
  }

  /** How many of the headers were sealed by the authority whose turn it was. */
  function ScheduledCount(authorities: seq<Key>, chain: seq<ChainHeader>): nat
    requires 0 < |authorities| && forall k :: 0 <= k < |chain| ==> 0 <= chain[k].header.height
  {
    if |chain| == 0 then 0
    else ScheduledCount(authorities, chain[..|chain| - 1])
         + if Scheduled(authorities, chain[|chain| - 1].header) then 1 else 0
  }

  /** Under proof of authority a chain weighs its length plus the number of blocks sealed in turn. */
  lemma {:induction false} AuthorityWork(authorities: seq<Key>, chain: seq<ChainHeader>)
    requires 0 < |authorities| && forall k :: 0 <= k < |chain| ==> 0 <= chain[k].header.height
    ensures ChainWork(Poa(authorities), chain) == |chain| + ScheduledCount(authorities, chain)
  {
    if |chain| > 0 {
      AuthorityWork(authorities, chain[..|chain| - 1]);
      TurnDecidesWork(authorities, chain[|chain| - 1].header);
    }
  }

  /** Of two children of one block the scheduled one outweighs the other, in the index of every node. */
  lemma {:induction false} ScheduledSiblingWins(r: Rules, w: World, s: State, a: Hash, b: Hash)
    requires Sane(r, w, s) && a in s.headers && b in s.headers && 0 < s.headers[a].header.height
    requires s.headers[a].header.previousHash == s.headers[b].header.previousHash
    requires 0 < s.headers[b].header.height && r.params.engine.Poa? && 0 < |r.params.engine.authorities|
    requires Scheduled(r.params.engine.authorities, s.headers[a].header)
    requires !Scheduled(r.params.engine.authorities, s.headers[b].header)
    ensures IsBetterChain(s.headers[a].work, s.headers[b].work)
    ensures !IsBetterChain(s.headers[b].work, s.headers[a].work)
  {
    var c, e := r.Crypto(), r.params.engine;
    assert HeaderOk(c, e, r.Genesis(), s.headers, a) && HeaderOk(c, e, r.Genesis(), s.headers, b);
    TurnDecidesWork(e.authorities, s.headers[a].header);
    TurnDecidesWork(e.authorities, s.headers[b].header);
  }

  // ---------------------------------------------------------------- targets

  /**
   * The target of every header of a verified chain. Between retargets, and always under proof of authority, it is the
   * one before. At a multiple of the interval it is scaled by the time the last `interval` gaps took, or, for the
   * first period, by the time since genesis.
   */
  lemma {:induction false} TargetsFollow(p: Params, chain: seq<ChainHeader>, i: nat)
    requires Verified(p, chain) && 0 < i < |chain|
    ensures var n, target, parent := p.retarget.interval, chain[i].header.difficultyTarget, chain[i - 1].header;
            if p.engine.Poa? || n == 0 || i % n != 0 then target == parent.difficultyTarget
            else
              var start := if i == n then 0 else i - 1 - n;
              0 <= start < i - 1 && 0 < (i - 1 - start) * p.retarget.targetBlockTimeMs
              && (i == n || i - 1 - start == n)
              && target == RetargetDifficulty(parent.difficultyTarget,
                                              parent.timestamp - chain[start].header.timestamp,
                                              (i - 1 - start) * p.retarget.targetBlockTimeMs,
                                              p.retarget.maxAdjustmentFactor)
  {
    hide RetargetDifficulty, VerifySeal;
    assert Accepted(p, chain, i);
    HeightsAreIndices(p, chain, i);
    HeightsAreIndices(p, chain, i - 1);
    var n := p.retarget.interval;
    if p.engine.Pow? && 0 < n && i % n == 0 {
      Multiple(i, n);
      var start := RetargetStart(i, n);
      HeightsAreIndices(p, chain, start);
    }
  }

  lemma {:induction false} Multiple(i: nat, n: nat)
    requires 0 < n && 0 < i && i % n == 0
    ensures i == n || 2 * n <= i
  {
    var q := i / n;
    assert i == q * n;
    if q == 1 {
      assert i == n;
    } else {
      assert 2 <= q;
      assert q * n == 2 * n + (q - 2) * n;
    }
  }

  /** Every header comes exactly one block time after the one before. */
  predicate OnTime(p: Params, chain: seq<ChainHeader>) {
    forall k :: 0 <= k < |chain| ==>
      chain[k].header.timestamp == chain[0].header.timestamp + k * p.retarget.targetBlockTimeMs
  }

  /** A chain that is on time keeps the target of its genesis, from the first period on. */
  lemma {:induction false} OnTimeKeepsTarget(p: Params, chain: seq<ChainHeader>, i: nat)
    requires Verified(p, chain) && OnTime(p, chain) && i < |chain|
    requires 1 <= chain[0].header.difficultyTarget <= MAX_TARGET
    ensures chain[i].header.difficultyTarget == chain[0].header.difficultyTarget
  {
    hide Verified, RetargetDifficulty;
    if i > 0 {
      OnTimeKeepsTarget(p, chain, i - 1);
      TargetsFollow(p, chain, i);
      var n, bt := p.retarget.interval, p.retarget.targetBlockTimeMs;
      if p.engine.Pow? && n != 0 && i % n == 0 {
        var start := if i == n then 0 else i - 1 - n;
        assert (i - 1) * bt - start * bt == (i - 1 - start) * bt;
        RetargetIsBounded(chain[i - 1].header.difficultyTarget, (i - 1 - start) * bt, (i - 1 - start) * bt,
          p.retarget.maxAdjustmentFactor);
      }
    }
  }
}

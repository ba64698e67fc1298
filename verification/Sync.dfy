/**
 How a light client catches up with a node (src/wallet/spv.ts:139-252).
 Whatever the node answers, the result is a chain verified from the trusted genesis that is
 at least as heavy as the stored one, and strictly heavier if any stored header is given up.
 Against an honest node the result is exactly the heavier of the two chains.
 */
module Sync {
  import opened Ledger
  import opened Consensus
  import opened HeaderChain
  import opened ForkSearch

  datatype SyncResult = SyncResult(
    chain: seq<ChainHeader>, fetched: nat, discarded: nat, forkHeight: int, totalWork: nat, tipHeight: int,
    rejectedFork: bool)

  datatype Outcome = Failed | Synced(result: SyncResult)

  /** Asks for page after page; one that is not full is the last. */
  method FetchFrom(source: Source, calls: nat, fromHeight: int, pageSize: nat, ghost remote: seq<ChainHeader>)
      returns (headers: Option<seq<ChainHeader>>, used: nat)
    ensures calls <= used
    ensures Honest(source, remote) && headers.Some? && 0 <= fromHeight <= |remote| ==>
      headers.value == remote[fromHeight..]
    ensures headers.None? ==> source.budget <= used
  {
    var out: seq<ChainHeader> := [];
    var from := fromHeight;
    used := calls;
    while true
      invariant calls <= used && fromHeight <= from
      invariant Honest(source, remote) && 0 <= fromHeight <= |remote| ==>
        from <= |remote| && out == remote[fromHeight..from]
      decreases source.budget - used
    {
      var page := Ask(source, used, from, pageSize);
      if page.None? { return None, used; }
      used := used + 1;
      assert Honest(source, remote) ==> page.value == Slice(remote, from, pageSize);
      out := out + page.value;
      if |page.value| < pageSize { return Some(out), used; }
      from := from + pageSize;
    }
  }

  /** The chain a stored one becomes when everything above `fork` is replaced by `tail`. */
  function Spliced(stored: seq<ChainHeader>, fork: int, tail: seq<ChainHeader>): seq<ChainHeader>
    requires 0 <= fork < |stored|
  {
    stored[..fork + 1] + tail
  }

  /** The heavier-chain rule: the branch from `fork` replaces the stored headers above it only
      if the whole chain then carries strictly more work. */
  ghost predicate Decided(p: Params, stored: seq<ChainHeader>, fork: nat, tail: seq<ChainHeader>, s: SyncResult)
    requires fork < |stored|
  {
    var spliced := Spliced(stored, fork, tail);
    && s.forkHeight == fork
    && (s.rejectedFork <==> fork < |stored| - 1 && ChainWork(p.engine, spliced) <= ChainWork(p.engine, stored))
    && s.chain == (if s.rejectedFork then stored else spliced)
    && s.discarded == (if s.rejectedFork then 0 else |stored| - 1 - fork)
    && s.fetched == (if s.rejectedFork then 0 else |tail|)
    && s.totalWork == ChainWork(p.engine, s.chain)
    && s.tipHeight == |s.chain| - 1
  }

  method Decide(p: Params, stored: seq<ChainHeader>, fork: nat, tail: seq<ChainHeader>) returns (r: Outcome)
    requires Verified(p, stored) && fork < |stored|
    ensures r.Synced? <==> Verified(p, Spliced(stored, fork, tail))
    ensures r.Synced? ==> Decided(p, stored, fork, tail, r.result)
  {
    var prefix := stored[..fork + 1];
    PrefixVerified(p, stored, fork + 1);
    var extended := ExtendHeaderChain(p, prefix, tail);
    if extended.Invalid? { return Failed; }
    var storedWork := ChainWorkOf(p.engine, stored);
    if fork < |stored| - 1 && extended.totalWork <= storedWork {
      return Synced(SyncResult(stored, 0, 0, fork, storedWork, |stored| - 1, true));
    }
    return Synced(SyncResult(prefix + tail, |tail|, |stored| - 1 - fork, fork, extended.totalWork, extended.tipHeight,
      false));
  }

  lemma {:induction false} ExtendedIsHeavier(e: Engine, chain: seq<ChainHeader>, tail: seq<ChainHeader>)
    ensures ChainWork(e, chain) <= ChainWork(e, chain + tail)
  {
    if |tail| == 0 {
      assert chain + tail == chain;
    } else {
      ExtendedIsHeavier(e, chain, tail[..|tail| - 1]);
      assert (chain + tail)[..|chain + tail| - 1] == chain + tail[..|tail| - 1];
    }
  }

  // ---------------------------------------------------------------- any source

  /** What every outcome guarantees, whatever the source answered. */
  ghost predicate SafeOutcome(p: Params, stored: seq<ChainHeader>, s: SyncResult) {
    && Verified(p, s.chain)
    && s.totalWork == ChainWork(p.engine, s.chain) && s.tipHeight == |s.chain| - 1
    && ChainWork(p.engine, stored) <= s.totalWork
    && (0 < s.discarded ==> ChainWork(p.engine, stored) < s.totalWork)
    && -1 <= s.forkHeight < |stored|
    && (s.chain == stored ||
        (s.discarded == |stored| - 1 - s.forkHeight && s.forkHeight < |s.chain|
         && s.chain[..s.forkHeight + 1] == stored[..s.forkHeight + 1]))
  }

  lemma {:induction false} DecidedIsSafe(
    p: Params, stored: seq<ChainHeader>, fork: nat, tail: seq<ChainHeader>, s: SyncResult)
    requires Verified(p, stored) && fork < |stored|
    requires Verified(p, Spliced(stored, fork, tail)) && Decided(p, stored, fork, tail, s)
    ensures SafeOutcome(p, stored, s)
  {
    if fork == |stored| - 1 {
      assert stored[..fork + 1] == stored;
      ExtendedIsHeavier(p.engine, stored, tail);
    }
  }

  // ---------------------------------------------------------------- an honest source

  /** The source serves one verified chain, and no header of it collides with a stored one. */
  ghost predicate HonestNode(p: Params, stored: seq<ChainHeader>, source: Source, remote: seq<ChainHeader>) {
    && Honest(source, remote) && Verified(p, remote)
    && forall i, j :: 0 <= i < |stored| && 0 <= j < |remote| && stored[i].hash == remote[j].hash ==>
      stored[i] == remote[j]
  }

  /** Two verified chains that agree at a height are the same up to it. */
  lemma {:induction false} AgreementGoesDown(
    p: Params, stored: seq<ChainHeader>, source: Source, remote: seq<ChainHeader>, k: nat)
    requires Verified(p, stored) && HonestNode(p, stored, source, remote) && Agree(stored, remote, k)
    ensures stored[..k + 1] == remote[..k + 1]
  {
    assert stored[k] == remote[k];
    if k > 0 {
      AcceptedLinks(p, stored, k);
      AcceptedLinks(p, remote, k);
      AgreementGoesDown(p, stored, source, remote, k - 1);
    }
  }

  lemma {:induction false} AgreementIsClosed(
    p: Params, stored: seq<ChainHeader>, source: Source, remote: seq<ChainHeader>)
    requires Verified(p, stored) && HonestNode(p, stored, source, remote)
    ensures AgreementClosed(stored, remote) && Agree(stored, remote, 0)
  {
    forall j, k | 0 <= j <= k && Agree(stored, remote, k) ensures Agree(stored, remote, j) {
      AgreementGoesDown(p, stored, source, remote, k);
      assert stored[..k + 1][j] == remote[..k + 1][j];
    }
  }

  /** The exact result against an honest node: the fork is the highest agreeing height; on a
      fork the heavier chain wins; on a plain extension one page is appended. */
  ghost predicate ExactOutcome(
    p: Params, stored: seq<ChainHeader>, remote: seq<ChainHeader>, pageSize: nat, s: SyncResult) {
    if stored == [] then s.chain == remote
    else
      && HighestAgreement(stored, remote, s.forkHeight)
      && (s.forkHeight == |stored| - 1 ==> s.chain == stored + Slice(remote, |stored|, pageSize))
      && (s.forkHeight < |stored| - 1 ==>
          s.chain == if ChainWork(p.engine, stored) < ChainWork(p.engine, remote) then remote else stored)
  }

  /** The first reply of an honest node shows whether it agrees with the stored tip. */
  lemma {:induction false} FirstReply(
    p: Params, stored: seq<ChainHeader>, source: Source, remote: seq<ChainHeader>, tail: seq<ChainHeader>,
    pageSize: nat)
    requires Verified(p, stored) && HonestNode(p, stored, source, remote)
    requires tail == Slice(remote, |stored|, pageSize) && |tail| > 0
    ensures tail[0].header.previousHash == stored[|stored| - 1].hash <==> Agree(stored, remote, |stored| - 1)
  {
    AcceptedLinks(p, remote, |stored|);
  }

  lemma {:induction false} ExtensionIsExact(
    p: Params, stored: seq<ChainHeader>, source: Source, remote: seq<ChainHeader>, tail: seq<ChainHeader>,
    pageSize: nat)
    requires Verified(p, stored) && HonestNode(p, stored, source, remote)
    requires tail == Slice(remote, |stored|, pageSize) && Agree(stored, remote, |stored| - 1)
    ensures Spliced(stored, |stored| - 1, tail) == stored + tail && Verified(p, stored + tail)
    ensures HighestAgreement(stored, remote, |stored| - 1)
  {
    assert stored[..|stored|] == stored;
    AgreementGoesDown(p, stored, source, remote, |stored| - 1);
    assert stored + tail == remote[..|stored| + |tail|];
    PrefixVerified(p, remote, |stored| + |tail|);
  }

  lemma {:induction false} ForkIsExact(
    p: Params, stored: seq<ChainHeader>, source: Source, remote: seq<ChainHeader>, fork: nat)
    requires Verified(p, stored) && HonestNode(p, stored, source, remote)
    requires Agree(stored, remote, fork)
    ensures Spliced(stored, fork, remote[fork + 1..]) == remote
  {
    AgreementGoesDown(p, stored, source, remote, fork);
    assert remote[..fork + 1] + remote[fork + 1..] == remote;
  }

  // ---------------------------------------------------------------- the whole exchange

  /** Whether the node still agrees with the stored tip, from its first page or one probe. */
  method TipAgrees(
    p: Params, stored: seq<ChainHeader>, source: Source, tail: seq<ChainHeader>, pageSize: nat, calls: nat,
    ghost remote: seq<ChainHeader>)
      returns (reply: Reply, used: nat)
    requires Verified(p, stored)
    ensures calls <= used
    ensures reply == Lost ==> source.budget <= used
    ensures HonestNode(p, stored, source, remote) && tail == Slice(remote, |stored|, pageSize) && reply != Lost ==>
      (reply == Yes <==> Agree(stored, remote, |stored| - 1))
  {
    used := calls;
    if |tail| > 0 {
      if HonestNode(p, stored, source, remote) && tail == Slice(remote, |stored|, pageSize) {
        FirstReply(p, stored, source, remote, tail, pageSize);
      }
      return if tail[0].header.previousHash == stored[|stored| - 1].hash then Yes else No, used;
    }
    reply := AgreesAt(source, used, stored, |stored| - 1, remote);
    if reply != Lost { used := used + 1; }
  }

  /** Locates the fork and downloads the node's branch above it. */
  method FetchBranch(
    p: Params, stored: seq<ChainHeader>, source: Source, pageSize: nat, calls: nat, ghost remote: seq<ChainHeader>)
      returns (branch: Option<(nat, seq<ChainHeader>)>, used: nat)
    requires Verified(p, stored)
    ensures branch.Some? ==> branch.value.0 < |stored|
    ensures HonestNode(p, stored, source, remote) && !Agree(stored, remote, |stored| - 1) ==>
      (branch.None? ==> source.budget <= used)
      && (branch.Some? ==> HighestAgreement(stored, remote, branch.value.0)
                           && branch.value.1 == remote[branch.value.0 + 1..])
  {
    if HonestNode(p, stored, source, remote) { AgreementIsClosed(p, stored, source, remote); }
    var fork;
    fork, used := FindFork(source, calls, stored, remote);
    if fork.None? { return None, used; }
    var rest;
    rest, used := FetchFrom(source, used, fork.value + 1, pageSize, remote);
    if rest.None? { return None, used; }
    return Some((fork.value, rest.value)), used;
  }

  /** Synchronises a stored chain with any source: safe whatever it answers, exact if honest. */
  method SyncHeaders(p: Params, stored: seq<ChainHeader>, source: Source, pageSize: nat, ghost remote: seq<ChainHeader>)
      returns (r: Outcome, used: nat)
    requires stored == [] || Verified(p, stored)
    ensures r.Synced? ==> SafeOutcome(p, stored, r.result)
    ensures HonestNode(p, stored, source, remote) ==>
      (r.Failed? ==> source.budget <= used) && (r.Synced? ==> ExactOutcome(p, stored, remote, pageSize, r.result))
  {
    if |stored| == 0 {
      var all;
      all, used := FetchFrom(source, 0, 0, pageSize, remote);
      if all.None? { return Failed, used; }
      assert remote[0..] == remote;
      var verdict := VerifyHeaderChain(p, all.value);
      if verdict.Invalid? { return Failed, used; }
      return Synced(SyncResult(all.value, |all.value|, 0, -1, verdict.totalWork, verdict.tipHeight, false)), used;
    }
    var page := Ask(source, 0, |stored|, pageSize);
    if page.None? { return Failed, 0; }
    var agrees;
    agrees, used := TipAgrees(p, stored, source, page.value, pageSize, 1, remote);
    if agrees == Lost { return Failed, used; }
    if agrees == Yes {
      r := Extend(p, stored, source, page.value, pageSize, remote);
    } else {
      r, used := Replace(p, stored, source, pageSize, used, remote);
    }
  }

  method Extend(
    p: Params, stored: seq<ChainHeader>, source: Source, tail: seq<ChainHeader>, pageSize: nat,
    ghost remote: seq<ChainHeader>)
      returns (r: Outcome)
    requires Verified(p, stored)
    ensures r.Synced? ==> SafeOutcome(p, stored, r.result)
    ensures HonestNode(p, stored, source, remote) && tail == Slice(remote, |stored|, pageSize)
            && Agree(stored, remote, |stored| - 1) ==>
      r.Synced? && ExactOutcome(p, stored, remote, pageSize, r.result)
  {
    if HonestNode(p, stored, source, remote) && tail == Slice(remote, |stored|, pageSize)
      && Agree(stored, remote, |stored| - 1) {
      ExtensionIsExact(p, stored, source, remote, tail, pageSize);
    }
    r := Decide(p, stored, |stored| - 1, tail);
    if r.Synced? { DecidedIsSafe(p, stored, |stored| - 1, tail, r.result); }
  }

  method Replace(
    p: Params, stored: seq<ChainHeader>, source: Source, pageSize: nat, calls: nat, ghost remote: seq<ChainHeader>)
      returns (r: Outcome, used: nat)
    requires Verified(p, stored)
    ensures r.Synced? ==> SafeOutcome(p, stored, r.result)
    ensures HonestNode(p, stored, source, remote) && !Agree(stored, remote, |stored| - 1) ==>
      (r.Failed? ==> source.budget <= used) && (r.Synced? ==> ExactOutcome(p, stored, remote, pageSize, r.result))
  {
    var branch;
    branch, used := FetchBranch(p, stored, source, pageSize, calls, remote);
    if branch.None? { return Failed, used; }
    var fork, tail := branch.value.0, branch.value.1;
    if HonestNode(p, stored, source, remote) && !Agree(stored, remote, |stored| - 1) {
      ForkIsExact(p, stored, source, remote, fork);
    }
    r := Decide(p, stored, fork, tail);
    if r.Synced? { DecidedIsSafe(p, stored, fork, tail, r.result); }
  }
}

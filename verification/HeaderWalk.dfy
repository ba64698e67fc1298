/**
 The node's view of the same rules: it finds ancestors by previous hash instead of by array
 position (src/node/node.ts:1110-1157). On every verified chain both give the same answers.
 */
module HeaderWalk {
  import opened Ledger
  import opened Consensus
  import opened HeaderChain

  type Lookup = map<Hash, Header>

  /** Every header of the first `n` is found under its hash. */
  predicate Finds(lookup: Lookup, chain: seq<ChainHeader>, n: nat) {
    n <= |chain| && forall k :: 0 <= k < n ==> chain[k].hash in lookup && lookup[chain[k].hash] == chain[k].header
  }

  function LookupHeader(lookup: Lookup, hash: Hash): Option<Header> {
    if hash in lookup then Some(lookup[hash]) else None
  }

  lemma {:induction false} StepBack(p: Params, lookup: Lookup, chain: seq<ChainHeader>, n: nat, k: nat)
    requires n <= |chain| && Verified(p, chain[..n]) && Finds(lookup, chain, n) && k < n
    ensures chain[k].header.height == k
    ensures LookupHeader(lookup, chain[k].hash) == Some(chain[k].header)
    ensures 0 < k ==> LookupHeader(lookup, chain[k].header.previousHash) == Some(chain[k - 1].header)
  {
    HeightsAreIndices(p, chain[..n], k);
    if k > 0 {
      AcceptedLinks(p, chain[..n], k);
    }
  }

  // ---------------------------------------------------------------- the retarget walk

  /** The ancestor `n` steps behind `from`, if every step finds its header. */
  function Behind(lookup: Lookup, from: Header, n: nat): Option<Header>
    decreases n
  {
    if n == 0 then Some(from) else
    var previous := LookupHeader(lookup, from.previousHash);
    if previous.None? then None else Behind(lookup, previous.value, n - 1)
  }

  /** The target of the block after `parent`, found by following previous hashes. */
  function TargetByWalk(p: Params, lookup: Lookup, parent: Header): Option<nat> {
    var nextHeight := parent.height + 1;
    if !RetargetsAt(p.engine, nextHeight, p.retarget.interval) then Some(parent.difficultyTarget) else
    var gaps := RetargetGaps(nextHeight, p.retarget.interval);
    var start := Behind(lookup, parent, if gaps < 0 then 0 else gaps);
    if start.None? then None else NextTarget(parent, start.value, p.retarget)
  }

  method ExpectedTargetFor(p: Params, lookup: Lookup, parent: Header) returns (target: Option<nat>)
    ensures target == TargetByWalk(p, lookup, parent)
  {
    var nextHeight := parent.height + 1;
    if !RetargetsAt(p.engine, nextHeight, p.retarget.interval) {
      return Some(parent.difficultyTarget);
    }
    var gaps := RetargetGaps(nextHeight, p.retarget.interval);
    ghost var steps := if gaps < 0 then 0 else gaps;
    var periodStart := Some(parent);
    var i := 0;
    while i < gaps && periodStart.Some?
      invariant 0 <= i <= steps
      invariant Behind(lookup, parent, steps) == if periodStart.Some? then Behind(lookup, periodStart.value, steps - i)
        else None
      decreases gaps - i
    {
      periodStart := LookupHeader(lookup, periodStart.value.previousHash);
      i := i + 1;
    }
    if periodStart.None? {
      return None;
    }
    return NextTarget(parent, periodStart.value, p.retarget);
  }

  lemma {:induction false} BehindIsIndex(p: Params, lookup: Lookup, chain: seq<ChainHeader>, n: nat, k: nat, steps: nat)
    requires n <= |chain| && Verified(p, chain[..n]) && Finds(lookup, chain, n) && steps <= k < n
    ensures Behind(lookup, chain[k].header, steps) == Some(chain[k - steps].header)
    decreases steps
  {
    if steps > 0 {
      StepBack(p, lookup, chain, n, k);
      BehindIsIndex(p, lookup, chain, n, k - 1, steps - 1);
    }
  }

  /** On a verified chain the walk finds the target that the array lookup finds. */
  lemma {:induction false} TargetsAgree(p: Params, lookup: Lookup, chain: seq<ChainHeader>, n: nat)
    requires 0 < n < |chain| && Verified(p, chain[..n]) && Finds(lookup, chain, n) && chain[n].header.height == n
    ensures TargetByWalk(p, lookup, chain[n - 1].header) == ExpectedTarget(p, chain, n)
  {
    hide Verified;
    HeightsAreIndices(p, chain[..n], n - 1);
    if RetargetsAt(p.engine, n, p.retarget.interval) {
      BehindIsIndex(p, lookup, chain, n, n - 1, RetargetGaps(n, p.retarget.interval));
    }
  }

  // ---------------------------------------------------------------- the signer walk

  function Parent(lookup: Lookup, header: Header): Option<Header> {
    if header.height == 0 then None else LookupHeader(lookup, header.previousHash)
  }

  /** Signers of up to `n` headers ending at `cursor`, newest first. */
  function SignersByWalk(lookup: Lookup, cursor: Option<Header>, n: nat): seq<Key>
    decreases n
  {
    if n == 0 || cursor.None? then []
    else SignerOf(cursor.value) + SignersByWalk(lookup, Parent(lookup, cursor.value), n - 1)
  }

  method RecentSignersFor(p: Params, lookup: Lookup, parentHash: Hash) returns (signers: seq<Key>)
    ensures signers == SignersByWalk(lookup, LookupHeader(lookup, parentHash), p.engine.RecentSignerWindow())
  {
    var window := p.engine.RecentSignerWindow();
    signers := [];
    var cursor := if window > 0 then LookupHeader(lookup, parentHash) else None;
    ghost var all := SignersByWalk(lookup, LookupHeader(lookup, parentHash), window);
    var i := 0;
    while i < window && cursor.Some?
      invariant 0 <= i <= window
      invariant all == signers + SignersByWalk(lookup, cursor, window - i)
      decreases window - i
    {
      WalkPeel(signers, lookup, cursor.value, window - i);
      signers := signers + SignerOf(cursor.value);
      cursor := Parent(lookup, cursor.value);
      i := i + 1;
    }
  }

  lemma {:induction false} WalkPeel(out: seq<Key>, lookup: Lookup, cursor: Header, n: nat)
    requires n > 0
    ensures out + SignersByWalk(lookup, Some(cursor), n)
            == (out + SignerOf(cursor)) + SignersByWalk(lookup, Parent(lookup, cursor), n - 1)
  {
  }

  lemma {:induction false} WalkIsSlice(p: Params, lookup: Lookup, chain: seq<ChainHeader>, n: nat, k: nat, window: nat)
    requires n <= |chain| && Verified(p, chain[..n]) && Finds(lookup, chain, n) && k < n
    ensures SignersByWalk(lookup, Some(chain[k].header), window)
            == Signers(chain, if k + 1 < window then 0 else k + 1 - window, k + 1)
    decreases window
  {
    hide Verified, Finds, LookupHeader;
    StepBack(p, lookup, chain, n, k);
    if window > 0 && k > 0 {
      WalkIsSlice(p, lookup, chain, n, k - 1, window - 1);
    }
  }

  /** On a verified chain the walk sees the signers that the array slice holds. */
  lemma {:induction false} SignersAgree(p: Params, lookup: Lookup, chain: seq<ChainHeader>, n: nat)
    requires 0 < n <= |chain| && Verified(p, chain[..n]) && Finds(lookup, chain, n)
    ensures SignersByWalk(lookup, LookupHeader(lookup, chain[n - 1].hash), p.engine.RecentSignerWindow())
            == RecentSigners(p.engine, chain, n)
  {
    StepBack(p, lookup, chain, n, n - 1);
    WalkIsSlice(p, lookup, chain, n, n - 1, p.engine.RecentSignerWindow());
  }
}

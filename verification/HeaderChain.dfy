/**
 Header chains as a light client holds them (src/wallet/spv.ts:54-137): an array from the
 trusted genesis on, each header checked against the ones before it. The node checks the
 same rules by walking previous-hash links (src/node/node.ts:1110-1157); the two are proved
 to compute the same expected target and the same recent signers on every accepted chain.
 */
module HeaderChain {
  import opened Ledger
  import opened Consensus

  datatype ChainHeader = ChainHeader(hash: Hash, header: Header)

  datatype Params = Params(
    crypto: Crypto, genesisHash: Hash, engine: Engine, retarget: RetargetRules, maxFutureDriftMs: int, now: int)

  function ChainWork(e: Engine, chain: seq<ChainHeader>): nat {
    if |chain| == 0 then 0 else ChainWork(e, chain[..|chain| - 1]) + BlockWork(e, chain[|chain| - 1].header)
  }

  function SignerOf(h: Header): seq<Key> {
    if h.signer.Some? then [h.signer.value] else []
  }

  /** Signers of headers `lo..i-1`, newest first. */
  function Signers(chain: seq<ChainHeader>, lo: nat, i: nat): seq<Key>
    requires i <= |chain|
    decreases i
  {
    if i <= lo then [] else SignerOf(chain[i - 1].header) + Signers(chain, lo, i - 1)
  }

  function RecentSigners(e: Engine, chain: seq<ChainHeader>, i: nat): seq<Key>
    requires i <= |chain|
  {
    var window := e.RecentSignerWindow();
    Signers(chain, if i < window then 0 else i - window, i)
  }

  /** The target header `i` must carry; `None` where its claimed height points at no usable period start. */
  function ExpectedTarget(p: Params, chain: seq<ChainHeader>, i: nat): Option<nat>
    requires 0 < i < |chain|
  {
    var height := chain[i].header.height;
    if RetargetsAt(p.engine, height, p.retarget.interval) then
      var start := RetargetStart(height, p.retarget.interval);
      if start < |chain| then NextTarget(chain[i - 1].header, chain[start].header, p.retarget) else None
    else Some(chain[i - 1].header.difficultyTarget)
  }

  /** Header `i` passes every header rule against the ones before it. */
  predicate Accepted(p: Params, chain: seq<ChainHeader>, i: nat)
    requires 0 < i < |chain|
  {
    var target := ExpectedTarget(p, chain, i);
    target.Some? &&
    ValidateHeader(p.crypto, p.engine, chain[i].header, chain[i].hash,
      HeaderContext(chain[i - 1].header, chain[i - 1].hash, target.value, p.now, p.maxFutureDriftMs, None,
                    RecentSigners(p.engine, chain, i))) == Valid
  }

  predicate AcceptedFrom(p: Params, chain: seq<ChainHeader>, from: nat) {
    forall i :: 0 < from <= i < |chain| ==> Accepted(p, chain, i)
  }

  predicate StartsAtGenesis(p: Params, chain: seq<ChainHeader>) {
    0 < |chain| && chain[0].header.height == 0 && chain[0].hash == p.genesisHash
  }

  /** A chain the client may trust: from the trusted genesis, every header accepted. */
  predicate Verified(p: Params, chain: seq<ChainHeader>) {
    StartsAtGenesis(p, chain) && AcceptedFrom(p, chain, 1)
  }

  // ---------------------------------------------------------------- the client's checks

  method VerifyFrom(p: Params, chain: seq<ChainHeader>, from: nat) returns (valid: bool)
    requires 0 < from
    ensures valid <==> AcceptedFrom(p, chain, from)
  {
    var i := from;
    while i < |chain|
      invariant from <= i
      invariant forall k :: from <= k < i && k < |chain| ==> Accepted(p, chain, k)
    {
      if !Accepted(p, chain, i) { return false; }
      i := i + 1;
    }
    return true;
  }

  method ChainWorkOf(e: Engine, chain: seq<ChainHeader>) returns (work: nat)
    ensures work == ChainWork(e, chain)
  {
    work := 0;
    for i := 0 to |chain|
      invariant work == ChainWork(e, chain[..i])
    {
      TakeOneMore(chain, i);
      work := work + BlockWork(e, chain[i].header);
    }
    assert chain[..|chain|] == chain;
  }

  datatype ChainResult = Invalid | Good(tipHeight: int, totalWork: nat)

  method VerifyHeaderChain(p: Params, chain: seq<ChainHeader>) returns (r: ChainResult)
    ensures r.Good? <==> Verified(p, chain)
    ensures r.Good? ==> r.tipHeight == |chain| - 1 && r.totalWork == ChainWork(p.engine, chain)
  {
    if |chain| == 0 { return Invalid; }
    if chain[0].header.height != 0 || chain[0].hash != p.genesisHash { return Invalid; }
    var valid := VerifyFrom(p, chain, 1);
    if !valid { return Invalid; }
    HeightsAreIndices(p, chain, |chain| - 1);
    var work := ChainWorkOf(p.engine, chain);
    return Good(chain[|chain| - 1].header.height, work);
  }

  /** Checks only what is new. Accepted exactly when checking the whole chain would be. */
  method ExtendHeaderChain(p: Params, prefix: seq<ChainHeader>, additions: seq<ChainHeader>) returns (r: ChainResult)
    requires prefix == [] || Verified(p, prefix)
    ensures r.Good? <==> Verified(p, prefix + additions)
    ensures r.Good? ==>
      r.tipHeight == |prefix + additions| - 1 && r.totalWork == ChainWork(p.engine, prefix + additions)
  {
    var chain := prefix + additions;
    if |prefix| == 0 {
      assert chain == additions;
      r := VerifyHeaderChain(p, additions);
      return;
    }
    ExtendingIsVerifying(p, prefix, additions);
    var valid := VerifyFrom(p, chain, |prefix|);
    if !valid { return Invalid; }
    HeightsAreIndices(p, chain, |chain| - 1);
    var work := ChainWorkOf(p.engine, chain);
    return Good(chain[|chain| - 1].header.height, work);
  }

  // ---------------------------------------------------------------- what acceptance gives

  lemma {:induction false} AcceptedLinks(p: Params, chain: seq<ChainHeader>, i: nat)
    requires 0 < i < |chain| && Accepted(p, chain, i)
    ensures chain[i].header.height == chain[i - 1].header.height + 1
    ensures chain[i].header.previousHash == chain[i - 1].hash
    ensures p.crypto.blockHash(chain[i].header) == chain[i].hash
  {
  }

  /** In an accepted chain the header at position `k` is the one at height `k`. */
  lemma {:induction false} HeightsAreIndices(p: Params, chain: seq<ChainHeader>, k: nat)
    requires Verified(p, chain) && k < |chain|
    ensures chain[k].header.height == k
  {
    if k > 0 {
      HeightsAreIndices(p, chain, k - 1);
      AcceptedLinks(p, chain, k);
    }
  }

  /**
   * What a verified chain is, seal and target apart: it starts at the trusted genesis, every header is the child of the
   * one before by hash and height, has the hash it claims, and comes later but not from the future.
   */
  lemma {:induction false} VerifiedLinks(p: Params, chain: seq<ChainHeader>, k: nat)
    requires Verified(p, chain)
    ensures 0 < |chain| && chain[0].hash == p.genesisHash
    ensures k < |chain| ==> chain[k].header.height == k
    ensures 0 < k < |chain| ==>
      && chain[k].header.previousHash == chain[k - 1].hash && p.crypto.blockHash(chain[k].header) == chain[k].hash
      && chain[k - 1].header.timestamp < chain[k].header.timestamp <= p.now + p.maxFutureDriftMs
  {
    if k < |chain| {
      HeightsAreIndices(p, chain, k);
    }
    if 0 < k < |chain| {
      assert Accepted(p, chain, k);
    }
  }

  lemma {:induction false} SignersSame(a: seq<ChainHeader>, b: seq<ChainHeader>, lo: nat, i: nat)
    requires i <= |a| && i <= |b| && a[..i] == b[..i]
    ensures Signers(a, lo, i) == Signers(b, lo, i)
    decreases i
  {
    if lo < i {
      assert a[i - 1] == a[..i][i - 1] && b[i - 1] == b[..i][i - 1];
      assert a[..i - 1] == a[..i][..i - 1] && b[..i - 1] == b[..i][..i - 1];
      SignersSame(a, b, lo, i - 1);
    }
  }

  /** Whether header `i` is accepted depends on nothing after it, once heights below it are right. */
  lemma {:induction false} AcceptanceIsLocal(p: Params, a: seq<ChainHeader>, b: seq<ChainHeader>, i: nat)
    requires 0 < i < |a| && i < |b| && a[..i + 1] == b[..i + 1]
    requires a[i - 1].header.height == i - 1
    ensures Accepted(p, a, i) <==> Accepted(p, b, i)
  {
    assert forall k :: 0 <= k <= i ==> a[k] == a[..i + 1][k] && b[k] == b[..i + 1][k];
    assert a[..i] == a[..i + 1][..i] && b[..i] == b[..i + 1][..i];
    SignersSame(a, b, if i < p.engine.RecentSignerWindow() then 0 else i - p.engine.RecentSignerWindow(), i);
    if a[i].header.height == i {
      assert ExpectedTarget(p, a, i) == ExpectedTarget(p, b, i);
    }
  }

  /** Extending a verified prefix is accepted exactly when verifying the whole chain is. */
  lemma {:induction false} ExtendingIsVerifying(p: Params, prefix: seq<ChainHeader>, additions: seq<ChainHeader>)
    requires Verified(p, prefix)
    ensures AcceptedFrom(p, prefix + additions, |prefix|) <==> Verified(p, prefix + additions)
  {
    var chain := prefix + additions;
    forall i | 0 < i < |prefix| ensures Accepted(p, chain, i) {
      HeightsAreIndices(p, prefix, i - 1);
      assert chain[..i + 1] == prefix[..i + 1];
      AcceptanceIsLocal(p, prefix, chain, i);
    }
  }

  /** Every prefix of a verified chain is verified. */
  lemma {:induction false} PrefixVerified(p: Params, chain: seq<ChainHeader>, n: nat)
    requires Verified(p, chain) && 0 < n <= |chain|
    ensures Verified(p, chain[..n])
  {
    forall i | 0 < i < n ensures Accepted(p, chain[..n], i) {
      HeightsAreIndices(p, chain, i - 1);
      assert chain[..n][..i + 1] == chain[..i + 1];
      AcceptanceIsLocal(p, chain, chain[..n], i);
    }
  }
}

/**
 * What a seal is (src/consensus/engine.ts:60-63, 139-149): under proof of work a hash that does not exceed the target,
 * under proof of authority a signature by an authority that has not signed too recently. Stated for a single header,
 * for every verified chain and for the chain of every node.
 */
module Seals {

  import opened Ledger
  import opened Store
  import opened Tree
  import opened Consensus
  import opened HeaderChain
  import opened HeaderIndex
  import opened NodeState
  import opened Arrivals
  import opened IndexedPaths
  import opened Authority

  /** The header is in order but, perhaps, for its seal. */
  predicate InOrder(c: Crypto, header: Header, hash: Hash, ctx: HeaderContext) {
    && c.blockHash(header) == hash && header.difficultyTarget == ctx.expectedTarget
    && header.previousHash == ctx.parentHash && header.height == ctx.parent.height + 1
    && ctx.parent.timestamp < header.timestamp <= ctx.now + ctx.maxFutureDriftMs
    && (ctx.checkpoint.Some? ==> ctx.checkpoint.value == hash)
  }

  /** The header names an authority, and carries its signature over the hash without the signature. */
  predicate Signed(c: Crypto, authorities: seq<Key>, header: Header) {
    && header.signer.Some? && header.signer.value in authorities && header.signature.Some?
    && c.verifySeal(header.signer.value, c.blockHash(header.(signature := None)), header.signature.value)
  }

  // ---------------------------------------------------------------- one header

  /** A header in order is refused for its seal if and only if its hash exceeds its target. */
  lemma {:induction false} WorkSealExactly(c: Crypto, header: Header, hash: Hash, ctx: HeaderContext)
    requires InOrder(c, header, hash, ctx)
    ensures ValidateHeader(c, Pow, header, hash, ctx) == if header.difficultyTarget < hash then BadSeal else Valid
  {
  }

  /**
   * Under proof of authority it is refused for its seal if and only if no authority has properly signed it, or the one
   * that has is among the last signers, as many of them as half the authorities.
   */
  lemma {:induction false} AuthoritySealExactly(
    c: Crypto, authorities: seq<Key>, header: Header, hash: Hash, ctx: HeaderContext)
    requires InOrder(c, header, hash, ctx)
    ensures ValidateHeader(c, Poa(authorities), header, hash, ctx)
         == if Signed(c, authorities, header)
               && (forall k :: 0 <= k < |ctx.recentSigners| && k < |authorities| / 2 ==>
                     ctx.recentSigners[k] != header.signer.value)
            then Valid else BadSeal
  {
    var recent, n := ctx.recentSigners, |authorities| / 2;
    var first := FirstSigners(recent, n);
    assert forall k :: 0 <= k < |recent| && k < n ==> first[k] == recent[k];
    assert |first| == if n <= |recent| then n else |recent|;
  }

  // ---------------------------------------------------------------- every verified chain

  /** Every header above genesis of a verified chain has been worked for. */
  lemma {:induction false} MinedThroughout(p: Params, chain: seq<ChainHeader>, k: nat)
    requires p.engine.Pow? && Verified(p, chain) && 0 < k < |chain|
    ensures p.crypto.blockHash(chain[k].header) == chain[k].hash <= chain[k].header.difficultyTarget
  {
    assert HeaderChain.Accepted(p, chain, k);
  }

  lemma {:induction false} ListedSigner(chain: seq<ChainHeader>, lo: nat, j: nat, s: Key) returns (i: nat)
    requires lo <= j <= |chain| && s in Signers(chain, lo, j)
    ensures lo <= i < j && chain[i].header.signer == Some(s)
    decreases j
  {
    if chain[j - 1].header.signer == Some(s) {
      i := j - 1;
    } else {
      i := ListedSigner(chain, lo, j - 1, s);
    }
  }

  lemma {:induction false} NoMoreSigners(chain: seq<ChainHeader>, lo: nat, j: nat)
    requires lo <= j <= |chain|
    ensures |Signers(chain, lo, j)| <= j - lo
    decreases j
  {
    if lo < j {
      NoMoreSigners(chain, lo, j - 1);
    }
  }

  /**
   * A properly signed header that continues a verified chain is refused if and only if its signer signed one of the
   * last headers, as many of them as half the authorities.
   */
  lemma {:induction false} RefusedExactly(p: Params, chain: seq<ChainHeader>, j: nat)
    requires p.engine.Poa? && 0 < j < |chain| && Signed(p.crypto, p.engine.authorities, chain[j].header)
    requires p.crypto.blockHash(chain[j].header) == chain[j].hash
    requires chain[j].header.difficultyTarget == chain[j - 1].header.difficultyTarget
    requires chain[j].header.previousHash == chain[j - 1].hash
    requires chain[j].header.height == chain[j - 1].header.height + 1
    requires chain[j - 1].header.timestamp < chain[j].header.timestamp <= p.now + p.maxFutureDriftMs
    ensures HeaderChain.Accepted(p, chain, j) <==>
      forall i :: 0 <= i < j && j - |p.engine.authorities| / 2 <= i ==>
        chain[i].header.signer != chain[j].header.signer
  {
    var n, signer := |p.engine.authorities| / 2, chain[j].header.signer.value;
    var lo := if j < n then 0 else j - n;
    var recent := Signers(chain, lo, j);
    var ctx := HeaderContext(chain[j - 1].header, chain[j - 1].hash, chain[j].header.difficultyTarget, p.now,
      p.maxFutureDriftMs, None, recent);
    AuthoritySealExactly(p.crypto, p.engine.authorities, chain[j].header, chain[j].hash, ctx);
    NoMoreSigners(chain, lo, j);
    assert RecentSigners(p.engine, chain, j) == recent;
    if signer in recent {
      var i := ListedSigner(chain, lo, j, signer);
      var k :| 0 <= k < |recent| && recent[k] == signer;
      assert k < n;
    } else {
      forall i | 0 <= i < j && j - n <= i ensures chain[i].header.signer != Some(signer) {
        if chain[i].header.signer == Some(signer) {
          var at := SignerListed(chain, lo, j, i);
        }
      }
    }
  }

  // ---------------------------------------------------------------- every node

  /** Every block above genesis on a node's chain has been worked for. */
  lemma {:induction false} CanonicalMined(r: Rules, w: World, s: State, t: int, k: nat)
    requires Assumes(r, w) && Sane(r, w, s) && RulesHeld(r.params, NodeLookup(s, map[]), t) && r.params.engine.Pow?
    requires 0 < k < |Canonical(r, s)|
    ensures r.Crypto().blockHash(Canonical(r, s)[k].header) == Canonical(r, s)[k].hash
    ensures Canonical(r, s)[k].hash <= Canonical(r, s)[k].header.difficultyTarget
  {
    hide Sane, Assumes, NodeLookup, RulesHeld, Verified, ChainOf, TreeOk;
    CanonicalVerifies(r, w, s, t);
    SaneTree(r, w, s);
    MinedThroughout(r.params.(now := t), HeadersOf(Canonical(r, s)), k);
  }
}

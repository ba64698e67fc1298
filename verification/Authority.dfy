/**
 How often an authority may sign (src/consensus/engine.ts:94-148): in every verified chain
 of n authorities none signs twice among any floor(n/2) + 1 consecutive blocks, so no minority
 can produce a longer run of consecutive blocks than it has members (SIGNER_LIMIT in the
 specification of EIP-225).
 */
module Authority {
  import opened Ledger
  import opened Consensus
  import opened HeaderChain
  import opened Numbers

  lemma {:induction false} SignerListed(chain: seq<ChainHeader>, lo: nat, j: nat, i: nat) returns (at: nat)
    requires lo <= i < j <= |chain| && chain[i].header.signer.Some?
    ensures at < |Signers(chain, lo, j)| && at <= j - 1 - i
    ensures Signers(chain, lo, j)[at] == chain[i].header.signer.value
    decreases j
  {
    var newest, older := SignerOf(chain[j - 1].header), Signers(chain, lo, j - 1);
    assert Signers(chain, lo, j) == newest + older;
    if i == j - 1 {
      at := 0;
    } else {
      var k := SignerListed(chain, lo, j - 1, i);
      at := |newest| + k;
      assert (newest + older)[at] == older[k];
    }
  }

  /** Two headers of a verified chain at most half the number of authorities apart have different signers. */
  lemma {:induction false} DistinctInWindow(p: Params, chain: seq<ChainHeader>, i: nat, j: nat)
    requires p.engine.Poa? && Verified(p, chain)
    requires i < j < |chain| && j - i <= |p.engine.authorities| / 2
    requires chain[i].header.signer.Some?
    ensures chain[j].header.signer.Some? && chain[j].header.signer != chain[i].header.signer
  {
    assert Accepted(p, chain, j);
    var window := p.engine.RecentSignerWindow();
    var lo := if j < window then 0 else j - window;
    var at := SignerListed(chain, lo, j, i);
    var recent := Signers(chain, lo, j);
    assert recent[at] in FirstSigners(recent, window);
  }

  /** Every header above genesis of a verified chain is signed by an authority. */
  lemma {:induction false} SignedByAuthority(p: Params, chain: seq<ChainHeader>, j: nat)
    requires p.engine.Poa? && Verified(p, chain) && 0 < j < |chain|
    ensures chain[j].header.signer.Some? && chain[j].header.signer.value in p.engine.authorities
  {
    assert Accepted(p, chain, j);
  }

  /** The signers of blocks `from..from+n-1`. */
  function SignerSet(chain: seq<ChainHeader>, from: nat, n: nat): set<Key>
    requires from + n <= |chain|
    requires forall k :: from <= k < from + n ==> chain[k].header.signer.Some?
  {
    if n == 0 then {} else SignerSet(chain, from, n - 1) + {chain[from + n - 1].header.signer.value}
  }

  lemma {:induction false} InSignerSet(chain: seq<ChainHeader>, from: nat, n: nat, s: Key) returns (k: nat)
    requires from + n <= |chain|
    requires forall k :: from <= k < from + n ==> chain[k].header.signer.Some?
    requires s in SignerSet(chain, from, n)
    ensures from <= k < from + n && chain[k].header.signer.value == s
  {
    if s == chain[from + n - 1].header.signer.value {
      k := from + n - 1;
    } else {
      k := InSignerSet(chain, from, n - 1, s);
    }
  }

  /** Any consecutive blocks, up to half the number of authorities and one more, have different signers. */
  lemma {:induction false} WindowSignersDistinct(p: Params, chain: seq<ChainHeader>, from: nat, n: nat)
    requires p.engine.Poa? && Verified(p, chain)
    requires 0 < from && from + n <= |chain| && n <= |p.engine.authorities| / 2 + 1
    ensures forall k :: from <= k < from + n ==> chain[k].header.signer.Some?
    ensures |SignerSet(chain, from, n)| == n
  {
    forall k | from <= k < from + n ensures chain[k].header.signer.Some? {
      SignedByAuthority(p, chain, k);
    }
    if n > 0 {
      WindowSignersDistinct(p, chain, from, n - 1);
      var last := chain[from + n - 1].header.signer.value;
      if last in SignerSet(chain, from, n - 1) {
        var k := InSignerSet(chain, from, n - 1, last);
        DistinctInWindow(p, chain, k, from + n - 1);
      }
    }
  }

  lemma {:induction false} SignerSetWithin(chain: seq<ChainHeader>, from: nat, n: nat, group: set<Key>)
    requires from + n <= |chain|
    requires forall k :: from <= k < from + n ==> chain[k].header.signer.Some? && chain[k].header.signer.value in group
    ensures SignerSet(chain, from, n) <= group
  {
    if n > 0 {
      SignerSetWithin(chain, from, n - 1, group);
    }
  }

  /** A group of at most half the authorities never produces more consecutive blocks than it has members. */
  lemma {:induction false} MinorityRunIsShort(p: Params, chain: seq<ChainHeader>, from: nat, n: nat, group: set<Key>)
    requires p.engine.Poa? && Verified(p, chain)
    requires 0 < from && from + n <= |chain| && |group| <= |p.engine.authorities| / 2
    requires forall k :: from <= k < from + n ==> chain[k].header.signer.Some? && chain[k].header.signer.value in group
    ensures n <= |group|
  {
    var m := |group| + 1;
    if m <= n {
      WindowSignersDistinct(p, chain, from, m);
      SignerSetWithin(chain, from, m, group);
      SubsetSize(SignerSet(chain, from, m), group);
    }
  }
}

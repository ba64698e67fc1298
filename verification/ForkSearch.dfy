/**
 Locating the fork between a stored header chain and a node's (src/wallet/spv.ts:182-216):
 doubling steps down from the tip until the chains agree, then bisection in between.

 A source may answer each request as it likes, so a reply depends on how many requests came
 before it; requests past its budget fail. Every terminating exchange with any source, honest
 or not, is one of these.
 */
module ForkSearch {
  import opened Ledger
  import opened HeaderChain
  import opened Numbers

  datatype Source = Source(answer: (nat, int, nat) -> seq<ChainHeader>, budget: nat)

  function Ask(source: Source, calls: nat, from: int, count: nat): Option<seq<ChainHeader>> {
    if calls < source.budget then Some(source.answer(calls, from, count)) else None
  }

  function Slice(chain: seq<ChainHeader>, from: int, count: nat): seq<ChainHeader> {
    if from < 0 || |chain| <= from then []
    else if from + count <= |chain| then chain[from..from + count] else chain[from..]
  }

  /** The source serves one fixed chain. */
  ghost predicate Honest(source: Source, remote: seq<ChainHeader>) {
    forall calls, from, count :: source.answer(calls, from, count) == Slice(remote, from, count)
  }

  predicate Agree(stored: seq<ChainHeader>, remote: seq<ChainHeader>, k: int) {
    0 <= k < |stored| && k < |remote| && remote[k].hash == stored[k].hash
  }

  /** The chains agree below every height they agree at. */
  ghost predicate AgreementClosed(stored: seq<ChainHeader>, remote: seq<ChainHeader>) {
    forall j, k :: 0 <= j <= k && Agree(stored, remote, k) ==> Agree(stored, remote, j)
  }

  /** `fork` is the highest height at which the two chains agree. */
  ghost predicate HighestAgreement(stored: seq<ChainHeader>, remote: seq<ChainHeader>, fork: int) {
    Agree(stored, remote, fork) && forall k :: fork < k ==> !Agree(stored, remote, k)
  }

  // ---------------------------------------------------------------- logarithms

  function Log2(n: nat): nat {
    if n < 2 then 0 else 1 + Log2(n / 2)
  }

  lemma {:induction false} PowBelow(k: nat, n: nat)
    requires Pow2(k) <= n
    ensures k <= Log2(n)
    decreases k
  {
    if k > 0 {
      PowBelow(k - 1, n / 2);
    }
  }

  // ---------------------------------------------------------------- probing

  datatype Reply = Lost | Yes | No

  /** Whether the source's header at `height` is the stored one. */
  method AgreesAt(source: Source, calls: nat, stored: seq<ChainHeader>, height: nat, ghost remote: seq<ChainHeader>)
      returns (reply: Reply)
    requires height < |stored|
    ensures reply == Lost <==> source.budget <= calls
    ensures Honest(source, remote) && reply != Lost ==> (reply == Yes <==> Agree(stored, remote, height))
  {
    var page := Ask(source, calls, height, 1);
    if page.None? { return Lost; }
    assert Honest(source, remote) ==> page.value == Slice(remote, height, 1);
    if |page.value| > 0 && page.value[0].hash == stored[height].hash { return Yes; }
    return No;
  }

  /** Doubles the distance from the tip until a height agrees or genesis is passed. */
  method BackOff(source: Source, calls: nat, stored: seq<ChainHeader>, ghost remote: seq<ChainHeader>)
      returns (lost: bool, match_: int, mismatch: nat, ghost k: nat, used: nat)
    requires |stored| > 0
    ensures used <= calls + k + (if match_ >= 0 then 1 else 0)
    ensures lost ==> source.budget <= used
    ensures mismatch < |stored| && -1 <= match_ < mismatch
    ensures Pow2(k) <= |stored|
    ensures match_ >= 0 ==> Pow2(k + 1) <= |stored|
    ensures !lost ==> mismatch <= (if match_ >= 0 then match_ else 0) + Pow2(k)
    ensures Honest(source, remote) && !Agree(stored, remote, |stored| - 1) ==>
      !Agree(stored, remote, mismatch) && (match_ >= 0 ==> Agree(stored, remote, match_))
  {
    mismatch := |stored| - 1;
    var step := 1;
    match_, k, used := -1, 0, calls;
    while mismatch - step >= 0
      invariant step == Pow2(k) && used == calls + k
      invariant mismatch < |stored| && mismatch == |stored| - step
      invariant Honest(source, remote) && !Agree(stored, remote, |stored| - 1) ==> !Agree(stored, remote, mismatch)
      decreases mismatch
    {
      var reply := AgreesAt(source, used, stored, mismatch - step, remote);
      if reply == Lost { return true, -1, mismatch, k, used; }
      used := used + 1;
      if reply == Yes {
        assert Pow2(k + 1) == 2 * step;
        return false, mismatch - step, mismatch, k, used;
      }
      mismatch := mismatch - step;
      step := step * 2;
      k := k + 1;
    }
    lost := false;
  }

  /** Halves the distance between an agreeing and a disagreeing height until they are adjacent. */
  method Bisect(
    source: Source, calls: nat, stored: seq<ChainHeader>, low: nat, high: nat, ghost k: nat,
    ghost remote: seq<ChainHeader>)
      returns (lost: bool, match_: nat, used: nat)
    requires low <= high < |stored| && high - low <= Pow2(k)
    ensures used <= calls + k
    ensures lost ==> source.budget <= used
    ensures low <= match_ <= high
    ensures !lost && Honest(source, remote) && Agree(stored, remote, low) && !Agree(stored, remote, high)
      ==> Agree(stored, remote, match_) && !Agree(stored, remote, match_ + 1)
  {
    match_, used := low, calls;
    var mismatch := high;
    ghost var left: nat := k;
    while mismatch - match_ > 1
      invariant low <= match_ <= mismatch <= high
      invariant 0 <= left <= k && used == calls + (k - left) && mismatch - match_ <= Pow2(left)
      invariant Honest(source, remote) && Agree(stored, remote, low) && !Agree(stored, remote, high)
        ==> Agree(stored, remote, match_) && !Agree(stored, remote, mismatch)
      decreases mismatch - match_
    {
      var mid := (match_ + mismatch) / 2;
      assert left > 0;
      var reply := AgreesAt(source, used, stored, mid, remote);
      if reply == Lost { return true, match_, used; }
      used := used + 1;
      left := left - 1;
      if reply == Yes { match_ := mid; } else { mismatch := mid; }
    }
    lost := false;
  }

  /** Finds the fork below a tip the source disagrees with. Against an honest source that
      shares genesis the answer is the exact highest agreeing height; at most
      2 log2(n) + 1 probes are made against any source. */
  method FindFork(source: Source, calls: nat, stored: seq<ChainHeader>, ghost remote: seq<ChainHeader>)
      returns (fork: Option<nat>, used: nat)
    requires |stored| > 0
    ensures used <= calls + 2 * Log2(|stored|) + 1
    ensures fork.Some? ==> fork.value < |stored|
    ensures Honest(source, remote) && AgreementClosed(stored, remote) && !Agree(stored, remote, |stored| - 1) ==>
      (fork.Some? ==> HighestAgreement(stored, remote, fork.value))
      && (Agree(stored, remote, 0) && used < source.budget ==> fork.Some?)
  {
    var lost, match_, mismatch;
    ghost var k;
    lost, match_, mismatch, k, used := BackOff(source, calls, stored, remote);
    PowBelow(k, |stored|);
    if match_ >= 0 { PowBelow(k + 1, |stored|); }
    if lost { return None, used; }
    if match_ < 0 {
      var reply := AgreesAt(source, used, stored, 0, remote);
      if reply == Lost { return None, used; }
      used := used + 1;
      if reply == No { return None, used; }
      match_ := 0;
    }
    var at;
    lost, at, used := Bisect(source, used, stored, match_, mismatch, k, remote);
    if lost { return None, used; }
    return Some(at), used;
  }
}

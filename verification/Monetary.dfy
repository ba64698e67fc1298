/** The emission schedule (src/consensus/monetary.ts): rewards halve every era and never fall below a tail. */
module Monetary {

  import opened Ledger
  import opened Numbers

  datatype MonetaryPolicy = MonetaryPolicy(initialReward: nat, halvingInterval: nat, tailEmission: nat) {

    function EraOf(height: nat): nat {
      if halvingInterval > 0 then height / halvingInterval else 0
    }

    /** The reward halved `era` times, or the tail if that is more. */
    function RewardInEra(era: nat): nat {
      var halved := initialReward / Pow2(era);
      if halved > tailEmission then halved else tailEmission
    }

    function BlockReward(height: nat): nat
      requires height >= 1
    {
      RewardInEra(EraOf(height))
    }

    /** What the blocks of heights 1..tip mint together. */
    function Emitted(tip: nat): nat {
      if tip == 0 then 0 else Emitted(tip - 1) + BlockReward(tip)
    }
  }

  // ---------------------------------------------------------------- eras

  lemma {:induction false} EraHeights(p: MonetaryPolicy, era: nat, height: nat)
    requires p.halvingInterval > 0
    requires era * p.halvingInterval <= height < (era + 1) * p.halvingInterval
    ensures p.EraOf(height) == era
  {
    var n := p.halvingInterval;
    assert (era + 1) * n == era * n + n;
    DivMod(height, era, height - era * n, n);
  }

  lemma {:induction false} BitTimes(b: nat, p: nat, r: nat)
    requires b < 2 && r < p
    ensures b * p + r < 2 * p
  {
    if b == 1 {
      assert b * p == p;
    } else {
      assert b * p == 0;
    }
  }

  lemma {:induction false} SplitHalves(x: nat, p: nat, q: nat, r: nat, h: nat, b: nat)
    requires x == q * p + r && r < p && q == h * 2 + b && b < 2
    ensures x / (2 * p) == h
  {
    Distribute(h, 2, b, p);
    BitTimes(b, p, r);
    var d := 2 * p;
    assert p * 2 == d;
    DivMod(x, h, b * p + r, d);
  }

  lemma {:induction false} QuotientHalves(x: nat, p: nat)
    requires 0 < p
    ensures x / (2 * p) == x / p / 2
  {
    var q := x / p;
    SplitHalves(x, p, q, x % p, q / 2, q % 2);
  }

  lemma {:induction false} HalvedAgain(x: nat, era: nat)
    ensures x / Pow2(era + 1) == x / Pow2(era) / 2
  {
    QuotientHalves(x, Pow2(era));
  }

  lemma {:induction false} RewardsFall(p: MonetaryPolicy, era: nat, later: nat)
    requires era <= later
    ensures p.RewardInEra(later) <= p.RewardInEra(era)
    ensures p.initialReward / Pow2(later) <= p.initialReward / Pow2(era)
    decreases later
  {
    hide Pow2;
    if era < later {
      RewardsFall(p, era, later - 1);
      HalvedAgain(p.initialReward, later - 1);
    }
  }

  function Larger(a: nat, b: nat): nat {
    if a > b then a else b
  }

  /**
   * The whole schedule, by heights: the initial reward up to the first interval, and one interval later half as much,
   * rounded down, but never less than the tail.
   */
  lemma {:induction false} RewardHalves(p: MonetaryPolicy, height: nat)
    requires 1 <= height
    ensures p.halvingInterval == 0 || height < p.halvingInterval ==>
      p.BlockReward(height) == Larger(p.initialReward, p.tailEmission)
    ensures p.halvingInterval > 0 ==>
      p.BlockReward(height + p.halvingInterval)
      == if p.BlockReward(height) > p.tailEmission then Larger(p.BlockReward(height) / 2, p.tailEmission)
         else p.tailEmission
  {
    hide Pow2;
    var n := p.halvingInterval;
    FirstEra(p);
    if n > 0 {
      EraAhead(p, height);
      HalvedInEra(p, p.EraOf(height));
    }
  }

  lemma {:induction false} FirstEra(p: MonetaryPolicy)
    ensures p.RewardInEra(0) == Larger(p.initialReward, p.tailEmission)
  {
  }

  lemma {:induction false} EraAhead(p: MonetaryPolicy, height: nat)
    requires p.halvingInterval > 0
    ensures p.EraOf(height + p.halvingInterval) == p.EraOf(height) + 1
    ensures height < p.halvingInterval ==> p.EraOf(height) == 0
  {
    var n := p.halvingInterval;
    var era := height / n;
    assert height == era * n + height % n;
    assert (era + 1) * n == era * n + n;
    DivMod(height + n, era + 1, height % n, n);
    if height < n {
      DivMod(height, 0, height, n);
    }
  }

  lemma {:induction false} HalvedInEra(p: MonetaryPolicy, era: nat)
    ensures p.RewardInEra(era + 1)
         == if p.RewardInEra(era) > p.tailEmission then Larger(p.RewardInEra(era) / 2, p.tailEmission)
            else p.tailEmission
  {
    HalvedAgain(p.initialReward, era);
    hide Pow2;
  }

  /** Once the reward stays the same over one era boundary it stays the same for ever. */
  lemma {:induction false} RewardSettles(p: MonetaryPolicy, era: nat, later: nat)
    requires era < later && p.RewardInEra(era + 1) == p.RewardInEra(era)
    ensures p.RewardInEra(later) == p.RewardInEra(era)
  {
    HalvedAgain(p.initialReward, era);
    RewardsFall(p, era + 1, later);
  }

  lemma {:induction false} EmittedOverRun(p: MonetaryPolicy, era: nat, first: nat, last: nat)
    requires 1 <= first <= last + 1
    requires forall h :: first <= h <= last ==> p.EraOf(h) == era
    ensures p.Emitted(last) == p.Emitted(first - 1) + p.RewardInEra(era) * (last - first + 1)
    decreases last
  {
    var r := p.RewardInEra(era);
    if first <= last {
      EmittedOverRun(p, era, first, last - 1);
      assert r * (last - first + 1) == r * (last - first) + r;
    } else {
      assert r * 0 == 0;
    }
  }

  // ---------------------------------------------------------------- the closed form

  /** The last height of eras before `era`, cut at `tip`. */
  function UpTo(p: MonetaryPolicy, era: nat, tip: nat): nat {
    var end := era * p.halvingInterval;
    if end == 0 then 0 else if end - 1 < tip then end - 1 else tip
  }

  lemma {:induction false} OneEra(p: MonetaryPolicy, era: nat, tip: nat)
    requires p.halvingInterval > 0 && tip >= 1 && era <= p.EraOf(tip)
    ensures var n := p.halvingInterval;
            var first := if era * n > 1 then era * n else 1;
            var last := if (era + 1) * n - 1 < tip then (era + 1) * n - 1 else tip;
            p.Emitted(UpTo(p, era + 1, tip))
            == p.Emitted(UpTo(p, era, tip)) + if last >= first then p.RewardInEra(era) * (last - first + 1) else 0
  {
    var n := p.halvingInterval;
    var first := if era * n > 1 then era * n else 1;
    var last := if (era + 1) * n - 1 < tip then (era + 1) * n - 1 else tip;
    assert (era + 1) * n == era * n + n;
    EraStartsBelow(p, era, tip);
    if last >= first {
      forall h | first <= h <= last
        ensures p.EraOf(h) == era
      {
        EraHeights(p, era, h);
      }
      EmittedOverRun(p, era, first, last);
    }
  }

  lemma {:induction false} EraStartsBelow(p: MonetaryPolicy, era: nat, tip: nat)
    requires p.halvingInterval > 0 && era <= p.EraOf(tip)
    ensures era * p.halvingInterval <= tip
  {
    var n, e := p.halvingInterval, p.EraOf(tip);
    assert tip == e * n + tip % n;
    if era < e {
      StepBelow(era, e, n);
    }
  }

  lemma {:induction false} AllEras(p: MonetaryPolicy, tip: nat)
    requires p.halvingInterval > 0 && tip >= 1
    ensures UpTo(p, p.EraOf(tip) + 1, tip) == tip
  {
    var n, e := p.halvingInterval, p.EraOf(tip);
    assert tip == e * n + tip % n;
    assert (e + 1) * n == e * n + n;
  }

  lemma {:induction false} ConstantReward(p: MonetaryPolicy, tip: nat)
    requires p.halvingInterval == 0
    ensures p.Emitted(tip) == tip * if p.initialReward > p.tailEmission then p.initialReward else p.tailEmission
  {
    var r := if p.initialReward > p.tailEmission then p.initialReward else p.tailEmission;
    if tip > 0 {
      ConstantReward(p, tip - 1);
      assert tip * r == (tip - 1) * r + r;
    }
  }

  /**
   * The per-era loop computes the sum of the block rewards, except for a never-halving policy whose
   * tail exceeds its initial reward: there it counts the initial reward although blocks pay the tail.
   */
  method CumulativeEmission(tip: int, p: MonetaryPolicy) returns (total: nat)
    ensures total == (if tip < 1 then 0 else p.Emitted(tip))
            <==> tip < 1 || p.halvingInterval > 0 || p.tailEmission <= p.initialReward
  {
    if tip < 1 {
      return 0;
    }
    if p.halvingInterval == 0 {
      ConstantReward(p, tip);
      ProductTells(tip, p.initialReward, p.tailEmission);
      return p.initialReward * tip;
    }
    total := 0;
    var lastEra := p.EraOf(tip);
    assert UpTo(p, 0, tip) == 0;
    for era := 0 to lastEra + 1
      invariant total == p.Emitted(UpTo(p, era, tip))
    {
      OneEra(p, era, tip);
      var first := if era * p.halvingInterval > 1 then era * p.halvingInterval else 1;
      var last := if (era + 1) * p.halvingInterval - 1 < tip then (era + 1) * p.halvingInterval - 1 else tip;
      if last >= first {
        total := total + p.RewardInEra(era) * (last - first + 1);
      }
    }
    AllEras(p, tip);
  }

  lemma {:induction false} ProductTells(k: nat, a: nat, b: nat)
    requires k >= 1
    ensures a < b ==> a * k < k * b
    ensures a * k == k * a
  {
    if a < b {
      StepBelow(a, b, k);
      assert b * k == k * b;
    }
  }

  // ---------------------------------------------------------------- the most there can be

  lemma {:induction false} EmittedGrows(p: MonetaryPolicy, tip: nat, later: nat)
    requires tip <= later
    ensures p.Emitted(tip) <= p.Emitted(later)
    decreases later
  {
    if tip < later {
      EmittedGrows(p, tip, later - 1);
    }
  }

  /** The last height before `era` begins. */
  function EraEnd(p: MonetaryPolicy, era: nat): nat {
    if era * p.halvingInterval == 0 then 0 else era * p.halvingInterval - 1
  }

  lemma {:induction false} WholeEra(p: MonetaryPolicy, era: nat)
    requires p.halvingInterval > 0
    ensures p.Emitted(EraEnd(p, era + 1))
            == p.Emitted(EraEnd(p, era))
               + p.RewardInEra(era) * if era == 0 then p.halvingInterval - 1 else p.halvingInterval
  {
    var n := p.halvingInterval;
    var first, last := if era == 0 then 1 else era * n, (era + 1) * n - 1;
    EraBounds(n, era);
    forall h | first <= h <= last
      ensures p.EraOf(h) == era
    {
      EraHeights(p, era, h);
    }
    EmittedOverRun(p, era, first, last);
    assert first - 1 == EraEnd(p, era) && last == EraEnd(p, era + 1);
    assert last - first + 1 == if era == 0 then n - 1 else n;
  }

  lemma {:induction false} EraBounds(n: nat, era: nat)
    requires n > 0
    ensures (era + 1) * n == era * n + n && (era > 0 ==> era * n >= n) && (era == 0 ==> era * n == 0)
  {
    if era > 0 {
      StepBelow(0, era, n);
    }
  }

  lemma {:induction false} EmissionOver(p: MonetaryPolicy, era: nat, tip: nat)
    requires p.halvingInterval > 0 && p.RewardInEra(era) == 0
    ensures p.Emitted(tip) <= p.Emitted(EraEnd(p, era))
    decreases tip
  {
    var end := EraEnd(p, era);
    if tip <= end {
      EmittedGrows(p, tip, end);
    } else {
      EmissionOver(p, era, tip - 1);
      EraReached(p, era, tip);
      RewardsFall(p, era, p.EraOf(tip));
    }
  }

  lemma {:induction false} EraReached(p: MonetaryPolicy, era: nat, height: nat)
    requires p.halvingInterval > 0 && era * p.halvingInterval <= height
    ensures era <= p.EraOf(height)
  {
    var n, e := p.halvingInterval, p.EraOf(height);
    assert height == e * n + height % n;
    if e < era {
      StepBelow(e, era, n);
    }
  }

  /** `cap` is the most coins there can ever be: never passed and some time reached. */
  ghost predicate IsCap(p: MonetaryPolicy, genesis: nat, cap: nat) {
    && (forall tip: nat :: genesis + p.Emitted(tip) <= cap)
    && (exists tip: nat :: genesis + p.Emitted(tip) == cap)
  }

  /** The cap of the schedule, where the policy says that there is one. */
  method MaxSupply(p: MonetaryPolicy, genesis: nat) returns (r: Option<nat>)
    ensures r.None? <==> p.halvingInterval == 0 || p.tailEmission > 0
    ensures r.Some? ==> IsCap(p, genesis, r.value)
  {
    if p.halvingInterval == 0 || p.tailEmission > 0 {
      return None;
    }
    var total, era := genesis, 0;
    assert EraEnd(p, 0) == 0;
    while p.RewardInEra(era) > 0
      invariant total == genesis + p.Emitted(EraEnd(p, era))
      decreases p.RewardInEra(era)
    {
      var blocks := if era == 0 then p.halvingInterval - 1 else p.halvingInterval;
      WholeEra(p, era);
      HalvedAgain(p.initialReward, era);
      total := total + p.RewardInEra(era) * blocks;
      era := era + 1;
    }
    forall tip: nat
      ensures genesis + p.Emitted(tip) <= total
    {
      EmissionOver(p, era, tip);
    }
    r := Some(total);
  }

  /** Without a bound to report, a policy that pays anything at all mints past every bound. */
  lemma {:induction false} EmissionUnbounded(p: MonetaryPolicy, tip: nat)
    requires p.halvingInterval == 0 || p.tailEmission > 0
    requires p.initialReward > 0 || p.tailEmission > 0
    ensures p.Emitted(tip) >= tip
  {
    if tip > 0 {
      EmissionUnbounded(p, tip - 1);
    }
  }

  lemma {:induction false} NothingEmitted(p: MonetaryPolicy, tip: nat)
    requires p.halvingInterval == 0 && p.initialReward == 0 && p.tailEmission == 0
    ensures p.Emitted(tip) == 0
  {
    if tip > 0 {
      NothingEmitted(p, tip - 1);
    }
  }

  /** The maximum supply is reported as undefined although there is one exactly for a never-halving policy that mints
      nothing. */
  lemma {:induction false} UndefinedYetBounded(p: MonetaryPolicy, genesis: nat)
    ensures (p.halvingInterval == 0 || p.tailEmission > 0) && (exists cap: nat :: IsCap(p, genesis, cap))
            <==> p.halvingInterval == 0 && p.initialReward == 0 && p.tailEmission == 0
  {
    if p.halvingInterval == 0 && p.initialReward == 0 && p.tailEmission == 0 {
      forall tip: nat ensures p.Emitted(tip) == 0 {
        NothingEmitted(p, tip);
      }
      assert genesis + p.Emitted(0) == genesis;
      assert IsCap(p, genesis, genesis);
    } else if p.halvingInterval == 0 || p.tailEmission > 0 {
      forall cap: nat ensures !IsCap(p, genesis, cap) {
        EmissionUnbounded(p, cap + 1);
        assert genesis + p.Emitted(cap + 1) > cap;
      }
    }
  }

  // ---------------------------------------------------------------- the next halving

  function NextHalvingHeight(height: nat, p: MonetaryPolicy): Option<nat> {
    if p.halvingInterval == 0 then None else
    var next := NextEraStart(p, height);
    if p.BlockReward(next) < p.BlockReward(if height > 1 then height else 1) then Some(next) else None
  }

  function NextEraStart(p: MonetaryPolicy, height: nat): (next: nat)
    requires p.halvingInterval > 0
    ensures height < next
    ensures next == (p.EraOf(height) + 1) * p.halvingInterval
  {
    var n, e := p.halvingInterval, p.EraOf(height);
    assert height == e * n + height % n;
    assert (e + 1) * n == e * n + n;
    (e + 1) * n
  }

  /** `r` is the first height above `height` with another reward than the block there pays, if any. */
  ghost predicate IsNextChange(p: MonetaryPolicy, height: nat, r: Option<nat>) {
    var now := p.BlockReward(if height > 1 then height else 1);
    match r
    case None => forall h: nat :: h > height ==> p.BlockReward(h) == now
    case Some(next) =>
      && height < next && p.BlockReward(next) != now
      && forall h: nat :: height < h < next ==> p.BlockReward(h) == now
  }

  lemma {:induction false} SameEra(p: MonetaryPolicy, height: nat, h: nat)
    requires p.halvingInterval > 0 && height <= h < NextEraStart(p, height)
    ensures p.EraOf(h) == p.EraOf(height)
  {
    var n, e := p.halvingInterval, p.EraOf(height);
    assert height == e * n + height % n;
    EraHeights(p, e, h);
  }

  lemma {:induction false} NextEra(p: MonetaryPolicy, height: nat)
    requires p.halvingInterval > 0
    ensures p.EraOf(NextEraStart(p, height)) == p.EraOf(height) + 1
  {
    var n, e := p.halvingInterval, p.EraOf(height) + 1;
    assert (e + 1) * n == e * n + n;
    EraHeights(p, e, e * n);
  }

  lemma {:induction false} LaterEra(p: MonetaryPolicy, height: nat, h: nat)
    requires p.halvingInterval > 0 && h >= NextEraStart(p, height)
    ensures p.EraOf(h) >= p.EraOf(height) + 1
  {
    EraReached(p, p.EraOf(height) + 1, h);
  }

  /**
   * The height reported is the next change of the reward, except at genesis under a one-block era:
   * there the reward of block 1 is compared with itself, and a halving at block 2 is missed.
   */
  lemma {:induction false} NextHalvingExact(height: nat, p: MonetaryPolicy)
    ensures IsNextChange(p, height, NextHalvingHeight(height, p))
            <==> !(height == 0 && p.halvingInterval == 1 && p.BlockReward(2) < p.BlockReward(1))
  {
    if p.halvingInterval > 0 {
      if height == 0 && p.halvingInterval == 1 {
        FirstEraOfOne(p);
      } else {
        NextChangeFound(height, p);
      }
    }
  }

  lemma {:induction false} NextChangeFound(height: nat, p: MonetaryPolicy)
    requires p.halvingInterval > 0 && !(height == 0 && p.halvingInterval == 1)
    ensures IsNextChange(p, height, NextHalvingHeight(height, p))
  {
    var at := if height > 1 then height else 1;
    var next, era := NextEraStart(p, height), p.EraOf(height);
    NextEra(p, height);
    if height == 0 {
      assert era == 0;
    }
    SameEra(p, height, at);
    RewardsFall(p, era, era + 1);
    if NextHalvingHeight(height, p) == None {
      forall h: nat | h > height
        ensures p.BlockReward(h) == p.BlockReward(at)
      {
        if h < next {
          SameEra(p, height, h);
        } else {
          LaterEra(p, height, h);
          RewardSettles(p, era, p.EraOf(h));
        }
      }
    } else {
      forall h: nat | height < h < next
        ensures p.BlockReward(h) == p.BlockReward(at)
      {
        SameEra(p, height, h);
      }
    }
  }

  lemma {:induction false} FirstEraOfOne(p: MonetaryPolicy)
    requires p.halvingInterval == 1
    ensures NextHalvingHeight(0, p) == None
    ensures IsNextChange(p, 0, None) <==> p.BlockReward(2) >= p.BlockReward(1)
  {
    assert p.EraOf(1) == 1 && p.EraOf(2) == 2;
    RewardsFall(p, 1, 2);
    if p.BlockReward(2) >= p.BlockReward(1) {
      forall h: nat | h > 0
        ensures p.BlockReward(h) == p.BlockReward(1)
      {
        assert p.EraOf(h) == h;
        if h > 1 {
          RewardSettles(p, 1, h);
        }
      }
    }
  }
}

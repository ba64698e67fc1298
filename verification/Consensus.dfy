/**
 Header-level consensus: sealing engines (src/consensus/engine.ts), fork-choice weight
 (src/consensus/forkChoice.ts), the difficulty retarget (src/consensus/difficulty.ts) and
 the header rules (src/consensus/blockValidator.ts:65-93). Time spans are exact rationals:
 the rounding of double-precision numbers is not modelled.
 */
module Consensus {
  import opened Ledger
  import opened Numbers

  type Positive = x: int | 0 < x witness 1

  /** 2^256 - 1. */
  const MAX_TARGET: nat := 0xffffffff_ffffffff_ffffffff_ffffffff_ffffffff_ffffffff_ffffffff_ffffffff

  /** Proof of work, or proof of authority with its signers in turn order. */
  datatype Engine = Pow | Poa(authorities: seq<Key>)
  {
    predicate Retargets() {
      Pow?
    }

    /** Length of the window in which an authority may sign at most once. */
    function RecentSignerWindow(): nat {
      if Pow? then 0 else |authorities| / 2
    }
  }

  function WorkForTarget(target: nat): nat {
    (MAX_TARGET + 1) / (target + 1)
  }

  const POA_IN_TURN_WORK: nat := 2
  const POA_OUT_OF_TURN_WORK: nat := 1

  predicate InTurn(authorities: seq<Key>, header: Header) {
    && 0 < |authorities| && 0 <= header.height
    && header.signer == Some(authorities[header.height % |authorities|])
  }

  /** What a block counts for when two chains are compared. */
  function BlockWork(e: Engine, header: Header): nat {
    match e
    case Pow => WorkForTarget(header.difficultyTarget)
    case Poa(authorities) => if InTurn(authorities, header) then POA_IN_TURN_WORK else POA_OUT_OF_TURN_WORK
  }

  /** Ties go to the chain that is already there. */
  predicate IsBetterChain(candidateWork: int, currentWork: int) {
    candidateWork > currentWork
  }

  lemma {:induction false} WorkPositive(e: Engine, header: Header)
    requires header.difficultyTarget <= MAX_TARGET
    ensures 0 < BlockWork(e, header)
  {
  }

  lemma {:induction false} Pow2Of256()
    ensures MAX_TARGET + 1 == Pow2(256)
  {
    assert Pow2(8) == 0x100;
    hide Pow2;
    Pow2Twice(8, 0x100);
    Pow2Twice(16, 0x1_0000);
    Pow2Twice(32, 0x1_0000_0000);
    Pow2Twice(64, 0x1_0000_0000_0000_0000);
    Pow2Twice(128, 0x1_0000_0000_0000_0000_0000_0000_0000_0000);
  }

  lemma {:induction false} Pow2Twice(n: nat, p: nat)
    requires Pow2(n) == p
    ensures Pow2(2 * n) == p * p
  {
    Pow2Sum(n, n);
  }

  lemma {:induction false} QuotientNotLess(x: nat, y: nat, d: nat, n: nat)
    requires y * d <= n < (x + 1) * d
    ensures y <= x
  {
    assert (x + 1) * d == x * d + d;
    if x < y {
      StepBelow(x, y, d);
    }
  }

  /** Work is the whole number of times that `target + 1` goes into 2^256. */
  lemma {:induction false} WorkIsQuotient(target: nat)
    ensures WorkForTarget(target) * (target + 1) <= Pow2(256) < (WorkForTarget(target) + 1) * (target + 1)
  {
    Pow2Of256();
    hide Pow2;
    var q, d := WorkForTarget(target), target + 1;
    assert MAX_TARGET + 1 == q * d + (MAX_TARGET + 1) % d;
    assert (q + 1) * d == q * d + d;
  }

  /** A lower target never weighs less, and one at most half as large at least twice as much. */
  lemma {:induction false} LowerTargetWeighsMore(lower: nat, higher: nat)
    requires lower <= higher
    ensures WorkForTarget(higher) <= WorkForTarget(lower)
    ensures 2 * (lower + 1) <= higher + 1 ==> 2 * WorkForTarget(higher) <= WorkForTarget(lower)
  {
    hide WorkForTarget, Pow2;
    WorkIsQuotient(lower);
    WorkIsQuotient(higher);
    var x, y := WorkForTarget(lower), WorkForTarget(higher);
    MulMono(y, lower + 1, higher + 1);
    QuotientNotLess(x, y, lower + 1, Pow2(256));
    if 2 * (lower + 1) <= higher + 1 {
      MulMono(y, 2 * (lower + 1), higher + 1);
      assert y * (2 * (lower + 1)) == 2 * y * (lower + 1);
      QuotientNotLess(x, 2 * y, lower + 1, Pow2(256));
    }
  }

  /** The authority whose turn it is, height modulo their number, seals a block of weight 2; any other one of
      weight 1. */
  lemma {:induction false} TurnDecidesWork(authorities: seq<Key>, header: Header)
    requires 0 < |authorities| && 0 <= header.height
    ensures BlockWork(Poa(authorities), header)
         == if header.signer == Some(authorities[header.height % |authorities|]) then 2 else 1
  {
  }

  // ---------------------------------------------------------------- difficulty

  datatype RetargetRules = RetargetRules(targetBlockTimeMs: Positive, interval: nat, maxAdjustmentFactor: Positive)

  const PRECISION: int := 1_000_000

  function Clamp(lo: real, hi: real, x: real): real {
    var y := if x < lo then lo else x;
    if hi < y then hi else y
  }

  /** Nearest integer, halves rounding up. */
  function Round(x: real): int {
    (x + 0.5).Floor
  }

  /** currentTarget scaled by the clamped ratio of actual to intended time span, within 1..MAX_TARGET. */
  function RetargetDifficulty(currentTarget: nat, actualMs: int, targetMs: Positive, factor: Positive): (target: nat)
    ensures 1 <= target <= MAX_TARGET
  {
    var clamped := Clamp(targetMs as real / factor as real, (targetMs * factor) as real, actualMs as real);
    var scaled := Round(clamped * PRECISION as real) / targetMs;
    var scaledTarget := currentTarget * scaled / PRECISION;
    if scaledTarget > MAX_TARGET then MAX_TARGET else if scaledTarget < 1 then 1 else scaledTarget
  }

  /** Rounding is to the nearest, and half way up. */
  lemma {:induction false} RoundNearest(x: real)
    ensures Round(x) as real - 0.5 <= x < Round(x) as real + 0.5
  {
  }

  lemma {:induction false} RoundBetween(x: real, lo: int, hi: int)
    requires lo as real <= x <= hi as real
    ensures lo <= Round(x) <= hi
  {
  }

  lemma {:induction false} ClampBetween(lo: real, hi: real, x: real)
    requires lo <= hi
    ensures lo <= Clamp(lo, hi, x) <= hi && (lo <= x <= hi ==> Clamp(lo, hi, x) == x)
  {
  }

  lemma {:induction false} ScaledBounds(actualMs: int, targetMs: Positive, factor: Positive)
    ensures var clamped := Clamp(targetMs as real / factor as real, (targetMs * factor) as real, actualMs as real);
            var scaled := Round(clamped * PRECISION as real) / targetMs;
            PRECISION / factor <= scaled <= PRECISION * factor && (actualMs == targetMs ==> scaled == PRECISION)
  {
    hide Clamp, Round;
    var lo, hi := targetMs as real / factor as real, (targetMs * factor) as real;
    var clamped := Clamp(lo, hi, actualMs as real);
    var q := PRECISION / factor;
    FactorBounds(targetMs, factor);
    ClampBetween(lo, hi, actualMs as real);
    LowerScaled(targetMs, factor, q);
    UpperReal(targetMs, factor);
    RoundScaled(clamped, lo, hi, q * targetMs, PRECISION * factor * targetMs);
    QuotientBetween(Round(clamped * PRECISION as real), targetMs, q, PRECISION * factor);
    if actualMs == targetMs {
      RoundScaled(clamped, clamped, clamped, PRECISION * targetMs, PRECISION * targetMs);
      QuotientBetween(Round(clamped * PRECISION as real), targetMs, PRECISION, PRECISION);
    }
  }

  lemma {:induction false} RoundScaled(x: real, lo: real, hi: real, low: int, high: int)
    requires lo <= x <= hi && low as real <= lo * PRECISION as real && hi * PRECISION as real <= high as real
    ensures low <= Round(x * PRECISION as real) <= high
  {
    hide Round;
    ScaleUp(lo, x, PRECISION as real);
    ScaleUp(x, hi, PRECISION as real);
    RoundBetween(x * PRECISION as real, low, high);
  }

  lemma {:induction false} UpperReal(targetMs: Positive, factor: Positive)
    ensures (targetMs * factor) as real * PRECISION as real == (PRECISION * factor * targetMs) as real
    ensures targetMs as real * PRECISION as real == (PRECISION * targetMs) as real
  {
    assert targetMs * factor * PRECISION == PRECISION * factor * targetMs;
  }

  lemma {:induction false} FactorBounds(targetMs: Positive, factor: Positive)
    ensures targetMs as real / factor as real <= targetMs as real <= (targetMs * factor) as real
  {
    assert targetMs * factor >= targetMs by { assert targetMs * factor == targetMs * (factor - 1) + targetMs; }
  }

  lemma {:induction false} LowerScaled(targetMs: Positive, factor: Positive, q: int)
    requires q == PRECISION / factor
    ensures (q * targetMs) as real <= targetMs as real / factor as real * PRECISION as real
  {
    assert q * factor <= PRECISION;
    var t, f := targetMs as real, factor as real;
    var y := t / f;
    assert y * f == t;
    assert (q * factor) as real == q as real * f;
    assert (q * targetMs) as real == q as real * t;
    Commutes(q as real, f, y);
    ScaleUp(q as real * f, PRECISION as real, y);
  }

  lemma {:induction false} Commutes(a: real, b: real, c: real)
    ensures a * (c * b) == (a * b) * c
  {
  }

  lemma {:induction false} ScaleUp(a: real, b: real, c: real)
    requires a <= b && 0.0 <= c
    ensures a * c <= c * b && a * c <= b * c
  {
  }

  lemma {:induction false} QuotientBetween(x: nat, d: Positive, lo: nat, hi: nat)
    requires lo * d <= x <= hi * d
    ensures lo <= x / d <= hi
  {
    var q := x / d;
    assert x == q * d + x % d;
    if q < lo {
      StepBelow(q, lo, d);
    } else if hi < q {
      StepBelow(hi, q, d);
    }
  }

  lemma {:induction false} MulMono(c: nat, a: nat, b: nat)
    requires a <= b
    ensures c * a <= c * b
  {
    assert c * b == c * a + c * (b - a);
  }

  lemma {:induction false} UpperScaled(current: nat, scaled: nat, bound: nat)
    requires scaled <= bound * PRECISION
    ensures current * scaled / PRECISION <= current * bound
  {
    MulMono(current, scaled, bound * PRECISION);
    Regroup(current, bound, PRECISION);
    QuotientBetween(current * scaled, PRECISION, 0, current * bound);
  }

  lemma {:induction false} Regroup(a: nat, b: nat, c: nat)
    ensures a * (b * c) == a * b * c
  {
  }

  lemma {:induction false} ScaledTarget(current: nat, scaled: nat, q: nat, factor: Positive)
    requires q <= scaled <= PRECISION * factor && q <= PRECISION
    ensures current * q / PRECISION <= current * scaled / PRECISION <= current * factor
    ensures current * q / PRECISION <= current
    ensures scaled == PRECISION ==> current * scaled / PRECISION == current
  {
    MulMono(current, q, scaled);
    DivMono(current * q, current * scaled);
    UpperScaled(current, scaled, factor);
    UpperScaled(current, q, 1);
    DivMod(current * PRECISION, current, 0, PRECISION);
  }

  lemma {:induction false} DivMono(a: nat, b: nat)
    requires a <= b
    ensures a / PRECISION <= b / PRECISION
  {
  }

  /** One retarget changes the target by at most the factor, up to the rounding of its reciprocal, and not at all on
      time. */
  lemma {:induction false} RetargetIsBounded(currentTarget: nat, actualMs: int, targetMs: Positive, factor: Positive)
    requires 1 <= currentTarget <= MAX_TARGET
    ensures var target := RetargetDifficulty(currentTarget, actualMs, targetMs, factor);
            && currentTarget * (PRECISION / factor) / PRECISION <= target <= currentTarget * factor
            && (actualMs == targetMs ==> target == currentTarget)
  {
    hide Clamp, Round;
    ScaledBounds(actualMs, targetMs, factor);
    var clamped := Clamp(targetMs as real / factor as real, (targetMs * factor) as real, actualMs as real);
    var scaled := Round(clamped * PRECISION as real) / targetMs;
    ScaledTarget(currentTarget, scaled, PRECISION / factor, factor);
    MulPositive(currentTarget, factor);
  }

  /**
   * Within the clamp the target is scaled by actual over intended time span, rounded down by less than one plus a
   * millionth of the old target.
   */
  lemma {:induction false} RetargetScales(currentTarget: nat, actualMs: int, targetMs: Positive, factor: Positive)
    requires 1 <= currentTarget <= MAX_TARGET
    requires targetMs <= actualMs * factor && actualMs <= targetMs * factor
    ensures var target := RetargetDifficulty(currentTarget, actualMs, targetMs, factor);
            && (target * targetMs <= currentTarget * actualMs || target == 1)
            && (currentTarget * actualMs * 1_000_000 < (target + 1) * targetMs * 1_000_000 + currentTarget * targetMs
                || target == MAX_TARGET)
  {
    hide Round;
    InsideClamp(actualMs, targetMs, factor);
    RoundExact(actualMs * PRECISION);
    assert actualMs as real * PRECISION as real == (actualMs * PRECISION) as real;
    var scaled := actualMs * PRECISION / targetMs;
    hide Clamp;
    var x := currentTarget * scaled / PRECISION;
    NotBelow(actualMs, factor, targetMs);
    ScaledExactly(currentTarget, actualMs, targetMs, scaled, x);
    if x > MAX_TARGET {
      StepBelow(MAX_TARGET, x, targetMs);
    } else if x < 1 {
      StepBelow(x, 1, targetMs);
      assert (x + 1) * targetMs * 1_000_000 <= (1 + 1) * targetMs * 1_000_000;
    }
  }

  lemma {:induction false} NotBelow(a: int, factor: Positive, least: Positive)
    requires least <= a * factor
    ensures 0 < a
  {
    MulSign(-a, factor);
    assert -a * factor == -(a * factor);
  }

  lemma {:induction false} MulSign(a: int, b: Positive)
    ensures 0 <= a ==> 0 <= a * b
  {
  }

  lemma {:induction false} CancelReal(a: real, b: real, f: real)
    requires a * f <= b * f && 0.0 < f
    ensures a <= b
  {
    assert (b - a) * f == b * f - a * f;
  }

  lemma {:induction false} InsideClamp(actualMs: int, targetMs: Positive, factor: Positive)
    requires targetMs <= actualMs * factor && actualMs <= targetMs * factor
    ensures Clamp(targetMs as real / factor as real, (targetMs * factor) as real, actualMs as real) == actualMs as real
  {
    LowerEnd(actualMs, targetMs, factor);
  }

  lemma {:induction false} LowerEnd(actualMs: int, targetMs: Positive, factor: Positive)
    ensures targetMs <= actualMs * factor ==> targetMs as real / factor as real <= actualMs as real
    ensures actualMs * factor <= targetMs ==> actualMs as real <= targetMs as real / factor as real
  {
    var lo, a, f := targetMs as real / factor as real, actualMs as real, factor as real;
    assert lo * f == targetMs as real && (actualMs * factor) as real == a * f;
    if targetMs <= actualMs * factor {
      CancelReal(lo, a, f);
    }
    if actualMs * factor <= targetMs {
      CancelReal(a, lo, f);
    }
  }

  lemma {:induction false} RoundExact(n: int)
    ensures Round(n as real) == n
  {
  }

  lemma {:induction false} ScaledExactly(c: nat, a: nat, t: Positive, scaled: nat, x: nat)
    requires 0 < c && scaled == a * PRECISION / t && x == c * scaled / PRECISION
    ensures x * t <= c * a && c * a * PRECISION < (x + 1) * t * PRECISION + c * t
  {
    QuotientIs(a * PRECISION, t, scaled);
    QuotientIs(c * scaled, PRECISION, x);
    ScaledDown(c, a, t, scaled, x, PRECISION);
    ScaledUp(c, a, t, scaled, x, PRECISION);
  }

  lemma {:induction false} ScaledDown(c: nat, a: nat, t: nat, scaled: nat, x: nat, p: Positive)
    requires scaled * t <= a * p && x * p <= c * scaled
    ensures x * t <= c * a
  {
    MulMono(t, x * p, c * scaled);
    MulMono(c, scaled * t, a * p);
    Products(t, x, p, c, scaled, a);
    CancelNat(x * t, c * a, p);
  }

  lemma {:induction false} Products(t: nat, x: nat, p: nat, c: nat, scaled: nat, a: nat)
    ensures t * (x * p) == x * t * p && t * (c * scaled) == c * (scaled * t) && c * (a * p) == c * a * p
  {
    assert t * (x * p) == (t * x) * p;
    assert t * (c * scaled) == c * (t * scaled);
  }

  lemma {:induction false} CancelNat(a: nat, b: nat, p: Positive)
    requires a * p <= b * p
    ensures a <= b
  {
    if b < a {
      StepBelow(b, a, p);
    }
  }

  lemma {:induction false} ScaledUp(c: nat, a: nat, t: nat, scaled: nat, x: nat, p: nat)
    requires 0 < c && a * p < (scaled + 1) * t && c * scaled < (x + 1) * p
    ensures c * a * p < (x + 1) * t * p + c * t
  {
    MulMono(c, a * p + 1, (scaled + 1) * t);
    assert c * (a * p + 1) == c * (a * p) + c;
    assert (scaled + 1) * t == scaled * t + t;
    assert c * (scaled * t + t) == c * (scaled * t) + c * t;
    MulMono(t, c * scaled, (x + 1) * p);
    Products(t, x + 1, p, c, scaled, a);
  }

  lemma {:induction false} QuotientIs(n: nat, d: Positive, q: nat)
    requires q == n / d
    ensures q * d <= n < (q + 1) * d
  {
    assert n == q * d + n % d;
    assert (q + 1) * d == q * d + d;
  }

  /** Outside the clamp only the side counts. */
  lemma {:induction false} RetargetStops(currentTarget: nat, a: int, b: int, targetMs: Positive, factor: Positive)
    requires (a * factor <= targetMs && b * factor <= targetMs) || (targetMs * factor <= a && targetMs * factor <= b)
    ensures RetargetDifficulty(currentTarget, a, targetMs, factor)
         == RetargetDifficulty(currentTarget, b, targetMs, factor)
  {
    hide Round;
    FactorBounds(targetMs, factor);
    LowerEnd(a, targetMs, factor);
    LowerEnd(b, targetMs, factor);
  }

  lemma {:induction false} RoundMono(x: real, y: real)
    requires x <= y
    ensures Round(x) <= Round(y)
  {
  }

  lemma {:induction false} ClampMono(lo: real, hi: real, x: real, y: real)
    requires x <= y
    ensures Clamp(lo, hi, x) <= Clamp(lo, hi, y)
  {
  }

  lemma {:induction false} QuotientMono(a: int, b: int, d: Positive)
    requires 0 <= a <= b
    ensures 0 <= a / d <= b / d
  {
    var qa, qb := a / d, b / d;
    assert a == qa * d + a % d && b == qb * d + b % d;
    if qb < qa {
      StepBelow(qb, qa, d);
    }
  }

  /** Longer periods never give harder targets. */
  lemma {:induction false} RetargetIsMonotone(
    currentTarget: nat, sooner: int, later: int, targetMs: Positive, factor: Positive)
    requires sooner <= later
    ensures RetargetDifficulty(currentTarget, sooner, targetMs, factor) <= RetargetDifficulty(currentTarget, later,
      targetMs, factor)
  {
    hide Clamp, Round;
    var lo, hi := targetMs as real / factor as real, (targetMs * factor) as real;
    var x, y := Clamp(lo, hi, sooner as real), Clamp(lo, hi, later as real);
    ClampMono(lo, hi, sooner as real, later as real);
    ScaleUp(x, y, PRECISION as real);
    RoundMono(x * PRECISION as real, y * PRECISION as real);
    ScaledBounds(sooner, targetMs, factor);
    RoundNotNegative(sooner, targetMs, factor);
    QuotientMono(Round(x * PRECISION as real), Round(y * PRECISION as real), targetMs);
    MulMono(currentTarget, Round(x * PRECISION as real) / targetMs, Round(y * PRECISION as real) / targetMs);
    DivMono(currentTarget * (Round(x * PRECISION as real) / targetMs),
      currentTarget * (Round(y * PRECISION as real) / targetMs));
  }

  lemma {:induction false} RoundNotNegative(actualMs: int, targetMs: Positive, factor: Positive)
    ensures 0 <= Round(Clamp(targetMs as real / factor as real, (targetMs * factor) as real,
      actualMs as real) * PRECISION as real)
  {
    hide Clamp, Round;
    var lo, hi := targetMs as real / factor as real, (targetMs * factor) as real;
    var x := Clamp(lo, hi, actualMs as real);
    FactorBounds(targetMs, factor);
    ClampBetween(lo, hi, actualMs as real);
    assert 0.0 <= lo;
    ScaleUp(0.0, x, PRECISION as real);
    RoundMono(0.0, x * PRECISION as real);
    assert Round(0.0) == 0 by { RoundZero(); }
  }

  lemma {:induction false} RoundZero()
    ensures Round(0.0) == 0
  {
  }

  /** Where the period that ends before `nextHeight` begins. */
  function RetargetStart(nextHeight: int, interval: nat): nat {
    if nextHeight - interval - 1 < 0 then 0 else nextHeight - interval - 1
  }

  function RetargetGaps(nextHeight: int, interval: nat): int {
    nextHeight - 1 - RetargetStart(nextHeight, interval)
  }

  predicate RetargetsAt(e: Engine, height: int, interval: nat) {
    e.Retargets() && 0 < interval && height % interval == 0
  }

  /** The target after `parent` at a retarget height; `None` where the source throws because
      the period start does not precede the parent. */
  function NextTarget(parent: Header, periodStart: Header, rules: RetargetRules): Option<nat> {
    var gaps := parent.height - periodStart.height;
    if gaps <= 0 then None
    else
      MulPositive(gaps, rules.targetBlockTimeMs);
      Some(RetargetDifficulty(parent.difficultyTarget, parent.timestamp - periodStart.timestamp,
                              gaps * rules.targetBlockTimeMs, rules.maxAdjustmentFactor))
  }

  lemma {:induction false} MulPositive(a: Positive, b: Positive)
    ensures 0 < a * b
  {
  }

  // ---------------------------------------------------------------- header rules

  predicate VerifySeal(c: Crypto, e: Engine, header: Header, hash: Hash, recentSigners: seq<Key>) {
    match e
    case Pow => hash <= header.difficultyTarget
    case Poa(authorities) =>
      && header.signer.Some? && header.signer.value in authorities
      && header.signature.Some?
      && c.verifySeal(header.signer.value, c.blockHash(header.(signature := None)), header.signature.value)
      && header.signer.value !in FirstSigners(recentSigners, e.RecentSignerWindow())
  }

  function FirstSigners(signers: seq<Key>, n: nat): seq<Key> {
    if n <= |signers| then signers[..n] else signers
  }

  datatype Verdict =
    | Valid
    | HashMismatch | WrongTarget | BadSeal | WrongParent | WrongHeight
    | NotAfterParent | FutureTimestamp | CheckpointConflict

  datatype HeaderContext = HeaderContext(
    parent: Header, parentHash: Hash, expectedTarget: nat, now: int, maxFutureDriftMs: int,
    checkpoint: Option<Hash>, recentSigners: seq<Key>)

  /** Seal, target and hash are right, and the header continues its parent in place and in time. */
  predicate Continues(c: Crypto, e: Engine, header: Header, hash: Hash, ctx: HeaderContext) {
    && c.blockHash(header) == hash && header.difficultyTarget == ctx.expectedTarget
    && VerifySeal(c, e, header, hash, ctx.recentSigners)
    && header.previousHash == ctx.parentHash && header.height == ctx.parent.height + 1
    && ctx.parent.timestamp < header.timestamp <= ctx.now + ctx.maxFutureDriftMs
  }

  /** The rules that can be checked from headers alone, in the order the source applies them: the first that fails is
      named. */
  function ValidateHeader(c: Crypto, e: Engine, header: Header, hash: Hash, ctx: HeaderContext): (v: Verdict)
    ensures v == Valid <==>
      Continues(c, e, header, hash, ctx) && (ctx.checkpoint.Some? ==> hash == ctx.checkpoint.value)
    ensures v == CheckpointConflict <==>
      Continues(c, e, header, hash, ctx) && ctx.checkpoint.Some? && hash != ctx.checkpoint.value
    ensures v == FutureTimestamp ==>
      Continues(c, e, header, hash, ctx.(now := header.timestamp - ctx.maxFutureDriftMs))
      && ctx.now + ctx.maxFutureDriftMs < header.timestamp
  {
    if c.blockHash(header) != hash then HashMismatch
    else if header.difficultyTarget != ctx.expectedTarget then WrongTarget
    else if !VerifySeal(c, e, header, hash, ctx.recentSigners) then BadSeal
    else if header.previousHash != ctx.parentHash then WrongParent
    else if header.height != ctx.parent.height + 1 then WrongHeight
    else if header.timestamp <= ctx.parent.timestamp then NotAfterParent
    else if header.timestamp > ctx.now + ctx.maxFutureDriftMs then FutureTimestamp
    else if ctx.checkpoint.Some? && ctx.checkpoint.value != hash then CheckpointConflict
    else Valid
  }
}

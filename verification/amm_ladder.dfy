/**
 Sizing of liquidity, mints and wraps, and the ladder of rungs (`lp_raw_for_usd`, `plan_step`,
 `plan_rungs`, `build_plan`). Prices are exact reals; raw amounts are integers.
 */
module AmmLadder {
  import opened Wrappers
  import opened AmmSwap
  import opened AmmSearch

  // ---------------------------------------------------------------- liquidity of a given value

  datatype LpError = BadPrices | NoValue | RoundedToZero | NoAmount

  datatype Legs = Legs(a0: int, a1: int)

  /** Truncation toward zero, as `ROUND_DOWN` does. */
  function Truncate(x: real): int { if x >= 0.0 then x.Floor else -((-x).Floor) }

  /** An amount of whole tokens in raw units. */
  function RawOf(whole: real, d: nat): int { Truncate(Times(whole, Scale(d))) }

  function Times(x: real, y: real): real { x * y }

  /** The pool's own price, or the oracles' if the pool is empty. */
  function PoolPrice(r0: int, r1: int, d0: nat, d1: nat, px0: real, px1: real): real {
    if r0 > 0 && r1 > 0 then Price(r0, r1, d0, d1) else if px1 == 0.0 then 0.0 else px0 / px1
  }

  /** The value of one whole token 0 together with its share of token 1. */
  function Denom(r0: int, r1: int, d0: nat, d1: nat, px0: real, px1: real): real {
    px0 + PoolPrice(r0, r1, d0, d1, px0, px1) * px1
  }

  function Ratio(usd: real, denom: real): real
    requires denom > 0.0
  {
    usd / denom
  }

  /** `lp_raw_for_usd` of a positive value. */
  function LpRawForUsd(r0: int, r1: int, d0: nat, d1: nat, usd: real, px0: real, px1: real): Result<Legs, LpError>
    requires usd > 0.0
  {
    var live := r0 > 0 && r1 > 0;
    if !live && (px0 <= 0.0 || px1 <= 0.0) then Err(BadPrices)
    else if Denom(r0, r1, d0, d1, px0, px1) <= 0.0 then Err(NoValue)
    else
      var whole := Ratio(usd, Denom(r0, r1, d0, d1, px0, px1));
      var a0 := RawOf(whole, d0);
      var a1 := if live then FloorDiv(a0 * r1, r0) else RawOf(Times(whole, PoolPrice(r0, r1, d0, d1, px0, px1)), d1);
      if a0 <= 0 || a1 <= 0 then Err(RoundedToZero) else Ok(Legs(a0, a1))
  }

  /** Python's floor division by a positive number. */
  function FloorDiv(n: int, d: int): (q: int)
    requires d > 0
    ensures q * d <= n < (q + 1) * d
  {
    FloorBounds(n, d);
    n / d
  }

  lemma FloorBounds(n: int, d: int)
    requires d > 0
    ensures (n / d) * d <= n < (n / d + 1) * d
  {
    assert n == (n / d) * d + n % d;
    assert (n / d + 1) * d == (n / d) * d + d;
  }

  /** The value of two amounts at the given prices. */
  function Value(a0: int, a1: int, d0: nat, d1: nat, px0: real, px1: real): real {
    Human(a0, d0) * px0 + Human(a1, d1) * px1
  }

  lemma TruncateBounds(x: real)
    requires x >= 0.0
    ensures Truncate(x) as real <= x < (Truncate(x) + 1) as real
  {
  }

  lemma ScaleBack(raw: real, whole: real, p: real)
    requires p > 0.0 && raw <= whole * p < raw + 1.0
    ensures raw / p <= whole < (raw + 1.0) / p
  {
    DivCompare(raw, p, whole);
    NotBelow(raw + 1.0, p, whole);
  }

  lemma Scaled(whole: real, p: real)
    requires whole >= 0.0 && p > 0.0
    ensures whole * p >= 0.0
  {
  }

  /** Truncating an amount in raw units loses less than one unit. */
  lemma RawBounds(whole: real, d: nat)
    requires whole >= 0.0
    ensures var raw := RawOf(whole, d);
            Human(raw, d) <= whole && whole < Human(raw, d) + 1.0 / Scale(d)
  {
    hide Truncate, Scale;
    Scaled(whole, Scale(d));
    TruncateBounds(Times(whole, Scale(d)));
    ScaleBack(RawOf(whole, d) as real, whole, Scale(d));
    SumOverSame(RawOf(whole, d) as real, 1.0, Scale(d));
  }

  lemma SumOverSame(a: real, b: real, p: real)
    requires p > 0.0
    ensures a / p + b / p == (a + b) / p
  {
  }

  lemma NotBelow(n: real, d: real, x: real)
    requires d > 0.0 && x * d < n
    ensures x < n / d
  {
    DivCompare(n, d, x);
  }

  lemma MulShare(x: real, y: real, e: real, z: real)
    requires x <= y < x + e && z > 0.0
    ensures x * z <= y * z < x * z + e * z
  {
    MulReal(x, y, z);
    MulRealLess(y, x + e, z);
    assert (x + e) * z == x * z + e * z;
  }

  /** The pro-rata share of a live pool, in whole tokens. */
  lemma ShareBounds(a0: int, r0: int, r1: int, d0: nat, d1: nat)
    requires a0 >= 0 && r0 > 0 && r1 > 0
    ensures var a1, share := FloorDiv(a0 * r1, r0), Human(a0, d0) * Price(r0, r1, d0, d1);
            Human(a1, d1) <= share < Human(a1, d1) + 1.0 / Scale(d1)
  {
    hide Scale, FloorDiv, Price;
    var a1 := FloorDiv(a0 * r1, r0);
    var share := Human(a0, d0) * Price(r0, r1, d0, d1);
    RawShare(a0, r0, r1, d0, d1);
    ScaleBack(a1 as real, share, Scale(d1));
    SumOverSame(a1 as real, 1.0, Scale(d1));
  }

  lemma RawShareIs(a0: int, r0: int, r1: int, d0: nat, d1: nat)
    requires r0 > 0
    ensures (Human(a0, d0) * Price(r0, r1, d0, d1)) * Scale(d1) == (a0 * r1) as real / r0 as real
  {
    hide Scale;
    ShareInRaw(a0 as real, r0 as real, r1 as real, Scale(d0), Scale(d1));
    RealProducts(a0, r1);
  }

  lemma RawShare(a0: int, r0: int, r1: int, d0: nat, d1: nat)
    requires r0 > 0
    ensures var a1, raw := FloorDiv(a0 * r1, r0), (Human(a0, d0) * Price(r0, r1, d0, d1)) * Scale(d1);
            a1 as real <= raw < a1 as real + 1.0
  {
    hide Scale, FloorDiv, Human, Price;
    RawShareIs(a0, r0, r1, d0, d1);
    FloorReal(a0 * r1, r0);
  }

  lemma FloorReal(n: int, d: int)
    requires d > 0
    ensures var q := FloorDiv(n, d) as real; q <= n as real / d as real < q + 1.0
  {
    var q := FloorDiv(n, d);
    RealProducts(q, d);
    RealProducts(q + 1, d);
    NotBelowOrEqual(n as real, d as real, q as real);
    DivCompare(n as real, d as real, q as real + 1.0);
  }

  lemma RealProducts(a: int, b: int)
    ensures (a * b) as real == a as real * b as real
  {
  }

  lemma NotBelowOrEqual(n: real, d: real, x: real)
    requires d > 0.0 && x * d <= n
    ensures x <= n / d
  {
    DivCompare(n, d, x);
  }

  lemma ShareInRaw(a0: real, r0: real, r1: real, p0: real, p1: real)
    requires r0 > 0.0 && p0 > 0.0 && p1 > 0.0
    ensures (a0 / p0) * ((r1 / p1) / (r0 / p0)) * p1 == a0 * r1 / r0
  {
    var h0, h1 := r0 / p0, r1 / p1;
    assert h0 * p0 == r0 && h1 * p1 == r1;
    DivCompare(r0, p0, 0.0);
    var x := a0 / p0;
    assert x * p0 == a0;
    var q := h1 / h0;
    assert q * h0 == h1;
    var lhs := x * q * p1;
    assert lhs * r0 == (x * p0) * ((q * h0) * p1) by { Regroup(x, q, p1, h0, p0); }
    assert lhs * r0 == a0 * r1;
    var rhs := a0 * r1 / r0;
    assert rhs * r0 == a0 * r1;
    SameFactor(lhs, rhs, r0);
  }

  lemma Regroup(x: real, q: real, p1: real, h0: real, p0: real)
    ensures x * q * p1 * (h0 * p0) == (x * p0) * ((q * h0) * p1)
  {
  }

  lemma SameFactor(x: real, y: real, z: real)
    requires z > 0.0 && x * z == y * z
    ensures x == y
  {
    if x < y { MulRealLess(x, y, z); }
    if y < x { MulRealLess(y, x, z); }
  }

  /** Sizing against a live pool: token 1 follows the truncated amount of token 0. */
  lemma SizedLive(x0: real, x1: real, h: real, price: real, px0: real, px1: real, e0: real, e1: real)
    requires px0 >= 0.0 && px1 > 0.0 && px0 + price * px1 > 0.0
    requires x0 <= h < x0 + e0 && x1 <= x0 * price < x1 + e1
    ensures var denom, value := px0 + price * px1, x0 * px0 + x1 * px1;
            value <= h * denom < value + e0 * denom + e1 * px1
  {
    var denom := px0 + price * px1;
    MulShare(x0, h, e0, denom);
    MulShare(x1, x0 * price, e1, px1);
    assert x0 * denom == x0 * px0 + x0 * price * px1;
  }

  /** Sizing an empty pool: both amounts are truncated on their own. */
  lemma SizedEmpty(x0: real, x1: real, h: real, price: real, px0: real, px1: real, e0: real, e1: real)
    requires px0 > 0.0 && px1 > 0.0 && price > 0.0 && e0 >= 0.0
    requires x0 <= h < x0 + e0 && x1 <= Times(h, price) < x1 + e1
    ensures var denom, value := px0 + price * px1, x0 * px0 + x1 * px1;
            value <= h * denom < value + e0 * denom + e1 * px1
  {
    var denom := px0 + price * px1;
    MulShare(x0, h, e0, px0);
    MulShare(x1, h * price, e1, px1);
    assert h * denom == h * px0 + h * price * px1;
    MulReal(0.0, price, px1);
    MulReal(0.0, price * px1, e0);
    assert e0 * denom == e0 * px0 + e0 * (price * px1);
  }

  lemma Restore(usd: real, denom: real)
    requires denom > 0.0 && usd > 0.0
    ensures Ratio(usd, denom) * denom == usd && Ratio(usd, denom) > 0.0
  {
    DivCompare(usd, denom, 0.0);
  }

  lemma ExactInverse(e: real, p: real)
    requires p > 0.0
    ensures e / p == (1.0 / p) * e
  {
  }

  /** How far the value of the legs may fall short: one raw unit of token 0 with its share, and one of token 1. */
  function Shortfall(r0: int, r1: int, d0: nat, d1: nat, px0: real, px1: real): real {
    Denom(r0, r1, d0, d1, px0, px1) / Scale(d0) + px1 / Scale(d1)
  }

  lemma ShortfallIs(r0: int, r1: int, d0: nat, d1: nat, px0: real, px1: real)
    ensures Shortfall(r0, r1, d0, d1, px0, px1)
            == (1.0 / Scale(d0)) * Denom(r0, r1, d0, d1, px0, px1) + (1.0 / Scale(d1)) * px1
  {
    hide Scale, Denom;
    ExactInverse(Denom(r0, r1, d0, d1, px0, px1), Scale(d0));
    ExactInverse(px1, Scale(d1));
  }

  lemma LegsLive(r0: int, r1: int, d0: nat, d1: nat, usd: real, px0: real, px1: real)
    requires usd > 0.0 && px0 > 0.0 && px1 > 0.0 && r0 > 0 && r1 > 0
    requires LpRawForUsd(r0, r1, d0, d1, usd, px0, px1).Ok?
    ensures var legs := LpRawForUsd(r0, r1, d0, d1, usd, px0, px1).value;
            Value(legs.a0, legs.a1, d0, d1, px0, px1) <= usd
            < Value(legs.a0, legs.a1, d0, d1, px0, px1) + Shortfall(r0, r1, d0, d1, px0, px1)
  {
    hide Scale, FloorDiv, Human, Price, RawOf, Ratio, Shortfall;
    var denom := Denom(r0, r1, d0, d1, px0, px1);
    var legs := LpRawForUsd(r0, r1, d0, d1, usd, px0, px1).value;
    var whole := Ratio(usd, denom);
    Restore(usd, denom);
    RawBounds(whole, d0);
    ShortfallIs(r0, r1, d0, d1, px0, px1);
    ShareBounds(legs.a0, r0, r1, d0, d1);
    SizedLive(Human(legs.a0, d0), Human(legs.a1, d1), whole, Price(r0, r1, d0, d1), px0, px1, 1.0 / Scale(d0),
              1.0 / Scale(d1));
  }

  lemma LegsEmpty(r0: int, r1: int, d0: nat, d1: nat, usd: real, px0: real, px1: real)
    requires usd > 0.0 && px0 > 0.0 && px1 > 0.0 && !(r0 > 0 && r1 > 0)
    requires LpRawForUsd(r0, r1, d0, d1, usd, px0, px1).Ok?
    ensures var legs := LpRawForUsd(r0, r1, d0, d1, usd, px0, px1).value;
            Value(legs.a0, legs.a1, d0, d1, px0, px1) <= usd
            < Value(legs.a0, legs.a1, d0, d1, px0, px1) + Shortfall(r0, r1, d0, d1, px0, px1)
  {
    hide Scale, Human, RawOf, Ratio, Shortfall, PoolPrice;
    var price := PoolPrice(r0, r1, d0, d1, px0, px1);
    var denom := Denom(r0, r1, d0, d1, px0, px1);
    var legs := LpRawForUsd(r0, r1, d0, d1, usd, px0, px1).value;
    var whole := Ratio(usd, denom);
    OraclePrice(r0, r1, d0, d1, px0, px1);
    Restore(usd, denom);
    RawBounds(whole, d0);
    Scaled(whole, price);
    RawBounds(Times(whole, price), d1);
    ShortfallIs(r0, r1, d0, d1, px0, px1);
    InversePositive(Scale(d0));
    SizedEmpty(Human(legs.a0, d0), Human(legs.a1, d1), whole, price, px0, px1, 1.0 / Scale(d0), 1.0 / Scale(d1));
  }

  lemma InversePositive(p: real)
    requires p > 0.0
    ensures 1.0 / p > 0.0
  {
    DivCompare(1.0, p, 0.0);
  }

  lemma OraclePrice(r0: int, r1: int, d0: nat, d1: nat, px0: real, px1: real)
    requires px0 > 0.0 && px1 > 0.0 && !(r0 > 0 && r1 > 0)
    ensures PoolPrice(r0, r1, d0, d1, px0, px1) > 0.0
  {
    DivCompare(px0, px1, 0.0);
  }

  /**
   The value of the two legs never exceeds the requested amount, and falls short of it by less than
   `Shortfall`.
   */
  lemma LegsWorth(r0: int, r1: int, d0: nat, d1: nat, usd: real, px0: real, px1: real)
    requires usd > 0.0 && px0 > 0.0 && px1 > 0.0
    requires LpRawForUsd(r0, r1, d0, d1, usd, px0, px1).Ok?
    ensures var legs := LpRawForUsd(r0, r1, d0, d1, usd, px0, px1).value;
            Value(legs.a0, legs.a1, d0, d1, px0, px1) <= usd
            < Value(legs.a0, legs.a1, d0, d1, px0, px1) + Shortfall(r0, r1, d0, d1, px0, px1)
  {
    hide LpRawForUsd, Value, Shortfall;
    if r0 > 0 && r1 > 0 {
      LegsLive(r0, r1, d0, d1, usd, px0, px1);
    } else {
      LegsEmpty(r0, r1, d0, d1, usd, px0, px1);
    }
  }

  lemma RatioAfter(r0: real, r1: real, a0: real, a1: real, x: real)
    requires r0 > 0.0 && a0 > 0.0 && x * r0 == r1 && a1 <= x * a0 < a1 + 1.0
    ensures (r1 + a1) / (r0 + a0) <= x < (r1 + a1) / (r0 + a0) + 1.0 / (r0 + a0)
  {
    var grown := r0 + a0;
    assert x * grown == r1 + x * a0;
    DivCompare(r1 + a1, grown, x);
    NotBelow(r1 + a1 + 1.0, grown, x);
    SumOverSame(r1 + a1, 1.0, grown);
  }

  lemma CancelReal(x: real, y: real, z: real)
    requires z > 0.0
    ensures x * z <= y * z ==> x <= y
    ensures x * z < y * z ==> x < y
  {
    if x > y { MulRealLess(y, x, z); }
  }

  function RawRatio(r0: int, r1: int): real
    requires r0 > 0
  {
    r1 as real / r0 as real
  }

  lemma ShareOfRatio(r0: int, r1: int, a0: int)
    requires r0 > 0
    ensures var a1, x := FloorDiv(a0 * r1, r0) as real, RawRatio(r0, r1);
            x * r0 as real == r1 as real && a1 <= x * a0 as real < a1 + 1.0
  {
    var a1, x := FloorDiv(a0 * r1, r0), RawRatio(r0, r1);
    RealProducts(a1, r0);
    RealProducts(a1 + 1, r0);
    RealProducts(a0, r1);
    assert (x * a0 as real) * r0 as real == (x * r0 as real) * a0 as real;
    CancelReal(a1 as real, x * a0 as real, r0 as real);
    CancelReal(x * a0 as real, (a1 + 1) as real, r0 as real);
  }

  /** Adding the legs to a live pool never raises its price, and lowers the raw ratio by less than 1 / (r0 + a0). */
  lemma AddKeepsPrice(r0: int, r1: int, a0: int)
    requires r0 > 0 && r1 > 0 && a0 > 0
    ensures var after := RawRatio(r0 + a0, r1 + FloorDiv(a0 * r1, r0));
            after <= RawRatio(r0, r1) < after + 1.0 / (r0 + a0) as real
  {
    hide FloorDiv;
    ShareOfRatio(r0, r1, a0);
    RatioAfter(r0 as real, r1 as real, a0 as real, FloorDiv(a0 * r1, r0) as real, RawRatio(r0, r1));
  }

  // ---------------------------------------------------------------- buffers and wraps

  function ApplyBuffer(amount: int, bufferBps: int): int {
    if amount <= 0 then 0 else amount + CeilDiv(amount * bufferBps, 10000)
  }

  function MintNeed(have: int, need: int): (m: int)
    ensures m >= 0
  {
    if need > have then need - have else 0
  }

  /** A buffered mint covers its need unless the buffer is negative enough to matter. */
  lemma BufferCovers(amount: int, bufferBps: int)
    ensures ApplyBuffer(amount, bufferBps) >= amount <==> amount <= 0 || amount * bufferBps > -10000
    ensures bufferBps >= 0 ==> ApplyBuffer(amount, bufferBps) >= amount
  {
    if amount > 0 {
      CeilLeast(amount * bufferBps, 10000, -1);
      if bufferBps >= 0 { MulLe(0, bufferBps, amount); }
      assert amount * bufferBps == bufferBps * amount;
    }
  }

  datatype WrapError = BadFee

  function WrapNativeForCw20(out: int, feeBps: int): Result<int, WrapError> {
    if out <= 0 then Ok(0)
    else if feeBps >= 10000 || feeBps < 0 then Err(BadFee)
    else Ok(CeilDiv(out * 10000, 10000 - feeBps))
  }

  /** What a wrap of native coins mints after its fee. */
  function MintedByWrap(gross: int, feeBps: int): int
    requires feeBps < 10000
  {
    FloorDiv(gross * (10000 - feeBps), 10000)
  }

  /** The wrap is the least amount that mints enough. */
  lemma WrapIsLeast(out: int, feeBps: int, gross: int)
    requires out > 0 && WrapNativeForCw20(out, feeBps).Ok?
    ensures MintedByWrap(gross, feeBps) >= out <==> gross >= WrapNativeForCw20(out, feeBps).value
  {
    var keep := 10000 - feeBps;
    CeilLeast(out * 10000, keep, gross);
    var minted := FloorDiv(gross * keep, 10000);
    if minted >= out {
      MulLe(out, minted, 10000);
    } else {
      MulLe(minted + 1, out, 10000);
    }
  }

  // ---------------------------------------------------------------- one rung

  datatype Config = Config(
    px0: real, px1: real, tol: real, feeBps: int, bufferBps: int, wrapBps: int, skipSwap: bool,
    force: Option<real>, d0: nat, d1: nat)

  /** Pool reserves and the operator's balances. */
  datatype State = State(r0: int, r1: int, bal0: int, bal1: int)

  datatype Step = Step(swap: Offer, post0: int, post1: int, add: real, lp0: int, lp1: int,
                       mint0: int, mint1: int, wrap0: int, wrap1: int)

  datatype PlanError = BadOracle | NoRatio | NoOffer(search: SearchError) | NoLegs(lp: LpError) | NoWrap | BadRungs

  const MAX_FRACTION := 0.35

  predicate Live(s: State) { s.r0 > 0 && s.r1 > 0 }

  function Tvl(r0: int, r1: int, c: Config): real { Value(r0, r1, c.d0, c.d1, c.px0, c.px1) }

  function PostTvl(r0: int, r1: int, c: Config): real {
    if r0 > 0 && r1 > 0 then Tvl(r0, r1, c) else 0.0
  }

  function AddUsd(c: Config, target: real, post0: int, post1: int): real {
    var wanted := match c.force case Some(usd) => usd case None => target - PostTvl(post0, post1, c);
    if wanted < 0.0 then 0.0 else wanted
  }

  function Need0(st: Step): int {
    if st.swap.Idle? then st.lp0
    else if st.swap.first then st.lp0 + st.swap.offer
    else MintNeed(st.swap.ret, st.lp0)
  }

  function Need1(st: Step): int {
    if st.swap.Idle? then st.lp1
    else if st.swap.first then MintNeed(st.swap.ret, st.lp1)
    else st.lp1 + st.swap.offer
  }

  ghost predicate SwapFor(c: Config, s: State, swap: Offer) {
    if c.skipSwap || !Live(s) then swap.Idle?
    else c.px1 > 0.0 && Answers(s.r0, s.r1, c.d0, c.d1, c.px0 / c.px1, c.feeBps, c.tol, MAX_FRACTION, Ok(swap))
  }

  ghost predicate LegsFor(c: Config, st: Step) {
    if st.add > 0.0
    then LpRawForUsd(st.post0, st.post1, c.d0, c.d1, st.add, c.px0, c.px1) == Ok(Legs(st.lp0, st.lp1))
    else st.lp0 == 0 && st.lp1 == 0
  }

  /** The plan of one rung for the reserves and balances at hand, but for its wraps. */
  ghost predicate UnwrappedFor(c: Config, target: real, s: State, st: Step) {
    && c.px0 > 0.0 && c.px1 > 0.0 && (c.skipSwap ==> Live(s))
    && SwapFor(c, s, st.swap)
    && (st.post0, st.post1) == PostOf(s, st.swap)
    && st.add == AddUsd(c, target, st.post0, st.post1)
    && LegsFor(c, st)
    && st.mint0 == ApplyBuffer(MintNeed(s.bal0, Need0(st)), c.bufferBps)
    && st.mint1 == ApplyBuffer(MintNeed(s.bal1, Need1(st)), c.bufferBps)
  }

  ghost predicate StepFor(c: Config, target: real, s: State, st: Step) {
    && UnwrappedFor(c, target, s, st)
    && WrapNativeForCw20(st.mint0, c.wrapBps) == Ok(st.wrap0)
    && WrapNativeForCw20(st.mint1, c.wrapBps) == Ok(st.wrap1)
  }

  /** The reserves that the liquidity is sized for. */
  function PostOf(s: State, swap: Offer): (int, int) {
    if swap.Sell? then (swap.new0, swap.new1) else (s.r0, s.r1)
  }

  /** The inputs on which a rung is refused, in the order in which they are found. */
  ghost predicate RefusesStep(c: Config, target: real, s: State, e: PlanError) {
    if c.skipSwap && !Live(s) then e == NoRatio
    else if c.px0 <= 0.0 || c.px1 <= 0.0 then e == BadOracle
    else match e
      case NoOffer(search) =>
        !c.skipSwap && Live(s) && Answers(s.r0, s.r1, c.d0, c.d1, c.px0 / c.px1, c.feeBps, c.tol, MAX_FRACTION,
                                          Err(search))
      case NoLegs(lp) => exists swap :: SwapFor(c, s, swap) && RefusesLegs(c, target, PostOf(s, swap), lp)
      case NoWrap =>
        && (c.wrapBps < 0 || c.wrapBps >= 10000)
        && exists st :: UnwrappedFor(c, target, s, st) && (st.mint0 > 0 || st.mint1 > 0)
      case _ => false
  }

  ghost predicate RefusesLegs(c: Config, target: real, post: (int, int), lp: LpError) {
    var add := AddUsd(c, target, post.0, post.1);
    add > 0.0 && LpRawForUsd(post.0, post.1, c.d0, c.d1, add, c.px0, c.px1) == Err(lp)
  }

  method PlanStep(c: Config, target: real, s: State) returns (r: Result<Step, PlanError>)
    ensures r.Ok? ==> StepFor(c, target, s, r.value)
    ensures r.Err? ==> RefusesStep(c, target, s, r.error)
  {
    hide Answers, AddUsd, LpRawForUsd, ApplyBuffer;
    if c.skipSwap && !Live(s) {
      return Err(NoRatio);
    }
    if c.px0 <= 0.0 || c.px1 <= 0.0 {
      return Err(BadOracle);
    }
    var swap := Idle;
    if !c.skipSwap && Live(s) {
      var found := FindCluncOffer(s.r0, s.r1, c.d0, c.d1, c.px0 / c.px1, c.feeBps, c.tol, MAX_FRACTION);
      if found.Err? {
        return Err(NoOffer(found.error));
      }
      swap := found.value;
    }
    var post0, post1 := s.r0, s.r1;
    if swap.Sell? {
      post0, post1 := swap.new0, swap.new1;
    }
    var add := AddUsd(c, target, post0, post1);
    var legs := Legs(0, 0);
    if add > 0.0 {
      var sized := LpRawForUsd(post0, post1, c.d0, c.d1, add, c.px0, c.px1);
      if sized.Err? {
        assert SwapFor(c, s, swap) && RefusesLegs(c, target, PostOf(s, swap), sized.error);
        return Err(NoLegs(sized.error));
      }
      legs := sized.value;
    }
    var st := Step(swap, post0, post1, add, legs.a0, legs.a1, 0, 0, 0, 0);
    var mint0 := ApplyBuffer(MintNeed(s.bal0, Need0(st)), c.bufferBps);
    var mint1 := ApplyBuffer(MintNeed(s.bal1, Need1(st)), c.bufferBps);
    var wrap0, wrap1 := WrapNativeForCw20(mint0, c.wrapBps), WrapNativeForCw20(mint1, c.wrapBps);
    st := st.(mint0 := mint0, mint1 := mint1);
    assert UnwrappedFor(c, target, s, st);
    if wrap0.Err? || wrap1.Err? {
      return Err(NoWrap);
    }
    return Ok(st.(wrap0 := wrap0.value, wrap1 := wrap1.value));
  }

  /** The value of the reserves that a pool with an empty side is not credited with. */
  function Unseen(r0: int, r1: int, c: Config): real { Tvl(r0, r1, c) - PostTvl(r0, r1, c) }

  /**
   A rung that adds liquidity without a forced amount lands at its target plus the unseen value, or below it
   by less than `Shortfall`.
   */
  lemma RungLands(c: Config, target: real, s: State, st: Step)
    requires StepFor(c, target, s, st) && c.force.None? && st.add > 0.0
    ensures var tvl := Tvl(st.post0 + st.lp0, st.post1 + st.lp1, c);
            tvl <= target + Unseen(st.post0, st.post1, c)
                < tvl + Shortfall(st.post0, st.post1, c.d0, c.d1, c.px0, c.px1)
  {
    hide Human, Shortfall, SwapFor, LpRawForUsd, Denom;
    LegsWorth(st.post0, st.post1, c.d0, c.d1, st.add, c.px0, c.px1);
    HumanAdds(st.post0, st.lp0, c.d0);
    HumanAdds(st.post1, st.lp1, c.d1);
    assert Tvl(st.post0 + st.lp0, st.post1 + st.lp1, c) == Tvl(st.post0, st.post1, c) + Tvl(st.lp0, st.lp1, c);
  }

  /** The rung lands at its target, or below it within the sizing error. */
  ghost predicate LandsOnTarget(c: Config, target: real, st: Step) {
    var tvl := Tvl(st.post0 + st.lp0, st.post1 + st.lp1, c);
    tvl <= target < tvl + Shortfall(st.post0, st.post1, c.d0, c.d1, c.px0, c.px1)
  }

  /** Every rung that adds liquidity to a pool with these reserves, without a forced amount. */
  ghost predicate AlwaysLands(r0: int, r1: int) {
    forall c, target, s, st {:trigger StepFor(c, target, s, st)} ::
      StepFor(c, target, s, st) && c.force.None? && st.add > 0.0 && s.r0 == r0 && s.r1 == r1 ==>
        LandsOnTarget(c, target, st)
  }

  /** A pool with both tokens keeps both through the swap of a rung, any other pool is not swapped. */
  lemma SidesStay(c: Config, target: real, s: State, st: Step)
    requires StepFor(c, target, s, st)
    ensures if Live(s) then st.post0 > 0 && st.post1 > 0 else st.post0 == s.r0 && st.post1 == s.r1
  {
    hide CommissionOn, Commission0, Commission1;
    if st.swap.Sell? { SwapMoves(c, target, s, st); } else { IdlePost(c, target, s, st); }
  }

  /** Every rung planned for a pool lands on target exactly if the pool has both tokens or neither. */
  lemma LandsExactly(r0: int, r1: int)
    requires r0 >= 0 && r1 >= 0
    ensures AlwaysLands(r0, r1) <==> (r0 > 0 && r1 > 0) || (r0 == 0 && r1 == 0)
  {
    if (r0 > 0 && r1 > 0) || (r0 == 0 && r1 == 0) {
      forall c, target, s, st |
        StepFor(c, target, s, st) && c.force.None? && st.add > 0.0 && s.r0 == r0 && s.r1 == r1
        ensures LandsOnTarget(c, target, st)
      {
        hide StepFor, Shortfall, Human;
        SidesStay(c, target, s, st);
        RungLands(c, target, s, st);
        HumanZero(c.d0);
        HumanZero(c.d1);
      }
    } else {
      OneSidedOvershoots(r0, r1);
    }
  }

  /** Both prices 1, no decimals, no fees. */
  const PLAIN: Config := Config(1.0, 1.0, 0.0, 0, 0, 0, false, None, 0, 0)

  /** A rung of 2 adds one of each token, whatever a one-sided pool already holds. */
  function OneSidedStep(r0: int, r1: int): Step { Step(Idle, r0, r1, 2.0, 1, 1, 1, 1, 1, 1) }

  lemma OneSidedOvershoots(r0: int, r1: int)
    requires r0 >= 0 && r1 >= 0 && !(r0 > 0 && r1 > 0) && r0 + r1 > 0
    ensures StepFor(PLAIN, 2.0, State(r0, r1, 0, 0), OneSidedStep(r0, r1))
    ensures Tvl(r0 + 1, r1 + 1, PLAIN) == 2.0 + (r0 + r1) as real
    ensures !AlwaysLands(r0, r1)
  {
    var st := OneSidedStep(r0, r1);
    assert Scale(0) == 1.0;
    assert Denom(r0, r1, 0, 0, 1.0, 1.0) == 2.0 && Ratio(2.0, 2.0) == 1.0;
    assert RawOf(1.0, 0) == 1 && Times(1.0, PoolPrice(r0, r1, 0, 0, 1.0, 1.0)) == 1.0;
    assert LpRawForUsd(r0, r1, 0, 0, 2.0, 1.0, 1.0) == Ok(Legs(1, 1));
    assert ApplyBuffer(1, 0) == 1 && WrapNativeForCw20(1, 0) == Ok(1);
    assert StepFor(PLAIN, 2.0, State(r0, r1, 0, 0), st);
    assert !LandsOnTarget(PLAIN, 2.0, st);
  }

  lemma HumanAdds(a: int, b: int, d: nat)
    ensures Human(a + b, d) == Human(a, d) + Human(b, d)
  {
    hide Scale;
    SumOverSame(a as real, b as real, Scale(d));
  }

  lemma HumanZero(d: nat)
    ensures Human(0, d) == 0.0
  {
  }

  // ---------------------------------------------------------------- the ladder

  function Max0(x: int): int { if x > 0 then x else 0 }

  /** `apply_swap_to_state`, with its clamps. */
  function ApplySwapToState(s: State, swap: Offer): State {
    if swap.Idle? then s
    else if swap.first then State(swap.new0, swap.new1, Max0(s.bal0 - swap.offer), Max0(s.bal1 + swap.ret))
    else State(swap.new0, swap.new1, Max0(s.bal0 + swap.ret), Max0(s.bal1 - swap.offer))
  }

  /** The ladder's bookkeeping for one rung, with its clamps. */
  function AfterStep(s: State, st: Step): State {
    var minted := s.(bal0 := s.bal0 + st.mint0, bal1 := s.bal1 + st.mint1);
    var swapped := ApplySwapToState(minted, st.swap);
    State(swapped.r0 + st.lp0, swapped.r1 + st.lp1, Max0(swapped.bal0 - st.lp0), Max0(swapped.bal1 - st.lp1))
  }

  /** No clamp changes anything. */
  predicate NoClamp(s: State, st: Step) {
    var b0, b1 := s.bal0 + st.mint0, s.bal1 + st.mint1;
    var sold := st.swap.Sell?;
    var out0 := if sold && st.swap.first then st.swap.offer else 0;
    var out1 := if sold && !st.swap.first then st.swap.offer else 0;
    var in0 := if sold && !st.swap.first then st.swap.ret else 0;
    var in1 := if sold && st.swap.first then st.swap.ret else 0;
    && (sold ==> b0 - out0 + in0 >= 0 && b1 - out1 + in1 >= 0)
    && b0 - out0 + in0 - st.lp0 >= 0
    && b1 - out1 + in1 - st.lp1 >= 0
  }

  /** Commission paid out by the pool in the rung's swap. */
  function Commission0(c: Config, s: State, st: Step): int {
    if st.swap.Sell? && !st.swap.first then CommissionOn(s.r0 - st.swap.new0, c.feeBps) else 0
  }

  function Commission1(c: Config, s: State, st: Step): int {
    if st.swap.Sell? && st.swap.first then CommissionOn(s.r1 - st.swap.new1, c.feeBps) else 0
  }

  lemma LegsNonNegative(c: Config, st: Step)
    requires LegsFor(c, st)
    ensures st.lp0 >= 0 && st.lp1 >= 0
  {
    hide RawOf, Denom, Ratio, FloorDiv;
  }

  /** What a planned swap does to the pool. */
  lemma SwapMoves(c: Config, target: real, s: State, st: Step)
    requires StepFor(c, target, s, st) && st.swap.Sell?
    ensures Live(s) && st.post0 == st.swap.new0 > 0 && st.post1 == st.swap.new1 > 0
    ensures st.swap.offer > 0 && (0 <= c.feeBps <= 10000 ==> st.swap.ret >= 0)
    ensures st.swap.first ==>
            st.swap.new0 == s.r0 + st.swap.offer && st.swap.ret == s.r1 - st.swap.new1 - Commission1(c, s, st)
    ensures !st.swap.first ==>
            st.swap.new1 == s.r1 + st.swap.offer && st.swap.ret == s.r0 - st.swap.new0 - Commission0(c, s, st)
  {
    hide Within, Price, Bound, PriceAfter, CommissionOn, LpRawForUsd, Shortfall, AddUsd, WrapNativeForCw20;
    var o := st.swap;
    assert InBand(s.r0, s.r1, c.d0, c.d1, c.px0 / c.px1, c.feeBps, c.tol,
                  Bound(s.r0, s.r1, c.d0, c.d1, c.px0 / c.px1, MAX_FRACTION), o);
    if o.first { ProductKept(s.r0, s.r1, o.offer, c.feeBps); } else { ProductKept(s.r1, s.r0, o.offer, c.feeBps); }
    if 0 <= c.feeBps <= 10000 {
      CommissionBounds(if o.first then s.r1 - o.new1 else s.r0 - o.new0, c.feeBps);
    }
  }

  /** With a buffer that is not negative, the planned mints cover swap and liquidity: no clamp ever acts. */
  lemma MintsCover(c: Config, target: real, s: State, st: Step)
    requires StepFor(c, target, s, st) && c.bufferBps >= 0
    ensures NoClamp(s, st)
  {
    hide SwapFor, LpRawForUsd, ApplyBuffer, WrapNativeForCw20;
    LegsNonNegative(c, st);
    BufferCovers(MintNeed(s.bal0, Need0(st)), c.bufferBps);
    BufferCovers(MintNeed(s.bal1, Need1(st)), c.bufferBps);
    if st.swap.Sell? { SwapMoves(c, target, s, st); }
  }

  /** For any buffer: starting from actual balances, no clamp acts exactly if each mint covers its need. */
  lemma NoClampExactly(c: Config, target: real, s: State, st: Step)
    requires StepFor(c, target, s, st) && s.bal0 >= 0 && s.bal1 >= 0
    requires 0 <= c.feeBps <= 10000
    ensures var x0, x1 := Need0(st) - s.bal0, Need1(st) - s.bal1;
            NoClamp(s, st) <==>
              (x0 <= 0 || x0 * c.bufferBps > -10000) && (x1 <= 0 || x1 * c.bufferBps > -10000)
  {
    hide SwapFor, LpRawForUsd, ApplyBuffer, WrapNativeForCw20;
    LegsNonNegative(c, st);
    BufferCovers(MintNeed(s.bal0, Need0(st)), c.bufferBps);
    BufferCovers(MintNeed(s.bal1, Need1(st)), c.bufferBps);
    NothingForNothing(c.bufferBps);
    if st.swap.Sell? { SwapMoves(c, target, s, st); }
  }

  /** A buffer of minus one hundred percent: nothing is minted, and the ladder's clamps hide the missing tokens. */
  lemma NegativeBufferClamps(c: Config, s: State, st: Step)
    requires c == Config(1.0, 1.0, 0.001, 180, -10000, 200, true, Some(2.0), 6, 6)
    requires s == State(1000000, 1000000, 0, 0)
    requires st == Step(Idle, 1000000, 1000000, 2.0, 1000000, 1000000, 0, 0, 0, 0)
    ensures StepFor(c, 0.0, s, st) && !NoClamp(s, st)
  {
    assert Pow10(3) == 1000.0;
    assert Pow10(6) == 1000000.0;
    assert Price(1000000, 1000000, 6, 6) == 1.0;
    assert Denom(1000000, 1000000, 6, 6, 1.0, 1.0) == 2.0;
    assert RawOf(1.0, 6) == 1000000;
    assert FloorDiv(1000000 * 1000000, 1000000) == 1000000;
  }

  lemma NothingForNothing(bufferBps: int)
    ensures ApplyBuffer(0, bufferBps) == 0
  {
  }

  /** Reserves, balances and commissions after a rung are the reserves and balances before, and the mints. */
  lemma StepConserves(c: Config, target: real, s: State, st: Step)
    requires StepFor(c, target, s, st) && NoClamp(s, st)
    ensures var t := AfterStep(s, st);
            && t.r0 + t.bal0 + Commission0(c, s, st) == s.r0 + s.bal0 + st.mint0
            && t.r1 + t.bal1 + Commission1(c, s, st) == s.r1 + s.bal1 + st.mint1
            && t.bal0 >= 0 && t.bal1 >= 0
  {
    hide StepFor, CommissionOn;
    if st.swap.Sell? { SwapMoves(c, target, s, st); } else { IdlePost(c, target, s, st); }
  }

  lemma IdlePost(c: Config, target: real, s: State, st: Step)
    requires StepFor(c, target, s, st) && st.swap.Idle?
    ensures st.post0 == s.r0 && st.post1 == s.r1
  {
  }

  /** The plans of a whole ladder, each for the state its predecessors lead to. */
  ghost predicate LadderFor(c: Config, rungs: seq<real>, s: State, steps: seq<Step>)
    decreases |steps|
  {
    |steps| == |rungs|
    && (steps != [] ==>
        StepFor(c, rungs[0], s, steps[0]) && LadderFor(c, rungs[1..], AfterStep(s, steps[0]), steps[1..]))
  }

  function Final(s: State, steps: seq<Step>): State
    decreases |steps|
  {
    if steps == [] then s else Final(AfterStep(s, steps[0]), steps[1..])
  }

  /** Totals over a ladder: mints, wraps and commissions. */
  datatype Totals = Totals(mint0: int, mint1: int, wrap0: int, wrap1: int)

  function TotalOf(steps: seq<Step>): Totals {
    if steps == [] then Totals(0, 0, 0, 0)
    else
      var t, st := TotalOf(steps[..|steps| - 1]), steps[|steps| - 1];
      Totals(t.mint0 + st.mint0, t.mint1 + st.mint1, t.wrap0 + st.wrap0, t.wrap1 + st.wrap1)
  }

  function Commissions(c: Config, s: State, steps: seq<Step>): (int, int)
    decreases |steps|
  {
    if steps == [] then (0, 0)
    else
      var rest := Commissions(c, AfterStep(s, steps[0]), steps[1..]);
      (Commission0(c, s, steps[0]) + rest.0, Commission1(c, s, steps[0]) + rest.1)
  }

  ghost predicate NeverClamps(s: State, steps: seq<Step>)
    decreases |steps|
  {
    steps == [] || (NoClamp(s, steps[0]) && NeverClamps(AfterStep(s, steps[0]), steps[1..]))
  }

  lemma {:induction false} TotalFromFront(steps: seq<Step>)
    requires steps != []
    ensures var t, rest := TotalOf(steps), TotalOf(steps[1..]);
            t.mint0 == steps[0].mint0 + rest.mint0 && t.mint1 == steps[0].mint1 + rest.mint1
    decreases |steps|
  {
    if |steps| > 1 {
      var front := steps[..|steps| - 1];
      TotalFromFront(front);
      assert front[1..] == steps[1..][..|steps| - 2];
      assert steps[1..][|steps| - 2] == steps[|steps| - 1];
    } else {
      assert steps[..0] == [] && steps[1..] == [];
    }
  }

  /** Solvency and conservation over every ladder. */
  lemma {:induction false} LadderConserves(c: Config, rungs: seq<real>, s: State, steps: seq<Step>)
    requires LadderFor(c, rungs, s, steps) && c.bufferBps >= 0
    ensures NeverClamps(s, steps)
    ensures var t, total, paid := Final(s, steps), TotalOf(steps), Commissions(c, s, steps);
            && t.r0 + t.bal0 + paid.0 == s.r0 + s.bal0 + total.mint0
            && t.r1 + t.bal1 + paid.1 == s.r1 + s.bal1 + total.mint1
    decreases |steps|
  {
    hide StepFor, NoClamp, AfterStep, Commission0, Commission1;
    if steps != [] {
      MintsCover(c, rungs[0], s, steps[0]);
      StepConserves(c, rungs[0], s, steps[0]);
      TotalFromFront(steps);
      LadderConserves(c, rungs[1..], AfterStep(s, steps[0]), steps[1..]);
    }
  }

  /** Rungs must be positive and strictly increasing. */
  predicate Increasing(rungs: seq<real>) {
    && (forall i :: 0 <= i < |rungs| ==> rungs[i] > 0.0)
    && (forall i, k :: 0 <= i < k < |rungs| ==> rungs[i] < rungs[k])
  }

  method ParseRungs(rungs: seq<real>) returns (ok: bool)
    ensures ok <==> rungs != [] && Increasing(rungs)
  {
    if rungs == [] {
      return false;
    }
    var prev := 0.0;
    for i := 0 to |rungs|
      invariant Increasing(rungs[..i])
      invariant prev == if i == 0 then 0.0 else rungs[i - 1]
    {
      if rungs[i] <= prev {
        if i > 0 { assert rungs[i - 1] >= rungs[i]; }
        return false;
      }
      prev := rungs[i];
    }
    assert rungs[..|rungs|] == rungs;
    return true;
  }

  lemma {:induction false} LadderAppend(c: Config, rungs: seq<real>, s: State, steps: seq<Step>, target: real, st: Step)
    requires LadderFor(c, rungs, s, steps) && StepFor(c, target, Final(s, steps), st)
    ensures LadderFor(c, rungs + [target], s, steps + [st])
    ensures Final(s, steps + [st]) == AfterStep(Final(s, steps), st)
    decreases |steps|
  {
    hide StepFor, AfterStep;
    if steps == [] {
      assert steps + [st] == [st] && rungs + [target] == [target];
      assert Final(AfterStep(s, st), []) == AfterStep(s, st);
      assert [st][1..] == [] && [target][1..] == [];
    } else {
      LadderAppend(c, rungs[1..], AfterStep(s, steps[0]), steps[1..], target, st);
      assert (steps + [st])[1..] == steps[1..] + [st] && (rungs + [target])[1..] == rungs[1..] + [target];
    }
  }

  /** Malformed rungs, or a rung that is refused in the state its predecessors lead to. */
  ghost predicate RefusesLadder(c: Config, rungs: seq<real>, start: State, e: PlanError) {
    if rungs == [] || !Increasing(rungs) then e == BadRungs
    else exists steps: seq<Step> ::
        && |steps| < |rungs| && LadderFor(c, rungs[..|steps|], start, steps)
        && RefusesStep(c, rungs[|steps|], Final(start, steps), e)
  }

  /** The ladder, rung by rung, carrying reserves and balances. */
  method PlanRungs(c: Config, rungs: seq<real>, start: State)
    returns (r: Result<seq<Step>, PlanError>, totals: Totals, final: State)
    ensures r.Ok? ==> rungs != [] && Increasing(rungs) && LadderFor(c, rungs, start, r.value)
    ensures r.Err? ==> RefusesLadder(c, rungs, start, r.error)
    ensures r.Ok? ==> totals == TotalOf(r.value) && final == Final(start, r.value)
  {
    hide StepFor, AfterStep, RefusesStep;
    totals, final := Totals(0, 0, 0, 0), start;
    var ok := ParseRungs(rungs);
    if !ok {
      return Err(BadRungs), totals, final;
    }
    var steps: seq<Step> := [];
    for i := 0 to |rungs|
      invariant LadderFor(c, rungs[..i], start, steps)
      invariant totals == TotalOf(steps) && final == Final(start, steps)
    {
      var planned := PlanStep(c, rungs[i], final);
      if planned.Err? {
        assert |steps| == i && RefusesStep(c, rungs[|steps|], Final(start, steps), planned.error);
        return Err(planned.error), totals, final;
      }
      var st := planned.value;
      LadderAppend(c, rungs[..i], start, steps, rungs[i], st);
      assert rungs[..i + 1] == rungs[..i] + [rungs[i]];
      assert (steps + [st])[..|steps|] == steps;
      steps := steps + [st];
      totals := Totals(totals.mint0 + st.mint0, totals.mint1 + st.mint1, totals.wrap0 + st.wrap0,
                       totals.wrap1 + st.wrap1);
      final := AfterStep(final, st);
    }
    assert rungs[..|rungs|] == rungs;
    r := Ok(steps);
  }
}

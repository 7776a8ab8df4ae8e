/** The constant-product swap: the pool rounds its output reserve up, and commission is taken from the gross output. */
module AmmSwap {
  import opened Wrappers

  datatype SwapError = EmptyReserves

  /** The reserves after a swap and what the trader receives. */
  datatype Swapped = Swapped(newIn: int, newOut: int, ret: int)

  /** The quotient rounded up. */
  function CeilDiv(num: int, den: int): (q: int)
    requires den > 0
    ensures (q - 1) * den < num <= q * den
  {
    CeilBounds(num, den);
    (num + den - 1) / den
  }

  lemma CeilBounds(num: int, den: int)
    requires den > 0
    ensures var q := (num + den - 1) / den; (q - 1) * den < num <= q * den
  {
    var q := (num + den - 1) / den;
    assert num + den - 1 == q * den + (num + den - 1) % den;
    assert (q - 1) * den == q * den - den;
  }

  function CommissionOn(gross: int, feeBps: int): int { gross * feeBps / 10000 }

  /** `simulate_pool_swap`. */
  function SimulatePoolSwap(rIn: int, rOut: int, offer: int, feeBps: int): Result<Swapped, SwapError> {
    if offer <= 0 then Ok(Swapped(rIn, rOut, 0))
    else if rIn <= 0 || rOut <= 0 then Err(EmptyReserves)
    else
      var newIn := rIn + offer;
      var quotient := CeilDiv(rIn * rOut, newIn);
      var newOut := if quotient > rOut then rOut else quotient;
      var gross := rOut - newOut;
      Ok(Swapped(newIn, newOut, gross - CommissionOn(gross, feeBps)))
  }

  // ---------------------------------------------------------------- integer products

  lemma MulLe(a: int, b: int, c: int)
    requires a <= b && c >= 0
    ensures a * c <= b * c
  {
  }

  lemma MulPos(a: int, b: int)
    requires a > 0 && b > 0
    ensures a * b > 0
  {
  }

  /** A factor can be cancelled from an inequality. */
  lemma Cancel(a: int, b: int, c: int)
    requires c > 0 && a * c <= b * c
    ensures a <= b
  {
    assert (b + 1) * c == b * c + c;
    if a > b {
      MulLe(b + 1, a, c);
    }
  }

  /** A quotient rounded up is the least one that is large enough. */
  lemma CeilLeast(num: int, den: int, x: int)
    requires den > 0
    ensures CeilDiv(num, den) <= x <==> num <= x * den
  {
    var q := CeilDiv(num, den);
    if q <= x {
      MulLe(q, x, den);
    } else {
      MulLe(x, q - 1, den);
    }
  }

  // ---------------------------------------------------------------- the laws of one swap

  /** The reserve product never falls, the clamp never acts, and both reserves stay positive. */
  lemma ProductKept(rIn: int, rOut: int, offer: int, feeBps: int)
    requires rIn > 0 && rOut > 0 && offer > 0
    ensures var s := SimulatePoolSwap(rIn, rOut, offer, feeBps);
            && s.Ok? && s.value.newIn == rIn + offer
            && s.value.newOut == CeilDiv(rIn * rOut, rIn + offer)
            && 1 <= s.value.newOut <= rOut
            && s.value.newIn * s.value.newOut >= rIn * rOut
  {
    var newIn := rIn + offer;
    MulPos(rIn, rOut);
    MulLe(rIn, newIn, rOut);
    assert rOut * newIn == newIn * rOut;
    CeilLeast(rIn * rOut, newIn, rOut);
    CeilLeast(rIn * rOut, newIn, 0);
  }

  /** The output reserve is the least one that keeps the product; the commission is the fee's share, rounded down. */
  lemma PaysTheFee(rIn: int, rOut: int, offer: int, feeBps: int, smaller: int)
    requires rIn > 0 && rOut > 0 && offer > 0 && 0 <= feeBps <= 10000
    ensures var s := SimulatePoolSwap(rIn, rOut, offer, feeBps);
            && s.Ok?
            && (smaller < s.value.newOut ==> s.value.newIn * smaller < rIn * rOut)
            && var gross := rOut - s.value.newOut;
            && 0 <= s.value.ret <= gross < rOut
            && (gross - s.value.ret) * 10000 <= gross * feeBps < (gross - s.value.ret + 1) * 10000
  {
    ProductKept(rIn, rOut, offer, feeBps);
    CeilLeast(rIn * rOut, rIn + offer, smaller);
    assert smaller * (rIn + offer) == (rIn + offer) * smaller;
    CommissionBounds(rOut - CeilDiv(rIn * rOut, rIn + offer), feeBps);
  }

  /** A larger offer leaves a strictly larger input reserve and no larger output reserve. */
  lemma OfferMonotone(rIn: int, rOut: int, a: int, b: int, feeBps: int)
    requires rIn > 0 && rOut > 0 && 0 < a < b
    ensures var s, t := SimulatePoolSwap(rIn, rOut, a, feeBps), SimulatePoolSwap(rIn, rOut, b, feeBps);
            s.Ok? && t.Ok? && s.value.newIn < t.value.newIn && s.value.newOut >= t.value.newOut
  {
    ProductKept(rIn, rOut, a, feeBps);
    ProductKept(rIn, rOut, b, feeBps);
    var outA := CeilDiv(rIn * rOut, rIn + a);
    MulLe(rIn + a, rIn + b, outA);
    assert outA * (rIn + a) == (rIn + a) * outA && outA * (rIn + b) == (rIn + b) * outA;
    CeilLeast(rIn * rOut, rIn + b, outA);
  }

  lemma CommissionBounds(gross: int, feeBps: int)
    requires gross >= 0 && 0 <= feeBps <= 10000
    ensures 0 <= CommissionOn(gross, feeBps) <= gross
    ensures feeBps == 0 ==> CommissionOn(gross, feeBps) == 0
  {
    MulLe(feeBps, 10000, gross);
    MulLe(0, gross, feeBps);
    assert gross * feeBps == feeBps * gross;
  }

  /** What is left of a gross output grows with it, and splitting it gains at most one unit. */
  lemma NetOfSplit(x: int, y: int, gross: int, feeBps: int)
    requires x >= 0 && y >= 0 && x + y <= gross && 0 <= feeBps <= 10000
    ensures var net := (g: int) => g - CommissionOn(g, feeBps);
            net(x) + net(y) <= net(gross) + 1 && (feeBps == 0 ==> net(x) + net(y) <= net(gross))
  {
    var rest := gross - x - y;
    assert gross * feeBps == x * feeBps + y * feeBps + rest * feeBps;
    MulLe(0, x, feeBps);
    MulLe(0, y, feeBps);
    MulLe(0, rest, feeBps);
    MulLe(feeBps, 10000, rest);
    assert rest * feeBps == feeBps * rest;
    FloorSum(x * feeBps, y * feeBps, rest * feeBps, rest);
    if feeBps == 0 {
      CommissionBounds(x, 0);
      CommissionBounds(y, 0);
      CommissionBounds(gross, 0);
    }
  }

  lemma FloorSum(a: int, b: int, c: int, rest: int)
    requires c <= 10000 * rest
    ensures (a + b + c) / 10000 <= a / 10000 + b / 10000 + rest + 1
  {
  }

  /** Swapping out and swapping the proceeds back never returns more than was put in. */
  lemma RoundTripLoses(rIn: int, rOut: int, offer: int, feeBps: int)
    requires rIn > 0 && rOut > 0 && offer > 0 && 0 <= feeBps <= 10000
    ensures var s := SimulatePoolSwap(rIn, rOut, offer, feeBps);
            && s.Ok?
            && var back := SimulatePoolSwap(s.value.newOut, s.value.newIn, s.value.ret, feeBps);
            back.Ok? && back.value.ret <= offer
  {
    ProductKept(rIn, rOut, offer, feeBps);
    var s := SimulatePoolSwap(rIn, rOut, offer, feeBps).value;
    var gross := rOut - s.newOut;
    CommissionBounds(gross, feeBps);
    if s.ret > 0 {
      ProductKept(s.newOut, s.newIn, s.ret, feeBps);
      var back := SimulatePoolSwap(s.newOut, s.newIn, s.ret, feeBps).value;
      var k := s.newIn * s.newOut;
      assert s.newOut * s.newIn == k;
      assert s.newOut + s.ret <= rOut;
      MulLe(s.newOut + s.ret, rOut, back.newOut);
      assert rIn * rOut <= k <= back.newOut * (s.newOut + s.ret) == (s.newOut + s.ret) * back.newOut;
      assert rOut * back.newOut == back.newOut * rOut;
      Cancel(rIn, back.newOut, rOut);
      CommissionBounds(s.newIn - back.newOut, feeBps);
    }
  }

  /** Splitting an offer in two pays at most one unit more than the single swap, and nothing more without a fee. */
  lemma SplitGainsLittle(rIn: int, rOut: int, a: int, b: int, feeBps: int)
    requires rIn > 0 && rOut > 0 && a > 0 && b > 0 && 0 <= feeBps <= 10000
    ensures var once := SimulatePoolSwap(rIn, rOut, a + b, feeBps);
            var first := SimulatePoolSwap(rIn, rOut, a, feeBps);
            && once.Ok? && first.Ok?
            && var second := SimulatePoolSwap(first.value.newIn, first.value.newOut, b, feeBps);
            && second.Ok?
            && first.value.ret + second.value.ret <= once.value.ret + 1
            && (feeBps == 0 ==> first.value.ret + second.value.ret <= once.value.ret)
  {
    ProductKept(rIn, rOut, a + b, feeBps);
    ProductKept(rIn, rOut, a, feeBps);
    var once := SimulatePoolSwap(rIn, rOut, a + b, feeBps).value;
    var first := SimulatePoolSwap(rIn, rOut, a, feeBps).value;
    ProductKept(first.newIn, first.newOut, b, feeBps);
    var second := SimulatePoolSwap(first.newIn, first.newOut, b, feeBps).value;
    assert rIn * rOut <= first.newIn * first.newOut <= second.newIn * second.newOut == second.newOut * second.newIn;
    CeilLeast(rIn * rOut, rIn + (a + b), second.newOut);
    assert once.newOut <= second.newOut;
    NetOfSplit(rOut - first.newOut, first.newOut - second.newOut, rOut - once.newOut, feeBps);
  }
}

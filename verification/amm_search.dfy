/** `find_rebalance_offer`: a binary search over a strictly monotone price, for either planner. */
module AmmSearch {
  import opened Wrappers
  import opened AmmSwap

  datatype SearchError = BadTarget | EmptyPool | OutOfReach

  /** An offer that lands in the band: `first` says that token 0 is sold. */
  datatype Offer =
    | Idle
    | Sell(first: bool, offer: int, ret: int, new0: int, new1: int)

  function Pow10(d: nat): (p: real)
    ensures p >= 1.0
  {
    if d == 0 then 1.0 else 10.0 * Pow10(d - 1)
  }

  /** Raw units in a whole token. */
  function Scale(decimals: nat): (p: real)
    ensures p >= 1.0
  {
    Pow10(decimals)
  }

  /** An amount in whole tokens. */
  function Human(raw: int, decimals: nat): real { raw as real / Scale(decimals) }

  /** Token 1 per token 0, both in whole tokens. */
  function Price(r0: int, r1: int, d0: nat, d1: nat): real
    requires r0 > 0
  {
    Human(r1, d1) / Human(r0, d0)
  }

  function Distance(x: real, y: real): real { if x >= y then x - y else y - x }

  function RelError(current: real, target: real): real
    requires target > 0.0
  {
    Distance(current, target) / target
  }

  predicate Within(current: real, target: real, tol: real)
    requires target > 0.0
  {
    RelError(current, target) <= tol
  }

  /** The largest offer that is tried: a fraction of the reserve, but at least one unit. */
  function Reach(r: int, maxFrac: real): (hi: int)
    ensures hi >= 1
  {
    var part := (r as real * maxFrac).Floor;
    if part > 1 then part else 1
  }

  /** The reserves (token 0, token 1) after an offer of either token. */
  function After(r0: int, r1: int, first: bool, offer: int, feeBps: int): (int, int)
    requires r0 > 0 && r1 > 0 && offer > 0
  {
    if first then
      var s := SimulatePoolSwap(r0, r1, offer, feeBps).value;
      (s.newIn, s.newOut)
    else
      var s := SimulatePoolSwap(r1, r0, offer, feeBps).value;
      (s.newOut, s.newIn)
  }

  lemma AfterPositive(r0: int, r1: int, first: bool, offer: int, feeBps: int)
    requires r0 > 0 && r1 > 0 && offer > 0
    ensures var n := After(r0, r1, first, offer, feeBps); n.0 > 0 && n.1 > 0
  {
    if first { ProductKept(r0, r1, offer, feeBps); } else { ProductKept(r1, r0, offer, feeBps); }
  }

  function PriceAfter(r0: int, r1: int, d0: nat, d1: nat, first: bool, offer: int, feeBps: int): real
    requires r0 > 0 && r1 > 0 && offer > 0
  {
    AfterPositive(r0, r1, first, offer, feeBps);
    var n := After(r0, r1, first, offer, feeBps);
    Price(n.0, n.1, d0, d1)
  }

  // ---------------------------------------------------------------- strict monotonicity

  lemma MulReal(x: real, y: real, z: real)
    requires x <= y && z >= 0.0
    ensures x * z <= y * z
  {
  }

  lemma MulRealLess(x: real, y: real, z: real)
    requires x < y && z > 0.0
    ensures x * z < y * z
  {
  }

  /** A quotient compared with a bound. */
  lemma DivCompare(n: real, d: real, x: real)
    requires d > 0.0
    ensures n / d < x <==> n < x * d
    ensures n / d <= x <==> n <= x * d
  {
    var q := n / d;
    assert q * d == n;
    if q < x {
      MulRealLess(q, x, d);
    } else {
      if q > x {
        MulRealLess(x, q, d);
      } else {
        assert x * d == n;
      }
    }
  }

  lemma QuotientLess(a: real, b: real, c: real, d: real)
    requires 0.0 < a <= c && 0.0 < d < b
    ensures a / b < c / d
  {
    var x := c / d;
    assert x * d == c;
    DivCompare(c, d, 0.0);
    MulRealLess(d, b, x);
    DivCompare(a, b, x);
  }

  lemma HumanMonotone(a: int, b: int, decimals: nat)
    ensures a < b ==> Human(a, decimals) < Human(b, decimals)
    ensures a > 0 ==> Human(a, decimals) > 0.0
  {
    var p := Scale(decimals);
    DivCompare(a as real, p, Human(b, decimals));
    DivCompare(a as real, p, 0.0);
    assert Human(b, decimals) * p == b as real;
  }

  /** Fewer of token 1 for more of token 0 is a strictly lower price. */
  lemma PriceFalls(m0: int, m1: int, n0: int, n1: int, d0: nat, d1: nat)
    requires 0 < m0 <= n0 && 0 < n1 <= m1 && (m0 < n0 || n1 < m1)
    ensures Price(n0, n1, d0, d1) < Price(m0, m1, d0, d1)
  {
    hide Human;
    HumanMonotone(m0, n0, d0);
    HumanMonotone(n1, m1, d1);
    if m0 < n0 {
      QuotientLess(Human(n1, d1), Human(n0, d0), Human(m1, d1), Human(m0, d0));
    } else {
      var x := Human(m1, d1) / Human(m0, d0);
      assert x * Human(m0, d0) == Human(m1, d1);
      DivCompare(Human(n1, d1), Human(n0, d0), x);
    }
  }

  /** A larger offer moves the price strictly further: down if token 0 is sold, up if token 1 is. */
  lemma PriceMonotone(r0: int, r1: int, d0: nat, d1: nat, first: bool, a: int, b: int, feeBps: int)
    requires r0 > 0 && r1 > 0 && 0 < a < b
    ensures var p, q := PriceAfter(r0, r1, d0, d1, first, a, feeBps), PriceAfter(r0, r1, d0, d1, first, b, feeBps);
            if first then q < p else p < q
  {
    hide Price;
    var m, n := After(r0, r1, first, a, feeBps), After(r0, r1, first, b, feeBps);
    AfterPositive(r0, r1, first, a, feeBps);
    AfterPositive(r0, r1, first, b, feeBps);
    if first {
      OfferMonotone(r0, r1, a, b, feeBps);
      PriceFalls(m.0, m.1, n.0, n.1, d0, d1);
    } else {
      OfferMonotone(r1, r0, a, b, feeBps);
      PriceFalls(n.0, n.1, m.0, m.1, d0, d1);
    }
  }

  // ---------------------------------------------------------------- the search

  lemma OutsideStays(p: real, q: real, target: real, tol: real)
    requires target > 0.0 && !Within(p, target, tol)
    requires q <= p <= target || target <= p <= q
    ensures !Within(q, target, tol)
  {
    DivCompare(Distance(p, target), target, tol);
    DivCompare(Distance(q, target), target, tol);
  }

  /** The offers that are no longer searched are out of the band. */
  ghost predicate Excluded(r0: int, r1: int, d0: nat, d1: nat, first: bool, feeBps: int, target: real, tol: real,
                           m: int)
    requires r0 > 0 && r1 > 0 && target > 0.0
  {
    m > 0 && !Within(PriceAfter(r0, r1, d0, d1, first, m, feeBps), target, tol)
  }

  /** One probe rules out everything on its side. */
  lemma ProbeExcludes(r0: int, r1: int, d0: nat, d1: nat, first: bool, feeBps: int, target: real, tol: real, mid: int,
                      m: int)
    requires r0 > 0 && r1 > 0 && target > 0.0 && mid > 0 && m > 0
    requires Excluded(r0, r1, d0, d1, first, feeBps, target, tol, mid)
    requires var p := PriceAfter(r0, r1, d0, d1, first, mid, feeBps);
             var short := if first then p > target else p < target;
             if short then m <= mid else mid <= m
    ensures Excluded(r0, r1, d0, d1, first, feeBps, target, tol, m)
  {
    hide Within, PriceAfter;
    if m < mid {
      PriceMonotone(r0, r1, d0, d1, first, m, mid, feeBps);
      OutsideStays(PriceAfter(r0, r1, d0, d1, first, mid, feeBps), PriceAfter(r0, r1, d0, d1, first, m, feeBps), target,
                   tol);
    } else if mid < m {
      PriceMonotone(r0, r1, d0, d1, first, mid, m, feeBps);
      OutsideStays(PriceAfter(r0, r1, d0, d1, first, mid, feeBps), PriceAfter(r0, r1, d0, d1, first, m, feeBps), target,
                   tol);
    }
  }

  /** The offer of the answer lies in reach and in the band, and the answer describes its swap. */
  ghost predicate InBand(r0: int, r1: int, d0: nat, d1: nat, target: real, feeBps: int, tol: real, hi: int, o: Offer)
    requires r0 > 0 && r1 > 0 && target > 0.0
  {
    && o.Sell? && 1 <= o.offer <= hi
    && Within(PriceAfter(r0, r1, d0, d1, o.first, o.offer, feeBps), target, tol)
    && (o.new0, o.new1) == After(r0, r1, o.first, o.offer, feeBps)
    && o.ret == (if o.first then SimulatePoolSwap(r0, r1, o.offer, feeBps)
                 else SimulatePoolSwap(r1, r0, o.offer, feeBps)).value.ret
  }

  /** The loop: it finds an offer in the band exactly if there is one in reach. */
  method BinarySearch(r0: int, r1: int, d0: nat, d1: nat, target: real, feeBps: int, tol: real, first: bool, reach: int)
    returns (r: Result<Offer, SearchError>)
    requires r0 > 0 && r1 > 0 && target > 0.0 && reach >= 1
    ensures r.Ok? ==>
            r.value.Sell? && r.value.first == first && InBand(r0, r1, d0, d1, target, feeBps, tol, reach, r.value)
    ensures r.Err? ==> r.error.OutOfReach?
    ensures r.Err? <==> forall m :: 1 <= m <= reach ==> Excluded(r0, r1, d0, d1, first, feeBps, target, tol, m)
  {
    hide Price, Within, SimulatePoolSwap;
    var lo, hi := 1, reach;
    while lo <= hi
      invariant 1 <= lo && hi <= reach
      invariant forall m :: 1 <= m < lo ==> Excluded(r0, r1, d0, d1, first, feeBps, target, tol, m)
      invariant forall m :: hi < m <= reach ==> Excluded(r0, r1, d0, d1, first, feeBps, target, tol, m)
      decreases hi - lo
    {
      var mid := (lo + hi) / 2;
      AfterPositive(r0, r1, first, mid, feeBps);
      Simulated(r0, r1, first, mid, feeBps);
      var swapped := (if first then SimulatePoolSwap(r0, r1, mid, feeBps)
                      else SimulatePoolSwap(r1, r0, mid, feeBps)).value;
      var n0, n1 := if first then swapped.newIn else swapped.newOut, if first then swapped.newOut else swapped.newIn;
      if n0 <= 0 || n1 <= 0 {
        assert false;
      }
      var p := Price(n0, n1, d0, d1);
      assert p == PriceAfter(r0, r1, d0, d1, first, mid, feeBps);
      if Within(p, target, tol) {
        assert !Excluded(r0, r1, d0, d1, first, feeBps, target, tol, mid);
        return Ok(Sell(first, mid, swapped.ret, n0, n1));
      }
      forall m | 1 <= m <= reach && (if (if first then p > target else p < target) then m <= mid else mid <= m)
        ensures Excluded(r0, r1, d0, d1, first, feeBps, target, tol, m)
      {
        ProbeExcludes(r0, r1, d0, d1, first, feeBps, target, tol, mid, m);
      }
      if (first && p > target) || (!first && p < target) {
        lo := mid + 1;
      } else {
        hi := mid - 1;
      }
    }
    return Err(OutOfReach);
  }

  lemma Simulated(r0: int, r1: int, first: bool, offer: int, feeBps: int)
    requires r0 > 0 && r1 > 0 && offer > 0
    ensures SimulatePoolSwap(r0, r1, offer, feeBps).Ok? && SimulatePoolSwap(r1, r0, offer, feeBps).Ok?
    ensures After(r0, r1, first, offer, feeBps) ==
            (if first
             then (SimulatePoolSwap(r0, r1, offer, feeBps).value.newIn,
                   SimulatePoolSwap(r0, r1, offer, feeBps).value.newOut)
             else (SimulatePoolSwap(r1, r0, offer, feeBps).value.newOut,
                   SimulatePoolSwap(r1, r0, offer, feeBps).value.newIn))
  {
  }

  /** Which token is sold, and how much of it at most. */
  function SellsFirst(r0: int, r1: int, d0: nat, d1: nat, target: real): bool
    requires r0 > 0
  {
    Price(r0, r1, d0, d1) > target
  }

  function Bound(r0: int, r1: int, d0: nat, d1: nat, target: real, maxFrac: real): (hi: int)
    requires r0 > 0
    ensures hi >= 1
  {
    Reach(if SellsFirst(r0, r1, d0, d1, target) then r0 else r1, maxFrac)
  }

  /** Some integer offer within the bound lands in the band. */
  ghost predicate Reachable(r0: int, r1: int, d0: nat, d1: nat, target: real, feeBps: int, tol: real, maxFrac: real)
    requires r0 > 0 && r1 > 0 && target > 0.0
  {
    exists m :: 1 <= m <= Bound(r0, r1, d0, d1, target, maxFrac)
             && !Excluded(r0, r1, d0, d1, SellsFirst(r0, r1, d0, d1, target), feeBps, target, tol, m)
  }

  /** What the planners' search promises about a pool with reserves. */
  ghost predicate Answers(r0: int, r1: int, d0: nat, d1: nat, target: real, feeBps: int, tol: real, maxFrac: real,
                          r: Result<Offer, SearchError>)
    requires r0 > 0 && r1 > 0
  {
    if target <= 0.0 then r == Err(BadTarget)
    else if Within(Price(r0, r1, d0, d1), target, tol) then r == Ok(Idle)
    else
      && (r.Ok? <==> Reachable(r0, r1, d0, d1, target, feeBps, tol, maxFrac))
      && (r.Err? ==> r.error.OutOfReach?)
      && (r.Ok? ==>
            && r.value.Sell? && r.value.first == SellsFirst(r0, r1, d0, d1, target)
            && InBand(r0, r1, d0, d1, target, feeBps, tol, Bound(r0, r1, d0, d1, target, maxFrac), r.value))
  }

  method SearchPool(r0: int, r1: int, d0: nat, d1: nat, target: real, feeBps: int, tol: real, maxFrac: real)
    returns (r: Result<Offer, SearchError>)
    requires r0 > 0 && r1 > 0
    ensures Answers(r0, r1, d0, d1, target, feeBps, tol, maxFrac, r)
  {
    hide InBand, Price, Reach;
    if target <= 0.0 {
      return Err(BadTarget);
    }
    if Within(Price(r0, r1, d0, d1), target, tol) {
      return Ok(Idle);
    }
    var first := SellsFirst(r0, r1, d0, d1, target);
    r := BinarySearch(r0, r1, d0, d1, target, feeBps, tol, first, Bound(r0, r1, d0, d1, target, maxFrac));
  }

  /** The search of the cLUNC/cUSTC planner: an empty pool needs no swap. */
  method FindCluncOffer(r0: int, r1: int, d0: nat, d1: nat, target: real, feeBps: int, tol: real, maxFrac: real)
    returns (r: Result<Offer, SearchError>)
    ensures r0 <= 0 || r1 <= 0 ==> r == Ok(Idle)
    ensures r0 > 0 && r1 > 0 ==> Answers(r0, r1, d0, d1, target, feeBps, tol, maxFrac, r)
  {
    if r0 <= 0 || r1 <= 0 {
      return Ok(Idle);
    }
    r := SearchPool(r0, r1, d0, d1, target, feeBps, tol, maxFrac);
  }

  /** The search of the UST1 planner: an empty pool is an error. */
  method FindUst1Offer(r0: int, r1: int, d0: nat, d1: nat, target: real, feeBps: int, tol: real, maxFrac: real)
    returns (r: Result<Offer, SearchError>)
    ensures r0 <= 0 || r1 <= 0 ==> r == Err(EmptyPool)
    ensures r0 > 0 && r1 > 0 ==> Answers(r0, r1, d0, d1, target, feeBps, tol, maxFrac, r)
  {
    if r0 <= 0 || r1 <= 0 {
      return Err(EmptyPool);
    }
    r := SearchPool(r0, r1, d0, d1, target, feeBps, tol, maxFrac);
  }
}

/** `build_plan` of the UST1 planner: one swap and two pools funded from one set of balances. */
module AmmUst1 {
  import opened Wrappers
  import opened AmmSearch
  import opened AmmLadder

  datatype Inputs = Inputs(
    ustcUsd: real, ustrPerUstc: real, usdCustc: real, usdUstr: real, skipSwap: bool,
    tol: real, feeBps: int, bufferBps: int, dUst1: nat, dCustc: nat, dUstr: nat)

  /** Two pools that share token UST1, and the operator's balances. */
  datatype Pools = Pools(r0: int, r1: int, u0: int, u1: int, ust1: int, custc: int, ustr: int)

  datatype Plan = Plan(swap: Offer, custcLegs: Legs, ustrLegs: Legs, mintUst1: int, mintCustc: int, mintUstr: int)

  datatype Failure = OracleRefused | SearchRefused | LegsRefused

  predicate LivePool(p: Pools) { p.r0 > 0 && p.r1 > 0 }

  function NeedUst1(plan: Plan): int {
    var legs := plan.custcLegs.a0 + plan.ustrLegs.a0;
    if plan.swap.Idle? then legs
    else if plan.swap.first then legs + plan.swap.offer
    else MintNeed(plan.swap.ret, legs)
  }

  function NeedCustc(plan: Plan): int {
    if plan.swap.Idle? then plan.custcLegs.a1
    else if plan.swap.first then MintNeed(plan.swap.ret, plan.custcLegs.a1)
    else plan.custcLegs.a1 + plan.swap.offer
  }

  ghost predicate LegsOf(r0: int, r1: int, d0: nat, d1: nat, usd: real, px0: real, px1: real, legs: Legs) {
    if usd > 0.0 then LpRawForUsd(r0, r1, d0, d1, usd, px0, px1) == Ok(legs) else legs == Legs(0, 0)
  }

  function Post(p: Pools, swap: Offer): (int, int) {
    if swap.Sell? then (swap.new0, swap.new1) else (p.r0, p.r1)
  }

  ghost predicate PlanFor(i: Inputs, p: Pools, plan: Plan) {
    && i.ustcUsd > 0.0
    && SwapOf(i, p, plan.swap)
    && LegsOf(Post(p, plan.swap).0, Post(p, plan.swap).1, i.dUst1, i.dCustc, i.usdCustc, 1.0, i.ustcUsd, plan.custcLegs)
    && LegsOf(p.u0, p.u1, i.dUst1, i.dUstr, i.usdUstr, 1.0, Times(i.ustcUsd, i.ustrPerUstc), plan.ustrLegs)
    && plan.mintUst1 == ApplyBuffer(MintNeed(p.ust1, NeedUst1(plan)), i.bufferBps)
    && plan.mintCustc == ApplyBuffer(MintNeed(p.custc, NeedCustc(plan)), i.bufferBps)
    && plan.mintUstr == ApplyBuffer(MintNeed(p.ustr, plan.ustrLegs.a1), i.bufferBps)
  }

  ghost predicate NoLegsFor(r0: int, r1: int, d0: nat, d1: nat, usd: real, px0: real, px1: real) {
    usd > 0.0 && LpRawForUsd(r0, r1, d0, d1, usd, px0, px1).Err?
  }

  ghost predicate SwapOf(i: Inputs, p: Pools, swap: Offer)
    requires i.ustcUsd > 0.0
  {
    if i.skipSwap || !LivePool(p) then swap.Idle?
    else Answers(p.r0, p.r1, i.dUst1, i.dCustc, 1.0 / i.ustcUsd, i.feeBps, i.tol, MAX_FRACTION, Ok(swap))
  }

  /** The inputs on which the plan is refused. */
  ghost predicate RefusesPlan(i: Inputs, p: Pools, e: Failure) {
    if i.ustcUsd <= 0.0 || i.ustrPerUstc == 0.0 then e == OracleRefused
    else match e
      case OracleRefused => false
      case SearchRefused =>
        !i.skipSwap && LivePool(p) && exists why ::
          Answers(p.r0, p.r1, i.dUst1, i.dCustc, 1.0 / i.ustcUsd, i.feeBps, i.tol, MAX_FRACTION, Err(why))
      case LegsRefused => exists swap :: SwapOf(i, p, swap) && RefusesPools(i, p, swap)
  }

  ghost predicate RefusesPools(i: Inputs, p: Pools, swap: Offer) {
    || NoLegsFor(Post(p, swap).0, Post(p, swap).1, i.dUst1, i.dCustc, i.usdCustc, 1.0, i.ustcUsd)
    || NoLegsFor(p.u0, p.u1, i.dUst1, i.dUstr, i.usdUstr, 1.0, Times(i.ustcUsd, i.ustrPerUstc))
  }

  /** The legs of one pool, or none for an amount that is not positive. */
  method SizePool(r0: int, r1: int, d0: nat, d1: nat, usd: real, px0: real, px1: real)
    returns (r: Result<Legs, LpError>)
    ensures r.Ok? ==> LegsOf(r0, r1, d0, d1, usd, px0, px1, r.value)
    ensures r.Err? <==> NoLegsFor(r0, r1, d0, d1, usd, px0, px1)
  {
    hide LpRawForUsd;
    if usd <= 0.0 {
      return Ok(Legs(0, 0));
    }
    r := LpRawForUsd(r0, r1, d0, d1, usd, px0, px1);
  }

  method BuildPlan(i: Inputs, p: Pools) returns (r: Result<Plan, Failure>)
    ensures r.Ok? ==> PlanFor(i, p, r.value)
    ensures r.Err? ==> RefusesPlan(i, p, r.error)
  {
    hide Answers, LegsOf, NoLegsFor, ApplyBuffer, Times;
    if i.ustcUsd <= 0.0 || i.ustrPerUstc == 0.0 {
      return Err(OracleRefused);
    }
    var swap := Idle;
    if !i.skipSwap && LivePool(p) {
      var found := FindUst1Offer(p.r0, p.r1, i.dUst1, i.dCustc, 1.0 / i.ustcUsd, i.feeBps, i.tol, MAX_FRACTION);
      if found.Err? {
        return Err(SearchRefused);
      }
      swap := found.value;
    }
    assert SwapOf(i, p, swap);
    var post := Post(p, swap);
    var custcLegs := SizePool(post.0, post.1, i.dUst1, i.dCustc, i.usdCustc, 1.0, i.ustcUsd);
    if custcLegs.Err? {
      assert RefusesPools(i, p, swap);
      return Err(LegsRefused);
    }
    var ustrLegs := SizePool(p.u0, p.u1, i.dUst1, i.dUstr, i.usdUstr, 1.0, Times(i.ustcUsd, i.ustrPerUstc));
    if ustrLegs.Err? {
      assert RefusesPools(i, p, swap);
      return Err(LegsRefused);
    }
    var plan := Plan(swap, custcLegs.value, ustrLegs.value, 0, 0, 0);
    return Ok(plan.(mintUst1 := ApplyBuffer(MintNeed(p.ust1, NeedUst1(plan)), i.bufferBps),
                    mintCustc := ApplyBuffer(MintNeed(p.custc, NeedCustc(plan)), i.bufferBps),
                    mintUstr := ApplyBuffer(MintNeed(p.ustr, ustrLegs.value.a1), i.bufferBps)));
  }

  lemma LegsAreAmounts(r0: int, r1: int, d0: nat, d1: nat, usd: real, px0: real, px1: real, legs: Legs)
    requires LegsOf(r0, r1, d0, d1, usd, px0, px1, legs)
    ensures legs.a0 >= 0 && legs.a1 >= 0
  {
    hide RawOf, Denom, Ratio, FloorDiv;
  }

  /** The balances while the plan is carried out: mint, swap, both provides. */
  ghost predicate Solvent(p: Pools, plan: Plan) {
    var a, b, c := p.ust1 + plan.mintUst1, p.custc + plan.mintCustc, p.ustr + plan.mintUstr;
    var a1 := if plan.swap.Idle? then a else if plan.swap.first then a - plan.swap.offer else a + plan.swap.ret;
    var b1 := if plan.swap.Idle? then b else if plan.swap.first then b + plan.swap.ret else b - plan.swap.offer;
    && (plan.swap.Sell? ==> (if plan.swap.first then a >= plan.swap.offer else b >= plan.swap.offer))
    && a1 >= plan.custcLegs.a0 + plan.ustrLegs.a0
    && b1 >= plan.custcLegs.a1
    && c >= plan.ustrLegs.a1
  }

  /** With a buffer that is not negative the mints pay for the swap and for both pools. */
  lemma MintsPayForBothPools(i: Inputs, p: Pools, plan: Plan)
    requires PlanFor(i, p, plan) && i.bufferBps >= 0
    ensures Solvent(p, plan)
  {
    hide Answers, LpRawForUsd, ApplyBuffer, LegsOf;
    LegsAreAmounts(Post(p, plan.swap).0, Post(p, plan.swap).1, i.dUst1, i.dCustc, i.usdCustc, 1.0, i.ustcUsd,
                   plan.custcLegs);
    LegsAreAmounts(p.u0, p.u1, i.dUst1, i.dUstr, i.usdUstr, 1.0, Times(i.ustcUsd, i.ustrPerUstc), plan.ustrLegs);
    BufferCovers(MintNeed(p.ust1, NeedUst1(plan)), i.bufferBps);
    BufferCovers(MintNeed(p.custc, NeedCustc(plan)), i.bufferBps);
    BufferCovers(MintNeed(p.ustr, plan.ustrLegs.a1), i.bufferBps);
  }

  /** The planned mint of a token is zero exactly if nothing of it is missing (for a buffer that is not negative). */
  lemma MintsOnlyWhatIsMissing(i: Inputs, p: Pools, plan: Plan)
    requires PlanFor(i, p, plan) && i.bufferBps >= 0
    ensures plan.mintUst1 == 0 <==> p.ust1 >= NeedUst1(plan)
    ensures plan.mintCustc == 0 <==> p.custc >= NeedCustc(plan)
    ensures plan.mintUstr == 0 <==> p.ustr >= plan.ustrLegs.a1
  {
    hide Answers, LpRawForUsd, ApplyBuffer, LegsOf;
    BufferCovers(MintNeed(p.ust1, NeedUst1(plan)), i.bufferBps);
    BufferCovers(MintNeed(p.custc, NeedCustc(plan)), i.bufferBps);
    BufferCovers(MintNeed(p.ustr, plan.ustrLegs.a1), i.bufferBps);
    NothingForNothing(i.bufferBps);
  }
}

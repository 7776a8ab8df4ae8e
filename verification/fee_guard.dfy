/**
 `fee_budget_guard`: every normal spend leaves enough under the aggregate cap for one whole
 containment round, a pause and a restore of every pair that originally ran.
 */
module FeeGuard {
  import opened Wrappers
  import MapSum

  type Pair = string
  type Hash = nat

  datatype Stage = Pausing | Restoring

  datatype Slot = Slot(stage: Stage, pair: Pair)

  /** A journal entry's key: `round:<n>:<stage>:<pair>`. */
  datatype Key = Key(round: nat, slot: Slot)

  datatype Receipt = Receipt(hash: Hash, ok: bool)

  datatype Entry = Entry(fee: int, hash: Option<Hash>, receipt: Option<Receipt>)

  datatype Phase = New | Containing | Contained | InRestore | Restored

  datatype Containment = Containment(
    identity: nat, targets: map<Pair, bool>, phase: Phase, round: nat,
    introduced: set<Pair>, external: set<Pair>, ops: map<Key, Entry>)

  /** What the guard reads: `journal` and `smoke` are the entries of the other fee journals. */
  datatype Budget = Budget(
    cap: int, route: bool, identity: nat, factory: string, targets: map<Pair, bool>, price: real,
    journal: map<string, Entry>, smoke: map<string, Entry>, containment: Option<Containment>)

  /** The operation a containment spend is for. */
  datatype Request = Request(op: string, role: string, contract: string, onlyPause: bool, slot: Slot)

  datatype Purpose = Normal | ForRound(request: Request)

  datatype Ledger = Ledger(fees: int, proposed: int, reserve: int, cap: int)

  datatype Refusal = BadAccounting | BadPrice | NotOwned | OverEnvelope | OverBudget

  const CONTAINMENT_GAS: nat := 2_000_000

  // ---------------------------------------------------------------- amounts

  /** Rounding up, as `ROUND_CEILING` does. */
  function Ceil(x: real): (n: int)
    ensures n as real >= x && (n - 1) as real < x
  {
    if x.Floor as real == x then x.Floor else x.Floor + 1
  }

  lemma RealMulMono(price: real, a: real, b: real)
    requires price > 0.0 && 0.0 < a <= b
    ensures 0.0 < price * a <= price * b
  {
    assert price * b == price * a + price * (b - a);
  }

  lemma CeilMonotone(x: real, y: real)
    requires x <= y
    ensures Ceil(x) <= Ceil(y)
  {
    assert Ceil(x) > Ceil(y) ==> (Ceil(x) - 1) as real >= Ceil(y) as real;
  }

  /** The envelope of one containment action. */
  function Unit(price: real): int { Ceil(price * CONTAINMENT_GAS as real) }

  /** The fee of any permitted amount of gas fits into the envelope. */
  lemma EnvelopeCovers(price: real, gas: nat)
    requires price > 0.0 && 0 < gas <= CONTAINMENT_GAS
    ensures 0 < Ceil(price * gas as real) <= Unit(price)
  {
    RealMulMono(price, gas as real, CONTAINMENT_GAS as real);
    CeilMonotone(price * gas as real, price * CONTAINMENT_GAS as real);
  }

  predicate EntryOk(e: Entry) {
    e.fee >= 0 && (e.hash.Some? ==> e.fee > 0)
  }

  predicate AllOk<K(!new)>(entries: map<K, Entry>) {
    forall k :: k in entries ==> EntryOk(entries[k])
  }

  ghost function FeesOf<K>(entries: map<K, Entry>): map<K, nat> {
    map k | k in entries :: if entries[k].fee >= 0 then entries[k].fee else 0
  }

  ghost function Total<K>(entries: map<K, Entry>): nat { MapSum.Sum(FeesOf(entries)) }

  /** The entries that count: a bridge journal has no containment and no smoke test. */
  predicate AccountsOk(b: Budget) {
    && AllOk(b.journal)
    && (b.route ==> AllOk(b.smoke) && (b.containment.Some? ==> AllOk(b.containment.value.ops)))
  }

  ghost function Fees(b: Budget): nat {
    Total(b.journal)
    + (if b.route then Total(b.smoke) + (if b.containment.Some? then Total(b.containment.value.ops) else 0) else 0)
  }

  // ---------------------------------------------------------------- reserved slots

  function Eligible(b: Budget): set<Pair> {
    set p | p in b.targets && !b.targets[p]
  }

  function SlotsOf(pairs: set<Pair>): set<Slot> {
    StageSlots(pairs, Pausing) + StageSlots(pairs, Restoring)
  }

  predicate Saved(c: Containment, s: Slot) {
    Key(c.round, s) in c.ops && c.ops[Key(c.round, s)].hash.Some?
  }

  /** The slots of this round that no saved transaction has consumed yet. */
  function OpenSlots(b: Budget, c: Containment): set<Slot> {
    set s | s in SlotsOf(Eligible(b) - c.external) && !Saved(c, s)
  }

  function OpenWith(b: Budget, c: Containment, current: Slot, proposed: int): set<Slot> {
    if proposed > 0 then OpenSlots(b, c) - {current} else OpenSlots(b, c)
  }

  /** The conditions on the action itself, apart from every amount. */
  predicate Owned(b: Budget, r: Request) {
    && b.containment.Some?
    && var c := b.containment.value;
    && (c.phase.Containing? || c.phase.Contained? || c.phase.InRestore?)
    && c.identity == b.identity && c.targets == b.targets
    && r.op == "execute" && r.role == "gov" && r.contract == b.factory && r.onlyPause
    && r.slot.pair in Eligible(b) && r.slot.pair in c.introduced
    && (r.slot.stage.Restoring? ==> PauseIncluded(c, r.slot.pair))
    && c.external <= Eligible(b) && r.slot.pair !in c.external
  }

  predicate PauseIncluded(c: Containment, p: Pair) {
    var k := Key(c.round, Slot(Pausing, p));
    && k in c.ops && c.ops[k].receipt.Some? && c.ops[k].receipt.value.ok
    && c.ops[k].hash == Some(c.ops[k].receipt.value.hash)
  }

  function Reserve(b: Budget, proposed: int, purpose: Purpose): int
    requires purpose.ForRound? ==> b.containment.Some?
  {
    if !b.route then 0
    else if purpose.Normal? then 2 * |Eligible(b)| * Unit(b.price)
    else |OpenWith(b, b.containment.value, purpose.request.slot, proposed)| * Unit(b.price)
  }

  /** What the guard lets through. */
  ghost predicate Admits(b: Budget, proposed: int, purpose: Purpose) {
    && proposed >= 0 && b.cap > 0 && AccountsOk(b)
    && (b.route ==>
          && b.price > 0.0
          && (purpose.ForRound? ==> Owned(b, purpose.request) && proposed <= Unit(b.price)))
    && (!b.route || purpose.Normal? || b.containment.Some?)
    && Fees(b) + proposed + (if b.route then Reserve(b, proposed, purpose) else 0) <= b.cap
  }

  function StageSlots(pairs: set<Pair>, stage: Stage): set<Slot> {
    set p | p in pairs :: Slot(stage, p)
  }

  lemma {:induction false} StageCount(pairs: set<Pair>, stage: Stage)
    ensures |StageSlots(pairs, stage)| == |pairs|
    decreases |pairs|
  {
    if pairs == {} {
      assert StageSlots(pairs, stage) == {};
    } else {
      var p :| p in pairs;
      StageCount(pairs - {p}, stage);
      assert StageSlots(pairs, stage) == StageSlots(pairs - {p}, stage) + {Slot(stage, p)};
    }
  }

  lemma SlotCount(pairs: set<Pair>)
    ensures |SlotsOf(pairs)| == 2 * |pairs|
  {
    StageCount(pairs, Pausing);
    StageCount(pairs, Restoring);
    assert StageSlots(pairs, Pausing) !! StageSlots(pairs, Restoring);
  }

  lemma SubsetSmaller<T>(a: set<T>, b: set<T>)
    requires a <= b
    ensures |a| <= |b|
  {
    assert b == a + (b - a);
  }

  // ---------------------------------------------------------------- the guard

  /** The fees of one journal, unless an entry is malformed. */
  method SumFees<K(!new,==)>(entries: map<K, Entry>) returns (total: Result<int, Refusal>)
    ensures total.Ok? <==> AllOk(entries)
    ensures total.Ok? ==> total.value == Total(entries)
    ensures total.Err? ==> total.error == BadAccounting
  {
    var todo := entries.Keys;
    var amount := 0;
    ghost var left := FeesOf(entries);
    while todo != {}
      invariant todo <= entries.Keys
      invariant left == map k | k in todo :: if entries[k].fee >= 0 then entries[k].fee else 0
      invariant forall k :: k in entries && k !in todo ==> EntryOk(entries[k])
      invariant amount + MapSum.Sum(left) == Total(entries)
      decreases todo
    {
      var k :| k in todo;
      if !EntryOk(entries[k]) {
        return Err(BadAccounting);
      }
      amount := amount + entries[k].fee;
      MapSum.SumTakeOut(left, k);
      todo := todo - {k};
      left := left - {k};
    }
    assert left == map[];
    return Ok(amount);
  }

  predicate Counts(c: Containment, current: Slot, proposed: int, s: Slot) {
    !Saved(c, s) && !(s == current && proposed > 0)
  }

  lemma OpenMeans(b: Budget, c: Containment, current: Slot, proposed: int, s: Slot)
    ensures s in OpenWith(b, c, current, proposed) <==>
            s.pair in Eligible(b) - c.external && Counts(c, current, proposed, s)
  {
    assert s.stage.Pausing? || s.stage.Restoring?;
  }

  /** Count the slots of a round that stay reserved. */
  method CountSlots(b: Budget, c: Containment, current: Slot, proposed: int) returns (slots: nat)
    ensures slots == |OpenWith(b, c, current, proposed)|
  {
    hide Counts, OpenWith, Eligible;
    var owned := Eligible(b) - c.external;
    var todo := owned;
    slots := 0;
    ghost var counted: set<Slot> := {};
    while todo != {}
      invariant todo <= owned
      invariant slots == |counted|
      invariant forall s :: s in counted <==> s.pair in owned - todo && Counts(c, current, proposed, s)
      decreases todo
    {
      var p :| p in todo;
      for k := 0 to 2
        invariant slots == |counted|
        invariant forall s :: s in counted <==>
                    && (s.pair in owned - todo || (s.pair == p && (k == 2 || (k == 1 && s.stage.Pausing?))))
                    && Counts(c, current, proposed, s)
      {
        var s := Slot(if k == 0 then Pausing else Restoring, p);
        if Counts(c, current, proposed, s) {
          slots := slots + 1;
          counted := counted + {s};
        }
      }
      todo := todo - {p};
    }
    forall s
      ensures s in counted <==> s in OpenWith(b, c, current, proposed)
    {
      OpenMeans(b, c, current, proposed, s);
    }
    assert counted == OpenWith(b, c, current, proposed);
  }

  /** The guard in front of every signature and every broadcast. */
  method FeeBudgetGuard(b: Budget, proposed: int, purpose: Purpose) returns (r: Result<Ledger, Refusal>)
    ensures r.Ok? <==> Admits(b, proposed, purpose)
    ensures r.Ok? ==> r.value.fees == Fees(b) && r.value.proposed == proposed && r.value.cap == b.cap
    ensures r.Ok? ==> r.value.reserve == (if b.route then Reserve(b, proposed, purpose) else 0)
  {
    if proposed < 0 || b.cap <= 0 {
      return Err(BadAccounting);
    }
    var fees := SumFees(b.journal);
    if fees.Err? {
      return Err(fees.error);
    }
    var total, reserve := fees.value, 0;
    if b.route {
      if b.containment.Some? {
        var more := SumFees(b.containment.value.ops);
        if more.Err? {
          return Err(more.error);
        }
        total := total + more.value;
      }
      var smoke := SumFees(b.smoke);
      if smoke.Err? {
        return Err(smoke.error);
      }
      total := total + smoke.value;
      if b.price <= 0.0 {
        return Err(BadPrice);
      }
      var slots := 2 * |Eligible(b)|;
      if purpose.ForRound? {
        if !Owned(b, purpose.request) {
          return Err(NotOwned);
        }
        slots := CountSlots(b, b.containment.value, purpose.request.slot, proposed);
        if proposed > Unit(b.price) {
          return Err(OverEnvelope);
        }
      }
      reserve := slots * Unit(b.price);
    }
    if total + proposed + reserve > b.cap {
      return Err(OverBudget);
    }
    return Ok(Ledger(total, proposed, reserve, b.cap));
  }

  // ---------------------------------------------------------------- a containment round is always funded

  /** The fees saved so far and an envelope for every open slot of the round fit under the cap. */
  ghost predicate Funded(b: Budget) {
    && b.route && b.cap > 0 && b.price > 0.0 && AccountsOk(b) && b.containment.Some?
    && Fees(b) + |OpenSlots(b, b.containment.value)| * Unit(b.price) <= b.cap
  }

  /** Start of a round: another round number, nobody introduced, nothing external. */
  function BeginRound(b: Budget, round: nat): Budget
    requires b.containment.Some?
  {
    b.(containment := Some(b.containment.value.(round := round, introduced := {}, external := {}, phase := Containing)))
  }

  /** The first containment journal of a route. */
  function NewContainment(b: Budget): Containment {
    Containment(b.identity, b.targets, New, 1, {}, {}, map[])
  }

  /** A normal transaction is saved in the rollout's journal or among the smoke tests. */
  function SpendNormal(b: Budget, name: string, fee: int, hash: Hash, smoke: bool): Budget {
    var e := Entry(fee, Some(hash), None);
    if smoke then b.(smoke := b.smoke[name := e]) else b.(journal := b.journal[name := e])
  }

  lemma TotalUpdate<K(!new)>(entries: map<K, Entry>, k: K, e: Entry)
    requires AllOk(entries) && EntryOk(e) && (k in entries ==> entries[k].fee == 0)
    ensures AllOk(entries[k := e]) && Total(entries[k := e]) == Total(entries) + e.fee
  {
    var fees := FeesOf(entries);
    assert FeesOf(entries[k := e]) == fees[k := e.fee];
    MapSum.SumUpdate(fees, k, e.fee);
  }

  /** A name is free until a transaction is saved under it. */
  ghost predicate Free(entries: map<string, Entry>, name: string) {
    name in entries ==> entries[name].fee == 0
  }

  lemma OpenAtMost(b: Budget, c: Containment)
    ensures |OpenSlots(b, c)| <= 2 * |Eligible(b)|
  {
    SubsetSmaller(OpenSlots(b, c), SlotsOf(Eligible(b)));
    SlotCount(Eligible(b));
  }

  lemma UnitPositive(price: real)
    requires price > 0.0
    ensures Unit(price) > 0
  {
    EnvelopeCovers(price, CONTAINMENT_GAS);
  }

  lemma MulMono(a: int, b: int, u: int)
    requires a <= b && u >= 0
    ensures a * u <= b * u
  {
  }

  lemma NormalSpendPaid(b: Budget, name: string, fee: int, hash: Hash, smoke: bool)
    requires b.route && Admits(b, fee, Normal) && fee > 0
    requires if smoke then Free(b.smoke, name) else Free(b.journal, name)
    ensures var after := SpendNormal(b, name, fee, hash, smoke);
            AccountsOk(after) && Fees(after) == Fees(b) + fee && Eligible(after) == Eligible(b)
  {
    var e := Entry(fee, Some(hash), None);
    if smoke { TotalUpdate(b.smoke, name, e); } else { TotalUpdate(b.journal, name, e); }
  }

  lemma RoundFunded(b: Budget, c: Containment)
    requires b.route && b.cap > 0 && b.price > 0.0 && AccountsOk(b) && AllOk(c.ops)
    requires Total(c.ops) == (if b.containment.Some? then Total(b.containment.value.ops) else 0)
    requires Fees(b) + 2 * |Eligible(b)| * Unit(b.price) <= b.cap
    ensures Funded(b.(containment := Some(c)))
  {
    hide Unit, OpenSlots, Total;
    AnyRoundFits(b, c);
    assert AnySame(b, c);
  }

  /** After an admitted normal spend a whole round is funded: the running one, a new one, or the very first. */
  lemma NormalSpendFunds(b: Budget, name: string, fee: int, hash: Hash, smoke: bool, round: nat)
    requires b.route && Admits(b, fee, Normal) && fee > 0
    requires if smoke then Free(b.smoke, name) else Free(b.journal, name)
    ensures var after := SpendNormal(b, name, fee, hash, smoke);
            && Admits(after, 0, Normal)
            && Fees(after) == Fees(b) + fee
            && (b.containment.Some? ==> Funded(after) && Funded(BeginRound(after, round)))
            && (b.containment.None? ==> Funded(after.(containment := Some(NewContainment(b)))))
  {
    hide Unit, Fees, Funded, Eligible;
    var after := SpendNormal(b, name, fee, hash, smoke);
    NormalSpendPaid(b, name, fee, hash, smoke);
    if b.containment.Some? {
      RoundFunded(after, after.containment.value);
      assert after.(containment := Some(after.containment.value)) == after;
      RoundFunded(after, BeginRound(after, round).containment.value);
    } else {
      assert FeesOf(NewContainment(b).ops) == map[];
      RoundFunded(after, NewContainment(b));
    }
  }

  /** The slots of a round do not depend on the saved one. */
  ghost predicate AnySame(b: Budget, c: Containment) {
    OpenSlots(b.(containment := Some(c)), c) == OpenSlots(b, c)
  }

  lemma AnyRoundFits(b: Budget, c: Containment)
    requires b.price > 0.0
    ensures |OpenSlots(b, c)| * Unit(b.price) <= 2 * |Eligible(b)| * Unit(b.price)
    ensures AnySame(b, c)
  {
    OpenAtMost(b, c);
    UnitPositive(b.price);
    MulMono(|OpenSlots(b, c)|, 2 * |Eligible(b)|, Unit(b.price));
  }

  lemma MulStep(n: int, u: int)
    ensures n * u == (n - 1) * u + u
  {
  }

  /** The transaction of a containment action is saved before it is broadcast. */
  function Checkpoint(b: Budget, s: Slot, fee: int, hash: Hash): Budget
    requires b.containment.Some?
  {
    var c := b.containment.value;
    b.(containment := Some(c.(ops := c.ops[Key(c.round, s) := Entry(fee, Some(hash), None)])))
  }

  ghost predicate Unspent(c: Containment, s: Slot) {
    Key(c.round, s) in c.ops ==> c.ops[Key(c.round, s)] == Entry(0, None, None)
  }

  /**
   A funded round lets every owned action through at each of its three passes of the guard: before
   signing, before the save, and after the save. It stays funded.
   */
  lemma OwnedActionPasses(b: Budget, r: Request, fee: int, hash: Hash)
    requires Funded(b) && Owned(b, r) && Unspent(b.containment.value, r.slot)
    requires 0 < fee <= Unit(b.price)
    ensures Admits(b, fee, ForRound(r))
    ensures var after := Checkpoint(b, r.slot, fee, hash);
            Funded(after) && Admits(after, 0, ForRound(r)) && Fees(after) == Fees(b) + fee
  {
    hide Unit;
    var c := b.containment.value;
    var after := Checkpoint(b, r.slot, fee, hash);
    var open, u := OpenSlots(b, c), Unit(b.price);
    CheckpointPaid(b, r.slot, fee, hash);
    CheckpointSlots(b, r, fee, hash);
    MulStep(|open|, u);
  }

  lemma CheckpointPaid(b: Budget, s: Slot, fee: int, hash: Hash)
    requires b.route && AccountsOk(b) && b.containment.Some? && Unspent(b.containment.value, s) && fee > 0
    ensures AccountsOk(Checkpoint(b, s, fee, hash)) && Fees(Checkpoint(b, s, fee, hash)) == Fees(b) + fee
  {
    TotalUpdate(b.containment.value.ops, Key(b.containment.value.round, s), Entry(fee, Some(hash), None));
  }

  lemma CheckpointSlots(b: Budget, r: Request, fee: int, hash: Hash)
    requires Owned(b, r) && Unspent(b.containment.value, r.slot)
    ensures var after := Checkpoint(b, r.slot, fee, hash);
            var open := OpenSlots(b, b.containment.value);
            && Owned(after, r) && OpenSlots(after, after.containment.value) == open - {r.slot}
            && |open - {r.slot}| == |open| - 1
  {
    var c, after := b.containment.value, Checkpoint(b, r.slot, fee, hash);
    var open := OpenSlots(b, c);
    assert r.slot in open;
    forall s
      ensures s in OpenSlots(after, after.containment.value) <==> s in open - {r.slot}
    {
      assert Saved(after.containment.value, s) <==> s == r.slot || Saved(c, s);
    }
    assert OpenSlots(after, after.containment.value) == open - {r.slot};
  }

  // ---------------------------------------------------------------- whole rounds

  /** What happens in a round besides reading. */
  datatype Move =
    | Introduce(pair: Pair)
    | FoundPaused(pair: Pair)
    | Act(request: Request, fee: int, hash: Hash)
    | Answer(slot: Slot, receipt: Receipt)
    | Turn(phase: Phase)

  /** The moves that the containment tool makes. */
  ghost predicate MoveOk(b: Budget, m: Move) {
    && b.containment.Some?
    && var c := b.containment.value;
    match m
    case Introduce(p) => p in Eligible(b)
    case FoundPaused(p) => p in Eligible(b)
    case Act(r, fee, _) => Owned(b, r) && Unspent(c, r.slot) && 0 < fee <= Unit(b.price)
    case Answer(s, _) => Key(c.round, s) in c.ops && c.ops[Key(c.round, s)].hash.Some?
    case Turn(_) => true
  }

  function Moved(b: Budget, m: Move): Budget
    requires b.containment.Some?
  {
    var c := b.containment.value;
    match m
    case Introduce(p) => b.(containment := Some(c.(introduced := c.introduced + {p})))
    case FoundPaused(p) => b.(containment := Some(c.(external := c.external + {p})))
    case Act(r, fee, hash) => Checkpoint(b, r.slot, fee, hash)
    case Answer(s, receipt) =>
      if Key(c.round, s) in c.ops
      then
        var op := c.ops[Key(c.round, s)];
        b.(containment := Some(c.(ops := c.ops[Key(c.round, s) := op.(receipt := Some(receipt))])))
      else b
    case Turn(phase) => b.(containment := Some(c.(phase := phase)))
  }

  /** Every guard call of a move is answered with yes. */
  ghost predicate PassesGuard(b: Budget, m: Move)
    requires b.containment.Some?
  {
    m.Act? ==> Admits(b, m.fee, ForRound(m.request)) && Admits(Moved(b, m), 0, ForRound(m.request))
  }

  ghost predicate MovesOk(b: Budget, moves: seq<Move>)
    decreases |moves|
  {
    moves == [] || (MoveOk(b, moves[0]) && MovesOk(Moved(b, moves[0]), moves[1..]))
  }

  ghost predicate AllPass(b: Budget, moves: seq<Move>)
    decreases |moves|
  {
    moves == [] || (b.containment.Some? && PassesGuard(b, moves[0]) && AllPass(Moved(b, moves[0]), moves[1..]))
  }

  lemma OpenShrinks(b: Budget, c: Containment, d: Containment)
    requires b.price > 0.0 && OpenSlots(b, d) <= OpenSlots(b, c)
    ensures |OpenSlots(b, d)| * Unit(b.price) <= |OpenSlots(b, c)| * Unit(b.price)
  {
    SubsetSmaller(OpenSlots(b, d), OpenSlots(b, c));
    UnitPositive(b.price);
    MulMono(|OpenSlots(b, d)|, |OpenSlots(b, c)|, Unit(b.price));
  }

  lemma AnswerKeepsFees(b: Budget, s: Slot, receipt: Receipt)
    requires b.containment.Some? && AllOk(b.containment.value.ops) && MoveOk(b, Answer(s, receipt))
    ensures Total(Moved(b, Answer(s, receipt)).containment.value.ops) == Total(b.containment.value.ops)
    ensures AllOk(Moved(b, Answer(s, receipt)).containment.value.ops)
  {
    assert FeesOf(Moved(b, Answer(s, receipt)).containment.value.ops) == FeesOf(b.containment.value.ops);
  }

  lemma MoveKeepsFunded(b: Budget, m: Move)
    requires Funded(b) && MoveOk(b, m)
    ensures Funded(Moved(b, m)) && PassesGuard(b, m)
  {
    var c := b.containment.value;
    if m.Act? {
      OwnedActionPasses(b, m.request, m.fee, m.hash);
    } else {
      var d := Moved(b, m).containment.value;
      if m.Answer? { AnswerKeepsFees(b, m.slot, m.receipt); }
      assert OpenSlots(b, d) <= OpenSlots(b, c);
      OpenShrinks(b, c, d);
      assert OpenSlots(Moved(b, m), d) == OpenSlots(b, d);
    }
  }

  /** The reserve suffices for the whole round, in whatever order its actions come. */
  lemma {:induction false} RoundAlwaysFunded(b: Budget, moves: seq<Move>)
    requires Funded(b) && MovesOk(b, moves)
    ensures AllPass(b, moves)
    decreases |moves|
  {
    if moves != [] {
      MoveKeepsFunded(b, moves[0]);
      RoundAlwaysFunded(Moved(b, moves[0]), moves[1..]);
    }
  }

  /** Every permitted order of moves passes the guard at every step. */
  ghost predicate AlwaysPasses(b: Budget) {
    forall moves {:trigger MovesOk(b, moves)} :: MovesOk(b, moves) ==> AllPass(b, moves)
  }

  lemma FundedPasses(b: Budget)
    requires Funded(b)
    ensures AlwaysPasses(b)
  {
    forall moves | MovesOk(b, moves)
      ensures AllPass(b, moves)
    {
      RoundAlwaysFunded(b, moves);
    }
  }

  /** From any admitted normal spend on, the running round, a later one or the first never fails for lack of funds. */
  lemma ReserveSuffices(b: Budget, name: string, fee: int, hash: Hash, smoke: bool, round: nat)
    requires b.route && Admits(b, fee, Normal) && fee > 0
    requires if smoke then Free(b.smoke, name) else Free(b.journal, name)
    ensures var after := SpendNormal(b, name, fee, hash, smoke);
            && (b.containment.Some? ==> AlwaysPasses(after) && AlwaysPasses(BeginRound(after, round)))
            && (b.containment.None? ==> AlwaysPasses(after.(containment := Some(NewContainment(b)))))
  {
    hide AlwaysPasses, Funded;
    NormalSpendFunds(b, name, fee, hash, smoke, round);
    var after := SpendNormal(b, name, fee, hash, smoke);
    if b.containment.Some? {
      FundedPasses(after);
      FundedPasses(BeginRound(after, round));
    } else {
      FundedPasses(after.(containment := Some(NewContainment(b))));
    }
  }

  // ---------------------------------------------------------------- exactly when another round is funded

  /** No transaction was journaled under that round yet. */
  ghost predicate FreshRound(c: Containment, round: nat) {
    forall s {:trigger Key(round, s)} :: Key(round, s) !in c.ops
  }

  /** The containment journal belongs to this rollout, and some pair is its own to pause. */
  predicate HasWork(b: Budget) {
    && b.containment.Some? && Eligible(b) != {}
    && b.containment.value.identity == b.identity && b.containment.value.targets == b.targets
  }

  lemma FreshSlots(b: Budget, c: Containment)
    requires FreshRound(c, c.round) && c.external == {}
    ensures OpenSlots(b, c) == SlotsOf(Eligible(b)) && |OpenSlots(b, c)| == 2 * |Eligible(b)|
  {
    assert Eligible(b) - c.external == Eligible(b);
    assert forall s :: !Saved(c, s);
    assert OpenSlots(b, c) == SlotsOf(Eligible(b));
    SlotCount(Eligible(b));
  }

  function FirstPause(b: Budget, p: Pair): Request {
    Request("execute", "gov", b.factory, true, Slot(Pausing, p))
  }

  /** The first pause of a new round that takes the whole envelope passes exactly if the round is funded. */
  lemma FirstPauseExactly(b: Budget, round: nat, p: Pair)
    requires b.route && b.cap > 0 && b.price > 0.0 && AccountsOk(b) && HasWork(b)
    requires FreshRound(b.containment.value, round) && p in Eligible(b)
    ensures var next := Moved(BeginRound(b, round), Introduce(p));
            && MoveOk(BeginRound(b, round), Introduce(p))
            && MoveOk(next, Act(FirstPause(b, p), Unit(b.price), 0))
            && (Admits(next, Unit(b.price), ForRound(FirstPause(b, p))) <==>
                Fees(b) + 2 * |Eligible(b)| * Unit(b.price) <= b.cap)
  {
    hide Unit, Fees, Eligible, SlotsOf;
    var next := Moved(BeginRound(b, round), Introduce(p));
    var c, r := next.containment.value, FirstPause(b, p);
    SameBudget(b, BeginRound(b, round));
    SameBudget(b, next);
    FreshSlots(next, c);
    SlotOpen(next, p);
    UnitPositive(b.price);
    assert |OpenSlots(next, c) - {r.slot}| == 2 * |Eligible(b)| - 1;
    MulStep(2 * |Eligible(b)|, Unit(b.price));
  }

  lemma SameBudget(b: Budget, next: Budget)
    requires b.containment.Some? && next.containment.Some? && next.containment.value.ops == b.containment.value.ops
    requires next == b.(containment := next.containment)
    ensures Fees(next) == Fees(b) && Eligible(next) == Eligible(b) && AccountsOk(next) == AccountsOk(b)
  {
  }

  lemma SlotOpen(b: Budget, p: Pair)
    requires p in Eligible(b)
    ensures Slot(Pausing, p) in SlotsOf(Eligible(b))
  {
  }

  /** Another round passes the guard in every permitted order exactly if the fees and its reserve fit under the cap. */
  lemma NextRoundExactly(b: Budget, round: nat)
    requires b.route && b.cap > 0 && b.price > 0.0 && AccountsOk(b) && b.containment.Some?
    requires FreshRound(b.containment.value, round)
    ensures AlwaysPasses(BeginRound(b, round)) <==>
            (HasWork(b) ==> Fees(b) + 2 * |Eligible(b)| * Unit(b.price) <= b.cap)
  {
    hide Fees, Unit, Eligible, Funded, Admits, MoveOk, AccountsOk;
    var start := BeginRound(b, round);
    if Fees(b) + 2 * |Eligible(b)| * Unit(b.price) <= b.cap {
      SameBudget(b, start);
      OnlyAllOk(b);
      RoundFunded(b, start.containment.value);
      assert b.(containment := Some(start.containment.value)) == start;
      FundedPasses(start);
    } else if HasWork(b) {
      var p :| p in Eligible(b);
      var pause := Act(FirstPause(b, p), Unit(b.price), 0);
      FirstPauseExactly(b, round, p);
      var next := Moved(start, Introduce(p));
      TwoMoves(start, Introduce(p), pause);
    } else {
      SameBudget(b, start);
      NoWorkPasses(start);
    }
  }

  lemma OnlyAllOk(b: Budget)
    requires b.route && AccountsOk(b) && b.containment.Some?
    ensures AllOk(b.containment.value.ops)
  {
  }

  /** Two permitted moves of which the second is refused. */
  lemma TwoMoves(b: Budget, m: Move, act: Move)
    requires MoveOk(b, m) && b.containment.Some? && MoveOk(Moved(b, m), act) && act.Act?
    requires !Admits(Moved(b, m), act.fee, ForRound(act.request))
    ensures !AlwaysPasses(b)
  {
    hide Admits, MoveOk;
    var moves := [m, act];
    assert moves[1..] == [act] && [act][1..] == [];
    assert MovesOk(Moved(b, m), [act]) && MovesOk(b, moves);
    assert !AllPass(Moved(b, m), [act]) && !AllPass(b, moves);
  }

  /** Without work of its own a round makes no transaction. */
  lemma NoWorkPasses(b: Budget)
    requires b.containment.Some? && !HasWork(b)
    ensures AlwaysPasses(b)
  {
    forall moves | MovesOk(b, moves)
      ensures AllPass(b, moves)
    {
      IdlePasses(b, moves);
    }
  }

  lemma {:induction false} IdlePasses(b: Budget, moves: seq<Move>)
    requires b.containment.Some? && !HasWork(b) && MovesOk(b, moves)
    ensures AllPass(b, moves)
    decreases |moves|
  {
    if moves != [] {
      IdleStays(b, moves[0]);
      IdlePasses(Moved(b, moves[0]), moves[1..]);
    }
  }

  lemma IdleStays(b: Budget, m: Move)
    requires b.containment.Some? && !HasWork(b) && MoveOk(b, m)
    ensures !m.Act? && Moved(b, m).containment.Some? && !HasWork(Moved(b, m))
  {
  }

  /** Whatever is admitted, saved fees never exceed the cap. */
  lemma AdmittedWithinCap(b: Budget, proposed: int, purpose: Purpose)
    requires Admits(b, proposed, purpose)
    ensures Fees(b) + proposed <= b.cap
  {
    if b.route {
      UnitPositive(b.price);
      if purpose.ForRound? {
        MulMono(0, |OpenWith(b, b.containment.value, purpose.request.slot, proposed)|, Unit(b.price));
      } else {
        MulMono(0, 2 * |Eligible(b)|, Unit(b.price));
      }
    }
  }

  const PAID := Entry(2_000_000, Some(1), Some(Receipt(1, true)))
  const PAUSED_ONCE: map<Key, Entry> := map[Key(1, Slot(Pausing, "p")) := PAID]
  const WHOLE_ROUND: map<Key, Entry> := PAUSED_ONCE[Key(1, Slot(Restoring, "p")) := PAID]

  /** A route with one running pair that has spent exactly its reserve on a whole round. */
  function SpentRound(): Budget {
    var c := Containment(0, map["p" := false], Restored, 1, {"p"}, {}, WHOLE_ROUND);
    Budget(4_000_000, true, 0, "factory", map["p" := false], 1.0, map[], map[], Some(c))
  }

  lemma WholeRoundTotal()
    ensures AllOk(WHOLE_ROUND) && Total(WHOLE_ROUND) == 4_000_000
  {
    var none: map<Key, Entry> := map[];
    assert FeesOf(none) == map[];
    TotalUpdate(none, Key(1, Slot(Pausing, "p")), PAID);
    assert PAUSED_ONCE == none[Key(1, Slot(Pausing, "p")) := PAID];
    TotalUpdate(PAUSED_ONCE, Key(1, Slot(Restoring, "p")), PAID);
  }

  lemma SpentFees(b: Budget)
    requires b.route && b.journal == map[] && b.smoke == map[] && b.containment.Some?
             && b.containment.value.ops == WHOLE_ROUND
    ensures AccountsOk(b) && Fees(b) == 4_000_000
  {
    WholeRoundTotal();
    assert FeesOf(b.journal) == map[] && FeesOf(b.smoke) == map[];
  }

  /** A whole round may be spent while the next one fails. */
  lemma OneRoundOnly()
    ensures Funded(SpentRound()) && !AlwaysPasses(BeginRound(SpentRound(), 2))
  {
    hide Fees, AccountsOk, AlwaysPasses;
    var b := SpentRound();
    SpentFees(b);
    assert OpenSlots(b, b.containment.value) == {};
    assert "p" in Eligible(b);
    UnitPositive(b.price);
    MulMono(1, 2 * |Eligible(b)|, Unit(b.price));
    NextRoundExactly(b, 2);
  }
}

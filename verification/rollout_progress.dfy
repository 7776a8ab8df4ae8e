/** How the settled position advances as `execute` and `finalize` walk through the plan. */
module RolloutProgress {
  import opened RolloutPlan

  /** One operation gained its receipt; every other entry is as before. */
  ghost predicate Settles(j: Journal, k: Journal, n: OpName) {
    && Extends(j, k) && k.codes == j.codes && k.status == j.status
    && Receipted(k, n)
    && forall m :: m != n ==> (m in k.ops <==> m in j.ops) && (m in j.ops ==> k.ops[m] == j.ops[m])
  }

  /** The number of positions in a stage. */
  function Width(inv: Inventory, stage: nat): nat {
    if stage == 0 || stage >= 16 then |inv.markets|
    else if stage == 11 then |inv.tokens|
    else 1
  }

  lemma InWidth(j: Journal, n: OpName)
    requires WellShaped(j.inv) && Required(j, n)
    ensures Index(j.inv, n) < Width(j.inv, Stage(n))
  {
    KnownMigrate(j, n);
  }

  /** After its receipt the next position is settled. */
  lemma Advance(j: Journal, k: Journal, n: OpName)
    requires WellShaped(j.inv) && WellNamed(j, n)
    requires ReadyFor(j, n) && Settles(j, k, n)
    ensures Ready(k, Stage(n), Index(j.inv, n) + 1)
  {
    ReadyExtends(j, k, Stage(n), Index(j.inv, n));
    forall m | Required(k, m) && Before(k.inv, m, Stage(n), Index(j.inv, n) + 1)
      ensures Receipted(k, m)
    {
      if !Before(k.inv, m, Stage(n), Index(j.inv, n)) {
        assert WellNamed(k, n);
        SamePosition(k, m, n);
      }
    }
  }

  /** A position without a required operation is passed by. */
  lemma Skip(j: Journal, stage: nat, idx: nat)
    requires Ready(j, stage, idx)
    requires forall m :: Required(j, m) ==> !(Stage(m) == stage && Index(j.inv, m) == idx)
    ensures Ready(j, stage, idx + 1)
  {
  }

  lemma StageDone(j: Journal, stage: nat)
    requires WellShaped(j.inv) && Ready(j, stage, Width(j.inv, stage))
    requires forall r :: Wanted(j, r) && StoreStage(r) == stage ==> r in j.codes
    ensures Ready(j, stage + 1, 0)
  {
    forall m | Required(j, m) && Before(j.inv, m, stage + 1, 0)
      ensures Receipted(j, m)
    {
      InWidth(j, m);
    }
  }

  /** A stage that holds no required operation. */
  lemma EmptyStage(j: Journal, stage: nat)
    requires WellShaped(j.inv) && Ready(j, stage, 0)
    requires forall m :: Required(j, m) ==> Stage(m) != stage
    requires forall r :: Wanted(j, r) && StoreStage(r) == stage ==> r in j.codes
    ensures Ready(j, stage + 1, 0)
  {
  }

  /** Stages that only upload code. */
  lemma StoreStageDone(j: Journal, role: Role)
    requires WellShaped(j.inv) && Ready(j, StoreStage(role), 0)
    requires role in j.codes
    ensures Ready(j, StoreStage(role) + 1, 0)
  {
    forall m | Required(j, m)
      ensures Stage(m) != StoreStage(role)
    {
      KnownMigrate(j, m);
      if Stage(m) == StoreStage(role) { StoreIsAlone(m, role); }
    }
    EmptyStage(j, StoreStage(role));
  }

  lemma StoreIsAlone(m: OpName, role: Role)
    requires Stage(m) == StoreStage(role) && Migratable(m)
    ensures m == Store(role)
  {
    SameStage(m, Store(role));
  }

  /** The item a required migration of a role belongs to. */
  lemma MigrationItem(j: Journal, n: OpName, it: Item)
    requires WellShaped(j.inv) && DistinctAddresses(j.inv) && IsItem(j.inv, it)
    requires Required(j, n) && Stage(n) == Stage(ItemMigrate(it)) && Index(j.inv, n) == Index(j.inv, ItemMigrate(it))
    requires it.role == Token || it.role == Pair || it.role in CORE_ROLES
    ensures n == ItemMigrate(it) && it.needsMigrate
  {
    KnownMigrate(j, n);
    SameStage(n, ItemMigrate(it));
    var other :| IsItem(j.inv, other) && other.needsMigrate && ItemMigrate(other) == n;
    if it.role == Token {
      TokenPosition(j.inv, it);
    } else if it.role == Pair {
      PairPosition(j.inv, it);
    }
  }

  lemma TokenPosition(inv: Inventory, it: Item)
    requires WellShaped(inv) && IsItem(inv, it) && it.role == Token
    ensures it in inv.tokens
    ensures TokenIndex(inv, it.address) < |inv.tokens| && inv.tokens[TokenIndex(inv, it.address)] == it
  {
    if i :| 0 <= i < |inv.tokens| && inv.tokens[i] == it {
      assert inv.tokens[i].address == it.address;
    }
  }

  lemma PairPosition(inv: Inventory, it: Item)
    requires WellShaped(inv) && IsItem(inv, it) && it.role == Pair
    ensures MarketIndex(inv, it.address) < |inv.markets| && inv.markets[MarketIndex(inv, it.address)].item == it
  {
    var i :| 0 <= i < |inv.markets| && inv.markets[i].item == it;
    assert inv.markets[i].item.address == it.address;
  }

  /** The position of the market and token at a given index. */
  lemma MarketAt(inv: Inventory, i: nat)
    requires WellShaped(inv) && i < |inv.markets|
    ensures MarketIndex(inv, inv.markets[i].item.address) == i
    ensures IsItem(inv, inv.markets[i].item)
  {
  }

  lemma TokenAt(inv: Inventory, i: nat)
    requires WellShaped(inv) && i < |inv.tokens|
    ensures TokenIndex(inv, inv.tokens[i].address) == i
    ensures IsItem(inv, inv.tokens[i])
  {
    assert inv.tokens[i] in inv.tokens;
  }
}

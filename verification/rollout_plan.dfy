/**
 The rollout's immutable inventory, its write-ahead journal, and the order in which
 `execute` and `finalize` work through the operations.

 A signed transaction stands for its own hash: SHA-256 is taken to be injective.
 */
module RolloutPlan {
  import opened Wrappers
  import MapSum

  type Address = string
  type CodeId = nat

  datatype Role = Factory | Router | Launcher | Cmm | Token | Pair | Autolp

  /** A version, ordered as its three-part tuple. */
  datatype Version = Version(major: nat, minor: nat, patch: nat)

  predicate AtLeast(v: Version, w: Version) {
    if v.major != w.major then v.major > w.major
    else if v.minor != w.minor then v.minor > w.minor
    else v.patch >= w.patch
  }

  /** The cw2 record of a contract. */
  datatype Cw2 = Cw2(contract: string, version: Version)

  /**
   Contract code: its checksum, the cw2 record it writes when migrated to, and what its queries answer: whether
   it advertises funding and single-use settlement, its configured rates, and reconciling tax previews.
   */
  datatype Wasm = Wasm(sha: string, cw2: Cw2, funded: bool, settles: bool, rates: bool, previews: bool)

  function SpecName(role: Role): string {
    match role
    case Factory => "cl8y-dex-factory"
    case Pair => "cl8y-dex-pair"
    case Router => "cl8y-dex-router"
    case Token => "crates.io:cl8y-community-tax-token"
    case Autolp => "crates.io:cl8y-community-tax-autolp"
    case Launcher => "crates.io:cl8y-community-token-launcher"
    case Cmm => "crates.io:treasury"
  }

  /** `settings` stands for the compared configuration beside codes and templates, `holdings` for a supply or pool. */
  datatype Item = Item(
    address: Address, role: Role, admin: Address, code: CodeId, cw2: Cw2, wasm: Wasm, needsMigrate: bool,
    settings: string, holdings: string)

  datatype Market = Market(item: Item, paused: bool, affected: bool, assets: seq<Address>)

  datatype Inventory = Inventory(
    instances: map<Role, Item>, markets: seq<Market>, tokens: seq<Item>,
    whitelist: set<CodeId>, pairTemplate: CodeId, launcherToken: CodeId, launcherAutolp: Option<CodeId>)

  /** The factory's pairs and their assets are the inventoried ones. */
  predicate SamePairs(pairs: map<Address, seq<Address>>, inv: Inventory) {
    && (forall m | m in inv.markets :: m.item.address in pairs && pairs[m.item.address] == m.assets)
    && (forall p | p in pairs.Keys :: exists m | m in inv.markets :: m.item.address == p)
  }

  /** A managed token is traded in a pair. */
  predicate TokenPaired(inv: Inventory) {
    exists it | it in inv.tokens :: exists m | m in inv.markets :: it.address in m.assets
  }

  const FUNDED_SINCE: Version := Version(1, 2, 0)
  const SETTLES_SINCE: Version := Version(1, 3, 0)

  /** The probes of the drift check: from these versions on, router and tokens must advertise what they do. */
  predicate Answers(role: Role, version: Version, wasm: Wasm) {
    && ((role == Router || role == Token) && AtLeast(version, FUNDED_SINCE) ==> wasm.funded)
    && (role == Router && AtLeast(version, SETTLES_SINCE) ==> wasm.settles)
  }

  /** The probes of the inventory: settlement is asked of a current router only. */
  predicate Probed(it: Item) {
    && ((it.role == Router || it.role == Token) && AtLeast(it.cw2.version, FUNDED_SINCE) ==> it.wasm.funded)
    && (it.role == Router && !it.needsMigrate ==> it.wasm.settles)
  }

  const CORE_ROLES: seq<Role> := [Factory, Router, Launcher, Cmm]

  /** The inventoried contracts in the order in which they are re-checked. */
  function AllItems(inv: Inventory): seq<Item> {
    InstanceItems(inv, CORE_ROLES) + MarketItems(inv.markets) + inv.tokens
  }

  function InstanceItems(inv: Inventory, roles: seq<Role>): seq<Item> {
    if roles == [] then []
    else if roles[0] in inv.instances then [inv.instances[roles[0]]] + InstanceItems(inv, roles[1..])
    else InstanceItems(inv, roles[1..])
  }

  function MarketItems(markets: seq<Market>): (items: seq<Item>)
    ensures |items| == |markets|
    ensures forall i :: 0 <= i < |markets| ==> items[i] == markets[i].item
  {
    seq(|markets|, i requires 0 <= i < |markets| => markets[i].item)
  }

  lemma {:induction false} InstanceItemsIn(inv: Inventory, roles: seq<Role>, it: Item)
    ensures it in InstanceItems(inv, roles) <==> exists r :: r in roles && r in inv.instances && inv.instances[r] == it
  {
    if roles != [] {
      InstanceItemsIn(inv, roles[1..], it);
      assert roles == [roles[0]] + roles[1..];
    }
  }

  /** What `AllItems` lists, without its order. */
  ghost predicate IsItem(inv: Inventory, it: Item) {
    || (it.role in inv.instances && inv.instances[it.role] == it)
    || (exists i :: 0 <= i < |inv.markets| && inv.markets[i].item == it)
    || it in inv.tokens
  }

  lemma AllItemsIn(inv: Inventory, it: Item)
    requires WellShaped(inv)
    ensures it in AllItems(inv) <==> IsItem(inv, it)
  {
    InstanceItemsIn(inv, CORE_ROLES, it);
    var markets := MarketItems(inv.markets);
    if it in markets {
      var i :| 0 <= i < |markets| && markets[i] == it;
      assert inv.markets[i].item == it;
    }
    if i :| 0 <= i < |inv.markets| && inv.markets[i].item == it {
      assert markets[i] == it;
    }
  }

  /** Every contract sits under its own role and no address is listed twice. */
  ghost predicate WellShaped(inv: Inventory) {
    && (forall r :: r in inv.instances ==> r in CORE_ROLES && inv.instances[r].role == r)
    && Factory in inv.instances && Router in inv.instances && Launcher in inv.instances
    && (forall i :: 0 <= i < |inv.markets| ==> inv.markets[i].item.role == Pair)
    && (forall i :: 0 <= i < |inv.tokens| ==> inv.tokens[i].role == Token)
    && (forall i, k :: 0 <= i < k < |inv.markets| ==> inv.markets[i].item.address != inv.markets[k].item.address)
    && (forall i, k :: 0 <= i < k < |inv.tokens| ==> inv.tokens[i].address != inv.tokens[k].address)
  }

  /** Contracts that share an address are the same inventory entry. */
  ghost predicate DistinctAddresses(inv: Inventory) {
    forall a, b {:trigger IsItem(inv, a), IsItem(inv, b)} ::
      IsItem(inv, a) && IsItem(inv, b) && a.address == b.address ==> a == b
  }

  // ---------------------------------------------------------------- operations

  /** The journal's operation names. */
  datatype OpName =
    | Pause(pair: Address)
    | Store(role: Role)
    | Migrate(target: Role, contract: Address)
    | Whitelist
    | LauncherTemplate
    | PairTemplate
    | Refresh(pair: Address)
    | Restore(pair: Address)

  /** What a transaction asks of the chain. */
  datatype Action =
    | SetPaused(pair: Address, paused: bool)
    | StoreCode(wasm: Wasm)
    | MigrateTo(contract: Address, code: CodeId, admin: Address)
    | ListCode(code: CodeId)
    | SetLauncher(token: CodeId, autolp: Option<CodeId>)
    | SetPairTemplate(code: CodeId)
    | RefreshPins(pair: Address)

  /** Signed bytes, which are also their hash. */
  datatype Tx = Tx(action: Action, sequence: nat, fee: nat)

  datatype Receipt = Receipt(tx: Tx, ok: bool, code: Option<CodeId>)

  datatype Op = Op(action: Action, signed: Option<Tx>, receipt: Option<Receipt>)

  datatype Status = Planned | Executing | ReadyPaused | Complete

  /** The inputs a journal is bound to. */
  datatype Identity = Identity(artifacts: map<Role, Wasm>, cap: nat, governance: Address, tokenAdmins: set<Address>)

  datatype Journal = Journal(
    identity: Identity, inv: Inventory, ops: map<OpName, Op>, codes: map<Role, CodeId>, status: Status)

  predicate WellIdentified(id: Identity) {
    && {Factory, Pair, Router, Token} <= id.artifacts.Keys
    && (forall r :: r in id.artifacts ==> id.artifacts[r].cw2.contract == SpecName(r))
  }

  predicate Affected(inv: Inventory, pair: Address) {
    exists i :: 0 <= i < |inv.markets| && inv.markets[i].item.address == pair && inv.markets[i].affected
  }

  /** The inventoried pause flag of a listed pair. */
  function OriginalPause(inv: Inventory, pair: Address): (paused: bool)
    requires exists i :: 0 <= i < |inv.markets| && inv.markets[i].item.address == pair
    ensures WellShaped(inv) ==>
              forall i :: 0 <= i < |inv.markets| && inv.markets[i].item.address == pair ==>
                inv.markets[i].paused == paused
  {
    inv.markets[MarketIndex(inv, pair)].paused
  }

  function IndexOf(addresses: seq<Address>, a: Address): (i: nat)
    ensures i <= |addresses|
    ensures i < |addresses| ==> addresses[i] == a
    ensures forall k :: 0 <= k < i ==> addresses[k] != a
    ensures a in addresses ==> i < |addresses|
  {
    if addresses == [] || addresses[0] == a then 0 else
      var rest := IndexOf(addresses[1..], a);
      assert forall k :: 1 <= k < rest + 1 ==> addresses[k] == addresses[1..][k - 1];
      rest + 1
  }

  function MarketAddresses(inv: Inventory): (s: seq<Address>)
    ensures |s| == |inv.markets|
    ensures forall i :: 0 <= i < |s| ==> s[i] == inv.markets[i].item.address
  {
    seq(|inv.markets|, i requires 0 <= i < |inv.markets| => inv.markets[i].item.address)
  }

  function TokenAddresses(inv: Inventory): (s: seq<Address>)
    ensures |s| == |inv.tokens|
    ensures forall i :: 0 <= i < |s| ==> s[i] == inv.tokens[i].address
  {
    seq(|inv.tokens|, i requires 0 <= i < |inv.tokens| => inv.tokens[i].address)
  }

  function MarketIndex(inv: Inventory, pair: Address): (i: nat)
    ensures i <= |inv.markets|
    ensures i < |inv.markets| ==> inv.markets[i].item.address == pair
    ensures (exists k :: 0 <= k < |inv.markets| && inv.markets[k].item.address == pair) ==> i < |inv.markets|
  {
    assert forall k :: 0 <= k < |inv.markets| ==> MarketAddresses(inv)[k] == inv.markets[k].item.address;
    IndexOf(MarketAddresses(inv), pair)
  }

  function TokenIndex(inv: Inventory, token: Address): (i: nat)
    ensures i <= |inv.tokens|
    ensures i < |inv.tokens| ==> inv.tokens[i].address == token
    ensures (exists k :: 0 <= k < |inv.tokens| && inv.tokens[k].address == token) ==> i < |inv.tokens|
  {
    assert forall k :: 0 <= k < |inv.tokens| ==> TokenAddresses(inv)[k] == inv.tokens[k].address;
    IndexOf(TokenAddresses(inv), token)
  }

  // ---------------------------------------------------------------- the order of work

  function StoreStage(role: Role): nat {
    match role
    case Factory => 1
    case Router => 3
    case Launcher => 5
    case Cmm => 7
    case Token => 9
    case Autolp => 12
    case Pair => 14
  }

  const WHITELIST_STAGE: nat := 10
  const RESTORE_STAGE: nat := 18

  /** The position of an operation among the steps of `execute` and `finalize`. */
  function Stage(n: OpName): nat {
    match n
    case Pause(_) => 0
    case Store(r) => StoreStage(r)
    case Whitelist => WHITELIST_STAGE
    case Migrate(r, _) => if r == Token then 11 else if r == Pair then 16 else StoreStage(r) + 1
    case LauncherTemplate => 13
    case PairTemplate => 15
    case Refresh(_) => 17
    case Restore(_) => RESTORE_STAGE
  }

  /** The position of an operation within its stage: inventory order. */
  function Index(inv: Inventory, n: OpName): nat {
    match n
    case Pause(p) => MarketIndex(inv, p)
    case Refresh(p) => MarketIndex(inv, p)
    case Restore(p) => MarketIndex(inv, p)
    case Migrate(r, a) => if r == Token then TokenIndex(inv, a) else if r == Pair then MarketIndex(inv, a) else 0
    case _ => 0
  }

  ghost predicate Before(inv: Inventory, n: OpName, stage: nat, idx: nat) {
    Stage(n) < stage || (Stage(n) == stage && Index(inv, n) < idx)
  }

  function ItemMigrate(it: Item): OpName { Migrate(it.role, it.address) }

  /** The operations a finished rollout must have a receipt for, whatever the chain answers. */
  ghost predicate Required(j: Journal, n: OpName) {
    match n
    case Pause(p) => Affected(j.inv, p)
    case Refresh(p) => Affected(j.inv, p)
    case Restore(p) => Affected(j.inv, p)
    case Migrate(r, a) => exists it :: IsItem(j.inv, it) && it.needsMigrate && ItemMigrate(it) == n
    case LauncherTemplate => true
    case PairTemplate => Pair in j.codes && j.codes[Pair] != j.inv.pairTemplate
    case _ => false
  }

  /** The roles whose code id `execute` settles. */
  ghost predicate Wanted(j: Journal, r: Role) {
    r in j.inv.instances || r == Token || r == Pair || (r == Autolp && Autolp in j.identity.artifacts)
  }

  ghost predicate Receipted(j: Journal, n: OpName) {
    n in j.ops && j.ops[n].receipt.Some?
  }

  ghost predicate HasTx(j: Journal, n: OpName, tx: Tx) {
    n in j.ops && j.ops[n].signed == Some(tx)
  }

  ghost predicate IsSigned(j: Journal, n: OpName) {
    n in j.ops && j.ops[n].signed.Some?
  }

  /** Everything that precedes the given position is settled. */
  ghost predicate Ready(j: Journal, stage: nat, idx: nat) {
    && (forall n {:trigger Required(j, n)} :: Required(j, n) && Before(j.inv, n, stage, idx) ==> Receipted(j, n))
    && (forall r :: Wanted(j, r) && StoreStage(r) < stage ==> r in j.codes)
  }

  ghost predicate ReadyFor(j: Journal, n: OpName) {
    Ready(j, Stage(n), Index(j.inv, n))
  }

  /** All work before the restores is receipted. */
  ghost predicate WorkDone(j: Journal) {
    Ready(j, RESTORE_STAGE, 0)
  }

  // ---------------------------------------------------------------- the journal

  /** A role whose artifact may have to be uploaded. */
  ghost predicate Uploads(j: Journal, r: Role) {
    Wanted(j, r) && r in j.identity.artifacts && (r in j.inv.instances ==> j.inv.instances[r].needsMigrate)
  }

  ghost predicate WellNamed(j: Journal, n: OpName) {
    || Required(j, n)
    || (n.Store? && Uploads(j, n.role))
    || n == Whitelist
  }

  /** The action an operation name stands for. */
  ghost predicate Performs(j: Journal, n: OpName, action: Action) {
    match n
    case Pause(p) => action == SetPaused(p, true)
    case Restore(p) => Affected(j.inv, p) && action == SetPaused(p, OriginalPause(j.inv, p))
    case Store(r) => r in j.identity.artifacts && action == StoreCode(j.identity.artifacts[r])
    case Migrate(r, a) =>
      && r in j.codes && action.MigrateTo? && action.contract == a && action.code == j.codes[r]
      && (forall it {:trigger IsItem(j.inv, it)} :: IsItem(j.inv, it) && ItemMigrate(it) == n ==>
          action.admin == it.admin)
    case Whitelist => Token in j.codes && action == ListCode(j.codes[Token])
    case LauncherTemplate =>
      && Token in j.codes && (Autolp in j.identity.artifacts ==> Autolp in j.codes)
      && action == SetLauncher(j.codes[Token], if Autolp in j.identity.artifacts then Some(j.codes[Autolp]) else None)
    case PairTemplate => Pair in j.codes && action == SetPairTemplate(j.codes[Pair])
    case Refresh(p) => action == RefreshPins(p)
  }

  /** A name stands for one action, so a resumed run always finds the action it expects. */
  lemma ActionKnown(j: Journal, n: OpName, a: Action, b: Action)
    requires WellNamed(j, n) && Performs(j, n, a) && Performs(j, n, b)
    ensures a == b
  {
    if n.Migrate? {
      var it :| IsItem(j.inv, it) && it.needsMigrate && ItemMigrate(it) == n;
    }
  }

  function Fee(op: Op): nat {
    if op.signed.Some? then op.signed.value.fee else 0
  }

  function FeesOf(ops: map<OpName, Op>): map<OpName, nat> {
    map n | n in ops :: Fee(ops[n])
  }

  /** All saved fees: a signed transaction counts whether or not it is included. */
  ghost function TotalFees(j: Journal): nat {
    MapSum.Sum(FeesOf(j.ops))
  }

  ghost predicate OpOk(j: Journal, n: OpName)
    requires n in j.ops
  {
    var op := j.ops[n];
    && WellNamed(j, n)
    && Performs(j, n, op.action)
    && (op.signed.Some? ==> op.signed.value.action == op.action && op.signed.value.fee > 0 && ReadyFor(j, n))
    && (op.receipt.Some? ==> op.signed == Some(op.receipt.value.tx) && op.receipt.value.ok)
    && (n.Store? && n.role in j.codes ==> op.receipt.Some?)
  }

  ghost predicate OpsOk(j: Journal) {
    forall n {:trigger OpOk(j, n)} :: n in j.ops ==> OpOk(j, n)
  }

  /** No transaction is saved under two names. */
  ghost predicate DistinctSigned(j: Journal) {
    forall m, n {:trigger IsSigned(j, m), IsSigned(j, n)} ::
      IsSigned(j, m) && IsSigned(j, n) && j.ops[m].signed == j.ops[n].signed ==> m == n
  }

  ghost predicate StatusOk(j: Journal) {
    && (j.status.ReadyPaused? || j.status.Complete? ==> WorkDone(j))
    && (j.status.Complete? ==> Ready(j, RESTORE_STAGE + 1, 0))
  }

  ghost predicate InventoryOk(id: Identity, inv: Inventory) {
    && WellIdentified(id)
    && WellShaped(inv) && DistinctAddresses(inv)
    && (forall it {:trigger IsItem(inv, it)} :: IsItem(inv, it) && it.needsMigrate ==>
        it.role in id.artifacts && it.cw2 != id.artifacts[it.role].cw2)
    && (forall it {:trigger IsItem(inv, it)} :: IsItem(inv, it) && !it.needsMigrate && it.role in id.artifacts ==>
          it.wasm == id.artifacts[it.role] && it.cw2 == id.artifacts[it.role].cw2)
    && (forall i :: 0 <= i < |inv.markets| && inv.markets[i].item.needsMigrate ==> inv.markets[i].affected)
    && (forall it {:trigger IsItem(inv, it)} :: IsItem(inv, it) ==> Probed(it))
    && inv.tokens != []
  }

  /** The journal invariant: it holds of every state ever saved. */
  ghost predicate JournalOk(j: Journal) {
    && InventoryOk(j.identity, j.inv)
    && OpsOk(j) && DistinctSigned(j)
    && TotalFees(j) <= j.identity.cap
    && StatusOk(j)
  }

  /** Once migrated, the contract runs the very code id it was inventoried with, or does not answer the probes. */
  ghost predicate TripsAfter(j: Journal, it: Item) {
    || (it.role in j.codes && it.code == j.codes[it.role])
    || (it.role in j.identity.artifacts
        && !Answers(it.role, j.identity.artifacts[it.role].cw2.version, j.identity.artifacts[it.role]))
  }

  /** A contract whose migration the drift check will refuse. */
  ghost predicate Trips(j: Journal, it: Item) {
    IsItem(j.inv, it) && it.needsMigrate && TripsAfter(j, it)
  }

  /** A contract that does not answer the probes until it is migrated. */
  ghost predicate Mute(inv: Inventory, it: Item) {
    IsItem(inv, it) && it.needsMigrate && !Answers(it.role, it.cw2.version, it.wasm)
  }

  /** The operation comes before the migrations that trip, and behind those of mute contracts. */
  ghost predicate ClearFor(j: Journal, n: OpName) {
    && (forall it {:trigger Trips(j, it)} :: Trips(j, it) ==>
        !Before(j.inv, ItemMigrate(it), Stage(n), Index(j.inv, n)))
    && (forall it {:trigger Mute(j.inv, it)} :: Mute(j.inv, it) ==>
        Before(j.inv, ItemMigrate(it), Stage(n), Index(j.inv, n)))
  }

  /** A later journal of the same rollout: nothing saved is ever lost or replaced. */
  ghost predicate Extends(j: Journal, k: Journal) {
    && k.identity == j.identity && k.inv == j.inv
    && (forall r :: r in j.codes ==> r in k.codes && k.codes[r] == j.codes[r])
    && (forall n :: n in j.ops ==>
          && n in k.ops && k.ops[n].action == j.ops[n].action
          && (j.ops[n].signed.Some? ==> k.ops[n].signed == j.ops[n].signed)
          && (j.ops[n].receipt.Some? ==> k.ops[n].receipt == j.ops[n].receipt))
  }

  lemma ExtendsTrans(a: Journal, b: Journal, c: Journal)
    requires Extends(a, b) && Extends(b, c)
    ensures Extends(a, c)
  {
  }

  /** What was ready stays ready: settling the pair code never adds work that was already passed. */
  lemma ReadyExtends(j: Journal, k: Journal, stage: nat, idx: nat)
    requires Extends(j, k) && Ready(j, stage, idx)
    ensures Ready(k, stage, idx)
  {
    forall n | Required(k, n) && Before(k.inv, n, stage, idx)
      ensures Receipted(k, n)
    {
      if n == PairTemplate {
        assert stage >= 15;
        assert stage > 15 ==> Wanted(j, Pair) && Pair in j.codes;
      }
      assert Required(j, n);
    }
    forall r | Wanted(k, r) && StoreStage(r) < stage
      ensures r in k.codes
    {
      assert Wanted(j, r);
    }
  }

  /** A required migration names an inventoried contract of a role that is never Autolp. */
  lemma KnownMigrate(j: Journal, n: OpName)
    requires WellShaped(j.inv) && WellNamed(j, n)
    ensures n.Migrate? && n.target == Token ==>
            Index(j.inv, n) < |j.inv.tokens| && j.inv.tokens[Index(j.inv, n)].address == n.contract
    ensures n.Migrate? && n.target == Pair ==>
            Index(j.inv, n) < |j.inv.markets| && j.inv.markets[Index(j.inv, n)].item.address == n.contract
    ensures n.Migrate? && n.target != Token && n.target != Pair ==>
              n.target in CORE_ROLES && n.target in j.inv.instances && j.inv.instances[n.target].address == n.contract
    ensures n.Pause? || n.Refresh? || n.Restore? ==>
              Index(j.inv, n) < |j.inv.markets| && j.inv.markets[Index(j.inv, n)].item.address == n.pair
  {
    if n.Migrate? {
      var it :| IsItem(j.inv, it) && it.needsMigrate && ItemMigrate(it) == n;
      if it in j.inv.tokens {
        var i :| 0 <= i < |j.inv.tokens| && j.inv.tokens[i] == it;
      }
    }
  }

  ghost predicate Migratable(n: OpName) {
    n.Migrate? ==> n.target in CORE_ROLES || n.target == Token || n.target == Pair
  }

  /** A stage belongs to one kind of operation and, for stores and migrations, to one role. */
  lemma SameStage(m: OpName, n: OpName)
    requires Migratable(m) && Migratable(n) && Stage(m) == Stage(n)
    ensures m.Pause? == n.Pause? && m.Store? == n.Store? && m.Migrate? == n.Migrate? && m.Whitelist? == n.Whitelist?
    ensures m.LauncherTemplate? == n.LauncherTemplate? && m.PairTemplate? == n.PairTemplate?
    ensures m.Refresh? == n.Refresh? && m.Restore? == n.Restore?
    ensures m.Store? ==> m.role == n.role
    ensures m.Migrate? ==> m.target == n.target
  {
  }

  /** Names at the same position are the same name. */
  lemma SamePosition(j: Journal, m: OpName, n: OpName)
    requires WellShaped(j.inv)
    requires WellNamed(j, m) && WellNamed(j, n)
    requires Stage(m) == Stage(n) && Index(j.inv, m) == Index(j.inv, n)
    ensures m == n
  {
    KnownMigrate(j, m);
    KnownMigrate(j, n);
    SameStage(m, n);
  }

  /** A journaled operation before a settled position has its receipt; only a listing may lack it. */
  lemma EarlierIsReceipted(j: Journal, m: OpName, stage: nat, idx: nat)
    requires m in j.ops && OpOk(j, m)
    requires Ready(j, stage, idx)
    requires m != Whitelist && Before(j.inv, m, stage, idx)
    requires m.Store? ==> Stage(m) < stage
    ensures Receipted(j, m)
  {
    assert Required(j, m) || (m.Store? && Wanted(j, m.role));
  }

  /** Once a later operation is signed, an earlier required one is receipted and an earlier code is settled. */
  lemma SignedNeedsEarlier(j: Journal, n: OpName, m: OpName)
    requires WellNamed(j, n) && n != Whitelist
    requires IsSigned(j, m) && OpOk(j, m) && Before(j.inv, n, Stage(m), Index(j.inv, m))
    requires WellShaped(j.inv)
    ensures n.Store? ==> n.role in j.codes
    ensures !n.Store? ==> Receipted(j, n)
  {
    if n.Store? {
      if Stage(m) == Stage(n) {
        KnownMigrate(j, m);
        SameStage(m, n);
      }
      assert Wanted(j, n.role);
    }
  }

  /** At most one operation is signed and unanswered when the next one is due; only a listing may be left behind. */
  lemma NoOtherPending(j: Journal, n: OpName, m: OpName)
    requires WellShaped(j.inv) && (n in j.ops ==> OpOk(j, n))
    requires WellNamed(j, n) && ReadyFor(j, n) && !IsSigned(j, n)
    requires n.Store? ==> n.role !in j.codes
    requires n != Whitelist
    requires m != n && m != Whitelist && IsSigned(j, m) && OpOk(j, m)
    ensures Receipted(j, m)
  {
    KnownMigrate(j, m);
    KnownMigrate(j, n);
    if Before(j.inv, m, Stage(n), Index(j.inv, n)) {
      if m.Store? && Stage(m) == Stage(n) { SameStage(m, n); }
      EarlierIsReceipted(j, m, Stage(n), Index(j.inv, n));
    } else {
      if Stage(m) == Stage(n) && Index(j.inv, m) == Index(j.inv, n) {
        SamePosition(j, m, n);
      }
      SignedNeedsEarlier(j, n, m);
    }
  }
}

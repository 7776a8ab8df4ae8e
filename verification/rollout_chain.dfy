/**
 The chain as the rollout sees it: contract facts, included transactions, and the check
 that nothing but the rollout's own transactions changed them.
 */
module RolloutChain {
  import opened Wrappers
  import opened RolloutPlan

  datatype Contract = Contract(
    admin: Address, code: CodeId, cw2: Cw2, paused: bool, settings: string, holdings: string)

  datatype Facts = Facts(
    contracts: map<Address, Contract>, pairs: map<Address, seq<Address>>, pins: map<Address, seq<CodeId>>,
    wasm: map<CodeId, Wasm>, nextCode: CodeId,
    listed: set<CodeId>, pairTemplate: CodeId, launcherToken: CodeId, launcherAutolp: Option<CodeId>)

  /**
   A transaction is included at most once: `included` has one receipt a transaction. `planned` is what the
   chain was like when the first journal was written; no check of the tool reads it.
   */
  datatype Chain = Chain(facts: Facts, included: map<Tx, Receipt>, planned: Facts)

  /** The factory lists the code of every asset. */
  predicate AssetsListed(f: Facts, assets: seq<Address>) {
    forall a | a in assets :: a in f.contracts && f.contracts[a].code in f.listed
  }

  function LiveCodes(f: Facts, assets: seq<Address>): (codes: seq<CodeId>)
    requires forall a | a in assets :: a in f.contracts
    ensures |codes| == |assets| && forall i :: 0 <= i < |assets| ==> codes[i] == f.contracts[assets[i]].code
  {
    seq(|assets|, i requires 0 <= i < |assets| => f.contracts[assets[i]].code)
  }

  /** The pair's pins are the codes its assets run, and the factory lists them. */
  predicate Pinned(f: Facts, pair: Address, assets: seq<Address>) {
    AssetsListed(f, assets) && pair in f.pins && f.pins[pair] == LiveCodes(f, assets)
  }

  /** What the chain requires of an action; a refresh needs listed assets. */
  predicate Admitted(f: Facts, a: Action) {
    a.RefreshPins? ==> a.pair in f.pairs && AssetsListed(f, f.pairs[a.pair])
  }

  ghost predicate FactsOk(f: Facts) {
    forall id :: id in f.wasm ==> id < f.nextCode
  }

  /** The effect of one successful transaction. */
  function Apply(f: Facts, a: Action): Facts {
    match a
    case SetPaused(p, paused) =>
      if p in f.contracts then f.(contracts := f.contracts[p := f.contracts[p].(paused := paused)]) else f
    case StoreCode(w) => f.(wasm := f.wasm[f.nextCode := w], nextCode := f.nextCode + 1)
    case MigrateTo(c, code, _) =>
      if c in f.contracts && code in f.wasm
      then f.(contracts := f.contracts[c := f.contracts[c].(code := code, cw2 := f.wasm[code].cw2)])
      else f
    case ListCode(code) => f.(listed := f.listed + {code})
    case SetLauncher(token, autolp) =>
      f.(launcherToken := token, launcherAutolp := if autolp.Some? then autolp else f.launcherAutolp)
    case SetPairTemplate(code) => f.(pairTemplate := code)
    case RefreshPins(p) =>
      if p in f.pairs && AssetsListed(f, f.pairs[p]) then f.(pins := f.pins[p := LiveCodes(f, f.pairs[p])]) else f
  }

  function ReceiptFor(f: Facts, tx: Tx, ok: bool): Receipt {
    Receipt(tx, ok, if ok && tx.action.StoreCode? then Some(f.nextCode) else None)
  }

  function Include(c: Chain, tx: Tx, ok: bool): Chain {
    c.(facts := if ok then Apply(c.facts, tx.action) else c.facts,
       included := c.included[tx := ReceiptFor(c.facts, tx, ok)])
  }

  // ---------------------------------------------------------------- the drift check

  /** The identity one inventoried contract may have: the planned code, or the reviewed target. */
  predicate ItemLive(j: Journal, f: Facts, it: Item) {
    && it.address in f.contracts
    && var now := f.contracts[it.address];
    && now.admin == it.admin && (it.role == Pair || now.settings == it.settings)
    && (now.code == it.code || (it.role in j.codes && now.code == j.codes[it.role]))
    && now.code in f.wasm
    && Answers(it.role, now.cw2.version, f.wasm[now.code])
    && if now.code == it.code
       then f.wasm[it.code] == it.wasm && now.cw2 == it.cw2
       else
         && it.role in j.identity.artifacts
         && f.wasm[now.code] == j.identity.artifacts[it.role]
         && now.cw2 == j.identity.artifacts[it.role].cw2
  }

  predicate SignedOp(j: Journal, n: OpName) {
    n in j.ops && j.ops[n].signed.Some?
  }

  predicate ReceiptedOp(j: Journal, n: OpName) {
    n in j.ops && j.ops[n].receipt.Some?
  }

  predicate TemplatesLive(j: Journal, f: Facts) {
    && (if SignedOp(j, PairTemplate)
        then Pair in j.codes && f.pairTemplate == j.codes[Pair]
        else f.pairTemplate == j.inv.pairTemplate)
    && (if SignedOp(j, LauncherTemplate)
        then
          && Token in j.codes && f.launcherToken == j.codes[Token]
          && (if Autolp in j.identity.artifacts
              then Autolp in j.codes && f.launcherAutolp == Some(j.codes[Autolp])
              else f.launcherAutolp == j.inv.launcherAutolp)
        else f.launcherToken == j.inv.launcherToken && f.launcherAutolp == j.inv.launcherAutolp)
  }

  function ExpectedPause(j: Journal, m: Market): bool {
    if j.status.Complete? || ReceiptedOp(j, Restore(m.item.address)) then m.paused
    else if ReceiptedOp(j, Pause(m.item.address)) then true
    else m.paused
  }

  predicate MarketLive(j: Journal, f: Facts, m: Market) {
    m.affected ==> m.item.address in f.contracts && f.contracts[m.item.address].paused == ExpectedPause(j, m)
  }

  /** `_live_bindings`: run before every signature and in every verification. */
  predicate LiveBindings(j: Journal, f: Facts) {
    && (j.status.Complete? || SamePairs(f.pairs, j.inv))
    && (forall it | it in AllItems(j.inv) :: ItemLive(j, f, it))
    && TemplatesLive(j, f)
    && (forall m | m in j.inv.markets :: MarketLive(j, f, m))
  }

  /** Token supplies and the pools of affected pairs are the inventoried ones. */
  predicate HoldingsKept(j: Journal, f: Facts) {
    && (forall it | it in j.inv.tokens :: it.address in f.contracts && f.contracts[it.address].holdings == it.holdings)
    && (forall m | m in j.inv.markets && m.affected ::
          m.item.address in f.contracts && f.contracts[m.item.address].holdings == m.item.holdings)
  }

  /** The code advertises funding, and settlement or its rates. */
  predicate Capable(role: Role, w: Wasm) {
    && (role == Router ==> w.funded && w.settles)
    && (role == Token ==> w.funded && w.rates)
  }

  /** Previews are asked of every managed token for every pair that trades it. */
  predicate Previewed(j: Journal) {
    TokenPaired(j.inv) && Token in j.identity.artifacts ==> j.identity.artifacts[Token].previews
  }

  /** The remaining checks of `verify`: every migration and template update has taken effect. */
  predicate CutOver(j: Journal, f: Facts) {
    && (j.status.Complete? || HoldingsKept(j, f))
    && (forall it | it in AllItems(j.inv) && it.role in j.identity.artifacts ::
          && it.address in f.contracts && f.contracts[it.address].cw2 == j.identity.artifacts[it.role].cw2
          && Capable(it.role, j.identity.artifacts[it.role])
          && f.contracts[it.address].code in f.wasm
          && f.wasm[f.contracts[it.address].code] == j.identity.artifacts[it.role])
    && (forall it | it in j.inv.tokens ::
          it.address in f.contracts && f.contracts[it.address].code in f.listed)
    && Previewed(j)
    && Token in j.codes && f.launcherToken == j.codes[Token]
    && (Autolp in j.identity.artifacts ==> Autolp in j.codes && f.launcherAutolp == Some(j.codes[Autolp]))
    && Pair in j.codes && f.pairTemplate == j.codes[Pair]
    && j.inv.whitelist <= f.listed
    && (forall m | m in j.inv.markets :: Pinned(f, m.item.address, m.assets))
    && (forall m | m in j.inv.markets && m.affected ::
          && m.item.address in f.contracts
          && f.contracts[m.item.address].paused ==
             (if j.status.Complete? || ReceiptedOp(j, Restore(m.item.address)) then m.paused else true))
  }

  // ---------------------------------------------------------------- facts as a function of the journal

  /** The operation's transaction is included and succeeded. */
  ghost predicate Applied(j: Journal, c: Chain, n: OpName) {
    && IsSigned(j, n)
    && j.ops[n].signed.value in c.included
    && c.included[j.ops[n].signed.value].ok
  }

  ghost predicate TrackItem(j: Journal, c: Chain, it: Item) {
    && it.address in c.facts.contracts
    && var now := c.facts.contracts[it.address];
    && now.admin == it.admin && now.settings == it.settings && now.holdings == it.holdings
    && if Applied(j, c, ItemMigrate(it))
       then
         && it.role in j.codes && it.role in j.identity.artifacts
         && now.code == j.codes[it.role] && now.cw2 == j.identity.artifacts[it.role].cw2
       else now.code == it.code && now.cw2 == it.cw2
  }

  ghost function TrackedPause(j: Journal, c: Chain, m: Market): bool {
    if Applied(j, c, Restore(m.item.address)) then m.paused
    else if Applied(j, c, Pause(m.item.address)) then true
    else m.paused
  }

  ghost predicate TrackMarket(j: Journal, c: Chain, m: Market) {
    m.affected ==>
      m.item.address in c.facts.contracts && c.facts.contracts[m.item.address].paused == TrackedPause(j, c, m)
  }

  ghost predicate TrackTemplates(j: Journal, c: Chain) {
    && (if Applied(j, c, PairTemplate)
        then Pair in j.codes && c.facts.pairTemplate == j.codes[Pair]
        else c.facts.pairTemplate == j.inv.pairTemplate)
    && (if Applied(j, c, LauncherTemplate)
        then
          && Token in j.codes && c.facts.launcherToken == j.codes[Token]
          && (if Autolp in j.identity.artifacts
              then Autolp in j.codes && c.facts.launcherAutolp == Some(j.codes[Autolp])
              else c.facts.launcherAutolp == j.inv.launcherAutolp)
        else c.facts.launcherToken == j.inv.launcherToken && c.facts.launcherAutolp == j.inv.launcherAutolp)
    && c.facts.listed ==
       (if Applied(j, c, Whitelist) && Token in j.codes then j.inv.whitelist + {j.codes[Token]} else j.inv.whitelist)
  }

  /** With no foreign change, the chain is exactly the inventory plus the applied operations. */
  ghost predicate Tracks(j: Journal, c: Chain) {
    && (forall it {:trigger IsItem(j.inv, it)} :: IsItem(j.inv, it) ==> TrackItem(j, c, it))
    && (forall i :: 0 <= i < |j.inv.markets| ==> TrackMarket(j, c, j.inv.markets[i]))
    && TrackTemplates(j, c)
    && SamePairs(c.facts.pairs, j.inv)
  }

  /** What holds whoever else acts on the chain: stored code never changes. */
  ghost predicate Grounded(j: Journal, f: Facts) {
    && FactsOk(f)
    && (forall it {:trigger IsItem(j.inv, it)} :: IsItem(j.inv, it) ==> it.code in f.wasm && f.wasm[it.code] == it.wasm)
    && (forall r :: r in j.codes ==> j.codes[r] in f.wasm)
    && (forall r :: r in j.codes && r in j.inv.instances && !j.inv.instances[r].needsMigrate ==>
        j.codes[r] == j.inv.instances[r].code)
    && (forall r :: r in j.codes && r in j.identity.artifacts ==> f.wasm[j.codes[r]] == j.identity.artifacts[r])
  }

  /** The contract is as the rollout found or left it, and yet the drift check refuses it. */
  ghost predicate ItemTrips(j: Journal, c: Chain, it: Item) {
    if Applied(j, c, ItemMigrate(it)) then TripsAfter(j, it) else !Answers(it.role, it.cw2.version, it.wasm)
  }

  ghost predicate OwnDrift(j: Journal, c: Chain) {
    exists it :: IsItem(j.inv, it) && ItemTrips(j, c, it)
  }

  /** A restore of an originally running pair is included, but its receipt was never saved. */
  ghost predicate UnsavedRestore(j: Journal, c: Chain) {
    exists i :: 0 <= i < |j.inv.markets| && RestoreUnsaved(j, c, j.inv.markets[i])
  }

  ghost predicate RestoreUnsaved(j: Journal, c: Chain, m: Market) {
    && m.affected && !m.paused
    && Applied(j, c, Restore(m.item.address))
    && !Receipted(j, Restore(m.item.address))
  }

  /** Saved receipts are receipts of the chain. */
  ghost predicate ReceiptsIncluded(j: Journal, c: Chain) {
    forall n :: Receipted(j, n) ==>
      j.ops[n].receipt.value.tx in c.included && c.included[j.ops[n].receipt.value.tx] == j.ops[n].receipt.value
  }

  ghost predicate Settled(j: Journal) {
    forall n :: IsSigned(j, n) && n != Whitelist && !n.Restore? ==> Receipted(j, n)
  }

  lemma ReceiptedIsApplied(j: Journal, c: Chain, n: OpName)
    requires ReceiptsIncluded(j, c) && Receipted(j, n) && OpOk(j, n)
    ensures Applied(j, c, n)
  {
  }

  lemma ItemExact(j: Journal, c: Chain, it: Item)
    requires JournalOk(j) && Grounded(j, c.facts) && Tracks(j, c)
    requires IsItem(j.inv, it)
    ensures ItemLive(j, c.facts, it) <==>
            !ItemTrips(j, c, it)
  {
    assert TrackItem(j, c, it);
    if Applied(j, c, ItemMigrate(it)) {
      assert OpOk(j, ItemMigrate(it));
      var other :| IsItem(j.inv, other) && other.needsMigrate && ItemMigrate(other) == ItemMigrate(it);
      assert other == it;
    }
  }

  lemma TemplatesExact(j: Journal, c: Chain)
    requires JournalOk(j) && Tracks(j, c) && ReceiptsIncluded(j, c) && Settled(j)
    ensures TemplatesLive(j, c.facts)
  {
    if IsSigned(j, PairTemplate) {
      assert Receipted(j, PairTemplate) && OpOk(j, PairTemplate);
      ReceiptedIsApplied(j, c, PairTemplate);
    }
    if IsSigned(j, LauncherTemplate) {
      assert Receipted(j, LauncherTemplate) && OpOk(j, LauncherTemplate);
      ReceiptedIsApplied(j, c, LauncherTemplate);
    }
  }

  /** A signed restore presupposes the receipt of its pause; a complete rollout has both receipts. */
  lemma RestoreNeedsPause(j: Journal, p: Address)
    requires OpsOk(j) && StatusOk(j) && Affected(j.inv, p)
    ensures IsSigned(j, Restore(p)) ==> Receipted(j, Pause(p))
    ensures j.status.Complete? ==> Receipted(j, Restore(p))
  {
    if IsSigned(j, Restore(p)) {
      assert OpOk(j, Restore(p));
      assert Required(j, Pause(p)) && Before(j.inv, Pause(p), RESTORE_STAGE, Index(j.inv, Restore(p)));
    }
    if j.status.Complete? {
      assert Required(j, Restore(p)) && Before(j.inv, Restore(p), RESTORE_STAGE + 1, 0);
    }
  }

  lemma MarketExact(j: Journal, c: Chain, i: nat)
    requires OpsOk(j) && StatusOk(j) && ReceiptsIncluded(j, c) && Settled(j)
    requires i < |j.inv.markets| && TrackMarket(j, c, j.inv.markets[i])
    ensures MarketLive(j, c.facts, j.inv.markets[i]) <==>
            j.status.Complete? || !RestoreUnsaved(j, c, j.inv.markets[i])
  {
    var m := j.inv.markets[i];
    var p := m.item.address;
    if m.affected {
      assert Affected(j.inv, p);
      RestoreNeedsPause(j, p);
      assert Receipted(j, Restore(p)) ==> Applied(j, c, Restore(p)) by {
        if Receipted(j, Restore(p)) { assert OpOk(j, Restore(p)); }
      }
      assert Receipted(j, Pause(p)) ==> Applied(j, c, Pause(p)) by {
        if Receipted(j, Pause(p)) { assert OpOk(j, Pause(p)); }
      }
    }
  }

  /**
   The drift check is exact. When only the rollout itself changed the chain and nothing but a
   listing or a restore is unanswered, it refuses in exactly two cases: a contract trips it that the rollout
   itself found or left so, or an included restore of a running pair was not saved.
   */
  lemma BindingsExact(j: Journal, c: Chain)
    requires JournalOk(j) && Grounded(j, c.facts) && Tracks(j, c) && ReceiptsIncluded(j, c) && Settled(j)
    ensures LiveBindings(j, c.facts) <==>
            !OwnDrift(j, c) && (j.status.Complete? || !UnsavedRestore(j, c))
  {
    TemplatesExact(j, c);
    forall it
      ensures it in AllItems(j.inv) <==> IsItem(j.inv, it)
      ensures IsItem(j.inv, it) ==>
                (ItemLive(j, c.facts, it) <==> !ItemTrips(j, c, it))
    {
      AllItemsIn(j.inv, it);
      if IsItem(j.inv, it) { ItemExact(j, c, it); }
    }
    forall i | 0 <= i < |j.inv.markets|
      ensures MarketLive(j, c.facts, j.inv.markets[i]) <==>
              j.status.Complete? || !RestoreUnsaved(j, c, j.inv.markets[i])
    {
      MarketExact(j, c, i);
    }
  }
}

/** When the cut-over checks of a verification accept the tool's own finished work. */
module RolloutCutover {
  import opened Wrappers
  import opened RolloutPlan
  import opened RolloutChain
  import opened RolloutWorld
  import opened RolloutSteps

  /** The codes that are listed after the work: the inventoried ones and the settled token code. */
  ghost predicate ListedAfter(j: Journal, code: CodeId) {
    code in j.inv.whitelist || (Token in j.codes && code == j.codes[Token])
  }

  /** Tokens that are not migrated run such a code; the inventory does not check this. */
  ghost predicate TokensListed(j: Journal) {
    forall i :: 0 <= i < |j.inv.tokens| && !j.inv.tokens[i].needsMigrate ==> ListedAfter(j, j.inv.tokens[i].code)
  }

  /** The reviewed router and token binaries answer what a verification asks. */
  predicate ReviewedCapable(j: Journal) {
    && (Router in j.identity.artifacts ==> Capable(Router, j.identity.artifacts[Router]))
    && (Token in j.identity.artifacts ==> Capable(Token, j.identity.artifacts[Token]))
    && Previewed(j)
  }

  /** The contract runs that code after the work: the settled one if it is migrated, otherwise the planned one. */
  ghost predicate RunsAfter(j: Journal, f: Facts, a: Address, code: CodeId) {
    || (exists it ::
        IsItem(j.inv, it) && it.address == a && it.needsMigrate && it.role in j.codes && code == j.codes[it.role])
    || (a in f.contracts && code == f.contracts[a].code && !Migrates(j.inv, a))
  }

  ghost predicate Migrates(inv: Inventory, a: Address) {
    exists it :: IsItem(inv, it) && it.address == a && it.needsMigrate
  }

  /** The pins a pair was planned with are what its assets run after the work, and listed codes. */
  ghost predicate StaysPinned(j: Journal, f: Facts, m: Market) {
    var p := m.item.address;
    && p in f.pins && |f.pins[p]| == |m.assets|
    && forall i :: 0 <= i < |m.assets| ==> RunsAfter(j, f, m.assets[i], f.pins[p][i]) && ListedAfter(j, f.pins[p][i])
  }

  /** That of every pair that is not refreshed; the inventory reads neither pins nor foreign assets. */
  ghost predicate OthersPinned(j: Journal, f: Facts) {
    forall i :: 0 <= i < |j.inv.markets| && !j.inv.markets[i].affected ==> StaysPinned(j, f, j.inv.markets[i])
  }

  /** All work before the restores is receipted, and nobody else acted. */
  ghost predicate Finished(j: Journal, c: Chain) {
    && OpsOk(j) && StatusOk(j) && WorkDone(j) && WellShaped(j.inv) && DistinctAddresses(j.inv)
    && ReceiptsIncluded(j, c) && Tracks(j, c) && TrackPins(j, c) && Grounded(j, c.facts)
  }

  /** Every contract that needs it is migrated, and nobody else acted. */
  ghost predicate Moved(j: Journal, c: Chain) {
    && OpsOk(j) && WellShaped(j.inv) && DistinctAddresses(j.inv) && Tracks(j, c) && TrackPins(j, c)
    && (forall it {:trigger IsItem(j.inv, it)} ::
          IsItem(j.inv, it) && it.needsMigrate ==> Applied(j, c, ItemMigrate(it)))
  }

  lemma DoneIsApplied(j: Journal, c: Chain, n: OpName)
    requires OpsOk(j) && WorkDone(j) && ReceiptsIncluded(j, c) && Required(j, n) && !n.Restore? && WellShaped(j.inv)
    ensures Applied(j, c, n)
  {
    KnownMigrate(j, n);
    assert Before(j.inv, n, RESTORE_STAGE, 0);
    assert Receipted(j, n) && OpOk(j, n);
    ReceiptedIsApplied(j, c, n);
  }

  /** A contract after the work: on the settled code if it needed migration, on its own otherwise. */
  lemma ItemAfterwards(j: Journal, c: Chain, it: Item)
    requires Finished(j, c) && IsItem(j.inv, it)
    ensures it.address in c.facts.contracts && c.facts.contracts[it.address].holdings == it.holdings
    ensures it.needsMigrate ==>
              && it.role in j.codes && it.role in j.identity.artifacts
              && c.facts.contracts[it.address].code == j.codes[it.role]
              && c.facts.contracts[it.address].cw2 == j.identity.artifacts[it.role].cw2
    ensures !it.needsMigrate ==>
            c.facts.contracts[it.address].code == it.code && c.facts.contracts[it.address].cw2 == it.cw2
  {
    assert TrackItem(j, c, it);
    if it.needsMigrate {
      assert Required(j, ItemMigrate(it));
      DoneIsApplied(j, c, ItemMigrate(it));
    } else if Applied(j, c, ItemMigrate(it)) {
      MovedNeeded(j, it);
    }
  }

  lemma ItemCutOver(j: Journal, c: Chain, it: Item)
    requires Finished(j, c) && InventoryOk(j.identity, j.inv) && IsItem(j.inv, it) && it.role in j.identity.artifacts
    ensures it.address in c.facts.contracts && c.facts.contracts[it.address].cw2 == j.identity.artifacts[it.role].cw2
    ensures c.facts.contracts[it.address].code in c.facts.wasm
    ensures c.facts.wasm[c.facts.contracts[it.address].code] == j.identity.artifacts[it.role]
  {
    ItemAfterwards(j, c, it);
  }

  lemma ItemsCutOver(j: Journal, c: Chain)
    requires Finished(j, c) && InventoryOk(j.identity, j.inv)
    ensures forall it :: it in AllItems(j.inv) && it.role in j.identity.artifacts ==>
              && it.address in c.facts.contracts
              && c.facts.contracts[it.address].cw2 == j.identity.artifacts[it.role].cw2
              && c.facts.contracts[it.address].code in c.facts.wasm
              && c.facts.wasm[c.facts.contracts[it.address].code] == j.identity.artifacts[it.role]
  {
    hide Finished, InventoryOk, IsItem;
    ShapeOf(j);
    forall it | it in AllItems(j.inv) && it.role in j.identity.artifacts
      ensures it.address in c.facts.contracts && c.facts.contracts[it.address].cw2 == j.identity.artifacts[it.role].cw2
      ensures c.facts.contracts[it.address].code in c.facts.wasm
      ensures c.facts.wasm[c.facts.contracts[it.address].code] == j.identity.artifacts[it.role]
    {
      AllItemsIn(j.inv, it);
      ItemCutOver(j, c, it);
    }
  }

  lemma ListedAfterwards(j: Journal, c: Chain)
    requires TrackTemplates(j, c) && ListingCovered(j, c)
    ensures forall id :: id in c.facts.listed <==> ListedAfter(j, id)
  {
  }

  lemma TokensCutOver(j: Journal, c: Chain)
    requires Finished(j, c) && ListingCovered(j, c)
    ensures (forall it :: it in j.inv.tokens ==>
               it.address in c.facts.contracts && c.facts.contracts[it.address].code in c.facts.listed)
            <==> TokensListed(j)
  {
    hide Finished;
    ListedParts(j, c);
    ListedAfterwards(j, c);
    forall i | 0 <= i < |j.inv.tokens|
      ensures j.inv.tokens[i].address in c.facts.contracts
      ensures c.facts.contracts[j.inv.tokens[i].address].code
              == if j.inv.tokens[i].needsMigrate then j.codes[Token] else j.inv.tokens[i].code
    {
      assert IsItem(j.inv, j.inv.tokens[i]);
      ItemAfterwards(j, c, j.inv.tokens[i]);
    }
  }

  lemma ListedParts(j: Journal, c: Chain)
    requires Finished(j, c)
    ensures TrackTemplates(j, c) && WellShaped(j.inv)
  {
  }

  lemma HoldingsAfterwards(j: Journal, c: Chain)
    requires Finished(j, c)
    ensures HoldingsKept(j, c.facts)
  {
    hide Finished;
    forall it | it in j.inv.tokens
      ensures it.address in c.facts.contracts && c.facts.contracts[it.address].holdings == it.holdings
    {
      ItemAfterwards(j, c, it);
    }
    forall m | m in j.inv.markets
      ensures m.item.address in c.facts.contracts && c.facts.contracts[m.item.address].holdings == m.item.holdings
    {
      var i :| 0 <= i < |j.inv.markets| && j.inv.markets[i] == m;
      assert IsItem(j.inv, m.item);
      ItemAfterwards(j, c, m.item);
    }
  }

  lemma TemplatesCutOver(j: Journal, c: Chain)
    requires Finished(j, c) && WellIdentified(j.identity) && ListingCovered(j, c)
    ensures Token in j.codes && c.facts.launcherToken == j.codes[Token]
    ensures Autolp in j.identity.artifacts ==> Autolp in j.codes && c.facts.launcherAutolp == Some(j.codes[Autolp])
    ensures Pair in j.codes && c.facts.pairTemplate == j.codes[Pair]
    ensures j.inv.whitelist <= c.facts.listed
  {
    assert Required(j, LauncherTemplate);
    DoneIsApplied(j, c, LauncherTemplate);
    assert Wanted(j, Pair) && StoreStage(Pair) < RESTORE_STAGE;
    if j.codes[Pair] != j.inv.pairTemplate {
      assert Required(j, PairTemplate);
      DoneIsApplied(j, c, PairTemplate);
    } else if Applied(j, c, PairTemplate) {
      assert OpOk(j, PairTemplate);
    }
  }

  lemma PauseCutOver(j: Journal, c: Chain, m: Market)
    requires Finished(j, c) && m in j.inv.markets && m.affected
    ensures m.item.address in c.facts.contracts
    ensures c.facts.contracts[m.item.address].paused ==
              (if j.status.Complete? || Receipted(j, Restore(m.item.address)) then m.paused else true)
            <==> j.status.Complete? || !RestoreUnsaved(j, c, m)
  {
    var p := m.item.address;
    assert TrackMarket(j, c, m);
    assert Required(j, Pause(p)) && Affected(j.inv, p);
    DoneIsApplied(j, c, Pause(p));
    RestoreNeedsPause(j, p);
    if Receipted(j, Restore(p)) {
      assert OpOk(j, Restore(p));
      ReceiptedIsApplied(j, c, Restore(p));
    }
  }

  lemma OnlyAffectedUnsaved(j: Journal, c: Chain)
    ensures UnsavedRestore(j, c) <==> exists m :: m in j.inv.markets && m.affected && RestoreUnsaved(j, c, m)
  {
    if m :| m in j.inv.markets && m.affected && RestoreUnsaved(j, c, m) {
      var i :| 0 <= i < |j.inv.markets| && j.inv.markets[i] == m;
      assert RestoreUnsaved(j, c, j.inv.markets[i]);
    }
  }

  lemma PausesCutOver(j: Journal, c: Chain)
    requires Finished(j, c)
    ensures (forall m :: m in j.inv.markets && m.affected ==>
              && m.item.address in c.facts.contracts
              && c.facts.contracts[m.item.address].paused ==
                 (if j.status.Complete? || Receipted(j, Restore(m.item.address)) then m.paused else true))
            <==> j.status.Complete? || !UnsavedRestore(j, c)
  {
    hide Finished, RestoreUnsaved, UnsavedRestore;
    forall m | m in j.inv.markets && m.affected
      ensures m.item.address in c.facts.contracts
      ensures c.facts.contracts[m.item.address].paused ==
                (if j.status.Complete? || Receipted(j, Restore(m.item.address)) then m.paused else true)
              <==> j.status.Complete? || !RestoreUnsaved(j, c, m)
    {
      PauseCutOver(j, c, m);
    }
    OnlyAffectedUnsaved(j, c);
  }

  /** What a contract runs after the work is known from the plan. */
  lemma RunsAfterwards(j: Journal, c: Chain, a: Address, code: CodeId)
    requires Moved(j, c)
    ensures RunsAfter(j, c.planned, a, code) <==> a in c.facts.contracts && c.facts.contracts[a].code == code
  {
    MovedParts(j, c);
    hide Moved, WellShaped, Tracks, Applied;
    if it :| IsItem(j.inv, it) && it.address == a && it.needsMigrate {
      MovedRuns(j, c, it);
    } else if a in c.planned.contracts {
      assert CodeStays(j, c, a);
      if it :| IsItem(j.inv, it) && it.address == a && Applied(j, c, ItemMigrate(it)) {
        AppliedIsSigned(j, c, ItemMigrate(it));
        MovedNeeded(j, it);
      }
    }
  }

  lemma MovedParts(j: Journal, c: Chain)
    requires Moved(j, c)
    ensures OpsOk(j) && DistinctAddresses(j.inv) && TrackPins(j, c)
  {
  }

  lemma MovedRuns(j: Journal, c: Chain, it: Item)
    requires Moved(j, c) && IsItem(j.inv, it) && it.needsMigrate
    ensures it.role in j.codes && it.address in c.facts.contracts
    ensures c.facts.contracts[it.address].code == j.codes[it.role]
  {
    assert TrackItem(j, c, it);
  }

  lemma FinishedMoved(j: Journal, c: Chain)
    requires Finished(j, c)
    ensures Moved(j, c)
  {
    forall it {:trigger IsItem(j.inv, it)} | IsItem(j.inv, it) && it.needsMigrate
      ensures Applied(j, c, ItemMigrate(it))
    {
      assert Required(j, ItemMigrate(it));
      DoneIsApplied(j, c, ItemMigrate(it));
    }
  }

  lemma AppliedIsSigned(j: Journal, c: Chain, n: OpName)
    ensures Applied(j, c, n) ==> IsSigned(j, n)
  {
  }

  lemma FinishedParts(j: Journal, c: Chain)
    requires Finished(j, c)
    ensures OpsOk(j) && DistinctAddresses(j.inv) && TrackPins(j, c) && WellShaped(j.inv) && WorkDone(j)
            && ReceiptsIncluded(j, c)
  {
  }

  /** Refreshes come behind all migrations, so an affected pair ends with fresh pins to listed codes. */
  lemma RefreshedPinned(j: Journal, c: Chain, i: nat)
    requires Finished(j, c) && i < |j.inv.markets| && j.inv.markets[i].affected
    ensures Pinned(c.facts, j.inv.markets[i].item.address, j.inv.markets[i].assets)
  {
    var m := j.inv.markets[i];
    FinishedParts(j, c);
    assert Affected(j.inv, m.item.address) && Required(j, Refresh(m.item.address));
    DoneIsApplied(j, c, Refresh(m.item.address));
    assert PinTracked(j, c, m);
  }

  /** The pins of any other pair are left as they were. */
  lemma OtherPinned(j: Journal, c: Chain, i: nat)
    requires Finished(j, c) && ListingCovered(j, c) && i < |j.inv.markets| && !j.inv.markets[i].affected
    ensures Pinned(c.facts, j.inv.markets[i].item.address, j.inv.markets[i].assets)
            <==> StaysPinned(j, c.planned, j.inv.markets[i])
  {
    var m := j.inv.markets[i];
    var p := m.item.address;
    FinishedParts(j, c);
    FinishedMoved(j, c);
    ListedParts(j, c);
    ListedAfterwards(j, c);
    NotRefreshed(j, c, i);
    assert PinTracked(j, c, m);
    hide Finished, Moved, RunsAfter, ListedAfter, PinTracked, TrackPins, OpsOk, WellShaped, WorkDone, ReceiptsIncluded,
         ListingCovered, TrackTemplates, Applied;
    forall a, code
      ensures RunsAfter(j, c.planned, a, code) <==> a in c.facts.contracts && c.facts.contracts[a].code == code
    {
      RunsAfterwards(j, c, a, code);
    }
    PinsMean(j, c, m);
  }

  lemma NotRefreshed(j: Journal, c: Chain, i: nat)
    requires OpsOk(j) && WellShaped(j.inv) && TrackPins(j, c) && i < |j.inv.markets| && !j.inv.markets[i].affected
    ensures var p := j.inv.markets[i].item.address;
            (p in c.facts.pins <==> p in c.planned.pins)
              && (p in c.planned.pins ==> c.facts.pins[p] == c.planned.pins[p])
  {
    var m := j.inv.markets[i];
    assert PinTracked(j, c, m);
    assert Refresh(m.item.address) in j.ops ==> OpOk(j, Refresh(m.item.address));
  }

  lemma PinsMean(j: Journal, c: Chain, m: Market)
    requires forall a, code {:trigger RunsAfter(j, c.planned, a, code)} ::
               RunsAfter(j, c.planned, a, code) <==> a in c.facts.contracts && c.facts.contracts[a].code == code
    requires forall id {:trigger ListedAfter(j, id)} :: id in c.facts.listed <==> ListedAfter(j, id)
    requires var p := m.item.address;
             (p in c.facts.pins <==> p in c.planned.pins)
               && (p in c.planned.pins ==> c.facts.pins[p] == c.planned.pins[p])
    ensures Pinned(c.facts, m.item.address, m.assets) <==> StaysPinned(j, c.planned, m)
  {
    hide RunsAfter, ListedAfter;
    var p := m.item.address;
    if Pinned(c.facts, p, m.assets) {
      forall i | 0 <= i < |m.assets|
        ensures RunsAfter(j, c.planned, m.assets[i], c.planned.pins[p][i]) && ListedAfter(j, c.planned.pins[p][i])
      {
        assert m.assets[i] in m.assets;
      }
    }
    if StaysPinned(j, c.planned, m) {
      forall a | a in m.assets
        ensures a in c.facts.contracts && c.facts.contracts[a].code in c.facts.listed
      {
        var i :| 0 <= i < |m.assets| && m.assets[i] == a;
        assert RunsAfter(j, c.planned, m.assets[i], c.planned.pins[p][i]) && ListedAfter(j, c.planned.pins[p][i]);
      }
      forall i | 0 <= i < |m.assets|
        ensures c.planned.pins[p][i] == c.facts.contracts[m.assets[i]].code
      {
        assert RunsAfter(j, c.planned, m.assets[i], c.planned.pins[p][i]);
      }
      assert c.facts.pins[p] == LiveCodes(c.facts, m.assets);
    }
  }

  lemma PairsCutOver(j: Journal, c: Chain)
    requires Finished(j, c) && ListingCovered(j, c)
    ensures (forall m :: m in j.inv.markets ==> Pinned(c.facts, m.item.address, m.assets)) <==>
            OthersPinned(j, c.planned)
  {
    hide Finished, ListingCovered, Pinned, StaysPinned;
    forall i | 0 <= i < |j.inv.markets|
      ensures var m := j.inv.markets[i];
              Pinned(c.facts, m.item.address, m.assets) <==> m.affected || StaysPinned(j, c.planned, m)
    {
      if j.inv.markets[i].affected { RefreshedPinned(j, c, i); } else { OtherPinned(j, c, i); }
    }
    if OthersPinned(j, c.planned) {
      forall m | m in j.inv.markets
        ensures Pinned(c.facts, m.item.address, m.assets)
      {
        var i :| 0 <= i < |j.inv.markets| && j.inv.markets[i] == m;
      }
    } else {
      var i :| 0 <= i < |j.inv.markets| && !j.inv.markets[i].affected && !StaysPinned(j, c.planned, j.inv.markets[i]);
      assert j.inv.markets[i] in j.inv.markets;
    }
  }

  /** The capability checks ask for the reviewed binaries only. */
  lemma ProbesCutOver(j: Journal)
    requires InventoryOk(j.identity, j.inv)
    ensures (forall it :: it in AllItems(j.inv) && it.role in j.identity.artifacts ==>
             Capable(it.role, j.identity.artifacts[it.role]))
            && Previewed(j)
            <==> ReviewedCapable(j)
  {
    hide Capable, Previewed;
    var router, token := j.inv.instances[Router], j.inv.tokens[0];
    assert IsItem(j.inv, router) && IsItem(j.inv, token);
    AllItemsIn(j.inv, router);
    AllItemsIn(j.inv, token);
    OthersCapable();
  }

  lemma OthersCapable()
    ensures forall role, w :: role != Router && role != Token ==> Capable(role, w)
  {
  }

  lemma FinishedWhen(w: World)
    requires WorldOk(w) && w.disk.Some? && !w.foreign && WorkDone(w.disk.value)
    ensures Finished(w.disk.value, w.chain) && InventoryOk(w.disk.value.identity, w.disk.value.inv)
    ensures ListingCovered(w.disk.value, w.chain)
  {
    var j := w.disk.value;
    assert Required(j, LauncherTemplate) && Before(j.inv, LauncherTemplate, RESTORE_STAGE, 0);
    assert Receipted(j, LauncherTemplate) && OpOk(j, LauncherTemplate);
    assert IsSigned(j, LauncherTemplate);
  }

  /**
   When all work is receipted and nobody else acted, the cut-over checks accept exactly if the reviewed binaries
   are capable, unmigrated tokens run listed codes, pairs that are not refreshed keep valid pins, and no
   included restore of a running pair is unsaved.
   */
  lemma CutOverExactly(w: World)
    requires WorldOk(w) && w.disk.Some? && !w.foreign && WorkDone(w.disk.value)
    ensures CutOver(w.disk.value, w.chain.facts) <==>
            && ReviewedCapable(w.disk.value) && TokensListed(w.disk.value)
            && OthersPinned(w.disk.value, w.chain.planned)
            && (w.disk.value.status.Complete? || !UnsavedRestore(w.disk.value, w.chain))
  {
    hide WorldOk, WorkDone, Finished, InventoryOk, ListingCovered, RestoreUnsaved, TokensListed, OthersPinned,
         ReviewedCapable, Capable, Previewed, Pinned;
    var j, c := w.disk.value, w.chain;
    FinishedWhen(w);
    ShapeOf(j);
    ItemsCutOver(j, c);
    TokensCutOver(j, c);
    TemplatesCutOver(j, c);
    HoldingsAfterwards(j, c);
    PairsCutOver(j, c);
    ProbesCutOver(j);
    PausesCutOver(j, c);
  }

  lemma ShapeOf(j: Journal)
    requires InventoryOk(j.identity, j.inv)
    ensures WellShaped(j.inv) && WellIdentified(j.identity)
  {
  }
}

/** What every stretch of a run preserves, when an operation is due, and how far a run has come. */
module RolloutRun {
  import opened Wrappers
  import opened RolloutPlan
  import opened RolloutChain
  import opened RolloutWorld
  import opened RolloutSteps
  import opened RolloutProgress
  import opened RolloutSite

  // ---------------------------------------------------------------- what a run preserves

  /** The invariant, and nothing durable is lost or replaced. */
  ghost predicate Kept(u: World, v: World) {
    u.disk.Some? && v.disk.Some? && WorldOk(v) && Onward(u, v) && Grown(u.disk.value, v.disk.value)
  }

  ghost predicate Grown(j: Journal, k: Journal) {
    j == k || Extends(j, k)
  }

  lemma KeptTrans(u: World, v: World, w: World)
    requires Kept(u, v) && Kept(v, w)
    ensures Kept(u, w)
  {
    OnwardTrans(u, v, w);
    if u.disk != v.disk && v.disk != w.disk {
      ExtendsTrans(u.disk.value, v.disk.value, w.disk.value);
    }
  }

  lemma SavedKept(w: World, j: Journal)
    requires WorldOk(w) && w.disk.Some? && Extends(w.disk.value, j) && WorldOk(w.(disk := Some(j)))
    ensures Kept(w, w) && Kept(w, w.(disk := Some(j)))
  {
    assert Remembers(w, w.(disk := Some(j)));
  }

  lemma KeptSelf(w: World)
    requires WorldOk(w) && w.disk.Some?
    ensures Kept(w, w)
  {
  }

  lemma WaitedKept(u: World, v: World)
    requires WorldOk(v) && Waited(u, v) && u.disk.Some?
    ensures Kept(u, v)
  {
  }

  /** What may be called drift: somebody else acted, or a contract trips the check by itself. */
  ghost predicate DriftExplained(w: World) {
    w.foreign || (w.disk.Some? && OwnDrift(w.disk.value, w.chain))
  }

  /** A listing whose transaction is included, but whose receipt was not saved. */
  ghost predicate ListingCut(w: World) {
    w.disk.Some? && Whitelist in w.disk.value.ops && !Receipted(w.disk.value, Whitelist)
      && Applied(w.disk.value, w.chain, Whitelist)
  }

  /** A restore of a running pair is included, but its receipt was not saved before the rollout was complete. */
  ghost predicate RestoreCut(w: World) {
    w.disk.Some? && !w.disk.value.status.Complete? && UnsavedRestore(w.disk.value, w.chain)
  }

  /** An operation whose turn it is. */
  ghost predicate Due(w: World, n: OpName, action: Action) {
    w.disk.Some? && DueIn(w.disk.value, w, n, action)
  }

  ghost predicate DueIn(j: Journal, w: World, n: OpName, action: Action) {
    && WellNamed(j, n) && Performs(j, n, action) && ReadyFor(j, n)
    && (n.Store? ==> n.role !in j.codes && NoneMatches(j, w.chain.facts, n.role))
    && (n.Restore? ==> HasPassed(w.log))
    && (!w.foreign && Stage(n) > WHITELIST_STAGE ==> ListingCovered(j, w.chain))
    && (!w.foreign && n == Whitelist ==> j.codes[Token] !in j.inv.whitelist)
  }

  lemma DueLater(u: World, v: World, n: OpName, action: Action)
    requires Due(u, n, action) && Onward(u, v) && v.disk == u.disk
    ensures Due(v, n, action)
  {
  }

  lemma DueJournaled(w: World, n: OpName, action: Action)
    requires Due(w, n, action)
    ensures var k := WithOp(w.disk.value, n, Op(action, None, None));
            n !in w.disk.value.ops ==> Due(w.(disk := Some(k)), n, action)
  {
    var j := w.disk.value;
    var k := WithOp(j, n, Op(action, None, None));
    if n !in j.ops {
      assert Extends(j, k);
      ReadyExtends(j, k, Stage(n), Index(j.inv, n));
      assert ListingCovered(j, w.chain) ==> ListingCovered(k, w.chain);
    }
  }

  lemma Logged(w: World, e: Event)
    requires WorldOk(w) && w.disk.Some?
    ensures Remembers(w, w.(log := w.log + [e]))
  {
    PassedStays(w.log, e);
  }

  /** An accepted drift check is recorded. */
  lemma CheckDue(w: World, n: OpName, action: Action)
    requires WorldOk(w) && Due(w, n, action) && LiveBindings(w.disk.value, w.chain.facts)
    ensures var v := w.(log := w.log + [Checked(Moment(w.disk, w.chain))]);
            Kept(w, v) && Due(v, n, action) && JustChecked(v.log, v.disk)
  {
    hide WorldOk, LiveBindings, WellNamed, Performs, ReadyFor, NoneMatches, ListingCovered, CodeKept;
    var e := Checked(Moment(w.disk, w.chain));
    CheckKeeps(w);
    Logged(w, e);
    DueLater(w, w.(log := w.log + [e]), n, action);
  }

  /** A due operation may be signed. */
  lemma SignDue(w: World, n: OpName, tx: Tx)
    requires WorldOk(w) && Due(w, n, tx.action)
    requires n in w.disk.value.ops && w.disk.value.ops[n].action == tx.action && !IsSigned(w.disk.value, n)
    requires JustChecked(w.log, w.disk)
    ensures var v := w.(log := w.log + [Signed(n, tx, Moment(w.disk, w.chain))]);
            Kept(w, v) && Due(v, n, tx.action)
  {
    hide WorldOk;
    var e := Signed(n, tx, Moment(w.disk, w.chain));
    SignKeeps(w, n, tx);
    Logged(w, e);
    DueLater(w, w.(log := w.log + [e]), n, tx.action);
  }

  /** Its signature may be saved. */
  lemma SaveDue(w: World, n: OpName, tx: Tx)
    requires WorldOk(w) && Due(w, n, tx.action)
    requires n in w.disk.value.ops && w.disk.value.ops[n].action == tx.action && !IsSigned(w.disk.value, n)
    requires tx.fee > 0 && tx !in w.chain.included
    requires TotalFees(w.disk.value) + tx.fee <= w.disk.value.identity.cap
    requires !w.foreign ==> ClearFor(w.disk.value, n)
    ensures w.disk.value.ops[n].receipt.None?
    ensures var k := WithOp(w.disk.value, n, w.disk.value.ops[n].(signed := Some(tx)));
            Extends(w.disk.value, k) && WorldOk(w.(disk := Some(k)))
  {
    SaveSigned(w, n, tx);
    UnsignedHasNoReceipt(w.disk.value, n);
  }

  /** A saved transaction may be broadcast. */
  lemma SendKept(w: World, n: OpName, tx: Tx)
    requires WorldOk(w) && w.disk.Some? && HasTx(w.disk.value, n, tx)
    ensures Kept(w, w.(sent := w.sent + {tx}, log := w.log + [Sent(n, tx, Moment(w.disk, w.chain))]))
  {
    var e := Sent(n, tx, Moment(w.disk, w.chain));
    SendKeeps(w, n, tx);
    PassedStays(w.log, e);
    assert Remembers(w, w.(sent := w.sent + {tx}, log := w.log + [e]));
  }

  lemma PassedStays(log: seq<Event>, e: Event)
    ensures HasPassed(log) ==> HasPassed(log + [e])
  {
    if HasPassed(log) {
      var h :| 0 <= h < |log| && log[h].Passed?;
      assert (log + [e])[h].Passed?;
    }
  }

  /** The receipt step completes an operation, whichever of its earlier steps came before. */
  lemma ReceiptSettles(j: Journal, k: Journal, n: OpName, op: Op)
    requires Extends(j, k) && n in k.ops && op.receipt.Some? && op.action == k.ops[n].action
             && op.signed == k.ops[n].signed
    requires k.ops[n].receipt.None? && k.codes == j.codes && k.status == j.status
    requires forall m :: m != n ==> (m in k.ops <==> m in j.ops) && (m in j.ops ==> k.ops[m] == j.ops[m])
    ensures Settles(j, WithOp(k, n, op), n)
  {
  }

  lemma AlreadySettled(j: Journal, n: OpName)
    requires Receipted(j, n)
    ensures Settles(j, j, n)
  {
  }

  lemma SettlesSince(j: Journal, k: Journal, l: Journal, n: OpName)
    requires Settles(k, l, n)
    requires k == j || (n !in j.ops && n in k.ops && k == WithOp(j, n, k.ops[n]))
    ensures Settles(j, l, n)
  {
  }

  lemma DueIsNamed(w: World, n: OpName, action: Action)
    requires Due(w, n, action)
    ensures WellNamed(w.disk.value, n) && Performs(w.disk.value, n, action)
    ensures n.Store? ==> n.role !in w.disk.value.codes && NoneMatches(w.disk.value, w.chain.facts, n.role)
    ensures !w.foreign && n == Whitelist ==> w.disk.value.codes[Token] !in w.disk.value.inv.whitelist
  {
  }

  /** A saved action is the expected one. */
  lemma JournaledAction(w: World, n: OpName, action: Action)
    requires WorldOk(w) && Due(w, n, action) && n in w.disk.value.ops
    ensures w.disk.value.ops[n].action == action
  {
    assert OpOk(w.disk.value, n);
    ActionKnown(w.disk.value, n, action, w.disk.value.ops[n].action);
  }

  /** An accepted drift check rules out contracts that trip it. */
  lemma CheckedIsClear(w: World, n: OpName, action: Action)
    requires WorldOk(w) && Due(w, n, action) && !IsSigned(w.disk.value, n) && !w.foreign
    requires LiveBindings(w.disk.value, w.chain.facts)
    ensures ClearFor(w.disk.value, n)
  {
    DueBindings(w, n);
  }

  lemma DriftOnlyIfExplained(w: World, n: OpName, action: Action)
    requires WorldOk(w) && Due(w, n, action) && !IsSigned(w.disk.value, n)
    ensures LiveBindings(w.disk.value, w.chain.facts) || DriftExplained(w)
  {
    if !w.foreign { DueBindings(w, n); }
  }

  // ---------------------------------------------------------------- the walk through the plan

  /** The settled position, and the listing that later signatures presuppose. */
  ghost predicate At(w: World, stage: nat, idx: nat) {
    && w.disk.Some?
    && Ready(w.disk.value, stage, idx)
    && (!w.foreign && stage > WHITELIST_STAGE ==> ListingCovered(w.disk.value, w.chain))
  }

  lemma AtLater(u: World, v: World, stage: nat, idx: nat)
    requires At(u, stage, idx) && Kept(u, v)
    ensures At(v, stage, idx)
  {
    if u.disk != v.disk { ReadyExtends(u.disk.value, v.disk.value, stage, idx); }
  }

  /** The operation at the settled position is due. */
  lemma DueAt(w: World, n: OpName, action: Action)
    requires w.disk.Some? && At(w, Stage(n), Index(w.disk.value.inv, n))
    requires WellNamed(w.disk.value, n) && Performs(w.disk.value, n, action)
    requires n.Store? ==> n.role !in w.disk.value.codes && NoneMatches(w.disk.value, w.chain.facts, n.role)
    requires n.Restore? ==> HasPassed(w.log)
    requires !w.foreign && n == Whitelist ==> w.disk.value.codes[Token] !in w.disk.value.inv.whitelist
    ensures Due(w, n, action)
  {
  }

  lemma Advanced(u: World, v: World, n: OpName)
    requires u.disk.Some? && At(u, Stage(n), Index(u.disk.value.inv, n)) && Kept(u, v) && WellNamed(u.disk.value, n)
    requires WellShaped(u.disk.value.inv) && Settles(u.disk.value, v.disk.value, n)
    ensures At(v, Stage(n), Index(u.disk.value.inv, n) + 1)
  {
    hide WorldOk;
    Advance(u.disk.value, v.disk.value, n);
  }

  /** What a running process may take for granted about its journal. */
  lemma JournalFacts(w: World)
    requires WorldOk(w) && w.disk.Some?
    ensures InventoryOk(w.disk.value.identity, w.disk.value.inv) && WellShaped(w.disk.value.inv)
    ensures forall r :: r in w.disk.value.codes ==> w.disk.value.codes[r] in w.chain.facts.wasm
    ensures var j := w.disk.value;
            forall r :: r in j.codes && r in j.inv.instances && !j.inv.instances[r].needsMigrate ==>
              j.codes[r] == j.inv.instances[r].code
    ensures forall r :: r in w.disk.value.codes && r in w.disk.value.identity.artifacts ==>
              w.chain.facts.wasm[w.disk.value.codes[r]] == w.disk.value.identity.artifacts[r]
  {
  }

  /** An upload's receipt names a code id that holds the reviewed artifact. */
  lemma StoreAnswer(w: World, role: Role)
    requires WorldOk(w) && w.disk.Some? && Receipted(w.disk.value, Store(role))
    ensures var r := w.disk.value.ops[Store(role)].receipt.value;
            && r.code.Some? && r.code.value in w.chain.facts.wasm
            && role in w.disk.value.identity.artifacts
            && w.chain.facts.wasm[r.code.value] == w.disk.value.identity.artifacts[role]
  {
    var j := w.disk.value;
    assert OpOk(j, Store(role));
    assert StoreReceiptOk(j, w.chain, j.ops[Store(role)].receipt.value.tx);
  }

  /** A settled role has an answered upload, or none. */
  lemma SettledStore(w: World, role: Role)
    requires WorldOk(w) && w.disk.Some?
    ensures role in w.disk.value.codes && Store(role) in w.disk.value.ops ==>
            w.disk.value.ops[Store(role)].receipt.Some?
  {
    SettledStores(w.disk.value);
  }

  /** No candidate can match once an upload was journaled. */
  lemma StoredMeansNoMatch(w: World, role: Role)
    requires WorldOk(w) && w.disk.Some? && Store(role) in w.disk.value.ops
    ensures NoneMatches(w.disk.value, w.chain.facts, role)
  {
  }

  predicate Smallest(s: set<CodeId>, c: CodeId) {
    c in s && forall d :: d in s ==> c <= d
  }

  lemma SmallestExists(s: set<CodeId>)
    requires s != {}
    ensures exists c :: Smallest(s, c)
  {
    var c :| c in s;
    if s == {c} {
      assert Smallest(s, c);
    } else {
      SmallestExists(s - {c});
      var d :| Smallest(s - {c}, d);
      assert forall e :: e in s ==> e == c || e in s - {c};
      assert Smallest(s, if c <= d then c else d);
    }
  }

  /** While nobody else acts, a code is listed exactly if it was, or if the rollout listed it. */
  lemma ListedExactly(w: World)
    requires WorldOk(w) && w.disk.Some? && !w.foreign && Token in w.disk.value.codes
    ensures w.disk.value.codes[Token] in w.chain.facts.listed ==> ListingCovered(w.disk.value, w.chain)
    ensures w.disk.value.codes[Token] !in w.chain.facts.listed ==>
            w.disk.value.codes[Token] !in w.disk.value.inv.whitelist
  {
    assert TrackTemplates(w.disk.value, w.chain);
  }

  lemma ReceiptCovers(w: World)
    requires WorldOk(w) && w.disk.Some? && Receipted(w.disk.value, Whitelist)
    ensures ListingCovered(w.disk.value, w.chain)
  {
    assert OpOk(w.disk.value, Whitelist);
    ReceiptedIsApplied(w.disk.value, w.chain, Whitelist);
  }

  lemma RequiredIsNamed(j: Journal, n: OpName)
    requires Required(j, n)
    ensures WellNamed(j, n) && !n.Store? && n != Whitelist
  {
  }

  lemma SettledReceipt(j: Journal, k: Journal, n: OpName)
    requires Settles(j, k, n)
    ensures Receipted(k, n) && Extends(j, k) && k.codes == j.codes
  {
  }

  lemma StoreDue(w: World, role: Role)
    requires At(w, StoreStage(role), 0) && role in w.disk.value.identity.artifacts && Wanted(w.disk.value, role)
    requires role in w.disk.value.inv.instances ==> w.disk.value.inv.instances[role].needsMigrate
    requires role !in w.disk.value.codes && NoneMatches(w.disk.value, w.chain.facts, role)
    ensures Due(w, Store(role), StoreCode(w.disk.value.identity.artifacts[role]))
  {
    DueAt(w, Store(role), StoreCode(w.disk.value.identity.artifacts[role]));
  }

  lemma StoreStagePassed(w: World, role: Role)
    requires WorldOk(w) && At(w, StoreStage(role), 0) && role in w.disk.value.codes
    ensures At(w, StoreStage(role) + 1, 0)
  {
    hide WorldOk, Ready, WellShaped, InventoryOk, ListingCovered;
    JournalFacts(w);
    StoreStageDone(w.disk.value, role);
  }

  lemma NoUploadIfFound(w: World, role: Role, code: CodeId)
    requires WorldOk(w) && w.disk.Some?
    requires code in Candidates(w.disk.value.inv, role) && code in w.chain.facts.wasm
    requires role in w.disk.value.identity.artifacts
             && w.chain.facts.wasm[code] == w.disk.value.identity.artifacts[role]
    ensures Store(role) !in w.disk.value.ops
  {
    if Store(role) in w.disk.value.ops { StoredMeansNoMatch(w, role); }
  }

  /** The code ids that may be settled, by their origin. */
  lemma SettledFrom(w: World, role: Role)
    requires WorldOk(w) && w.disk.Some?
    ensures role in w.disk.value.codes ==> CodeFrom(w.disk.value, w.chain.facts, role)
  {
  }

  lemma SearchedCode(j: Journal, f: Facts, role: Role, code: CodeId)
    requires FirstMatch(j, f, role, code) && Store(role) !in j.ops && role !in j.inv.instances
    ensures CodeFrom(WithCode(j, role, code), f, role)
  {
  }

  lemma UploadedCode(j: Journal, f: Facts, role: Role)
    requires Receipted(j, Store(role)) && j.ops[Store(role)].receipt.value.code.Some?
    ensures CodeFrom(WithCode(j, role, j.ops[Store(role)].receipt.value.code.value), f, role)
  {
  }

  lemma SameCode(j: Journal, f: Facts, role: Role)
    requires role in j.codes && CodeFrom(j, f, role)
    ensures CodeFrom(WithCode(j, role, j.codes[role]), f, role)
  {
    assert WithCode(j, role, j.codes[role]).codes == j.codes;
  }

  /** Only core contracts sit among the inventoried instances. */
  lemma ListedRole(w: World, role: Role)
    requires WorldOk(w) && w.disk.Some? && role !in CORE_ROLES
    ensures role !in w.disk.value.inv.instances
  {
  }

  lemma JournalKept(u: World, v: World)
    requires Kept(u, v)
    ensures v.disk.value.identity == u.disk.value.identity && v.disk.value.inv == u.disk.value.inv
  {
  }

  // ---------------------------------------------------------------- one stage after the other

  /** Stages that visit the affected pairs. */
  predicate PairStage(stage: nat) {
    stage == 0 || stage == 17 || stage == RESTORE_STAGE
  }

  function PairOp(stage: nat, pair: Address): OpName
    requires PairStage(stage)
  {
    if stage == 0 then Pause(pair) else if stage == 17 then Refresh(pair) else Restore(pair)
  }

  function PairAction(stage: nat, m: Market): Action {
    if stage == 0 then SetPaused(m.item.address, true)
    else if stage == 17 then RefreshPins(m.item.address)
    else SetPaused(m.item.address, m.paused)
  }

  lemma PairOpAt(j: Journal, stage: nat, i: nat)
    requires WellShaped(j.inv) && i < |j.inv.markets| && PairStage(stage)
    ensures var n := PairOp(stage, j.inv.markets[i].item.address);
            && Stage(n) == stage && Index(j.inv, n) == i
            && (j.inv.markets[i].affected ==> Required(j, n) && Performs(j, n, PairAction(stage, j.inv.markets[i])))
            && (n.Restore? ==> stage == RESTORE_STAGE)
  {
    MarketAt(j.inv, i);
  }

  lemma PairSkip(w: World, stage: nat, i: nat)
    requires w.disk.Some? && At(w, stage, i) && WellShaped(w.disk.value.inv) && PairStage(stage)
    requires i < |w.disk.value.inv.markets| && !w.disk.value.inv.markets[i].affected
    ensures At(w, stage, i + 1)
  {
    var j := w.disk.value;
    forall m | Required(j, m)
      ensures !(Stage(m) == stage && Index(j.inv, m) == i)
    {
      KnownMigrate(j, m);
      if Stage(m) == stage {
        SameStage(m, PairOp(stage, ""));
        var k :| 0 <= k < |j.inv.markets| && j.inv.markets[k].item.address == m.pair && j.inv.markets[k].affected;
        MarketAt(j.inv, k);
      }
    }
    Skip(j, stage, i);
  }

  /** The migration stage of a listed contract. */
  function ItemStage(it: Item): nat { Stage(ItemMigrate(it)) }

  lemma InventoryParts(j: Journal)
    requires InventoryOk(j.identity, j.inv)
    ensures WellShaped(j.inv) && DistinctAddresses(j.inv)
  {
  }

  lemma MigrateSkip(w: World, it: Item)
    requires w.disk.Some? && InventoryOk(w.disk.value.identity, w.disk.value.inv) && IsItem(w.disk.value.inv, it)
             && !it.needsMigrate
    requires At(w, ItemStage(it), Index(w.disk.value.inv, ItemMigrate(it)))
    ensures At(w, ItemStage(it), Index(w.disk.value.inv, ItemMigrate(it)) + 1)
  {
    hide InventoryOk;
    InventoryParts(w.disk.value);
    var j := w.disk.value;
    forall m | Required(j, m)
      ensures !(Stage(m) == ItemStage(it) && Index(j.inv, m) == Index(j.inv, ItemMigrate(it)))
    {
      if Stage(m) == ItemStage(it) && Index(j.inv, m) == Index(j.inv, ItemMigrate(it)) {
        MigrationItem(j, m, it);
      }
    }
    Skip(j, ItemStage(it), Index(j.inv, ItemMigrate(it)));
  }

  lemma StagePassed(w: World, stage: nat)
    requires w.disk.Some? && WellShaped(w.disk.value.inv)
    requires At(w, stage, Width(w.disk.value.inv, stage)) && stage != WHITELIST_STAGE
    requires forall r :: Wanted(w.disk.value, r) && StoreStage(r) == stage ==> r in w.disk.value.codes
    ensures At(w, stage + 1, 0)
  {
    StageDone(w.disk.value, stage);
  }

  /** A core role that is not deployed has neither an upload nor a migration. */
  lemma AbsentRole(w: World, role: Role)
    requires w.disk.Some? && WellShaped(w.disk.value.inv)
    requires role in CORE_ROLES && role !in w.disk.value.inv.instances && At(w, StoreStage(role), 0)
    ensures At(w, StoreStage(role) + 2, 0)
  {
    var j := w.disk.value;
    forall m | Required(j, m)
      ensures Stage(m) != StoreStage(role) && Stage(m) != StoreStage(role) + 1
    {
      KnownMigrate(j, m);
      if Stage(m) == StoreStage(role) { SameStage(m, Store(role)); }
      if Stage(m) == StoreStage(role) + 1 { SameStage(m, Migrate(role, "")); }
    }
    EmptyStage(j, StoreStage(role));
    EmptyStage(j, StoreStage(role) + 1);
  }

  lemma NoAutolp(w: World)
    requires w.disk.Some? && WellShaped(w.disk.value.inv)
    requires Autolp !in w.disk.value.identity.artifacts && At(w, 12, 0)
    ensures At(w, 13, 0)
  {
    var j := w.disk.value;
    forall m | Required(j, m)
      ensures Stage(m) != 12
    {
      KnownMigrate(j, m);
      if Stage(m) == 12 { SameStage(m, Store(Autolp)); }
    }
    EmptyStage(j, 12);
  }

  lemma SamePairTemplate(w: World)
    requires w.disk.Some? && WellShaped(w.disk.value.inv)
    requires Pair in w.disk.value.codes && w.disk.value.codes[Pair] == w.disk.value.inv.pairTemplate && At(w, 15, 0)
    ensures At(w, 16, 0)
  {
    var j := w.disk.value;
    forall m | Required(j, m)
      ensures Stage(m) != 15
    {
      KnownMigrate(j, m);
      if Stage(m) == 15 { SameStage(m, PairTemplate); }
    }
    EmptyStage(j, 15);
  }

  lemma ListingPassed(w: World)
    requires w.disk.Some? && WellShaped(w.disk.value.inv) && At(w, WHITELIST_STAGE, 0)
    requires !w.foreign ==> ListingCovered(w.disk.value, w.chain)
    ensures At(w, WHITELIST_STAGE + 1, 0)
  {
    var j := w.disk.value;
    forall m | Required(j, m)
      ensures Stage(m) != WHITELIST_STAGE
    {
      KnownMigrate(j, m);
      if Stage(m) == WHITELIST_STAGE { SameStage(m, Whitelist); }
    }
    EmptyStage(j, WHITELIST_STAGE);
  }

  lemma StartAt(w: World)
    requires w.disk.Some?
    ensures At(w, 0, 0)
  {
  }

  /** A core contract's own code stays the settled one. */
  lemma CurrentCode(w: World, item: Item)
    requires WorldOk(w) && w.disk.Some?
    requires item.role in w.disk.value.inv.instances && w.disk.value.inv.instances[item.role] == item
             && !item.needsMigrate
    ensures Store(item.role) !in w.disk.value.ops
    ensures CodeFrom(WithCode(w.disk.value, item.role, item.code), w.chain.facts, item.role)
    ensures item.code in w.chain.facts.wasm
    ensures item.role in w.disk.value.identity.artifacts ==>
            w.chain.facts.wasm[item.code] == w.disk.value.identity.artifacts[item.role]
  {
    hide StoresFresh, SentNamed, LogOk, Quiet, StatusOk, DistinctSigned;
    var j := w.disk.value;
    assert IsItem(j.inv, item);
    assert Store(item.role) in j.ops ==> OpOk(j, Store(item.role));
  }

  /** A core role is uploaded without a search. */
  lemma CoreUpload(w: World, item: Item)
    requires w.disk.Some? && InventoryOk(w.disk.value.identity, w.disk.value.inv) && item.role in CORE_ROLES
    requires item.role in w.disk.value.inv.instances && w.disk.value.inv.instances[item.role] == item
             && item.needsMigrate
    ensures item.role in w.disk.value.identity.artifacts && NoneMatches(w.disk.value, w.chain.facts, item.role)
  {
    assert IsItem(w.disk.value.inv, item);
  }

  /** The migration of a listed contract onto its role's settled code. */
  lemma MigrationDue(j: Journal, it: Item)
    requires InventoryOk(j.identity, j.inv) && IsItem(j.inv, it) && it.needsMigrate && it.role in j.codes
    ensures Required(j, ItemMigrate(it))
    ensures Performs(j, ItemMigrate(it), MigrateTo(it.address, j.codes[it.role], it.admin))
  {
  }

  function ListedItems(inv: Inventory, role: Role): seq<Item> {
    if role == Token then inv.tokens else MarketItems(inv.markets)
  }

  function ListedStage(role: Role): nat {
    if role == Token then 11 else 16
  }

  lemma ItemAt(inv: Inventory, role: Role, i: nat)
    requires WellShaped(inv) && (role == Token || role == Pair) && i < |ListedItems(inv, role)|
    ensures var it := ListedItems(inv, role)[i];
            IsItem(inv, it) && it.role == role && Index(inv, ItemMigrate(it)) == i && ItemStage(it) == ListedStage(role)
  {
    if role == Token { TokenAt(inv, i); } else { MarketAt(inv, i); }
  }

  lemma ListedWidth(inv: Inventory, role: Role)
    requires role == Token || role == Pair
    ensures Width(inv, ListedStage(role)) == |ListedItems(inv, role)|
  {
  }

  /** A listed contract that needs no migration is passed by. */
  lemma SkipListed(w: World, role: Role, i: nat)
    requires WorldOk(w) && w.disk.Some? && (role == Token || role == Pair)
    requires i < |ListedItems(w.disk.value.inv, role)| && !ListedItems(w.disk.value.inv, role)[i].needsMigrate
    requires At(w, ListedStage(role), i)
    ensures At(w, ListedStage(role), i + 1)
  {
    hide WorldOk, At, InventoryOk, WellShaped, IsItem, ListedItems;
    JournalFacts(w);
    ItemAt(w.disk.value.inv, role, i);
    MigrateSkip(w, ListedItems(w.disk.value.inv, role)[i]);
  }

  lemma ListedPassed(w: World, role: Role)
    requires WorldOk(w) && w.disk.Some? && (role == Token || role == Pair)
    requires At(w, ListedStage(role), |ListedItems(w.disk.value.inv, role)|)
    ensures At(w, ListedStage(role) + 1, 0)
  {
    hide WorldOk, At, InventoryOk, WellShaped, ListedItems, Wanted;
    JournalFacts(w);
    ListedWidth(w.disk.value.inv, role);
    StagePassed(w, ListedStage(role));
  }

  lemma CodeKeptThroughout(u: World, v: World, role: Role)
    requires Kept(u, v) && role in u.disk.value.codes
    ensures v.disk.value.inv == u.disk.value.inv && v.disk.value.identity == u.disk.value.identity
    ensures role in v.disk.value.codes && v.disk.value.codes[role] == u.disk.value.codes[role]
  {
  }

  lemma PassedKept(u: World, v: World)
    requires Kept(u, v)
    ensures HasPassed(u.log) ==> HasPassed(v.log)
    ensures u.foreign ==> v.foreign
    ensures v.disk.value.inv == u.disk.value.inv && v.disk.value.identity == u.disk.value.identity
  {
  }

  // ---------------------------------------------------------------- verification and status changes

  /** Once all work is receipted, only a listing or a restore can be unanswered. */
  lemma WorkSettled(j: Journal)
    requires OpsOk(j) && WellShaped(j.inv) && WorkDone(j)
    ensures Settled(j)
  {
    forall n | IsSigned(j, n) && n != Whitelist && !n.Restore?
      ensures Receipted(j, n)
    {
      assert OpOk(j, n);
      KnownMigrate(j, n);
      EarlierIsReceipted(j, n, RESTORE_STAGE, 0);
    }
  }

  /** Finished work holds no contract that trips the drift check: the next signature would have been refused. */
  lemma WorkIsClear(j: Journal, it: Item)
    requires InventoryOk(j.identity, j.inv) && OpsOk(j) && SignedWhenClear(j) && WorkDone(j)
    ensures !Trips(j, it) && !Mute(j.inv, it)
  {
    hide TripsAfter, Answers;
    if IsItem(j.inv, it) && it.needsMigrate {
      MigrationSigned(j, it);
      LauncherSigned(j);
      ItemRole(j.inv, it);
      if it.role == Pair { PairRefreshed(j, it); }
    }
  }

  lemma MigrationSigned(j: Journal, it: Item)
    requires OpsOk(j) && WellShaped(j.inv) && WorkDone(j) && IsItem(j.inv, it) && it.needsMigrate
    ensures IsSigned(j, ItemMigrate(it))
  {
    ItemRole(j.inv, it);
    assert Required(j, ItemMigrate(it)) && OpOk(j, ItemMigrate(it));
  }

  lemma LauncherSigned(j: Journal)
    requires OpsOk(j) && WorkDone(j)
    ensures IsSigned(j, LauncherTemplate)
  {
    assert Required(j, LauncherTemplate) && OpOk(j, LauncherTemplate);
  }

  lemma ItemRole(inv: Inventory, it: Item)
    requires WellShaped(inv) && IsItem(inv, it)
    ensures ItemStage(it) < RESTORE_STAGE && (it.role == Pair || ItemStage(it) < Stage(LauncherTemplate))
  {
    if it in inv.tokens {
      var i :| 0 <= i < |inv.tokens| && inv.tokens[i] == it;
    }
  }

  lemma PairRefreshed(j: Journal, it: Item)
    requires InventoryOk(j.identity, j.inv) && OpsOk(j) && WorkDone(j)
    requires IsItem(j.inv, it) && it.role == Pair && it.needsMigrate
    ensures IsSigned(j, Refresh(it.address)) && Stage(Refresh(it.address)) > Stage(ItemMigrate(it))
  {
    hide Performs;
    PairPosition(j.inv, it);
    var i := MarketIndex(j.inv, it.address);
    assert j.inv.markets[i].affected;
    assert Affected(j.inv, it.address) && Required(j, Refresh(it.address));
    assert OpOk(j, Refresh(it.address));
  }

  lemma VerifyExact(w: World)
    requires WorldOk(w) && w.disk.Some? && !w.foreign && WorkDone(w.disk.value)
    ensures !OwnDrift(w.disk.value, w.chain)
    ensures LiveBindings(w.disk.value, w.chain.facts) <==>
            w.disk.value.status.Complete? || !UnsavedRestore(w.disk.value, w.chain)
  {
    var j, c := w.disk.value, w.chain;
    WorkSettled(j);
    BindingsExact(j, c);
    if it :| IsItem(j.inv, it) && ItemTrips(j, c, it) {
      CurrentAnswers(j, it);
      WorkIsClear(j, it);
      if Applied(j, c, ItemMigrate(it)) { MovedNeeded(j, it); }
    }
  }

  /** A journal whose contracts are ready has settled everything before the restores. */
  lemma ReadyToRestore(w: World)
    requires WorldOk(w) && w.disk.Some? && (w.disk.value.status.ReadyPaused? || w.disk.value.status.Complete?)
    ensures WorkDone(w.disk.value) && At(w, RESTORE_STAGE, 0)
  {
    var j := w.disk.value;
    assert Required(j, LauncherTemplate) && Before(j.inv, LauncherTemplate, RESTORE_STAGE, 0);
    assert OpOk(j, LauncherTemplate);
  }

  lemma StatusReady(j: Journal, s: Status)
    requires StatusOk(j)
    requires s.ReadyPaused? ==> WorkDone(j)
    requires s.Complete? ==> WorkDone(j) && Ready(j, RESTORE_STAGE + 1, 0)
    ensures StatusOk(j.(status := s))
  {
    var k := j.(status := s);
    assert Extends(j, k);
    ReadyExtendsIf(j, k, RESTORE_STAGE, 0);
    ReadyExtendsIf(j, k, RESTORE_STAGE + 1, 0);
  }

  /** Every saved entry passes the proofs that a resuming process asks of it. */
  lemma EntryProven(w: World, n: OpName)
    requires WorldOk(w) && w.disk.Some? && n in w.disk.value.ops
    ensures var op := w.disk.value.ops[n];
            && (op.signed.Some? ==> op.signed.value.fee > 0)
            && (op.receipt.Some? ==>
                  && op.signed == Some(op.receipt.value.tx) && op.receipt.value.ok
                  && op.receipt.value.tx in w.chain.included
                  && w.chain.included[op.receipt.value.tx] == op.receipt.value)
  {
    assert OpOk(w.disk.value, n);
    assert w.disk.value.ops[n].receipt.Some? ==> Receipted(w.disk.value, n);
  }

  lemma FeesBounded(w: World)
    requires WorldOk(w) && w.disk.Some?
    ensures TotalFees(w.disk.value) <= w.disk.value.identity.cap
  {
  }

  /** The four reviewed core artifacts are always present. */
  lemma CoreArtifacts(w: World)
    requires WorldOk(w) && w.disk.Some?
    ensures Token in w.disk.value.identity.artifacts && Pair in w.disk.value.identity.artifacts
  {
  }

  lemma LauncherRequired(j: Journal, autolp: Option<CodeId>)
    ensures Required(j, LauncherTemplate)
    ensures Stage(LauncherTemplate) == 13 && Index(j.inv, LauncherTemplate) == 0
    ensures Token in j.codes
            && (if Autolp in j.identity.artifacts then Autolp in j.codes && autolp == Some(j.codes[Autolp])
                else autolp == None) ==>
              Performs(j, LauncherTemplate, SetLauncher(j.codes[Token], autolp))
  {
  }

  lemma PairTemplateRequired(j: Journal)
    ensures Pair in j.codes && j.codes[Pair] != j.inv.pairTemplate ==>
              Required(j, PairTemplate) && Performs(j, PairTemplate, SetPairTemplate(j.codes[Pair]))
    ensures Stage(PairTemplate) == 15 && Index(j.inv, PairTemplate) == 0
  {
  }

  lemma PassDue(w: World)
    requires WorldOk(w) && w.disk.Some?
    requires LiveBindings(w.disk.value, w.chain.facts) && CutOver(w.disk.value, w.chain.facts) && WorkDone(w.disk.value)
    ensures var v := w.(log := w.log + [Passed(Moment(w.disk, w.chain))]);
            Kept(w, v) && HasPassed(v.log)
  {
    hide WorldOk, LiveBindings, CutOver, WorkDone;
    PassKeeps(w);
    Logged(w, Passed(Moment(w.disk, w.chain)));
  }

  lemma ExecutingOk(j: Journal)
    ensures StatusOk(j.(status := Executing))
  {
  }

  lemma JournalStatus(w: World)
    requires WorldOk(w) && w.disk.Some?
    ensures StatusOk(w.disk.value)
  {
  }

  lemma DoneAt(w: World)
    requires At(w, RESTORE_STAGE, 0)
    ensures WorkDone(w.disk.value)
  {
  }

  lemma RestoredAt(w: World)
    requires At(w, RESTORE_STAGE + 1, 0)
    ensures WorkDone(w.disk.value) && Ready(w.disk.value, RESTORE_STAGE + 1, 0)
  {
  }

  lemma KeptDisk(u: World, v: World)
    requires Kept(u, v)
    ensures u.disk.Some? && v.disk.Some? && WorldOk(v)
  {
  }
}

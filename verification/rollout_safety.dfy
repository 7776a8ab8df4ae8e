/** What the invariant says about whole runs: signatures, broadcasts, pauses, completion and fees. */
module RolloutSafety {
  import opened Wrappers
  import opened RolloutPlan
  import opened RolloutChain
  import opened RolloutWorld
  import opened RolloutSteps
  import opened RolloutSite
  import opened RolloutRun
  import RolloutCutover
  import MapSum

  // ---------------------------------------------------------------- reading the history

  /** Every past event was legitimate, and follows a legitimate history. */
  lemma {:induction false} LogAt(j: Journal, log: seq<Event>, i: nat)
    requires LogOk(j, log) && i < |log|
    ensures EventOk(log[i], j)
    ensures log[i].Signed? ==> JustChecked(log[..i], log[i].at.disk) && (log[i].name.Restore? ==> HasPassed(log[..i]))
    ensures i + 1 < |log| ==> Follows(log[i], log[i + 1])
    decreases |log|
  {
    hide EventOk, Follows, JustChecked, HasPassed;
    var before := log[..|log| - 1];
    if i < |before| {
      LogAt(j, before, i);
      assert before[..i] == log[..i];
      assert i + 1 < |before| ==> before[i + 1] == log[i + 1];
    } else {
      assert before == log[..i];
    }
  }

  /** The journal only grew from one event to a later one. */
  lemma {:induction false} LogGrows(j: Journal, log: seq<Event>, i: nat, k: nat)
    requires LogOk(j, log) && i <= k < |log|
    ensures log[i].at.disk.Some? && log[k].at.disk.Some?
    ensures i == k || Extends(log[i].at.disk.value, log[k].at.disk.value)
    decreases k - i
  {
    hide JournalOk, LiveBindings, CutOver, ReceiptsIncluded, WorkDone;
    LogAt(j, log, i);
    if i < k {
      LogGrows(j, log, i + 1, k);
      if i + 1 < k {
        ExtendsTrans(log[i].at.disk.value, log[i + 1].at.disk.value, log[k].at.disk.value);
      }
    }
  }

  // ---------------------------------------------------------------- at most one transaction a name

  /** A broadcast transaction was already durable under its name, and no other is ever broadcast under it. */
  lemma BroadcastOnce(j: Journal, log: seq<Event>, h: nat, k: nat)
    requires LogOk(j, log) && h < |log| && k < |log|
    requires log[h].Sent? && log[k].Sent? && log[h].name == log[k].name
    ensures log[h].at.disk.Some? && HasTx(log[h].at.disk.value, log[h].name, log[h].tx)
    ensures log[h].tx == log[k].tx
  {
    hide JournalOk, LiveBindings, CutOver, ReceiptsIncluded, LogOk;
    LogAt(j, log, h);
    LogAt(j, log, k);
  }

  /** Names and saved transactions correspond one to one, and only broadcast ones are included. */
  lemma SentOneToOne(w: World, m: OpName, n: OpName, s: Tx, t: Tx)
    requires WorldOk(w) && w.disk.Some? && HasTx(w.disk.value, m, s) && HasTx(w.disk.value, n, t)
    ensures m == n <==> s == t
    ensures w.chain.included.Keys <= w.sent
    ensures forall tx :: tx in w.sent ==> exists name :: HasTx(w.disk.value, name, tx)
  {
    assert IsSigned(w.disk.value, m) && IsSigned(w.disk.value, n);
  }

  /** Once a signature is durable its name is never signed again; so a re-signed one was neither saved nor sent. */
  lemma NeverResigned(j: Journal, log: seq<Event>, i: nat, k: nat, n: OpName)
    requires LogOk(j, log) && i <= k < |log|
    requires log[k].Signed? && log[k].name == n
    ensures log[i].at.disk.Some? && !IsSigned(log[i].at.disk.value, n)
    ensures !(log[i].Sent? && log[i].name == n)
  {
    hide JournalOk, LiveBindings, CutOver, ReceiptsIncluded, LogOk;
    LogAt(j, log, k);
    LogAt(j, log, i);
    LogGrows(j, log, i, k);
  }

  // ---------------------------------------------------------------- pauses before work, work before restores

  /** The journal a signature was made from. */
  lemma SignedEvent(j: Journal, log: seq<Event>, i: nat)
    requires LogOk(j, log) && i < |log| && log[i].Signed?
    ensures log[i].at.disk.Some?
    ensures var k, n := log[i].at.disk.value, log[i].name;
            && JournalOk(k) && k.inv == j.inv && ReceiptsIncluded(k, log[i].at.chain)
            && n in k.ops && !IsSigned(k, n) && ReadyFor(k, n)
    ensures i > 0 && log[i - 1].Checked? && log[i - 1].at.disk == log[i].at.disk
    ensures LiveBindings(log[i].at.disk.value, log[i - 1].at.chain.facts)
  {
    hide JournalOk, LiveBindings, CutOver, ReceiptsIncluded, ReadyFor, LogOk;
    LogAt(j, log, i);
    assert log[..i][|log[..i]| - 1] == log[i - 1];
    LogAt(j, log, i - 1);
  }

  lemma PausedBefore(k: Journal, c: Chain, n: OpName, p: Address)
    requires OpsOk(k) && ReceiptsIncluded(k, c) && ReadyFor(k, n) && !n.Pause? && Affected(k.inv, p)
    ensures Receipted(k, Pause(p)) && Applied(k, c, Pause(p))
  {
    assert Required(k, Pause(p)) && Before(k.inv, Pause(p), Stage(n), Index(k.inv, n));
    assert Receipted(k, Pause(p)) && OpOk(k, Pause(p));
    ReceiptedIsApplied(k, c, Pause(p));
  }

  /** An operation after the pauses is signed only once every affected pair's pause is included. */
  lemma WorkNeedsPause(j: Journal, log: seq<Event>, i: nat, p: Address)
    requires LogOk(j, log) && i < |log| && log[i].Signed? && !log[i].name.Pause? && Affected(j.inv, p)
    ensures log[i].at.disk.Some? && Receipted(log[i].at.disk.value, Pause(p))
    ensures Applied(log[i].at.disk.value, log[i].at.chain, Pause(p))
  {
    hide LogOk, InventoryOk, DistinctSigned, StatusOk, ReceiptsIncluded, ReadyFor, OpsOk, LiveBindings;
    SignedEvent(j, log, i);
    PausedBefore(log[i].at.disk.value, log[i].at.chain, log[i].name, p);
  }

  lemma RestoreNotYet(j: Journal, n: OpName, p: Address)
    requires OpsOk(j) && WellShaped(j.inv) && n in j.ops && !IsSigned(j, n) && n != Whitelist && !n.Restore?
    ensures !Receipted(j, Restore(p))
  {
    hide StatusOk, WellShaped;
    assert OpOk(j, n);
    KnownMigrate(j, n);
    if Receipted(j, Restore(p)) {
      assert OpOk(j, Restore(p));
      SignedNeedsEarlier(j, n, Restore(p));
    }
  }

  lemma CompleteNotYet(j: Journal, n: OpName)
    requires OpsOk(j) && StatusOk(j) && WellShaped(j.inv) && n in j.ops && !IsSigned(j, n) && n != Whitelist
             && !n.Restore?
    ensures !j.status.Complete?
  {
    hide WellShaped;
    assert OpOk(j, n);
    KnownMigrate(j, n);
    if j.status.Complete? {
      EarlierIsReceipted(j, n, RESTORE_STAGE, 0);
    }
  }

  lemma SeenPaused(k: Journal, f: Facts, m: Market)
    requires LiveBindings(k, f) && m in k.inv.markets && m.affected
    requires Receipted(k, Pause(m.item.address)) && !Receipted(k, Restore(m.item.address)) && !k.status.Complete?
    ensures m.item.address in f.contracts && f.contracts[m.item.address].paused
  {
    assert MarketLive(k, f, m);
  }

  lemma JournalParts(k: Journal)
    requires JournalOk(k)
    ensures OpsOk(k) && StatusOk(k) && WellShaped(k.inv)
  {
    hide OpsOk, StatusOk, WellShaped, DistinctSigned;
  }

  /**
   Whoever else acts on the chain: when work is signed, the drift check just before it, of the very
   same journal, saw every affected pair paused.
   */
  lemma WorkSeenPaused(j: Journal, log: seq<Event>, i: nat, m: Market)
    requires LogOk(j, log) && i < |log| && log[i].Signed?
    requires !log[i].name.Pause? && !log[i].name.Restore? && log[i].name != Whitelist
    requires m in j.inv.markets && m.affected
    ensures i > 0 && log[i - 1].Checked? && log[i - 1].at.disk == log[i].at.disk
    ensures var f := log[i - 1].at.chain.facts;
            m.item.address in f.contracts && f.contracts[m.item.address].paused
  {
    hide LogOk, JournalOk, OpsOk, StatusOk, WellShaped, ReceiptsIncluded, ReadyFor, LiveBindings;
    var p := m.item.address;
    assert Affected(j.inv, p) by {
      var q :| 0 <= q < |j.inv.markets| && j.inv.markets[q] == m;
    }
    SignedEvent(j, log, i);
    var k := log[i].at.disk.value;
    JournalParts(k);
    PausedBefore(k, log[i].at.chain, log[i].name, p);
    RestoreNotYet(k, log[i].name, p);
    CompleteNotYet(k, log[i].name);
    SeenPaused(k, log[i - 1].at.chain.facts, m);
  }

  /** A restore is signed only when all required work is receipted and after a verification passed. */
  lemma RestoreNeedsVerification(j: Journal, log: seq<Event>, i: nat) returns (v: nat)
    requires LogOk(j, log) && i < |log| && log[i].Signed? && log[i].name.Restore?
    ensures log[i].at.disk.Some? && WorkDone(log[i].at.disk.value)
    ensures v < i && log[v].Passed? && log[v].at.disk.Some? && WorkDone(log[v].at.disk.value)
    ensures LiveBindings(log[v].at.disk.value, log[v].at.chain.facts)
    ensures CutOver(log[v].at.disk.value, log[v].at.chain.facts)
  {
    hide JournalOk, LiveBindings, CutOver, ReceiptsIncluded, LogOk;
    LogAt(j, log, i);
    var h :| 0 <= h < i && log[..i][h].Passed?;
    v := h;
    LogAt(j, log, v);
  }

  // ---------------------------------------------------------------- completion

  /** What the invariant gives for the journal on disk. */
  lemma WorldParts(w: World)
    requires WorldOk(w) && w.disk.Some?
    ensures var j := w.disk.value;
            && OpsOk(j) && StatusOk(j) && WellShaped(j.inv) && ReceiptsIncluded(j, w.chain)
            && DistinctSigned(j) && TotalFees(j) <= j.identity.cap
            && LogOk(j, w.log) && SentNamed(j, w.sent) && Grounded(j, w.chain.facts)
            && (!w.foreign ==> Tracks(j, w.chain) && ListedFirst(j, w.chain) && SignedWhenClear(j))
  {
    hide OpsOk, StatusOk, WellShaped, DistinctSigned, ReceiptsIncluded, Tracks, Grounded, SearchFailed, StoresFresh,
         SentNamed, LogOk, ListedFirst, SignedWhenClear;
  }

  /** The saved receipts of a complete journal. */
  ghost predicate CompleteOn(j: Journal, c: Chain) {
    OpsOk(j) && StatusOk(j) && WellShaped(j.inv) && ReceiptsIncluded(j, c) && j.status.Complete?
  }

  lemma CompleteReceipted(j: Journal, c: Chain, n: OpName)
    requires CompleteOn(j, c)
    requires Required(j, n) || (n in j.ops && n != Whitelist)
    ensures Receipted(j, n) && Applied(j, c, n)
  {
    hide WellShaped;
    assert n in j.ops ==> OpOk(j, n);
    KnownMigrate(j, n);
    if Required(j, n) {
      assert Before(j.inv, n, RESTORE_STAGE + 1, 0);
    } else {
      EarlierIsReceipted(j, n, RESTORE_STAGE + 1, 0);
    }
    assert OpOk(j, n);
    ReceiptedIsApplied(j, c, n);
  }

  /**
   A complete rollout has applied every journaled operation exactly once. Only a listing may lack its receipt,
   and only a listing needs that nobody else acted.
   */
  lemma CompleteOnce(j: Journal, c: Chain, n: OpName) returns (tx: Tx)
    requires CompleteOn(j, c) && n in j.ops
    requires n == Whitelist ==> ListedFirst(j, c) && SignedWhenClear(j)
    ensures n != Whitelist ==> Receipted(j, n)
    ensures HasTx(j, n, tx) && tx in c.included && c.included[tx].ok
    ensures forall t :: HasTx(j, n, t) ==> t == tx
  {
    hide CompleteOn, ReceiptsIncluded;
    if n == Whitelist {
      CompleteReceipted(j, c, LauncherTemplate);
      assert IsSigned(j, LauncherTemplate);
    } else {
      CompleteReceipted(j, c, n);
    }
    tx := j.ops[n].signed.value;
  }

  /** Everything the inventory calls for has been done in a complete rollout. */
  lemma CompleteCovers(j: Journal, c: Chain, n: OpName)
    requires CompleteOn(j, c) && Required(j, n)
    ensures Receipted(j, n) && Applied(j, c, n)
  {
    hide CompleteOn, Required;
    CompleteReceipted(j, c, n);
  }

  /** Unless somebody else changed it, every affected pair of a complete rollout has its inventoried pause flag. */
  lemma CompleteRestores(j: Journal, c: Chain, i: nat)
    requires CompleteOn(j, c) && Tracks(j, c)
    requires i < |j.inv.markets| && j.inv.markets[i].affected
    ensures var m := j.inv.markets[i];
            m.item.address in c.facts.contracts && c.facts.contracts[m.item.address].paused == m.paused
  {
    hide CompleteOn;
    var m := j.inv.markets[i];
    assert Required(j, Restore(m.item.address));
    CompleteCovers(j, c, Restore(m.item.address));
    assert TrackMarket(j, c, m);
  }

  /** And every contract that needed it runs the reviewed version. */
  lemma CompleteMigrates(j: Journal, c: Chain, it: Item)
    requires CompleteOn(j, c) && Tracks(j, c) && Grounded(j, c.facts)
    requires IsItem(j.inv, it) && it.needsMigrate
    ensures it.role in j.codes && it.role in j.identity.artifacts && it.address in c.facts.contracts
    ensures c.facts.contracts[it.address].code == j.codes[it.role]
    ensures j.codes[it.role] in c.facts.wasm && c.facts.wasm[j.codes[it.role]] == j.identity.artifacts[it.role]
    ensures c.facts.contracts[it.address].cw2 == j.identity.artifacts[it.role].cw2
  {
    hide CompleteOn;
    assert Required(j, ItemMigrate(it));
    CompleteCovers(j, c, ItemMigrate(it));
    assert TrackItem(j, c, it);
  }

  // ---------------------------------------------------------------- fees

  function SpentOf(s: set<Tx>): map<Tx, nat> {
    map tx | tx in s :: tx.fee
  }

  lemma {:induction false} SpentWithinSaved(s: set<Tx>, ops: map<OpName, Op>)
    requires forall tx :: tx in s ==> exists n :: n in ops && ops[n].signed == Some(tx)
    ensures MapSum.Sum(SpentOf(s)) <= MapSum.Sum(FeesOf(ops))
    decreases |s|
  {
    if s == {} {
      assert SpentOf(s) == map[];
    } else {
      var tx :| tx in s;
      var n :| n in ops && ops[n].signed == Some(tx);
      var rest := ops - {n};
      assert FeesOf(ops) - {n} == FeesOf(rest);
      assert SpentOf(s) - {tx} == SpentOf(s - {tx});
      MapSum.SumTakeOut(SpentOf(s), tx);
      MapSum.SumTakeOut(FeesOf(ops), n);
      forall t | t in s - {tx}
        ensures exists m :: m in rest && rest[m].signed == Some(t)
      {
        var m :| m in ops && ops[m].signed == Some(t);
        assert m in rest;
      }
      SpentWithinSaved(s - {tx}, rest);
    }
  }

  /** All fees ever offered to the network stay within the cap. */
  lemma SpentWithinCap(j: Journal, sent: set<Tx>)
    requires SentNamed(j, sent) && TotalFees(j) <= j.identity.cap
    ensures MapSum.Sum(SpentOf(sent)) <= j.identity.cap
  {
    forall tx | tx in sent
      ensures exists n :: n in j.ops && j.ops[n].signed == Some(tx)
    {
      var n :| HasTx(j, n, tx);
    }
    SpentWithinSaved(sent, j.ops);
  }

  // ---------------------------------------------------------------- when the tool reports drift of its own making

  /**
   A token or pair that counts as stale although its own code id is the smallest candidate that holds
   the reviewed binary. Inventory and stored code show it before the first operation.
   */
  ghost predicate SelfTarget(j: Journal, f: Facts, it: Item) {
    && IsItem(j.inv, it) && it.needsMigrate && (it.role == Token || it.role == Pair)
    && FirstMatch(j, f, it.role, it.code)
  }

  /** A router or token whose reviewed binary does not answer the probes that its version is asked. */
  ghost predicate SilentTarget(j: Journal, it: Item) {
    && IsItem(j.inv, it) && it.needsMigrate && it.role in j.identity.artifacts
    && !Answers(it.role, j.identity.artifacts[it.role].cw2.version, j.identity.artifacts[it.role])
  }

  /** Once migrated, the contract is refused. */
  ghost predicate Doomed(j: Journal, f: Facts, it: Item) {
    SelfTarget(j, f, it) || SilentTarget(j, it)
  }

  ghost predicate DoomedMoved(j: Journal, c: Chain) {
    exists it :: Doomed(j, c.facts, it) && Applied(j, c, ItemMigrate(it))
  }

  /** A stale router of version 1.3.0 or later that does not advertise settlement: the inventory does not ask it. */
  predicate MuteRouter(inv: Inventory) {
    && Router in inv.instances
    && var r := inv.instances[Router];
    r.needsMigrate && AtLeast(r.cw2.version, SETTLES_SINCE) && !r.wasm.settles
  }

  ghost predicate MuteWaiting(j: Journal, c: Chain) {
    MuteRouter(j.inv) && !Applied(j, c, ItemMigrate(j.inv.instances[Router]))
  }

  lemma ListedItem(j: Journal, it: Item)
    requires WellShaped(j.inv) && IsItem(j.inv, it) && it.role !in j.inv.instances
    ensures it.role == Token || it.role == Pair
  {
    if it in j.inv.tokens {
      var i :| 0 <= i < |j.inv.tokens| && j.inv.tokens[i] == it;
    }
  }

  /** A settled code that is the item's own was found by the search. */
  lemma OwnCodeWasFound(j: Journal, c: Chain, it: Item)
    requires WellShaped(j.inv) && OpsOk(j) && StoresFresh(j, c) && ReceiptsIncluded(j, c)
    requires IsItem(j.inv, it) && it.needsMigrate && it.role in j.codes && CodeFrom(j, c.facts, it.role)
    requires j.codes[it.role] == it.code
    ensures SelfTarget(j, c.facts, it)
  {
    UploadIsFresh(j, c, it);
    InstanceItem(j, it);
    if it.role !in j.inv.instances { ListedItem(j, it); }
  }

  /** An uploaded code id is no inventoried one. */
  lemma UploadIsFresh(j: Journal, c: Chain, it: Item)
    requires OpsOk(j) && StoresFresh(j, c) && ReceiptsIncluded(j, c) && IsItem(j.inv, it)
    ensures Receipted(j, Store(it.role)) ==> j.ops[Store(it.role)].receipt.value.code != Some(it.code)
  {
    if Receipted(j, Store(it.role)) {
      assert OpOk(j, Store(it.role));
      assert StoreReceiptOk(j, c, j.ops[Store(it.role)].receipt.value.tx);
    }
  }

  lemma InstanceItem(j: Journal, it: Item)
    requires WellShaped(j.inv) && IsItem(j.inv, it)
    ensures it.role in j.inv.instances ==> j.inv.instances[it.role] == it
  {
    if it in j.inv.tokens {
      var i :| 0 <= i < |j.inv.tokens| && j.inv.tokens[i] == it;
    }
  }

  /** A first match is what the role's code is settled on. */
  lemma FirstMatchIsSettled(j: Journal, f: Facts, role: Role, code: CodeId)
    requires SearchFailed(j, f) && role !in j.inv.instances && role in j.codes && CodeFrom(j, f, role)
    requires FirstMatch(j, f, role, code)
    ensures j.codes[role] == code
  {
    assert Store(role) in j.ops ==> NoneMatches(j, f, role);
  }

  /** A contract that needs migration trips the check afterwards exactly if it is doomed. */
  lemma TripsIfDoomed(j: Journal, c: Chain, it: Item)
    requires WellShaped(j.inv) && OpsOk(j) && StoresFresh(j, c) && ReceiptsIncluded(j, c) && SearchFailed(j, c.facts)
    requires IsItem(j.inv, it) && it.needsMigrate && it.role in j.codes && CodeFrom(j, c.facts, it.role)
    ensures TripsAfter(j, it) <==> Doomed(j, c.facts, it)
  {
    hide FirstMatch, Answers, StoresFresh, SearchFailed, OpsOk, ReceiptsIncluded, CodeFrom, WellShaped;
    if j.codes[it.role] == it.code {
      OwnCodeWasFound(j, c, it);
    }
    if SelfTarget(j, c.facts, it) {
      NotAnInstance(j, it.role);
      FirstMatchIsSettled(j, c.facts, it.role, it.code);
    }
  }

  /** The one contract that may fail to answer before its migration. */
  lemma MuteIsRouter(j: Journal, it: Item)
    requires InventoryOk(j.identity, j.inv) && IsItem(j.inv, it)
    ensures !Answers(it.role, it.cw2.version, it.wasm) <==> MuteRouter(j.inv) && it == j.inv.instances[Router]
  {
    assert Probed(it);
    InstanceItem(j, it);
  }

  /** Which contracts trip the drift check by themselves is known from inventory, stored code and reviewed binaries. */
  lemma OwnDriftExactly(w: World)
    requires WorldOk(w) && w.disk.Some?
    ensures OwnDrift(w.disk.value, w.chain) <==>
            DoomedMoved(w.disk.value, w.chain) || MuteWaiting(w.disk.value, w.chain)
  {
    var j, c := w.disk.value, w.chain;
    SearchParts(w);
    hide WorldOk, Doomed, TripsAfter, OpsOk, InventoryOk, Answers, MuteRouter, Applied, StoresFresh, SearchFailed,
         CodesFrom, CodeFrom, ReceiptsIncluded;
    if it :| IsItem(j.inv, it) && ItemTrips(j, c, it) {
      if Applied(j, c, ItemMigrate(it)) {
        MovedSettled(j, c, it);
        TripsIfDoomed(j, c, it);
      } else {
        MuteIsRouter(j, it);
      }
    }
    if it :| Doomed(j, c.facts, it) && Applied(j, c, ItemMigrate(it)) {
      DoomedIsItem(j, c.facts, it);
      MovedSettled(j, c, it);
      TripsIfDoomed(j, c, it);
      assert ItemTrips(j, c, it);
    }
    if MuteWaiting(j, c) {
      var r := j.inv.instances[Router];
      RouterIsItem(j.inv);
      MuteIsRouter(j, r);
      assert ItemTrips(j, c, r);
    }
  }

  lemma DoomedIsItem(j: Journal, f: Facts, it: Item)
    requires Doomed(j, f, it)
    ensures IsItem(j.inv, it) && it.needsMigrate
  {
  }

  lemma RouterIsItem(inv: Inventory)
    requires MuteRouter(inv) && WellShaped(inv)
    ensures Router in inv.instances && IsItem(inv, inv.instances[Router])
  {
  }

  lemma SearchParts(w: World)
    requires WorldOk(w) && w.disk.Some?
    ensures var j, c := w.disk.value, w.chain;
            && InventoryOk(j.identity, j.inv) && WellShaped(j.inv) && DistinctAddresses(j.inv) && OpsOk(j)
            && ReceiptsIncluded(j, c)
            && StoresFresh(j, c) && SearchFailed(j, c.facts) && CodesFrom(j, c.facts)
  {
    hide StatusOk, DistinctSigned, LogOk, SentNamed, Quiet, StoresFresh, SearchFailed, CodesFrom, ReceiptsIncluded,
         OpsOk;
  }

  lemma MovedSettled(j: Journal, c: Chain, it: Item)
    requires OpsOk(j) && DistinctAddresses(j.inv) && CodesFrom(j, c.facts) && IsItem(j.inv, it)
             && Applied(j, c, ItemMigrate(it))
    ensures it.needsMigrate && it.role in j.codes && CodeFrom(j, c.facts, it.role)
  {
    assert OpOk(j, ItemMigrate(it));
    MovedNeeded(j, it);
  }

  lemma NotAnInstance(j: Journal, role: Role)
    requires WellShaped(j.inv) && (role == Token || role == Pair)
    ensures role !in j.inv.instances
  {
  }

  /**
   Without changes by others, a signature is refused for drift exactly if a doomed contract was already
   migrated, or a mute router was not yet.
   */
  lemma FalseDriftExactly(w: World, n: OpName, action: Action)
    requires WorldOk(w) && Due(w, n, action) && !IsSigned(w.disk.value, n) && !w.foreign
    ensures LiveBindings(w.disk.value, w.chain.facts) <==>
            !DoomedMoved(w.disk.value, w.chain) && !MuteWaiting(w.disk.value, w.chain)
  {
    hide DoomedMoved, MuteWaiting, OwnDrift, LiveBindings;
    DueBindings(w, n);
    OwnDriftExactly(w);
  }

  // ---------------------------------------------------------------- what a verification of finished work accepts

  /** A token that stays as it is runs a listed code, or the smallest candidate with the reviewed binary. */
  ghost predicate SettledListed(j: Journal, f: Facts) {
    forall i :: 0 <= i < |j.inv.tokens| && !j.inv.tokens[i].needsMigrate ==>
      j.inv.tokens[i].code in j.inv.whitelist || FirstMatch(j, f, Token, j.inv.tokens[i].code)
  }

  /** A token's own code is the settled one exactly if the search finds it first. */
  lemma OwnCodeSettled(j: Journal, c: Chain, it: Item)
    requires WellShaped(j.inv) && OpsOk(j) && StoresFresh(j, c) && ReceiptsIncluded(j, c) && SearchFailed(j, c.facts)
    requires it in j.inv.tokens && it.role == Token && Token in j.codes && CodeFrom(j, c.facts, Token)
    ensures it.code == j.codes[Token] <==> FirstMatch(j, c.facts, Token, it.code)
  {
    NotAnInstance(j, Token);
    UploadIsFresh(j, c, it);
    if FirstMatch(j, c.facts, Token, it.code) {
      FirstMatchIsSettled(j, c.facts, Token, it.code);
    }
  }

  lemma ListedAtPlanning(w: World)
    requires WorldOk(w) && w.disk.Some? && WorkDone(w.disk.value)
    ensures RolloutCutover.TokensListed(w.disk.value) <==> SettledListed(w.disk.value, w.chain.facts)
  {
    hide StatusOk, DistinctSigned, LogOk, SentNamed, Quiet, FirstMatch;
    var j, c := w.disk.value, w.chain;
    assert Wanted(j, Token) && StoreStage(Token) < RESTORE_STAGE;
    assert CodeFrom(j, c.facts, Token);
    forall i | 0 <= i < |j.inv.tokens|
      ensures j.inv.tokens[i].code == j.codes[Token] <==> FirstMatch(j, c.facts, Token, j.inv.tokens[i].code)
    {
      OwnCodeSettled(j, c, j.inv.tokens[i]);
    }
  }

  /** On an inventory with a doomed contract the work never gets done: the next signature is refused. */
  lemma DoomedNeverFinishes(w: World, it: Item)
    requires WorldOk(w) && w.disk.Some? && !w.foreign && Doomed(w.disk.value, w.chain.facts, it)
    ensures !WorkDone(w.disk.value)
    ensures !w.disk.value.status.ReadyPaused? && !w.disk.value.status.Complete?
  {
    var j, c := w.disk.value, w.chain;
    SearchParts(w);
    ReadyIsDone(w);
    hide WorldOk, WorkDone, Doomed, TripsAfter, OpsOk, InventoryOk, StoresFresh, SearchFailed, CodesFrom, CodeFrom,
         ReceiptsIncluded;
    if WorkDone(j) {
      DoomedIsItem(j, c.facts, it);
      MigrationSigned(j, it);
      SignedSettled(j, c, it);
      TripsIfDoomed(j, c, it);
      WorkIsClear(j, it);
    }
  }

  lemma ReadyIsDone(w: World)
    requires WorldOk(w) && w.disk.Some?
    ensures w.disk.value.status.ReadyPaused? || w.disk.value.status.Complete? ==> WorkDone(w.disk.value)
    ensures !w.foreign ==> SignedWhenClear(w.disk.value)
  {
    hide WorkDone, SignedWhenClear;
  }

  lemma SignedSettled(j: Journal, c: Chain, it: Item)
    requires OpsOk(j) && CodesFrom(j, c.facts) && IsSigned(j, ItemMigrate(it))
    ensures it.role in j.codes && CodeFrom(j, c.facts, it.role)
  {
    assert OpOk(j, ItemMigrate(it));
  }

  /** On an inventory with a mute router nothing is ever signed. */
  lemma MuteNeverSigns(w: World, n: OpName)
    requires WorldOk(w) && w.disk.Some? && !w.foreign && MuteRouter(w.disk.value.inv)
    ensures !IsSigned(w.disk.value, n)
  {
    var j := w.disk.value;
    var r := j.inv.instances[Router];
    SearchParts(w);
    ReadyIsDone(w);
    hide WorldOk;
    RouterIsItem(j.inv);
    MuteIsRouter(j, r);
    assert Mute(j.inv, r) && Required(j, ItemMigrate(r));
    assert !IsSigned(j, ItemMigrate(r));
    assert n in j.ops ==> OpOk(j, n);
    assert ItemMigrate(r) in j.ops ==> OpOk(j, ItemMigrate(r));
  }

  /** What a verification of finished work asks of the plan; the inventory asks only part of it. */
  ghost predicate PlanVerifies(j: Journal, c: Chain) {
    && RolloutCutover.ReviewedCapable(j) && SettledListed(j, c.facts)
    && RolloutCutover.OthersPinned(j, c.planned)
  }

  /**
   When all work is receipted and nobody else acted, the checks of a verification accept exactly if the
   reviewed binaries are capable, every token that stays runs a code that is or gets listed, every pair that is
   not refreshed was planned with pins that stay valid, and no included restore of a running pair is unsaved.
   All but the last are decided when the rollout is planned.
   */
  lemma VerifyAcceptsExactly(w: World)
    requires WorldOk(w) && w.disk.Some? && !w.foreign && WorkDone(w.disk.value)
    ensures LiveBindings(w.disk.value, w.chain.facts) && CutOver(w.disk.value, w.chain.facts) <==>
            && PlanVerifies(w.disk.value, w.chain)
            && (w.disk.value.status.Complete? || !UnsavedRestore(w.disk.value, w.chain))
  {
    hide WorldOk, WorkDone, LiveBindings, CutOver, OwnDrift, UnsavedRestore, SettledListed, RolloutCutover.TokensListed,
         RolloutCutover.OthersPinned, RolloutCutover.ReviewedCapable;
    VerifyExact(w);
    RolloutCutover.CutOverExactly(w);
    ListedAtPlanning(w);
  }

  // ---------------------------------------------------------------- which refreshes the chain admits

  /** Every asset then runs a listed code. */
  ghost predicate AssetsListedAfter(j: Journal, f: Facts, m: Market) {
    forall a {:trigger a in m.assets} :: a in m.assets ==>
      exists code :: RolloutCutover.RunsAfter(j, f, a, code) && RolloutCutover.ListedAfter(j, code)
  }

  /** When a refresh is due, all migrations are done. */
  lemma RefreshMoved(w: World, p: Address)
    requires WorldOk(w) && w.disk.Some? && !w.foreign && ReadyFor(w.disk.value, Refresh(p))
    ensures RolloutCutover.Moved(w.disk.value, w.chain)
  {
    var j, c := w.disk.value, w.chain;
    SearchParts(w);
    QuietParts(w);
    hide WorldOk, OpsOk, Tracks, TrackPins, ReceiptsIncluded, Applied, WellShaped, Required;
    forall it {:trigger IsItem(j.inv, it)} | IsItem(j.inv, it) && it.needsMigrate
      ensures Applied(j, c, ItemMigrate(it))
    {
      MovedBeforeRefresh(j, c, it, p);
    }
  }

  lemma MovedBeforeRefresh(j: Journal, c: Chain, it: Item, p: Address)
    requires OpsOk(j) && ReceiptsIncluded(j, c) && ReadyFor(j, Refresh(p)) && IsItem(j.inv, it) && it.needsMigrate
    requires WellShaped(j.inv)
    ensures Applied(j, c, ItemMigrate(it))
  {
    hide ReceiptsIncluded, Applied;
    assert Required(j, ItemMigrate(it)) && Before(j.inv, ItemMigrate(it), Stage(Refresh(p)), Index(j.inv, Refresh(p)));
    assert OpOk(j, ItemMigrate(it));
    ReceiptedIsApplied(j, c, ItemMigrate(it));
  }

  lemma QuietParts(w: World)
    requires WorldOk(w) && w.disk.Some? && !w.foreign
    ensures Tracks(w.disk.value, w.chain) && TrackPins(w.disk.value, w.chain)
  {
  }

  /** What a due refresh finds. */
  lemma RefreshFinds(w: World, m: Market)
    requires WorldOk(w) && w.disk.Some? && !w.foreign && m in w.disk.value.inv.markets
    requires Due(w, Refresh(m.item.address), RefreshPins(m.item.address))
    ensures RolloutCutover.Moved(w.disk.value, w.chain) && ReadyFor(w.disk.value, Refresh(m.item.address))
    ensures forall id :: id in w.chain.facts.listed <==> RolloutCutover.ListedAfter(w.disk.value, id)
    ensures m.item.address in w.chain.facts.pairs && w.chain.facts.pairs[m.item.address] == m.assets
  {
    QuietParts(w);
    hide WorldOk, ReadyFor, RolloutCutover.Moved, RolloutCutover.ListedAfter, TrackPins;
    RefreshMoved(w, m.item.address);
    RolloutCutover.ListedAfterwards(w.disk.value, w.chain);
  }

  /** While nobody else acts, the chain admits a due refresh exactly if all assets of the pair then run listed codes. */
  lemma RefreshAdmittedExactly(w: World, m: Market)
    requires WorldOk(w) && w.disk.Some? && !w.foreign && m in w.disk.value.inv.markets
    requires Due(w, Refresh(m.item.address), RefreshPins(m.item.address))
    ensures Admitted(w.chain.facts, RefreshPins(m.item.address)) <==>
            AssetsListedAfter(w.disk.value, w.chain.planned, m)
  {
    hide WorldOk, Due, ReadyFor, RolloutCutover.Moved, RolloutCutover.RunsAfter, RolloutCutover.ListedAfter;
    var j, c := w.disk.value, w.chain;
    RefreshFinds(w, m);
    forall a, code
      ensures RolloutCutover.RunsAfter(j, c.planned, a, code) <==>
              a in c.facts.contracts && c.facts.contracts[a].code == code
    {
      RolloutCutover.RunsAfterwards(j, c, a, code);
    }
  }

  // ---------------------------------------------------------------- a crash right after inclusion

  /** The run that is cut off between the inclusion of a transaction and the save of its receipt. */
  function CutOffRun(w: World, n: OpName, tx: Tx): World
    requires w.disk.Some?
  {
    var named := WithOp(w.disk.value, n, Op(tx.action, None, None));
    var durable := WithOp(named, n, Op(tx.action, Some(tx), None));
    var at := Moment(Some(named), w.chain);
    World(Some(durable), Include(w.chain, tx, true), w.sent + {tx}, w.foreign,
          w.log + [Checked(at)] + [Signed(n, tx, at)] + [Sent(n, tx, Moment(Some(durable), w.chain))])
  }

  lemma CutOffNamed(w: World, n: OpName, tx: Tx)
    requires WorldOk(w) && w.disk.Some? && Due(w, n, tx.action) && n !in w.disk.value.ops
    requires LiveBindings(WithOp(w.disk.value, n, Op(tx.action, None, None)), w.chain.facts)
    ensures var named := WithOp(w.disk.value, n, Op(tx.action, None, None));
            var v := w.(disk := Some(named), log := w.log + [Checked(Moment(Some(named), w.chain))]);
            && WorldOk(v) && Due(v, n, tx.action) && JustChecked(v.log, v.disk)
            && (!w.foreign ==> ClearFor(named, n))
  {
    hide WorldOk, Due, LiveBindings;
    var named := WithOp(w.disk.value, n, Op(tx.action, None, None));
    DueIsNamed(w, n, tx.action);
    SaveOp(w, n, tx.action);
    DueJournaled(w, n, tx.action);
    if !w.foreign { CheckedIsClear(w.(disk := Some(named)), n, tx.action); }
    CheckDue(w.(disk := Some(named)), n, tx.action);
    KeptDisk(w.(disk := Some(named)),
             w.(disk := Some(named), log := w.log + [Checked(Moment(Some(named), w.chain))]));
  }

  lemma FeesWhenNamed(j: Journal, n: OpName, action: Action)
    requires n !in j.ops
    ensures TotalFees(WithOp(j, n, Op(action, None, None))) == TotalFees(j)
  {
    WithOpFees(j, n, Op(action, None, None));
  }

  /** It is possible from every state in which the operation is due and the chain admits it. */
  lemma CutOffPossible(w: World, n: OpName, tx: Tx)
    requires WorldOk(w) && w.disk.Some? && Due(w, n, tx.action) && n !in w.disk.value.ops
    requires LiveBindings(WithOp(w.disk.value, n, Op(tx.action, None, None)), w.chain.facts)
    requires Admitted(w.chain.facts, tx.action)
    requires tx.fee > 0 && tx !in w.chain.included && TotalFees(w.disk.value) + tx.fee <= w.disk.value.identity.cap
    ensures var v := CutOffRun(w, n, tx);
            WorldOk(v) && Applied(v.disk.value, v.chain, n) && !Receipted(v.disk.value, n)
  {
    hide WorldOk, Due, LiveBindings;
    var j := w.disk.value;
    var named := WithOp(j, n, Op(tx.action, None, None));
    var durable := WithOp(named, n, Op(tx.action, Some(tx), None));
    CutOffNamed(w, n, tx);
    FeesWhenNamed(j, n, tx.action);
    var a := w.(disk := Some(named), log := w.log + [Checked(Moment(Some(named), w.chain))]);
    SignDue(a, n, tx);
    var b := a.(log := a.log + [Signed(n, tx, Moment(a.disk, a.chain))]);
    KeptDisk(a, b);
    SaveDue(b, n, tx);
    assert named.ops[n].(signed := Some(tx)) == Op(tx.action, Some(tx), None);
    var c := b.(disk := Some(durable));
    SendKeeps(c, n, tx);
    var d := c.(sent := c.sent + {tx}, log := c.log + [Sent(n, tx, Moment(c.disk, c.chain))]);
    IncludeKeeps(d, tx, true);
    assert d.(chain := Include(d.chain, tx, true)) == CutOffRun(w, n, tx);
  }

  /** The run that goes on and saves the receipt. */
  function FullRun(w: World, n: OpName, tx: Tx): World
    requires w.disk.Some?
  {
    var v := CutOffRun(w, n, tx);
    v.(disk := Some(WithOp(v.disk.value, n, Op(tx.action, Some(tx), Some(v.chain.included[tx])))))
  }

  lemma FullRunPossible(w: World, n: OpName, tx: Tx)
    requires WorldOk(w) && w.disk.Some? && !w.foreign && Due(w, n, tx.action)
    requires n !in w.disk.value.ops && ClearFor(w.disk.value, n)
    requires Admitted(w.chain.facts, tx.action)
    requires tx.fee > 0 && tx !in w.chain.included && TotalFees(w.disk.value) + tx.fee <= w.disk.value.identity.cap
    ensures WorldOk(FullRun(w, n, tx))
  {
    hide WorldOk, Due, LiveBindings, ClearFor;
    NamedIsLive(w, n, tx.action);
    CutOffPossible(w, n, tx);
    var v := CutOffRun(w, n, tx);
    SaveReceipt(v, n, tx);
    assert v.disk.value.ops[n].(receipt := Some(v.chain.included[tx]))
           == Op(tx.action, Some(tx), Some(v.chain.included[tx]));
  }

  /** A due operation that is journaled passes the drift check if nothing trips it. */
  lemma NamedIsLive(w: World, n: OpName, action: Action)
    requires WorldOk(w) && !w.foreign && Due(w, n, action) && n !in w.disk.value.ops && ClearFor(w.disk.value, n)
    ensures LiveBindings(WithOp(w.disk.value, n, Op(action, None, None)), w.chain.facts)
  {
    hide WorldOk, LiveBindings;
    var named := w.(disk := Some(WithOp(w.disk.value, n, Op(action, None, None))));
    SaveOp(w, n, action);
    DueJournaled(w, n, action);
    assert forall it :: Trips(named.disk.value, it) ==> Trips(w.disk.value, it);
    assert forall it :: Mute(named.disk.value.inv, it) ==> Mute(w.disk.value.inv, it);
    DueBindings(named, n);
  }

  /** While nobody else acts, the listing query says yes exactly if the code was listed, or its listing is included. */
  lemma ListedWhen(w: World)
    requires WorldOk(w) && w.disk.Some? && !w.foreign && Token in w.disk.value.codes
    ensures w.disk.value.codes[Token] in w.chain.facts.listed <==>
            w.disk.value.codes[Token] in w.disk.value.inv.whitelist || Applied(w.disk.value, w.chain, Whitelist)
  {
    assert TrackTemplates(w.disk.value, w.chain);
  }

  /** So after a run that is cut off there the listing is skipped, and stays journaled without its receipt. */
  lemma ListingStaysUnanswered(w: World, tx: Tx)
    requires WorldOk(w) && !w.foreign && Due(w, Whitelist, tx.action) && Whitelist !in w.disk.value.ops
    requires LiveBindings(WithOp(w.disk.value, Whitelist, Op(tx.action, None, None)), w.chain.facts)
    requires tx.fee > 0 && tx !in w.chain.included && TotalFees(w.disk.value) + tx.fee <= w.disk.value.identity.cap
    ensures var v := CutOffRun(w, Whitelist, tx);
            && WorldOk(v) && Token in v.disk.value.codes && v.disk.value.codes[Token] in v.chain.facts.listed
            && ListingCut(v)
  {
    CutOffPossible(w, Whitelist, tx);
    ListedWhen(CutOffRun(w, Whitelist, tx));
  }

  lemma RestoreAdmitted(w: World, n: OpName, action: Action)
    requires Due(w, n, action) && n.Restore?
    ensures Admitted(w.chain.facts, action)
  {
  }

  /** And a restore of a running pair that is cut off there makes every later verification refuse. */
  lemma RestoreStaysRefused(w: World, i: nat, tx: Tx)
    requires WorldOk(w) && !w.foreign && w.disk.Some? && w.disk.value.status.ReadyPaused?
    requires i < |w.disk.value.inv.markets| && w.disk.value.inv.markets[i].affected
             && !w.disk.value.inv.markets[i].paused
    requires var n := Restore(w.disk.value.inv.markets[i].item.address);
             && Due(w, n, tx.action) && n !in w.disk.value.ops
             && LiveBindings(WithOp(w.disk.value, n, Op(tx.action, None, None)), w.chain.facts)
    requires tx.fee > 0 && tx !in w.chain.included && TotalFees(w.disk.value) + tx.fee <= w.disk.value.identity.cap
    ensures var v := CutOffRun(w, Restore(w.disk.value.inv.markets[i].item.address), tx);
            && WorldOk(v) && v.disk.value.status.ReadyPaused? && UnsavedRestore(v.disk.value, v.chain)
            && !LiveBindings(v.disk.value, v.chain.facts)
  {
    hide Due, LiveBindings;
    var n := Restore(w.disk.value.inv.markets[i].item.address);
    var v := CutOffRun(w, n, tx);
    RestoreAdmitted(w, n, tx.action);
    CutOffPossible(w, n, tx);
    assert v.disk.value.status.ReadyPaused? && v.disk.value.inv == w.disk.value.inv && !v.foreign;
    assert RestoreUnsaved(v.disk.value, v.chain, v.disk.value.inv.markets[i]);
    ReadyToRestore(v);
    VerifyExact(v);
  }

  /** Waiting does not help: an unsaved restore stays unsaved until somebody saves it. */
  lemma UnsavedStays(u: World, v: World)
    requires u.disk.Some? && Onward(u, v) && v.disk == u.disk && UnsavedRestore(u.disk.value, u.chain)
    ensures UnsavedRestore(v.disk.value, v.chain)
  {
    var j := u.disk.value;
    var i :| 0 <= i < |j.inv.markets| && RestoreUnsaved(j, u.chain, j.inv.markets[i]);
    assert RestoreUnsaved(j, v.chain, j.inv.markets[i]);
  }
}

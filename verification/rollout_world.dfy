/**
 Everything that survives a killed rollout process: the saved journal, the chain, the broadcast
 transactions and the history of signatures. `WorldOk` is the inductive invariant of every run;
 there is one preservation lemma a kind of step.
 */
module RolloutWorld {
  import opened Wrappers
  import opened RolloutPlan
  import opened RolloutChain
  import MapSum

  /** The durable state at the moment of an event. */
  datatype Moment = Moment(disk: Option<Journal>, chain: Chain)

  datatype Event =
    | Checked(at: Moment)
    | Signed(name: OpName, tx: Tx, at: Moment)
    | Sent(name: OpName, tx: Tx, at: Moment)
    | Passed(at: Moment)

  datatype World = World(disk: Option<Journal>, chain: Chain, sent: set<Tx>, foreign: bool, log: seq<Event>)

  // ---------------------------------------------------------------- the invariant

  /** The code ids `_code` searches before it uploads anything. */
  function Candidates(inv: Inventory, role: Role): set<CodeId> {
    match role
    case Token => {inv.launcherToken} + set it | it in inv.tokens :: it.code
    case Pair => {inv.pairTemplate} + set m | m in inv.markets :: m.item.code
    case Autolp => if inv.launcherAutolp.Some? then {inv.launcherAutolp.value} else {}
    case _ => {}
  }

  ghost predicate NoneMatches(j: Journal, f: Facts, role: Role) {
    role in j.identity.artifacts &&
    forall c :: c in Candidates(j.inv, role) ==> c in f.wasm && f.wasm[c] != j.identity.artifacts[role]
  }

  /** An upload is journaled only after every candidate was found to differ. */
  ghost predicate SearchFailed(j: Journal, f: Facts) {
    forall n :: n in j.ops && n.Store? ==> NoneMatches(j, f, n.role)
  }

  /** The candidate that `_code` settles on: the smallest one that holds the artifact. */
  ghost predicate FirstMatch(j: Journal, f: Facts, role: Role, c: CodeId) {
    && role in j.identity.artifacts && c in Candidates(j.inv, role)
    && c in f.wasm && f.wasm[c] == j.identity.artifacts[role]
    && forall d :: d in Candidates(j.inv, role) && d < c ==> d in f.wasm && f.wasm[d] != j.identity.artifacts[role]
  }

  /** Where a settled code id comes from: an upload, the core contract itself, or the search. */
  ghost predicate CodeFrom(j: Journal, f: Facts, r: Role)
    requires r in j.codes
  {
    if Store(r) in j.ops then
      j.ops[Store(r)].receipt.Some? && j.ops[Store(r)].receipt.value.code == Some(j.codes[r])
    else if r in j.inv.instances then !j.inv.instances[r].needsMigrate && j.codes[r] == j.inv.instances[r].code
    else FirstMatch(j, f, r, j.codes[r])
  }

  ghost predicate CodesFrom(j: Journal, f: Facts) {
    forall r {:trigger CodeFrom(j, f, r)} :: r in j.codes ==> CodeFrom(j, f, r)
  }

  /** The origins of the settled codes stay what they are. */
  lemma CodesFromKeeps(j: Journal, k: Journal, f: Facts, g: Facts)
    requires CodesFrom(j, f) && Extends(j, k) && k.codes == j.codes
    requires f == g || CodeKept(f, g)
    requires forall r :: r in j.codes && Store(r) in k.ops ==> Store(r) in j.ops
    ensures CodesFrom(k, g)
  {
    forall r | r in k.codes
      ensures CodeFrom(k, g, r)
    {
      assert CodeFrom(j, f, r);
    }
  }

  ghost predicate StoreReceiptOk(j: Journal, c: Chain, tx: Tx)
    requires tx in c.included
  {
    && c.included[tx].tx == tx
    && (c.included[tx].ok && tx.action.StoreCode? ==>
          && c.included[tx].code.Some?
          && c.included[tx].code.value in c.facts.wasm
          && c.facts.wasm[c.included[tx].code.value] == tx.action.wasm
          && forall it {:trigger IsItem(j.inv, it)} :: IsItem(j.inv, it) ==> it.code != c.included[tx].code.value)
  }

  ghost predicate StoresFresh(j: Journal, c: Chain) {
    forall tx :: tx in c.included ==> StoreReceiptOk(j, c, tx)
  }

  /** Only transactions saved under a name are ever broadcast. */
  ghost predicate SentNamed(j: Journal, sent: set<Tx>) {
    forall tx :: tx in sent ==> exists n :: HasTx(j, n, tx)
  }

  /** Nothing is signed behind the listing stage unless the token code is listed. */
  ghost predicate ListedFirst(j: Journal, c: Chain) {
    forall n :: IsSigned(j, n) && Stage(n) > WHITELIST_STAGE ==> ListingCovered(j, c)
  }

  ghost predicate ListingCovered(j: Journal, c: Chain) {
    Token in j.codes && (j.codes[Token] in j.inv.whitelist || Applied(j, c, Whitelist))
  }

  /** Each event was legitimate when it happened. */
  ghost predicate EventOk(e: Event, j: Journal) {
    && e.at.disk.Some?
    && var k := e.at.disk.value;
    && JournalOk(k) && Extends(k, j) && ReceiptsIncluded(k, e.at.chain)
    && match e
       case Signed(n, tx, _) => n in k.ops && k.ops[n].signed.None? && tx.action == k.ops[n].action && ReadyFor(k, n)
       case Sent(n, tx, _) => HasTx(k, n, tx)
       case Checked(_) => LiveBindings(k, e.at.chain.facts)
       case Passed(_) => LiveBindings(k, e.at.chain.facts) && CutOver(k, e.at.chain.facts) && WorkDone(k)
  }

  /**
   A legitimate history: every signature directly follows an accepted drift check of the same
   journal, and a restore is signed only after a passed verification.
   */
  ghost predicate LogOk(j: Journal, log: seq<Event>)
    decreases |log|
  {
    log == [] ||
    var before, last := log[..|log| - 1], log[|log| - 1];
    && LogOk(j, before) && EventOk(last, j)
    && (before != [] ==> Follows(before[|before| - 1], last))
    && (last.Signed? ==> JustChecked(before, last.at.disk))
    && (last.Signed? && last.name.Restore? ==> HasPassed(before))
  }

  ghost predicate JustChecked(log: seq<Event>, disk: Option<Journal>) {
    log != [] && log[|log| - 1].Checked? && log[|log| - 1].at.disk == disk
  }

  /** The journal only grows between two events. */
  ghost predicate Follows(a: Event, b: Event) {
    a.at.disk.Some? && b.at.disk.Some? && Extends(a.at.disk.value, b.at.disk.value)
  }

  ghost predicate HasPassed(log: seq<Event>) {
    exists h :: 0 <= h < |log| && log[h].Passed?
  }

  ghost predicate StepOk(j: Journal, c: Chain) {
    JournalOk(j) && Grounded(j, c.facts) && ReceiptsIncluded(j, c) && SearchFailed(j, c.facts) && CodesFrom(j, c.facts)
  }

  /** A listing is journaled only if it is needed, and nothing is signed behind a migration in place. */
  ghost predicate SignedWhenClear(j: Journal) {
    && (Whitelist in j.ops ==> Token in j.codes && j.codes[Token] !in j.inv.whitelist)
    && (forall n {:trigger IsSigned(j, n)} :: IsSigned(j, n) ==> ClearFor(j, n))
  }

  /** Only the rollout's migrations changed the code of a contract. */
  ghost predicate CodeStays(j: Journal, c: Chain, a: Address)
    requires a in c.planned.contracts
  {
    && a in c.facts.contracts
    && (|| (exists it :: IsItem(j.inv, it) && it.address == a && Applied(j, c, ItemMigrate(it)))
        || c.facts.contracts[a].code == c.planned.contracts[a].code)
  }

  /** A refreshed pair is pinned to what its assets run; the pins of the others are as they were. */
  ghost predicate PinTracked(j: Journal, c: Chain, m: Market) {
    var p := m.item.address;
    if Applied(j, c, Refresh(p)) then Pinned(c.facts, p, m.assets)
    else (p in c.facts.pins <==> p in c.planned.pins) && (p in c.planned.pins ==> c.facts.pins[p] == c.planned.pins[p])
  }

  ghost predicate TrackPins(j: Journal, c: Chain) {
    && c.facts.contracts.Keys == c.planned.contracts.Keys
    && (forall a {:trigger CodeStays(j, c, a)} :: a in c.planned.contracts ==> CodeStays(j, c, a))
    && (forall i :: 0 <= i < |j.inv.markets| ==> PinTracked(j, c, j.inv.markets[i]))
  }

  ghost predicate Quiet(j: Journal, c: Chain) {
    Tracks(j, c) && TrackPins(j, c) && ListedFirst(j, c) && SignedWhenClear(j)
  }

  /** Before the first journal is written. */
  ghost predicate Untouched(w: World) {
    FactsOk(w.chain.facts) && w.disk.None? && w.chain.included == map[] && w.sent == {} && w.log == []
  }

  ghost predicate Underway(w: World) {
    && w.disk.Some?
    && w.chain.included.Keys <= w.sent
    && StepOk(w.disk.value, w.chain) && StoresFresh(w.disk.value, w.chain) && SentNamed(w.disk.value, w.sent)
    && LogOk(w.disk.value, w.log)
    && (!w.foreign ==> Quiet(w.disk.value, w.chain))
  }

  /** The invariant of every run. */
  ghost predicate WorldOk(w: World) {
    Untouched(w) || Underway(w)
  }

  // ---------------------------------------------------------------- steps of the journal

  lemma SaveKeeps(w: World, k: Journal)
    requires WorldOk(w) && w.disk.Some? && Extends(w.disk.value, k)
    requires StepOk(k, w.chain) && (!w.foreign ==> Quiet(k, w.chain))
    ensures WorldOk(w.(disk := Some(k)))
  {
    hide JournalOk, Grounded, Quiet, SearchFailed, ReceiptsIncluded, CodesFrom;
    var j := w.disk.value;
    forall tx | tx in w.chain.included
      ensures StoreReceiptOk(k, w.chain, tx)
    {
      assert StoreReceiptOk(j, w.chain, tx);
    }
    forall tx | tx in w.sent
      ensures exists n :: HasTx(k, n, tx)
    {
      var n :| HasTx(j, n, tx);
      assert HasTx(k, n, tx);
    }
    LogExtends(j, k, w.log);
  }

  /** A single changed operation that leaves every other entry alone. */
  function WithOp(j: Journal, n: OpName, op: Op): Journal {
    j.(ops := j.ops[n := op])
  }

  lemma WithOpFees(j: Journal, n: OpName, op: Op)
    ensures n in j.ops ==> TotalFees(WithOp(j, n, op)) == TotalFees(j) - Fee(j.ops[n]) + Fee(op)
    ensures n !in j.ops ==> TotalFees(WithOp(j, n, op)) == TotalFees(j) + Fee(op)
  {
    var fees := FeesOf(j.ops);
    assert FeesOf(WithOp(j, n, op).ops) == fees[n := Fee(op)];
    MapSum.SumUpdate(fees, n, Fee(op));
  }

  /** Other entries stay well-formed when one entry changes or a code is settled. */
  lemma OpStaysOk(j: Journal, k: Journal, n: OpName)
    requires Extends(j, k) && n in j.ops && OpOk(j, n) && k.ops[n] == j.ops[n]
    requires n.Store? && n.role in k.codes ==> j.ops[n].receipt.Some?
    ensures OpOk(k, n)
  {
    if j.ops[n].signed.Some? {
      ReadyExtends(j, k, Stage(n), Index(j.inv, n));
    }
  }

  lemma StatusStays(j: Journal, k: Journal)
    requires Extends(j, k) && StatusOk(j) && k.status == j.status
    ensures StatusOk(k)
  {
    if j.status.ReadyPaused? || j.status.Complete? { ReadyExtends(j, k, RESTORE_STAGE, 0); }
    if j.status.Complete? { ReadyExtends(j, k, RESTORE_STAGE + 1, 0); }
  }

  lemma OpsStayOk(j: Journal, k: Journal, changed: set<OpName>)
    requires OpsOk(j) && Extends(j, k)
    requires forall n :: n in changed && n in k.ops ==> OpOk(k, n)
    requires forall m :: m in k.ops && m !in changed ==> m in j.ops && k.ops[m] == j.ops[m]
    requires forall m :: m in j.ops && m !in changed && m.Store? && m.role in k.codes ==> j.ops[m].receipt.Some?
    ensures OpsOk(k)
  {
    forall m | m in k.ops && m !in changed
      ensures OpOk(k, m)
    {
      OpStaysOk(j, k, m);
    }
  }

  /** A role whose code is settled has no unanswered upload. */
  lemma SettledStores(j: Journal)
    requires OpsOk(j)
    ensures forall m :: m in j.ops && m.Store? && m.role in j.codes ==> j.ops[m].receipt.Some?
  {
    forall m | m in j.ops && m.Store? && m.role in j.codes
      ensures j.ops[m].receipt.Some?
    {
      assert OpOk(j, m);
    }
  }

  lemma DistinctStays(j: Journal, n: OpName, op: Op)
    requires DistinctSigned(j)
    requires forall m :: op.signed.Some? && m != n && IsSigned(j, m) ==> j.ops[m].signed != op.signed
    ensures DistinctSigned(WithOp(j, n, op))
  {
    var k := WithOp(j, n, op);
    assert forall m :: m != n && IsSigned(k, m) ==> IsSigned(j, m) && k.ops[m] == j.ops[m];
  }

  /** One entry changes: the journal is well-formed if that entry and the fees are. */
  lemma WithOpOk(j: Journal, n: OpName, op: Op)
    requires JournalOk(j) && Extends(j, WithOp(j, n, op)) && OpOk(WithOp(j, n, op), n)
    requires TotalFees(WithOp(j, n, op)) <= j.identity.cap
    requires forall m :: op.signed.Some? && m != n && IsSigned(j, m) ==> j.ops[m].signed != op.signed
    ensures JournalOk(WithOp(j, n, op))
  {
    hide InventoryOk;
    var k := WithOp(j, n, op);
    assert StatusOk(k) by { StatusStays(j, k); }
    assert OpsOk(k) by {
      SettledStores(j);
      OpsStayOk(j, k, {n});
    }
    assert DistinctSigned(k) by { DistinctStays(j, n, op); }
  }

  /** An entry that gains its signature or its receipt stays well-formed. */
  lemma ThisOpOk(j: Journal, n: OpName, op: Op)
    requires n in j.ops && OpOk(j, n) && Extends(j, WithOp(j, n, op))
    requires op.signed.Some? ==> op.signed.value.action == op.action && op.signed.value.fee > 0 && ReadyFor(j, n)
    requires op.receipt.Some? ==> op.signed == Some(op.receipt.value.tx) && op.receipt.value.ok
    ensures OpOk(WithOp(j, n, op), n)
  {
    ReadyExtendsIf(j, WithOp(j, n, op), Stage(n), Index(j.inv, n));
  }

  lemma ReadyExtendsIf(j: Journal, k: Journal, stage: nat, idx: nat)
    requires Extends(j, k)
    ensures Ready(j, stage, idx) ==> Ready(k, stage, idx)
  {
    if Ready(j, stage, idx) { ReadyExtends(j, k, stage, idx); }
  }

  lemma AddOpOk(j: Journal, n: OpName, action: Action)
    requires JournalOk(j) && n !in j.ops
    requires WellNamed(j, n) && Performs(j, n, action) && (n.Store? ==> n.role !in j.codes)
    ensures Extends(j, WithOp(j, n, Op(action, None, None)))
    ensures JournalOk(WithOp(j, n, Op(action, None, None)))
  {
    hide InventoryOk;
    WithOpFees(j, n, Op(action, None, None));
    WithOpOk(j, n, Op(action, None, None));
  }

  lemma AddSignedOk(j: Journal, n: OpName, tx: Tx)
    requires JournalOk(j) && n in j.ops && j.ops[n].signed.None? && j.ops[n].receipt.None?
    requires tx.action == j.ops[n].action && tx.fee > 0 && ReadyFor(j, n)
    requires TotalFees(j) + tx.fee <= j.identity.cap
    requires forall m :: IsSigned(j, m) ==> j.ops[m].signed != Some(tx)
    ensures Extends(j, WithOp(j, n, j.ops[n].(signed := Some(tx))))
    ensures JournalOk(WithOp(j, n, j.ops[n].(signed := Some(tx))))
  {
    hide InventoryOk, StatusOk, DistinctSigned, ReadyFor, WellNamed, Performs;
    var op := j.ops[n].(signed := Some(tx));
    WithOpFees(j, n, op);
    assert OpOk(WithOp(j, n, op), n) by { ThisOpOk(j, n, op); }
    WithOpOk(j, n, op);
  }

  lemma OnlySigner(j: Journal, n: OpName)
    requires DistinctSigned(j) && IsSigned(j, n)
    ensures forall m :: m != n && IsSigned(j, m) ==> j.ops[m].signed != j.ops[n].signed
  {
  }

  lemma AddReceiptOk(j: Journal, n: OpName, r: Receipt)
    requires JournalOk(j) && n in j.ops && j.ops[n].signed == Some(r.tx) && r.ok
    requires j.ops[n].receipt.Some? ==> j.ops[n].receipt == Some(r)
    ensures Extends(j, WithOp(j, n, j.ops[n].(receipt := Some(r))))
    ensures JournalOk(WithOp(j, n, j.ops[n].(receipt := Some(r))))
  {
    hide InventoryOk, StatusOk, ReadyFor, WellNamed, Performs;
    var op := j.ops[n].(receipt := Some(r));
    WithOpFees(j, n, op);
    assert OpOk(j, n);
    ThisOpOk(j, n, op);
    OnlySigner(j, n);
    WithOpOk(j, n, op);
  }

  lemma SameOpsOk(j: Journal, k: Journal)
    requires JournalOk(j) && Extends(j, k) && k.ops == j.ops && StatusOk(k)
    requires forall r :: Store(r) in j.ops && r in k.codes ==> j.ops[Store(r)].receipt.Some?
    ensures JournalOk(k)
  {
    hide InventoryOk;
    OpsStayOk(j, k, {});
    assert forall m :: IsSigned(k, m) <==> IsSigned(j, m);
  }

  lemma AddCodeOk(j: Journal, r: Role, c: CodeId)
    requires JournalOk(j) && (r in j.codes ==> j.codes[r] == c)
    requires Store(r) in j.ops ==> j.ops[Store(r)].receipt.Some?
    ensures Extends(j, j.(codes := j.codes[r := c]))
    ensures JournalOk(j.(codes := j.codes[r := c]))
  {
    hide InventoryOk;
    var k := j.(codes := j.codes[r := c]);
    StatusStays(j, k);
    SettledStores(j);
    SameOpsOk(j, k);
  }

  lemma SetStatusOk(j: Journal, s: Status)
    requires JournalOk(j)
    requires StatusOk(j.(status := s))
    ensures Extends(j, j.(status := s))
    ensures JournalOk(j.(status := s))
  {
    hide InventoryOk;
    SettledStores(j);
    SameOpsOk(j, j.(status := s));
  }

  /** Tracking depends only on which operations are applied and on the codes they used. */
  lemma TracksCarries(j: Journal, k: Journal, c: Chain)
    requires Extends(j, k) && Tracks(j, c)
    requires forall n :: Applied(k, c, n) <==> Applied(j, c, n)
    requires forall n :: Applied(j, c, n) ==> Performs(j, n, j.ops[n].action)
    ensures Tracks(k, c)
  {
    forall it | IsItem(k.inv, it)
      ensures TrackItem(k, c, it)
    {
      assert TrackItem(j, c, it);
    }
    forall i | 0 <= i < |k.inv.markets|
      ensures TrackMarket(k, c, k.inv.markets[i])
    {
      assert TrackMarket(j, c, j.inv.markets[i]);
    }
  }

  /** The transaction about to be signed is not yet recorded under any name. */
  lemma FreshTx(w: World, n: OpName, tx: Tx)
    requires WorldOk(w) && w.disk.Some?
    requires n in w.disk.value.ops && !IsSigned(w.disk.value, n) && ReadyFor(w.disk.value, n)
    requires tx.action == w.disk.value.ops[n].action && tx !in w.chain.included
    ensures forall m :: IsSigned(w.disk.value, m) ==> w.disk.value.ops[m].signed != Some(tx)
  {
    var j := w.disk.value;
    assert OpOk(j, n);
    forall m | IsSigned(j, m)
      ensures j.ops[m].signed != Some(tx)
    {
      assert OpOk(j, m);
      if m != Whitelist && n != Whitelist {
        NoOtherPending(j, n, m);
        ReceiptedIsApplied(j, w.chain, m);
      }
    }
  }

  // ---------------------------------------------------------------- steps of the chain

  /** The name under which a broadcast transaction was saved. */
  ghost predicate Carries(j: Journal, n: OpName, tx: Tx) {
    HasTx(j, n, tx) && OpOk(j, n)
  }

  lemma AppliedAfter(j: Journal, c: Chain, n: OpName, tx: Tx, ok: bool, m: OpName)
    requires DistinctSigned(j) && Carries(j, n, tx) && tx !in c.included
    ensures Applied(j, Include(c, tx, ok), m) <==> Applied(j, c, m) || (m == n && ok)
  {
    assert IsSigned(j, n) && (m in j.ops && j.ops[m].signed.Some? ==> IsSigned(j, m));
  }

  /** One transaction changes at most the contract it names. */
  lemma ApplyAt(f: Facts, action: Action, a: Address)
    requires a in f.contracts
    ensures a in Apply(f, action).contracts
    ensures var was, now := f.contracts[a], Apply(f, action).contracts[a];
            && now.admin == was.admin && now.settings == was.settings && now.holdings == was.holdings
            && now.paused == (if action.SetPaused? && action.pair == a then action.paused else was.paused)
            && (if action.MigrateTo? && action.contract == a && action.code in f.wasm
                then now.code == action.code && now.cw2 == f.wasm[action.code].cw2
                else now.code == was.code && now.cw2 == was.cw2)
  {
  }

  /** A saved migration of a listed address is that contract's own migration. */
  lemma OwnMigration(j: Journal, n: OpName, it: Item)
    requires InventoryOk(j.identity, j.inv) && IsItem(j.inv, it)
    requires n.Migrate? && n.contract == it.address && Required(j, n)
    ensures n == ItemMigrate(it) && it.role in j.identity.artifacts
  {
    var other :| IsItem(j.inv, other) && other.needsMigrate && ItemMigrate(other) == n;
    assert other == it;
  }

  lemma IncludeItem(j: Journal, c: Chain, n: OpName, tx: Tx, it: Item)
    requires DistinctSigned(j) && InventoryOk(j.identity, j.inv) && Grounded(j, c.facts)
    requires Carries(j, n, tx) && tx !in c.included
    requires IsItem(j.inv, it) && TrackItem(j, c, it)
    ensures TrackItem(j, Include(c, tx, true), it)
  {
    AppliedAfter(j, c, n, tx, true, ItemMigrate(it));
    ApplyAt(c.facts, tx.action, it.address);
    if n.Migrate? && n.contract == it.address {
      OwnMigration(j, n, it);
    } else {
      assert n != ItemMigrate(it);
      assert !(tx.action.MigrateTo? && tx.action.contract == it.address);
    }
  }

  lemma IncludeMarket(j: Journal, c: Chain, n: OpName, tx: Tx, i: nat)
    requires OpsOk(j) && StatusOk(j) && DistinctSigned(j) && WellShaped(j.inv) && ReceiptsIncluded(j, c)
    requires Carries(j, n, tx) && tx !in c.included
    requires i < |j.inv.markets| && TrackMarket(j, c, j.inv.markets[i])
    ensures TrackMarket(j, Include(c, tx, true), j.inv.markets[i])
  {
    var m := j.inv.markets[i];
    var p := m.item.address;
    AppliedAfter(j, c, n, tx, true, Pause(p));
    AppliedAfter(j, c, n, tx, true, Restore(p));
    if m.affected {
      assert Affected(j.inv, p);
      RestoreNeedsPause(j, p);
      ApplyAt(c.facts, tx.action, p);
    }
  }

  lemma IncludeTemplates(j: Journal, c: Chain, n: OpName, tx: Tx)
    requires DistinctSigned(j)
    requires Carries(j, n, tx) && tx !in c.included
    requires TrackTemplates(j, c)
    ensures TrackTemplates(j, Include(c, tx, true))
  {
    AppliedAfter(j, c, n, tx, true, PairTemplate);
    AppliedAfter(j, c, n, tx, true, LauncherTemplate);
    AppliedAfter(j, c, n, tx, true, Whitelist);
  }

  lemma SameMembers(c: Chain, tx: Tx)
    ensures Include(c, tx, true).facts.pairs == c.facts.pairs
  {
  }

  lemma InventoryShape(j: Journal)
    requires InventoryOk(j.identity, j.inv)
    ensures WellShaped(j.inv)
  {
  }

  lemma IncludeTracks(j: Journal, c: Chain, n: OpName, tx: Tx)
    requires InventoryOk(j.identity, j.inv) && OpsOk(j) && StatusOk(j) && DistinctSigned(j)
    requires Grounded(j, c.facts) && ReceiptsIncluded(j, c) && Tracks(j, c)
    requires Carries(j, n, tx) && tx !in c.included
    ensures Tracks(j, Include(c, tx, true))
  {
    hide Include, TrackItem, TrackMarket, TrackTemplates, Grounded, ReceiptsIncluded, Carries, InventoryOk, OpsOk,
         StatusOk;
    InventoryShape(j);
    SameMembers(c, tx);
    var d := Include(c, tx, true);
    forall it | IsItem(j.inv, it)
      ensures TrackItem(j, d, it)
    {
      IncludeItem(j, c, n, tx, it);
    }
    forall i | 0 <= i < |j.inv.markets|
      ensures TrackMarket(j, d, j.inv.markets[i])
    {
      IncludeMarket(j, c, n, tx, i);
    }
    IncludeTemplates(j, c, n, tx);
  }

  /** A failed transaction is included without any effect. */
  lemma FailTracks(j: Journal, c: Chain, n: OpName, tx: Tx)
    requires DistinctSigned(j) && Carries(j, n, tx) && tx !in c.included && Tracks(j, c)
    ensures Tracks(j, Include(c, tx, false))
  {
    var d := Include(c, tx, false);
    forall m
      ensures Applied(j, d, m) <==> Applied(j, c, m)
    {
      AppliedAfter(j, c, n, tx, false, m);
    }
    forall it | IsItem(j.inv, it)
      ensures TrackItem(j, d, it)
    {
      assert TrackItem(j, c, it);
    }
    forall i | 0 <= i < |j.inv.markets|
      ensures TrackMarket(j, d, j.inv.markets[i])
    {
      assert TrackMarket(j, c, j.inv.markets[i]);
    }
  }

  /** Everything before a signed refresh is included. */
  lemma NoMigrationBehindRefresh(j: Journal, c: Chain, n: OpName, tx: Tx, p: Address)
    requires OpsOk(j) && ReceiptsIncluded(j, c) && Carries(j, n, tx) && n.Migrate? && IsSigned(j, Refresh(p))
    requires WellShaped(j.inv)
    ensures tx in c.included
  {
    assert OpOk(j, Refresh(p));
    KnownMigrate(j, n);
    assert Before(j.inv, n, Stage(Refresh(p)), Index(j.inv, Refresh(p)));
    assert Receipted(j, n);
  }

  /** What an action leaves of pairs, pins and listing. */
  lemma ApplyKeepsPin(f: Facts, action: Action, p: Address, assets: seq<Address>)
    requires Pinned(f, p, assets) && !action.MigrateTo? && (action.RefreshPins? ==> action.pair != p)
    ensures Pinned(Apply(f, action), p, assets)
  {
    var g := Apply(f, action);
    assert forall a :: a in f.contracts ==> a in g.contracts && g.contracts[a].code == f.contracts[a].code;
    assert LiveCodes(g, assets) == LiveCodes(f, assets);
  }

  lemma ApplyPins(f: Facts, action: Action, p: Address)
    requires action.RefreshPins? ==> action.pair != p
    ensures p in Apply(f, action).pins <==> p in f.pins
    ensures p in f.pins ==> Apply(f, action).pins[p] == f.pins[p]
  {
  }

  lemma RefreshSets(f: Facts, p: Address)
    requires Admitted(f, RefreshPins(p))
    ensures Pinned(Apply(f, RefreshPins(p)), p, f.pairs[p])
  {
    var g := Apply(f, RefreshPins(p));
    assert LiveCodes(g, f.pairs[p]) == LiveCodes(f, f.pairs[p]);
  }

  lemma IncludePin(j: Journal, c: Chain, n: OpName, tx: Tx, m: Market)
    requires OpsOk(j) && DistinctSigned(j) && WellShaped(j.inv) && ReceiptsIncluded(j, c)
             && SamePairs(c.facts.pairs, j.inv)
    requires Carries(j, n, tx) && tx !in c.included && Admitted(c.facts, tx.action)
    requires m in j.inv.markets && PinTracked(j, c, m)
    ensures PinTracked(j, Include(c, tx, true), m)
  {
    hide WellShaped, Pinned, Apply, WellNamed, ReadyFor;
    var p := m.item.address;
    AppliedAfter(j, c, n, tx, true, Refresh(p));
    if n == Refresh(p) {
      RefreshSets(c.facts, p);
    } else if Applied(j, c, Refresh(p)) {
      if n.Migrate? { NoMigrationBehindRefresh(j, c, n, tx, p); }
      ApplyKeepsPin(c.facts, tx.action, p, m.assets);
    } else {
      ApplyPins(c.facts, tx.action, p);
    }
  }

  lemma SameKeys(f: Facts, action: Action)
    ensures Apply(f, action).contracts.Keys == f.contracts.Keys
  {
  }

  lemma IncludeCode(j: Journal, c: Chain, n: OpName, tx: Tx, a: Address)
    requires DistinctSigned(j) && Carries(j, n, tx) && tx !in c.included
    requires a in c.planned.contracts && CodeStays(j, c, a)
    ensures CodeStays(j, Include(c, tx, true), a)
  {
    ApplyAt(c.facts, tx.action, a);
    var d := Include(c, tx, true);
    AppliedAfter(j, c, n, tx, true, n);
    if it :| IsItem(j.inv, it) && it.address == a && Applied(j, c, ItemMigrate(it)) {
      AppliedAfter(j, c, n, tx, true, ItemMigrate(it));
      assert Applied(j, d, ItemMigrate(it));
    } else if n.Migrate? && n.contract == a {
      var it :| IsItem(j.inv, it) && it.needsMigrate && ItemMigrate(it) == n;
      assert Applied(j, d, ItemMigrate(it));
    }
  }

  lemma IncludePins(j: Journal, c: Chain, n: OpName, tx: Tx)
    requires OpsOk(j) && DistinctSigned(j) && WellShaped(j.inv) && ReceiptsIncluded(j, c)
             && SamePairs(c.facts.pairs, j.inv)
    requires Carries(j, n, tx) && tx !in c.included && Admitted(c.facts, tx.action) && TrackPins(j, c)
    ensures TrackPins(j, Include(c, tx, true))
  {
    hide CodeStays, PinTracked, OpsOk, DistinctSigned, WellShaped, ReceiptsIncluded, SamePairs, Carries, Admitted,
         Apply;
    var d := Include(c, tx, true);
    SameKeys(c.facts, tx.action);
    forall a | a in d.planned.contracts
      ensures CodeStays(j, d, a)
    {
      IncludeCode(j, c, n, tx, a);
    }
    forall i | 0 <= i < |j.inv.markets|
      ensures PinTracked(j, d, j.inv.markets[i])
    {
      IncludePin(j, c, n, tx, j.inv.markets[i]);
    }
  }

  /** The same facts with the same applied operations are tracked alike. */
  lemma PinsCarry(j: Journal, k: Journal, c: Chain, d: Chain)
    requires TrackPins(j, c) && k.inv == j.inv && d.facts == c.facts && d.planned == c.planned
    requires forall n :: Applied(k, d, n) <==> Applied(j, c, n)
    ensures TrackPins(k, d)
  {
    hide Applied;
    forall a | a in d.planned.contracts
      ensures CodeStays(k, d, a)
    {
      assert CodeStays(j, c, a);
    }
    forall i | 0 <= i < |k.inv.markets|
      ensures PinTracked(k, d, k.inv.markets[i])
    {
      assert PinTracked(j, c, j.inv.markets[i]);
    }
  }

  /** Whoever changes the chain: code that is stored stays as it is. */
  ghost predicate CodeKept(f: Facts, g: Facts) {
    && FactsOk(g) && f.nextCode <= g.nextCode
    && forall id :: id in f.wasm ==> id in g.wasm && g.wasm[id] == f.wasm[id]
  }

  lemma CodeKeptKeeps(j: Journal, c: Chain, g: Facts)
    requires CodeKept(c.facts, g) && Grounded(j, c.facts) && SearchFailed(j, c.facts) && StoresFresh(j, c)
             && CodesFrom(j, c.facts)
    ensures Grounded(j, g) && SearchFailed(j, g) && StoresFresh(j, c.(facts := g)) && CodesFrom(j, g)
  {
    CodesFromKeeps(j, j, c.facts, g);
    forall n | n in j.ops && n.Store?
      ensures NoneMatches(j, g, n.role)
    {
      assert NoneMatches(j, c.facts, n.role);
    }
    forall tx | tx in c.included
      ensures StoreReceiptOk(j, c.(facts := g), tx)
    {
      assert StoreReceiptOk(j, c, tx);
    }
  }

  lemma ForeignKeeps(w: World, g: Facts)
    requires WorldOk(w) && CodeKept(w.chain.facts, g)
    ensures WorldOk(w.(chain := w.chain.(facts := g), foreign := true))
  {
    hide InventoryOk;
    if w.disk.Some? {
      CodeKeptKeeps(w.disk.value, w.chain, g);
    }
  }

  lemma ApplyKeepsCode(f: Facts, action: Action)
    requires FactsOk(f)
    ensures CodeKept(f, Apply(f, action))
  {
  }

  lemma IncludeStores(j: Journal, c: Chain, tx: Tx, ok: bool)
    requires Grounded(j, c.facts) && StoresFresh(j, c.(facts := Include(c, tx, ok).facts)) && tx !in c.included
    ensures StoresFresh(j, Include(c, tx, ok))
  {
    var d := Include(c, tx, ok);
    forall t | t in d.included
      ensures StoreReceiptOk(j, d, t)
    {
      if t != tx { assert StoreReceiptOk(j, c.(facts := d.facts), t); }
    }
  }

  lemma IncludeQuiet(j: Journal, c: Chain, sent: set<Tx>, tx: Tx, ok: bool)
    requires StepOk(j, c) && Quiet(j, c) && SentNamed(j, sent)
    requires tx in sent && tx !in c.included && (ok ==> Admitted(c.facts, tx.action))
    ensures Quiet(j, Include(c, tx, ok))
  {
    hide SentNamed, TrackPins, Tracks, SearchFailed, CodesFrom, InventoryOk, StatusOk, Admitted, SamePairs,
         SignedWhenClear;
    var n := NameOf(j, sent, tx);
    assert OpOk(j, n);
    TracksParts(j, c);
    if ok {
      IncludeTracks(j, c, n, tx);
      IncludePins(j, c, n, tx);
    } else {
      FailTracks(j, c, n, tx);
      FailPins(j, c, n, tx);
    }
    ListedStays(j, c, tx, ok);
  }

  lemma NameOf(j: Journal, sent: set<Tx>, tx: Tx) returns (n: OpName)
    requires SentNamed(j, sent) && tx in sent
    ensures HasTx(j, n, tx)
  {
    n :| HasTx(j, n, tx);
  }

  lemma TracksParts(j: Journal, c: Chain)
    requires Tracks(j, c) && InventoryOk(j.identity, j.inv)
    ensures SamePairs(c.facts.pairs, j.inv) && WellShaped(j.inv)
  {
    hide SamePairs, TrackTemplates;
  }

  lemma FailPins(j: Journal, c: Chain, n: OpName, tx: Tx)
    requires DistinctSigned(j) && Carries(j, n, tx) && tx !in c.included && TrackPins(j, c)
    ensures TrackPins(j, Include(c, tx, false))
  {
    hide TrackPins;
    forall m
      ensures Applied(j, Include(c, tx, false), m) <==> Applied(j, c, m)
    {
      AppliedAfter(j, c, n, tx, false, m);
    }
    PinsCarry(j, j, c, Include(c, tx, false));
  }

  lemma ListedStays(j: Journal, c: Chain, tx: Tx, ok: bool)
    requires ListedFirst(j, c) && tx !in c.included
    ensures ListedFirst(j, Include(c, tx, ok))
  {
    assert ListingCovered(j, c) ==> ListingCovered(j, Include(c, tx, ok));
  }

  lemma IncludeDurable(j: Journal, c: Chain, tx: Tx, ok: bool)
    requires Grounded(j, c.facts) && ReceiptsIncluded(j, c) && SearchFailed(j, c.facts) && StoresFresh(j, c)
             && CodesFrom(j, c.facts)
    requires tx !in c.included
    ensures var d := Include(c, tx, ok);
            CodeKept(c.facts, d.facts) && Grounded(j, d.facts) && ReceiptsIncluded(j, d)
            && SearchFailed(j, d.facts) && StoresFresh(j, d) && CodesFrom(j, d.facts)
  {
    ApplyKeepsCode(c.facts, tx.action);
    CodeKeptKeeps(j, c, Include(c, tx, ok).facts);
    IncludeStores(j, c, tx, ok);
  }

  lemma IncludeKeeps(w: World, tx: Tx, ok: bool)
    requires WorldOk(w) && tx in w.sent && tx !in w.chain.included && (ok ==> Admitted(w.chain.facts, tx.action))
    ensures WorldOk(w.(chain := Include(w.chain, tx, ok)))
    ensures CodeKept(w.chain.facts, Include(w.chain, tx, ok).facts)
  {
    hide JournalOk, Grounded, Quiet, StoresFresh, SearchFailed, ReceiptsIncluded, CodeKept, CodesFrom;
    var j := w.disk.value;
    IncludeDurable(j, w.chain, tx, ok);
    if !w.foreign {
      IncludeQuiet(j, w.chain, w.sent, tx, ok);
    }
  }

  // ---------------------------------------------------------------- steps of the process

  lemma LogAppend(j: Journal, log: seq<Event>, e: Event)
    requires LogOk(j, log) && EventOk(e, j) && e.at.disk == Some(j)
    requires e.Signed? ==> JustChecked(log, e.at.disk) && (e.name.Restore? ==> HasPassed(log))
    ensures LogOk(j, log + [e])
    ensures HasPassed(log) || e.Passed? ==> HasPassed(log + [e])
  {
    hide JournalOk, ReceiptsIncluded, LiveBindings, CutOver;
    assert (log + [e])[..|log|] == log;
    assert (log + [e])[|log|] == e;
    if HasPassed(log) {
      var h :| 0 <= h < |log| && log[h].Passed?;
      assert (log + [e])[h].Passed?;
    }
  }

  lemma {:induction false} LogExtends(j: Journal, k: Journal, log: seq<Event>)
    requires LogOk(j, log) && Extends(j, k)
    ensures LogOk(k, log)
    decreases |log|
  {
    if log != [] {
      LogExtends(j, k, log[..|log| - 1]);
      ExtendsTrans(log[|log| - 1].at.disk.value, j, k);
    }
  }

  lemma SignedOk(j: Journal, c: Chain, n: OpName, tx: Tx)
    requires JournalOk(j) && ReceiptsIncluded(j, c)
    requires n in j.ops && j.ops[n].signed.None? && tx.action == j.ops[n].action && ReadyFor(j, n)
    ensures EventOk(Signed(n, tx, Moment(Some(j), c)), j)
  {
    hide InventoryOk;
  }

  lemma PassedOk(j: Journal, c: Chain)
    requires JournalOk(j) && ReceiptsIncluded(j, c)
    requires LiveBindings(j, c.facts) && CutOver(j, c.facts) && WorkDone(j)
    ensures EventOk(Passed(Moment(Some(j), c)), j)
  {
    hide InventoryOk;
  }

  lemma CheckedOk(j: Journal, c: Chain)
    requires JournalOk(j) && ReceiptsIncluded(j, c) && LiveBindings(j, c.facts)
    ensures EventOk(Checked(Moment(Some(j), c)), j)
  {
    hide InventoryOk;
  }

  lemma SentOk(j: Journal, c: Chain, n: OpName, tx: Tx)
    requires JournalOk(j) && ReceiptsIncluded(j, c) && HasTx(j, n, tx)
    ensures EventOk(Sent(n, tx, Moment(Some(j), c)), j)
  {
    hide InventoryOk;
  }

  lemma SentNamedAdd(j: Journal, sent: set<Tx>, n: OpName, tx: Tx)
    requires SentNamed(j, sent) && HasTx(j, n, tx)
    ensures SentNamed(j, sent + {tx})
  {
  }

  lemma SignKeeps(w: World, n: OpName, tx: Tx)
    requires WorldOk(w) && w.disk.Some?
    requires n in w.disk.value.ops && w.disk.value.ops[n].signed.None? && tx.action == w.disk.value.ops[n].action
    requires ReadyFor(w.disk.value, n)
    requires JustChecked(w.log, w.disk) && (n.Restore? ==> HasPassed(w.log))
    ensures WorldOk(w.(log := w.log + [Signed(n, tx, Moment(w.disk, w.chain))]))
  {
    SignedOk(w.disk.value, w.chain, n, tx);
    LogAppend(w.disk.value, w.log, Signed(n, tx, Moment(w.disk, w.chain)));
  }

  lemma CheckKeeps(w: World)
    requires WorldOk(w) && w.disk.Some? && LiveBindings(w.disk.value, w.chain.facts)
    ensures WorldOk(w.(log := w.log + [Checked(Moment(w.disk, w.chain))]))
  {
    CheckedOk(w.disk.value, w.chain);
    LogAppend(w.disk.value, w.log, Checked(Moment(w.disk, w.chain)));
  }

  lemma PassKeeps(w: World)
    requires WorldOk(w) && w.disk.Some?
    requires LiveBindings(w.disk.value, w.chain.facts) && CutOver(w.disk.value, w.chain.facts) && WorkDone(w.disk.value)
    ensures WorldOk(w.(log := w.log + [Passed(Moment(w.disk, w.chain))]))
    ensures HasPassed(w.log + [Passed(Moment(w.disk, w.chain))])
  {
    PassedOk(w.disk.value, w.chain);
    LogAppend(w.disk.value, w.log, Passed(Moment(w.disk, w.chain)));
  }

  lemma SendKeeps(w: World, n: OpName, tx: Tx)
    requires WorldOk(w) && w.disk.Some? && HasTx(w.disk.value, n, tx)
    ensures WorldOk(w.(sent := w.sent + {tx}, log := w.log + [Sent(n, tx, Moment(w.disk, w.chain))]))
  {
    SentNamedAdd(w.disk.value, w.sent, n, tx);
    SentOk(w.disk.value, w.chain, n, tx);
    LogAppend(w.disk.value, w.log, Sent(n, tx, Moment(w.disk, w.chain)));
  }
}

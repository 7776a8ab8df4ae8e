/** The journal writes of the rollout: each keeps the invariant of everything durable. */
module RolloutSteps {
  import opened Wrappers
  import opened RolloutPlan
  import opened RolloutChain
  import opened RolloutWorld

  lemma QuietCarries(j: Journal, k: Journal, c: Chain)
    requires Extends(j, k) && OpsOk(j) && Quiet(j, c)
    requires forall n :: Applied(k, c, n) ==> Applied(j, c, n)
    requires forall n :: IsSigned(k, n) && !IsSigned(j, n) && Stage(n) > WHITELIST_STAGE ==> ListingCovered(k, c)
    requires SignedWhenClear(k)
    ensures Quiet(k, c)
  {
    forall n | Applied(j, c, n)
      ensures Performs(j, n, j.ops[n].action)
    {
      assert OpOk(j, n);
    }
    TracksCarries(j, k, c);
    PinsCarry(j, k, c, c);
  }

  /** A code is settled before anything is signed behind its migrations. */
  lemma ClearStays(j: Journal, k: Journal, n: OpName)
    requires OpsOk(j) && WellShaped(j.inv) && Extends(j, k) && IsSigned(j, n) && ClearFor(j, n)
    ensures ClearFor(k, n)
  {
    assert OpOk(j, n);
    forall it | Trips(k, it)
      ensures !Before(k.inv, ItemMigrate(it), Stage(n), Index(k.inv, n))
    {
      if Before(k.inv, ItemMigrate(it), Stage(n), Index(k.inv, n)) {
        ItemWanted(j, it);
        assert Trips(j, it);
      }
    }
    assert forall it :: Mute(k.inv, it) ==> Mute(j.inv, it);
  }

  lemma ItemWanted(j: Journal, it: Item)
    requires WellShaped(j.inv) && IsItem(j.inv, it)
    ensures Wanted(j, it.role) && StoreStage(it.role) < Stage(ItemMigrate(it))
  {
    if it in j.inv.tokens {
      var i :| 0 <= i < |j.inv.tokens| && j.inv.tokens[i] == it;
    }
  }

  lemma AllClear(j: Journal, k: Journal)
    requires OpsOk(j) && WellShaped(j.inv) && Extends(j, k) && SignedWhenClear(j)
    requires Whitelist in k.ops && Whitelist !in j.ops ==> Token in k.codes && k.codes[Token] !in k.inv.whitelist
    requires forall n {:trigger IsSigned(k, n)} :: IsSigned(k, n) && !IsSigned(j, n) ==> ClearFor(k, n)
    ensures SignedWhenClear(k)
  {
    forall n | IsSigned(k, n)
      ensures ClearFor(k, n)
    {
      if IsSigned(j, n) { ClearStays(j, k, n); }
    }
  }

  lemma SearchCarries(j: Journal, k: Journal, f: Facts)
    requires Extends(j, k) && SearchFailed(j, f)
    requires forall n :: n in k.ops && n.Store? ==> n in j.ops || NoneMatches(j, f, n.role)
    ensures SearchFailed(k, f)
  {
    forall n | n in k.ops && n.Store?
      ensures NoneMatches(k, f, n.role)
    {
      assert NoneMatches(j, f, n.role);
    }
  }

  /** The change of one entry. */
  lemma EntrySaved(j: Journal, n: OpName, op: Op, c: Chain)
    requires Grounded(j, c.facts) && ReceiptsIncluded(j, c) && SearchFailed(j, c.facts)
    requires n in j.ops || (n.Store? ==> NoneMatches(j, c.facts, n.role))
    requires op.receipt.Some? ==>
             op.receipt.value.tx in c.included && c.included[op.receipt.value.tx] == op.receipt.value
    requires CodesFrom(j, c.facts) && Extends(j, WithOp(j, n, op)) && (n.Store? && n.role in j.codes ==> n in j.ops)
    ensures var k := WithOp(j, n, op);
            Grounded(k, c.facts) && ReceiptsIncluded(k, c) && SearchFailed(k, c.facts) && CodesFrom(k, c.facts)
  {
    var k := WithOp(j, n, op);
    CodesFromKeeps(j, k, c.facts, c.facts);
    forall m | m in k.ops && m.Store?
      ensures NoneMatches(k, c.facts, m.role)
    {
      assert m in j.ops ==> NoneMatches(j, c.facts, m.role);
    }
  }

  lemma EntryQuiet(j: Journal, n: OpName, op: Op, c: Chain)
    requires OpsOk(j) && WellShaped(j.inv) && Quiet(j, c) && Extends(j, WithOp(j, n, op))
    requires op.signed.Some? && !IsSigned(j, n) ==>
               op.signed.value !in c.included && (Stage(n) > WHITELIST_STAGE ==> ListingCovered(j, c)) && ClearFor(j, n)
    requires n == Whitelist && n !in j.ops ==> Token in j.codes && j.codes[Token] !in j.inv.whitelist
    ensures Quiet(WithOp(j, n, op), c)
  {
    var k := WithOp(j, n, op);
    assert ListingCovered(j, c) ==> ListingCovered(k, c);
    EntryClear(j, n, op);
    QuietCarries(j, k, c);
  }

  lemma EntryClear(j: Journal, n: OpName, op: Op)
    requires OpsOk(j) && WellShaped(j.inv) && SignedWhenClear(j) && Extends(j, WithOp(j, n, op))
    requires op.signed.Some? && !IsSigned(j, n) ==> ClearFor(j, n)
    requires n == Whitelist && n !in j.ops ==> Token in j.codes && j.codes[Token] !in j.inv.whitelist
    ensures SignedWhenClear(WithOp(j, n, op))
  {
    var k := WithOp(j, n, op);
    forall m | IsSigned(k, m) && !IsSigned(j, m)
      ensures ClearFor(k, m)
    {
      assert m == n;
      assert forall it :: Trips(k, it) ==> Trips(j, it);
      assert forall it :: Mute(k.inv, it) ==> Mute(j.inv, it);
    }
    AllClear(j, k);
  }

  /** Journal an operation before anything is signed for it. */
  lemma SaveOp(w: World, n: OpName, action: Action)
    requires WorldOk(w) && w.disk.Some? && n !in w.disk.value.ops
    requires WellNamed(w.disk.value, n) && Performs(w.disk.value, n, action)
    requires n.Store? ==> n.role !in w.disk.value.codes && NoneMatches(w.disk.value, w.chain.facts, n.role)
    requires !w.foreign && n == Whitelist ==> w.disk.value.codes[Token] !in w.disk.value.inv.whitelist
    ensures var k := WithOp(w.disk.value, n, Op(action, None, None));
            Extends(w.disk.value, k) && WorldOk(w.(disk := Some(k)))
  {
    var j, op := w.disk.value, Op(action, None, None);
    AddOpOk(j, n, action);
    EntrySaved(j, n, op, w.chain);
    if !w.foreign { EntryQuiet(j, n, op, w.chain); }
    SaveKeeps(w, WithOp(j, n, op));
  }

  /** Save the signed bytes, their hash and their fee before they are broadcast. */
  lemma SaveSigned(w: World, n: OpName, tx: Tx)
    requires WorldOk(w) && w.disk.Some? && n in w.disk.value.ops && !IsSigned(w.disk.value, n)
    requires tx.action == w.disk.value.ops[n].action && tx.fee > 0 && ReadyFor(w.disk.value, n)
    requires TotalFees(w.disk.value) + tx.fee <= w.disk.value.identity.cap
    requires tx !in w.chain.included
    requires !w.foreign && Stage(n) > WHITELIST_STAGE ==> ListingCovered(w.disk.value, w.chain)
    requires !w.foreign ==> ClearFor(w.disk.value, n)
    ensures var k := WithOp(w.disk.value, n, w.disk.value.ops[n].(signed := Some(tx)));
            Extends(w.disk.value, k) && WorldOk(w.(disk := Some(k)))
  {
    var j := w.disk.value;
    var op := j.ops[n].(signed := Some(tx));
    FreshTx(w, n, tx);
    UnsignedHasNoReceipt(j, n);
    AddSignedOk(j, n, tx);
    EntrySaved(j, n, op, w.chain);
    if !w.foreign { EntryQuiet(j, n, op, w.chain); }
    SaveKeeps(w, WithOp(j, n, op));
  }

  lemma UnsignedHasNoReceipt(j: Journal, n: OpName)
    requires OpsOk(j) && n in j.ops && !IsSigned(j, n)
    ensures j.ops[n].receipt.None?
  {
    assert OpOk(j, n);
  }

  /** Save the receipt of an included transaction. */
  lemma SaveReceipt(w: World, n: OpName, tx: Tx)
    requires WorldOk(w) && w.disk.Some? && HasTx(w.disk.value, n, tx) && w.disk.value.ops[n].receipt.None?
    requires tx in w.chain.included && w.chain.included[tx].ok
    ensures var k := WithOp(w.disk.value, n, w.disk.value.ops[n].(receipt := Some(w.chain.included[tx])));
            Extends(w.disk.value, k) && WorldOk(w.(disk := Some(k)))
  {
    var j := w.disk.value;
    var op := j.ops[n].(receipt := Some(w.chain.included[tx]));
    assert StoreReceiptOk(j, w.chain, tx);
    AddReceiptOk(j, n, w.chain.included[tx]);
    EntrySaved(j, n, op, w.chain);
    if !w.foreign { EntryQuiet(j, n, op, w.chain); }
    SaveKeeps(w, WithOp(j, n, op));
  }

  function WithCode(j: Journal, r: Role, code: CodeId): Journal {
    j.(codes := j.codes[r := code])
  }

  lemma CodeSaved(j: Journal, r: Role, code: CodeId, c: Chain)
    requires Grounded(j, c.facts) && ReceiptsIncluded(j, c) && SearchFailed(j, c.facts)
    requires code in c.facts.wasm
    requires r in j.identity.artifacts ==> c.facts.wasm[code] == j.identity.artifacts[r]
    requires r in j.inv.instances && !j.inv.instances[r].needsMigrate ==> code == j.inv.instances[r].code
    requires CodesFrom(j, c.facts) && CodeFrom(WithCode(j, r, code), c.facts, r)
             && (r in j.codes ==> j.codes[r] == code)
    ensures var k := WithCode(j, r, code);
            Grounded(k, c.facts) && ReceiptsIncluded(k, c) && SearchFailed(k, c.facts) && CodesFrom(k, c.facts)
  {
    var k := WithCode(j, r, code);
    forall q | q in k.codes
      ensures CodeFrom(k, c.facts, q)
    {
      if q != r { assert CodeFrom(j, c.facts, q); }
    }
    forall n | n in k.ops && n.Store?
      ensures NoneMatches(k, c.facts, n.role)
    {
      assert NoneMatches(j, c.facts, n.role);
    }
  }

  /** Settle the code id of a role. */
  lemma SaveCode(w: World, r: Role, c: CodeId)
    requires WorldOk(w) && w.disk.Some? && (r in w.disk.value.codes ==> w.disk.value.codes[r] == c)
    requires Store(r) in w.disk.value.ops ==> w.disk.value.ops[Store(r)].receipt.Some?
    requires c in w.chain.facts.wasm
    requires r in w.disk.value.identity.artifacts ==> w.chain.facts.wasm[c] == w.disk.value.identity.artifacts[r]
    requires r in w.disk.value.inv.instances && !w.disk.value.inv.instances[r].needsMigrate ==>
               c == w.disk.value.inv.instances[r].code
    requires CodeFrom(WithCode(w.disk.value, r, c), w.chain.facts, r)
    ensures var k := WithCode(w.disk.value, r, c);
            Extends(w.disk.value, k) && WorldOk(w.(disk := Some(k)))
  {
    var j := w.disk.value;
    var k := WithCode(j, r, c);
    AddCodeOk(j, r, c);
    CodeSaved(j, r, c, w.chain);
    if !w.foreign {
      AllClear(j, k);
      QuietCarries(j, k, w.chain);
    }
    SaveKeeps(w, k);
  }

  lemma SaveStatus(w: World, s: Status)
    requires WorldOk(w) && w.disk.Some? && StatusOk(w.disk.value.(status := s))
    ensures var k := w.disk.value.(status := s);
            Extends(w.disk.value, k) && WorldOk(w.(disk := Some(k)))
  {
    hide StoresFresh, SentNamed, LogOk, StatusOk, DistinctSigned, InventoryOk, ClearFor, TrackPins, Tracks,
         SearchFailed;
    var j := w.disk.value;
    var k := j.(status := s);
    InventoryShape(j);
    SetStatusOk(j, s);
    SearchCarries(j, k, w.chain.facts);
    CodesFromKeeps(j, k, w.chain.facts, w.chain.facts);
    if !w.foreign {
      AllClear(j, k);
      QuietCarries(j, k, w.chain);
    }
    SaveKeeps(w, k);
  }

  /** An operation that is due finds nothing else unanswered, so the drift check cannot misfire. */
  lemma DueIsSettled(w: World, n: OpName)
    requires WorldOk(w) && w.disk.Some? && !w.foreign
    requires WellNamed(w.disk.value, n) && ReadyFor(w.disk.value, n) && !IsSigned(w.disk.value, n)
    requires n.Store? ==> n.role !in w.disk.value.codes
    requires n == Whitelist ==> Token in w.disk.value.codes && w.disk.value.codes[Token] !in w.disk.value.inv.whitelist
    ensures Settled(w.disk.value) && !UnsavedRestore(w.disk.value, w.chain)
  {
    var j := w.disk.value;
    forall m | IsSigned(j, m) && m != Whitelist
      ensures Receipted(j, m)
    {
      assert OpOk(j, m);
      assert n in j.ops ==> OpOk(j, n);
      if n != Whitelist {
        NoOtherPending(j, n, m);
      } else {
        KnownMigrate(j, m);
        if Stage(m) == WHITELIST_STAGE { SameStage(m, Whitelist); }
        assert Stage(m) < WHITELIST_STAGE;
        EarlierIsReceipted(j, m, WHITELIST_STAGE, 0);
      }
    }
  }

  /** A due operation is refused for drift only after a foreign change or for a contract that trips the check. */
  lemma DueBindings(w: World, n: OpName)
    requires WorldOk(w) && w.disk.Some? && !w.foreign
    requires WellNamed(w.disk.value, n) && ReadyFor(w.disk.value, n) && !IsSigned(w.disk.value, n)
    requires n.Store? ==> n.role !in w.disk.value.codes
    requires n == Whitelist ==> Token in w.disk.value.codes && w.disk.value.codes[Token] !in w.disk.value.inv.whitelist
    ensures LiveBindings(w.disk.value, w.chain.facts) <==> !OwnDrift(w.disk.value, w.chain)
    ensures LiveBindings(w.disk.value, w.chain.facts) <==> ClearFor(w.disk.value, n)
  {
    DueIsSettled(w, n);
    BindingsExact(w.disk.value, w.chain);
    if n == Whitelist { NothingListedYet(w); }
    TripsExactly(w.disk.value, w.chain, n);
  }

  /** A listing that is still needed has nothing signed behind it. */
  lemma NothingListedYet(w: World)
    requires WorldOk(w) && w.disk.Some? && !w.foreign && !IsSigned(w.disk.value, Whitelist)
    requires Token in w.disk.value.codes && w.disk.value.codes[Token] !in w.disk.value.inv.whitelist
    ensures forall m :: IsSigned(w.disk.value, m) ==> Stage(m) <= WHITELIST_STAGE
  {
  }

  /** The contracts that trip the check of a due operation are known from the inventory and the order of work. */
  lemma TripsExactly(j: Journal, c: Chain, n: OpName)
    requires JournalOk(j) && ReceiptsIncluded(j, c)
    requires ReadyFor(j, n) && WellNamed(j, n) && !IsSigned(j, n) && (n.Store? ==> n.role !in j.codes)
    requires n == Whitelist ==> forall m :: IsSigned(j, m) ==> Stage(m) <= WHITELIST_STAGE
    ensures OwnDrift(j, c) <==> !ClearFor(j, n)
  {
    hide JournalOk, ReadyFor, ReceiptsIncluded, Applied, WellNamed, Answers, TripsAfter, Before, InventoryOk, OpsOk,
         WellShaped, DistinctAddresses;
    JournalPieces(j);
    if OwnDrift(j, c) {
      var it :| IsItem(j.inv, it) && ItemTrips(j, c, it);
      MovedBefore(j, c, n, it);
      CurrentAnswers(j, it);
      assert Trips(j, it) || Mute(j.inv, it);
    }
    if it :| Trips(j, it) && Before(j.inv, ItemMigrate(it), Stage(n), Index(j.inv, n)) {
      MovedBefore(j, c, n, it);
      assert ItemTrips(j, c, it);
    }
    if it :| Mute(j.inv, it) && !Before(j.inv, ItemMigrate(it), Stage(n), Index(j.inv, n)) {
      MovedBefore(j, c, n, it);
      assert ItemTrips(j, c, it);
    }
  }

  lemma CurrentAnswers(j: Journal, it: Item)
    requires InventoryOk(j.identity, j.inv) && IsItem(j.inv, it)
    ensures !it.needsMigrate ==> Answers(it.role, it.cw2.version, it.wasm)
  {
    assert Probed(it);
  }

  /** What is migrated when an operation is due are the contracts before it that have to be. */
  lemma MovedBefore(j: Journal, c: Chain, n: OpName, it: Item)
    requires OpsOk(j) && WellShaped(j.inv) && DistinctAddresses(j.inv) && ReceiptsIncluded(j, c) && IsItem(j.inv, it)
    requires ReadyFor(j, n) && WellNamed(j, n) && !IsSigned(j, n) && (n.Store? ==> n.role !in j.codes)
    requires n == Whitelist ==> forall m :: IsSigned(j, m) ==> Stage(m) <= WHITELIST_STAGE
    ensures Applied(j, c, ItemMigrate(it)) <==>
            it.needsMigrate && Before(j.inv, ItemMigrate(it), Stage(n), Index(j.inv, n))
  {
    hide WellShaped, ReadyFor, ReceiptsIncluded, WellNamed;
    if it.needsMigrate && Before(j.inv, ItemMigrate(it), Stage(n), Index(j.inv, n)) {
      BeforeIsMoved(j, c, n, it);
    }
    if Applied(j, c, ItemMigrate(it)) {
      MovedNeeded(j, it);
      if n != Whitelist { SignedBefore(j, n, ItemMigrate(it)); }
      assert Before(j.inv, ItemMigrate(it), Stage(n), Index(j.inv, n));
    }
  }

  lemma JournalPieces(j: Journal)
    requires JournalOk(j)
    ensures OpsOk(j) && WellShaped(j.inv) && DistinctAddresses(j.inv) && InventoryOk(j.identity, j.inv)
  {
    hide OpsOk, WellShaped, DistinctAddresses, StatusOk;
  }

  lemma BeforeIsMoved(j: Journal, c: Chain, n: OpName, it: Item)
    requires OpsOk(j) && ReceiptsIncluded(j, c) && ReadyFor(j, n)
    requires IsItem(j.inv, it) && it.needsMigrate && Before(j.inv, ItemMigrate(it), Stage(n), Index(j.inv, n))
    ensures Applied(j, c, ItemMigrate(it))
  {
    ReadyBefore(j, n, it);
    assert OpOk(j, ItemMigrate(it));
    ReceiptedIsApplied(j, c, ItemMigrate(it));
  }

  lemma MovedNeeded(j: Journal, it: Item)
    requires OpsOk(j) && DistinctAddresses(j.inv) && IsItem(j.inv, it) && IsSigned(j, ItemMigrate(it))
    ensures it.needsMigrate
  {
    assert OpOk(j, ItemMigrate(it));
    var other :| IsItem(j.inv, other) && other.needsMigrate && ItemMigrate(other) == ItemMigrate(it);
    assert other == it;
  }

  /** Whatever is signed comes before what is due. */
  lemma SignedBefore(j: Journal, n: OpName, m: OpName)
    requires OpsOk(j) && WellShaped(j.inv) && IsSigned(j, m) && m.Migrate?
    requires WellNamed(j, n) && !IsSigned(j, n) && n != Whitelist && (n.Store? ==> n.role !in j.codes)
    ensures Before(j.inv, m, Stage(n), Index(j.inv, n))
  {
    assert OpOk(j, m) && (n in j.ops ==> OpOk(j, n));
    if !Before(j.inv, m, Stage(n), Index(j.inv, n)) {
      if Stage(m) == Stage(n) && Index(j.inv, m) == Index(j.inv, n) {
        SamePosition(j, m, n);
      }
      SignedNeedsEarlier(j, n, m);
    }
  }

  lemma ReadyBefore(j: Journal, n: OpName, it: Item)
    requires ReadyFor(j, n) && IsItem(j.inv, it) && it.needsMigrate
             && Before(j.inv, ItemMigrate(it), Stage(n), Index(j.inv, n))
    ensures Receipted(j, ItemMigrate(it))
  {
    assert Required(j, ItemMigrate(it));
  }
}

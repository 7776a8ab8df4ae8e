/**
 The rollout process: `_operation`, `_store`, `_code`, `verify`, `execute` and `finalize` over the
 journal in memory, every write of which reaches the disk before the next outside effect.

 Every method keeps `WorldOk` at every point where the process may be cut off, because each effect
 of `Site` may be the last one (`Killed`) and the postconditions hold for that outcome too.
 */
module RolloutEngine {
  import opened Wrappers
  import opened RolloutPlan
  import opened RolloutChain
  import opened RolloutWorld
  import opened RolloutSteps
  import opened RolloutProgress
  import opened RolloutSite
  import opened RolloutRun
  import opened RolloutInventory
  import RolloutCutover
  import RolloutSafety
  import MapSum

  /** Why a run stopped. */
  datatype Why =
    | Killed
    | PendingUnknown
    | Failed
    | SignerRefused
    | TransportRefused
    | OverCap
    | UnknownCode
    | Drifted
    | Mismatch
    | NotCutOver
    | WrongStatus
    | Unplannable
    | WrongInputs

  datatype Outcome<+T> = Done(value: T) | Stop(why: Why) {
    predicate IsFailure() { Stop? }
    function PropagateFailure<U>(): Outcome<U> requires Stop? { Stop(why) }
    function Extract(): T requires Done? { value }
  }

  // ---------------------------------------------------------------- what one operation may do

  /** Nothing but the given entry changed. */
  ghost predicate Touches(j: Journal, k: Journal, n: OpName) {
    k == j || (n in k.ops && k == WithOp(j, n, k.ops[n]))
  }

  /** Nothing but the given bytes was sent. */
  ghost predicate Sends(before: set<Tx>, after: set<Tx>, tx: Option<Tx>) {
    after == before || (tx.Some? && after == before + {tx.value})
  }

  lemma TouchesTrans(i: Journal, j: Journal, k: Journal, n: OpName)
    requires Touches(i, j, n) && Touches(j, k, n)
    ensures Touches(i, k, n)
  {
    if j != i && k != j {
      assert k.ops == i.ops[n := k.ops[n]];
    }
  }

  /** The journal entry of the listing. */
  ghost function ListingEntry(d: Option<Journal>): Option<Op> {
    if d.Some? && Whitelist in d.value.ops then Some(d.value.ops[Whitelist]) else None
  }

  lemma ListingUntouched(j: Journal, k: Journal, n: OpName)
    requires Touches(j, k, n) && n != Whitelist
    ensures ListingEntry(Some(j)) == ListingEntry(Some(k))
  {
  }

  /** The restores' entries, and whether the rollout is complete. */
  ghost function RestoreView(d: Option<Journal>): (map<OpName, Op>, bool) {
    if d.None? then (map[], false)
    else (map n | n in d.value.ops && n.Restore? :: d.value.ops[n], d.value.status.Complete?)
  }

  lemma RestoresUntouched(j: Journal, k: Journal, n: OpName)
    requires Touches(j, k, n) && !n.Restore?
    ensures RestoreView(Some(j)) == RestoreView(Some(k))
  {
    assert RestoreView(Some(j)).0 == RestoreView(Some(k)).0;
  }

  lemma RestoresSame(j: Journal, k: Journal)
    requires k.ops == j.ops && (k.status.Complete? <==> j.status.Complete?)
    ensures RestoreView(Some(j)) == RestoreView(Some(k))
  {
  }

  /** An included restore stays included; while its entry is left alone, its receipt stays missing. */
  lemma RestoreCutStays(u: World, v: World)
    requires Kept(u, v) && RestoreView(u.disk) == RestoreView(v.disk) && RestoreCut(u)
    ensures RestoreCut(v)
  {
    hide WorldOk;
    var j, k := u.disk.value, v.disk.value;
    var i :| 0 <= i < |j.inv.markets| && RestoreUnsaved(j, u.chain, j.inv.markets[i]);
    var n := Restore(j.inv.markets[i].item.address);
    assert RestoreView(u.disk).0[n] == j.ops[n];
    assert n in RestoreView(v.disk).0 && RestoreView(v.disk).0[n] == k.ops[n];
    assert RestoreUnsaved(k, v.chain, k.inv.markets[i]);
  }

  lemma ListingSame(j: Journal, k: Journal)
    requires k.ops == j.ops
    ensures ListingEntry(Some(j)) == ListingEntry(Some(k))
  {
  }

  lemma StillRunning(u: World, v: World)
    requires u.disk.Some? && v.disk.Some? && RestoreView(u.disk) == RestoreView(v.disk)
             && !u.disk.value.status.Complete?
    ensures !v.disk.value.status.Complete?
  {
  }

  lemma AlreadyComplete(w: World)
    requires w.disk.Some? && w.disk.value.status.Complete?
    ensures !RestoreCut(w)
  {
  }

  lemma CutIsListed(w: World)
    requires WorldOk(w) && !w.foreign && ListingCut(w) && Token in w.disk.value.codes
    ensures w.disk.value.codes[Token] in w.chain.facts.listed
  {
    RolloutSafety.ListedWhen(w);
  }

  /** An included listing stays included; while its entry is left alone, its receipt stays missing. */
  lemma CutStays(u: World, v: World)
    requires Kept(u, v) && ListingEntry(u.disk) == ListingEntry(v.disk) && ListingCut(u)
    ensures ListingCut(v)
  {
    hide WorldOk;
  }

  lemma NothingTouched(j: Journal, n: OpName, sent: set<Tx>, tx: Option<Tx>)
    ensures Touches(j, j, n) && Sends(sent, sent, tx)
  {
  }

  ghost function SignedAs(j: Journal, n: OpName): Option<Tx> {
    if n in j.ops then j.ops[n].signed else None
  }

  /**
   The reasons for which an operation stops. All but drift come from outside: the cut, an inclusion that is
   missing or failed, a refusal of signer or transport, the cap, or a candidate code that the chain does not
   know. A mismatch with the journal is not among them.
   */
  ghost predicate Accounted(why: Why, w: World, life: nat) {
    match why
    case Killed => life == 0
    case PendingUnknown => w.disk.Some? && exists n, tx :: HasTx(w.disk.value, n, tx) && tx !in w.chain.included
    case Failed =>
      w.disk.Some? && exists n, tx :: HasTx(w.disk.value, n, tx) && tx in w.chain.included && !w.chain.included[tx].ok
    case SignerRefused => true
    case TransportRefused => true
    case OverCap => true
    case UnknownCode => w.disk.Some? && exists r, c :: c in Candidates(w.disk.value.inv, r) && c !in w.chain.facts.wasm
    case Drifted => DriftExplained(w)
    case _ => false
  }

  /** What a verification of finished work asks of the plan. */
  ghost predicate Verifiable(w: World)
    requires w.disk.Some?
  {
    && RolloutCutover.ReviewedCapable(w.disk.value) && RolloutCutover.TokensListed(w.disk.value)
    && RolloutCutover.OthersPinned(w.disk.value, w.chain.planned)
  }

  /** Why a verification of finished work refuses while nobody else acts. */
  ghost predicate StopsVerify(why: Why, w: World) {
    && (why.Drifted? || why.NotCutOver?)
    && w.disk.Some? && WorkDone(w.disk.value)
    && (!w.foreign ==> if why.Drifted? then UnsavedRestore(w.disk.value, w.chain) else !Verifiable(w))
  }

  /** Why a run stops. */
  ghost predicate Stops(mode: Mode, why: Why, w: World, life: nat) {
    || Accounted(why, w, life)
    || StopsVerify(why, w)
    || (mode.Verify? && (why.Drifted? || why.NotCutOver?))
    || (why.WrongStatus? && w.disk.Some? &&
        if mode.Execute? then w.disk.value.status.Complete?
        else mode.Finalize? && !w.disk.value.status.ReadyPaused? && !w.disk.value.status.Complete?)
  }

  // ---------------------------------------------------------------- the process

  class Rollout {
    const site: Site
    const identity: Identity
    var state: Option<Journal>

    ghost predicate Live()
      reads this, site
    {
      site.Ok() && state.Some? && site.disk == state
    }

    /** A new process reads the journal, if there is one. */
    constructor (site: Site, identity: Identity)
      ensures this.site == site && this.identity == identity
      ensures state == site.disk
    {
      this.site := site;
      this.identity := identity;
      this.state := site.disk;
    }

    method SaveState(j: Journal) returns (o: Outcome<()>)
      requires Live()
      requires Extends(state.value, j) && WorldOk(site.View().(disk := Some(j)))
      modifies this, site
      ensures Kept(old(site.View()), site.View())
      ensures o.Done? ==> state == Some(j) && site.View() == old(site.View()).(disk := Some(j))
      ensures o.Stop? ==> o.why.Killed? && site.View() == old(site.View()) && site.life == 0
      ensures site.sent == old(site.sent)
    {
      SavedKept(site.View(), j);
      state := Some(j);
      var alive := site.Save(j);
      o := if alive then Done(()) else Stop(Killed);
    }

    /** The sum of the saved fees, by a walk over the journal. */
    method SavedFees() returns (total: nat)
      requires state.Some?
      ensures total == TotalFees(state.value)
    {
      var ops := state.value.ops;
      var todo := ops.Keys;
      total := 0;
      ghost var left := FeesOf(ops);
      while todo != {}
        invariant todo <= ops.Keys
        invariant left == map n | n in todo :: Fee(ops[n])
        invariant total + MapSum.Sum(left) == TotalFees(state.value)
        decreases todo
      {
        var n :| n in todo;
        total := total + Fee(ops[n]);
        MapSum.SumTakeOut(left, n);
        todo := todo - {n};
        left := left - {n};
      }
      assert left == map[];
    }

    /** Deliver the very bytes that were signed, then wait for their inclusion. */
    method Rebroadcast(n: OpName, tx: Tx) returns (o: Outcome<Receipt>)
      requires Live() && HasTx(state.value, n, tx)
      modifies site
      ensures Kept(old(site.View()), site.View())
      ensures o.Done? ==> Live() && tx in site.chain.included && o.value == site.chain.included[tx]
      ensures o.Stop? ==> Accounted(o.why, site.View(), site.life)
      ensures Sends(old(site.sent), site.sent, Some(tx)) && site.disk == old(site.disk)
      ensures o == Stop(PendingUnknown) ==> tx in site.sent
    {
      hide WorldOk;
      ghost var start := site.View();
      site.Elapse();
      WaitedKept(start, site.View());
      if tx in site.chain.included {
        return Done(site.chain.included[tx]);
      }
      var admitted: bool := *;
      if !admitted {
        return Stop(TransportRefused);
      }
      ghost var before := site.View();
      SendKept(before, n, tx);
      var alive := site.Broadcast(n, tx);
      if !alive {
        return Stop(Killed);
      }
      ghost var sent := site.View();
      KeptTrans(start, before, sent);
      site.Elapse();
      WaitedKept(sent, site.View());
      KeptTrans(start, sent, site.View());
      if tx in site.chain.included {
        return Done(site.chain.included[tx]);
      }
      return Stop(PendingUnknown);
    }

    /** Store the receipt of an included transaction, or stop on a failed one. */
    method SaveAnswer(n: OpName, tx: Tx) returns (o: Outcome<Receipt>)
      requires Live() && HasTx(state.value, n, tx) && state.value.ops[n].receipt.None?
      requires tx in site.chain.included
      modifies this, site
      ensures Kept(old(site.View()), site.View())
      ensures o.Done? ==>
                && Live() && state == Some(WithOp(old(state).value, n,
                                                  old(state).value.ops[n].(receipt := Some(o.value))))
      ensures o.Stop? ==> Accounted(o.why, site.View(), site.life)
      ensures site.sent == old(site.sent) && Touches(old(state).value, site.disk.value, n)
    {
      hide WorldOk, Extends;
      var receipt := site.chain.included[tx];
      if !receipt.ok {
        KeptSelf(site.View());
        return Stop(Failed);
      }
      SaveReceipt(site.View(), n, tx);
      var op := state.value.ops[n].(receipt := Some(receipt));
      var _ :- SaveState(WithOp(state.value, n, op));
      return Done(receipt);
    }

    /** An operation whose hash is saved: look it up, and never sign again. */
    method Reconcile(n: OpName, tx: Tx, rebroadcast: bool) returns (o: Outcome<Receipt>)
      requires Live() && HasTx(state.value, n, tx) && state.value.ops[n].receipt.None?
      modifies this, site
      ensures Kept(old(site.View()), site.View())
      ensures o.Done? ==>
              Live() && Settles(old(state).value, state.value, n) && state.value.ops[n].receipt == Some(o.value)
      ensures o.Stop? ==> Accounted(o.why, site.View(), site.life)
      ensures Sends(old(site.sent), site.sent, Some(tx)) && SignedAs(site.disk.value, n) == Some(tx)
      ensures !rebroadcast ==> site.sent == old(site.sent)
      ensures Touches(old(state).value, site.disk.value, n)
    {
      hide WorldOk, Settles;
      ghost var start, j := site.View(), state.value;
      site.Elapse();
      WaitedKept(start, site.View());
      if tx !in site.chain.included {
        if !rebroadcast {
          return Stop(PendingUnknown);
        }
        ghost var before := site.View();
        var sent := Rebroadcast(n, tx);
        KeptTrans(start, before, site.View());
        if sent.Stop? {
          return sent;
        }
      }
      ghost var found := site.View();
      o := SaveAnswer(n, tx);
      KeptTrans(start, found, site.View());
      if o.Done? {
        ReceiptSettles(j, j, n, state.value.ops[n]);
      }
    }

    /** Sign once, and save the bytes with their hash and fee if the total stays within the cap. */
    method SignAndSave(n: OpName, action: Action) returns (o: Outcome<Tx>)
      requires Live() && Due(site.View(), n, action) && JustChecked(site.log, site.disk)
      requires n in state.value.ops && state.value.ops[n].action == action && !IsSigned(state.value, n)
      requires !site.foreign ==> ClearFor(state.value, n)
      modifies this, site
      ensures Kept(old(site.View()), site.View()) && site.sent == old(site.sent)
      ensures o.Done? ==>
                && Live() && o.value.action == action && o.value.fee > 0
                && state == Some(WithOp(old(state).value, n, old(state).value.ops[n].(signed := Some(o.value))))
                && state.value.ops[n].receipt.None?
      ensures o.Stop? ==> Accounted(o.why, site.View(), site.life) && site.disk == old(site.disk)
      ensures Touches(old(state).value, site.disk.value, n)
    {
      hide WorldOk, Due;
      ghost var start := site.View();
      site.Elapse();
      WaitedKept(start, site.View());
      DueLater(start, site.View(), n, action);
      ghost var before := site.View();
      var signed := site.Sign(n, action);
      if signed.None? {
        return Stop(if site.life == 0 then Killed else SignerRefused);
      }
      var tx := signed.value;
      SignDue(before, n, tx);
      ghost var logged := site.View();
      KeptTrans(start, before, logged);
      var total := SavedFees();
      if total + tx.fee > state.value.identity.cap {
        return Stop(OverCap);
      }
      SaveDue(logged, n, tx);
      var saved := SaveState(WithOp(state.value, n, state.value.ops[n].(signed := Some(tx))));
      KeptTrans(start, logged, site.View());
      return if saved.Stop? then Stop(Killed) else Done(tx);
    }

    /** Sign once, save the hash and its fee, and only then broadcast. */
    method Transact(n: OpName, action: Action) returns (o: Outcome<Receipt>)
      requires Live() && Due(site.View(), n, action) && JustChecked(site.log, site.disk)
      requires n in state.value.ops && state.value.ops[n].action == action && !IsSigned(state.value, n)
      requires !site.foreign ==> ClearFor(state.value, n)
      modifies this, site
      ensures Kept(old(site.View()), site.View())
      ensures o.Done? ==>
              Live() && Settles(old(state).value, state.value, n) && state.value.ops[n].receipt == Some(o.value)
      ensures o.Stop? ==> Accounted(o.why, site.View(), site.life)
      ensures Touches(old(state).value, site.disk.value, n)
      ensures Sends(old(site.sent), site.sent, SignedAs(site.disk.value, n))
    {
      hide Touches, Sends, WorldOk, Settles, Due, Accounted, JustChecked, ClearFor;
      ghost var start, j := site.View(), state.value;
      var signed := SignAndSave(n, action);
      NothingTouched(j, n, start.sent, SignedAs(site.disk.value, n));
      var tx :- signed;
      ghost var durable, k := site.View(), state.value;
      var sent := Rebroadcast(n, tx);
      KeptTrans(start, durable, site.View());
      if sent.Stop? {
        return sent;
      }
      ghost var included := site.View();
      o := SaveAnswer(n, tx);
      KeptTrans(start, included, site.View());
      TouchesTrans(j, k, site.disk.value, n);
      if o.Done? {
        ReceiptSettles(j, k, n, state.value.ops[n]);
      }
    }

    /** Journal the operation's name and action, unless an earlier run did. */
    method Journalize(n: OpName, action: Action) returns (o: Outcome<()>)
      requires Live() && Due(site.View(), n, action) && n !in state.value.ops
      modifies this, site
      ensures Kept(old(site.View()), site.View())
      ensures o.Done? ==>
                && Live() && Due(site.View(), n, action) && site.foreign == old(site.foreign)
                && state == Some(WithOp(old(state).value, n, Op(action, None, None)))
      ensures o.Stop? ==> o.why.Killed? && site.life == 0
      ensures site.sent == old(site.sent) && Touches(old(state).value, site.disk.value, n)
    {
      hide WorldOk, Due;
      DueIsNamed(site.View(), n, action);
      SaveOp(site.View(), n, action);
      DueJournaled(site.View(), n, action);
      o := SaveState(WithOp(state.value, n, Op(action, None, None)));
    }

    /** The drift check, then the transaction. */
    method CheckAndTransact(n: OpName, action: Action) returns (o: Outcome<Receipt>)
      requires Live() && Due(site.View(), n, action)
      requires n in state.value.ops && state.value.ops[n].action == action && !IsSigned(state.value, n)
      modifies this, site
      ensures Kept(old(site.View()), site.View())
      ensures o.Done? ==>
              Live() && Settles(old(state).value, state.value, n) && state.value.ops[n].receipt == Some(o.value)
      ensures o.Stop? ==> Accounted(o.why, site.View(), site.life)
      ensures Touches(old(state).value, site.disk.value, n)
      ensures Sends(old(site.sent), site.sent, SignedAs(site.disk.value, n))
    {
      hide WorldOk, Settles, Due, LiveBindings;
      ghost var start := site.View();
      site.Elapse();
      WaitedKept(start, site.View());
      DueLater(start, site.View(), n, action);
      ghost var checked := site.View();
      DriftOnlyIfExplained(checked, n, action);
      if !LiveBindings(state.value, site.chain.facts) {
        return Stop(Drifted);
      }
      if !site.foreign { CheckedIsClear(checked, n, action); }
      CheckDue(checked, n, action);
      site.Check();
      KeptTrans(start, checked, site.View());
      ghost var noted := site.View();
      o := Transact(n, action);
      KeptTrans(start, noted, site.View());
    }

    /** A journaled operation without a receipt: reconcile a saved hash, sign otherwise. */
    method Conclude(n: OpName, action: Action, rebroadcast: bool) returns (o: Outcome<Receipt>)
      requires Live() && Due(site.View(), n, action)
      requires n in state.value.ops && state.value.ops[n].action == action && state.value.ops[n].receipt.None?
      modifies this, site
      ensures Kept(old(site.View()), site.View())
      ensures o.Done? ==>
              Live() && Settles(old(state).value, state.value, n) && state.value.ops[n].receipt == Some(o.value)
      ensures o.Stop? ==> Accounted(o.why, site.View(), site.life)
      ensures Touches(old(state).value, site.disk.value, n)
      ensures Sends(old(site.sent), site.sent, SignedAs(site.disk.value, n))
      ensures old(IsSigned(state.value, n)) && !rebroadcast ==> site.sent == old(site.sent)
    {
      hide WorldOk, Settles, Due, Touches, Sends;
      if state.value.ops[n].signed.Some? {
        o := Reconcile(n, state.value.ops[n].signed.value, rebroadcast);
      } else {
        o := CheckAndTransact(n, action);
      }
    }

    /** Bring one operation to its receipt, from whatever point an earlier run left it at. */
    method Operation(n: OpName, action: Action, rebroadcast: bool) returns (o: Outcome<Receipt>)
      requires Live() && Due(site.View(), n, action)
      modifies this, site
      ensures Kept(old(site.View()), site.View())
      ensures o.Done? ==>
              Live() && Settles(old(state).value, state.value, n) && state.value.ops[n].receipt == Some(o.value)
      ensures o.Stop? ==> Accounted(o.why, site.View(), site.life)
      ensures Touches(old(state).value, site.disk.value, n)
      ensures Sends(old(site.sent), site.sent, SignedAs(site.disk.value, n))
      ensures old(IsSigned(state.value, n)) && !rebroadcast ==> site.sent == old(site.sent)
      ensures old(Receipted(state.value, n)) ==> site.View() == old(site.View())
    {
      hide WorldOk, Settles, Due, Touches, Sends;
      ghost var start, j := site.View(), state.value;
      NothingTouched(j, n, start.sent, SignedAs(j, n));
      if n !in state.value.ops {
        var journaled := Journalize(n, action);
        NothingTouched(j, n, start.sent, SignedAs(site.disk.value, n));
        if journaled.Stop? {
          return Stop(journaled.why);
        }
      } else {
        KeptSelf(start);
        JournaledAction(start, n, action);
        if state.value.ops[n].action != action {
          return Stop(Mismatch);
        }
        if state.value.ops[n].receipt.Some? {
          AlreadySettled(j, n);
          return Done(state.value.ops[n].receipt.value);
        }
      }
      ghost var mid, k := site.View(), state.value;
      o := Conclude(n, action, rebroadcast);
      KeptTrans(start, mid, site.View());
      TouchesTrans(j, k, site.disk.value, n);
      if o.Done? {
        SettlesSince(j, k, state.value, n);
      }
    }

    /** One planned operation: receipted, and the position advances past it. */
    method Step(n: OpName, action: Action, rebroadcast: bool) returns (o: Outcome<()>)
      requires Live() && At(site.View(), Stage(n), Index(state.value.inv, n))
      requires Required(state.value, n) && Performs(state.value, n, action)
      requires n.Restore? ==> HasPassed(site.log)
      modifies this, site
      ensures Kept(old(site.View()), site.View())
      ensures o.Done? ==>
                && Live() && Receipted(state.value, n)
                && At(site.View(), Stage(n), Index(old(state).value.inv, n) + 1)
      ensures o.Stop? ==> Accounted(o.why, site.View(), site.life)
      ensures ListingEntry(site.disk) == old(ListingEntry(site.disk))
      ensures !n.Restore? ==> RestoreView(site.disk) == old(RestoreView(site.disk))
    {
      hide RestoreView, WorldOk, Settles, Due, At, Performs, Required, InventoryOk, WellShaped;
      ghost var start := site.View();
      JournalFacts(start);
      RequiredIsNamed(state.value, n);
      DueAt(start, n, action);
      var answer := Operation(n, action, rebroadcast);
      ListingUntouched(start.disk.value, site.disk.value, n);
      if !n.Restore? { RestoresUntouched(start.disk.value, site.disk.value, n); }
      if answer.Stop? {
        return Stop(answer.why);
      }
      SettledReceipt(start.disk.value, state.value, n);
      Advanced(start, site.View(), n);
      return Done(());
    }

    /** Record the code id of a role. */
    method SettleCode(role: Role, code: CodeId) returns (o: Outcome<()>)
      requires Live()
      requires role in state.value.codes ==> state.value.codes[role] == code
      requires Store(role) in state.value.ops ==> state.value.ops[Store(role)].receipt.Some?
      requires code in site.chain.facts.wasm
      requires role in state.value.identity.artifacts ==>
               site.chain.facts.wasm[code] == state.value.identity.artifacts[role]
      requires role in state.value.inv.instances && !state.value.inv.instances[role].needsMigrate ==>
                 code == state.value.inv.instances[role].code
      requires CodeFrom(WithCode(state.value, role, code), site.chain.facts, role)
      modifies this, site
      ensures Kept(old(site.View()), site.View())
      ensures o.Done? ==>
                && Live() && state == Some(old(state).value.(codes := old(state).value.codes[role := code]))
                && site.chain == old(site.chain) && site.foreign == old(site.foreign)
      ensures o.Stop? ==> o.why.Killed? && site.life == 0
      ensures ListingEntry(site.disk) == old(ListingEntry(site.disk))
      ensures RestoreView(site.disk) == old(RestoreView(site.disk))
    {
      hide WorldOk, InventoryOk, WellShaped;
      SaveCode(site.View(), role, code);
      o := SaveState(state.value.(codes := state.value.codes[role := code]));
    }

    /** Upload a role's artifact unless its code id is settled. */
    method StoreRole(role: Role, rebroadcast: bool) returns (o: Outcome<CodeId>)
      requires Live() && At(site.View(), StoreStage(role), 0)
      requires role in state.value.identity.artifacts && Wanted(state.value, role)
      requires role in state.value.inv.instances ==> state.value.inv.instances[role].needsMigrate
      requires role in state.value.codes || NoneMatches(state.value, site.chain.facts, role)
      modifies this, site
      ensures Kept(old(site.View()), site.View())
      ensures o.Done? ==>
                && Live() && role in state.value.codes && state.value.codes[role] == o.value
                && At(site.View(), StoreStage(role) + 1, 0)
      ensures o.Stop? ==> Accounted(o.why, site.View(), site.life)
      ensures ListingEntry(site.disk) == old(ListingEntry(site.disk))
      ensures RestoreView(site.disk) == old(RestoreView(site.disk))
    {
      hide RestoreView, WorldOk, Settles, Due, At, Performs, InventoryOk, WellShaped;
      ghost var start := site.View();
      KeptSelf(start);
      if role !in state.value.codes {
        StoreDue(start, role);
        var answer := Operation(Store(role), StoreCode(state.value.identity.artifacts[role]), rebroadcast);
        ListingUntouched(start.disk.value, site.disk.value, Store(role));
        RestoresUntouched(start.disk.value, site.disk.value, Store(role));
        var receipt :- answer;
        ghost var stored := site.View();
        SettledReceipt(start.disk.value, state.value, Store(role));
        StoreAnswer(stored, role);
        UploadedCode(state.value, site.chain.facts, role);
        var settled := SettleCode(role, receipt.code.value);
        KeptTrans(start, stored, site.View());
        if settled.Stop? {
          return Stop(Killed);
        }
      }
      JournalFacts(site.View());
      var code := state.value.codes[role];
      if code !in site.chain.facts.wasm || site.chain.facts.wasm[code] != state.value.identity.artifacts[role] {
        return Stop(Mismatch);
      }
      AtLater(start, site.View(), StoreStage(role), 0);
      StoreStagePassed(site.View(), role);
      return Done(code);
    }

    /** Look for the artifact among existing codes, in ascending order, before uploading it. */
    method Code(role: Role, rebroadcast: bool) returns (o: Outcome<CodeId>)
      requires Live() && At(site.View(), StoreStage(role), 0)
      requires role in state.value.identity.artifacts && Wanted(state.value, role) && role !in CORE_ROLES
      modifies this, site
      ensures Kept(old(site.View()), site.View())
      ensures o.Done? ==>
                && Live() && role in state.value.codes && state.value.codes[role] == o.value
                && At(site.View(), StoreStage(role) + 1, 0)
      ensures o.Stop? ==> Accounted(o.why, site.View(), site.life)
      ensures ListingEntry(site.disk) == old(ListingEntry(site.disk))
      ensures RestoreView(site.disk) == old(RestoreView(site.disk))
    {
      hide RestoreView, WorldOk, Due, At, Performs, Kept, InventoryOk, WellShaped;
      ghost var start := site.View();
      JournalFacts(start);
      site.Elapse();
      WaitedKept(start, site.View());
      if role !in state.value.codes {
        var found, code := Search(role);
        if found.Stop? {
          return Stop(found.why);
        }
        if found.value {
          ghost var mid := site.View();
          NoUploadIfFound(mid, role, code);
          ListedRole(mid, role);
          SearchedCode(state.value, site.chain.facts, role, code);
          var settled := SettleCode(role, code);
          KeptTrans(start, mid, site.View());
          if settled.Stop? {
            return Stop(Killed);
          }
        }
      }
      ghost var searched := site.View();
      AtLater(start, searched, StoreStage(role), 0);
      JournalKept(start, searched);
      o := StoreRole(role, rebroadcast);
      KeptTrans(start, searched, site.View());
    }

    /** The smallest candidate code id that holds the artifact; an unknown id is an error. */
    method Search(role: Role) returns (found: Outcome<bool>, code: CodeId)
      requires Live() && role in state.value.identity.artifacts
      ensures found.Stop? ==> Accounted(found.why, site.View(), site.life)
      ensures found == Done(true) ==>
                && code in Candidates(state.value.inv, role) && code in site.chain.facts.wasm
                && site.chain.facts.wasm[code] == state.value.identity.artifacts[role]
                && forall c :: c in Candidates(state.value.inv, role) && c < code ==>
                     c in site.chain.facts.wasm && site.chain.facts.wasm[c] != state.value.identity.artifacts[role]
      ensures found == Done(false) ==> NoneMatches(state.value, site.chain.facts, role)
    {
      hide WorldOk, Candidates;
      var all := Candidates(state.value.inv, role);
      var todo := all;
      while todo != {}
        invariant todo <= all
        invariant forall c :: c in all && c !in todo ==> forall d :: d in todo ==> c <= d
        invariant forall c :: c in all && c !in todo ==>
                    c in site.chain.facts.wasm && site.chain.facts.wasm[c] != state.value.identity.artifacts[role]
        decreases todo
      {
        SmallestExists(todo);
        code :| Smallest(todo, code);
        if code !in site.chain.facts.wasm {
          return Stop(UnknownCode), code;
        }
        if site.chain.facts.wasm[code] == state.value.identity.artifacts[role] {
          return Done(true), code;
        }
        todo := todo - {code};
      }
      return Done(false), 0;
    }

    // -------------------------------------------------------------- the stages of `execute`

    /** Visit the affected pairs in inventory order: pause, refresh or restore each of them. */
    method VisitPairs(stage: nat, rebroadcast: bool) returns (o: Outcome<()>)
      requires Live() && PairStage(stage) && At(site.View(), stage, 0)
      requires stage == RESTORE_STAGE ==> HasPassed(site.log)
      modifies this, site
      ensures Kept(old(site.View()), site.View())
      ensures o.Done? ==> Live() && At(site.View(), stage + 1, 0)
      ensures o.Stop? ==> Accounted(o.why, site.View(), site.life)
      ensures ListingEntry(site.disk) == old(ListingEntry(site.disk))
      ensures stage != RESTORE_STAGE ==> RestoreView(site.disk) == old(RestoreView(site.disk))
    {
      hide RestoreView, Accounted, ListingEntry, WorldOk, At, Kept, InventoryOk, WellShaped;
      ghost var start := site.View();
      KeptSelf(start);
      var markets := state.value.inv.markets;
      for i := 0 to |markets|
        invariant Live() && Kept(start, site.View()) && state.value.inv.markets == markets
        invariant At(site.View(), stage, i) && ListingEntry(site.disk) == ListingEntry(start.disk)
        invariant stage != RESTORE_STAGE ==> RestoreView(site.disk) == RestoreView(start.disk)
        invariant stage == RESTORE_STAGE ==> HasPassed(site.log)
      {
        ghost var before := site.View();
        if markets[i].affected {
          o := VisitPair(stage, i, rebroadcast);
          KeptTrans(start, before, site.View());
          if o.Stop? {
            return;
          }
          PassedKept(before, site.View());
        } else {
          JournalFacts(before);
          PairSkip(before, stage, i);
        }
      }
      JournalFacts(site.View());
      StagePassed(site.View(), stage);
      return Done(());
    }

    method VisitPair(stage: nat, i: nat, rebroadcast: bool) returns (o: Outcome<()>)
      requires Live() && PairStage(stage) && At(site.View(), stage, i)
      requires i < |state.value.inv.markets| && state.value.inv.markets[i].affected
      requires stage == RESTORE_STAGE ==> HasPassed(site.log)
      modifies this, site
      ensures Kept(old(site.View()), site.View())
      ensures o.Done? ==> Live() && At(site.View(), stage, i + 1)
      ensures o.Stop? ==> Accounted(o.why, site.View(), site.life)
      ensures ListingEntry(site.disk) == old(ListingEntry(site.disk))
      ensures stage != RESTORE_STAGE ==> RestoreView(site.disk) == old(RestoreView(site.disk))
    {
      hide RestoreView, Accounted, ListingEntry, WorldOk, At, Kept, Required, Performs, InventoryOk, WellShaped;
      JournalFacts(site.View());
      PairOpAt(state.value, stage, i);
      var market := state.value.inv.markets[i];
      o := Step(PairOp(stage, market.item.address), PairAction(stage, market), rebroadcast);
    }

    /** Upload and migrate one of the core contracts, or note the code it runs. */
    method CoreRole(role: Role, rebroadcast: bool) returns (o: Outcome<()>)
      requires Live() && role in CORE_ROLES && At(site.View(), StoreStage(role), 0)
      modifies this, site
      ensures Kept(old(site.View()), site.View())
      ensures o.Done? ==> Live() && At(site.View(), StoreStage(role) + 2, 0)
      ensures o.Stop? ==> Accounted(o.why, site.View(), site.life)
      ensures ListingEntry(site.disk) == old(ListingEntry(site.disk))
      ensures RestoreView(site.disk) == old(RestoreView(site.disk))
    {
      hide RestoreView, WorldOk, At, Kept, InventoryOk, WellShaped;
      ghost var start := site.View();
      JournalFacts(start);
      KeptSelf(start);
      if role !in state.value.inv.instances {
        AbsentRole(start, role);
        return Done(());
      }
      var item := state.value.inv.instances[role];
      if item.needsMigrate {
        o := MigrateCore(item, rebroadcast);
        return;
      }
      CurrentCode(start, item);
      o := SettleCode(role, item.code);
      if o.Stop? {
        return;
      }
      ghost var noted := site.View();
      AtLater(start, noted, StoreStage(role), 0);
      StoreStagePassed(noted, role);
      MigrateSkip(noted, item);
      StagePassed(noted, StoreStage(role) + 1);
    }

    method MigrateCore(item: Item, rebroadcast: bool) returns (o: Outcome<()>)
      requires Live() && item.role in CORE_ROLES && At(site.View(), StoreStage(item.role), 0)
      requires item.role in state.value.inv.instances && state.value.inv.instances[item.role] == item
               && item.needsMigrate
      modifies this, site
      ensures Kept(old(site.View()), site.View())
      ensures o.Done? ==> Live() && At(site.View(), StoreStage(item.role) + 2, 0)
      ensures o.Stop? ==> Accounted(o.why, site.View(), site.life)
      ensures ListingEntry(site.disk) == old(ListingEntry(site.disk))
      ensures RestoreView(site.disk) == old(RestoreView(site.disk))
    {
      hide RestoreView, Accounted, ListingEntry, WorldOk, At, Kept, InventoryOk, WellShaped, Required, Performs;
      ghost var start := site.View();
      JournalFacts(start);
      CoreUpload(start, item);
      assert IsItem(state.value.inv, item);
      var code :- StoreRole(item.role, rebroadcast);
      ghost var stored := site.View();
      JournalKept(start, stored);
      MigrationDue(state.value, item);
      o := Step(ItemMigrate(item), MigrateTo(item.address, code, item.admin), rebroadcast);
      KeptTrans(start, stored, site.View());
      if o.Done? {
        JournalKept(start, site.View());
        JournalFacts(site.View());
        StagePassed(site.View(), StoreStage(item.role) + 1);
      }
    }

    method CoreRoles(rebroadcast: bool) returns (o: Outcome<()>)
      requires Live() && At(site.View(), 1, 0)
      modifies this, site
      ensures Kept(old(site.View()), site.View())
      ensures o.Done? ==> Live() && At(site.View(), 9, 0)
      ensures o.Stop? ==> Accounted(o.why, site.View(), site.life)
      ensures ListingEntry(site.disk) == old(ListingEntry(site.disk))
      ensures RestoreView(site.disk) == old(RestoreView(site.disk))
    {
      hide RestoreView, Accounted, ListingEntry, WorldOk, At, Kept, InventoryOk, WellShaped;
      ghost var start := site.View();
      KeptSelf(start);
      for k := 0 to |CORE_ROLES|
        invariant Live() && Kept(start, site.View()) && At(site.View(), 1 + 2 * k, 0)
                  && ListingEntry(site.disk) == ListingEntry(start.disk)
        invariant RestoreView(site.disk) == RestoreView(start.disk)
      {
        ghost var before := site.View();
        o := CoreRole(CORE_ROLES[k], rebroadcast);
        KeptTrans(start, before, site.View());
        if o.Stop? {
          return;
        }
      }
      return Done(());
    }

    /** Migrate every token or pair that needs it, in inventory order. */
    method MigrateAll(role: Role, rebroadcast: bool) returns (o: Outcome<()>)
      requires Live() && (role == Token || role == Pair) && role in state.value.codes
      requires At(site.View(), ListedStage(role), 0)
      modifies this, site
      ensures Kept(old(site.View()), site.View())
      ensures o.Done? ==> Live() && At(site.View(), ListedStage(role) + 1, 0)
      ensures o.Stop? ==> Accounted(o.why, site.View(), site.life)
      ensures ListingEntry(site.disk) == old(ListingEntry(site.disk))
      ensures RestoreView(site.disk) == old(RestoreView(site.disk))
    {
      hide RestoreView, Accounted, ListingEntry, WorldOk, At, Kept, InventoryOk, WellShaped, IsItem, ListedItems;
      ghost var start := site.View();
      KeptSelf(start);
      var items := ListedItems(state.value.inv, role);
      for i := 0 to |items|
        invariant Live() && Kept(start, site.View()) && state.value.inv == start.disk.value.inv
                  && role in state.value.codes
        invariant At(site.View(), ListedStage(role), i) && ListingEntry(site.disk) == ListingEntry(start.disk)
        invariant RestoreView(site.disk) == RestoreView(start.disk)
      {
        ghost var before := site.View();
        if items[i].needsMigrate {
          o := MigrateListed(role, i, rebroadcast);
          KeptTrans(start, before, site.View());
          if o.Stop? {
            return;
          }
          CodeKeptThroughout(before, site.View(), role);
        } else {
          SkipListed(before, role, i);
        }
      }
      ListedPassed(site.View(), role);
      return Done(());
    }

    method MigrateListed(role: Role, i: nat, rebroadcast: bool) returns (o: Outcome<()>)
      requires Live() && (role == Token || role == Pair) && role in state.value.codes
      requires i < |ListedItems(state.value.inv, role)| && ListedItems(state.value.inv, role)[i].needsMigrate
      requires At(site.View(), ListedStage(role), i)
      modifies this, site
      ensures Kept(old(site.View()), site.View())
      ensures o.Done? ==> Live() && At(site.View(), ListedStage(role), i + 1)
      ensures o.Stop? ==> Accounted(o.why, site.View(), site.life)
      ensures ListingEntry(site.disk) == old(ListingEntry(site.disk))
      ensures RestoreView(site.disk) == old(RestoreView(site.disk))
    {
      hide RestoreView, Accounted, ListingEntry, WorldOk, At, Kept, InventoryOk, WellShaped, IsItem, Required, Performs,
           ListedItems;
      JournalFacts(site.View());
      ItemAt(state.value.inv, role, i);
      var item := ListedItems(state.value.inv, role)[i];
      MigrationDue(state.value, item);
      o := Step(ItemMigrate(item), MigrateTo(item.address, state.value.codes[role], item.admin), rebroadcast);
    }

    /** List the token code unless the factory already lists it. */
    method ListToken(rebroadcast: bool) returns (o: Outcome<()>, listed: bool)
      requires Live() && Token in state.value.codes && At(site.View(), WHITELIST_STAGE, 0)
      modifies this, site
      ensures Kept(old(site.View()), site.View())
      ensures o.Done? ==> Live() && At(site.View(), WHITELIST_STAGE + 1, 0)
      ensures o.Done? && !listed ==> Receipted(state.value, Whitelist)
      ensures o.Done? && listed ==> state == old(state)
      ensures o.Stop? ==> Accounted(o.why, site.View(), site.life)
      ensures !site.foreign && old(ListingCut(site.View())) ==> ListingEntry(site.disk) == old(ListingEntry(site.disk))
      ensures RestoreView(site.disk) == old(RestoreView(site.disk))
    {
      hide RestoreView, WorldOk, At, Kept, Due, Settles, InventoryOk, WellShaped;
      ghost var start := site.View();
      site.Elapse();
      WaitedKept(start, site.View());
      ghost var asked := site.View();
      AtLater(start, asked, WHITELIST_STAGE, 0);
      JournalFacts(asked);
      if !site.foreign {
        ListedExactly(asked);
        if ListingCut(start) {
          CutStays(start, asked);
          CutIsListed(asked);
        }
      }
      listed := state.value.codes[Token] in site.chain.facts.listed;
      if listed {
        ListingPassed(asked);
        return Done(()), listed;
      }
      var action := ListCode(state.value.codes[Token]);
      DueAt(asked, Whitelist, action);
      var answer := Operation(Whitelist, action, rebroadcast);
      KeptDisk(asked, site.View());
      RestoresUntouched(asked.disk.value, site.disk.value, Whitelist);
      KeptTrans(start, asked, site.View());
      PassedKept(asked, site.View());
      if answer.Stop? {
        return Stop(answer.why), listed;
      }
      ghost var done := site.View();
      SettledReceipt(asked.disk.value, state.value, Whitelist);
      JournalFacts(done);
      ReceiptCovers(done);
      AtLater(asked, done, WHITELIST_STAGE, 0);
      ListingPassed(done);
      o := Done(());
    }

    /** Settle the token code, then make sure it is listed. */
    method TokenStages(rebroadcast: bool) returns (o: Outcome<()>)
      requires Live() && At(site.View(), StoreStage(Token), 0)
      modifies this, site
      ensures Kept(old(site.View()), site.View())
      ensures o.Done? ==> Live() && Token in state.value.codes && At(site.View(), WHITELIST_STAGE + 1, 0)
      ensures o.Stop? ==> Accounted(o.why, site.View(), site.life)
      ensures !site.foreign && old(ListingCut(site.View())) ==> ListingEntry(site.disk) == old(ListingEntry(site.disk))
      ensures RestoreView(site.disk) == old(RestoreView(site.disk))
    {
      hide RestoreView, WorldOk, At, Kept, InventoryOk, WellShaped;
      ghost var start := site.View();
      JournalFacts(start);
      CoreArtifacts(start);
      var code :- Code(Token, rebroadcast);
      ghost var stored := site.View();
      JournalFacts(stored);
      SettledStore(stored, Token);
      SettledFrom(stored, Token);
      SameCode(state.value, site.chain.facts, Token);
      o := SettleCode(Token, code);
      KeptTrans(start, stored, site.View());
      if o.Stop? {
        return;
      }
      ghost var settled := site.View();
      AtLater(stored, settled, WHITELIST_STAGE, 0);
      var listed;
      if ListingCut(start) { CutStays(start, settled); }
      o, listed := ListToken(rebroadcast);
      CodeKeptThroughout(settled, site.View(), Token);
      KeptTrans(start, settled, site.View());
    }

    /** Settle the launcher's auto-liquidity code, if it has one, and point the launcher at the new code. */
    method LauncherStages(rebroadcast: bool) returns (o: Outcome<()>)
      requires Live() && Token in state.value.codes && At(site.View(), StoreStage(Autolp), 0)
      modifies this, site
      ensures Kept(old(site.View()), site.View())
      ensures o.Done? ==> Live() && At(site.View(), StoreStage(Pair), 0)
      ensures o.Stop? ==> Accounted(o.why, site.View(), site.life)
      ensures ListingEntry(site.disk) == old(ListingEntry(site.disk))
      ensures RestoreView(site.disk) == old(RestoreView(site.disk))
    {
      hide RestoreView, Accounted, ListingEntry, WorldOk, At, Kept, InventoryOk, WellShaped, Required, Performs;
      ghost var start := site.View();
      JournalFacts(start);
      KeptSelf(start);
      var autolp: Option<CodeId> := None;
      if Autolp in state.value.identity.artifacts {
        var code :- Code(Autolp, rebroadcast);
        autolp := Some(code);
      } else {
        NoAutolp(start);
      }
      ghost var settled := site.View();
      JournalKept(start, settled);
      CodeKeptThroughout(start, settled, Token);
      o := PointLauncher(autolp, rebroadcast);
      KeptTrans(start, settled, site.View());
    }

    method PointLauncher(autolp: Option<CodeId>, rebroadcast: bool) returns (o: Outcome<()>)
      requires Live() && Token in state.value.codes && At(site.View(), 13, 0)
      requires if Autolp in state.value.identity.artifacts
               then Autolp in state.value.codes && autolp == Some(state.value.codes[Autolp])
               else autolp == None
      modifies this, site
      ensures Kept(old(site.View()), site.View())
      ensures o.Done? ==> Live() && At(site.View(), StoreStage(Pair), 0)
      ensures o.Stop? ==> Accounted(o.why, site.View(), site.life)
      ensures ListingEntry(site.disk) == old(ListingEntry(site.disk))
      ensures RestoreView(site.disk) == old(RestoreView(site.disk))
    {
      hide RestoreView, Accounted, ListingEntry, WorldOk, At, Kept, InventoryOk, WellShaped, Required, Performs;
      LauncherRequired(state.value, autolp);
      o := Step(LauncherTemplate, SetLauncher(state.value.codes[Token], autolp), rebroadcast);
      if o.Done? {
        JournalFacts(site.View());
        StagePassed(site.View(), 13);
      }
    }

    /** Settle the pair code and point the factory at it. */
    method PairTemplateStages(rebroadcast: bool) returns (o: Outcome<()>)
      requires Live() && At(site.View(), StoreStage(Pair), 0)
      modifies this, site
      ensures Kept(old(site.View()), site.View())
      ensures o.Done? ==> Live() && Pair in state.value.codes && At(site.View(), 16, 0)
      ensures o.Stop? ==> Accounted(o.why, site.View(), site.life)
      ensures ListingEntry(site.disk) == old(ListingEntry(site.disk))
      ensures RestoreView(site.disk) == old(RestoreView(site.disk))
    {
      hide RestoreView, Accounted, ListingEntry, WorldOk, At, Kept, InventoryOk, WellShaped, Required, Performs;
      ghost var start := site.View();
      JournalFacts(start);
      CoreArtifacts(start);
      var code :- Code(Pair, rebroadcast);
      ghost var settled := site.View();
      o := PointFactory(code, rebroadcast);
      KeptTrans(start, settled, site.View());
    }

    /** The factory template is changed only if it differs. */
    method PointFactory(code: CodeId, rebroadcast: bool) returns (o: Outcome<()>)
      requires Live() && Pair in state.value.codes && state.value.codes[Pair] == code && At(site.View(), 15, 0)
      modifies this, site
      ensures Kept(old(site.View()), site.View())
      ensures o.Done? ==> Live() && Pair in state.value.codes && At(site.View(), 16, 0)
      ensures o.Stop? ==> Accounted(o.why, site.View(), site.life)
      ensures ListingEntry(site.disk) == old(ListingEntry(site.disk))
      ensures RestoreView(site.disk) == old(RestoreView(site.disk))
    {
      hide RestoreView, Accounted, ListingEntry, WorldOk, At, Kept, InventoryOk, WellShaped, Required, Performs;
      ghost var start := site.View();
      JournalFacts(start);
      KeptSelf(start);
      if code == state.value.inv.pairTemplate {
        SamePairTemplate(start);
        return Done(());
      }
      PairTemplateRequired(state.value);
      o := Step(PairTemplate, SetPairTemplate(code), rebroadcast);
      if o.Done? {
        CodeKeptThroughout(start, site.View(), Pair);
        JournalFacts(site.View());
        StagePassed(site.View(), 15);
      }
    }

    // -------------------------------------------------------------- `verify`, `execute` and `finalize`

    /** The proofs a process asks of a saved journal before it goes on: they never fail. */
    method CheckProofs() returns (ok: bool)
      requires Live()
      ensures ok
    {
      hide WorldOk;
      var ops := state.value.ops;
      var todo := ops.Keys;
      while todo != {}
        invariant todo <= ops.Keys
        decreases todo
      {
        var n :| n in todo;
        var op := ops[n];
        EntryProven(site.View(), n);
        if op.signed.Some? && op.signed.value.fee == 0 {
          return false;
        }
        if op.receipt.Some? {
          var tx := op.receipt.value.tx;
          if !op.receipt.value.ok || op.signed != Some(tx) || tx !in site.chain.included
            || !site.chain.included[tx].ok {
            return false;
          }
        }
        todo := todo - {n};
      }
      var total := SavedFees();
      FeesBounded(site.View());
      return total <= state.value.identity.cap;
    }

    /** Compare the chain with the journal; a passed comparison is recorded once all work is done. */
    method Verify() returns (o: Outcome<()>)
      requires Live()
      modifies site
      ensures Kept(old(site.View()), site.View()) && Live()
      ensures o == Stop(Drifted) <==> !LiveBindings(state.value, site.chain.facts)
      ensures o == Stop(NotCutOver) <==>
              LiveBindings(state.value, site.chain.facts) && !CutOver(state.value, site.chain.facts)
      ensures o.Done? && WorkDone(state.value) ==> HasPassed(site.log)
      ensures o.Stop? ==> o.why.Drifted? || o.why.NotCutOver?
      ensures !site.foreign && WorkDone(state.value) ==>
                (o == Stop(Drifted) <==> !state.value.status.Complete? && UnsavedRestore(state.value, site.chain))
      ensures !site.foreign && WorkDone(state.value) ==>
                (o.Done? <==>
                 (state.value.status.Complete? || !UnsavedRestore(state.value, site.chain)) && Verifiable(site.View()))
      ensures old(UnsavedRestore(state.value, site.chain)) ==> UnsavedRestore(state.value, site.chain)
      ensures o.Stop? ==> site.log == old(site.log)
    {
      hide WorldOk, LiveBindings, CutOver, WorkDone, OwnDrift, UnsavedRestore, RolloutCutover.TokensListed,
           RolloutCutover.OthersPinned, RolloutCutover.ReviewedCapable;
      ghost var start := site.View();
      site.Elapse();
      WaitedKept(start, site.View());
      if UnsavedRestore(start.disk.value, start.chain) {
        RolloutSafety.UnsavedStays(start, site.View());
      }
      var proven := CheckProofs();
      assert proven;
      if !site.foreign && WorkDone(state.value) {
        VerifyExact(site.View());
        RolloutCutover.CutOverExactly(site.View());
      }
      if !LiveBindings(state.value, site.chain.facts) {
        return Stop(Drifted);
      }
      if !CutOver(state.value, site.chain.facts) {
        return Stop(NotCutOver);
      }
      if WorkDone(state.value) {
        ghost var passed := site.View();
        PassDue(passed);
        site.Pass();
        KeptTrans(start, passed, site.View());
      }
      return Done(());
    }

    method SetStatus(s: Status) returns (o: Outcome<()>)
      requires Live() && StatusOk(state.value.(status := s))
      modifies this, site
      ensures Kept(old(site.View()), site.View())
      ensures o.Done? ==> Live() && state == Some(old(state).value.(status := s)) && site.log == old(site.log)
      ensures o.Stop? ==> o.why.Killed? && site.life == 0
      ensures ListingEntry(site.disk) == old(ListingEntry(site.disk))
      ensures site.disk == old(site.disk) || site.disk == Some(old(state).value.(status := s))
    {
      hide WorldOk, StatusOk;
      SaveStatus(site.View(), s);
      o := SaveState(state.value.(status := s));
    }

    /** Resume a journal of the same inputs, or take the inventory and write the first journal. */
    method Prepare(listing: Listing) returns (o: Outcome<()>)
      requires site.Ok() && state == site.disk
      modifies this, site
      ensures site.Ok()
      ensures old(site.disk).Some? ==> Kept(old(site.View()), site.View()) && site.disk == old(site.disk)
      ensures o.Done? ==> Live() && state.value.identity == identity
      ensures o.Done? && old(site.disk).None? ==>
              state.value == FirstJournal(identity, state.value.inv) && !site.foreign
      ensures o.Done? && old(site.disk).None? ==>
                Snapshot(identity, site.chain.facts, state.value.inv) && Lists(state.value.inv, listing)
      ensures o == Stop(WrongInputs) <==> old(site.disk).Some? && old(site.disk).value.identity != identity
      ensures o.Stop? ==>
              (o.why.Killed? && site.life == 0) || o.why.WrongInputs? || (o.why.Unplannable? && old(site.disk).None?)
      ensures old(site.disk).Some? && old(site.disk).value.identity == identity ==> o.Done?
    {
      hide WorldOk, Snapshot, Lists;
      ghost var start := site.View();
      site.Elapse();
      if state.Some? {
        WaitedKept(start, site.View());
        if state.value.identity != identity {
          return Stop(WrongInputs);
        }
        var proven := CheckProofs();
        assert proven;
        return Done(());
      }
      if !WellIdentified(identity) {
        return Stop(Unplannable);
      }
      var inventory := TakeInventory(identity, site.chain.facts, listing);
      if inventory.None? {
        return Stop(Unplannable);
      }
      FirstSaveOk(site.View(), identity, inventory.value);
      state := Some(FirstJournal(identity, inventory.value));
      ghost var untouched := site.View();
      var alive := site.Save(FirstJournal(identity, inventory.value));
      if !alive {
        return Stop(Killed);
      }
      site.Baseline();
      assert site.View() == untouched.(disk := state, foreign := false,
                                       chain := untouched.chain.(planned := untouched.chain.facts));
      return Done(());
    }

    /** All contract work, in order, up to the paused cut-over point. */
    method Execute(rebroadcast: bool) returns (o: Outcome<()>)
      requires Live()
      modifies this, site
      ensures Kept(old(site.View()), site.View())
      ensures o.Done? ==> Live() && state.value.status.ReadyPaused? && HasPassed(site.log)
      ensures old(state).value.status.Complete? ==> o == Stop(WrongStatus) && site.View() == old(site.View())
      ensures o.Stop? ==> Stops(Mode.Execute, o.why, site.View(), site.life)
      ensures o == Stop(WrongStatus) ==> site.disk == old(site.disk)
      ensures !site.foreign && old(ListingCut(site.View())) ==> ListingEntry(site.disk) == old(ListingEntry(site.disk))
      ensures RestoreView(site.disk) == old(RestoreView(site.disk))
      ensures !site.foreign && old(RestoreCut(site.View())) ==> o.Stop?
    {
      hide WorldOk, Kept, At, InventoryOk, WellShaped, StatusOk, WorkDone, OwnDrift, UnsavedRestore, ListingEntry,
           RestoreView, ListingCut, RestoreCut, StopsVerify;
      ghost var start := site.View();
      KeptSelf(start);
      if state.value.status.Complete? {
        AlreadyComplete(start);
        return Stop(WrongStatus);
      }
      ExecutingOk(state.value);
      RestoresSame(state.value, state.value.(status := Executing));
      ListingSame(state.value, state.value.(status := Executing));
      var _ :- SetStatus(Executing);
      ghost var begun := site.View();
      if ListingCut(start) { CutStays(start, begun); }
      o := Work(rebroadcast);
      KeptTrans(start, begun, site.View());
      PassedKept(begun, site.View());
      if o.Stop? {
        return;
      }
      ghost var worked := site.View();
      DoneAt(worked);
      if RestoreCut(start) { RestoreCutStays(start, worked); }
      KeptDisk(start, worked);
      StillRunning(start, worked);
      o := Certify();
      KeptTrans(start, worked, site.View());
      PassedKept(worked, site.View());
    }

    /** The verification that ends `execute`, and its mark in the journal. */
    method Certify() returns (o: Outcome<()>)
      requires Live() && WorkDone(state.value) && !state.value.status.Complete?
      modifies this, site
      ensures Kept(old(site.View()), site.View())
      ensures o.Done? ==> Live() && state.value.status.ReadyPaused? && HasPassed(site.log)
      ensures o.Stop? ==>
                (StopsVerify(o.why, site.View()) && (o.why.Drifted? || o.why.NotCutOver?))
                  || (o.why.Killed? && site.life == 0)
      ensures ListingEntry(site.disk) == old(ListingEntry(site.disk))
              && RestoreView(site.disk) == old(RestoreView(site.disk))
      ensures !site.foreign && old(RestoreCut(site.View())) ==> o.Stop?
    {
      hide WorldOk, Kept, StatusOk, WorkDone, OwnDrift, UnsavedRestore, Verifiable, ListingEntry, RestoreView;
      ghost var start := site.View();
      o := Verify();
      if o.Stop? {
        return;
      }
      ghost var passed := site.View();
      JournalKept(start, passed);
      KeptDisk(start, passed);
      JournalStatus(passed);
      StatusReady(state.value, ReadyPaused);
      RestoresSame(state.value, state.value.(status := ReadyPaused));
      ListingSame(state.value, state.value.(status := ReadyPaused));
      o := SetStatus(ReadyPaused);
      KeptTrans(start, passed, site.View());
      PassedKept(passed, site.View());
    }

    /** The stages of `execute` before its verification. */
    method Work(rebroadcast: bool) returns (o: Outcome<()>)
      requires Live()
      modifies this, site
      ensures Kept(old(site.View()), site.View())
      ensures o.Done? ==> Live() && At(site.View(), RESTORE_STAGE, 0)
      ensures o.Stop? ==> Accounted(o.why, site.View(), site.life)
      ensures !site.foreign && old(ListingCut(site.View())) ==> ListingEntry(site.disk) == old(ListingEntry(site.disk))
      ensures RestoreView(site.disk) == old(RestoreView(site.disk))
    {
      hide RestoreView, Accounted, ListingEntry, WorldOk, Kept, At, InventoryOk, WellShaped;
      ghost var start := site.View();
      StartAt(start);
      var _ :- VisitPairs(0, rebroadcast);
      ghost var paused := site.View();
      o := CoreRoles(rebroadcast);
      KeptTrans(start, paused, site.View());
      if o.Stop? {
        return;
      }
      ghost var moved := site.View();
      if ListingCut(start) { CutStays(start, moved); }
      o := TokenStages(rebroadcast);
      KeptTrans(start, moved, site.View());
      if o.Stop? {
        return;
      }
      ghost var listed := site.View();
      o := MigrateAll(Token, rebroadcast);
      KeptTrans(start, listed, site.View());
      PassedKept(listed, site.View());
      if o.Stop? {
        return;
      }
      ghost var migrated := site.View();
      CodeKeptThroughout(listed, migrated, Token);
      o := LauncherStages(rebroadcast);
      KeptTrans(start, migrated, site.View());
      PassedKept(migrated, site.View());
      if o.Stop? {
        return;
      }
      ghost var launched := site.View();
      o := PairWork(rebroadcast);
      KeptTrans(start, launched, site.View());
      PassedKept(launched, site.View());
    }

    method PairWork(rebroadcast: bool) returns (o: Outcome<()>)
      requires Live() && At(site.View(), StoreStage(Pair), 0)
      modifies this, site
      ensures Kept(old(site.View()), site.View())
      ensures o.Done? ==> Live() && At(site.View(), RESTORE_STAGE, 0)
      ensures o.Stop? ==> Accounted(o.why, site.View(), site.life)
      ensures ListingEntry(site.disk) == old(ListingEntry(site.disk))
      ensures RestoreView(site.disk) == old(RestoreView(site.disk))
    {
      hide RestoreView, Accounted, ListingEntry, WorldOk, Kept, At, InventoryOk, WellShaped;
      ghost var start := site.View();
      var _ :- PairTemplateStages(rebroadcast);
      ghost var pointed := site.View();
      o := MigrateAll(Pair, rebroadcast);
      KeptTrans(start, pointed, site.View());
      if o.Stop? {
        return;
      }
      ghost var migrated := site.View();
      o := VisitPairs(17, rebroadcast);
      KeptTrans(start, migrated, site.View());
    }

    /** Verify once more, then give every affected pair its inventoried pause flag back. */
    method Finalize(rebroadcast: bool) returns (o: Outcome<()>)
      requires Live()
      modifies this, site
      ensures Kept(old(site.View()), site.View())
      ensures o.Done? ==> Live() && state.value.status.Complete? && HasPassed(site.log)
      ensures old(state).value.status.ReadyPaused? && old(UnsavedRestore(state.value, site.chain)) ==>
                o == Stop(Drifted) || site.foreign
      ensures o.Stop? ==> Stops(Mode.Finalize, o.why, site.View(), site.life)
      ensures o == Stop(WrongStatus) ==> site.disk == old(site.disk)
      ensures ListingEntry(site.disk) == old(ListingEntry(site.disk))
      ensures !site.foreign && old(RestoreCut(site.View())) ==> o.Stop? && site.disk == old(site.disk)
    {
      hide WorldOk, Kept, At, InventoryOk, WellShaped, StatusOk, WorkDone, OwnDrift, UnsavedRestore;
      ghost var start := site.View();
      KeptSelf(start);
      if !(state.value.status.ReadyPaused? || state.value.status.Complete?) {
        return Stop(WrongStatus);
      }
      ReadyToRestore(start);
      o := Verify();
      if o.Stop? {
        return;
      }
      ghost var passed := site.View();
      ReadyToRestore(passed);
      o := VisitPairs(RESTORE_STAGE, rebroadcast);
      KeptTrans(start, passed, site.View());
      PassedKept(passed, site.View());
      if o.Stop? {
        return;
      }
      ghost var restored := site.View();
      JournalStatus(restored);
      RestoredAt(restored);
      StatusReady(state.value, Complete);
      o := SetStatus(Complete);
      KeptTrans(start, restored, site.View());
      PassedKept(restored, site.View());
    }
  }

  // ---------------------------------------------------------------- any number of runs

  datatype Mode = Plan | Execute | Verify | Finalize

  /** One start of the tool: its inputs, and the effect after which it is cut off. */
  datatype Invocation = Invocation(mode: Mode, identity: Identity, listing: Listing, rebroadcast: bool, effects: nat)

  /** One process, from reading the journal to its end. */
  method Invoke(site: Site, run: Invocation) returns (o: Outcome<()>)
    requires site.Ok()
    modifies site
    ensures site.Ok()
    ensures old(site.disk).Some? ==> Kept(old(site.View()), site.View())
    ensures o.Done? ==> site.disk.Some?
    ensures o.Done? && run.mode.Execute? ==> site.disk.value.status.ReadyPaused?
    ensures o.Done? && run.mode.Finalize? ==> site.disk.value.status.Complete?
    ensures o == Stop(WrongInputs) <==> old(site.disk).Some? && old(site.disk).value.identity != run.identity
    ensures o.Stop? ==>
              || Stops(run.mode, o.why, site.View(), site.life)
              || o.why.WrongInputs? || (o.why.Unplannable? && old(site.disk).None?)
    ensures o == Stop(WrongStatus) && old(site.disk).Some? ==> site.disk == old(site.disk)
    ensures !site.foreign && old(ListingCut(site.View())) ==> ListingCut(site.View())
    ensures !site.foreign && old(RestoreCut(site.View())) ==>
              RestoreCut(site.View()) && (run.mode.Execute? || run.mode.Finalize? ==> o.Stop?)
  {
    hide WorldOk, Kept, OwnDrift, UnsavedRestore, Snapshot, Lists, FirstJournal, StopsVerify, Accounted, ListingCut,
         ListingEntry, RestoreCut, RestoreView, WorkDone;
    site.Restart(run.effects);
    var rollout := new Rollout(site, run.identity);
    ghost var start := site.View();
    var prepared := rollout.Prepare(run.listing);
    ghost var ready := site.View();
    ResumeKeeps(start, ready);
    CutIsThere(start);
    if prepared.Stop? {
      KilledAccounted(prepared.why, ready, site.life);
      return prepared;
    }
    o := RunMode(rollout, run.mode, run.rebroadcast);
    KeptDisk(ready, site.View());
    PassedKept(ready, site.View());
    if start.disk.Some? {
      KeptTrans(start, ready, site.View());
    }
    if o.Stop? { StopsLater(run.mode, o.why, site.View(), site.life); }
  }

  /** These two reasons belong to `Prepare` alone. */
  lemma StopsLater(mode: Mode, why: Why, w: World, life: nat)
    requires Stops(mode, why, w, life)
    ensures !why.WrongInputs? && !why.Unplannable?
  {
  }

  /** What the tool does with a journal it may go on with, and the verification before the hand-over. */
  method RunMode(rollout: Rollout, mode: Mode, rebroadcast: bool) returns (o: Outcome<()>)
    requires rollout.Live()
    modifies rollout, rollout.site
    ensures Kept(old(rollout.site.View()), rollout.site.View())
    ensures o.Done? && mode.Execute? ==> rollout.site.disk.value.status.ReadyPaused?
    ensures o.Done? && mode.Finalize? ==> rollout.site.disk.value.status.Complete?
    ensures o.Stop? ==> Stops(mode, o.why, rollout.site.View(), rollout.site.life)
    ensures o == Stop(WrongStatus) ==> rollout.site.disk == old(rollout.site.disk)
    ensures !rollout.site.foreign && old(ListingCut(rollout.site.View())) ==> ListingCut(rollout.site.View())
    ensures !rollout.site.foreign && old(RestoreCut(rollout.site.View())) ==>
              RestoreCut(rollout.site.View()) && (mode.Execute? || mode.Finalize? ==> o.Stop?)
  {
    hide WorldOk, Kept, OwnDrift, UnsavedRestore, StopsVerify, Accounted, ListingCut, ListingEntry, RestoreCut,
         RestoreView, WorkDone, Verifiable;
    var site := rollout.site;
    ghost var start := site.View();
    KeptSelf(start);
    match mode {
      case Plan => o := Done(());
      case Execute => o := rollout.Execute(rebroadcast);
      case Verify => o := rollout.Verify();
      case Finalize => o := rollout.Finalize(rebroadcast);
    }
    ghost var run := site.View();
    KeptDisk(start, run);
    if !site.foreign && ListingCut(start) { CutStays(start, run); }
    if !site.foreign && RestoreCut(start) { RestoreCutStays(start, run); }
    if o.Done? && (rollout.state.value.status.ReadyPaused? || rollout.state.value.status.Complete?) {
      o := Handoff(rollout);
      KeptTrans(start, run, site.View());
      PassedKept(run, site.View());
      if !site.foreign && ListingCut(run) { CutStays(run, site.View()); }
      if !site.foreign && RestoreCut(run) { RestoreCutStays(run, site.View()); }
    }
  }

  lemma ResumeKeeps(u: World, v: World)
    requires u.disk.Some? ==> Kept(u, v) && v.disk == u.disk
    ensures ListingCut(u) ==> ListingCut(v)
    ensures RestoreCut(u) ==> RestoreCut(v)
  {
    if ListingCut(u) { CutStays(u, v); }
    if RestoreCut(u) { RestoreCutStays(u, v); }
  }

  lemma KilledAccounted(why: Why, w: World, life: nat)
    ensures why.Killed? && life == 0 ==> Accounted(why, w, life)
  {
  }

  /** The verification before the deployment settings are handed over. */
  method Handoff(rollout: Rollout) returns (o: Outcome<()>)
    requires rollout.Live()
    requires rollout.state.value.status.ReadyPaused? || rollout.state.value.status.Complete?
    modifies rollout.site
    ensures Kept(old(rollout.site.View()), rollout.site.View()) && rollout.Live()
    ensures o.Stop? ==> StopsVerify(o.why, rollout.site.View()) && (o.why.Drifted? || o.why.NotCutOver?)
  {
    hide WorldOk, Kept, OwnDrift, UnsavedRestore, WorkDone, Verifiable;
    o := rollout.Verify();
    KeptDisk(old(rollout.site.View()), rollout.site.View());
    ReadyToRestore(rollout.site.View());
  }

  /** The causes from outside that can keep a resumed rollout from its end. */
  predicate Outside(why: Why) {
    why.Killed? || why.PendingUnknown? || why.Failed? || why.SignerRefused? || why.TransportRefused? || why.OverCap?
      || why.UnknownCode?
  }

  /**
   `execute` and then `finalize` with the inputs of the journal. While nobody else acts, nothing but the
   causes from outside keeps them from completing it, except an inventory that asks for a migration in place,
   a token that stays unlisted, or an included restore whose receipt was not saved.
   */
  method Resume(site: Site, first: Invocation, second: Invocation) returns (o: Outcome<()>)
    requires site.Ok() && site.disk.Some? && first.mode.Execute? && second.mode.Finalize?
    requires first.identity == second.identity == site.disk.value.identity
    modifies site
    ensures site.Ok() && site.disk.Some? && Kept(old(site.View()), site.View())
    ensures o.Done? ==> site.disk.value.status.Complete?
    ensures o.Stop? && !site.foreign && !Outside(o.why) ==>
              || (o.why.WrongStatus? && old(site.disk).value.status.Complete?)
              || (o.why.Drifted? && UnsavedRestore(site.disk.value, site.chain))
              || (o.why.Drifted? && exists it :: RolloutSafety.Doomed(site.disk.value, site.chain.facts, it))
              || (o.why.Drifted? && RolloutSafety.MuteRouter(site.disk.value.inv))
              || (o.why.NotCutOver? && !RolloutSafety.PlanVerifies(site.disk.value, site.chain))
  {
    hide WorldOk, Kept, UnsavedRestore, OwnDrift, WorkDone, RolloutSafety.Doomed, RolloutSafety.PlanVerifies,
         RolloutSafety.MuteRouter, Verifiable;
    ghost var start := site.View();
    KeptSelf(start);
    o := Invoke(site, first);
    ghost var executed := site.View();
    JournalKept(start, executed);
    KeptDisk(start, executed);
    if o.Done? {
      o := Invoke(site, second);
      KeptTrans(start, executed, site.View());
      KeptDisk(executed, site.View());
    }
    if o.Stop? && !site.foreign {
      WhyRefused(o.why, site.View());
    }
  }

  lemma WhyRefused(why: Why, w: World)
    requires WorldOk(w) && w.disk.Some? && !w.foreign
    ensures OwnDrift(w.disk.value, w.chain) ==>
              RolloutSafety.MuteRouter(w.disk.value.inv)
              || exists it :: RolloutSafety.Doomed(w.disk.value, w.chain.facts, it)
    ensures WorkDone(w.disk.value) && !Verifiable(w) ==> !RolloutSafety.PlanVerifies(w.disk.value, w.chain)
  {
    hide WorldOk, WorkDone, OwnDrift, RolloutSafety.Doomed, RolloutSafety.MuteRouter, RolloutSafety.SettledListed,
         RolloutCutover.TokensListed, RolloutCutover.OthersPinned, RolloutCutover.ReviewedCapable;
    RolloutSafety.OwnDriftExactly(w);
    if WorkDone(w.disk.value) { RolloutSafety.ListedAtPlanning(w); }
  }

  /**
   Any sequence of starts, each cut off at any effect, with any inclusions and any changes by
   others in between: the invariant holds throughout, and nothing durable is ever lost or replaced.
   (`Prepare` never rejects a journal that a run with the same inputs left behind.)
   Unless somebody else acts, a listing's missed receipt is never saved, and an unsaved restore stays
   unsaved and lets neither `execute` nor `finalize` succeed.
   */
  method Campaign(site: Site, runs: seq<Invocation>) returns (outcomes: seq<Outcome<()>>)
    requires site.Ok()
    modifies site
    ensures site.Ok()
    ensures old(site.disk).Some? ==> Kept(old(site.View()), site.View())
    ensures |outcomes| == |runs|
    ensures runs != [] && outcomes[|runs| - 1].Done? && runs[|runs| - 1].mode.Finalize? ==>
              site.disk.Some? && site.disk.value.status.Complete?
    ensures !site.foreign && old(ListingCut(site.View())) ==> ListingCut(site.View())
    ensures !site.foreign && old(RestoreCut(site.View())) ==>
              && RestoreCut(site.View())
              && forall i :: 0 <= i < |runs| && (runs[i].mode.Execute? || runs[i].mode.Finalize?) ==> outcomes[i].Stop?
  {
    hide WorldOk, Kept, ListingCut, RestoreCut, Stops, Accounted, StopsVerify;
    outcomes := [];
    ghost var start := site.View();
    if start.disk.Some? { KeptSelf(start); }
    for i := 0 to |runs|
      invariant site.Ok() && |outcomes| == i
      invariant start.disk.Some? ==> Kept(start, site.View())
      invariant i > 0 && outcomes[i - 1].Done? && runs[i - 1].mode.Finalize? ==>
                  site.disk.Some? && site.disk.value.status.Complete?
      invariant !site.foreign && ListingCut(start) ==> ListingCut(site.View())
      invariant !site.foreign && RestoreCut(start) ==>
                  && RestoreCut(site.View())
                  && forall k :: 0 <= k < i && (runs[k].mode.Execute? || runs[k].mode.Finalize?) ==> outcomes[k].Stop?
    {
      ghost var before := site.View();
      CutIsThere(start);
      if start.disk.Some? { KeptDisk(start, before); }
      var o := Invoke(site, runs[i]);
      if start.disk.Some? {
        KeptTrans(start, before, site.View());
        PassedKept(before, site.View());
      }
      outcomes := outcomes + [o];
    }
  }

  lemma CutIsThere(w: World)
    ensures ListingCut(w) || RestoreCut(w) ==> w.disk.Some?
  {
  }
}

/** Four concrete rollouts that nobody disturbs and that cannot end well. */
module RolloutExamples {
  import opened Wrappers
  import opened RolloutPlan
  import opened RolloutChain
  import opened RolloutWorld
  import opened RolloutSteps
  import opened RolloutRun
  import opened RolloutInventory
  import opened RolloutSafety
  import RolloutCutover

  const OLD: Version := Version(1, 3, 0)
  const NEW: Version := Version(1, 4, 0)

  function Reviewed(role: Role): Wasm { Wasm("reviewed", Cw2(SpecName(role), NEW), true, true, true, true) }

  function Inputs(): Identity {
    Identity(map r | r in {Factory, Pair, Router, Token} :: Reviewed(r), 1000, "gov", {"gov"})
  }

  function Entry(a: Address, role: Role, code: CodeId, version: Version): Item {
    Item(a, role, "gov", code, Cw2(SpecName(role), version), Reviewed(role), version != NEW, "", "")
  }

  function Live(it: Item): Contract {
    Contract(it.admin, it.code, it.cw2, false, it.settings, it.holdings)
  }

  /** What differs between the four: the router, the tokens and pairs, and what else there is on the chain. */
  datatype Scene = Scene(
    router: Item, tokens: seq<Item>, markets: seq<Market>, contracts: map<Address, Contract>,
    pairs: map<Address, seq<Address>>, pins: map<Address, seq<CodeId>>, listed: set<CodeId>)

  /** The reviewed binaries are stored, the token binary twice. */
  function FactsOf(s: Scene): Facts {
    Facts(
      map["factory" := Live(Entry("factory", Factory, 1, NEW)), "launcher" := Live(Entry("launcher", Launcher, 3, NEW)),
          "router" := Live(s.router)] + s.contracts,
      s.pairs, s.pins,
      map[1 := Reviewed(Factory), 2 := s.router.wasm, 3 := Reviewed(Launcher),
          4 := Reviewed(Token), 5 := Reviewed(Token), 6 := Reviewed(Pair)],
      7, s.listed, 6, 4, None)
  }

  function PlanOf(s: Scene): Inventory {
    Inventory(
      map[Factory := Entry("factory", Factory, 1, NEW), Router := s.router,
          Launcher := Entry("launcher", Launcher, 3, NEW)],
      s.markets, s.tokens, s.listed, 6, 4, None)
  }

  function CurrentRouter(): Item { Entry("router", Router, 2, NEW) }

  lemma InputsOk()
    ensures WellIdentified(Inputs())
  {
  }

  lemma PlanShaped(s: Scene)
    requires s.router.role == Router
    requires forall i :: 0 <= i < |s.tokens| ==> s.tokens[i].role == Token
    requires forall i, k :: 0 <= i < k < |s.tokens| ==> s.tokens[i].address != s.tokens[k].address
    requires |s.markets| <= 1 && forall i :: 0 <= i < |s.markets| ==> s.markets[i].item.role == Pair
    ensures WellShaped(PlanOf(s))
  {
    hide SpecName, Reviewed;
  }

  ghost predicate Planned(s: Scene) {
    FactsOk(FactsOf(s)) && Snapshot(Inputs(), FactsOf(s), PlanOf(s))
  }

  /** A core contract of a scene is as planned. */
  lemma CoreSeen(s: Scene, it: Item)
    requires s.contracts.Keys !! {"factory", "launcher", "router"}
    requires s.router == CurrentRouter() || s.router == MuteRouterItem()
    requires it.role in PlanOf(s).instances && PlanOf(s).instances[it.role] == it
    ensures Seen(Inputs(), FactsOf(s), it)
  {
    hide SpecName;
  }

  /** And so is a listed contract that runs a reviewed binary. */
  lemma ListedSeen(s: Scene, it: Item)
    requires it.address in s.contracts && s.contracts[it.address] == Live(it)
    requires (it.role == Token && 4 <= it.code <= 5) || (it.role == Pair && it.code == 6)
    requires it == Entry(it.address, it.role, it.code, OLD) || it == Entry(it.address, it.role, it.code, NEW)
    ensures Seen(Inputs(), FactsOf(s), it)
  {
    hide SpecName;
  }

  /** The inventory of a scene is accepted. */
  lemma SceneIsPlanned(s: Scene)
    requires WellShaped(PlanOf(s)) && s.tokens != []
    requires forall it {:trigger IsItem(PlanOf(s), it)} :: IsItem(PlanOf(s), it) ==> Seen(Inputs(), FactsOf(s), it)
    requires forall i :: 0 <= i < |s.markets| ==>
               && s.markets[i].item.address in FactsOf(s).contracts && !s.markets[i].item.needsMigrate
               && s.markets[i].paused == FactsOf(s).contracts[s.markets[i].item.address].paused
    requires SamePairs(s.pairs, PlanOf(s))
    ensures Planned(s)
  {
    hide SpecName, Seen, IsItem, Reviewed, WellIdentified, WellShaped, Entry, Live, SamePairs;
    InputsOk();
  }

  // ---------------------------------------------------------------- the common beginning

  function Begun(s: Scene, codes: map<Role, CodeId>): Journal {
    Journal(Inputs(), PlanOf(s), map[], codes, Executing)
  }

  function BegunWorld(s: Scene, codes: map<Role, CodeId>): World {
    World(Some(Begun(s, codes)), Chain(FactsOf(s), map[], FactsOf(s)), {}, false, [])
  }

  /** The first journal is written and the run begins. */
  lemma Begins(s: Scene)
    requires Planned(s)
    ensures WorldOk(BegunWorld(s, map[]))
  {
    hide Snapshot;
    var f := FactsOf(s);
    var w := World(None, Chain(f, map[], f), {}, false, []);
    FirstSaveOk(w, Inputs(), PlanOf(s));
    var planned := w.(disk := Some(FirstJournal(Inputs(), PlanOf(s))));
    ExecutingOk(planned.disk.value);
    SaveStatus(planned, Executing);
    assert planned.(disk := Some(planned.disk.value.(status := Executing))) == BegunWorld(s, map[]);
  }

  /** One code id is settled. */
  lemma SettlesCode(s: Scene, codes: map<Role, CodeId>, role: Role, code: CodeId)
    requires WorldOk(BegunWorld(s, codes)) && role !in codes
    requires var f := FactsOf(s);
             code in f.wasm && (role in Inputs().artifacts ==> f.wasm[code] == Inputs().artifacts[role])
    requires role in PlanOf(s).instances ==>
             !PlanOf(s).instances[role].needsMigrate && code == PlanOf(s).instances[role].code
    requires role !in PlanOf(s).instances ==> FirstMatch(Begun(s, codes[role := code]), FactsOf(s), role, code)
    ensures WorldOk(BegunWorld(s, codes[role := code]))
  {
    hide WorldOk, FirstMatch;
    var w := BegunWorld(s, codes);
    SaveCode(w, role, code);
    assert w.(disk := Some(WithCode(w.disk.value, role, code))) == BegunWorld(s, codes[role := code]);
  }

  function Codes(): map<Role, CodeId> { map[Factory := 1, Router := 2, Launcher := 3, Token := 4] }

  lemma TokenFound(s: Scene)
    requires forall i :: 0 <= i < |s.tokens| ==> s.tokens[i].code >= 4
    ensures FirstMatch(Begun(s, Codes()), FactsOf(s), Token, 4)
  {
  }

  /** Core and token codes are settled. */
  lemma CodesSettled(s: Scene)
    requires Planned(s) && s.router == CurrentRouter()
    requires forall i :: 0 <= i < |s.tokens| ==> s.tokens[i].code >= 4
    ensures WorldOk(BegunWorld(s, Codes()))
  {
    hide WorldOk, Planned, FirstMatch, SpecName;
    Begins(s);
    SettlesCode(s, map[], Factory, 1);
    SettlesCode(s, map[Factory := 1], Router, 2);
    SettlesCode(s, map[Factory := 1, Router := 2], Launcher, 3);
    TokenFound(s);
    SettlesCode(s, map[Factory := 1, Router := 2, Launcher := 3], Token, 4);
  }

  lemma NoFees(j: Journal)
    requires j.ops == map[]
    ensures TotalFees(j) == 0
  {
    assert FeesOf(j.ops) == map[];
  }

  // ---------------------------------------------------------------- a migration in place

  /** A token runs the reviewed binary, but still records its old version. */
  function StaleToken(): Item { Entry("first", Token, 4, OLD) }

  function StaleScene(): Scene {
    Scene(CurrentRouter(), [StaleToken()], [], map["first" := Live(StaleToken())], map[], map[], {4})
  }

  lemma StaleSeen(it: Item)
    requires IsItem(PlanOf(StaleScene()), it)
    ensures Seen(Inputs(), FactsOf(StaleScene()), it)
  {
    hide SpecName, Seen, FactsOf, Reviewed, Live;
    if it.role == Token { ListedSeen(StaleScene(), it); } else { CoreSeen(StaleScene(), it); }
  }

  lemma StalePlanned()
    ensures Planned(StaleScene())
  {
    hide SpecName, Seen, IsItem, Planned, WellShaped, Live, Reviewed;
    forall it | IsItem(PlanOf(StaleScene()), it)
      ensures Seen(Inputs(), FactsOf(StaleScene()), it)
    {
      StaleSeen(it);
    }
    PlanShaped(StaleScene());
    SceneIsPlanned(StaleScene());
  }

  function Migration(): Tx { Tx(MigrateTo("first", 4, "gov"), 0, 1) }

  function StaleBegun(): World { BegunWorld(StaleScene(), Codes()) }

  /** The stale token is migrated onto the code it runs. */
  function StaleMoved(): World { FullRun(StaleBegun(), ItemMigrate(StaleToken()), Migration()) }

  /** All that the inventory asks for before the pair code is settled. */
  lemma StaleWork(j: Journal, n: OpName)
    requires j.inv == PlanOf(StaleScene()) && j.codes == Codes() && Required(j, n)
    ensures n == ItemMigrate(StaleToken()) || n == LauncherTemplate
  {
    hide SpecName, Reviewed;
    assert !Affected(j.inv, "");
  }

  lemma StaleReady(j: Journal, n: OpName)
    requires j.inv == PlanOf(StaleScene()) && j.codes == Codes() && j.identity == Inputs()
    requires n == ItemMigrate(StaleToken()) || (n == LauncherTemplate && Receipted(j, ItemMigrate(StaleToken())))
    ensures ReadyFor(j, n)
  {
    hide SpecName, Reviewed, Required;
    forall m | Required(j, m) && Before(j.inv, m, Stage(n), Index(j.inv, n))
      ensures Receipted(j, m)
    {
      StaleWork(j, m);
    }
  }

  lemma StaleIsItem(j: Journal)
    requires j.inv == PlanOf(StaleScene()) && j.codes == Codes()
    ensures Trips(j, StaleToken()) && Required(j, ItemMigrate(StaleToken())) && TokenIndex(j.inv, "first") == 0
    ensures forall it :: IsItem(j.inv, it) && it.needsMigrate ==> it == StaleToken()
    ensures forall it :: !Mute(j.inv, it)
  {
    hide SpecName;
    assert StaleToken() in j.inv.tokens;
  }

  lemma StaleDue()
    ensures Due(StaleBegun(), ItemMigrate(StaleToken()), Migration().action)
    ensures ClearFor(StaleBegun().disk.value, ItemMigrate(StaleToken()))
  {
    hide SpecName, Reviewed, ReadyFor, Required, TripsAfter, Mute;
    var j := StaleBegun().disk.value;
    StaleIsItem(j);
    StaleReady(j, ItemMigrate(StaleToken()));
    StalePerforms(j);
  }

  lemma StalePerforms(j: Journal)
    requires j.inv == PlanOf(StaleScene()) && j.codes == Codes()
    ensures Performs(j, ItemMigrate(StaleToken()), Migration().action)
  {
    hide SpecName, Reviewed;
  }

  /** The next signature is refused for drift, although nobody else acted: execution never gets further. */
  lemma StaleRefused()
    ensures WorldOk(StaleMoved()) && !StaleMoved().foreign
    ensures Due(StaleMoved(), LauncherTemplate, SetLauncher(4, None))
            && !IsSigned(StaleMoved().disk.value, LauncherTemplate)
    ensures !LiveBindings(StaleMoved().disk.value, StaleMoved().chain.facts)
  {
    hide WorldOk, LiveBindings, SpecName, Reviewed;
    StalePlanned();
    CodesSettled(StaleScene());
    StaleDue();
    NoFees(StaleBegun().disk.value);
    FullRunPossible(StaleBegun(), ItemMigrate(StaleToken()), Migration());
    LauncherDue();
    DueBindings(StaleMoved(), LauncherTemplate);
  }

  lemma LauncherDue()
    ensures Due(StaleMoved(), LauncherTemplate, SetLauncher(4, None))
    ensures !IsSigned(StaleMoved().disk.value, LauncherTemplate) && !ClearFor(StaleMoved().disk.value, LauncherTemplate)
  {
    hide SpecName, Reviewed, ReadyFor, Trips, PlanOf, FactsOf, Mute;
    var j := StaleMoved().disk.value;
    StaleIsItem(j);
    StaleReady(j, LauncherTemplate);
    LauncherNext(StaleScene(), j, StaleMoved());
  }

  lemma LauncherNext(s: Scene, j: Journal, w: World)
    requires w.disk == Some(j) && j.codes == Codes() && j.identity == Inputs() && j.inv == PlanOf(s)
    requires 4 in s.listed && ReadyFor(j, LauncherTemplate)
    ensures Due(w, LauncherTemplate, SetLauncher(4, None))
  {
    hide SpecName, Reviewed, ReadyFor;
  }

  // ---------------------------------------------------------------- a router that does not answer

  /** A stale router of version 1.3.0 that does not advertise settlement. */
  function MuteRouterItem(): Item {
    CurrentRouter().(cw2 := Cw2(SpecName(Router), OLD),
                     wasm := Wasm("older", Cw2(SpecName(Router), OLD), true, false, false, false),
                     needsMigrate := true)
  }

  function PlainToken(): Item { Entry("first", Token, 4, NEW) }

  function MuteScene(): Scene {
    Scene(MuteRouterItem(), [PlainToken()], [], map["first" := Live(PlainToken())], map[], map[], {4})
  }

  lemma MuteSeen(it: Item)
    requires IsItem(PlanOf(MuteScene()), it)
    ensures Seen(Inputs(), FactsOf(MuteScene()), it)
  {
    hide SpecName, Seen, FactsOf, Reviewed, Live;
    if it.role == Token { ListedSeen(MuteScene(), it); } else { CoreSeen(MuteScene(), it); }
  }

  function MuteBegun(): World { BegunWorld(MuteScene(), map[Factory := 1]) }

  lemma MuteReady(j: Journal)
    requires j.inv == PlanOf(MuteScene()) && j.codes == map[Factory := 1]
    ensures ReadyFor(j, Store(Router)) && WellNamed(j, Store(Router)) == (Router in j.identity.artifacts)
  {
    hide SpecName, Reviewed;
    forall m | Required(j, m)
      ensures Stage(m) >= StoreStage(Router)
    {
      assert !Affected(j.inv, "");
    }
  }

  /** Its first signature is refused for drift, although nobody else acted: execution never begins. */
  lemma MuteRefused()
    ensures WorldOk(MuteBegun()) && !MuteBegun().foreign
    ensures Due(MuteBegun(), Store(Router), StoreCode(Reviewed(Router))) && MuteBegun().disk.value.ops == map[]
    ensures !LiveBindings(MuteBegun().disk.value, MuteBegun().chain.facts)
  {
    hide WorldOk, LiveBindings, SpecName, Seen, IsItem, WellShaped, ReadyFor, Planned, Mute, Trips;
    forall it | IsItem(PlanOf(MuteScene()), it)
      ensures Seen(Inputs(), FactsOf(MuteScene()), it)
    {
      MuteSeen(it);
    }
    PlanShaped(MuteScene());
    SceneIsPlanned(MuteScene());
    Begins(MuteScene());
    SettlesCode(MuteScene(), map[], Factory, 1);
    MuteReady(MuteBegun().disk.value);
    MuteIsMute(MuteBegun().disk.value);
    DueBindings(MuteBegun(), Store(Router));
  }

  lemma MuteIsMute(j: Journal)
    requires j.inv == PlanOf(MuteScene())
    ensures !ClearFor(j, Store(Router))
  {
    hide SpecName, Reviewed;
    assert Mute(j.inv, MuteRouterItem());
  }

  // ---------------------------------------------------------------- finished rollouts

  /** Nothing needs a migration, and no pair is affected. */
  ghost predicate Current(s: Scene) {
    && s.router == CurrentRouter() && 4 in s.listed
    && (forall i :: 0 <= i < |s.tokens| ==> !s.tokens[i].needsMigrate && s.tokens[i].code >= 4)
    && (forall i :: 0 <= i < |s.markets| ==>
          !s.markets[i].item.needsMigrate && !s.markets[i].affected && s.markets[i].item.code == 6)
  }

  function Pointing(): Tx { Tx(SetLauncher(4, None), 0, 1) }

  function Pointed(s: Scene): World { FullRun(BegunWorld(s, Codes()), LauncherTemplate, Pointing()) }

  /** All work is done: the launcher is pointed at the settled code, the pair code is found. */
  function DoneWorld(s: Scene): World {
    Pointed(s).(disk := Some(WithCode(Pointed(s).disk.value, Pair, 6)))
  }

  lemma CurrentItems(s: Scene, it: Item)
    requires Current(s) && IsItem(PlanOf(s), it)
    ensures !it.needsMigrate
  {
    hide SpecName, Reviewed;
    if it in s.tokens {
      var i :| 0 <= i < |s.tokens| && s.tokens[i] == it;
    }
  }

  lemma CurrentWork(s: Scene, j: Journal, n: OpName)
    requires Current(s) && j.inv == PlanOf(s) && (Pair in j.codes ==> j.codes[Pair] == 6) && Required(j, n)
    ensures n == LauncherTemplate
  {
    hide SpecName, Reviewed, IsItem;
    if n.Migrate? {
      var it :| IsItem(j.inv, it) && it.needsMigrate && ItemMigrate(it) == n;
      CurrentItems(s, it);
    }
  }

  lemma CurrentReady(s: Scene, j: Journal)
    requires Current(s) && j.inv == PlanOf(s) && j.codes == Codes() && j.identity == Inputs()
    ensures ReadyFor(j, LauncherTemplate) && ClearFor(j, LauncherTemplate)
  {
    hide SpecName, Reviewed, Required, Current, IsItem;
    forall m | Required(j, m)
      ensures m == LauncherTemplate
    {
      CurrentWork(s, j, m);
    }
    forall it | IsItem(j.inv, it)
      ensures !it.needsMigrate
    {
      CurrentItems(s, it);
    }
  }

  lemma LauncherPointed(s: Scene)
    requires Planned(s) && Current(s)
    ensures WorldOk(Pointed(s))
  {
    hide WorldOk, Due, ReadyFor, ClearFor, SpecName, Reviewed, FullRun, Planned;
    CodesSettled(s);
    CurrentReady(s, BegunWorld(s, Codes()).disk.value);
    LauncherNext(s, BegunWorld(s, Codes()).disk.value, BegunWorld(s, Codes()));
    NoFees(BegunWorld(s, Codes()).disk.value);
    FullRunPossible(BegunWorld(s, Codes()), LauncherTemplate, Pointing());
  }

  lemma PairFound(s: Scene)
    requires Current(s)
    ensures CodeFrom(WithCode(Pointed(s).disk.value, Pair, 6), Pointed(s).chain.facts, Pair)
    ensures Pointed(s).chain.facts.wasm == FactsOf(s).wasm && Pointed(s).chain.planned == FactsOf(s)
    ensures Store(Pair) !in Pointed(s).disk.value.ops
  {
    hide SpecName, Reviewed;
  }

  lemma CurrentFinishes(s: Scene)
    requires Planned(s) && Current(s)
    ensures WorldOk(DoneWorld(s)) && !DoneWorld(s).foreign && WorkDone(DoneWorld(s).disk.value)
    ensures DoneWorld(s).chain.facts.wasm == FactsOf(s).wasm && DoneWorld(s).chain.planned == FactsOf(s)
  {
    hide WorldOk, SpecName, Reviewed, Required, CodeFrom, Planned, Current;
    LauncherPointed(s);
    PairFound(s);
    SaveCode(Pointed(s), Pair, 6);
    var j := DoneWorld(s).disk.value;
    forall m | Required(j, m)
      ensures Receipted(j, m)
    {
      CurrentWork(s, j, m);
    }
  }

  /** A finished rollout is refused by its verification if the plan does not verify, although nobody else acted. */
  lemma FinishedRefused(s: Scene)
    requires Planned(s) && Current(s)
    ensures WorldOk(DoneWorld(s)) && !DoneWorld(s).foreign && WorkDone(DoneWorld(s).disk.value)
    ensures LiveBindings(DoneWorld(s).disk.value, DoneWorld(s).chain.facts)
    ensures CutOver(DoneWorld(s).disk.value, DoneWorld(s).chain.facts) <==>
            PlanVerifies(DoneWorld(s).disk.value, DoneWorld(s).chain)
  {
    hide WorldOk, WorkDone, LiveBindings, CutOver, PlanVerifies, SpecName, Reviewed, Planned, Current, UnsavedRestore;
    CurrentFinishes(s);
    NothingUnsaved(s);
    VerifyExact(DoneWorld(s));
    VerifyAcceptsExactly(DoneWorld(s));
  }

  lemma NothingUnsaved(s: Scene)
    requires Current(s)
    ensures !UnsavedRestore(DoneWorld(s).disk.value, DoneWorld(s).chain)
  {
    hide SpecName, Reviewed, FactsOf;
  }

  // ---------------------------------------------------------------- an unlisted token

  /** Two current tokens, one on each of the two codes, of which the smaller one is listed. */
  function TwinTokens(): seq<Item> { [PlainToken(), Entry("second", Token, 5, NEW)] }

  function TwinScene(): Scene {
    Scene(CurrentRouter(), TwinTokens(), [], map["first" := Live(TwinTokens()[0]), "second" := Live(TwinTokens()[1])],
          map[], map[], {4})
  }

  lemma TwinSeen(it: Item)
    requires IsItem(PlanOf(TwinScene()), it)
    ensures Seen(Inputs(), FactsOf(TwinScene()), it)
  {
    hide SpecName, Seen, FactsOf, Reviewed, Live;
    if it.role == Token { ListedSeen(TwinScene(), it); } else { CoreSeen(TwinScene(), it); }
  }

  lemma TwinRefused()
    ensures WorldOk(DoneWorld(TwinScene())) && WorkDone(DoneWorld(TwinScene()).disk.value)
    ensures LiveBindings(DoneWorld(TwinScene()).disk.value, DoneWorld(TwinScene()).chain.facts)
    ensures !CutOver(DoneWorld(TwinScene()).disk.value, DoneWorld(TwinScene()).chain.facts)
  {
    hide SpecName, Seen, IsItem, Planned, WellShaped, Live, Reviewed, WorldOk, WorkDone, LiveBindings, CutOver,
         DoneWorld;
    forall it | IsItem(PlanOf(TwinScene()), it)
      ensures Seen(Inputs(), FactsOf(TwinScene()), it)
    {
      TwinSeen(it);
    }
    assert |TwinTokens()[0].address| != |TwinTokens()[1].address|;
    PlanShaped(TwinScene());
    SceneIsPlanned(TwinScene());
    FinishedRefused(TwinScene());
    CurrentFinishes(TwinScene());
    DonePlan(TwinScene());
    TwinUnlisted(DoneWorld(TwinScene()).disk.value, DoneWorld(TwinScene()).chain.facts);
  }

  lemma DonePlan(s: Scene)
    ensures DoneWorld(s).disk.Some?
    ensures DoneWorld(s).disk.value.inv == PlanOf(s) && DoneWorld(s).disk.value.identity == Inputs()
    ensures DoneWorld(s).disk.value.codes == Codes()[Pair := 6]
  {
    hide SpecName, Reviewed, FactsOf, PlanOf;
  }

  lemma TwinUnlisted(j: Journal, f: Facts)
    requires j.inv == PlanOf(TwinScene()) && j.identity == Inputs() && f.wasm == FactsOf(TwinScene()).wasm
    ensures !SettledListed(j, f)
  {
    hide SpecName;
    assert j.inv.tokens[0].code in Candidates(j.inv, Token);
    assert !FirstMatch(j, f, Token, j.inv.tokens[1].code);
  }

  // ---------------------------------------------------------------- a pair with a stale pin

  function Foreign(): Contract { Contract("other", 8, Cw2("other", OLD), false, "", "") }

  /** A current pair of two other tokens, pinned to a code that they no longer run. */
  function Pool(): Market { Market(Entry("pool", Pair, 6, NEW), false, false, ["left", "right"]) }

  function PinScene(): Scene {
    Scene(CurrentRouter(), [PlainToken()], [Pool()],
          map["first" := Live(PlainToken()), "pool" := Live(Pool().item), "left" := Foreign(), "right" := Foreign()],
          map["pool" := Pool().assets], map["pool" := [7, 8]], {4, 8})
  }

  lemma PinSeen(it: Item)
    requires IsItem(PlanOf(PinScene()), it)
    ensures Seen(Inputs(), FactsOf(PinScene()), it)
  {
    hide SpecName, Seen, FactsOf, Reviewed, Live;
    if it.role == Token || it.role == Pair { ListedSeen(PinScene(), it); } else { CoreSeen(PinScene(), it); }
  }

  lemma PinRefused()
    ensures WorldOk(DoneWorld(PinScene())) && WorkDone(DoneWorld(PinScene()).disk.value)
    ensures LiveBindings(DoneWorld(PinScene()).disk.value, DoneWorld(PinScene()).chain.facts)
    ensures !CutOver(DoneWorld(PinScene()).disk.value, DoneWorld(PinScene()).chain.facts)
  {
    hide SpecName, Seen, IsItem, Planned, WellShaped, Live, Reviewed, WorldOk, WorkDone, LiveBindings, CutOver,
         DoneWorld;
    forall it | IsItem(PlanOf(PinScene()), it)
      ensures Seen(Inputs(), FactsOf(PinScene()), it)
    {
      PinSeen(it);
    }
    PlanShaped(PinScene());
    PoolOnChain();
    SceneIsPlanned(PinScene());
    FinishedRefused(PinScene());
    CurrentFinishes(PinScene());
    DonePlan(PinScene());
    PinStale(DoneWorld(PinScene()).disk.value);
  }

  lemma PoolOnChain()
    ensures "pool" in FactsOf(PinScene()).contracts && !FactsOf(PinScene()).contracts["pool"].paused
    ensures SamePairs(PinScene().pairs, PlanOf(PinScene()))
  {
    hide SpecName, Reviewed;
    assert Pool() in PlanOf(PinScene()).markets;
  }

  lemma PinStale(j: Journal)
    requires j.inv == PlanOf(PinScene())
    ensures !RolloutCutover.OthersPinned(j, FactsOf(PinScene()))
  {
    hide SpecName, Reviewed;
    var f, p := FactsOf(PinScene()), "pool";
    assert f.pins[p][0] == 7 && f.contracts["left"].code == 8;
    assert !RolloutCutover.RunsAfter(j, f, "left", 7);
    assert Pool().assets[0] == "left" && j.inv.markets[0] == Pool();
  }
}

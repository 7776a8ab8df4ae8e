/** Taking the inventory a rollout is planned on, and the first journal. */
module RolloutInventory {
  import opened Wrappers
  import opened RolloutPlan
  import opened RolloutChain
  import opened RolloutWorld

  /** The addresses discovered on the chain, pairs with their assets. */
  datatype ListedPair = ListedPair(address: Address, assets: seq<Address>)

  datatype Listing = Listing(core: map<Role, Address>, pairs: seq<ListedPair>, tokens: seq<Address>)

  /** Tokens may have other admins than the rest. */
  predicate AdminOk(id: Identity, role: Role, admin: Address) {
    if role == Token then admin in id.tokenAdmins else admin == id.governance
  }

  /** The factory's pairs are the listed ones. */
  predicate ListsPairs(pairs: map<Address, seq<Address>>, listed: seq<ListedPair>) {
    && (forall l | l in listed :: l.address in pairs && pairs[l.address] == l.assets)
    && (forall p | p in pairs.Keys :: exists l | l in listed :: l.address == p)
  }

  predicate TradesToken(assets: seq<Address>, tokens: seq<Address>) {
    exists a | a in assets :: a in tokens
  }

  /**
   One contract's entry. A foreign identity or admin, a missing capability, a downgrade or a different binary of the
   same version is refused.
   */
  function Inspect(id: Identity, f: Facts, a: Address, role: Role): (r: Option<Item>)
    ensures r.Some? && WellIdentified(id) ==> r.value.address == a && r.value.role == role && Seen(id, f, r.value)
  {
    if a !in f.contracts then None else
      var c := f.contracts[a];
      if c.cw2.contract != SpecName(role) || c.code !in f.wasm || !AdminOk(id, role, c.admin) then None
      else if role in id.artifacts && !AtLeast(id.artifacts[role].cw2.version, c.cw2.version) then None
      else if role in id.artifacts && c.cw2.version == id.artifacts[role].cw2.version
        && f.wasm[c.code] != id.artifacts[role] then None
      else
        var stale := role in id.artifacts && c.cw2.version != id.artifacts[role].cw2.version;
        var it := Item(a, role, c.admin, c.code, c.cw2, f.wasm[c.code], stale, c.settings, c.holdings);
        if Probed(it) then Some(it) else None
  }

  /** The entry describes the contract as it is. */
  ghost predicate Seen(id: Identity, f: Facts, it: Item) {
    && it.address in f.contracts
    && var c := f.contracts[it.address];
    && it.admin == c.admin && AdminOk(id, it.role, it.admin) && it.settings == c.settings && it.holdings == c.holdings
    && it.code == c.code && it.cw2 == c.cw2 && c.cw2.contract == SpecName(it.role)
    && it.code in f.wasm && f.wasm[it.code] == it.wasm
    && (it.needsMigrate ==> it.role in id.artifacts && it.cw2 != id.artifacts[it.role].cw2)
    && (!it.needsMigrate && it.role in id.artifacts ==>
        it.wasm == id.artifacts[it.role] && it.cw2 == id.artifacts[it.role].cw2)
    && Probed(it)
  }

  ghost predicate Snapshot(id: Identity, f: Facts, inv: Inventory) {
    && WellIdentified(id) && WellShaped(inv)
    && (forall it {:trigger IsItem(inv, it)} :: IsItem(inv, it) ==> Seen(id, f, it))
    && (forall i :: 0 <= i < |inv.markets| ==>
          && inv.markets[i].item.address in f.contracts
          && inv.markets[i].paused == f.contracts[inv.markets[i].item.address].paused
          && (inv.markets[i].item.needsMigrate ==> inv.markets[i].affected))
    && SamePairs(f.pairs, inv) && inv.tokens != [] && inv.whitelist == f.listed && inv.pairTemplate == f.pairTemplate
    && inv.launcherToken == f.launcherToken && inv.launcherAutolp == f.launcherAutolp
  }

  lemma SpecNamesDiffer(r: Role, s: Role)
    ensures SpecName(r) == SpecName(s) ==> r == s
  {
    assert |SpecName(r)| == |SpecName(s)| ==> r == s;
  }

  lemma SnapshotInventoryOk(id: Identity, f: Facts, inv: Inventory)
    requires Snapshot(id, f, inv)
    ensures InventoryOk(id, inv)
  {
    forall a, b | IsItem(inv, a) && IsItem(inv, b) && a.address == b.address
      ensures a == b
    {
      assert Seen(id, f, a) && Seen(id, f, b);
      SpecNamesDiffer(a.role, b.role);
    }
  }

  function FirstJournal(id: Identity, inv: Inventory): Journal {
    Journal(id, inv, map[], map[], Planned)
  }

  lemma FirstJournalOk(id: Identity, f: Facts, inv: Inventory)
    requires Snapshot(id, f, inv)
    ensures JournalOk(FirstJournal(id, inv))
  {
    SnapshotInventoryOk(id, f, inv);
    assert FeesOf(map[]) == map[];
  }

  lemma FirstTracks(id: Identity, f: Facts, inv: Inventory, included: map<Tx, Receipt>)
    requires Snapshot(id, f, inv)
    ensures Tracks(FirstJournal(id, inv), Chain(f, included, f))
  {
    var j, c := FirstJournal(id, inv), Chain(f, included, f);
    forall it | IsItem(inv, it)
      ensures TrackItem(j, c, it)
    {
      assert Seen(id, f, it);
    }
  }

  lemma FirstPins(id: Identity, f: Facts, inv: Inventory, included: map<Tx, Receipt>)
    ensures TrackPins(FirstJournal(id, inv), Chain(f, included, f))
  {
  }

  lemma FirstGrounded(id: Identity, f: Facts, inv: Inventory)
    requires FactsOk(f) && Snapshot(id, f, inv)
    ensures var j, c := FirstJournal(id, inv), Chain(f, map[], f);
            Grounded(j, f) && ReceiptsIncluded(j, c) && SearchFailed(j, f) && StoresFresh(j, c) && CodesFrom(j, f)
  {
    forall it | IsItem(inv, it)
      ensures it.code in f.wasm && f.wasm[it.code] == it.wasm
    {
      assert Seen(id, f, it);
    }
  }

  /** The first journal write of a rollout: from here on, changes by others are told apart. */
  lemma FirstSaveOk(w: World, id: Identity, inv: Inventory)
    requires WorldOk(w) && w.disk.None? && Snapshot(id, w.chain.facts, inv)
    ensures WorldOk(w.(disk := Some(FirstJournal(id, inv)), foreign := false,
                       chain := w.chain.(planned := w.chain.facts)))
  {
    hide Snapshot, JournalOk, Tracks, TrackPins, Grounded, ReceiptsIncluded, SearchFailed, StoresFresh, CodesFrom;
    FirstJournalOk(id, w.chain.facts, inv);
    FirstTracks(id, w.chain.facts, inv, w.chain.included);
    FirstPins(id, w.chain.facts, inv, w.chain.included);
    FirstGrounded(id, w.chain.facts, inv);
  }

  /** The inventory has exactly the listed contracts, and a pair is affected by the stated rule. */
  ghost predicate Lists(inv: Inventory, listing: Listing) {
    && (forall role :: role in inv.instances ==>
        role in listing.core && inv.instances[role].address == listing.core[role])
    && (forall role :: role in listing.core && role in CORE_ROLES ==> role in inv.instances)
    && |inv.markets| == |listing.pairs|
    && (forall i :: 0 <= i < |inv.markets| ==>
          && inv.markets[i].item.address == listing.pairs[i].address && inv.markets[i].assets == listing.pairs[i].assets
          && (inv.markets[i].affected <==>
              || (exists role :: role in {Factory, Router} && role in inv.instances && inv.instances[role].needsMigrate)
              || inv.markets[i].item.needsMigrate || TradesToken(listing.pairs[i].assets, listing.tokens)))
    && 0 < |inv.tokens| == |listing.tokens|
    && (forall i :: 0 <= i < |inv.tokens| ==> inv.tokens[i].address == listing.tokens[i])
  }

  /** What the inventory demands of the discovered addresses. */
  ghost predicate Listable(id: Identity, f: Facts, listing: Listing) {
    && {Factory, Router, Launcher} <= listing.core.Keys
    && (forall role :: role in listing.core && role in CORE_ROLES ==> Inspect(id, f, listing.core[role], role).Some?)
    && !Unreadable(id, f, PairAddresses(listing.pairs), Pair)
    && ListsPairs(f.pairs, listing.pairs)
    && listing.tokens != [] && !Unreadable(id, f, listing.tokens, Token)
  }

  /** Read every listed contract; a repeated address or an unknown contract stops the inventory. */
  method TakeInventory(id: Identity, f: Facts, listing: Listing) returns (r: Option<Inventory>)
    requires WellIdentified(id)
    ensures r.Some? <==> Listable(id, f, listing)
    ensures r.Some? ==> Snapshot(id, f, r.value) && Lists(r.value, listing)
  {
    hide Seen, Unreadable, Snapshot, Lists, ListsPairs, SamePairs, TradesToken, Inspect;
    var core := TakeCore(id, f, listing);
    if core.None? || !({Factory, Router, Launcher} <= core.value.Keys) {
      return None;
    }
    var instances := core.value;
    var everything := instances[Factory].needsMigrate || instances[Router].needsMigrate;
    var markets := TakeMarkets(id, f, listing, everything);
    if markets.None? || !ListsPairs(f.pairs, listing.pairs) {
      return None;
    }
    var tokens := TakeTokens(id, f, listing);
    if tokens.None? || tokens.value == [] {
      return None;
    }
    var inv := Inventory(instances, markets.value, tokens.value, f.listed, f.pairTemplate, f.launcherToken,
                         f.launcherAutolp);
    ListsAll(inv, listing);
    SamePairsListed(f.pairs, inv, listing.pairs);
    SnapshotOf(id, f, inv);
    return Some(inv);
  }

  lemma ListsAll(inv: Inventory, listing: Listing)
    requires forall role :: role in inv.instances ==>
               role in CORE_ROLES && role in listing.core && inv.instances[role].address == listing.core[role]
    requires forall role :: role in listing.core && role in CORE_ROLES ==> role in inv.instances
    requires {Factory, Router} <= inv.instances.Keys && |inv.markets| == |listing.pairs|
    requires forall i :: 0 <= i < |inv.markets| ==>
               inv.markets[i].item.address == listing.pairs[i].address
                 && inv.markets[i].assets == listing.pairs[i].assets
    requires forall i :: 0 <= i < |inv.markets| ==>
               inv.markets[i].affected ==
               (inv.instances[Factory].needsMigrate || inv.instances[Router].needsMigrate
                || inv.markets[i].item.needsMigrate || TradesToken(listing.pairs[i].assets, listing.tokens))
    requires 0 < |inv.tokens| == |listing.tokens|
    requires forall i :: 0 <= i < |inv.tokens| ==> inv.tokens[i].address == listing.tokens[i]
    ensures Lists(inv, listing)
  {
  }

  lemma SamePairsListed(pairs: map<Address, seq<Address>>, inv: Inventory, listed: seq<ListedPair>)
    requires ListsPairs(pairs, listed) && |inv.markets| == |listed|
    requires forall i :: 0 <= i < |inv.markets| ==>
               inv.markets[i].item.address == listed[i].address && inv.markets[i].assets == listed[i].assets
    ensures SamePairs(pairs, inv)
  {
    forall m | m in inv.markets
      ensures m.item.address in pairs && pairs[m.item.address] == m.assets
    {
      var i :| 0 <= i < |inv.markets| && inv.markets[i] == m;
      assert listed[i] in listed;
    }
    forall p | p in pairs
      ensures exists m :: m in inv.markets && m.item.address == p
    {
      var l :| l in listed && l.address == p;
      var i :| 0 <= i < |listed| && listed[i] == l;
      assert inv.markets[i] in inv.markets;
    }
  }

  lemma SnapshotOf(id: Identity, f: Facts, inv: Inventory)
    requires WellIdentified(id) && WellShaped(inv)
    requires forall role :: role in inv.instances ==> Seen(id, f, inv.instances[role])
    requires forall i :: 0 <= i < |inv.markets| ==>
               && Seen(id, f, inv.markets[i].item) && inv.markets[i].item.address in f.contracts
               && inv.markets[i].paused == f.contracts[inv.markets[i].item.address].paused
               && (inv.markets[i].item.needsMigrate ==> inv.markets[i].affected)
    requires forall i :: 0 <= i < |inv.tokens| ==> Seen(id, f, inv.tokens[i])
    requires SamePairs(f.pairs, inv) && inv.tokens != []
    requires inv.whitelist == f.listed && inv.pairTemplate == f.pairTemplate
    requires inv.launcherToken == f.launcherToken && inv.launcherAutolp == f.launcherAutolp
    ensures Snapshot(id, f, inv)
  {
    hide Seen, SamePairs;
    forall it | IsItem(inv, it)
      ensures Seen(id, f, it)
    {
      if it in inv.tokens {
        var i :| 0 <= i < |inv.tokens| && inv.tokens[i] == it;
      }
    }
  }

  method TakeCore(id: Identity, f: Facts, listing: Listing) returns (r: Option<map<Role, Item>>)
    requires WellIdentified(id)
    ensures r.Some? ==> forall role :: role in r.value ==>
              && role in CORE_ROLES && r.value[role].role == role && Seen(id, f, r.value[role])
              && role in listing.core && r.value[role].address == listing.core[role]
    ensures r.Some? ==> forall role :: role in listing.core && role in CORE_ROLES ==> role in r.value
    ensures r.None? <==> exists role ::
            role in listing.core && role in CORE_ROLES && Inspect(id, f, listing.core[role], role).None?
  {
    var instances: map<Role, Item> := map[];
    for k := 0 to |CORE_ROLES|
      invariant forall role :: role in instances ==>
                  && role in CORE_ROLES && instances[role].role == role && Seen(id, f, instances[role])
                  && role in listing.core && instances[role].address == listing.core[role]
      invariant forall i :: 0 <= i < k && CORE_ROLES[i] in listing.core ==>
                  CORE_ROLES[i] in instances && Inspect(id, f, listing.core[CORE_ROLES[i]], CORE_ROLES[i]).Some?
    {
      var role := CORE_ROLES[k];
      if role in listing.core {
        var item := Inspect(id, f, listing.core[role], role);
        if item.None? {
          return None;
        }
        instances := instances[role := item.value];
      }
    }
    return Some(instances);
  }

  /** A listed contract is not what it should be, or listed twice. */
  ghost predicate Unreadable(id: Identity, f: Facts, addresses: seq<Address>, role: Role) {
    || (exists a :: a in addresses && Inspect(id, f, a, role).None?)
    || (exists i, k :: 0 <= i < k < |addresses| && addresses[i] == addresses[k])
  }

  function PairAddresses(pairs: seq<ListedPair>): (addresses: seq<Address>)
    ensures |addresses| == |pairs| && forall i :: 0 <= i < |pairs| ==> addresses[i] == pairs[i].address
  {
    seq(|pairs|, i requires 0 <= i < |pairs| => pairs[i].address)
  }

  /** A pair's entry: the contract as it is, its pause flag, and the rule that decides whether it is affected. */
  ghost predicate Taken(id: Identity, f: Facts, pair: ListedPair, tokens: seq<Address>, everything: bool, m: Market) {
    && m.item.role == Pair && Seen(id, f, m.item) && m.item.address == pair.address
    && m.assets == pair.assets
    && pair.address in f.contracts && m.paused == f.contracts[pair.address].paused
    && m.affected == (everything || m.item.needsMigrate || TradesToken(pair.assets, tokens))
  }

  lemma TakenNow(id: Identity, f: Facts, pair: ListedPair, tokens: seq<Address>, everything: bool, it: Item)
    requires it.role == Pair && Seen(id, f, it) && it.address == pair.address
    ensures pair.address in f.contracts
    ensures var affected := everything || it.needsMigrate || TradesToken(pair.assets, tokens);
            Taken(id, f, pair, tokens, everything, Market(it, f.contracts[pair.address].paused, affected, pair.assets))
  {
  }

  method TakeMarkets(id: Identity, f: Facts, listing: Listing, everything: bool) returns (r: Option<seq<Market>>)
    requires WellIdentified(id)
    ensures r.None? <==> Unreadable(id, f, PairAddresses(listing.pairs), Pair)
    ensures r.Some? ==>
              && |r.value| == |listing.pairs|
              && (forall i :: 0 <= i < |r.value| ==>
                  Taken(id, f, listing.pairs[i], listing.tokens, everything, r.value[i]))
              && (forall i, k :: 0 <= i < k < |r.value| ==> r.value[i].item.address != r.value[k].item.address)
  {
    ghost var addresses := PairAddresses(listing.pairs);
    var markets: seq<Market> := [];
    for n := 0 to |listing.pairs|
      invariant |markets| == n
      invariant forall i :: 0 <= i < n ==> Taken(id, f, listing.pairs[i], listing.tokens, everything, markets[i])
      invariant forall i :: 0 <= i < n ==>
                markets[i].item.address == addresses[i] && Inspect(id, f, addresses[i], Pair).Some?
      invariant forall i, k :: 0 <= i < k < n ==> markets[i].item.address != markets[k].item.address
    {
      hide Seen, Taken, TradesToken;
      var pair := listing.pairs[n];
      var item := Inspect(id, f, pair.address, Pair);
      assert addresses[n] == pair.address;
      if item.None? || exists i :: 0 <= i < n && markets[i].item.address == pair.address {
        return None;
      }
      TakenNow(id, f, pair, listing.tokens, everything, item.value);
      var affected := everything || item.value.needsMigrate || TradesToken(pair.assets, listing.tokens);
      markets := markets + [Market(item.value, f.contracts[pair.address].paused, affected, pair.assets)];
    }
    return Some(markets);
  }

  method TakeTokens(id: Identity, f: Facts, listing: Listing) returns (r: Option<seq<Item>>)
    requires WellIdentified(id)
    ensures r.None? <==> Unreadable(id, f, listing.tokens, Token)
    ensures r.Some? ==>
              && |r.value| == |listing.tokens|
              && (forall i :: 0 <= i < |r.value| ==> r.value[i].role == Token && Seen(id, f, r.value[i]))
              && (forall i :: 0 <= i < |r.value| ==> r.value[i].address == listing.tokens[i])
              && (forall i, k :: 0 <= i < k < |r.value| ==> r.value[i].address != r.value[k].address)
  {
    hide Seen, Inspect;
    var tokens: seq<Item> := [];
    for n := 0 to |listing.tokens|
      invariant |tokens| == n
      invariant forall i :: 0 <= i < n ==> tokens[i].role == Token && Seen(id, f, tokens[i])
      invariant forall i :: 0 <= i < n ==>
                tokens[i].address == listing.tokens[i] && Inspect(id, f, listing.tokens[i], Token).Some?
      invariant forall i, k :: 0 <= i < k < n ==> tokens[i].address != tokens[k].address
    {
      var item := Inspect(id, f, listing.tokens[n], Token);
      if item.None? || exists i :: 0 <= i < n && tokens[i].address == listing.tokens[n] {
        return None;
      }
      tokens := tokens + [item.value];
    }
    return Some(tokens);
  }
}

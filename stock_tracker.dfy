/** The `stock-tracker` command: the per-channel registry of running trackers
    and previous stock states, the `start` and `stop` subcommands, and the
    interval tick that re-fetches the shop, finds restocked items and
    replaces the channel's previous state. */
module StockTracker {
  import opened Common
  import opened Names
  import opened StockSnapshot

  /** Role ids to mention: shop key, then item name, to role id. */
  type StockRoles = map<string, map<string, string>>

  /** `roleMappings` as the tracker uses it: the empty object. */
  const StockRoleMappings: StockRoles := map[]

  /** `oldRoleMappings`: the populated table, which nothing reads. */
  const OldStockRoleMappings: StockRoles := map[
    "seed_stock" := map[
      "Beanstalk" := "1378079580627275786",
      "Cacao" := "1378080651911364649",
      "Pepper" := "1378080718500139080",
      "Mushroom" := "1378080752620802098",
      "Grape" := "1378080807541018624",
      "Mango" := "1378080825769328722",
      "Dragon Fruit" := "1378080844039721142",
      "Cactus" := "1378080865208238171",
      "Coconut" := "1378080890198167582"],
    "gear_stock" := map[
      "Master Sprinkler" := "1378079539413909645",
      "Godly Sprinkler" := "1378080036178886736",
      "Advanced Sprinkler" := "1367539082216870039",
      "Basic Sprinkler" := "1374423920932814949",
      "Lightning Rod" := "1378099474290966578"],
    "egg_stock" := map[
      "Bug Egg" := "1378099589835522159",
      "Mythical Egg" := "1378099518842732594"],
    "eventshop_stock" := map[
      "Bee Egg" := "1379397085123706922",
      "Bee Crate" := "1379397150751850556",
      "Honey Sprinkler" := "1379397351164350495",
      "Nectarine Seed" := "1379397575802753107",
      "Hive Fruit" := "1379397485260308553"]]

  /** `roleMappings[shop]?.[itemName]`, when it is truthy (present and not
      the empty string). */
  function RoleFor(roles: StockRoles, shop: string, name: string): Option<string> {
    if shop in roles && name in roles[shop] && roles[shop][name] != "" then Some(roles[shop][name])
    else None
  }

  /** A restock alert: the item and the role it mentions. */
  datatype RestockAlert = RestockAlert(itemName: string, roleId: string)

  /** The content of the alert message. */
  function RestockAlertText(a: RestockAlert): string {
    "\U{1F389} " + a.itemName + " is back in stock! <@&" + a.roleId + ">"
  }

  /** `previousState.items.get(itemName) || 0`: an item the previous state
      does not know counts as out of stock. */
  function PreviousQuantity(prev: map<string, int>, name: string): int {
    if name in prev then prev[name] else 0
  }

  /** The item was out of stock at the previous tick and is in stock now. */
  predicate Restocked(prev: map<string, int>, item: StockItem) {
    PreviousQuantity(prev, item.displayName) == 0 && item.quantity > 0
  }

  /** The alerts the loop over `currentItems` wants to post, in item order. */
  function RestockAlerts(prev: map<string, int>, current: seq<StockItem>, shop: string, roles: StockRoles): seq<RestockAlert>
    decreases |current|
  {
    if current == [] then []
    else
      var item := current[|current| - 1];
      var role := RoleFor(roles, shop, item.displayName);
      RestockAlerts(prev, current[..|current| - 1], shop, roles)
        + (if Restocked(prev, item) && role.Some? then [RestockAlert(item.displayName, role.value)] else [])
  }

  /** `new Map(combinedItems.map(item => [item.display_name, item.quantity]))`:
      a later entry with the same name overwrites an earlier one. */
  function ItemsMap(items: seq<StockItem>): map<string, int>
    decreases |items|
  {
    if items == [] then map[]
    else
      var last := items[|items| - 1];
      ItemsMap(items[..|items| - 1])[last.displayName := last.quantity]
  }

  /** The previous state of one channel: the shop it tracks and the last
      observed quantity per item name. */
  datatype StockState = StockState(shop: string, items: map<string, int>)

  /** The items a start seeds the previous state with: those of the second
      fetch, or none when that fetch found no entries. */
  function SeedItems(data: StockData): map<string, int> {
    if data.Available? then ItemsMap(data.combined) else map[]
  }

  /** One tick of the interval for `channel`, tracking `shop`, against the
      previous-state store `states`. */
  function StockTick(states: map<ChannelId, StockState>, channel: ChannelId, shop: string,
                     fetched: Fetch<StockPayload>, io: ChannelIO, roles: StockRoles): TickResult<RestockAlert, StockState>
  {
    if fetched.FetchError? || !io.editSucceeds then TickResult(None, [], states)
    else
      var data := StockDataOf(fetched.payload, shop);
      var after := AfterEdit(states, channel, shop, data, io, roles);
      TickResult(Some(StockEmbed(shop, data)), after.posted, after.states)
  }

  /** The part of a tick after the edit succeeded: the diff against the
      channel's previous state, when it has one for the same shop and the
      fetch found entries, and its replacement. */
  function AfterEdit(states: map<ChannelId, StockState>, channel: ChannelId, shop: string,
                     data: StockData, io: ChannelIO, roles: StockRoles): TickResult<RestockAlert, StockState>
  {
    if channel !in states || states[channel].shop != shop || data.Unavailable? then TickResult(None, [], states)
    else
      var due := RestockAlerts(states[channel].items, data.combined, shop, roles);
      TickResult(None, Posted(due, io),
                 if AllPosted(due, io) then states[channel := StockState(shop, ItemsMap(data.combined))] else states)
  }

  /** A tick is its edit followed by `AfterEdit`. */
  lemma TickThenAfterEdit(states: map<ChannelId, StockState>, channel: ChannelId, shop: string,
                          fetched: Fetch<StockPayload>, io: ChannelIO, roles: StockRoles)
    ensures var r := StockTick(states, channel, shop, fetched, io, roles);
      && (fetched.FetchError? || !io.editSucceeds ==> r.posted == [] && r.states == states)
      && (fetched.Fetched? && io.editSucceeds ==>
            var after := AfterEdit(states, channel, shop, StockDataOf(fetched.payload, shop), io, roles);
            r.posted == after.posted && r.states == after.states)
  {
  }

  /** The tracker of one channel: the shop and the message it keeps edited
      (the interval handle is not modelled). */
  datatype StockTrackerEntry = StockTrackerEntry(shop: string, message: MessageRef)

  datatype StartOutcome =
    | Started(itemCount: nat)   // "Started auto-updating ... Tracking n items."
    | AlreadyActive             // "There is already an active stock tracker in this channel."
    | FetchFailed               // "Error Fetching Shop! Try again later."
    | Errored                   // an exception reached the command's catch block

  datatype StopOutcome =
    | Stopped(message: MessageRef)   // the tracker's message, which stop deletes
    | NotActive                      // "There is no active stock tracker in this channel."

  /** The module-level maps `activeTrackers` and `previousStockStates`. */
  class StockTrackerRegistry {
    var activeTrackers: map<ChannelId, StockTrackerEntry>
    var previousStockStates: map<ChannelId, StockState>

    /** A channel has a tracker exactly when it has a previous state, for
        the same shop. */
    ghost predicate Valid()
      reads this
    {
      && activeTrackers.Keys == previousStockStates.Keys
      && forall c :: c in activeTrackers ==> previousStockStates[c].shop == activeTrackers[c].shop
    }

    constructor ()
      ensures Valid()
      ensures activeTrackers == map[] && previousStockStates == map[]
    {
      activeTrackers := map[];
      previousStockStates := map[];
    }

    /** `stock-tracker start <shop>` in `channel`. `first` and `second` are
        the two requests the command makes (the second one seeds the previous
        state); `posted` is the tracker message, None when posting it threw. */
    method Start(channel: ChannelId, shop: string, first: Fetch<StockPayload>,
                 posted: Option<MessageRef>, second: Fetch<StockPayload>)
      returns (outcome: StartOutcome)
      requires Valid()
      modifies this
      ensures Valid()
      ensures outcome == AlreadyActive <==> channel in old(activeTrackers)
      ensures outcome == Errored <==>
        && channel !in old(activeTrackers)
        && (|| first.FetchError?
            || (StockDataOf(first.payload, shop).Available? && (posted.None? || second.FetchError?)))
      ensures outcome == FetchFailed <==>
        channel !in old(activeTrackers) && first.Fetched? && StockDataOf(first.payload, shop).Unavailable?
      ensures outcome.Started? <==>
        && channel !in old(activeTrackers)
        && first.Fetched? && StockDataOf(first.payload, shop).Available?
        && posted.Some? && second.Fetched?
      ensures outcome.Started? ==>
        && outcome.itemCount == StockDataOf(first.payload, shop).itemCount
        && activeTrackers == old(activeTrackers)[channel := StockTrackerEntry(shop, posted.value)]
        && previousStockStates == old(previousStockStates)[channel := StockState(shop, SeedItems(StockDataOf(second.payload, shop)))]
      ensures !outcome.Started? ==>
        activeTrackers == old(activeTrackers) && previousStockStates == old(previousStockStates)
    {
      if channel in activeTrackers {
        return AlreadyActive;
      }
      if first.FetchError? {
        return Errored;
      }
      var data := FetchStockData(first.payload, shop);
      if !data.Available? {
        return FetchFailed;
      }
      if posted.None? || second.FetchError? {
        return Errored;
      }
      var seed := FetchStockData(second.payload, shop);
      previousStockStates := previousStockStates[channel := StockState(shop, SeedItems(seed))];
      activeTrackers := activeTrackers[channel := StockTrackerEntry(shop, posted.value)];
      outcome := Started(data.itemCount);
    }

    /** `stock-tracker stop` in `channel`. */
    method Stop(channel: ChannelId) returns (outcome: StopOutcome)
      requires Valid()
      modifies this
      ensures Valid()
      ensures channel !in old(activeTrackers) ==>
        outcome == NotActive && activeTrackers == old(activeTrackers) && previousStockStates == old(previousStockStates)
      ensures channel in old(activeTrackers) ==>
        && outcome == Stopped(old(activeTrackers)[channel].message)
        && activeTrackers == old(activeTrackers) - {channel}
        && previousStockStates == old(previousStockStates) - {channel}
    {
      if channel !in activeTrackers {
        return NotActive;
      }
      outcome := Stopped(activeTrackers[channel].message);
      activeTrackers := activeTrackers - {channel};
      previousStockStates := previousStockStates - {channel};
    }

    /** One firing of the interval the tracker of `channel` (for `shop`) set
        up: fetch, edit the message, post alerts for restocked items, replace
        the channel's previous items. */
    method Tick(channel: ChannelId, shop: string, fetched: Fetch<StockPayload>, io: ChannelIO, roles: StockRoles)
      returns (shown: Option<Embed>, posted: seq<RestockAlert>)
      requires Valid()
      modifies this
      ensures Valid()
      ensures activeTrackers == old(activeTrackers)
      ensures var r := StockTick(old(previousStockStates), channel, shop, fetched, io, roles);
        shown == r.shown && posted == r.posted && previousStockStates == r.states
    {
      shown, posted := None, [];
      if fetched.FetchError? || !io.editSucceeds {
        return;
      }
      var data := FetchStockData(fetched.payload, shop);
      shown := Some(StockEmbed(shop, data));
      if channel !in previousStockStates || previousStockStates[channel].shop != shop || data.Unavailable? {
        return;
      }
      var completed;
      posted, completed := PostRestockAlerts(previousStockStates[channel].items, data.combined, shop, io, roles);
      if completed {
        previousStockStates := previousStockStates[channel := StockState(shop, ItemsMap(data.combined))];
      }
    }
  }

  /** The `for ... of currentItems` loop of the tick: posts an alert for every
      restocked item that has a role, in item order, until a post throws.
      `completed` is false when a post threw, which skips the state update. */
  method PostRestockAlerts(prev: map<string, int>, current: seq<StockItem>, shop: string, io: ChannelIO, roles: StockRoles)
    returns (posted: seq<RestockAlert>, completed: bool)
    ensures posted == Posted(RestockAlerts(prev, current, shop, roles), io)
    ensures completed == AllPosted(RestockAlerts(prev, current, shop, roles), io)
  {
    ghost var due := RestockAlerts(prev, current, shop, roles);
    posted := [];
    var i, failed := 0, false;
    while i < |current| && !failed
      invariant 0 <= i <= |current|
      invariant !failed ==> posted == RestockAlerts(prev, current[..i], shop, roles) && AllPosted(posted, io)
      invariant failed ==> posted == Posted(due, io) && !AllPosted(due, io)
    {
      var item := current[i];
      assert current[..i + 1][..i] == current[..i];
      if Restocked(prev, item) {
        var role := RoleFor(roles, shop, item.displayName);
        if role.Some? {
          if CanPost(io, |posted|) {
            posted := posted + [RestockAlert(item.displayName, role.value)];
          } else {
            RestockAlertsPrefix(prev, current, shop, roles, i + 1);
            failed := true;
          }
        }
      }
      i := i + 1;
    }
    if !failed {
      assert current[..i] == current;
    }
    completed := !failed;
  }

  // ---------------------------------------------------------------------
  // Lemmas

  /** The alerts for a prefix of the items are a prefix of the alerts. */
  lemma {:induction false} RestockAlertsPrefix(prev: map<string, int>, current: seq<StockItem>, shop: string, roles: StockRoles, i: nat)
    requires i <= |current|
    ensures RestockAlerts(prev, current[..i], shop, roles) <= RestockAlerts(prev, current, shop, roles)
    decreases |current| - i
  {
    if i < |current| {
      var init := current[..|current| - 1];
      assert current[..i] == init[..i];
      RestockAlertsPrefix(prev, init, shop, roles, i);
      var a := RestockAlerts(prev, current[..i], shop, roles);
      var b := RestockAlerts(prev, init, shop, roles);
      var c := RestockAlerts(prev, current, shop, roles);
      assert c[..|b|] == b;
      assert b[..|a|] == a;
      assert c[..|a|] == a;
    } else {
      assert current[..i] == current;
    }
  }

  /** A restock alert is due for item `name` with role `role` exactly when
      the item is among the current items, its previous quantity (absent
      counted as 0) is 0, its current quantity is positive, and the role
      table has a role for it. */
  lemma {:induction false} RestockAlertsExactly(prev: map<string, int>, current: seq<StockItem>, shop: string,
                                                roles: StockRoles, name: string, role: string)
    ensures RestockAlert(name, role) in RestockAlerts(prev, current, shop, roles) <==>
      exists it :: it in current && it.displayName == name && Restocked(prev, it) && RoleFor(roles, shop, name) == Some(role)
    decreases |current|
  {
    if current != [] {
      var init := current[..|current| - 1];
      var last := current[|current| - 1];
      assert current == init + [last];
      RestockAlertsExactly(prev, init, shop, roles, name, role);
      assert forall it :: it in current <==> it in init || it == last;
    }
  }

  /** With the role table as written (empty) no restock alert is ever due. */
  lemma {:induction false} NoRestockAlertsAsWritten(prev: map<string, int>, current: seq<StockItem>, shop: string)
    ensures RestockAlerts(prev, current, shop, StockRoleMappings) == []
    decreases |current|
  {
    if current != [] {
      NoRestockAlertsAsWritten(prev, current[..|current| - 1], shop);
    }
  }

  /** The map built from items with distinct names has exactly those names,
      each with its item's quantity. */
  lemma {:induction false} ItemsMapOf(items: seq<StockItem>)
    requires DistinctNames(items)
    ensures ItemsMap(items).Keys == NamesOf(items)
    ensures forall it :: it in items ==> ItemsMap(items)[it.displayName] == it.quantity
    decreases |items|
  {
    ItemsMapKeys(items);
    if items != [] {
      var init := items[..|items| - 1];
      var last := items[|items| - 1];
      DistinctNamesAt(items);
      DistinctNamesAt(init);
      ItemsMapOf(init);
      forall it | it in items ensures ItemsMap(items)[it.displayName] == it.quantity {
        var k :| 0 <= k < |items| && items[k] == it;
        if k < |items| - 1 {
          assert init[k] == it;
          assert it.displayName != last.displayName;
        }
      }
    }
  }

  /** The names of the map are the names of the items. */
  lemma {:induction false} ItemsMapKeys(items: seq<StockItem>)
    ensures ItemsMap(items).Keys == NamesOf(items)
    decreases |items|
  {
    if items != [] {
      var init := items[..|items| - 1];
      var last := items[|items| - 1];
      assert items == init + [last];
      ItemsMapKeys(init);
      assert forall it :: it in items <==> it in init || it == last;
    }
  }

  /** With every alert post succeeding, the tick of a tracked channel whose
      fetch finds the shop's entries replaces the channel's previous items
      by the current snapshot: every current item with its quantity, nothing
      else. */
  lemma CompletedTickRecordsSnapshot(states: map<ChannelId, StockState>, channel: ChannelId, shop: string,
                                     payload: StockPayload, roles: StockRoles)
    requires channel in states && states[channel].shop == shop
    requires StockDataOf(payload, shop).Available?
    ensures var r := StockTick(states, channel, shop, Fetched(payload), ChannelIO(true, None), roles);
      && r.states.Keys == states.Keys
      && r.states[channel].shop == shop
      && r.states[channel].items.Keys == NamesOf(ShopEntries(payload, shop))
      && (forall it :: it in StockDataOf(payload, shop).combined ==>
            && it.displayName in r.states[channel].items
            && r.states[channel].items[it.displayName] == it.quantity == QuantityOf(ShopEntries(payload, shop), it.displayName))
      && (forall c :: c in states && c != channel ==> r.states[c] == states[c])
  {
    var raw := ShopEntries(payload, shop);
    var c := Combined(raw);
    var due := RestockAlerts(states[channel].items, c, shop, roles);
    assert StockDataOf(payload, shop).combined == c;
    assert AllPosted(due, ChannelIO(true, None));
    TickThenAfterEdit(states, channel, shop, Fetched(payload), ChannelIO(true, None), roles);
    CombinedSorted(raw);
    CombinedNames(raw);
    CombinedQuantities(raw);
    ItemsMapOf(c);
  }

  /** A tick whose fetch throws, whose message edit throws, or whose fetch
      finds no entries for the shop changes nothing: the next tick diffs
      against the state from before it. */
  lemma FailedTickIsTransparent(states: map<ChannelId, StockState>, channel: ChannelId, shop: string,
                                failed: Fetch<StockPayload>, io1: ChannelIO,
                                next: Fetch<StockPayload>, io2: ChannelIO, roles: StockRoles)
    requires failed.FetchError? || !io1.editSucceeds || StockDataOf(failed.payload, shop).Unavailable?
    ensures StockTick(states, channel, shop, failed, io1, roles).posted == []
    ensures StockTick(StockTick(states, channel, shop, failed, io1, roles).states, channel, shop, next, io2, roles)
         == StockTick(states, channel, shop, next, io2, roles)
  {
  }

  /** A tick of a channel with no previous state for this shop does no
      diff: it posts nothing and leaves the store as it was. */
  lemma UntrackedTickDoesNoDiff(states: map<ChannelId, StockState>, channel: ChannelId, shop: string,
                                fetched: Fetch<StockPayload>, io: ChannelIO, roles: StockRoles)
    requires channel !in states || states[channel].shop != shop
    ensures StockTick(states, channel, shop, fetched, io, roles).posted == []
    ensures StockTick(states, channel, shop, fetched, io, roles).states == states
  {
    TickThenAfterEdit(states, channel, shop, fetched, io, roles);
  }

  /** A tick whose alert posting stops at a post that throws posts only a
      strict prefix of the due alerts and keeps the previous state, so the
      next tick diffs against the older state again. */
  lemma InterruptedTickKeepsState(states: map<ChannelId, StockState>, channel: ChannelId, shop: string,
                                  payload: StockPayload, io: ChannelIO, roles: StockRoles)
    requires channel in states && states[channel].shop == shop && io.editSucceeds
    requires StockDataOf(payload, shop).Available?
    requires !AllPosted(RestockAlerts(states[channel].items, StockDataOf(payload, shop).combined, shop, roles), io)
    ensures var r := StockTick(states, channel, shop, Fetched(payload), io, roles);
      && r.states == states
      && r.posted < RestockAlerts(states[channel].items, StockDataOf(payload, shop).combined, shop, roles)
  {
    TickThenAfterEdit(states, channel, shop, Fetched(payload), io, roles);
  }

  /** Alerts fire on tick-to-tick transitions only: after a completed tick,
      a tick that sees the same stock posts nothing. */
  lemma RepeatedTickIsQuiet(states: map<ChannelId, StockState>, channel: ChannelId, shop: string,
                            payload: StockPayload, io: ChannelIO, roles: StockRoles)
    requires channel in states && states[channel].shop == shop
    requires StockDataOf(payload, shop).Available?
    ensures var r := StockTick(states, channel, shop, Fetched(payload), ChannelIO(true, None), roles);
      StockTick(r.states, channel, shop, Fetched(payload), io, roles).posted == []
  {
    var data := StockDataOf(payload, shop);
    CombinedDistinct(payload, shop);
    AfterEditTwiceIsQuiet(states, channel, shop, data, io, roles);
    TickThenAfterEdit(states, channel, shop, Fetched(payload), ChannelIO(true, None), roles);
    var r := StockTick(states, channel, shop, Fetched(payload), ChannelIO(true, None), roles);
    TickThenAfterEdit(r.states, channel, shop, Fetched(payload), io, roles);
  }

  lemma CombinedDistinct(payload: StockPayload, shop: string)
    requires StockDataOf(payload, shop).Available?
    ensures DistinctNames(StockDataOf(payload, shop).combined)
  {
    CombinedSorted(ShopEntries(payload, shop));
  }

  /** The diff part of `RepeatedTickIsQuiet`. */
  lemma AfterEditTwiceIsQuiet(states: map<ChannelId, StockState>, channel: ChannelId, shop: string,
                              data: StockData, io: ChannelIO, roles: StockRoles)
    requires channel in states && states[channel].shop == shop
    requires data.Available? && DistinctNames(data.combined)
    ensures var r := AfterEdit(states, channel, shop, data, ChannelIO(true, None), roles);
      AfterEdit(r.states, channel, shop, data, io, roles).posted == []
  {
    RecordedItemsAreQuiet(data.combined, shop, roles);
  }

  /** Diffing items with distinct names against the map recorded from them
      finds nothing restocked. */
  lemma RecordedItemsAreQuiet(c: seq<StockItem>, shop: string, roles: StockRoles)
    requires DistinctNames(c)
    ensures RestockAlerts(ItemsMap(c), c, shop, roles) == []
  {
    ItemsMapOf(c);
    var m := ItemsMap(c);
    forall it | it in c ensures !Restocked(m, it) {
      assert it.displayName in NamesOf(c);
    }
    NothingRestocked(m, c, shop, roles);
  }

  lemma {:induction false} NothingRestocked(prev: map<string, int>, current: seq<StockItem>, shop: string, roles: StockRoles)
    requires forall it :: it in current ==> !Restocked(prev, it)
    ensures RestockAlerts(prev, current, shop, roles) == []
    decreases |current|
  {
    if current != [] {
      var init := current[..|current| - 1];
      assert forall it :: it in init ==> it in current;
      NothingRestocked(prev, init, shop, roles);
    }
  }

  /** The diff example: previous {A: 0, B: 3}, current A 5, B 3, C 0 gives
      exactly one alert, for A; B did not change and C appeared with 0. */
  lemma RestockExample()
    ensures var roles := map["shop" := map["A" := "1", "B" := "2", "C" := "3"]];
      RestockAlerts(map["A" := 0, "B" := 3], [StockItem("A", 5), StockItem("B", 3), StockItem("C", 0)], "shop", roles)
        == [RestockAlert("A", "1")]
  {
    var roles := map["shop" := map["A" := "1", "B" := "2", "C" := "3"]];
    var prev := map["A" := 0, "B" := 3];
    var current := [StockItem("A", 5), StockItem("B", 3), StockItem("C", 0)];
    assert current[..2] == [StockItem("A", 5), StockItem("B", 3)];
    assert current[..2][..1] == [StockItem("A", 5)];
    assert current[..2][..1][..0] == [];
    assert RestockAlerts(prev, [StockItem("A", 5)], "shop", roles) == [RestockAlert("A", "1")];
    assert RestockAlerts(prev, current[..2], "shop", roles) == [RestockAlert("A", "1")];
  }

  /** With the populated table the source no longer reads, a Grape restock
      in the seed shop would mention the Grape role. */
  lemma OldTableWouldAlert()
    ensures RestockAlerts(map["Grape" := 0], [StockItem("Grape", 4)], "seed_stock", OldStockRoleMappings)
         == [RestockAlert("Grape", "1378080807541018624")]
  {
    assert [StockItem("Grape", 4)][..0] == [];
  }
}

# GrowAGarden trackers: a verified model

This project models the two auto-updating trackers of the GrowAGarden Discord
bot:

- `stock-tracker`: one channel tracks one shop (seed, gear, egg, cosmetic or
  event shop). Every tick re-fetches the shop's stock, merges duplicate
  entries by display name, sorts them by name, edits the tracked message, and
  posts a role-mentioning alert for every item that went from out of stock to
  in stock and whose shop and name have a role in the tracker's role table.
  That table is empty, so as written no stock alert is ever posted.
- `weather-tracker`: one channel tracks all weather events. Every tick
  re-fetches the events, renders one status line per event, edits the tracked
  message, and posts a role-mentioning alert for every event that is active
  now, was inactive in the first previous entry with its name, and has a role
  in the weather role table (BeeSwarm and Disco have none).

Each tracker keeps two module-level maps keyed by channel: the running trackers
and the previous state the next tick diffs against. Each tracker is modelled
as a class with those two maps as fields (`StockTrackerRegistry`,
`WeatherTrackerRegistry`), with `Start`, `Stop` and `Tick` methods. Each tick
is also a pure function (`StockTick`, `WeatherTick`) that the `Tick` methods
are proved equal to. The loops of the source are methods with loop invariants
proved against specification functions:

- `CombineItems` is the merge loop.
- `PostRestockAlerts` and `PostActivationAlerts` are the alert loops.

The fetch functions become pure functions of the parsed response.

Modules:

- `Common`: option type, the outcome of a request, the platform's behaviour
  during a tick, decimal rendering with its parse-back round trip, and joining
  lines with its split round trip.
- `Names`: the total order in which item names are sorted.
- `StockSnapshot` and `StockTracker`: `commands/stocktracker.js`.
- `WeatherSnapshot` and `WeatherTracker`: `commands/weathertracker.js`.

Inputs that stand for the outside world:

- A request to the game-status API is a `Fetch<T>`: either the parsed JSON
  body, or `FetchError` for a request that throws (network error or non-2xx
  status).
- Posting the tracker message at start is an `Option<MessageRef>`, where None
  means the post threw.
- During a tick, the platform's behaviour is a `ChannelIO`: whether the edit
  of the tracked message succeeds, and how many alert posts succeed before one
  throws.
- The role tables are parameters of the diff functions and of `Tick`. The
  source's own tables are the constants `StockRoleMappings`,
  `OldStockRoleMappings` and `WeatherRoleMappings`.

Points where the code's behaviour is easy to misread:

- Each alert post is awaited inside the tick's
  `try`. A post that throws ends the loop, so later alerts of that tick are not
  posted and the previous-state store is not updated. The next tick therefore
  diffs against the older state again (`Posted`, and the
  `InterruptedTickKeepsState` lemmas of both trackers).
- `stock-tracker start` fetches twice. The first response decides success and
  is rendered. The second response seeds the previous state, and when it has
  no entries for the shop it seeds an empty map.
- When a stock tick's fetch finds no entries for the shop, the tracked message
  still shows the error embed. The diff then throws on the missing
  `combinedItems`, so the previous state is kept.
- The stock role table the tracker reads (`roleMappings`) is empty, so no
  restock alert is ever posted (`NoRestockAlertsAsWritten`). The populated
  table is still in the file under another name, and nothing reads it.

## Model

| member | source | states |
|---|---|---|
| Common.Decimal | commands/stocktracker.js:216 | defines how an integer is interpolated into a message: a non-empty string of digits with an optional minus sign; `DecimalRoundTrip` states that it reads back exactly |
| Common.Join | commands/weathertracker.js:186 | defines `join('\n')`: the parts with one separator between neighbours, non-empty when the first part is; `SplitJoin` states its inverse |
| Common.Posted | commands/stocktracker.js:114-130 | the alerts that reach the channel are a prefix of the due ones, and are all of them exactly when every post succeeds |
| Common.DecimalRoundTrip | commands/stocktracker.js:216 | an interpolated integer reads back as that integer, so rendered quantities, totals and timestamps are exact |
| Common.SplitJoin | commands/weathertracker.js:174-186 | lines joined with a newline split back into the same lines when no line holds a newline |
| Names.NameBeforeIrreflexive | commands/stocktracker.js:206 | no name sorts before itself |
| Names.NameBeforeTransitive | commands/stocktracker.js:206 | the name order is transitive |
| Names.NameBeforeTotal | commands/stocktracker.js:206 | two different names are always ordered one way or the other |
| Names.NameBeforeAsymmetric | commands/stocktracker.js:206 | two names are never ordered both ways |
| StockSnapshot.Tally | commands/stocktracker.js:192-203 | defines the values of `itemMap` after the `forEach`: a name seen again adds its quantity to the running sum, a new name starts at its own quantity; `TallyKeys` and `TallyQuantity` state what it holds |
| StockSnapshot.Entries | commands/stocktracker.js:205 | defines `Array.from(itemMap.values())`: one merged item per key, in key order, so exactly as many items as keys; `EntriesNames` states their names and quantities |
| StockSnapshot.Combined | commands/stocktracker.js:192-206 | defines `combinedItems`: the merged items sorted by name; `CombinedSorted`, `CombinedNames`, `CombinedQuantities` and `CombinedTotal` state what it holds |
| StockSnapshot.StockDataOf | commands/stocktracker.js:182-234 | defines the result of a successful request: unavailable for a missing or empty shop list, otherwise the combined items, their count and their total; `StockDataOfSpec` states it in full |
| StockSnapshot.FirstNames | commands/stocktracker.js:192-203 | the merge map's key order holds every name seen exactly once |
| StockSnapshot.CombineItems | commands/stocktracker.js:192-206 | the in-place merge loop followed by the sort yields the specified combined items (`Combined`) |
| StockSnapshot.FetchStockData | commands/stocktracker.js:182-189 | the fetch result equals `StockDataOf`: unavailable for a shop with no entries, otherwise the combined items with their count and total |
| StockSnapshot.Insert | commands/stocktracker.js:205-206 | inserting into the sorted list adds exactly that item (multiset) |
| StockSnapshot.SortByName | commands/stocktracker.js:205-206 | sorting is a permutation of the merged items |
| StockSnapshot.SortByNameSorted | commands/stocktracker.js:205-206 | sorting merged items with distinct names leaves them strictly ordered by name |
| StockSnapshot.SortByNameTotal | commands/stocktracker.js:205-206 | sorting keeps the sum of quantities |
| StockSnapshot.TallyKeys | commands/stocktracker.js:192-203 | the merge map's keys are exactly the names in the shop's entries |
| StockSnapshot.TallyQuantity | commands/stocktracker.js:194-199 | each merged quantity is the sum of the quantities of every entry with that name |
| StockSnapshot.MergeTotal | commands/stocktracker.js:192-205 | merging keeps the sum of all quantities |
| StockSnapshot.EntriesNames | commands/stocktracker.js:205 | the map's values carry exactly the key names, pairwise distinct, each with its summed quantity |
| StockSnapshot.CombinedSorted | commands/stocktracker.js:205-206 | the combined items are strictly sorted by name, so no name occurs twice |
| StockSnapshot.CombinedNames | commands/stocktracker.js:192-206 | the combined items have exactly the names of the raw entries |
| StockSnapshot.CombinedQuantities | commands/stocktracker.js:194-199 | each combined item's quantity is the sum over all raw entries of that name |
| StockSnapshot.CombinedTotal | commands/stocktracker.js:221 | the total of the combined items equals the total of the raw entries |
| StockSnapshot.CombinedCount | commands/stocktracker.js:230 | `itemCount` is the number of distinct names |
| StockSnapshot.StockDataOfSpec | commands/stocktracker.js:182-234 | failure exactly when the shop has no entries; otherwise sorted, merged by name with summed quantities, distinct-name count and raw total |
| StockSnapshot.GrapesCombine | commands/stocktracker.js:194-199 | two Grape entries of 2 and 3 merge into one Grape of 5 |
| StockSnapshot.ReplaceFirst | commands/stocktracker.js:209 | defines `replace('_', ' ')` with a string pattern and keeps the length; `ReplaceFirstAt` states that only the first underscore changes |
| StockSnapshot.ItemFields | commands/stocktracker.js:213-219 | defines the inline `Stock: n` field of each combined item, one per item; `StockEmbedFields` states their order and contents |
| StockSnapshot.StockEmbed | commands/stocktracker.js:184-226 | defines the embed: the error description for a shop with no entries, otherwise the title with the shop key, the item fields and the total field; `StockEmbedFields` states its fields |
| StockSnapshot.ReplaceFirstAt | commands/stocktracker.js:209 | `replace` with a string pattern turns only the first underscore of the shop key into a space and keeps every other character |
| StockSnapshot.StockEmbedFields | commands/stocktracker.js:213-226 | one field per combined item, in order, named by the item and reading back its quantity, then the total field reading back the total |
| StockTracker.RoleFor | commands/stocktracker.js:119-120 | defines `roleMappings[shop]?.[itemName]` when truthy: a role only for a present, non-empty entry; `NoRestockAlertsAsWritten` and `OldTableWouldAlert` state its consequences for the two tables |
| StockTracker.RestockAlertText | commands/stocktracker.js:122 | defines the alert message content, naming the item and mentioning the role |
| StockTracker.RestockAlerts | commands/stocktracker.js:114-130 | defines the alerts the loop wants to post, in item order; `RestockAlertsExactly` states which they are |
| StockTracker.ItemsMap | commands/stocktracker.js:112 | defines `new Map(...)` over the items, a later entry overwriting an earlier one of the same name; `ItemsMapKeys` and `ItemsMapOf` state its keys and values |
| StockTracker.SeedItems | commands/stocktracker.js:101 | defines the seed of the previous state: the second response's items, or the empty map when it has no entries for the shop; `StockTrackerRegistry.Start` records it |
| StockTracker.StockTick | commands/stocktracker.js:104-139 | defines one tick: a thrown request or edit shows and changes nothing; otherwise the new embed is shown and `AfterEdit` follows; `CompletedTickRecordsSnapshot`, `FailedTickIsTransparent` and `RepeatedTickIsQuiet` state its behaviour |
| StockTracker.AfterEdit | commands/stocktracker.js:110-133 | defines the rest of a tick: no previous state for this shop, or no entries (where the source throws), keeps the store; otherwise the due alerts are posted up to the first throwing post and, if every post succeeded, the current items are recorded |
| StockTracker.RestockAlertsPrefix | commands/stocktracker.js:114-130 | the alerts of a prefix of the items are a prefix of the alerts |
| StockTracker.RestockAlertsExactly | commands/stocktracker.js:114-128 | an alert for an item and role is due iff the item is current with positive quantity, its previous quantity (absent counts as 0) was 0, and the table has a non-empty role for it |
| StockTracker.NoRestockAlertsAsWritten | commands/stocktracker.js:119 | with the empty role table no restock alert is ever due |
| StockTracker.OldTableWouldAlert | commands/stocktracker.js:11-41 | with the unused populated table a Grape restock in the seed shop would mention the Grape role |
| StockTracker.RestockExample | commands/stocktracker.js:114-130 | previous {A: 0, B: 3} and current A 5, B 3, C 0 alert for A only |
| StockTracker.ItemsMapKeys | commands/stocktracker.js:112 | the current-items map has exactly the items' names as keys |
| StockTracker.ItemsMapOf | commands/stocktracker.js:112 | for items with distinct names, the current-items map has exactly their names, each with its item's quantity |
| StockTracker.PostRestockAlerts | commands/stocktracker.js:114-130 | the alert loop posts exactly the due alerts up to the first post that throws, and reports whether it completed |
| StockTracker.StockTrackerRegistry.constructor | commands/stocktracker.js:3-7 | both maps start empty |
| StockTracker.StockTrackerRegistry.Start | commands/stocktracker.js:84-164 | already active exactly when the channel has a tracker, with no change; a shop with no entries gives the failure reply and no change; an error exactly when, on a fresh channel, the first request throws or, after it found entries, the message post or the second request throws; started exactly when the first request has entries and the post and second request succeed, recording the tracker and seeding the state from the second request |
| StockTracker.StockTrackerRegistry.Stop | commands/stocktracker.js:145-159 | not active → no change; otherwise both entries of the channel are removed and its message is returned for deletion |
| StockTracker.StockTrackerRegistry.Tick | commands/stocktracker.js:104-139 | the tick equals `StockTick`: fetch or edit failure changes nothing; a tracked channel of the same shop posts the due alerts and, when every post succeeded, records the current items |
| StockTracker.CompletedTickRecordsSnapshot | commands/stocktracker.js:112-133 | after a completed tick the channel's previous items are exactly the current names, each with its summed quantity; other channels are untouched |
| StockTracker.FailedTickIsTransparent | commands/stocktracker.js:105-138 | a tick whose fetch or edit throws, or whose shop has no entries, posts nothing and the next tick behaves as if it had not happened |
| StockTracker.UntrackedTickDoesNoDiff | commands/stocktracker.js:110-111 | a tick of a channel with no previous state for this shop posts nothing and leaves the store as it was |
| StockTracker.InterruptedTickKeepsState | commands/stocktracker.js:121-133 | a tick whose alert posting hits a throwing post posts a strict prefix of the due alerts and keeps the previous state, so the next tick diffs against it again |
| StockTracker.RepeatedTickIsQuiet | commands/stocktracker.js:114-133 | after a completed tick, a tick that sees the same stock posts nothing |
| StockTracker.RecordedItemsAreQuiet | commands/stocktracker.js:112-133 | diffing items with distinct names against the map recorded from them finds nothing restocked |
| StockTracker.NothingRestocked | commands/stocktracker.js:114-130 | when no current item is restocked no alert is due |
| WeatherSnapshot.ActiveCount | commands/weathertracker.js:165 | defines the count of active events; `ActiveCountIsActiveIndices` states that it counts the events whose flag is set |
| WeatherSnapshot.EventLine | commands/weathertracker.js:174-185 | defines one status line: emoji, bold name, status, optional Started and Ends segments; `EventLineContent` and `EventLineHasNoNewline` state what it says |
| WeatherSnapshot.WeatherListField | commands/weathertracker.js:186-191 | defines the list field's value: the lines joined by newlines, or the fallback text when that is empty; `FallbackExactlyWhenEmpty` and `OneLinePerEvent` state what it holds |
| WeatherSnapshot.WeatherEmbed | commands/weathertracker.js:168-200 | defines the embed: the title, the list field and the summary field with the active count |
| WeatherSnapshot.FetchWeatherData | commands/weathertracker.js:163-200 | defines the result of a successful request: the embed, the active count and the events, `weather` defaulting to the empty list |
| WeatherSnapshot.EmojiFor | commands/weathertracker.js:175 | a name the table does not know gets the default emoji |
| WeatherSnapshot.ActiveCountIsActiveIndices | commands/weathertracker.js:165 | `activeEvents` is the number of events whose `active` flag is set |
| WeatherSnapshot.EventLineHasNoNewline | commands/weathertracker.js:174-185 | a status line holds no newline when the event name holds none |
| WeatherSnapshot.EventLineContent | commands/weathertracker.js:176-183 | the status segment says Inactive exactly for inactive events and otherwise reads back the duration; the Started and Ends segments appear exactly for positive timestamps and read them back |
| WeatherSnapshot.FallbackExactlyWhenEmpty | commands/weathertracker.js:189-193 | the "No weather events found" fallback is shown exactly when there are no events |
| WeatherSnapshot.OneLinePerEvent | commands/weathertracker.js:174-193 | the rendered list splits into exactly one line per event, in source order |
| WeatherTracker.RoleFor | commands/weathertracker.js:98-99 | defines `weatherRoleMappings[name]` when truthy; `UnmappedNeverAlerts` states its consequence for unmapped events |
| WeatherTracker.Projection | commands/weathertracker.js:112-115 | defines the recorded state, one `{name, active}` entry per event; `ProjectionAt` states entry by entry what it holds |
| WeatherTracker.FindPrevious | commands/weathertracker.js:94 | defines `activeEvents.find(...)` by name; `FindPreviousAt` and `FindPreviousIsFirst` state that it yields the first match |
| WeatherTracker.WeatherAlertText | commands/weathertracker.js:101 | defines the alert message content: warning sign, the event's emoji (default for unknown names), bold name and role mention |
| WeatherTracker.ActivationAlerts | commands/weathertracker.js:93-109 | defines the alerts the loop wants to post, in event order; `ActivationAlertsExactly` states which they are |
| WeatherTracker.WeatherTick | commands/weathertracker.js:86-120 | defines one tick: a thrown request or edit shows and changes nothing; otherwise the new embed is shown and `AfterEdit` follows; `TickRecordsProjection` and `RepeatedTickIsQuiet` state its behaviour |
| WeatherTracker.AfterEdit | commands/weathertracker.js:91-116 | defines the rest of a tick: no previous state keeps the store; otherwise the due alerts are posted up to the first throwing post and, if every post succeeded, the events' projection is recorded |
| WeatherTracker.ActivationAlertsPrefix | commands/weathertracker.js:93-109 | the alerts of a prefix of the events are a prefix of the alerts |
| WeatherTracker.ProjectionAt | commands/weathertracker.js:112-115 | entry k of the recorded state holds the name and the active flag of event k |
| WeatherTracker.FindPreviousAt | commands/weathertracker.js:94 | `find` returns the entry at the first position holding the name |
| WeatherTracker.FindPreviousIsFirst | commands/weathertracker.js:94 | `find` yields the first entry with the name, and nothing exactly when no entry has it |
| WeatherTracker.ActivationAlertsExactly | commands/weathertracker.js:93-103 | an alert for an event and role is due iff a current event of that name is active, the previous state's first entry for it exists and was inactive, and the table has a role for it |
| WeatherTracker.AbsentNeverAlerts | commands/weathertracker.js:94-97 | an event the previous state does not list never alerts |
| WeatherTracker.UnmappedNeverAlerts | commands/weathertracker.js:10-23 | an event without a role never alerts; BeeSwarm and Disco have none |
| WeatherTracker.RainExamples | commands/weathertracker.js:93-109 | Rain inactive then active alerts once with the Rain role; active then active does not alert |
| WeatherTracker.PostActivationAlerts | commands/weathertracker.js:93-109 | the alert loop posts exactly the due alerts up to the first post that throws, and reports whether it completed |
| WeatherTracker.WeatherTrackerRegistry.constructor | commands/weathertracker.js:3-7 | both maps start empty |
| WeatherTracker.WeatherTrackerRegistry.Start | commands/weathertracker.js:69-146 | already active exactly when the channel has a tracker, with no change; an error exactly when, on a fresh channel, the request or the message post throws, with no change; otherwise started, even with no events, counting the active events and seeding the state with the events' names and flags |
| WeatherTracker.WeatherTrackerRegistry.Stop | commands/weathertracker.js:127-141 | not active → no change; otherwise both entries of the channel are removed and its message is returned for deletion |
| WeatherTracker.WeatherTrackerRegistry.Tick | commands/weathertracker.js:85-121 | the tick equals `WeatherTick`: fetch or edit failure changes nothing; a tracked channel posts the due alerts and, when every post succeeded, records the current events' names and flags |
| WeatherTracker.TickRecordsProjection | commands/weathertracker.js:86-120 | a completed tick records, in order, each current event's name and flag; failed ticks keep the store; other channels are untouched |
| WeatherTracker.UntrackedTickDoesNoDiff | commands/weathertracker.js:91-92 | a tick of a channel with no previous state posts nothing and leaves the store as it was |
| WeatherTracker.InterruptedTickKeepsState | commands/weathertracker.js:100-115 | a tick whose alert posting hits a throwing post posts a strict prefix of the due alerts and keeps the previous state, so the next tick diffs against it again |
| WeatherTracker.RepeatedTickIsQuiet | commands/weathertracker.js:91-115 | with distinct event names, a tick that sees the same events as the completed tick before it posts nothing |
| WeatherTracker.NothingActivated | commands/weathertracker.js:93-109 | when no current event was activated no alert is due |
| WeatherTracker.DuplicateNameDiff | commands/weathertracker.js:94-97 | against the state recorded from Rain inactive then Rain active, the active Rain counts as started again |
| WeatherTracker.DuplicateNameRealerts | commands/weathertracker.js:94-115 | with Rain listed inactive and then active, every tick alerts for Rain again, because `find` returns the inactive first entry |

## Left out

- HTTP requests, JSON parsing and the response status: a request is an input that either yields the parsed body or throws.
- Discord itself: deferring and editing the command reply, the reply texts, embed colours and timestamps, and `allowedMentions`. The model keeps the embed text, the alert texts (`RestockAlertText`, `WeatherAlertText`), and which alerts are posted in which order.
- The authorization check on the invoking user id: it only rejects a command before anything else happens.
- Timers: the 60-second interval is modelled as repeated calls to `Tick`; `clearInterval` is implied by `Stop`; the 120-second deletion of alerts and its logged failures are not modelled.
- Concurrency: overlapping ticks and a tick racing `Stop` are not modelled; each call runs to completion.
- Failure of the message deletion in stop: it is caught and logged in the source and changes no state.
- `Names.NameBefore`: sorting uses `localeCompare`, whose collation depends on the runtime's locale; the model orders names by character code instead.
- JavaScript numbers: quantities, durations and timestamps are unbounded integers; floating point, NaN and the number formatting of non-integers are not modelled.
- Malformed payloads (a shop value that is not an array, entries without `display_name` or `quantity`, names that hit `Object.prototype` properties in the role and emoji tables) are not modelled.
- The bot entry point (`index.js`) and the other commands, among them the message-cleanup utility, are not part of this model.

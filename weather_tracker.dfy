/** The `weather-tracker` command: the per-channel registry of running
    trackers and previous weather states, the `start` and `stop`
    subcommands, and the interval tick that re-fetches the weather, finds
    events that became active and replaces the channel's previous state. */
module WeatherTracker {
  import opened Common
  import opened WeatherSnapshot

  /** Role ids to mention: event name to role id. */
  type WeatherRoles = map<string, string>

  /** `weatherRoleMappings` (BeeSwarm and Disco are commented out there). */
  const WeatherRoleMappings: WeatherRoles := map[
    "Rain" := "1378081635622191346",
    "Frost" := "1378081652382761101",
    "Thunderstorm" := "1378081694619271239",
    "NightEvent" := "1381240543467536464",
    "MeteorShower" := "1378081715272155227",
    "JandelStorm" := "1381240273966993418",
    "Blackhole" := "1381240416908742667",
    "DJJhai" := "1381240472823005194",
    "SunGod" := "1381240619938086994",
    "JandelFloat" := "1381241665494192209"]

  /** `weatherRoleMappings[name]`, when it is truthy. */
  function RoleFor(roles: WeatherRoles, name: string): Option<string> {
    if name in roles && roles[name] != "" then Some(roles[name]) else None
  }

  /** What the previous state remembers of an event: `{name, active}`. */
  datatype EventState = EventState(name: string, active: bool)

  /** `events.map(event => ({name: event.weather_name, active: event.active}))`. */
  function Projection(events: seq<WeatherEvent>): (states: seq<EventState>)
    ensures |states| == |events|
  {
    if events == [] then [] else [EventState(events[0].weatherName, events[0].active)] + Projection(events[1..])
  }

  /** Entry `k` of the projection remembers event `k`. */
  lemma {:induction false} ProjectionAt(events: seq<WeatherEvent>, k: nat)
    requires k < |events|
    ensures Projection(events)[k] == EventState(events[k].weatherName, events[k].active)
    decreases k
  {
    if k > 0 {
      ProjectionAt(events[1..], k - 1);
    }
  }

  /** `activeEvents.find(e => e.name === name)`. */
  function FindPrevious(prev: seq<EventState>, name: string): Option<EventState> {
    if prev == [] then None
    else if prev[0].name == name then Some(prev[0])
    else FindPrevious(prev[1..], name)
  }

  /** The event is active now and the previous state has an entry for its
      name, the first of which was inactive. */
  predicate Activated(prev: seq<EventState>, e: WeatherEvent) {
    var p := FindPrevious(prev, e.weatherName);
    p.Some? && !p.value.active && e.active
  }

  /** An activation alert: the event and the role it mentions. */
  datatype WeatherAlert = WeatherAlert(weatherName: string, roleId: string)

  /** The content of the alert message. */
  function WeatherAlertText(a: WeatherAlert): string {
    "\U{26A0}\U{FE0F} " + EmojiFor(a.weatherName) + " **" + a.weatherName + "** has started! <@&" + a.roleId + ">"
  }

  /** The alerts the loop over `currentEvents` wants to post, in event order. */
  function ActivationAlerts(prev: seq<EventState>, current: seq<WeatherEvent>, roles: WeatherRoles): seq<WeatherAlert>
    decreases |current|
  {
    if current == [] then []
    else
      var e := current[|current| - 1];
      var role := RoleFor(roles, e.weatherName);
      ActivationAlerts(prev, current[..|current| - 1], roles)
        + (if Activated(prev, e) && role.Some? then [WeatherAlert(e.weatherName, role.value)] else [])
  }

  /** One tick of the interval for `channel` against the previous-state
      store `states`. */
  function WeatherTick(states: map<ChannelId, seq<EventState>>, channel: ChannelId,
                       fetched: Fetch<WeatherPayload>, io: ChannelIO, roles: WeatherRoles): TickResult<WeatherAlert, seq<EventState>>
  {
    if fetched.FetchError? || !io.editSucceeds then TickResult(None, [], states)
    else
      var events := WeatherEvents(fetched.payload);
      var after := AfterEdit(states, channel, events, io, roles);
      TickResult(Some(WeatherEmbed(events)), after.posted, after.states)
  }

  /** The part of a tick after the edit succeeded: the diff against the
      channel's previous state, when it has one, and its replacement. */
  function AfterEdit(states: map<ChannelId, seq<EventState>>, channel: ChannelId,
                     events: seq<WeatherEvent>, io: ChannelIO, roles: WeatherRoles): TickResult<WeatherAlert, seq<EventState>>
  {
    if channel !in states then TickResult(None, [], states)
    else
      var due := ActivationAlerts(states[channel], events, roles);
      TickResult(None, Posted(due, io), if AllPosted(due, io) then states[channel := Projection(events)] else states)
  }

  /** A tick is its edit followed by `AfterEdit`. */
  lemma TickThenAfterEdit(states: map<ChannelId, seq<EventState>>, channel: ChannelId,
                          fetched: Fetch<WeatherPayload>, io: ChannelIO, roles: WeatherRoles)
    ensures var r := WeatherTick(states, channel, fetched, io, roles);
      && (fetched.FetchError? || !io.editSucceeds ==> r.posted == [] && r.states == states)
      && (fetched.Fetched? && io.editSucceeds ==>
            var after := AfterEdit(states, channel, WeatherEvents(fetched.payload), io, roles);
            r.posted == after.posted && r.states == after.states)
  {
  }

  datatype StartOutcome =
    | Started(activeEvents: nat)   // "Started ... Currently n active weather events."
    | AlreadyActive                // "There is already an active weather tracker in this channel."
    | Errored                      // an exception reached the command's catch block

  datatype StopOutcome =
    | Stopped(message: MessageRef)   // the tracker's message, which stop deletes
    | NotActive                      // "There is no active weather tracker in this channel."

  /** The module-level maps `activeWeatherTrackers` (channel to the message
      the tracker edits; the interval handle is not modelled) and
      `previousWeatherStates`. */
  class WeatherTrackerRegistry {
    var activeWeatherTrackers: map<ChannelId, MessageRef>
    var previousWeatherStates: map<ChannelId, seq<EventState>>

    /** A channel has a tracker exactly when it has a previous state. */
    ghost predicate Valid()
      reads this
    {
      activeWeatherTrackers.Keys == previousWeatherStates.Keys
    }

    constructor ()
      ensures Valid()
      ensures activeWeatherTrackers == map[] && previousWeatherStates == map[]
    {
      activeWeatherTrackers := map[];
      previousWeatherStates := map[];
    }

    /** `weather-tracker start` in `channel`: `fetched` is the one request
        the command makes, `posted` the tracker message (None when posting it
        threw). An empty event list still starts a tracker. */
    method Start(channel: ChannelId, fetched: Fetch<WeatherPayload>, posted: Option<MessageRef>)
      returns (outcome: StartOutcome)
      requires Valid()
      modifies this
      ensures Valid()
      ensures outcome == AlreadyActive <==> channel in old(activeWeatherTrackers)
      ensures outcome == Errored <==> channel !in old(activeWeatherTrackers) && (fetched.FetchError? || posted.None?)
      ensures outcome.Started? <==> channel !in old(activeWeatherTrackers) && fetched.Fetched? && posted.Some?
      ensures outcome.Started? ==>
        && outcome.activeEvents == ActiveCount(WeatherEvents(fetched.payload))
        && activeWeatherTrackers == old(activeWeatherTrackers)[channel := posted.value]
        && previousWeatherStates == old(previousWeatherStates)[channel := Projection(WeatherEvents(fetched.payload))]
      ensures !outcome.Started? ==>
        activeWeatherTrackers == old(activeWeatherTrackers) && previousWeatherStates == old(previousWeatherStates)
    {
      if channel in activeWeatherTrackers {
        return AlreadyActive;
      }
      if fetched.FetchError? || posted.None? {
        return Errored;
      }
      var data := FetchWeatherData(fetched.payload);
      previousWeatherStates := previousWeatherStates[channel := Projection(data.weatherEvents)];
      activeWeatherTrackers := activeWeatherTrackers[channel := posted.value];
      outcome := Started(data.activeEvents);
    }

    /** `weather-tracker stop` in `channel`. */
    method Stop(channel: ChannelId) returns (outcome: StopOutcome)
      requires Valid()
      modifies this
      ensures Valid()
      ensures channel !in old(activeWeatherTrackers) ==>
        && outcome == NotActive
        && activeWeatherTrackers == old(activeWeatherTrackers)
        && previousWeatherStates == old(previousWeatherStates)
      ensures channel in old(activeWeatherTrackers) ==>
        && outcome == Stopped(old(activeWeatherTrackers)[channel])
        && activeWeatherTrackers == old(activeWeatherTrackers) - {channel}
        && previousWeatherStates == old(previousWeatherStates) - {channel}
    {
      if channel !in activeWeatherTrackers {
        return NotActive;
      }
      outcome := Stopped(activeWeatherTrackers[channel]);
      activeWeatherTrackers := activeWeatherTrackers - {channel};
      previousWeatherStates := previousWeatherStates - {channel};
    }

    /** One firing of the interval the tracker of `channel` set up: fetch,
        edit the message, post alerts for events that became active, replace
        the channel's previous state. */
    method Tick(channel: ChannelId, fetched: Fetch<WeatherPayload>, io: ChannelIO, roles: WeatherRoles)
      returns (shown: Option<Embed>, posted: seq<WeatherAlert>)
      requires Valid()
      modifies this
      ensures Valid()
      ensures activeWeatherTrackers == old(activeWeatherTrackers)
      ensures var r := WeatherTick(old(previousWeatherStates), channel, fetched, io, roles);
        shown == r.shown && posted == r.posted && previousWeatherStates == r.states
    {
      shown, posted := None, [];
      if fetched.FetchError? || !io.editSucceeds {
        return;
      }
      var data := FetchWeatherData(fetched.payload);
      shown := Some(data.embed);
      if channel !in previousWeatherStates {
        return;
      }
      var completed;
      posted, completed := PostActivationAlerts(previousWeatherStates[channel], data.weatherEvents, io, roles);
      if completed {
        previousWeatherStates := previousWeatherStates[channel := Projection(data.weatherEvents)];
      }
    }
  }

  /** The `for ... of currentEvents` loop of the tick: posts an alert for
      every event that became active and has a role, in event order, until a
      post throws. `completed` is false when a post threw, which skips the
      state update. */
  method PostActivationAlerts(prev: seq<EventState>, current: seq<WeatherEvent>, io: ChannelIO, roles: WeatherRoles)
    returns (posted: seq<WeatherAlert>, completed: bool)
    ensures posted == Posted(ActivationAlerts(prev, current, roles), io)
    ensures completed == AllPosted(ActivationAlerts(prev, current, roles), io)
  {
    ghost var due := ActivationAlerts(prev, current, roles);
    posted := [];
    var i, failed := 0, false;
    while i < |current| && !failed
      invariant 0 <= i <= |current|
      invariant !failed ==> posted == ActivationAlerts(prev, current[..i], roles) && AllPosted(posted, io)
      invariant failed ==> posted == Posted(due, io) && !AllPosted(due, io)
    {
      var e := current[i];
      assert current[..i + 1][..i] == current[..i];
      var previous := FindPrevious(prev, e.weatherName);
      if previous.Some? && !previous.value.active && e.active {
        var role := RoleFor(roles, e.weatherName);
        if role.Some? {
          if CanPost(io, |posted|) {
            posted := posted + [WeatherAlert(e.weatherName, role.value)];
          } else {
            ActivationAlertsPrefix(prev, current, roles, i + 1);
            failed := true;
          }
        }
      }
      i := i + 1;
    }
    if !failed {
      assert current[..i] == current;
    }
    completed := !failed;
  }

  // ---------------------------------------------------------------------
  // Lemmas

  /** The alerts for a prefix of the events are a prefix of the alerts. */
  lemma {:induction false} ActivationAlertsPrefix(prev: seq<EventState>, current: seq<WeatherEvent>, roles: WeatherRoles, i: nat)
    requires i <= |current|
    ensures ActivationAlerts(prev, current[..i], roles) <= ActivationAlerts(prev, current, roles)
    decreases |current| - i
  {
    if i < |current| {
      var init := current[..|current| - 1];
      assert current[..i] == init[..i];
      ActivationAlertsPrefix(prev, init, roles, i);
      var a := ActivationAlerts(prev, current[..i], roles);
      var b := ActivationAlerts(prev, init, roles);
      var c := ActivationAlerts(prev, current, roles);
      assert c[..|b|] == b;
      assert b[..|a|] == a;
      assert c[..|a|] == a;
    } else {
      assert current[..i] == current;
    }
  }

  /** `find` returns the first entry with the name, and nothing when no
      entry has it. */
  lemma {:induction false} FindPreviousIsFirst(prev: seq<EventState>, name: string)
    ensures FindPrevious(prev, name).None? <==> forall j :: 0 <= j < |prev| ==> prev[j].name != name
    ensures FindPrevious(prev, name).Some? ==>
      exists i :: 0 <= i < |prev| && prev[i] == FindPrevious(prev, name).value && prev[i].name == name
                  && forall j :: 0 <= j < i ==> prev[j].name != name
    decreases |prev|
  {
    if prev != [] && prev[0].name != name {
      FindPreviousIsFirst(prev[1..], name);
      if FindPrevious(prev[1..], name).Some? {
        var i :| 0 <= i < |prev[1..]| && prev[1..][i] == FindPrevious(prev, name).value && prev[1..][i].name == name
                 && forall j :: 0 <= j < i ==> prev[1..][j].name != name;
        assert prev[i + 1] == prev[1..][i];
        forall j | 0 <= j < i + 1 ensures prev[j].name != name {
          if j > 0 {
            assert prev[j] == prev[1..][j - 1];
          }
        }
      }
    }
  }

  /** An activation alert is due for event `name` with role `role` exactly
      when a current event of that name is active, the previous state's
      first entry for the name exists and was inactive, and the role table
      has a role for it. */
  lemma {:induction false} ActivationAlertsExactly(prev: seq<EventState>, current: seq<WeatherEvent>, roles: WeatherRoles,
                                                   name: string, role: string)
    ensures WeatherAlert(name, role) in ActivationAlerts(prev, current, roles) <==>
      exists e :: e in current && e.weatherName == name && Activated(prev, e) && RoleFor(roles, name) == Some(role)
    decreases |current|
  {
    if current != [] {
      var init := current[..|current| - 1];
      var last := current[|current| - 1];
      assert current == init + [last];
      ActivationAlertsExactly(prev, init, roles, name, role);
      assert forall e :: e in current <==> e in init || e == last;
    }
  }

  /** An event whose name the previous state does not have never alerts,
      unlike a stock item missing from the previous state. */
  lemma AbsentNeverAlerts(prev: seq<EventState>, current: seq<WeatherEvent>, roles: WeatherRoles, name: string, role: string)
    requires forall j :: 0 <= j < |prev| ==> prev[j].name != name
    ensures WeatherAlert(name, role) !in ActivationAlerts(prev, current, roles)
  {
    FindPreviousIsFirst(prev, name);
    ActivationAlertsExactly(prev, current, roles, name, role);
  }

  /** Events the role table does not map, BeeSwarm and Disco among them,
      never alert. */
  lemma UnmappedNeverAlerts(prev: seq<EventState>, current: seq<WeatherEvent>, name: string, role: string)
    requires name !in WeatherRoleMappings
    ensures WeatherAlert(name, role) !in ActivationAlerts(prev, current, WeatherRoleMappings)
    ensures "BeeSwarm" !in WeatherRoleMappings && "Disco" !in WeatherRoleMappings
  {
    ActivationAlertsExactly(prev, current, WeatherRoleMappings, name, role);
  }

  /** With every alert post succeeding, a tick of a tracked channel replaces
      its previous state by the `(weather_name, active)` projection of the
      fetched events, in source order, and leaves other channels alone. A
      tick whose fetch or edit throws leaves the store as it was. */
  lemma {:induction false} TickRecordsProjection(states: map<ChannelId, seq<EventState>>, channel: ChannelId,
                                                 fetched: Fetch<WeatherPayload>, io: ChannelIO, roles: WeatherRoles)
    ensures var r := WeatherTick(states, channel, fetched, io, roles);
      && r.states.Keys == states.Keys
      && (forall c :: c in states && c != channel ==> r.states[c] == states[c])
      && (fetched.FetchError? || !io.editSucceeds ==> r.states == states && r.posted == [])
      && (fetched.Fetched? && io.editSucceeds && channel in states && io.postsBeforeFailure.None? ==>
            var events := WeatherEvents(fetched.payload);
            && |r.states[channel]| == |events|
            && forall i :: 0 <= i < |events| ==>
                 r.states[channel][i].name == events[i].weatherName && r.states[channel][i].active == events[i].active)
  {
    TickThenAfterEdit(states, channel, fetched, io, roles);
    if fetched.Fetched? && io.editSucceeds && channel in states && io.postsBeforeFailure.None? {
      var events := WeatherEvents(fetched.payload);
      forall i | 0 <= i < |events| {
        ProjectionAt(events, i);
      }
    }
  }

  /** A tick of a channel with no previous state does no diff: it posts
      nothing and leaves the store as it was. */
  lemma UntrackedTickDoesNoDiff(states: map<ChannelId, seq<EventState>>, channel: ChannelId,
                                fetched: Fetch<WeatherPayload>, io: ChannelIO, roles: WeatherRoles)
    requires channel !in states
    ensures WeatherTick(states, channel, fetched, io, roles).posted == []
    ensures WeatherTick(states, channel, fetched, io, roles).states == states
  {
    TickThenAfterEdit(states, channel, fetched, io, roles);
  }

  /** A tick whose alert posting stops at a post that throws posts only a
      strict prefix of the due alerts and keeps the previous state, so the
      next tick diffs against the older state again. */
  lemma InterruptedTickKeepsState(states: map<ChannelId, seq<EventState>>, channel: ChannelId,
                                  payload: WeatherPayload, io: ChannelIO, roles: WeatherRoles)
    requires channel in states && io.editSucceeds
    requires !AllPosted(ActivationAlerts(states[channel], WeatherEvents(payload), roles), io)
    ensures var r := WeatherTick(states, channel, Fetched(payload), io, roles);
      && r.states == states
      && r.posted < ActivationAlerts(states[channel], WeatherEvents(payload), roles)
  {
    TickThenAfterEdit(states, channel, Fetched(payload), io, roles);
  }

  /** A tick that saw events with pairwise different names, followed by a
      tick that sees the same events, posts nothing the second time. */
  lemma RepeatedTickIsQuiet(states: map<ChannelId, seq<EventState>>, channel: ChannelId,
                            payload: WeatherPayload, io: ChannelIO, roles: WeatherRoles)
    requires channel in states
    requires var events := WeatherEvents(payload);
      forall i, j :: 0 <= i < j < |events| ==> events[i].weatherName != events[j].weatherName
    ensures var r := WeatherTick(states, channel, Fetched(payload), ChannelIO(true, None), roles);
      WeatherTick(r.states, channel, Fetched(payload), io, roles).posted == []
  {
    var events := WeatherEvents(payload);
    var p := Projection(events);
    ProjectionNothingActivated(events);
    NothingActivated(p, events, roles);
    TickThenAfterEdit(states, channel, Fetched(payload), ChannelIO(true, None), roles);
    var r := WeatherTick(states, channel, Fetched(payload), ChannelIO(true, None), roles);
    TickThenAfterEdit(r.states, channel, Fetched(payload), io, roles);
  }

  /** Against the projection of events with pairwise different names, none
      of those events counts as activated. */
  lemma ProjectionNothingActivated(events: seq<WeatherEvent>)
    requires forall i, j :: 0 <= i < j < |events| ==> events[i].weatherName != events[j].weatherName
    ensures forall e :: e in events ==> !Activated(Projection(events), e)
  {
    var p := Projection(events);
    forall e | e in events ensures !Activated(p, e) {
      var k :| 0 <= k < |events| && events[k] == e;
      forall j | 0 <= j < k ensures p[j].name != e.weatherName {
        ProjectionAt(events, j);
      }
      ProjectionAt(events, k);
      FindPreviousAt(p, e.weatherName, k);
    }
  }

  /** `find` stops at the first entry with the name. */
  lemma {:induction false} FindPreviousAt(prev: seq<EventState>, name: string, k: nat)
    requires k < |prev| && prev[k].name == name
    requires forall j :: 0 <= j < k ==> prev[j].name != name
    ensures FindPrevious(prev, name) == Some(prev[k])
    decreases k
  {
    if k > 0 {
      FindPreviousAt(prev[1..], name, k - 1);
    }
  }

  lemma {:induction false} NothingActivated(prev: seq<EventState>, current: seq<WeatherEvent>, roles: WeatherRoles)
    requires forall e :: e in current ==> !Activated(prev, e)
    ensures ActivationAlerts(prev, current, roles) == []
    decreases |current|
  {
    if current != [] {
      var init := current[..|current| - 1];
      assert forall e :: e in init ==> e in current;
      NothingActivated(prev, init, roles);
    }
  }

  /** With the same name listed twice, inactive first and active second,
      every tick alerts again: `find` always returns the inactive first
      entry of the projection. */
  lemma DuplicateNameRealerts(states: map<ChannelId, seq<EventState>>, channel: ChannelId, first: WeatherEvent, second: WeatherEvent)
    requires channel in states
    requires first.weatherName == "Rain" && !first.active
    requires second.weatherName == "Rain" && second.active
    ensures var payload := Some([first, second]);
      var r := WeatherTick(states, channel, Fetched(payload), ChannelIO(true, None), WeatherRoleMappings);
      WeatherTick(r.states, channel, Fetched(payload), ChannelIO(true, None), WeatherRoleMappings).posted
        == [WeatherAlert("Rain", "1378081635622191346")]
  {
    var events := [first, second];
    DuplicateNameDiff(first, second);
    TickThenAfterEdit(states, channel, Fetched(Some(events)), ChannelIO(true, None), WeatherRoleMappings);
    var r := WeatherTick(states, channel, Fetched(Some(events)), ChannelIO(true, None), WeatherRoleMappings);
    TickThenAfterEdit(r.states, channel, Fetched(Some(events)), ChannelIO(true, None), WeatherRoleMappings);
  }

  /** The diff behind `DuplicateNameRealerts`: against its own projection,
      the second Rain event counts as activated. */
  lemma DuplicateNameDiff(first: WeatherEvent, second: WeatherEvent)
    requires first.weatherName == "Rain" && !first.active
    requires second.weatherName == "Rain" && second.active
    ensures ActivationAlerts(Projection([first, second]), [first, second], WeatherRoleMappings)
         == [WeatherAlert("Rain", "1378081635622191346")]
  {
    var events := [first, second];
    var p := Projection(events);
    ProjectionAt(events, 0);
    assert FindPrevious(p, "Rain") == Some(EventState("Rain", false));
    assert events[..1] == [first];
    assert events[..1][..0] == [];
    assert ActivationAlerts(p, events[..1], WeatherRoleMappings) == [];
  }

  /** The diff examples: previous Rain inactive and current Rain active gives
      exactly one alert, for Rain; previous Rain already active gives none. */
  lemma RainExamples()
    ensures ActivationAlerts([EventState("Rain", false)], [WeatherEvent("Rain", true, 60, 0, 0)], WeatherRoleMappings)
         == [WeatherAlert("Rain", "1378081635622191346")]
    ensures ActivationAlerts([EventState("Rain", true)], [WeatherEvent("Rain", true, 60, 0, 0)], WeatherRoleMappings) == []
  {
    assert [WeatherEvent("Rain", true, 60, 0, 0)][..0] == [];
  }
}

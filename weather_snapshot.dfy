/** `fetchWeatherData` of the weather tracker: counts the active events of
    the parsed weather payload and renders one status line per event. The
    HTTP request itself is an input: the payload arrives already parsed. */
module WeatherSnapshot {
  import opened Common

  /** One weather event: `{weather_name, active, duration,
      start_duration_unix, end_duration_unix}`. */
  datatype WeatherEvent = WeatherEvent(weatherName: string, active: bool, duration: int,
                                       startDurationUnix: int, endDurationUnix: int)

  /** The parsed weather response: its `weather` field, None when absent. */
  type WeatherPayload = Option<seq<WeatherEvent>>

  /** `data.weather || []`. */
  function WeatherEvents(payload: WeatherPayload): seq<WeatherEvent> {
    if payload.Some? then payload.value else []
  }

  /** `weatherData.filter(event => event.active).length`. */
  function ActiveCount(events: seq<WeatherEvent>): nat
    decreases |events|
  {
    if events == [] then 0
    else ActiveCount(events[..|events| - 1]) + (if events[|events| - 1].active then 1 else 0)
  }

  /** The positions of the active events. */
  function ActiveIndices(events: seq<WeatherEvent>): set<nat> {
    set i: nat | i < |events| && events[i].active
  }

  /** `weatherEmojiMappings`. */
  const WeatherEmojiMappings: map<string, string> := map[
    "Rain" := "\U{1F327}\U{FE0F}",
    "Frost" := "\U{2744}\U{FE0F}",
    "Thunderstorm" := "\U{26C8}\U{FE0F}",
    "NightEvent" := "\U{1FA78}",
    "MeteorShower" := "\U{2604}\U{FE0F}",
    "BeeSwarm" := "\U{1F41D}",
    "Disco" := "\U{1F308}",
    "JandelStorm" := "\U{1F300}",
    "Blackhole" := "\U{26AB}",
    "DJJhai" := "\U{1F3B5}",
    "SunGod" := "\U{2600}\U{FE0F}",
    "JandelFloat" := "\U{1F388}"]

  /** The emoji for names the table does not know. */
  const DefaultEmoji: string := "\U{26C8}\U{FE0F}"

  /** `weatherEmojiMappings[name] || '⛈️'`. */
  function EmojiFor(name: string): (emoji: string)
    ensures name !in WeatherEmojiMappings ==> emoji == DefaultEmoji
  {
    if name in WeatherEmojiMappings && WeatherEmojiMappings[name] != "" then WeatherEmojiMappings[name]
    else DefaultEmoji
  }

  function StatusText(e: WeatherEvent): string {
    if e.active then "\U{2705} Active (" + Decimal(e.duration) + "s)" else "\U{274C} Inactive"
  }

  function StartedText(e: WeatherEvent): string {
    if e.startDurationUnix > 0 then " | Started: <t:" + Decimal(e.startDurationUnix) + ":R>" else ""
  }

  function EndsText(e: WeatherEvent): string {
    if e.endDurationUnix > 0 then " | Ends: <t:" + Decimal(e.endDurationUnix) + ":R>" else ""
  }

  /** The status line of one event. */
  function EventLine(e: WeatherEvent): string {
    EmojiFor(e.weatherName) + " **" + e.weatherName + "**: " + StatusText(e) + StartedText(e) + EndsText(e)
  }

  /** `weatherData.map(...)`: the status lines, in source order. */
  function EventLines(events: seq<WeatherEvent>): (lines: seq<string>) {
    seq(|events|, i requires 0 <= i < |events| => EventLine(events[i]))
  }

  const NoEventsText: string := "No weather events found"

  /** The value of the "All Weather Events" field: the lines joined by
      newlines, or the fallback text when that is empty. */
  function WeatherListField(events: seq<WeatherEvent>): string {
    var list := Join(EventLines(events), '\n');
    if |list| > 0 then list else NoEventsText
  }

  function SummaryText(activeEvents: nat): string {
    "**" + Decimal(activeEvents) + " active weather events**\nNext update in 1 minute"
  }

  /** The embed `fetchWeatherData` builds. */
  function WeatherEmbed(events: seq<WeatherEvent>): Embed {
    Embed("\U{26C5} Current Weather Events (Auto-Updating)", "",
          [EmbedField("All Weather Events", WeatherListField(events), false),
           EmbedField("Summary", SummaryText(ActiveCount(events)), false)])
  }

  /** What `fetchWeatherData` returns once the request has succeeded. */
  datatype WeatherData = WeatherData(embed: Embed, activeEvents: nat, weatherEvents: seq<WeatherEvent>)

  function FetchWeatherData(payload: WeatherPayload): WeatherData {
    var events := WeatherEvents(payload);
    WeatherData(WeatherEmbed(events), ActiveCount(events), events)
  }

  // ---------------------------------------------------------------------
  // Lemmas

  /** `activeEvents` is the number of events whose `active` flag is set. */
  lemma {:induction false} ActiveCountIsActiveIndices(events: seq<WeatherEvent>)
    ensures ActiveCount(events) == |ActiveIndices(events)|
    decreases |events|
  {
    if events != [] {
      var n := |events| - 1;
      var init := events[..n];
      ActiveCountIsActiveIndices(init);
      assert ActiveIndices(events) == ActiveIndices(init) + (if events[n].active then {n} else {});
      assert n !in ActiveIndices(init);
    }
  }

  /** The emoji of every event is not empty and holds no newline. */
  lemma EmojiShape(name: string)
    ensures |EmojiFor(name)| > 0 && '\n' !in EmojiFor(name)
  {
    if name in WeatherEmojiMappings {
      assert name in {"Rain", "Frost", "Thunderstorm", "NightEvent", "MeteorShower", "BeeSwarm",
                      "Disco", "JandelStorm", "Blackhole", "DJJhai", "SunGod", "JandelFloat"};
    }
  }

  lemma DecimalHasNoNewline(n: int)
    ensures '\n' !in Decimal(n)
  {
  }

  /** A line holds no newline when the event's name holds none. */
  lemma EventLineHasNoNewline(e: WeatherEvent)
    requires '\n' !in e.weatherName
    ensures '\n' !in EventLine(e)
  {
    EmojiShape(e.weatherName);
    DecimalHasNoNewline(e.duration);
    DecimalHasNoNewline(e.startDurationUnix);
    DecimalHasNoNewline(e.endDurationUnix);
    assert '\n' !in StatusText(e);
    assert '\n' !in StartedText(e);
    assert '\n' !in EndsText(e);
  }

  /** What a status line says: the event's emoji (the default one for a name
      the table does not know) and name; "Inactive" for an inactive event,
      otherwise the duration, which reads back exactly; a "Started" segment
      exactly when the start timestamp is positive and an "Ends" segment
      exactly when the end timestamp is positive, each reading back its
      timestamp. */
  lemma EventLineContent(e: WeatherEvent)
    ensures !e.active <==> StatusText(e) == "\U{274C} Inactive"
    ensures e.active ==> exists d :: StatusText(e) == "\U{2705} Active (" + d + "s)" && ParseDecimal(d) == Some(e.duration)
    ensures StartedText(e) != "" <==> e.startDurationUnix > 0
    ensures e.startDurationUnix > 0 ==>
      exists d :: StartedText(e) == " | Started: <t:" + d + ":R>" && ParseDecimal(d) == Some(e.startDurationUnix)
    ensures EndsText(e) != "" <==> e.endDurationUnix > 0
    ensures e.endDurationUnix > 0 ==>
      exists d :: EndsText(e) == " | Ends: <t:" + d + ":R>" && ParseDecimal(d) == Some(e.endDurationUnix)
  {
    DecimalRoundTrip(e.duration);
    DecimalRoundTrip(e.startDurationUnix);
    DecimalRoundTrip(e.endDurationUnix);
    if e.active {
      var s := StatusText(e);
      assert s[0] == '\U{2705}';
    }
  }

  /** The fallback text is shown exactly when there are no events. */
  lemma FallbackExactlyWhenEmpty(events: seq<WeatherEvent>)
    ensures WeatherListField(events) == NoEventsText <==> events == []
  {
    if events != [] {
      // The first line, which the list starts with, puts the event's name
      // in bold right after the emoji; the fallback text has no '*'.
      var lines := EventLines(events);
      var k := |EmojiFor(events[0].weatherName)| + 1;
      assert lines[0] == EventLine(events[0]);
      assert lines[0][k] == '*';
      JoinStartsWithFirst(lines, '\n');
      assert Join(lines, '\n')[k] == '*';
      assert '*' !in NoEventsText;
    }
  }

  /** With no newline in any event name, the rendered list splits into
      exactly one line per event, in source order. */
  lemma OneLinePerEvent(events: seq<WeatherEvent>)
    requires events != []
    requires forall k :: 0 <= k < |events| ==> '\n' !in events[k].weatherName
    ensures Split(WeatherListField(events), '\n') == EventLines(events)
    ensures |Split(WeatherListField(events), '\n')| == |events|
  {
    var lines := EventLines(events);
    forall k | 0 <= k < |lines| ensures '\n' !in lines[k] {
      EventLineHasNoNewline(events[k]);
    }
    EmojiShape(events[0].weatherName);
    assert |lines[0]| > 0;
    SplitJoin(lines, '\n');
  }
}

/** The configuration flow: validating the initial setup and mapping its
    failures to form error codes, and the options flow, which edits the
    configured station IDs and user locations step by step. Client calls
    and entity lookups are parameters: the outcome they had. */
module ConfigFlow {
  import opened PyJson
  import opened Const

  // ---------------------------------------------------------------------
  // Entry data and flow results
  // ---------------------------------------------------------------------

  /** The keys of a config entry's `data` or `options` dictionary that the
      integration uses; `None` is an absent key. */
  datatype EntryData = EntryData(
    apiBaseUrl: Option<string>,
    apiKey: Option<string>,
    locationEntity: Option<string>,
    cheapestEntity: Option<string>,
    nearestEntity: Option<string>,
    warningCellId: Option<string>,
    searchRadius: Option<real>,
    intervalPetrol: Option<int>,
    intervalWeather: Option<int>,
    intervalPollen: Option<int>,
    intervalWaste: Option<int>,
    userLocations: Option<seq<UserLocation>>,
    stationIds: Option<seq<string>>)

  datatype ConfigEntry = ConfigEntry(data: EntryData, options: EntryData)

  /** What a step hands back to the host: a form (with its error codes per
      field), a menu, or a new entry. */
  datatype FlowResult =
    | ShowForm(stepId: string, errors: map<string, string>)
    | ShowMenu(stepId: string, menuOptions: seq<string>)
    | CreateEntry(title: string, entryData: EntryData)

  /** `options.get(key, data.get(key, default))`. */
  function Fallback<T>(options: Option<T>, data: Option<T>, default: T): (r: T)
    ensures options.Some? ==> r == options.value
    ensures options.None? && data.Some? ==> r == data.value
    ensures options.None? && data.None? ==> r == default
  {
    match options
    case Some(v) => v
    case None => match data
      case Some(v) => v
      case None => default
  }

  // ---------------------------------------------------------------------
  // Initial setup: validate_input and async_step_user
  // ---------------------------------------------------------------------

  /** The exceptions `validate_input` can raise, most specific class first:
      the connection and timeout errors are subclasses of the API error. */
  datatype SetupFailure = ConnectionError | TimeoutError | InvalidEntity | OtherApiError | Unexpected

  /** An entity passes validation when it has a state whose `latitude` and
      `longitude` attributes are both truthy. */
  predicate HasLocation(states: States, entityId: string) {
    entityId in states
    && Truthy(DictGet(states[entityId], "latitude", Null))
    && Truthy(DictGet(states[entityId], "longitude", Null))
  }

  /** A configured location entity is checked only when it is set and
      non-empty. */
  predicate EntityAccepted(states: States, entity: Option<string>) {
    entity.None? || entity.value == "" || HasLocation(states, entity.value)
  }

  /** `validate_input`: the connection test first (its failure, if any, is
      `connection`), then the cheapest, nearest and legacy location entities
      in this order; `None` when nothing raised. */
  function ValidateInput(connection: Option<SetupFailure>, states: States, input: EntryData): (r: Option<SetupFailure>)
    ensures r.None? <==>
      connection.None? && EntityAccepted(states, input.cheapestEntity)
      && EntityAccepted(states, input.nearestEntity) && EntityAccepted(states, input.locationEntity)
    ensures connection.Some? ==> r == connection
    ensures connection.None? && r.Some? ==> r == Some(InvalidEntity)
  {
    if connection.Some? then connection
    else if !EntityAccepted(states, input.cheapestEntity) then Some(InvalidEntity)
    else if !EntityAccepted(states, input.nearestEntity) then Some(InvalidEntity)
    else if !EntityAccepted(states, input.locationEntity) then Some(InvalidEntity)
    else None
  }

  /** The `errors["base"]` code each failure is reported with. */
  function ErrorCode(f: SetupFailure): (code: string)
    ensures code == "unknown" <==> f == OtherApiError || f == Unexpected
    ensures code == "cannot_connect" <==> f == ConnectionError
    ensures code == "timeout" <==> f == TimeoutError
    ensures code == "invalid_entity" <==> f == InvalidEntity
  {
    match f
    case ConnectionError => "cannot_connect"
    case TimeoutError => "timeout"
    case InvalidEntity => "invalid_entity"
    case OtherApiError => "unknown"
    case Unexpected => "unknown"
  }

  const SetupTitle: string := "isal Easy Homey"

  /** `async_step_user`: without input the form; with input either a new
      entry holding exactly that input, or the form again with one base
      error. */
  function StepUser(input: Option<EntryData>, connection: Option<SetupFailure>, states: States): (r: FlowResult)
    ensures input.None? ==> r == ShowForm("user", map[])
    ensures r.CreateEntry? <==> input.Some? && ValidateInput(connection, states, input.value).None?
    ensures r.CreateEntry? ==> r == CreateEntry(SetupTitle, input.value)
    ensures input.Some? && ValidateInput(connection, states, input.value).Some? ==>
      r == ShowForm("user", map["base" := ErrorCode(ValidateInput(connection, states, input.value).value)])
  {
    match input
    case None => ShowForm("user", map[])
    case Some(data) =>
      match ValidateInput(connection, states, data)
      case None => CreateEntry(SetupTitle, data)
      case Some(f) => ShowForm("user", map["base" := ErrorCode(f)])
  }

  /** A reachable API and valid entities create the entry; any failure of
      the connection test is reported before the entities are looked at. */
  lemma StepUserOutcomes(input: EntryData, connection: Option<SetupFailure>, states: States)
    ensures connection == Some(ConnectionError) ==> StepUser(Some(input), connection, states) == ShowForm("user", map["base" := "cannot_connect"])
    ensures connection == Some(TimeoutError) ==> StepUser(Some(input), connection, states) == ShowForm("user", map["base" := "timeout"])
    ensures connection == Some(OtherApiError) || connection == Some(Unexpected) ==>
      StepUser(Some(input), connection, states) == ShowForm("user", map["base" := "unknown"])
    ensures connection.None? && !EntityAccepted(states, input.nearestEntity) ==>
      StepUser(Some(input), connection, states) == ShowForm("user", map["base" := "invalid_entity"])
    ensures connection.None? && input.cheapestEntity.None? && input.nearestEntity.None? && input.locationEntity.None? ==>
      StepUser(Some(input), connection, states) == CreateEntry(SetupTitle, input)
  {
  }

  /** Validation is stricter than the coordinator's coordinate lookup: a
      latitude of 0 is a usable coordinate there, but falsy here. */
  lemma ZeroLatitudeRejected(states: States, entityId: string)
    requires entityId != "" && entityId in states
    requires DictGet(states[entityId], "latitude", Null) == Num(0.0)
    ensures !HasLocation(states, entityId)
    ensures !EntityAccepted(states, Some(entityId))
  {
  }

  // ---------------------------------------------------------------------
  // Station IDs: stripping, adding and removing
  // ---------------------------------------------------------------------

  /** The characters Python's `str.isspace` accepts. */
  predicate IsSpace(c: char) {
    c == ' ' || ('\t' <= c <= '\r') || ('\U{1c}' <= c <= '\U{1f}') || c == '\U{85}' || c == '\U{a0}'
    || c == '\U{1680}' || ('\U{2000}' <= c <= '\U{200a}') || c == '\U{2028}' || c == '\U{2029}'
    || c == '\U{202f}' || c == '\U{205f}' || c == '\U{3000}'
  }

  /** `s.lstrip()`: a suffix of `s` that starts with a non-space, after only
      spaces. */
  function StripStart(s: string): (r: string)
    ensures |r| <= |s| && r == s[|s| - |r|..]
    ensures r == [] || !IsSpace(r[0])
    ensures forall i :: 0 <= i < |s| - |r| ==> IsSpace(s[i])
  {
    if s == [] || !IsSpace(s[0]) then s
    else
      var r := StripStart(s[1..]);
      assert forall i :: 1 <= i < |s| ==> s[i] == s[1..][i - 1];
      r
  }

  /** `s.rstrip()`: a prefix of `s` that ends with a non-space, before only
      spaces. */
  function StripEnd(s: string): (r: string)
    ensures |r| <= |s| && r == s[..|r|]
    ensures r == [] || !IsSpace(r[|r| - 1])
    ensures forall i :: |r| <= i < |s| ==> IsSpace(s[i])
  {
    if s == [] || !IsSpace(s[|s| - 1]) then s
    else StripEnd(s[..|s| - 1])
  }

  /** `r` is the slice `s[i..j]`, and everything of `s` before `i` and from
      `j` on is space. */
  predicate SpacesAround(s: string, r: string, i: nat, j: nat) {
    i <= j <= |s| && r == s[i..j]
    && (forall k :: 0 <= k < i ==> IsSpace(s[k])) && (forall k :: j <= k < |s| ==> IsSpace(s[k]))
  }

  /** `s.strip()`: the middle of `s` left after cutting off the spaces on
      both sides. */
  function Strip(s: string): (r: string)
    ensures r == [] || (!IsSpace(r[0]) && !IsSpace(r[|r| - 1]))
    ensures exists i: nat, j: nat :: SpacesAround(s, r, i, j)
  {
    var t := StripStart(s);
    var r := StripEnd(t);
    HeadAndTailCut(s, t, r);
    r
  }

  /** Cutting a space-only head off `s` and then a space-only tail off the
      rest leaves a slice of `s` between spaces. */
  lemma HeadAndTailCut(s: string, t: string, r: string)
    requires |t| <= |s| && t == s[|s| - |t|..]
    requires forall k :: 0 <= k < |s| - |t| ==> IsSpace(s[k])
    requires |r| <= |t| && r == t[..|r|]
    requires forall k :: |r| <= k < |t| ==> IsSpace(t[k])
    ensures SpacesAround(s, r, |s| - |t|, |s| - |t| + |r|)
  {
    var i := |s| - |t|;
    assert r == s[i..i + |r|];
    forall k | i + |r| <= k < |s|
      ensures IsSpace(s[k])
    {
      assert s[k] == t[k - i];
    }
  }

  /** A string without surrounding spaces strips to itself. */
  lemma StripUnchanged(s: string)
    requires s == [] || (!IsSpace(s[0]) && !IsSpace(s[|s| - 1]))
    ensures Strip(s) == s
  {
  }

  /** Stripping twice strips no more than once. */
  lemma StripIdempotent(s: string)
    ensures Strip(Strip(s)) == Strip(s)
  {
    StripUnchanged(Strip(s));
  }

  /** A string of spaces only strips to the empty string. */
  lemma {:induction false} StripBlank(s: string)
    requires forall i :: 0 <= i < |s| ==> IsSpace(s[i])
    ensures Strip(s) == ""
  {
    if s != [] {
      assert forall i :: 0 <= i < |s[1..]| ==> s[1..][i] == s[i + 1];
      StripBlank(s[1..]);
      assert StripStart(s) == StripStart(s[1..]);
    }
  }

  /** What fetching a station by ID ended with. */
  datatype StationLookup = StationFound | LookupConnectionError | LookupTimeoutError | LookupApiError | LookupUnexpected

  /** The error an add-station submission reports for the stripped ID `id`,
      `None` when the ID is appended. The lookup only matters for a new,
      non-empty ID; an unreachable API or an unexpected error still adds. */
  function AddStationError(ids: seq<string>, id: string, lookup: StationLookup): (r: Option<string>)
    ensures r.None? <==> id != "" && id !in ids && lookup != LookupApiError
    ensures id == "" ==> r == Some("invalid_station_id")
    ensures id != "" && id in ids ==> r == Some("station_id_exists")
    ensures id != "" && id !in ids && lookup == LookupApiError ==> r == Some("invalid_station_id")
  {
    if id == "" then Some("invalid_station_id")
    else if id in ids then Some("station_id_exists")
    else if lookup == LookupApiError then Some("invalid_station_id")
    else None
  }

  /** The station-ID menu's form. */
  const StationIdsForm: FlowResult := ShowForm("station_ids", map[])

  /** The add-station step on the list `ids`: the new list and the result. */
  function AddStationStep(ids: seq<string>, input: Option<string>, lookup: StationLookup): (r: (seq<string>, FlowResult))
    ensures input.None? ==> r == (ids, ShowForm("add_station_id", map[]))
    ensures r.0 != ids ==>
      input.Some? && r.0 == ids + [Strip(input.value)]
      && Strip(input.value) != "" && Strip(input.value) !in ids && r.1 == StationIdsForm
    ensures r.0 == ids && input.Some? ==>
      r.1.ShowForm? && r.1.stepId == "add_station_id" && "station_id" in r.1.errors
  {
    match input
    case None => (ids, ShowForm("add_station_id", map[]))
    case Some(raw) =>
      var id := Strip(raw);
      match AddStationError(ids, id, lookup)
      case None => (ids + [id], StationIdsForm)
      case Some(e) => (ids, ShowForm("add_station_id", map["station_id" := e]))
  }

  /** Every station ID is at most once in the list. */
  predicate NoDuplicates<T(==)>(xs: seq<T>) {
    forall i, j :: 0 <= i < j < |xs| ==> xs[i] != xs[j]
  }

  /** Adding a station ID either appends the stripped ID at the end, leaving
      every earlier entry where it was, or changes nothing and reports why. */
  lemma AddStationOutcome(ids: seq<string>, raw: string, lookup: StationLookup)
    ensures var (after, result) := AddStationStep(ids, Some(raw), lookup);
      && (after == ids + [Strip(raw)] <==> Strip(raw) != "" && Strip(raw) !in ids && lookup != LookupApiError)
      && (after != ids ==> after[..|ids|] == ids && after[|ids|] == Strip(raw))
      && (after == ids <==> result.ShowForm? && "station_id" in result.errors)
      && (Strip(raw) == "" ==> result == ShowForm("add_station_id", map["station_id" := "invalid_station_id"]))
  {
    var id := Strip(raw);
    if AddStationError(ids, id, lookup).None? {
      assert (ids + [id])[..|ids|] == ids;
      assert |ids + [id]| != |ids|;
    }
  }

  /** A stored station ID: non-empty, no surrounding spaces. */
  predicate CleanId(id: string) {
    id != "" && !IsSpace(id[0]) && !IsSpace(id[|id| - 1])
  }

  /** The list stays free of duplicates, and every appended ID is non-empty
      and has no surrounding spaces. */
  lemma AddStationKeepsIdsClean(ids: seq<string>, input: Option<string>, lookup: StationLookup)
    requires NoDuplicates(ids)
    requires forall i :: 0 <= i < |ids| ==> CleanId(ids[i])
    ensures var after := AddStationStep(ids, input, lookup).0;
      && NoDuplicates(after)
      && (forall i :: 0 <= i < |after| ==> CleanId(after[i]))
  {
    if input.Some? {
      var id := Strip(input.value);
      if AddStationError(ids, id, lookup).None? {
        assert AddStationStep(ids, input, lookup).0 == ids + [id];
        assert CleanId(id);
        AppendFresh(ids, id);
      }
    }
  }

  /** Appending a value not yet in a duplicate-free list keeps it duplicate-free. */
  lemma AppendFresh(ids: seq<string>, id: string)
    requires NoDuplicates(ids) && id !in ids
    ensures NoDuplicates(ids + [id])
  {
    var after := ids + [id];
    forall i, j | 0 <= i < j < |after|
      ensures after[i] != after[j]
    {
      if j == |ids| {
        assert after[i] == ids[i];
      }
    }
  }

  /** `[x for x in xs if x != target]`. */
  function Without(xs: seq<string>, target: string): (r: seq<string>)
    ensures |r| <= |xs|
    ensures forall x :: x in r <==> x in xs && x != target
  {
    if xs == [] then []
    else (if xs[0] != target then [xs[0]] else []) + Without(xs[1..], target)
  }

  /** Filtering distributes over concatenation: the kept entries stay in
      their order. */
  lemma {:induction false} WithoutAppend(a: seq<string>, b: seq<string>, target: string)
    ensures Without(a + b, target) == Without(a, target) + Without(b, target)
    decreases |a|
  {
    if a == [] {
      assert a + b == b;
    } else {
      assert (a + b)[1..] == a[1..] + b;
      WithoutAppend(a[1..], b, target);
    }
  }

  /** Every other value keeps its number of occurrences; the target has none
      left. */
  lemma {:induction false} WithoutCounts(xs: seq<string>, target: string)
    ensures multiset(Without(xs, target))[target] == 0
    ensures forall y :: y != target ==> multiset(Without(xs, target))[y] == multiset(xs)[y]
    decreases |xs|
  {
    if xs != [] {
      WithoutCounts(xs[1..], target);
      assert xs == [xs[0]] + xs[1..];
    }
  }

  /** Removing from a duplicate-free list leaves it duplicate-free. */
  lemma {:induction false} WithoutNoDuplicates(xs: seq<string>, target: string)
    requires NoDuplicates(xs)
    ensures NoDuplicates(Without(xs, target))
    decreases |xs|
  {
    if xs != [] {
      WithoutNoDuplicates(xs[1..], target);
      var rest := Without(xs[1..], target);
      assert xs[0] !in xs[1..];
      assert xs[0] !in rest;
    }
  }

  /** Removing twice is removing once. */
  lemma {:induction false} WithoutIdempotent(xs: seq<string>, target: string)
    ensures Without(Without(xs, target), target) == Without(xs, target)
    decreases |xs|
  {
    if xs != [] {
      var rest := Without(xs[1..], target);
      WithoutIdempotent(xs[1..], target);
      if xs[0] != target {
        assert Without(xs, target) == [xs[0]] + rest;
        WithoutAppend([xs[0]], rest, target);
        assert [xs[0]][1..] == [];
        assert Without([xs[0]], target) == [xs[0]];
      } else {
        assert Without(xs, target) == rest;
      }
    }
  }

  /** The remove-station step on the list `ids`. */
  function RemoveStationStep(ids: seq<string>, input: Option<string>): (r: (seq<string>, FlowResult))
    ensures input.None? ==> r == (ids, ShowForm("remove_station_id", map[]))
    ensures input.Some? ==>
      r.1 == StationIdsForm && |r.0| <= |ids|
      && forall x :: x in r.0 <==> x in ids && x != input.value
  {
    match input
    case None => (ids, ShowForm("remove_station_id", map[]))
    case Some(target) => (Without(ids, target), StationIdsForm)
  }

  // ---------------------------------------------------------------------
  // User locations: adding and removing
  // ---------------------------------------------------------------------

  /** The user-location menu's form. */
  const UserLocationsForm: FlowResult := ShowForm("user_locations", map[])

  /** The add-location step on the list `locations`: an empty entity ID is
      not validated; any other must have a state with a location. */
  function AddLocationStep(locations: seq<UserLocation>, input: Option<UserLocation>, states: States): (r: (seq<UserLocation>, FlowResult))
    ensures input.None? ==> r == (locations, ShowForm("add_user_location", map[]))
    ensures input.Some? && EntityAccepted(states, Some(input.value.entityId)) ==>
      r == (locations + [input.value], UserLocationsForm)
    ensures input.Some? && !EntityAccepted(states, Some(input.value.entityId)) ==>
      r == (locations, ShowForm("add_user_location", map["entity_id" := "invalid_entity"]))
  {
    match input
    case None => (locations, ShowForm("add_user_location", map[]))
    case Some(loc) =>
      if loc.entityId == "" || HasLocation(states, loc.entityId) then (locations + [loc], UserLocationsForm)
      else (locations, ShowForm("add_user_location", map["entity_id" := "invalid_entity"]))
  }

  /** Adding a location appends it unchanged iff its entity is empty or has
      a state with a truthy latitude and longitude; otherwise nothing
      changes and the entity field reports `invalid_entity`. */
  lemma AddLocationOutcome(locations: seq<UserLocation>, loc: UserLocation, states: States)
    ensures var (after, result) := AddLocationStep(locations, Some(loc), states);
      && (after == locations + [loc] <==> EntityAccepted(states, Some(loc.entityId)))
      && (after == locations <==> !EntityAccepted(states, Some(loc.entityId)))
      && (!EntityAccepted(states, Some(loc.entityId)) ==>
            result == ShowForm("add_user_location", map["entity_id" := "invalid_entity"]))
      && (loc.entityId !in states && loc.entityId != "" ==> after == locations)
  {
    assert |locations + [loc]| != |locations|;
  }

  /** `[loc for loc in locations if loc.get("name") != name]`. */
  function WithoutName(locations: seq<UserLocation>, name: string): (r: seq<UserLocation>)
    ensures |r| <= |locations|
    ensures forall i :: 0 <= i < |r| ==> r[i].name != name
  {
    if locations == [] then []
    else (if locations[0].name != name then [locations[0]] else []) + WithoutName(locations[1..], name)
  }

  /** The kept locations are exactly those with another name. */
  lemma {:induction false} WithoutNameMembers(locations: seq<UserLocation>, name: string, l: UserLocation)
    ensures l in WithoutName(locations, name) <==> l in locations && l.name != name
    decreases |locations|
  {
    if locations != [] {
      WithoutNameMembers(locations[1..], name, l);
      assert locations == [locations[0]] + locations[1..];
    }
  }

  /** Removing by name distributes over concatenation: the kept locations
      stay in their order. */
  lemma {:induction false} WithoutNameAppend(a: seq<UserLocation>, b: seq<UserLocation>, name: string)
    ensures WithoutName(a + b, name) == WithoutName(a, name) + WithoutName(b, name)
    decreases |a|
  {
    if a == [] {
      assert a + b == b;
    } else {
      assert (a + b)[1..] == a[1..] + b;
      WithoutNameAppend(a[1..], b, name);
    }
  }

  /** A name no location carries removes nothing. */
  lemma {:induction false} WithoutAbsentName(locations: seq<UserLocation>, name: string)
    requires forall i :: 0 <= i < |locations| ==> locations[i].name != name
    ensures WithoutName(locations, name) == locations
    decreases |locations|
  {
    if locations != [] {
      WithoutAbsentName(locations[1..], name);
    }
  }

  /** The remove-location step on the list `locations`. */
  function RemoveLocationStep(locations: seq<UserLocation>, input: Option<string>): (r: (seq<UserLocation>, FlowResult))
    ensures input.None? ==> r == (locations, ShowForm("remove_user_location", map[]))
    ensures input.Some? ==>
      r.1 == UserLocationsForm && |r.0| <= |locations|
      && forall i :: 0 <= i < |r.0| ==> r.0[i].name != input.value
  {
    match input
    case None => (locations, ShowForm("remove_user_location", map[]))
    case Some(name) => (WithoutName(locations, name), UserLocationsForm)
  }

  // ---------------------------------------------------------------------
  // General settings
  // ---------------------------------------------------------------------

  /** The defaults the general-settings form shows. */
  datatype GeneralDefaults = GeneralDefaults(
    apiBaseUrl: string, apiKey: string, searchRadius: real, warningCellId: string,
    intervalPetrol: int, intervalWeather: int, intervalPollen: int, intervalWaste: int)

  /** Connection settings fall back from the options to the data to the
      built-in default; the update intervals only from the options to the
      built-in default. */
  function SettingsDefaults(entry: ConfigEntry): (r: GeneralDefaults)
    ensures r.apiBaseUrl == Fallback(entry.options.apiBaseUrl, entry.data.apiBaseUrl, DefaultApiBaseUrl)
    ensures r.apiKey == Fallback(entry.options.apiKey, entry.data.apiKey, "")
    ensures r.searchRadius == Fallback(entry.options.searchRadius, entry.data.searchRadius, DefaultSearchRadius)
    ensures r.warningCellId == Fallback(entry.options.warningCellId, entry.data.warningCellId, DefaultWarningCellId)
    ensures r.intervalPetrol == Fallback(entry.options.intervalPetrol, None, DefaultIntervalPetrol)
    ensures r.intervalWeather == Fallback(entry.options.intervalWeather, None, DefaultIntervalWeather)
    ensures r.intervalPollen == Fallback(entry.options.intervalPollen, None, DefaultIntervalPollen)
    ensures r.intervalWaste == Fallback(entry.options.intervalWaste, None, DefaultIntervalWaste)
  {
    var o := entry.options;
    var d := entry.data;
    GeneralDefaults(
      Fallback(o.apiBaseUrl, d.apiBaseUrl, DefaultApiBaseUrl),
      Fallback(o.apiKey, d.apiKey, ""),
      Fallback(o.searchRadius, d.searchRadius, DefaultSearchRadius),
      Fallback(o.warningCellId, d.warningCellId, DefaultWarningCellId),
      Fallback(o.intervalPetrol, None, DefaultIntervalPetrol),
      Fallback(o.intervalWeather, None, DefaultIntervalWeather),
      Fallback(o.intervalPollen, None, DefaultIntervalPollen),
      Fallback(o.intervalWaste, None, DefaultIntervalWaste))
  }

  /** The form's validator for an update interval, in minutes. */
  predicate IntervalAccepted(n: int) {
    1 <= n <= 1440
  }

  /** The intervals a fresh entry shows are accepted by the form's own
      validator, and so are those of options that passed it; the entry's
      data never changes them. */
  lemma DefaultIntervalsAccepted(entry: ConfigEntry, other: EntryData)
    requires entry.options.intervalPetrol.Some? ==> IntervalAccepted(entry.options.intervalPetrol.value)
    requires entry.options.intervalWeather.Some? ==> IntervalAccepted(entry.options.intervalWeather.value)
    requires entry.options.intervalPollen.Some? ==> IntervalAccepted(entry.options.intervalPollen.value)
    requires entry.options.intervalWaste.Some? ==> IntervalAccepted(entry.options.intervalWaste.value)
    ensures var r := SettingsDefaults(entry);
      && IntervalAccepted(r.intervalPetrol) && IntervalAccepted(r.intervalWeather)
      && IntervalAccepted(r.intervalPollen) && IntervalAccepted(r.intervalWaste)
    ensures var r := SettingsDefaults(entry);
            var s := SettingsDefaults(ConfigEntry(other, entry.options));
      && r.intervalPetrol == s.intervalPetrol && r.intervalWeather == s.intervalWeather
      && r.intervalPollen == s.intervalPollen && r.intervalWaste == s.intervalWaste
  {
  }

  /** The options menu. */
  const InitMenu: FlowResult := ShowMenu("init", ["general_settings", "user_locations", "station_ids"])

  // ---------------------------------------------------------------------
  // The options flow
  // ---------------------------------------------------------------------

  /** One more ID: it is kept at the end iff it is not the target. */
  lemma WithoutSnoc(ids: seq<string>, id: string, target: string)
    ensures Without(ids + [id], target) == Without(ids, target) + (if id != target then [id] else [])
  {
    WithoutAppend(ids, [id], target);
    assert Without([id], target) == (if id != target then [id] else []) + Without([], target);
  }

  /** One more location: it is kept at the end iff it has another name. */
  lemma WithoutNameSnoc(locations: seq<UserLocation>, l: UserLocation, name: string)
    ensures WithoutName(locations + [l], name) == WithoutName(locations, name) + (if l.name != name then [l] else [])
  {
    WithoutNameAppend(locations, [l], name);
    assert WithoutName([l], name) == (if l.name != name then [l] else []) + WithoutName([], name);
  }

  /** The loop of `async_step_remove_station_id`: every ID other than
      `target`, in order. */
  method KeepOtherIds(ids: seq<string>, target: string) returns (kept: seq<string>)
    ensures kept == Without(ids, target)
  {
    kept := [];
    for i := 0 to |ids|
      invariant kept == Without(ids[..i], target)
    {
      var id := ids[i];
      WithoutSnoc(ids[..i], id, target);
      assert ids[..i + 1] == ids[..i] + [id];
      if id != target {
        kept := kept + [id];
      }
    }
    assert ids[..|ids|] == ids;
  }

  /** The loop of `async_step_remove_user_location`: every location with a
      name other than `name`, in order. */
  method KeepOtherNames(locations: seq<UserLocation>, name: string) returns (kept: seq<UserLocation>)
    ensures kept == WithoutName(locations, name)
  {
    kept := [];
    for i := 0 to |locations|
      invariant kept == WithoutName(locations[..i], name)
    {
      var l := locations[i];
      ghost var done := locations[..i];
      WithoutNameSnoc(done, l, name);
      assert locations[..i + 1] == done + [l];
      if l.name != name {
        kept := kept + [l];
      }
    }
    assert locations[..|locations|] == locations;
  }

  /** `IsalEasyHomeyOptionsFlow`: the entry being edited and the two lists
      the steps edit before they are saved. */
  class OptionsFlow {
    const entry: ConfigEntry
    var stationIds: seq<string>
    var userLocations: seq<UserLocation>

    /** Both lists are loaded from the options, else the data, else empty. */
    constructor (entry: ConfigEntry)
      ensures this.entry == entry
      ensures userLocations == Fallback(entry.options.userLocations, entry.data.userLocations, [])
      ensures stationIds == Fallback(entry.options.stationIds, entry.data.stationIds, [])
    {
      this.entry := entry;
      userLocations := Fallback(entry.options.userLocations, entry.data.userLocations, []);
      stationIds := Fallback(entry.options.stationIds, entry.data.stationIds, []);
    }

    /** `async_step_general_settings`: a submission is saved together with
        both current lists; without one the form is shown. */
    function GeneralSettings(input: Option<EntryData>): (r: FlowResult)
      reads this
      ensures input.None? ==> r == ShowForm("general_settings", map[])
      ensures input.Some? ==>
        (&& r.CreateEntry? && r.title == ""
         && r.entryData.userLocations == Some(userLocations)
         && r.entryData.stationIds == Some(stationIds)
         && r.entryData.(userLocations := input.value.userLocations, stationIds := input.value.stationIds) == input.value)
    {
      match input
      case None => ShowForm("general_settings", map[])
      case Some(u) => CreateEntry("", u.(userLocations := Some(userLocations), stationIds := Some(stationIds)))
    }

    /** `async_step_user_locations` for the chosen action: "remove" needs a
        non-empty list, and "done" saves the options with only the user
        locations replaced. */
    function UserLocationsStep(action: Option<string>): (r: FlowResult)
      reads this
      ensures action == Some("add") ==> r == ShowForm("add_user_location", map[])
      ensures action == Some("remove") ==>
        r == if userLocations != [] then ShowForm("remove_user_location", map[]) else UserLocationsForm
      ensures action == Some("done") ==>
        r == CreateEntry("", entry.options.(userLocations := Some(userLocations)))
      ensures action != Some("add") && action != Some("remove") && action != Some("done") ==> r == UserLocationsForm
    {
      if action == Some("add") then AddLocationStep(userLocations, None, map[]).1
      else if action == Some("remove") && userLocations != [] then RemoveLocationStep(userLocations, None).1
      else if action == Some("done") then CreateEntry("", entry.options.(userLocations := Some(userLocations)))
      else UserLocationsForm
    }

    /** `async_step_station_ids` for the chosen action: "remove" needs a
        non-empty list, and "done" saves the options with both lists
        replaced. */
    function StationIdsStep(action: Option<string>): (r: FlowResult)
      reads this
      ensures action == Some("add") ==> r == ShowForm("add_station_id", map[])
      ensures action == Some("remove") ==>
        r == if stationIds != [] then ShowForm("remove_station_id", map[]) else StationIdsForm
      ensures action == Some("done") ==>
        r == CreateEntry("", entry.options.(stationIds := Some(stationIds), userLocations := Some(userLocations)))
      ensures action != Some("add") && action != Some("remove") && action != Some("done") ==> r == StationIdsForm
    {
      if action == Some("add") then AddStationStep(stationIds, None, StationFound).1
      else if action == Some("remove") && stationIds != [] then RemoveStationStep(stationIds, None).1
      else if action == Some("done")
      then CreateEntry("", entry.options.(stationIds := Some(stationIds), userLocations := Some(userLocations)))
      else StationIdsForm
    }

    /** `async_step_add_station_id`: strip, check, look up, append. */
    method AddStationId(input: Option<string>, lookup: StationLookup) returns (r: FlowResult)
      modifies this`stationIds
      ensures (stationIds, r) == AddStationStep(old(stationIds), input, lookup)
    {
      if input.None? {
        return ShowForm("add_station_id", map[]);
      }
      var errors: map<string, string> := map[];
      var stationId := Strip(input.value);
      ghost var expected := AddStationError(stationIds, stationId, lookup);
      if stationId == "" {
        errors := errors["station_id" := "invalid_station_id"];
      } else if stationId in stationIds {
        errors := errors["station_id" := "station_id_exists"];
      } else {
        if lookup == LookupApiError {
          errors := errors["station_id" := "invalid_station_id"];
        }
        if |errors| == 0 {
          assert expected.None?;
          stationIds := stationIds + [stationId];
          return StationIdsForm;
        }
      }
      assert expected == Some(errors["station_id"]) && errors == map["station_id" := expected.value];
      r := ShowForm("add_station_id", errors);
    }

    /** `async_step_remove_station_id`: keep every other ID, in order. */
    method RemoveStationId(input: Option<string>) returns (r: FlowResult)
      modifies this`stationIds
      ensures (stationIds, r) == RemoveStationStep(old(stationIds), input)
    {
      if input.None? {
        return ShowForm("remove_station_id", map[]);
      }
      var kept := KeepOtherIds(stationIds, input.value);
      stationIds := kept;
      r := StationIdsForm;
    }

    /** `async_step_add_user_location`: validate a non-empty entity, then
        append the location. */
    method AddUserLocation(input: Option<UserLocation>, states: States) returns (r: FlowResult)
      modifies this`userLocations
      ensures (userLocations, r) == AddLocationStep(old(userLocations), input, states)
    {
      if input.None? {
        return ShowForm("add_user_location", map[]);
      }
      var errors: map<string, string> := map[];
      var entityId := input.value.entityId;
      if entityId != "" {
        if entityId !in states {
          errors := errors["entity_id" := "invalid_entity"];
        } else if !(Truthy(DictGet(states[entityId], "latitude", Null))
                    && Truthy(DictGet(states[entityId], "longitude", Null))) {
          errors := errors["entity_id" := "invalid_entity"];
        }
      }
      if |errors| == 0 {
        assert entityId == "" || HasLocation(states, entityId);
        userLocations := userLocations + [UserLocation(input.value.name, entityId)];
        return UserLocationsForm;
      }
      assert errors == map["entity_id" := "invalid_entity"];
      r := ShowForm("add_user_location", errors);
    }

    /** `async_step_remove_user_location`: keep every location with another
        name, in order. */
    method RemoveUserLocation(input: Option<string>) returns (r: FlowResult)
      modifies this`userLocations
      ensures (userLocations, r) == RemoveLocationStep(old(userLocations), input)
    {
      if input.None? {
        return ShowForm("remove_user_location", map[]);
      }
      var kept := KeepOtherNames(userLocations, input.value);
      userLocations := kept;
      r := UserLocationsForm;
    }
  }

  /** Saving from the user-location menu keeps the station IDs the options
      already held, not the ones edited in this flow; saving from the
      station-ID menu keeps both edited lists. */
  lemma DoneSavesWhichLists(flow: OptionsFlow)
    ensures flow.UserLocationsStep(Some("done")).entryData.stationIds == flow.entry.options.stationIds
    ensures flow.UserLocationsStep(Some("done")).entryData.userLocations == Some(flow.userLocations)
    ensures flow.StationIdsStep(Some("done")).entryData.stationIds == Some(flow.stationIds)
    ensures flow.StationIdsStep(Some("done")).entryData.userLocations == Some(flow.userLocations)
  {
  }
}

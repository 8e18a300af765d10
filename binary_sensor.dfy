/** The binary-sensor platform: "a weather warning is active", "an advance
    weather notice is active" and "pollen is flying", as functions of the
    weather and pollen bundles. */
module BinarySensor {
  import opened PyJson

  /** A binary sensor description: optional functions of the bundle for the
      state and the attributes, and of the state for the icon. */
  datatype BinaryDescription = BinaryDescription(
    key: string,
    valueFn: Option<Bundle -> Result<bool>>,
    attributesFn: Option<Bundle -> Result<map<string, Json>>>,
    iconFn: Option<bool -> string>)

  /** `is_on`: the value function's verdict, off without one. */
  function IsOn(d: BinaryDescription, data: Bundle): (r: Result<bool>)
    ensures d.valueFn.None? ==> r == Ok(false)
    ensures d.valueFn.Some? ==> r == d.valueFn.value(data)
  {
    match d.valueFn
    case None => Ok(false)
    case Some(f) => f(data)
  }

  /** `extra_state_attributes`: `None` without an attributes function. */
  function ExtraAttributes(d: BinaryDescription, data: Bundle): (r: Result<Option<map<string, Json>>>)
    ensures d.attributesFn.None? ==> r == Ok(None)
    ensures d.attributesFn.Some? ==> (r.Ok? <==> d.attributesFn.value(data).Ok?)
  {
    match d.attributesFn
    case None => Ok(None)
    case Some(f) =>
      var a :- f(data);
      Ok(Some(a))
  }

  /** `icon`: the icon function applied to `is_on`, `None` without one. */
  function Icon(d: BinaryDescription, data: Bundle): (r: Result<Option<string>>)
    ensures d.iconFn.None? ==> r == Ok(None)
    ensures d.iconFn.Some? && IsOn(d, data).Ok? ==> r == Ok(Some(d.iconFn.value(IsOn(d, data).value)))
  {
    match d.iconFn
    case None => Ok(None)
    case Some(f) =>
      var on :- IsOn(d, data);
      Ok(Some(f(on)))
  }

  /** Two bundles that give the same state give the same icon. */
  lemma IconFollowsState(d: BinaryDescription, data1: Bundle, data2: Bundle)
    requires IsOn(d, data1) == IsOn(d, data2)
    ensures Icon(d, data1) == Icon(d, data2)
  {
  }

  // ---------------------------------------------------------------------
  // WEATHER_WARNING_BINARY_SENSORS
  // ---------------------------------------------------------------------

  /** `data.get(group, {}).get("count", 0)`. */
  function WarningCount(data: Bundle, group: string): Result<Json> {
    Get(BundleGet(data, group, EmptyObj), "count", Num(0.0))
  }

  /** `count > 0`, with the group and the count defaulting to `{}` and 0. */
  function WarningActive(data: Bundle, group: string): Result<bool> {
    var count :- WarningCount(data, group);
    GtZero(count)
  }

  /** The group's `count` and `warningCellId`; the count is the one `is_on` tests. */
  function WarningAttributes(data: Bundle, group: string): (r: Result<map<string, Json>>)
    ensures r.Ok? <==> WarningCount(data, group).Ok?
    ensures r.Ok? ==> r.value.Keys == {"count", "cell_id"} && r.value["count"] == WarningCount(data, group).value
    ensures group !in data ==> r == Ok(map["count" := Num(0.0), "cell_id" := Null])
  {
    var payload := BundleGet(data, group, EmptyObj);
    if !payload.Obj? then Raise(AttributeError)
    else Ok(map["count" := DictGet(payload.fields, "count", Num(0.0)),
                "cell_id" := DictGet(payload.fields, "warningCellId", Null)])
  }

  function WarningIcon(on: bool): string {
    if on then "mdi:alert" else "mdi:check-circle"
  }

  function UpfrontIcon(on: bool): string {
    if on then "mdi:information" else "mdi:check-circle"
  }

  const WeatherWarningBinarySensors: seq<BinaryDescription> := [
    BinaryDescription("weather_warning_active",
      Some((data: Bundle) => WarningActive(data, "warnings")),
      Some((data: Bundle) => WarningAttributes(data, "warnings")),
      Some(WarningIcon)),
    BinaryDescription("upfront_warning_active",
      Some((data: Bundle) => WarningActive(data, "upfront")),
      Some((data: Bundle) => WarningAttributes(data, "upfront")),
      Some(UpfrontIcon))
  ]

  /** A weather binary sensor is on iff its count is positive; a missing
      group or count is 0 and gives off; and the `count` attribute shows the
      very count the state is decided by. */
  lemma WarningActiveIff(k: nat, data: Bundle)
    requires k < |WeatherWarningBinarySensors|
    ensures var d := WeatherWarningBinarySensors[k];
            var group := if k == 0 then "warnings" else "upfront";
      && (group !in data ==> IsOn(d, data) == Ok(false))
      && (WarningCount(data, group) == Ok(Num(0.0)) ==> IsOn(d, data) == Ok(false))
      && (forall n: real :: WarningCount(data, group) == Ok(Num(n)) ==> IsOn(d, data) == Ok(n > 0.0))
      && (ExtraAttributes(d, data).Ok? ==>
            IsOn(d, data) == GtZero(ExtraAttributes(d, data).value.value["count"]))
  {
  }

  /** The icons: alert or information when on, a check mark when off. */
  lemma WarningIcons(data: Bundle)
    ensures WarningActive(data, "warnings") == Ok(true) ==> Icon(WeatherWarningBinarySensors[0], data) == Ok(Some("mdi:alert"))
    ensures WarningActive(data, "warnings") == Ok(false) ==> Icon(WeatherWarningBinarySensors[0], data) == Ok(Some("mdi:check-circle"))
    ensures WarningActive(data, "upfront") == Ok(true) ==> Icon(WeatherWarningBinarySensors[1], data) == Ok(Some("mdi:information"))
    ensures WarningActive(data, "upfront") == Ok(false) ==> Icon(WeatherWarningBinarySensors[1], data) == Ok(Some("mdi:check-circle"))
  {
  }

  // ---------------------------------------------------------------------
  // POLLEN_BINARY_SENSORS
  // ---------------------------------------------------------------------

  /** `flight.get("today", {}).get("severityLevel", 0)`. */
  function FlightLevel(flight: Json): Result<Json> {
    Lookup(flight, ["today"], "severityLevel", Num(0.0))
  }

  /** The test `any` applies to one flight: its level is greater than 0. */
  function FlightPositive(flight: Json): Result<bool> {
    var level :- FlightLevel(flight);
    GtZero(level)
  }

  /** `any(level > 0 for flight in flights)`: stops at the first positive
      flight, and raises at the first flight whose test raises before that. */
  function AnyPositive(flights: seq<Json>): (r: Result<bool>)
    ensures r == Ok(true) <==>
      exists i :: 0 <= i < |flights| && FlightPositive(flights[i]) == Ok(true) &&
        (forall j :: 0 <= j < i ==> FlightPositive(flights[j]) == Ok(false))
    ensures r == Ok(false) <==> forall i :: 0 <= i < |flights| ==> FlightPositive(flights[i]) == Ok(false)
  {
    if flights == [] then Ok(false)
    else
      var positive :- FlightPositive(flights[0]);
      if positive then Ok(true)
      else
        var rest := AnyPositive(flights[1..]);
        assert forall i :: 0 < i < |flights| ==> flights[i] == flights[1..][i - 1];
        rest
  }

  /** `data.get("all_pollen", {}).get("flights", [])`. */
  function PollenFlights(data: Bundle): Result<Json> {
    Get(BundleGet(data, "all_pollen", EmptyObj), "flights", EmptyArr)
  }

  function PollenActive(data: Bundle): Result<bool> {
    var flights :- PollenFlights(data);
    var xs :- Elements(flights);
    AnyPositive(xs)
  }

  /** The flight report's region, part region and update time. */
  function PollenAttributes(data: Bundle): (r: Result<map<string, Json>>)
    ensures r.Ok? <==> BundleGet(data, "all_pollen", EmptyObj).Obj?
    ensures r.Ok? ==>
      && r.value.Keys == {"region", "part_region", "last_updated"}
      && r.value["region"] == DictGet(BundleGet(data, "all_pollen", EmptyObj).fields, "regionName", Null)
    ensures "all_pollen" !in data ==> r == Ok(map["region" := Null, "part_region" := Null, "last_updated" := Null])
  {
    var pollen := BundleGet(data, "all_pollen", EmptyObj);
    if !pollen.Obj? then Raise(AttributeError)
    else Ok(map["region" := DictGet(pollen.fields, "regionName", Null),
                "part_region" := DictGet(pollen.fields, "partRegionName", Null),
                "last_updated" := DictGet(pollen.fields, "lastUpdatedOn", Null)])
  }

  function PollenIcon(on: bool): string {
    if on then "mdi:flower-pollen" else "mdi:flower-pollen-outline"
  }

  const PollenBinarySensors: seq<BinaryDescription> := [
    BinaryDescription("pollen_flight_active", Some(PollenActive), Some(PollenAttributes), Some(PollenIcon))
  ]

  /** A flight whose test does not raise: its level is a number or a boolean. */
  predicate WellFormedFlight(flight: Json) {
    FlightPositive(flight).Ok?
  }

  /** Over well-formed flights, the pollen sensor is on iff some flight's
      level today is above 0; a missing or empty flight list gives off. */
  lemma PollenActiveIff(data: Bundle, xs: seq<Json>)
    requires PollenFlights(data) == Ok(Arr(xs))
    requires forall i :: 0 <= i < |xs| ==> WellFormedFlight(xs[i])
    ensures IsOn(PollenBinarySensors[0], data) ==
      Ok(exists i :: 0 <= i < |xs| && FlightPositive(xs[i]) == Ok(true))
    ensures xs == [] ==> IsOn(PollenBinarySensors[0], data) == Ok(false)
  {
    if exists i :: 0 <= i < |xs| && FlightPositive(xs[i]) == Ok(true) {
      FirstPositive(xs);
    }
  }

  /** Among well-formed flights, a positive one has a first positive one. */
  lemma FirstPositive(xs: seq<Json>)
    requires forall i :: 0 <= i < |xs| ==> WellFormedFlight(xs[i])
    requires exists i :: 0 <= i < |xs| && FlightPositive(xs[i]) == Ok(true)
    ensures exists i ::
              0 <= i < |xs| && FlightPositive(xs[i]) == Ok(true) &&
              (forall j :: 0 <= j < i ==> FlightPositive(xs[j]) == Ok(false))
  {
    var k :| 0 <= k < |xs| && FlightPositive(xs[k]) == Ok(true);
    FirstPositiveUpTo(xs, k);
  }

  /** A positive flight at `k` has a first positive flight at or before `k`. */
  lemma {:induction false} FirstPositiveUpTo(xs: seq<Json>, k: nat)
    requires forall i :: 0 <= i < |xs| ==> WellFormedFlight(xs[i])
    requires k < |xs| && FlightPositive(xs[k]) == Ok(true)
    ensures exists i ::
              0 <= i <= k && FlightPositive(xs[i]) == Ok(true) &&
              (forall j :: 0 <= j < i ==> FlightPositive(xs[j]) == Ok(false))
    decreases k
  {
    if exists j :: 0 <= j < k && FlightPositive(xs[j]) != Ok(false) {
      var j :| 0 <= j < k && FlightPositive(xs[j]) != Ok(false);
      assert WellFormedFlight(xs[j]);
      FirstPositiveUpTo(xs, j);
    } else {
      assert forall j :: 0 <= j < k ==> FlightPositive(xs[j]) == Ok(false);
    }
  }

  /** With no pollen bundle at all the sensor is off. */
  lemma PollenMissingIsOff(data: Bundle)
    requires "all_pollen" !in data
    ensures IsOn(PollenBinarySensors[0], data) == Ok(false)
    ensures Icon(PollenBinarySensors[0], data) == Ok(Some("mdi:flower-pollen-outline"))
  {
  }

  // ---------------------------------------------------------------------
  // async_setup_entry
  // ---------------------------------------------------------------------

  /** `async_setup_entry`: the weather binary sensors, then the pollen ones,
      as their description keys. */
  method SetupBinarySensors() returns (keys: seq<string>)
    ensures keys == ["weather_warning_active", "upfront_warning_active", "pollen_flight_active"]
  {
    keys := [];
    for i := 0 to |WeatherWarningBinarySensors|
      invariant keys == seq(i, j requires 0 <= j < i => WeatherWarningBinarySensors[j].key)
    {
      keys := keys + [WeatherWarningBinarySensors[i].key];
    }
    var weather := keys;
    for i := 0 to |PollenBinarySensors|
      invariant keys == weather + seq(i, j requires 0 <= j < i => PollenBinarySensors[j].key)
    {
      keys := keys + [PollenBinarySensors[i].key];
    }
  }

  /** The unique ID of a binary sensor of entry `entryId`. */
  function UniqueId(entryId: string, d: BinaryDescription): (r: string)
    ensures |r| == |entryId| + 1 + |d.key|
    ensures r[..|entryId| + 1] == entryId + "_" && r[|entryId| + 1..] == d.key
  {
    entryId + "_" + d.key
  }

  /** Within one entry, binary sensors with different keys have different unique IDs. */
  lemma UniqueIdsDistinct(entryId: string, d: BinaryDescription, e: BinaryDescription)
    requires d.key != e.key
    ensures UniqueId(entryId, d) != UniqueId(entryId, e)
  {
    if |d.key| == |e.key| {
      assert UniqueId(entryId, d)[|entryId| + 1..] != UniqueId(entryId, e)[|entryId| + 1..];
    }
  }
}

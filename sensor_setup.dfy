/** The sensor platform's `async_setup_entry`: which sensors one config entry
    gets, in which order. */
module SensorSetup {
  import opened Const
  import opened Sensor

  /** One per-user nearest-station sensor for each user location whose name is
      truthy, in order. */
  function NamedUsers(locations: seq<UserLocation>): (r: seq<SensorEntity>)
    ensures |r| <= |locations|
  {
    if locations == [] then []
    else (if locations[0].name != "" then [UserNearestStation(locations[0].name)] else [])
         + NamedUsers(locations[1..])
  }

  function StationSensors(stationIds: seq<string>): seq<SensorEntity> {
    seq(|stationIds|, i requires 0 <= i < |stationIds| => StationById(stationIds[i]))
  }

  function PollenSensors(): seq<SensorEntity> {
    seq(|PollenTypes|, i requires 0 <= i < |PollenTypes| => PollenKind(PollenTypes[i].0, PollenTypes[i].1))
  }

  function WasteSensors(): seq<SensorEntity> {
    seq(|WasteTypes|, i requires 0 <= i < |WasteTypes| => WasteKind(WasteTypes[i].0, WasteTypes[i].1))
  }

  /** The sensors created before the per-user ones: nearest, then cheapest per fuel kind. */
  function FixedHead(): seq<SensorEntity> {
    [Described("nearest_station"), CheapestStation("E5"), CheapestStation("E10"), CheapestStation("DIESEL")]
  }

  /** The sensors created after the station-ID ones: weather, pollen, waste. */
  function FixedTail(): seq<SensorEntity> {
    [Described("current_weather_warning"), Described("current_upfront_warning"),
     Described("all_weather_warnings_json"), Described("all_upfront_warnings_json")]
    + [HighestPollen]
    + PollenSensors()
    + [NextWaste]
    + WasteSensors()
  }

  /** The sensors of one entry, in creation order. */
  function SetupPlan(locations: seq<UserLocation>, stationIds: seq<string>): seq<SensorEntity> {
    FixedHead() + NamedUsers(locations) + StationSensors(stationIds) + FixedTail()
  }

  /** `async_setup_entry`: grows the entity list table by table and loop by loop.
      The user locations and station IDs are those the options flow stored. */
  method SetupSensors(locations: seq<UserLocation>, stationIds: seq<string>) returns (entities: seq<SensorEntity>)
    ensures entities == SetupPlan(locations, stationIds)
  {
    entities := ExtendDescribed([], PetrolStationSensors);
    PetrolDescribed();
    entities := AddCheapest(entities);
    assert entities == FixedHead();
    if |locations| > 0 {
      entities := AddUsers(entities, locations);
    }
    assert entities == FixedHead() + NamedUsers(locations);
    ghost var users := entities;
    if |stationIds| > 0 {
      entities := AddStations(entities, stationIds);
    }
    assert entities == users + StationSensors(stationIds);
    entities := AddTail(entities);
  }

  /** The weather, pollen and waste sensors, after the station-ID ones. */
  method AddTail(entities: seq<SensorEntity>) returns (r: seq<SensorEntity>)
    ensures r == entities + FixedTail()
  {
    r := ExtendDescribed(entities, WeatherWarningSensors);
    WeatherDescribed();
    ghost var weather := r[|entities|..];
    assert r == entities + weather;
    r := r + [HighestPollen];
    r := AddPollen(r);
    assert r == entities + (weather + [HighestPollen] + PollenSensors());
    r := r + [NextWaste];
    r := AddWaste(r);
    assert r == entities + (weather + [HighestPollen] + PollenSensors() + [NextWaste] + WasteSensors());
  }

  /** The sensors a descriptor table creates, one per entry, in order. */
  function DescribedAll(table: seq<Description>): seq<SensorEntity> {
    seq(|table|, j requires 0 <= j < |table| => Described(table[j].key))
  }

  /** The petrol table creates the nearest-station sensor only. */
  lemma PetrolDescribed()
    ensures DescribedAll(PetrolStationSensors) == [Described("nearest_station")]
  {
  }

  /** The weather table creates the four weather sensors, in order. */
  lemma WeatherDescribed()
    ensures DescribedAll(WeatherWarningSensors) ==
      [Described("current_weather_warning"), Described("current_upfront_warning"),
       Described("all_weather_warnings_json"), Described("all_upfront_warnings_json")]
  {
    assert WeatherWarningSensors[0].key == "current_weather_warning";
    assert WeatherWarningSensors[3].key == "all_upfront_warnings_json";
  }

  /** `entities.extend(IsalEasyHomeySensor(...) for description in table)`. */
  method ExtendDescribed(entities: seq<SensorEntity>, table: seq<Description>) returns (r: seq<SensorEntity>)
    ensures r == entities + DescribedAll(table)
  {
    r := entities;
    for i := 0 to |table|
      invariant r == entities + seq(i, j requires 0 <= j < i => Described(table[j].key))
    {
      r := r + [Described(table[i].key)];
    }
  }

  /** One cheapest-station sensor per fuel kind. */
  method AddCheapest(entities: seq<SensorEntity>) returns (r: seq<SensorEntity>)
    ensures r == entities + [CheapestStation("E5"), CheapestStation("E10"), CheapestStation("DIESEL")]
  {
    var fuels := ["E5", "E10", "DIESEL"];
    r := entities;
    for i := 0 to |fuels|
      invariant r == entities + seq(i, j requires 0 <= j < i => CheapestStation(fuels[j]))
    {
      r := r + [CheapestStation(fuels[i])];
    }
  }

  /** One per-user sensor for each location with a truthy name. */
  method AddUsers(entities: seq<SensorEntity>, locations: seq<UserLocation>) returns (r: seq<SensorEntity>)
    ensures r == entities + NamedUsers(locations)
  {
    r := entities;
    for i := 0 to |locations|
      invariant r == entities + NamedUsers(locations[..i])
    {
      NamedUsersAppend(locations[..i], locations[i]);
      assert locations[..i + 1] == locations[..i] + [locations[i]];
      if locations[i].name != "" {
        r := r + [UserNearestStation(locations[i].name)];
      }
    }
    assert locations[..|locations|] == locations;
  }

  /** One sensor per configured station ID. */
  method AddStations(entities: seq<SensorEntity>, stationIds: seq<string>) returns (r: seq<SensorEntity>)
    ensures r == entities + StationSensors(stationIds)
  {
    r := entities;
    for i := 0 to |stationIds|
      invariant r == entities + seq(i, j requires 0 <= j < i => StationById(stationIds[j]))
    {
      r := r + [StationById(stationIds[i])];
    }
  }

  /** One sensor per pollen kind, in the table's order. */
  method AddPollen(entities: seq<SensorEntity>) returns (r: seq<SensorEntity>)
    ensures r == entities + PollenSensors()
  {
    r := entities;
    for i := 0 to |PollenTypes|
      invariant r == entities + seq(i, j requires 0 <= j < i => PollenKind(PollenTypes[j].0, PollenTypes[j].1))
    {
      r := r + [PollenKind(PollenTypes[i].0, PollenTypes[i].1)];
    }
  }

  /** One sensor per waste kind, in the table's order. */
  method AddWaste(entities: seq<SensorEntity>) returns (r: seq<SensorEntity>)
    ensures r == entities + WasteSensors()
  {
    r := entities;
    for i := 0 to |WasteTypes|
      invariant r == entities + seq(i, j requires 0 <= j < i => WasteKind(WasteTypes[j].0, WasteTypes[j].1))
    {
      r := r + [WasteKind(WasteTypes[i].0, WasteTypes[i].1)];
    }
  }

  /** The user loop, one location further. */
  lemma {:induction false} NamedUsersAppend(locations: seq<UserLocation>, last: UserLocation)
    ensures NamedUsers(locations + [last]) ==
      NamedUsers(locations) + (if last.name != "" then [UserNearestStation(last.name)] else [])
    decreases |locations|
  {
    if locations == [] {
      assert [] + [last] == [last];
    } else {
      assert (locations + [last])[1..] == locations[1..] + [last];
      NamedUsersAppend(locations[1..], last);
    }
  }

  /** The per-user sensors are exactly the truthy names, each once per location. */
  lemma {:induction false} NamedUsersMembers(locations: seq<UserLocation>, e: SensorEntity)
    ensures e in NamedUsers(locations) <==>
      e.UserNearestStation? && e.userName != "" && exists l :: l in locations && l.name == e.userName
    decreases |locations|
  {
    if locations != [] {
      NamedUsersMembers(locations[1..], e);
      if e.UserNearestStation? && e.userName != "" && (exists l :: l in locations && l.name == e.userName) {
        var l :| l in locations && l.name == e.userName;
        if l != locations[0] {
          assert l in locations[1..];
        }
      }
    }
  }

  /** How many sensors an entry gets: 1 nearest, 3 cheapest, the named users,
      the station IDs, 4 weather, 1 + 8 pollen and 1 + 5 waste sensors. */
  lemma SetupCount(locations: seq<UserLocation>, stationIds: seq<string>)
    ensures |SetupPlan(locations, stationIds)| == 23 + |NamedUsers(locations)| + |stationIds|
    ensures locations == [] ==> |SetupPlan(locations, stationIds)| == 23 + |stationIds|
  {
  }

  /** The fixed head of the list: the nearest-station sensor and the cheapest
      sensors in the order E5, E10, DIESEL; the station-ID sensors follow the
      per-user ones, in the order of the IDs. */
  lemma SetupOrder(locations: seq<UserLocation>, stationIds: seq<string>)
    ensures var plan := SetupPlan(locations, stationIds);
      && plan[..4] == [Described("nearest_station"), CheapestStation("E5"), CheapestStation("E10"), CheapestStation("DIESEL")]
      && forall i :: 0 <= i < |stationIds| ==> plan[4 + |NamedUsers(locations)| + i] == StationById(stationIds[i])
  {
    var plan := SetupPlan(locations, stationIds);
    var prefix := FixedHead() + NamedUsers(locations);
    assert plan == prefix + StationSensors(stationIds) + FixedTail();
    assert plan[..4] == FixedHead();
    forall i | 0 <= i < |stationIds|
      ensures plan[4 + |NamedUsers(locations)| + i] == StationById(stationIds[i])
    {
      assert plan[|prefix| + i] == StationSensors(stationIds)[i];
    }
  }

  /** The fixed tail of the list: the next-waste sensor, then the five waste
      kinds in the table's order. */
  lemma SetupTail(locations: seq<UserLocation>, stationIds: seq<string>)
    ensures var plan := SetupPlan(locations, stationIds);
      && plan[|plan| - 6] == NextWaste
      && plan[|plan| - 5..] == [WasteKind("PAPER", "paper"), WasteKind("BIO", "bio"), WasteKind("GENERAL", "general"),
                                 WasteKind("YELLOW_BAG", "yellow_bag"), WasteKind("PROBLEM", "problem")]
  {
    var waste := WasteSensors();
    assert |waste| == 5;
    assert waste == [WasteKind("PAPER", "paper"), WasteKind("BIO", "bio"), WasteKind("GENERAL", "general"),
                     WasteKind("YELLOW_BAG", "yellow_bag"), WasteKind("PROBLEM", "problem")];
    var rest := FixedHead() + NamedUsers(locations) + StationSensors(stationIds)
      + [Described("current_weather_warning"), Described("current_upfront_warning"),
         Described("all_weather_warnings_json"), Described("all_upfront_warnings_json")]
      + [HighestPollen] + PollenSensors();
    assert SetupPlan(locations, stationIds) == rest + [NextWaste] + waste;
  }
}

/** The four data-update coordinators: how each one turns the answers of the
    REST client into the data bundle its entities read.  The client calls are
    inputs (functions of their arguments giving a body or an API error), not I/O. */
module Coordinator {
  import opened PyJson
  import opened Const

  /** The client's exception hierarchy: a connection error and a timeout are
      both kinds of the base API error. */
  datatype ApiError = ConnectionFailed | TimedOut | OtherApiError

  /** What one awaited client call gives: the decoded body, or the API error it raised. */
  datatype ApiResult = Fetched(body: Json) | Failed(error: ApiError)

  /** The outcome of one refresh: the new bundle; `UpdateFailed` raised from an
      API error (the bundle is then not replaced); or a Python exception
      that escapes the `except` clause. */
  datatype Refresh = Updated(bundle: Bundle) | UpdateFailed(cause: ApiError) | Crashed(error: PyError)

  // ---------------------------------------------------------------------
  // get_coordinates_from_entity
  // ---------------------------------------------------------------------

  /** Latitude and longitude from the state of `entityId`; `None` when the ID
      is `None` or empty, the entity has no state, or either attribute is
      missing or `None` (a latitude of 0 is accepted: the test is `is None`). */
  function CoordinatesFromEntity(states: States, entityId: Option<string>): (r: Option<(Json, Json)>)
    ensures r.Some? <==>
      entityId.Some? && entityId.value != "" && entityId.value in states
      && DictGet(states[entityId.value], "latitude", Null) != Null
      && DictGet(states[entityId.value], "longitude", Null) != Null
    ensures r.Some? ==>
      r.value == (states[entityId.value]["latitude"], states[entityId.value]["longitude"])
  {
    if entityId.None? || entityId.value == "" then None
    else if entityId.value !in states then None
    else
      var attributes := states[entityId.value];
      var latitude := DictGet(attributes, "latitude", Null);
      var longitude := DictGet(attributes, "longitude", Null);
      if latitude == Null || longitude == Null then None
      else Some((latitude, longitude))
  }

  // ---------------------------------------------------------------------
  // PetrolStationCoordinator
  // ---------------------------------------------------------------------

  /** The petrol coordinator's settings. */
  datatype PetrolSettings = PetrolSettings(locationEntityId: Option<string>, searchRadius: real, petrolType: string)

  /** The two client calls the petrol coordinator makes, as functions of their
      arguments: the station search (latitude, longitude, radius) and the
      cheapest-station query (latitude, longitude, radius, fuel kind). */
  datatype PetrolClient = PetrolClient(
    search: (Json, Json, real) -> ApiResult,
    cheapest: (Json, Json, real, string) -> ApiResult)

  /** The key `min` sorts stations by: `location.distance`, infinite when absent. */
  function DistanceKey(station: Json): (r: Result<Key>)
    ensures r.Ok? <==> Lookup(station, ["location"], "distance", Null).Ok?
    ensures r.Ok? ==>
      (r.value == Infinity <==> "distance" !in DictGet(station.fields, "location", EmptyObj).fields)
    ensures r.Ok? && r.value.Of? ==> Lookup(station, ["location"], "distance", Null) == Ok(r.value.v)
  {
    var location :- Get(station, "location", EmptyObj);
    if !location.Obj? then Raise(AttributeError)
    else if "distance" in location.fields then Ok(Of(location.fields["distance"]))
    else Ok(Infinity)
  }

  function DistanceKeys(stations: seq<Json>): (keys: seq<Result<Key>>)
    ensures |keys| == |stations|
    ensures forall i :: 0 <= i < |stations| ==> keys[i] == DistanceKey(stations[i])
  {
    seq(|stations|, i requires 0 <= i < |stations| => DistanceKey(stations[i]))
  }

  /** `min(stations, key=distance)`, which raises `ValueError` on no items. */
  function NearestStation(stations: Json): (r: Result<Json>)
    ensures Elements(stations) == Ok([]) ==> r == Raise(ValueError)
    ensures r.Ok? ==> Elements(stations).Ok? && r.value in Elements(stations).value
  {
    var xs :- Elements(stations);
    var m :- Extreme(DistanceKeys(xs), true);
    match m
    case None => Raise(ValueError)
    case Some(i) => Ok(xs[i])
  }

  /** The petrol refresh: the bundle stays empty unless coordinates resolve;
      then it holds the search result, the nearest station when the search
      result is truthy, and the cheapest-station answer. */
  function PetrolRefresh(states: States, settings: PetrolSettings, client: PetrolClient): (r: Refresh)
    ensures r.Updated? ==> r.bundle.Keys <= {"all_stations", "nearest_station", "cheapest_station"}
    ensures r.Crashed? ==>
      CoordinatesFromEntity(states, settings.locationEntityId).Some?
      && var (latitude, longitude) := CoordinatesFromEntity(states, settings.locationEntityId).value;
         var found := client.search(latitude, longitude, settings.searchRadius);
         found.Fetched? && Truthy(found.body) && NearestStation(found.body) == Raise(r.error)
  {
    match CoordinatesFromEntity(states, settings.locationEntityId)
    case None => Updated(map[])
    case Some((latitude, longitude)) =>
      var found := client.search(latitude, longitude, settings.searchRadius);
      if found.Failed? then UpdateFailed(found.error)
      else
        var stations := found.body;
        var nearest := if Truthy(stations) then NearestStation(stations) else Ok(Null);
        if nearest.Raise? then Crashed(nearest.error)
        else
          var cheapest := client.cheapest(latitude, longitude, settings.searchRadius, settings.petrolType);
          if cheapest.Failed? then UpdateFailed(cheapest.error)
          else
            var withNearest := if Truthy(stations) then map["nearest_station" := nearest.value] else map[];
            Updated(map["all_stations" := stations] + withNearest + map["cheapest_station" := cheapest.body])
  }

  /** `PetrolStationCoordinator._async_update_data`: fills the bundle key by key. */
  method PetrolUpdate(states: States, settings: PetrolSettings, client: PetrolClient) returns (out: Refresh)
    ensures out == PetrolRefresh(states, settings, client)
  {
    var data: Bundle := map[];
    var coordinates := CoordinatesFromEntity(states, settings.locationEntityId);
    if coordinates.Some? {
      var (latitude, longitude) := coordinates.value;
      var found := client.search(latitude, longitude, settings.searchRadius);
      if found.Failed? {
        return UpdateFailed(found.error);
      }
      var stations := found.body;
      data := data["all_stations" := stations];
      if Truthy(stations) {
        var nearest := NearestStation(stations);
        if nearest.Raise? {
          return Crashed(nearest.error);
        }
        data := data["nearest_station" := nearest.value];
      }
      var cheapest := client.cheapest(latitude, longitude, settings.searchRadius, settings.petrolType);
      if cheapest.Failed? {
        return UpdateFailed(cheapest.error);
      }
      data := data["cheapest_station" := cheapest.body];
    }
    return Updated(data);
  }

  /** Without coordinates the client is never called and the bundle is empty. */
  lemma PetrolNoCoordinates(states: States, settings: PetrolSettings, client: PetrolClient)
    requires CoordinatesFromEntity(states, settings.locationEntityId).None?
    ensures PetrolRefresh(states, settings, client) == Updated(map[])
  {
  }

  /** With coordinates, a successful refresh stores the search result under
      `all_stations` and the cheapest answer under `cheapest_station`, adds
      `nearest_station` exactly when the search result is truthy, and nothing else. */
  lemma PetrolBundleKeys(states: States, settings: PetrolSettings, client: PetrolClient)
    requires CoordinatesFromEntity(states, settings.locationEntityId).Some?
    requires PetrolRefresh(states, settings, client).Updated?
    ensures var (latitude, longitude) := CoordinatesFromEntity(states, settings.locationEntityId).value;
            var found := client.search(latitude, longitude, settings.searchRadius);
            var cheapest := client.cheapest(latitude, longitude, settings.searchRadius, settings.petrolType);
            var bundle := PetrolRefresh(states, settings, client).bundle;
            found.Fetched? && cheapest.Fetched?
            && bundle.Keys == {"all_stations", "cheapest_station"} + (if Truthy(found.body) then {"nearest_station"} else {})
            && bundle["all_stations"] == found.body
            && bundle["cheapest_station"] == cheapest.body
  {
    var (latitude, longitude) := CoordinatesFromEntity(states, settings.locationEntityId).value;
    var found := client.search(latitude, longitude, settings.searchRadius);
    var bundle := PetrolRefresh(states, settings, client).bundle;
    if Truthy(found.body) {
      assert "nearest_station" in bundle;
    }
  }

  /** A non-empty station list: the nearest station is an element whose
      distance (infinite when missing) no other element undercuts, and it is the
      first such element; with two or more stations the refresh only succeeds
      when every distance is a number. */
  lemma PetrolNearestIsFirstMinimum(states: States, settings: PetrolSettings, client: PetrolClient)
    requires CoordinatesFromEntity(states, settings.locationEntityId).Some?
    requires PetrolRefresh(states, settings, client).Updated?
    requires var (latitude, longitude) := CoordinatesFromEntity(states, settings.locationEntityId).value;
             client.search(latitude, longitude, settings.searchRadius).body.Arr?
    ensures var (latitude, longitude) := CoordinatesFromEntity(states, settings.locationEntityId).value;
            var xs := client.search(latitude, longitude, settings.searchRadius).body.items;
            var bundle := PetrolRefresh(states, settings, client).bundle;
            xs != [] ==>
              (|xs| >= 2 ==> NumericUpTo(DistanceKeys(xs), |xs|)) &&
              exists i :: 0 <= i < |xs| && bundle["nearest_station"] == xs[i]
                && (|xs| >= 2 ==> FirstExtremeUpTo(DistanceKeys(xs), |xs|, true, i))
  {
    var (latitude, longitude) := CoordinatesFromEntity(states, settings.locationEntityId).value;
    var xs := client.search(latitude, longitude, settings.searchRadius).body.items;
    if xs != [] {
      ExtremeSpec(DistanceKeys(xs), true);
      var i := Extreme(DistanceKeys(xs), true).value.value;
      assert PetrolRefresh(states, settings, client).bundle["nearest_station"] == xs[i];
    }
  }

  /** An API error from either call fails the update and yields no bundle;
      the search error wins because it is raised first. */
  lemma PetrolApiErrorFails(states: States, settings: PetrolSettings, client: PetrolClient)
    requires CoordinatesFromEntity(states, settings.locationEntityId).Some?
    ensures var (latitude, longitude) := CoordinatesFromEntity(states, settings.locationEntityId).value;
            var found := client.search(latitude, longitude, settings.searchRadius);
            var cheapest := client.cheapest(latitude, longitude, settings.searchRadius, settings.petrolType);
            var out := PetrolRefresh(states, settings, client);
            (found.Failed? ==> out == UpdateFailed(found.error))
            && (found.Fetched? && cheapest.Failed? ==> out.UpdateFailed? || out.Crashed?)
            && (out.UpdateFailed? ==> found.Failed? || cheapest.Failed?)
  {
  }

  // ---------------------------------------------------------------------
  // Weather, pollen and waste coordinators
  // ---------------------------------------------------------------------

  /** Two awaited calls put into a two-key bundle; the first API error aborts
      the refresh (the second call is then not made). */
  function PairRefresh(firstKey: string, first: ApiResult, secondKey: string, second: ApiResult): (r: Refresh)
    requires firstKey != secondKey
    ensures r.Updated? <==> first.Fetched? && second.Fetched?
    ensures r.Updated? ==>
      r.bundle.Keys == {firstKey, secondKey}
      && r.bundle[firstKey] == first.body && r.bundle[secondKey] == second.body
    ensures first.Failed? ==> r == UpdateFailed(first.error)
    ensures first.Fetched? && second.Failed? ==> r == UpdateFailed(second.error)
  {
    if first.Failed? then UpdateFailed(first.error)
    else if second.Failed? then UpdateFailed(second.error)
    else Updated(map[firstKey := first.body, secondKey := second.body])
  }

  /** Weather warnings for one warn cell, fetched by warning kind. */
  function WeatherRefresh(cellId: string, warnings: (string, string) -> ApiResult): (r: Refresh)
    ensures r.Updated? ==>
      warnings(cellId, WarningTypeWarning).Fetched? && warnings(cellId, WarningTypeUpfront).Fetched?
      && r.bundle.Keys == {"warnings", "upfront"}
      && r.bundle["warnings"] == warnings(cellId, WarningTypeWarning).body
      && r.bundle["upfront"] == warnings(cellId, WarningTypeUpfront).body
    ensures r.UpdateFailed? <==>
      warnings(cellId, WarningTypeWarning).Failed? || warnings(cellId, WarningTypeUpfront).Failed?
  {
    PairRefresh("warnings", warnings(cellId, WarningTypeWarning), "upfront", warnings(cellId, WarningTypeUpfront))
  }

  /** Pollen flight: all regions' flights and the highest flight. */
  function PollenRefresh(allPollen: ApiResult, highest: ApiResult): (r: Refresh)
    ensures r.Updated? ==>
      allPollen.Fetched? && highest.Fetched? && r.bundle.Keys == {"all_pollen", "highest"}
      && r.bundle["all_pollen"] == allPollen.body && r.bundle["highest"] == highest.body
    ensures r.UpdateFailed? <==> allPollen.Failed? || highest.Failed?
  {
    PairRefresh("all_pollen", allPollen, "highest", highest)
  }

  /** Waste collection: the upcoming collections and the next one. */
  function WasteRefresh(upcoming: ApiResult, next: ApiResult): (r: Refresh)
    ensures r.Updated? ==>
      upcoming.Fetched? && next.Fetched? && r.bundle.Keys == {"upcoming", "next"}
      && r.bundle["upcoming"] == upcoming.body && r.bundle["next"] == next.body
    ensures r.UpdateFailed? <==> upcoming.Failed? || next.Failed?
  {
    PairRefresh("upcoming", upcoming, "next", next)
  }
}

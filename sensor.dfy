/** The sensor platform's data shaping: the helpers `get_price_from_prices`
    and `format_address`, the descriptor tables of the generic sensor, and the
    value, attributes, icon, name and availability of every sensor class, each
    a function of the coordinator's bundle. */
module Sensor {
  import opened PyJson
  import opened Const
  import Coordinator

  /** An entity's state attributes. */
  type Attributes = map<string, Json>

  /** Python's text formatting of non-`str` values, which the model does not
      implement: `show` is what an f-string prints for a value, `fixed3` is the
      `:.3f` format (which raises for a value that is not a number). */
  datatype Fmt = Fmt(show: Json -> string, fixed3: Json -> Result<string>)

  /** A value inside an f-string: a `str` is copied, anything else is formatted. */
  function Text(v: Json, fmt: Fmt): string {
    if v.Str? then v.s else fmt.show(v)
  }

  // ---------------------------------------------------------------------
  // get_price_from_prices
  // ---------------------------------------------------------------------

  /** No price entry names `petrolType`, and every entry is a `dict`. */
  ghost predicate NoPriceFor(xs: seq<Json>, petrolType: string) {
    forall j :: 0 <= j < |xs| ==> xs[j].Obj? && !Matches(xs[j], "petrolType", petrolType)
  }

  /** The price of the first entry whose `petrolType` is `petrolType`, or `None`. */
  function PriceFromPrices(prices: Json, petrolType: string): (r: Result<Json>)
    ensures prices == EmptyArr ==> r == Ok(Null)
    ensures prices.Arr? && NoPriceFor(prices.items, petrolType) ==> r == Ok(Null)
    ensures prices.Arr? ==> forall i :: FirstMatchAt(prices.items, "petrolType", petrolType, i) ==>
      r == Ok(DictGet(prices.items[i].fields, "price", Null))
    ensures r.Ok? && r.value != Null ==>
      prices.Arr? && (exists i :: FirstMatchAt(prices.items, "petrolType", petrolType, i) &&
                        r.value == DictGet(prices.items[i].fields, "price", Null))
  {
    var xs :- Elements(prices);
    var m :- FirstWhere(xs, "petrolType", petrolType);
    match m
    case None => Ok(Null)
    case Some(i) => Get(xs[i], "price", Null)
  }

  // ---------------------------------------------------------------------
  // format_address
  // ---------------------------------------------------------------------

  /** `sep.join(parts)` for strings. */
  function Join(parts: seq<string>, sep: string): string {
    if |parts| == 0 then ""
    else if |parts| == 1 then parts[0]
    else parts[0] + sep + Join(parts[1..], sep)
  }

  function StrValues(parts: seq<Json>): seq<string>
    requires forall i :: 0 <= i < |parts| ==> parts[i].Str?
  {
    if parts == [] then [] else [parts[0].s] + StrValues(parts[1..])
  }

  /** `sep.join(parts)`, which raises `TypeError` on a part that is not a `str`. */
  function JoinParts(parts: seq<Json>, sep: string): Result<string> {
    if exists i :: 0 <= i < |parts| && !parts[i].Str? then Raise(TypeError)
    else Ok(Join(StrValues(parts), sep))
  }

  /** A field that takes part in the address when it is truthy. */
  function Present(v: Json): seq<Json> {
    if Truthy(v) then [v] else []
  }

  /** The address text: street (with the house number after one space),
      postal code and city, each only when truthy, joined by ", ".  A house
      number without a street has no part to attach to (`IndexError`). */
  function AddressText(address: Json, fmt: Fmt): Result<string> {
    if !address.Obj? then Raise(AttributeError)
    else
      var street := DictGet(address.fields, "street", Null);
      var house := DictGet(address.fields, "houseNumber", Null);
      var postal := DictGet(address.fields, "postalCode", Null);
      var city := DictGet(address.fields, "city", Null);
      if Truthy(house) && !Truthy(street) then Raise(IndexError)
      else
        var first := if !Truthy(street) then []
                     else if Truthy(house) then [Str(Text(street, fmt) + " " + Text(house, fmt))]
                     else [street];
        JoinParts(first + Present(postal) + Present(city), ", ")
  }

  /** `format_address`: appends the parts one by one, rewriting the last part
      in place when a house number follows. */
  method FormatAddress(address: Json, fmt: Fmt) returns (r: Result<string>)
    ensures r == AddressText(address, fmt)
  {
    if !address.Obj? {
      return Raise(AttributeError);
    }
    var parts: seq<Json> := [];
    var street := DictGet(address.fields, "street", Null);
    if Truthy(street) {
      parts := parts + [street];
    }
    var house := DictGet(address.fields, "houseNumber", Null);
    if Truthy(house) {
      if |parts| == 0 {
        return Raise(IndexError);
      }
      assert parts == [street];
      parts := parts[..|parts| - 1] + [Str(Text(parts[|parts| - 1], fmt) + " " + Text(house, fmt))];
    }
    var postal := DictGet(address.fields, "postalCode", Null);
    if Truthy(postal) {
      parts := parts + [postal];
    }
    var city := DictGet(address.fields, "city", Null);
    if Truthy(city) {
      parts := parts + [city];
    }
    assert parts == (if !Truthy(street) then []
                     else if Truthy(house) then [Str(Text(street, fmt) + " " + Text(house, fmt))]
                     else [street]) + Present(postal) + Present(city);
    r := JoinParts(parts, ", ");
  }

  /** An empty address formats as "". */
  lemma AddressEmpty(fmt: Fmt)
    ensures AddressText(EmptyObj, fmt) == Ok("")
  {
    assert Present(Null) == [];
  }

  /** All four fields present as text: "street house, postal, city". */
  lemma AddressFull(street: string, house: string, postal: string, city: string, fmt: Fmt)
    requires street != "" && house != "" && postal != "" && city != ""
    ensures AddressText(Obj(map["street" := Str(street), "houseNumber" := Str(house),
                                "postalCode" := Str(postal), "city" := Str(city)]), fmt)
            == Ok(street + " " + house + ", " + postal + ", " + city)
  {
    var m := map["street" := Str(street), "houseNumber" := Str(house), "postalCode" := Str(postal), "city" := Str(city)];
    assert DictGet(m, "street", Null) == Str(street);
    assert DictGet(m, "houseNumber", Null) == Str(house);
    assert DictGet(m, "postalCode", Null) == Str(postal);
    assert DictGet(m, "city", Null) == Str(city);
    var parts := [Str(street + " " + house), Str(postal), Str(city)];
    assert parts == [Str(street + " " + house)] + Present(Str(postal)) + Present(Str(city));
    assert StrValues(parts) == [street + " " + house, postal, city] by {
      assert StrValues(parts[2..]) == [city];
      assert StrValues(parts[1..]) == [postal, city];
    }
    var texts := [street + " " + house, postal, city];
    assert Join(texts[2..], ", ") == city;
    assert Join(texts[1..], ", ") == postal + ", " + city;
    assert JoinParts(parts, ", ") == Ok(Join(texts, ", "));
    assert Text(Str(street), fmt) == street && Text(Str(house), fmt) == house;
    assert AddressText(Obj(m), fmt) == JoinParts(parts, ", ");
    assert Join(texts, ", ") == (street + " " + house) + ", " + (postal + ", " + city);
    assert (street + " " + house) + ", " + (postal + ", " + city) == street + " " + house + ", " + postal + ", " + city;
  }

  /** A falsy field (`None`, "", 0, ...) formats exactly like an absent one. */
  lemma AddressFalsyIsAbsent(m: map<string, Json>, key: string, v: Json, fmt: Fmt)
    requires key in {"street", "houseNumber", "postalCode", "city"} && !Truthy(v)
    ensures AddressText(Obj(m[key := v]), fmt) == AddressText(Obj(m - {key}), fmt)
  {
    var with, without := m[key := v], m - {key};
    assert DictGet(with, key, Null) == v && DictGet(without, key, Null) == Null;
    assert Present(v) == [] == Present(Null);
    forall k | k != key
      ensures DictGet(with, k, Null) == DictGet(without, k, Null)
    {
    }
  }

  /** A truthy postal code that is not a `str` makes the join raise `TypeError`. */
  lemma AddressPostalNotText(m: map<string, Json>, fmt: Fmt)
    requires Truthy(DictGet(m, "postalCode", Null)) && !DictGet(m, "postalCode", Null).Str?
    requires Truthy(DictGet(m, "houseNumber", Null)) ==> Truthy(DictGet(m, "street", Null))
    ensures AddressText(Obj(m), fmt) == Raise(TypeError)
  {
    var street, house, postal := DictGet(m, "street", Null), DictGet(m, "houseNumber", Null), DictGet(m, "postalCode", Null);
    var first := if !Truthy(street) then []
                 else if Truthy(house) then [Str(Text(street, fmt) + " " + Text(house, fmt))]
                 else [street];
    var parts := first + Present(postal) + Present(DictGet(m, "city", Null));
    assert parts[|first|] == postal;
  }

  /** A house number with no street raises `IndexError` (`parts[-1]` of an empty list). */
  lemma AddressHouseWithoutStreet(m: map<string, Json>, fmt: Fmt)
    requires Truthy(DictGet(m, "houseNumber", Null)) && !Truthy(DictGet(m, "street", Null))
    ensures AddressText(Obj(m), fmt) == Raise(IndexError)
  {
  }

  // ---------------------------------------------------------------------
  // Station attributes, shared by the four station sensors
  // ---------------------------------------------------------------------

  /** `f"{price:.3f} €"` when there is a price, "-" for `None`. */
  function PriceEur(price: Json, fmt: Fmt): Result<Json> {
    if price == Null then Ok(Str("-"))
    else
      var text :- fmt.fixed3(price);
      Ok(Str(text + " €"))
  }

  /** One fuel kind's price and its euro text. */
  function PricePair(prices: Json, petrolType: string, fmt: Fmt): Result<(Json, Json)> {
    var price :- PriceFromPrices(prices, petrolType);
    var eur :- PriceEur(price, fmt);
    Ok((price, eur))
  }

  /** The six price attributes of a station, E5 then E10 then DIESEL. */
  function PriceAttributes(prices: Json, fmt: Fmt): (r: Result<Attributes>)
    ensures r.Ok? ==> r.value.Keys == PriceKeys
  {
    var e5 :- PricePair(prices, "E5", fmt);
    var e10 :- PricePair(prices, "E10", fmt);
    var diesel :- PricePair(prices, "DIESEL", fmt);
    Ok(PriceBlock(e5, e10, diesel))
  }

  /** The price and euro text of each fuel kind under its attribute names. */
  function PriceBlock(e5: (Json, Json), e10: (Json, Json), diesel: (Json, Json)): (r: Attributes)
    ensures r.Keys == PriceKeys
    ensures r["e5_price"] == e5.0 && r["e5_price_eur"] == e5.1
    ensures r["e10_price"] == e10.0 && r["e10_price_eur"] == e10.1
    ensures r["diesel_price"] == diesel.0 && r["diesel_price_eur"] == diesel.1
  {
    map["e5_price" := e5.0, "e5_price_eur" := e5.1,
        "e10_price" := e10.0, "e10_price_eur" := e10.1,
        "diesel_price" := diesel.0, "diesel_price_eur" := diesel.1]
  }

  /** Each `*_price` attribute is the looked-up price, and its `*_price_eur`
      companion is "-" exactly when that price is `None`. */
  lemma PriceEurDashIffNone(prices: Json, fmt: Fmt)
    requires PriceAttributes(prices, fmt).Ok?
    ensures var a := PriceAttributes(prices, fmt).value;
      && a["e5_price"] == PriceFromPrices(prices, "E5").value
      && a["e10_price"] == PriceFromPrices(prices, "E10").value
      && a["diesel_price"] == PriceFromPrices(prices, "DIESEL").value
      && (a["e5_price_eur"] == Str("-") <==> PriceFromPrices(prices, "E5") == Ok(Null))
      && (a["e10_price_eur"] == Str("-") <==> PriceFromPrices(prices, "E10") == Ok(Null))
      && (a["diesel_price_eur"] == Str("-") <==> PriceFromPrices(prices, "DIESEL") == Ok(Null))
  {
    var e5, e10, diesel := PricePair(prices, "E5", fmt), PricePair(prices, "E10", fmt), PricePair(prices, "DIESEL", fmt);
    assert e5.Ok? && e10.Ok? && diesel.Ok?;
    assert PriceAttributes(prices, fmt).value == PriceBlock(e5.value, e10.value, diesel.value);
    PricePairDash(prices, "E5", fmt);
    PricePairDash(prices, "E10", fmt);
    PricePairDash(prices, "DIESEL", fmt);
  }

  /** One fuel kind: the price is the looked-up one, and its text is "-" iff it is `None`. */
  lemma PricePairDash(prices: Json, petrolType: string, fmt: Fmt)
    requires PricePair(prices, petrolType, fmt).Ok?
    ensures PricePair(prices, petrolType, fmt).value.0 == PriceFromPrices(prices, petrolType).value
    ensures PricePair(prices, petrolType, fmt).value.1 == Str("-") <==> PriceFromPrices(prices, petrolType) == Ok(Null)
  {
    EuroTextIsNotDash(PriceFromPrices(prices, petrolType).value, fmt);
  }

  lemma EuroTextIsNotDash(price: Json, fmt: Fmt)
    requires PriceEur(price, fmt).Ok?
    ensures PriceEur(price, fmt).value == Str("-") <==> price == Null
  {
    if price != Null {
      var text := fmt.fixed3(price).value;
      assert |text + " €"| >= 2;
    }
  }

  const PriceKeys: set<string> :=
    {"e5_price", "e5_price_eur", "e10_price", "e10_price_eur", "diesel_price", "diesel_price_eur"}

  const StationInfoKeys: set<string> := {"station_id", "name", "brand", "address", "location", "status"}

  /** The station's own entries, `station_id` to `status`. */
  function StationInfo(m: map<string, Json>, address: string): (r: Attributes)
    ensures r.Keys == StationInfoKeys
    ensures r["station_id"] == DictGet(m, "stationId", Null) && r["name"] == DictGet(m, "name", Null)
    ensures r["location"] == DictGet(m, "location", Null) && r["address"] == Str(address)
  {
    map["station_id" := DictGet(m, "stationId", Null), "name" := DictGet(m, "name", Null),
        "brand" := DictGet(m, "brand", Null), "address" := Str(address),
        "location" := DictGet(m, "location", Null), "status" := DictGet(m, "status", Null)]
  }

  /** The attributes from `station_id` to the price block; `station` must be a `dict`. */
  function StationBase(station: Json, fmt: Fmt): (r: Result<Attributes>)
    ensures r.Ok? ==> station.Obj?
    ensures r.Ok? ==> r.value.Keys == StationInfoKeys + PriceKeys
    ensures r.Ok? ==>
      && "station_id" in r.value && "name" in r.value && "location" in r.value
      && r.value["station_id"] == DictGet(station.fields, "stationId", Null)
      && r.value["name"] == DictGet(station.fields, "name", Null)
      && r.value["location"] == DictGet(station.fields, "location", Null)
  {
    if !station.Obj? then Raise(AttributeError)
    else
      var m := station.fields;
      var address :- AddressText(DictGet(m, "address", EmptyObj), fmt);
      var prices :- PriceAttributes(DictGet(m, "prices", EmptyArr), fmt);
      Ok(StationBlock(m, address, prices))
  }

  /** The station's own entries followed by its price block. */
  function StationBlock(m: map<string, Json>, address: string, prices: Attributes): (r: Attributes)
    requires prices.Keys == PriceKeys
    ensures r.Keys == StationInfoKeys + PriceKeys
    ensures "station_id" in r && "name" in r && "location" in r
    ensures r["station_id"] == DictGet(m, "stationId", Null) && r["name"] == DictGet(m, "name", Null)
    ensures r["location"] == DictGet(m, "location", Null)
  {
    StationKeysApart();
    StationInfo(m, address) + prices
  }

  /** The station's own names are not price names, and the names the
      sensors add to a station block (`distance`, `fuel_type`, `user_name`)
      are neither. */
  lemma StationKeysApart()
    ensures "station_id" !in PriceKeys && "name" !in PriceKeys && "location" !in PriceKeys
    ensures "distance" !in StationInfoKeys + PriceKeys
    ensures "fuel_type" !in StationInfoKeys + PriceKeys + {"distance"}
  {
  }

  /** The attribute block of the nearest, cheapest and per-user station sensors. */
  function StationAttributes(station: Json, fmt: Fmt): (r: Result<Attributes>)
    ensures r.Ok? ==>
      station.Obj? && StationBase(station, fmt).Ok?
      && r.value.Keys == StationBase(station, fmt).value.Keys + {"distance"}
      && (forall k :: k in StationBase(station, fmt).value ==> r.value[k] == StationBase(station, fmt).value[k])
      && Lookup(station, ["location"], "distance", Null).Ok?
      && r.value["distance"] == Lookup(station, ["location"], "distance", Null).value
    ensures StationBase(station, fmt).Ok? ==> (r.Ok? <==> Lookup(station, ["location"], "distance", Null).Ok?)
  {
    var base :- StationBase(station, fmt);
    var distance :- Lookup(station, ["location"], "distance", Null);
    Ok(base["distance" := distance])
  }

  // ---------------------------------------------------------------------
  // Dict literals of lookup chains
  // ---------------------------------------------------------------------

  /** One entry `name: v.get(p0, {})...get(key)` of an attribute dict literal. */
  datatype Field = Field(name: string, path: seq<string>, key: string)

  /** A dict literal of lookup chains on one value, evaluated in order. */
  function Fields(v: Json, table: seq<Field>): Result<Attributes>
    decreases |table|
  {
    if table == [] then Ok(map[])
    else
      var x :- Lookup(v, table[0].path, table[0].key, Null);
      var rest :- Fields(v, table[1..]);
      Ok(map[table[0].name := x] + rest)
  }

  function Names(table: seq<Field>): set<string> {
    set f | f in table :: f.name
  }

  /** A dict literal of lookups has exactly the table's names as keys. */
  lemma {:induction false} FieldsKeys(v: Json, table: seq<Field>)
    requires Fields(v, table).Ok?
    ensures Fields(v, table).value.Keys == Names(table)
    decreases |table|
  {
    if table != [] {
      FieldsKeys(v, table[1..]);
      assert Names(table) == {table[0].name} + Names(table[1..]) by {
        assert forall f :: f in table <==> f == table[0] || f in table[1..];
      }
    }
  }

  /** Looking fields up in `{}` gives `None` for every one of them. */
  lemma {:induction false} FieldsOfEmpty(table: seq<Field>)
    ensures Fields(EmptyObj, table).Ok?
    ensures forall n :: n in Fields(EmptyObj, table).value <==> n in Names(table)
    ensures forall n :: n in Fields(EmptyObj, table).value ==> Fields(EmptyObj, table).value[n] == Null
    decreases |table|
  {
    if table != [] {
      FieldsOfEmpty(table[1..]);
      DigEmpty(table[0].path);
      assert Names(table) == {table[0].name} + Names(table[1..]) by {
        assert forall f :: f in table <==> f == table[0] || f in table[1..];
      }
    }
  }

  // ---------------------------------------------------------------------
  // Descriptions of the generic sensor
  // ---------------------------------------------------------------------

  /** A sensor entity description: a static icon and optional functions of
      the bundle for the value, the attributes, the icon and availability. */
  datatype Description = Description(
    key: string,
    icon: Option<string>,
    valueFn: Option<Bundle -> Result<Json>>,
    attributesFn: Option<(Bundle, Fmt) -> Result<Attributes>>,
    iconFn: Option<Bundle -> Result<Json>>,
    availableFn: Option<Bundle -> Result<bool>>)

  /** `native_value`: the value function's result, `None` without one. */
  function NativeValue(d: Description, data: Bundle): (r: Result<Json>)
    ensures d.valueFn.None? ==> r == Ok(Null)
    ensures d.valueFn.Some? ==> r == d.valueFn.value(data)
  {
    match d.valueFn
    case None => Ok(Null)
    case Some(f) => f(data)
  }

  /** `extra_state_attributes`: `None` without an attributes function. */
  function ExtraAttributes(d: Description, data: Bundle, fmt: Fmt): (r: Result<Option<Attributes>>)
    ensures d.attributesFn.None? ==> r == Ok(None)
    ensures d.attributesFn.Some? ==> (r.Ok? <==> d.attributesFn.value(data, fmt).Ok?)
  {
    match d.attributesFn
    case None => Ok(None)
    case Some(f) =>
      var a :- f(data, fmt);
      Ok(Some(a))
  }

  /** The icon a static description icon gives: its name, or `None`. */
  function StaticIcon(icon: Option<string>): Json {
    match icon
    case None => Null
    case Some(name) => Str(name)
  }

  /** `icon`: the icon function's result, else the static icon. */
  function Icon(d: Description, data: Bundle): (r: Result<Json>)
    ensures d.iconFn.None? ==> r == Ok(StaticIcon(d.icon))
    ensures d.iconFn.Some? ==> r == d.iconFn.value(data)
  {
    match d.iconFn
    case None => Ok(StaticIcon(d.icon))
    case Some(f) => f(data)
  }

  /** `available`: the coordinator's availability `coordinatorUp`, and then
      (short-circuit) the availability function's verdict. */
  function Available(d: Description, data: Bundle, coordinatorUp: bool): (r: Result<bool>)
    ensures !coordinatorUp ==> r == Ok(false)
    ensures d.availableFn.None? ==> r == Ok(coordinatorUp)
    ensures coordinatorUp && d.availableFn.Some? ==> r == d.availableFn.value(data)
  {
    if !coordinatorUp then Ok(false)
    else
      match d.availableFn
      case None => Ok(true)
      case Some(f) => f(data)
  }

  // ---------------------------------------------------------------------
  // PETROL_STATION_SENSORS
  // ---------------------------------------------------------------------

  /** The nearest station as stored in the bundle, `{}` when absent. */
  function NearestStationData(data: Bundle): Json {
    BundleGet(data, "nearest_station", EmptyObj)
  }

  /** `nearest_station` value: the distance of the nearest station. */
  function NearestDistance(data: Bundle): Result<Json> {
    Lookup(NearestStationData(data), ["location"], "distance", Null)
  }

  function NearestAttributes(data: Bundle, fmt: Fmt): Result<Attributes> {
    StationAttributes(NearestStationData(data), fmt)
  }

  /** `"nearest_station" in data and data["nearest_station"]`, as a truth value. */
  function NearestAvailable(data: Bundle): (r: Result<bool>)
    ensures r.Ok?
    ensures r.value <==> "nearest_station" in data && Truthy(data["nearest_station"])
  {
    Ok("nearest_station" in data && Truthy(data["nearest_station"]))
  }

  const PetrolStationSensors: seq<Description> := [
    Description("nearest_station", Some("mdi:gas-station-outline"),
                Some(NearestDistance), Some(NearestAttributes), None, Some(NearestAvailable))
  ]

  /** The nearest-station sensor's value and its `distance` attribute are one
      lookup, `location.distance`, and it is the key the petrol coordinator
      ranked the stations by (infinite only when the distance is missing). */
  lemma NearestDistanceIsRankingKey(data: Bundle, fmt: Fmt)
    requires NearestAttributes(data, fmt).Ok?
    ensures NearestDistance(data).Ok?
    ensures NearestAttributes(data, fmt).value["distance"] == NearestDistance(data).value
    ensures Coordinator.DistanceKey(NearestStationData(data)).Ok?
    ensures Coordinator.DistanceKey(NearestStationData(data)) == Ok(Infinity) ==> NearestDistance(data) == Ok(Null)
    ensures Coordinator.DistanceKey(NearestStationData(data)).value.Of? ==>
      Coordinator.DistanceKey(NearestStationData(data)).value.v == NearestDistance(data).value
  {
  }

  /** No nearest station in the bundle: value `None`, and the sensor is unavailable. */
  lemma NearestStationMissing(data: Bundle, coordinatorUp: bool)
    requires "nearest_station" !in data
    ensures NativeValue(PetrolStationSensors[0], data) == Ok(Null)
    ensures Available(PetrolStationSensors[0], data, coordinatorUp) == Ok(false)
    ensures Icon(PetrolStationSensors[0], data) == Ok(Str("mdi:gas-station-outline"))
  {
    LookupAbsent(EmptyObj, ["location"], "distance", Null);
  }

  // ---------------------------------------------------------------------
  // WEATHER_WARNING_SENSORS
  // ---------------------------------------------------------------------

  /** The bundle key of each warning group: "warnings" or "upfront". */
  predicate IsWarningGroup(group: string) {
    group == "warnings" || group == "upfront"
  }

  /** The group's payload, `{}` when absent. */
  function WarningGroup(data: Bundle, group: string): Json {
    BundleGet(data, group, EmptyObj)
  }

  /** `data.get(group, {}).get("warnings", [])`. */
  function WarningList(data: Bundle, group: string): Result<Json> {
    Get(WarningGroup(data, group), "warnings", EmptyArr)
  }

  /** The `max` key of a warning: `details.severity.severityLevel`, 0 when missing. */
  function SeverityKey(warning: Json): Result<Key> {
    var level :- Lookup(warning, ["details", "severity"], "severityLevel", Num(0.0));
    Ok(Of(level))
  }

  function SeverityKeys(warnings: seq<Json>): (keys: seq<Result<Key>>)
    ensures |keys| == |warnings|
    ensures forall i :: 0 <= i < |warnings| ==> keys[i] == SeverityKey(warnings[i])
  {
    seq(|warnings|, i requires 0 <= i < |warnings| => SeverityKey(warnings[i]))
  }

  /** `max(warnings, key=severity level, default={})`. */
  function SelectedWarning(data: Bundle, group: string): Result<Json> {
    var list :- WarningList(data, group);
    var xs :- Elements(list);
    var m :- Extreme(SeverityKeys(xs), false);
    match m
    case None => Ok(EmptyObj)
    case Some(i) => Ok(xs[i])
  }

  /** Value of the current warning sensor: the selected warning's severity name. */
  function CurrentWarningSeverity(data: Bundle, group: string): Result<Json> {
    var w :- SelectedWarning(data, group);
    Lookup(w, ["details", "severity"], "severity", Null)
  }

  const WarningFields: seq<Field> := [
    Field("area_name", [], "areaName"),
    Field("warning_id", [], "warningId"),
    Field("title", ["details"], "title"),
    Field("description", ["details"], "description"),
    Field("instruction", ["details"], "instruction"),
    Field("severity_level", ["details", "severity"], "severityLevel"),
    Field("severity_translation", ["details", "severity"], "severityTranslation"),
    Field("severity_color", ["details", "severity", "severityColor"], "hex"),
    Field("weather_type", ["details"], "weatherType"),
    Field("valid_from", [], "from"),
    Field("valid_until", [], "until"),
    Field("issued_by", [], "issuedBy"),
    Field("created_on", [], "createdOn")
  ]

  function CurrentWarningAttributes(data: Bundle, group: string): Result<Attributes> {
    var w :- SelectedWarning(data, group);
    Fields(w, WarningFields)
  }

  /** The icon a group falls back to: "mdi:alert" for warnings, "mdi:information" for advance notices. */
  function FallbackWarningIcon(group: string): string {
    if group == "warnings" then "mdi:alert" else "mdi:information"
  }

  /** The selected warning's `details.weatherIcon.mdiIcon`, else the group's fallback. */
  function CurrentWarningIcon(data: Bundle, group: string): (r: Result<Json>)
    ensures forall w :: SelectedWarning(data, group) == Ok(Obj(w)) && "details" !in w ==>
      r == Ok(Str(FallbackWarningIcon(group)))
    ensures forall w, d :: SelectedWarning(data, group) == Ok(Obj(w)) && DictGet(w, "details", Null) == Obj(d) ==>
      ("weatherIcon" !in d ==> r == Ok(Str(FallbackWarningIcon(group))))
      && (forall i :: DictGet(d, "weatherIcon", Null) == Obj(i) ==>
            r == Ok(if "mdiIcon" in i then i["mdiIcon"] else Str(FallbackWarningIcon(group))))
  {
    var w :- SelectedWarning(data, group);
    Lookup(w, ["details", "weatherIcon"], "mdiIcon", Str(FallbackWarningIcon(group)))
  }

  /** `count > 0 and len(warnings) > 0`, with `count` 0 and `warnings` [] when missing. */
  function CurrentWarningAvailable(data: Bundle, group: string): (r: Result<bool>)
    ensures !WarningGroup(data, group).Obj? ==> r == Raise(AttributeError)
    ensures r == Ok(true) ==>
      WarningCount(data, group).Ok? && GtZero(WarningCount(data, group).value) == Ok(true)
      && WarningList(data, group).Ok? && Len(WarningList(data, group).value).Ok?
      && Len(WarningList(data, group).value).value > 0
    ensures WarningCount(data, group).Ok? && GtZero(WarningCount(data, group).value) == Ok(false) ==> r == Ok(false)
  {
    var payload := WarningGroup(data, group);
    if !payload.Obj? then Raise(AttributeError)
    else
      var positive :- GtZero(DictGet(payload.fields, "count", Num(0.0)));
      if !positive then Ok(false)
      else
        var n :- Len(DictGet(payload.fields, "warnings", EmptyArr));
        Ok(n > 0)
  }

  /** Value of the all-warnings sensor: the group's `count`, 0 when missing. */
  function WarningCount(data: Bundle, group: string): Result<Json> {
    Get(WarningGroup(data, group), "count", Num(0.0))
  }

  function AllWarningsAttributes(data: Bundle, group: string): (r: Result<Attributes>)
    ensures r.Ok? <==> WarningGroup(data, group).Obj?
    ensures r.Ok? ==>
      && r.value.Keys == {"warnings", "raw_data"}
      && r.value["raw_data"] == WarningGroup(data, group)
      && r.value["warnings"] == DictGet(WarningGroup(data, group).fields, "warnings", EmptyArr)
  {
    var list :- WarningList(data, group);
    Ok(map["warnings" := list, "raw_data" := WarningGroup(data, group)])
  }

  /** The sensor that shows the most severe current entry of a group. */
  function CurrentWarningSensor(key: string, group: string): Description {
    Description(key, None,
      Some((data: Bundle) => CurrentWarningSeverity(data, group)),
      Some((data: Bundle, fmt: Fmt) => CurrentWarningAttributes(data, group)),
      Some((data: Bundle) => CurrentWarningIcon(data, group)),
      Some((data: Bundle) => CurrentWarningAvailable(data, group)))
  }

  /** The sensor that exposes a group's whole list as attributes. */
  function AllWarningsSensor(key: string, group: string): Description {
    Description(key, Some("mdi:code-json"),
      Some((data: Bundle) => WarningCount(data, group)),
      Some((data: Bundle, fmt: Fmt) => AllWarningsAttributes(data, group)),
      None, None)
  }

  const WeatherWarningSensors: seq<Description> := [
    CurrentWarningSensor("current_weather_warning", "warnings"),
    CurrentWarningSensor("current_upfront_warning", "upfront"),
    AllWarningsSensor("all_weather_warnings_json", "warnings"),
    AllWarningsSensor("all_upfront_warnings_json", "upfront")
  ]

  /** The current-warning sensor selects the FIRST entry of greatest severity
      level (missing level = 0): with two or more entries the selection succeeds
      exactly when every level is a number. */
  lemma CurrentWarningIsFirstMaximum(data: Bundle, group: string, xs: seq<Json>)
    requires WarningList(data, group) == Ok(Arr(xs)) && xs != []
    ensures |xs| >= 2 ==> (SelectedWarning(data, group).Ok? <==> NumericUpTo(SeverityKeys(xs), |xs|))
    ensures |xs| == 1 && SeverityKey(xs[0]).Ok? ==> SelectedWarning(data, group) == Ok(xs[0])
    ensures NumericUpTo(SeverityKeys(xs), |xs|) ==>
      exists i :: FirstExtremeUpTo(SeverityKeys(xs), |xs|, false, i) && SelectedWarning(data, group) == Ok(xs[i])
  {
    ExtremeSpec(SeverityKeys(xs), false);
  }

  /** No warnings selects `{}`: the value and every attribute are `None` and
      the icon is the group's fallback. */
  lemma CurrentWarningEmpty(data: Bundle, group: string)
    requires IsWarningGroup(group)
    requires WarningList(data, group) == Ok(EmptyArr)
    ensures CurrentWarningSeverity(data, group) == Ok(Null)
    ensures CurrentWarningIcon(data, group) == Ok(Str(FallbackWarningIcon(group)))
    ensures CurrentWarningAttributes(data, group).Ok?
    ensures forall n :: n in CurrentWarningAttributes(data, group).value <==> n in Names(WarningFields)
    ensures forall n :: n in CurrentWarningAttributes(data, group).value ==>
      CurrentWarningAttributes(data, group).value[n] == Null
  {
    assert SelectedWarning(data, group) == Ok(EmptyObj);
    LookupAbsent(EmptyObj, ["details", "severity"], "severity", Null);
    assert CurrentWarningSeverity(data, group) == Lookup(EmptyObj, ["details", "severity"], "severity", Null);
    assert "details" !in EmptyObj.fields;
    CurrentWarningAttributesEmpty(data, group);
  }

  /** No entry selected: every attribute of the current-warning sensor is `None`. */
  lemma CurrentWarningAttributesEmpty(data: Bundle, group: string)
    requires SelectedWarning(data, group) == Ok(EmptyObj)
    ensures CurrentWarningAttributes(data, group) == Fields(EmptyObj, WarningFields)
    ensures CurrentWarningAttributes(data, group).Ok?
    ensures forall n :: n in CurrentWarningAttributes(data, group).value <==> n in Names(WarningFields)
    ensures forall n :: n in CurrentWarningAttributes(data, group).value ==>
      CurrentWarningAttributes(data, group).value[n] == Null
  {
    FieldsOfEmpty(WarningFields);
  }

  /** The current-warning sensor is available iff `count > 0` and the list is
      non-empty; a missing group, count or list makes it unavailable. */
  lemma CurrentWarningAvailableIff(data: Bundle, group: string, count: real, xs: seq<Json>)
    requires WarningCount(data, group) == Ok(Num(count)) && WarningList(data, group) == Ok(Arr(xs))
    ensures CurrentWarningAvailable(data, group) == Ok(count > 0.0 && xs != [])
  {
  }

  /** With the group missing the sensor is unavailable. */
  lemma CurrentWarningMissingGroup(data: Bundle, group: string)
    requires group !in data
    ensures CurrentWarningAvailable(data, group) == Ok(false)
    ensures WarningCount(data, group) == Ok(Num(0.0))
  {
  }

  /** A warning whose `details.severity.severityLevel` is `level`. */
  function WarningOfLevel(level: real, name: string): Json {
    Obj(map["details" := Obj(map["severity" := Obj(map["severityLevel" := Num(level), "severity" := Str(name)])])])
  }

  /** Two warnings of levels 1 and 3: the level-3 warning is selected and the
      sensor is available. */
  lemma CurrentWarningExample(minor: string, severe: string)
    ensures var data := map["warnings" := Obj(map["count" := Num(2.0), "warnings" :=
              Arr([WarningOfLevel(1.0, minor), WarningOfLevel(3.0, severe)])])];
      && CurrentWarningSeverity(data, "warnings") == Ok(Str(severe))
      && CurrentWarningAvailable(data, "warnings") == Ok(true)
  {
    var xs := [WarningOfLevel(1.0, minor), WarningOfLevel(3.0, severe)];
    var data := map["warnings" := Obj(map["count" := Num(2.0), "warnings" := Arr(xs)])];
    var keys := SeverityKeys(xs);
    assert keys[0] == Ok(Of(Num(1.0))) by {
      assert Dig(xs[0], ["details", "severity"]) == Ok(Obj(map["severityLevel" := Num(1.0), "severity" := Str(minor)]));
    }
    assert keys[1] == Ok(Of(Num(3.0))) by {
      assert Dig(xs[1], ["details", "severity"]) == Ok(Obj(map["severityLevel" := Num(3.0), "severity" := Str(severe)]));
    }
    assert Scan(keys, false, 1, 0) == Ok(1);
    assert SelectedWarning(data, "warnings") == Ok(xs[1]);
    assert Dig(xs[1], ["details", "severity"]) == Ok(Obj(map["severityLevel" := Num(3.0), "severity" := Str(severe)]));
  }

  // ---------------------------------------------------------------------
  // Highest pollen sensor
  // ---------------------------------------------------------------------

  /** `data.get("highest", {}).get("highestSeverity", default)`. */
  function HighestSeverity(data: Bundle, default: Json): Result<Json> {
    Get(BundleGet(data, "highest", EmptyObj), "highestSeverity", default)
  }

  /** Today's severity type of the highest flight, `None` when there is none. */
  function HighestPollenValue(data: Bundle): (r: Result<Json>)
    ensures HighestSeverity(data, Null).Ok? && !Truthy(HighestSeverity(data, Null).value) ==> r == Ok(Null)
  {
    var highest :- HighestSeverity(data, Null);
    if Truthy(highest) then Lookup(highest, ["today"], "severityType", Null) else Ok(Null)
  }

  const HighestPollenFields: seq<Field> := [
    Field("pollen_type", [], "pollenType"),
    Field("pollen_type_translation", [], "pollenTypeTranslation"),
    Field("severity_level", ["today"], "severityLevel"),
    Field("severity_translation", ["today"], "severityTranslation"),
    Field("severity_color", ["today", "severityColor"], "hex"),
    Field("today", ["today"], "severityType"),
    Field("tomorrow", ["tomorrow"], "severityType"),
    Field("day_after_tomorrow", ["dayAfterTomorrow"], "severityType")
  ]

  function HighestPollenAttributes(data: Bundle): (r: Result<Attributes>)
    ensures r.Ok? ==> r.value.Keys == Names(HighestPollenFields)
  {
    var highest :- HighestSeverity(data, EmptyObj);
    var attributes :- Fields(highest, HighestPollenFields);
    FieldsKeys(highest, HighestPollenFields);
    Ok(attributes)
  }

  /** Without a highest flight every attribute is `None` and the icon is the default. */
  lemma HighestPollenMissing(data: Bundle)
    requires "highest" !in data
    ensures HighestPollenAttributes(data).Ok?
    ensures forall n :: n in HighestPollenAttributes(data).value ==> HighestPollenAttributes(data).value[n] == Null
    ensures HighestPollenIcon(data) == Ok(Str("mdi:flower-pollen"))
  {
    assert HighestSeverity(data, EmptyObj) == Ok(EmptyObj);
    FieldsOfEmpty(HighestPollenFields);
    assert HighestPollenAttributes(data) == Fields(EmptyObj, HighestPollenFields);
  }

  /** The highest flight's `pollenIcon.mdiIcon`, "mdi:flower-pollen" by default. */
  function HighestPollenIcon(data: Bundle): (r: Result<Json>)
    ensures "highest" !in data ==> r == Ok(Str("mdi:flower-pollen"))
  {
    var highest :- HighestSeverity(data, EmptyObj);
    Lookup(highest, ["pollenIcon"], "mdiIcon", Str("mdi:flower-pollen"))
  }

  /** Available iff the coordinator is and the highest flight is truthy. */
  function HighestPollenAvailable(data: Bundle, coordinatorUp: bool): (r: Result<bool>)
    ensures !coordinatorUp ==> r == Ok(false)
    ensures coordinatorUp && HighestSeverity(data, Null).Ok? ==>
      r == Ok(Truthy(HighestSeverity(data, Null).value))
  {
    if !coordinatorUp then Ok(false)
    else
      var highest :- HighestSeverity(data, Null);
      Ok(Truthy(highest))
  }

  /** The value is only ever shown when the sensor is available. */
  lemma HighestPollenValueNeedsAvailability(data: Bundle)
    requires HighestPollenAvailable(data, true) == Ok(false)
    ensures HighestPollenValue(data) == Ok(Null)
  {
  }

  // ---------------------------------------------------------------------
  // Per-type pollen sensors
  // ---------------------------------------------------------------------

  /** `data.get("all_pollen", {}).get("flights", [])`. */
  function PollenFlights(data: Bundle): Result<Json> {
    Get(BundleGet(data, "all_pollen", EmptyObj), "flights", EmptyArr)
  }

  /** `_get_pollen_data`: the first flight whose `pollenType` is `pollenType`. */
  function PollenData(data: Bundle, pollenType: string): (r: Result<Option<Json>>)
    ensures r.Ok? && r.value.Some? ==>
      exists xs, i :: PollenFlights(data) == Ok(Arr(xs)) && FirstMatchAt(xs, "pollenType", pollenType, i) && r.value.value == xs[i]
    ensures PollenFlights(data) == Ok(EmptyArr) ==> r == Ok(None)
  {
    var flights :- PollenFlights(data);
    var xs :- Elements(flights);
    var m :- FirstWhere(xs, "pollenType", pollenType);
    match m
    case None => Ok(None)
    case Some(i) => Ok(Some(xs[i]))
  }

  /** Today's severity type of the matched flight, `None` without a match. */
  function PollenValue(data: Bundle, pollenType: string): (r: Result<Json>)
    ensures PollenData(data, pollenType) == Ok(None) ==> r == Ok(Null)
  {
    var flight :- PollenData(data, pollenType);
    match flight
    case None => Ok(Null)
    case Some(f) => Lookup(f, ["today"], "severityType", Null)
  }

  const PollenFields: seq<Field> := [
    Field("pollen_type", [], "pollenType"),
    Field("pollen_type_translation", [], "pollenTypeTranslation"),
    Field("severity_level_today", ["today"], "severityLevel"),
    Field("severity_today", ["today"], "severityType"),
    Field("severity_translation_today", ["today"], "severityTranslation"),
    Field("severity_color_today", ["today", "severityColor"], "hex"),
    Field("severity_level_tomorrow", ["tomorrow"], "severityLevel"),
    Field("severity_tomorrow", ["tomorrow"], "severityType"),
    Field("severity_translation_tomorrow", ["tomorrow"], "severityTranslation"),
    Field("severity_color_tomorrow", ["tomorrow", "severityColor"], "hex"),
    Field("severity_level_day_after_tomorrow", ["dayAfterTomorrow"], "severityLevel"),
    Field("severity_day_after_tomorrow", ["dayAfterTomorrow"], "severityType"),
    Field("severity_translation_day_after_tomorrow", ["dayAfterTomorrow"], "severityTranslation"),
    Field("severity_color_day_after_tomorrow", ["dayAfterTomorrow", "severityColor"], "hex")
  ]

  /** The matched flight's attributes, `{}` without a match. */
  function PollenAttributes(data: Bundle, pollenType: string): (r: Result<Attributes>)
    ensures PollenData(data, pollenType) == Ok(None) ==> r == Ok(map[])
  {
    var flight :- PollenData(data, pollenType);
    match flight
    case None => Ok(map[])
    case Some(f) => Fields(f, PollenFields)
  }

  /** The matched flight's `pollenIcon.mdiIcon`, "mdi:flower" by default. */
  function PollenIcon(data: Bundle, pollenType: string): (r: Result<Json>)
    ensures PollenData(data, pollenType) == Ok(None) ==> r == Ok(Str("mdi:flower"))
  {
    var flight :- PollenData(data, pollenType);
    match flight
    case None => Ok(Str("mdi:flower"))
    case Some(f) => Lookup(f, ["pollenIcon"], "mdiIcon", Str("mdi:flower"))
  }

  /** `super().available and bool(self._get_pollen_data())`. */
  function PollenAvailable(data: Bundle, pollenType: string, coordinatorUp: bool): (r: Result<bool>)
    ensures !coordinatorUp ==> r == Ok(false)
    ensures r == Ok(true) ==> PollenData(data, pollenType).Ok? && PollenData(data, pollenType).value.Some?
    ensures coordinatorUp && PollenFlights(data) == Ok(EmptyArr) ==> r == Ok(false)
  {
    if !coordinatorUp then Ok(false)
    else
      var flight :- PollenData(data, pollenType);
      Ok(flight.Some? && Truthy(flight.value))
  }

  /** A per-type pollen sensor is available iff its coordinator is and the
      flight list has an entry of that type; it then shows the first such entry. */
  lemma PollenAvailableIffMatch(data: Bundle, pollenType: string, xs: seq<Json>)
    requires PollenFlights(data) == Ok(Arr(xs))
    requires forall j :: 0 <= j < |xs| ==> xs[j].Obj?
    ensures PollenAvailable(data, pollenType, true) ==
      Ok(exists i :: 0 <= i < |xs| && Matches(xs[i], "pollenType", pollenType))
    ensures forall i :: FirstMatchAt(xs, "pollenType", pollenType, i) ==> PollenData(data, pollenType) == Ok(Some(xs[i]))
  {
    forall i | FirstMatchAt(xs, "pollenType", pollenType, i)
      ensures PollenData(data, pollenType) == Ok(Some(xs[i]))
    {
      FirstWhereFinds(xs, "pollenType", pollenType, i);
    }
    var r := PollenData(data, pollenType);
    if r.Ok? && r.value.Some? {
      var f := r.value.value;
      assert "pollenType" in f.fields;
      assert f.fields != map[];
    }
  }

  // ---------------------------------------------------------------------
  // Waste collection sensors
  // ---------------------------------------------------------------------

  /** `data.get("next", {})`. */
  function NextCollection(data: Bundle): Json {
    BundleGet(data, "next", EmptyObj)
  }

  /** The next collection's `scheduledOn` text, the date before parsing; `None` when falsy. */
  function NextWasteValue(data: Bundle): (r: Result<Json>)
    ensures "next" !in data ==> r == Ok(Null)
    ensures r.Ok? && r.value != Null ==> Truthy(r.value)
  {
    var scheduledOn :- Get(NextCollection(data), "scheduledOn", Null);
    if Truthy(scheduledOn) then Ok(scheduledOn) else Ok(Null)
  }

  /** `[c.get(key) for c in items]`. */
  function Column(items: seq<Json>, key: string): (r: Result<seq<Json>>)
    ensures r.Ok? ==>
      |r.value| == |items| &&
      (forall i :: 0 <= i < |items| ==> items[i].Obj? && r.value[i] == DictGet(items[i].fields, key, Null))
    ensures r.Raise? ==> exists i :: 0 <= i < |items| && !items[i].Obj?
  {
    if items == [] then Ok([])
    else
      var x :- Get(items[0], key, Null);
      var rest :- Column(items[1..], key);
      Ok([x] + rest)
  }

  /** The next collection's attributes (without the day count). */
  function NextWasteAttributes(data: Bundle): (r: Result<Attributes>)
    ensures r.Ok? ==> NextCollection(data).Obj?
    ensures r.Ok? ==> r.value.Keys == {"scheduled_on", "waste_types", "waste_types_translations", "collections"}
    ensures r.Ok? ==>
      var collections := DictGet(NextCollection(data).fields, "scheduledCollections", EmptyArr);
      r.value["collections"] == collections
      && r.value["waste_types"].Arr? && r.value["waste_types_translations"].Arr?
      && Elements(collections).Ok?
      && |r.value["waste_types"].items| == |Elements(collections).value|
      && |r.value["waste_types_translations"].items| == |Elements(collections).value|
      && (forall i :: 0 <= i < |Elements(collections).value| ==>
            Elements(collections).value[i].Obj?
            && r.value["waste_types"].items[i] == DictGet(Elements(collections).value[i].fields, "wasteType", Null))
  {
    var next := NextCollection(data);
    var collections :- Get(next, "scheduledCollections", EmptyArr);
    var items :- Elements(collections);
    var types :- Column(items, "wasteType");
    var translations := Column(items, "wasteTypeTranslation").value;
    Ok(map["scheduled_on" := DictGet(next.fields, "scheduledOn", Null),
           "waste_types" := Arr(types), "waste_types_translations" := Arr(translations),
           "collections" := collections])
  }

  /** `data.get("upcoming", {}).get("scheduledCollections", [])`. */
  function UpcomingCollections(data: Bundle): Result<Json> {
    Get(BundleGet(data, "upcoming", EmptyObj), "scheduledCollections", EmptyArr)
  }

  /** `_get_waste_data`: the first upcoming collection whose `wasteType` is `wasteType`. */
  function WasteData(data: Bundle, wasteType: string): (r: Result<Option<Json>>)
    ensures r.Ok? && r.value.Some? ==>
      exists xs, i :: UpcomingCollections(data) == Ok(Arr(xs)) && FirstMatchAt(xs, "wasteType", wasteType, i) && r.value.value == xs[i]
    ensures UpcomingCollections(data) == Ok(EmptyArr) ==> r == Ok(None)
  {
    var collections :- UpcomingCollections(data);
    var xs :- Elements(collections);
    var m :- FirstWhere(xs, "wasteType", wasteType);
    match m
    case None => Ok(None)
    case Some(i) => Ok(Some(xs[i]))
  }

  /** The matched collection's `scheduledOn` text, `None` without a match or date. */
  function WasteValue(data: Bundle, wasteType: string): (r: Result<Json>)
    ensures WasteData(data, wasteType) == Ok(None) ==> r == Ok(Null)
  {
    var collection :- WasteData(data, wasteType);
    match collection
    case None => Ok(Null)
    case Some(c) =>
      var scheduledOn :- Get(c, "scheduledOn", Null);
      if Truthy(scheduledOn) then Ok(scheduledOn) else Ok(Null)
  }

  const WasteFields: seq<Field> := [
    Field("waste_type", [], "wasteType"),
    Field("waste_type_translation", [], "wasteTypeTranslation"),
    Field("scheduled_on", [], "scheduledOn"),
    Field("color_primary", ["wasteColorPrimary"], "hex"),
    Field("color_secondary", ["wasteColorSecondary"], "hex")
  ]

  /** The matched collection's attributes (without the day count), `{}` without a match. */
  function WasteAttributes(data: Bundle, wasteType: string): (r: Result<Attributes>)
    ensures WasteData(data, wasteType) == Ok(None) ==> r == Ok(map[])
  {
    var collection :- WasteData(data, wasteType);
    match collection
    case None => Ok(map[])
    case Some(c) => Fields(c, WasteFields)
  }

  /** The matched collection's `icon.mdiIcon`, "mdi:trash-can" by default. */
  function WasteIcon(data: Bundle, wasteType: string): (r: Result<Json>)
    ensures WasteData(data, wasteType) == Ok(None) ==> r == Ok(Str("mdi:trash-can"))
  {
    var collection :- WasteData(data, wasteType);
    match collection
    case None => Ok(Str("mdi:trash-can"))
    case Some(c) => Lookup(c, ["icon"], "mdiIcon", Str("mdi:trash-can"))
  }

  /** `super().available and bool(self._get_waste_data())`. */
  function WasteAvailable(data: Bundle, wasteType: string, coordinatorUp: bool): (r: Result<bool>)
    ensures !coordinatorUp ==> r == Ok(false)
    ensures r == Ok(true) ==> WasteData(data, wasteType).Ok? && WasteData(data, wasteType).value.Some?
    ensures coordinatorUp && UpcomingCollections(data) == Ok(EmptyArr) ==> r == Ok(false)
  {
    if !coordinatorUp then Ok(false)
    else
      var collection :- WasteData(data, wasteType);
      Ok(collection.Some? && Truthy(collection.value))
  }

  /** A per-type waste sensor is available iff its coordinator is and an
      upcoming collection has that type; it then shows the first such collection. */
  lemma WasteAvailableIffMatch(data: Bundle, wasteType: string, xs: seq<Json>)
    requires UpcomingCollections(data) == Ok(Arr(xs))
    requires forall j :: 0 <= j < |xs| ==> xs[j].Obj?
    ensures WasteAvailable(data, wasteType, true) ==
      Ok(exists i :: 0 <= i < |xs| && Matches(xs[i], "wasteType", wasteType))
    ensures forall i :: FirstMatchAt(xs, "wasteType", wasteType, i) ==> WasteData(data, wasteType) == Ok(Some(xs[i]))
  {
    forall i | FirstMatchAt(xs, "wasteType", wasteType, i)
      ensures WasteData(data, wasteType) == Ok(Some(xs[i]))
    {
      FirstWhereFinds(xs, "wasteType", wasteType, i);
    }
    var r := WasteData(data, wasteType);
    if r.Ok? && r.value.Some? {
      var c := r.value.value;
      assert "wasteType" in c.fields;
      assert c.fields != map[];
    }
  }

  // ---------------------------------------------------------------------
  // Cheapest-station, per-user nearest-station and station-ID sensors
  // ---------------------------------------------------------------------

  /** `data.get(table, {}).get(name)`: a station looked up by name in a bundle table. */
  function StationIn(data: Bundle, table: string, name: string): Result<Json> {
    Get(BundleGet(data, table, EmptyObj), name, Null)
  }

  /** The cheapest station's price for its own fuel kind, `None` without a station. */
  function CheapestValue(data: Bundle, fuelType: string): (r: Result<Json>)
    ensures StationIn(data, "cheapest_stations", fuelType) == Ok(Null) ==> r == Ok(Null)
    ensures StationIn(data, "cheapest_stations", fuelType).Ok? && Truthy(StationIn(data, "cheapest_stations", fuelType).value) ==>
      var station := StationIn(data, "cheapest_stations", fuelType).value;
      station.Obj? ==> r == PriceFromPrices(DictGet(station.fields, "prices", EmptyArr), fuelType)
  {
    var station :- StationIn(data, "cheapest_stations", fuelType);
    if !Truthy(station) then Ok(Null)
    else
      var prices :- Get(station, "prices", EmptyArr);
      PriceFromPrices(prices, fuelType)
  }

  function CheapestAttributes(data: Bundle, fuelType: string, fmt: Fmt): (r: Result<Attributes>)
    ensures StationIn(data, "cheapest_stations", fuelType).Ok? && !Truthy(StationIn(data, "cheapest_stations", fuelType).value) ==>
      r == Ok(map[])
    ensures forall station :: r.Ok? && StationIn(data, "cheapest_stations", fuelType) == Ok(station) && Truthy(station) ==>
      StationAttributes(station, fmt).Ok?
      && r.value.Keys == StationAttributes(station, fmt).value.Keys + {"fuel_type"}
      && r.value["fuel_type"] == Str(fuelType)
      && (forall k :: k in StationAttributes(station, fmt).value ==> r.value[k] == StationAttributes(station, fmt).value[k])
  {
    var station :- StationIn(data, "cheapest_stations", fuelType);
    if !Truthy(station) then Ok(map[])
    else
      var attributes :- StationAttributes(station, fmt);
      StationKeysApart();
      Ok(map["fuel_type" := Str(fuelType)] + attributes)
  }

  /** `super().available and bool(station)` for a station looked up by name. */
  function StationAvailable(data: Bundle, table: string, name: string, coordinatorUp: bool): (r: Result<bool>)
    ensures !coordinatorUp ==> r == Ok(false)
    ensures coordinatorUp && StationIn(data, table, name).Ok? ==> r == Ok(Truthy(StationIn(data, table, name).value))
    ensures table !in data ==> r == Ok(false)
  {
    if !coordinatorUp then Ok(false)
    else
      var station :- StationIn(data, table, name);
      Ok(Truthy(station))
  }

  /** The display name of a per-user nearest-station sensor. */
  function UserNearestName(userName: string): (r: string)
    ensures |r| > |userName| && r[|r| - |userName|..] == userName
    ensures r[..|r| - |userName|] == "Nächste Tankstelle "
  {
    "Nächste Tankstelle " + userName
  }

  /** The per-user station's distance, `None` without a station. */
  function UserNearestValue(data: Bundle, userName: string): (r: Result<Json>)
    ensures StationIn(data, "user_nearest_stations", userName) == Ok(Null) ==> r == Ok(Null)
  {
    var station :- StationIn(data, "user_nearest_stations", userName);
    if !Truthy(station) then Ok(Null) else Lookup(station, ["location"], "distance", Null)
  }

  /** The per-user station's attributes; only the user's name without a station. */
  function UserNearestAttributes(data: Bundle, userName: string, fmt: Fmt): (r: Result<Attributes>)
    ensures r.Ok? ==> "user_name" in r.value && r.value["user_name"] == Str(userName)
    ensures StationIn(data, "user_nearest_stations", userName) == Ok(Null) ==>
      r == Ok(map["user_name" := Str(userName)])
  {
    var station :- StationIn(data, "user_nearest_stations", userName);
    if !Truthy(station) then Ok(map["user_name" := Str(userName)])
    else
      var attributes :- StationAttributes(station, fmt);
      Ok(attributes + map["user_name" := Str(userName)])
  }

  /** The station-ID sensor's name: the station's `name` (when the key is
      present), else the station ID. */
  function StationIdName(data: Bundle, stationId: string): (r: Result<Json>)
    ensures StationIn(data, "stations_by_id", stationId).Ok? && !Truthy(StationIn(data, "stations_by_id", stationId).value) ==>
      r == Ok(Str(stationId))
    ensures StationIn(data, "stations_by_id", stationId) == Ok(Obj(map[])) ==> r == Ok(Str(stationId))
    ensures forall m :: StationIn(data, "stations_by_id", stationId) == Ok(Obj(m)) ==>
      r == Ok(if "name" in m then m["name"] else Str(stationId))
    ensures forall v :: StationIn(data, "stations_by_id", stationId) == Ok(v) && Truthy(v) && !v.Obj? ==>
      r == Raise(AttributeError)
  {
    var station :- StationIn(data, "stations_by_id", stationId);
    if !Truthy(station) then Ok(Str(stationId)) else Get(station, "name", Str(stationId))
  }

  /** The station-ID sensor's value: `statusTranslation` when the key is
      present, else `status`; `None` without a station. */
  function StationIdValue(data: Bundle, stationId: string): (r: Result<Json>)
    ensures StationIn(data, "stations_by_id", stationId) == Ok(Null) ==> r == Ok(Null)
  {
    var station :- StationIn(data, "stations_by_id", stationId);
    if !Truthy(station) then Ok(Null)
    else
      var status :- Get(station, "status", Null);
      Get(station, "statusTranslation", status)
  }

  /** Which of `statusTranslation` and `status` the station-ID sensor shows. */
  lemma StationIdValueChoice(data: Bundle, stationId: string, m: map<string, Json>)
    requires StationIn(data, "stations_by_id", stationId) == Ok(Obj(m)) && m != map[]
    ensures "statusTranslation" in m ==> StationIdValue(data, stationId) == Ok(m["statusTranslation"])
    ensures "statusTranslation" !in m ==> StationIdValue(data, stationId) == Ok(DictGet(m, "status", Null))
  {
  }

  /** The station-ID sensor's attributes; only the ID without a station. */
  function StationIdAttributes(data: Bundle, stationId: string, fmt: Fmt): (r: Result<Attributes>)
    ensures StationIn(data, "stations_by_id", stationId) == Ok(Null) ==>
      r == Ok(map["station_id" := Str(stationId)])
  {
    var station :- StationIn(data, "stations_by_id", stationId);
    if !Truthy(station) then Ok(map["station_id" := Str(stationId)])
    else
      var base :- StationBase(station, fmt);
      var hours :- Fields(station, [Field("all_day_opened", ["openingHours"], "allDayOpened"),
                                    Field("opening_hours", ["openingHours"], "openingHours")]);
      Ok(base["status_translation" := DictGet(station.fields, "statusTranslation", Null)] + hours)
  }

  /** The icon of a station status. */
  function StatusIcon(status: Json): (r: string)
    ensures r in {"mdi:gas-station", "mdi:gas-station-off", "mdi:gas-station-outline"}
    ensures r == "mdi:gas-station-off" <==> status == Str("CLOSED")
    ensures r == "mdi:gas-station-outline" <==> status == Str("NO_PRICES")
  {
    if status == Str("OPEN") then "mdi:gas-station"
    else if status == Str("CLOSED") then "mdi:gas-station-off"
    else if status == Str("NO_PRICES") then "mdi:gas-station-outline"
    else "mdi:gas-station"
  }

  /** The station-ID sensor's icon, by the station's status. */
  function StationIdIcon(data: Bundle, stationId: string): (r: Result<Json>)
    ensures StationIn(data, "stations_by_id", stationId).Ok? && !Truthy(StationIn(data, "stations_by_id", stationId).value) ==>
      r == Ok(Str("mdi:gas-station"))
  {
    var station :- StationIn(data, "stations_by_id", stationId);
    if !Truthy(station) then Ok(Str("mdi:gas-station"))
    else
      var status :- Get(station, "status", Null);
      Ok(Str(StatusIcon(status)))
  }

  /** The icon mapping: OPEN, an unknown status and no station all show the
      plain pump; CLOSED and NO_PRICES have their own icons. */
  lemma StationIdIconMapping(data: Bundle, stationId: string, m: map<string, Json>)
    requires StationIn(data, "stations_by_id", stationId) == Ok(Obj(m)) && m != map[]
    ensures DictGet(m, "status", Null) == Str("CLOSED") ==> StationIdIcon(data, stationId) == Ok(Str("mdi:gas-station-off"))
    ensures DictGet(m, "status", Null) == Str("NO_PRICES") ==> StationIdIcon(data, stationId) == Ok(Str("mdi:gas-station-outline"))
    ensures DictGet(m, "status", Null) !in {Str("CLOSED"), Str("NO_PRICES")} ==>
      StationIdIcon(data, stationId) == Ok(Str("mdi:gas-station"))
  {
  }

  // ---------------------------------------------------------------------
  // Unique IDs
  // ---------------------------------------------------------------------

  /** An upper-case letter that `str.lower` maps one-to-one: A-Z and the
      Latin-1 capitals (the German umlauts among them). */
  predicate IsUpper(c: char) {
    ('A' <= c <= 'Z') || ('\U{00C0}' <= c <= '\U{00DE}' && c != '\U{00D7}')
  }

  /** `str.lower` of one character: a capital becomes its own small letter,
      32 code points further on; everything else is kept. */
  function LowerChar(c: char): (r: char)
    ensures !IsUpper(r)
    ensures !IsUpper(c) ==> r == c
    ensures IsUpper(c) ==> r as int == c as int + 32
  {
    if IsUpper(c) then (c as int + 32) as char else c
  }

  /** `user_name.lower().replace(" ", "_")`. */
  function SafeUserName(userName: string): (r: string)
    ensures |r| == |userName|
    ensures forall i :: 0 <= i < |r| ==> r[i] != ' ' && !IsUpper(r[i])
    ensures forall i :: 0 <= i < |r| ==> userName[i] != ' ' && !IsUpper(userName[i]) ==> r[i] == userName[i]
    ensures forall i :: 0 <= i < |r| && userName[i] == ' ' ==> r[i] == '_'
    ensures forall i :: 0 <= i < |r| && IsUpper(userName[i]) ==> r[i] == LowerChar(userName[i])
  {
    seq(|userName|, i requires 0 <= i < |userName| => if userName[i] == ' ' then '_' else LowerChar(userName[i]))
  }

  /** `station_id.replace("-", "_")`. */
  function SafeStationId(stationId: string): (r: string)
    ensures |r| == |stationId|
    ensures forall i :: 0 <= i < |r| ==> r[i] != '-'
    ensures forall i :: 0 <= i < |r| ==> stationId[i] != '-' ==> r[i] == stationId[i]
    ensures forall i :: 0 <= i < |r| && stationId[i] == '-' ==> r[i] == '_'
  {
    seq(|stationId|, i requires 0 <= i < |stationId| => if stationId[i] == '-' then '_' else stationId[i])
  }

  /** The sensors `async_setup_entry` creates. */
  datatype SensorEntity =
    | Described(key: string)
    | CheapestStation(fuelType: string)
    | UserNearestStation(userName: string)
    | StationById(stationId: string)
    | HighestPollen
    | PollenKind(pollenType: string, pollenName: string)
    | NextWaste
    | WasteKind(wasteType: string, wasteName: string)

  /** The unique ID each sensor registers under config entry `entryId`. */
  function UniqueId(entryId: string, e: SensorEntity): (r: string)
    ensures |r| >= |entryId| + 1 && r[..|entryId| + 1] == entryId + "_"
  {
    match e
    case Described(key) => entryId + "_" + key
    case CheapestStation(fuel) => entryId + "_cheapest_station_" + seq(|fuel|, i requires 0 <= i < |fuel| => LowerChar(fuel[i]))
    case UserNearestStation(name) => entryId + "_nearest_station_" + SafeUserName(name)
    case StationById(id) => entryId + "_station_" + SafeStationId(id)
    case HighestPollen => entryId + "_highest_pollen_severity"
    case PollenKind(_, name) => entryId + "_pollen_" + name
    case NextWaste => entryId + "_next_waste_collection"
    case WasteKind(_, name) => entryId + "_waste_" + name
  }

  /** Sanitising can merge names: "Anna Berg" and "anna_berg" register the
      same unique ID, and so do station IDs "a-1" and "a_1". */
  lemma UniqueIdsCanCollide(entryId: string)
    ensures UniqueId(entryId, UserNearestStation("Anna Berg")) == UniqueId(entryId, UserNearestStation("anna_berg"))
    ensures UniqueId(entryId, StationById("a-1")) == UniqueId(entryId, StationById("a_1"))
  {
    assert SafeUserName("Anna Berg") == "anna_berg";
    assert SafeStationId("a-1") == "a_1";
  }

  /** The collision needs an underscore: two different station IDs without
      one keep different unique IDs, since sanitising only turns `-` into `_`. */
  lemma StationUniqueIdsDistinct(entryId: string, a: string, b: string)
    requires a != b && '_' !in a && '_' !in b
    ensures UniqueId(entryId, StationById(a)) != UniqueId(entryId, StationById(b))
  {
    var sa, sb := SafeStationId(a), SafeStationId(b);
    if |a| == |b| {
      var i :| 0 <= i < |a| && a[i] != b[i];
      assert sa[i] != sb[i];
    }
    var prefix := entryId + "_station_";
    assert (prefix + sa)[|prefix|..] == sa && (prefix + sb)[|prefix|..] == sb;
  }
}

# isal Easy Homey — a verified model

This project models the core of the Home Assistant integration
`isal_easy_homey` in Dafny. The integration polls a REST API for four kinds of
data: petrol stations, weather warnings, pollen flight and waste collection.
It exposes the results as sensors and binary sensors, and it has a
configuration flow that edits its station IDs and user locations.

The model covers:

- **`py_json.dfy`, module `PyJson`.** JSON values as Python sees them (`None`, bools, numbers, strings, lists, dicts).
  - `dict.get` chains; calling `.get` on a value that is not a dict raises `AttributeError`.
  - Truthiness, and `> 0` (raises `TypeError` on non-numbers).
  - Iteration over lists, strings and dicts.
  - The first-match loop.
  - The key scan of `max`/`min` with `key=`, as CPython runs it: keys are compared from the second item on, only a strictly better key replaces the current one, so the first extreme wins.
- **`const.dfy`, module `Const`.** The defaults and the fuel, pollen and waste tables.
- **`coordinator.dfy`, module `Coordinator`.**
  - `get_coordinates_from_entity`.
  - The petrol refresh, a method that fills the bundle key by key. The nearest station is found by `min` over the distance, with an infinite default.
  - The weather, pollen and waste refreshes, each a two-key bundle.
  - Wrapping API errors into `UpdateFailed`.
- **`sensor.dfy`, module `Sensor`.**
  - `get_price_from_prices`.
  - `format_address`, a method that rewrites the last part in place.
  - The descriptor tables `PETROL_STATION_SENSORS` and `WEATHER_WARNING_SENSORS`.
  - Value, attributes, icon, name and availability of every sensor class, each a function of the coordinator bundle.
  - The unique IDs.
- **`sensor_setup.dfy`, module `SensorSetup`.** `async_setup_entry` of the sensor platform, as loops that grow the entity list.
- **`binary_sensor.dfy`, module `BinarySensor`.** The two binary-sensor tables, `is_on`/`icon`, and the setup.
- **`config_flow.dfy`, module `ConfigFlow`.**
  - `validate_input` and the error codes of `async_step_user`.
  - The options flow, a class whose fields are the two edited lists. Its add and remove steps are methods, each proved against a step function.
  - The menu steps, and the fallback from options to data to default.

A Python exception is modelled as the `Raise` case of a `Result`; an absent
dict key is `None` (`Option`). The API client and the Home Assistant state
machine are parameters: the client's outcome, and a map from entity ID to
state attributes.

## Model

| member | source | states |
|---|---|---|
| PyJson.FirstWhere | custom_components/isal_easy_homey/sensor.py:63-66 | the loop returns the first position whose field equals the wanted value, every earlier item being a dict that does not match; without a match every item was a dict; an `AttributeError` comes from a non-dict item reached before any match |
| PyJson.FirstWhereFinds | custom_components/isal_easy_homey/sensor.py:780-785 | whenever the first match is at `i`, the loop returns exactly `i` |
| PyJson.ExtremeSpec | custom_components/isal_easy_homey/coordinator.py:109-111 | `min`/`max` with a key: nothing for no items; the only item for one item; with two or more items it succeeds iff every key is numeric, and then gives the first extreme position |
| PyJson.LookupOkIff | custom_components/isal_easy_homey/sensor.py:99-124 | a `.get(k, {})` chain raises iff it meets a value that is not a dict; an absent key anywhere is never an error |
| PyJson.DigEmpty | custom_components/isal_easy_homey/sensor.py:99-124 | a `.get(k, {})` chain started at `{}` stays at `{}` |
| PyJson.ScanSpec | custom_components/isal_easy_homey/coordinator.py:109-111 | the key scan of `min`/`max` from any point keeps the first extreme of the prefix seen so far, and succeeds iff every key is numeric |
| PyJson.ExtendExtreme | custom_components/isal_easy_homey/coordinator.py:109-111 | one comparison step keeps the first extreme: a strictly better key replaces it, an equal one does not |
| PyJson.Extreme | custom_components/isal_easy_homey/coordinator.py:109-111 | a found position is inside the list; no position is found only for an empty list |
| PyJson.LookupAbsent | custom_components/isal_easy_homey/sensor.py:99-101 | a `.get(k, {})` chain whose first key is absent yields the final default |
| Coordinator.CoordinatesFromEntity | custom_components/isal_easy_homey/coordinator.py:30-45 | gives coordinates iff the entity ID is set and non-empty, the entity has a state, and neither latitude nor longitude is `None`; the pair is the two attribute values as stored (the `float()` conversion is not modelled) |
| Coordinator.DistanceKey | custom_components/isal_easy_homey/coordinator.py:110 | the `min` key raises iff `location` is present but not a dict; it is infinite iff `location` has no `distance`, and otherwise it is that distance |
| Coordinator.NearestStation | custom_components/isal_easy_homey/coordinator.py:109-112 | `min` of an empty list raises `ValueError`; a result is always an element of the station list |
| Coordinator.PetrolRefresh | custom_components/isal_easy_homey/coordinator.py:92-123 | a successful bundle holds no keys beyond `all_stations`, `nearest_station` and `cheapest_station`; an exception escapes only from the nearest-station `min` over a truthy search result, after coordinates resolved and the search succeeded |
| Coordinator.PetrolUpdate | custom_components/isal_easy_homey/coordinator.py:92-123 | the method that fills the bundle step by step computes exactly the petrol refresh |
| Coordinator.PetrolNoCoordinates | custom_components/isal_easy_homey/coordinator.py:93-98 | without coordinates the bundle is empty |
| Coordinator.PetrolBundleKeys | custom_components/isal_easy_homey/coordinator.py:102-120 | a successful refresh holds `all_stations` (the search result) and `cheapest_station` (the cheapest answer), plus `nearest_station` iff the search result is truthy, and nothing else |
| Coordinator.PetrolNearestIsFirstMinimum | custom_components/isal_easy_homey/coordinator.py:108-112 | the nearest station is an element of the list that no other element undercuts (a missing distance counts as infinite), and it is the first such element; with two or more stations every distance must be numeric |
| Coordinator.PetrolApiErrorFails | custom_components/isal_easy_homey/coordinator.py:122-123 | a search error fails the update with that error; a cheapest-call error after a successful search fails the update, or the nearest-station `min` raises first; a failed update came from one of the two calls |
| Coordinator.PairRefresh | custom_components/isal_easy_homey/coordinator.py:166-181 | a two-call bundle succeeds iff both calls do, then holds exactly the two keys with the two answers; otherwise the first error is reported |
| Coordinator.WeatherRefresh | custom_components/isal_easy_homey/coordinator.py:166-181 | the weather bundle is exactly `{warnings, upfront}`, fetched for the cell with kinds "WARNING" and "UPFRONT_INFORMATION"; it fails iff either call fails |
| Coordinator.PollenRefresh | custom_components/isal_easy_homey/coordinator.py:221-232 | the pollen bundle is exactly `{all_pollen, highest}`; it fails iff either call fails |
| Coordinator.WasteRefresh | custom_components/isal_easy_homey/coordinator.py:272-283 | the waste bundle is exactly `{upcoming, next}`; it fails iff either call fails |
| Coordinator.DistanceKeys | custom_components/isal_easy_homey/coordinator.py:110 | one key per station: `location.distance`, infinite when missing |
| Sensor.PriceFromPrices | custom_components/isal_easy_homey/sensor.py:52-66 | an empty list gives `None`; a list of dicts none of which has the fuel kind gives `None`; otherwise the price of the first entry of that kind; a non-`None` result always comes from such a first entry |
| Sensor.FormatAddress | custom_components/isal_easy_homey/sensor.py:69-88 | the method that appends parts and rewrites the last one in place computes the address text |
| Sensor.AddressEmpty | custom_components/isal_easy_homey/sensor.py:79-88 | an empty address formats as "" |
| Sensor.AddressFull | custom_components/isal_easy_homey/sensor.py:79-88 | with all four fields, the result is "street house, postal, city" |
| Sensor.AddressFalsyIsAbsent | custom_components/isal_easy_homey/sensor.py:80-87 | a falsy field formats exactly as an absent one |
| Sensor.AddressHouseWithoutStreet | custom_components/isal_easy_homey/sensor.py:82-83 | a house number without a street raises `IndexError` (`parts[-1]` of an empty list) |
| Sensor.AddressPostalNotText | custom_components/isal_easy_homey/sensor.py:79-88 | a truthy postal code that is not a string raises `TypeError` in `", ".join` |
| Sensor.PriceEurDashIffNone | custom_components/isal_easy_homey/sensor.py:109-120 | each `*_price` attribute is the looked-up price, and its `*_price_eur` companion is "-" iff that price is `None` |
| Sensor.PricePairDash | custom_components/isal_easy_homey/sensor.py:109-120 | for one fuel kind, the price is the looked-up one and its euro text is "-" iff the price is `None` |
| Sensor.PriceAttributes | custom_components/isal_easy_homey/sensor.py:109-120 | the price block has exactly the six keys `e5_price`, `e5_price_eur`, `e10_price`, `e10_price_eur`, `diesel_price`, `diesel_price_eur` |
| Sensor.PriceBlock | custom_components/isal_easy_homey/sensor.py:109-120 | the six price keys, each price and each euro text in its own slot |
| Sensor.EuroTextIsNotDash | custom_components/isal_easy_homey/sensor.py:110-119 | the euro text of a price is "-" iff the price is `None` |
| Sensor.StationAttributes | custom_components/isal_easy_homey/sensor.py:102-124 | the station attributes are the base station block with every entry copied, plus `distance`, which is the station's `location.distance` (`None` when absent); given a valid base block they fail iff that lookup fails, and they need the station to be a dict |
| Sensor.StationBase | custom_components/isal_easy_homey/sensor.py:102-121 | the station block needs a dict; it has exactly the station keys (`station_id`, `name`, `brand`, `address`, `location`, `status`) and the six price keys; `station_id`, `name` and `location` are the station's `stationId`, `name` and `location` |
| Sensor.StationInfo | custom_components/isal_easy_homey/sensor.py:102-108 | the six station keys, with `station_id`, `name` and `location` copied from the station |
| Sensor.StationBlock | custom_components/isal_easy_homey/sensor.py:102-121 | the station keys and the price keys together, neither part overwriting the other |
| Sensor.NearestDistanceIsRankingKey | custom_components/isal_easy_homey/sensor.py:96-124 | the `distance` attribute of the nearest-station sensor is the same `location.distance` the coordinator ranked the stations by: `None` when the key was infinite, the number itself otherwise |
| Sensor.FieldsOfEmpty | custom_components/isal_easy_homey/sensor.py:147-257 | looking up a table of attribute chains in `{}` gives every attribute, each `None` |
| Sensor.FieldsKeys | custom_components/isal_easy_homey/sensor.py:147-257 | a successful lookup of an attribute table gives exactly the table's attribute names |
| Sensor.NativeValue | custom_components/isal_easy_homey/sensor.py:598-607 | the value function's result, `None` without one |
| Sensor.ExtraAttributes | custom_components/isal_easy_homey/sensor.py:610-619 | `None` without an attributes function; otherwise it raises iff the function does |
| Sensor.Icon | custom_components/isal_easy_homey/sensor.py:622-631 | the icon function's result, else the static icon |
| Sensor.Available | custom_components/isal_easy_homey/sensor.py:634-646 | unavailable when the coordinator is; otherwise the availability function decides, and without one the sensor is available |
| Sensor.NearestAvailable | custom_components/isal_easy_homey/sensor.py:125 | the nearest-station sensor is available iff the bundle holds a truthy `nearest_station` |
| Sensor.NearestStationMissing | custom_components/isal_easy_homey/sensor.py:96-125 | with no nearest station the value is `None`, the sensor is unavailable and the icon is the static one |
| Sensor.SeverityKeys | custom_components/isal_easy_homey/sensor.py:136-140 | one `max` key per warning: `details.severity.severityLevel` |
| Sensor.CurrentWarningIsFirstMaximum | custom_components/isal_easy_homey/sensor.py:135-146 | the current-warning sensor selects the first warning of greatest severity level; with two or more warnings the selection succeeds iff every level is a number |
| Sensor.CurrentWarningEmpty | custom_components/isal_easy_homey/sensor.py:135-265 | no warnings selects `{}`: the value and every attribute are `None`, and the icon is the group's fallback |
| Sensor.CurrentWarningAttributesEmpty | custom_components/isal_easy_homey/sensor.py:147-257 | with `{}` selected, the attributes are exactly the table's names, each `None` |
| Sensor.CurrentWarningIcon | custom_components/isal_easy_homey/sensor.py:258-265 | the selected entry's `details.weatherIcon.mdiIcon`; a missing `details`, `weatherIcon` or `mdiIcon` gives the group's fallback icon ("mdi:alert" or "mdi:information", lines 397-404) |
| Sensor.CurrentWarningAvailable | custom_components/isal_easy_homey/sensor.py:266-269 | a group that is not a dict raises `AttributeError`; a count that is not positive gives unavailable; available only with a positive count and a non-empty list |
| Sensor.CurrentWarningAvailableIff | custom_components/isal_easy_homey/sensor.py:266-269 | available iff `count > 0` and the warning list is non-empty |
| Sensor.CurrentWarningMissingGroup | custom_components/isal_easy_homey/sensor.py:405-408 | with the group missing the count is 0 and the sensor is unavailable |
| Sensor.AllWarningsAttributes | custom_components/isal_easy_homey/sensor.py:415-428 | succeeds iff the group is a dict; then exactly `warnings` (the group's list, `[]` when missing) and `raw_data` (the group itself) |
| Sensor.CurrentWarningExample | custom_components/isal_easy_homey/sensor.py:274-285 | with warnings of levels 1 and 3, the level-3 warning's severity is shown and the sensor is available |
| Sensor.HighestPollenValue | custom_components/isal_easy_homey/sensor.py:679-689 | a falsy highest flight gives `None` |
| Sensor.HighestPollenIcon | custom_components/isal_easy_homey/sensor.py:716-724 | without a `highest` bundle the icon is "mdi:flower-pollen" |
| Sensor.HighestPollenAttributes | custom_components/isal_easy_homey/sensor.py:692-713 | a successful lookup gives exactly the attribute names of the highest-pollen table |
| Sensor.HighestPollenMissing | custom_components/isal_easy_homey/sensor.py:679-724 | without a `highest` bundle every attribute is `None` and the icon is "mdi:flower-pollen" |
| Sensor.HighestPollenAvailable | custom_components/isal_easy_homey/sensor.py:727-736 | available iff the coordinator is and the highest flight is truthy |
| Sensor.HighestPollenValueNeedsAvailability | custom_components/isal_easy_homey/sensor.py:679-736 | whenever the sensor is unavailable with a live coordinator, its value is `None` |
| Sensor.PollenData | custom_components/isal_easy_homey/sensor.py:774-785 | a found flight is the first flight of the requested type; an empty flight list finds nothing |
| Sensor.PollenValue | custom_components/isal_easy_homey/sensor.py:788-798 | `None` when no flight matches |
| Sensor.PollenAttributes | custom_components/isal_easy_homey/sensor.py:801-848 | `{}` when no flight matches |
| Sensor.PollenIcon | custom_components/isal_easy_homey/sensor.py:850-860 | "mdi:flower" when no flight matches |
| Sensor.PollenAvailableIffMatch | custom_components/isal_easy_homey/sensor.py:863-870 | over dict flights, the per-type pollen sensor is available iff some flight has its type, and it shows the first such flight |
| Sensor.PollenAvailable | custom_components/isal_easy_homey/sensor.py:863-870 | unavailable when the coordinator is; available only when a flight of the type was found; an empty flight list makes it unavailable |
| Sensor.NextWasteValue | custom_components/isal_easy_homey/sensor.py:905-915 | `None` without a `next` bundle; a shown value is always truthy |
| Sensor.NextWasteAttributes | custom_components/isal_easy_homey/sensor.py:918-945 | needs a dict `next`; exactly `scheduled_on`, `waste_types`, `waste_types_translations` and `collections`; `collections` is the scheduled list, and the two type lists have one entry per collection, `waste_types[i]` being collection `i`'s `wasteType` |
| Sensor.Column | custom_components/isal_easy_homey/sensor.py:928-929 | a list comprehension of `.get`: one value per item, and it raises only if some item is not a dict |
| Sensor.WasteData | custom_components/isal_easy_homey/sensor.py:983-996 | a found collection is the first collection of the requested type; no collections find nothing |
| Sensor.WasteValue | custom_components/isal_easy_homey/sensor.py:999-1009 | `None` when no collection matches |
| Sensor.WasteAttributes | custom_components/isal_easy_homey/sensor.py:1012-1038 | `{}` when no collection matches |
| Sensor.WasteIcon | custom_components/isal_easy_homey/sensor.py:1040-1050 | "mdi:trash-can" when no collection matches |
| Sensor.WasteAvailableIffMatch | custom_components/isal_easy_homey/sensor.py:1053-1060 | over dict collections, the per-type waste sensor is available iff some collection has its type, and it shows the first such collection |
| Sensor.WasteAvailable | custom_components/isal_easy_homey/sensor.py:1053-1060 | unavailable when the coordinator is; available only when a collection of the type was found; no upcoming collections make it unavailable |
| Sensor.CheapestValue | custom_components/isal_easy_homey/sensor.py:1110-1122 | no station in the table gives `None`; a truthy station gives the price of the sensor's own fuel kind from that station's price list |
| Sensor.CheapestAttributes | custom_components/isal_easy_homey/sensor.py:1125-1157 | a falsy station gives `{}`; a truthy one gives its station attributes, every entry copied, plus `fuel_type` set to the sensor's fuel kind |
| Sensor.StationAvailable | custom_components/isal_easy_homey/sensor.py:1160-1167 | available iff the coordinator is and the looked-up station is truthy; a missing table makes the sensor unavailable |
| Sensor.UserNearestName | custom_components/isal_easy_homey/sensor.py:1199 | the display name is "Nächste Tankstelle " followed by the user's name |
| Sensor.UserNearestValue | custom_components/isal_easy_homey/sensor.py:1218-1228 | `None` without a station |
| Sensor.UserNearestAttributes | custom_components/isal_easy_homey/sensor.py:1231-1264 | always carries `user_name`; without a station that is the only attribute |
| Sensor.StationIdName | custom_components/isal_easy_homey/sensor.py:1321-1331 | a falsy (missing or empty) station gives the station ID as the name; a dict station gives its `name`, or the station ID when it has none; a truthy station that is not a dict raises `AttributeError` |
| Sensor.StationIdValue | custom_components/isal_easy_homey/sensor.py:1334-1344 | `None` without a station |
| Sensor.StationIdValueChoice | custom_components/isal_easy_homey/sensor.py:1343 | shows `statusTranslation` when that key is present, else `status` |
| Sensor.StationIdAttributes | custom_components/isal_easy_homey/sensor.py:1347-1381 | only the station ID without a station |
| Sensor.StatusIcon | custom_components/isal_easy_homey/sensor.py:1390-1399 | CLOSED gives the "off" pump and NO_PRICES the outline pump (both iff); everything else gives the plain pump |
| Sensor.StationIdIcon | custom_components/isal_easy_homey/sensor.py:1383-1399 | the plain pump without a station |
| Sensor.StationIdIconMapping | custom_components/isal_easy_homey/sensor.py:1383-1399 | the icon by the station's status |
| Sensor.LowerChar | custom_components/isal_easy_homey/sensor.py:1089 | an upper-case letter becomes its lower-case partner (code point + 32); the result is never an upper-case letter, and other characters are kept |
| Sensor.SafeUserName | custom_components/isal_easy_homey/sensor.py:1197 | same length; each space becomes "_", each capital becomes its lower-case letter, other characters kept in place |
| Sensor.SafeStationId | custom_components/isal_easy_homey/sensor.py:1301 | same length; each "-" becomes "_", other characters kept in place |
| Sensor.UniqueIdsCanCollide | custom_components/isal_easy_homey/sensor.py:1196-1302 | "Anna Berg" and "anna_berg" register the same unique ID, and so do station IDs "a-1" and "a_1" |
| Sensor.UniqueId | custom_components/isal_easy_homey/sensor.py:589 | every sensor's unique ID starts with the entry ID and "_" (the same holds at lines 670, 765, 896, 974, 1090, 1198 and 1302) |
| Sensor.StationUniqueIdsDistinct | custom_components/isal_easy_homey/sensor.py:1300-1302 | two different station IDs without "_" get different unique IDs |
| SensorSetup.NamedUsers | custom_components/isal_easy_homey/sensor.py:473-483 | at most one per-user sensor per location |
| SensorSetup.SetupSensors | custom_components/isal_easy_homey/sensor.py:446-553 | the entity list is exactly: the nearest sensor, the three cheapest sensors, the named users, the station IDs, the four weather sensors, the highest-pollen and 8 pollen sensors, the next-waste and 5 waste sensors |
| SensorSetup.AddTail | custom_components/isal_easy_homey/sensor.py:498-549 | appends the four weather sensors, the highest-pollen sensor, the pollen kinds, the next-waste sensor and the waste kinds, in this order |
| SensorSetup.PetrolDescribed | custom_components/isal_easy_homey/sensor.py:92-127 | the petrol table creates exactly the nearest-station sensor |
| SensorSetup.WeatherDescribed | custom_components/isal_easy_homey/sensor.py:131-432 | the weather table creates the current-warning, current-advance-notice and the two JSON sensors, in this order |
| SensorSetup.ExtendDescribed | custom_components/isal_easy_homey/sensor.py:453-460 | `extend` appends one described sensor per table entry, in order |
| SensorSetup.AddCheapest | custom_components/isal_easy_homey/sensor.py:463-470 | appends the cheapest sensors for E5, E10 and DIESEL in this order |
| SensorSetup.AddUsers | custom_components/isal_easy_homey/sensor.py:474-483 | appends one sensor per location with a truthy name, in order |
| SensorSetup.AddStations | custom_components/isal_easy_homey/sensor.py:487-494 | appends one sensor per station ID, in order |
| SensorSetup.AddPollen | custom_components/isal_easy_homey/sensor.py:519-527 | appends one sensor per pollen kind, in the table's order |
| SensorSetup.AddWaste | custom_components/isal_easy_homey/sensor.py:541-549 | appends one sensor per waste kind, in the table's order |
| SensorSetup.NamedUsersAppend | custom_components/isal_easy_homey/sensor.py:474-483 | one more location adds its sensor at the end iff its name is truthy |
| SensorSetup.NamedUsersMembers | custom_components/isal_easy_homey/sensor.py:474-483 | a per-user sensor exists iff some location carries that non-empty name |
| SensorSetup.SetupCount | custom_components/isal_easy_homey/sensor.py:446-553 | an entry gets 23 sensors plus one per named user and one per station ID |
| SensorSetup.SetupOrder | custom_components/isal_easy_homey/sensor.py:453-494 | the list starts with the nearest and the E5, E10, DIESEL sensors, and the station-ID sensors sit right after the per-user ones, in the order of the IDs |
| SensorSetup.SetupTail | custom_components/isal_easy_homey/sensor.py:533-549 | the list ends with the next-waste sensor and the 5 waste kinds PAPER, BIO, GENERAL, YELLOW_BAG, PROBLEM |
| BinarySensor.IsOn | custom_components/isal_easy_homey/binary_sensor.py:160-169 | the value function's verdict, off without one |
| BinarySensor.ExtraAttributes | custom_components/isal_easy_homey/binary_sensor.py:172-181 | `None` without an attributes function; otherwise it raises iff the function does |
| BinarySensor.Icon | custom_components/isal_easy_homey/binary_sensor.py:184-193 | the icon function applied to the state, `None` without one |
| BinarySensor.IconFollowsState | custom_components/isal_easy_homey/binary_sensor.py:191-192 | two bundles with the same state have the same icon |
| BinarySensor.WarningActiveIff | custom_components/isal_easy_homey/binary_sensor.py:45-59 | a weather binary sensor is on iff its count is positive; a missing group or count gives off; the `count` attribute is the count the state is decided by |
| BinarySensor.WarningIcons | custom_components/isal_easy_homey/binary_sensor.py:50-61 | alert or information icon when on, a check mark when off |
| BinarySensor.WarningAttributes | custom_components/isal_easy_homey/binary_sensor.py:46-60 | succeeds iff the count does; exactly `count` (the count the state uses) and `cell_id`; a missing group gives count 0 and `cell_id` `None` |
| BinarySensor.AnyPositive | custom_components/isal_easy_homey/binary_sensor.py:69-72 | `any` is true iff some flight's test is true and every earlier test was false; false iff every test is false |
| BinarySensor.PollenActiveIff | custom_components/isal_easy_homey/binary_sensor.py:69-72 | over well-formed flights the pollen sensor is on iff some flight's level today is above 0; an empty list gives off |
| BinarySensor.FirstPositive | custom_components/isal_easy_homey/binary_sensor.py:69-72 | among well-formed flights, a positive flight implies a first positive flight |
| BinarySensor.FirstPositiveUpTo | custom_components/isal_easy_homey/binary_sensor.py:69-72 | a positive flight at position k has a first positive flight at or before k |
| BinarySensor.PollenMissingIsOff | custom_components/isal_easy_homey/binary_sensor.py:69-78 | with no pollen bundle the sensor is off and shows the outline icon |
| BinarySensor.PollenAttributes | custom_components/isal_easy_homey/binary_sensor.py:73-77 | succeeds iff `all_pollen` is a dict; exactly `region`, `part_region` and `last_updated`, `region` being its `regionName`; a missing bundle gives all three `None` |
| BinarySensor.UniqueId | custom_components/isal_easy_homey/binary_sensor.py:151 | the entry ID, "_", then the description key |
| BinarySensor.UniqueIdsDistinct | custom_components/isal_easy_homey/binary_sensor.py:151 | different description keys give different unique IDs |
| BinarySensor.SetupBinarySensors | custom_components/isal_easy_homey/binary_sensor.py:101-121 | setup creates exactly the two weather sensors followed by the pollen sensor |
| ConfigFlow.Fallback | custom_components/isal_easy_homey/config_flow.py:223-234 | the options value when present, else the data value, else the default |
| ConfigFlow.ValidateInput | custom_components/isal_easy_homey/config_flow.py:55-118 | nothing raises iff the connection test passes and every set, non-empty location entity has a state with truthy latitude and longitude; a connection failure is reported as such, any other failure is `ValueError` |
| ConfigFlow.ErrorCode | custom_components/isal_easy_homey/config_flow.py:143-154 | connection error iff `cannot_connect`, timeout iff `timeout`, `ValueError` iff `invalid_entity`, any other API error or exception iff `unknown` |
| ConfigFlow.StepUser | custom_components/isal_easy_homey/config_flow.py:138-158 | no input shows the form; the entry is created iff validation passes, and it holds exactly the input; otherwise the form is shown again with the failure's base error |
| ConfigFlow.StepUserOutcomes | custom_components/isal_easy_homey/config_flow.py:140-156 | the error code for each connection failure; an invalid nearest entity gives `invalid_entity`; with no location entities a reachable API creates the entry |
| ConfigFlow.ZeroLatitudeRejected | custom_components/isal_easy_homey/config_flow.py:83-85 | a latitude of 0 fails validation, though the coordinator's `is None` test accepts it |
| ConfigFlow.StripStart | custom_components/isal_easy_homey/config_flow.py:570 | a suffix of the input, starting with a non-space, after only spaces |
| ConfigFlow.StripEnd | custom_components/isal_easy_homey/config_flow.py:570 | a prefix of the input, ending with a non-space, before only spaces |
| ConfigFlow.Strip | custom_components/isal_easy_homey/config_flow.py:570 | the input with its leading and trailing spaces cut off: a slice `s[i..j]` with only spaces before `i` and from `j` on, and no space at either end of the result |
| ConfigFlow.HeadAndTailCut | custom_components/isal_easy_homey/config_flow.py:570 | cutting leading spaces and then trailing spaces leaves the slice between them |
| ConfigFlow.StripUnchanged | custom_components/isal_easy_homey/config_flow.py:570 | a string with no surrounding spaces strips to itself |
| ConfigFlow.StripIdempotent | custom_components/isal_easy_homey/config_flow.py:570 | stripping twice equals stripping once |
| ConfigFlow.StripBlank | custom_components/isal_easy_homey/config_flow.py:570-574 | an all-space input strips to "", so it is reported as invalid |
| ConfigFlow.AddStationError | custom_components/isal_easy_homey/config_flow.py:572-608 | no error iff the stripped ID is non-empty, new, and its lookup did not end in a plain API error; the code is `invalid_station_id` for an empty ID, `station_id_exists` for a known one, and `invalid_station_id` for an API error |
| ConfigFlow.AddStationOutcome | custom_components/isal_easy_homey/config_flow.py:569-611 | the list becomes the old list plus the stripped ID at the end iff no error; all earlier entries stay where they were; the list is unchanged iff the form reports a `station_id` error |
| ConfigFlow.AppendFresh | custom_components/isal_easy_homey/config_flow.py:573-611 | appending an ID not yet in a duplicate-free list keeps it duplicate-free |
| ConfigFlow.AddStationKeepsIdsClean | custom_components/isal_easy_homey/config_flow.py:570-611 | adding keeps the list free of duplicates and of empty or unstripped IDs |
| ConfigFlow.AddStationStep | custom_components/isal_easy_homey/config_flow.py:555-621 | no input shows the add form; a changed list is the old list plus the stripped, non-empty, new ID and returns to the station menu; an unchanged list after input shows the add form with a `station_id` error |
| ConfigFlow.Without | custom_components/isal_easy_homey/config_flow.py:637-639 | the kept values are exactly the values other than the target |
| ConfigFlow.WithoutSnoc | custom_components/isal_easy_homey/config_flow.py:637-639 | one more ID is kept at the end iff it is not the target |
| ConfigFlow.KeepOtherIds | custom_components/isal_easy_homey/config_flow.py:635-640 | the filter loop computes exactly the IDs other than the chosen one, in order |
| ConfigFlow.WithoutAppend | custom_components/isal_easy_homey/config_flow.py:637-639 | removal distributes over concatenation, so the kept IDs keep their order |
| ConfigFlow.WithoutCounts | custom_components/isal_easy_homey/config_flow.py:637-639 | every occurrence of the target is dropped, and every other ID keeps its number of occurrences |
| ConfigFlow.WithoutNoDuplicates | custom_components/isal_easy_homey/config_flow.py:637-639 | removal keeps a duplicate-free list duplicate-free |
| ConfigFlow.WithoutIdempotent | custom_components/isal_easy_homey/config_flow.py:637-639 | removing twice is removing once |
| ConfigFlow.RemoveStationStep | custom_components/isal_easy_homey/config_flow.py:623-640 | no input shows the remove form; with input the list keeps exactly the other IDs, never grows, and the station menu follows |
| ConfigFlow.AddLocationOutcome | custom_components/isal_easy_homey/config_flow.py:439-456 | the location is appended unchanged iff its entity ID is empty or has a state with truthy latitude and longitude; otherwise the list is unchanged and `entity_id` reports `invalid_entity` |
| ConfigFlow.AddLocationStep | custom_components/isal_easy_homey/config_flow.py:420-471 | no input shows the add form; an accepted location is appended and the location menu follows; a rejected one shows the form with `invalid_entity` |
| ConfigFlow.WithoutName | custom_components/isal_easy_homey/config_flow.py:487-491 | no kept location has the chosen name, and the list never grows |
| ConfigFlow.WithoutNameMembers | custom_components/isal_easy_homey/config_flow.py:487-491 | a location is kept iff it was in the list and has another name |
| ConfigFlow.WithoutNameSnoc | custom_components/isal_easy_homey/config_flow.py:487-491 | one more location is kept at the end iff its name differs |
| ConfigFlow.KeepOtherNames | custom_components/isal_easy_homey/config_flow.py:485-492 | the filter loop computes exactly the locations without the chosen name, in order |
| ConfigFlow.WithoutNameAppend | custom_components/isal_easy_homey/config_flow.py:487-491 | removal by name distributes over concatenation, so the kept locations keep their order |
| ConfigFlow.WithoutAbsentName | custom_components/isal_easy_homey/config_flow.py:487-491 | removing a name no location has changes nothing |
| ConfigFlow.RemoveLocationStep | custom_components/isal_easy_homey/config_flow.py:473-492 | no input shows the remove form; with input no kept location has the name, the list never grows, and the location menu follows |
| ConfigFlow.SettingsDefaults | custom_components/isal_easy_homey/config_flow.py:286-360 | URL, key, radius and warn cell fall back from options to data to default; the four update intervals fall back from options to default only |
| ConfigFlow.DefaultIntervalsAccepted | custom_components/isal_easy_homey/config_flow.py:333-360 | the interval defaults pass the form's own 1..1440 check whenever the stored options did, and the entry's data never changes them |
| ConfigFlow.OptionsFlow.constructor | custom_components/isal_easy_homey/config_flow.py:210-234 | both lists are loaded from the options, else the data, else empty |
| ConfigFlow.OptionsFlow.GeneralSettings | custom_components/isal_easy_homey/config_flow.py:277-282 | a submission is saved unchanged except that both current lists are carried along; without one the form is shown |
| ConfigFlow.OptionsFlow.UserLocationsStep | custom_components/isal_easy_homey/config_flow.py:384-394 | "add" opens the add form; "remove" opens the remove form only when the list is non-empty; "done" saves the options with only the user locations replaced; anything else shows the menu form |
| ConfigFlow.OptionsFlow.StationIdsStep | custom_components/isal_easy_homey/config_flow.py:521-532 | "add" opens the add form; "remove" only when the list is non-empty; "done" saves the options with both lists replaced; anything else shows the menu form |
| ConfigFlow.OptionsFlow.AddStationId | custom_components/isal_easy_homey/config_flow.py:555-621 | the new list and the result are those of the add-station step on the old list |
| ConfigFlow.OptionsFlow.RemoveStationId | custom_components/isal_easy_homey/config_flow.py:623-640 | the new list is the old one without the chosen ID, in order |
| ConfigFlow.OptionsFlow.AddUserLocation | custom_components/isal_easy_homey/config_flow.py:420-471 | the new list and the result are those of the add-location step on the old list |
| ConfigFlow.OptionsFlow.RemoveUserLocation | custom_components/isal_easy_homey/config_flow.py:473-492 | the new list is the old one without the locations of the chosen name, in order |
| ConfigFlow.DoneSavesWhichLists | custom_components/isal_easy_homey/config_flow.py:390-394 | "done" in the user-location menu saves the station IDs the options already held, not the edited ones; "done" in the station menu saves both edited lists |

## Left out

- `api.py` (the HTTP client) is not part of this model. Every client call is a parameter holding its answer or its error. The connection test's outcome is a parameter of `ValidateInput`.
- `__init__.py` (platform setup, unloading, coordinator construction) is not part of this model. Its coordinator constructor calls do not match the signatures in `coordinator.py`; the model follows `coordinator.py`.
- The Home Assistant framework is not modelled: scheduling, `async_show_form` rendering, voluptuous schemas, logging, and `CoordinatorEntity.available`. The latter is a boolean parameter `coordinatorUp`.
- Coordinator.CoordinatesFromEntity: `float(latitude)` and `float(longitude)` (coordinator.py:44) are not applied, so the pair is the raw attribute values. The `ValueError` or `TypeError` that `float()` raises for a non-numeric attribute, which the update's `except` does not catch, is not modelled.
- Coordinator.PetrolUpdate: for the same reason, the coordinates reach the client as the raw attribute values.
- Float formatting (`:.3f`) and `str()` of non-strings inside f-strings are not implemented. They are the parameter `Fmt`.
- Sensor.NextWasteValue and Sensor.WasteValue: dates are not modelled. `datetime.fromisoformat` and `datetime.now` depend on a parser and a clock, so the values are the `scheduledOn` text itself.
- Sensor.NextWasteAttributes and Sensor.WasteAttributes: `days_until_collection` is omitted, for the same reason.
- Ordering of `max`/`min` keys: they are compared only as numbers (a bool counts as 0 or 1, a missing distance as infinity). Comparing strings with strings or lists with lists is treated as `TypeError`.
- Sensor.LowerChar: `str.lower` is modelled for A–Z and the Latin-1 capitals only; other scripts are left as they are.
- Python dict order is not modelled: attribute dicts and bundles are maps.
- Search-radius bounds (0.1–25.0 km) and the float coercion of the radius are not modelled.
- The service-info update interval is not modelled. `config_flow.py` imports `CONF_UPDATE_INTERVAL_SERVICE_INFO` and its default, but `const.py` does not define them.
- `CONF_API_KEY` and `CONF_STATION_IDS` are also missing from `const.py`. The model uses the record fields `apiKey` and `stationIds` for them.
- ConfigFlow.OptionsFlow.constructor: the `except` branch that resets both lists is not modelled. With typed entries, `list(...)` of a list cannot raise.
- Entry data: only the keys the integration reads are kept. Other keys of `options` are not carried by `dict(options)` in the model.
- The description placeholders of the menu forms (the rendered lists) and the form schemas are not modelled. The selection offered by the remove forms is not modelled either.
- The bundle keys `cheapest_stations`, `user_nearest_stations` and `stations_by_id` are read by `sensor.py` but never written by `coordinator.py`. The sensors that read them are modelled over an arbitrary bundle.
- SensorSetup.SetupSensors: the user locations and station IDs are parameters. `sensor.py` reads them from coordinator attributes that `coordinator.py` does not define.
- A non-string entity ID in the setup data is not modelled. The location entities of `EntryData` are strings, as the entity selectors deliver them.
- The constants `Domain`, `DefaultPetrolType` and `PetrolTypes` are declared in `const.dfy` but no proof uses them.

/** The integration's fixed names, defaults and type tables. */
module Const {

  const Domain: string := "isal_easy_homey"

  /** Default settings offered by the configuration forms. */
  const DefaultApiBaseUrl: string := "http://192.168.178.31:8080/v1"
  const DefaultWarningCellId: string := "809177119"
  const DefaultSearchRadius: real := 15.0
  const DefaultPetrolType: string := "E5"

  /** Default polling intervals, in minutes. */
  const DefaultIntervalPetrol: int := 5
  const DefaultIntervalWeather: int := 10
  const DefaultIntervalPollen: int := 30
  const DefaultIntervalWaste: int := 30

  /** The fuel kinds the REST API prices. */
  const PetrolTypes: seq<string> := ["E5", "E10", "DIESEL"]

  /** Pollen kinds as (API name, entity name), in the declared order. */
  const PollenTypes: seq<(string, string)> := [
    ("ALDER", "alder"), ("AMBROSIA", "ambrosia"), ("ASH_TREE", "ash_tree"), ("BIRCH", "birch"),
    ("GRASSES", "grasses"), ("HAZEL", "hazel"), ("MUGWORT", "mugwort"), ("RYE", "rye")
  ]

  /** Waste kinds as (API name, entity name), in the declared order. */
  const WasteTypes: seq<(string, string)> := [
    ("PAPER", "paper"), ("BIO", "bio"), ("GENERAL", "general"), ("YELLOW_BAG", "yellow_bag"),
    ("PROBLEM", "problem")
  ]

  /** The two warning kinds the weather coordinator requests. */
  const WarningTypeWarning: string := "WARNING"
  const WarningTypeUpfront: string := "UPFRONT_INFORMATION"

  /** A named person-tracker entity that gets its own "nearest station" sensor. */
  datatype UserLocation = UserLocation(name: string, entityId: string)
}

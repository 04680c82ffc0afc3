/** GeoJSON feature records: a geometry and a loosely typed property map. */
module Properties {
  import opened Orb

  newtype int32 = x: int | -0x8000_0000 <= x < 0x8000_0000

  /** The dynamic Go value stored under a property key. `Null` is the nil
      interface (a JSON null); a missing key reads as `Null` too. */
  datatype Value =
    | Null
    | Str(s: string)
    | Float64(f: real)
    | Int32(n: int32)
    | Bool(b: bool)

  datatype Feature = Feature(geometry: Geometry, properties: map<string, Value>)

  const KeyName := "NAME"
  const KeyAbbrev := "ST"
  const KeyStateNumber := "STATE"
  const KeyStateName := "STATE_NAME"
  const KeyHouseUnits := "HOUSEUNITS"
  const KeyCommunityId := "Community_ID"

  /** The value under `key`; Go's map read yields nil for a missing key. */
  function Get(f: Feature, key: string): Value {
    if key in f.properties then f.properties[key] else Null
  }

  /** `f.Properties[key] != nil` */
  predicate Has(f: Feature, key: string) {
    Get(f, key) != Null
  }

  /** `f.Properties[key].(string)` would succeed. */
  predicate IsString(f: Feature, key: string) {
    Get(f, key).Str?
  }

  function StringOf(f: Feature, key: string): string
    requires IsString(f, key)
  {
    Get(f, key).s
  }

  predicate IsFloat64(f: Feature, key: string) {
    Get(f, key).Float64?
  }

  predicate IsInt32(f: Feature, key: string) {
    Get(f, key).Int32?
  }
}

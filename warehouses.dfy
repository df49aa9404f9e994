/*
 * models/warehouse/warehouse.model.js: getAvailableCapacity and
 * findAvailableLocation. The four random digits of a location are the
 * parameters of the lookup. A product's storage temperature is a JavaScript
 * value: the product schema (models/product/product.model.js) stores one of
 * the names 'frozen', 'refrigerated' and 'room_temperature', which the
 * zone's numeric bounds compare against as NaN.
 */
module Warehouses {
  import opened Common

  /** An amount with its unit. */
  datatype Capacity = Capacity(value: real, unit: string)

  /** getAvailableCapacity: total minus used, in the total's unit. */
  function AvailableCapacity(total: Capacity, used: Capacity): Capacity
  {
    Capacity(total.value - used.value, total.unit)
  }

  /**
   * The used amount plus what is available is the total, whatever unit the
   * used amount is recorded in, and an overfull warehouse reports a negative
   * amount instead of 0.
   */
  lemma AvailableCapacityMeaning(total: Capacity, used: Capacity)
    ensures AvailableCapacity(total, used).value + used.value == total.value
    ensures AvailableCapacity(total, used).unit == total.unit
    ensures AvailableCapacity(total, used).value < 0.0 <==> used.value > total.value
  {
  }

  /** A storage temperature as the product carries it: a number, or a name from the product schema. */
  datatype Temperature = Degrees(t: real) | Named(name: string)

  predicate TruthyTemperature(t: Option<Temperature>)
  {
    match t
    case None => false
    case Some(Degrees(d)) => d != 0.0
    case Some(Named(n)) => n != ""
  }

  /** JavaScript `temp < bound`: false against a missing bound, and for a name (NaN against a number). */
  predicate Below(t: Temperature, bound: Option<real>)
  {
    t.Degrees? && bound.Some? && t.t < bound.value
  }

  /** JavaScript `temp > bound`. */
  predicate Above(t: Temperature, bound: Option<real>)
  {
    t.Degrees? && bound.Some? && t.t > bound.value
  }

  datatype Zone = Zone(
    code: string,
    total: Option<real>,
    used: Option<real>,
    minTemp: Option<real>,
    maxTemp: Option<real>,
    restrictions: seq<string>)

  /** What findAvailableLocation reads of the product. */
  datatype Product = Product(temperature: Option<Temperature>, restrictions: Option<seq<string>>)

  /** The predicate of zones.find. */
  predicate Suitable(z: Zone, p: Product)
  {
    !(TruthyTemperature(p.temperature) &&
      (Below(p.temperature.value, z.minTemp) || Above(p.temperature.value, z.maxTemp))) &&
    (p.restrictions.Some? ==> forall r :: r in p.restrictions.value ==> r in z.restrictions)
  }

  /** `used >= total`: false when either is missing. */
  predicate Full(z: Zone)
  {
    z.used.Some? && z.total.Some? && z.used.value >= z.total.value
  }

  datatype Location = Location(zone: string, aisle: string, rack: string, shelf: string, bin: string)

  /** The letter followed by one random decimal digit. */
  function Slot(letter: char, digit: nat): string
    requires digit < 10
  {
    [letter, ('0' as int + digit) as char]
  }

  /** findAvailableLocation, given the zone predicate; a, r, s and b are the random digits. */
  function LocateWith(zones: seq<Zone>, suits: Zone -> bool, a: nat, r: nat, s: nat, b: nat): Option<Location>
    requires a < 10 && r < 10 && s < 10 && b < 10
  {
    var i := FindIndex(zones, suits);
    if i < 0 then None
    else if Full(zones[i]) then None
    else Some(Location(zones[i].code, Slot('A', a), Slot('R', r), Slot('S', s), Slot('B', b)))
  }

  function FindAvailableLocation(zones: seq<Zone>, p: Product, a: nat, r: nat, s: nat, b: nat): Option<Location>
    requires a < 10 && r < 10 && s < 10 && b < 10
  {
    LocateWith(zones, (z: Zone) => Suitable(z, p), a, r, s, b)
  }

  /**
   * Only the first suitable zone is considered: a location names that zone
   * when it has room, and there is none when no zone suits or the first one
   * that does is full, even if a later suitable zone has room.
   */
  lemma LocationIsFirstSuitableZone(zones: seq<Zone>, p: Product, a: nat, r: nat, s: nat, b: nat)
    requires a < 10 && r < 10 && s < 10 && b < 10
    ensures var loc := FindAvailableLocation(zones, p, a, r, s, b);
            var i := FindIndex(zones, (z: Zone) => Suitable(z, p));
            (loc.None? <==> i < 0 || Full(zones[i])) &&
            (loc.Some? ==> Suitable(zones[i], p) && !Full(zones[i]) && loc.value.zone == zones[i].code &&
                           (forall j :: 0 <= j < i ==> !Suitable(zones[j], p)) &&
                           |loc.value.aisle| == 2 && loc.value.aisle[0] == 'A' && '0' <= loc.value.aisle[1] <= '9')
  {
  }

  /** A full first suitable zone hides a later one with room. */
  lemma FullFirstZoneHidesLaterOnes()
    ensures var p := Product(None, None);
            var zones := [Zone("Z1", Some(10.0), Some(10.0), None, None, []), Zone("Z2", Some(10.0), Some(0.0), None, None, [])];
            FindAvailableLocation(zones, p, 0, 0, 0, 0) == None && Suitable(zones[1], p) && !Full(zones[1])
  {
    var p := Product(None, None);
    var zones := [Zone("Z1", Some(10.0), Some(10.0), None, None, []), Zone("Z2", Some(10.0), Some(0.0), None, None, [])];
    assert Suitable(zones[0], p);
  }

  /**
   * As written, a named temperature, which is what a stored product
   * carries, never rules a zone out: a frozen product is placed in the first
   * zone that has room, a 15 to 25 degree zone included.
   */
  lemma NamedTemperatureIgnoredAsWritten(z: Zone, name: string)
    ensures Suitable(z, Product(Some(Named(name)), None))
    ensures FindAvailableLocation([Zone("AMB", None, None, Some(15.0), Some(25.0), []),
                                   Zone("FRZ", None, None, Some(-25.0), Some(-15.0), [])],
                                  Product(Some(Named("frozen")), None), 0, 0, 0, 0)
            == Some(Location("AMB", "A0", "R0", "S0", "B0"))
  {
    var zones := [Zone("AMB", None, None, Some(15.0), Some(25.0), []), Zone("FRZ", None, None, Some(-25.0), Some(-15.0), [])];
    assert Suitable(zones[0], Product(Some(Named("frozen")), None));
  }

  /** The zone predicate with the temperature given in degrees and checked whenever it is present. */
  predicate SuitableCorrected(z: Zone, degrees: Option<real>, restrictions: Option<seq<string>>)
  {
    (degrees.Some? ==> (z.minTemp.Some? ==> z.minTemp.value <= degrees.value) &&
                       (z.maxTemp.Some? ==> degrees.value <= z.maxTemp.value)) &&
    (restrictions.Some? ==> forall r :: r in restrictions.value ==> r in z.restrictions)
  }

  function FindAvailableLocationCorrected(zones: seq<Zone>, degrees: Option<real>, restrictions: Option<seq<string>>,
                                          a: nat, r: nat, s: nat, b: nat): Option<Location>
    requires a < 10 && r < 10 && s < 10 && b < 10
  {
    LocateWith(zones, (z: Zone) => SuitableCorrected(z, degrees, restrictions), a, r, s, b)
  }

  /** Corrected: a returned location is in a zone whose bounds hold the temperature, 0 degrees included. */
  lemma CorrectedLocationHoldsTemperature(zones: seq<Zone>, degrees: Option<real>, restrictions: Option<seq<string>>,
                                          a: nat, r: nat, s: nat, b: nat)
    requires a < 10 && r < 10 && s < 10 && b < 10
    ensures var loc := FindAvailableLocationCorrected(zones, degrees, restrictions, a, r, s, b);
            loc.Some? ==> exists k :: 0 <= k < |zones| && zones[k].code == loc.value.zone && !Full(zones[k]) &&
                                      SuitableCorrected(zones[k], degrees, restrictions)
    ensures var loc := FindAvailableLocationCorrected([Zone("AMB", None, None, Some(15.0), Some(25.0), []),
                                                       Zone("FRZ", None, None, Some(-25.0), Some(-15.0), [])],
                                                      Some(-18.0), None, 0, 0, 0, 0);
            loc == Some(Location("FRZ", "A0", "R0", "S0", "B0"))
  {
    var zones := [Zone("AMB", None, None, Some(15.0), Some(25.0), []), Zone("FRZ", None, None, Some(-25.0), Some(-15.0), [])];
    assert !SuitableCorrected(zones[0], Some(-18.0), None);
    assert SuitableCorrected(zones[1], Some(-18.0), None);
  }
}

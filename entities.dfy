/**
 * The eight GTFS record types and the `ItemType` enumeration that tags them
 * (gtfs.go). Records are plain values; the relations between them are string
 * foreign keys that nothing checks at write time.
 */
module Entities {
  import opened Text

  /** A Go `float64`, carried as its IEEE-754 bits; the core never computes with it. */
  datatype Float64 = Float64(bits: bv64)

  datatype Agency = Agency(id: string, name: string, url: string)

  datatype Route = Route(id: string, agencyId: string, shortName: string, longName: string, routeType: int)

  datatype Trip = Trip(id: string, name: string, routeId: string, serviceId: string, directionId: string, shapeId: string)

  /** Departure and arrival are seconds since midnight (see TimeCodec); `id` is the surrogate key. */
  datatype StopTime = StopTime(id: nat, stopId: string, tripId: string, departure: int, arrival: int, stopSeq: int)

  datatype Stop = Stop(id: string, name: string, latitude: Float64, longitude: Float64)

  /** One point of a shape; `shapeId` groups the points and is not unique. */
  datatype Shape = Shape(id: nat, shapeId: string, ptLat: Float64, ptLon: Float64, ptSequence: int)

  datatype Calendar = Calendar(
    id: nat, serviceId: string,
    monday: int, tuesday: int, wednesday: int, thursday: int, friday: int, saturday: int, sunday: int,
    startDate: string, endDate: string)

  datatype CalendarDate = CalendarDate(id: nat, serviceId: string, date: string, exceptionType: int)

  /** `ItemType` is a Go `uint32`: any 32-bit value can occur, eight of them are named. */
  type ItemType = x: int | 0 <= x < 0x1_0000_0000

  const Agencies: ItemType := 0
  const Routes: ItemType := 1
  const Trips: ItemType := 2
  const Stops: ItemType := 3
  const StopTimes: ItemType := 4
  const Shapes: ItemType := 5
  const Calendars: ItemType := 6
  const CalendarDates: ItemType := 7

  /** The `txItemType` table: the display name of each named kind. */
  const KindNames: seq<string> :=
    ["Agencies", "Routes", "Trips", "Stops", "Stop Times", "Shapes", "Calendars", "Calendar Dates"]

  /** The kinds the table names, `Agencies` to `CalendarDates`. */
  predicate IsKnownKind(it: ItemType) {
    it <= CalendarDates
  }

  const UnknownPrefix: string := "Unknown Status ("

  /** `ItemType.String`: the table's name, or "Unknown Status (n)" for a value the table lacks. */
  function ItemTypeString(it: ItemType): (s: string)
    ensures s != []
    ensures IsKnownKind(it) <==> s[0] != 'U'
  {
    if IsKnownKind(it) then KindNames[it] else UnknownPrefix + Decimal(it) + ")"
  }

  /** Distinct kinds print differently, so a printed kind identifies the value. */
  lemma ItemTypeStringInjective(a: ItemType, b: ItemType)
    requires ItemTypeString(a) == ItemTypeString(b)
    ensures a == b
  {
    if !IsKnownKind(a) && !IsKnownKind(b) {
      var sa, sb := ItemTypeString(a), ItemTypeString(b);
      var n := |UnknownPrefix|;
      assert |Decimal(a)| == |sa| - n - 1 == |Decimal(b)|;
      assert Decimal(a) == sa[n..|sa| - 1];
      assert Decimal(b) == sb[n..|sb| - 1];
    }
  }
}

/** The arrival record exchanged with clients, and the vehicle type printer with its inverse. */
module ArrivalTypes {
  import CStrings

  const LINE_MAX_LEN := 8
  const DESTINATION_MAX_LEN := 64
  const DEPARTURE_TIME_MAX_LEN := 16

  datatype VehicleType =
    | Unknown | Bus | Tram | Trolleybus | Metro | SuburbRail | Rail | Ferry | CableCar
    | Funicular | Gondola | Coach | Bicycle | Car | Walk | Local | Transit

  datatype Arrival = Arrival(
    lineId: seq<char>,
    vehicleType: VehicleType,
    destination: seq<char>,
    departureTime: seq<char>,
    departsInMin: int,
    timestamp: int)

  /** A zero-initialised `Arrival`. */
  const EMPTY_ARRIVAL := Arrival(CStrings.Zeros(LINE_MAX_LEN), Unknown, CStrings.Zeros(DESTINATION_MAX_LEN),
                                 CStrings.Zeros(DEPARTURE_TIME_MAX_LEN), 0, 0)

  /** The C `std::vector<Arrival>` that functions fill through a pointer. */
  class ArrivalVector {
    var items: seq<Arrival>

    constructor ()
      ensures items == []
    {
      items := [];
    }
  }

  function VehicleTypeToString(t: VehicleType): CStrings.CStr {
    match t
    case Bus => "BUS"
    case Tram => "TRAM"
    case Trolleybus => "TROLLEYBUS"
    case Metro => "SUBWAY"
    case SuburbRail => "SUBURBAN_RAILWAY"
    case Rail => "RAIL"
    case Ferry => "FERRY"
    case CableCar => "CABLE_CAR"
    case Funicular => "FUNICULAR"
    case Gondola => "GONDOLA"
    case Coach => "COACH"
    case Bicycle => "BICYCLE"
    case Car => "CAR"
    case Walk => "WALK"
    case Local => "LOCAL"
    case Transit => "TRANSIT"
    case Unknown => "UNKNOWN"
  }

  function VehicleTypeOfName(s: string): VehicleType {
    if s == "BUS" then Bus
    else if s == "TRAM" then Tram
    else if s == "TROLLEYBUS" then Trolleybus
    else if s == "SUBWAY" then Metro
    else if s == "SUBURBAN_RAILWAY" then SuburbRail
    else if s == "RAIL" then Rail
    else if s == "FERRY" then Ferry
    else if s == "CABLE_CAR" then CableCar
    else if s == "FUNICULAR" then Funicular
    else if s == "GONDOLA" then Gondola
    else if s == "COACH" then Coach
    else if s == "BICYCLE" then Bicycle
    else if s == "CAR" then Car
    else if s == "WALK" then Walk
    else if s == "LOCAL" then Local
    else if s == "TRANSIT" then Transit
    else Unknown
  }

  /** The names that upstream uses, in the order of the enumeration; with the round trip they fix the
      parser as well. */
  lemma NamesOfTypes()
    ensures VehicleTypeToString(Bus) == "BUS" && VehicleTypeToString(Tram) == "TRAM"
    ensures VehicleTypeToString(Trolleybus) == "TROLLEYBUS" && VehicleTypeToString(Metro) == "SUBWAY"
    ensures VehicleTypeToString(SuburbRail) == "SUBURBAN_RAILWAY" && VehicleTypeToString(Rail) == "RAIL"
    ensures VehicleTypeToString(Ferry) == "FERRY" && VehicleTypeToString(CableCar) == "CABLE_CAR"
    ensures VehicleTypeToString(Funicular) == "FUNICULAR" && VehicleTypeToString(Gondola) == "GONDOLA"
    ensures VehicleTypeToString(Coach) == "COACH" && VehicleTypeToString(Bicycle) == "BICYCLE"
    ensures VehicleTypeToString(Car) == "CAR" && VehicleTypeToString(Walk) == "WALK"
    ensures VehicleTypeToString(Local) == "LOCAL" && VehicleTypeToString(Transit) == "TRANSIT"
    ensures VehicleTypeToString(Unknown) == "UNKNOWN"
  {
  }

  lemma EmptyArrivalIsZero()
    ensures var a := EMPTY_ARRIVAL;
            && |a.lineId| == 8 && |a.destination| == 64 && |a.departureTime| == 16
            && (forall c | c in a.lineId + a.destination + a.departureTime :: c == '\0')
            && a.vehicleType == Unknown && a.departsInMin == 0 && a.timestamp == 0
  {
  }

  lemma ParsedNamePrintsBack(s: string)
    ensures VehicleTypeOfName(s) != Unknown ==> VehicleTypeToString(VehicleTypeOfName(s)) == s
  {
  }

  lemma PrintedNameParsesBack(t: VehicleType)
    ensures VehicleTypeOfName(VehicleTypeToString(t)) == t
  {
    if IsOnRails(t) {
      RailNameParsesBack(t);
    } else {
      OtherNameParsesBack(t);
    }
  }

  predicate IsOnRails(t: VehicleType) {
    t.Tram? || t.Metro? || t.SuburbRail? || t.Rail? || t.CableCar? || t.Funicular? || t.Gondola?
  }

  lemma RailNameParsesBack(t: VehicleType)
    requires IsOnRails(t)
    ensures VehicleTypeOfName(VehicleTypeToString(t)) == t
  {
  }

  lemma OtherNameParsesBack(t: VehicleType)
    requires !IsOnRails(t)
    ensures VehicleTypeOfName(VehicleTypeToString(t)) == t
  {
  }

  /** Parsing inverts printing on every type, and printing inverts parsing on exactly the
      names that some type prints as; every other string becomes "UNKNOWN". */
  lemma VehicleNamesRoundTrip(t: VehicleType, s: string)
    ensures VehicleTypeOfName(VehicleTypeToString(t)) == t
    ensures VehicleTypeToString(VehicleTypeOfName(s))
         == if exists u :: VehicleTypeToString(u) == s then s else "UNKNOWN"
  {
    PrintedNameParsesBack(t);
    ParsedNamePrintsBack(s);
    if u: VehicleType :| VehicleTypeToString(u) == s {
      PrintedNameParsesBack(u);
    }
  }
}

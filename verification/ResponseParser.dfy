/** `parse_arrivals_response`: from a JSON tree to a list of arrivals and a status. */
module ResponseParser {
  import opened Options
  import opened CStrings
  import opened ArrivalTypes
  import Rounding
  import opened Json

  datatype ParseStatus =
    | Success | SuccessWithWarnings | InvalidJson | RootNotObject | MissingDataObject
    | MissingEntryObject | StopTimesNotArray | EmptyStopTimes | NoValidStopTimes

  /** The HH:MM text of a time stamp: time zones and `localtime` are not modelled. */
  type Clock = int -> CStr

  // ---------------------------------------------------------------- the chained lookups

  function FindRouteIdForTrip(tripId: CStr, references: Option<Value>): CStr {
    if references.None? then "" else
    var trips := Get(references, "trips");
    if !IsObject(trips) then "" else
    var trip := Get(trips, tripId);
    if !IsObject(trip) then "" else
    var routeId := Get(trip, "routeId");
    if IsString(routeId) then routeId.value.s else ""
  }

  function FindRouteNameForRouteId(routeId: CStr, references: Option<Value>): CStr {
    if references.None? || routeId == "" then "" else
    var routes := Get(references, "routes");
    if !IsObject(routes) then "" else
    var route := Get(routes, routeId);
    if !IsObject(route) then "" else
    var shortName := Get(route, "shortName");
    if IsString(shortName) then shortName.value.s else ""
  }

  function FindTypeForRouteId(routeId: CStr, references: Option<Value>): VehicleType {
    if references.None? || routeId == "" then Unknown else
    var routes := Get(references, "routes");
    if !IsObject(routes) then Unknown else
    var route := Get(routes, routeId);
    if !IsObject(route) then Unknown else
    var typeItem := Get(route, "type");
    if IsString(typeItem) then VehicleTypeOfName(typeItem.value.s) else Unknown
  }

  // ---------------------------------------------------------------- specification

  function RouteId(tripId: CStr, references: Option<Value>): CStr {
    TextAt(references, ["trips", tripId, "routeId"]).GetOr("")
  }

  function RouteText(routeId: CStr, field: string, references: Option<Value>): CStr {
    if routeId == "" then "" else TextAt(references, ["routes", routeId, field]).GetOr("")
  }

  /** The first non-empty one of short name, route id and "n.a.". */
  function LineText(tripId: CStr, references: Option<Value>): CStr {
    var routeId := RouteId(tripId, references);
    var name := RouteText(routeId, "shortName", references);
    if name != "" then name else if routeId != "" then routeId else "n.a."
  }

  function DestinationText(tripId: CStr, references: Option<Value>): CStr {
    if tripId == "" then "?" else TextAt(references, ["trips", tripId, "tripHeadsign"]).GetOr("?")
  }

  function TripId(stopTime: Value): CStr {
    TextAt(Some(stopTime), ["tripId"]).GetOr("")
  }

  function NumberAt(v: Option<Value>, key: string): Option<real> {
    var item := Get(v, key);
    if IsNumber(item) then Some(item.value.n) else None
  }

  /** The predicted arrival wins over the scheduled one whenever it is numeric. */
  function Departure(stopTime: Value): Option<int> {
    var predicted := NumberAt(Some(stopTime), "predictedArrivalTime");
    var scheduled := NumberAt(Some(stopTime), "arrivalTime");
    if predicted.Some? then Some(Rounding.Truncate(predicted.value))
    else if scheduled.Some? then Some(Rounding.Truncate(scheduled.value))
    else None
  }

  predicate Usable(stopTime: Value) {
    Departure(stopTime).Some?
  }

  /** What one usable stop time is turned into. */
  function Image(clock: Clock, apiTime: real, references: Option<Value>, stopTime: Value): Arrival
    requires Usable(stopTime)
  {
    var tripId := TripId(stopTime);
    var departure := Departure(stopTime).value;
    Arrival(
      BufferOf(LineText(tripId, references), LINE_MAX_LEN),
      VehicleTypeOfName(RouteText(RouteId(tripId, references), "type", references)),
      BufferOf(DestinationText(tripId, references), DESTINATION_MAX_LEN),
      BufferOf(clock(departure), DEPARTURE_TIME_MAX_LEN),
      Rounding.Minutes(departure, apiTime),
      departure)
  }

  /** Filter the usable stop times, then map each to its image. */
  function Images(clock: Clock, apiTime: real, references: Option<Value>, stopTimes: seq<Value>): (r: seq<Arrival>)
    ensures |r| <= |stopTimes|
  {
    if stopTimes == [] then [] else
    var last := stopTimes[|stopTimes| - 1];
    Images(clock, apiTime, references, stopTimes[..|stopTimes| - 1])
    + if Usable(last) then [Image(clock, apiTime, references, last)] else []
  }

  function ApiTime(body: Option<Value>): real {
    NumberAt(body, "currentTime").GetOr(0.0) / 1000.0
  }

  function StopTimesValue(body: Option<Value>): Option<Value> {
    At(body, ["data", "entry", "stopTimes"])
  }

  /** The stop times the loop visits: the array size is held in an `int`. */
  function Visited(items: seq<Value>): (v: seq<Value>)
    ensures |v| <= INT_MAX
    ensures |items| <= INT_MAX ==> v == items
  {
    var n := AsInt32(|items|);
    if n < 0 then [] else items[..n]
  }

  /** What the stages before the loop find: a missing piece, or the inputs of the loop. */
  datatype Located =
    | Missing(status: ParseStatus)
    | Found(apiTime: real, references: Option<Value>, items: seq<Value>)

  function Locate(body: Option<Value>): Located {
    if body.None? then Missing(InvalidJson)
    else if !IsObject(body) then Missing(RootNotObject)
    else if !IsObject(At(body, ["data"])) then Missing(MissingDataObject)
    else if !IsObject(At(body, ["data", "entry"])) then Missing(MissingEntryObject)
    else if !IsArray(StopTimesValue(body)) then Missing(StopTimesNotArray)
    else Found(ApiTime(body), At(body, ["data", "references"]), StopTimesValue(body).value.items)
  }

  /** Status and output for a parsed body (`None` when the text is not JSON). */
  function Parse(clock: Clock, body: Option<Value>): (ParseStatus, seq<Arrival>) {
    match Locate(body)
    case Missing(status) => (status, [])
    case Found(apiTime, references, items) => Convert(clock, apiTime, references, items)
  }

  /** Status and output once a stop-times array was found. */
  function Convert(clock: Clock, apiTime: real, references: Option<Value>, items: seq<Value>)
    : (ParseStatus, seq<Arrival>)
  {
    var output := Images(clock, apiTime, references, Visited(items));
    if AsInt32(|items|) == 0 then (EmptyStopTimes, output)
    else if output == [] then (NoValidStopTimes, output)
    else if |output| < |Visited(items)| then (SuccessWithWarnings, output)
    else (Success, output)
  }

  predicate IsSuccessfulParseStatus(status: ParseStatus) {
    status == Success || status == SuccessWithWarnings
  }

  // ---------------------------------------------------------------- the staged lookups follow the paths

  lemma LookupsFollowPaths(tripId: CStr, routeId: CStr, references: Option<Value>)
    ensures FindRouteIdForTrip(tripId, references) == RouteId(tripId, references)
    ensures FindRouteNameForRouteId(routeId, references) == RouteText(routeId, "shortName", references)
    ensures FindTypeForRouteId(routeId, references)
         == VehicleTypeOfName(RouteText(routeId, "type", references))
  {
    AtSteps(references, "trips", tripId, "routeId");
    AtSteps(references, "routes", routeId, "shortName");
    AtSteps(references, "routes", routeId, "type");
  }

  // ---------------------------------------------------------------- the program

  /** Loop body of the parser: the arrival for one stop time, or `None` if it is skipped. */
  method ConvertStopTime(clock: Clock, apiTime: real, references: Option<Value>, stopTime: Value)
    returns (result: Option<Arrival>)
    ensures result == if Usable(stopTime) then Some(Image(clock, apiTime, references, stopTime)) else None
    ensures IsArrivalTime(if result.Some? then Some(result.value.timestamp) else None, stopTime)
  {
    AtOne(Some(stopTime), "tripId");
    TimestampIsPredictedElseScheduled(clock, apiTime, references, stopTime);
    if !stopTime.JObject? {
      return None;
    }
    var tripId: CStr := "";
    var tripIdItem := Get(Some(stopTime), "tripId");
    if IsString(tripIdItem) {
      tripId := tripIdItem.value.s;
    }
    var line, vehicleType := FindRoute(tripId, references);

    var departure := 0;
    var predicted := Get(Some(stopTime), "predictedArrivalTime");
    var scheduled := Get(Some(stopTime), "arrivalTime");
    if IsNumber(predicted) {
      departure := Rounding.Truncate(predicted.value.n);
    } else if IsNumber(scheduled) {
      departure := Rounding.Truncate(scheduled.value.n);
    } else {
      return None;
    }

    var destination := FindDestination(tripId, references);
    var arrival := FillArrival(line, vehicleType, destination, clock(departure),
                               Rounding.Minutes(departure, apiTime), departure);
    result := Some(arrival);
  }

  method FindRoute(tripId: CStr, references: Option<Value>) returns (line: CStr, vehicleType: VehicleType)
    ensures line == LineText(tripId, references)
    ensures var route := TextAt(references, ["trips", tripId, "routeId"]).GetOr("");
            var name := TextAt(references, ["routes", route, "shortName"]).GetOr("");
            line == if route == "" then "n.a." else if name != "" then name else route
    ensures vehicleType == VehicleTypeOfName(RouteText(RouteId(tripId, references), "type", references))
  {
    var routeId := FindRouteIdForTrip(tripId, references);
    line := FindRouteNameForRouteId(routeId, references);
    vehicleType := FindTypeForRouteId(routeId, references);
    LookupsFollowPaths(tripId, routeId, references);
    if line == "" {
      line := if routeId != "" then routeId else "n.a.";
    }
  }

  method FillArrival(line: CStr, vehicleType: VehicleType, destination: CStr, time: CStr,
                     minutes: int, timestamp: int) returns (arrival: Arrival)
    ensures arrival == Arrival(BufferOf(line, LINE_MAX_LEN), vehicleType,
                               BufferOf(destination, DESTINATION_MAX_LEN),
                               BufferOf(time, DEPARTURE_TIME_MAX_LEN), minutes, timestamp)
  {
    var lineId := new char[LINE_MAX_LEN];
    FillBuffer(lineId, line);
    var destinationBuffer := new char[DESTINATION_MAX_LEN];
    FillBuffer(destinationBuffer, destination);
    var timeBuffer := new char[DEPARTURE_TIME_MAX_LEN];
    FillBuffer(timeBuffer, time);
    arrival := Arrival(lineId[..], vehicleType, destinationBuffer[..], timeBuffer[..], minutes, timestamp);
  }

  method FindDestination(tripId: CStr, references: Option<Value>) returns (destination: CStr)
    ensures destination == DestinationText(tripId, references)
  {
    AtSteps(references, "trips", tripId, "tripHeadsign");
    destination := "?";
    var trips := if IsObject(references) then Get(references, "trips") else None;
    if IsObject(trips) && tripId != "" {
      var trip := Get(trips, tripId);
      if IsObject(trip) {
        var headsign := Get(trip, "tripHeadsign");
        if IsString(headsign) {
          destination := headsign.value.s;
        }
      }
    }
  }

  method ParseArrivalsResponse(clock: Clock, body: Option<Value>, output: ArrivalVector?)
    returns (status: ParseStatus)
    modifies output
    ensures output == null ==> status == NoValidStopTimes
    ensures output != null ==> (status, output.items) == Parse(clock, body)
  {
    if output == null {
      return NoValidStopTimes;
    }
    output.items := [];
    var located := LocateStopTimes(body);
    if located.Missing? {
      return located.status;
    }
    if AsInt32(|located.items|) == 0 {
      return EmptyStopTimes;
    }
    var skipped := ConvertStopTimes(clock, located.apiTime, located.references, located.items, output);
    if output.items == [] {
      return NoValidStopTimes;
    }
    if skipped > 0 {
      return SuccessWithWarnings;
    }
    return Success;
  }

  /** The staged early exits of the parser. */
  method LocateStopTimes(body: Option<Value>) returns (located: Located)
    ensures located == Locate(body)
  {
    if body == None {
      return Missing(InvalidJson);
    }
    if !IsObject(body) {
      return Missing(RootNotObject);
    }
    AtSteps(body, "data", "entry", "stopTimes");
    AtTwo(body, "data", "references");
    var data := Get(body, "data");
    if !IsObject(data) {
      return Missing(MissingDataObject);
    }
    var entry := Get(data, "entry");
    if !IsObject(entry) {
      return Missing(MissingEntryObject);
    }
    var currentTime := Get(body, "currentTime");
    var apiTime := if IsNumber(currentTime) then currentTime.value.n / 1000.0 else 0.0;
    var stopTimes := Get(entry, "stopTimes");
    if !IsArray(stopTimes) {
      return Missing(StopTimesNotArray);
    }
    return Found(apiTime, Get(data, "references"), stopTimes.value.items);
  }

  /** The skipping loop of the parser. */
  method ConvertStopTimes(clock: Clock, apiTime: real, references: Option<Value>, items: seq<Value>,
                          output: ArrivalVector) returns (skipped: int)
    requires output.items == []
    modifies output
    ensures output.items == Images(clock, apiTime, references, Visited(items))
    ensures skipped + |output.items| == |Visited(items)|
  {
    skipped := 0;
    var count := AsInt32(|items|);
    var i := 0;
    while i < count
      invariant 0 <= i && (i <= count || i == 0)
      invariant output.items == Images(clock, apiTime, references, items[..i])
      invariant skipped + |output.items| == i
    {
      assert items[..i + 1][..i] == items[..i];
      var arrival := ConvertStopTime(clock, apiTime, references, items[i]);
      if arrival.None? {
        skipped := skipped + 1;
      } else {
        output.items := output.items + [arrival.value];
      }
      i := i + 1;
    }
    assert items[..i] == Visited(items);
  }

  // ---------------------------------------------------------------- what the output is

  /** Positions of the usable stop times, in order. */
  function Positions(stopTimes: seq<Value>): (p: seq<nat>) {
    if stopTimes == [] then [] else
    var n := |stopTimes| - 1;
    Positions(stopTimes[..n]) + if Usable(stopTimes[n]) then [n] else []
  }

  lemma {:induction false} PositionsAreTheUsable(stopTimes: seq<Value>)
    ensures var p := Positions(stopTimes);
            && (forall k | 0 <= k < |p| :: p[k] < |stopTimes| && Usable(stopTimes[p[k]]))
            && (forall j, k | 0 <= j < k < |p| :: p[j] < p[k])
            && (forall i | 0 <= i < |stopTimes| && Usable(stopTimes[i]) :: i in p)
  {
    if stopTimes != [] {
      var n := |stopTimes| - 1;
      var init := stopTimes[..n];
      PositionsAreTheUsable(init);
      var p := Positions(init);
      assert forall i | 0 <= i < n :: init[i] == stopTimes[i];
      var all := Positions(stopTimes);
      assert all == if Usable(stopTimes[n]) then p + [n] else p;
      forall i | 0 <= i < |stopTimes| && Usable(stopTimes[i]) ensures i in all {
        if i < n { assert i in p; }
      }
    }
  }

  lemma {:induction false} OutputAt(clock: Clock, apiTime: real, references: Option<Value>, stopTimes: seq<Value>,
                                    k: nat)
    ensures |Images(clock, apiTime, references, stopTimes)| == |Positions(stopTimes)|
    ensures k < |Positions(stopTimes)| ==>
              var position := Positions(stopTimes)[k];
              && position < |stopTimes| && Usable(stopTimes[position])
              && Images(clock, apiTime, references, stopTimes)[k]
                 == Image(clock, apiTime, references, stopTimes[position])
  {
    if stopTimes != [] {
      var n := |stopTimes| - 1;
      var init := stopTimes[..n];
      var p := Positions(init);
      OutputAt(clock, apiTime, references, init, k);
      if k < |p| {
        assert Positions(stopTimes)[k] == p[k] && init[p[k]] == stopTimes[p[k]];
      } else if k < |Positions(stopTimes)| {
        assert Positions(stopTimes)[k] == n;
      }
    }
  }

  /** The output is the order-preserving image of exactly the usable stop times. */
  lemma OutputIsFilterThenMap(clock: Clock, apiTime: real, references: Option<Value>, stopTimes: seq<Value>)
    ensures var out, p := Images(clock, apiTime, references, stopTimes), Positions(stopTimes);
            && |out| == |p|
            && forall k | 0 <= k < |p| :: p[k] < |stopTimes| && Usable(stopTimes[p[k]])
                                       && out[k] == Image(clock, apiTime, references, stopTimes[p[k]])
  {
    OutputAt(clock, apiTime, references, stopTimes, 0);
    var out, p := Images(clock, apiTime, references, stopTimes), Positions(stopTimes);
    forall k | 0 <= k < |p|
      ensures p[k] < |stopTimes| && Usable(stopTimes[p[k]])
           && out[k] == Image(clock, apiTime, references, stopTimes[p[k]])
    {
      OutputAt(clock, apiTime, references, stopTimes, k);
    }
  }

  /** A stop time is usable exactly when it is an object with one numeric time. */
  lemma UsableExactly(stopTime: Value)
    ensures Usable(stopTime) <==>
            stopTime.JObject? && (IsNumber(Get(Some(stopTime), "predictedArrivalTime"))
                               || IsNumber(Get(Some(stopTime), "arrivalTime")))
  {
  }

  ghost predicate AllUsable(items: seq<Value>) { forall v | v in items :: Usable(v) }
  ghost predicate NoneUsable(items: seq<Value>) { forall v | v in items :: !Usable(v) }

  /** The status when a stop-times array was reached depends only on its length and on which
      of the visited entries are usable. */
  ghost predicate ArrayStatus(status: ParseStatus, items: seq<Value>) {
    match status
    case EmptyStopTimes => AsInt32(|items|) == 0
    case NoValidStopTimes => AsInt32(|items|) != 0 && NoneUsable(Visited(items))
    case SuccessWithWarnings => !NoneUsable(Visited(items)) && !AllUsable(Visited(items))
    case Success => Visited(items) != [] && AllUsable(Visited(items))
    case _ => false
  }

  /** The situation that a status stands for. */
  ghost predicate Situation(status: ParseStatus, body: Option<Value>) {
    var data, entry := At(body, ["data"]), At(body, ["data", "entry"]);
    var list := At(body, ["data", "entry", "stopTimes"]);
    match status
    case InvalidJson => body.None?
    case RootNotObject => body.Some? && !IsObject(body)
    case MissingDataObject => IsObject(body) && !IsObject(data)
    case MissingEntryObject => IsObject(data) && !IsObject(entry)
    case StopTimesNotArray => IsObject(entry) && !IsArray(list)
    case _ => IsArray(list) && ArrayStatus(status, list.value.items)
  }

  /** The nine situations are exclusive and exhaustive, and the status names the one at hand;
      only the two successes carry arrivals. */
  lemma StatusClassifies(clock: Clock, body: Option<Value>, status: ParseStatus)
    ensures Parse(clock, body).0 == status <==> Situation(status, body)
    ensures IsSuccessfulParseStatus(Parse(clock, body).0) <==> Parse(clock, body).1 != []
    ensures |Parse(clock, body).1| <= INT_MAX
  {
    AtSteps(body, "data", "entry", "stopTimes");
    var located := Locate(body);
    if located.Found? {
      ArrayStatusClassifies(clock, located.apiTime, located.references, located.items, status);
    }
  }

  /** The parser succeeds exactly when it visits a usable stop time. */
  lemma SuccessExactly(clock: Clock, body: Option<Value>)
    ensures IsSuccessfulParseStatus(Parse(clock, body).0)
       <==> var list := At(body, ["data", "entry", "stopTimes"]);
            IsArray(list) && !NoneUsable(Visited(list.value.items))
  {
    AtSteps(body, "data", "entry", "stopTimes");
    var located := Locate(body);
    if located.Found? {
      CountUsable(clock, located.apiTime, located.references, Visited(located.items));
    }
  }

  lemma ArrayStatusClassifies(clock: Clock, apiTime: real, references: Option<Value>, items: seq<Value>,
                              status: ParseStatus)
    ensures var (st, output) := Convert(clock, apiTime, references, items);
            && (st == status <==> ArrayStatus(status, items))
            && (IsSuccessfulParseStatus(st) <==> output != [])
            && |output| <= INT_MAX
  {
    CountUsable(clock, apiTime, references, Visited(items));
  }

  lemma {:induction false} CountUsable(clock: Clock, apiTime: real, references: Option<Value>, items: seq<Value>)
    ensures Images(clock, apiTime, references, items) == [] <==> NoneUsable(items)
    ensures |Images(clock, apiTime, references, items)| == |items| <==> AllUsable(items)
  {
    if items != [] {
      var n := |items| - 1;
      CountUsable(clock, apiTime, references, items[..n]);
      assert items == items[..n] + [items[n]];
      assert forall v :: v in items <==> v in items[..n] || v == items[n];
    }
  }

  /** What a client reads back from the text fields of an arrival. */
  lemma TextFieldsReadBack(clock: Clock, apiTime: real, references: Option<Value>, stopTime: Value)
    requires Usable(stopTime)
    ensures var a, trip := Image(clock, apiTime, references, stopTime), TripId(stopTime);
            && |a.lineId| == 8 && |a.destination| == 64 && |a.departureTime| == 16
            && ReadBack(a.lineId) == Truncated(LineText(trip, references), 7)
            && ReadBack(a.destination) == Truncated(DestinationText(trip, references), 63)
            && ReadBack(a.departureTime) == Truncated(clock(a.timestamp), 15)
            && ReadBack(a.lineId) != ""
  {
    var trip := TripId(stopTime);
    BufferReadsBack(LineText(trip, references), LINE_MAX_LEN);
    BufferReadsBack(DestinationText(trip, references), DESTINATION_MAX_LEN);
    BufferReadsBack(clock(Departure(stopTime).value), DEPARTURE_TIME_MAX_LEN);
  }

  /** A vehicle type other than `Unknown` prints as the type text of the route, unchanged. */
  lemma VehicleTypePrintsRouteType(clock: Clock, apiTime: real, references: Option<Value>, stopTime: Value)
    requires Usable(stopTime)
    requires Image(clock, apiTime, references, stopTime).vehicleType != Unknown
    ensures TextAt(references, ["routes", RouteId(TripId(stopTime), references), "type"])
         == Some(VehicleTypeToString(Image(clock, apiTime, references, stopTime).vehicleType))
  {
    var route := RouteId(TripId(stopTime), references);
    ParsedNamePrintsBack(RouteText(route, "type", references));
    assert VehicleTypeOfName("") == Unknown;
  }

  // ---------------------------------------------------------------- each field, from the JSON tree

  /** `t` is `x` without its fraction. */
  ghost predicate IsWholePart(t: int, x: real) {
    (0.0 <= t as real <= x < t as real + 1.0) || (t as real - 1.0 < x <= t as real <= 0.0)
  }

  lemma NumbersOfImage(clock: Clock, apiTime: real, references: Option<Value>, stopTime: Value)
    requires Usable(stopTime)
    ensures var a := Image(clock, apiTime, references, stopTime);
            && a.timestamp == Departure(stopTime).value
            && a.departsInMin == Rounding.Minutes(a.timestamp, apiTime)
  {
  }

  /** The predicted arrival if that is a number, else the scheduled one, cut to whole seconds. */
  ghost predicate IsArrivalTime(timestamp: Option<int>, stopTime: Value) {
    match (Get(Some(stopTime), "predictedArrivalTime"), Get(Some(stopTime), "arrivalTime"))
    case (Some(JNumber(x)), _) => timestamp.Some? && IsWholePart(timestamp.value, x)
    case (_, Some(JNumber(x))) => timestamp.Some? && IsWholePart(timestamp.value, x)
    case _ => timestamp.None?
  }

  lemma DepartureIsArrivalTime(stopTime: Value)
    ensures IsArrivalTime(Departure(stopTime), stopTime)
  {
  }

  /** A stop time yields an arrival exactly when one of its times is a number, and the time stamp of the
      arrival is the predicted one if that is a number, else the scheduled one. */
  lemma TimestampIsPredictedElseScheduled(clock: Clock, apiTime: real, references: Option<Value>, stopTime: Value)
    ensures var image := if Usable(stopTime) then Some(Image(clock, apiTime, references, stopTime)) else None;
            IsArrivalTime(if image.Some? then Some(image.value.timestamp) else None, stopTime)
  {
    DepartureIsArrivalTime(stopTime);
    if Usable(stopTime) {
      NumbersOfImage(clock, apiTime, references, stopTime);
    }
  }

  /** The client reads the first 7 bytes of the short name of the route, else of the route id, else
      "n.a.". */
  lemma LineReadsBack(clock: Clock, apiTime: real, references: Option<Value>, stopTime: Value)
    requires Usable(stopTime)
    ensures var line := ReadBack(Image(clock, apiTime, references, stopTime).lineId);
            var trip := TextAt(Some(stopTime), ["tripId"]).GetOr("");
            var route := TextAt(references, ["trips", trip, "routeId"]).GetOr("");
            var name := TextAt(references, ["routes", route, "shortName"]).GetOr("");
            && (route != "" && name != "" ==> line == name[..if |name| < 7 then |name| else 7])
            && (route != "" && name == "" ==> line == route[..if |route| < 7 then |route| else 7])
            && (route == "" ==> line == "n.a.")
  {
    TextFieldsReadBack(clock, apiTime, references, stopTime);
  }

  /** The client reads the first 63 bytes of the headsign of a named trip, else "?". */
  lemma DestinationReadsBack(clock: Clock, apiTime: real, references: Option<Value>, stopTime: Value)
    requires Usable(stopTime)
    ensures var destination := ReadBack(Image(clock, apiTime, references, stopTime).destination);
            var trip := TextAt(Some(stopTime), ["tripId"]).GetOr("");
            var headsign := TextAt(references, ["trips", trip, "tripHeadsign"]);
            if trip != "" && headsign.Some?
            then destination == headsign.value[..if |headsign.value| < 63 then |headsign.value| else 63]
            else destination == "?"
  {
    TextFieldsReadBack(clock, apiTime, references, stopTime);
  }

  /** The vehicle type is the one whose name is the type text of the route of the trip, and
      `Unknown` if there is no such text. */
  lemma VehicleTypeIsRouteType(clock: Clock, apiTime: real, references: Option<Value>, stopTime: Value)
    requires Usable(stopTime)
    ensures var vehicleType := Image(clock, apiTime, references, stopTime).vehicleType;
            var trip := TextAt(Some(stopTime), ["tripId"]).GetOr("");
            var route := TextAt(references, ["trips", trip, "routeId"]).GetOr("");
            var name := TextAt(references, ["routes", route, "type"]).GetOr("");
            vehicleType == if route == "" then Unknown else VehicleTypeOfName(name)
  {
  }

  /** The milliseconds that the answer gives as its time. */
  function CurrentTime(body: Option<Value>): real {
    match Get(body, "currentTime")
    case Some(JNumber(ms)) => ms
    case _ => 0.0
  }

  /** `m` minutes are `seconds` to the nearest minute, halves away from zero. */
  ghost predicate IsNearestMinute(m: int, seconds: real) {
    && -30.0 <= 60.0 * m as real - seconds <= 30.0
    && (60.0 * m as real - seconds == 30.0 ==> seconds > 0.0)
    && (60.0 * m as real - seconds == -30.0 ==> seconds < 0.0)
  }

  lemma MinutesAreNearestMinute(departure: int, apiTime: real)
    ensures IsNearestMinute(Rounding.Minutes(departure, apiTime), departure as real - apiTime)
  {
    Rounding.MinutesAreNearest(departure, apiTime);
  }

  lemma MinutesOfImage(clock: Clock, apiTime: real, references: Option<Value>, stopTime: Value)
    requires Usable(stopTime)
    ensures var a := Image(clock, apiTime, references, stopTime);
            IsNearestMinute(a.departsInMin, a.timestamp as real - apiTime)
  {
    NumbersOfImage(clock, apiTime, references, stopTime);
    MinutesAreNearestMinute(Departure(stopTime).value, apiTime);
  }

  lemma ApiTimeIsCurrentTime(body: Option<Value>)
    ensures ApiTime(body) == CurrentTime(body) / 1000.0
  {
  }

  lemma ParseOfList(clock: Clock, body: Option<Value>, items: seq<Value>)
    requires At(body, ["data", "entry", "stopTimes"]) == Some(JArray(items))
    ensures Parse(clock, body).1 == Images(clock, ApiTime(body), At(body, ["data", "references"]), Visited(items))
  {
    AtSteps(body, "data", "entry", "stopTimes");
  }

  /** What the parser emits for an answer with a list of stop times: the images of its usable stop
      times, made with the references and the time of this answer. */
  lemma OutputOfBody(clock: Clock, body: Option<Value>, items: seq<Value>, k: nat)
    requires At(body, ["data", "entry", "stopTimes"]) == Some(JArray(items))
    ensures |Parse(clock, body).1| == |Positions(Visited(items))|
    ensures k < |Parse(clock, body).1| ==>
              var position := Positions(Visited(items))[k];
              && position < |items| && Usable(items[position])
              && Parse(clock, body).1[k] == Image(clock, CurrentTime(body) / 1000.0, At(body, ["data", "references"]),
                                                  items[position])
  {
    ApiTimeIsCurrentTime(body);
    ParseOfList(clock, body, items);
    OutputAt(clock, ApiTime(body), At(body, ["data", "references"]), Visited(items), k);
  }

  /** Every emitted arrival says how far it is from the time of the answer, to the nearest minute. */
  lemma MinutesOfBody(clock: Clock, body: Option<Value>, k: nat)
    requires k < |Parse(clock, body).1|
    ensures var a := Parse(clock, body).1[k];
            IsNearestMinute(a.departsInMin, a.timestamp as real - CurrentTime(body) / 1000.0)
  {
    ApiTimeIsCurrentTime(body);
    var items := OutputMeansList(clock, body);
    ParseOfList(clock, body, items);
    MinutesOfImages(clock, ApiTime(body), At(body, ["data", "references"]), Visited(items));
  }

  lemma OutputMeansList(clock: Clock, body: Option<Value>) returns (items: seq<Value>)
    requires Parse(clock, body).1 != []
    ensures At(body, ["data", "entry", "stopTimes"]) == Some(JArray(items))
  {
    StatusClassifies(clock, body, Parse(clock, body).0);
    items := At(body, ["data", "entry", "stopTimes"]).value.items;
  }

  lemma {:induction false} MinutesOfImages(clock: Clock, apiTime: real, references: Option<Value>,
                                           stopTimes: seq<Value>)
    ensures forall a | a in Images(clock, apiTime, references, stopTimes) ::
              IsNearestMinute(a.departsInMin, a.timestamp as real - apiTime)
  {
    if stopTimes != [] {
      var n := |stopTimes| - 1;
      MinutesOfImages(clock, apiTime, references, stopTimes[..n]);
      if Usable(stopTimes[n]) { MinutesOfImage(clock, apiTime, references, stopTimes[n]); }
    }
  }
}

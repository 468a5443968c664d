/** The upstream request: URL assembly, status composition and the station lookup. */
module BkkApi {
  import opened Options
  import CStrings
  import ArrivalTypes
  import opened ResponseParser
  import Json

  datatype BkkStatus =
    | Ok | MissingApiKey | CurlInitFailed | CurlPerformFailed | InvalidApiKey | HttpError
    | FetchArrivalsFailed | ArrivalsParseFailed | UnexpectedException

  /** What the network does to one request. `Threw` stands for an exception anywhere below
      `get_arrivals_for_station`, which may leave any partial list in the output vector. */
  datatype Transport =
    | InitFailed
    | PerformFailed
    | Answered(httpCode: int, body: Option<Json.Value>)
    | Threw(partial: seq<ArrivalTypes.Arrival>)

  const BASE_URL := "https://futar.bkk.hu/api/query/v1/ws/otp/api/where"
  const ENDPOINT := "arrivals-and-departures-for-stop.json"
  const PREFIX := "BKK_"

  // ---------------------------------------------------------------- the URL

  /** Name and value of one query parameter. */
  datatype Param = Param(name: string, value: string)

  function NormaliseStopId(stopId: string): string {
    if PREFIX <= stopId then stopId else PREFIX + stopId
  }

  /** The parameters in the order in which the sorted map yields them. */
  function StopParams(stopId: string): seq<Param> {
    [Param("minutesAfter", "30"), Param("minutesBefore", "0"), Param("onlyDepartures", "1"),
     Param("stopId", NormaliseStopId(stopId))]
  }

  function Pairs(params: seq<Param>): (p: seq<string>)
    ensures |p| == |params|
  {
    if params == [] then [] else
    var n := |params| - 1;
    Pairs(params[..n]) + [params[n].name + "=" + params[n].value]
  }

  function Join(parts: seq<string>): string {
    if parts == [] then ""
    else if |parts| == 1 then parts[0]
    else Join(parts[..|parts| - 1]) + "&" + parts[|parts| - 1]
  }

  /** Cuts a query string at every `&`. */
  function Split(s: string): (parts: seq<string>)
    ensures parts != []
  {
    if s == "" then [""] else
    var n := |s| - 1;
    var parts := Split(s[..n]);
    var last := |parts| - 1;
    if s[n] == '&' then parts + [""] else parts[last := parts[last] + [s[n]]]
  }

  method BuildUrl(endpoint: string, apiKey: string, params: seq<Param>) returns (url: string)
    ensures url == BASE_URL + "/" + endpoint + "?" + Join(Pairs(params) + ["key=" + apiKey])
  {
    var stem := BASE_URL + "/" + endpoint + "?";
    url := stem;
    var first := true;
    for i := 0 to |params|
      invariant first <==> i == 0
      invariant url == stem + Join(Pairs(params[..i]))
    {
      assert params[..i + 1][..i] == params[..i];
      var pairs := Pairs(params[..i]);
      var pair := params[i].name + "=" + params[i].value;
      assert (pairs + [pair])[..i] == pairs;
      if !first {
        url := url + "&";
      }
      url := url + pair;
      first := false;
    }
    assert params[..|params|] == params;
    var pairs := Pairs(params);
    assert (pairs + ["key=" + apiKey])[..|pairs|] == pairs;
    if !first {
      url := url + "&";
    }
    url := url + ("key=" + apiKey);
  }

  lemma {:induction false} PartsAreClean(s: string)
    ensures forall p | p in Split(s) :: '&' !in p
  {
    if s != "" {
      PartsAreClean(s[..|s| - 1]);
    }
  }

  lemma LastPartGrows(s: string, c: char, front: seq<string>, last: string)
    requires Split(s) == front + [last] && c != '&'
    ensures Split(s + [c]) == front + [last + [c]]
  {
    assert (s + [c])[..|s|] == s;
  }

  lemma {:induction false} SplitAppends(s: string, tail: string, front: seq<string>, last: string)
    requires Split(s) == front + [last] && '&' !in tail
    ensures Split(s + tail) == front + [last + tail]
  {
    if tail == "" {
      assert s + tail == s && last + tail == last;
    } else {
      var n := |tail| - 1;
      var init, c := tail[..n], tail[n];
      SplitAppends(s, init, front, last);
      LastPartGrows(s + init, c, front, last + init);
      assert tail == init + [c];
      assert s + init + [c] == s + tail && last + init + [c] == last + tail;
    }
  }

  lemma SplitTakesOneMore(s: string, part: string)
    requires '&' !in part
    ensures Split(s + "&" + part) == Split(s) + [part]
  {
    assert (s + "&")[..|s|] == s;
    SplitAppends(s + "&", part, Split(s), "");
    assert "" + part == part;
  }

  lemma {:induction false} CleanPartsSplitBack(parts: seq<string>)
    requires parts != [] && forall p | p in parts :: '&' !in p
    ensures Split(Join(parts)) == parts
  {
    var n := |parts| - 1;
    assert parts == parts[..n] + [parts[n]];
    if n == 0 {
      SplitAppends("", parts[0], [], "");
      assert "" + parts[0] == parts[0];
    } else {
      CleanPartsSplitBack(parts[..n]);
      SplitTakesOneMore(Join(parts[..n]), parts[n]);
    }
  }

  /** A query string cuts back into its parameters exactly when no parameter contains `&`. */
  lemma QueryRoundTrip(parts: seq<string>)
    requires parts != []
    ensures Split(Join(parts)) == parts <==> forall p | p in parts :: '&' !in p
  {
    PartsAreClean(Join(parts));
    if forall p | p in parts :: '&' !in p {
      CleanPartsSplitBack(parts);
    }
  }

  /** Two stop ids ask upstream for the same stop exactly when they are equal or differ by the prefix. */
  lemma NormalisedEqually(a: string, b: string)
    ensures NormaliseStopId(a) == if "BKK_" <= a then a else "BKK_" + a
    ensures PREFIX <= NormaliseStopId(a)
    ensures NormaliseStopId(NormaliseStopId(a)) == NormaliseStopId(a)
    ensures NormaliseStopId(a) == NormaliseStopId(b)
       <==> a == b || (a == PREFIX + b && !(PREFIX <= b)) || (b == PREFIX + a && !(PREFIX <= a))
  {
    if !(PREFIX <= a) && !(PREFIX <= b) {
      assert (PREFIX + a)[|PREFIX|..] == a && (PREFIX + b)[|PREFIX|..] == b;
    }
  }

  function StationUrl(stopId: string, apiKey: string): string {
    BASE_URL + "/" + ENDPOINT + "?" + Join(Pairs(StopParams(stopId)) + ["key=" + apiKey])
  }

  /** The URL that asks upstream for the next half hour of one stop, spelled out. */
  predicate AsksFor(url: string, stopId: string, apiKey: string) {
    url == "https://futar.bkk.hu/api/query/v1/ws/otp/api/where" + "/" + "arrivals-and-departures-for-stop.json" + "?"
           + ("minutesAfter=30" + "&" + "minutesBefore=0" + "&" + "onlyDepartures=1" + "&"
              + ("stopId=" + if "BKK_" <= stopId then stopId else "BKK_" + stopId) + "&" + ("key=" + apiKey))
  }

  lemma StationUrlAsksForStop(stopId: string, apiKey: string)
    ensures AsksFor(StationUrl(stopId, apiKey), stopId, apiKey)
  {
    var id, key := "stopId=" + NormaliseStopId(stopId), "key=" + apiKey;
    StopPairs(stopId);
    JoinFive("minutesAfter=30", "minutesBefore=0", "onlyDepartures=1", id, key);
    assert Pairs(StopParams(stopId)) + [key] == ["minutesAfter=30", "minutesBefore=0", "onlyDepartures=1", id, key];
  }

  lemma StopPairs(stopId: string)
    ensures Pairs(StopParams(stopId))
         == ["minutesAfter=30", "minutesBefore=0", "onlyDepartures=1", "stopId=" + NormaliseStopId(stopId)]
  {
    var p := StopParams(stopId);
    assert p[..3] == [p[0], p[1], p[2]] && [p[0], p[1], p[2]][..2] == [p[0], p[1]] && [p[0], p[1]][..1] == [p[0]];
    assert "minutesAfter" + "=" + "30" == "minutesAfter=30" && "minutesBefore" + "=" + "0" == "minutesBefore=0";
    assert "onlyDepartures" + "=" + "1" == "onlyDepartures=1" && "stopId" + "=" == "stopId=";
    assert Pairs([p[0]]) == ["minutesAfter=30"];
    assert Pairs([p[0], p[1]]) == ["minutesAfter=30", "minutesBefore=0"];
    assert Pairs(p[..3]) == ["minutesAfter=30", "minutesBefore=0", "onlyDepartures=1"];
  }

  lemma JoinFive(a: string, b: string, c: string, d: string, e: string)
    ensures Join([a, b, c, d, e]) == a + "&" + b + "&" + c + "&" + d + "&" + e
  {
    assert [a, b, c, d, e][..4] == [a, b, c, d] && [a, b, c, d][..3] == [a, b, c];
    assert [a, b, c][..2] == [a, b] && [a, b][..1] == [a];
    assert Join([a, b]) == a + "&" + b;
    assert Join([a, b, c]) == a + "&" + b + "&" + c;
    assert Join([a, b, c, d]) == a + "&" + b + "&" + c + "&" + d;
  }

  // ---------------------------------------------------------------- status composition

  /** How a call of `make_request` ends: with a status, or by an exception. */
  datatype Ending = Returned(status: BkkStatus) | Raised

  /** The string that receives the body of an answer. */
  class BodySlot {
    var body: Option<Json.Value>

    constructor ()
      ensures body == None
    {
      body := None;
    }
  }

  method MakeRequest(endpoint: string, apiKey: string, params: seq<Param>, transport: Transport,
                     responseOut: BodySlot?) returns (ending: Ending, url: Option<string>)
    modifies responseOut
    ensures responseOut == null ==> ending == Returned(UnexpectedException) && url == None
    ensures responseOut != null && transport.Threw? ==> ending == Raised
    ensures responseOut != null && !transport.Threw? ==> ending == Returned(RequestStatus(apiKey, transport))
    ensures responseOut != null && !transport.Threw? ==> StatusOfRequest(ending.status, apiKey, transport)
    ensures responseOut != null && !transport.Threw? && apiKey == "" ==>
              url == None && responseOut.body == old(responseOut.body)
    ensures responseOut != null && !transport.Threw? && apiKey != "" ==>
              url == Some(BASE_URL + "/" + endpoint + "?" + Join(Pairs(params) + ["key=" + apiKey]))
    ensures ending == Returned(Ok) ==> transport.Answered? && responseOut.body == transport.body
  {
    url := None;
    if responseOut == null {
      return Returned(UnexpectedException), url;
    }
    if transport.Threw? {
      return Raised, url;
    }
    if apiKey == "" {
      return Returned(MissingApiKey), url;
    }
    var built := BuildUrl(endpoint, apiKey, params);
    url := Some(built);
    responseOut.body := None;
    match transport
    case InitFailed => ending := Returned(CurlInitFailed);
    case PerformFailed => ending := Returned(CurlPerformFailed);
    case Answered(code, answer) =>
      responseOut.body := answer;
      if code == 401 {
        ending := Returned(InvalidApiKey);
      } else if code < 200 || code >= 300 {
        ending := Returned(HttpError);
      } else {
        ending := Returned(Ok);
      }
  }

  /** The outcome of a request that ends without an exception. */
  ghost predicate StatusOfRequest(status: BkkStatus, apiKey: string, transport: Transport) {
    && (status == MissingApiKey <==> apiKey == "")
    && (status == CurlInitFailed <==> apiKey != "" && transport.InitFailed?)
    && (status == CurlPerformFailed <==> apiKey != "" && transport.PerformFailed?)
    && (status == InvalidApiKey <==> apiKey != "" && transport.Answered? && transport.httpCode == 401)
    && (status == HttpError <==> apiKey != "" && transport.Answered? && transport.httpCode != 401
                                 && !(200 <= transport.httpCode <= 299))
    && (status == Ok <==> apiKey != "" && transport.Answered? && 200 <= transport.httpCode <= 299)
  }

  function RequestStatus(apiKey: string, transport: Transport): BkkStatus {
    if apiKey == "" then MissingApiKey else
    match transport
    case InitFailed => CurlInitFailed
    case PerformFailed => CurlPerformFailed
    case Threw(_) => UnexpectedException
    case Answered(code, _) =>
      if 200 <= code < 300 then Ok else if code == 401 then InvalidApiKey else HttpError
  }

  /** Status and output of one station lookup. */
  function StationResult(clock: Clock, apiKey: string, transport: Transport): (BkkStatus, seq<ArrivalTypes.Arrival>) {
    if transport.Threw? then (UnexpectedException, transport.partial) else
    var status := RequestStatus(apiKey, transport);
    if status != Ok then (status, []) else
    var (parseStatus, arrivals) := Parse(clock, transport.body);
    if IsSuccessfulParseStatus(parseStatus) then (Ok, arrivals) else (ArrivalsParseFailed, arrivals)
  }

  /** Status and output of the lookup, and the URL that is asked for. */
  method GetArrivalsForStation(clock: Clock, stopId: string, apiKey: string, transport: Transport,
                               output: ArrivalTypes.ArrivalVector?) returns (status: BkkStatus, url: Option<string>)
    modifies output
    ensures output == null ==> status == UnexpectedException && url == None
    ensures output != null ==> (status, output.items) == StationResult(clock, apiKey, transport)
    ensures output != null && !transport.Threw? ==>
              url == if apiKey == "" then None else Some(StationUrl(stopId, apiKey))
  {
    if output == null {
      return UnexpectedException, None;
    }
    output.items := [];
    var slot := new BodySlot();
    var ending, asked := MakeRequest(ENDPOINT, apiKey, StopParams(stopId), transport, slot);
    if ending.Raised? {
      output.items := transport.partial;
      return UnexpectedException, asked;
    }
    if ending.status != Ok {
      return ending.status, asked;
    }
    var parseStatus := ParseArrivalsResponse(clock, slot.body, output);
    if !IsSuccessfulParseStatus(parseStatus) {
      return ArrivalsParseFailed, asked;
    }
    return Ok, asked;
  }

  /** The answer has a list of stop times, and one of those visited is usable. */
  ghost predicate HasUsableStopTime(body: Option<Json.Value>) {
    var list := Json.At(body, ["data", "entry", "stopTimes"]);
    Json.IsArray(list) && !NoneUsable(Visited(list.value.items))
  }

  /** Each failure of a lookup has exactly one cause, and only an exception leaves a list behind. */
  lemma StationFailsExactly(clock: Clock, apiKey: string, transport: Transport)
    ensures var (status, arrivals) := StationResult(clock, apiKey, transport);
            var answered := apiKey != "" && transport.Answered?;
            && (status == UnexpectedException <==> transport.Threw?)
            && (status == MissingApiKey <==> apiKey == "" && !transport.Threw?)
            && (status == CurlInitFailed <==> apiKey != "" && transport.InitFailed?)
            && (status == CurlPerformFailed <==> apiKey != "" && transport.PerformFailed?)
            && (status == InvalidApiKey <==> answered && transport.httpCode == 401)
            && (status == HttpError <==>
                  answered && transport.httpCode != 401 && !(200 <= transport.httpCode <= 299))
            && (status == ArrivalsParseFailed <==>
                  answered && 200 <= transport.httpCode <= 299 && !HasUsableStopTime(transport.body))
            && status != FetchArrivalsFailed
            && (transport.Threw? ==> arrivals == transport.partial)
  {
    if transport.Answered? {
      ParsedExactly(clock, transport.body);
    }
  }

  /** A lookup is Ok exactly for a keyed request answered 2xx with at least one usable stop time
      among those visited, and an Ok lookup never delivers an empty list. */
  lemma StationOkExactly(clock: Clock, apiKey: string, transport: Transport)
    ensures var (status, arrivals) := StationResult(clock, apiKey, transport);
            && (status == Ok <==>
                  (&& apiKey != "" && transport.Answered? && 200 <= transport.httpCode < 300
                   && HasUsableStopTime(transport.body)))
            && (status == Ok ==> 1 <= |arrivals| <= CStrings.INT_MAX)
            && (status != Ok && !transport.Threw? ==> arrivals == [])
  {
    if transport.Answered? {
      ParsedExactly(clock, transport.body);
    }
  }

  lemma ParsedExactly(clock: Clock, body: Option<Json.Value>)
    ensures var (status, arrivals) := Parse(clock, body);
            && (IsSuccessfulParseStatus(status) <==> HasUsableStopTime(body))
            && (if IsSuccessfulParseStatus(status) then 1 <= |arrivals| <= CStrings.INT_MAX else arrivals == [])
  {
    StatusClassifies(clock, body, Parse(clock, body).0);
    SuccessExactly(clock, body);
  }
}

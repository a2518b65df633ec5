/** The background service worker: it answers "getCommuteDetails" messages by
    querying the distance-matrix endpoint and classifying its reply. */
module Background {
  import opened Types
  import opened Text
  import opened Protocol

  // ---------------------------------------------------------------------
  // The upstream reply, as an abstract input

  datatype Element = Element(status: string, durationText: string, distanceText: string)
  datatype Row = Row(elements: seq<Element>)

  /** The parsed JSON body; `status` is the body's top-level status. */
  datatype Body = Body(status: string, rows: seq<Row>)

  /** An HTTP response: `ok`, `status`, `statusText`, and what
      `response.json()` gives, the parsed body or the error it throws. */
  datatype Response = Response(ok: bool, status: int, statusText: string, json: Result<Body>)

  /** What `await fetch(url)` gives: the response, or the error the fetch
      rejects with. */
  type Fetched = Result<Response>

  /** The body reached by the code once transport and body status are OK. */
  predicate BodyReached(fetched: Fetched) {
    fetched.Ok? && fetched.value.ok && fetched.value.json.Ok? && fetched.value.json.value.status == "OK"
  }

  /** A reply that has a first element wherever the code reads one; other
      bodies make the code fail with a runtime type error, not modelled here. */
  predicate WellShaped(fetched: Fetched) {
    BodyReached(fetched) ==>
      |fetched.value.json.value.rows| > 0 && |fetched.value.json.value.rows[0].elements| > 0
  }

  function FirstElement(fetched: Fetched): Element
    requires BodyReached(fetched) && WellShaped(fetched)
  {
    fetched.value.json.value.rows[0].elements[0]
  }

  /** The query string of the request as (name, value) pairs, in order;
      percent-encoding is left to the URL library. */
  type Query = seq<(string, string)>

  function QueryParams(req: CommuteRequest): (q: Query)
    ensures |q| == 5
    ensures forall i, j :: 0 <= i < j < |q| ==> q[i].0 != q[j].0
    ensures forall i :: 0 <= i < |q[3].1| ==> 'a' <= q[3].1[i] <= 'z'
  {
    [ ("origins", req.origin),
      ("destinations", req.destination),
      ("departure_time", DecimalString(req.departureTime)),
      ("mode", Lower(Value(req.travelMode))),
      ("key", req.apiKey) ]
  }

  /** The value of the first parameter called `name`. */
  function Lookup(q: Query, name: string): Option<string> {
    if q == [] then None
    else if q[0].0 == name then Some(q[0].1)
    else Lookup(q[1..], name)
  }

  /** Every field of the request can be read back from the query, so the
      query determines the request it was built from. */
  lemma {:induction false} QueryParamsFaithful(req: CommuteRequest)
    ensures Lookup(QueryParams(req), "origins") == Some(req.origin)
    ensures Lookup(QueryParams(req), "destinations") == Some(req.destination)
    ensures Lookup(QueryParams(req), "key") == Some(req.apiKey)
    ensures Lookup(QueryParams(req), "mode") == Some(Lower(Value(req.travelMode)))
    ensures Lookup(QueryParams(req), "departure_time").Some?
         && ParseDecimal(Lookup(QueryParams(req), "departure_time").value) == Some(req.departureTime)
  {
    var q := QueryParams(req);
    assert Lookup(q, "origins") == Some(req.origin);
    assert Lookup(q[1..], "destinations") == Some(req.destination);
    assert Lookup(q[2..], "departure_time") == Some(DecimalString(req.departureTime));
    assert Lookup(q[3..], "mode") == Some(Lower(Value(req.travelMode)));
    assert Lookup(q[4..], "key") == Some(req.apiKey);
    assert q[1..][1..] == q[2..] && q[2..][1..] == q[3..] && q[3..][1..] == q[4..];
    assert Lookup(q, "destinations") == Lookup(q[1..], "destinations");
    assert Lookup(q, "departure_time") == Lookup(q[1..], "departure_time")
        == Lookup(q[2..], "departure_time");
    assert Lookup(q, "mode") == Lookup(q[1..], "mode") == Lookup(q[2..], "mode")
        == Lookup(q[3..], "mode");
    assert Lookup(q, "key") == Lookup(q[1..], "key") == Lookup(q[2..], "key")
        == Lookup(q[3..], "key") == Lookup(q[4..], "key");
    DecimalRoundTrip(req.departureTime);
  }

  lemma QueryParamsInjective(a: CommuteRequest, b: CommuteRequest)
    requires QueryParams(a) == QueryParams(b)
    ensures a == b
  {
    QueryParamsFaithful(a);
    QueryParamsFaithful(b);
    ModeLowerInjective(a.travelMode, b.travelMode);
  }

  // ---------------------------------------------------------------------
  // Classifying the reply

  /** The duration text clean-up: the first "0 mins" anywhere is cut out,
      then the first "0 hours" anywhere in what is left. */
  function CleanseTime(time: string): (r: string)
    ensures |r| <= |time|
  {
    RemoveFirst(RemoveFirst(time, "0 mins"), "0 hours")
  }

  lemma CleanseTimeIdentity(time: string)
    requires !Contains(time, "0 mins") && !Contains(time, "0 hours")
    ensures CleanseTime(time) == time
  {
  }

  /** The output is shorter by exactly 6 when "0 mins" was found and by
      exactly 7 more when "0 hours" was found afterwards. */
  lemma CleanseTimeLength(time: string)
    ensures var mid := RemoveFirst(time, "0 mins");
      |CleanseTime(time)| ==
        |time| - (if Contains(time, "0 mins") then 6 else 0)
               - (if Contains(mid, "0 hours") then 7 else 0)
  {
  }

  /** A zero-minute tail is removed, the space before it is kept. */
  lemma CleanseTimeZeroMinutes()
    ensures CleanseTime("2 hours 0 mins") == "2 hours "
  {
    var t := "2 hours 0 mins";
    assert OccursAt(t, "0 mins", 8);
    FirstOccurrenceByScan(t, "0 mins", 8);
    assert t[..8] + t[14..] == "2 hours ";
    AbsentByScan("2 hours ", "0 hours", |"2 hours "|);
  }

  /** "0 mins" is matched anywhere, even inside "10 mins". */
  lemma CleanseTimeInsideNumber()
    ensures CleanseTime("10 mins") == "1"
  {
    var t := "10 mins";
    assert OccursAt(t, "0 mins", 1);
    FirstOccurrenceByScan(t, "0 mins", 1);
    AbsentByScan("1", "0 hours", |"1"|);
  }

  lemma CleanseTimeThirtyMinutes()
    ensures CleanseTime("1 hour 30 mins") == "1 hour 3"
  {
    var t := "1 hour 30 mins";
    assert OccursAt(t, "0 mins", 8);
    FirstOccurrenceByScan(t, "0 mins", 8);
    assert t[..8] + t[14..] == "1 hour 3";
    AbsentByScan("1 hour 3", "0 hours", |"1 hour 3"|);
  }

  /** A zero-hour tail is removed too. */
  lemma CleanseTimeZeroHours()
    ensures CleanseTime("2 days 0 hours") == "2 days "
  {
    var t := "2 days 0 hours";
    assert t[7..13][2] != "0 mins"[2];
    AbsentByScan(t, "0 mins", 7);
    assert OccursAt(t, "0 hours", 7);
    FirstOccurrenceByScan(t, "0 hours", 7);
  }

  /** `fetchCommuteDetails` from the fetch onwards: a rejected fetch first,
      then the transport status, then a throwing `json()`, then the body's
      status, then the first element's status. Thrown errors keep their
      message. */
  function FetchCommuteDetails(fetched: Fetched, mode: TravelMode): (r: Result<CommuteResult>)
    requires WellShaped(fetched)
    ensures fetched.Err? ==> r == Err(fetched.message)
    ensures fetched.Ok? && !fetched.value.ok ==>
      r == Err("Network error: " + DecimalString(fetched.value.status) + " " + fetched.value.statusText)
    ensures fetched.Ok? && fetched.value.ok && fetched.value.json.Err? ==>
      r == Err(fetched.value.json.message)
    ensures fetched.Ok? && fetched.value.ok && fetched.value.json.Ok? && !BodyReached(fetched) ==>
      r == Err("API Error: " + fetched.value.json.value.status)
    ensures r.Ok? <==> BodyReached(fetched) && FirstElement(fetched).status == "OK"
    ensures r.Ok? ==>
      r.value.success && r.value.error == None && r.value.travelMode == mode
      && r.value.distance == FirstElement(fetched).distanceText
      && r.value.duration == CleanseTime(FirstElement(fetched).durationText)
    ensures r.Err? && r.message == "" ==> fetched.Err? || fetched.value.json.Err?
  {
    match fetched
    case Err(e) => Err(e)
    case Ok(response) =>
      if !response.ok then
        Err("Network error: " + DecimalString(response.status) + " " + response.statusText)
      else
        match response.json
        case Err(e) => Err(e)
        case Ok(data) =>
          if data.status != "OK" then
            Err("API Error: " + data.status)
          else
            var element := data.rows[0].elements[0];
            if element.status != "OK" then
              Err("Route Error: " + element.status)
            else
              Ok(CommuteResult(CleanseTime(element.durationText), element.distanceText, mode, true, None))
  }

  /** A failed transport never looks at the body. */
  lemma NetworkErrorIgnoresBody(response: Response, json: Result<Body>, mode: TravelMode)
    requires !response.ok
    ensures WellShaped(Ok(response.(json := json)))
    ensures FetchCommuteDetails(Ok(response.(json := json)), mode) == FetchCommuteDetails(Ok(response), mode)
  {
  }

  /** Only the first element of the first row is inspected. */
  lemma OnlyFirstElementInspected(fetched: Fetched, mode: TravelMode, rest: seq<Element>, more: seq<Row>)
    requires BodyReached(fetched) && WellShaped(fetched)
    ensures var rows' := [Row([FirstElement(fetched)] + rest)] + more;
      var fetched' := Ok(fetched.value.(json := Ok(fetched.value.json.value.(rows := rows'))));
      WellShaped(fetched') && FetchCommuteDetails(fetched', mode) == FetchCommuteDetails(fetched, mode)
  {
  }

  /** A route failure names the element's status. */
  lemma RouteErrorMessage(fetched: Fetched, mode: TravelMode)
    requires BodyReached(fetched) && WellShaped(fetched)
    requires FirstElement(fetched).status != "OK"
    ensures FetchCommuteDetails(fetched, mode) == Err("Route Error: " + FirstElement(fetched).status)
  {
  }

  /** The object the listener hands to `sendResponse` once the lookup settles. */
  function ReplyFor(outcome: Result<CommuteResult>): (r: Reply)
    ensures r.success <==> outcome.Ok?
    ensures r.message == None
    ensures outcome.Ok? ==> r.result == Some(outcome.value) && r.error == None
    ensures outcome.Err? ==> r.result == None && r.error == Some(outcome.message)
  {
    match outcome
    case Ok(result) => Reply(true, Some(result), None, None)
    case Err(message) => Reply(false, None, Some(message), None)
  }

  /** The `onMessage` listener. `responses` records every call of
      `sendResponse`; `api` is the distance-matrix endpoint, from the query
      to what fetching it gives (a response or the rejection's error). */
  class Listener {
    var responses: seq<Reply>

    constructor ()
      ensures responses == []
    {
      responses := [];
    }

    /** Returns true (keep the channel open) exactly for "getCommuteDetails",
        and then answers exactly once; any other action, "ping" included, is
        left unanswered and the listener returns undefined (false here). */
    method OnMessage(msg: Message, api: Query -> Fetched) returns (keepOpen: bool)
      requires msg.action == GetCommuteDetailsAction ==>
        msg.data.Some? && WellShaped(api(QueryParams(msg.data.value)))
      modifies this
      ensures keepOpen <==> msg.action == GetCommuteDetailsAction
      ensures keepOpen ==>
        var req := msg.data.value;
        responses == old(responses)
          + [ReplyFor(FetchCommuteDetails(api(QueryParams(req)), req.travelMode))]
      ensures !keepOpen ==> responses == old(responses)
    {
      if msg.action == GetCommuteDetailsAction {
        var req := msg.data.value;
        var outcome := FetchCommuteDetails(api(QueryParams(req)), req.travelMode);
        responses := responses + [ReplyFor(outcome)];
        return true;
      }
      return false;
    }
  }
}

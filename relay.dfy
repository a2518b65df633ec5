/** The two sides together: what the UI's promise settles to when the
    background's listener is the one answering. */
module Relay {
  import opened Types
  import opened Text
  import opened Protocol
  import opened Background
  import opened CommuteService
  import Settings

  /** What the background's outcome becomes on the UI side; an error without
      a message reaches the UI as the generic failure. */
  function Expected(outcome: Result<CommuteResult>): Settlement {
    match outcome
    case Ok(result) => Fulfilled(result)
    case Err(message) => Rejected(if message != "" then message else UnknownFailure)
  }

  /** When the listener's reply is the first event, the lookup settles to
      exactly the background's result, or rejects with exactly its error
      message; later events change nothing. */
  lemma {:induction false} RelayPreservesOutcome(req: CommuteRequest, api: Query -> Fetched, later: seq<Event>)
    requires WellShaped(api(QueryParams(req)))
    ensures var outcome := FetchCommuteDetails(api(QueryParams(req)), req.travelMode);
      var first := Replied(ChannelReply(Some(ReplyFor(outcome)), None));
      Run(Commute(req.travelMode), [first] + later) == Some(Expected(outcome))
  {
    var outcome := FetchCommuteDetails(api(QueryParams(req)), req.travelMode);
    var first := Replied(ChannelReply(Some(ReplyFor(outcome)), None));
    RunIsFirstEvent(Commute(req.travelMode), [first] + later);
    assert ([first] + later)[0] == first;
  }

  /** The whole lookup: with both settings present, `getCommuteDetails`
      sends its message, the background's listener answers it, and that
      answer, arriving first, settles the caller's promise to the
      background's outcome for the request built from the settings. */
  method LookupRoundTrip(settings: Settings.SettingsStore, effects: Effects, listener: Listener,
                         origin: string, mode: TravelMode, departureMs: int, api: Query -> Fetched)
    returns (pending: PendingCall?)
    requires settings.googleApiKey != "" && settings.workAddress != ""
    requires WellShaped(api(QueryParams(BuildRequest(origin, settings.workAddress, mode,
                                                     settings.googleApiKey, departureMs))))
    modifies effects, listener
    ensures pending != null && pending.Valid()
    ensures pending.settled == Some(Expected(FetchCommuteDetails(
      api(QueryParams(BuildRequest(origin, settings.workAddress, mode, settings.googleApiKey, departureMs))),
      mode)))
  {
    var immediate;
    immediate, pending := GetCommuteDetails(settings, effects, origin, mode, departureMs, None);
    var keepOpen := listener.OnMessage(effects.log[|effects.log| - 1].msg, api);
    pending.OnReply(ChannelReply(Some(listener.responses[|listener.responses| - 1]), None));
  }

  /** A "0 mins" duration is cleaned to nothing, so a successful lookup can
      reach the UI with an empty duration. */
  lemma SuccessMayCarryEmptyDuration(mode: TravelMode, distance: string)
    ensures var element := Element("OK", "0 mins", distance);
      var fetched: Fetched := Ok(Response(true, 200, "OK", Ok(Body("OK", [Row([element])]))));
      FetchCommuteDetails(fetched, mode) == Ok(CommuteResult("", distance, mode, true, None))
  {
    var t := "0 mins";
    assert OccursAt(t, "0 mins", 0);
    FirstOccurrenceByScan(t, "0 mins", 0);
    AbsentByScan("", "0 hours", 0);
  }

  /** Nothing the background's listener ever sends makes the probe succeed:
      its replies never carry "pong". */
  lemma BackgroundNeverPongs(outcome: Result<CommuteResult>, lastError: Option<string>)
    ensures !PingVerdict(ChannelReply(Some(ReplyFor(outcome)), lastError))
  {
  }

  /** The probe against this background: the listener leaves "ping"
      unanswered, so the probe's first event is its timer or a reply without
      a response object, and it reports false. */
  lemma {:induction false} UnansweredPingFails(history: seq<Event>)
    requires history != []
    requires history[0].TimerFired? || (history[0].Replied? && history[0].reply.response.None?)
    ensures Run(Ping, history) == Some(Answered(false))
  {
    RunIsFirstEvent(Ping, history);
  }

  /** The background's listener given the probe's message: it returns
      undefined (false) and calls `sendResponse` no time at all. */
  method PingIsIgnored(listener: Listener, api: Query -> Fetched) returns (keepOpen: bool)
    modifies listener
    ensures !keepOpen && listener.responses == old(listener.responses)
  {
    keepOpen := listener.OnMessage(PingMessage(), api);
  }
}

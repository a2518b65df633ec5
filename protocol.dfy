/** The messages exchanged between the side-panel UI and the background
    service worker over the extension's runtime message channel. */
module Protocol {
  import opened Types

  /** The data of a commute lookup: built fresh per call and never stored. */
  datatype CommuteRequest = CommuteRequest(
    origin: string,
    destination: string,
    travelMode: TravelMode,
    apiKey: string,
    departureTime: int)   // unix seconds

  /** A message sent to the background: an action name and, for
      "getCommuteDetails", the request data. */
  datatype Message = Message(action: string, data: Option<CommuteRequest>)

  const GetCommuteDetailsAction := "getCommuteDetails"
  const PingAction := "ping"

  /** The object passed to `sendResponse`. The background fills `result` or
      `error`; a ping answer would carry `message`. */
  datatype Reply = Reply(
    success: bool,
    result: Option<CommuteResult>,
    error: Option<string>,
    message: Option<string>)

  /** What the UI-side callback observes: the reply object, if any, and the
      channel's `lastError`, if set. A `lastError` without a message is
      `Some("")`. */
  datatype ChannelReply = ChannelReply(response: Option<Reply>, lastError: Option<string>)
}

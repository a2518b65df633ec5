/** The side-panel's commute service: it checks the configuration, sends the
    request to the background, and settles a promise exactly once from
    whichever comes first, the background's reply or a timer. */
module CommuteService {
  import opened Types
  import opened Protocol
  import Settings

  const CommuteTimeoutMs := 10000
  const PingTimeoutMs := 2000

  const ApiKeyNotSet := "API Key not set"
  const WorkAddressNotSet := "Work address not set"
  const TimedOut := "API request timed out"
  const ChannelFailure := "Communication error with background service"
  const UnknownFailure := "Unknown error fetching commute details"
  const Pong := "pong"

  /** The fixed failure a missing setting produces. */
  function ConfigFailure(mode: TravelMode, message: string): CommuteResult {
    CommuteResult("", "", mode, false, Some(message))
  }

  /** The configuration guards: the result returned without any message or
      timer, or `None` when both settings are present. The key is checked
      first. */
  function ConfigError(apiKey: string, destination: string, mode: TravelMode): (r: Option<CommuteResult>)
    ensures r.None? <==> apiKey != "" && destination != ""
    ensures r.Some? ==>
      !r.value.success && r.value.duration == "" && r.value.distance == ""
      && r.value.travelMode == mode && r.value.error.Some?
    ensures apiKey == "" ==> r.value.error == Some(ApiKeyNotSet)
    ensures apiKey != "" && destination == "" ==> r.value.error == Some(WorkAddressNotSet)
  {
    if apiKey == "" then Some(ConfigFailure(mode, ApiKeyNotSet))
    else if destination == "" then Some(ConfigFailure(mode, WorkAddressNotSet))
    else None
  }

  /** The request sent to the background; `departureMs` is 13:00 today in
      milliseconds since the epoch, and the departure time is its floor in
      seconds. */
  function BuildRequest(origin: string, destination: string, mode: TravelMode,
                        apiKey: string, departureMs: int): (r: CommuteRequest)
    ensures r.origin == origin && r.destination == destination
    ensures r.travelMode == mode && r.apiKey == apiKey
    ensures r.departureTime * 1000 <= departureMs < r.departureTime * 1000 + 1000
  {
    // the divisor is positive, so Dafny's division is the floor, as in Math.floor
    CommuteRequest(origin, destination, mode, apiKey, departureMs / 1000)
  }

  /** The message of a lookup: the "getCommuteDetails" action with the request. */
  function CommuteMessage(req: CommuteRequest): (m: Message)
    ensures m.action == GetCommuteDetailsAction && m.data == Some(req)
  {
    Message(GetCommuteDetailsAction, Some(req))
  }

  /** The probe's message: the "ping" action and no data. */
  function PingMessage(): (m: Message)
    ensures m.action == PingAction && m.data == None
    ensures m.action != GetCommuteDetailsAction
  {
    Message(PingAction, None)
  }

  // ---------------------------------------------------------------------
  // Settling a pending call

  /** What a pending call is: a commute lookup for a mode, or the ping probe. */
  datatype Call = Commute(mode: TravelMode) | Ping

  function TimeoutMs(call: Call): nat {
    match call
    case Commute(_) => CommuteTimeoutMs
    case Ping => PingTimeoutMs
  }

  /** How a promise settles: fulfilled with a result (commute), fulfilled
      with a boolean (ping), or rejected with an error message. */
  datatype Settlement = Fulfilled(result: CommuteResult) | Answered(ok: bool) | Rejected(reason: string)

  /** The events that reach a pending call: the reply callback runs, the
      timer fires, or `sendMessage` throws inside the promise's executor
      (which rejects the promise with the thrown error). */
  datatype Event = Replied(reply: ChannelReply) | TimerFired | SendFailed(message: string)

  /** The commute callback's handling of a reply: the channel's `lastError`
      first, then `success`, then the reply's error text. */
  function MapCommuteReply(reply: ChannelReply, mode: TravelMode): (s: Settlement)
    ensures s.Fulfilled? || s.Rejected?
    ensures s.Rejected? ==> |s.reason| > 0
    ensures reply.lastError.Some? ==>
      s == Rejected(if reply.lastError.value != "" then reply.lastError.value else ChannelFailure)
    ensures s.Fulfilled? <==>
      reply.lastError.None? && reply.response.Some? && reply.response.value.success
    ensures s.Fulfilled? ==>
      s.result.success && s.result.error == None && s.result.travelMode == mode
      && (reply.response.value.result.None? ==> s.result.duration == "" && s.result.distance == "")
      && (reply.response.value.result.Some? ==>
            s.result.duration == reply.response.value.result.value.duration
            && s.result.distance == reply.response.value.result.value.distance)
    ensures reply.lastError.None? && s.Rejected? ==>
      s.reason == (if reply.response.Some? && reply.response.value.error.Some?
                      && reply.response.value.error.value != ""
                   then reply.response.value.error.value else UnknownFailure)
  {
    match reply.lastError
    case Some(text) =>
      Rejected(if text != "" then text else ChannelFailure)
    case None =>
      match reply.response
      case Some(response) =>
        if response.success then
          var duration := if response.result.Some? then response.result.value.duration else "";
          var distance := if response.result.Some? then response.result.value.distance else "";
          Fulfilled(CommuteResult(duration, distance, mode, true, None))
        else
          Rejected(if response.error.Some? && response.error.value != "" then response.error.value
                   else UnknownFailure)
      case None => Rejected(UnknownFailure)
  }

  /** The probe's verdict on a reply: true exactly for a successful "pong". */
  function PingVerdict(reply: ChannelReply): (ok: bool)
    ensures ok <==>
      reply.lastError.None? && reply.response.Some? && reply.response.value.success
      && reply.response.value.message == Some(Pong)
  {
    reply.lastError.None? && match reply.response
      case Some(response) => response.success && response.message == Some(Pong)
      case None => false
  }

  /** How the first event settles a call. */
  function Settle(call: Call, e: Event): (s: Settlement)
    ensures e.SendFailed? ==> s == Rejected(e.message)
    ensures call.Ping? && !e.SendFailed? ==> s.Answered?
    ensures call.Commute? ==> !s.Answered?
    ensures e.TimerFired? && call.Commute? ==> s == Rejected(TimedOut)
    ensures e.TimerFired? && call.Ping? ==> s == Answered(false)
  {
    match (call, e)
    case (_, SendFailed(message)) => Rejected(message)
    case (Commute(mode), Replied(reply)) => MapCommuteReply(reply, mode)
    case (Commute(_), TimerFired) => Rejected(TimedOut)
    case (Ping, Replied(reply)) => Answered(PingVerdict(reply))
    case (Ping, TimerFired) => Answered(false)
  }

  /** One step of the promise: a settled promise ignores every later event,
      an unsettled one settles. */
  function Step(settled: Option<Settlement>, call: Call, e: Event): (r: Option<Settlement>)
    ensures r.Some?
    ensures settled.Some? ==> r == settled
    ensures settled.None? ==> r == Some(Settle(call, e))
  {
    if settled.Some? then settled else Some(Settle(call, e))
  }

  /** The settlement after a history of events, folded from the left. */
  function Run(call: Call, history: seq<Event>): (r: Option<Settlement>)
    ensures r.Some? <==> history != []
    decreases |history|
  {
    if history == [] then None
    else Step(Run(call, history[..|history| - 1]), call, history[|history| - 1])
  }

  /** The promise settles on the first event, and only then. */
  lemma {:induction false} RunIsFirstEvent(call: Call, history: seq<Event>)
    ensures Run(call, history) == if history == [] then None else Some(Settle(call, history[0]))
    decreases |history|
  {
    if |history| > 1 {
      var front := history[..|history| - 1];
      RunIsFirstEvent(call, front);
      assert front[0] == history[0];
    }
  }

  /** Settle-once: events after the settling one have no effect. */
  lemma SettledStaysSettled(call: Call, history: seq<Event>, later: seq<Event>)
    requires Run(call, history).Some?
    ensures Run(call, history + later) == Run(call, history)
  {
    RunIsFirstEvent(call, history);
    RunIsFirstEvent(call, history + later);
    assert (history + later)[0] == history[0];
  }

  /** A timer that fires before any reply rejects the lookup with the
      timeout message, whatever arrives later. */
  lemma TimeoutFirstRejects(mode: TravelMode, later: seq<Event>)
    ensures Run(Commute(mode), [TimerFired] + later) == Some(Rejected(TimedOut))
  {
    RunIsFirstEvent(Commute(mode), [TimerFired] + later);
  }

  /** The probe settles to a boolean, except when `sendMessage` itself threw:
      then the promise rejects with that error, since the throw happens inside
      the executor and the surrounding `try`/`catch` never sees it. */
  lemma PingRejectsOnlyOnSendFailure(history: seq<Event>)
    requires history != []
    ensures Run(Ping, history).value.Answered? <==> !history[0].SendFailed?
    ensures history[0].SendFailed? ==> Run(Ping, history) == Some(Rejected(history[0].message))
  {
    RunIsFirstEvent(Ping, history);
  }

  // ---------------------------------------------------------------------
  // The UI side's effects

  /** What the UI side does to the outside world, in order. */
  datatype Effect = TimerStarted(ms: nat) | Sent(msg: Message)

  /** The effects the UI context has issued so far. */
  class Effects {
    var log: seq<Effect>

    constructor ()
      ensures log == []
    {
      log := [];
    }
  }

  /** The timer is still armed after `history`: only a failed send, which
      leaves the timer running, has happened. */
  ghost predicate TimerPending(history: seq<Event>) {
    forall i :: 0 <= i < |history| ==> history[i].SendFailed?
  }

  /** A promise waiting for a reply or its timer. */
  class PendingCall {
    const call: Call
    var timerArmed: bool
    var settled: Option<Settlement>
    ghost var history: seq<Event>

    ghost predicate Valid()
      reads this
    {
      settled == Run(call, history) && timerArmed == TimerPending(history)
    }

    /** Created when the timer is started, before the message is sent. */
    constructor (call: Call)
      ensures Valid() && this.call == call && history == []
      ensures timerArmed && settled == None
    {
      this.call := call;
      timerArmed := true;
      settled := None;
      history := [];
    }

    /** `sendMessage` threw: the executor's throw rejects the promise, unless
        it is already settled; the timer keeps running. */
    method OnSendFailure(message: string)
      requires Valid()
      modifies this
      ensures Valid() && history == old(history) + [SendFailed(message)]
      ensures timerArmed == old(timerArmed)
      ensures settled == if old(settled).Some? then old(settled) else Some(Rejected(message))
    {
      if settled.None? {
        settled := Some(Settle(call, SendFailed(message)));
      }
      history := history + [SendFailed(message)];
      assert history[..|history| - 1] == old(history);
    }

    /** The reply callback: the timer is cleared, and the promise settles
        unless it already has. */
    method OnReply(reply: ChannelReply)
      requires Valid()
      modifies this
      ensures Valid() && history == old(history) + [Replied(reply)]
      ensures !timerArmed
      ensures settled == if old(settled).Some? then old(settled) else Some(Settle(call, Replied(reply)))
    {
      timerArmed := false;
      if settled.None? {
        settled := Some(Settle(call, Replied(reply)));
      }
      history := history + [Replied(reply)];
      assert history[..|history| - 1] == old(history);
      assert !history[|history| - 1].SendFailed?;
    }

    /** The timer callback; a cleared or already fired timer never fires,
        so then nothing happens. */
    method OnTimeout()
      requires Valid()
      modifies this
      ensures Valid() && !timerArmed
      ensures old(timerArmed) ==> history == old(history) + [TimerFired]
      ensures old(timerArmed) ==>
        settled == if old(settled).Some? then old(settled) else Some(Settle(call, TimerFired))
      ensures !old(timerArmed) ==> history == old(history) && settled == old(settled)
    {
      if timerArmed {
        timerArmed := false;
        if settled.None? {
          settled := Some(Settle(call, TimerFired));
        }
        history := history + [TimerFired];
        assert history[..|history| - 1] == old(history);
        assert !history[|history| - 1].SendFailed?;
      }
    }
  }

  /** `getCommuteDetails`: reads the settings, returns a configuration
      failure at once, or starts the 10 s timer, sends the request and
      hands back the pending promise. `departureMs` is 13:00 today;
      `sendFailure` is the error `sendMessage` throws, if it does. */
  method GetCommuteDetails(settings: Settings.SettingsStore, effects: Effects, origin: string,
                           mode: TravelMode, departureMs: int, sendFailure: Option<string>)
    returns (immediate: Option<CommuteResult>, pending: PendingCall?)
    modifies effects
    ensures immediate == ConfigError(settings.googleApiKey, settings.workAddress, mode)
    ensures immediate.Some? ==> pending == null && effects.log == old(effects.log)
    ensures immediate.None? ==>
      pending != null && fresh(pending) && pending.Valid() && pending.call == Commute(mode)
    ensures immediate.None? && sendFailure.None? ==>
      pending.history == [] && pending.timerArmed && pending.settled == None
      && effects.log == old(effects.log)
         + [TimerStarted(CommuteTimeoutMs),
            Sent(CommuteMessage(BuildRequest(origin, settings.workAddress, mode,
                                             settings.googleApiKey, departureMs)))]
    ensures immediate.None? && sendFailure.Some? ==>
      pending.history == [SendFailed(sendFailure.value)] && pending.timerArmed
      && pending.settled == Some(Rejected(sendFailure.value))
      && effects.log == old(effects.log) + [TimerStarted(CommuteTimeoutMs)]
  {
    var apiKey := settings.googleApiKey;
    var destination := settings.workAddress;
    immediate := ConfigError(apiKey, destination, mode);
    if immediate.Some? {
      pending := null;
      return;
    }
    var request := BuildRequest(origin, destination, mode, apiKey, departureMs);
    pending := new PendingCall(Commute(mode));
    effects.log := effects.log + [TimerStarted(TimeoutMs(pending.call))];
    match sendFailure
    case Some(message) =>
      pending.OnSendFailure(message);
    case None =>
      effects.log := effects.log + [Sent(CommuteMessage(request))];
  }

  /** `testBackgroundConnection`: starts the 2 s timer and sends a ping;
      `sendFailure` is the error `sendMessage` throws, if it does. */
  method TestBackgroundConnection(effects: Effects, sendFailure: Option<string>)
    returns (pending: PendingCall)
    modifies effects
    ensures fresh(pending) && pending.Valid() && pending.call == Ping && pending.timerArmed
    ensures sendFailure.None? ==>
      pending.history == [] && pending.settled == None
      && effects.log == old(effects.log) + [TimerStarted(PingTimeoutMs), Sent(PingMessage())]
    ensures sendFailure.Some? ==>
      pending.history == [SendFailed(sendFailure.value)]
      && pending.settled == Some(Rejected(sendFailure.value))
      && effects.log == old(effects.log) + [TimerStarted(PingTimeoutMs)]
  {
    pending := new PendingCall(Ping);
    effects.log := effects.log + [TimerStarted(TimeoutMs(pending.call))];
    match sendFailure
    case Some(message) =>
      pending.OnSendFailure(message);
    case None =>
      effects.log := effects.log + [Sent(PingMessage())];
  }
}

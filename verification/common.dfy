/** Values shared by the two session managers: optional values, Python truthiness of
    optional strings, and the callback events a manager forwards to its listeners. */
module Common {

  datatype Option<+T> = None | Some(value: T)
  {
    /** The value held, or `default` when there is none. */
    function GetOr(default: T): T {
      if Some? then value else default
    }
  }

  /** Python's `bool(s)` for a value that is either `None` or a string:
      false for `None` and for the empty string, true otherwise. */
  predicate Truthy(s: Option<string>) {
    s.Some? && s.value != ""
  }

  /** The identity of a callable registered as a callback. */
  datatype Handler = Handler(id: nat)

  /** The events a manager hands to its callbacks, with their arguments. */
  datatype Event =
    | AgentResponse(response: string)
    | AgentResponseCorrection(original: string, corrected: string)
    | UserTranscript(transcript: string)
    | LatencyMeasurement(latency: real)
    | SessionEnded(info: Option<string>)

  /** One call of a registered callback. */
  datatype Invocation = Invocation(handler: Handler, event: Event)

  /** How a registered callback returns when it is called: normally, or by raising. */
  datatype HookOutcome = Returns | Raises(error: string)

  /** The calls made by `if callback: callback(event)`. */
  function Notify(callback: Option<Handler>, e: Event): (fired: seq<Invocation>)
    ensures |fired| <= 1
    ensures fired != [] <==> callback.Some?
    ensures fired != [] ==> fired[0] == Invocation(callback.value, e)
  {
    if callback.Some? then [Invocation(callback.value, e)] else []
  }
}

/** The LiveKit session manager: a flag-protocol session on a named room and an optional
    topic. Unlike the ElevenLabs manager it refuses to start while a session is active,
    and ending a session only clears the flag and notifies the session-end callback.

    The agent that the manager runs on a background thread is not part of this model;
    launching that thread is an outcome parameter of the start operation. */
module LiveKit {
  import opened Common

  const DefaultUrl: string := "ws://localhost:7880"
  const AlreadyActiveError: string := "Session already active"
  const StartedMessage: string := "LiveKit session started"
  const EndedMessage: string := "LiveKit session ended successfully"
  const NothingToEndMessage: string := "No active session to end"
  const TopicLead: string := "Today's topic is: "
  const TopicTail: string := ". "

  /** The three optional callbacks of the manager. Only `onSessionEnd` is ever called by it. */
  datatype Callbacks = Callbacks(
    onAgentResponse: Option<Handler>,
    onUserTranscript: Option<Handler>,
    onSessionEnd: Option<Handler>)

  const NoCallbacks: Callbacks := Callbacks(None, None, None)

  /** The settings read from the environment when the manager is created. */
  datatype Settings = Settings(
    apiKey: Option<string>,
    apiSecret: Option<string>,
    livekitUrl: string,
    sarvamApiKey: Option<string>,
    openaiApiKey: Option<string>)

  /** The fields of the manager. */
  datatype Manager = Manager(
    settings: Settings,
    roomName: Option<string>,
    isSessionActive: bool,
    currentTopic: Option<string>,
    callbacks: Callbacks)

  /** How launching the agent thread goes. */
  datatype LaunchOutcome = Launches | LaunchRaises(error: string)

  /** The dictionary returned by `start_livekit_session`. */
  datatype StartReply =
    | StartOk(message: string, roomName: Option<string>, topic: Option<string>, sessionActive: bool)
    | AlreadyActive(error: string)
    | StartErr(error: string, sessionActive: bool)
  {
    predicate Success() { StartOk? }
  }

  /** The dictionary returned by `end_livekit_session`. */
  datatype EndReply =
    | Ended(message: string, roomName: Option<string>)
    | NothingToEnd(message: string)
    | EndErr(error: string)
  {
    predicate Success() { !EndErr? }
  }

  /** The dictionary returned by `get_session_status`. */
  datatype SessionStatus = SessionStatus(
    sessionActive: bool,
    roomName: Option<string>,
    currentTopic: Option<string>,
    hasApiKeys: bool)

  /** The dictionary returned by the module's `set_topic`. */
  datatype TopicReply = TopicReply(success: bool, topic: Option<string>)

  /** The effect of one operation: the new fields, the reply and the callbacks invoked. */
  datatype Step<R> = Step(after: Manager, reply: R, fired: seq<Invocation>)

  /** The manager as `__init__` leaves it. */
  function Init(settings: Settings): (m: Manager)
    ensures !m.isSessionActive && m.roomName == None && m.currentTopic == None
    ensures m.callbacks == NoCallbacks && m.settings == settings
  {
    Manager(settings, None, false, None, NoCallbacks)
  }

  /** The settings for the five environment variables, with the URL's default. */
  function ReadSettings(apiKey: Option<string>, apiSecret: Option<string>, url: Option<string>,
                        sarvamApiKey: Option<string>, openaiApiKey: Option<string>): (s: Settings)
    ensures url.None? ==> s.livekitUrl == DefaultUrl
    ensures url.Some? ==> s.livekitUrl == url.value
    ensures s.apiKey == apiKey && s.apiSecret == apiSecret && s.sarvamApiKey == sarvamApiKey
  {
    Settings(apiKey, apiSecret, url.GetOr(DefaultUrl), sarvamApiKey, openaiApiKey)
  }

  /** `set_callbacks` replaces all three callbacks; nothing else changes. */
  function Register(m: Manager, callbacks: Callbacks): (after: Manager)
    ensures after.callbacks == callbacks
    ensures after.(callbacks := m.callbacks) == m
  {
    m.(callbacks := callbacks)
  }

  /** The topic-dependent part of the agent's instructions (`get_nani_instructions`):
      a sentence naming a truthy topic, and nothing otherwise. The topic can be read back
      from the sentence. */
  function TopicContext(topic: Option<string>): (s: string)
    ensures s != "" <==> Truthy(topic)
    ensures Truthy(topic) ==>
      && |s| == |TopicLead| + |topic.value| + |TopicTail|
      && s[..|TopicLead|] == TopicLead
      && s[|TopicLead|..|s| - |TopicTail|] == topic.value
      && s[|s| - |TopicTail|..] == TopicTail
  {
    if Truthy(topic) then TopicLead + topic.value + TopicTail else ""
  }

  /** `start_livekit_session`: refused while a session is active; otherwise the topic and
      room are recorded, and the flag is set once the agent thread has been launched. */
  function Start(m: Manager, topic: Option<string>, roomName: Option<string>, launch: LaunchOutcome): (s: Step<StartReply>)
    // Refusal changes nothing.
    ensures m.isSessionActive ==> s == Step(m, AlreadyActive(AlreadyActiveError), [])
    ensures !m.isSessionActive ==>
      && s.after == m.(currentTopic := topic, roomName := roomName, isSessionActive := s.after.isSessionActive)
      && (s.after.isSessionActive <==> launch.Launches?)
    ensures s.reply.Success() <==> !m.isSessionActive && launch.Launches?
    ensures s.reply.Success() ==> s.reply == StartOk(StartedMessage, roomName, topic, true)
    ensures s.reply.StartErr? ==> s.reply == StartErr(launch.error, false)
    ensures !m.isSessionActive && launch.LaunchRaises? ==> s.reply == StartErr(launch.error, false)
    ensures s.fired == []
  {
    if m.isSessionActive then
      Step(m, AlreadyActive(AlreadyActiveError), [])
    else
      var recorded := m.(currentTopic := topic, roomName := roomName);
      match launch
      case LaunchRaises(err) => Step(recorded, StartErr(err, false), [])
      case Launches =>
        Step(recorded.(isSessionActive := true), StartOk(StartedMessage, roomName, topic, true), [])
  }

  /** `end_livekit_session`: clears the flag and notifies the session-end callback with the
      room name; a no-op reporting success when no session is active. */
  function End(m: Manager, hook: HookOutcome): (s: Step<EndReply>)
    ensures !m.isSessionActive ==> s == Step(m, NothingToEnd(NothingToEndMessage), [])
    ensures m.isSessionActive ==>
      && s.after == m.(isSessionActive := false)
      && s.fired == Notify(m.callbacks.onSessionEnd, SessionEnded(m.roomName))
      && (s.reply.Success() <==> m.callbacks.onSessionEnd.None? || hook.Returns?)
      && (s.reply.Success() ==> s.reply == Ended(EndedMessage, m.roomName))
      && (s.reply.EndErr? ==> s.reply.error == hook.error)
    ensures !s.after.isSessionActive
  {
    if m.isSessionActive then
      var fired := Notify(m.callbacks.onSessionEnd, SessionEnded(m.roomName));
      var reply := if fired != [] && hook.Raises? then EndErr(hook.error) else Ended(EndedMessage, m.roomName);
      Step(m.(isSessionActive := false), reply, fired)
    else
      Step(m, NothingToEnd(NothingToEndMessage), [])
  }

  /** `get_session_status`: the flag, room and topic, and whether the three keys the agent
      needs are all present and non-empty. */
  function Report(m: Manager): (st: SessionStatus)
    ensures st.sessionActive == m.isSessionActive && st.roomName == m.roomName
    ensures st.currentTopic == m.currentTopic
    ensures st.hasApiKeys <==>
      forall key :: key in [m.settings.apiKey, m.settings.apiSecret, m.settings.sarvamApiKey] ==>
        key.Some? && |key.value| > 0
  {
    var keys := m.settings;
    SessionStatus(m.isSessionActive, m.roomName, m.currentTopic,
                  Truthy(keys.apiKey) && Truthy(keys.apiSecret) && Truthy(keys.sarvamApiKey))
  }

  /** The module's `set_topic`: records the topic whatever the session state, and succeeds. */
  function SetTopic(m: Manager, topic: Option<string>): (r: (Manager, TopicReply))
    ensures r.1 == TopicReply(true, topic)
    ensures r.0.currentTopic == topic && r.0.(currentTopic := m.currentTopic) == m
  {
    (m.(currentTopic := topic), TopicReply(true, topic))
  }

  // ---------------------------------------------------------------------------------------
  // Runs of operations: the session-end callback is called at most once per started session.

  datatype Call =
    | SetCallbacksCall(callbacks: Callbacks)
    | StartCall(topic: Option<string>, roomName: Option<string>, launch: LaunchOutcome)
    | EndCall(hook: HookOutcome)
    | StatusCall
    | SetTopicCall(topic: Option<string>)

  /** The state after a run, the callbacks it invoked, and how many of its starts succeeded. */
  datatype Trace = Trace(after: Manager, fired: seq<Invocation>, started: nat)

  function Apply(m: Manager, call: Call): Trace {
    match call
    case SetCallbacksCall(cbs) => Trace(Register(m, cbs), [], 0)
    case StartCall(topic, room, launch) =>
      var s := Start(m, topic, room, launch);
      Trace(s.after, s.fired, if s.reply.Success() then 1 else 0)
    case EndCall(hook) =>
      var s := End(m, hook);
      Trace(s.after, s.fired, 0)
    case StatusCall => Trace(m, [], 0)
    case SetTopicCall(topic) => Trace(SetTopic(m, topic).0, [], 0)
  }

  function Run(m: Manager, calls: seq<Call>): Trace
    decreases |calls|
  {
    if calls == [] then Trace(m, [], 0)
    else
      var first := Apply(m, calls[0]);
      var rest := Run(first.after, calls[1..]);
      Trace(rest.after, first.fired + rest.fired, first.started + rest.started)
  }

  function Live(m: Manager): nat {
    if m.isSessionActive then 1 else 0
  }

  /** Over any run, the callbacks invoked plus a session still live never outnumber the
      sessions that were live at the outset or started during the run. */
  lemma {:induction false} RunNotifiesOncePerSession(m: Manager, calls: seq<Call>)
    ensures var t := Run(m, calls); |t.fired| + Live(t.after) <= Live(m) + t.started
    decreases |calls|
  {
    if calls != [] {
      var first := Apply(m, calls[0]);
      RunNotifiesOncePerSession(first.after, calls[1..]);
      assert |first.fired| + Live(first.after) <= Live(m) + first.started;
    }
  }

  /** From a fresh manager, the session-end callback fires at most once for each session
      that was successfully started. */
  lemma SessionEndAtMostOncePerStart(settings: Settings, calls: seq<Call>)
    ensures |Run(Init(settings), calls).fired| <= Run(Init(settings), calls).started
  {
    RunNotifiesOncePerSession(Init(settings), calls);
  }

  // ---------------------------------------------------------------------------------------
  // The manager as an object whose fields its methods update.

  class LiveKitManager {
    const settings: Settings
    var roomName: Option<string>
    var isSessionActive: bool
    var currentTopic: Option<string>
    var onAgentResponse: Option<Handler>
    var onUserTranscript: Option<Handler>
    var onSessionEnd: Option<Handler>
    /** Every callback invocation, in order. */
    ghost var fired: seq<Invocation>

    /** The manager's fields as a value. */
    function Model(): Manager reads this {
      Manager(settings, roomName, isSessionActive, currentTopic,
              Callbacks(onAgentResponse, onUserTranscript, onSessionEnd))
    }

    constructor (apiKey: Option<string>, apiSecret: Option<string>, url: Option<string>,
                 sarvamApiKey: Option<string>, openaiApiKey: Option<string>)
      ensures Model() == Init(ReadSettings(apiKey, apiSecret, url, sarvamApiKey, openaiApiKey))
      ensures fired == []
    {
      settings := ReadSettings(apiKey, apiSecret, url, sarvamApiKey, openaiApiKey);
      roomName, isSessionActive, currentTopic := None, false, None;
      onAgentResponse, onUserTranscript, onSessionEnd := None, None, None;
      fired := [];
    }

    method SetCallbacks(agentResponse: Option<Handler>, userTranscript: Option<Handler>,
                        sessionEnd: Option<Handler>)
      modifies this
      ensures Model() == Register(old(Model()), Callbacks(agentResponse, userTranscript, sessionEnd))
      ensures fired == old(fired)
    {
      onAgentResponse := agentResponse;
      onUserTranscript := userTranscript;
      onSessionEnd := sessionEnd;
    }

    method StartLiveKitSession(topic: Option<string>, room: Option<string>, launch: LaunchOutcome)
      returns (reply: StartReply)
      modifies this
      ensures var s := Start(old(Model()), topic, room, launch);
        Model() == s.after && reply == s.reply && fired == old(fired)
    {
      if isSessionActive {
        return AlreadyActive(AlreadyActiveError);
      }
      currentTopic := topic;
      roomName := room;
      match launch
      case LaunchRaises(err) =>
        reply := StartErr(err, false);
      case Launches =>
        isSessionActive := true;
        reply := StartOk(StartedMessage, room, topic, isSessionActive);
    }

    method EndLiveKitSession(hook: HookOutcome) returns (reply: EndReply)
      modifies this
      ensures var s := End(old(Model()), hook);
        Model() == s.after && reply == s.reply && fired == old(fired) + s.fired
    {
      if isSessionActive {
        isSessionActive := false;
        reply := Ended(EndedMessage, roomName);
        if onSessionEnd.Some? {
          fired := fired + [Invocation(onSessionEnd.value, SessionEnded(roomName))];
          if hook.Raises? {
            reply := EndErr(hook.error);
          }
        }
      } else {
        reply := NothingToEnd(NothingToEndMessage);
      }
    }

    method GetSessionStatus() returns (st: SessionStatus)
      ensures st == Report(Model())
    {
      st := SessionStatus(isSessionActive, roomName, currentTopic,
                          Truthy(settings.apiKey) && Truthy(settings.apiSecret) && Truthy(settings.sarvamApiKey));
    }
  }

  /** The module-level `set_topic`, acting on the module's manager instance. */
  method SetManagerTopic(manager: LiveKitManager, topic: Option<string>) returns (reply: TopicReply)
    modifies manager
    ensures (manager.Model(), reply) == SetTopic(old(manager.Model()), topic)
    ensures manager.fired == old(manager.fired)
  {
    manager.currentTopic := topic;
    reply := TopicReply(true, topic);
  }
}

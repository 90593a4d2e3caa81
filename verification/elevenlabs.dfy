/** The ElevenLabs session manager: one conversational-AI session at a time, opened on a
    topic, closed on request, with events forwarded to optional callbacks.

    The SDK's `Conversation` objects are an abstract backend. Each one is named by the
    serial number the manager gives it when it is constructed, and every call the manager
    makes on one is recorded as a `BackendCall`. Whether a backend call succeeds or raises
    is a parameter of the operation that makes it. */
module ElevenLabs {
  import opened Common

  const DefaultAgentId: string := "your_agent_id_here"
  const StartedMessage: string := "Conversation started successfully"
  const EndedMessage: string := "Conversation ended successfully"
  const NothingToEndMessage: string := "No active session to end"
  const NoSessionError: string := "No active conversation session"
  const AudioSentMessage: string := "Audio sent to conversation"

  /** An SDK conversation object, identified by its construction serial number. */
  datatype Conversation = Conversation(serial: nat)

  /** The five optional callbacks of the manager. */
  datatype Callbacks = Callbacks(
    onAgentResponse: Option<Handler>,
    onUserTranscript: Option<Handler>,
    onAgentResponseCorrection: Option<Handler>,
    onLatencyMeasurement: Option<Handler>,
    onSessionEnd: Option<Handler>)
  {
    /** The callback that receives events of the kind of `e`. */
    function For(e: Event): Option<Handler> {
      match e
      case AgentResponse(_) => onAgentResponse
      case AgentResponseCorrection(_, _) => onAgentResponseCorrection
      case UserTranscript(_) => onUserTranscript
      case LatencyMeasurement(_) => onLatencyMeasurement
      case SessionEnded(_) => onSessionEnd
    }
  }

  const NoCallbacks: Callbacks := Callbacks(None, None, None, None, None)

  /** The fields of the manager. `created` counts the conversations constructed so far;
      the next one gets that number as its serial. */
  datatype Manager = Manager(
    apiKey: Option<string>,
    agentId: string,
    conversation: Option<Conversation>,
    currentTopic: Option<string>,
    conversationId: Option<string>,
    isSessionActive: bool,
    callbacks: Callbacks,
    created: nat)
  {
    /** An active session has a conversation, and the manager's conversation is one it made. */
    predicate Valid() {
      && (isSessionActive ==> conversation.Some?)
      && (conversation.Some? ==> conversation.value.serial < created)
    }
  }

  /** What the manager asks of a conversation object. */
  datatype Op =
    | Construct(agentId: string, requiresAuth: bool)
    | StartSession
    | EndSession

  datatype BackendCall = BackendCall(conv: Conversation, op: Op)

  /** How opening a conversation goes: the constructor raises, `start_session` raises, or both return. */
  datatype OpenOutcome = Opens | ConstructorRaises(error: string) | StartSessionRaises(error: string)

  /** How closing goes: `end_session` and `wait_for_session_end` return the final conversation
      id, or one of them raises. */
  datatype CloseOutcome = Closes(finalId: Option<string>) | CloseRaises(error: string)

  /** The dictionary returned by `start_conversation_session`. */
  datatype StartReply =
    | StartOk(message: string, topic: Option<string>, sessionActive: bool)
    | StartErr(error: string, sessionActive: bool)
  {
    predicate Success() { StartOk? }
  }

  /** The dictionary returned by `end_conversation_session`. */
  datatype EndReply =
    | Ended(message: string, conversationId: Option<string>)
    | NothingToEnd(message: string)
    | EndErr(error: string)
  {
    predicate Success() { !EndErr? }
  }

  /** The dictionary returned by `send_audio_to_conversation`. */
  datatype AudioReply = AudioSent(message: string) | AudioErr(error: string)
  {
    predicate Success() { AudioSent? }
  }

  /** The dictionary returned by `get_conversation_status`. */
  datatype Status = Status(
    sessionActive: bool,
    currentTopic: Option<string>,
    conversationId: Option<string>,
    agentId: string)

  /** The effect of one operation: the new fields, the reply, the calls made on conversation
      objects and the callbacks invoked, each in order. */
  datatype Step<R> = Step(after: Manager, reply: R, calls: seq<BackendCall>, fired: seq<Invocation>)

  /** The manager as `__init__` leaves it, given the two environment settings it reads. */
  function Init(apiKey: Option<string>, agentIdSetting: Option<string>): (m: Manager)
    ensures m.Valid() && !m.isSessionActive && m.created == 0
    ensures m.conversation == None && m.currentTopic == None && m.conversationId == None
    ensures m.callbacks == NoCallbacks && m.apiKey == apiKey
    ensures agentIdSetting.Some? ==> m.agentId == agentIdSetting.value
    ensures agentIdSetting.None? ==> m.agentId == DefaultAgentId
  {
    Manager(apiKey, agentIdSetting.GetOr(DefaultAgentId), None, None, None, false, NoCallbacks, 0)
  }

  /** `set_callbacks` replaces all five callbacks; nothing else changes. */
  function Register(m: Manager, callbacks: Callbacks): (after: Manager)
    ensures after.callbacks == callbacks
    ensures after.(callbacks := m.callbacks) == m
  {
    m.(callbacks := callbacks)
  }

  /** `create_or_update_agent` records the topic as given and reports success. */
  function ConfigureAgent(m: Manager, topic: Option<string>): (r: (Manager, bool))
    ensures r.1
    ensures r.0.currentTopic == topic && r.0.(currentTopic := m.currentTopic) == m
  {
    (m.(currentTopic := topic), true)
  }

  /** `end_conversation_session`. */
  function End(m: Manager, closing: CloseOutcome, hook: HookOutcome): (s: Step<EndReply>)
    // Nothing to end: a no-op that reports success.
    ensures !(m.conversation.Some? && m.isSessionActive) ==>
      s == Step(m, NothingToEnd(NothingToEndMessage), [], [])
    // An active session: the conversation is told to end exactly once, the flag is cleared
    // whatever happens, and only the flag and the conversation id change.
    ensures m.conversation.Some? && m.isSessionActive ==>
      && s.calls == [BackendCall(m.conversation.value, EndSession)]
      && !s.after.isSessionActive
      && s.after == m.(isSessionActive := false, conversationId := s.after.conversationId)
      && s.after.conversationId == (if closing.Closes? then closing.finalId else m.conversationId)
      && s.fired == (if closing.Closes? then Notify(m.callbacks.onSessionEnd, SessionEnded(s.after.conversationId)) else [])
      && (s.reply.Success() <==> closing.Closes? && (m.callbacks.onSessionEnd.None? || hook.Returns?))
      && (s.reply.Success() ==> s.reply == Ended(EndedMessage, s.after.conversationId))
      && (s.reply.EndErr? ==> s.reply.error == if closing.CloseRaises? then closing.error else hook.error)
    ensures m.Valid() ==> s.after.Valid() && !s.after.isSessionActive
  {
    if m.conversation.Some? && m.isSessionActive then
      var c := m.conversation.value;
      match closing
      case CloseRaises(err) =>
        Step(m.(isSessionActive := false), EndErr(err), [BackendCall(c, EndSession)], [])
      case Closes(finalId) =>
        var after := m.(conversationId := finalId, isSessionActive := false);
        var fired := Notify(m.callbacks.onSessionEnd, SessionEnded(finalId));
        var reply := if fired != [] && hook.Raises? then EndErr(hook.error) else Ended(EndedMessage, finalId);
        Step(after, reply, [BackendCall(c, EndSession)], fired)
    else
      Step(m, NothingToEnd(NothingToEndMessage), [], [])
  }

  /** The second half of `start_conversation_session`: construct a new conversation object
      and start its session. The flag is set only once `start_session` has returned. */
  function Open(m: Manager, opening: OpenOutcome): (s: Step<StartReply>)
    ensures s.fired == []
    ensures s.reply.Success() <==> opening.Opens?
    ensures s.reply.StartErr? ==> s.reply == StartErr(opening.error, false)
    ensures opening.ConstructorRaises? ==> s.after == m && s.calls == []
    ensures !opening.ConstructorRaises? ==>
      var c := Conversation(m.created);
      && s.calls == [BackendCall(c, Construct(m.agentId, Truthy(m.apiKey))), BackendCall(c, StartSession)]
      && s.after == m.(conversation := Some(c), created := m.created + 1,
                       isSessionActive := opening.Opens? || m.isSessionActive)
  {
    var c := Conversation(m.created);
    var openCalls := [BackendCall(c, Construct(m.agentId, Truthy(m.apiKey))), BackendCall(c, StartSession)];
    var made := m.(conversation := Some(c), created := m.created + 1);
    match opening
    case ConstructorRaises(err) => Step(m, StartErr(err, false), [], [])
    case StartSessionRaises(err) => Step(made, StartErr(err, false), openCalls, [])
    case Opens =>
      Step(made.(isSessionActive := true), StartOk(StartedMessage, m.currentTopic, true), openCalls, [])
  }

  /** The manager once a live session has been ended (if there is one) and a truthy topic
      recorded: the state in which `start_conversation_session` constructs the new conversation. */
  function Prepare(m: Manager, topic: Option<string>, closing: CloseOutcome, hook: HookOutcome): (s: Step<EndReply>)
    ensures s == (if m.isSessionActive then End(m, closing, hook) else Step(m, NothingToEnd(NothingToEndMessage), [], []))
                 .(after := s.after)
    ensures s.after == (if m.isSessionActive then End(m, closing, hook).after else m)
                         .(currentTopic := if Truthy(topic) then topic else m.currentTopic)
  {
    var ended := if m.isSessionActive then End(m, closing, hook)
                 else Step(m, NothingToEnd(NothingToEndMessage), [], []);
    if Truthy(topic) then ended.(after := ended.after.(currentTopic := topic)) else ended
  }

  /** `start_conversation_session`: a live session is ended first (whatever that reports),
      a truthy topic replaces the current one, then a new conversation is constructed
      and started. */
  function Start(m: Manager, topic: Option<string>, closing: CloseOutcome, hook: HookOutcome,
                 opening: OpenOutcome): (s: Step<StartReply>)
    ensures s.reply.Success() <==> opening.Opens?
    ensures s.reply.StartOk? ==>
      s.after.isSessionActive && s.reply == StartOk(StartedMessage, s.after.currentTopic, true)
    ensures s.reply.StartErr? ==> !s.reply.sessionActive && s.reply.error == opening.error
    ensures m.Valid() ==> s.after.Valid() && (s.after.isSessionActive <==> opening.Opens?)
    // The topic changes only when the new one is truthy.
    ensures s.after.currentTopic == if Truthy(topic) then topic else m.currentTopic
    // A successful start always holds a conversation that did not exist before.
    ensures opening.Opens? ==> s.after.conversation == Some(Conversation(m.created))
    // A constructor that raises leaves the old conversation in place; a `start_session` that
    // raises leaves the new, never-started one.
    ensures opening.ConstructorRaises? ==> s.after.conversation == m.conversation
    ensures opening.StartSessionRaises? ==> s.after.conversation == Some(Conversation(m.created))
    // Replacing a live session leaves that session's final id in `conversation_id`.
    ensures s.after.conversationId ==
      if m.isSessionActive && m.conversation.Some? && closing.Closes? then closing.finalId else m.conversationId
    ensures s.after.callbacks == m.callbacks && s.after.apiKey == m.apiKey && s.after.agentId == m.agentId
    // The old conversation is told to end before the new one is constructed.
    ensures m.Valid() ==>
      s.calls == (if m.isSessionActive then [BackendCall(m.conversation.value, EndSession)] else [])
                 + (if opening.ConstructorRaises? then []
                    else [BackendCall(Conversation(m.created), Construct(m.agentId, Truthy(m.apiKey))),
                          BackendCall(Conversation(m.created), StartSession)])
    // The only callback invoked is the old session's end notification.
    ensures s.fired == if m.isSessionActive then End(m, closing, hook).fired else []
  {
    var prepared := Prepare(m, topic, closing, hook);
    var made := Open(prepared.after, opening);
    Step(made.after, made.reply, prepared.calls + made.calls, prepared.fired)
  }

  /** `get_conversation_status`. */
  function Report(m: Manager): (st: Status)
    ensures st.sessionActive == m.isSessionActive && st.currentTopic == m.currentTopic
    ensures st.conversationId == m.conversationId && st.agentId == m.agentId
  {
    Status(m.isSessionActive, m.currentTopic, m.conversationId, m.agentId)
  }

  /** `send_audio_to_conversation`: refused unless a session is active on a conversation. */
  function SendAudio(m: Manager, audio: seq<bv8>): (r: AudioReply)
    ensures r.Success() <==> m.isSessionActive && m.conversation.Some?
    ensures !r.Success() ==> r == AudioErr(NoSessionError)
    ensures r.Success() ==> r == AudioSent(AudioSentMessage)
  {
    if !m.isSessionActive || m.conversation.None? then AudioErr(NoSessionError)
    else AudioSent(AudioSentMessage)
  }

  /** The `_handle_*` forwarders: an SDK event reaches the matching callback if it is set. */
  function Forward(callbacks: Callbacks, e: Event): (fired: seq<Invocation>)
    requires !e.SessionEnded?
    ensures fired == [] <==> callbacks.For(e).None?
    ensures fired != [] ==> fired == [Invocation(callbacks.For(e).value, e)]
  {
    Notify(callbacks.For(e), e)
  }

  // ---------------------------------------------------------------------------------------
  // Runs of operations, and the life of each conversation object.

  /** One call into the manager, with the outcomes of the backend calls it makes. */
  datatype Call =
    | SetCallbacksCall(callbacks: Callbacks)
    | CreateOrUpdateAgentCall(topic: Option<string>)
    | StartCall(topic: Option<string>, closing: CloseOutcome, hook: HookOutcome, opening: OpenOutcome)
    | EndCall(closing: CloseOutcome, hook: HookOutcome)
    | StatusCall
    | SendAudioCall(audio: seq<bv8>)
    | SdkEvent(event: Event)

  datatype Trace = Trace(after: Manager, calls: seq<BackendCall>, fired: seq<Invocation>)

  function Apply(m: Manager, call: Call): Trace {
    match call
    case SetCallbacksCall(cbs) => Trace(Register(m, cbs), [], [])
    case CreateOrUpdateAgentCall(topic) => Trace(ConfigureAgent(m, topic).0, [], [])
    case StartCall(topic, closing, hook, opening) =>
      var s := Start(m, topic, closing, hook, opening);
      Trace(s.after, s.calls, s.fired)
    case EndCall(closing, hook) =>
      var s := End(m, closing, hook);
      Trace(s.after, s.calls, s.fired)
    case StatusCall => Trace(m, [], [])
    case SendAudioCall(_) => Trace(m, [], [])
    case SdkEvent(e) => Trace(m, [], if e.SessionEnded? then [] else Forward(m.callbacks, e))
  }

  /** The calls of `calls`, made one after the other from `m`. */
  function Run(m: Manager, calls: seq<Call>): Trace
    decreases |calls|
  {
    if calls == [] then Trace(m, [], [])
    else
      var first := Apply(m, calls[0]);
      var rest := Run(first.after, calls[1..]);
      Trace(rest.after, first.calls + rest.calls, first.fired + rest.fired)
  }

  /** The operations made on conversation `c`, in order. */
  function History(log: seq<BackendCall>, c: Conversation): seq<Op>
    decreases |log|
  {
    if log == [] then []
    else
      var last := log[|log| - 1];
      History(log[..|log| - 1], c) + (if last.conv == c then [last.op] else [])
  }

  /** The life of one conversation: constructed, started, ended, each at most once and in
      that order. */
  predicate Lifecycle(h: seq<Op>) {
    && |h| <= 3
    && (|h| >= 1 ==> h[0].Construct?)
    && (|h| >= 2 ==> h[1] == StartSession)
    && (|h| >= 3 ==> h[2] == EndSession)
  }

  /** The manager's fields agree with the calls it has made: every conversation has followed
      its lifecycle, conversations not yet made have seen no call, and the conversation of an
      active session has been started and not ended. */
  ghost predicate Consistent(m: Manager, log: seq<BackendCall>) {
    && m.Valid()
    && (forall c: Conversation :: Lifecycle(History(log, c)))
    && (forall c: Conversation :: c.serial >= m.created ==> History(log, c) == [])
    && (m.isSessionActive ==> |History(log, m.conversation.value)| == 2)
  }

  lemma {:induction false} HistoryAppend(log: seq<BackendCall>, more: seq<BackendCall>, c: Conversation)
    ensures History(log + more, c) == History(log, c) + History(more, c)
    decreases |more|
  {
    if more == [] {
      assert log + more == log;
    } else {
      var init := more[..|more| - 1];
      HistoryAppend(log, init, c);
      assert (log + more)[..|log + more| - 1] == log + init;
    }
  }

  lemma EndConsistent(m: Manager, log: seq<BackendCall>, closing: CloseOutcome, hook: HookOutcome)
    requires Consistent(m, log)
    ensures Consistent(End(m, closing, hook).after, log + End(m, closing, hook).calls)
  {
    var s := End(m, closing, hook);
    if m.conversation.Some? && m.isSessionActive {
      var cur := m.conversation.value;
      forall c ensures History(log + s.calls, c) == History(log, c) + (if c == cur then [EndSession] else []) {
        HistoryAppend(log, s.calls, c);
        assert s.calls[..0] == [];
      }
    } else {
      assert log + s.calls == log;
    }
  }

  lemma HistoryOfPair(a: BackendCall, b: BackendCall, c: Conversation)
    ensures History([a, b], c) == (if a.conv == c then [a.op] else []) + (if b.conv == c then [b.op] else [])
  {
    assert [a, b][..1] == [a];
    assert [a][..0] == [];
    assert History([a], c) == (if a.conv == c then [a.op] else []);
  }

  lemma PrepareConsistent(m: Manager, log: seq<BackendCall>, topic: Option<string>, closing: CloseOutcome,
                          hook: HookOutcome)
    requires Consistent(m, log)
    ensures var s := Prepare(m, topic, closing, hook);
      Consistent(s.after, log + s.calls) && !s.after.isSessionActive
  {
    if m.isSessionActive {
      EndConsistent(m, log, closing, hook);
    } else {
      assert log + [] == log;
    }
  }

  lemma OpenConsistent(m: Manager, log: seq<BackendCall>, opening: OpenOutcome)
    requires Consistent(m, log) && !m.isSessionActive
    ensures Consistent(Open(m, opening).after, log + Open(m, opening).calls)
  {
    var s := Open(m, opening);
    if !opening.ConstructorRaises? {
      var c := Conversation(m.created);
      var a, b := BackendCall(c, Construct(m.agentId, Truthy(m.apiKey))), BackendCall(c, StartSession);
      forall d: Conversation
        ensures History(log + s.calls, d) == History(log, d) + (if d == c then [a.op, StartSession] else [])
      {
        HistoryAppend(log, s.calls, d);
        HistoryOfPair(a, b, d);
      }
      assert History(log, c) == [];
    } else {
      assert log + s.calls == log;
    }
  }

  lemma StartConsistent(m: Manager, log: seq<BackendCall>, topic: Option<string>, closing: CloseOutcome,
                        hook: HookOutcome, opening: OpenOutcome)
    requires Consistent(m, log)
    ensures Consistent(Start(m, topic, closing, hook, opening).after, log + Start(m, topic, closing, hook, opening).calls)
  {
    var prepared := Prepare(m, topic, closing, hook);
    PrepareConsistent(m, log, topic, closing, hook);
    OpenConsistent(prepared.after, log + prepared.calls, opening);
    var made := Open(prepared.after, opening);
    assert log + prepared.calls + made.calls == log + Start(m, topic, closing, hook, opening).calls;
  }

  lemma StepConsistent(m: Manager, log: seq<BackendCall>, call: Call)
    requires Consistent(m, log)
    ensures Consistent(Apply(m, call).after, log + Apply(m, call).calls)
  {
    match call
    case StartCall(topic, closing, hook, opening) => StartConsistent(m, log, topic, closing, hook, opening);
    case EndCall(closing, hook) => EndConsistent(m, log, closing, hook);
    case _ => assert log + Apply(m, call).calls == log;
  }

  lemma {:induction false} RunConsistent(m: Manager, log: seq<BackendCall>, calls: seq<Call>)
    requires Consistent(m, log)
    ensures Consistent(Run(m, calls).after, log + Run(m, calls).calls)
    decreases |calls|
  {
    if calls == [] {
      assert log + Run(m, calls).calls == log;
    } else {
      var first := Apply(m, calls[0]);
      var rest := Run(first.after, calls[1..]);
      assert Run(m, calls) == Trace(rest.after, first.calls + rest.calls, first.fired + rest.fired);
      StepConsistent(m, log, calls[0]);
      RunConsistent(first.after, log + first.calls, calls[1..]);
      assert (log + first.calls) + rest.calls == log + (first.calls + rest.calls);
    }
  }

  /** Whatever the callers do and however the backend behaves, every conversation object the
      manager makes is constructed, then started, then ended, each at most once: a conversation
      is never told to end twice, nor before it was started. */
  lemma {:induction false} EveryConversationFollowsItsLifecycle(apiKey: Option<string>, agentIdSetting: Option<string>,
                                                 calls: seq<Call>, c: Conversation)
    ensures Lifecycle(History(Run(Init(apiKey, agentIdSetting), calls).calls, c))
  {
    var m := Init(apiKey, agentIdSetting);
    assert Consistent(m, []);
    RunConsistent(m, [], calls);
    assert [] + Run(m, calls).calls == Run(m, calls).calls;
  }

  /** Ending twice: the second call finds nothing to end, whatever the backend does. */
  lemma EndTwice(m: Manager, closing: CloseOutcome, hook: HookOutcome, closing': CloseOutcome, hook': HookOutcome)
    requires m.Valid()
    ensures var once := End(m, closing, hook).after;
      End(once, closing', hook') == Step(once, NothingToEnd(NothingToEndMessage), [], [])
  {
  }

  // ---------------------------------------------------------------------------------------
  // The manager as an object whose fields its methods update.

  class ElevenLabsManager {
    const apiKey: Option<string>
    const agentId: string
    var conversation: Option<Conversation>
    var currentTopic: Option<string>
    var conversationId: Option<string>
    var isSessionActive: bool
    var onAgentResponse: Option<Handler>
    var onUserTranscript: Option<Handler>
    var onAgentResponseCorrection: Option<Handler>
    var onLatencyMeasurement: Option<Handler>
    var onSessionEnd: Option<Handler>
    /** The number of conversation objects constructed so far. */
    var created: nat
    /** Every call made on a conversation object, in order. */
    ghost var calls: seq<BackendCall>
    /** Every callback invocation, in order. */
    ghost var fired: seq<Invocation>

    function RegisteredCallbacks(): Callbacks reads this {
      Callbacks(onAgentResponse, onUserTranscript, onAgentResponseCorrection,
                           onLatencyMeasurement, onSessionEnd)
    }

    /** The manager's fields as a value. */
    function Model(): Manager reads this {
      Manager(apiKey, agentId, conversation, currentTopic, conversationId, isSessionActive,
              RegisteredCallbacks(), created)
    }

    ghost predicate Valid() reads this {
      Consistent(Model(), calls)
    }

    constructor (apiKeySetting: Option<string>, agentIdSetting: Option<string>)
      ensures Model() == Init(apiKeySetting, agentIdSetting)
      ensures calls == [] && fired == [] && Valid()
    {
      apiKey := apiKeySetting;
      agentId := agentIdSetting.GetOr(DefaultAgentId);
      conversation := None;
      currentTopic := None;
      conversationId := None;
      isSessionActive := false;
      onAgentResponse, onUserTranscript, onAgentResponseCorrection := None, None, None;
      onLatencyMeasurement, onSessionEnd := None, None;
      created := 0;
      calls, fired := [], [];
    }

    method SetCallbacks(agentResponse: Option<Handler>, userTranscript: Option<Handler>,
                        agentResponseCorrection: Option<Handler>, latencyMeasurement: Option<Handler>,
                        sessionEnd: Option<Handler>)
      requires Valid()
      modifies this
      ensures Model() == Register(old(Model()),
        Callbacks(agentResponse, userTranscript, agentResponseCorrection, latencyMeasurement, sessionEnd))
      ensures calls == old(calls) && fired == old(fired)
      ensures Valid()
    {
      onAgentResponse := agentResponse;
      onUserTranscript := userTranscript;
      onAgentResponseCorrection := agentResponseCorrection;
      onLatencyMeasurement := latencyMeasurement;
      onSessionEnd := sessionEnd;
      StepConsistent(old(Model()), old(calls), SetCallbacksCall(RegisteredCallbacks()));
    }

    method CreateOrUpdateAgent(topic: Option<string>) returns (ok: bool)
      requires Valid()
      modifies this
      ensures (Model(), ok) == ConfigureAgent(old(Model()), topic)
      ensures calls == old(calls) && fired == old(fired)
      ensures Valid()
    {
      currentTopic := topic;
      ok := true;
      StepConsistent(old(Model()), old(calls), CreateOrUpdateAgentCall(topic));
    }

    method EndConversationSession(closing: CloseOutcome, hook: HookOutcome) returns (reply: EndReply)
      requires Valid()
      modifies this
      ensures var s := End(old(Model()), closing, hook);
        Model() == s.after && reply == s.reply
        && calls == old(calls) + s.calls && fired == old(fired) + s.fired
      ensures Valid()
    {
      if conversation.Some? && isSessionActive {
        var c := conversation.value;
        calls := calls + [BackendCall(c, EndSession)];
        match closing
        case CloseRaises(err) => {
          isSessionActive := false;
          reply := EndErr(err);
        }
        case Closes(finalId) => {
          conversationId := finalId;
          isSessionActive := false;
          reply := Ended(EndedMessage, conversationId);
          if onSessionEnd.Some? {
            fired := fired + [Invocation(onSessionEnd.value, SessionEnded(conversationId))];
            if hook.Raises? {
              reply := EndErr(hook.error);
            }
          }
        }
      } else {
        reply := NothingToEnd(NothingToEndMessage);
      }
      EndConsistent(old(Model()), old(calls), closing, hook);
    }

    method StartConversationSession(topic: Option<string>, closing: CloseOutcome, hook: HookOutcome,
                                    opening: OpenOutcome) returns (reply: StartReply)
      requires Valid()
      modifies this
      ensures var s := Start(old(Model()), topic, closing, hook, opening);
        Model() == s.after && reply == s.reply
        && calls == old(calls) + s.calls && fired == old(fired) + s.fired
      ensures Valid()
    {
      PrepareSession(topic, closing, hook);
      ghost var m1, log1 := Model(), calls;
      reply := OpenConversation(opening);
      assert old(calls) + Prepare(old(Model()), topic, closing, hook).calls + Open(m1, opening).calls
          == old(calls) + Start(old(Model()), topic, closing, hook, opening).calls;
    }

    /** End a live session and record a truthy topic (the part of
        `start_conversation_session` before the new conversation is constructed). */
    method PrepareSession(topic: Option<string>, closing: CloseOutcome, hook: HookOutcome)
      requires Valid()
      modifies this
      ensures var s := Prepare(old(Model()), topic, closing, hook);
        Model() == s.after && calls == old(calls) + s.calls && fired == old(fired) + s.fired
      ensures Valid() && !isSessionActive
    {
      if isSessionActive {
        var _ := EndConversationSession(closing, hook);
      }
      if Truthy(topic) {
        currentTopic := topic;
      }
      PrepareConsistent(old(Model()), old(calls), topic, closing, hook);
    }

    /** Construct a new conversation object and start its session (the part of
        `start_conversation_session` after the old session is ended). */
    method OpenConversation(opening: OpenOutcome) returns (reply: StartReply)
      requires Valid() && !isSessionActive
      modifies this
      ensures var s := Open(old(Model()), opening);
        Model() == s.after && reply == s.reply && calls == old(calls) + s.calls && fired == old(fired)
      ensures Valid()
    {
      if opening.ConstructorRaises? {
        reply := StartErr(opening.error, false);
      } else {
        var c := Conversation(created);
        conversation := Some(c);
        created := created + 1;
        calls := calls + [BackendCall(c, Construct(agentId, Truthy(apiKey))), BackendCall(c, StartSession)];
        if opening.StartSessionRaises? {
          reply := StartErr(opening.error, false);
        } else {
          isSessionActive := true;
          reply := StartOk(StartedMessage, currentTopic, isSessionActive);
        }
      }
      OpenConsistent(old(Model()), old(calls), opening);
    }

    method GetConversationStatus() returns (st: Status)
      ensures st == Report(Model())
    {
      st := Status(isSessionActive, currentTopic, conversationId, agentId);
    }

    method SendAudioToConversation(audio: seq<bv8>) returns (reply: AudioReply)
      ensures reply == SendAudio(Model(), audio)
    {
      if !isSessionActive || conversation.None? {
        reply := AudioErr(NoSessionError);
      } else {
        reply := AudioSent(AudioSentMessage);
      }
    }

    method HandleAgentResponse(response: string)
      modifies this`fired
      ensures fired == old(fired) + Forward(RegisteredCallbacks(), AgentResponse(response))
    {
      if onAgentResponse.Some? {
        fired := fired + [Invocation(onAgentResponse.value, AgentResponse(response))];
      }
    }

    method HandleAgentResponseCorrection(original: string, corrected: string)
      modifies this`fired
      ensures fired == old(fired) + Forward(RegisteredCallbacks(), AgentResponseCorrection(original, corrected))
    {
      if onAgentResponseCorrection.Some? {
        fired := fired + [Invocation(onAgentResponseCorrection.value, AgentResponseCorrection(original, corrected))];
      }
    }

    method HandleUserTranscript(transcript: string)
      modifies this`fired
      ensures fired == old(fired) + Forward(RegisteredCallbacks(), UserTranscript(transcript))
    {
      if onUserTranscript.Some? {
        fired := fired + [Invocation(onUserTranscript.value, UserTranscript(transcript))];
      }
    }

    method HandleLatencyMeasurement(latency: real)
      modifies this`fired
      ensures fired == old(fired) + Forward(RegisteredCallbacks(), LatencyMeasurement(latency))
    {
      if onLatencyMeasurement.Some? {
        fired := fired + [Invocation(onLatencyMeasurement.value, LatencyMeasurement(latency))];
      }
    }
  }
}

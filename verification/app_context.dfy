/** The front end's application state: a reducer over the app record, two records updated
    by partial merges, and the provider whose helpers combine them. */
module AppContext {
  import opened Common

  datatype AppState = AppState(
    isListening: bool,
    isConnected: bool,
    currentTopic: Option<string>,
    aiResponse: Option<string>,
    userTranscript: Option<string>,
    imageUrl: Option<string>,
    highlightWord: Option<string>,
    isLoading: bool,
    error: Option<string>)

  datatype VoiceStatus = Idle | Listening | Processing | Speaking

  /** `volume` is a JavaScript number; the model only stores and copies it. */
  datatype VoiceState = VoiceState(isListening: bool, isProcessing: bool, volume: real, status: VoiceStatus)

  datatype Emotion = Happy | Excited | Thinking | Neutral

  datatype Animation = Idle | Talking | Gesturing | Celebrating

  datatype AvatarState = AvatarState(isSpeaking: bool, emotion: Emotion, animation: Animation)

  /** `Partial<VoiceState>`: each field is present or absent. */
  datatype VoicePatch = VoicePatch(
    isListening: Option<bool>,
    isProcessing: Option<bool>,
    volume: Option<real>,
    status: Option<VoiceStatus>)

  /** `Partial<AvatarState>`. */
  datatype AvatarPatch = AvatarPatch(
    isSpeaking: Option<bool>,
    emotion: Option<Emotion>,
    animation: Option<Animation>)

  /** The action union the reducer is typed over. */
  datatype Action =
    | SetListening(listening: bool)
    | SetConnected(connected: bool)
    | SetTopic(topic: string)
    | SetAiResponse(response: string)
    | SetUserTranscript(transcript: string)
    | SetImage(url: string, word: Option<string>)
    | SetLoading(loading: bool)
    | SetError(error: Option<string>)
    | SetVoiceState(voice: VoicePatch)
    | SetAvatarState(avatar: AvatarPatch)

  const InitialAppState: AppState :=
    AppState(false, false, None, None, None, None, None, false, None)

  const InitialVoiceState: VoiceState := VoiceState(false, false, 0.0, VoiceStatus.Idle)

  const InitialAvatarState: AvatarState := AvatarState(false, Neutral, Animation.Idle)

  /** The initial records: nothing is on, nothing is chosen, the voice is idle and the
      avatar neutral and still. */
  lemma InitialStatesAreBlank()
    ensures var s := InitialAppState;
      && !s.isListening && !s.isConnected && !s.isLoading
      && s.currentTopic == s.aiResponse == s.userTranscript == s.imageUrl == s.highlightWord == s.error == None
    ensures !InitialVoiceState.isListening && !InitialVoiceState.isProcessing
    ensures InitialVoiceState.status == VoiceStatus.Idle
    ensures !InitialAvatarState.isSpeaking && InitialAvatarState.emotion == Neutral
    ensures InitialAvatarState.animation == Animation.Idle
  {
  }

  /** The fields of the app record, by name. */
  datatype Field =
    | IsListeningField | IsConnectedField | CurrentTopicField | AiResponseField | UserTranscriptField
    | ImageUrlField | HighlightWordField | IsLoadingField | ErrorField

  /** `s` and `t` hold the same value in field `f`. */
  predicate Agree(s: AppState, t: AppState, f: Field) {
    match f
    case IsListeningField => s.isListening == t.isListening
    case IsConnectedField => s.isConnected == t.isConnected
    case CurrentTopicField => s.currentTopic == t.currentTopic
    case AiResponseField => s.aiResponse == t.aiResponse
    case UserTranscriptField => s.userTranscript == t.userTranscript
    case ImageUrlField => s.imageUrl == t.imageUrl
    case HighlightWordField => s.highlightWord == t.highlightWord
    case IsLoadingField => s.isLoading == t.isLoading
    case ErrorField => s.error == t.error
  }

  /** The fields an action is meant to write. The voice and avatar actions name none: the
      reducer has no case for them. */
  function Targets(a: Action): set<Field> {
    match a
    case SetListening(_) => {IsListeningField}
    case SetConnected(_) => {IsConnectedField}
    case SetTopic(_) => {CurrentTopicField}
    case SetAiResponse(_) => {AiResponseField}
    case SetUserTranscript(_) => {UserTranscriptField}
    case SetImage(_, _) => {ImageUrlField, HighlightWordField}
    case SetLoading(_) => {IsLoadingField}
    case SetError(_) => {ErrorField}
    case SetVoiceState(_) => {}
    case SetAvatarState(_) => {}
  }

  /** The targeted fields of `s` hold the action's payload. */
  predicate Carries(s: AppState, a: Action) {
    match a
    case SetListening(b) => s.isListening == b
    case SetConnected(b) => s.isConnected == b
    case SetTopic(topic) => s.currentTopic == Some(topic)
    case SetAiResponse(response) => s.aiResponse == Some(response)
    case SetUserTranscript(transcript) => s.userTranscript == Some(transcript)
    case SetImage(url, word) => s.imageUrl == Some(url) && s.highlightWord == word
    case SetLoading(b) => s.isLoading == b
    case SetError(e) => s.error == e
    case SetVoiceState(_) => true
    case SetAvatarState(_) => true
  }

  /** `appReducer`: every handled action overwrites its own fields with the payload and
      copies the rest; the voice and avatar actions fall to the default case. */
  function Reduce(s: AppState, a: Action): (r: AppState)
    ensures forall f :: f !in Targets(a) ==> Agree(s, r, f)
    ensures Carries(r, a)
    ensures a.SetVoiceState? || a.SetAvatarState? ==> r == s
  {
    match a
    case SetListening(b) => s.(isListening := b)
    case SetConnected(b) => s.(isConnected := b)
    case SetTopic(topic) => s.(currentTopic := Some(topic))
    case SetAiResponse(response) => s.(aiResponse := Some(response))
    case SetUserTranscript(transcript) => s.(userTranscript := Some(transcript))
    case SetImage(url, word) => s.(imageUrl := Some(url), highlightWord := word)
    case SetLoading(b) => s.(isLoading := b)
    case SetError(e) => s.(error := e)
    case _ => s
  }

  /** Dispatching the same action twice has the effect of dispatching it once. */
  lemma ReduceIdempotent(s: AppState, a: Action)
    ensures Reduce(Reduce(s, a), a) == Reduce(s, a)
  {
  }

  /** The actions of `acts`, dispatched in order. */
  function ReduceAll(s: AppState, acts: seq<Action>): AppState
    decreases |acts|
  {
    if acts == [] then s else ReduceAll(Reduce(s, acts[0]), acts[1..])
  }

  /** A field that no dispatched action targets keeps its value through any sequence of
      dispatches. */
  lemma {:induction false} ReduceAllKeepsUntargeted(s: AppState, acts: seq<Action>, f: Field)
    requires forall i :: 0 <= i < |acts| ==> f !in Targets(acts[i])
    ensures Agree(s, ReduceAll(s, acts), f)
    decreases |acts|
  {
    if acts != [] {
      var next := Reduce(s, acts[0]);
      ReduceAllKeepsUntargeted(next, acts[1..], f);
      assert Agree(s, next, f);
    }
  }

  /** `{ ...prev, ...patch }` for the voice record. */
  function MergeVoice(prev: VoiceState, patch: VoicePatch): (r: VoiceState)
    ensures patch.isListening.None? ==> r.isListening == prev.isListening
    ensures patch.isListening.Some? ==> r.isListening == patch.isListening.value
    ensures patch.isProcessing.None? ==> r.isProcessing == prev.isProcessing
    ensures patch.isProcessing.Some? ==> r.isProcessing == patch.isProcessing.value
    ensures patch.volume.None? ==> r.volume == prev.volume
    ensures patch.volume.Some? ==> r.volume == patch.volume.value
    ensures patch.status.None? ==> r.status == prev.status
    ensures patch.status.Some? ==> r.status == patch.status.value
  {
    VoiceState(patch.isListening.GetOr(prev.isListening), patch.isProcessing.GetOr(prev.isProcessing),
               patch.volume.GetOr(prev.volume), patch.status.GetOr(prev.status))
  }

  /** `{ ...prev, ...patch }` for the avatar record. */
  function MergeAvatar(prev: AvatarState, patch: AvatarPatch): (r: AvatarState)
    ensures patch.isSpeaking.None? ==> r.isSpeaking == prev.isSpeaking
    ensures patch.isSpeaking.Some? ==> r.isSpeaking == patch.isSpeaking.value
    ensures patch.emotion.None? ==> r.emotion == prev.emotion
    ensures patch.emotion.Some? ==> r.emotion == patch.emotion.value
    ensures patch.animation.None? ==> r.animation == prev.animation
    ensures patch.animation.Some? ==> r.animation == patch.animation.value
  {
    AvatarState(patch.isSpeaking.GetOr(prev.isSpeaking), patch.emotion.GetOr(prev.emotion),
                patch.animation.GetOr(prev.animation))
  }

  /** The later of two optional fields: `b` if present, else `a`. */
  function Later<T>(a: Option<T>, b: Option<T>): Option<T> {
    if b.Some? then b else a
  }

  /** The spread `{ ...p, ...q }` of two partial voice records. */
  function ThenVoice(p: VoicePatch, q: VoicePatch): VoicePatch {
    VoicePatch(Later(p.isListening, q.isListening), Later(p.isProcessing, q.isProcessing),
               Later(p.volume, q.volume), Later(p.status, q.status))
  }

  /** The spread `{ ...p, ...q }` of two partial avatar records. */
  function ThenAvatar(p: AvatarPatch, q: AvatarPatch): AvatarPatch {
    AvatarPatch(Later(p.isSpeaking, q.isSpeaking), Later(p.emotion, q.emotion), Later(p.animation, q.animation))
  }

  /** Two successive `setVoiceState` calls have the effect of one call with the combined
      partial record, and repeating a call changes nothing further. */
  lemma MergeVoiceComposes(s: VoiceState, p: VoicePatch, q: VoicePatch)
    ensures MergeVoice(MergeVoice(s, p), q) == MergeVoice(s, ThenVoice(p, q))
    ensures MergeVoice(MergeVoice(s, p), p) == MergeVoice(s, p)
  {
  }

  /** The same for `setAvatarState`. */
  lemma MergeAvatarComposes(s: AvatarState, p: AvatarPatch, q: AvatarPatch)
    ensures MergeAvatar(MergeAvatar(s, p), q) == MergeAvatar(s, ThenAvatar(p, q))
    ensures MergeAvatar(MergeAvatar(s, p), p) == MergeAvatar(s, p)
  {
  }

  /** The partial records `startListening` and `stopListening` merge. */
  const ListeningVoice: VoicePatch := VoicePatch(Some(true), None, None, Some(VoiceStatus.Listening))
  const ListeningAvatar: AvatarPatch := AvatarPatch(None, Some(Excited), Some(Gesturing))
  const StoppedVoice: VoicePatch := VoicePatch(Some(false), None, None, Some(VoiceStatus.Idle))
  const StoppedAvatar: AvatarPatch := AvatarPatch(None, Some(Neutral), Some(Animation.Idle))
  const SpeakingAvatar: AvatarPatch := AvatarPatch(Some(true), None, Some(Talking))

  const SetTopicFailure: string := "Failed to set topic"

  /** The JSON body of a successful `/create_image` answer: the image address, and the
      `highlight_word` key if the server sent one (`undefined` is modelled as `None`). */
  datatype ImageAnswer = ImageAnswer(imageUrl: string, highlightWord: Option<string>)

  /** A message the provider sends over its socket. */
  datatype Emit = StartConversation(topic: Option<string>) | EndConversation

  /** The provider: the three state cells, whether a socket has been opened, and the
      socket messages sent so far. */
  class AppProvider {
    var appState: AppState
    var voiceState: VoiceState
    var avatarState: AvatarState
    var hasSocket: bool
    ghost var emitted: seq<Emit>

    constructor ()
      ensures appState == InitialAppState && voiceState == InitialVoiceState
      ensures avatarState == InitialAvatarState && !hasSocket && emitted == []
    {
      appState, voiceState, avatarState := InitialAppState, InitialVoiceState, InitialAvatarState;
      hasSocket := false;
      emitted := [];
    }

    /** The mount effect that opens the socket. */
    method OpenSocket()
      modifies this`hasSocket
      ensures hasSocket
    {
      hasSocket := true;
    }

    method Dispatch(a: Action)
      modifies this`appState
      ensures appState == Reduce(old(appState), a)
    {
      appState := Reduce(appState, a);
    }

    method SetVoiceState(patch: VoicePatch)
      modifies this`voiceState
      ensures voiceState == MergeVoice(old(voiceState), patch)
    {
      voiceState := MergeVoice(voiceState, patch);
    }

    method SetAvatarState(patch: AvatarPatch)
      modifies this`avatarState
      ensures avatarState == MergeAvatar(old(avatarState), patch)
    {
      avatarState := MergeAvatar(avatarState, patch);
    }

    method StartListening()
      modifies this`appState, this`voiceState, this`avatarState, this`emitted
      ensures appState == old(appState).(isListening := true)
      ensures voiceState == old(voiceState).(isListening := true, status := VoiceStatus.Listening)
      ensures avatarState == old(avatarState).(emotion := Excited, animation := Gesturing)
      ensures emitted == old(emitted) + if hasSocket then [StartConversation(appState.currentTopic)] else []
    {
      Dispatch(SetListening(true));
      SetVoiceState(ListeningVoice);
      SetAvatarState(ListeningAvatar);
      if hasSocket {
        emitted := emitted + [StartConversation(appState.currentTopic)];
      }
    }

    method StopListening()
      modifies this`appState, this`voiceState, this`avatarState, this`emitted
      ensures appState == old(appState).(isListening := false)
      ensures voiceState == old(voiceState).(isListening := false, status := VoiceStatus.Idle)
      ensures avatarState == old(avatarState).(emotion := Neutral, animation := Animation.Idle)
      ensures emitted == old(emitted) + if hasSocket then [EndConversation] else []
    {
      Dispatch(SetListening(false));
      SetVoiceState(StoppedVoice);
      SetAvatarState(StoppedAvatar);
      if hasSocket {
        emitted := emitted + [EndConversation];
      }
    }

    /** `setTopic`, given whether the request succeeded. A refused status, a failed fetch and
        an unreadable body all count as failure. The topic is recorded first, loading is on
        while the request is out and off afterwards, and a failure records an error. */
    method SetTopicRequest(topic: string, succeeded: bool)
      modifies this`appState
      ensures appState == old(appState).(currentTopic := Some(topic), isLoading := false,
                                         error := if succeeded then old(appState).error else Some(SetTopicFailure))
    {
      Dispatch(SetTopic(topic));
      Dispatch(SetLoading(true));
      if !succeeded {
        Dispatch(SetError(Some(SetTopicFailure)));
      }
      Dispatch(SetLoading(false));
    }

    /** `createImage`: `response` is the agent text sent as the request body, and `answer`
        is the server's answer, or none when the request fails. Only an answer changes the
        state. Its `highlight_word` key is stored as it comes, so an answer without that key
        leaves no highlight word. */
    method CreateImage(response: string, answer: Option<ImageAnswer>)
      modifies this`appState
      ensures answer.None? ==> appState == old(appState)
      ensures answer.Some? ==>
        appState == old(appState).(imageUrl := Some(answer.value.imageUrl), highlightWord := answer.value.highlightWord)
    {
      if answer.Some? {
        Dispatch(SetImage(answer.value.imageUrl, answer.value.highlightWord));
      }
    }

    method OnConnect()
      modifies this`appState
      ensures appState == old(appState).(isConnected := true)
    {
      Dispatch(SetConnected(true));
    }

    method OnDisconnect()
      modifies this`appState
      ensures appState == old(appState).(isConnected := false)
    {
      Dispatch(SetConnected(false));
    }

    /** An `agent_response` socket message: the text is shown and the avatar starts talking. */
    method OnAgentResponse(response: string)
      modifies this`appState, this`avatarState
      ensures appState == old(appState).(aiResponse := Some(response))
      ensures avatarState == old(avatarState).(isSpeaking := true, animation := Talking)
    {
      Dispatch(SetAiResponse(response));
      SetAvatarState(SpeakingAvatar);
    }

    method OnUserTranscript(transcript: string)
      modifies this`appState
      ensures appState == old(appState).(userTranscript := Some(transcript))
    {
      Dispatch(SetUserTranscript(transcript));
    }

    method OnError(error: string)
      modifies this`appState
      ensures appState == old(appState).(error := Some(error))
    {
      Dispatch(SetError(Some(error)));
    }
  }
}

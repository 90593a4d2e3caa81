# Session and UI state machines of the AI tutor for kids

This project models, in Dafny, the stateful core of a voice tutor in which a "Nani"
agent teaches Hindi words to children. The core has four parts:

- **ElevenLabs session manager** (`elevenlabs.dfy`, module `ElevenLabs`). It holds one
  conversational-AI session at a time and records its topic, its conversation object and
  the final conversation id. Starting while a session is live ends that session first.
  Ending does nothing when no session is live, and clears the active flag whatever goes
  wrong. SDK events reach the optional callbacks.
- **LiveKit session manager** (`livekit.dfy`, module `LiveKit`). It has the same shape,
  but starting while active is refused. Ending only clears the flag and notifies the
  session-end callback. The status record and the topic sentence of the agent's
  instructions are pure functions of the fields.
- **Front-end app state** (`app_context.dfy`, module `AppContext`). It covers the reducer
  over the app record and its action union. It also covers the partial-record merges for
  the voice and avatar records, and the provider helpers that combine them: start/stop
  listening, set topic, create image, and the socket handlers.
- **Voice orb** (`voice_orb.dfy`, module `VoiceOrb`). It chooses one of four orb states
  by priority and renders one status line per state.

`common.dfy` (module `Common`) holds what the managers share. This is the optional value,
Python truthiness of an optional string, callback handlers, the events handed to them, and
`Notify`, the "call the callback if it is set" step.

Each Python manager is modelled twice:

- as a value (`Manager`) with one specification function per operation. Each function
  returns the new fields, the reply dictionary, the calls made on the backend and the
  callbacks invoked;
- as a class with the Python fields. Each of its methods is proved to produce exactly
  what the specification function says.

Calls into the vendor SDKs are parameters. Examples are the conversation constructor,
`start_session`, `end_session`/`wait_for_session_end`, the agent thread's launch and any
callback. Each parameter says whether the call returns (with its value) or raises (with
its message). An SDK conversation object is named by the serial number the manager gives
it when it is constructed. This serial stands for Python object identity. Callback
invocations and backend calls are kept in ghost logs.

Main results:

- Over any sequence of calls to the ElevenLabs manager, whatever the backend does, each
  conversation object goes through at most three steps, in this order: constructed,
  started, told to end. No conversation is told to end twice or before it was started
  (`EveryConversationFollowsItsLifecycle`).
- Over any sequence of the manager's own calls (set callbacks, start, end, status, topic),
  the LiveKit session-end callback fires at most once for each session that was started
  (`SessionEndAtMostOncePerStart`). The agent thread's error path is outside the model
  (see "Left out"), and the bound does not cover it. That path clears the flag and calls
  the callback with the error text. If the thread fails after `end_livekit_session` has
  already notified, one start produces two notifications. A thread left over from an
  earlier session can also clear the flag of a later one.
- Every reducer action changes only the fields it targets, and no others.
- Merges keep the fields that are absent from the partial record, and two merges compose
  into one.
- The orb state is a total priority classifier, and its labels are distinct.

The modelled code has no transcript poller, no event registry and no image fallback.
Starting replaces a live session only in the ElevenLabs manager. The LiveKit manager
refuses a second start with "Session already active". The `/create_image` answer built in
main.py:158-163 carries `image_url`, `english_word` and `hindi_word`, but no
`highlight_word`. `createImage` reads `highlight_word`, so with that server every
successful image leaves the highlight word unset. The model stores the key as it comes
(`AppContext.AppProvider.CreateImage`).

## Model

| member | source | states |
|---|---|---|
| `ElevenLabs.Init` | elevenlabs_integration.py:19-33 | a new manager has no session, conversation, topic, id or callbacks; the agent id falls back to "your_agent_id_here" only when the setting is absent |
| `ElevenLabs.Register` | elevenlabs_integration.py:35-46 | `set_callbacks` replaces all five callbacks and changes nothing else |
| `ElevenLabs.ConfigureAgent` | elevenlabs_integration.py:101-114 | `create_or_update_agent` records the topic as given, changes nothing else, and reports success |
| `ElevenLabs.End` | elevenlabs_integration.py:174-203 | no live session: nothing changes, no backend call, no callback, reply "No active session to end". Live session: the conversation is told to end exactly once, the flag is cleared even on error, only the flag and id change, the id becomes the backend's final id, `on_session_end` fires once with that id if it is set, and the reply fails exactly when the backend or the callback raised; otherwise it is "Conversation ended successfully" with the final id |
| `ElevenLabs.Prepare` | elevenlabs_integration.py:120-125 | the first half of a start: the state is that of `End` when a session is live and unchanged otherwise, with the topic replaced only by a truthy one; the reply and backend calls are those of `End` or none |
| `ElevenLabs.Open` | elevenlabs_integration.py:129-172 | the conversation is built with `requires_auth` equal to the key's truthiness, the flag is set only after `start_session` returns, a raising constructor leaves the fields unchanged, and every failure replies `session_active=False` |
| `ElevenLabs.Start` | elevenlabs_integration.py:116-172 | success exactly when the backend opens; then the flag is on and the reply echoes the current topic. A failure never leaves the flag on. A falsy topic leaves the topic unchanged. The conversation afterwards is the new one on success or when `start_session` raised, and the old one when the constructor raised. Replacing a live session leaves that session's final id in the conversation id; otherwise the id is unchanged. The old conversation is told to end before the new one is constructed. The only callback fired is the old session's end notification |
| `ElevenLabs.Report` | elevenlabs_integration.py:205-214 | the status reports exactly the flag, the topic, the conversation id and the agent id |
| `ElevenLabs.SendAudio` | elevenlabs_integration.py:216-242 | sending audio fails with "No active conversation session" exactly when the flag is off or there is no conversation |
| `ElevenLabs.Forward` | elevenlabs_integration.py:244-267 | an SDK event reaches the callback for its kind exactly when that callback is set |
| `ElevenLabs.EndConsistent` | elevenlabs_integration.py:174-203 | ending keeps every conversation within its construct-start-end lifecycle |
| `ElevenLabs.StartConsistent` | elevenlabs_integration.py:116-172 | starting keeps every conversation within its lifecycle, and a conversation it opens is fresh |
| `ElevenLabs.RunConsistent` | elevenlabs_integration.py:116-203 | every sequence of manager calls preserves that consistency between the fields and the backend-call log |
| `ElevenLabs.EveryConversationFollowsItsLifecycle` | elevenlabs_integration.py:116-203 | from a fresh manager, every conversation is constructed, started and ended at most once each, in that order |
| `ElevenLabs.EndTwice` | elevenlabs_integration.py:179-196 | a second end after any end is a no-op, so ending is idempotent |
| `ElevenLabs.ElevenLabsManager.constructor` | elevenlabs_integration.py:19-33 | the object's fields equal `Init` of the two settings, and the logs are empty |
| `ElevenLabs.ElevenLabsManager.SetCallbacks` | elevenlabs_integration.py:35-46 | the fields become `Register` of the old fields |
| `ElevenLabs.ElevenLabsManager.CreateOrUpdateAgent` | elevenlabs_integration.py:101-114 | the fields and result are those of `ConfigureAgent` |
| `ElevenLabs.ElevenLabsManager.EndConversationSession` | elevenlabs_integration.py:174-203 | fields, reply, backend calls and callbacks are those of `End`, and the consistency invariant is kept |
| `ElevenLabs.ElevenLabsManager.StartConversationSession` | elevenlabs_integration.py:116-172 | fields, reply, backend calls and callbacks are those of `Start`, and the consistency invariant is kept |
| `ElevenLabs.ElevenLabsManager.PrepareSession` | elevenlabs_integration.py:120-125 | the in-place first half of a start agrees with `Prepare` and leaves no session live |
| `ElevenLabs.ElevenLabsManager.OpenConversation` | elevenlabs_integration.py:129-172 | the in-place second half of a start agrees with `Open` |
| `ElevenLabs.ElevenLabsManager.GetConversationStatus` | elevenlabs_integration.py:205-214 | reads `Report` of the fields and modifies nothing |
| `ElevenLabs.ElevenLabsManager.SendAudioToConversation` | elevenlabs_integration.py:216-242 | replies as `SendAudio` and modifies nothing |
| `ElevenLabs.ElevenLabsManager.HandleAgentResponse` | elevenlabs_integration.py:245-249 | appends to the callback log exactly what `Forward` gives for the response |
| `ElevenLabs.ElevenLabsManager.HandleAgentResponseCorrection` | elevenlabs_integration.py:251-255 | the same for a correction |
| `ElevenLabs.ElevenLabsManager.HandleUserTranscript` | elevenlabs_integration.py:257-261 | the same for a user transcript |
| `ElevenLabs.ElevenLabsManager.HandleLatencyMeasurement` | elevenlabs_integration.py:263-267 | the same for a latency sample |
| `LiveKit.Init` | livekit_integration.py:24-39 | a new manager has no room, no topic, no callbacks and the flag off |
| `LiveKit.ReadSettings` | livekit_integration.py:25-29 | the LiveKit URL defaults to "ws://localhost:7880" only when unset; the keys are kept as read |
| `LiveKit.Register` | livekit_integration.py:41-48 | `set_callbacks` replaces all three callbacks and changes nothing else |
| `LiveKit.TopicContext` | livekit_integration.py:54 | the topic sentence is non-empty exactly for a truthy topic; it is then "Today's topic is: " + topic + ". ", and the topic can be read back from it |
| `LiveKit.Start` | livekit_integration.py:108-140 | while active: refused with "Session already active" and nothing changes. Otherwise the topic and room are recorded as given, the flag is on exactly when the agent thread launched, a success echoes room and topic, and a launch that raises replies with its error and `session_active=False` |
| `LiveKit.End` | livekit_integration.py:186-213 | inactive: nothing changes, no callback, reply "No active session to end". Active: only the flag changes and it is cleared, `on_session_end` fires once with the room name if it is set, and the reply fails exactly when that callback raised; otherwise it is "LiveKit session ended successfully" with the room name. The flag is off afterwards in every case |
| `LiveKit.Report` | livekit_integration.py:215-224 | the status reports the flag, room and topic; `has_api_keys` holds exactly when the API key, the secret and the Sarvam key are all present and non-empty |
| `LiveKit.SetTopic` | livekit_integration.py:230-233 | the module's `set_topic` records the topic, changes nothing else, and replies success with that topic |
| `LiveKit.RunNotifiesOncePerSession` | livekit_integration.py:108-213 | over any run, callbacks fired plus a still-live session never exceed the sessions live at the outset plus those started |
| `LiveKit.SessionEndAtMostOncePerStart` | livekit_integration.py:108-213 | from a fresh manager, `on_session_end` fires at most once per successful start |
| `LiveKit.LiveKitManager.constructor` | livekit_integration.py:24-39 | the object's fields equal `Init` of the settings read |
| `LiveKit.LiveKitManager.SetCallbacks` | livekit_integration.py:41-48 | the fields become `Register` of the old fields |
| `LiveKit.LiveKitManager.StartLiveKitSession` | livekit_integration.py:108-140 | fields and reply are those of `Start`; no callback fires |
| `LiveKit.LiveKitManager.EndLiveKitSession` | livekit_integration.py:186-213 | fields, reply and callbacks are those of `End` |
| `LiveKit.LiveKitManager.GetSessionStatus` | livekit_integration.py:215-224 | reads `Report` of the fields and modifies nothing |
| `LiveKit.SetManagerTopic` | livekit_integration.py:230-233 | the module's manager is updated as `SetTopic` says |
| `AppContext.InitialStatesAreBlank` | ai-tutor-frontend/src/context/AppContext.tsx:19-42 | the initial app record has every flag false and every nullable field null; the voice record is idle and not listening; the avatar is silent, neutral and idle |
| `AppContext.Reduce` | ai-tutor-frontend/src/context/AppContext.tsx:45-70 | every field an action does not target keeps its value; the targeted fields carry the payload (SET_IMAGE sets both the URL and the word); SET_VOICE_STATE and SET_AVATAR_STATE return the state unchanged |
| `AppContext.ReduceIdempotent` | ai-tutor-frontend/src/context/AppContext.tsx:45-69 | dispatching an action twice equals dispatching it once |
| `AppContext.ReduceAllKeepsUntargeted` | ai-tutor-frontend/src/context/AppContext.tsx:45-69 | a field that no action in a dispatch sequence targets is unchanged by the whole sequence |
| `AppContext.MergeVoice` | ai-tutor-frontend/src/context/AppContext.tsx:123-125 | each voice field absent from the partial record keeps its value; each present one takes the partial's value |
| `AppContext.MergeAvatar` | ai-tutor-frontend/src/context/AppContext.tsx:127-129 | the same for the avatar record |
| `AppContext.MergeVoiceComposes` | ai-tutor-frontend/src/context/AppContext.tsx:123-125 | two voice merges equal one merge of the combined partial; repeating a merge changes nothing |
| `AppContext.MergeAvatarComposes` | ai-tutor-frontend/src/context/AppContext.tsx:127-129 | the same for avatar merges |
| `AppContext.AppProvider.constructor` | ai-tutor-frontend/src/context/AppContext.tsx:82-85 | the three state cells start from the initial records; there is no socket and nothing has been sent |
| `AppContext.AppProvider.OpenSocket` | ai-tutor-frontend/src/context/AppContext.tsx:89-92 | after the mount effect a socket exists |
| `AppContext.AppProvider.Dispatch` | ai-tutor-frontend/src/context/AppContext.tsx:82 | the app cell becomes `Reduce` of its old value |
| `AppContext.AppProvider.SetVoiceState` | ai-tutor-frontend/src/context/AppContext.tsx:123-125 | the voice cell becomes the merge of its old value with the partial |
| `AppContext.AppProvider.SetAvatarState` | ai-tutor-frontend/src/context/AppContext.tsx:127-129 | the avatar cell becomes the merge of its old value with the partial |
| `AppContext.AppProvider.StartListening` | ai-tutor-frontend/src/context/AppContext.tsx:131-139 | listening is on, voice status 'listening', avatar excited and gesturing, all else kept; a start message with the current topic is sent if a socket exists |
| `AppContext.AppProvider.StopListening` | ai-tutor-frontend/src/context/AppContext.tsx:141-149 | listening is off, voice status 'idle', avatar neutral and idle, all else kept; an end message is sent if a socket exists |
| `AppContext.AppProvider.SetTopicRequest` | ai-tutor-frontend/src/context/AppContext.tsx:151-172 | the topic is recorded, loading ends off, and an error "Failed to set topic" is recorded exactly when the request fails: a refused status, a failed fetch or an unreadable body. A success keeps the old error |
| `AppContext.AppProvider.CreateImage` | ai-tutor-frontend/src/context/AppContext.tsx:174-192 | an answer sets the image URL and stores the answer's `highlight_word` as it comes. An answer without that key leaves no highlight word. A failed request changes nothing |
| `AppContext.AppProvider.OnConnect` | ai-tutor-frontend/src/context/AppContext.tsx:94-97 | a socket connect sets only `isConnected` |
| `AppContext.AppProvider.OnDisconnect` | ai-tutor-frontend/src/context/AppContext.tsx:99-102 | a socket disconnect clears only `isConnected` |
| `AppContext.AppProvider.OnAgentResponse` | ai-tutor-frontend/src/context/AppContext.tsx:104-107 | the response is shown and the avatar is speaking and talking |
| `AppContext.AppProvider.OnUserTranscript` | ai-tutor-frontend/src/context/AppContext.tsx:109-111 | only the user transcript changes |
| `AppContext.AppProvider.OnError` | ai-tutor-frontend/src/context/AppContext.tsx:113-115 | only the error changes |
| `VoiceOrb.GetOrbState` | ai-tutor-frontend/src/components/VoiceOrb.tsx:8-13 | 'listening' exactly when listening; 'speaking' exactly when not listening and speaking; 'connected' exactly when neither but connected; 'idle' otherwise: total, one of four |
| `VoiceOrb.RenderedStatusIsOneLabel` | ai-tutor-frontend/src/components/VoiceOrb.tsx:40-45 | each orb state renders exactly one status line, its own label, and no two states share a label |
| `VoiceOrb.OrbFollowsListening` | ai-tutor-frontend/src/components/VoiceOrb.tsx:9 | after SET_LISTENING true the orb shows 'listening' whatever else holds; after false it shows what the avatar and connection give |

## Left out

- The LiveKit agent thread, `_run_agent_session`, `create_agent_session` and the
  `NaniAssistant` class (livekit_integration.py:85-106, 119-124, 142-184) are left out.
  They are concurrency and SDK calls. Only the launch outcome and the flag protocol are
  kept. The thread's own error path, which clears the flag and calls `on_session_end` with
  the error text at some later time, is not modelled.
- The default room name "nani-hindi-tutor" of `start_livekit_session` and of the module's
  `start_session` (livekit_integration.py:108, 235) is left out. The model takes the room
  as a plain parameter, and every caller in main.py passes one explicitly.
- Prompt text is left out: `get_topic_prompt` and all of `get_nani_instructions` except
  the topic sentence. The unused `topic_intro` string in `start_conversation_session` is
  also left out.
- Process I/O is left out: environment loading, the ElevenLabs client object, the SIGINT
  handler and `print` logging. Environment values become constructor parameters.
- The module-level convenience functions of both integrations are one-line delegations
  to the global manager instance, and are not modelled separately. LiveKit's `set_topic`
  does more than delegate, so it is modelled.
- ElevenLabs.Forward: the model records a callback call. It does not model a forwarding
  callback that raises back into the SDK.
- ElevenLabs.SendAudio: the audio bytes are not inspected, because the source discards
  them.
- Latency samples and the voice volume are JavaScript/Python floats. They are modelled as
  `real`, because they are only copied.
- Concurrency is not modelled. SDK callbacks may arrive on other threads, and React batches
  state updates and captures closure values. Every update is applied immediately, in call
  order.
- AppContext.AppProvider.SetTopicRequest: only the final state is modelled. It does not
  model the states visible between the awaits of the asynchronous request.
- HTTP requests, socket transport, the `useApp` hook and all rendering except the orb's
  status line are not modelled.
- `main.py`, the other vendor wrappers, the agent workers, the tests and the other
  front-end components are not part of this model.

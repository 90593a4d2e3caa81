/** The voice orb: which of four states it shows, chosen by priority from the app and avatar
    state, and the status line it renders for each. */
module VoiceOrb {
  import AppContext

  datatype OrbState = Listening | Speaking | Connected | Idle

  /** `getOrbState`: listening wins over speaking, speaking over connected, and a
      disconnected, silent, non-listening orb is idle. */
  function GetOrbState(app: AppContext.AppState, avatar: AppContext.AvatarState): (o: OrbState)
    ensures o == Listening <==> app.isListening
    ensures o == Speaking <==> !app.isListening && avatar.isSpeaking
    ensures o == Connected <==> !app.isListening && !avatar.isSpeaking && app.isConnected
    ensures o == Idle <==> !app.isListening && !avatar.isSpeaking && !app.isConnected
  {
    if app.isListening then Listening
    else if avatar.isSpeaking then Speaking
    else if app.isConnected then Connected
    else Idle
  }

  /** The status line meant for each state. */
  function StatusLabel(o: OrbState): string {
    match o
    case Listening => "Listening..."
    case Speaking => "Nani is speaking..."
    case Connected => "Ready to chat"
    case Idle => "Offline"
  }

  /** What the status element renders: one `state === s && label` term per state, where a
      false term renders nothing. */
  function RenderedStatus(o: OrbState): seq<string> {
    (if o == Listening then ["Listening..."] else [])
    + (if o == Speaking then ["Nani is speaking..."] else [])
    + (if o == Connected then ["Ready to chat"] else [])
    + (if o == Idle then ["Offline"] else [])
  }

  /** Every state renders exactly its own label, and no two states share a label. */
  lemma RenderedStatusIsOneLabel(o: OrbState, o': OrbState)
    ensures RenderedStatus(o) == [StatusLabel(o)]
    ensures o != o' ==> StatusLabel(o) != StatusLabel(o')
  {
  }

  /** The orb shows "Listening..." whenever listening has been switched on, and after a
      stop it shows the avatar's or the connection's state. */
  lemma OrbFollowsListening(app: AppContext.AppState, avatar: AppContext.AvatarState, on: bool)
    ensures var o := GetOrbState(AppContext.Reduce(app, AppContext.SetListening(on)), avatar);
      (on ==> o == Listening) && (!on ==> o == GetOrbState(app.(isListening := false), avatar))
  {
  }
}

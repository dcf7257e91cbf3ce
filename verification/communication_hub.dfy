/** The session overlay: the chat transcript with its send box, and the mute,
    mode, camera and screen-share toggles. Device requests are inputs: each
    event that asks the browser for a device says whether it was granted. */
module CommunicationHub {
  import opened Text
  import opened Types

  datatype Mode = Chat | Voice | Video

  datatype ChatMessage = ChatMessage(sender: string, text: string)

  /** The overlay's local state. */
  datatype Hub = Hub(
    mode: Mode,
    isMuted: bool,
    isCameraOff: bool,
    isSharing: bool,
    messages: seq<ChatMessage>,
    input: string)

  const Greeting: string := "Hey! Ready to swap some skills today?"
  const SelfSender: string := "You"

  /** The overlay as opened for a partner: chat mode, unmuted, camera on, not
      sharing, an empty input and a transcript holding only the partner's
      greeting. */
  function Init(partner: UserProfile): (h: Hub)
    ensures h.mode == Chat && !h.isMuted && !h.isCameraOff && !h.isSharing && h.input == ""
    ensures |h.messages| == 1 && h.messages[0].sender == partner.name && h.messages[0].text == Greeting
  {
    Hub(Chat, false, false, false, [ChatMessage(partner.name, Greeting)], "")
  }

  /** `!input.trim()`: the input is empty or white space only. */
  predicate IsBlank(input: string)
  {
    Trim(input) == ""
  }

  /** `handleSend`: a blank input is ignored; otherwise the untrimmed input
      is appended as the user's message and the box is cleared. */
  function Send(h: Hub): (r: Hub)
    ensures AllWhiteSpace(h.input) ==> r == h
    ensures !AllWhiteSpace(h.input) ==>
              && r.messages == h.messages + [ChatMessage(SelfSender, h.input)]
              && r.input == ""
              && r.mode == h.mode && r.isMuted == h.isMuted
              && r.isCameraOff == h.isCameraOff && r.isSharing == h.isSharing
  {
    TrimEmptyIffBlank(h.input);
    if IsBlank(h.input) then h
    else h.(messages := h.messages + [ChatMessage(SelfSender, h.input)], input := "")
  }

  /** Typing in the send box. */
  function SetInput(h: Hub, text: string): (r: Hub)
    ensures r.input == text && r.messages == h.messages
    ensures r.mode == h.mode && r.isMuted == h.isMuted && r.isCameraOff == h.isCameraOff && r.isSharing == h.isSharing
  {
    h.(input := text)
  }

  /** The microphone button flips the mute flag and nothing else. */
  function ToggleMute(h: Hub): (r: Hub)
    ensures r.isMuted != h.isMuted
    ensures r.(isMuted := h.isMuted) == h
  {
    h.(isMuted := !h.isMuted)
  }

  /** `toggleVideo`: a camera that is on is switched off; a camera that is
      off comes back only if the device request is granted. */
  function ToggleVideo(h: Hub, cameraGranted: bool): (r: Hub)
    ensures !h.isCameraOff ==> r.isCameraOff
    ensures h.isCameraOff ==> r.isCameraOff == !cameraGranted
    ensures r.(isCameraOff := h.isCameraOff) == h
  {
    if h.isCameraOff then (if cameraGranted then h.(isCameraOff := false) else h)
    else h.(isCameraOff := true)
  }

  /** The mode button: video becomes voice and any other mode becomes video;
      the same click toggles the camera. */
  function ToggleMode(h: Hub, cameraGranted: bool): (r: Hub)
    ensures h.mode == Video ==> r.mode == Voice
    ensures h.mode != Video ==> r.mode == Video
    ensures r.isCameraOff == ToggleVideo(h, cameraGranted).isCameraOff
    ensures r.isMuted == h.isMuted && r.isSharing == h.isSharing
    ensures r.messages == h.messages && r.input == h.input
  {
    var next := if h.mode == Video then Voice else Video;
    ToggleVideo(h, cameraGranted).(mode := next)
  }

  /** The screen-share button: stops a running share; otherwise starts one
      if the display request is granted. */
  function ScreenShare(h: Hub, displayGranted: bool): (r: Hub)
    ensures h.isSharing ==> !r.isSharing
    ensures !h.isSharing ==> r.isSharing == displayGranted
    ensures r.(isSharing := h.isSharing) == h
  {
    if !h.isSharing then (if displayGranted then h.(isSharing := true) else h)
    else h.(isSharing := false)
  }

  /** The shared screen's track ended (the browser's own stop button). */
  function ShareEnded(h: Hub): (r: Hub)
    ensures !r.isSharing
    ensures r.(isSharing := h.isSharing) == h
  {
    h.(isSharing := false)
  }

  /** What the user can do in the overlay. */
  datatype Event =
    | Type(text: string)
    | SendPressed
    | MutePressed
    | ModePressed(cameraGranted: bool)
    | SharePressed(displayGranted: bool)
    | ShareTrackEnded

  function Step(h: Hub, e: Event): Hub
  {
    match e
    case Type(text) => SetInput(h, text)
    case SendPressed => Send(h)
    case MutePressed => ToggleMute(h)
    case ModePressed(granted) => ToggleMode(h, granted)
    case SharePressed(granted) => ScreenShare(h, granted)
    case ShareTrackEnded => ShareEnded(h)
  }

  function Run(h: Hub, events: seq<Event>): Hub
    decreases |events|
  {
    if |events| == 0 then h else Run(Step(h, events[0]), events[1..])
  }

  /** The transcript's shape: the partner's greeting first, then only the
      user's own messages, none of them blank. */
  ghost predicate TranscriptWellFormed(h: Hub, partner: UserProfile)
  {
    && |h.messages| >= 1
    && h.messages[0] == ChatMessage(partner.name, Greeting)
    && forall i :: 1 <= i < |h.messages| ==>
         h.messages[i].sender == SelfSender && !AllWhiteSpace(h.messages[i].text)
  }

  /** One event keeps the transcript well formed and never removes or edits
      a message already shown. */
  lemma StepKeepsTranscript(h: Hub, partner: UserProfile, e: Event)
    requires TranscriptWellFormed(h, partner)
    ensures TranscriptWellFormed(Step(h, e), partner)
    ensures Step(h, e).messages[..|h.messages|] == h.messages
    ensures |Step(h, e).messages| <= |h.messages| + 1
  {
  }

  /** Whatever the user does, the transcript starts with the partner's
      greeting, holds only non-blank messages of the user after it, and
      only ever grows by appending. */
  lemma {:induction false} RunKeepsTranscript(h: Hub, partner: UserProfile, events: seq<Event>)
    requires TranscriptWellFormed(h, partner)
    ensures TranscriptWellFormed(Run(h, events), partner)
    ensures |Run(h, events).messages| >= |h.messages|
    ensures Run(h, events).messages[..|h.messages|] == h.messages
    decreases |events|
  {
    if |events| > 0 {
      var next := Step(h, events[0]);
      StepKeepsTranscript(h, partner, events[0]);
      RunKeepsTranscript(next, partner, events[1..]);
      var final := Run(next, events[1..]).messages;
      assert final[..|h.messages|] == final[..|next.messages|][..|h.messages|];
    }
  }

  /** From the opening state, every reachable transcript is well formed. */
  lemma ReachableTranscriptsWellFormed(partner: UserProfile, events: seq<Event>)
    ensures TranscriptWellFormed(Run(Init(partner), events), partner)
  {
    RunKeepsTranscript(Init(partner), partner, events);
  }

  /** The first click of the mode button enters video mode and, because the
      camera starts on, switches the camera off. */
  lemma FirstModeClickTurnsCameraOff(partner: UserProfile, cameraGranted: bool)
    ensures Step(Init(partner), ModePressed(cameraGranted)).mode == Video
    ensures Step(Init(partner), ModePressed(cameraGranted)).isCameraOff
  {
  }
}

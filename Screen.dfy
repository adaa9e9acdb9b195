/** A room screen (`client/src/Screen.tsx`): it registers with the hub, shows
    each broadcast message for a while and beeps when asked. The audio element
    is only mounted once the screen has been clicked ready, so a beep needs
    `ready`. Socket traffic and audio calls are recorded in logs; the hide
    timer is an event the caller fires. */
module Screen {
  import opened JsValues

  /** What the screen does to its `<audio>` element. */
  datatype AudioOp = Rewind | Play

  /** `(duration || 10) * 1000`: a missing or zero duration means ten seconds. */
  function HideDelayMs(duration: Option<int>): (ms: int)
    ensures duration.Some? && duration.value != 0 ==> ms == duration.value * 1000
    ensures duration.None? || duration.value == 0 ==> ms == 10000
    ensures ms % 1000 == 0
  {
    match duration
    case Some(d) => if d != 0 then d * 1000 else 10000
    case None => 10000
  }

  /** The audio calls one message makes: rewind then play, or nothing. */
  function BeepOps(playSound: bool, audioMounted: bool): (ops: seq<AudioOp>)
    ensures ops != [] <==> playSound && audioMounted
    ensures ops != [] ==> ops == [Rewind, Play]
  {
    if playSound && audioMounted then [Rewind, Play] else []
  }

  datatype ScreenView =
    | ClickToStart
    | Ready(active: bool, popup: Option<Option<string>>)

  class RoomScreen {
    var message: Option<string>
    var isVisible: bool
    var ready: bool
    /** Events the screen emitted on its socket. */
    var emitted: seq<string>
    var audio: seq<AudioOp>

    /** Mounting: connect and identify as a screen. */
    constructor ()
      ensures message == None && !isVisible && !ready
      ensures emitted == ["register:screen"] && audio == []
    {
      message := None;
      isVisible := false;
      ready := false;
      emitted := ["register:screen"];
      audio := [];
    }

    /** `screen:display_message`: show the text, beep if asked and possible,
        and return the delay after which the message is hidden. */
    method OnDisplayMessage(text: string, duration: Option<int>, playSound: bool) returns (hideAfterMs: int)
      modifies this
      ensures message == Some(text) && isVisible
      ensures audio == old(audio) + BeepOps(playSound, old(ready))
      ensures hideAfterMs == HideDelayMs(duration)
      ensures ready == old(ready) && emitted == old(emitted)
    {
      message := Some(text);
      isVisible := true;
      audio := audio + BeepOps(playSound, ready);
      hideAfterMs := HideDelayMs(duration);
    }

    /** The hide timer fires. */
    method OnHideTimer()
      modifies this
      ensures !isVisible && message == None
      ensures ready == old(ready) && emitted == old(emitted) && audio == old(audio)
    {
      isVisible := false;
      message := None;
    }

    /** The click that unlocks sound. */
    method OnClick()
      modifies this
      ensures ready
      ensures message == old(message) && isVisible == old(isVisible)
      ensures emitted == old(emitted) && audio == old(audio)
    {
      ready := true;
    }

    /** What is rendered: only the start prompt until ready; then the screen,
        highlighted and with the popup while a message is visible. */
    function View(): (v: ScreenView)
      reads this
      ensures !ready <==> v == ClickToStart
      ensures v.Ready? ==> v.active == isVisible && (v.popup.Some? <==> isVisible)
      ensures v.Ready? && v.popup.Some? ==> v.popup.value == message
    {
      if !ready then ClickToStart
      else Ready(isVisible, if isVisible then Some(message) else None)
    }
  }

  /** A message received before the screen is ready stays silent and unseen,
      however it asks to be played. */
  method SilentUntilReady(s: RoomScreen, text: string, duration: Option<int>)
    requires !s.ready
    modifies s
    ensures s.audio == old(s.audio) && s.View() == ClickToStart
  {
    var _ := s.OnDisplayMessage(text, duration, true);
  }
}

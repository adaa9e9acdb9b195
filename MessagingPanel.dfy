/** The gamemaster's broadcast panel (`client/src/MessagingPanel.tsx`): preset
    and typed messages sent to every screen, and the room microphone toggle.
    The socket is modelled by the log of what the panel emitted; the 3-second
    timer that hides the "sent" notice is an event the caller fires. */
module MessagingPanel {
  import opened JsValues
  import opened JsStrings

  /** One `socket.emit` of the panel. */
  datatype Emission = AdminMessage(text: string) | RecordStart | RecordStop

  /** `MESSAGES_PRESETS`, in button order. */
  const Presets: seq<string> := [
    "Regardez bien les murs.",
    "Il vous reste 10 minutes.",
    "Indice : Utilisez la lumi\U{E8}re UV.",
    "Code incorrect. R\U{E9}essayez.",
    "Attention : Oxyg\U{E8}ne faible.",
    "Ceci est un message du Gamemaster."
  ]

  /** How long the "sent" notice stays, in milliseconds. */
  const NoticeMs := 3000

  /** What toggling the microphone emits from a given recording state. */
  function ToggleEmission(isRecording: bool): (e: Emission)
    ensures isRecording <==> e == RecordStop
    ensures !isRecording <==> e == RecordStart
  {
    if isRecording then RecordStop else RecordStart
  }

  /** Two toggles emit one start and one stop, in the order the state asks for. */
  lemma ToggleTwiceEmitsPair(isRecording: bool)
    ensures [ToggleEmission(isRecording), ToggleEmission(!isRecording)] ==
      if isRecording then [RecordStop, RecordStart] else [RecordStart, RecordStop]
  {
  }

  /** Every preset has visible text, so every preset button sends. */
  lemma PresetsNotBlank(i: nat)
    requires i < |Presets|
    ensures !IsBlank(Presets[i])
  {
    TrimVisibleEnds(Presets[i]);
  }

  class Panel {
    var customText: string
    var lastSent: Option<string>
    var isRecording: bool
    var emitted: seq<Emission>

    constructor ()
      ensures customText == "" && lastSent == None && !isRecording && emitted == []
    {
      customText := "";
      lastSent := None;
      isRecording := false;
      emitted := [];
    }

    /** `sendMessage`: blank text is dropped; anything else is broadcast as
        typed (untrimmed) and shown as sent. Returns the delay of the timer
        that hides the notice, when one is started. */
    method SendMessage(text: string) returns (clearAfterMs: Option<nat>)
      modifies this
      ensures IsBlank(text) ==> emitted == old(emitted) && lastSent == old(lastSent) && clearAfterMs == None
      ensures !IsBlank(text) ==>
        emitted == old(emitted) + [AdminMessage(text)] && lastSent == Some(text) && clearAfterMs == Some(NoticeMs)
      ensures customText == old(customText) && isRecording == old(isRecording)
    {
      if Trim(text) == "" {
        return None;
      }
      emitted := emitted + [AdminMessage(text)];
      lastSent := Some(text);
      return Some(NoticeMs);
    }

    /** The notice timer fires. */
    method OnNoticeTimeout()
      modifies this
      ensures lastSent == None
      ensures customText == old(customText) && isRecording == old(isRecording) && emitted == old(emitted)
    {
      lastSent := None;
    }

    /** `toggleRecording`. */
    method ToggleRecording()
      modifies this
      ensures isRecording == !old(isRecording)
      ensures emitted == old(emitted) + [ToggleEmission(old(isRecording))]
      ensures customText == old(customText) && lastSent == old(lastSent)
    {
      if isRecording {
        emitted := emitted + [RecordStop];
        isRecording := false;
      } else {
        emitted := emitted + [RecordStart];
        isRecording := true;
      }
    }

    /** The text area's `onChange`. */
    method EditCustomText(text: string)
      modifies this
      ensures customText == text
      ensures lastSent == old(lastSent) && isRecording == old(isRecording) && emitted == old(emitted)
    {
      customText := text;
    }

    /** The "ENVOYER" button: send the typed text, then empty the box even
        when nothing was sent. */
    method SendCustomText() returns (clearAfterMs: Option<nat>)
      modifies this
      ensures customText == ""
      ensures IsBlank(old(customText)) ==> emitted == old(emitted) && lastSent == old(lastSent) && clearAfterMs == None
      ensures !IsBlank(old(customText)) ==>
        emitted == old(emitted) + [AdminMessage(old(customText))] && lastSent == Some(old(customText))
        && clearAfterMs == Some(NoticeMs)
      ensures isRecording == old(isRecording)
    {
      clearAfterMs := SendMessage(customText);
      customText := "";
    }

    /** A preset button. */
    method SendPreset(i: nat) returns (clearAfterMs: Option<nat>)
      requires i < |Presets|
      modifies this
      ensures emitted == old(emitted) + [AdminMessage(Presets[i])] && lastSent == Some(Presets[i])
      ensures clearAfterMs == Some(NoticeMs)
      ensures customText == old(customText) && isRecording == old(isRecording)
    {
      PresetsNotBlank(i);
      clearAfterMs := SendMessage(Presets[i]);
    }
  }

  /** Pressing the microphone button twice restores the recording state and
      emits a start/stop pair. */
  method ToggleTwice(p: Panel)
    modifies p
    ensures p.isRecording == old(p.isRecording)
    ensures p.emitted == old(p.emitted) + if old(p.isRecording) then [RecordStop, RecordStart] else [RecordStart, RecordStop]
    ensures p.customText == old(p.customText) && p.lastSent == old(p.lastSent)
  {
    ToggleTwiceEmitsPair(p.isRecording);
    p.ToggleRecording();
    p.ToggleRecording();
  }
}

/** The music toggle in the dashboard header
    (`client/src/components/MusicWidget.tsx`). It mirrors the player's state
    as the hub reports it and asks the hub to toggle playback; on hover it
    previews the action a click would take. */
module MusicWidget {

  /** The widget shows the play triangle (rather than the pause bars). */
  function ShowPlayIcon(isPlaying: bool, isHovered: bool): (r: bool)
    ensures r <==> isHovered == isPlaying
  {
    if isHovered then isPlaying else !isPlaying
  }

  /** At rest the icon shows the current state; hovering shows the opposite,
      which is what a click would do. */
  lemma HoverPreviewsToggle(isPlaying: bool)
    ensures ShowPlayIcon(isPlaying, false) == !isPlaying
    ensures ShowPlayIcon(isPlaying, true) == !ShowPlayIcon(isPlaying, false)
  {
  }

  function WidgetClass(isPlaying: bool): (r: string)
    ensures r == "music-widget playing" <==> isPlaying
    ensures r == "music-widget paused" <==> !isPlaying
  {
    "music-widget " + if isPlaying then "playing" else "paused"
  }

  function WidgetTitle(isPlaying: bool): (r: string)
    ensures r == "Pause Musique" <==> isPlaying
    ensures r == "Play Musique" <==> !isPlaying
  {
    if isPlaying then "Pause Musique" else "Play Musique"
  }

  /** One `socket.emit` of the widget: `spotify:toggle` with an empty object. */
  datatype Emission = SpotifyToggle

  class Widget {
    var isPlaying: bool
    var isHovered: bool
    var emitted: seq<Emission>

    constructor ()
      ensures !isPlaying && !isHovered && emitted == []
    {
      isPlaying := false;
      isHovered := false;
      emitted := [];
    }

    /** `spotify:state`. */
    method OnSpotifyState(isPaused: bool)
      modifies this
      ensures isPlaying == !isPaused
      ensures isHovered == old(isHovered) && emitted == old(emitted)
    {
      isPlaying := !isPaused;
    }

    /** A click: ask the hub to toggle; the local state waits for its answer. */
    method Toggle()
      modifies this
      ensures emitted == old(emitted) + [SpotifyToggle]
      ensures isPlaying == old(isPlaying) && isHovered == old(isHovered)
    {
      emitted := emitted + [SpotifyToggle];
    }

    method MouseEnter()
      modifies this
      ensures isHovered && ShowPlayIcon(isPlaying, isHovered) == isPlaying
      ensures isPlaying == old(isPlaying) && emitted == old(emitted)
    {
      isHovered := true;
    }

    method MouseLeave()
      modifies this
      ensures !isHovered && ShowPlayIcon(isPlaying, isHovered) == !isPlaying
      ensures isPlaying == old(isPlaying) && emitted == old(emitted)
    {
      isHovered := false;
    }
  }
}

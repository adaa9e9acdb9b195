/** One action button with its hint-level menu
    (`client/src/components/ActionButton.tsx`). The button's properties are
    the action, its status and the disabled flag; its own state is whether
    the menu is open, and
    every call it makes to its `onClick` callback is recorded. The parent may
    pass new properties at any time without resetting the menu. */
module ActionButton {
  import opened JsValues
  import opened Actions

  datatype Icon =
    | Play | MonitorPlay | Square | RotateCcw | Plus | Minus | FastForward | Lightbulb
    | BotOff | Bot | Flame | Shield | Volume2 | VolumeX | AlertTriangle | CheckCircle | Key
    | Loader

  /** The action ids `ACTION_ICONS` lists. */
  const IconIds: seq<string> := [
    "start", "start_screen", "stop", "reset", "add_points", "remove_points", "skip_phase", "hint",
    "disable_ai", "enable_ai", "enable_evil", "disable_evil", "enable_speaking", "disable_speaking",
    "enable_dilemma", "disable_dilemma", "set_code"]

  /** The table read backwards: the action id an icon stands for. */
  function IconAction(icon: Icon): (r: Option<string>)
    ensures r.None? <==> icon == Loader
    ensures r.Some? ==> r.value in IconIds
  {
    match icon
    case Play => Some("start")
    case MonitorPlay => Some("start_screen")
    case Square => Some("stop")
    case RotateCcw => Some("reset")
    case Plus => Some("add_points")
    case Minus => Some("remove_points")
    case FastForward => Some("skip_phase")
    case Lightbulb => Some("hint")
    case BotOff => Some("disable_ai")
    case Bot => Some("enable_ai")
    case Flame => Some("enable_evil")
    case Shield => Some("disable_evil")
    case Volume2 => Some("enable_speaking")
    case VolumeX => Some("disable_speaking")
    case AlertTriangle => Some("enable_dilemma")
    case CheckCircle => Some("disable_dilemma")
    case Key => Some("set_code")
    case Loader => None
  }

  /** `ACTION_ICONS`: the icon table for known action ids; only listed ids
      have an entry, and reading the table backwards recovers the id, so no
      two actions share an icon and none has the spinner. */
  function KnownIcon(id: string): (r: Option<Icon>)
    ensures r.Some? ==> id in IconIds
    ensures r.Some? ==> IconAction(r.value) == Some(id)
  {
    if id == "start" then Some(Play)
    else if id == "start_screen" then Some(MonitorPlay)
    else if id == "stop" then Some(Square)
    else if id == "reset" then Some(RotateCcw)
    else if id == "add_points" then Some(Plus)
    else if id == "remove_points" then Some(Minus)
    else if id == "skip_phase" then Some(FastForward)
    else if id == "hint" then Some(Lightbulb)
    else if id == "disable_ai" then Some(BotOff)
    else if id == "enable_ai" then Some(Bot)
    else if id == "enable_evil" then Some(Flame)
    else if id == "disable_evil" then Some(Shield)
    else if id == "enable_speaking" then Some(Volume2)
    else if id == "disable_speaking" then Some(VolumeX)
    else if id == "enable_dilemma" then Some(AlertTriangle)
    else if id == "disable_dilemma" then Some(CheckCircle)
    else if id == "set_code" then Some(Key)
    else None
  }

  /** Every id the table lists has an entry. */
  lemma ListedIdsHaveIcons(i: nat)
    requires i < |IconIds|
    ensures KnownIcon(IconIds[i]).Some?
  {
  }

  /** No two actions of the table share an icon. */
  lemma KnownIconInjective(id1: string, id2: string)
    requires KnownIcon(id1).Some? && KnownIcon(id1) == KnownIcon(id2)
    ensures id1 == id2
  {
  }

  /** The action's icon: its table entry, `Play` for an id the table lacks. */
  function IconFor(id: string): (r: Icon)
    ensures KnownIcon(id).Some? ==> r == KnownIcon(id).value
    ensures KnownIcon(id).None? ==> r == Play
    ensures r != Loader
  {
    match KnownIcon(id)
    case Some(icon) => icon
    case None => Play
  }

  /** Only `start` has `Play` in the table, so any other id showing `Play` is unknown. */
  lemma PlayMeansStartOrUnknown(id: string)
    requires IconFor(id) == Play
    ensures id == "start" || KnownIcon(id).None?
  {
  }

  /** The icon drawn in the button: a spinner while loading. */
  function ButtonIcon(action: GameAction, status: ActionStatus): (r: Icon)
    ensures status == Loading <==> r == Loader
    ensures status != Loading ==> r == IconFor(action.id)
  {
    if status == Loading then Loader else IconFor(action.id)
  }

  /** The button is disabled while its command is in flight or when told so. */
  function IsDisabled(disabled: bool, status: ActionStatus): (r: bool)
    ensures disabled ==> r
    ensures !disabled ==> (r <==> status == Loading)
  {
    disabled || status == Loading
  }

  /** A button its parent does not disable is disabled exactly while it shows the spinner. */
  lemma DisabledWhileSpinning(action: GameAction, status: ActionStatus)
    ensures IsDisabled(false, status) <==> ButtonIcon(action, status) == Loader
  {
  }

  /** Hint actions with parameters open a level menu instead of prompting. */
  function OpensMenu(action: GameAction): (r: bool)
    ensures r <==> action.id == "hint" && ParamsOf(action) != []
  {
    HasParams(action) && action.id == "hint"
  }

  /** `showChevron`: the menu arrow appears exactly on buttons that open a menu. */
  function ShowChevron(action: GameAction): (r: bool)
    ensures r <==> action.params.Some? && action.params.value != [] && action.id == "hint"
  {
    OpensMenu(action)
  }

  /** The levels the hint menu offers, in menu order. */
  const HintLevels: seq<string> := ["1", "2", "3"]

  class Button {
    var action: GameAction
    var status: ActionStatus
    var disabled: bool
    var menuOpen: bool
    /** Every `onClick` call so far: `Some(payload)` for `onClick(payload)`,
        `None` for a bare `onClick()`. */
    var clicks: seq<Option<Payload>>

    constructor (action: GameAction, status: ActionStatus, disabled: bool)
      ensures this.action == action && this.status == status && this.disabled == disabled
      ensures !menuOpen && clicks == []
    {
      this.action := action;
      this.status := status;
      this.disabled := disabled;
      menuOpen := false;
      clicks := [];
    }

    /** The parent re-renders the button with new properties; the menu state survives. */
    method OnPropsChanged(action: GameAction, status: ActionStatus, disabled: bool)
      modifies this
      ensures this.action == action && this.status == status && this.disabled == disabled
      ensures menuOpen == old(menuOpen) && clicks == old(clicks)
    {
      this.action := action;
      this.status := status;
      this.disabled := disabled;
    }

    /** `handleClick`. */
    method HandleClick(reply: Replies)
      modifies this
      ensures action == old(action) && status == old(status) && disabled == old(disabled)
      ensures IsDisabled(disabled, status) ==> menuOpen == old(menuOpen) && clicks == old(clicks)
      ensures !IsDisabled(disabled, status) && OpensMenu(action) ==>
        menuOpen == !old(menuOpen) && clicks == old(clicks)
      ensures !IsDisabled(disabled, status) && !OpensMenu(action) && HasParams(action) ==>
        menuOpen == old(menuOpen) &&
        var prompted := PromptedPayload(ParamsOf(action), reply);
        clicks == old(clicks) + (if prompted.Some? then [prompted] else [])
      ensures !IsDisabled(disabled, status) && !HasParams(action) ==>
        menuOpen == old(menuOpen) && clicks == old(clicks) + [None]
    {
      if disabled || status == Loading {
        return;
      }
      if action.params.Some? && |action.params.value| > 0 && action.id == "hint" {
        menuOpen := !menuOpen;
      } else if action.params.Some? && |action.params.value| > 0 {
        var payload, _ := CollectParams(action.params.value, reply);
        if payload.None? {
          return;
        }
        clicks := clicks + [payload];
      } else {
        clicks := clicks + [None];
      }
    }

    /** `handleParamSelect`: a level from the menu closes it and is sent as
        `level`, whatever the current status or disabled flag. */
    method HandleParamSelect(level: string)
      modifies this
      ensures !menuOpen
      ensures clicks == old(clicks) + [Some(map["level" := JString(level)])]
      ensures action == old(action) && status == old(status) && disabled == old(disabled)
    {
      menuOpen := false;
      clicks := clicks + [Some(map["level" := JString(level)])];
    }

    /** A click on entry `i` of the level menu, which is on screen only while
        it is open on a `hint` button. */
    method HandleMenuOption(i: nat)
      requires i < |HintLevels|
      requires menuOpen && action.id == "hint"
      modifies this
      ensures !menuOpen
      ensures clicks == old(clicks) + [Some(map["level" := JString(HintLevels[i])])]
      ensures action == old(action) && status == old(status) && disabled == old(disabled)
    {
      HandleParamSelect(HintLevels[i]);
    }

    /** A mouse press outside the button while the menu is open closes it. */
    method HandleClickOutside()
      modifies this
      ensures !menuOpen && clicks == old(clicks)
      ensures action == old(action) && status == old(status) && disabled == old(disabled)
    {
      menuOpen := false;
    }
  }

  /** The menu opened while idle still sends the chosen level after the status
      has turned to loading: the menu entries do not consult the disabled rule. */
  method LevelPickedWhileLoading(b: Button, reply: Replies)
    requires !b.menuOpen && !b.disabled && b.status == Idle
    requires b.action.id == "hint" && b.action.params == Some(["level"])
    modifies b
    ensures b.status == Loading && !b.menuOpen
    ensures b.clicks == old(b.clicks) + [Some(map["level" := JString("2")])]
  {
    b.HandleClick(reply);
    b.OnPropsChanged(b.action, Loading, b.disabled);
    b.HandleMenuOption(1);
  }
}

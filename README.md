# Back-office console: a Dafny model

This is a model of the escape room's back-office. It has three parts:

- The relay hub's HTTP command route. This is `POST /api/games/:gameId/command`, including the `aria` dilemma interception. The model also covers the local-address lookup the hub announces at start-up.
- The gamemaster dashboard. This covers:
  - grouping the registry snapshot into tabs;
  - deriving button colours, role names and state tags;
  - the per-button status cycle (loading, success or error, then idle);
  - the prompt loop that collects an action's parameters;
  - the `set_code` guard and its confirmation dialog.
- The dashboard widgets and screens: the password mirror, the event timeline, the action button with its hint menu, the messaging panel, the room screen and the music toggle.

Each source file is one module:

- `Server` (server/index.ts)
- `Console` (the App component)
- `PasswordAdminView`
- `EventTimeline`
- `ActionButton`
- `MessagingPanel`
- `Screen`
- `MusicWidget`

Three shared modules sit underneath them:

- `JsValues`: JSON scalars, truthiness, `String(v)`, and the record lookup `obj[key]`.
- `JsStrings`: `length` in UTF-16 code units, `trim` with ECMAScript's white-space set, `includes`, `split(sep)[0]` and `padStart`.
- `Actions`: the `GameAction` record, the button status, and the prompt loop that both the dashboard and the action button run.

How JavaScript things are modelled:

- **Stateful components** are classes. A React state variable is a field. A socket emit, an HTTP request or an `onClick` call is appended to a log field of the class.
- **Timers and HTTP answers** are separate methods the caller invokes. A method that starts a timer returns the timer's delay.
- **`window.prompt`** is a function `Replies` from the prompt's position in a round to the text entered. `None` means the prompt was cancelled.
- **The game registry behind the hub's `sendCommand`** is a function `delivers` saying whether a command reached a connected game.
- **A JavaScript `Map`** is an association list in insertion order.
- **A state record** is its `Object.entries` list.

## Model

| member | source | states |
|---|---|---|
| Server.FollowUps | server/index.ts:46-58 | Follow-up commands exist only for `aria` with `enable_dilemma` or `disable_dilemma`. There are at most two, and each carries an empty payload. |
| Server.EnableDilemmaFollowUps | server/index.ts:47-50 | Enabling the dilemma sends `dilemma_start` to the explorer, then to the protector. |
| Server.DisableDilemmaFollowUps | server/index.ts:54-57 | Disabling the dilemma sends `dilemma_end` to the explorer, then to the protector. |
| Server.FollowUpsAcyclic | server/index.ts:46-58 | A follow-up command would trigger no further follow-ups, so the interception cannot cascade. |
| Server.RequestSends | server/index.ts:40-58 | One request sends its primary command first. If that command is undelivered, nothing else is sent; if it is delivered, exactly the follow-ups come next. |
| Server.PrimarySentOnce | server/index.ts:40-58 | No follow-up repeats the request's own (game, action) pair. |
| Server.CommandRoute.constructor | server/index.ts:34 | No command has been sent when the route is registered. |
| Server.CommandRoute.SendCommand | server/index.ts:40 | A send is appended to the log, and its result is whether it was delivered. |
| Server.CommandRoute.HandleCommand | server/index.ts:34-61 | The log grows by exactly the request's sends. The reply is 404 "Game not found" when the primary command is undelivered, and 200 `{ok: true}` otherwise. |
| Server.Qualifies | server/index.ts:71 | Internal (loopback) and non-IPv4 addresses never qualify; an external IPv4 address does. |
| Server.GetLocalIP | server/index.ts:66-75 | The result is `null` exactly when no interface has an external IPv4 address. Otherwise it is the first such address in iteration order; missing address lists are skipped. |
| Server.FirstQualifyingUnique | server/index.ts:68-72 | At most one address is the first qualifying one. |
| JsValues.Truthy | client/src/App.tsx:136 | A value is falsy exactly when it is `null`, `false`, `0` or `""`. |
| JsValues.NatToString | client/src/components/EventTimeline.tsx:27-28 | `String(n)` is a non-empty run of digits with no leading zero for non-zero `n`. It has one digit below 10 and two digits from 10 to 99. |
| JsValues.NatToStringRoundTrip | client/src/components/EventTimeline.tsx:27-28 | Reading the decimal rendering back gives the number. |
| JsValues.NatToStringInjective | client/src/components/EventTimeline.tsx:27-28 | Different numbers render differently. |
| JsValues.IntToString | client/src/App.tsx:142 | `String(i)` is the decimal form of `i`, with a leading `-` exactly when `i` is negative. |
| JsValues.IntToStringInjective | client/src/App.tsx:142 | Different integers render differently. |
| JsValues.ToJsString | client/src/App.tsx:140-144 | `String(v)` leaves a string as it is and renders a number in decimal. The result is empty only for the empty string. |
| JsValues.Lookup | client/src/App.tsx:273 | `obj[key]` is the value of the first entry with that key, and is absent exactly when no entry has the key. |
| JsStrings.TrimStart | client/src/MessagingPanel.tsx:24 | The result is a suffix of the input. Everything removed is white space, and the result does not start with white space. |
| JsStrings.TrimEnd | client/src/MessagingPanel.tsx:24 | The result is a prefix of the input. Everything removed is white space, and the result does not end with white space. |
| JsStrings.Trim | client/src/MessagingPanel.tsx:24 | `trim()` leaves nothing exactly when the input is all white space. Otherwise the result starts and ends with a visible character and is no longer than the input. |
| JsStrings.IsBlank | client/src/MessagingPanel.tsx:24 | `!text.trim()` holds exactly when every character is white space. |
| JsStrings.TrimVisibleEnds | client/src/MessagingPanel.tsx:24 | A string that starts and ends with a visible character trims to itself, so it is not blank. |
| JsStrings.SplitHead | client/src/App.tsx:79 | `s.split(sep)[0]` is the longest prefix of `s` without `sep`, and is followed by `sep` when shorter than `s`. |
| JsStrings.SplitHeadOfJoin | client/src/App.tsx:79 | Splitting `head + sep + tail` gives back `head` when `head` holds no separator. |
| JsStrings.PadStart | client/src/components/EventTimeline.tsx:27-28 | The result has length `max(len, \|s\|)`, ends with `s`, and is filled before `s`. |
| JsStrings.Utf16Length | client/src/components/PasswordAdminView.tsx:15 | JavaScript's `length` lies between the character count and twice it. It equals the character count when every character is in the Basic Multilingual Plane. |
| JsStrings.Utf16LengthAppend | client/src/components/PasswordAdminView.tsx:15 | One more character adds one code unit, or two outside the Basic Multilingual Plane. |
| JsStrings.Utf16LengthConcat | client/src/components/PasswordAdminView.tsx:15 | The length of a concatenation is the sum of the lengths. |
| JsStrings.Includes | client/src/components/PasswordAdminView.tsx:25 | The empty string is included in every string, and nothing longer than the string is included in it. |
| JsStrings.IncludesInfix | client/src/components/PasswordAdminView.tsx:25 | A string includes each of its infixes, so any entry containing `(vide` is a placeholder. |
| Actions.HasParams | client/src/App.tsx:261 | An action with a present, non-empty parameter list has parameters. An absent list or an empty one (truthy in JavaScript) asks for nothing. |
| Actions.ParamsOf | client/src/App.tsx:261 | An action has parameters exactly when its parameter list is present and non-empty. |
| Actions.PromptedPayload | client/src/App.tsx:231-242 | The reference round: every value of a completed payload is a string the user typed. |
| Actions.PromptedPayloadNoneIffCancelled | client/src/App.tsx:234-236 | A round yields no payload exactly when one of its prompts is cancelled. |
| Actions.PromptedPayloadKeys | client/src/App.tsx:233-239 | A completed round's payload has exactly the parameter names as keys. |
| Actions.PromptedPayloadValues | client/src/App.tsx:234-237 | Each name maps to the text entered at its last prompt. |
| Actions.CollectParams | client/src/App.tsx:231-242 | The loop's result is the round's payload. Prompts are shown in order and stop at the first cancellation. |
| Console.GroupPrefix | client/src/App.tsx:68-71 | Exactly `sidequest-computer` and `sidequest-uplink` have an entry, and both map to `sidequest`. |
| Console.BaseId | client/src/App.tsx:68-80 | A game's tab is its id up to the first `:`, renamed to `sidequest` for the two sidequest stations. |
| Console.BaseIdOfRole | client/src/App.tsx:79-80 | A role-qualified id `base:role` belongs to the tab `base`. |
| Console.FindKey | client/src/App.tsx:81 | `Map.get` finds the first entry with the key, and fails exactly when there is none. |
| Console.Get | client/src/App.tsx:81 | `groups.get(k) ?? []` is the list of the first entry with key `k`, or empty when there is none. |
| Console.Set | client/src/App.tsx:83 | `groups.set(k, list)` replaces an existing entry in place or appends a new one, and leaves every other entry where it was. |
| Console.TotalSizeUpdate | client/src/App.tsx:83 | Replacing one entry changes the total size by the difference of the two lists. |
| Console.FindKeyOfDistinct | client/src/App.tsx:81 | With distinct keys, looking up an entry's key finds that entry. |
| Console.SetKeys | client/src/App.tsx:83 | `Map.set` keeps keys distinct and adds exactly its key. |
| Console.SetGet | client/src/App.tsx:81-83 | After `Map.set(k, l)`, `get(k)` is `l` and every other key is unchanged. |
| Console.SetSize | client/src/App.tsx:83 | `Map.set` changes the total size by the old and new list lengths. |
| Console.Grouped | client/src/App.tsx:73-86 | The reference map, built by inserting every game in order, has no more entries than there are games. |
| Console.Members | client/src/App.tsx:77-84 | The reference grouping holds exactly the input games whose tab is `k`. |
| Console.GroupedPartition | client/src/App.tsx:73-86 | The built map has distinct keys, one per tab that occurs. Each entry holds exactly that tab's games in input order, and the sizes add up to the input's size. |
| Console.GroupConnectedGames | client/src/App.tsx:73-86 | The loop builds the reference map, which partitions the input by tab. |
| Console.MergeWithPredefined | client/src/App.tsx:88-101 | There is one tab per predefined game, in order. Each holds exactly the connected games of its base id, and it is connected iff it has any. |
| Console.MergedConnectedIffInstances | client/src/App.tsx:99 | A tab is marked connected exactly when it has an instance. |
| Console.UnlistedGamesHidden | client/src/App.tsx:91-100 | A game whose tab is not predefined appears in no tab. |
| Console.GetVariant | client/src/App.tsx:103-114 | `danger` is for reset and remove_points, `success` for the three start/add actions, `warning` for disable_ai and skip_phase, and `primary` for everything else. |
| Console.GetRoleName | client/src/App.tsx:116-121 | The two labyrinth roles get French names. Another non-empty role is shown as is; otherwise the game's name is shown. |
| Console.GetSubGameClass | client/src/App.tsx:123-128 | The class is the base id for the two sidequest stations, and empty otherwise. |
| Console.StateTags | client/src/App.tsx:130-150 | The reference tag list has at most one tag per state entry. |
| Console.TagFor | client/src/App.tsx:135-147 | A tag is produced exactly for the six known keys; the score and phase tags carry `String(val)`. |
| Console.TagTitlesDistinct | client/src/App.tsx:135-147 | Different keys give tags with different titles. |
| Console.StateTagsFromKnownKeys | client/src/App.tsx:134-148 | Every tag comes from some entry of the state. |
| Console.StateTagTitlesDistinct | client/src/App.tsx:134-148 | For an object with distinct keys, no tag title repeats. |
| Console.UnknownKeyIgnored | client/src/App.tsx:147 | An unknown key, for instance `gameStarted`, adds no tag. |
| Console.FormatState | client/src/App.tsx:130-150 | The loop produces the reference tag list, in entry order. |
| Console.StatusKey | client/src/App.tsx:205 | The key is the game id, then `:`, then the action id. |
| Console.StatusKeyInjective | client/src/App.tsx:205-206 | With colon-free action ids, a status key determines its game and action. |
| Console.GetStatus | client/src/App.tsx:321-323 | A button with no recorded status is idle; otherwise it has its recorded status. |
| Console.InstanceStatuses | client/src/App.tsx:465-467 | There is one status per instance, in order. |
| Console.FeedbackStatus | client/src/App.tsx:468-481 | The shared feedback is loading iff any instance is loading. It is success iff none is loading and all succeeded, and error iff none is loading, not all succeeded and one failed. It is idle otherwise. |
| Console.FeedbackOfOne | client/src/App.tsx:468-481 | A single instance's button shows its own status. |
| Console.FeedbackOrderFree | client/src/App.tsx:468-481 | The feedback does not depend on instance order. |
| Console.FeedbackSameMembers | client/src/App.tsx:468-481 | Two status lists with the same members give the same feedback. |
| Console.SharedFeedbackOrderFree | client/src/App.tsx:465-481 | A shared button over the same instances, reordered or repeated, shows the same feedback. |
| Console.FindGame | client/src/App.tsx:270-272 | `find` returns the first game with the id, and nothing exactly when there is none. |
| Console.SetCodeBlocked | client/src/App.tsx:269-273 | The code is refused iff the first `sidequest-computer` instance exists and its `isPasswordCorrect` is the boolean `true`. |
| Console.SetCodeGuardIsStrict | client/src/App.tsx:273 | A truthy value other than `true`, such as the string `"true"` or the number 1, does not refuse the code. |
| Console.SetCodeOnlyFirstInstance | client/src/App.tsx:270-273 | Only the first computer instance counts: a later one reporting success does not refuse the code. |
| Console.MarkedLoadingStep | client/src/App.tsx:205-206 | Marking one more instance loading sets its key, as `sendCommand` does. |
| Console.RequestsFor | client/src/App.tsx:250-252 | `sendToAll` requests one command per instance, in instance order. |
| Console.MarkedLoading | client/src/App.tsx:244-255 | After `sendToAll` every instance's key is loading. Every other key keeps its status, and no key is added but the instances'. |
| Console.Dashboard.constructor | client/src/App.tsx:160-169 | The dashboard starts with no games, no statuses, a closed dialog and no requests. |
| Console.Dashboard.OnGamesUpdated | client/src/App.tsx:174-178 | A snapshot replaces the games and nothing else. |
| Console.Dashboard.SendCommand | client/src/App.tsx:205-214 | The button turns loading and the request is issued. |
| Console.Dashboard.OnCommandSettled | client/src/App.tsx:215-226 | A 2xx answer means success and a 1500 ms reset timer. Anything else means error and a 2500 ms timer. |
| Console.Dashboard.OnStatusTimeout | client/src/App.tsx:218-225 | The reset timer returns the button to idle. |
| Console.Dashboard.SendToAll | client/src/App.tsx:244-255 | Every instance's request is issued in order, and every instance's button is marked loading. |
| Console.Dashboard.HandleActionClick | client/src/App.tsx:257-294 | The four outcomes depend on the prompts and the `set_code` guard. A cancelled round sends nothing. `set_code` is refused when the computer reports its code as correct, and otherwise opens the confirmation with the collected payload. Any other action is sent to every instance. |
| Console.Dashboard.HandleConfirmAction | client/src/App.tsx:296-310 | The confirmed action is sent to its instances when there are any, and the dialog closes. |
| Console.Dashboard.HandleCancelAction | client/src/App.tsx:312-319 | The dialog closes and nothing is sent. |
| PasswordAdminView.BorderClass | client/src/components/PasswordAdminView.tsx:13-19 | The class is `correct` whenever the code is correct. It is `incorrect` iff the code is not correct and the entry is five UTF-16 code units long, and `default` otherwise. |
| PasswordAdminView.AstralEntryCountsDouble | client/src/components/PasswordAdminView.tsx:15 | Three characters, two of them outside the Basic Multilingual Plane, already make a full-length, incorrect entry. |
| PasswordAdminView.BorderClassBmp | client/src/components/PasswordAdminView.tsx:15 | For an entry of Basic Multilingual Plane characters, `incorrect` means exactly five characters. |
| PasswordAdminView.CleanPassword | client/src/components/PasswordAdminView.tsx:22-29 | The input is kept unless it is a placeholder (empty, blank, containing `(vide`, `undefined` or `null`), in which case it becomes empty. |
| PasswordAdminView.CleanPasswordIdempotent | client/src/components/PasswordAdminView.tsx:22-29 | Cleaning twice is cleaning once. |
| PasswordAdminView.CleanPasswordVisible | client/src/components/PasswordAdminView.tsx:24 | A kept entry has a visible character. |
| PasswordAdminView.Boxes | client/src/components/PasswordAdminView.tsx:10-36 | There are exactly five boxes. Box `i` shows character `i`, or `_` past the entry's end. |
| PasswordAdminView.BoxesIgnoreTail | client/src/components/PasswordAdminView.tsx:34-36 | Characters beyond the fifth never show. |
| PasswordAdminView.BoxesShowEntry | client/src/components/PasswordAdminView.tsx:34-36 | An entry of at most five characters is shown as typed and padded with `_`. |
| PasswordAdminView.Render | client/src/components/PasswordAdminView.tsx:31-41 | The view is the border class plus the boxes of the cleaned entry. |
| PasswordAdminView.PlaceholderShowsBlanks | client/src/components/PasswordAdminView.tsx:22-36 | A placeholder renders as five empty boxes. |
| EventTimeline.TwoDigits | client/src/components/EventTimeline.tsx:27-28 | A padded part is all digits, and is two long for values below 100. |
| EventTimeline.LeadingZero | client/src/components/EventTimeline.tsx:27-28 | A leading `0` does not change the number a digit string denotes. |
| EventTimeline.TwoDigitsRoundTrip | client/src/components/EventTimeline.tsx:27-28 | Below 100, the padded part reads back as the number. |
| EventTimeline.FormatTime | client/src/components/EventTimeline.tsx:26-30 | For values of at most two digits, the result is five characters with `:` in the middle. |
| EventTimeline.FormatTimeRoundTrip | client/src/components/EventTimeline.tsx:26-30 | Hours and minutes read back from either side of the colon. |
| EventTimeline.FormatTimeInjective | client/src/components/EventTimeline.tsx:26-30 | Different clock times render differently. |
| EventTimeline.StatusIcon | client/src/components/EventTimeline.tsx:32-36 | The icon is a check mark iff the status is success, a cross iff it is error, and a dot otherwise. |
| EventTimeline.StatusClass | client/src/components/EventTimeline.tsx:38-44 | The class is one of five values. The status decides success and error; otherwise the kind decides connection and audio; otherwise it is `info`. |
| EventTimeline.StatusOverridesKind | client/src/components/EventTimeline.tsx:38-41 | A success status wins over any kind. |
| EventTimeline.IconMatchesClass | client/src/components/EventTimeline.tsx:32-44 | The icon and the class agree on success and error. |
| EventTimeline.RowFor | client/src/components/EventTimeline.tsx:139-147 | A row carries the event's id, class, time, icon and message. |
| EventTimeline.Render | client/src/components/EventTimeline.tsx:134-149 | An empty list shows only the waiting message; otherwise there is one row per event, in order. |
| EventTimeline.RenderAppend | client/src/components/EventTimeline.tsx:139-148 | A new event adds one row at the bottom and keeps the earlier rows. |
| ActionButton.IconAction | client/src/components/ActionButton.tsx:45-63 | The spinner stands for no action, and every other icon stands for a listed action id. |
| ActionButton.KnownIcon | client/src/components/ActionButton.tsx:45-63 | An id has an entry only if it is one of the seventeen listed ids, and reading the entry backwards gives back the id. |
| ActionButton.ListedIdsHaveIcons | client/src/components/ActionButton.tsx:45-63 | Every listed id has an entry. |
| ActionButton.KnownIconInjective | client/src/components/ActionButton.tsx:45-63 | No two listed actions share an icon. |
| ActionButton.IconFor | client/src/components/ActionButton.tsx:45-92 | A known id gets its table icon, and an unknown id gets `Play`. |
| ActionButton.PlayMeansStartOrUnknown | client/src/components/ActionButton.tsx:45-92 | A button showing `Play` is `start` or an unknown action. |
| ActionButton.ButtonIcon | client/src/components/ActionButton.tsx:131-135 | The spinner shows exactly while loading; otherwise the action's icon shows. |
| ActionButton.IsDisabled | client/src/components/ActionButton.tsx:129 | The button is disabled whenever its parent disables it. Otherwise it is disabled exactly while loading. |
| ActionButton.DisabledWhileSpinning | client/src/components/ActionButton.tsx:129-135 | A button its parent does not disable is disabled exactly while it shows the spinner. |
| ActionButton.OpensMenu | client/src/components/ActionButton.tsx:98 | A click opens the level menu exactly on a `hint` action that has parameters. |
| ActionButton.ShowChevron | client/src/components/ActionButton.tsx:121-122 | The menu arrow shows exactly for `hint` with parameters. |
| ActionButton.Button.constructor | client/src/components/ActionButton.tsx:65-72 | A new button holds the properties it was given, with the menu closed and no calls made. |
| ActionButton.Button.HandleClick | client/src/components/ActionButton.tsx:94-113 | When disabled or loading, a click does nothing. For `hint` with parameters it toggles the menu only. For another action with parameters it calls `onClick` with the round's payload, or not at all when a prompt is cancelled. With no parameters it calls `onClick()`. |
| ActionButton.Button.HandleParamSelect | client/src/components/ActionButton.tsx:115-119 | Choosing a level closes the menu and calls `onClick({level})`. |
| ActionButton.Button.HandleMenuOption | client/src/components/ActionButton.tsx:144-165 | Menu entry 1, 2 or 3 closes the menu and calls `onClick` with level `"1"`, `"2"` or `"3"`. |
| ActionButton.Button.OnPropsChanged | client/src/components/ActionButton.tsx:65-72 | New properties replace the old ones; the menu state and the recorded calls are kept. |
| ActionButton.LevelPickedWhileLoading | client/src/components/ActionButton.tsx:144-165 | A level picked from a menu opened while idle is still sent after the status has turned to loading. |
| ActionButton.Button.HandleClickOutside | client/src/components/ActionButton.tsx:77-81 | A press outside closes the menu and calls nothing. |
| MessagingPanel.ToggleEmission | client/src/MessagingPanel.tsx:33-41 | A toggle emits stop iff recording, and start otherwise. |
| MessagingPanel.ToggleTwiceEmitsPair | client/src/MessagingPanel.tsx:33-41 | Two toggles emit a start and a stop, in the order the state asks for. |
| MessagingPanel.PresetsNotBlank | client/src/MessagingPanel.tsx:5-12 | No preset is blank. |
| MessagingPanel.Panel.constructor | client/src/MessagingPanel.tsx:19-21 | The panel starts with an empty draft, no sent notice, not recording and nothing emitted. |
| MessagingPanel.Panel.SendMessage | client/src/MessagingPanel.tsx:23-31 | Blank text emits nothing and leaves the notice alone. Other text is emitted verbatim, becomes `lastSent`, and starts a 3000 ms timer. |
| MessagingPanel.Panel.OnNoticeTimeout | client/src/MessagingPanel.tsx:30 | The timer clears `lastSent`. |
| MessagingPanel.Panel.ToggleRecording | client/src/MessagingPanel.tsx:33-41 | A toggle flips `isRecording` and emits the matching event. |
| MessagingPanel.Panel.EditCustomText | client/src/MessagingPanel.tsx:99 | Typing replaces the draft. |
| MessagingPanel.Panel.SendCustomText | client/src/MessagingPanel.tsx:105-108 | The draft is sent as `sendMessage` would send it, and is then cleared even if it was blank. |
| MessagingPanel.Panel.SendPreset | client/src/MessagingPanel.tsx:59-62 | A preset button always emits its preset. |
| MessagingPanel.ToggleTwice | client/src/MessagingPanel.tsx:33-41 | Two presses restore the recording state and emit a start/stop pair. |
| Screen.HideDelayMs | client/src/Screen.tsx:45 | The delay is `duration` seconds when the duration is truthy, and 10 s otherwise. |
| Screen.BeepOps | client/src/Screen.tsx:32-37 | A beep happens iff sound is requested and the audio element is mounted; it rewinds, then plays. |
| Screen.RoomScreen.constructor | client/src/Screen.tsx:10-22 | A new screen has nothing shown and is not ready, and it registers as a screen. |
| Screen.RoomScreen.OnDisplayMessage | client/src/Screen.tsx:27-47 | The text is shown. The screen beeps iff sound is requested and it is ready, and the hide delay is returned. |
| Screen.RoomScreen.OnHideTimer | client/src/Screen.tsx:41-44 | The hide timer hides the message and clears it. |
| Screen.RoomScreen.OnClick | client/src/Screen.tsx:58 | The click sets `ready`. |
| Screen.RoomScreen.View | client/src/Screen.tsx:56-79 | Until ready, only the click-to-start view renders. Afterwards the screen is active, and shows the popup with the message, exactly while a message is visible. |
| Screen.SilentUntilReady | client/src/Screen.tsx:32-68 | A message received before the screen is ready neither beeps nor shows. |
| MusicWidget.ShowPlayIcon | client/src/components/MusicWidget.tsx:24 | The play icon shows iff the hover state equals the playing state. |
| MusicWidget.HoverPreviewsToggle | client/src/components/MusicWidget.tsx:23-24 | At rest the icon shows the state; hovering shows the opposite. |
| MusicWidget.WidgetClass | client/src/components/MusicWidget.tsx:28 | The class is `playing` iff music is playing. |
| MusicWidget.WidgetTitle | client/src/components/MusicWidget.tsx:32 | The title is "Pause Musique" iff music is playing. |
| MusicWidget.Widget.constructor | client/src/components/MusicWidget.tsx:6-7 | The widget starts neither playing nor hovered, with nothing emitted. |
| MusicWidget.Widget.OnSpotifyState | client/src/components/MusicWidget.tsx:10-12 | The reported state sets `isPlaying` to the negation of `isPaused`. |
| MusicWidget.Widget.Toggle | client/src/components/MusicWidget.tsx:19-21 | A click emits `spotify:toggle` and changes no local state. |
| MusicWidget.Widget.MouseEnter | client/src/components/MusicWidget.tsx:30 | Hovering sets `isHovered`, and the icon then previews the toggle. |
| MusicWidget.Widget.MouseLeave | client/src/components/MusicWidget.tsx:31 | Leaving clears `isHovered`, and the icon shows the state again. |

## Left out

- The hub's registry is not modelled. This covers `sendCommand`, `getConnectedGames`, `setupGamemaster` and `setupAudioRelay` (server/socket/*), and they are not part of this model. A send is an opaque delivered-or-not step, and `GET /api/games` is not modelled.
- Express, CORS, static files, `httpServer.listen` and logging are I/O. `os.networkInterfaces()` is replaced by its result, passed in as a sequence.
- Numbers are integers. Fractions, `NaN`, and the exponent notation `String(n)` uses for very large numbers are not modelled.
- State values and payload values are JSON scalars. Nested objects and arrays are not modelled.
- `GAME_GROUP_PREFIXES[rawBase]` and `ACTION_ICONS[action.id]` are modelled as plain tables. In JavaScript, an id such as `constructor` would find an inherited `Object.prototype` member instead.
- JSX layout, CSS, toasts and the socket connection are presentation or I/O. So are the active-tab choice and the layout switch between one shared button row and per-instance rows (`allSameActions`). The feedback a shared button shows is modelled (`Console.FeedbackStatus`).
- The render conditions of the hint menu (`menuOpen && action.id === "hint"`) and of the sent notice are presentation. The menu is reachable only through `ActionButton.Button.HandleMenuOption`, which requires an open menu on a `hint` button.
- Console.Dashboard.HandleConfirmAction: `handleConfirmAction` closes the dialog only after every request has settled. The model issues the requests and closes the dialog in one step.
- Timers are events the caller fires. The model does not capture that an earlier timer may fire after a newer message, nor that it would then clear the newer `lastSent` or the newer screen message.
- PasswordAdminView.Boxes counts and indexes characters. JavaScript indexes UTF-16 code units, which differs for characters outside the Basic Multilingual Plane. `BorderClass` does count code units (`JsStrings.Utf16Length`).
- Screen.RoomScreen.OnDisplayMessage: `duration` is modelled as an optional integer. A negative value yields a negative delay, which `setTimeout` treats as zero. Non-numeric durations are not modelled.
- The `Date` of a timeline event is given as its local hours and minutes. The auto-scroll effect is presentation.
- `client/src/components/CameraTransmitter.tsx` is media capture and I/O, and is not part of this model.
- `client/src/components/AriaCatAvatar.tsx` is static SVG, and is not part of this model.
- `client/src/components/ConfirmDialog.tsx` only renders the dialog, and is not part of this model.
- `client/vite.config.ts` is development tooling, and is not part of this model.

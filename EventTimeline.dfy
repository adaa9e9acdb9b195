/** The dashboard's event log panel (`client/src/components/EventTimeline.tsx`):
    how each event's time, icon and colour class are chosen and how the list
    is laid out. The event's `Date` is given as its local hours and minutes. */
module EventTimeline {
  import opened JsValues
  import opened JsStrings

  datatype EventKind = Connection | ActionEvent | ErrorEvent | StateChange | AudioEvent

  datatype EventStatus = SuccessStatus | ErrorStatus | InfoStatus

  /** One `TimelineEvent`; `kind` is the TypeScript field `type`. */
  datatype TimelineEvent = TimelineEvent(
    id: string,
    hours: nat,
    minutes: nat,
    kind: EventKind,
    message: string,
    gameId: Option<string>,
    status: Option<EventStatus>)

  /** `String(n).padStart(2, "0")`. */
  function TwoDigits(n: nat): (r: string)
    ensures |NatToString(n)| <= 2 ==> |r| == 2
    ensures AllDigits(r)
  {
    PadStart(NatToString(n), 2, '0')
  }

  /** A leading zero does not change the number a digit string denotes. */
  lemma {:induction false} LeadingZero(s: string)
    requires AllDigits(s)
    ensures AllDigits("0" + s) && DigitsValue("0" + s) == DigitsValue(s)
    decreases |s|
  {
    if s != [] {
      var n := |s| - 1;
      LeadingZero(s[..n]);
      assert ("0" + s)[..|"0" + s| - 1] == "0" + s[..n];
    }
  }

  /** Below 100 the padded form has two digits and reads back as the number. */
  lemma TwoDigitsRoundTrip(n: nat)
    requires n < 100
    ensures |TwoDigits(n)| == 2 && DigitsValue(TwoDigits(n)) == n
  {
    NatToStringRoundTrip(n);
    if n < 10 {
      LeadingZero(NatToString(n));
      assert TwoDigits(n) == "0" + NatToString(n);
    }
  }

  /** `formatTime`: `HH:MM`. */
  function FormatTime(hours: nat, minutes: nat): (r: string)
    ensures |NatToString(hours)| <= 2 && |NatToString(minutes)| <= 2 ==> |r| == 5 && r[2] == ':'
  {
    TwoDigits(hours) + ":" + TwoDigits(minutes)
  }

  /** For clock values the rendering is five characters and the hours and
      minutes can be read back from either side of the colon. */
  lemma FormatTimeRoundTrip(hours: nat, minutes: nat)
    requires hours < 100 && minutes < 100
    ensures var r := FormatTime(hours, minutes);
      && |r| == 5 && r[2] == ':'
      && AllDigits(r[..2]) && DigitsValue(r[..2]) == hours
      && AllDigits(r[3..]) && DigitsValue(r[3..]) == minutes
  {
    TwoDigitsRoundTrip(hours);
    TwoDigitsRoundTrip(minutes);
    var r := FormatTime(hours, minutes);
    assert r[..2] == TwoDigits(hours);
    assert r[3..] == TwoDigits(minutes);
  }

  /** Two distinct clock times never render alike. */
  lemma FormatTimeInjective(h1: nat, m1: nat, h2: nat, m2: nat)
    requires h1 < 100 && m1 < 100 && h2 < 100 && m2 < 100
    requires FormatTime(h1, m1) == FormatTime(h2, m2)
    ensures h1 == h2 && m1 == m2
  {
    FormatTimeRoundTrip(h1, m1);
    FormatTimeRoundTrip(h2, m2);
  }

  /** `getStatusIcon`: a check mark, a cross, or a dot. */
  function StatusIcon(e: TimelineEvent): (r: string)
    ensures r == "\U{2713}" <==> e.status == Some(SuccessStatus)
    ensures r == "\U{2715}" <==> e.status == Some(ErrorStatus)
    ensures r == "\U{25CF}" <==> e.status != Some(SuccessStatus) && e.status != Some(ErrorStatus)
  {
    if e.status == Some(SuccessStatus) then "\U{2713}"
    else if e.status == Some(ErrorStatus) then "\U{2715}"
    else "\U{25CF}"
  }

  /** `getStatusClass`: the status decides success and error, whatever the
      kind; otherwise connections and audio events get their own colour. */
  function StatusClass(e: TimelineEvent): (r: string)
    ensures r in {"success", "error", "connection", "audio", "info"}
    ensures r == "success" <==> e.status == Some(SuccessStatus)
    ensures r == "error" <==> e.status == Some(ErrorStatus)
    ensures r == "connection" <==> e.status != Some(SuccessStatus) && e.status != Some(ErrorStatus) && e.kind == Connection
    ensures r == "audio" <==> e.status != Some(SuccessStatus) && e.status != Some(ErrorStatus) && e.kind == AudioEvent
  {
    if e.status == Some(SuccessStatus) then "success"
    else if e.status == Some(ErrorStatus) then "error"
    else if e.kind == Connection then "connection"
    else if e.kind == AudioEvent then "audio"
    else "info"
  }

  /** An error-kind event with a success status is still shown as a success. */
  lemma StatusOverridesKind(e: TimelineEvent)
    requires e.status == Some(SuccessStatus)
    ensures StatusClass(e.(kind := ErrorEvent)) == "success" && StatusClass(e.(kind := Connection)) == "success"
  {
  }

  /** The icon and the colour agree on success and error. */
  lemma IconMatchesClass(e: TimelineEvent)
    ensures StatusIcon(e) == "\U{2713}" <==> StatusClass(e) == "success"
    ensures StatusIcon(e) == "\U{2715}" <==> StatusClass(e) == "error"
  {
  }

  /** One rendered row: key, class names, time, icon and message. */
  datatype Row = Row(key: string, cssClass: string, time: string, icon: string, message: string)

  datatype Panel = Placeholder(text: string) | Rows(rows: seq<Row>)

  function RowFor(e: TimelineEvent): (r: Row)
    ensures r.key == e.id && r.message == e.message
    ensures r.cssClass == "timeline-event " + StatusClass(e)
    ensures r.time == FormatTime(e.hours, e.minutes) && r.icon == StatusIcon(e)
  {
    Row(e.id, "timeline-event " + StatusClass(e), FormatTime(e.hours, e.minutes), StatusIcon(e), e.message)
  }

  /** The event list: a waiting message when empty, else one row per event. */
  function Render(events: seq<TimelineEvent>): (p: Panel)
    ensures p.Placeholder? <==> events == []
    ensures p.Placeholder? ==> p.text == "En attente d'\U{E9}v\U{E9}nements..."
    ensures p.Rows? ==> |p.rows| == |events| && forall i :: 0 <= i < |events| ==> p.rows[i] == RowFor(events[i])
  {
    if events == [] then Placeholder("En attente d'\U{E9}v\U{E9}nements...")
    else Rows(seq(|events|, i requires 0 <= i < |events| => RowFor(events[i])))
  }

  /** Appending an event adds one row at the bottom and keeps the others. */
  lemma RenderAppend(events: seq<TimelineEvent>, e: TimelineEvent)
    ensures var p := Render(events + [e]);
      && p.Rows? && |p.rows| == |events| + 1 && p.rows[|events|] == RowFor(e)
      && (events != [] ==> p.rows[..|events|] == Render(events).rows)
  {
  }
}

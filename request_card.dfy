/** The values a help-request card computes: the relative creation time,
    the shortened description, the urgency and status badges, the volunteer
    button's visibility and the click it forwards. */
module RequestCard {
  import opened Common
  import opened AppState

  // ---------------------------------------------------------------------
  // Relative time, counted in whole minutes
  // ---------------------------------------------------------------------

  /** `formatTimeAgo` of the card: whole minutes since creation (floored, so
      a future date counts as "Just now"), then whole hours from the
      minutes, then whole days from the hours. Each unit is the floor of the
      elapsed time by that unit, and the unit is chosen by the elapsed time
      alone. */
  function FormatTimeAgo(createdAt: int, now: int): (t: TimeAgo)
    ensures var d := now - createdAt;
      && (t.JustNow? <==> d < MinuteMs)
      && (t.MinutesAgo? <==> MinuteMs <= d < HourMs)
      && (t.HoursAgo? <==> HourMs <= d < DayMs)
      && (t.DaysAgo? <==> DayMs <= d)
      && (t.MinutesAgo? ==> t.minutes == d / MinuteMs)
      && (t.HoursAgo? ==> t.hours == d / HourMs)
      && (t.DaysAgo? ==> t.days == d / DayMs)
  {
    var diffInMinutes := (now - createdAt) / MinuteMs;
    DivDiv(now - createdAt, MinuteMs, 60);
    DivDiv(now - createdAt, HourMs, 24);
    if diffInMinutes < 1 then JustNow
    else if diffInMinutes < 60 then MinutesAgo(diffInMinutes)
    else
      var diffInHours := diffInMinutes / 60;
      if diffInHours < 24 then HoursAgo(diffInHours)
      else DaysAgo(diffInHours / 24)
  }

  // ---------------------------------------------------------------------
  // Description shortening
  // ---------------------------------------------------------------------

  const DefaultMaxLength: nat := 120

  /** `truncateText(text, maxLength)`: a text that fits is kept; a longer one
      becomes its first `maxLength` characters and an ellipsis. */
  function TruncateText(text: string, maxLength: nat): (r: string)
    ensures |text| <= maxLength ==> r == text
    ensures |text| > maxLength ==>
      && |r| == maxLength + 3
      && r[..maxLength] == text[..maxLength]
      && r[maxLength..] == "..."
  {
    if |text| <= maxLength then text else text[..maxLength] + "..."
  }

  /** Shortening a shortened text changes nothing more: the result is never
      longer than `maxLength + 3`, and a second pass keeps the same first
      `maxLength` characters and the same ellipsis. */
  lemma TruncateIdempotent(text: string, maxLength: nat)
    ensures |TruncateText(text, maxLength)| <= maxLength + 3
    ensures TruncateText(TruncateText(text, maxLength), maxLength) == TruncateText(text, maxLength)
  {
    var once := TruncateText(text, maxLength);
    if |text| > maxLength {
      var twice := TruncateText(once, maxLength);
      assert twice[..maxLength] == once[..maxLength];
      assert |twice| == |once|;
      assert twice[maxLength..] == once[maxLength..];
      assert twice == twice[..maxLength] + twice[maxLength..];
      assert once == once[..maxLength] + once[maxLength..];
    }
  }

  // ---------------------------------------------------------------------
  // Badges
  // ---------------------------------------------------------------------

  /** The index of the first `c` in `s`, or -1. */
  function IndexOfChar(s: string, c: char): (i: int)
    ensures -1 <= i < |s|
    ensures i == -1 <==> c !in s
    ensures i >= 0 ==> s[i] == c && c !in s[..i]
  {
    if s == [] then -1
    else if s[0] == c then 0
    else
      var j := IndexOfChar(s[1..], c);
      if j == -1 then -1
      else
        assert s[..j + 1] == [s[0]] + s[1..][..j];
        j + 1
  }

  /** `s.replace(a, b)` with a one-character pattern: only the first
      occurrence is replaced. */
  function ReplaceFirst(s: string, a: char, b: char): (r: string)
    ensures var i := IndexOfChar(s, a);
      r == if i == -1 then s else s[i := b]
  {
    if s == [] then []
    else if s[0] == a then [b] + s[1..]
    else [s[0]] + ReplaceFirst(s[1..], a, b)
  }

  /** The urgency badge: the first character upper-cased, the rest kept. */
  function UrgencyLabel(urgency: string): string
  {
    Capitalize(urgency)
  }

  /** The status badge: the first underscore becomes a space, then the first
      character is upper-cased. */
  function StatusLabel(status: string): (r: string)
    ensures |r| == |status|
    ensures status != [] ==> r[0] == UpperChar(if status[0] == '_' then ' ' else status[0])
  {
    Capitalize(ReplaceFirst(status, '_', ' '))
  }

  /** The status badge differs from the status only at its first character
      and at the first underscore; a later underscore stays. */
  lemma StatusLabelChanges(status: string)
    ensures var r := StatusLabel(status);
      var i := IndexOfChar(status, '_');
      && |r| == |status|
      && (status != [] ==> r[0] == UpperChar(if i == 0 then ' ' else status[0]))
      && (i >= 0 ==> i == 0 || r[i] == ' ')
      && (forall k :: 0 < k < |status| && k != i ==> r[k] == status[k])
  {
  }

  // ---------------------------------------------------------------------
  // The volunteer button
  // ---------------------------------------------------------------------

  /** `showVolunteerButton && request.status === 'open'`. */
  predicate ShowVolunteerButton(showVolunteerButton: bool, status: string)
  {
    showVolunteerButton && status == "open"
  }

  /** The button shows only for open requests, and every request just added
      through `addHelpRequest` is open, so it offers the button whenever the
      list allows buttons at all. */
  lemma VolunteerButtonOnOpenOnly(showVolunteerButton: bool, data: HelpRequest, id: string, now: int, r: HelpRequest)
    ensures ShowVolunteerButton(showVolunteerButton, r.status) ==> r.status == "open"
    ensures ShowVolunteerButton(showVolunteerButton, NewHelpRequest(data, id, now).status) <==> showVolunteerButton
  {
  }

  /** `handleVolunteerClick`: the id forwarded to `onVolunteer`, when a
      handler is attached. */
  function VolunteerClick(request: HelpRequest, hasOnVolunteer: bool): (forwarded: Option<string>)
    ensures forwarded.Some? <==> hasOnVolunteer
    ensures forwarded.Some? ==> forwarded.value == request.id
  {
    if hasOnVolunteer then Some(request.id) else None
  }
}

/** The values the map computes for its markers and popups: the marker
    colour with its fallback, the marker letter, and the relative time
    counted in whole hours. */
module MapMarkers {
  import opened Common
  import RequestCard

  /** The colour table of the marker icons. */
  const CriticalColour: string := "#dc2626"
  const HighColour: string := "#ea580c"
  const MediumColour: string := "#d97706"
  const LowColour: string := "#16a34a"

  /** `colors[urgency]`, absent for any other urgency. */
  function ColourEntry(urgency: string): Option<string>
  {
    if urgency == "critical" then Some(CriticalColour)
    else if urgency == "high" then Some(HighColour)
    else if urgency == "medium" then Some(MediumColour)
    else if urgency == "low" then Some(LowColour)
    else None
  }

  /** `colors[urgency] || colors.medium`: the table's colour for the four
      urgencies, the medium colour for every other value. */
  function MarkerColour(urgency: string): (c: string)
    ensures ColourEntry(urgency).Some? ==> c == ColourEntry(urgency).value
    ensures ColourEntry(urgency).None? ==> c == MediumColour
  {
    var entry := ColourEntry(urgency);
    if entry.Some? && entry.value != "" then entry.value else MediumColour
  }

  /** The four urgencies get four different colours, and an unknown urgency
      looks like a medium one. */
  lemma MarkerColoursDistinct(u: string)
    ensures var known := ["critical", "high", "medium", "low"];
      forall i, j :: 0 <= i < j < |known| ==> MarkerColour(known[i]) != MarkerColour(known[j])
    ensures u !in ["critical", "high", "medium", "low"] ==> MarkerColour(u) == MarkerColour("medium")
  {
    var known := ["critical", "high", "medium", "low"];
    assert CriticalColour[2] != HighColour[2] && CriticalColour[2] != MediumColour[2] && CriticalColour[2] != LowColour[2];
    assert HighColour[2] != MediumColour[2] && HighColour[2] != LowColour[2] && MediumColour[2] != LowColour[2];
  }

  /** The letter on a marker: `!` for critical, `H` for high, `M` for
      medium, and `L` for every other value, unknown ones included. */
  function MarkerLetter(urgency: string): (c: char)
    ensures c == 'L' <==> urgency != "critical" && urgency != "high" && urgency != "medium"
    ensures c == '!' <==> urgency == "critical"
    ensures c == 'H' <==> urgency == "high"
    ensures c == 'M' <==> urgency == "medium"
  {
    if urgency == "critical" then '!'
    else if urgency == "high" then 'H'
    else if urgency == "medium" then 'M'
    else 'L'
  }

  /** `formatTimeAgo` of the map popups: whole hours since creation
      (floored, so a future date counts as "Just now"), then whole days from
      the hours. No minutes are shown. */
  function FormatTimeAgo(createdAt: int, now: int): (t: TimeAgo)
    ensures var d := now - createdAt;
      && !t.MinutesAgo?
      && (t.JustNow? <==> d < HourMs)
      && (t.HoursAgo? <==> HourMs <= d < DayMs)
      && (t.DaysAgo? <==> DayMs <= d)
      && (t.HoursAgo? ==> t.hours == d / HourMs)
      && (t.DaysAgo? ==> t.days == d / DayMs)
  {
    var diffInHours := (now - createdAt) / HourMs;
    DivDiv(now - createdAt, HourMs, 24);
    if diffInHours < 1 then JustNow
    else if diffInHours < 24 then HoursAgo(diffInHours)
    else DaysAgo(diffInHours / 24)
  }

  /** From one hour on, the map popup and the card show the same relative
      time; below an hour the popup says "Just now" while the card may count
      minutes. */
  lemma PopupAgreesWithCard(createdAt: int, now: int)
    ensures now - createdAt >= HourMs ==> FormatTimeAgo(createdAt, now) == RequestCard.FormatTimeAgo(createdAt, now)
    ensures now - createdAt < HourMs ==> FormatTimeAgo(createdAt, now) == JustNow
  {
  }
}

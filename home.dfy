/** The home page: its four counters and the list/map view toggle. The
    counters are `CountRequests` of the request list; the lemmas here say
    how each store action moves them. */
module Home {
  import opened Common
  import opened AppState

  datatype ViewMode = ListView | MapView

  const InitialViewMode: ViewMode := ListView

  /** `setViewMode(viewMode === 'list' ? 'map' : 'list')`. */
  function ToggleView(m: ViewMode): (r: ViewMode)
    ensures r != m
  {
    if m == ListView then MapView else ListView
  }

  /** Toggling twice restores the view. */
  lemma ToggleTwice(m: ViewMode)
    ensures ToggleView(ToggleView(m)) == m
  {
  }

  /** Adding a request adds one to the total and to the open count, one to
      the critical count exactly when the new request is critical, and
      leaves the volunteer total. */
  lemma StatsAfterAdd(s: State, data: HelpRequest, id: string, now: int)
    ensures var c := CountRequests(s.helpRequests);
      CountRequests(Reduce(s, AddHelpRequest(NewHelpRequest(data, id, now))).helpRequests)
      == RequestCounts(c.total + 1, c.open + 1, c.critical + (if data.urgency == "critical" then 1 else 0), c.volunteers)
  {
    var r := Reduce(s, AddHelpRequest(NewHelpRequest(data, id, now))).helpRequests;
    assert r[..|r| - 1] == s.helpRequests;
  }

  /** Volunteering changes only the volunteer total, which grows by the
      number of requests carrying the id (none for an unknown id). */
  lemma StatsAfterVolunteer(s: State, requestId: string, v: Volunteer)
    ensures var c := CountRequests(s.helpRequests);
      CountRequests(Reduce(s, VolunteerForRequest(requestId, v)).helpRequests)
      == c.(volunteers := c.volunteers + CountKey(s.helpRequests, IdOf, requestId))
  {
    var rs := s.helpRequests;
    var r := Reduce(s, VolunteerForRequest(requestId, v)).helpRequests;
    assert r == VolunteerRequests(rs, requestId, v);
    CountKeyPointwise(r, rs, StatusOf, "open");
    CountKeyPointwise(r, rs, UrgencyOf, "critical");
    VolunteerAddsOnePerMatch(rs, requestId, v);
  }
}

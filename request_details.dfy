/** The request details page: finding the request of the route, whether
    the signed-in user already volunteers for it, which of the three action
    panels it shows, and the volunteer action with its sign-in guard. */
module RequestDetails {
  import opened Common
  import opened AppState

  /** What the page renders: the not-found view, or the request. */
  datatype DetailsView = NotFound | Details(request: HelpRequest)

  /** `state.helpRequests.find(r => r.id === id)`, and the not-found view
      when there is no such request. */
  function ViewFor(rs: seq<HelpRequest>, id: string): (v: DetailsView)
    ensures v.NotFound? <==> forall k :: 0 <= k < |rs| ==> rs[k].id != id
    ensures v.Details? ==> v.request.id == id && Some(v.request) == FindById(rs, id)
  {
    match FindById(rs, id)
    case None => NotFound
    case Some(r) => Details(r)
  }

  /** `state.user.isAuthenticated && request.volunteers.some(v => v.id === state.user.id)`. */
  predicate IsUserVolunteered(u: User, r: HelpRequest)
  {
    u.isAuthenticated && HasVolunteer(r.volunteers, u.id)
  }

  /** The three panels of the action card. */
  datatype ActionPanel = VolunteerButton | AlreadyVolunteering | NoLongerAccepting

  /** The action card: the button for an open request the user does not
      volunteer for, the thank-you message whenever the user volunteers
      (whatever the status), and the closed message otherwise. A signed-out
      user never sees the thank-you message. */
  function ActionPanelFor(r: HelpRequest, u: User): (p: ActionPanel)
    ensures p == VolunteerButton <==> r.status == "open" && !IsUserVolunteered(u, r)
    ensures p == AlreadyVolunteering <==> IsUserVolunteered(u, r)
    ensures p == NoLongerAccepting <==> r.status != "open" && !IsUserVolunteered(u, r)
    ensures !u.isAuthenticated ==> p != AlreadyVolunteering
  {
    if r.status == "open" && !IsUserVolunteered(u, r) then VolunteerButton
    else if IsUserVolunteered(u, r) then AlreadyVolunteering
    else NoLongerAccepting
  }

  /** The volunteer entry built from the signed-in user; an empty email is
      replaced by a fixed text, so the contact is never empty. */
  function DetailsVolunteer(u: User): (v: Volunteer)
    ensures v.id == u.id && v.name == u.name && v.role == u.role && v.joinedAt.None?
    ensures v.contactInfo != ""
    ensures u.email != "" ==> v.contactInfo == u.email
  {
    Volunteer(u.id, u.name, u.role, if u.email != "" then u.email else "No contact info provided", None)
  }

  /** After a signed-in user volunteers for a request through this page, the
      page shows that request with the thank-you panel. */
  lemma VolunteeringShowsThankYou(s: State, id: string)
    requires s.user.isAuthenticated
    requires exists k :: 0 <= k < |s.helpRequests| && s.helpRequests[k].id == id
    ensures var after := Reduce(s, VolunteerForRequest(id, DetailsVolunteer(s.user)));
      var view := ViewFor(after.helpRequests, id);
      view.Details? && ActionPanelFor(view.request, after.user) == AlreadyVolunteering
  {
    var v := DetailsVolunteer(s.user);
    var after := Reduce(s, VolunteerForRequest(id, v));
    var i := FirstIndex(after.helpRequests, id);
    var k :| 0 <= k < |s.helpRequests| && s.helpRequests[k].id == id;
    assert after.helpRequests[k].id == id;
    var r := after.helpRequests[i];
    assert r == WithVolunteer(s.helpRequests[i], v);
    assert r.volunteers[|r.volunteers| - 1] == v;
  }

  /** `handleVolunteer`. A signed-out user gets the sign-in warning (whose
      id is `warningId`) and no volunteer update is dispatched; a signed-in
      user is appended to the request, with a success notification. */
  method HandleVolunteer(store: AppStore, request: HelpRequest, warningId: string, notificationId: string, now: int)
    modifies store
    ensures store.state.user == old(store.state.user) && store.state.filters == old(store.state.filters)
    ensures !old(store.state.user.isAuthenticated) ==>
      && store.state.helpRequests == old(store.state.helpRequests)
      && store.state.notifications == old(store.state.notifications) + [Notification(warningId, "warning", LoginWarning, None)]
    ensures old(store.state.user.isAuthenticated) ==>
      && store.state.helpRequests == VolunteerRequests(old(store.state.helpRequests), request.id, DetailsVolunteer(old(store.state.user)))
      && store.state.notifications == old(store.state.notifications)
        + [WithNotificationId(Notification(notificationId, "success", VolunteeredMessage, Some(now)), notificationId)]
  {
    if !store.state.user.isAuthenticated {
      store.AddNotification(Notification("", "warning", LoginWarning, None), warningId);
      return;
    }
    var volunteer := DetailsVolunteer(store.state.user);
    store.VolunteerForRequest(request.id, volunteer, notificationId, now);
  }
}

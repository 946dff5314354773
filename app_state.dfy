/** The client's application state and its reducer: the signed-in user, the
    help-request list, the list filters and the notification queue, changed
    only by dispatching one of nine actions. The action creators that build
    records (fresh ids and the current time are parameters) are methods of
    `AppStore`, whose `state` field is what the reducer hook holds. */
module AppState {
  import opened Common

  // ---------------------------------------------------------------------
  // State records
  // ---------------------------------------------------------------------

  /** The signed-in user; `id == ""` and `email == ""` stand for missing values. */
  datatype User = User(
    id: string,
    name: string,
    email: string,
    role: string,
    location: Option<Location>,
    isAuthenticated: bool)

  /** The user of the initial state: nobody signed in, role `volunteer`. */
  const InitialUser: User := User("", "", "", "volunteer", None, false)

  /** List filters; `"all"` is the wildcard, `location` is `null` when unset. */
  datatype Filters = Filters(category: string, urgency: string, status: string, location: Option<string>)

  const DefaultFilters: Filters := Filters("all", "all", "all", None)

  /** A toast; `kind` is the notification `type` (`success`, `warning`, ...);
      `timestamp` is absent on the warnings the list and details pages raise. */
  datatype Notification = Notification(id: string, kind: string, message: string, timestamp: Option<int>)

  datatype State = State(
    user: User,
    helpRequests: seq<HelpRequest>,
    filters: Filters,
    notifications: seq<Notification>)

  /** One seeded request: open, with no volunteers, created at `now`. */
  function SeedRequest(id: string, title: string, description: string, category: string, urgency: string,
                       address: string, requesterName: string, contactInfo: string, now: int): (r: HelpRequest)
    ensures r.id == id && r.category == category && r.urgency == urgency
    ensures r.status == "open" && r.volunteers == [] && r.createdAt == now
  {
    HelpRequest(id, title, description, category, urgency, "open", Location(address),
      Requester(requesterName, "needsHelp"), [], now, contactInfo)
  }

  /** The three seeded requests, all open with no volunteers, created at `now`. */
  function SeedRequests(now: int): (rs: seq<HelpRequest>)
    ensures |rs| == 3
    ensures forall i :: 0 <= i < |rs| ==> rs[i].status == "open" && rs[i].volunteers == [] && rs[i].createdAt == now
  {
    [
      SeedRequest("1", "Need food supplies for elderly neighbors",
        "Looking for volunteers to help deliver groceries to elderly residents in downtown area.", "food", "medium", "New York, NY", "Sarah Johnson", "sarah.j@email.com", now),
      SeedRequest("2", "Emergency shelter needed",
        "Family of 4 needs immediate temporary housing due to fire damage.", "housing", "critical", "Manhattan, NY", "Mike Rodriguez", "mike.r@email.com", now),
      SeedRequest("3", "Medical transport assistance",
        "Need help getting to medical appointments. Wheelchair accessible vehicle required.", "medical", "high", "Times Square, NY", "Emma Davis", "emma.d@email.com", now)
    ]
  }

  function InitialState(now: int): State
  {
    State(InitialUser, SeedRequests(now), DefaultFilters, [])
  }

  // ---------------------------------------------------------------------
  // Partial records merged with object spread
  // ---------------------------------------------------------------------

  datatype UserPatch = UserPatch(
    id: Option<string>,
    name: Option<string>,
    email: Option<string>,
    role: Option<string>,
    location: Option<Option<Location>>,
    isAuthenticated: Option<bool>)

  function MergeUser(u: User, p: UserPatch): User
  {
    User(Override(u.id, p.id), Override(u.name, p.name), Override(u.email, p.email),
      Override(u.role, p.role), Override(u.location, p.location), Override(u.isAuthenticated, p.isAuthenticated))
  }

  datatype FiltersPatch = FiltersPatch(
    category: Option<string>,
    urgency: Option<string>,
    status: Option<string>,
    location: Option<Option<string>>)

  function MergeFilters(f: Filters, p: FiltersPatch): Filters
  {
    Filters(Override(f.category, p.category), Override(f.urgency, p.urgency),
      Override(f.status, p.status), Override(f.location, p.location))
  }

  // ---------------------------------------------------------------------
  // The list transformations of the reducer
  // ---------------------------------------------------------------------

  /** `request.id === payload.id`; a payload without an id matches nothing. */
  predicate PatchTargets(p: RequestPatch, r: HelpRequest)
  {
    p.id == Some(r.id)
  }

  /** The `map` of UPDATE_HELP_REQUEST: same length and order, the targeted
      records merged with the payload, every other record unchanged. */
  function UpdateRequests(rs: seq<HelpRequest>, p: RequestPatch): (r: seq<HelpRequest>)
    ensures |r| == |rs|
    ensures forall i :: 0 <= i < |rs| ==>
      r[i] == if PatchTargets(p, rs[i]) then MergeRequest(rs[i], p) else rs[i]
  {
    if rs == [] then []
    else
      var last := rs[|rs| - 1];
      UpdateRequests(rs[..|rs| - 1], p) + [if PatchTargets(p, last) then MergeRequest(last, p) else last]
  }

  /** `{...request, volunteers: [...request.volunteers, volunteer]}`. */
  function WithVolunteer(r: HelpRequest, v: Volunteer): HelpRequest
  {
    r.(volunteers := r.volunteers + [v])
  }

  /** The `map` of VOLUNTEER_FOR_REQUEST: same length and order, the volunteer
      appended to every request with the id, every other request unchanged. */
  function VolunteerRequests(rs: seq<HelpRequest>, id: string, v: Volunteer): (r: seq<HelpRequest>)
    ensures |r| == |rs|
    ensures forall i :: 0 <= i < |rs| ==> r[i] == if rs[i].id == id then WithVolunteer(rs[i], v) else rs[i]
  {
    if rs == [] then []
    else
      var last := rs[|rs| - 1];
      VolunteerRequests(rs[..|rs| - 1], id, v) + [if last.id == id then WithVolunteer(last, v) else last]
  }

  /** The id test REMOVE_NOTIFICATION keeps. */
  function KeepsNotification(id: string): Notification -> bool
  {
    (n: Notification) => n.id != id
  }

  // ---------------------------------------------------------------------
  // The reducer
  // ---------------------------------------------------------------------

  datatype Action =
    | SetUser(patch: UserPatch)
    | LoginUser(data: User)
    | LogoutUser
    | AddHelpRequest(request: HelpRequest)
    | UpdateHelpRequest(update: RequestPatch)
    | VolunteerForRequest(requestId: string, volunteer: Volunteer)
    | SetFilters(filtersPatch: FiltersPatch)
    | AddNotification(notification: Notification)
    | RemoveNotification(notificationId: string)
    | Unrecognised(actionType: string)

  /** `appReducer(state, action)`. Each action changes only its own part of
      the state; an action of unknown type changes nothing. */
  function Reduce(s: State, a: Action): (r: State)
    ensures !(a.SetUser? || a.LoginUser? || a.LogoutUser?) ==> r.user == s.user
    ensures !(a.AddHelpRequest? || a.UpdateHelpRequest? || a.VolunteerForRequest?) ==> r.helpRequests == s.helpRequests
    ensures !a.SetFilters? ==> r.filters == s.filters
    ensures !(a.AddNotification? || a.RemoveNotification?) ==> r.notifications == s.notifications
    ensures a.Unrecognised? ==> r == s
    ensures |r.helpRequests| == |s.helpRequests| + (if a.AddHelpRequest? then 1 else 0)
    ensures a.AddHelpRequest? ==> r.helpRequests[..|s.helpRequests|] == s.helpRequests && r.helpRequests[|s.helpRequests|] == a.request
    ensures a.LoginUser? ==> r.user == a.data.(isAuthenticated := true)
    ensures a.LogoutUser? ==> r.user == InitialUser && !r.user.isAuthenticated
    ensures |r.notifications| <= |s.notifications| + (if a.AddNotification? then 1 else 0)
  {
    match a
    case SetUser(p) => s.(user := MergeUser(s.user, p))
    case LoginUser(u) => s.(user := u.(isAuthenticated := true))
    case LogoutUser => s.(user := InitialUser)
    case AddHelpRequest(req) => s.(helpRequests := s.helpRequests + [req])
    case UpdateHelpRequest(p) => s.(helpRequests := UpdateRequests(s.helpRequests, p))
    case VolunteerForRequest(id, v) => s.(helpRequests := VolunteerRequests(s.helpRequests, id, v))
    case SetFilters(p) => s.(filters := MergeFilters(s.filters, p))
    case AddNotification(n) => s.(notifications := s.notifications + [n])
    case RemoveNotification(id) => s.(notifications := Filter(s.notifications, KeepsNotification(id)))
    case Unrecognised(_) => s
  }

  /** UPDATE_HELP_REQUEST keeps every id and every position: a payload that
      does not change the id leaves the id sequence unchanged. */
  lemma UpdateKeepsIds(s: State, p: RequestPatch)
    ensures var r := Reduce(s, UpdateHelpRequest(p)).helpRequests;
      forall i :: 0 <= i < |r| ==> r[i].id == s.helpRequests[i].id
  {
  }

  /** VOLUNTEER_FOR_REQUEST for an id no request has leaves the list unchanged. */
  lemma VolunteerUnknownId(s: State, id: string, v: Volunteer)
    requires forall i :: 0 <= i < |s.helpRequests| ==> s.helpRequests[i].id != id
    ensures Reduce(s, VolunteerForRequest(id, v)) == s
  {
    var r := Reduce(s, VolunteerForRequest(id, v));
    assert r.helpRequests == s.helpRequests;
  }

  /** VOLUNTEER_FOR_REQUEST adds one volunteer per request with the id; there
      is no deduplication, so the total grows by the number of matches. */
  lemma {:induction false} VolunteerAddsOnePerMatch(rs: seq<HelpRequest>, id: string, v: Volunteer)
    ensures SumVolunteers(VolunteerRequests(rs, id, v)) == SumVolunteers(rs) + CountKey(rs, IdOf, id)
  {
    if rs != [] {
      var prefix := rs[..|rs| - 1];
      VolunteerAddsOnePerMatch(prefix, id, v);
      var r := VolunteerRequests(rs, id, v);
      assert r[..|r| - 1] == VolunteerRequests(prefix, id, v);
    }
  }

  /** A volunteer already present stays present, and the new one is the last
      entry of each matching request: nothing is deduplicated. */
  lemma VolunteerAppendsLast(s: State, id: string, v: Volunteer, i: int)
    requires 0 <= i < |s.helpRequests| && s.helpRequests[i].id == id
    ensures var r := Reduce(s, VolunteerForRequest(id, v)).helpRequests[i];
      r.volunteers[..|s.helpRequests[i].volunteers|] == s.helpRequests[i].volunteers
      && r.volunteers[|r.volunteers| - 1] == v
      && |r.volunteers| == |s.helpRequests[i].volunteers| + 1
  {
  }

  /** REMOVE_NOTIFICATION removes every notification with the id and keeps
      the others, in order. */
  lemma RemoveNotificationKeepsOthers(s: State, id: string)
    ensures var ns := Reduce(s, RemoveNotification(id)).notifications;
      && (forall n :: n in ns <==> n in s.notifications && n.id != id)
      && IsSubsequence(ns, s.notifications)
      && ((forall i :: 0 <= i < |s.notifications| ==> s.notifications[i].id != id) ==> ns == s.notifications)
  {
    FilterIsSubsequence(s.notifications, KeepsNotification(id));
    if forall i :: 0 <= i < |s.notifications| ==> s.notifications[i].id != id {
      FilterKeepsAll(s.notifications, KeepsNotification(id));
    }
  }

  lemma {:induction false} FilterDropsLast(ns: seq<Notification>, n: Notification)
    ensures Filter(ns + [n], KeepsNotification(n.id)) == Filter(ns, KeepsNotification(n.id))
  {
    if ns != [] {
      assert (ns + [n])[1..] == ns[1..] + [n];
      FilterDropsLast(ns[1..], n);
    } else {
      assert [n][1..] == [];
    }
  }

  /** Adding a notification whose id is new and then removing that id (the
      five-second auto-removal) restores the notification list. */
  lemma AddThenRemoveNotification(s: State, n: Notification)
    requires forall i :: 0 <= i < |s.notifications| ==> s.notifications[i].id != n.id
    ensures Reduce(Reduce(s, AddNotification(n)), RemoveNotification(n.id)) == s
  {
    FilterDropsLast(s.notifications, n);
    FilterKeepsAll(s.notifications, KeepsNotification(n.id));
  }

  /** SET_FILTERS with only some keys keeps the others; applying the same
      payload twice equals applying it once. */
  lemma SetFiltersMerges(s: State, p: FiltersPatch)
    ensures var f := Reduce(s, SetFilters(p)).filters;
      && (p.category.None? ==> f.category == s.filters.category)
      && (p.urgency.None? ==> f.urgency == s.filters.urgency)
      && (p.status.None? ==> f.status == s.filters.status)
      && (p.location.None? ==> f.location == s.filters.location)
      && Reduce(Reduce(s, SetFilters(p)), SetFilters(p)) == Reduce(s, SetFilters(p))
  {
  }

  /** Signing out and back in gives exactly the signed-in payload, whatever
      the user was before; signing out twice is signing out once. */
  lemma LoginLogout(s: State, u: User)
    ensures Reduce(Reduce(s, LogoutUser), LoginUser(u)).user == u.(isAuthenticated := true)
    ensures Reduce(Reduce(s, LogoutUser), LogoutUser) == Reduce(s, LogoutUser)
  {
  }

  // ---------------------------------------------------------------------
  // Records built by the action creators
  // ---------------------------------------------------------------------

  /** `addHelpRequest`'s `{...requestData, id, createdAt, volunteers: [], status: 'open'}`:
      the generated fields override whatever the data carried. */
  function NewHelpRequest(data: HelpRequest, id: string, now: int): (r: HelpRequest)
    ensures r.status == "open" && r.volunteers == [] && r.id == id && r.createdAt == now
    ensures r.title == data.title && r.description == data.description && r.category == data.category
    ensures r.urgency == data.urgency && r.location == data.location && r.requester == data.requester
    ensures r.contactInfo == data.contactInfo
  {
    data.(id := id, createdAt := now, volunteers := [], status := "open")
  }

  /** Adding a new request adds one to the open count and leaves the volunteer total. */
  lemma AddedRequestIsOpen(s: State, data: HelpRequest, id: string, now: int)
    ensures var r := Reduce(s, AddHelpRequest(NewHelpRequest(data, id, now))).helpRequests;
      && CountKey(r, StatusOf, "open") == CountKey(s.helpRequests, StatusOf, "open") + 1
      && SumVolunteers(r) == SumVolunteers(s.helpRequests)
  {
    var r := Reduce(s, AddHelpRequest(NewHelpRequest(data, id, now))).helpRequests;
    assert r[..|r| - 1] == s.helpRequests;
  }

  /** `addNotification`'s `{...notification, id: notification.id || uuidv4()}`. */
  function WithNotificationId(n: Notification, freshId: string): (r: Notification)
    ensures n.id != "" ==> r == n
    ensures n.id == "" ==> r == n.(id := freshId)
    ensures freshId != "" ==> r.id != ""
  {
    n.(id := if n.id != "" then n.id else freshId)
  }

  const RequestCreatedMessage: string := "Help request created successfully!"
  const VolunteeredMessage: string := "Successfully volunteered for help request!"
  /** The warning the list and details pages raise for a signed-out user. */
  const LoginWarning: string := "Please log in to volunteer for help requests."

  /** The `useReducer` store with the action creators. Identifiers (`uuidv4`)
      and the clock are parameters; persisting the user to local storage and
      the delayed auto-removal of notifications are not modelled. */
  class AppStore {
    var state: State

    constructor(now: int)
      ensures state == InitialState(now)
    {
      state := InitialState(now);
    }

    method Dispatch(a: Action)
      modifies this
      ensures state == Reduce(old(state), a)
    {
      state := Reduce(state, a);
    }

    method SetUser(p: UserPatch)
      modifies this
      ensures state == old(state).(user := MergeUser(old(state).user, p))
    {
      Dispatch(Action.SetUser(p));
    }

    method LoginUser(u: User)
      modifies this
      ensures state == old(state).(user := u.(isAuthenticated := true))
    {
      Dispatch(Action.LoginUser(u));
    }

    method LogoutUser()
      modifies this
      ensures state == old(state).(user := InitialUser)
    {
      Dispatch(Action.LogoutUser);
    }

    method AddNotification(n: Notification, freshId: string)
      modifies this
      ensures state == old(state).(notifications := old(state).notifications + [WithNotificationId(n, freshId)])
    {
      Dispatch(Action.AddNotification(WithNotificationId(n, freshId)));
    }

    method RemoveNotification(id: string)
      modifies this
      ensures state == Reduce(old(state), Action.RemoveNotification(id))
    {
      Dispatch(Action.RemoveNotification(id));
    }

    /** Appends the new open request, then a success notification. */
    method AddHelpRequest(data: HelpRequest, requestId: string, notificationId: string, now: int)
      modifies this
      ensures state.user == old(state).user && state.filters == old(state).filters
      ensures state.helpRequests == old(state).helpRequests + [NewHelpRequest(data, requestId, now)]
      ensures state.notifications == old(state).notifications
        + [WithNotificationId(Notification(notificationId, "success", RequestCreatedMessage, Some(now)), notificationId)]
    {
      Dispatch(Action.AddHelpRequest(NewHelpRequest(data, requestId, now)));
      AddNotification(Notification(notificationId, "success", RequestCreatedMessage, Some(now)), notificationId);
    }

    method UpdateHelpRequest(p: RequestPatch)
      modifies this
      ensures state == old(state).(helpRequests := UpdateRequests(old(state).helpRequests, p))
    {
      Dispatch(Action.UpdateHelpRequest(p));
    }

    /** Appends the volunteer to the request, then a success notification. */
    method VolunteerForRequest(requestId: string, v: Volunteer, notificationId: string, now: int)
      modifies this
      ensures state.user == old(state).user && state.filters == old(state).filters
      ensures state.helpRequests == VolunteerRequests(old(state).helpRequests, requestId, v)
      ensures state.notifications == old(state).notifications
        + [WithNotificationId(Notification(notificationId, "success", VolunteeredMessage, Some(now)), notificationId)]
    {
      Dispatch(Action.VolunteerForRequest(requestId, v));
      AddNotification(Notification(notificationId, "success", VolunteeredMessage, Some(now)), notificationId);
    }

    method SetFilters(p: FiltersPatch)
      modifies this
      ensures state == old(state).(filters := MergeFilters(old(state).filters, p))
    {
      Dispatch(Action.SetFilters(p));
    }
  }
}

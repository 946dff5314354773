/** The profile page: the signed-in user's activity counts, the two short
    recent-activity lists, and the edit form that cancelling resets. */
module Profile {
  import opened Common
  import opened AppState

  function RequesterNameOf(r: HelpRequest): string { r.requester.name }

  /** `r => r.requester.name === state.user.name`. */
  function CreatedBy(name: string): HelpRequest -> bool
  {
    KeyIs(RequesterNameOf, name)
  }

  /** `r => r.volunteers.some(v => v.id === state.user.id)`. */
  function VolunteeredBy(id: string): HelpRequest -> bool
  {
    (r: HelpRequest) => HasVolunteer(r.volunteers, id)
  }

  datatype UserStats = UserStats(requestsCreated: nat, volunteeredFor: nat, completedRequests: nat)

  /** `getUserStats`. The created count is the number of requests whose
      requester name is the user's name, the volunteered count the number
      whose volunteers include the user's id, and the completed count those
      created requests whose status is `completed`, so it never exceeds the
      created count. */
  function GetUserStats(rs: seq<HelpRequest>, u: User): (st: UserStats)
    ensures st.requestsCreated == CountKey(rs, RequesterNameOf, u.name)
    ensures st.completedRequests <= st.requestsCreated <= |rs|
    ensures st.volunteeredFor <= |rs|
    ensures st.volunteeredFor == |Filter(rs, VolunteeredBy(u.id))|
    ensures st.completedRequests == CountKey(Filter(rs, CreatedBy(u.name)), StatusOf, "completed")
  {
    var userRequests := Filter(rs, CreatedBy(u.name));
    var volunteeredRequests := Filter(rs, VolunteeredBy(u.id));
    FilterLengthIsCount(rs, RequesterNameOf, u.name);
    FilterLengthIsCount(userRequests, StatusOf, "completed");
    UserStats(|userRequests|, |volunteeredRequests|, |Filter(userRequests, KeyIs(StatusOf, "completed"))|)
  }

  /** Exactly the requests the user created are counted as created, and
      exactly those holding the user's id are counted as volunteered for. */
  lemma StatsCountTheUsersRequests(rs: seq<HelpRequest>, u: User, r: HelpRequest)
    ensures r in Filter(rs, CreatedBy(u.name)) <==> r in rs && r.requester.name == u.name
    ensures r in Filter(rs, VolunteeredBy(u.id)) <==> r in rs && HasVolunteer(r.volunteers, u.id)
  {
    assert CreatedBy(u.name) == KeyIs(RequesterNameOf, u.name);
    assert KeyIs(RequesterNameOf, u.name)(r) == (RequesterNameOf(r) == u.name);
    assert VolunteeredBy(u.id)(r) == HasVolunteer(r.volunteers, u.id);
  }

  /** Volunteering for a request records the user against every request
      with that id: each of them is then counted as volunteered for. */
  lemma VolunteeringIsCounted(s: State, requestId: string, v: Volunteer, i: int)
    requires 0 <= i < |s.helpRequests| && s.helpRequests[i].id == requestId
    ensures var r := Reduce(s, VolunteerForRequest(requestId, v)).helpRequests;
      r[i] in Filter(r, VolunteeredBy(v.id))
  {
    var r := Reduce(s, VolunteerForRequest(requestId, v)).helpRequests;
    assert r[i].volunteers[|r[i].volunteers| - 1] == v;
    assert HasVolunteer(r[i].volunteers, v.id);
  }

  /** The recent-activity list: the first three matching requests, in
      store order. */
  function Recent(rs: seq<HelpRequest>, p: HelpRequest -> bool): (r: seq<HelpRequest>)
    ensures |r| <= 3
    ensures |r| == if |Filter(rs, p)| < 3 then |Filter(rs, p)| else 3
    ensures r <= Filter(rs, p)
    ensures forall x :: x in r ==> x in rs && p(x)
  {
    Take(Filter(rs, p), 3)
  }

  /** The created-requests list holds at most three of the user's own
      requests, and all of them when there are at most three. */
  lemma RecentCreatedAreOwn(rs: seq<HelpRequest>, u: User)
    ensures var r := Recent(rs, CreatedBy(u.name));
      && (forall x :: x in r ==> x.requester.name == u.name)
      && (GetUserStats(rs, u).requestsCreated <= 3 ==> r == Filter(rs, CreatedBy(u.name)))
      && |r| == if GetUserStats(rs, u).requestsCreated < 3 then GetUserStats(rs, u).requestsCreated else 3
  {
    var created := Filter(rs, CreatedBy(u.name));
    var r := Recent(rs, CreatedBy(u.name));
    assert GetUserStats(rs, u).requestsCreated == |created|;
    forall x | x in r ensures x.requester.name == u.name {
      assert CreatedBy(u.name) == KeyIs(RequesterNameOf, u.name);
      assert KeyIs(RequesterNameOf, u.name)(x);
    }
  }

  // ---------------------------------------------------------------------
  // The edit form
  // ---------------------------------------------------------------------

  datatype EditForm = EditForm(name: string, email: string, role: string)

  datatype ProfileView = ProfileView(editForm: EditForm, isEditing: bool)

  datatype EditField = NameField | EmailField | RoleField

  /** `{name: user.name || '', email: user.email || '', role: user.role || 'volunteer'}`. */
  function EditFormFor(u: User): (f: EditForm)
    ensures f.name == u.name && f.email == u.email
    ensures f.role != ""
    ensures u.role != "" ==> f.role == u.role
  {
    EditForm(u.name, u.email, if u.role != "" then u.role else "volunteer")
  }

  /** The page on first render: the form filled from the user, not editing. */
  function InitialView(u: User): ProfileView
  {
    ProfileView(EditFormFor(u), false)
  }

  /** `handleInputChange`: `{...prev, [name]: value}`. */
  function HandleInputChange(v: ProfileView, f: EditField, value: string): ProfileView
  {
    var form := v.editForm;
    v.(editForm := match f
      case NameField => form.(name := value)
      case EmailField => form.(email := value)
      case RoleField => form.(role := value))
  }

  /** `handleCancel`: the form refilled from the user and edit mode left. */
  function HandleCancel(v: ProfileView, u: User): (r: ProfileView)
    ensures r == InitialView(u)
    ensures r.editForm.role != ""
  {
    ProfileView(EditFormFor(u), false)
  }

  /** Cancelling forgets every edit made since the last cancel or save. */
  lemma CancelDiscardsEdits(v: ProfileView, edits: seq<(EditField, string)>, u: User)
    ensures HandleCancel(ApplyEdits(v, edits), u) == HandleCancel(v, u)
  {
  }

  /** The form after a sequence of input changes. */
  function ApplyEdits(v: ProfileView, edits: seq<(EditField, string)>): ProfileView
    decreases |edits|
  {
    if edits == [] then v
    else ApplyEdits(HandleInputChange(v, edits[0].0, edits[0].1), edits[1..])
  }
}

/** The Express backend's in-memory database and the bodies of its routes.
    Each route is a method of `Server` that changes the table in place and
    returns a status code with either the response value or the error
    message, instead of writing an HTTP response. Generated ids (`uuidv4`)
    and the current time are parameters. */
module BackendServer {
  import opened Common

  /** A user registered by the mock login route. */
  datatype ServerUser = ServerUser(id: string, name: string, email: string, role: string, isAuthenticated: bool)

  /** A route's outcome: the status code and the JSON value, or the status
      code and the error message. */
  datatype Reply<T> = Success(code: int, value: T) | Failure(code: int, message: string)

  const NotFoundMessage: string := "Help request not found"
  const InvalidVolunteerMessage: string := "Invalid volunteer data"
  const AlreadyJoinedMessage: string := "Volunteer already joined"
  const LoginRequiredMessage: string := "Name, email, and role are required"
  const DeletedMessage: string := "Help request deleted"

  /** The record `POST /api/help-requests` stores: `{id: uuidv4(), ...body,
      volunteers: [], status: 'open', createdAt}`. The body is spread after
      the generated id, so an id in the body wins; a field missing from the
      body is stored empty. */
  function NewRequest(body: RequestPatch, freshId: string, now: int): (r: HelpRequest)
    ensures r.volunteers == [] && r.status == "open" && r.createdAt == now
    ensures r.id == (if body.id.Some? then body.id.value else freshId)
  {
    HelpRequest(Override(freshId, body.id), Override("", body.title), Override("", body.description),
      Override("", body.category), Override("", body.urgency), "open",
      Override(Location(""), body.location), Override(Requester("", ""), body.requester),
      [], now, Override("", body.contactInfo))
  }

  /** The ids of a request's volunteers are pairwise different. */
  predicate DistinctVolunteerIds(r: HelpRequest)
  {
    forall i, j :: 0 <= i < j < |r.volunteers| ==> r.volunteers[i].id != r.volunteers[j].id
  }

  /** Appending a volunteer whose id is not yet present keeps the ids distinct. */
  lemma JoinKeepsIdsDistinct(r: HelpRequest, v: Volunteer)
    requires DistinctVolunteerIds(r) && !HasVolunteer(r.volunteers, v.id)
    ensures DistinctVolunteerIds(r.(volunteers := r.volunteers + [v]))
  {
    var vs := r.volunteers + [v];
    forall i, j | 0 <= i < j < |vs| ensures vs[i].id != vs[j].id {
      if j == |r.volunteers| {
        assert vs[i] == r.volunteers[i];
      }
    }
  }

  /** A record appended with an id no earlier record has is the first match
      for that id. */
  lemma FirstIndexOfFresh(rs: seq<HelpRequest>, r: HelpRequest)
    requires forall k :: 0 <= k < |rs| ==> rs[k].id != r.id
    ensures FirstIndex(rs + [r], r.id) == |rs|
    ensures FindById(rs + [r], r.id) == Some(r)
  {
    assert (rs + [r])[|rs|].id == r.id;
  }

  class Server {
    var helpRequests: seq<HelpRequest>
    var users: seq<ServerUser>

    /** The seeded database: one open food request created at `now`, no users. */
    constructor(now: int)
      ensures |helpRequests| == 1 && helpRequests[0].id == "1" && helpRequests[0].status == "open"
      ensures helpRequests[0].volunteers == [] && users == []
    {
      helpRequests := [HelpRequest("1", "Need food supplies for elderly neighbors",
        "Looking for volunteers to help deliver groceries to elderly residents in downtown area.",
        "food", "medium", "open", Location("New York, NY"), Requester("Sarah Johnson", "needsHelp"),
        [], now, "sarah.j@email.com")];
      users := [];
    }

    /** `GET /api/help-requests`. */
    method ListRequests() returns (rs: seq<HelpRequest>)
      ensures rs == helpRequests
    {
      rs := helpRequests;
    }

    /** `POST /api/help-requests`: appends exactly one new open record with no
        volunteers and answers 201 with it. */
    method CreateRequest(body: RequestPatch, freshId: string, now: int) returns (reply: Reply<HelpRequest>)
      modifies this
      ensures reply == Success(201, NewRequest(body, freshId, now))
      ensures helpRequests == old(helpRequests) + [NewRequest(body, freshId, now)]
      ensures users == old(users)
    {
      var newRequest := NewRequest(body, freshId, now);
      helpRequests := helpRequests + [newRequest];
      reply := Success(201, newRequest);
    }

    /** `GET /api/help-requests/:id`: 404 exactly when no record has the id,
        otherwise the first record with it. */
    method GetRequest(id: string) returns (reply: Reply<HelpRequest>)
      ensures reply.Failure? <==> forall k :: 0 <= k < |helpRequests| ==> helpRequests[k].id != id
      ensures reply.Failure? ==> reply == Failure(404, NotFoundMessage)
      ensures reply.Success? ==> reply.code == 200 && Some(reply.value) == FindById(helpRequests, id)
    {
      var index := FindIndex(helpRequests, id);
      if index == -1 {
        return Failure(404, NotFoundMessage);
      }
      reply := Success(200, helpRequests[index]);
    }

    /** `PUT /api/help-requests/:id`: 404 and no change when the id is absent;
        otherwise the body is merged into the first record with the id and
        every other record, and the length, stay as they were. */
    method UpdateRequest(id: string, body: RequestPatch) returns (reply: Reply<HelpRequest>)
      modifies this
      ensures users == old(users)
      ensures FirstIndex(old(helpRequests), id) == -1 ==>
        reply == Failure(404, NotFoundMessage) && helpRequests == old(helpRequests)
      ensures var i := FirstIndex(old(helpRequests), id);
        i >= 0 ==>
          && helpRequests == old(helpRequests)[i := MergeRequest(old(helpRequests)[i], body)]
          && reply == Success(200, helpRequests[i])
      ensures |helpRequests| == |old(helpRequests)|
    {
      var index := FindIndex(helpRequests, id);
      if index == -1 {
        return Failure(404, NotFoundMessage);
      }
      helpRequests := helpRequests[index := MergeRequest(helpRequests[index], body)];
      reply := Success(200, helpRequests[index]);
    }

    /** `DELETE /api/help-requests/:id`: 404 and no change when the id is
        absent; otherwise exactly the first record with the id is removed. */
    method DeleteRequest(id: string) returns (reply: Reply<string>)
      modifies this
      ensures users == old(users)
      ensures FirstIndex(old(helpRequests), id) == -1 ==>
        reply == Failure(404, NotFoundMessage) && helpRequests == old(helpRequests)
      ensures var i := FirstIndex(old(helpRequests), id);
        i >= 0 ==>
          && helpRequests == old(helpRequests)[..i] + old(helpRequests)[i + 1..]
          && |helpRequests| == |old(helpRequests)| - 1
          && multiset(helpRequests) == multiset(old(helpRequests)) - multiset{old(helpRequests)[i]}
          && reply == Success(200, DeletedMessage)
    {
      var index := FindIndex(helpRequests, id);
      if index == -1 {
        return Failure(404, NotFoundMessage);
      }
      assert helpRequests == helpRequests[..index] + [helpRequests[index]] + helpRequests[index + 1..];
      helpRequests := helpRequests[..index] + helpRequests[index + 1..];
      reply := Success(200, DeletedMessage);
    }

    /** `POST /api/help-requests/:id/volunteer`. The checks run in order: an
        unknown request gives 404, a missing volunteer or volunteer id gives
        400 "Invalid volunteer data", an id already on the request gives 400
        "Volunteer already joined"; only then is the volunteer appended, with
        `joinedAt` set to `now`. A failure changes nothing. */
    method Volunteer(id: string, volunteer: Option<Volunteer>, now: int) returns (reply: Reply<HelpRequest>)
      modifies this
      ensures users == old(users)
      ensures var i := FirstIndex(old(helpRequests), id);
        && (i == -1 ==> reply == Failure(404, NotFoundMessage))
        && (i >= 0 && (volunteer.None? || volunteer.value.id == "") ==> reply == Failure(400, InvalidVolunteerMessage))
        && (i >= 0 && volunteer.Some? && volunteer.value.id != "" && HasVolunteer(old(helpRequests)[i].volunteers, volunteer.value.id)
            ==> reply == Failure(400, AlreadyJoinedMessage))
        && (i >= 0 && volunteer.Some? && volunteer.value.id != "" && !HasVolunteer(old(helpRequests)[i].volunteers, volunteer.value.id)
            ==> reply.Success?)
      ensures reply.Failure? ==> helpRequests == old(helpRequests)
      ensures reply.Success? ==>
        var i := FirstIndex(old(helpRequests), id);
        var joined := volunteer.value.(joinedAt := Some(now));
        && i >= 0 && volunteer.Some? && volunteer.value.id != ""
        && !HasVolunteer(old(helpRequests)[i].volunteers, volunteer.value.id)
        && helpRequests == old(helpRequests)[i := old(helpRequests)[i].(volunteers := old(helpRequests)[i].volunteers + [joined])]
        && reply == Success(200, helpRequests[i])
      ensures (forall k :: 0 <= k < |old(helpRequests)| ==> DistinctVolunteerIds(old(helpRequests)[k])) ==>
        forall k :: 0 <= k < |helpRequests| ==> DistinctVolunteerIds(helpRequests[k])
    {
      var index := FindIndex(helpRequests, id);
      if index == -1 {
        return Failure(404, NotFoundMessage);
      }
      if volunteer.None? || volunteer.value.id == "" {
        return Failure(400, InvalidVolunteerMessage);
      }
      var requestItem := helpRequests[index];
      var alreadyVolunteered := HasVolunteer(requestItem.volunteers, volunteer.value.id);
      if alreadyVolunteered {
        return Failure(400, AlreadyJoinedMessage);
      }
      var joined := volunteer.value.(joinedAt := Some(now));
      if DistinctVolunteerIds(requestItem) {
        JoinKeepsIdsDistinct(requestItem, joined);
      }
      helpRequests := helpRequests[index := requestItem.(volunteers := requestItem.volunteers + [joined])];
      reply := Success(200, helpRequests[index]);
    }

    /** `POST /api/auth/login`: 400 unless name, email and role are all
        non-empty; otherwise exactly one authenticated user is appended. */
    method Login(name: string, email: string, role: string, freshId: string) returns (reply: Reply<ServerUser>)
      modifies this
      ensures helpRequests == old(helpRequests)
      ensures reply.Failure? <==> name == "" || email == "" || role == ""
      ensures reply.Failure? ==> reply == Failure(400, LoginRequiredMessage) && users == old(users)
      ensures reply.Success? ==>
        && reply == Success(200, ServerUser(freshId, name, email, role, true))
        && users == old(users) + [reply.value]
    {
      if name == "" || email == "" || role == "" {
        return Failure(400, LoginRequiredMessage);
      }
      var user := ServerUser(freshId, name, email, role, true);
      users := users + [user];
      reply := Success(200, user);
    }

    /** `GET /api/stats/overview`: total, open, critical and the number of
        volunteer entries over all requests. */
    method StatsOverview() returns (stats: RequestCounts)
      ensures stats == CountRequests(helpRequests)
      ensures stats.total == |helpRequests| && stats.open <= stats.total && stats.critical <= stats.total
      ensures stats.volunteers == SumVolunteers(helpRequests)
    {
      var total := |helpRequests|;
      var open := CountKey(helpRequests, StatusOf, "open");
      var critical := CountKey(helpRequests, UrgencyOf, "critical");
      var volunteers := SumVolunteers(helpRequests);
      stats := RequestCounts(total, open, critical, volunteers);
    }
  }

  /** Creating a request whose id is new, then fetching that id, returns the
      stored record; deleting it again restores the table. */
  lemma CreateThenGetAndDelete(rs: seq<HelpRequest>, body: RequestPatch, freshId: string, now: int)
    requires forall k :: 0 <= k < |rs| ==> rs[k].id != NewRequest(body, freshId, now).id
    ensures var r := NewRequest(body, freshId, now);
      && FindById(rs + [r], r.id) == Some(r)
      && (rs + [r])[..FirstIndex(rs + [r], r.id)] + (rs + [r])[FirstIndex(rs + [r], r.id) + 1..] == rs
  {
    var r := NewRequest(body, freshId, now);
    FirstIndexOfFresh(rs, r);
    assert (rs + [r])[..|rs|] == rs;
  }
}

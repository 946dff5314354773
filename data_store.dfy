/** The backend's file-backed data store. Each operation loads the data,
    changes it in place and writes it back; the model keeps the loaded data
    as the fields of `Store` and leaves the file reads and writes out. */
module DataStore {
  import opened Common

  /** A user record as the store keeps it. */
  datatype StoredUser = StoredUser(id: string, name: string, email: string, role: string, isAuthenticated: bool)

  class Store {
    var helpRequests: seq<HelpRequest>
    var users: seq<StoredUser>

    constructor(helpRequests: seq<HelpRequest>, users: seq<StoredUser>)
      ensures this.helpRequests == helpRequests && this.users == users
    {
      this.helpRequests := helpRequests;
      this.users := users;
    }

    /** `getAllHelpRequests`. */
    method GetAllHelpRequests() returns (rs: seq<HelpRequest>)
      ensures rs == helpRequests
    {
      rs := helpRequests;
    }

    /** `getHelpRequestById`: the first record with the id, or `null`. */
    method GetHelpRequestById(id: string) returns (r: Option<HelpRequest>)
      ensures r.None? <==> forall k :: 0 <= k < |helpRequests| ==> helpRequests[k].id != id
      ensures r.Some? ==> r.value == helpRequests[FirstIndex(helpRequests, id)] && r.value.id == id
    {
      var index := FindIndex(helpRequests, id);
      if index == -1 {
        return None;
      }
      r := Some(helpRequests[index]);
    }

    /** `createHelpRequest`: appends the payload unchanged and returns it. */
    method CreateHelpRequest(payload: HelpRequest) returns (r: HelpRequest)
      modifies this
      ensures r == payload
      ensures helpRequests == old(helpRequests) + [payload] && users == old(users)
    {
      helpRequests := helpRequests + [payload];
      r := payload;
    }

    /** `updateHelpRequest`: `null` and no write for an unknown id; otherwise
        the updates are merged into the first record with the id, which is
        returned, and nothing else changes. */
    method UpdateHelpRequest(id: string, updates: RequestPatch) returns (r: Option<HelpRequest>)
      modifies this
      ensures users == old(users) && |helpRequests| == |old(helpRequests)|
      ensures var i := FirstIndex(old(helpRequests), id);
        && (i == -1 ==> r.None? && helpRequests == old(helpRequests))
        && (i >= 0 ==>
              && helpRequests == old(helpRequests)[i := MergeRequest(old(helpRequests)[i], updates)]
              && r == Some(helpRequests[i]))
    {
      var index := FindIndex(helpRequests, id);
      if index == -1 {
        return None;
      }
      helpRequests := helpRequests[index := MergeRequest(helpRequests[index], updates)];
      r := Some(helpRequests[index]);
    }

    /** `deleteHelpRequest`: `false` for an unknown id; otherwise exactly the
        first record with the id is removed and the answer is `true`. */
    method DeleteHelpRequest(id: string) returns (deleted: bool)
      modifies this
      ensures users == old(users)
      ensures deleted <==> exists k :: 0 <= k < |old(helpRequests)| && old(helpRequests)[k].id == id
      ensures !deleted ==> helpRequests == old(helpRequests)
      ensures deleted ==>
        var i := FirstIndex(old(helpRequests), id);
        && helpRequests == old(helpRequests)[..i] + old(helpRequests)[i + 1..]
        && multiset(helpRequests) == multiset(old(helpRequests)) - multiset{old(helpRequests)[i]}
    {
      var index := FindIndex(helpRequests, id);
      if index == -1 {
        return false;
      }
      assert helpRequests == helpRequests[..index] + [helpRequests[index]] + helpRequests[index + 1..];
      helpRequests := helpRequests[..index] + helpRequests[index + 1..];
      deleted := true;
    }

    /** `addVolunteerToRequest`: `null` for an unknown id; otherwise the
        volunteer is appended, as given and without any duplicate check, to
        the first record with the id, which is returned. */
    method AddVolunteerToRequest(id: string, volunteer: Volunteer) returns (r: Option<HelpRequest>)
      modifies this
      ensures users == old(users) && |helpRequests| == |old(helpRequests)|
      ensures var i := FirstIndex(old(helpRequests), id);
        && (i == -1 ==> r.None? && helpRequests == old(helpRequests))
        && (i >= 0 ==>
              && helpRequests == old(helpRequests)[i := old(helpRequests)[i].(volunteers := old(helpRequests)[i].volunteers + [volunteer])]
              && r == Some(helpRequests[i]))
    {
      var index := FindIndex(helpRequests, id);
      if index == -1 {
        return None;
      }
      var request := helpRequests[index];
      helpRequests := helpRequests[index := request.(volunteers := request.volunteers + [volunteer])];
      r := Some(helpRequests[index]);
    }

    /** `createUser`: appends the user unchanged and returns it. */
    method CreateUser(user: StoredUser) returns (r: StoredUser)
      modifies this
      ensures r == user
      ensures users == old(users) + [user] && helpRequests == old(helpRequests)
    {
      users := users + [user];
      r := user;
    }

    /** `getStats`: total, open, critical and the number of volunteer entries. */
    method GetStats() returns (stats: RequestCounts)
      ensures stats == CountRequests(helpRequests)
      ensures stats.total == |helpRequests| && stats.open <= stats.total && stats.critical <= stats.total
      ensures stats.volunteers == SumVolunteers(helpRequests)
    {
      var total := |helpRequests|;
      var open := CountKey(helpRequests, StatusOf, "open");
      var critical := CountKey(helpRequests, UrgencyOf, "critical");
      var volunteers := SumVolunteers(helpRequests);
      stats := RequestCounts(total, open, critical, volunteers);
    }
  }

  /** Adding a volunteer to the request at index `i` adds exactly one to the
      volunteer total, whether or not the volunteer was already there. */
  lemma {:induction false} AddVolunteerCountsOnce(rs: seq<HelpRequest>, i: int, v: Volunteer)
    requires 0 <= i < |rs|
    ensures SumVolunteers(rs[i := rs[i].(volunteers := rs[i].volunteers + [v])]) == SumVolunteers(rs) + 1
  {
    var r := rs[i := rs[i].(volunteers := rs[i].volunteers + [v])];
    var n := |rs| - 1;
    if i == n {
      assert r[..n] == rs[..n];
    } else {
      AddVolunteerCountsOnce(rs[..n], i, v);
      assert r[..n] == rs[..n][i := rs[i].(volunteers := rs[i].volunteers + [v])];
    }
  }
}

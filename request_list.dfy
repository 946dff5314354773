/** The main request list: the search / filter / sort pipeline over the
    store's requests, the results caption, and the volunteer button's
    authentication guard. */
module RequestList {
  import opened Common
  import opened AppState

  // ---------------------------------------------------------------------
  // Search and filters
  // ---------------------------------------------------------------------

  /** A record matches a lower-cased term when the term occurs in the
      lower-cased title, description, category, address or requester name. */
  predicate MatchesSearch(r: HelpRequest, lower: string)
  {
    || Contains(ToLower(r.title), lower)
    || Contains(ToLower(r.description), lower)
    || Contains(ToLower(r.category), lower)
    || Contains(ToLower(r.location.address), lower)
    || Contains(ToLower(r.requester.name), lower)
  }

  /** An equality filter with the `'all'` wildcard. */
  predicate FilterAccepts(filter: string, value: string)
  {
    filter == "all" || value == filter
  }

  /** The search step keeps `r`: it applies only when the term is not blank,
      and then with the untrimmed lower-cased term. */
  predicate SearchKeeps(r: HelpRequest, searchTerm: string)
  {
    Trim(searchTerm) == "" || MatchesSearch(r, ToLower(searchTerm))
  }

  /** Whether the pipeline keeps `r`. */
  predicate Keep(r: HelpRequest, f: Filters, searchTerm: string)
  {
    && SearchKeeps(r, searchTerm)
    && FilterAccepts(f.category, r.category)
    && FilterAccepts(f.urgency, r.urgency)
    && FilterAccepts(f.status, r.status)
  }

  // ---------------------------------------------------------------------
  // The two-key order
  // ---------------------------------------------------------------------

  predicate KnownUrgency(u: string)
  {
    u == "critical" || u == "high" || u == "medium" || u == "low"
  }

  /** `urgencyOrder[u]` for the four known urgencies. Any other urgency makes
      the comparator return NaN; the sort is only used on known urgencies,
      and the value 4 given to the others here plays no part. */
  function UrgencyRank(u: string): (n: nat)
    ensures n <= 3 <==> KnownUrgency(u)
  {
    if u == "critical" then 0 else if u == "high" then 1 else if u == "medium" then 2 else if u == "low" then 3 else 4
  }

  /** `a` may stand before `b`: more urgent, or equally urgent and not older. */
  predicate Precedes(a: HelpRequest, b: HelpRequest)
  {
    UrgencyRank(a.urgency) < UrgencyRank(b.urgency)
    || (UrgencyRank(a.urgency) == UrgencyRank(b.urgency) && a.createdAt >= b.createdAt)
  }

  predicate Sorted(s: seq<HelpRequest>)
  {
    forall i, j :: 0 <= i < j < |s| ==> Precedes(s[i], s[j])
  }

  lemma SortedTail(s: seq<HelpRequest>)
    requires s != [] && Sorted(s)
    ensures Sorted(s[1..])
  {
    forall i, j | 0 <= i < j < |s[1..]| ensures Precedes(s[1..][i], s[1..][j]) {
      assert s[1..][i] == s[i + 1] && s[1..][j] == s[j + 1];
    }
  }

  lemma SortedCons(a: HelpRequest, t: seq<HelpRequest>)
    requires Sorted(t)
    requires forall y :: y in multiset(t) ==> Precedes(a, y)
    ensures Sorted([a] + t)
  {
    var r := [a] + t;
    forall i, j | 0 <= i < j < |r| ensures Precedes(r[i], r[j]) {
      assert r[j] == t[j - 1];
      assert t[j - 1] in multiset(t);
      if i > 0 {
        assert r[i] == t[i - 1];
      }
    }
  }

  lemma InsertFront(x: HelpRequest, s: seq<HelpRequest>)
    requires s != [] && Sorted(s) && Precedes(x, s[0])
    ensures Sorted([x] + s)
  {
    forall y | y in multiset(s) ensures Precedes(x, y) {
      var k :| 0 <= k < |s| && s[k] == y;
      if k > 0 {
        assert Precedes(s[0], s[k]);
      }
    }
    SortedCons(x, s);
  }

  lemma InsertLater(x: HelpRequest, s: seq<HelpRequest>, t: seq<HelpRequest>)
    requires s != [] && Sorted(s) && !Precedes(x, s[0])
    requires Sorted(t) && multiset(t) == multiset(s[1..]) + multiset{x}
    ensures Sorted([s[0]] + t)
  {
    forall y | y in multiset(t) ensures Precedes(s[0], y) {
      if y != x {
        assert y in multiset(s[1..]);
        var k :| 0 <= k < |s[1..]| && s[1..][k] == y;
        assert s[k + 1] == y;
      }
    }
    SortedCons(s[0], t);
  }

  /** Inserts `x` before the first element it may precede. */
  function Insert(x: HelpRequest, s: seq<HelpRequest>): (r: seq<HelpRequest>)
    requires Sorted(s)
    ensures Sorted(r)
    ensures multiset(r) == multiset(s) + multiset{x}
  {
    if s == [] then [x]
    else if Precedes(x, s[0]) then
      InsertFront(x, s);
      [x] + s
    else
      SortedTail(s);
      var t := Insert(x, s[1..]);
      assert s == [s[0]] + s[1..];
      InsertLater(x, s, t);
      [s[0]] + t
  }

  /** `filtered.sort(comparator)`: sorted, and a permutation of its input.
      Each element is placed before the later elements it ties with, which
      keeps tied elements in their original order as the stable sort does. */
  function SortRequests(s: seq<HelpRequest>): (r: seq<HelpRequest>)
    ensures Sorted(r)
    ensures multiset(r) == multiset(s)
  {
    if s == [] then []
    else
      assert s == [s[0]] + s[1..];
      Insert(s[0], SortRequests(s[1..]))
  }

  // ---------------------------------------------------------------------
  // The pipeline
  // ---------------------------------------------------------------------

  /** The search step: when the term is not blank, keep the records it matches. */
  method SearchStep(rs: seq<HelpRequest>, searchTerm: string) returns (out: seq<HelpRequest>)
    ensures forall r :: multiset(out)[r] == if SearchKeeps(r, searchTerm) then multiset(rs)[r] else 0
  {
    out := rs;
    if Trim(searchTerm) != "" {
      var searchLower := ToLower(searchTerm);
      FilterMultiset(out, (r: HelpRequest) => MatchesSearch(r, searchLower));
      out := Filter(out, (r: HelpRequest) => MatchesSearch(r, searchLower));
    }
  }

  /** One equality filter: unless it is `'all'`, keep the records whose field equals it. */
  method EqualityStep(rs: seq<HelpRequest>, filter: string, field: HelpRequest -> string) returns (out: seq<HelpRequest>)
    ensures forall r :: multiset(out)[r] == if FilterAccepts(filter, field(r)) then multiset(rs)[r] else 0
  {
    out := rs;
    if filter != "all" {
      FilterMultiset(out, (r: HelpRequest) => field(r) == filter);
      out := Filter(out, (r: HelpRequest) => field(r) == filter);
    }
  }

  /** The `filteredRequests` memo: copies the list, applies the search and the
      three equality filters one after another, then sorts. Every kept record
      is assumed to carry one of the four known urgencies. */
  method FilteredRequests(helpRequests: seq<HelpRequest>, filters: Filters, searchTerm: string)
    returns (filtered: seq<HelpRequest>)
    requires forall i :: 0 <= i < |helpRequests| && Keep(helpRequests[i], filters, searchTerm) ==>
      KnownUrgency(helpRequests[i].urgency)
    ensures Sorted(filtered)
    ensures forall r :: multiset(filtered)[r] == if Keep(r, filters, searchTerm) then multiset(helpRequests)[r] else 0
    ensures multiset(filtered) <= multiset(helpRequests)
    ensures forall i :: 0 <= i < |filtered| ==> KnownUrgency(filtered[i].urgency)
    ensures filters.category == "all" && filters.urgency == "all" && filters.status == "all" && Trim(searchTerm) == ""
      ==> multiset(filtered) == multiset(helpRequests)
  {
    var searched := SearchStep(helpRequests, searchTerm);
    var byCategory := EqualityStep(searched, filters.category, CategoryOf);
    var byUrgency := EqualityStep(byCategory, filters.urgency, UrgencyOf);
    var kept := EqualityStep(byUrgency, filters.status, StatusOf);
    ComposeSteps(helpRequests, searched, byCategory, byUrgency, kept, filters, searchTerm);
    KeptAreKnown(helpRequests, kept, filters, searchTerm);
    NoFiltersKeepAll(helpRequests, kept, filters, searchTerm);
    filtered := SortRequests(kept);
    forall i | 0 <= i < |filtered| ensures KnownUrgency(filtered[i].urgency) {
      assert filtered[i] in multiset(kept);
    }
  }

  lemma NoFiltersKeepAll(rs: seq<HelpRequest>, kept: seq<HelpRequest>, filters: Filters, searchTerm: string)
    requires forall r :: multiset(kept)[r] == if Keep(r, filters, searchTerm) then multiset(rs)[r] else 0
    ensures filters.category == "all" && filters.urgency == "all" && filters.status == "all" && Trim(searchTerm) == ""
      ==> multiset(kept) == multiset(rs)
  {
    if filters.category == "all" && filters.urgency == "all" && filters.status == "all" && Trim(searchTerm) == "" {
      assert forall r :: Keep(r, filters, searchTerm);
      assert multiset(kept) == multiset(rs);
    }
  }

  lemma ComposeSteps(rs: seq<HelpRequest>, searched: seq<HelpRequest>, byCategory: seq<HelpRequest>,
                      byUrgency: seq<HelpRequest>, kept: seq<HelpRequest>, filters: Filters, searchTerm: string)
    requires forall r :: multiset(searched)[r] == if SearchKeeps(r, searchTerm) then multiset(rs)[r] else 0
    requires forall r :: multiset(byCategory)[r] == if FilterAccepts(filters.category, CategoryOf(r)) then multiset(searched)[r] else 0
    requires forall r :: multiset(byUrgency)[r] == if FilterAccepts(filters.urgency, UrgencyOf(r)) then multiset(byCategory)[r] else 0
    requires forall r :: multiset(kept)[r] == if FilterAccepts(filters.status, StatusOf(r)) then multiset(byUrgency)[r] else 0
    ensures forall r :: multiset(kept)[r] == if Keep(r, filters, searchTerm) then multiset(rs)[r] else 0
  {
  }

  lemma KeptAreKnown(helpRequests: seq<HelpRequest>, filtered: seq<HelpRequest>, filters: Filters, searchTerm: string)
    requires forall i :: 0 <= i < |helpRequests| && Keep(helpRequests[i], filters, searchTerm) ==>
      KnownUrgency(helpRequests[i].urgency)
    requires forall r :: multiset(filtered)[r] == if Keep(r, filters, searchTerm) then multiset(helpRequests)[r] else 0
    ensures forall r :: r in multiset(filtered) ==> KnownUrgency(r.urgency)
  {
    forall r | r in multiset(filtered) ensures KnownUrgency(r.urgency) {
      assert multiset(filtered)[r] > 0;
      assert r in multiset(helpRequests);
      var i :| 0 <= i < |helpRequests| && helpRequests[i] == r;
    }
  }

  // ---------------------------------------------------------------------
  // Results caption
  // ---------------------------------------------------------------------

  /** The three captions `getResultsText` can produce. */
  datatype ResultsText =
    | FoundFor(results: nat, term: string)
    | ShowingAll(total: nat)
    | ShowingSome(shown: nat, total: nat)

  function GetResultsText(total: nat, filtered: nat, searchTerm: string): (t: ResultsText)
    ensures t.FoundFor? <==> Trim(searchTerm) != ""
    ensures t.FoundFor? ==> t == FoundFor(filtered, searchTerm)
    ensures t.ShowingAll? <==> Trim(searchTerm) == "" && filtered == total
    ensures t.ShowingAll? ==> t == ShowingAll(total)
    ensures t.ShowingSome? ==> t == ShowingSome(filtered, total) && filtered != total
  {
    if Trim(searchTerm) != "" then FoundFor(filtered, searchTerm)
    else if filtered == total then ShowingAll(total)
    else ShowingSome(filtered, total)
  }

  /** The caption as displayed; the plural follows the count the sentence
      ends on (the result count, or the total). */
  function Render(t: ResultsText): string
  {
    match t
    case FoundFor(n, term) => NatToString(n) + " result" + Plural(n) + " found for \"" + term + "\""
    case ShowingAll(total) => "Showing all " + NatToString(total) + " help request" + Plural(total)
    case ShowingSome(n, total) =>
      "Showing " + NatToString(n) + " of " + NatToString(total) + " help request" + Plural(total)
  }

  /** The caption ends in "s" exactly when its count differs from 1. */
  lemma RenderPlural(t: ResultsText)
    requires !t.FoundFor?
    ensures var s := Render(t);
      s[|s| - 1] == 's' <==> t.total != 1
  {
  }

  // ---------------------------------------------------------------------
  // The volunteer button
  // ---------------------------------------------------------------------

  /** The volunteer entry the list builds from the signed-in user: the email
      is copied as it is, without a fallback. */
  function ListVolunteer(u: User): (v: Volunteer)
    ensures v.id == u.id && v.name == u.name && v.role == u.role && v.contactInfo == u.email
    ensures v.joinedAt.None?
  {
    Volunteer(u.id, u.name, u.role, u.email, None)
  }

  /** `handleVolunteer(requestId)`: a user who is not signed in only gets a
      warning (whose id is `freshId`); a signed-in user is appended to the
      request and gets a success notification. */
  method HandleVolunteer(store: AppStore, requestId: string, freshId: string, notificationId: string, now: int)
    modifies store
    ensures store.state.user == old(store.state.user) && store.state.filters == old(store.state.filters)
    ensures !old(store.state.user.isAuthenticated) ==>
      && store.state.helpRequests == old(store.state.helpRequests)
      && store.state.notifications == old(store.state.notifications) + [Notification(freshId, "warning", LoginWarning, None)]
    ensures old(store.state.user.isAuthenticated) ==>
      && store.state.helpRequests == VolunteerRequests(old(store.state.helpRequests), requestId, ListVolunteer(old(store.state.user)))
      && store.state.notifications == old(store.state.notifications)
        + [WithNotificationId(Notification(notificationId, "success", VolunteeredMessage, Some(now)), notificationId)]
  {
    if !store.state.user.isAuthenticated {
      store.AddNotification(Notification("", "warning", LoginWarning, None), freshId);
      return;
    }
    var volunteer := ListVolunteer(store.state.user);
    store.VolunteerForRequest(requestId, volunteer, notificationId, now);
  }
}

/** The stand-alone demonstration list of help requests: a fixed set of
    requests, narrowed by an urgency and a category filter, with a display
    label per category and a pluralised volunteer count. */
module MockRequestList {
  import opened Common

  /** A demonstration request; `volunteers` is a plain count here, not a
      list of volunteer records. */
  datatype MockRequest = MockRequest(id: string, category: string, urgency: string, status: string, volunteers: nat)

  /** The five demonstration requests, keeping the fields the list filters
      and counts on. */
  const MockHelpRequests: seq<MockRequest> := [
    MockRequest("1", "FOOD", "HIGH", "OPEN", 2),
    MockRequest("2", "SHELTER", "CRITICAL", "OPEN", 5),
    MockRequest("3", "TRANSPORTATION", "MEDIUM", "OPEN", 1),
    MockRequest("4", "FOOD", "MEDIUM", "OPEN", 8),
    MockRequest("5", "CHILD_CARE", "HIGH", "OPEN", 0)
  ]

  /** The filter predicate: each of the two filters is either `all` or
      equal to the request's field. */
  function MatchesFilters(urgencyFilter: string, categoryFilter: string): MockRequest -> bool
  {
    (r: MockRequest) =>
      (urgencyFilter == "all" || r.urgency == urgencyFilter)
      && (categoryFilter == "all" || r.category == categoryFilter)
  }

  /** `filteredRequests`: the requests, in list order, that pass both filters. */
  function FilteredRequests(requests: seq<MockRequest>, urgencyFilter: string, categoryFilter: string): (r: seq<MockRequest>)
    ensures |r| <= |requests|
    ensures forall x :: x in r <==>
      x in requests
      && (urgencyFilter == "all" || x.urgency == urgencyFilter)
      && (categoryFilter == "all" || x.category == categoryFilter)
  {
    Filter(requests, MatchesFilters(urgencyFilter, categoryFilter))
  }

  /** The result keeps list order, and with both filters at `all` it is the
      whole list. */
  lemma FilteredRequestsKeepOrder(requests: seq<MockRequest>, urgencyFilter: string, categoryFilter: string)
    ensures IsSubsequence(FilteredRequests(requests, urgencyFilter, categoryFilter), requests)
    ensures urgencyFilter == "all" && categoryFilter == "all" ==>
      FilteredRequests(requests, urgencyFilter, categoryFilter) == requests
  {
    FilterIsSubsequence(requests, MatchesFilters(urgencyFilter, categoryFilter));
    if urgencyFilter == "all" && categoryFilter == "all" {
      FilterKeepsAll(requests, MatchesFilters(urgencyFilter, categoryFilter));
    }
  }

  /** The categories `getCategoryLabel` knows. */
  const KnownCategories: seq<string> := [
    "FOOD", "SHELTER", "MEDICAL", "TRANSPORTATION", "CLOTHING", "FINANCIAL",
    "EMOTIONAL_SUPPORT", "ELDER_CARE", "CHILD_CARE", "DISASTER_RELIEF", "EDUCATION", "OTHER"
  ]

  /** `getCategoryLabel`: a known category gets its display label, any
      other string is shown as it is. */
  function GetCategoryLabel(category: string): (text: string)
    ensures category !in KnownCategories ==> text == category
    ensures category in KnownCategories ==> text != category && text != ""
  {
    match category
    case "FOOD" => "Food & Meals"
    case "SHELTER" => "Shelter"
    case "MEDICAL" => "Medical"
    case "TRANSPORTATION" => "Transportation"
    case "CLOTHING" => "Clothing"
    case "FINANCIAL" => "Financial"
    case "EMOTIONAL_SUPPORT" => "Emotional Support"
    case "ELDER_CARE" => "Elder Care"
    case "CHILD_CARE" => "Child Care"
    case "DISASTER_RELIEF" => "Disaster Relief"
    case "EDUCATION" => "Education"
    case "OTHER" => "Other"
    case _ => category
  }

  /** The card's volunteer line: the count and `volunteer`, with an `s`
      exactly when the count is not one. */
  function VolunteersLabel(r: MockRequest): (text: string)
    ensures |text| > 0 && (text[|text| - 1] == 's' <==> r.volunteers != 1)
  {
    VolunteerCountLabelPlural(r.volunteers);
    VolunteerCountLabel(r.volunteers)
  }
}

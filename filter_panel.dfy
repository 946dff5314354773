/** The filter panel: changing one filter, clearing them all, and the two
    ways the panel decides whether any filter is active (a boolean test and
    a counter, which disagree on one value of the location filter). */
module FilterPanel {
  import opened Common
  import opened AppState

  /** The filters the panel's three selects change. */
  datatype FilterKey = CategoryKey | UrgencyKey | StatusKey

  /** The value of one select's filter. */
  function Get(f: Filters, k: FilterKey): string
  {
    match k
    case CategoryKey => f.category
    case UrgencyKey => f.urgency
    case StatusKey => f.status
  }

  /** `{ ...filters, [filterType]: value }`: the chosen key takes the new
      value and every other key, the location included, keeps its own. */
  function WithFilter(f: Filters, k: FilterKey, value: string): (r: Filters)
    ensures Get(r, k) == value
    ensures forall j :: j != k ==> Get(r, j) == Get(f, j)
    ensures r.location == f.location
  {
    match k
    case CategoryKey => f.(category := value)
    case UrgencyKey => f.(urgency := value)
    case StatusKey => f.(status := value)
  }

  /** A whole filter record handed to `setFilters`, every key present. */
  function FullPatch(f: Filters): FiltersPatch
  {
    FiltersPatch(Some(f.category), Some(f.urgency), Some(f.status), Some(f.location))
  }

  /** Merging a record that carries every key replaces the filters by it. */
  lemma FullPatchReplaces(current: Filters, f: Filters)
    ensures MergeFilters(current, FullPatch(f)) == f
  {
  }

  /** `filters.category !== 'all' || ... || filters.location !== null`. */
  predicate HasActiveFilters(f: Filters)
  {
    f.category != "all" || f.urgency != "all" || f.status != "all" || f.location.Some?
  }

  /** A location filter that is set and not the empty (falsy) string. */
  predicate LocationTruthy(location: Option<string>)
  {
    location.Some? && location.value != ""
  }

  /** The number of filters `getActiveFilterCount` counts. */
  function ActiveCount(f: Filters): nat
  {
    (if f.category != "all" then 1 else 0) + (if f.urgency != "all" then 1 else 0)
    + (if f.status != "all" then 1 else 0) + (if LocationTruthy(f.location) then 1 else 0)
  }

  /** `getActiveFilterCount`, which bumps a counter once per active filter.
      The count is at most 4, a positive count means `hasActiveFilters`
      holds, and the one way for `hasActiveFilters` to hold with a zero
      count is a location filter set to the empty string: the boolean test
      compares with `null`, the counter tests truthiness. */
  method GetActiveFilterCount(f: Filters) returns (count: nat)
    ensures count == ActiveCount(f)
    ensures count <= 4
    ensures count > 0 ==> HasActiveFilters(f)
    ensures HasActiveFilters(f) && count == 0 <==>
      f.category == "all" && f.urgency == "all" && f.status == "all" && f.location == Some("")
  {
    count := 0;
    if f.category != "all" {
      count := count + 1;
    }
    if f.urgency != "all" {
      count := count + 1;
    }
    if f.status != "all" {
      count := count + 1;
    }
    if f.location.Some? && f.location.value != "" {
      count := count + 1;
    }
  }

  /** `handleFilterChange(filterType, value)`: stores the filters with one
      key changed and returns the record also handed to `onFilterChange`.
      Only the filters of the state change. */
  method HandleFilterChange(store: AppStore, k: FilterKey, value: string) returns (newFilters: Filters)
    modifies store
    ensures newFilters == WithFilter(old(store.state.filters), k, value)
    ensures store.state == old(store.state).(filters := newFilters)
  {
    newFilters := WithFilter(store.state.filters, k, value);
    FullPatchReplaces(store.state.filters, newFilters);
    store.SetFilters(FullPatch(newFilters));
  }

  /** `clearAllFilters`: every select back to `all` and no location, after
      which no filter is active by either test. */
  method ClearAllFilters(store: AppStore) returns (defaultFilters: Filters)
    modifies store
    ensures defaultFilters == DefaultFilters
    ensures store.state == old(store.state).(filters := DefaultFilters)
    ensures !HasActiveFilters(store.state.filters) && ActiveCount(store.state.filters) == 0
  {
    defaultFilters := Filters("all", "all", "all", None);
    FullPatchReplaces(store.state.filters, defaultFilters);
    store.SetFilters(FullPatch(defaultFilters));
  }

  /** Counting and testing agree on every filter record whose location is
      not the empty string, in both directions. */
  lemma CountMatchesActive(f: Filters)
    requires f.location != Some("")
    ensures ActiveCount(f) > 0 <==> HasActiveFilters(f)
  {
  }
}

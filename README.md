# Community Hub — a Dafny model of its core logic

Community Hub is a mutual-aid web app. People post help requests, and volunteers and NGOs answer them. It has a React client and a small Express backend. This project models, in Dafny, the logic beneath its rendering and proves properties of that logic:

- **Statistics** (`statistics.dfy`): the dashboard summary over the help requests. It covers:
  - status, urgency and category breakdowns;
  - the volunteer total and the rounded response, completion and average figures;
  - the 7- and 30-day counters and the seven-day histogram;
  - the trend percentage and the number-scale choice.
- **Application state** (`app_state.dfy`): the client's reducer, with all nine actions, as a pure function. The store that holds the state, and its action creators, form a class.
- **Request list** (`request_list.dfy`):
  - the search, filter and sort pipeline;
  - the results caption;
  - the sign-in guard on volunteering.
- **Backend** (`backend_server.dfy`, `data_store.dfy`): the route bodies of the in-memory server and the data-store operations, as classes whose methods change the stored sequences in place and report not-found or invalid input explicitly.
- **Form and filters** (`request_form.dfy`, `filter_panel.dfy`):
  - the help-request form: validation, error clearing, submit and reset;
  - the filter panel: change, clear, the active test and the active count.
- **Small views**:
  - `request_card.dfy`: relative time, truncation and labels;
  - `map_markers.dfy`: marker colour and letter, and the hour-based relative time;
  - `profile.dfy`: user counts, recent activity and the cancel reset;
  - `home.dfy`: the counters and the view toggle;
  - `request_details.dfy`: the details page;
  - `mock_request_list.dfy`: the stand-alone demonstration list;
  - `accessibility.dfy`: the accessibility panel;
  - `user_roles.dfy`: the user-role manager.
- **Common** (`common.dfy`): the shared records and the array and string built-ins the code relies on (`filter`, `find`/`findIndex`, `trim`, `toLowerCase`, `includes`, and number-to-text).

Conventions:

- Identifiers and times are parameters. Times are integer milliseconds; the current time is `now`, and the local-time offset is `tz`.
- A missing (`null`/`undefined`) identifier or email is the empty string.
- A `null` location is `None`.

## Model

| member | source | states |
|---|---|---|
| Common.MergeRequestIdempotent | src/context/AppContext.jsx:105-113 | merging the same patch twice equals merging it once, and an empty patch changes nothing |
| Common.Filter | src/components/user-role-manager.tsx:121 | the result is no longer than the input and holds exactly the input's elements that pass the test |
| Common.FilterMultiset | src/components/HelpRequestList.jsx:16-37 | filtering keeps every copy of a passing element and no copy of a failing one |
| Common.FilterIsSubsequence | src/components/help-requests-list.tsx:111-115 | the filtered list keeps the input's order |
| Common.FilterLengthIsCount | src/pages/Profile.jsx:59-67 | the length of a filtered list is the count of elements with the key |
| Common.Take | src/pages/Profile.jsx:257 | `slice(0, n)` is a prefix of length `min(n, length)` |
| Common.CountKeyIn | src/utils/statistics.js:41-51 | the number of elements whose key is in a list is at most the length, and equal to it exactly when every key is in the list |
| Common.CountRequests | src/pages/Home.jsx:27-34 | total is the length; open and critical are at most the total; volunteers is the sum of the volunteer-list lengths and at least the number of requests with volunteers |
| Common.FirstIndex | backend/server.js:66 | `findIndex` is -1 exactly when no record has the id, and otherwise the first position with it |
| Common.FindById | backend/services/dataStore.js:35 | `find` is absent exactly when no record has the id, and otherwise the first record with it |
| Common.FindIndex | backend/server.js:75 | the linear scan returns the first index with the id, or -1 |
| Common.TrimStartDropsBlankPrefix | src/components/HelpRequestForm.jsx:89 | trimming the start removes a white-space prefix and stops at the first other character |
| Common.TrimEndDropsBlankSuffix | src/components/HelpRequestForm.jsx:89 | trimming the end removes a white-space suffix and stops at the last other character |
| Common.TrimEmptyIffBlank | src/components/HelpRequestForm.jsx:89 | `trim()` is empty exactly when every character is white space |
| Common.TrimsToEmpty | src/components/HelpRequestForm.jsx:105 | `!s.trim()` holds exactly for blank text |
| Common.ToLower | src/components/HelpRequestList.jsx:15 | lower-casing keeps the length |
| Common.ContainsAt | src/components/HelpRequestList.jsx:17-21 | `includes` holds exactly when the needle occurs at some position |
| Common.Capitalize | src/components/HelpRequestCard.jsx:136 | the first character is upper-cased and the rest kept |
| Common.NatToString | src/components/HelpRequestCard.jsx:163 | the decimal text of a count is non-empty, all digits, with no leading zero |
| Common.NatToStringRoundTrip | src/components/HelpRequestCard.jsx:163 | reading the decimal text of a count back gives the count |
| Common.DivDiv | src/components/HelpRequestCard.jsx:93-96 | flooring by `b` and then by `c` is flooring by `b*c`, negative values included |
| Common.VolunteerCountLabelPlural | src/components/HelpRequestCard.jsx:163 | the volunteer label ends in "s" exactly when the count is not 1 |
| Statistics.StartOfDay | src/utils/statistics.js:16-20 | the result is a local midnight at or before the instant, less than a day before it |
| Statistics.EndOfDay | src/utils/statistics.js:22-26 | the result is the last millisecond of the instant's local day |
| Statistics.StartOfDayUnique | src/utils/statistics.js:16-20 | a local midnight within a day before the instant is its start of day |
| Statistics.StartOfDayShift | src/utils/statistics.js:79-80 | going back `i` days moves the start of day back by exactly `i` days |
| Statistics.CountSinceAntitone | src/utils/statistics.js:68-74 | an earlier lower bound never counts fewer requests |
| Statistics.CountBetweenSplit | src/utils/statistics.js:83-86 | two adjacent windows together count what their union counts |
| Statistics.DailyRequests | src/utils/statistics.js:77-92 | the loop builds the seven entries of the histogram, oldest first |
| Statistics.DailyShape | src/utils/statistics.js:77-92 | seven consecutive, disjoint day windows, the last containing `now`, each counting its own window |
| Statistics.DailyPrefixSum | src/utils/statistics.js:77-92 | the first `n` entries together count the requests of their `n` days |
| Statistics.BumpKeys | src/utils/statistics.js:56 | one increment keeps the keys in place and appends a new key at the end |
| Statistics.BumpSum | src/utils/statistics.js:56 | one increment adds exactly one to the sum of the values |
| Statistics.BumpValues | src/utils/statistics.js:56 | one increment adds one to the value of its key only, and a new key starts at 1 |
| Statistics.BumpTallies | src/utils/statistics.js:55-58 | each `reduce` step keeps the category tally exact |
| Statistics.CategoryStats | src/utils/statistics.js:55-58 | the keys are exactly the categories present, each once, with its request count (at least 1), and the values sum to the number of requests |
| Statistics.RoundDiv | src/utils/statistics.js:111-113 | `Math.round(n/d)` is within one half of the exact quotient, ties rounded up |
| Statistics.PercentInRange | src/utils/statistics.js:95-102 | a rounded percentage of a part of a positive whole lies in [0, 100] |
| Statistics.CalculateStatistics | src/utils/statistics.js:34-124 | the computed summary is the one `Summarize` defines |
| Statistics.StatusCountsCoverTotal | src/utils/statistics.js:40-65 | `statusStats` holds the three counts; their sum is at most the total, and equal exactly when every status is open, in_progress or completed |
| Statistics.ThreeKeySum | src/utils/statistics.js:41-43 | three distinct keys count at most the length, and exactly the length when every key is one of them |
| Statistics.UrgencyCountsCoverTotal | src/utils/statistics.js:47-52 | the four urgency counts sum to at most the total, and equal exactly when every urgency is one of the four |
| Statistics.FourKeySum | src/utils/statistics.js:47-52 | four distinct keys count at most the length, and exactly the length when every key is one of them |
| Statistics.RatesInRange | src/utils/statistics.js:94-113 | both rates lie in [0, 100]; with no requests the rates and the average are 0; otherwise the average is the mean rounded half up to tenths |
| Statistics.RecentWindowsNested | src/utils/statistics.js:67-92 | the 30-day count is at least the 7-day count, which is at least the histogram's sum |
| Statistics.FutureRequestCounted | src/utils/statistics.js:68-74 | a request dated after `now` adds one to both window counts |
| Statistics.EmptySummary | src/utils/statistics.js:94-113 | no requests: every figure is 0, no categories, seven empty days |
| Statistics.OlderThanAWeek | src/utils/statistics.js:67-92 | a request between 30 and 7 days old counts in the total and the 30-day window only |
| Statistics.CalculateTrend | src/utils/statistics.js:163-166 | 100 or 0 when the previous figure is 0; otherwise the percent change rounded half up |
| Statistics.TrendSign | src/utils/statistics.js:163-166 | an unchanged figure has trend 0 and growth a non-negative trend |
| Statistics.FormatScale | src/utils/statistics.js:152-160 | millions exactly from 1000000, thousands exactly from 1000 below that, plain otherwise |
| Statistics.FormatScaleMonotone | src/utils/statistics.js:152-160 | a larger number never gets a smaller unit |
| AppState.SeedRequest | src/context/AppContext.jsx:16-28 | a seeded request is open, has no volunteers and is created at `now` |
| AppState.SeedRequests | src/context/AppContext.jsx:15-55 | three seeded requests, all open, without volunteers, created at `now` |
| AppState.UpdateRequests | src/context/AppContext.jsx:105-113 | same length and order; a record with the payload's id is merged with the payload, every other record is unchanged |
| AppState.VolunteerRequests | src/context/AppContext.jsx:115-126 | same length and order; the volunteer is appended to each record with the id, every other record is unchanged |
| AppState.Reduce | src/context/AppContext.jsx:79-151 | each action changes only its own part of the state; ADD appends the payload last; LOGIN stores the payload as authenticated; LOGOUT restores the initial user; an unknown action changes nothing |
| AppState.UpdateKeepsIds | src/context/AppContext.jsx:105-113 | an update keeps every id at its position |
| AppState.VolunteerUnknownId | src/context/AppContext.jsx:115-126 | volunteering for an unknown id leaves the state unchanged |
| AppState.VolunteerAddsOnePerMatch | src/context/AppContext.jsx:115-126 | the volunteer total grows by the number of records with the id (no deduplication) |
| AppState.VolunteerAppendsLast | src/context/AppContext.jsx:118-125 | on a matching record the old volunteers stay and the new one is last |
| AppState.RemoveNotificationKeepsOthers | src/context/AppContext.jsx:140-146 | every notification with the id is removed, the rest kept in order, and an absent id changes nothing |
| AppState.AddThenRemoveNotification | src/context/AppContext.jsx:214-224 | adding a notification with a new id and then removing that id restores the list |
| AppState.SetFiltersMerges | src/context/AppContext.jsx:128-132 | keys missing from the payload keep their values, and applying a payload twice equals applying it once |
| AppState.LoginLogout | src/context/AppContext.jsx:87-97 | logging out and in gives exactly the authenticated payload; logging out twice equals logging out once |
| AppState.NewHelpRequest | src/context/AppContext.jsx:173-180 | the new request is open, without volunteers, with the fresh id and time; the other fields come from the data |
| AppState.AddedRequestIsOpen | src/context/AppContext.jsx:173-181 | adding a request adds one to the open count and leaves the volunteer total |
| AppState.WithNotificationId | src/context/AppContext.jsx:215-218 | a notification keeps its own id and gets the fresh one only when it has none |
| AppState.AppStore.constructor | src/context/AppContext.jsx:155 | the store starts in the initial state |
| AppState.AppStore.Dispatch | src/context/AppContext.jsx:155 | the new state is the reducer's result |
| AppState.AppStore.SetUser | src/context/AppContext.jsx:159-161 | only the user changes, merged with the patch |
| AppState.AppStore.LoginUser | src/context/AppContext.jsx:163-166 | only the user changes, to the authenticated payload |
| AppState.AppStore.LogoutUser | src/context/AppContext.jsx:168-171 | only the user changes, back to the initial user |
| AppState.AppStore.AddNotification | src/context/AppContext.jsx:214-225 | only the notifications change: the notification, with its id filled in, is appended |
| AppState.AppStore.RemoveNotification | src/context/AppContext.jsx:227-229 | the new state is the REMOVE_NOTIFICATION reduction |
| AppState.AppStore.AddHelpRequest | src/context/AppContext.jsx:173-190 | the open request is appended, then a success notification; user and filters are unchanged |
| AppState.AppStore.UpdateHelpRequest | src/context/AppContext.jsx:192-194 | only the requests change, by the update |
| AppState.AppStore.VolunteerForRequest | src/context/AppContext.jsx:196-208 | the volunteer is appended to the matching requests, then a success notification; user and filters are unchanged |
| AppState.AppStore.SetFilters | src/context/AppContext.jsx:210-212 | only the filters change, merged with the payload |
| RequestList.UrgencyRank | src/components/HelpRequestList.jsx:41 | the rank is 0 to 3 exactly for the four known urgencies |
| RequestList.Insert | src/components/HelpRequestList.jsx:42-46 | inserting into a sorted list gives a sorted list with one more copy of the element |
| RequestList.SortRequests | src/components/HelpRequestList.jsx:40-46 | the result is ordered by urgency rank and then newest first, and is a permutation of the input |
| RequestList.SearchStep | src/components/HelpRequestList.jsx:13-23 | a blank term keeps everything; otherwise exactly the records matching the lower-cased term are kept, with their multiplicities |
| RequestList.EqualityStep | src/components/HelpRequestList.jsx:25-38 | `all` keeps everything; otherwise exactly the records whose field equals the filter are kept |
| RequestList.FilteredRequests | src/components/HelpRequestList.jsx:10-49 | the result is sorted and holds exactly the records passing search and filters (a sub-multiset of the input); with no filter and a blank term it is a permutation of the input |
| RequestList.ComposeSteps | src/components/HelpRequestList.jsx:14-38 | the four steps in sequence keep exactly the records passing all of them |
| RequestList.NoFiltersKeepAll | src/components/HelpRequestList.jsx:10-49 | with every filter at `all` and a blank term, nothing is removed |
| RequestList.GetResultsText | src/components/HelpRequestList.jsx:74-87 | the "found for" caption, with the result count and the term, exactly when searching; "Showing all" with the total exactly when not searching and nothing is filtered out; otherwise "Showing N of M" with the shown count and the total |
| RequestList.RenderPlural | src/components/HelpRequestList.jsx:82-86 | a "Showing" caption ends in "s" exactly when the total is not 1 |
| RequestList.ListVolunteer | src/components/HelpRequestList.jsx:60-65 | the volunteer entry copies id, name and role, and the email as contact |
| RequestList.HandleVolunteer | src/components/HelpRequestList.jsx:51-67 | signed out: only a warning is added and no request changes; signed in: the user is appended as a volunteer and the success notification is added |
| BackendServer.NewRequest | backend/server.js:46-52 | the new record is open, without volunteers, created at `now`; a body id wins over the generated one |
| BackendServer.JoinKeepsIdsDistinct | backend/server.js:93-97 | appending a volunteer whose id is absent keeps volunteer ids distinct |
| BackendServer.FirstIndexOfFresh | backend/server.js:53-58 | a record appended with a new id is the one found for that id |
| BackendServer.CreateThenGetAndDelete | backend/server.js:45-81 | after creating a record with a new id, fetching that id finds it and deleting it restores the table |
| BackendServer.Server.constructor | backend/server.js:11-28 | the seeded database holds one open request without volunteers, and no users |
| BackendServer.Server.ListRequests | backend/server.js:41-43 | the list is the table |
| BackendServer.Server.CreateRequest | backend/server.js:45-55 | exactly one new record is appended and returned with 201 |
| BackendServer.Server.GetRequest | backend/server.js:57-63 | 404 exactly when no record has the id, otherwise the first record with it |
| BackendServer.Server.UpdateRequest | backend/server.js:65-72 | 404 and no change for an unknown id; otherwise the body is merged into that one record and the length and other records stay |
| BackendServer.Server.DeleteRequest | backend/server.js:74-81 | 404 and no change for an unknown id; otherwise exactly the first record with the id is removed |
| BackendServer.Server.Volunteer | backend/server.js:83-99 | 404, then 400 invalid volunteer, then 400 already joined, in that order, with no change; a valid volunteer not yet on the request always succeeds, appended with `joinedAt`; distinct volunteer ids stay distinct |
| BackendServer.Server.Login | backend/server.js:102-116 | 400 exactly when name, email or role is empty; otherwise exactly one authenticated user is appended |
| BackendServer.Server.StatsOverview | backend/server.js:119-125 | total is the length, open and critical are at most the total, volunteers is the sum of the volunteer-list lengths |
| DataStore.Store.constructor | backend/services/dataStore.js:17-21 | the store holds the loaded data |
| DataStore.Store.GetAllHelpRequests | backend/services/dataStore.js:28-31 | the list is the stored list |
| DataStore.Store.GetHelpRequestById | backend/services/dataStore.js:33-36 | `null` exactly when no record has the id, otherwise the first record with it |
| DataStore.Store.CreateHelpRequest | backend/services/dataStore.js:38-43 | the payload is appended unchanged and returned |
| DataStore.Store.UpdateHelpRequest | backend/services/dataStore.js:45-54 | `null` and no change for an unknown id; otherwise that one record is merged and returned, the length kept |
| DataStore.Store.DeleteHelpRequest | backend/services/dataStore.js:56-65 | `false` and no change exactly for an unknown id; otherwise exactly one record is removed |
| DataStore.Store.AddVolunteerToRequest | backend/services/dataStore.js:67-76 | `null` for an unknown id; otherwise the volunteer is appended without a duplicate check |
| DataStore.Store.CreateUser | backend/services/dataStore.js:78-83 | the user is appended unchanged and returned |
| DataStore.Store.GetStats | backend/services/dataStore.js:85-92 | total is the length, open and critical are at most the total, volunteers is the sum of the volunteer-list lengths |
| DataStore.AddVolunteerCountsOnce | backend/services/dataStore.js:67-76 | adding a volunteer raises the volunteer total by exactly one, duplicate or not |
| RequestForm.Text | src/components/HelpRequestForm.jsx:89-111 | a message text is empty exactly for the cleared message |
| RequestForm.AddErrorEntries | src/components/HelpRequestForm.jsx:90-110 | recording a message touches only its own field |
| RequestForm.FieldMessages | src/components/HelpRequestForm.jsx:89-111 | each field's entry is its own check's message: blank text is required, and only non-blank text is checked for length; category and urgency never have one |
| RequestForm.ValidExactly | src/components/HelpRequestForm.jsx:86-114 | the record is empty exactly when title and description are non-blank and long enough, a location is set, and name and contact are non-blank |
| RequestForm.NoKeysIsEmpty | src/components/HelpRequestForm.jsx:114 | an error record has no keys exactly when it is empty |
| RequestForm.RequesterRole | src/components/HelpRequestForm.jsx:131 | the role is never empty and falls back to `needsHelp` |
| RequestForm.RequestData | src/components/HelpRequestForm.jsx:127-133 | the request data carries the form's title, description, category, urgency, location and contact, and the requester name and role |
| RequestForm.ResetForm | src/components/HelpRequestForm.jsx:141-150 | after a submit: empty text, `food`, `medium`, no location, and the user's email and name |
| RequestForm.HelpRequestForm.constructor | src/components/HelpRequestForm.jsx:8-18 | the form starts empty, `food`, `medium`, with no errors |
| RequestForm.HelpRequestForm.HandleInputChange | src/components/HelpRequestForm.jsx:49-63 | the field is stored, its error cleared, and every other error unchanged |
| RequestForm.HelpRequestForm.HandleLocationSelect | src/components/HelpRequestForm.jsx:65-80 | the location is stored, its error cleared, and every other error unchanged |
| RequestForm.HelpRequestForm.ValidateForm | src/components/HelpRequestForm.jsx:86-115 | the stored errors are the validation record, and the answer is true exactly when it is empty |
| RequestForm.HelpRequestForm.HandleSubmit | src/components/HelpRequestForm.jsx:117-150 | an invalid form changes neither form nor store; a valid one resets the form and leaves user and filters; with `onSubmit` the store is untouched, otherwise `addHelpRequest` appends the open request and the success notification |
| FilterPanel.WithFilter | src/components/FilterSystem.jsx:37 | the chosen key takes the value and every other key, the location included, keeps its own |
| FilterPanel.FullPatchReplaces | src/components/FilterSystem.jsx:37-38 | merging a complete filter record replaces the filters by it |
| FilterPanel.GetActiveFilterCount | src/components/FilterSystem.jsx:64-71 | the count is at most 4 and positive only when a filter is active; the two tests disagree only on an empty-string location |
| FilterPanel.HandleFilterChange | src/components/FilterSystem.jsx:36-42 | only the filters change, by one key |
| FilterPanel.ClearAllFilters | src/components/FilterSystem.jsx:44-55 | the filters are the defaults, after which no filter is active by either test |
| FilterPanel.CountMatchesActive | src/components/FilterSystem.jsx:57-71 | without an empty-string location, a positive count and the active test agree both ways |
| RequestCard.FormatTimeAgo | src/components/HelpRequestCard.jsx:85-98 | "Just now" below a minute (future dates included), then whole minutes, hours or days, each the floor of the elapsed time by its unit |
| RequestCard.TruncateText | src/components/HelpRequestCard.jsx:100-103 | a text that fits is kept; a longer one becomes its first `maxLength` characters and "...", `maxLength + 3` long |
| RequestCard.TruncateIdempotent | src/components/HelpRequestCard.jsx:100-103 | the result is at most `maxLength + 3` long, and truncating again changes nothing |
| RequestCard.IndexOfChar | src/components/HelpRequestCard.jsx:139 | the position of the first occurrence, or -1 exactly when there is none |
| RequestCard.ReplaceFirst | src/components/HelpRequestCard.jsx:139 | only the first occurrence is replaced |
| RequestCard.StatusLabel | src/components/HelpRequestCard.jsx:139 | the status label keeps the length, and its first character is the upper-cased first character of the status, a leading underscore read as a space |
| RequestCard.StatusLabelChanges | src/components/HelpRequestCard.jsx:139 | the label differs from the status only at the first character, which is upper-cased, and at the first underscore, which becomes a space |
| RequestCard.VolunteerButtonOnOpenOnly | src/components/HelpRequestCard.jsx:176 | the button shows only for open requests, and always for a newly added one when buttons are enabled |
| RequestCard.VolunteerClick | src/components/HelpRequestCard.jsx:105-111 | the id is forwarded exactly when a handler is attached |
| MapMarkers.MarkerColour | src/components/InteractiveMap.jsx:16-23 | the table's colour for the four urgencies, the medium colour otherwise |
| MapMarkers.MarkerColoursDistinct | src/components/InteractiveMap.jsx:16-23 | the four urgencies get four different colours, and an unknown urgency gets the medium one |
| MapMarkers.MarkerLetter | src/components/InteractiveMap.jsx:39 | `!` exactly for critical, `H` exactly for high, `M` exactly for medium, and `L` exactly for anything else |
| MapMarkers.FormatTimeAgo | src/components/InteractiveMap.jsx:174-182 | "Just now" below an hour (future dates included), then whole hours or days; never minutes |
| MapMarkers.PopupAgreesWithCard | src/components/InteractiveMap.jsx:174-182 | from one hour on the popup and the card show the same relative time; below it the popup says "Just now" |
| Profile.GetUserStats | src/pages/Profile.jsx:58-69 | the created count is the number of requests with the user's name; the volunteered count is the number of requests holding the user's id as a volunteer; completed counts the user's completed requests and is at most created; every count is at most the number of requests |
| Profile.StatsCountTheUsersRequests | src/pages/Profile.jsx:59-62 | exactly the user's own requests are counted as created, and exactly those holding the user's id as volunteered for |
| Profile.VolunteeringIsCounted | src/pages/Profile.jsx:60-62 | after volunteering, the request is counted as volunteered for |
| Profile.Recent | src/pages/Profile.jsx:255-257 | the first three matching requests, in store order |
| Profile.RecentCreatedAreOwn | src/pages/Profile.jsx:255-257 | the recent list holds only the user's own requests, all of them when there are at most three |
| Profile.EditFormFor | src/pages/Profile.jsx:20-24 | the form copies name and email; the role falls back to `volunteer` |
| Profile.HandleCancel | src/pages/Profile.jsx:49-56 | the form is refilled from the user and edit mode is left |
| Profile.CancelDiscardsEdits | src/pages/Profile.jsx:32-56 | cancelling forgets every input change made before it |
| Home.ToggleView | src/pages/Home.jsx:56 | the toggle always changes the view |
| Home.ToggleTwice | src/pages/Home.jsx:56 | toggling twice restores the view |
| Home.StatsAfterAdd | src/pages/Home.jsx:27-34 | adding a request adds one to total and open, one to critical when it is critical, and leaves volunteers |
| Home.StatsAfterVolunteer | src/pages/Home.jsx:27-34 | volunteering changes only the volunteer total, by the number of requests with the id |
| RequestDetails.ViewFor | src/pages/RequestDetails.jsx:34-47 | the not-found view exactly when no request has the id, otherwise the first request with it |
| RequestDetails.ActionPanelFor | src/pages/RequestDetails.jsx:267-295 | the button exactly for an open request the user does not volunteer for; the thank-you exactly when the user volunteers; the closed message otherwise; never the thank-you when signed out |
| RequestDetails.DetailsVolunteer | src/pages/RequestDetails.jsx:123-128 | the entry copies id, name and role; the contact is the email, or a fixed text when it is empty |
| RequestDetails.VolunteeringShowsThankYou | src/pages/RequestDetails.jsx:130-142 | after a signed-in user volunteers, the page shows the request with the thank-you panel |
| RequestDetails.HandleVolunteer | src/pages/RequestDetails.jsx:110-139 | signed out: a warning and no request change; signed in: the user is appended as a volunteer and the success notification is added |
| MockRequestList.FilteredRequests | src/components/help-requests-list.tsx:111-115 | the result holds exactly the requests matching each filter that is not `all` |
| MockRequestList.FilteredRequestsKeepOrder | src/components/help-requests-list.tsx:111-115 | the result keeps list order, and is the whole list when both filters are `all` |
| MockRequestList.GetCategoryLabel | src/components/help-requests-list.tsx:127-143 | an unknown category is shown as it is; a known one gets a different, non-empty label |
| MockRequestList.VolunteersLabel | src/components/help-requests-list.tsx:214 | the label ends in "s" exactly when the count is not 1 |
| Accessibility.IncreasedSize | src/components/accessibility-features.tsx:60-64 | `min(size + 2, 24)` |
| Accessibility.DecreasedSize | src/components/accessibility-features.tsx:66-70 | `max(size - 2, 12)` |
| Accessibility.DisabledExactlyAtBounds | src/components/accessibility-features.tsx:134-152 | on a reachable size each button is disabled exactly at its bound, which is exactly when its click changes nothing |
| Accessibility.StepsUndoEachOther | src/components/accessibility-features.tsx:60-70 | away from the bounds, one step down undoes one step up and the other way round |
| Accessibility.ZoomKeepsReachable | src/components/accessibility-features.tsx:60-70 | one click keeps the size even and within [12, 24] |
| Accessibility.ZoomsStayReachable | src/components/accessibility-features.tsx:32-70 | from 16, any sequence of clicks keeps the size even and within [12, 24] |
| Accessibility.AccessibilityPanel.constructor | src/components/accessibility-features.tsx:28-33 | every flag off and size 16 |
| Accessibility.AccessibilityPanel.ToggleHighContrast | src/components/accessibility-features.tsx:35-38 | flips this flag only |
| Accessibility.AccessibilityPanel.ToggleLargeText | src/components/accessibility-features.tsx:40-43 | flips this flag only |
| Accessibility.AccessibilityPanel.ToggleDarkMode | src/components/accessibility-features.tsx:45-48 | flips this flag only |
| Accessibility.AccessibilityPanel.ToggleScreenReader | src/components/accessibility-features.tsx:50-53 | flips this flag only |
| Accessibility.AccessibilityPanel.ToggleReduceMotion | src/components/accessibility-features.tsx:55-58 | flips this flag only |
| Accessibility.AccessibilityPanel.IncreaseFontSize | src/components/accessibility-features.tsx:60-64 | the size becomes `min(size + 2, 24)`, stays reachable, and the flags stay |
| Accessibility.AccessibilityPanel.DecreaseFontSize | src/components/accessibility-features.tsx:66-70 | the size becomes `max(size - 2, 12)`, stays reachable, and the flags stay |
| Accessibility.AccessibilityPanel.ResetSettings | src/components/accessibility-features.tsx:72-82 | every flag off and size 16 |
| UserRoles.FilteredUsers | src/components/user-role-manager.tsx:121 | the result holds exactly the users of the selected role |
| UserRoles.FilteredUsersKeepOrder | src/components/user-role-manager.tsx:121 | the users of a role keep list order |
| UserRoles.RolesPartitionUsers | src/components/user-role-manager.tsx:121 | the three role lists together are exactly as long as the user list |
| UserRoles.InitialTabListsVolunteers | src/components/user-role-manager.tsx:42-84 | on first render the two volunteers are listed, in order |
| UserRoles.Split | src/components/user-role-manager.tsx:310 | `split` gives at least one piece, and no piece holds the separator |
| UserRoles.JoinSplit | src/components/user-role-manager.tsx:310 | joining the pieces back gives the name |
| UserRoles.NonEmptyWords | src/components/user-role-manager.tsx:310 | the kept words are non-empty words of the input |
| UserRoles.FirstLettersOfNonEmptyWords | src/components/user-role-manager.tsx:310 | one letter per non-empty word, that word's first character |
| UserRoles.AvatarInitialsOfWords | src/components/user-role-manager.tsx:310 | the initials are the first characters of the non-empty space-separated words, and hold no space |
| UserRoles.RoleLabelsDistinct | src/components/user-role-manager.tsx:102-108 | the three roles have three different labels |

## Left out

- Rendering, styling, icons, routing and navigation (`navigate('/login')`, links) are not modelled. Only the values and decisions the components compute are.
- Floating point is not modelled:
  - Latitude and longitude are left out, and so is the `toFixed(4)` address a picked map point receives; the form stores the picked location as given.
  - `formatNumber` digits (`toFixed(1)`) are not produced; only which branch applies is.
- Statistics.RoundDiv: rates and the average are rounded exactly on rationals. JavaScript can round differently at an exact .5 because of binary floating point: 29/200×100 evaluates just below 14.5.
- Statistics.CategoryStats: a category named like an inherited object property is not modelled. For `constructor` the source adds 1 to the inherited function and stores a string; for `__proto__` the assignment of a number is ignored and nothing is stored. The model tallies every category string as an ordinary key.
- Statistics.CalculateStatistics: timestamps are integers, so a missing or malformed `createdAt` cannot be written. In the source such a record becomes an Invalid Date, and every comparison with it is false. It then counts in the total and in no time window and no histogram day.
- Statistics.DailyRequests: a day label (`'MMM dd'`) is represented by the day's start timestamp. Locale formatting and daylight-saving shifts of `setDate`/`setHours` are not modelled; a local day is a fixed window shifted by the `tz` offset.
- File, network and process I/O are not modelled:
  - the data file's reads and writes;
  - Express middleware, static serving and `listen`;
  - the root status route.
- Generated identifiers (`uuidv4`) and the clock are parameters.
- Timers and storage are not modelled:
  - the five-second auto-removal of notifications (only its effect is stated, by `AppState.AddThenRemoveNotification`);
  - persisting the user to `localStorage`, and reloading it.
- BackendServer.NewRequest: a field missing from the request body is stored as an empty value instead of being absent.
- MockRequestList.FilteredRequests: the demonstration records keep only id, category, urgency, status and the volunteer count. Title, description, address, time text, requester and distance are display text only.
- UserRoles.FilteredUsers: a role-manager user keeps id, name, email and role. Phone, address, join date and the verified badge are display only; so are role icons, colours and descriptions.
- RequestList.FilteredRequests requires every kept record to carry one of the four known urgencies. For any other urgency the comparator returns NaN and the order is unspecified.
- RequestList.SortRequests: the model inserts each element before the later elements it ties with. That keeps ties in input order, as the stable library sort does, but stability is not stated as a property.
- RequestList.HandleVolunteer: calling the optional `onVolunteer` callback is not modelled.
- RequestDetails.HandleVolunteer: three pieces are not modelled:
  - the `isVolunteering` spinner flag;
  - the `try`/`catch` error notification (nothing inside it can throw in the model);
  - the redirect to the login page.
- DataStore.Store: each operation is modelled as one atomic step. In the source each is an asynchronous read of the data file, a change and a write back. Two overlapping calls can read the same file contents, and the later write then loses the earlier call's change. The model does not capture that interleaving.
- RequestForm.HelpRequestForm.HandleSubmit: four pieces are not modelled:
  - the `isSubmitting` flag;
  - a failure of the caller's `onSubmit` and its error notification;
  - the optional `initialData` of the form;
  - the effect that refills name and contact when the user changes.
- `Profile.handleSave` is not modelled. It dispatches SET_USER with the edit form, which `AppState.AppStore.SetUser` covers, and then adds a notification.
- The location filter's text input is disabled in the panel, so nothing sets a location filter from it. The select options and their labels are display only.
- MapMarkers.MarkerColour: an urgency that names an inherited object property (such as `constructor`) would look up a function instead of a colour. This is not modelled; every unknown string gets the medium colour.
- Common.ToLower: lower-casing and upper-casing are ASCII-only.
- Lengths and indices count Unicode code points, not UTF-16 code units. This affects `substr`, `length`, `n[0]` and `charAt` on characters outside the Basic Multilingual Plane.
- Chart geometry, the map library, the mock login page, the toast list, the static dashboards and the timer-simulated form are presentation-only files and are not part of this model.
- Accessibility.AccessibilityPanel: the DOM effects are not modelled. These are the class toggles on the document element and its root font size.

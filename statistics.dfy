/** The dashboard's statistics summary over the help-request collection:
    status, urgency and category breakdowns, volunteer totals, rounded rates,
    the "last 7 / 30 days" counters and the seven-day histogram; plus the
    trend percentage and the number-scale choice used to display figures.

    Time is an integer number of milliseconds. The current time `now` and the
    timezone offset `tz` (local time = timestamp + tz) are parameters. A local
    day is a fixed window of `DayMs` milliseconds. */
module Statistics {
  import opened Common


  // ---------------------------------------------------------------------
  // Date helpers on integer time
  // ---------------------------------------------------------------------

  /** `subDays(t, days)`. */
  function SubDays(t: int, days: int): int
  {
    t - days * DayMs
  }

  /** `startOfDay(t)`: the latest local midnight at or before `t`. */
  function StartOfDay(t: int, tz: int): (r: int)
    ensures r <= t < r + DayMs
    ensures (r + tz) % DayMs == 0
  {
    var x := t + tz;
    assert x - x % DayMs == DayMs * (x / DayMs);
    t - x % DayMs
  }

  /** `endOfDay(t)`: the last millisecond (23:59:59.999) of the local day of `t`. */
  function EndOfDay(t: int, tz: int): (r: int)
    ensures t <= r < t + DayMs
    ensures r == StartOfDay(t, tz) + DayMs - 1
  {
    StartOfDay(t, tz) + DayMs - 1
  }

  /** A local midnight is determined by any instant of its day. */
  lemma StartOfDayUnique(t: int, tz: int, r: int)
    requires r <= t < r + DayMs && (r + tz) % DayMs == 0
    ensures r == StartOfDay(t, tz)
  {
    var s := StartOfDay(t, tz);
    var a, b := (r + tz) / DayMs, (s + tz) / DayMs;
    assert r + tz == DayMs * a;
    assert s + tz == DayMs * b;
    assert r - s == DayMs * (a - b);
  }

  /** Going back `i` whole days moves the local midnight back by `i` days. */
  lemma StartOfDayShift(t: int, tz: int, i: int)
    ensures StartOfDay(SubDays(t, i), tz) == StartOfDay(t, tz) - i * DayMs
  {
    var s := StartOfDay(t, tz);
    var r := s - i * DayMs;
    var b := (s + tz) / DayMs;
    assert s + tz == DayMs * b;
    assert r + tz == DayMs * (b - i);
    StartOfDayUnique(SubDays(t, i), tz, r);
  }

  // ---------------------------------------------------------------------
  // Time-window counts
  // ---------------------------------------------------------------------

  /** `requests.filter(r => new Date(r.createdAt) >= lo).length`. */
  function CountSince(rs: seq<HelpRequest>, lo: int): (n: nat)
    ensures n <= |rs|
  {
    if rs == [] then 0
    else CountSince(rs[..|rs| - 1], lo) + (if rs[|rs| - 1].createdAt >= lo then 1 else 0)
  }

  /** The number of requests created within `[lo, hi]` (`isWithinInterval`). */
  function CountBetween(rs: seq<HelpRequest>, lo: int, hi: int): (n: nat)
    ensures n <= |rs|
  {
    if rs == [] then 0
    else CountBetween(rs[..|rs| - 1], lo, hi) + (if lo <= rs[|rs| - 1].createdAt <= hi then 1 else 0)
  }

  lemma {:induction false} CountBetweenEmpty(rs: seq<HelpRequest>, lo: int, hi: int)
    requires hi < lo
    ensures CountBetween(rs, lo, hi) == 0
  {
    if rs != [] {
      CountBetweenEmpty(rs[..|rs| - 1], lo, hi);
    }
  }

  /** Two adjacent windows count what their union counts. */
  lemma {:induction false} CountBetweenSplit(rs: seq<HelpRequest>, a: int, b: int, c: int)
    requires a <= b <= c + 1
    ensures CountBetween(rs, a, b - 1) + CountBetween(rs, b, c) == CountBetween(rs, a, c)
  {
    if rs != [] {
      CountBetweenSplit(rs[..|rs| - 1], a, b, c);
    }
  }

  /** A bounded window counts no more than the open window with an earlier start. */
  lemma {:induction false} CountBetweenBelowSince(rs: seq<HelpRequest>, lo: int, hi: int, since: int)
    requires since <= lo
    ensures CountBetween(rs, lo, hi) <= CountSince(rs, since)
  {
    if rs != [] {
      CountBetweenBelowSince(rs[..|rs| - 1], lo, hi, since);
    }
  }

  /** An earlier start never counts fewer requests. */
  lemma {:induction false} CountSinceAntitone(rs: seq<HelpRequest>, early: int, late: int)
    requires early <= late
    ensures CountSince(rs, late) <= CountSince(rs, early)
  {
    if rs != [] {
      CountSinceAntitone(rs[..|rs| - 1], early, late);
    }
  }

  // ---------------------------------------------------------------------
  // The seven-day histogram
  // ---------------------------------------------------------------------

  /** One histogram entry. `day` is the local midnight of the day and stands
      for the day's display label. */
  datatype DailyCount = DailyCount(day: int, count: nat)

  /** The entry for the day `i` days before `now`. */
  function DayBucket(rs: seq<HelpRequest>, now: int, tz: int, i: int): DailyCount
  {
    var date := SubDays(now, i);
    DailyCount(StartOfDay(date, tz), CountBetween(rs, StartOfDay(date, tz), EndOfDay(date, tz)))
  }

  /** The histogram: seven entries, oldest first, the last for the day of `now`. */
  function DailySpec(rs: seq<HelpRequest>, now: int, tz: int): seq<DailyCount>
  {
    seq(7, k requires 0 <= k < 7 => DayBucket(rs, now, tz, 6 - k))
  }

  /** The loop `for (let i = 6; i >= 0; i--)` that pushes one entry per day. */
  method DailyRequests(rs: seq<HelpRequest>, now: int, tz: int) returns (daily: seq<DailyCount>)
    ensures daily == DailySpec(rs, now, tz)
  {
    daily := [];
    var i := 6;
    while i >= 0
      invariant -1 <= i <= 6
      invariant |daily| == 6 - i
      invariant forall k :: 0 <= k < |daily| ==> daily[k] == DayBucket(rs, now, tz, 6 - k)
    {
      var date := SubDays(now, i);
      var dayStart := StartOfDay(date, tz);
      var dayEnd := EndOfDay(date, tz);
      var count := CountBetween(rs, dayStart, dayEnd);
      daily := daily + [DailyCount(dayStart, count)];
      i := i - 1;
    }
  }

  function SumDaily(d: seq<DailyCount>): nat
  {
    if d == [] then 0 else SumDaily(d[..|d| - 1]) + d[|d| - 1].count
  }

  /** The histogram has seven consecutive, disjoint day windows, oldest first,
      the last one containing `now`; each entry counts its own window. */
  lemma DailyShape(rs: seq<HelpRequest>, now: int, tz: int)
    ensures var d := DailySpec(rs, now, tz);
      && |d| == 7
      && d[6].day <= now < d[6].day + DayMs
      && (forall k :: 0 <= k < 6 ==> d[k + 1].day == d[k].day + DayMs)
      && (forall k :: 0 <= k < 7 ==> d[k].count == CountBetween(rs, d[k].day, d[k].day + DayMs - 1))
      && (forall k :: 0 <= k < 7 ==> d[k].day == StartOfDay(now, tz) - (6 - k) * DayMs)
  {
    var d := DailySpec(rs, now, tz);
    forall k | 0 <= k < 7 ensures d[k].day == StartOfDay(now, tz) - (6 - k) * DayMs {
      StartOfDayShift(now, tz, 6 - k);
    }
    assert SubDays(now, 0) == now;
  }

  /** The first `n` entries together count the requests of their `n` days. */
  lemma {:induction false} DailyPrefixSum(rs: seq<HelpRequest>, now: int, tz: int, n: nat)
    requires n <= 7
    ensures var first := StartOfDay(now, tz) - 6 * DayMs;
      SumDaily(DailySpec(rs, now, tz)[..n]) == CountBetween(rs, first, first + n * DayMs - 1)
  {
    var first := StartOfDay(now, tz) - 6 * DayMs;
    var d := DailySpec(rs, now, tz);
    if n == 0 {
      CountBetweenEmpty(rs, first, first - 1);
    } else {
      DailyPrefixSum(rs, now, tz, n - 1);
      DailyShape(rs, now, tz);
      assert d[..n][..n - 1] == d[..n - 1];
      assert d[n - 1].day == first + (n - 1) * DayMs;
      CountBetweenSplit(rs, first, first + (n - 1) * DayMs, first + n * DayMs - 1);
    }
  }

  // ---------------------------------------------------------------------
  // Category breakdown: a JS object whose keys appear in first-seen order
  // ---------------------------------------------------------------------

  function Keys(m: seq<(string, nat)>): (ks: seq<string>)
    ensures |ks| == |m|
  {
    seq(|m|, i requires 0 <= i < |m| => m[i].0)
  }

  function SumValues(m: seq<(string, nat)>): nat
  {
    if m == [] then 0 else m[0].1 + SumValues(m[1..])
  }

  /** `acc[c] = (acc[c] || 0) + 1` on an insertion-ordered object. */
  function Bump(acc: seq<(string, nat)>, c: string): seq<(string, nat)>
  {
    if acc == [] then [(c, 1)]
    else if acc[0].0 == c then [(c, acc[0].1 + 1)] + acc[1..]
    else [acc[0]] + Bump(acc[1..], c)
  }

  lemma DistinctKeysTail(acc: seq<(string, nat)>)
    requires acc != [] && Distinct(Keys(acc))
    ensures Keys(acc) == [acc[0].0] + Keys(acc[1..])
    ensures Distinct(Keys(acc[1..]))
    ensures acc[0].0 !in Keys(acc[1..])
  {
    var k, t := Keys(acc), Keys(acc[1..]);
    assert k == [acc[0].0] + t;
    forall i, j | 0 <= i < j < |t| ensures t[i] != t[j] {
      assert t[i] == k[i + 1] && t[j] == k[j + 1];
    }
    forall i | 0 <= i < |t| ensures t[i] != acc[0].0 {
      assert t[i] == k[i + 1] && acc[0].0 == k[0];
    }
  }

  lemma KeysCons(x: (string, nat), m: seq<(string, nat)>)
    ensures Keys([x] + m) == [x.0] + Keys(m)
  {
  }

  /** Bumping `c` keeps every key in place and appends `c` when it is new. */
  lemma {:induction false} BumpKeys(acc: seq<(string, nat)>, c: string)
    ensures Keys(Bump(acc, c)) == if c in Keys(acc) then Keys(acc) else Keys(acc) + [c]
  {
    if acc == [] {
      KeysCons((c, 1), []);
    } else {
      var t := Keys(acc[1..]);
      KeysCons(acc[0], acc[1..]);
      assert acc == [acc[0]] + acc[1..];
      if acc[0].0 == c {
        KeysCons((c, acc[0].1 + 1), acc[1..]);
      } else {
        BumpKeys(acc[1..], c);
        KeysCons(acc[0], Bump(acc[1..], c));
        assert c in Keys(acc) <==> c in t;
        if c !in t {
          assert [acc[0].0] + (t + [c]) == ([acc[0].0] + t) + [c];
        }
      }
    }
  }

  /** Bumping adds exactly one to the sum of the values. */
  lemma {:induction false} BumpSum(acc: seq<(string, nat)>, c: string)
    ensures SumValues(Bump(acc, c)) == SumValues(acc) + 1
  {
    if acc != [] && acc[0].0 != c {
      BumpSum(acc[1..], c);
      assert Bump(acc, c)[1..] == Bump(acc[1..], c);
    } else if acc != [] {
      assert Bump(acc, c)[1..] == acc[1..];
    }
  }

  /** On an object with distinct keys, bumping `c` adds one to the value for
      `c` only, and a new key `c` gets the value 1. */
  lemma {:induction false} BumpValues(acc: seq<(string, nat)>, c: string)
    requires Distinct(Keys(acc))
    ensures |Bump(acc, c)| >= |acc|
    ensures forall i :: 0 <= i < |acc| ==> Bump(acc, c)[i].1 == acc[i].1 + (if acc[i].0 == c then 1 else 0)
    ensures c !in Keys(acc) ==> |Bump(acc, c)| == |acc| + 1 && Bump(acc, c)[|acc|].1 == 1
  {
    var r := Bump(acc, c);
    if acc != [] {
      DistinctKeysTail(acc);
      if acc[0].0 != c {
        BumpValues(acc[1..], c);
        var rest := Bump(acc[1..], c);
        assert r == [acc[0]] + rest;
        assert forall i :: 1 <= i < |acc| ==> r[i] == rest[i - 1] && acc[i] == acc[1..][i - 1];
        if c !in Keys(acc) {
          assert r[|acc|] == rest[|acc| - 1];
        }
      } else {
        assert forall i :: 1 <= i < |acc| ==> acc[i].0 == Keys(acc[1..])[i - 1];
      }
    }
  }

  lemma {:induction false} CountKeyAbsent(rs: seq<HelpRequest>, c: string)
    requires forall i :: 0 <= i < |rs| ==> rs[i].category != c
    ensures CountKey(rs, CategoryOf, c) == 0
  {
    if rs != [] {
      CountKeyAbsent(rs[..|rs| - 1], c);
    }
  }

  /** Some request in `rs` has category `c`. */
  predicate HasCategory(rs: seq<HelpRequest>, c: string)
  {
    exists i :: 0 <= i < |rs| && rs[i].category == c
  }

  /** `m` tallies the categories of `rs`: its keys are exactly the categories
      present, each once, each with its number of requests (at least one),
      and the values add up to the number of requests. */
  ghost predicate Tallies(rs: seq<HelpRequest>, m: seq<(string, nat)>)
  {
    && Distinct(Keys(m))
    && SumValues(m) == |rs|
    && (forall c :: c in Keys(m) <==> HasCategory(rs, c))
    && (forall i :: 0 <= i < |m| ==> m[i].1 == CountKey(rs, CategoryOf, m[i].0) && m[i].1 >= 1)
  }

  /** One `reduce` step keeps every tallied value equal to its count. */
  lemma BumpCounts(prefix: seq<HelpRequest>, last: HelpRequest, acc: seq<(string, nat)>)
    requires Tallies(prefix, acc)
    ensures var m := Bump(acc, last.category);
      forall i :: 0 <= i < |m| ==> m[i].1 == CountKey(prefix + [last], CategoryOf, m[i].0) && m[i].1 >= 1
  {
    var rs := prefix + [last];
    var c := last.category;
    var m := Bump(acc, c);
    BumpKeys(acc, c);
    BumpValues(acc, c);
    assert rs[..|rs| - 1] == prefix;
    assert rs[|rs| - 1] == last;
    if c !in Keys(acc) {
      assert !HasCategory(prefix, c);
      assert forall i :: 0 <= i < |prefix| ==> prefix[i].category != c;
      CountKeyAbsent(prefix, c);
      assert m[|acc|].0 == Keys(m)[|acc|] == c;
    }
    forall i | 0 <= i < |m| ensures m[i].1 == CountKey(rs, CategoryOf, m[i].0) && m[i].1 >= 1 {
      if i < |acc| {
        assert m[i].0 == acc[i].0 by {
          assert Keys(m)[i] == Keys(acc)[i];
        }
        assert m[i].1 == acc[i].1 + (if acc[i].0 == c then 1 else 0);
        assert CountKey(rs, CategoryOf, acc[i].0) == CountKey(prefix, CategoryOf, acc[i].0) + (if acc[i].0 == c then 1 else 0);
      }
    }
  }

  /** One `reduce` step keeps the tally exact. */
  lemma BumpTallies(prefix: seq<HelpRequest>, last: HelpRequest, acc: seq<(string, nat)>)
    requires Tallies(prefix, acc)
    ensures Tallies(prefix + [last], Bump(acc, last.category))
  {
    var c := last.category;
    BumpKeys(acc, c);
    BumpSum(acc, c);
    HasCategoryAppend(prefix, last);
    if c !in Keys(acc) {
      BumpDistinctNew(acc, c);
    }
    BumpCounts(prefix, last, acc);
  }

  lemma BumpDistinctNew(acc: seq<(string, nat)>, c: string)
    requires Distinct(Keys(acc)) && c !in Keys(acc)
    ensures Distinct(Keys(acc) + [c])
  {
  }

  lemma HasCategoryAppend(prefix: seq<HelpRequest>, last: HelpRequest)
    ensures forall c :: HasCategory(prefix + [last], c) <==> HasCategory(prefix, c) || c == last.category
  {
    var rs := prefix + [last];
    forall c ensures HasCategory(rs, c) <==> HasCategory(prefix, c) || c == last.category {
      if HasCategory(rs, c) {
        var i :| 0 <= i < |rs| && rs[i].category == c;
        if i < |prefix| {
          assert prefix[i] == rs[i];
        }
      }
      if HasCategory(prefix, c) {
        var i :| 0 <= i < |prefix| && prefix[i].category == c;
        assert rs[i] == prefix[i];
      }
      assert rs[|rs| - 1] == last;
    }
  }

  /** The `reduce` that builds `categoryStats`. Its keys are exactly the
      categories present, each once, each with its number of requests, and
      the values add up to the number of requests. */
  function CategoryStats(rs: seq<HelpRequest>): (m: seq<(string, nat)>)
    ensures Distinct(Keys(m))
    ensures SumValues(m) == |rs|
    ensures forall c :: c in Keys(m) <==> exists i :: 0 <= i < |rs| && rs[i].category == c
    ensures forall i :: 0 <= i < |m| ==> m[i].1 == CountKey(rs, CategoryOf, m[i].0) && m[i].1 >= 1
  {
    if rs == [] then []
    else
      var prefix := rs[..|rs| - 1];
      var acc := CategoryStats(prefix);
      assert Tallies(prefix, acc);
      assert rs == prefix + [rs[|rs| - 1]];
      BumpTallies(prefix, rs[|rs| - 1], acc);
      Bump(acc, rs[|rs| - 1].category)
  }

  // ---------------------------------------------------------------------
  // Math.round on exact quotients
  // ---------------------------------------------------------------------

  /** For a positive divisor, `floor((2n + d) / 2d)` is within half of `n / d`. */
  lemma RoundBounds(n: int, d: int)
    requires d > 0
    ensures var q := (2 * n + d) / (2 * d);
      (2 * q - 1) * d <= 2 * n < (2 * q + 1) * d
  {
    var q := (2 * n + d) / (2 * d);
    var r := (2 * n + d) % (2 * d);
    assert 2 * n + d == (2 * d) * q + r;
    assert (2 * d) * q == 2 * (d * q);
    assert (2 * q - 1) * d == 2 * (d * q) - d;
    assert (2 * q + 1) * d == 2 * (d * q) + d;
  }

  /** `Math.round(n / d)` = floor(n / d + 1/2), computed exactly. */
  function RoundDiv(n: int, d: int): (r: int)
    requires d != 0
    ensures d > 0 ==> (2 * r - 1) * d <= 2 * n < (2 * r + 1) * d
    ensures d < 0 ==> (2 * r + 1) * d < 2 * n <= (2 * r - 1) * d
  {
    if d > 0 then
      RoundBounds(n, d);
      (2 * n + d) / (2 * d)
    else
      var q := (-2 * n - d) / (-2 * d);
      RoundBounds(-n, -d);
      assert (2 * q - 1) * (-d) == -((2 * q - 1) * d);
      assert (2 * q + 1) * (-d) == -((2 * q + 1) * d);
      q
  }

  lemma MulLeft(a: int, b: int, d: int)
    requires d > 0 && a < b
    ensures a * d < b * d
  {
    assert b * d - a * d == (b - a) * d;
  }

  /** A rounded percentage of a part of a whole lies in [0, 100]. */
  lemma PercentInRange(part: nat, total: nat)
    requires 0 < total && part <= total
    ensures 0 <= RoundDiv(100 * part, total) <= 100
  {
    var r := RoundDiv(100 * part, total);
    if r > 100 {
      MulLeft(201, 2 * r - 1, total);
    }
    if r < 0 {
      MulLeft(2 * r + 1, 0, total);
    }
  }

  // ---------------------------------------------------------------------
  // The summary
  // ---------------------------------------------------------------------

  /** `avgVolunteersTenths` is ten times the displayed one-decimal average. */
  datatype Overview = Overview(
    totalRequests: nat,
    openRequests: nat,
    inProgressRequests: nat,
    completedRequests: nat,
    totalVolunteers: nat,
    responseRate: int,
    completionRate: int,
    avgVolunteersTenths: int)

  datatype UrgencyStats = UrgencyStats(critical: nat, high: nat, medium: nat, low: nat)

  datatype StatusStats = StatusStats(open: nat, inProgress: nat, completed: nat)

  datatype TimeStats = TimeStats(requestsLast7Days: nat, requestsLast30Days: nat, dailyRequests: seq<DailyCount>)

  datatype Summary = Summary(
    overview: Overview,
    urgencyStats: UrgencyStats,
    categoryStats: seq<(string, nat)>,
    statusStats: StatusStats,
    timeStats: TimeStats)

  const StatusKeys: seq<string> := ["open", "in_progress", "completed"]
  const UrgencyKeys: seq<string> := ["critical", "high", "medium", "low"]

  /** `total > 0 ? Math.round(part / total * 100) : 0`. */
  function Rate(part: nat, total: nat): int
  {
    if total > 0 then RoundDiv(100 * part, total) else 0
  }

  /** The value `calculateStatistics` returns for `rs` at time `now`. */
  function Summarize(rs: seq<HelpRequest>, now: int, tz: int): Summary
  {
    var total := |rs|;
    var open := CountKey(rs, StatusOf, "open");
    var inProgress := CountKey(rs, StatusOf, "in_progress");
    var completed := CountKey(rs, StatusOf, "completed");
    var volunteers := SumVolunteers(rs);
    Summary(
      Overview(total, open, inProgress, completed, volunteers,
        Rate(CountWithVolunteers(rs), total),
        Rate(completed, total),
        if total > 0 then RoundDiv(10 * volunteers, total) else 0),
      UrgencyStats(
        CountKey(rs, UrgencyOf, "critical"), CountKey(rs, UrgencyOf, "high"),
        CountKey(rs, UrgencyOf, "medium"), CountKey(rs, UrgencyOf, "low")),
      CategoryStats(rs),
      StatusStats(open, inProgress, completed),
      TimeStats(CountSince(rs, SubDays(now, 7)), CountSince(rs, SubDays(now, 30)), DailySpec(rs, now, tz)))
  }

  /** `calculateStatistics(helpRequests)` with the clock reading `now`. */
  method CalculateStatistics(rs: seq<HelpRequest>, now: int, tz: int) returns (stats: Summary)
    ensures stats == Summarize(rs, now, tz)
  {
    var last7Days := SubDays(now, 7);
    var last30Days := SubDays(now, 30);
    var totalRequests := |rs|;
    var openRequests := CountKey(rs, StatusOf, "open");
    var inProgressRequests := CountKey(rs, StatusOf, "in_progress");
    var completedRequests := CountKey(rs, StatusOf, "completed");
    var totalVolunteers := SumVolunteers(rs);
    var urgencyStats := UrgencyStats(
      CountKey(rs, UrgencyOf, "critical"), CountKey(rs, UrgencyOf, "high"),
      CountKey(rs, UrgencyOf, "medium"), CountKey(rs, UrgencyOf, "low"));
    var categoryStats := CategoryStats(rs);
    var statusStats := StatusStats(openRequests, inProgressRequests, completedRequests);
    var requestsLast7Days := CountSince(rs, last7Days);
    var requestsLast30Days := CountSince(rs, last30Days);
    var dailyRequests := DailyRequests(rs, now, tz);
    var requestsWithVolunteers := CountWithVolunteers(rs);
    var responseRate := Rate(requestsWithVolunteers, totalRequests);
    var avgTenths := if totalRequests > 0 then RoundDiv(10 * totalVolunteers, totalRequests) else 0;
    var completionRate := Rate(completedRequests, totalRequests);
    stats := Summary(
      Overview(totalRequests, openRequests, inProgressRequests, completedRequests, totalVolunteers,
        responseRate, completionRate, avgTenths),
      urgencyStats, categoryStats, statusStats,
      TimeStats(requestsLast7Days, requestsLast30Days, dailyRequests));
  }

  /** The three status counts never exceed the total, and cover it exactly
      when every status is one of open, in_progress and completed;
      `statusStats` holds the same three counts. */
  lemma StatusCountsCoverTotal(rs: seq<HelpRequest>, now: int, tz: int)
    ensures var s := Summarize(rs, now, tz);
      && s.statusStats == StatusStats(s.overview.openRequests, s.overview.inProgressRequests, s.overview.completedRequests)
      && s.overview.openRequests + s.overview.inProgressRequests + s.overview.completedRequests <= s.overview.totalRequests
      && (s.overview.openRequests + s.overview.inProgressRequests + s.overview.completedRequests == s.overview.totalRequests
          <==> forall i :: 0 <= i < |rs| ==> rs[i].status in StatusKeys)
  {
    StatusSum(rs);
  }

  /** Three distinct keys: their counts add up to at most the length, and
      to the length exactly when every key is one of them. */
  lemma ThreeKeySum(rs: seq<HelpRequest>, key: HelpRequest -> string, a: string, b: string, c: string)
    requires a != b && a != c && b != c
    ensures var n := CountKey(rs, key, a) + CountKey(rs, key, b) + CountKey(rs, key, c);
      n <= |rs| && (n == |rs| <==> forall i :: 0 <= i < |rs| ==> key(rs[i]) in [a, b, c])
  {
    CountKeyInNone(rs, key);
    CountKeyInCons(rs, key, c, []);
    assert [c] + [] == [c];
    CountKeyInCons(rs, key, b, [c]);
    assert [b] + [c] == [b, c];
    CountKeyInCons(rs, key, a, [b, c]);
    assert [a] + [b, c] == [a, b, c];
  }

  lemma StatusSum(rs: seq<HelpRequest>)
    ensures var n := CountKey(rs, StatusOf, "open") + CountKey(rs, StatusOf, "in_progress") + CountKey(rs, StatusOf, "completed");
      n <= |rs| && (n == |rs| <==> forall i :: 0 <= i < |rs| ==> rs[i].status in StatusKeys)
  {
    ThreeKeySum(rs, StatusOf, "open", "in_progress", "completed");
  }

  /** The four urgency counts never exceed the total, and cover it exactly
      when every urgency is one of the four levels. */
  lemma UrgencyCountsCoverTotal(rs: seq<HelpRequest>, now: int, tz: int)
    ensures var u := Summarize(rs, now, tz).urgencyStats;
      && u.critical + u.high + u.medium + u.low <= |rs|
      && (u.critical + u.high + u.medium + u.low == |rs| <==> forall i :: 0 <= i < |rs| ==> rs[i].urgency in UrgencyKeys)
  {
    UrgencySum(rs);
  }

  /** Four distinct keys: their counts add up to at most the length, and
      to the length exactly when every key is one of them. */
  lemma FourKeySum(rs: seq<HelpRequest>, key: HelpRequest -> string, a: string, b: string, c: string, d: string)
    requires a != b && a != c && a != d && b != c && b != d && c != d
    ensures var n := CountKey(rs, key, a) + CountKey(rs, key, b) + CountKey(rs, key, c) + CountKey(rs, key, d);
      n <= |rs| && (n == |rs| <==> forall i :: 0 <= i < |rs| ==> key(rs[i]) in [a, b, c, d])
  {
    CountKeyInNone(rs, key);
    CountKeyInCons(rs, key, d, []);
    assert [d] + [] == [d];
    CountKeyInCons(rs, key, c, [d]);
    assert [c] + [d] == [c, d];
    CountKeyInCons(rs, key, b, [c, d]);
    assert [b] + [c, d] == [b, c, d];
    CountKeyInCons(rs, key, a, [b, c, d]);
    assert [a] + [b, c, d] == [a, b, c, d];
  }

  lemma UrgencySum(rs: seq<HelpRequest>)
    ensures var n := CountKey(rs, UrgencyOf, "critical") + CountKey(rs, UrgencyOf, "high")
        + CountKey(rs, UrgencyOf, "medium") + CountKey(rs, UrgencyOf, "low");
      n <= |rs| && (n == |rs| <==> forall i :: 0 <= i < |rs| ==> rs[i].urgency in UrgencyKeys)
  {
    FourKeySum(rs, UrgencyOf, "critical", "high", "medium", "low");
  }

  /** Response and completion rates lie in [0, 100]; with no requests they and
      the average are 0. With requests, the average is the mean number of
      volunteers rounded half up to one decimal. */
  lemma RatesInRange(rs: seq<HelpRequest>, now: int, tz: int)
    ensures var o := Summarize(rs, now, tz).overview;
      && 0 <= o.responseRate <= 100
      && 0 <= o.completionRate <= 100
      && (rs == [] ==> o.responseRate == 0 && o.completionRate == 0 && o.avgVolunteersTenths == 0)
      && (rs != [] ==> (2 * o.avgVolunteersTenths - 1) * |rs| <= 20 * o.totalVolunteers < (2 * o.avgVolunteersTenths + 1) * |rs|)
  {
    if rs != [] {
      PercentInRange(CountWithVolunteers(rs), |rs|);
      StatusCountsCoverTotal(rs, now, tz);
      PercentInRange(CountKey(rs, StatusOf, "completed"), |rs|);
    }
  }

  /** The 30-day window counts at least what the 7-day window counts, and the
      histogram's days together count no more than the 7-day window. */
  lemma RecentWindowsNested(rs: seq<HelpRequest>, now: int, tz: int)
    ensures var t := Summarize(rs, now, tz).timeStats;
      && t.requestsLast7Days <= t.requestsLast30Days
      && SumDaily(t.dailyRequests) <= t.requestsLast7Days
  {
    CountSinceAntitone(rs, SubDays(now, 30), SubDays(now, 7));
    var first := StartOfDay(now, tz) - 6 * DayMs;
    DailyPrefixSum(rs, now, tz, 7);
    assert DailySpec(rs, now, tz)[..7] == DailySpec(rs, now, tz);
    CountBetweenBelowSince(rs, first, first + 7 * DayMs - 1, SubDays(now, 7));
  }

  /** The windows have no upper bound: a request dated after `now` is counted
      in both the 7-day and the 30-day figures. */
  lemma FutureRequestCounted(rs: seq<HelpRequest>, r: HelpRequest, now: int, tz: int)
    requires r.createdAt > now
    ensures Summarize(rs + [r], now, tz).timeStats.requestsLast7Days == Summarize(rs, now, tz).timeStats.requestsLast7Days + 1
    ensures Summarize(rs + [r], now, tz).timeStats.requestsLast30Days == Summarize(rs, now, tz).timeStats.requestsLast30Days + 1
  {
    assert (rs + [r])[..|rs + [r]| - 1] == rs;
  }

  /** With no requests every figure is 0 and the histogram has seven empty days. */
  lemma EmptySummary(now: int, tz: int)
    ensures var s := Summarize([], now, tz);
      && s.overview == Overview(0, 0, 0, 0, 0, 0, 0, 0)
      && s.categoryStats == []
      && |s.timeStats.dailyRequests| == 7
      && forall k :: 0 <= k < 7 ==> s.timeStats.dailyRequests[k].count == 0
  {
  }

  /** A request dated between 30 and 7 days ago is counted in the totals and
      the 30-day window, but not in the 7-day window nor in any histogram day. */
  lemma OlderThanAWeek(r: HelpRequest, now: int, tz: int)
    requires SubDays(now, 30) <= r.createdAt < SubDays(now, 7)
    ensures var s := Summarize([r], now, tz);
      && s.overview.totalRequests == 1
      && s.timeStats.requestsLast30Days == 1
      && s.timeStats.requestsLast7Days == 0
      && forall k :: 0 <= k < 7 ==> s.timeStats.dailyRequests[k].count == 0
  {
    DailyShape([r], now, tz);
    assert [r][..0] == [];
  }

  // ---------------------------------------------------------------------
  // calculateTrend and formatNumber
  // ---------------------------------------------------------------------

  /** `calculateTrend(current, previous)`: the percent change rounded half up,
      with 100 (growth from nothing) or 0 when `previous` is 0. */
  function CalculateTrend(current: int, previous: int): (r: int)
    ensures previous == 0 ==> r == (if current > 0 then 100 else 0)
    ensures previous > 0 ==> (2 * r - 1) * previous <= 200 * (current - previous) < (2 * r + 1) * previous
    ensures previous < 0 ==> (2 * r + 1) * previous < 200 * (current - previous) <= (2 * r - 1) * previous
  {
    if previous == 0 then (if current > 0 then 100 else 0)
    else RoundDiv(100 * (current - previous), previous)
  }

  /** An unchanged positive figure has trend 0, and growth has a non-negative trend. */
  lemma TrendSign(current: int, previous: int)
    requires previous > 0
    ensures current == previous ==> CalculateTrend(current, previous) == 0
    ensures current >= previous ==> CalculateTrend(current, previous) >= 0
  {
    var r := CalculateTrend(current, previous);
    if r < 0 && current >= previous {
      MulLeft(2 * r + 1, 0, previous);
    }
    if current == previous && r > 0 {
      MulLeft(0, 2 * r - 1, previous);
    }
  }

  /** Which branch of `formatNumber` applies: millions, thousands or plain. */
  datatype Scale = Millions | Thousands | Units

  function FormatScale(num: int): (s: Scale)
    ensures s == Millions <==> num >= 1000000
    ensures s == Thousands <==> 1000 <= num < 1000000
    ensures s == Units <==> num < 1000
  {
    if num >= 1000000 then Millions else if num >= 1000 then Thousands else Units
  }

  function ScaleRank(s: Scale): nat
  {
    match s
    case Units => 0
    case Thousands => 1
    case Millions => 2
  }

  /** The suffix `formatNumber` appends. */
  function ScaleSuffix(s: Scale): string
  {
    match s
    case Millions => "M"
    case Thousands => "K"
    case Units => ""
  }

  /** A larger number never gets a smaller unit. */
  lemma FormatScaleMonotone(a: int, b: int)
    requires a <= b
    ensures ScaleRank(FormatScale(a)) <= ScaleRank(FormatScale(b))
  {
  }
}

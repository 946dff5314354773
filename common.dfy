/** Records shared by the client and the backend, and the sequence and string
    operations the application leans on: `filter`, `find`/`findIndex`,
    `filter(...).length` counts, `reduce` sums, `trim`, `toLowerCase`,
    `includes`, and number-to-text conversion. */
module Common {

  datatype Option<T> = None | Some(value: T)

  /** A map position. Only its human-readable address takes part in the logic
      modelled here; latitude and longitude are floating point and left out. */
  datatype Location = Location(address: string)

  datatype Requester = Requester(name: string, role: string)

  /** A volunteer entry of a help request. An empty `id` stands for a missing
      (null or undefined) identifier. `joinedAt` is set only by the backend's
      volunteer route. */
  datatype Volunteer = Volunteer(
    id: string,
    name: string,
    role: string,
    contactInfo: string,
    joinedAt: Option<int>)

  /** A help request as the client and the backend store it. `createdAt` is a
      timestamp in milliseconds since the epoch; `category`, `urgency` and
      `status` are the raw strings the records carry. */
  datatype HelpRequest = HelpRequest(
    id: string,
    title: string,
    description: string,
    category: string,
    urgency: string,
    status: string,
    location: Location,
    requester: Requester,
    volunteers: seq<Volunteer>,
    createdAt: int,
    contactInfo: string)

  // ---------------------------------------------------------------------
  // Object spread on records: `{...record, ...patch}`
  // ---------------------------------------------------------------------

  /** `{...base, ...patch}` for one field: a field the patch carries wins. */
  function Override<T>(base: T, patch: Option<T>): T
  {
    match patch
    case None => base
    case Some(v) => v
  }

  /** A partial request: an update payload or a request body, carrying any
      subset of a request's fields. */
  datatype RequestPatch = RequestPatch(
    id: Option<string>,
    title: Option<string>,
    description: Option<string>,
    category: Option<string>,
    urgency: Option<string>,
    status: Option<string>,
    location: Option<Location>,
    requester: Option<Requester>,
    volunteers: Option<seq<Volunteer>>,
    createdAt: Option<int>,
    contactInfo: Option<string>)

  const EmptyRequestPatch: RequestPatch :=
    RequestPatch(None, None, None, None, None, None, None, None, None, None, None)

  /** `{...request, ...patch}`. */
  function MergeRequest(r: HelpRequest, p: RequestPatch): HelpRequest
  {
    HelpRequest(Override(r.id, p.id), Override(r.title, p.title), Override(r.description, p.description),
      Override(r.category, p.category), Override(r.urgency, p.urgency), Override(r.status, p.status),
      Override(r.location, p.location), Override(r.requester, p.requester),
      Override(r.volunteers, p.volunteers), Override(r.createdAt, p.createdAt),
      Override(r.contactInfo, p.contactInfo))
  }

  /** Merging is idempotent, and merging an empty patch changes nothing. */
  lemma MergeRequestIdempotent(r: HelpRequest, p: RequestPatch)
    ensures MergeRequest(MergeRequest(r, p), p) == MergeRequest(r, p)
    ensures MergeRequest(r, EmptyRequestPatch) == r
  {
  }

  function StatusOf(r: HelpRequest): string { r.status }
  function UrgencyOf(r: HelpRequest): string { r.urgency }
  function CategoryOf(r: HelpRequest): string { r.category }
  function IdOf(r: HelpRequest): string { r.id }

  predicate Distinct<T(==)>(s: seq<T>)
  {
    forall i, j :: 0 <= i < j < |s| ==> s[i] != s[j]
  }

  // ---------------------------------------------------------------------
  // Array.prototype.filter and subsequences
  // ---------------------------------------------------------------------

  /** `s.filter(p)`: the elements satisfying `p`, in their original order. */
  function Filter<T(!new)>(s: seq<T>, p: T -> bool): (r: seq<T>)
    ensures |r| <= |s|
    ensures forall x :: x in r <==> x in s && p(x)
  {
    if s == [] then []
    else if p(s[0]) then [s[0]] + Filter(s[1..], p) else Filter(s[1..], p)
  }

  /** Filtering keeps every copy of an element that passes and no copy of one
      that fails. */
  lemma {:induction false} FilterMultiset<T(!new)>(s: seq<T>, p: T -> bool)
    ensures forall x :: multiset(Filter(s, p))[x] == if p(x) then multiset(s)[x] else 0
  {
    if s != [] {
      FilterMultiset(s[1..], p);
      assert s == [s[0]] + s[1..];
    }
  }

  /** `r` can be obtained from `s` by deleting elements, keeping the order. */
  ghost predicate IsSubsequence<T>(r: seq<T>, s: seq<T>)
    decreases |s|
  {
    r == [] || (s != [] && ((r[0] == s[0] && IsSubsequence(r[1..], s[1..])) || IsSubsequence(r, s[1..])))
  }

  lemma {:induction false} FilterIsSubsequence<T(!new)>(s: seq<T>, p: T -> bool)
    ensures IsSubsequence(Filter(s, p), s)
  {
    if s != [] {
      FilterIsSubsequence(s[1..], p);
      if p(s[0]) {
        assert Filter(s, p)[1..] == Filter(s[1..], p);
      }
    }
  }

  lemma {:induction false} FilterKeepsAll<T(!new)>(s: seq<T>, p: T -> bool)
    requires forall i :: 0 <= i < |s| ==> p(s[i])
    ensures Filter(s, p) == s
  {
    if s != [] {
      FilterKeepsAll(s[1..], p);
    }
  }

  lemma AppendAssociative<T>(a: seq<T>, b: seq<T>, c: seq<T>)
    ensures a + (b + c) == (a + b) + c
  {
  }

  /** Filtering an extended sequence filters the extension separately. */
  lemma {:induction false} FilterAppend<T(!new)>(s: seq<T>, x: T, p: T -> bool)
    ensures Filter(s + [x], p) == Filter(s, p) + (if p(x) then [x] else [])
  {
    var tail := if p(x) then [x] else [];
    if s == [] {
      assert [x][1..] == [];
      assert Filter([x], p) == tail + Filter([], p);
    } else {
      var t := s + [x];
      assert t[0] == s[0] && t[1..] == s[1..] + [x];
      FilterAppend(s[1..], x, p);
      var head := if p(s[0]) then [s[0]] else [];
      assert Filter(t, p) == head + Filter(t[1..], p);
      assert Filter(s, p) == head + Filter(s[1..], p);
      AppendAssociative(head, Filter(s[1..], p), tail);
    }
  }

  /** The test `x => key(x) === k`. */
  function KeyIs<T>(key: T -> string, k: string): T -> bool
  {
    (x: T) => key(x) == k
  }

  /** `s.filter(x => key(x) === k).length` is the count `CountKey` folds. */
  lemma {:induction false} FilterLengthIsCount<T(!new)>(s: seq<T>, key: T -> string, k: string)
    ensures |Filter(s, KeyIs(key, k))| == CountKey(s, key, k)
  {
    if s != [] {
      var prefix := s[..|s| - 1];
      FilterLengthIsCount(prefix, key, k);
      assert s == prefix + [s[|s| - 1]];
      FilterAppend(prefix, s[|s| - 1], KeyIs(key, k));
    }
  }

  /** `s.slice(0, n)`. */
  function Take<T>(s: seq<T>, n: nat): (r: seq<T>)
    ensures |r| == if n < |s| then n else |s|
    ensures r <= s
  {
    if n < |s| then s[..n] else s
  }

  // ---------------------------------------------------------------------
  // filter(...).length counts and reduce sums, folded from the left
  // ---------------------------------------------------------------------

  /** `s.filter(x => key(x) === k).length`. */
  function CountKey<T>(s: seq<T>, key: T -> string, k: string): (n: nat)
    ensures n <= |s|
  {
    if s == [] then 0
    else CountKey(s[..|s| - 1], key, k) + (if key(s[|s| - 1]) == k then 1 else 0)
  }

  /** The number of elements whose key is one of `ks`. */
  function CountKeyIn<T>(s: seq<T>, key: T -> string, ks: seq<string>): (n: nat)
    ensures n <= |s|
    ensures n == |s| <==> forall i :: 0 <= i < |s| ==> key(s[i]) in ks
  {
    if s == [] then 0
    else CountKeyIn(s[..|s| - 1], key, ks) + (if key(s[|s| - 1]) in ks then 1 else 0)
  }

  lemma {:induction false} CountKeyInNone<T>(s: seq<T>, key: T -> string)
    ensures CountKeyIn(s, key, []) == 0
  {
    if s != [] {
      CountKeyInNone(s[..|s| - 1], key);
    }
  }

  lemma {:induction false} CountKeyInCons<T>(s: seq<T>, key: T -> string, k: string, ks: seq<string>)
    requires k !in ks
    ensures CountKey(s, key, k) + CountKeyIn(s, key, ks) == CountKeyIn(s, key, [k] + ks)
  {
    if s != [] {
      CountKeyInCons(s[..|s| - 1], key, k, ks);
    }
  }

  /** Two sequences whose elements agree position by position on the key
      have the same count for every key value. */
  lemma {:induction false} CountKeyPointwise<T>(s: seq<T>, t: seq<T>, key: T -> string, k: string)
    requires |s| == |t|
    requires forall i :: 0 <= i < |s| ==> key(s[i]) == key(t[i])
    ensures CountKey(s, key, k) == CountKey(t, key, k)
  {
    if s != [] {
      CountKeyPointwise(s[..|s| - 1], t[..|t| - 1], key, k);
    }
  }

  /** `requests.reduce((acc, r) => acc + r.volunteers.length, 0)`. */
  function SumVolunteers(rs: seq<HelpRequest>): nat
  {
    if rs == [] then 0 else SumVolunteers(rs[..|rs| - 1]) + |rs[|rs| - 1].volunteers|
  }

  /** `requests.filter(r => r.volunteers.length > 0).length`. */
  function CountWithVolunteers(rs: seq<HelpRequest>): (n: nat)
    ensures n <= |rs|
    ensures n <= SumVolunteers(rs)
  {
    if rs == [] then 0
    else CountWithVolunteers(rs[..|rs| - 1]) + (if |rs[|rs| - 1].volunteers| > 0 then 1 else 0)
  }

  /** The four counters shown on the home page and returned by the backend's
      overview route (`total`, `open`, `critical`, `volunteers`). */
  datatype RequestCounts = RequestCounts(total: nat, open: nat, critical: nat, volunteers: nat)

  function CountRequests(rs: seq<HelpRequest>): (c: RequestCounts)
    ensures c.total == |rs|
    ensures c.open <= c.total && c.critical <= c.total
    ensures c.volunteers == SumVolunteers(rs)
    ensures c.volunteers >= CountWithVolunteers(rs)
  {
    RequestCounts(|rs|, CountKey(rs, StatusOf, "open"), CountKey(rs, UrgencyOf, "critical"), SumVolunteers(rs))
  }

  // ---------------------------------------------------------------------
  // find / findIndex by id
  // ---------------------------------------------------------------------

  /** The index `findIndex(r => r.id === id)` returns: the first match, or -1. */
  function FirstIndex(rs: seq<HelpRequest>, id: string): (i: int)
    ensures -1 <= i < |rs|
    ensures i == -1 <==> forall k :: 0 <= k < |rs| ==> rs[k].id != id
    ensures 0 <= i ==> rs[i].id == id && forall k :: 0 <= k < i ==> rs[k].id != id
  {
    if rs == [] then -1
    else if rs[0].id == id then 0
    else
      var j := FirstIndex(rs[1..], id);
      if j == -1 then -1 else j + 1
  }

  /** `find(r => r.id === id)`, with `undefined` as `None`. */
  function FindById(rs: seq<HelpRequest>, id: string): (r: Option<HelpRequest>)
    ensures r.None? <==> forall k :: 0 <= k < |rs| ==> rs[k].id != id
    ensures r.Some? ==> r.value in rs && r.value.id == id
    ensures r.Some? ==> exists k :: 0 <= k < |rs| && rs[k] == r.value && forall j :: 0 <= j < k ==> rs[j].id != id
  {
    var i := FirstIndex(rs, id);
    if i == -1 then None else Some(rs[i])
  }

  /** The linear scan behind `findIndex`. */
  method FindIndex(rs: seq<HelpRequest>, id: string) returns (index: int)
    ensures index == FirstIndex(rs, id)
  {
    index := 0;
    while index < |rs| && rs[index].id != id
      invariant 0 <= index <= |rs|
      invariant forall k :: 0 <= k < index ==> rs[k].id != id
    {
      index := index + 1;
    }
    if index == |rs| {
      index := -1;
    }
  }

  /** `volunteers.some(v => v.id === id)`. */
  predicate HasVolunteer(vs: seq<Volunteer>, id: string)
  {
    exists i :: 0 <= i < |vs| && vs[i].id == id
  }

  // ---------------------------------------------------------------------
  // Strings
  // ---------------------------------------------------------------------

  /** The characters `String.prototype.trim` removes: white space and line
      terminators. */
  predicate IsWhitespace(c: char)
  {
    c == ' ' || c == '\t' || c == '\n' || c == '\r' || c == '\U{000B}' || c == '\U{000C}'
    || c == '\U{00A0}' || c == '\U{FEFF}' || c == '\U{1680}' || ('\U{2000}' <= c <= '\U{200A}')
    || c == '\U{2028}' || c == '\U{2029}' || c == '\U{202F}' || c == '\U{205F}' || c == '\U{3000}'
  }

  /** `s` without its leading white space. */
  function TrimStart(s: string): string
  {
    if s != [] && IsWhitespace(s[0]) then TrimStart(s[1..]) else s
  }

  /** `TrimStart` drops a prefix of white space and stops at the first
      character that is not white space. */
  lemma {:induction false} TrimStartDropsBlankPrefix(s: string)
    ensures var r := TrimStart(s);
      && |r| <= |s| && r == s[|s| - |r|..]
      && (forall i :: 0 <= i < |s| - |r| ==> IsWhitespace(s[i]))
      && (r == [] || !IsWhitespace(r[0]))
  {
    if s != [] && IsWhitespace(s[0]) {
      var t := s[1..];
      TrimStartDropsBlankPrefix(t);
      var r := TrimStart(t);
      assert TrimStart(s) == r;
      assert s[|s| - |r|..] == t[|t| - |r|..];
      forall i | 1 <= i < |s| - |r| ensures IsWhitespace(s[i]) {
        assert s[i] == t[i - 1];
      }
    }
  }

  /** `s` without its trailing white space. */
  function TrimEnd(s: string): string
  {
    if s != [] && IsWhitespace(s[|s| - 1]) then TrimEnd(s[..|s| - 1]) else s
  }

  /** `TrimEnd` drops a suffix of white space and stops at the last
      character that is not white space. */
  lemma {:induction false} TrimEndDropsBlankSuffix(s: string)
    ensures var r := TrimEnd(s);
      && |r| <= |s| && r == s[..|r|]
      && (forall i :: |r| <= i < |s| ==> IsWhitespace(s[i]))
      && (r == [] || !IsWhitespace(r[|r| - 1]))
  {
    if s != [] && IsWhitespace(s[|s| - 1]) {
      var t := s[..|s| - 1];
      TrimEndDropsBlankSuffix(t);
      var r := TrimEnd(t);
      assert TrimEnd(s) == r;
      assert s[..|r|] == t[..|r|];
      forall i | |r| <= i < |s| - 1 ensures IsWhitespace(s[i]) {
        assert s[i] == t[i];
      }
    }
  }

  /** `s.trim()`. */
  function Trim(s: string): string
  {
    TrimEnd(TrimStart(s))
  }

  /** Every character of `s` is white space (the empty string included). */
  predicate Blank(s: string)
  {
    forall i :: 0 <= i < |s| ==> IsWhitespace(s[i])
  }

  /** `s.trim()` is falsy exactly when every character of `s` is white space. */
  lemma TrimEmptyIffBlank(s: string)
    ensures Trim(s) == "" <==> Blank(s)
  {
    var t := TrimStart(s);
    TrimStartDropsBlankPrefix(s);
    TrimEndDropsBlankSuffix(t);
    if Trim(s) == "" {
      // A non-empty `t` starts with a character that is not white space,
      // which `TrimEnd` would keep; so `t` is empty and all of `s` is blank.
      assert t == [];
    } else {
      var k := |s| - |t|;
      assert t != [];
      assert s[k] == t[0];
    }
  }

  /** `!s.trim()`: the trimmed text is empty, which is the case exactly
      when the text is blank. */
  function TrimsToEmpty(s: string): (b: bool)
    ensures b <==> Blank(s)
  {
    TrimEmptyIffBlank(s);
    Trim(s) == ""
  }

  /** ASCII upper- and lower-case mapping. */
  function LowerChar(c: char): char
  {
    if 'A' <= c <= 'Z' then (c as int - 'A' as int + 'a' as int) as char else c
  }

  function UpperChar(c: char): char
  {
    if 'a' <= c <= 'z' then (c as int - 'a' as int + 'A' as int) as char else c
  }

  /** `s.toLowerCase()`. */
  function ToLower(s: string): (r: string)
    ensures |r| == |s|
  {
    seq(|s|, i requires 0 <= i < |s| => LowerChar(s[i]))
  }

  /** `hay.includes(needle)`. */
  function Contains(hay: string, needle: string): bool
  {
    needle <= hay || (hay != [] && Contains(hay[1..], needle))
  }

  /** `needle` occurs in `hay` starting at position `i`. */
  predicate OccursAt(hay: string, needle: string, i: int)
  {
    0 <= i <= |hay| - |needle| && hay[i..i + |needle|] == needle
  }

  /** An occurrence after the first position is an occurrence in the tail. */
  lemma OccursShift(hay: string, needle: string, i: int)
    requires hay != [] && i >= 0
    ensures OccursAt(hay, needle, i + 1) <==> OccursAt(hay[1..], needle, i)
  {
    if 0 <= i <= |hay| - 1 - |needle| {
      assert hay[1..][i..i + |needle|] == hay[i + 1..i + 1 + |needle|];
    }
  }

  /** `includes` holds exactly when the needle occurs at some position. */
  lemma {:induction false} ContainsAt(hay: string, needle: string)
    ensures Contains(hay, needle) <==> exists i :: OccursAt(hay, needle, i)
  {
    if needle <= hay {
      assert hay[0..|needle|] == needle;
      assert OccursAt(hay, needle, 0);
    } else if hay != [] {
      ContainsAt(hay[1..], needle);
      if i :| OccursAt(hay, needle, i) {
        assert i != 0;
        OccursShift(hay, needle, i - 1);
      }
      if Contains(hay[1..], needle) {
        var i :| OccursAt(hay[1..], needle, i);
        OccursShift(hay, needle, i);
      }
    }
  }

  /** `s.charAt(0).toUpperCase() + s.slice(1)`. */
  function Capitalize(s: string): (r: string)
    ensures |r| == |s|
    ensures s != [] ==> r[0] == UpperChar(s[0]) && r[1..] == s[1..]
  {
    if s == [] then [] else [UpperChar(s[0])] + s[1..]
  }

  /** The plural suffix the templates add: `n !== 1 ? 's' : ''`. */
  function Plural(n: int): string
  {
    if n != 1 then "s" else ""
  }

  // ---------------------------------------------------------------------
  // Number to decimal text (template interpolation of a count)
  // ---------------------------------------------------------------------

  predicate IsDigits(s: string)
  {
    forall i :: 0 <= i < |s| ==> '0' <= s[i] <= '9'
  }

  function DigitChar(d: nat): char
    requires d < 10
  {
    ('0' as int + d) as char
  }

  /** `String(n)` for a non-negative integer. */
  function NatToString(n: nat): (s: string)
    ensures |s| >= 1 && IsDigits(s)
    ensures |s| > 1 ==> s[0] != '0'
    decreases n
  {
    if n < 10 then [DigitChar(n)] else NatToString(n / 10) + [DigitChar(n % 10)]
  }

  /** The value of a string of decimal digits. */
  function DigitsValue(s: string): nat
    requires IsDigits(s)
  {
    if s == [] then 0 else DigitsValue(s[..|s| - 1]) * 10 + (s[|s| - 1] as int - '0' as int)
  }

  /** Reading back the text of a count gives the count. */
  lemma {:induction false} NatToStringRoundTrip(n: nat)
    ensures DigitsValue(NatToString(n)) == n
    decreases n
  {
    if n >= 10 {
      NatToStringRoundTrip(n / 10);
      var s := NatToString(n);
      assert s[..|s| - 1] == NatToString(n / 10);
    }
  }

  // ---------------------------------------------------------------------
  // Durations and relative time
  // ---------------------------------------------------------------------

  const MinuteMs: int := 60000
  const HourMs: int := 3600000
  const DayMs: int := 86400000

  /** A relative time as the cards and map popups show it. */
  datatype TimeAgo = JustNow | MinutesAgo(minutes: nat) | HoursAgo(hours: nat) | DaysAgo(days: nat)

  /** `'Just now'`, `` `${n}m ago` ``, `` `${n}h ago` `` or `` `${n}d ago` ``. */
  function TimeAgoText(t: TimeAgo): string
  {
    match t
    case JustNow => "Just now"
    case MinutesAgo(n) => NatToString(n) + "m ago"
    case HoursAgo(n) => NatToString(n) + "h ago"
    case DaysAgo(n) => NatToString(n) + "d ago"
  }

  /** A non-zero multiple of a positive `d` is at least `d` away from zero. */
  lemma MulAwayFromZero(d: int, k: int)
    requires d > 0
    ensures k >= 1 ==> d * k >= d
    ensures k <= -1 ==> d * k <= -d
  {
    if k >= 1 {
      assert d * k == d + d * (k - 1);
    } else if k <= -1 {
      assert d * k == -d + d * (k + 1);
    }
  }

  /** Floor division has one quotient for each remainder in `[0, d)`. */
  lemma DivUnique(a: int, d: int, q: int, r: int)
    requires d > 0 && 0 <= r < d && a == d * q + r
    ensures a / d == q
  {
    var q', r' := a / d, a % d;
    var k := q - q';
    assert d * k == r' - r;
    MulAwayFromZero(d, k);
  }

  /** `b * (c * q + r) == (b * c) * q + b * r`. */
  lemma MulRegroup(b: int, c: int, q: int, r: int)
    ensures b * (c * q + r) == (b * c) * q + b * r
  {
  }

  /** Multiplying by a positive factor keeps `<=`. */
  lemma MulMonotone(b: int, x: int, y: int)
    requires b > 0 && x <= y
    ensures b * x <= b * y
  {
    assert b * y - b * x == b * (y - x);
  }

  /** Flooring twice is flooring once by the product: `floor(floor(a/b)/c)
      == floor(a/(b*c))` for positive `b` and `c`, negative `a` included. */
  lemma DivDiv(a: int, b: int, c: int)
    requires b > 0 && c > 0
    ensures (a / b) / c == a / (b * c)
  {
    var q, r := a / b, a % b;
    var q2, r2 := q / c, q % c;
    assert a == b * q + r;
    assert q == c * q2 + r2;
    MulRegroup(b, c, q2, r2);
    assert a == (b * c) * q2 + (b * r2 + r);
    MulMonotone(b, r2, c - 1);
    assert b * (c - 1) == b * c - b;
    DivUnique(a, b * c, q2, b * r2 + r);
  }

  /** `` `${n} volunteer${n !== 1 ? 's' : ''}` ``. */
  function VolunteerCountLabel(n: nat): string
  {
    NatToString(n) + " volunteer" + Plural(n)
  }

  /** The volunteer count label ends in "s" exactly when the count is not 1. */
  lemma VolunteerCountLabelPlural(n: nat)
    ensures var s := VolunteerCountLabel(n);
      s[|s| - 1] == 's' <==> n != 1
  {
  }
}

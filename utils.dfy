/**
 * The client's pure helpers (web/js/utils.js): initials, relative time
 * buckets, occupancy percentage, the two badge tables and the hash's query
 * parameters.
 */
module Utils {
  import opened Common
  import opened Query

  // ---------------------------------------------------------------------
  // getInitials
  // ---------------------------------------------------------------------

  /** `words.map(w => w[0]).join('')`: an empty word contributes nothing (`undefined` joins as ''). */
  function FirstLetters(words: seq<string>): (r: string)
    ensures |r| <= |words|
    ensures forall k :: 0 <= k < |r| ==> exists j :: 0 <= j < |words| && words[j] != [] && r[k] == words[j][0]
  {
    if words == [] then []
    else
      var rest := FirstLetters(words[1..]);
      assert forall k :: 0 <= k < |rest| ==> exists j :: 0 <= j < |words| && words[j] != [] && rest[k] == words[j][0] by {
        forall k | 0 <= k < |rest|
          ensures exists j :: 0 <= j < |words| && words[j] != [] && rest[k] == words[j][0]
        {
          var j :| 0 <= j < |words[1..]| && words[1..][j] != [] && rest[k] == words[1..][j][0];
          assert words[j + 1] == words[1..][j];
        }
      }
      (if words[0] == [] then [] else [words[0][0]]) + rest
  }

  /** The number of non-empty words. */
  function NonEmptyCount(words: seq<string>): nat {
    if words == [] then 0 else (if words[0] == [] then 0 else 1) + NonEmptyCount(words[1..])
  }

  lemma {:induction false} FirstLettersLength(words: seq<string>)
    ensures |FirstLetters(words)| == NonEmptyCount(words)
  {
    if words != [] {
      FirstLettersLength(words[1..]);
    }
  }

  /**
   * `getInitials(name)`; `None` and the empty text are the falsy names.
   * Upper-casing is ASCII only.
   */
  function GetInitials(name: Option<string>): (r: string)
  {
    if name.None? || name.value == "" then "?"
    else Take(Upper(FirstLetters(Split(name.value, ' '))), 2)
  }

  /** A falsy name gives `?`; any other gives at most two upper-cased first letters of its words. */
  lemma GetInitialsShape(name: Option<string>)
    ensures name.None? || name.value == "" ==> GetInitials(name) == "?"
    ensures name.Some? && name.value != "" ==>
              |GetInitials(name)| == Min(2, NonEmptyCount(Split(name.value, ' ')))
    ensures name.Some? && name.value != "" ==>
              forall k :: 0 <= k < |GetInitials(name)| ==>
                exists j :: 0 <= j < |Split(name.value, ' ')| && Split(name.value, ' ')[j] != [] &&
                  GetInitials(name)[k] == UpperChar(Split(name.value, ' ')[j][0])
  {
    if name.Some? && name.value != "" {
      var words := Split(name.value, ' ');
      var letters := FirstLetters(words);
      FirstLettersLength(words);
      var r := GetInitials(name);
      assert r == Upper(letters)[..Min(2, |letters|)];
      forall k | 0 <= k < |r|
        ensures exists j :: 0 <= j < |words| && words[j] != [] && r[k] == UpperChar(words[j][0])
      {
        assert r[k] == UpperChar(letters[k]);
        var j :| 0 <= j < |words| && words[j] != [] && letters[k] == words[j][0];
      }
    }
  }

  /** Two space-separated words give the upper-cased first letter of each. */
  lemma {:induction false} TwoWordInitials(first: string, last: string)
    requires first != [] && last != [] && ' ' !in first && ' ' !in last
    ensures GetInitials(Some(first + " " + last)) == [UpperChar(first[0]), UpperChar(last[0])]
  {
    TwoWordSplit(first, last);
    TwoFirstLetters(first, last);
  }

  lemma TwoWordSplit(first: string, last: string)
    requires ' ' !in first && ' ' !in last
    ensures Split(first + " " + last, ' ') == [first, last]
  {
    assert Join([first, last], ' ') == first + [' '] + Join([last], ' ');
    assert first + [' '] + last == first + " " + last;
    SplitJoin([first, last], ' ');
  }

  lemma TwoFirstLetters(first: string, last: string)
    requires first != [] && last != []
    ensures FirstLetters([first, last]) == [first[0], last[0]]
  {
    assert FirstLetters([last]) == [last[0]] + FirstLetters([]);
    assert [first, last][1..] == [last];
  }

  // ---------------------------------------------------------------------
  // timeAgo
  // ---------------------------------------------------------------------

  /** The five outcomes of `timeAgo`; `Dated` is the formatted date. */
  datatype Ago = JustNow | MinutesAgo(m: int) | HoursAgo(h: int) | DaysAgo(d: int) | Dated

  /**
   * `timeAgo` on the whole seconds elapsed; `None` is `NaN`, the difference
   * for a date string that does not parse, for which every comparison is false.
   */
  function TimeAgo(diff: Option<int>): (r: Ago)
    ensures diff.None? ==> r == Dated
    ensures diff.Some? ==> (r == JustNow <==> diff.value < 60)
    ensures r.MinutesAgo? ==> 1 <= r.m < 60 && r.m * 60 <= diff.value < (r.m + 1) * 60
    ensures r.HoursAgo? ==> 1 <= r.h < 24 && r.h * 3600 <= diff.value < (r.h + 1) * 3600
    ensures r.DaysAgo? ==> 1 <= r.d < 30 && r.d * 86400 <= diff.value < (r.d + 1) * 86400
    ensures r == Dated <==> diff.None? || diff.value >= 2592000
  {
    if diff.None? then Dated
    else
      var d := diff.value;
      if d < 60 then JustNow
      else if d < 3600 then MinutesAgo(d / 60)
      else if d < 86400 then HoursAgo(d / 3600)
      else if d < 2592000 then DaysAgo(d / 86400)
      else Dated
  }

  /** The text shown; `formatted` is what `formatDate` gives for the same date. */
  function AgoText(a: Ago, formatted: string): (r: string)
    ensures a == JustNow ==> r == "Just now"
    ensures a == Dated ==> r == formatted
    ensures a.MinutesAgo? && a.m >= 0 ==> |r| > 5 && r[|r| - 5..] == "m ago" && DecimalValue(r[..|r| - 5]) == a.m
    ensures a.HoursAgo? && a.h >= 0 ==> |r| > 5 && r[|r| - 5..] == "h ago" && DecimalValue(r[..|r| - 5]) == a.h
    ensures a.DaysAgo? && a.d >= 0 ==> |r| > 5 && r[|r| - 5..] == "d ago" && DecimalValue(r[..|r| - 5]) == a.d
  {
    match a
    case JustNow => "Just now"
    case MinutesAgo(m) => IntToString(m) + "m ago"
    case HoursAgo(h) => IntToString(h) + "h ago"
    case DaysAgo(d) => IntToString(d) + "d ago"
    case Dated => formatted
  }

  /** The relative texts tell their buckets apart: two relative times that read alike are the same. */
  lemma {:induction false} AgoTextInjective(a: Ago, b: Ago, formatted: string)
    requires a != Dated && b != Dated
    requires !a.MinutesAgo? || a.m >= 0
    requires !a.HoursAgo? || a.h >= 0
    requires !a.DaysAgo? || a.d >= 0
    requires !b.MinutesAgo? || b.m >= 0
    requires !b.HoursAgo? || b.h >= 0
    requires !b.DaysAgo? || b.d >= 0
    requires AgoText(a, formatted) == AgoText(b, formatted)
    ensures a == b
  {
    var r := AgoText(a, formatted);
    assert "Just now"[3..] == "t now";
  }

  /** The text of every elapsed time under 30 days: the count and the unit of its bucket. */
  lemma TimeAgoText(diff: int, formatted: string)
    requires 60 <= diff < 2592000
    ensures var r := AgoText(TimeAgo(Some(diff)), formatted);
            |r| > 5 && r[|r| - 5] in {'m', 'h', 'd'} && r[|r| - 4..] == " ago" &&
            DecimalValue(r[..|r| - 5]) == diff / (if diff < 3600 then 60 else if diff < 86400 then 3600 else 86400)
  {
  }

  /** Older is never "more recent": the bucket order follows the elapsed time. */
  function AgoRank(a: Ago): nat {
    match a
    case JustNow => 0
    case MinutesAgo(_) => 1
    case HoursAgo(_) => 2
    case DaysAgo(_) => 3
    case Dated => 4
  }

  lemma TimeAgoMonotone(d1: int, d2: int)
    requires d1 <= d2
    ensures AgoRank(TimeAgo(Some(d1))) <= AgoRank(TimeAgo(Some(d2)))
  {
  }

  // ---------------------------------------------------------------------
  // occupancyPercent
  // ---------------------------------------------------------------------

  /**
   * `occupancyPercent(occupied, total)`: 0 for a falsy total, else
   * `Math.round(occupied / total * 100)`, that is floor(x + 1/2) of the exact
   * quotient x, written with integer division over a positive denominator.
   */
  function OccupancyPercent(occupied: int, total: int): (r: int)
    ensures total == 0 ==> r == 0
  {
    if total == 0 then 0
    else if total > 0 then (200 * occupied + total) / (2 * total)
    else (-200 * occupied - total) / (-2 * total)
  }

  /** With 0 <= occupied <= total the percentage lies in [0, 100]. */
  lemma OccupancyBounds(occupied: int, total: int)
    requires 0 <= occupied <= total
    ensures 0 <= OccupancyPercent(occupied, total) <= 100
  {
    if total > 0 {
      var n := 200 * occupied + total;
      assert 0 <= n <= 201 * total;
      DivBounds(n, 2 * total, 0, 100);
    }
  }

  /** `lo*d <= n < (hi+1)*d` puts `n/d` in [lo, hi]. */
  lemma DivBounds(n: int, d: int, lo: int, hi: int)
    requires d > 0 && lo * d <= n < (hi + 1) * d
    ensures lo <= n / d <= hi
  {
    var q := n / d;
    assert n == q * d + n % d && 0 <= n % d < d;
    assert (q + 1) * d == q * d + d;
    MulLessCancel(lo, q + 1, d);
    MulLessCancel(q, hi + 1, d);
  }

  /** A positive factor can be cancelled from a strict inequality. */
  lemma MulLessCancel(a: int, b: int, d: int)
    requires d > 0 && a * d < b * d
    ensures a < b
  {
    assert b * d - a * d == (b - a) * d;
  }

  /** A total of units all occupied is 100%, none occupied is 0%. */
  lemma OccupancyEnds(total: int)
    requires total > 0
    ensures OccupancyPercent(total, total) == 100
    ensures OccupancyPercent(0, total) == 0
  {
    DivBounds(200 * total + total, 2 * total, 100, 100);
    DivBounds(total, 2 * total, 0, 0);
  }

  /** More occupied units never lower the percentage. */
  lemma OccupancyMonotone(o1: int, o2: int, total: int)
    requires total > 0 && o1 <= o2
    ensures OccupancyPercent(o1, total) <= OccupancyPercent(o2, total)
  {
    var a := 200 * o1 + total;
    var b := 200 * o2 + total;
    var d := 2 * total;
    assert a <= b;
    var qa := a / d;
    var qb := b / d;
    assert a == qa * d + a % d && b == qb * d + b % d;
    assert (qb + 1) * d == qb * d + d;
    MulLessCancel(qa, qb + 1, d);
  }

  // ---------------------------------------------------------------------
  // statusBadge and priorityBadge
  // ---------------------------------------------------------------------

  function Badge(cls: string, text: string): string {
    "<span class=\"badge " + cls + "\">" + text + "</span>"
  }

  /** The eleven statuses `statusBadge` knows, with their badges. */
  const StatusBadges: map<string, string> := map[
    "successful" := Badge("badge-success", "Paid"),
    "pending" := Badge("badge-warning", "Pending"),
    "failed" := Badge("badge-danger", "Failed"),
    "occupied" := Badge("badge-success", "Occupied"),
    "vacant" := Badge("badge-gray", "Vacant"),
    "open" := Badge("badge-info", "Open"),
    "in_progress" := Badge("badge-warning", "In Progress"),
    "resolved" := Badge("badge-success", "Resolved"),
    "closed" := Badge("badge-gray", "Closed"),
    "accepted" := Badge("badge-success", "Accepted"),
    "expired" := Badge("badge-danger", "Expired")
  ]

  function StatusBadge(status: string): (r: string)
    ensures status in StatusBadges ==> r == StatusBadges[status]
    ensures status !in StatusBadges ==> r == Badge("badge-gray", status)
  {
    if status in StatusBadges then StatusBadges[status] else Badge("badge-gray", status)
  }

  /** The fallback keeps the raw status: two unknown statuses never share a badge. */
  lemma StatusFallbackInjective(s1: string, s2: string)
    requires s1 !in StatusBadges && s2 !in StatusBadges
    requires StatusBadge(s1) == StatusBadge(s2)
    ensures s1 == s2
  {
    var pre := "<span class=\"badge badge-gray\">";
    assert StatusBadge(s1) == pre + s1 + "</span>";
    assert StatusBadge(s2) == pre + s2 + "</span>";
    assert s1 == StatusBadge(s1)[|pre|..|StatusBadge(s1)| - 7];
    assert s2 == StatusBadge(s2)[|pre|..|StatusBadge(s2)| - 7];
  }

  /** The unknown status `Vacant` renders exactly as the known status `vacant`. */
  lemma StatusFallbackCollides()
    ensures "Vacant" !in StatusBadges && StatusBadge("Vacant") == StatusBadge("vacant")
  {
  }

  const PriorityBadges: map<string, string> := map[
    "low" := Badge("badge-gray", "Low"),
    "medium" := Badge("badge-info", "Medium"),
    "high" := Badge("badge-warning", "High"),
    "urgent" := Badge("badge-danger", "Urgent")
  ]

  /** `priorityBadge`: an unknown priority comes back as it is, not wrapped in a badge. */
  function PriorityBadge(priority: string): (r: string)
    ensures priority in PriorityBadges ==> r == PriorityBadges[priority]
    ensures priority !in PriorityBadges ==> r == priority
  {
    if priority in PriorityBadges then PriorityBadges[priority] else priority
  }

  /** The four known priorities are exactly the ones that come back as badges. */
  lemma PriorityBadgeWraps(priority: string)
    ensures StartsWith(PriorityBadge(priority), "<span") <==>
              priority in PriorityBadges || StartsWith(priority, "<span")
  {
  }

  // ---------------------------------------------------------------------
  // getHashParams
  // ---------------------------------------------------------------------

  /** What `getHashParams` returns, as a function of the hash. */
  function HashParams(hash: string): (m: map<string, string>) {
    var (_, after) := SplitFirst(hash, '?');
    if after.None? then map[] else ParseQuery(after.value)
  }

  /** `getHashParams`: the `params.forEach((v, k) => obj[k] = v)` loop. */
  method GetHashParams(hash: string) returns (obj: map<string, string>)
    ensures obj == HashParams(hash)
  {
    var (_, after) := SplitFirst(hash, '?');
    obj := map[];
    if after.None? {
      return;
    }
    obj := CopyEntries(Entries(QueryPieces(after.value)));
  }

  /** The `obj[k] = v` loop over the parsed entries: a later entry overwrites an earlier one. */
  method CopyEntries(es: seq<Entry>) returns (obj: map<string, string>)
    ensures obj == FromEntries(es)
  {
    obj := map[];
    var i := 0;
    while i < |es|
      invariant 0 <= i <= |es|
      invariant obj == FromEntries(es[..i])
    {
      FromEntriesSnoc(es[..i], es[i]);
      assert es[..i + 1] == es[..i] + [es[i]];
      obj := obj[es[i].0 := es[i].1];
      i := i + 1;
    }
    assert es[..i] == es;
  }

  /** No `?` means no parameters; otherwise the keys come only from the text after the first `?`. */
  lemma HashParamsSource(hash: string)
    ensures '?' !in hash ==> HashParams(hash) == map[]
    ensures '?' in hash ==> exists before, after :: hash == before + "?" + after && '?' !in before &&
                              HashParams(hash) == ParseQuery(after)
  {
    var (before, after) := SplitFirst(hash, '?');
    if '?' in hash {
      assert hash == before + "?" + after.value;
    }
  }
}

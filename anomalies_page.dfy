/**
 * The anomalies page of the client: the search and filter over the fetched
 * anomalies, the four summary counters, the resolution rate, the paged table
 * and the CSV export.
 *
 * An anomaly arrives as the server serialises it, with its type and severity
 * as text. The anomaly fetch is a parameter (`None` stands for a rejected
 * request) and the clock is `now`, in milliseconds.
 */
module AnomaliesPage {
  import opened Common

  /** One anomaly as the page receives it. */
  datatype AnomalyRow = AnomalyRow(
    id: int,
    sensorName: string,
    atype: string,
    value: real,
    expected: real,
    deviation: real,
    severity: string,
    resolved: bool,
    timestamp: int)

  // ---------------------------------------------------------------------------
  // Case-insensitive search
  // ---------------------------------------------------------------------------

  /** `toLowerCase` on one character (ASCII letters only). */
  function LowerChar(c: char): (r: char)
    ensures 'A' <= c <= 'Z' ==> r as int == c as int + 32
    ensures !('A' <= c <= 'Z') ==> r == c
    ensures !('A' <= r <= 'Z')
  {
    if 'A' <= c <= 'Z' then (c as int + 32) as char else c
  }

  /** `toLowerCase` on a string. */
  function Lower(s: string): (r: string)
    ensures |r| == |s|
    ensures forall k :: 0 <= k < |s| ==> r[k] == LowerChar(s[k])
  {
    if s == [] then [] else [LowerChar(s[0])] + Lower(s[1..])
  }

  lemma LowerIdempotent(s: string)
    ensures Lower(Lower(s)) == Lower(s)
  {
  }

  /** `hay.includes(needle)`, scanning the start positions left to right. */
  function Includes(hay: string, needle: string): bool
    decreases |hay|
  {
    needle <= hay || (hay != [] && Includes(hay[1..], needle))
  }

  /** `needle` occurs in `hay` starting at position `i`. */
  predicate OccursAt(hay: string, needle: string, i: int)
  {
    0 <= i <= |hay| - |needle| && hay[i..i + |needle|] == needle
  }

  /** `includes` holds exactly when the needle occurs at some position. */
  lemma {:induction false} IncludesIffOccurs(hay: string, needle: string)
    ensures Includes(hay, needle) <==> exists i :: OccursAt(hay, needle, i)
    decreases |hay|
  {
    if needle <= hay {
      assert OccursAt(hay, needle, 0);
    } else if hay == [] {
    } else {
      IncludesIffOccurs(hay[1..], needle);
      if Includes(hay[1..], needle) {
        var i :| OccursAt(hay[1..], needle, i);
        assert hay[i + 1..i + 1 + |needle|] == hay[1..][i..i + |needle|];
        assert OccursAt(hay, needle, i + 1);
      }
      if exists i :: OccursAt(hay, needle, i) {
        var i :| OccursAt(hay, needle, i);
        assert !OccursAt(hay, needle, 0);
        assert hay[1..][i - 1..i - 1 + |needle|] == hay[i..i + |needle|];
        assert OccursAt(hay[1..], needle, i - 1);
      }
    }
  }

  /** The empty search term occurs in every text. */
  lemma EmptyTermMatchesEverything(hay: string)
    ensures Includes(hay, "")
  {
  }

  // ---------------------------------------------------------------------------
  // Filter
  // ---------------------------------------------------------------------------

  /** The value of the type and severity selectors that matches every anomaly. */
  const All: string := "all"

  /** The search box and the two selectors. */
  datatype Query = Query(searchTerm: string, filterType: string, filterSeverity: string)

  predicate MatchesSearch(term: string, a: AnomalyRow)
  {
    Includes(Lower(a.sensorName), Lower(term)) || Includes(Lower(a.atype), Lower(term))
  }

  predicate Matches(q: Query, a: AnomalyRow)
  {
    && MatchesSearch(q.searchTerm, a)
    && (q.filterType == All || a.atype == q.filterType)
    && (q.filterSeverity == All || a.severity == q.filterSeverity)
  }

  /** `filteredAnomalies`: the anomalies the query matches, in their original order. */
  function Filtered(q: Query, anomalies: seq<AnomalyRow>): (r: seq<AnomalyRow>)
    ensures |r| <= |anomalies|
    ensures forall a :: a in r <==> a in anomalies && Matches(q, a)
  {
    var r := Filter(anomalies, a => Matches(q, a));
    forall a ensures a in r <==> a in anomalies && Matches(q, a) {
      FilterMembership(anomalies, a => Matches(q, a), a);
    }
    r
  }

  /** The filtered list is an order-preserving subsequence of the anomalies. */
  lemma FilteredIsSubsequence(q: Query, anomalies: seq<AnomalyRow>)
    ensures IsSubsequence(Filtered(q, anomalies), anomalies)
  {
    FilterIsSubsequence(anomalies, a => Matches(q, a));
  }

  /** The page's initial query (empty search, both selectors on "all") shows every anomaly. */
  lemma InitialQueryKeepsAll(anomalies: seq<AnomalyRow>)
    ensures Filtered(Query("", All, All), anomalies) == anomalies
  {
    forall a | a in anomalies ensures Matches(Query("", All, All), a) {
      EmptyTermMatchesEverything(Lower(a.sensorName));
    }
    FilterAll(anomalies, a => Matches(Query("", All, All), a));
  }

  /** The search ignores the case of the term: a term and its lower-case form select the same anomalies. */
  lemma SearchIsCaseInsensitive(q: Query, anomalies: seq<AnomalyRow>)
    ensures Filtered(q, anomalies) == Filtered(q.(searchTerm := Lower(q.searchTerm)), anomalies)
  {
    LowerIdempotent(q.searchTerm);
    var q' := q.(searchTerm := Lower(q.searchTerm));
    FilterCongruent(anomalies, a => Matches(q, a), a => Matches(q', a));
  }

  /** A type selector other than "all" keeps only anomalies of exactly that type. */
  lemma TypeFilterIsExact(q: Query, anomalies: seq<AnomalyRow>, a: AnomalyRow)
    requires q.filterType != All && a in Filtered(q, anomalies)
    ensures a.atype == q.filterType
  {
  }

  // ---------------------------------------------------------------------------
  // Summary counters
  // ---------------------------------------------------------------------------

  /** One hour in milliseconds. */
  const HourMs: int := 3600000

  datatype Stats = Stats(total: nat, resolved: nat, critical: nat, lastHour: nat)

  predicate IsResolved(a: AnomalyRow) { a.resolved }
  predicate IsCritical(a: AnomalyRow) { a.severity == "Critical" }
  /** Stamped less than an hour before `now` (a stamp after `now` counts as well). */
  predicate WithinLastHour(now: int, a: AnomalyRow) { now - a.timestamp < HourMs }

  /** `stats`: every counter counts over all fetched anomalies, not the filtered ones. */
  function ComputeStats(anomalies: seq<AnomalyRow>, now: int): (st: Stats)
    ensures st.total == |anomalies|
    ensures st.resolved <= st.total && st.critical <= st.total && st.lastHour <= st.total
    ensures anomalies == [] ==> st == Stats(0, 0, 0, 0)
  {
    Stats(|anomalies|,
          CountIf(anomalies, IsResolved),
          CountIf(anomalies, IsCritical),
          CountIf(anomalies, a => WithinLastHour(now, a)))
  }

  /** No anomaly from the last hour exactly when every anomaly is an hour old or older. */
  lemma LastHourZeroIff(anomalies: seq<AnomalyRow>, now: int)
    ensures ComputeStats(anomalies, now).lastHour == 0 <==>
      forall k :: 0 <= k < |anomalies| ==> now - anomalies[k].timestamp >= HourMs
  {
    CountIfZero(anomalies, a => WithinLastHour(now, a));
  }

  /** Everything is resolved exactly when the resolved counter equals the total. */
  lemma AllResolvedIff(anomalies: seq<AnomalyRow>, now: int)
    ensures ComputeStats(anomalies, now).resolved == ComputeStats(anomalies, now).total <==>
      forall k :: 0 <= k < |anomalies| ==> anomalies[k].resolved
  {
    CountIfAll(anomalies, IsResolved);
  }

  /** The displayed resolution rate: a number, or JavaScript's `NaN`. */
  datatype Rate = Percent(p: real) | NotANumber

  /** The resolution rate as the page computes it: `resolved / total * 100`
      with no guard, which is `0 / 0`, so `NaN`, when there are no anomalies. */
  function ResolutionRateAsWritten(st: Stats): Rate
  {
    if st.total == 0 then NotANumber else Percent(st.resolved as real / st.total as real * 100.0)
  }

  /** With no anomaly at all the card reads "NaN% resolution rate". */
  lemma EmptyListShowsNaNRate(now: int)
    ensures ResolutionRateAsWritten(ComputeStats([], now)) == NotANumber
  {
  }

  /** The evidently intended resolution rate: 0 % when there is nothing to resolve. */
  function ResolutionRate(st: Stats): (r: real)
    requires st.resolved <= st.total
    ensures 0.0 <= r <= 100.0
    ensures st.total == 0 ==> r == 0.0
    ensures st.total > 0 ==> ResolutionRateAsWritten(st) == Percent(r)
    ensures st.total > 0 ==> (r == 100.0 <==> st.resolved == st.total)
  {
    if st.total == 0 then 0.0 else st.resolved as real / st.total as real * 100.0
  }

  /** Badge colour per severity; any other text gets the muted colour. */
  datatype BadgeColor = SuccessColor | WarningColor | OrangeColor | DestructiveColor | MutedColor

  function SeverityColor(severity: string): (c: BadgeColor)
    ensures c == MutedColor <==> severity !in {"Low", "Medium", "High", "Critical"}
    ensures c == DestructiveColor <==> severity == "Critical"
  {
    if severity == "Low" then SuccessColor
    else if severity == "Medium" then WarningColor
    else if severity == "High" then OrangeColor
    else if severity == "Critical" then DestructiveColor
    else MutedColor
  }

  // ---------------------------------------------------------------------------
  // CSV export
  // ---------------------------------------------------------------------------

  /** A CSV cell: text, a number printed as is, a deviation printed with two
      decimals and a percent sign, or a timestamp printed in the local format. */
  datatype Cell = Text(t: string) | Number(x: real) | DeviationPercent(d: real) | LocalTime(ms: int)

  const CsvHeader: seq<Cell> := [Text("Timestamp"), Text("Sensor"), Text("Type"), Text("Value"),
                                 Text("Expected"), Text("Deviation"), Text("Severity"), Text("Status")]

  function StatusText(a: AnomalyRow): string
  {
    if a.resolved then "Resolved" else "Active"
  }

  function CsvRow(a: AnomalyRow): (row: seq<Cell>)
    ensures |row| == |CsvHeader|
    ensures row[7] == Text("Resolved") <==> a.resolved
    ensures row[7] == Text("Active") <==> !a.resolved
  {
    [LocalTime(a.timestamp), Text(a.sensorName), Text(a.atype), Number(a.value),
     Number(a.expected), DeviationPercent(Round2(a.deviation)), Text(a.severity), Text(StatusText(a))]
  }

  /** The data rows, one per anomaly, in order. */
  function CsvRows(anomalies: seq<AnomalyRow>): (rows: seq<seq<Cell>>)
    ensures |rows| == |anomalies|
    ensures forall k :: 0 <= k < |anomalies| ==> rows[k] == CsvRow(anomalies[k])
  {
    if anomalies == [] then []
    else CsvRows(anomalies[..|anomalies| - 1]) + [CsvRow(anomalies[|anomalies| - 1])]
  }

  /** `handleExportCSV`: nothing on an empty list, else the header and one row per anomaly. */
  function ExportCsv(anomalies: seq<AnomalyRow>): (r: Option<seq<seq<Cell>>>)
    ensures r.None? <==> anomalies == []
    ensures r.Some? ==> |r.value| == |anomalies| + 1 && r.value[0] == CsvHeader
    ensures r.Some? ==> forall k :: 0 <= k < |anomalies| ==> r.value[k + 1] == CsvRow(anomalies[k])
  {
    if |anomalies| == 0 then None else Some([CsvHeader] + CsvRows(anomalies))
  }

  predicate RowSaysResolved(row: seq<Cell>)
  {
    |row| == |CsvHeader| && row[7] == Text("Resolved")
  }

  /** The export's "Resolved" rows are as many as the resolved counter says. */
  lemma {:induction false} ExportAgreesWithResolvedCount(anomalies: seq<AnomalyRow>, now: int)
    ensures CountIf(CsvRows(anomalies), RowSaysResolved) == ComputeStats(anomalies, now).resolved
  {
    if anomalies != [] {
      var init := anomalies[..|anomalies| - 1];
      ExportAgreesWithResolvedCount(init, now);
      assert CsvRows(anomalies)[..|anomalies| - 1] == CsvRows(init);
    }
  }

  // ---------------------------------------------------------------------------
  // Page state
  // ---------------------------------------------------------------------------

  const InitialVisible: nat := 20
  const LoadMoreStep: nat := 50

  class AnomaliesView {
    var anomalies: seq<AnomalyRow>
    var loading: bool
    var query: Query
    var visibleCount: nat

    constructor ()
      ensures anomalies == [] && loading
      ensures query == Query("", All, All) && visibleCount == InitialVisible
    {
      anomalies := [];
      loading := true;
      query := Query("", All, All);
      visibleCount := InitialVisible;
    }

    /** Completion of the anomaly fetch: a response replaces the list; either way loading ends. */
    method Load(response: Option<seq<AnomalyRow>>)
      modifies this`anomalies, this`loading
      ensures !loading
      ensures response.Some? ==> anomalies == response.value
      ensures response.None? ==> anomalies == old(anomalies)
    {
      if response.Some? {
        anomalies := response.value;
      }
      loading := false;
    }

    /** Editing the search box or a selector; the visible count is not reset. */
    method SetQuery(q: Query)
      modifies this`query
      ensures query == q
    {
      query := q;
    }

    /** The "Load More" button, which is offered only while rows are hidden. */
    predicate OffersLoadMore()
      reads this
    {
      visibleCount < |Filtered(query, anomalies)|
    }

    /** The "Load More" button: fifty more rows. */
    method LoadMore()
      modifies this`visibleCount
      ensures visibleCount == old(visibleCount) + LoadMoreStep
    {
      visibleCount := visibleCount + LoadMoreStep;
    }

    /** The table rows: the first `visibleCount` matching anomalies. */
    function ShownRows(): (r: seq<AnomalyRow>)
      reads this
      ensures |r| == MinN(visibleCount, |Filtered(query, anomalies)|)
      ensures r <= Filtered(query, anomalies)
      ensures |r| < |Filtered(query, anomalies)| <==> OffersLoadMore()
    {
      var f := Filtered(query, anomalies);
      f[..MinN(visibleCount, |f|)]
    }
  }

  /** After k presses of "Load More" the table shows min(20 + 50k, matches) rows. */
  lemma RowsAfterLoadMore(visible: nat, k: nat, matches: nat)
    requires visible == InitialVisible + LoadMoreStep * k
    ensures MinN(visible, matches) == if matches <= 20 + 50 * k then matches else 20 + 50 * k
  {
  }
}

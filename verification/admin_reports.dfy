/** The reports tab of the admin dashboard (src/pages/Admin.tsx): the fixed list of feedback
    rows, the filter that keeps the rows matching a date range, a store and a search term,
    the filter state with its Reset Filters button, and the colour band of each score. */
module AdminReports {
  import opened Wrappers
  import opened Text
  import FeedbackForm

  /** One row of the dashboard's data; `date` is a day number (see Day). */
  datatype FeedbackRow = FeedbackRow(
    id: int,
    customerName: string,
    date: int,
    storeLocation: string,
    staffFriendliness: int,
    cleanliness: int,
    productAvailability: int,
    overallExperience: int,
    comment: string)

  /** A calendar day as an ordered number: 2023-04-25 is 20230425. Later days get larger
      numbers. */
  function Day(year: nat, month: nat, day: nat): int
    requires 1 <= month <= 12 && 1 <= day <= 31
  {
    year * 10000 + month * 100 + day
  }

  lemma DayOrder(y1: nat, m1: nat, d1: nat, y2: nat, m2: nat, d2: nat)
    requires 1 <= m1 <= 12 && 1 <= d1 <= 31 && 1 <= m2 <= 12 && 1 <= d2 <= 31
    ensures Day(y1, m1, d1) < Day(y2, m2, d2) <==>
              y1 < y2 || (y1 == y2 && (m1 < m2 || (m1 == m2 && d1 < d2)))
  {
  }

  const MockFeedbackData: seq<FeedbackRow> := [
    FeedbackRow(1, "John Doe", Day(2023, 4, 25), "Lagos - Ikeja Mall", 8, 9, 7, 8,
                "Great experience overall, staff was very helpful."),
    FeedbackRow(2, "Anonymous", Day(2023, 4, 24), "Abuja - Wuse II", 6, 5, 4, 5,
                "The store was not very clean, and some products were out of stock."),
    FeedbackRow(3, "Sarah Johnson", Day(2023, 4, 23), "Lagos - Lekki Phase 1", 9, 8, 9, 9,
                "Excellent service, very satisfied customer."),
    FeedbackRow(4, "Michael Brown", Day(2023, 4, 22), "Port Harcourt - GRA", 7, 8, 6, 7,
                "Good experience, but some products were missing."),
    FeedbackRow(5, "Anonymous", Day(2023, 4, 21), "Abuja - Jabi Lake Mall", 5, 6, 7, 6,
                "Average experience, staff could be more friendly.")
  ]

  /** The four filter controls: two optional dates, a store ("all" for every store) and a
      search term. */
  datatype Filters = Filters(
    startDate: Option<int>,
    endDate: Option<int>,
    selectedStore: string,
    searchTerm: string)

  const AllStores: string := "all"

  /** The initial filters, and the filters after Reset Filters. */
  const NoFilters: Filters := Filters(None, None, AllStores, "")

  /** Without both dates every row passes; with both, the row's day must lie in the range,
      both ends included. */
  predicate DateMatch(row: FeedbackRow, f: Filters): (m: bool)
    ensures f.startDate.None? || f.endDate.None? ==> m
    ensures f.startDate.Some? && f.endDate.Some? ==>
              (m <==> f.startDate.value <= row.date <= f.endDate.value)
  {
    f.startDate.None? || f.endDate.None? ||
    (f.startDate.value <= row.date && row.date <= f.endDate.value)
  }

  /** The store test: "all" passes every row, any other choice only the rows of that store. */
  predicate StoreMatch(row: FeedbackRow, f: Filters): (m: bool)
    ensures f.selectedStore == AllStores ==> m
    ensures f.selectedStore != AllStores ==> (m <==> row.storeLocation == f.selectedStore)
  {
    f.selectedStore == AllStores || row.storeLocation == f.selectedStore
  }

  /** An empty term passes every row; otherwise the lower-cased term must occur in the
      lower-cased customer name or comment. */
  predicate SearchMatch(row: FeedbackRow, f: Filters): (m: bool)
    ensures f.searchTerm == "" ==> m
    ensures f.searchTerm != "" ==>
              (m <==> Contains(ToLower(row.customerName), ToLower(f.searchTerm))
                      || Contains(ToLower(row.comment), ToLower(f.searchTerm)))
  {
    f.searchTerm == "" ||
    Contains(ToLower(row.customerName), ToLower(f.searchTerm)) ||
    Contains(ToLower(row.comment), ToLower(f.searchTerm))
  }

  /** A row is kept when it passes all three tests; the initial filters keep every row. */
  predicate Keep(row: FeedbackRow, f: Filters): (k: bool)
    ensures k <==> DateMatch(row, f) && StoreMatch(row, f) && SearchMatch(row, f)
    ensures f == NoFilters ==> k
  {
    DateMatch(row, f) && StoreMatch(row, f) && SearchMatch(row, f)
  }

  /** `a` is `b` with some elements left out, the rest in their original order. */
  predicate IsSubsequence<T(==)>(a: seq<T>, b: seq<T>)
    decreases |b|
  {
    if a == [] then true
    else if b == [] then false
    else (a[0] == b[0] && IsSubsequence(a[1..], b[1..])) || IsSubsequence(a, b[1..])
  }

  /** `filteredFeedback`: the rows that pass all three criteria, in their original order. A
      row appears in the result exactly when it is one of the rows and passes
      (FilterKeepsMultiplicity adds: as often as it appears among the rows). */
  function FilterRows(rows: seq<FeedbackRow>, f: Filters): (kept: seq<FeedbackRow>)
    ensures IsSubsequence(kept, rows)
    ensures forall x :: x in kept <==> x in rows && Keep(x, f)
  {
    if rows == [] then []
    else
      var rest := FilterRows(rows[1..], f);
      if Keep(rows[0], f) then [rows[0]] + rest else rest
  }

  /** Each passing row is kept as often as it occurs among the rows, and no other row is
      kept. */
  lemma {:induction false} FilterKeepsMultiplicity(rows: seq<FeedbackRow>, f: Filters)
    ensures forall x :: multiset(FilterRows(rows, f))[x] == if Keep(x, f) then multiset(rows)[x] else 0
  {
    if rows != [] {
      FilterKeepsMultiplicity(rows[1..], f);
      assert rows == [rows[0]] + rows[1..];
    }
  }

  /** With no filter set, every row is kept: the view after Reset Filters is the whole data
      set. */
  lemma {:induction false} NoFiltersKeepAll(rows: seq<FeedbackRow>)
    ensures FilterRows(rows, NoFilters) == rows
  {
    if rows != [] {
      NoFiltersKeepAll(rows[1..]);
    }
  }

  /** A range whose start lies after its end keeps no row. */
  lemma InvertedRangeKeepsNothing(rows: seq<FeedbackRow>, f: Filters)
    requires f.startDate.Some? && f.endDate.Some? && f.startDate.value > f.endDate.value
    ensures FilterRows(rows, f) == []
  {
  }

  /** The search ignores the case of the term: searching for a term and for its lower-case
      form keep the same rows. */
  lemma SearchIgnoresCase(row: FeedbackRow, f: Filters)
    ensures SearchMatch(row, f) == SearchMatch(row, f.(searchTerm := ToLower(f.searchTerm)))
  {
    ToLowerIdempotent(f.searchTerm);
  }

  /** The empty-term test is a short cut: the empty term occurs in every name. */
  lemma EmptyTermOccursEverywhere(row: FeedbackRow, f: Filters)
    requires f.searchTerm == ""
    ensures Contains(ToLower(row.customerName), ToLower(f.searchTerm))
  {
    ContainsAt(ToLower(row.customerName), ToLower(f.searchTerm), 0);
  }

  /** Filtering again with the same criteria changes nothing. */
  lemma {:induction false} FilterIdempotent(rows: seq<FeedbackRow>, f: Filters)
    ensures FilterRows(FilterRows(rows, f), f) == FilterRows(rows, f)
  {
    if rows != [] {
      FilterIdempotent(rows[1..], f);
    }
  }

  /** Choosing one store in the data keeps exactly that store's row. */
  lemma WuseStoreScenario()
    ensures FilterRows(MockFeedbackData, NoFilters.(selectedStore := "Abuja - Wuse II"))
            == [MockFeedbackData[1]]
  {
    var f := NoFilters.(selectedStore := "Abuja - Wuse II");
    var d := MockFeedbackData;
    assert d[1..][1..][1..][1..][1..] == [];
    assert !Keep(d[0], f) && Keep(d[1], f) && !Keep(d[2], f) && !Keep(d[3], f) && !Keep(d[4], f);
  }

  /** Every store named in the dashboard data is one that the feedback page's store select
      offers. */
  lemma DashboardStoresAreOffered()
    ensures forall i :: 0 <= i < |MockFeedbackData| ==>
              MockFeedbackData[i].storeLocation in FeedbackForm.StoreLocations
  {
    var stores := FeedbackForm.StoreLocations;
    assert MockFeedbackData[0].storeLocation == stores[0];
    assert MockFeedbackData[1].storeLocation == stores[2];
    assert MockFeedbackData[2].storeLocation == stores[1];
    assert MockFeedbackData[3].storeLocation == stores[4];
    assert MockFeedbackData[4].storeLocation == stores[3];
  }

  // ---------------------------------------------------------------------------------
  // The date comparison as the page writes it.
  // `new Date("2023-04-25")` is midnight UTC of that day, while the calendar hands back
  // midnight of the picked day in the browser's time zone. Instants are counted here in
  // minutes, a day being 1440 of them, and `offset` is how many minutes local time is ahead
  // of UTC (60 in Lagos).

  const MinutesPerDay: int := 1440

  /** `!startDate || !endDate || (new Date(feedback.date) >= startDate && ... <= endDate)`:
      the row's UTC-midnight instant against the local-midnight instants of the two days. */
  predicate DateMatchAsWritten(rowDate: int, startDate: Option<int>, endDate: Option<int>, offset: int): (m: bool)
    ensures startDate.None? || endDate.None? ==> m
    ensures startDate.Some? && endDate.Some? ==>
              (m <==> startDate.value * MinutesPerDay - offset <= rowDate * MinutesPerDay
                                                        <= endDate.value * MinutesPerDay - offset)
  {
    startDate.None? || endDate.None? ||
    (rowDate * MinutesPerDay >= startDate.value * MinutesPerDay - offset &&
     rowDate * MinutesPerDay <= endDate.value * MinutesPerDay - offset)
  }

  /** Only in UTC does the written comparison include both ends of the range. */
  lemma AsWrittenMatchesAtUtc(row: FeedbackRow, f: Filters)
    ensures DateMatchAsWritten(row.date, f.startDate, f.endDate, 0) == DateMatch(row, f)
  {
  }

  /** East of UTC (offset between 1 minute and a day) the written comparison drops the end
      day: a row passes exactly when start <= day < end. */
  lemma {:induction false} AsWrittenEastOfUtcExcludesEnd(rowDate: int, s: int, e: int, offset: int)
    requires 0 < offset < MinutesPerDay
    ensures DateMatchAsWritten(rowDate, Some(s), Some(e), offset) <==> s <= rowDate < e
  {
    var a, b := rowDate - s, rowDate - e;
    assert rowDate * MinutesPerDay - s * MinutesPerDay == a * MinutesPerDay;
    assert rowDate * MinutesPerDay - e * MinutesPerDay == b * MinutesPerDay;
    if a < 0 { assert a * MinutesPerDay <= -MinutesPerDay; }
    if b >= 0 { assert b * MinutesPerDay >= 0; }
    if b < 0 { assert b * MinutesPerDay <= -MinutesPerDay; }
  }

  /** West of UTC the written comparison drops the start day instead: a row passes exactly
      when start < day <= end. */
  lemma {:induction false} AsWrittenWestOfUtcExcludesStart(rowDate: int, s: int, e: int, offset: int)
    requires -MinutesPerDay < offset < 0
    ensures DateMatchAsWritten(rowDate, Some(s), Some(e), offset) <==> s < rowDate <= e
  {
    var a, b := rowDate - s, rowDate - e;
    assert rowDate * MinutesPerDay - s * MinutesPerDay == a * MinutesPerDay;
    assert rowDate * MinutesPerDay - e * MinutesPerDay == b * MinutesPerDay;
    if a <= 0 { assert a * MinutesPerDay <= 0; }
    if a > 0 { assert a * MinutesPerDay >= MinutesPerDay; }
    if b > 0 { assert b * MinutesPerDay >= MinutesPerDay; }
  }

  /** In Lagos, picking 25 April as both start and end hides John Doe's review of 25 April,
      which the inclusive range keeps. */
  lemma LagosSingleDayIsEmpty()
    ensures !DateMatchAsWritten(MockFeedbackData[0].date, Some(Day(2023, 4, 25)), Some(Day(2023, 4, 25)), 60)
    ensures DateMatch(MockFeedbackData[0], NoFilters.(startDate := Some(Day(2023, 4, 25)), endDate := Some(Day(2023, 4, 25))))
  {
  }

  // ---------------------------------------------------------------------------------
  // Score colours.

  datatype Band = Red | Yellow | Green

  /** The colour of a score cell: green from 8, yellow from 6, red below. */
  function ScoreBand(score: int): (b: Band)
    ensures b != Red <==> score >= 6
    ensures b == Green <==> score >= 8
  {
    if score >= 8 then Green else if score >= 6 then Yellow else Red
  }

  function Rank(b: Band): nat {
    match b
    case Red => 0
    case Yellow => 1
    case Green => 2
  }

  /** Each score falls in exactly one band, decided by the thresholds 8 and 6. */
  lemma BandThresholds(score: int)
    ensures ScoreBand(score) == Green <==> 8 <= score
    ensures ScoreBand(score) == Yellow <==> 6 <= score < 8
    ensures ScoreBand(score) == Red <==> score < 6
  {
  }

  /** A higher score never gets a worse colour. */
  lemma BandMonotone(a: int, b: int)
    requires a <= b
    ensures Rank(ScoreBand(a)) <= Rank(ScoreBand(b))
  {
  }

  /** The colours of a row's four score cells, in column order (staff, cleanliness, products,
      overall); every column uses the same thresholds. */
  function RowBands(row: FeedbackRow): (bands: seq<Band>)
    ensures |bands| == 4
    ensures bands[0] == ScoreBand(row.staffFriendliness) && bands[1] == ScoreBand(row.cleanliness)
    ensures bands[2] == ScoreBand(row.productAvailability) && bands[3] == ScoreBand(row.overallExperience)
  {
    [ScoreBand(row.staffFriendliness), ScoreBand(row.cleanliness),
     ScoreBand(row.productAvailability), ScoreBand(row.overallExperience)]
  }

  // ---------------------------------------------------------------------------------
  // The filter state of the page.

  class ReportFilters {
    var startDate: Option<int>
    var endDate: Option<int>
    var selectedStore: string
    var searchTerm: string

    constructor ()
      ensures Criteria() == NoFilters
    {
      startDate, endDate := None, None;
      selectedStore, searchTerm := AllStores, "";
    }

    function Criteria(): Filters
      reads this
    {
      Filters(startDate, endDate, selectedStore, searchTerm)
    }

    /** The table's rows for the current filters. */
    function FilteredFeedback(): (rows: seq<FeedbackRow>)
      reads this
      ensures forall x :: x in rows <==> x in MockFeedbackData && Keep(x, Criteria())
    {
      FilterRows(MockFeedbackData, Criteria())
    }

    /** The start-date calendar; deselecting a day clears the date. */
    method SelectStartDate(d: Option<int>)
      modifies this
      ensures Criteria() == old(Criteria()).(startDate := d)
    {
      startDate := d;
    }

    method SelectEndDate(d: Option<int>)
      modifies this
      ensures Criteria() == old(Criteria()).(endDate := d)
    {
      endDate := d;
    }

    method SelectStore(store: string)
      modifies this
      ensures Criteria() == old(Criteria()).(selectedStore := store)
    {
      selectedStore := store;
    }

    method SetSearchTerm(term: string)
      modifies this
      ensures Criteria() == old(Criteria()).(searchTerm := term)
    {
      searchTerm := term;
    }

    /** Reset Filters: clears both dates, selects every store and empties the search, so the
        table shows the whole data set again. */
    method ResetFilters()
      modifies this
      ensures Criteria() == NoFilters
      ensures FilteredFeedback() == MockFeedbackData
    {
      startDate := None;
      endDate := None;
      selectedStore := AllStores;
      searchTerm := "";
      NoFiltersKeepAll(MockFeedbackData);
    }
  }
}

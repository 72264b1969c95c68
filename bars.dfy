/** The analyzer's input: one ticker's daily bars, the configuration constants it
    reads, and the date sort applied to the bars before they are scanned. */
module Bars {
  import opened Dates

  datatype Option<T> = None | Some(value: T)

  /** One trading day. Only the date, high, low and close of a bar are read. */
  datatype Bar = Bar(date: Date, high: real, low: real, close: real)

  /** The growth thresholds keyed by duration band. */
  datatype Thresholds = Thresholds(
    super64To252: real,
    growth64To252: real,
    super252To504: real,
    growth252To504: real)

  /** The configuration constants. Their values live outside the analyzer, so
      nothing is assumed about them. */
  datatype Config = Config(
    minGrowthPercentage: real,
    maxDrawdownPercentage: real,
    minDrawdownPercentage: real,
    growthMoveDays: int,
    maxDaysWithoutHigh: int,
    maxTotalDays: int,
    continuationWindowDays: int,
    thresholds: Thresholds)

  /** Day number of a bar's date. */
  function Day(b: Bar): int
  {
    DayNumber(b.date)
  }

  /** Every date parses. */
  predicate AllValidDates(data: seq<Bar>)
  {
    forall b :: b in data ==> ValidDate(b.date)
  }

  /** Prices as an exchange reports them: non-negative, with the close between
      the low and the high. */
  predicate WellFormedBars(data: seq<Bar>)
  {
    forall b :: b in data ==> 0.0 <= b.low <= b.close <= b.high
  }

  /** Day numbers never decrease along the series. */
  predicate Chronological(data: seq<Bar>)
  {
    forall i, j :: 0 <= i < j < |data| ==> Day(data[i]) <= Day(data[j])
  }

  /** Dates never decrease along the series, compared as date records. */
  predicate SortedByDate(data: seq<Bar>)
  {
    forall i, j :: 0 <= i < j < |data| ==> DateLe(data[i].date, data[j].date)
  }

  /** Inserts `b` before the first bar whose date is not earlier than its own, so
      bars with equal dates keep their relative order. */
  function InsertByDate(b: Bar, s: seq<Bar>): (r: seq<Bar>)
    ensures multiset(r) == multiset(s) + multiset{b}
  {
    if s == [] || DateLe(b.date, s[0].date) then [b] + s
    else
      assert s == [s[0]] + s[1..];
      [s[0]] + InsertByDate(b, s[1..])
  }

  /** Inserting into a date-sorted sequence keeps it sorted. */
  lemma {:induction false} InsertKeepsSorted(b: Bar, s: seq<Bar>)
    requires SortedByDate(s)
    ensures SortedByDate(InsertByDate(b, s))
  {
    if s != [] && !DateLe(b.date, s[0].date) {
      var rest := InsertByDate(b, s[1..]);
      InsertKeepsSorted(b, s[1..]);
      var r := [s[0]] + rest;
      assert InsertByDate(b, s) == r;
      assert s == [s[0]] + s[1..];
      forall x, y | 0 <= x < y < |r|
        ensures DateLe(r[x].date, r[y].date)
      {
        if x == 0 {
          var z := rest[y - 1];
          assert z in multiset(rest);
          if z != b {
            assert z in s[1..];
            var j :| 0 <= j < |s[1..]| && s[1..][j] == z;
            assert s[j + 1] == z;
          }
        } else {
          assert r[x] == rest[x - 1] && r[y] == rest[y - 1];
        }
      }
    }
  }

  /** The bars sorted by date; a stable insertion sort. */
  function SortByDate(data: seq<Bar>): (r: seq<Bar>)
    ensures SortedByDate(r)
    ensures multiset(r) == multiset(data)
    ensures |r| == |data|
  {
    if data == [] then []
    else
      assert data == [data[0]] + data[1..];
      var sorted := SortByDate(data[1..]);
      InsertKeepsSorted(data[0], sorted);
      InsertByDate(data[0], sorted)
  }

  /** Sorting keeps the same bars, so dates that parsed still parse. */
  lemma SortKeepsValidDates(data: seq<Bar>)
    requires AllValidDates(data)
    ensures AllValidDates(SortByDate(data))
  {
    var r := SortByDate(data);
    forall b | b in r
      ensures ValidDate(b.date)
    {
      assert b in multiset(r);
    }
  }

  /** Bars sorted by valid dates are chronological by day number. */
  lemma SortedIsChronological(data: seq<Bar>)
    requires AllValidDates(data) && SortedByDate(data)
    ensures Chronological(data)
  {
    forall i, j | 0 <= i < j < |data|
      ensures Day(data[i]) <= Day(data[j])
    {
      DayNumberOrder(data[i].date, data[j].date);
    }
  }
}

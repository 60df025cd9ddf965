/** The monthly test windows of monthly_pair_testing.py:28-39: starting from the start date,
    each window ends on the 25th of the following month, or at the end date when that comes
    first, and the next window starts where the previous one ended. */
module DateWindows {

  /** A calendar day; the time of day is not modelled. */
  datatype Date = Date(year: int, month: int, day: int)

  predicate ValidDate(d: Date) {
    1 <= d.month <= 12 && 1 <= d.day <= 31
  }

  /** Chronological order of datetimes at day granularity: lexicographic on (year, month, day). */
  predicate Before(a: Date, b: Date) {
    a.year < b.year ||
    (a.year == b.year && (a.month < b.month || (a.month == b.month && a.day < b.day)))
  }

  /** Months elapsed since year 0. */
  function MonthIndex(d: Date): int {
    d.year * 12 + d.month - 1
  }

  /** `current_date.replace(day=25)` followed by the month increment with December rolling over
      to January of the next year. */
  function NextBoundary(d: Date): (b: Date)
    requires ValidDate(d)
    ensures ValidDate(b) && b.day == 25
    ensures MonthIndex(b) == MonthIndex(d) + 1
    ensures Before(d, b)
  {
    if d.month < 12 then Date(d.year, d.month + 1, 25) else Date(d.year + 1, 1, 25)
  }

  /** The window end for a window starting at `cur`: the next boundary unless that lies after the
      end date. */
  function WindowEnd(cur: Date, end: Date): (e: Date)
    requires ValidDate(cur) && ValidDate(end)
    ensures ValidDate(e)
  {
    if Before(end, NextBoundary(cur)) then end else NextBoundary(cur)
  }

  datatype Window = Window(from: Date, to: Date)

  /** An upper bound on the windows still to come from `cur`. */
  function Remaining(cur: Date, end: Date): nat
    requires ValidDate(cur) && ValidDate(end)
  {
    if Before(cur, end) then MonthIndex(end) - MonthIndex(cur) + 1 else 0
  }

  /** The list the loop builds, window by window. */
  function Ranges(cur: Date, end: Date): seq<Window>
    requires ValidDate(cur) && ValidDate(end)
    decreases Remaining(cur, end)
  {
    if !Before(cur, end) then []
    else
      var next := WindowEnd(cur, end);
      [Window(cur, next)] + Ranges(next, end)
  }

  /** The `while current_date < end_date` loop of monthly_pair_testing.py:28-39. */
  method DateRanges(start: Date, end: Date) returns (ranges: seq<Window>)
    requires ValidDate(start) && ValidDate(end)
    ensures ranges == Ranges(start, end)
  {
    ranges := [];
    var current := start;
    while Before(current, end)
      invariant ValidDate(current)
      invariant ranges + Ranges(current, end) == Ranges(start, end)
      decreases Remaining(current, end)
    {
      var next := NextBoundary(current);
      if Before(end, next) {
        next := end;
      }
      assert Ranges(current, end) == [Window(current, next)] + Ranges(next, end);
      ranges := ranges + [Window(current, next)];
      current := next;
    }
  }

  /** The shape of the window list: empty exactly when the start is not before the end; it starts
      at the start date and ends exactly at the end date; each window starts where the previous
      one ended; each window is non-empty and ends no later than the end date; a window ends on
      the next 25th unless that lies past the end date, so every window but the last ends on a
      25th strictly before the end date. */
  lemma {:induction false} RangesShape(cur: Date, end: Date)
    requires ValidDate(cur) && ValidDate(end)
    decreases Remaining(cur, end)
    ensures var r := Ranges(cur, end);
      && (r == [] <==> !Before(cur, end))
      && (r != [] ==> r[0].from == cur && r[|r| - 1].to == end)
      && (forall k :: 0 < k < |r| ==> r[k].from == r[k - 1].to)
      && (forall k :: 0 <= k < |r| ==> ValidDate(r[k].from) && Before(r[k].from, r[k].to) && !Before(end, r[k].to))
      && (forall k :: 0 <= k < |r| ==>
            (Before(end, NextBoundary(r[k].from)) ==> r[k].to == end) &&
            (!Before(end, NextBoundary(r[k].from)) ==> r[k].to == NextBoundary(r[k].from)))
      && (forall k :: 0 <= k < |r| - 1 ==> r[k].to == NextBoundary(r[k].from) && Before(r[k].to, end))
  {
    if Before(cur, end) {
      var next := WindowEnd(cur, end);
      RangesShape(next, end);
      var rest := Ranges(next, end);
      var r := Ranges(cur, end);
      assert r == [Window(cur, next)] + rest;
      assert forall k :: 0 < k < |r| ==> r[k] == rest[k - 1];
      if rest == [] {
        assert !Before(next, end);
        assert next == end;
      }
    }
  }

  /** The script's own dates: 2023-10-25 to 2023-11-25 give the single window between them. */
  lemma ScriptWindow()
    ensures Ranges(Date(2023, 10, 25), Date(2023, 11, 25)) == [Window(Date(2023, 10, 25), Date(2023, 11, 25))]
  {
    assert Ranges(Date(2023, 11, 25), Date(2023, 11, 25)) == [];
  }

  /** A December start rolls over into January of the next year, and the last window is cut at the
      end date. */
  lemma YearRolloverExample()
    ensures Ranges(Date(2023, 12, 10), Date(2024, 2, 1)) ==
      [Window(Date(2023, 12, 10), Date(2024, 1, 25)), Window(Date(2024, 1, 25), Date(2024, 2, 1))]
  {
    var r2 := Ranges(Date(2024, 1, 25), Date(2024, 2, 1));
    assert Ranges(Date(2024, 2, 1), Date(2024, 2, 1)) == [];
    assert r2 == [Window(Date(2024, 1, 25), Date(2024, 2, 1))];
  }
}

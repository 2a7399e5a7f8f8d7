/**
  The time entry as the backend returns it, and the month filter and hour
  sums that both the dashboard and the profile page compute over a list of
  entries.
 */
module Entries {
  import opened Wrappers
  import opened Calendar
  import opened Shift

  /** The three overtime reasons of the reason `<select>`. */
  datatype Reason = Busy | LastOrder | CompanyRequest

  /** The responsible person; `Nobody` is the empty string. */
  datatype Person = Nobody | Adilcan | Boss

  /**
    A stored time entry. `hours` is the count the backend persisted; it is
    never recomputed from `start` and `end`.
   */
  datatype TimeEntry = TimeEntry(
    id: string,
    date: Date,
    start: Instant,
    end: Instant,
    hours: real,
    overtimeReason: Option<Reason>,
    responsiblePerson: Person)

  predicate InMonth(e: TimeEntry, month: int, year: int) {
    e.date.month == month && e.date.year == year
  }

  /** The entries dated in the given month (1-based) of the given year, in list order. */
  function FilterMonth(s: seq<TimeEntry>, month: int, year: int): (r: seq<TimeEntry>)
    ensures |r| <= |s|
    ensures forall e :: e in r <==> e in s && InMonth(e, month, year)
  {
    if s == [] then []
    else if InMonth(s[0], month, year) then [s[0]] + FilterMonth(s[1..], month, year)
    else FilterMonth(s[1..], month, year)
  }

  /** The entries NOT dated in the given month, in list order. */
  function FilterOtherMonths(s: seq<TimeEntry>, month: int, year: int): (r: seq<TimeEntry>)
    ensures forall e :: e in r <==> e in s && !InMonth(e, month, year)
  {
    if s == [] then []
    else if InMonth(s[0], month, year) then FilterOtherMonths(s[1..], month, year)
    else [s[0]] + FilterOtherMonths(s[1..], month, year)
  }

  /** The sum of the persisted hours (the `reduce` with `sum + entry.hours`); never negative when no entry is. */
  function SumHours(s: seq<TimeEntry>): (r: real)
    ensures (forall i :: 0 <= i < |s| ==> s[i].hours >= 0.0) ==> r >= 0.0
  {
    if s == [] then 0.0
    else
      assert forall i :: 0 <= i < |s[1..]| ==> s[1..][i] == s[i + 1];
      s[0].hours + SumHours(s[1..])
  }

  /** The number of entries of at most twelve hours: all of them exactly when none exceeds twelve. */
  function CountRegular(s: seq<TimeEntry>): (r: nat)
    ensures r <= |s|
    ensures r == |s| <==> forall i :: 0 <= i < |s| ==> s[i].hours <= 12.0
  {
    if s == [] then 0
    else
      assert forall i :: 0 <= i < |s[1..]| ==> s[1..][i] == s[i + 1];
      (if s[0].hours <= 12.0 then 1 else 0) + CountRegular(s[1..])
  }

  /** The number of entries of more than twelve hours: none exactly when no entry exceeds twelve. */
  function CountOvertime(s: seq<TimeEntry>): (r: nat)
    ensures r <= |s|
    ensures r == 0 <==> forall i :: 0 <= i < |s| ==> s[i].hours <= 12.0
  {
    if s == [] then 0
    else
      assert forall i :: 0 <= i < |s[1..]| ==> s[1..][i] == s[i + 1];
      (if s[0].hours > 12.0 then 1 else 0) + CountOvertime(s[1..])
  }

  /** Regular and overtime entries partition the list. */
  lemma {:induction false} RegularOvertimePartition(s: seq<TimeEntry>)
    ensures CountRegular(s) + CountOvertime(s) == |s|
  {
    if s != [] {
      RegularOvertimePartition(s[1..]);
    }
  }

  /** Sums and counts split over a concatenation. */
  lemma {:induction false} SumsOfConcat(a: seq<TimeEntry>, b: seq<TimeEntry>)
    ensures SumHours(a + b) == SumHours(a) + SumHours(b)
    ensures CountRegular(a + b) == CountRegular(a) + CountRegular(b)
    ensures CountOvertime(a + b) == CountOvertime(a) + CountOvertime(b)
  {
    if a != [] {
      assert (a + b)[1..] == a[1..] + b;
      SumsOfConcat(a[1..], b);
    } else {
      assert a + b == b;
    }
  }

  /** The hours of one month plus the hours of all other months are the total. */
  lemma {:induction false} MonthSplitsTotal(s: seq<TimeEntry>, month: int, year: int)
    ensures SumHours(FilterMonth(s, month, year)) + SumHours(FilterOtherMonths(s, month, year)) == SumHours(s)
  {
    if s != [] {
      MonthSplitsTotal(s[1..], month, year);
      if InMonth(s[0], month, year) {
        SumsOfConcat([s[0]], FilterMonth(s[1..], month, year));
      } else {
        SumsOfConcat([s[0]], FilterOtherMonths(s[1..], month, year));
      }
    }
  }

  /** With no negative hours, one month's hours never exceed the total. */
  lemma MonthHoursAtMostTotal(s: seq<TimeEntry>, month: int, year: int)
    requires forall i :: 0 <= i < |s| ==> s[i].hours >= 0.0
    ensures SumHours(FilterMonth(s, month, year)) <= SumHours(s)
  {
    MonthSplitsTotal(s, month, year);
    var others := FilterOtherMonths(s, month, year);
    assert forall i :: 0 <= i < |others| ==> others[i] in s;
  }

  lemma {:induction false} FilterMonthOfConcat(a: seq<TimeEntry>, b: seq<TimeEntry>, month: int, year: int)
    ensures FilterMonth(a + b, month, year) == FilterMonth(a, month, year) + FilterMonth(b, month, year)
  {
    if a == [] {
      assert a + b == b;
    } else {
      assert (a + b)[1..] == a[1..] + b;
      FilterMonthOfConcat(a[1..], b, month, year);
    }
  }

  /** Appending an entry adds its hours to its own month's total and to no other. */
  lemma AppendAddsToMonth(s: seq<TimeEntry>, e: TimeEntry, month: int, year: int)
    ensures SumHours(FilterMonth(s + [e], month, year)) ==
      SumHours(FilterMonth(s, month, year)) + (if InMonth(e, month, year) then e.hours else 0.0)
  {
    FilterMonthOfConcat(s, [e], month, year);
    SumsOfConcat(FilterMonth(s, month, year), FilterMonth([e], month, year));
    assert [e][1..] == [];
  }
}

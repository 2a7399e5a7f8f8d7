/**
  The dashboard's list bookkeeping: replacing an edited entry, dropping a
  deleted one, and the monthly view (filter by month and year, newest
  date first, hour total and the regular/overtime split).
 */
module MonthView {
  import opened Wrappers
  import opened Calendar
  import opened Shift
  import opened Entries

  /** Every entry whose id matches is replaced by `updated`; the rest stay where they are. */
  function ReplaceById(s: seq<TimeEntry>, updated: TimeEntry): (r: seq<TimeEntry>)
    ensures |r| == |s|
    ensures forall i :: 0 <= i < |s| ==> r[i] == if s[i].id == updated.id then updated else s[i]
  {
    if s == [] then []
    else [if s[0].id == updated.id then updated else s[0]] + ReplaceById(s[1..], updated)
  }

  /** The entries whose id differs from `id`, in their original order. */
  function RemoveById(s: seq<TimeEntry>, id: string): (r: seq<TimeEntry>)
    ensures |r| <= |s|
    ensures forall e :: e in r <==> e in s && e.id != id
  {
    if s == [] then []
    else if s[0].id == id then RemoveById(s[1..], id)
    else [s[0]] + RemoveById(s[1..], id)
  }

  /** Removal works piece by piece, so the kept entries keep their relative order. */
  lemma {:induction false} RemoveByIdOfConcat(a: seq<TimeEntry>, b: seq<TimeEntry>, id: string)
    ensures RemoveById(a + b, id) == RemoveById(a, id) + RemoveById(b, id)
  {
    if a == [] {
      assert a + b == b;
    } else {
      assert (a + b)[1..] == a[1..] + b;
      RemoveByIdOfConcat(a[1..], b, id);
    }
  }

  /** Removing an id that no entry carries changes nothing. */
  lemma {:induction false} RemoveAbsentId(s: seq<TimeEntry>, id: string)
    requires forall e :: e in s ==> e.id != id
    ensures RemoveById(s, id) == s
  {
    if s != [] {
      RemoveAbsentId(s[1..], id);
    }
  }

  /** Deleting a freshly appended entry whose id was new restores the list. */
  lemma DeleteUndoesAppend(s: seq<TimeEntry>, e: TimeEntry)
    requires forall x :: x in s ==> x.id != e.id
    ensures RemoveById(s + [e], e.id) == s
  {
    RemoveByIdOfConcat(s, [e], e.id);
    RemoveAbsentId(s, e.id);
  }

  /** Ordering of entries by date, newest first. */
  predicate SortedNewestFirst(s: seq<TimeEntry>) {
    forall i, j :: 0 <= i < j < |s| ==> !DateBefore(s[i].date, s[j].date)
  }

  /** "Not before" is transitive: dates are totally ordered. */
  lemma NotBeforeTransitive(a: Date, b: Date, c: Date)
    requires !DateBefore(a, b) && !DateBefore(b, c)
    ensures !DateBefore(a, c)
  {
  }

  lemma ConsSorted(h: TimeEntry, t: seq<TimeEntry>)
    requires SortedNewestFirst(t)
    requires forall x :: x in t ==> !DateBefore(h.date, x.date)
    ensures SortedNewestFirst([h] + t)
  {
    var r := [h] + t;
    forall i, j | 0 <= i < j < |r| ensures !DateBefore(r[i].date, r[j].date) {
      if i == 0 {
        assert r[j] == t[j - 1];
      } else {
        assert r[i] == t[i - 1] && r[j] == t[j - 1];
      }
    }
  }

  /** Puts `e` in front of the first entry dated no later than it (so ties keep input order). */
  function InsertByDate(e: TimeEntry, s: seq<TimeEntry>): (r: seq<TimeEntry>)
    requires SortedNewestFirst(s)
    ensures SortedNewestFirst(r)
    ensures multiset(r) == multiset(s) + multiset{e}
  {
    if s == [] || !DateBefore(e.date, s[0].date) then
      assert forall x :: x in s ==> !DateBefore(e.date, x.date) by {
        forall x | x in s ensures !DateBefore(e.date, x.date) {
          var j :| 0 <= j < |s| && s[j] == x;
          if j > 0 { NotBeforeTransitive(e.date, s[0].date, x.date); }
        }
      }
      ConsSorted(e, s);
      [e] + s
    else
      var rest := InsertByDate(e, s[1..]);
      assert s == [s[0]] + s[1..];
      assert forall x :: x in rest ==> !DateBefore(s[0].date, x.date) by {
        forall x | x in rest ensures !DateBefore(s[0].date, x.date) {
          assert x in multiset(rest);
          if x != e {
            assert x in multiset(s[1..]);
            var j :| 0 <= j < |s[1..]| && s[1..][j] == x;
            assert s[j + 1] == x;
          }
        }
      }
      ConsSorted(s[0], rest);
      [s[0]] + rest
  }

  /** A stable sort by date, newest first (the comparator `b.date - a.date`). */
  function SortNewestFirst(s: seq<TimeEntry>): (r: seq<TimeEntry>)
    ensures SortedNewestFirst(r)
    ensures multiset(r) == multiset(s)
  {
    if s == [] then []
    else
      assert s == [s[0]] + s[1..];
      InsertByDate(s[0], SortNewestFirst(s[1..]))
  }

  /** Sums and counts do not depend on the order of the entries. */
  lemma {:induction false} InsertKeepsSums(e: TimeEntry, s: seq<TimeEntry>)
    requires SortedNewestFirst(s)
    ensures SumHours(InsertByDate(e, s)) == e.hours + SumHours(s)
    ensures CountRegular(InsertByDate(e, s)) == CountRegular([e]) + CountRegular(s)
    ensures CountOvertime(InsertByDate(e, s)) == CountOvertime([e]) + CountOvertime(s)
  {
    if s == [] || !DateBefore(e.date, s[0].date) {
      SumsOfConcat([e], s);
    } else {
      InsertKeepsSums(e, s[1..]);
      SumsOfConcat([s[0]], InsertByDate(e, s[1..]));
      SumsOfConcat([s[0]], s[1..]);
      assert s == [s[0]] + s[1..];
    }
  }

  lemma {:induction false} SortKeepsSums(s: seq<TimeEntry>)
    ensures SumHours(SortNewestFirst(s)) == SumHours(s)
    ensures CountRegular(SortNewestFirst(s)) == CountRegular(s)
    ensures CountOvertime(SortNewestFirst(s)) == CountOvertime(s)
  {
    if s != [] {
      SortKeepsSums(s[1..]);
      InsertKeepsSums(s[0], SortNewestFirst(s[1..]));
      SumsOfConcat([s[0]], s[1..]);
      assert s == [s[0]] + s[1..];
    }
  }

  datatype MonthStats = MonthStats(totalHours: real, regularDays: nat, overtimeDays: nat)

  /**
    The monthly view: the selected month's entries, newest first, and their
    statistics, computed from the persisted hours.
   */
  function MonthlyView(entries: seq<TimeEntry>, month: int, year: int): (v: (seq<TimeEntry>, MonthStats))
    ensures forall e :: e in v.0 <==> e in entries && InMonth(e, month, year)
    ensures multiset(v.0) == multiset(FilterMonth(entries, month, year))
    ensures SortedNewestFirst(v.0)
    ensures v.1.totalHours == SumHours(FilterMonth(entries, month, year))
    ensures v.1.regularDays == CountRegular(FilterMonth(entries, month, year))
    ensures v.1.overtimeDays == CountOvertime(FilterMonth(entries, month, year))
    ensures v.1.regularDays + v.1.overtimeDays == |v.0|
  {
    var filtered := SortNewestFirst(FilterMonth(entries, month, year));
    SortKeepsSums(FilterMonth(entries, month, year));
    RegularOvertimePartition(filtered);
    assert forall e :: e in filtered <==> e in multiset(filtered);
    (filtered, MonthStats(SumHours(filtered), CountRegular(filtered), CountOvertime(filtered)))
  }

  /** An entry recorded on `d` with the given persisted hours (for the example below). */
  function Recorded(id: string, d: Date, hours: real): TimeEntry {
    TimeEntry(id, d, Instant(d, 0), Instant(d, 0), hours, None, Nobody)
  }

  /** The March 2024 example: 21 hours, one regular and one overtime day, the 15th first. */
  lemma MarchExample()
    ensures
      var a, b, c := Recorded("a", Date(2024, 3, 1), 8.0), Recorded("b", Date(2024, 3, 15), 13.0), Recorded("c", Date(2024, 2, 1), 5.0);
      MonthlyView([a, b, c], 3, 2024) == ([b, a], MonthStats(21.0, 1, 1))
  {
    var a, b, c := Recorded("a", Date(2024, 3, 1), 8.0), Recorded("b", Date(2024, 3, 15), 13.0), Recorded("c", Date(2024, 2, 1), 5.0);
    MarchFilter(a, b, c);
    MarchSort(a, b);
    MarchSums(a, b);
  }

  lemma MarchFilter(a: TimeEntry, b: TimeEntry, c: TimeEntry)
    requires InMonth(a, 3, 2024) && InMonth(b, 3, 2024) && !InMonth(c, 3, 2024)
    ensures FilterMonth([a, b, c], 3, 2024) == [a, b]
  {
    assert [a, b, c][1..] == [b, c] && [b, c][1..] == [c] && [c][1..] == [];
    assert FilterMonth([b, c], 3, 2024) == [b];
  }

  lemma MarchSort(a: TimeEntry, b: TimeEntry)
    requires DateBefore(a.date, b.date)
    ensures SortNewestFirst([a, b]) == [b, a]
  {
    assert [a, b][1..] == [b] && [b][1..] == [];
    assert SortNewestFirst([b]) == [b];
  }

  lemma MarchSums(a: TimeEntry, b: TimeEntry)
    requires a.hours == 8.0 && b.hours == 13.0
    ensures SumHours([b, a]) == 21.0 && CountRegular([b, a]) == 1 && CountOvertime([b, a]) == 1
  {
    assert [b, a][1..] == [a] && [a][1..] == [];
    assert SumHours([a]) == 8.0 && CountRegular([a]) == 1 && CountOvertime([a]) == 0;
  }
}

/** The monthly analytics view: per-day completion counts of the selected month,
    coloured in the calendar by activity tier, with the number of skipped days
    and the chart's (date, count) series. */
module MonthlyHabit {
  import opened JsValues

  /** One element of `GET /analytics/user-habit-count/:year/:month`. */
  datatype DayEntry = DayEntry(date: string, count: int, habits: Option<seq<string>>)

  /** The body of that response (its HTTP status and `data`). */
  datatype MonthReply = MonthReply(status: int, data: seq<DayEntry>)

  /** One point of the chart series `data`. */
  datatype ChartPoint = ChartPoint(date: string, count: int)

  /** The calendar modifier a day gets; NoActivity days get none. */
  datatype Tier = NoActivity | Low | Medium | High

  /** The `if / else if` chain of `modifiers`. */
  function Classify(count: int): Tier {
    if count >= 5 then High
    else if count >= 3 then Medium
    else if count >= 1 then Low
    else NoActivity
  }

  /** The bands: high from 5, medium 3-4, low 1-2, none at 0 or below. */
  lemma ClassifyBands(count: int)
    ensures Classify(count) == High <==> count >= 5
    ensures Classify(count) == Medium <==> 3 <= count <= 4
    ensures Classify(count) == Low <==> 1 <= count <= 2
    ensures Classify(count) == NoActivity <==> count <= 0
  {
  }

  /** The dates pushed onto the list of tier `t`, in input order. */
  function DatesOfTier(data: seq<DayEntry>, t: Tier): seq<string> {
    if |data| == 0 then []
    else
      var last := data[|data| - 1];
      DatesOfTier(data[..|data| - 1], t) + (if Classify(last.count) == t then [last.date] else [])
  }

  /** The tier lists work piecewise over the input, so each keeps input order. */
  lemma {:induction false} DatesOfTierConcat(a: seq<DayEntry>, b: seq<DayEntry>, t: Tier)
    ensures DatesOfTier(a + b, t) == DatesOfTier(a, t) + DatesOfTier(b, t)
  {
    if |b| == 0 {
      assert a + b == a;
    } else {
      assert (a + b)[..|a + b| - 1] == a + b[..|b| - 1];
      DatesOfTierConcat(a, b[..|b| - 1], t);
    }
  }

  /** A date is in the list of tier `t` exactly when some entry with that date
      has a count of tier `t`. */
  lemma {:induction false} DatesOfTierMembers(data: seq<DayEntry>, t: Tier, date: string)
    ensures date in DatesOfTier(data, t) <==>
      exists j :: 0 <= j < |data| && data[j].date == date && Classify(data[j].count) == t
  {
    if |data| > 0 {
      var init := data[..|data| - 1];
      DatesOfTierMembers(init, t, date);
      if exists j :: 0 <= j < |init| && init[j].date == date && Classify(init[j].count) == t {
        var j :| 0 <= j < |init| && init[j].date == date && Classify(init[j].count) == t;
        assert data[j] == init[j];
      }
      if exists j :: 0 <= j < |data| && data[j].date == date && Classify(data[j].count) == t {
        var j :| 0 <= j < |data| && data[j].date == date && Classify(data[j].count) == t;
        if j < |init| { assert init[j] == data[j]; }
      }
    }
  }

  /** With one entry per date (as the month series has), the three lists are
      pairwise disjoint and a day of count 0 or below is in none of them. */
  lemma TiersDisjoint(data: seq<DayEntry>, date: string, t: Tier, u: Tier)
    requires forall i, j :: 0 <= i < j < |data| ==> data[i].date != data[j].date
    requires t != u
    ensures !(date in DatesOfTier(data, t) && date in DatesOfTier(data, u))
  {
    DatesOfTierMembers(data, t, date);
    DatesOfTierMembers(data, u, date);
  }

  /** `modifiers`: one pass pushing each date onto the list of its tier. */
  method Modifiers(habitData: seq<DayEntry>) returns (highActivity: seq<string>, mediumActivity: seq<string>, lowActivity: seq<string>)
    ensures highActivity == DatesOfTier(habitData, High)
    ensures mediumActivity == DatesOfTier(habitData, Medium)
    ensures lowActivity == DatesOfTier(habitData, Low)
  {
    highActivity, mediumActivity, lowActivity := [], [], [];
    var i := 0;
    while i < |habitData|
      invariant 0 <= i <= |habitData|
      invariant highActivity == DatesOfTier(habitData[..i], High)
      invariant mediumActivity == DatesOfTier(habitData[..i], Medium)
      invariant lowActivity == DatesOfTier(habitData[..i], Low)
    {
      var item := habitData[i];
      assert habitData[..i + 1][..i] == habitData[..i];
      if item.count >= 5 {
        highActivity := highActivity + [item.date];
      } else if item.count >= 3 {
        mediumActivity := mediumActivity + [item.date];
      } else if item.count >= 1 {
        lowActivity := lowActivity + [item.date];
      }
      i := i + 1;
    }
    assert habitData[..i] == habitData;
  }

  /** `habitData.filter(item => item.count === 0).length`. */
  function SkippedDays(data: seq<DayEntry>): (n: nat)
    ensures n <= |data|
    ensures n == |set j | 0 <= j < |data| && data[j].count == 0|
  {
    if |data| == 0 then 0
    else
      var init, k := data[..|data| - 1], |data| - 1;
      var before := set j | 0 <= j < |init| && init[j].count == 0;
      assert k !in before;
      assert (set j | 0 <= j < |data| && data[j].count == 0)
          == before + (if data[k].count == 0 then {k} else {});
      SkippedDays(init) + (if data[k].count == 0 then 1 else 0)
  }

  /** Skipped days and the three tier lists account for every day of a series
      without negative counts. */
  lemma {:induction false} SkippedAndTiersPartition(data: seq<DayEntry>)
    requires forall j :: 0 <= j < |data| ==> data[j].count >= 0
    ensures SkippedDays(data) + |DatesOfTier(data, Low)| + |DatesOfTier(data, Medium)|
          + |DatesOfTier(data, High)| == |data|
  {
    if |data| > 0 {
      SkippedAndTiersPartition(data[..|data| - 1]);
    }
  }

  /** `data`: the chart series, the (date, count) of every entry in order. */
  function Project(habitData: seq<DayEntry>): (r: seq<ChartPoint>)
    ensures |r| == |habitData|
    ensures forall j :: 0 <= j < |r| ==> r[j].date == habitData[j].date && r[j].count == habitData[j].count
  {
    seq(|habitData|, j requires 0 <= j < |habitData| => ChartPoint(habitData[j].date, habitData[j].count))
  }

  /** The month a calendar `Date` reports: its full year and its 0-based `getMonth()`. */
  type MonthIndex = m: int | 0 <= m < 12
  datatype CalendarDate = CalendarDate(fullYear: int, monthIndex: MonthIndex)

  class MonthlyHabits {
    var selectedMonth: int
    var selectedYear: int
    var habitData: seq<DayEntry>
    var loading: bool

    constructor (today: CalendarDate)
      ensures selectedMonth == today.monthIndex + 1 && selectedYear == today.fullYear
      ensures habitData == [] && !loading
    {
      selectedMonth, selectedYear := today.monthIndex + 1, today.fullYear;
      habitData, loading := [], false;
    }

    /** `fetchData`: a reply with status 200 replaces the series; any other status
        or a thrown request leaves it unchanged. Loading ends false. */
    method FetchData(outcome: Fetched<MonthReply>)
      modifies this`habitData, this`loading
      ensures !loading
      ensures habitData == if outcome.Returned? && outcome.result.status == 200
        then outcome.result.data else old(habitData)
    {
      loading := true;
      if outcome.Returned? && outcome.result.status == 200 {
        habitData := outcome.result.data;
      }
      loading := false;
    }

    /** `handleMonthChange`: month `getMonth() + 1`, year from the same date. */
    method HandleMonthChange(newMonth: CalendarDate)
      modifies this`selectedMonth, this`selectedYear
      ensures 1 <= selectedMonth <= 12
      ensures selectedMonth - 1 == newMonth.monthIndex && selectedYear == newMonth.fullYear
    {
      selectedMonth := newMonth.monthIndex + 1;
      selectedYear := newMonth.fullYear;
    }
  }
}

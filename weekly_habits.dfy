/** The weekly analytics view. Calendar days are day numbers (day 0 is
    1970-01-01, a Thursday); weeks start on Sunday. The view shows the week of
    `selectedDay`, the per-day completion counts of that week and a grid of
    habit rows with the days each habit was done. */
module WeeklyHabits {
  import opened JsValues
  import Pagination

  /** The day of the week, 0 for Sunday to 6 for Saturday. */
  function Weekday(d: int): (w: int)
    ensures 0 <= w < 7
  {
    (d + 4) % 7
  }

  /** `startOfWeek(d, { weekStartsOn: 0 })`: the Sunday on or before `d`. */
  function StartOfWeek(d: int): (s: int)
    ensures Weekday(s) == 0
    ensures s <= d < s + 7
  {
    d - Weekday(d)
  }

  /** `endOfWeek(d, { weekStartsOn: 0 })`: the Saturday six days after that Sunday. */
  function EndOfWeek(d: int): (e: int)
    ensures Weekday(e) == 6
    ensures e - 7 < d <= e
  {
    StartOfWeek(d) + 6
  }

  /** There is exactly one Sunday in the seven days ending on `d`. */
  lemma StartOfWeekUnique(d: int, s: int)
    requires Weekday(s) == 0 && s <= d < s + 7
    ensures s == StartOfWeek(d)
  {
    var t := StartOfWeek(d);
    assert (s + 4) % 7 == 0 && (t + 4) % 7 == 0;
    assert -7 < s - t < 7;
    assert (s - t) % 7 == 0;
  }

  /** Days of the same week share their start, and a Sunday starts its own week. */
  lemma {:induction false} StartOfWeekOfWeekDays(d: int)
    ensures StartOfWeek(StartOfWeek(d)) == StartOfWeek(d)
    ensures StartOfWeek(EndOfWeek(d)) == StartOfWeek(d)
  {
    StartOfWeekUnique(StartOfWeek(d), StartOfWeek(d));
    StartOfWeekUnique(EndOfWeek(d), StartOfWeek(d));
  }

  /** Moving a day by whole weeks moves its week start by the same amount. */
  lemma StartOfWeekShift(d: int, weeks: int)
    ensures StartOfWeek(d + 7 * weeks) == StartOfWeek(d) + 7 * weeks
  {
    var s := StartOfWeek(d) + 7 * weeks;
    assert (s + 4) % 7 == (StartOfWeek(d) + 4 + 7 * weeks) % 7 == 0;
    StartOfWeekUnique(d + 7 * weeks, s);
  }

  datatype Direction = NextWeek | PrevWeek

  /** `handleChangeWeek`: "next" adds seven days; "prev" goes to the Sunday of the
      week seven days earlier. */
  function ChangeWeek(selectedDay: int, direction: Direction): int {
    match direction
    case NextWeek => selectedDay + 7
    case PrevWeek => StartOfWeek(selectedDay - 7)
  }

  /** "next" shows the following week and "prev" the previous one; "prev" always
      lands on a Sunday. */
  lemma ChangeWeekMovesOneWeek(selectedDay: int)
    ensures StartOfWeek(ChangeWeek(selectedDay, NextWeek)) == StartOfWeek(selectedDay) + 7
    ensures StartOfWeek(ChangeWeek(selectedDay, PrevWeek)) == StartOfWeek(selectedDay) - 7
    ensures Weekday(ChangeWeek(selectedDay, PrevWeek)) == 0
  {
    StartOfWeekShift(selectedDay, 1);
    StartOfWeekShift(selectedDay, -1);
    StartOfWeekOfWeekDays(selectedDay - 7);
  }

  /** "prev" then "next" shows the week shown before. */
  lemma PrevThenNext(selectedDay: int)
    ensures StartOfWeek(ChangeWeek(ChangeWeek(selectedDay, PrevWeek), NextWeek)) == StartOfWeek(selectedDay)
  {
    ChangeWeekMovesOneWeek(selectedDay);
    ChangeWeekMovesOneWeek(ChangeWeek(selectedDay, PrevWeek));
  }

  /** date-fns `isThisWeek(x)` with Sunday-start weeks, relative to `today`. */
  predicate IsThisWeek(x: int, today: int) {
    StartOfWeek(x) == StartOfWeek(today)
  }

  /** The next-week button is `disabled={isThisWeek(endRange)}`. */
  predicate NextWeekDisabled(selectedDay: int, today: int) {
    IsThisWeek(EndOfWeek(selectedDay), today)
  }

  /** The button is disabled exactly while the current week is shown, so
      starting at or before this week an enabled "next" never goes past it. */
  lemma NextWeekNeverPassesToday(selectedDay: int, today: int)
    requires StartOfWeek(selectedDay) <= StartOfWeek(today)
    ensures NextWeekDisabled(selectedDay, today) <==> StartOfWeek(selectedDay) == StartOfWeek(today)
    ensures !NextWeekDisabled(selectedDay, today) ==>
      StartOfWeek(ChangeWeek(selectedDay, NextWeek)) <= StartOfWeek(today)
  {
    StartOfWeekOfWeekDays(selectedDay);
    ChangeWeekMovesOneWeek(selectedDay);
    // Week starts lie a multiple of seven apart.
    var a, b := StartOfWeek(selectedDay), StartOfWeek(today);
    assert (a + 4) % 7 == 0 && (b + 4) % 7 == 0;
    assert (b - a) % 7 == 0;
  }

  /** A row of the grid: `{ habit, day }` of `GET /analytics/habit-days/...`. */
  datatype HabitDays = HabitDays(habit: string, day: seq<int>)

  /** `habit.day.map(key).includes(key(cellDay))`, on day numbers. */
  function CellActive(days: seq<int>, cellDay: int): (active: bool)
    ensures active <==> exists j :: 0 <= j < |days| && days[j] == cellDay
  {
    if |days| == 0 then false
    else
      assert forall j :: 1 <= j < |days| ==> days[j] == days[1..][j - 1];
      days[0] == cellDay || CellActive(days[1..], cellDay)
  }

  /** One element of the week's per-day completion counts. */
  datatype DayCount = DayCount(date: string, count: int)

  /** `userHabitCount.filter(item => item.count === 0).length`. */
  function SkippedDays(counts: seq<DayCount>): (n: nat)
    ensures n <= |counts|
    ensures n == |counts| <==> forall j :: 0 <= j < |counts| ==> counts[j].count == 0
    ensures n == 0 <==> forall j :: 0 <= j < |counts| ==> counts[j].count != 0
    ensures n == |set j | 0 <= j < |counts| && counts[j].count == 0|
  {
    if |counts| == 0 then 0
    else
      var init, k := counts[..|counts| - 1], |counts| - 1;
      var before := set j | 0 <= j < |init| && init[j].count == 0;
      assert k !in before;
      assert (set j | 0 <= j < |counts| && counts[j].count == 0)
          == before + (if counts[k].count == 0 then {k} else {});
      SkippedDays(init) + (if counts[k].count == 0 then 1 else 0)
  }

  /** `response.data.data` of the habit-days request; `None` when it is missing,
      so that reading its fields throws. */
  datatype HabitDaysPage = HabitDaysPage(data: Option<seq<HabitDays>>, totalPages: int)

  /** What the card body shows. */
  datatype CardBody = Spinner | Barren | Grid

  function Body(loadingHabits: bool, habits: seq<HabitDays>, counts: seq<DayCount>): (b: CardBody)
    ensures b == Grid <==> !loadingHabits && |habits| > 0 && |counts| > 0
  {
    if loadingHabits then Spinner
    else if |habits| == 0 || |counts| == 0 then Barren
    else Grid
  }

  class WeeklyHabitsView {
    var selectedDay: int
    var habits: seq<HabitDays>
    var userHabitCount: seq<DayCount>
    var page: int
    var totalPages: int
    var loadingHabits: bool
    var loadingUserHabitCount: bool

    /** `selectedDay` starts at today; `page` at the one read from the URL. */
    constructor (today: int, initialPage: int)
      ensures selectedDay == today && page == initialPage && totalPages == 0
      ensures habits == [] && userHabitCount == []
      ensures !loadingHabits && !loadingUserHabitCount
    {
      selectedDay, page, totalPages := today, initialPage, 0;
      habits, userHabitCount := [], [];
      loadingHabits, loadingUserHabitCount := false, false;
    }

    function StartRange(): int
      reads this
    {
      StartOfWeek(selectedDay)
    }

    function EndRange(): int
      reads this
    {
      EndOfWeek(selectedDay)
    }

    /** `fetchHabits`: the rows (`result.data || []`) and the page count; a
        request that throws, or a reply without `data.data`, empties the rows
        and keeps the page count. */
    method FetchHabits(outcome: Fetched<Option<HabitDaysPage>>)
      modifies this`habits, this`totalPages, this`loadingHabits
      ensures !loadingHabits
      ensures outcome.Returned? && outcome.result.Some? ==>
        habits == OrEmpty(outcome.result.value.data) && totalPages == outcome.result.value.totalPages
      ensures !(outcome.Returned? && outcome.result.Some?) ==> habits == [] && totalPages == old(totalPages)
    {
      loadingHabits := true;
      if outcome.Returned? && outcome.result.Some? {
        var result := outcome.result.value;
        habits := OrEmpty(result.data);
        totalPages := result.totalPages;
      } else {
        habits := [];
      }
      loadingHabits := false;
    }

    /** `fetchUserHabitCount`: a non-empty `data` replaces the counts; a missing
        or empty one, or a request that throws, empties them. */
    method FetchUserHabitCount(outcome: Fetched<Option<seq<DayCount>>>)
      modifies this`userHabitCount
      ensures outcome.Returned? && outcome.result.Some? && |outcome.result.value| > 0 ==>
        userHabitCount == outcome.result.value
      ensures !(outcome.Returned? && outcome.result.Some? && |outcome.result.value| > 0) ==>
        userHabitCount == []
    {
      if outcome.Returned? && outcome.result.Some? && |outcome.result.value| > 0 {
        userHabitCount := outcome.result.value;
      } else {
        userHabitCount := [];
      }
    }

    /** The effect on `selectedDay`: both loaders, the counts' spinner around them. */
    method FetchData(habitsOutcome: Fetched<Option<HabitDaysPage>>, countOutcome: Fetched<Option<seq<DayCount>>>)
      modifies this`habits, this`totalPages, this`loadingHabits, this`userHabitCount, this`loadingUserHabitCount
      ensures !loadingHabits && !loadingUserHabitCount
      ensures habitsOutcome.Returned? && habitsOutcome.result.Some? ==>
        habits == OrEmpty(habitsOutcome.result.value.data) && totalPages == habitsOutcome.result.value.totalPages
      ensures !(habitsOutcome.Returned? && habitsOutcome.result.Some?) ==> habits == [] && totalPages == old(totalPages)
      ensures countOutcome.Returned? && countOutcome.result.Some? && |countOutcome.result.value| > 0 ==>
        userHabitCount == countOutcome.result.value
      ensures !(countOutcome.Returned? && countOutcome.result.Some? && |countOutcome.result.value| > 0) ==>
        userHabitCount == []
    {
      loadingUserHabitCount := true;
      FetchHabits(habitsOutcome);
      FetchUserHabitCount(countOutcome);
      loadingUserHabitCount := false;
    }

    method HandleChangeWeek(direction: Direction)
      modifies this`selectedDay
      ensures selectedDay == ChangeWeek(old(selectedDay), direction)
    {
      if direction == NextWeek {
        selectedDay := selectedDay + 7;
      } else {
        selectedDay := StartOfWeek(selectedDay - 7);
      }
    }

    /** The grid's Previous / Next buttons: `Math.max(page - 1, 1)` and `Math.min(page + 1, totalPages)`. */
    method Previous()
      modifies this`page
      ensures page == Pagination.ClampedPrevious(old(page))
    {
      if page != 1 {
        page := Pagination.Max(page - 1, 1);
      }
    }

    method Next()
      modifies this`page
      ensures page == Pagination.ClampedNext(old(page), totalPages)
    {
      if page != totalPages {
        page := Pagination.Min(page + 1, totalPages);
      }
    }
  }
}

/** The dashboard page: loads a page of habits into the shared context, counts
    the habits checked today and turns that into a completion percentage. */
module Dashboard {
  import opened JsValues
  import opened HabitStore
  import Pagination

  /** `habitStates[id] || false`: a card's checkbox; an id without an entry is unchecked. */
  predicate IsChecked(habitStates: map<string, bool>, id: string) {
    id in habitStates && habitStates[id]
  }

  /** `habits.filter(h => habitStates[h.habit._id]).length`. */
  function Completed(habits: seq<HabitEntry>, habitStates: map<string, bool>): (n: nat)
    ensures n <= |habits|
    ensures n == |habits| <==> forall j :: 0 <= j < |habits| ==> IsChecked(habitStates, habits[j].habit.id)
    ensures n == 0 <==> forall j :: 0 <= j < |habits| ==> !IsChecked(habitStates, habits[j].habit.id)
    ensures n == |set j | 0 <= j < |habits| && IsChecked(habitStates, habits[j].habit.id)|
  {
    if |habits| == 0 then 0
    else
      var init, k := habits[..|habits| - 1], |habits| - 1;
      var before := set j | 0 <= j < |init| && IsChecked(habitStates, init[j].habit.id);
      assert k !in before;
      assert (set j | 0 <= j < |habits| && IsChecked(habitStates, habits[j].habit.id))
          == before + (if IsChecked(habitStates, habits[k].habit.id) then {k} else {});
      Completed(init, habitStates) + (if IsChecked(habitStates, habits[k].habit.id) then 1 else 0)
  }

  /** `(completed / numHabits) * 100`, where `numHabits` is the total over all pages. */
  function Percentage(completed: nat, numHabits: int): (r: Ratio)
    ensures numHabits == 0 ==> r == NonFinite
    ensures numHabits != 0 ==> r.Finite? && r.value * (numHabits as real) == (completed as real) * 100.0
  {
    Percent(Num(completed), numHabits)
  }

  /** When the checked habits of the page are among the `numHabits` habits,
      the percentage lies in [0, 100]. */
  lemma PercentageBounds(completed: nat, numHabits: int)
    requires completed <= numHabits && numHabits > 0
    ensures 0.0 <= Percentage(completed, numHabits).value <= 100.0
  {
    var p, n := Percentage(completed, numHabits).value, numHabits as real;
    assert p * n <= 100.0 * n;
    assert (p - 100.0) * n <= 0.0;
  }

  /** Checking an unchecked habit that appears exactly once on the page (at
      index `at`) adds exactly one to the completed count. */
  lemma {:induction false} CompletedAfterCheck(
    habits: seq<HabitEntry>, habitStates: map<string, bool>, id: string, at: nat)
    requires !IsChecked(habitStates, id)
    requires at < |habits| && habits[at].habit.id == id
    requires forall j :: 0 <= j < |habits| && j != at ==> habits[j].habit.id != id
    ensures Completed(habits, habitStates[id := true]) == Completed(habits, habitStates) + 1
  {
    var init, k := habits[..|habits| - 1], |habits| - 1;
    if at == k {
      CompletedUnaffected(init, habitStates, id);
    } else {
      CompletedAfterCheck(init, habitStates, id, at);
    }
  }

  /** Changing the flag of an id that is not on the page leaves the count as it is. */
  lemma {:induction false} CompletedUnaffected(habits: seq<HabitEntry>, habitStates: map<string, bool>, id: string)
    requires forall j :: 0 <= j < |habits| ==> habits[j].habit.id != id
    ensures Completed(habits, habitStates[id := true]) == Completed(habits, habitStates)
  {
    if |habits| > 0 {
      CompletedUnaffected(habits[..|habits| - 1], habitStates, id);
    }
  }

  class DashboardPage {
    var page: int
    var totalPages: int

    constructor (initialPage: int)
      ensures page == initialPage && totalPages == 1
    {
      page, totalPages := initialPage, 1;
    }

    /** `fetchHabits` on the dashboard: the shared loader, then `setTotalPages`
        only for a non-empty page; otherwise the page count keeps its value. */
    method FetchHabits(ctx: HabitsProvider, outcome: Fetched<PageResult>)
      modifies this, ctx
      ensures page == old(page)
      ensures totalPages == if IsNonEmptyPage(outcome) then outcome.result.totalPages else old(totalPages)
      ensures !ctx.loading
      ensures IsNonEmptyPage(outcome) ==>
        && ctx.habits == outcome.result.data.value && ctx.numHabits == outcome.result.total
        && ctx.habitStates == IndexBy(ctx.habits, Accomplished)
        && ctx.weeklyCounts == IndexBy(ctx.habits, WeeklyCountOf)
      ensures !IsNonEmptyPage(outcome) ==>
        ctx.habits == [] && ctx.numHabits == 0 && ctx.habitStates == map[] && ctx.weeklyCounts == map[]
      ensures ctx.error == if outcome.Threw? then Some(ErrorOf(outcome.failure)) else old(ctx.error)
    {
      var pages := ctx.LoadPage(outcome);
      if pages.Some? {
        totalPages := pages.value;
      }
    }

    /** The Previous button: `setPage(Math.max(page - 1, 1))`, disabled on page 1. */
    method Previous()
      modifies this
      ensures page == Pagination.ClampedPrevious(old(page)) && totalPages == old(totalPages)
    {
      if page != 1 {
        page := Pagination.Max(page - 1, 1);
      }
    }

    /** The Next button: `setPage(Math.min(page + 1, totalPages))`, disabled on the last page. */
    method Next()
      modifies this
      ensures page == Pagination.ClampedNext(old(page), old(totalPages)) && totalPages == old(totalPages)
    {
      if page != totalPages {
        page := Pagination.Min(page + 1, totalPages);
      }
    }
  }
}

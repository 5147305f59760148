/** The shared habit context (`HabitsProvider`): the habits of the current page,
    the id -> "accomplished today" and id -> weekly count maps, and the
    optimistic toggle `handleCheck` that the dashboard's cards call. */
module HabitStore {
  import opened JsValues

  /** The `habit` part of a habit record. */
  datatype HabitInfo = HabitInfo(id: string, name: string, goal: int, color: string)

  /** One habit record as the backend sends it for the current page. */
  datatype HabitEntry = HabitEntry(
    habit: HabitInfo, accomplished: bool, streak: int, goalProgress: Ratio, weeklyCount: Count)

  /** The error cell of the context. The source's fallback status string "500"
      is modelled as the number 500. */
  datatype ErrorInfo = ErrorInfo(message: string, status: int)

  /** The three collections `handleCheck` reads and writes. */
  datatype HabitsView = HabitsView(
    habits: seq<HabitEntry>, habitStates: map<string, bool>, weeklyCounts: map<string, Count>)

  /** The `data` object of a `GET /habits?page=..&limit=..` response. */
  datatype PageResult = PageResult(data: Option<seq<HabitEntry>>, total: int, totalPages: int)

  /** `habits.find(h => h.habit._id === id)`: the index of the first habit with that id. */
  function FindIndex(habits: seq<HabitEntry>, id: string): (r: Option<nat>)
    ensures r.Some? ==> r.value < |habits| && habits[r.value].habit.id == id
    ensures r.Some? ==> forall j :: 0 <= j < r.value ==> habits[j].habit.id != id
    ensures r.None? ==> forall j :: 0 <= j < |habits| ==> habits[j].habit.id != id
  {
    if |habits| == 0 then None
    else if habits[0].habit.id == id then Some(0)
    else match FindIndex(habits[1..], id)
      case None => None
      case Some(k) => Some(k + 1)
  }

  /** `weeklyCounts[id] + 1` or `- 1`; a missing entry reads as `undefined`, giving NaN. */
  function NewCount(weeklyCounts: map<string, Count>, id: string, checked: bool): Count {
    Shift(if id in weeklyCounts then weeklyCounts[id] else NaN, checked)
  }

  /** What `handleCheck(id, checked)` does to the three collections: when a habit
      with that id is on the page, the first such habit gets the new weekly count
      and the recomputed goal progress, and both maps get the new entry for `id`;
      otherwise nothing changes. */
  function Toggle(v: HabitsView, id: string, checked: bool): HabitsView {
    match FindIndex(v.habits, id)
    case None => v
    case Some(k) =>
      var count := NewCount(v.weeklyCounts, id, checked);
      var h := v.habits[k];
      HabitsView(
        v.habits[k := h.(weeklyCount := count, goalProgress := Percent(count, h.habit.goal))],
        v.habitStates[id := checked],
        v.weeklyCounts[id := count])
  }

  /** A found toggle moves the weekly count of `id` by exactly one, up when
      checking and down when unchecking, with no lower bound. */
  lemma ToggleCount(v: HabitsView, id: string, checked: bool)
    requires FindIndex(v.habits, id).Some?
    requires id in v.weeklyCounts && v.weeklyCounts[id].Num?
    ensures id in Toggle(v, id, checked).weeklyCounts
    ensures Toggle(v, id, checked).weeklyCounts[id]
         == Num(v.weeklyCounts[id].n + (if checked then 1 else -1))
  {
  }

  /** Unchecking a habit whose weekly count is 0 yields -1: nothing guards the lower bound. */
  lemma UncheckAtZero(v: HabitsView, id: string)
    requires FindIndex(v.habits, id).Some?
    requires id in v.weeklyCounts && v.weeklyCounts[id] == Num(0)
    ensures Toggle(v, id, false).weeklyCounts[id] == Num(-1)
  {
  }

  /** After a found toggle the flag of `id` is what was asked for, and the found
      habit record carries the new count and `count / goal * 100`, uncapped. */
  lemma ToggleFlagAndRecord(v: HabitsView, id: string, checked: bool)
    requires FindIndex(v.habits, id).Some?
    ensures var r := Toggle(v, id, checked); var k := FindIndex(v.habits, id).value;
      && id in r.habitStates && r.habitStates[id] == checked
      && |r.habits| == |v.habits|
      && r.habits[k].habit == v.habits[k].habit
      && r.habits[k].weeklyCount == r.weeklyCounts[id]
      && r.habits[k].goalProgress == Percent(r.weeklyCounts[id], v.habits[k].habit.goal)
  {
  }

  /** Goal progress is not capped at 100: five completions of a goal of four give 125. */
  lemma GoalProgressUncapped(v: HabitsView, id: string)
    requires FindIndex(v.habits, id).Some?
    requires v.habits[FindIndex(v.habits, id).value].habit.goal == 4
    requires id in v.weeklyCounts && v.weeklyCounts[id] == Num(4)
    ensures Toggle(v, id, true).habits[FindIndex(v.habits, id).value].goalProgress == Finite(125.0)
  {
  }

  /** Entries of every other id, in both maps, and every other habit record are unchanged. */
  lemma ToggleFrame(v: HabitsView, id: string, checked: bool, other: string)
    requires other != id
    ensures var r := Toggle(v, id, checked);
      && (other in r.habitStates <==> other in v.habitStates)
      && (other in v.habitStates ==> r.habitStates[other] == v.habitStates[other])
      && (other in r.weeklyCounts <==> other in v.weeklyCounts)
      && (other in v.weeklyCounts ==> r.weeklyCounts[other] == v.weeklyCounts[other])
      && |r.habits| == |v.habits|
      && forall j :: 0 <= j < |v.habits| && v.habits[j].habit.id != id ==> r.habits[j] == v.habits[j]
  {
  }

  /** When no habit on the page has the id, the toggle changes nothing. */
  lemma ToggleNotFound(v: HabitsView, id: string, checked: bool)
    requires forall j :: 0 <= j < |v.habits| ==> v.habits[j].habit.id != id
    ensures Toggle(v, id, checked) == v
  {
  }

  /** FindIndex depends only on the ids of the habits. */
  lemma {:induction false} FindIndexSameIds(a: seq<HabitEntry>, b: seq<HabitEntry>, id: string)
    requires |a| == |b|
    requires forall j :: 0 <= j < |a| ==> a[j].habit.id == b[j].habit.id
    ensures FindIndex(a, id) == FindIndex(b, id)
  {
    if |a| > 0 && a[0].habit.id != id {
      FindIndexSameIds(a[1..], b[1..], id);
    }
  }

  /** Checking and then unchecking the same habit, applied in that order, restores
      its weekly count and leaves the weekly-count map as it was. */
  lemma CheckThenUncheck(v: HabitsView, id: string)
    requires FindIndex(v.habits, id).Some?
    requires id in v.weeklyCounts && v.weeklyCounts[id].Num?
    ensures Toggle(Toggle(v, id, true), id, false).weeklyCounts == v.weeklyCounts
    ensures Toggle(Toggle(v, id, true), id, false).habitStates == v.habitStates[id := false]
    ensures var k := FindIndex(v.habits, id).value;
      Toggle(Toggle(v, id, true), id, false).habits[k].weeklyCount == v.weeklyCounts[id]
  {
    var once := Toggle(v, id, true);
    FindIndexSameIds(v.habits, once.habits, id);
  }

  /** An id -> value map built by visiting `items` in order, later entries
      overwriting earlier ones (the `forEach` of the page loaders). */
  function IndexBy<V>(items: seq<HabitEntry>, value: HabitEntry -> V): map<string, V> {
    if |items| == 0 then map[]
    else IndexBy(items[..|items| - 1], value)[items[|items| - 1].habit.id := value(items[|items| - 1])]
  }

  function Accomplished(e: HabitEntry): bool { e.accomplished }
  function WeeklyCountOf(e: HabitEntry): Count { e.weeklyCount }

  /** The rebuilt map holds exactly the ids of the page. */
  lemma {:induction false} IndexByKeys<V>(items: seq<HabitEntry>, value: HabitEntry -> V, id: string)
    ensures id in IndexBy(items, value) <==> exists j :: 0 <= j < |items| && items[j].habit.id == id
  {
    if |items| > 0 {
      var init := items[..|items| - 1];
      IndexByKeys(init, value, id);
      if id in IndexBy(init, value) {
        var j :| 0 <= j < |init| && init[j].habit.id == id;
        assert items[j].habit.id == id;
      }
      if exists j :: 0 <= j < |items| && items[j].habit.id == id {
        var j :| 0 <= j < |items| && items[j].habit.id == id;
        if j < |init| { assert init[j].habit.id == id; }
      }
    }
  }

  /** For an id listed several times the last entry wins. */
  lemma {:induction false} IndexByLastWins<V>(items: seq<HabitEntry>, value: HabitEntry -> V, j: int)
    requires 0 <= j < |items|
    requires forall j' :: j < j' < |items| ==> items[j'].habit.id != items[j].habit.id
    ensures items[j].habit.id in IndexBy(items, value)
    ensures IndexBy(items, value)[items[j].habit.id] == value(items[j])
  {
    if j < |items| - 1 {
      var init := items[..|items| - 1];
      assert init[j] == items[j];
      IndexByLastWins(init, value, j);
    }
  }

  /** The `forEach` loop of the page loaders: fills `states` and `counts`. */
  method BuildMaps(items: seq<HabitEntry>) returns (states: map<string, bool>, counts: map<string, Count>)
    ensures states == IndexBy(items, Accomplished)
    ensures counts == IndexBy(items, WeeklyCountOf)
  {
    states, counts := map[], map[];
    var i := 0;
    while i < |items|
      invariant 0 <= i <= |items|
      invariant states == IndexBy(items[..i], Accomplished)
      invariant counts == IndexBy(items[..i], WeeklyCountOf)
    {
      assert items[..i + 1][..i] == items[..i];
      states := states[items[i].habit.id := items[i].accomplished];
      counts := counts[items[i].habit.id := items[i].weeklyCount];
      i := i + 1;
    }
    assert items[..i] == items;
  }

  /** The loop of `habits.find`. */
  method Find(habits: seq<HabitEntry>, id: string) returns (r: Option<nat>)
    ensures r == FindIndex(habits, id)
  {
    var i := 0;
    while i < |habits|
      invariant 0 <= i <= |habits|
      invariant forall j :: 0 <= j < i ==> habits[j].habit.id != id
    {
      if habits[i].habit.id == id {
        return Some(i);
      }
      i := i + 1;
    }
    return None;
  }

  /** `error.response?.data?.message || error.message` and `error.response?.status || "500"`. */
  function ErrorOf(f: FetchError): (e: ErrorInfo)
    ensures e.status == 500 <==> (f.responseStatus.None? || f.responseStatus.value in {0, 500})
    ensures f.responseStatus.Some? && f.responseStatus.value != 0 ==> e.status == f.responseStatus.value
    ensures Truthy(f.responseMessage) ==> e.message == f.responseMessage.value
    ensures !Truthy(f.responseMessage) ==> e.message == f.message
  {
    ErrorInfo(
      OrElse(f.responseMessage, f.message),
      if f.responseStatus.Some? && f.responseStatus.value != 0 then f.responseStatus.value else 500)
  }

  /** Does the response carry a non-empty page (`result.data && result.data.length > 0`)? */
  predicate IsNonEmptyPage(outcome: Fetched<PageResult>) {
    outcome.Returned? && outcome.result.data.Some? && |outcome.result.data.value| > 0
  }

  class HabitsProvider {
    var habits: seq<HabitEntry>
    var habitStates: map<string, bool>
    var loading: bool
    var numHabits: int
    var weeklyCounts: map<string, Count>
    var error: Option<ErrorInfo>

    constructor ()
      ensures habits == [] && habitStates == map[] && weeklyCounts == map[]
      ensures loading && numHabits == 0 && error == None
    {
      habits, habitStates, weeklyCounts := [], map[], map[];
      loading, numHabits, error := true, 0, None;
    }

    function View(): HabitsView
      reads this
    {
      HabitsView(habits, habitStates, weeklyCounts)
    }

    /** `handleCheck(id, checked)`: copies both maps, finds the habit, and when it
        is found updates the habit record in place and writes both entries of `id`. */
    method HandleCheck(id: string, checked: bool)
      modifies this
      ensures View() == Toggle(old(View()), id, checked)
      ensures loading == old(loading) && numHabits == old(numHabits) && error == old(error)
    {
      var updatedHabitStates := habitStates;
      var updatedWeeklyCounts := weeklyCounts;
      var found := Find(habits, id);
      if found.Some? {
        var k := found.value;
        var newWeeklyCount := Shift(if id in updatedWeeklyCounts then updatedWeeklyCounts[id] else NaN, checked);
        updatedWeeklyCounts := updatedWeeklyCounts[id := newWeeklyCount];
        var newGoalProgress := Percent(newWeeklyCount, habits[k].habit.goal);
        habits := habits[k := habits[k].(weeklyCount := newWeeklyCount, goalProgress := newGoalProgress)];
        updatedHabitStates := updatedHabitStates[id := checked];
      }
      weeklyCounts := updatedWeeklyCounts;
      habitStates := updatedHabitStates;
    }

    /** The body of `fetchHabits`, identical in the dashboard and the habits page:
        a non-empty page replaces the habits, the total and both maps wholesale and
        reports the page count; an empty page or a thrown request resets all four
        (a thrown one also records the error). Loading ends false on every path. */
    method LoadPage(outcome: Fetched<PageResult>) returns (totalPages: Option<int>)
      modifies this
      ensures !loading
      ensures IsNonEmptyPage(outcome) ==>
        && habits == outcome.result.data.value && numHabits == outcome.result.total
        && habitStates == IndexBy(habits, Accomplished)
        && weeklyCounts == IndexBy(habits, WeeklyCountOf)
        && totalPages == Some(outcome.result.totalPages)
      ensures !IsNonEmptyPage(outcome) ==>
        habits == [] && numHabits == 0 && habitStates == map[] && weeklyCounts == map[] && totalPages == None
      ensures error == if outcome.Threw? then Some(ErrorOf(outcome.failure)) else old(error)
    {
      loading := true;
      totalPages := None;
      if IsNonEmptyPage(outcome) {
        var result := outcome.result;
        habits := result.data.value;
        numHabits := result.total;
        var states, counts := BuildMaps(result.data.value);
        habitStates := states;
        weeklyCounts := counts;
        totalPages := Some(result.totalPages);
      } else {
        habits, numHabits, habitStates, weeklyCounts := [], 0, map[], map[];
        if outcome.Threw? {
          error := Some(ErrorOf(outcome.failure));
        }
      }
      loading := false;
    }
  }
}

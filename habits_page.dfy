/** The habits page: loads a page of habits into the shared context and
    creates, edits and deletes habits, updating the context's list. */
module HabitsPage {
  import opened JsValues
  import opened HabitStore
  import Pagination

  /** The body (`response.data`) of `POST /habits`. */
  datatype CreateReply = CreateReply(status: int, message: string, data: HabitEntry)

  /** `[...prevHabits, result.data]`. */
  function Appended(habits: seq<HabitEntry>, created: HabitEntry): (r: seq<HabitEntry>)
    ensures |r| == |habits| + 1 && r[..|habits|] == habits && r[|habits|] == created
  {
    habits + [created]
  }

  /** `prevHabits.map(h => h.habit._id === updated._id ? { ...h, habit: updated } : h)`. */
  function ReplacedById(habits: seq<HabitEntry>, updated: HabitInfo): (r: seq<HabitEntry>)
    ensures |r| == |habits|
    ensures forall j :: 0 <= j < |habits| && habits[j].habit.id == updated.id ==>
      r[j] == habits[j].(habit := updated)
    ensures forall j :: 0 <= j < |habits| && habits[j].habit.id != updated.id ==> r[j] == habits[j]
  {
    seq(|habits|, j requires 0 <= j < |habits| =>
      if habits[j].habit.id == updated.id then habits[j].(habit := updated) else habits[j])
  }

  /** `prev.filter(h => h.habit._id !== id)`. */
  function RemovedById(habits: seq<HabitEntry>, id: string): seq<HabitEntry> {
    if |habits| == 0 then []
    else (if habits[0].habit.id == id then [] else [habits[0]]) + RemovedById(habits[1..], id)
  }

  /** A delete keeps exactly the habits with another id. */
  lemma {:induction false} RemovedByIdMembers(habits: seq<HabitEntry>, id: string, e: HabitEntry)
    ensures e in RemovedById(habits, id) <==> e in habits && e.habit.id != id
  {
    if |habits| > 0 {
      RemovedByIdMembers(habits[1..], id, e);
      assert habits == [habits[0]] + habits[1..];
    }
  }

  /** The filter works piecewise, so the kept habits stay in their order. */
  lemma {:induction false} RemovedByIdConcat(a: seq<HabitEntry>, b: seq<HabitEntry>, id: string)
    ensures RemovedById(a + b, id) == RemovedById(a, id) + RemovedById(b, id)
  {
    if |a| == 0 {
      assert a + b == b;
    } else {
      assert (a + b)[1..] == a[1..] + b;
      RemovedByIdConcat(a[1..], b, id);
    }
  }

  /** Deleting an id none of the habits has leaves the list unchanged. */
  lemma {:induction false} RemovedByIdAbsent(habits: seq<HabitEntry>, id: string)
    requires forall j :: 0 <= j < |habits| ==> habits[j].habit.id != id
    ensures RemovedById(habits, id) == habits
  {
    if |habits| > 0 {
      RemovedByIdAbsent(habits[1..], id);
      assert habits == [habits[0]] + habits[1..];
    }
  }

  /** The list after `handleSubmit`: appended unless the reply's status is 400
      or the request threw. */
  function AfterCreate(habits: seq<HabitEntry>, outcome: Fetched<CreateReply>): (r: seq<HabitEntry>)
    ensures outcome.Returned? && outcome.result.status != 400 ==> r == Appended(habits, outcome.result.data)
    ensures outcome.Threw? || outcome.result.status == 400 ==> r == habits
  {
    if outcome.Returned? && outcome.result.status != 400 then habits + [outcome.result.data] else habits
  }

  /** The list after `handleUpdateHabit`: nothing without a target or when the
      request threw, otherwise the returned habit replaces every record with its id. */
  function AfterUpdate(habits: seq<HabitEntry>, target: Option<HabitInfo>, outcome: Fetched<HabitInfo>): (r: seq<HabitEntry>)
    ensures target.None? || outcome.Threw? ==> r == habits
    ensures target.Some? && outcome.Returned? ==> r == ReplacedById(habits, outcome.result)
  {
    if target.Some? && outcome.Returned? then ReplacedById(habits, outcome.result) else habits
  }

  /** The list after `confirmDelete`: nothing without a (truthy) target id or when
      the request threw, otherwise the target's records are filtered out; the
      reply itself is not inspected. */
  function AfterDelete(habits: seq<HabitEntry>, target: Option<string>, outcome: Fetched<()>): (r: seq<HabitEntry>)
    ensures !Truthy(target) || outcome.Threw? ==> r == habits
    ensures Truthy(target) && outcome.Returned? ==> r == RemovedById(habits, target.value)
  {
    if Truthy(target) && outcome.Returned? then RemovedById(habits, target.value) else habits
  }

  class HabitsPage {
    var page: int
    var totalPages: int
    var isDialogOpen: bool
    var habitToUpdate: Option<HabitInfo>
    var habitToDelete: Option<string>

    constructor (initialPage: int)
      ensures page == initialPage && totalPages == 1 && !isDialogOpen
      ensures habitToUpdate == None && habitToDelete == None
    {
      page, totalPages, isDialogOpen := initialPage, 1, false;
      habitToUpdate, habitToDelete := None, None;
    }

    /** `fetchHabits` on the habits page: the shared loader, then `setTotalPages`
        only for a non-empty page. */
    method FetchHabits(ctx: HabitsProvider, outcome: Fetched<PageResult>)
      modifies this`totalPages, ctx
      ensures totalPages == if IsNonEmptyPage(outcome) then outcome.result.totalPages else old(totalPages)
      ensures !ctx.loading
      ensures IsNonEmptyPage(outcome) ==>
        && ctx.habits == outcome.result.data.value && ctx.numHabits == outcome.result.total
        && ctx.habitStates == IndexBy(ctx.habits, Accomplished)
        && ctx.weeklyCounts == IndexBy(ctx.habits, WeeklyCountOf)
      ensures !IsNonEmptyPage(outcome) ==>
        ctx.habits == [] && ctx.numHabits == 0 && ctx.habitStates == map[] && ctx.weeklyCounts == map[]
      ensures ctx.error == if outcome.Threw? then Some(ErrorOf(outcome.failure)) else old(ctx.error)
    {
      var pages := ctx.LoadPage(outcome);
      if pages.Some? {
        totalPages := pages.value;
      }
    }

    /** `handleSubmit`: creates a habit and returns the toast text. Only the list
        changes in the context; the maps, the total and the error stay as they are. */
    method HandleSubmit(ctx: HabitsProvider, outcome: Fetched<CreateReply>) returns (toast: string)
      modifies this`isDialogOpen, ctx`habits, ctx`loading
      ensures ctx.habits == AfterCreate(old(ctx.habits), outcome)
      ensures !ctx.loading
      ensures isDialogOpen == if outcome.Returned? && outcome.result.status != 400 then false else old(isDialogOpen)
      ensures toast == match outcome
        case Threw(f) => OrElse(f.responseMessage, "Error creating habit.")
        case Returned(reply) => if reply.status == 400 then reply.message else "Habit created successfully."
    {
      ctx.loading := true;
      match outcome {
        case Threw(f) =>
          toast := OrElse(f.responseMessage, "Error creating habit.");
        case Returned(result) =>
          if result.status == 400 {
            toast := result.message;
          } else {
            toast := "Habit created successfully.";
            ctx.habits := ctx.habits + [result.data];
            isDialogOpen := false;
          }
      }
      ctx.loading := false;
    }

    /** `handleUpdateHabit`: without a target nothing happens; otherwise the reply's
        habit replaces the records with its id, and on success the dialog closes
        and the target is cleared. */
    method HandleUpdateHabit(ctx: HabitsProvider, outcome: Fetched<HabitInfo>) returns (message: Option<string>)
      modifies this`isDialogOpen, this`habitToUpdate, ctx`habits, ctx`loading
      ensures ctx.habits == AfterUpdate(old(ctx.habits), old(habitToUpdate), outcome)
      ensures old(habitToUpdate).None? ==>
        ctx.loading == old(ctx.loading) && isDialogOpen == old(isDialogOpen) && habitToUpdate == None && message == None
      ensures old(habitToUpdate).Some? ==> !ctx.loading
      ensures old(habitToUpdate).Some? && outcome.Returned? ==>
        !isDialogOpen && habitToUpdate == None && message == Some("Habit updated successfully.")
      ensures old(habitToUpdate).Some? && outcome.Threw? ==>
        isDialogOpen == old(isDialogOpen) && habitToUpdate == old(habitToUpdate)
        && message == Some(OrElse(outcome.failure.responseMessage, "Error updating habit."))
    {
      message := None;
      if habitToUpdate.None? {
        return;
      }
      ctx.loading := true;
      match outcome {
        case Threw(f) =>
          message := Some(OrElse(f.responseMessage, "Error updating habit."));
        case Returned(updatedHabit) =>
          ctx.habits := ReplacedById(ctx.habits, updatedHabit);
          isDialogOpen := false;
          habitToUpdate := None;
          message := Some("Habit updated successfully.");
      }
      ctx.loading := false;
    }

    /** `confirmDelete`: without a target id nothing happens; otherwise a request
        that returns filters the target out and one that throws changes nothing. */
    method ConfirmDelete(ctx: HabitsProvider, outcome: Fetched<()>) returns (toast: Option<string>)
      modifies ctx`habits, ctx`loading
      ensures ctx.habits == AfterDelete(old(ctx.habits), habitToDelete, outcome)
      ensures !Truthy(habitToDelete) ==> ctx.loading == old(ctx.loading) && toast == None
      ensures Truthy(habitToDelete) ==> !ctx.loading && toast == Some(
        if outcome.Returned? then "Habit deleted successfully." else "Error deleting habit.")
    {
      if !Truthy(habitToDelete) {
        return None;
      }
      ctx.loading := true;
      if outcome.Returned? {
        ctx.habits := RemovedById(ctx.habits, habitToDelete.value);
        toast := Some("Habit deleted successfully.");
      } else {
        toast := Some("Error deleting habit.");
      }
      ctx.loading := false;
    }

    /** Previous / Next buttons: `Math.max(page - 1, 1)` and `Math.min(page + 1, totalPages)`. */
    method Previous()
      modifies this`page
      ensures page == Pagination.ClampedPrevious(old(page))
    {
      if page != 1 {
        page := Pagination.Max(page - 1, 1);
      }
    }

    method Next()
      modifies this`page
      ensures page == Pagination.ClampedNext(old(page), totalPages)
    {
      if page != totalPages {
        page := Pagination.Min(page + 1, totalPages);
      }
    }
  }
}

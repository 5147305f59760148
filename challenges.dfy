/** A dashboard challenge card: a click toggles the habit in the shared context
    first and then confirms with the backend; the radial progress animates one
    step per tick towards the habit's goal progress. */
module Challenges {
  import opened JsValues
  import opened HabitStore

  /** The toast `updateAccomplishedStatus` shows for the reply of
      `PUT /habits/acc/:id` (its HTTP status), or for a thrown request. */
  function Notice(outcome: Fetched<int>): (r: Option<string>)
    ensures outcome.Threw? ==> r == Some("Did not update habit. Reverting...")
    ensures outcome.Returned? && outcome.result == 204 ==> r == Some("The data does not exist!")
    ensures outcome.Returned? && outcome.result != 204 ==> r == None
  {
    match outcome
    case Threw(_) => Some("Did not update habit. Reverting...")
    case Returned(status) => if status == 204 then Some("The data does not exist!") else None
  }

  /** One tick of the progress animation: one step towards the target, none at it. */
  function Step(progress: int, target: int): int {
    if progress < target then progress + 1
    else if progress > target then progress - 1
    else progress
  }

  function Distance(a: int, b: int): nat {
    if a <= b then b - a else a - b
  }

  /** Each tick moves exactly one unit closer, or stays put at the target. */
  lemma StepCloser(progress: int, target: int)
    ensures progress == target ==> Step(progress, target) == progress
    ensures progress != target ==> Distance(Step(progress, target), target) == Distance(progress, target) - 1
    ensures Distance(Step(progress, target), progress) <= 1
  {
  }

  /** The progress after `n` ticks. */
  function AfterTicks(progress: int, target: int, n: nat): int
    decreases n
  {
    if n == 0 then progress else AfterTicks(Step(progress, target), target, n - 1)
  }

  /** After `n` ticks the distance to the target has shrunk by `n`, down to 0 and
      never below, so it never grows and the target is reached after exactly
      `Distance(start, target)` ticks and then kept. */
  lemma {:induction false} AfterTicksDistance(progress: int, target: int, n: nat)
    decreases n
    ensures Distance(AfterTicks(progress, target, n), target)
         == if n <= Distance(progress, target) then Distance(progress, target) - n else 0
  {
    if n > 0 {
      AfterTicksDistance(Step(progress, target), target, n - 1);
    }
  }

  lemma ReachesTarget(progress: int, target: int, n: nat)
    requires n >= Distance(progress, target)
    ensures AfterTicks(progress, target, n) == target
  {
    AfterTicksDistance(progress, target, n);
  }

  class ChallengeCard {
    const habit: HabitInfo
    var loading: bool
    var progress: int

    constructor (habit: HabitInfo)
      ensures this.habit == habit && !loading && progress == 0
    {
      this.habit := habit;
      loading, progress := false, 0;
    }

    /** `updateAccomplishedStatus`: spinner on, the request, the toast, spinner off
        on every path. Nothing is reverted. */
    method UpdateAccomplishedStatus(outcome: Fetched<int>) returns (toast: Option<string>)
      modifies this`loading
      ensures !loading && toast == Notice(outcome)
    {
      loading := true;
      toast := Notice(outcome);
      loading := false;
    }

    /** A click on the card: `onCheck(habit._id, !checked)`, then the request. The
        context ends in the toggled state whatever the request gives back. */
    method OnCardClick(ctx: HabitsProvider, checked: bool, outcome: Fetched<int>) returns (toast: Option<string>)
      modifies this`loading, ctx
      ensures ctx.View() == Toggle(old(ctx.View()), habit.id, !checked)
      ensures ctx.loading == old(ctx.loading) && ctx.numHabits == old(ctx.numHabits) && ctx.error == old(ctx.error)
      ensures !loading && toast == Notice(outcome)
    {
      ctx.HandleCheck(habit.id, !checked);
      toast := UpdateAccomplishedStatus(outcome);
    }

    /** A change of the hidden checkbox: `onCheck(habit._id, e.target.checked)`, then the request. */
    method OnCheckboxChange(ctx: HabitsProvider, targetChecked: bool, outcome: Fetched<int>) returns (toast: Option<string>)
      modifies this`loading, ctx
      ensures ctx.View() == Toggle(old(ctx.View()), habit.id, targetChecked)
      ensures ctx.loading == old(ctx.loading) && ctx.numHabits == old(ctx.numHabits) && ctx.error == old(ctx.error)
      ensures !loading && toast == Notice(outcome)
    {
      ctx.HandleCheck(habit.id, targetChecked);
      toast := UpdateAccomplishedStatus(outcome);
    }

    /** The progress effect for an integer target: tick until the progress equals
        the target, one step per tick. */
    method Animate(target: int) returns (ticks: nat)
      modifies this`progress
      ensures progress == target
      ensures ticks == Distance(old(progress), target)
      ensures progress == AfterTicks(old(progress), target, ticks)
    {
      ticks := 0;
      while progress != target
        invariant Distance(progress, target) + ticks == Distance(old(progress), target)
        invariant progress == AfterTicks(old(progress), target, ticks)
        decreases Distance(progress, target)
      {
        AfterTicksStep(old(progress), target, ticks);
        progress := Step(progress, target);
        ticks := ticks + 1;
      }
    }
  }

  /** One more tick after `n` ticks. */
  lemma {:induction false} AfterTicksStep(progress: int, target: int, n: nat)
    decreases n
    ensures AfterTicks(progress, target, n + 1) == Step(AfterTicks(progress, target, n), target)
  {
    if n > 0 {
      AfterTicksStep(Step(progress, target), target, n - 1);
    }
  }
}

/** The streak card of a habit: the current and best streak lengths with the
    dates that bound them, from `GET /analytics/habit-streak/:id`. */
module StreakCard {
  import opened JsValues

  /** `response.data.data`; every field may be missing. */
  datatype StreakPayload = StreakPayload(
    status: Option<int>,
    currentStreak: Option<int>,
    bestStreak: Option<int>,
    currentStreakDates: Option<seq<string>>,
    bestStreakDates: Option<seq<string>>,
    accomplishedDatesPerHabit: Option<seq<string>>)

  datatype StreakData = StreakData(current: int, best: int, currentStreakDates: seq<string>, bestStreakDates: seq<string>)

  const InitialStreakData := StreakData(0, 0, [], [])
  const FetchFailed := "Failed to fetch streak data."

  /** The `setStreakData` argument: a missing number becomes 0 and a missing
      date list the empty list. */
  function WithDefaults(data: StreakPayload): (s: StreakData)
    ensures s.current == (if data.currentStreak.Some? then data.currentStreak.value else 0)
    ensures s.best == (if data.bestStreak.Some? then data.bestStreak.value else 0)
    ensures s.currentStreakDates == (if data.currentStreakDates.Some? then data.currentStreakDates.value else [])
    ensures s.bestStreakDates == (if data.bestStreakDates.Some? then data.bestStreakDates.value else [])
  {
    StreakData(OrZero(data.currentStreak), OrZero(data.bestStreak),
               OrEmpty(data.currentStreakDates), OrEmpty(data.bestStreakDates))
  }

  /** The line under a streak's number: a message, one date, or the first two dates. */
  datatype RangeLabel = Message(text: string) | OneDate(date: string) | DateRange(first: string, second: string)

  /** The best-streak label. */
  function BestStreakLabel(dates: seq<string>): (l: RangeLabel)
    ensures |dates| == 0 ==> l == Message("No best streak")
    ensures |dates| == 1 ==> l == OneDate(dates[0])
    ensures |dates| >= 2 ==> l == DateRange(dates[0], dates[1])
  {
    if |dates| == 0 then Message("No best streak")
    else if |dates| == 1 then OneDate(dates[0])
    else DateRange(dates[0], dates[1])
  }

  /** The current-streak label, nested as on the card: the inner empty-list test
      repeats the outer one. */
  function CurrentStreakLabel(dates: seq<string>): RangeLabel {
    if |dates| == 0 then Message("No current streak")
    else if |dates| == 0 then Message("No best streak")
    else if |dates| == 1 then OneDate(dates[0])
    else DateRange(dates[0], dates[1])
  }

  /** The inner branch is dead: the current-streak label is the best-streak
      label with its own empty message, never "No best streak", and dates after
      the second are ignored. */
  lemma CurrentStreakLabelShape(dates: seq<string>)
    ensures CurrentStreakLabel(dates) ==
      if |dates| == 0 then Message("No current streak") else BestStreakLabel(dates)
    ensures CurrentStreakLabel(dates) != Message("No best streak")
    ensures |dates| >= 2 ==> CurrentStreakLabel(dates) == CurrentStreakLabel(dates[..2])
  {
  }

  /** `error && !loading`: the error view replaces the card. */
  predicate ShowsError(error: Option<string>, loading: bool) {
    Truthy(error) && !loading
  }

  class StreakCardView {
    var loading: bool
    var streakData: StreakData
    var accomplishedDates: Option<seq<string>>
    var error: Option<string>

    constructor ()
      ensures loading && streakData == InitialStreakData && accomplishedDates == Some([]) && error == None
    {
      loading, streakData, accomplishedDates, error := true, InitialStreakData, Some([]), None;
    }

    /** `fetchStreak`. `None` is a reply without `data.data`, whose `status`
        cannot be read: it fails like a thrown request. A payload with status 204
        changes nothing but the spinner and raises a toast, returned as `toast`. */
    method FetchStreak(outcome: Fetched<Option<StreakPayload>>) returns (toast: Option<string>)
      modifies this
      ensures !loading
      ensures toast == (if outcome.Returned? && outcome.result.Some? && outcome.result.value.status == Some(204)
                        then Some("Please do something first.") else None)
      ensures outcome.Returned? && outcome.result.Some? && outcome.result.value.status != Some(204) ==>
        && streakData == WithDefaults(outcome.result.value)
        && accomplishedDates == outcome.result.value.accomplishedDatesPerHabit
        && error == old(error)
      ensures outcome.Returned? && outcome.result.Some? && outcome.result.value.status == Some(204) ==>
        streakData == old(streakData) && accomplishedDates == old(accomplishedDates) && error == old(error)
      ensures !(outcome.Returned? && outcome.result.Some?) ==>
        streakData == old(streakData) && accomplishedDates == old(accomplishedDates) && error == Some(FetchFailed)
      ensures !(outcome.Returned? && outcome.result.Some?) ==> ShowsError(error, loading)
      ensures outcome.Returned? && outcome.result.Some? ==> (ShowsError(error, loading) <==> Truthy(old(error)))
    {
      loading, toast := true, None;
      if outcome.Threw? || outcome.result.None? {
        error := Some(FetchFailed);
      } else {
        var data := outcome.result.value;
        if data.status == Some(204) {
          toast := Some("Please do something first.");
        } else {
          streakData := WithDefaults(data);
          accomplishedDates := data.accomplishedDatesPerHabit;
        }
      }
      loading := false;
    }
  }
}

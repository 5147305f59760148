# Tribbit client core in Dafny

A model of the browser client of Tribbit, a habit tracker. Users keep
habits with a weekly goal, check them off each day, and read streak,
consistency and activity statistics. The model covers:

- the shared habit store and its check/uncheck handler;
- the dashboard, the habits page (create, edit, delete, paging) and the challenge cards with their progress animation;
- the analytics pages: overview cards with their response cache, monthly heat-map tiers, and the week view and its navigation;
- the streak card;
- the signed-in session store (reducers, token expiry at sign-in and on rehydration);
- the two route guards and the authentication error handler;
- the form validators;
- the profile page's sign-out, account deletion and local-storage purge.

JavaScript behaviour that matters to the code is made explicit in `JsValues`:

- `Count` is a number or `NaN`.
- `Ratio` is a finite quotient or a non-finite one (division by zero).
- `Truthy`, `OrElse`, `OrZero` and `OrEmpty` are the `||` fallbacks.
- `Fetched` is a request that either returned a response or threw, with the `error.response` fields the handlers read.

Every request is a parameter: a handler takes the outcome of its request and
updates its state as the page's code does. React state that a handler
assigns is a field of a class, and the handler is a method whose `ensures`
gives the new state as a function of the old one and the outcome. Lemmas
then state the properties of those functions.

Dates are day numbers: day 0 is Thursday 1 January 1970, and weeks start on Sunday.

## Model

| member | source | states |
|---|---|---|
| JsValues.Shift | src/hooks/use-habits.tsx:37-40 | Adding or subtracting one keeps a number a number and `NaN` `NaN`; a number moves by exactly one in the chosen direction |
| JsValues.Percent | src/hooks/use-habits.tsx:42-45 | `count / goal * 100` is finite exactly when the count is a number and the goal is non-zero, and then value times goal equals count times 100 |
| JsValues.OrElse | src/utils/errorHandler.ts:19-20 | `s \|\| fallback` yields `s` when it is a non-empty string and the fallback otherwise |
| JsValues.OrZero | src/pages/habits/StreakCard.tsx:34-39 | `n \|\| 0` on an optional number: a missing number reads as 0, a present one is kept |
| JsValues.OrEmpty | src/pages/habits/StreakCard.tsx:34-39 | `xs \|\| []` on an optional list: a missing list reads as empty, a present one is kept |
| HabitStore.NewCount | src/hooks/use-habits.tsx:36-40 | The new weekly count: the stored count plus or minus one, `NaN` for an id without an entry; its properties are `ToggleCount` and `UncheckAtZero` |
| HabitStore.Toggle | src/hooks/use-habits.tsx:30-50 | What `handleCheck` does to the habit list and both maps; its properties are the toggle lemmas below |
| HabitStore.FindIndex | src/hooks/use-habits.tsx:35 | `findIndex` by id: the index found holds the id and no earlier entry does; not found means no entry holds it |
| HabitStore.Find | src/hooks/use-habits.tsx:35 | The scanning loop returns exactly `FindIndex` |
| HabitStore.ToggleCount | src/hooks/use-habits.tsx:37-40 | Checking raises the habit's weekly count by one and unchecking lowers it by one |
| HabitStore.UncheckAtZero | src/hooks/use-habits.tsx:37-40 | The count has no lower bound: unchecking at 0 stores -1 |
| HabitStore.ToggleFlagAndRecord | src/hooks/use-habits.tsx:42-47 | After a toggle the found habit's flag is the new checked value, its count is the map's new count, its progress is count over goal times 100, and the state map holds the flag |
| HabitStore.GoalProgressUncapped | src/hooks/use-habits.tsx:42-45 | Progress is not capped at 100: a fifth check on a goal of 4 gives 125 |
| HabitStore.ToggleFrame | src/hooks/use-habits.tsx:31-47 | A toggle leaves every other habit's state and count untouched |
| HabitStore.ToggleNotFound | src/hooks/use-habits.tsx:35-50 | An unknown id changes nothing: list, state map and count map stay as they were |
| HabitStore.FindIndexSameIds | src/hooks/use-habits.tsx:35-45 | A toggle keeps the id sequence, so a later lookup finds the same position |
| HabitStore.CheckThenUncheck | src/hooks/use-habits.tsx:30-52 | Checking then unchecking restores the count map and the habit's weekly count; the state map records the habit as unchecked |
| HabitStore.IndexBy | src/pages/dashboard/Dashboard.tsx:41-47 | The id-indexed map the `forEach` builds, later entries overwriting earlier ones; its properties are `IndexByKeys` and `IndexByLastWins` |
| HabitStore.IndexByKeys | src/pages/dashboard/Dashboard.tsx:41-47 | The maps rebuilt from a page have exactly the page's ids as keys |
| HabitStore.IndexByLastWins | src/pages/dashboard/Dashboard.tsx:41-47 | For an id listed more than once, the map holds the value of its last entry |
| HabitStore.BuildMaps | src/pages/dashboard/Dashboard.tsx:41-47 | The `forEach` loop builds exactly the in-order state map and count map |
| HabitStore.ErrorOf | src/pages/dashboard/Dashboard.tsx:58-66 | The recorded error status is 500 exactly when the response carries no status or a falsy status (0), or 500 itself; any other status is kept. The message is the response's message when it is non-empty and the error's own message otherwise |
| HabitStore.HabitsProvider.constructor | src/hooks/use-habits.tsx:23-28 | The provider starts with no habits, empty maps, loading, zero habits and no error |
| HabitStore.HabitsProvider.HandleCheck | src/hooks/use-habits.tsx:30-52 | `handleCheck` replaces the habit list, state map and count map by the toggled view and touches nothing else |
| HabitStore.HabitsProvider.LoadPage | src/pages/dashboard/Dashboard.tsx:31-70 | A non-empty page replaces habits, maps and habit count. Any other reply or a throw empties them. A throw also records the error. Loading always ends false |
| Pagination.PreviousDisabled | src/components/ui/pagination.tsx:17 | The Previous button is disabled exactly on page 1 |
| Pagination.NextDisabled | src/components/ui/pagination.tsx:24 | The Next button is disabled exactly on the last page |
| Pagination.ClickPrevious | src/components/ui/pagination.tsx:17 | The previous link does nothing on page 1 and otherwise goes back one page |
| Pagination.ClickNext | src/components/ui/pagination.tsx:24 | The next link does nothing on the last page and otherwise goes forward one page |
| Pagination.ClicksStayInRange | src/components/ui/pagination.tsx:17-24 | From any page in range, both links stay in range |
| Pagination.NextPastLastPage | src/components/ui/pagination.tsx:24 | Past the last page the next link is enabled and moves further out |
| Pagination.ClampedPrevious | src/pages/dashboard/Dashboard.tsx:123 | Disabled on page 1, else `Math.max(page - 1, 1)`: the result is never below 1, stays 1 on page 1, goes back one page above 1 and pulls a page below 1 up to 1 |
| Pagination.ClampedNext | src/pages/dashboard/Dashboard.tsx:133 | Disabled on the last page, else `Math.min(page + 1, totalPages)`: the result is never past the last page, stays on the last page, goes forward one page below it and pulls a page past it back to it |
| Pagination.ClampedStayInRange | src/pages/habits/Habits.tsx:220-231 | From any page in range, the page buttons stay in range |
| Dashboard.Completed | src/pages/dashboard/Dashboard.tsx:77-79 | The completed count is the number of positions whose habit is checked; hence at most the habit count, equal to it exactly when all are checked and 0 exactly when none is |
| Dashboard.Percentage | src/pages/dashboard/Dashboard.tsx:81 | Completed over the habit count times 100 is non-finite with no habits and otherwise the exact quotient |
| Dashboard.PercentageBounds | src/pages/dashboard/Dashboard.tsx:77-81 | With some habits, the completion percentage lies between 0 and 100 |
| Dashboard.CompletedAfterCheck | src/pages/dashboard/Dashboard.tsx:77-79 | Checking an unchecked habit listed once raises the completed count by exactly one |
| Dashboard.CompletedUnaffected | src/pages/dashboard/Dashboard.tsx:77-79 | Checking a habit that is not on the page leaves the completed count as it was |
| Dashboard.DashboardPage.constructor | src/pages/dashboard/Dashboard.tsx:27-29 | The page comes from the query and the page count starts at 1 |
| Dashboard.DashboardPage.FetchHabits | src/pages/dashboard/Dashboard.tsx:31-70 | A non-empty page loads into the provider and sets the page count. Otherwise the provider is emptied and the page count kept. A throw records the error. Loading ends false |
| Dashboard.DashboardPage.Previous | src/pages/dashboard/Dashboard.tsx:121-123 | The previous button applies the clamped step back |
| Dashboard.DashboardPage.Next | src/pages/dashboard/Dashboard.tsx:131-133 | The next button applies the clamped step forward |
| HabitsPage.Appended | src/pages/habits/Habits.tsx:140 | The created habit goes at the end and the earlier list is its prefix |
| HabitsPage.ReplacedById | src/pages/habits/Habits.tsx:167-173 | Every entry with the updated id takes the reply's information; every other entry is unchanged; the length is kept |
| HabitsPage.RemovedById | src/pages/habits/Habits.tsx:196-198 | The list without the deleted id's entries; its properties are the three lemmas below |
| HabitsPage.RemovedByIdMembers | src/pages/habits/Habits.tsx:196-198 | After delete, an entry is in the list exactly when it was there and has another id |
| HabitsPage.RemovedByIdConcat | src/pages/habits/Habits.tsx:196-198 | The filter keeps order: filtering a concatenation filters each part |
| HabitsPage.RemovedByIdAbsent | src/pages/habits/Habits.tsx:196-198 | Deleting an id not on the page leaves the list unchanged |
| HabitsPage.AfterCreate | src/pages/habits/Habits.tsx:136-141 | A reply other than 400 appends the created habit; a 400 or a throw keeps the list |
| HabitsPage.AfterUpdate | src/pages/habits/Habits.tsx:153-173 | With no habit selected or a thrown request the list is kept; otherwise the reply replaces the entries with its id |
| HabitsPage.AfterDelete | src/pages/habits/Habits.tsx:191-198 | With no (or an empty) id selected or a thrown request the list is kept; otherwise the id's entries are removed |
| HabitsPage.HabitsPage.constructor | src/pages/habits/Habits.tsx:52-60 | Query page, one page in total, dialog closed, nothing selected for update or delete |
| HabitsPage.HabitsPage.FetchHabits | src/pages/habits/Habits.tsx:64-102 | The same loading rules as the dashboard: a non-empty page loads, anything else empties, a throw records the error |
| HabitsPage.HabitsPage.HandleSubmit | src/pages/habits/Habits.tsx:127-150 | The list becomes `AfterCreate`. Success closes the dialog; a 400 or a throw keeps it open. The toast is the success text, the 400 reply's message, or the error's message or its fallback. Loading ends false |
| HabitsPage.HabitsPage.HandleUpdateHabit | src/pages/habits/Habits.tsx:152-183 | The list becomes `AfterUpdate`. With nothing selected nothing else happens. A reply closes the dialog, clears the selection and reports success. A throw keeps both and reports the error's message or its fallback. Loading ends false |
| HabitsPage.HabitsPage.ConfirmDelete | src/pages/habits/Habits.tsx:190-206 | The list becomes `AfterDelete`. With nothing selected, no toast and loading untouched. Otherwise a success or failure toast, and loading ends false |
| HabitsPage.HabitsPage.Previous | src/pages/habits/Habits.tsx:219-221 | The previous button applies the clamped step back |
| HabitsPage.HabitsPage.Next | src/pages/habits/Habits.tsx:229-231 | The next button applies the clamped step forward |
| Challenges.Notice | src/pages/dashboard/Challenges.tsx:55-71 | A throw gives the reverting alert, a 204 the missing-data alert, any other reply none |
| Challenges.Step | src/pages/dashboard/Challenges.tsx:39-49 | One interval tick: up one below the target, down one above it, no change on it; its properties are `StepCloser` and the tick lemmas |
| Challenges.StepCloser | src/pages/dashboard/Challenges.tsx:36-53 | Each tick moves progress one unit toward the weekly progress and stops on it |
| Challenges.AfterTicksDistance | src/pages/dashboard/Challenges.tsx:36-53 | After n ticks the distance to the target has shrunk by n, or to 0 |
| Challenges.ReachesTarget | src/pages/dashboard/Challenges.tsx:36-53 | As many ticks as the distance bring progress exactly to the target |
| Challenges.AfterTicksStep | src/pages/dashboard/Challenges.tsx:36-53 | One more tick is one more step from where n ticks left off |
| Challenges.ChallengeCard.constructor | src/pages/dashboard/Challenges.tsx:17-19 | A card starts not loading with progress 0 |
| Challenges.ChallengeCard.UpdateAccomplishedStatus | src/pages/dashboard/Challenges.tsx:55-71 | The alert shown is `Notice` of the outcome and loading ends false |
| Challenges.ChallengeCard.OnCardClick | src/pages/dashboard/Challenges.tsx:76-79 | A card click toggles the habit to the opposite of its checked state in the shared store, then reports the request's notice |
| Challenges.ChallengeCard.OnCheckboxChange | src/pages/dashboard/Challenges.tsx:92-95 | The checkbox sets the habit to the new checked value in the shared store, then reports the notice |
| Challenges.ChallengeCard.Animate | src/pages/dashboard/Challenges.tsx:36-53 | The interval ticks until progress equals the weekly progress; the number of ticks is the starting distance |
| MonthlyHabit.Classify | src/pages/analytics/MonthlyHabit.tsx:43-48 | The tier a day's count puts it in; `ClassifyBands` states the bands |
| MonthlyHabit.DatesOfTier | src/pages/analytics/MonthlyHabit.tsx:36-57 | The dates pushed onto one tier's list, in data order; its properties are the three lemmas below |
| MonthlyHabit.ClassifyBands | src/pages/analytics/MonthlyHabit.tsx:43-48 | A day is high at 5 or more, medium at 3-4, low at 1-2, and in no tier at 0 or below |
| MonthlyHabit.DatesOfTierConcat | src/pages/analytics/MonthlyHabit.tsx:36-57 | The tier lists keep data order: a concatenation's list is the parts' lists concatenated |
| MonthlyHabit.DatesOfTierMembers | src/pages/analytics/MonthlyHabit.tsx:36-57 | A date is in a tier's list exactly when some day with that date has a count in that tier |
| MonthlyHabit.TiersDisjoint | src/pages/analytics/MonthlyHabit.tsx:36-57 | With distinct dates, no date is in two tiers |
| MonthlyHabit.Modifiers | src/pages/analytics/MonthlyHabit.tsx:36-57 | The `forEach` loop builds exactly the three tier lists |
| MonthlyHabit.SkippedDays | src/pages/analytics/MonthlyHabit.tsx:34 | The skipped-day count is the number of days whose count is 0, hence at most the number of days |
| MonthlyHabit.SkippedAndTiersPartition | src/pages/analytics/MonthlyHabit.tsx:34-57 | With no negative counts, skipped days plus the three tier sizes make up every day |
| MonthlyHabit.Project | src/pages/analytics/MonthlyHabit.tsx:64-67 | The chart points are the days' dates and counts, one per day, in order |
| MonthlyHabit.MonthlyHabits.constructor | src/pages/analytics/MonthlyHabit.tsx:9-12 | The selection starts at today's month (1-based) and year, with no data, not loading |
| MonthlyHabit.MonthlyHabits.FetchData | src/pages/analytics/MonthlyHabit.tsx:14-29 | Only a 200 reply replaces the data; anything else keeps it; loading ends false |
| MonthlyHabit.MonthlyHabits.HandleMonthChange | src/pages/analytics/MonthlyHabit.tsx:59-62 | The selection becomes the shown month, 1-based, and its year |
| WeeklyHabits.Weekday | src/pages/analytics/WeeklyHabits.tsx:52 | The day of the week is in 0..6 |
| WeeklyHabits.StartOfWeek | src/pages/analytics/WeeklyHabits.tsx:52 | The week start is a Sunday at most six days before the date |
| WeeklyHabits.EndOfWeek | src/pages/analytics/WeeklyHabits.tsx:53 | The week end is a Saturday at most six days after the date |
| WeeklyHabits.StartOfWeekUnique | src/pages/analytics/WeeklyHabits.tsx:52 | Any Sunday at most six days before a date is its week start |
| WeeklyHabits.StartOfWeekOfWeekDays | src/pages/analytics/WeeklyHabits.tsx:52-79 | Taking the week start is idempotent and the week end has the same start, so the habit-count request starts at `startRange` |
| WeeklyHabits.StartOfWeekShift | src/pages/analytics/WeeklyHabits.tsx:115-118 | Moving a date by whole weeks moves its week start by the same amount |
| WeeklyHabits.ChangeWeek | src/pages/analytics/WeeklyHabits.tsx:115-126 | Next adds seven days; previous goes to the Sunday of the week seven days earlier; `ChangeWeekMovesOneWeek` and `PrevThenNext` state what this does to the shown week |
| WeeklyHabits.ChangeWeekMovesOneWeek | src/pages/analytics/WeeklyHabits.tsx:115-126 | Next moves the shown week one week on. Previous moves it one week back and lands on that week's Sunday |
| WeeklyHabits.PrevThenNext | src/pages/analytics/WeeklyHabits.tsx:115-126 | Previous then next shows the starting week again |
| WeeklyHabits.IsThisWeek | src/pages/analytics/WeeklyHabits.tsx:166 | A day is in this week exactly when its (Sunday) week start is today's |
| WeeklyHabits.NextWeekDisabled | src/pages/analytics/WeeklyHabits.tsx:166 | The next-week button is disabled exactly when the shown week's end is in this week |
| WeeklyHabits.NextWeekNeverPassesToday | src/pages/analytics/WeeklyHabits.tsx:166 | From a week no later than today's, next is disabled exactly on today's week, so it never reaches a future week |
| WeeklyHabits.CellActive | src/pages/analytics/WeeklyHabits.tsx:207-217 | A grid cell is active exactly when the habit's day list holds that day |
| WeeklyHabits.SkippedDays | src/pages/analytics/WeeklyHabits.tsx:54 | The skipped count is the number of days whose count is 0; hence at most the day count, all days exactly when every count is 0 and none exactly when no count is 0 |
| WeeklyHabits.Body | src/pages/analytics/WeeklyHabits.tsx:175-185 | The grid shows exactly when not loading and both the habits and the day counts are non-empty |
| WeeklyHabits.WeeklyHabitsView.constructor | src/pages/analytics/WeeklyHabits.tsx:39-49 | Today selected, query page, no pages, no data, nothing loading |
| WeeklyHabits.WeeklyHabitsView.FetchHabits | src/pages/analytics/WeeklyHabits.tsx:56-72 | A reply with a page of data sets the habits and the page count. Otherwise the habits end empty and the page count is kept. Loading ends false |
| WeeklyHabits.WeeklyHabitsView.FetchUserHabitCount | src/pages/analytics/WeeklyHabits.tsx:74-92 | A non-empty list of day counts is stored, anything else empties it; loading ends false |
| WeeklyHabits.WeeklyHabitsView.FetchData | src/pages/analytics/WeeklyHabits.tsx:94-107 | Both fetches apply their rules and both loading flags end false |
| WeeklyHabits.WeeklyHabitsView.HandleChangeWeek | src/pages/analytics/WeeklyHabits.tsx:115-126 | The selected day becomes `ChangeWeek` of the old one |
| WeeklyHabits.WeeklyHabitsView.Previous | src/pages/analytics/WeeklyHabits.tsx:231-232 | The previous button applies the clamped step back |
| WeeklyHabits.WeeklyHabitsView.Next | src/pages/analytics/WeeklyHabits.tsx:241-242 | The next button applies the clamped step forward |
| Overview.StreakKey | src/pages/analytics/Overview.tsx:47 | The streak cache key is the streak path followed by the selection |
| Overview.ConsistencyKey | src/pages/analytics/Overview.tsx:48 | The consistency cache key is the consistency path followed by the selection |
| Overview.KeysDistinct | src/pages/analytics/Overview.tsx:47-48 | The two kinds of key never clash, and each determines its selection |
| Overview.RoundHalfUp | src/pages/analytics/Overview.tsx:79 | The rounded value is within half a unit, halves rounding up |
| Overview.Fixed0 | src/pages/analytics/Overview.tsx:79 | `toFixed(0)` is a sign and a magnitude rounded half away from zero |
| Overview.Extract | src/pages/analytics/Overview.tsx:66-80 | The cards are updated exactly when both bodies have the expected shape; then with the streak fields and the rounded percentage |
| Overview.Load | src/pages/analytics/Overview.tsx:43-86 | One run of `fetchData`: the requests made, the new cache, the cards, whether the failure toast was raised and whether the render fails; its properties are the lemmas below, and `OverviewPanel.FetchData` is proved equal to it |
| Overview.CachedNeverRefetched | src/pages/analytics/Overview.tsx:51-56 | A cached key is not requested again |
| Overview.EntriesPersist | src/pages/analytics/Overview.tsx:26-60 | A load never drops or changes a cache entry |
| Overview.BothKeysCached | src/pages/analytics/Overview.tsx:51-60 | After a load in which neither request threw, both keys are cached |
| Overview.SecondLoadFromCache | src/pages/analytics/Overview.tsx:51-60 | Reloading the same selection after such a load requests nothing |
| Overview.NoContentIsSticky | src/pages/analytics/Overview.tsx:59-64 | A cached 204 keeps the cards as they were on every later load |
| Overview.ToastIffThrew | src/pages/analytics/Overview.tsx:43-86 | The failure toast is raised exactly when a request throws. A body lacking the fields read raises no toast, keeps the cards and fails the render, exactly when both replies are in and neither is a 204 |
| Overview.SuccessfulLoad | src/pages/analytics/Overview.tsx:43-86 | With neither key cached, two well-formed replies other than 204 are both requested, cached under their keys with the rest of the cache unchanged, and shown on the cards |
| Overview.ResponseCache.constructor | src/pages/analytics/Overview.tsx:26 | The cache starts empty |
| Overview.OverviewPanel.constructor | src/pages/analytics/Overview.tsx:29-40 | The panel starts loading, with the initial card values |
| Overview.OverviewPanel.FetchData | src/pages/analytics/Overview.tsx:43-86 | The requests issued, the cache, the cards, the toast flag and the render-failure flag are those of `Load`; loading ends false |
| StreakCard.WithDefaults | src/pages/habits/StreakCard.tsx:34-39 | Missing streak numbers read as 0 and missing date lists as empty |
| StreakCard.BestStreakLabel | src/pages/habits/StreakCard.tsx:110-123 | No dates show a message, one date that date, more a range of the first two |
| StreakCard.CurrentStreakLabel | src/pages/habits/StreakCard.tsx:78-100 | The current-streak label with its nested, partly dead branches as written; `CurrentStreakLabelShape` states its shape |
| StreakCard.CurrentStreakLabelShape | src/pages/habits/StreakCard.tsx:78-100 | The current-streak label shows the no-streak message, one date or the first two. Its inner empty branch is unreachable, so "No best streak" never shows there |
| StreakCard.StreakCardView.constructor | src/pages/habits/StreakCard.tsx:11-20 | The card starts loading, with zero streaks, no dates and no error |
| StreakCard.StreakCardView.FetchStreak | src/pages/habits/StreakCard.tsx:23-47 | A 204 keeps the data and the error and raises the "do something first" toast. Other replies store the data with defaults and the accomplished dates. A failure sets the fetch error, so the error view shows; after a successful reply it shows exactly when an earlier error is kept. Loading ends false |
| UserSlice.GetTokenExpirationTime | src/redux/user/userSlice.ts:24-31 | The expiry is null when decoding throws, NaN without `exp`, and `exp` times 1000 otherwise |
| UserSlice.ExpiredAtSignIn | src/redux/user/userSlice.ts:33-47 | A sign-in is dropped at once exactly when its expiry time is truthy and no time remains |
| UserSlice.Reduce | src/redux/user/userSlice.ts:52-107 | The state after each of the thirteen reducers; its properties are the reducer lemmas below, and `UserStore.Dispatch` is proved equal to it |
| UserSlice.LoadingDiscipline | src/redux/user/userSlice.ts:53-106 | Each start reducer only sets loading; every other reducer ends with loading false |
| UserSlice.SuccessStoresPayload | src/redux/user/userSlice.ts:33-77 | Sign-in success stores the session and clears the error unless the token has already expired, in which case the user is dropped; update success stores the payload |
| UserSlice.SignInKeepsUnexpired | src/redux/user/userSlice.ts:33-65 | An undecodable token, a missing or zero `exp`, or a future expiry keeps the signed-in user |
| UserSlice.FailuresKeepUser | src/redux/user/userSlice.ts:66-81 | Sign-in and update failures record the payload, keep the user and stop loading |
| UserSlice.SignOutClearsUser | src/redux/user/userSlice.ts:85-105 | Delete and sign-out drop the user whether they succeed or fail; only success clears the error |
| UserSlice.ResetFromAny | src/redux/user/userSlice.ts:18-22 | `resetState` gives the initial state from any state |
| UserSlice.Rehydrated | src/redux/user/userSlice.ts:110-120 | The state after `onRehydrateComplete`; its properties are the two rehydration lemmas, and `UserStore.OnRehydrateComplete` is proved equal to it |
| UserSlice.RehydrateClearsIffExpired | src/redux/user/userSlice.ts:110-120 | Rehydration changes only the user. It drops the user exactly when the user has a non-empty token whose expiry is a non-zero time before now |
| UserSlice.RehydrateKeepsFalsyExpiry | src/redux/user/userSlice.ts:113-115 | A token with `exp` 0 or no `exp` is never dropped, however late |
| UserSlice.UserStore.constructor | src/redux/user/userSlice.ts:18-22 | The store starts in the initial state |
| UserSlice.UserStore.Dispatch | src/redux/user/userSlice.ts:52-107 | Dispatching gives the reducer's state. The token cookie is removed exactly when a sign-in token has already expired |
| UserSlice.UserStore.OnRehydrateComplete | src/redux/user/userSlice.ts:110-120 | The state after rehydration is `Rehydrated`; the cookie is removed exactly when the user is dropped |
| Routing.PrivateRoute | src/components/shared/routing/PrivateRoute.tsx:5-13 | The private outlet renders exactly for a user with a non-empty token; every other state goes to `/login` |
| Routing.GuestRoute | src/components/shared/routing/AuthRedirectRoute.tsx:5-13 | A user with a non-empty token goes to `/dashboard`; every other state sees the guest outlet |
| Routing.GuardsComplementary | src/components/shared/routing/AuthRedirectRoute.tsx:8-12 | In every state exactly one of the two guards renders its outlet |
| Routing.SignedOutIsRedirected | src/components/shared/routing/PrivateRoute.tsx:8-10 | After sign-out, or even a failed deletion, private pages redirect to sign-in; after a reset guest pages show |
| ErrorHandler.HandleAuthError | src/utils/errorHandler.ts:4-22 | Exactly one sign-in failure is dispatched. 404, 401 and 409 each get their fixed text and pass the reply's message. Any other status uses the message or the fallback texts |
| ErrorHandler.HandledFailureInStore | src/utils/errorHandler.ts:4-22 | The dispatched failure keeps the user and stops loading. It records the message, which is never empty for unlisted statuses |
| Schemas.LookaheadMatchesIff | src/utils/schemas.ts:19-22 | A lookahead `(?=.*X)` succeeds exactly when some character matching X has no line terminator before it |
| Schemas.StrongPassword | src/utils/schemas.ts:19-22 | The password pattern as four lookahead scans and a length of at least 8; `StrongPasswordOneLine` and `UppercaseAfterNewlineRejected` state what it accepts |
| Schemas.StrongPasswordOneLine | src/utils/schemas.ts:19-22 | On one line the password pattern asks for 8 characters including a lowercase letter, an uppercase letter, a digit and a non-alphanumeric character |
| Schemas.UppercaseAfterNewlineRejected | src/utils/schemas.ts:19-22 | A password whose only uppercase letter follows a newline is rejected |
| Schemas.LoginIssues | src/utils/schemas.ts:3-6 | Login is accepted exactly for a 3-30 character identifier and a password of at least 8 |
| Schemas.OtpIssues | src/utils/schemas.ts:8-11 | The code form is accepted exactly for a valid e-mail of 5-255 characters and a code of at least 6 |
| Schemas.RegisterIssues | src/utils/schemas.ts:13-25 | Sign-up is accepted exactly for a valid 5-255 character e-mail, a 3-30 character username, a password matching the pattern and a password unlike the username; the latter reports last |
| Schemas.ForgotIssues | src/utils/schemas.ts:27-29 | The forgot form is accepted exactly for a valid e-mail of 5-255 characters |
| Schemas.ResetIssues | src/utils/schemas.ts:31-42 | The reset form is accepted exactly when e-mail, token and new password pass and the confirmation is at least 8 and equal. A mismatch reports last, on `confirm_password` |
| Schemas.HabitIssues | src/utils/schemas.ts:44-51 | A habit is accepted exactly for a 3-30 character name, a goal of at least 1 and a colour. Goal 0 is reported as required, a negative goal as below 1 |
| Schemas.EditUserIssues | src/utils/schemas.ts:53-55 | A username edit is accepted exactly for 3-30 characters |
| Schemas.ShortPasswordTwoIssues | src/utils/schemas.ts:19-22 | A password shorter than 8 gets both the length and the pattern message |
| Profile.Purged | src/pages/profile/Profile.tsx:143-162 | The stored keys left after removing the fixed keys and the prefixed keys, in storage order; its properties are `PurgedMembers` and `PurgeIdempotent`, and `RemoveAllAppData` is proved equal to it |
| Profile.PurgedMembers | src/pages/profile/Profile.tsx:143-162 | After the purge a key remains exactly when it was stored and is neither a fixed key nor prefixed by an application prefix |
| Profile.PurgeIdempotent | src/pages/profile/Profile.tsx:143-162 | Purging twice removes nothing more |
| Profile.LocalStorage.RemoveItem | src/pages/profile/Profile.tsx:161 | `removeItem` drops that key and its value and keeps the rest in order |
| Profile.RemoveAllAppData | src/pages/profile/Profile.tsx:143-162 | The collect-then-remove loops leave exactly the purged key sequence and the values of the remaining keys |
| Profile.WithUsername | src/pages/profile/Profile.tsx:129-132 | The updated user carries the new name and the previous user's id and e-mail (the fields the model's record has) |
| Profile.ProfilePage.constructor | src/pages/profile/Profile.tsx:48-50 | No user, not editing, not loading |
| Profile.ProfilePage.HandleUpdateProfile | src/pages/profile/Profile.tsx:119-141 | A 200 reply renames the user and toasts success; a throw toasts the failure; any other reply changes nothing. Editing and loading end false on every path |
| Profile.ProfilePage.ConfirmDelete | src/pages/profile/Profile.tsx:77-95 | A reply signs out to the initial state, purges the app-data keys and their values, keeping every other key's value, and toasts on 200; a throw keeps store and storage and toasts the failure; every path ends on `/login` |
| Profile.OnSignOut | src/pages/profile/Profile.tsx:97-117 | A 200 reply signs out to the initial state, purges the app-data keys and their values, keeping every other key's value, and goes to `/login`. Anything else keeps storage and drops the user as a sign-out failure, keeping the error |

## Left out

- Network, toasts, alerts and navigation: requests are parameters (`Fetched` outcomes); the toasts, alerts and navigations of the modelled handlers are returned values. The overview panel's "Failed to fetch data." toast is the `failed` result of `OverviewPanel.FetchData`.
- Rendering: the JSX is modelled only where it decides something (button enabling, placeholder and error views, grid versus barren view, streak labels).
- Timers:
  - the `setTimeout` armed at sign-in for a token that expires later is not modelled; only the immediate expiry is;
  - the progress animation's interval is modelled as a sequence of ticks without timing;
  - window resize handling is not modelled.
- Challenges.Animate: holds for integer weekly progress. A fractional target makes the source's interval step past it forever; that case is not modelled.
- Floating point:
  - percentages are exact rationals (`Ratio`);
  - `toFixed(0)` is exact half-away-from-zero rounding;
  - 64-bit float effects are not modelled.
- Clock and libraries:
  - `jwtDecode` is a `Decoder` parameter and `Date.now()` a `now` parameter;
  - date-fns week arithmetic is day arithmetic;
  - `Intl`/`format` date labels are kept as the raw date strings.
- The week grid's per-cell date computation with its UTC shift (WeeklyHabits.tsx:207-214) is not modelled: cells are compared as day numbers.
- React semantics: batched state updates, stale closures and effect re-runs are not modelled. Handlers run to completion one at a time, and `Promise.all` is two sequential fetches.
- Aliasing: the habit objects the store shares with the pages are values, not shared references.
- Strings are sequences of Unicode scalar values; JavaScript's UTF-16 lengths (which count astral characters twice in the length checks) are not modelled.
- Number parsing of the `page` query parameter and the habit goal field: the model takes the parsed integer.
- The profile page's `fetchUser` on mount, the form reset and the form field values are not modelled.
- `null` and `undefined` are both `None`.
- redux-persist wiring: the store configuration is out of scope, and so is whether `onRehydrateComplete` receives a mutable state.
- The e-mail regular expression of the schema library is an input (`isEmail`).
- Overview.Extract: a reply body is either well formed or `Malformed`. `Malformed` stands for a reply without `data` or without `percentage`, fields whose reading throws inside the `setData` updater: that error escapes the `catch`, so no toast is raised and the component fails at render. The model records this as `renderFailed` with the cards unchanged; the render failure itself (an error boundary, or an unmounted tree) is not modelled. A reply that lacks only a streak field is not modelled; the source copies that field as `undefined`.
- The search-parameter synchronisation effects are not modelled.
- Sign-out and delete failures carry no payload in the model, because their reducers read none.
- ErrorOf: the fallback status is the string `"500"` in the source, while a response status is a number. The model keeps both as the number 500 or the response's status, so the string/number distinction is not modelled.
- The profile user record keeps only the id, username and e-mail. The password and the creation, update and deletion dates are not modelled, because no modelled handler reads them.
- Proof helpers have no row of their own: `Profile.Without` is the key sequence minus a set of keys, and `WithoutMembers`, `WithoutDistinct`, `WithoutTwice`, `WithoutNothing` and `WithoutIsPurge` are its lemmas; `Profile.LocalStorage.constructor` builds a storage from distinct keys and their values.

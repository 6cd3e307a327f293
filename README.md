# bakutils React hooks: time tracker, countdown and pagination in Dafny

This project models the three state-holding hooks of the bakutils React
hook library and proves properties of them.

- `useTimeTracker` (module `TimeTracker`, `time_tracker.dfy`) counts elapsed
  seconds across `start`, `pause` and `reset`. It keeps the triple
  `startTime`, `elapsedTime`, `isActive` and writes that triple to the
  local-storage key `bakutils.timeTracker`. `pause` always writes it.
  A periodic save writes it while the tracker is active and
  `useLocalStorage` is truthy. `reset` removes it, and a newly mounted hook
  copies it back.
  Each callback and timer firing is a function on `World`, which is the
  hook state plus the stored snapshot. `Run` applies a sequence of such
  events. The class `Tracker` has the hook's fields. `Storage` is the
  local-storage slot, which outlives any one `Tracker`. Each method of
  `Tracker` is proved to perform exactly the matching transition.
- `useCountdown` (module `Countdown`, `countdown.dfy`) keeps `timeLeft`.
  Each firing of its interval applies the updater `time > 0 ? time - 1 : 0`.
  The interval is installed only when `shouldRun` permits it. A function
  form of `shouldRun` is called once, when the effect runs, not at each
  firing. The class `Timer` records the effect's decision in `running`.
- `usePagination` (module `Pagination`, `pagination.dfy`) derives `maxPage`
  as an integer ceiling division and `currentData` as a JavaScript
  `slice`, with `slice`'s negative-index and clamping rules written out.
  `next`, `prev` and `jump` clamp the page. The class `Pager` stores the
  page and logs in `notified` every value passed to `onPageChange`.

One consequence of the time tracker's code is proved outright. `pause`
calls `saveState` in the same render in which it calls
`setIsActive(false)`, so the snapshot it stores still says
`isActive = true`. A reload after a pause therefore brings the tracker
back running (`PauseThenReloadRestoresPrePauseState`). The model keeps
this behaviour because it is what the code does.

Further facts about the time tracker's code. The model keeps the first
two and the last; the third lies outside it (see "## Left out"):
- the configuration is neither clamped nor rejected;
- `pause` saves even when `useLocalStorage` is false;
- a malformed stored value is not recovered from: `JSON.parse` throws
  (lib/useTimeTracker.ts:67);
- `useLocalStorage` is documented as `@default true`
  (lib/useTimeTracker.ts:17-18), but the default object applies only when
  no config object is passed at all. A config object that omits
  `useLocalStorage` therefore disables periodic saving
  (`PeriodicSaveGate`).

Hook arguments are read afresh on every render. `Tracker.Rerender`,
`Timer.Rerender` and `Pager.Rerender` model a render with new arguments
that keeps the state. A periodic-save event carries the config of the
render its interval belongs to.

## Model

| member | source | states |
|---|---|---|
| `TimeTracker.StartT` | lib/useTimeTracker.ts:33-36 | a present start time is kept, a missing one becomes `now`; the tracker becomes active; elapsed time and storage are untouched |
| `TimeTracker.SaveStateT` | lib/useTimeTracker.ts:28-31 | the stored value becomes the current triple and the state is unchanged |
| `TimeTracker.PauseT` | lib/useTimeTracker.ts:38-41 | the stored snapshot is the triple from before the pause, whatever the config says; afterwards the tracker is inactive with start and elapsed time unchanged |
| `TimeTracker.ResetT` | lib/useTimeTracker.ts:43-48 | from any state: no start time, zero seconds, inactive, and no stored snapshot |
| `TimeTracker.TickT` | lib/useTimeTracker.ts:50-62 | while active one firing adds exactly 1 to elapsed time and changes nothing else; while inactive nothing changes |
| `TimeTracker.PeriodicSaveT` | lib/useTimeTracker.ts:74-79 | the snapshot is written only when the tracker is active and `useLocalStorage` is truthy; the state never changes |
| `TimeTracker.RehydrateT` | lib/useTimeTracker.ts:64-72 | a stored snapshot is copied into the state verbatim; without one the state is left as it is |
| `TimeTracker.Reload` | lib/useTimeTracker.ts:24-72 | a fresh mount shows the stored snapshot if there is one, else the initial values, and keeps the storage |
| `TimeTracker.PeriodicSaveGate` | lib/useTimeTracker.ts:23-79 | the periodic save runs exactly when the tracker is active and either no config object was passed or it sets `useLocalStorage: true`; a config that omits `useLocalStorage` disables it |
| `TimeTracker.StartIdempotent` | lib/useTimeTracker.ts:33-36 | a second `start` changes nothing, whatever the clock reads |
| `TimeTracker.StepKeepsConsistent` | lib/useTimeTracker.ts:24-79 | every event keeps elapsed time non-negative and a start time present while active, in the state and in the stored snapshot |
| `TimeTracker.RunKeepsConsistent` | lib/useTimeTracker.ts:24-79 | any sequence of events keeps that invariant |
| `TimeTracker.ElapsedNeverDecreases` | lib/useTimeTracker.ts:25-72 | elapsed time does not decrease along any sequence of events without a reset or a remount |
| `TimeTracker.PausedStandsStill` | lib/useTimeTracker.ts:38-62 | once inactive, any number of ticks, saves and pauses leave the state exactly as it is |
| `TimeTracker.TicksAddUp` | lib/useTimeTracker.ts:53-56 | while active, n ticks add exactly n seconds and change nothing else |
| `TimeTracker.SaveRehydrateRoundTrip` | lib/useTimeTracker.ts:28-72 | saving and then rehydrating reproduces the identical triple, whatever the state was in between |
| `TimeTracker.ReloadWithoutSnapshot` | lib/useTimeTracker.ts:24-72 | with nothing stored a fresh mount shows `(null, 0, false)` |
| `TimeTracker.ResetThenReload` | lib/useTimeTracker.ts:43-72 | after a reset, a reload finds no snapshot and shows the initial values |
| `TimeTracker.PauseThenReloadRestoresPrePauseState` | lib/useTimeTracker.ts:28-72 | a reload after a pause restores the pre-pause triple, so a tracker paused while running comes back running |
| `TimeTracker.StartThenFiveTicks` | lib/useTimeTracker.ts:24-56 | start followed by five ticks gives five seconds, active, with the start time taken at the start |
| `TimeTracker.PauseHoldsElapsed` | lib/useTimeTracker.ts:24-62 | start, three ticks, pause, then ten more firings: elapsed time stays at three |
| `TimeTracker.RehydratesFortyTwo` | lib/useTimeTracker.ts:64-72 | a stored snapshot of 42 inactive seconds is what a fresh mount shows |
| `TimeTracker.Tracker.constructor` | lib/useTimeTracker.ts:23-26 | the first render starts from `(null, 0, false)` with the default config when none is passed, and leaves the storage alone |
| `TimeTracker.Tracker.Start` | lib/useTimeTracker.ts:33-36 | performs `StartT` on the fields, changes only `startTime` and `isActive`, and keeps the invariant |
| `TimeTracker.Tracker.Pause` | lib/useTimeTracker.ts:38-41 | performs `PauseT`: stores the pre-pause triple, then clears `isActive` |
| `TimeTracker.Tracker.Reset` | lib/useTimeTracker.ts:43-48 | performs `ResetT` on the fields and the storage |
| `TimeTracker.Tracker.Tick` | lib/useTimeTracker.ts:50-62 | performs `TickT` |
| `TimeTracker.Tracker.PeriodicSave` | lib/useTimeTracker.ts:74-79 | performs `PeriodicSaveT` with the resolved config |
| `TimeTracker.Tracker.Rehydrate` | lib/useTimeTracker.ts:64-72 | performs `RehydrateT` |
| `TimeTracker.Tracker.IntegerElapsedTime` | lib/useTimeTracker.ts:86 | the raw elapsed seconds, non-negative whenever the state is consistent |
| `TimeTracker.Tracker.Rerender` | lib/useTimeTracker.ts:23-79 | a render with another config argument replaces the config read by the periodic-save gate and keeps the state and the storage |
| `TimeTracker.Mount` | lib/useTimeTracker.ts:23-72 | mounting over existing storage gives `Reload` of that storage, and the tracker satisfies the invariant whenever the stored snapshot does |
| `Countdown.Decrement` | lib/useCountdown.ts:30 | the result is never negative, is one less while positive, is zero exactly when the input is at most 1, and is not above a non-negative input |
| `Countdown.AfterTicksClosedForm` | lib/useCountdown.ts:24-31 | n firings from `t` give `max(t - n, 0)` for n at least 1 |
| `Countdown.ZeroIsFixed` | lib/useCountdown.ts:30 | from zero, any number of firings stays at zero |
| `Countdown.AfterTicksBounded` | lib/useCountdown.ts:30 | from a non-negative value, firings never raise the count or make it negative |
| `Countdown.NegativeIsLiftedToZero` | lib/useCountdown.ts:30 | a negative count is raised to zero by one firing |
| `Countdown.OverExactlyAfter` | lib/useCountdown.ts:29-40 | from a start value `t >= 0`, `isCountdownOver` holds after n firings exactly when n is at least `t` |
| `Countdown.Timer.constructor` | lib/useCountdown.ts:23-24 | `timeLeft` starts at `initialTime`, with no interval installed yet; the value the countdown runs down from is that `initialTime`, and the countdown invariant holds |
| `Countdown.Timer.Rerender` | lib/useCountdown.ts:23-35 | a render with another `initialTime` leaves `timeLeft` as it is, since `useState` ignores it, but a later reset uses the new value; the invariant is kept |
| `Countdown.Timer.ApplyShouldRun` | lib/useCountdown.ts:26-33 | the interval is installed exactly when the flag is true or the function returns true |
| `Countdown.Timer.Tick` | lib/useCountdown.ts:29-31 | a firing applies `Decrement` only while the interval is installed |
| `Countdown.Timer.ResetCountdown` | lib/useCountdown.ts:35 | `timeLeft` is the current render's `initialTime` again, and the countdown now runs down from that value |
| `Countdown.Timer.IsCountdownOver` | lib/useCountdown.ts:40 | over exactly when `timeLeft` is 0; `OverExactlyAfter` gives after how many firings from a non-negative start that holds |
| `Countdown.Timer.IntegerTimeLeft` | lib/useCountdown.ts:41 | equals `timeLeft` for an integer count; it lies in `[0, v]` where `v >= 0` is the value last set by the first render or a reset, and it is negative only while still equal to a negative such value |
| `Countdown.TickWhenStopped` | lib/useCountdown.ts:26-32 | with a false guard, a firing leaves `timeLeft` unchanged |
| `Pagination.CeilPages` | lib/usePagination.ts:25 | the least `m` with `m * itemsPerPage >= length`, that is the ceiling of the division |
| `Pagination.CeilPagesZero` | lib/usePagination.ts:25 | there are no pages exactly when there is no data |
| `Pagination.Slice` | lib/usePagination.ts:30 | at most the input's length, and the plain subsequence when the indices are in order and in bounds |
| `Pagination.NextPage` | lib/usePagination.ts:35 | one page on while below `maxPage`, otherwise `maxPage` |
| `Pagination.PrevPage` | lib/usePagination.ts:43 | one page back while above 1, otherwise 1 |
| `Pagination.JumpPage` | lib/usePagination.ts:50 | always at least 1, at most `maxPage` when there is a page, the requested page when it is in range |
| `Pagination.NavigationStaysInRange` | lib/usePagination.ts:35-50 | from a page in `[1, maxPage]`, `next`, `prev` and `jump` all stay in `[1, maxPage]` |
| `Pagination.NavigationAtTheEnds` | lib/usePagination.ts:35-50 | `next` stays at `maxPage`, `prev` stays at 1; with no data `next` gives page 0 and `jump` gives page 1 |
| `Pagination.PageSliceWindow` | lib/usePagination.ts:27-31 | for a page from 1 on, `currentData` is `data[(p-1)*k .. p*k]` cut at the end of `data`, with at most `k` items |
| `Pagination.PageInRangeNonEmpty` | lib/usePagination.ts:25-31 | a page in `[1, maxPage]` is non-empty and starts at item `(p-1)*k` |
| `Pagination.ItemOnItsPage` | lib/usePagination.ts:25-31 | every item `i` lies on page `i / k + 1`, which is in range, at position `i % k` |
| `Pagination.EmptyDataShowsNothing` | lib/usePagination.ts:27-31 | with no data every page, page 0 included, is empty |
| `Pagination.Pager.constructor` | lib/usePagination.ts:18-23 | the hook starts on page 1 with nothing reported |
| `Pagination.Pager.MaxPage` | lib/usePagination.ts:25 | the ceiling of `data.length / itemsPerPage` for the current props |
| `Pagination.Pager.CurrentData` | lib/usePagination.ts:27-31 | at most `itemsPerPage` items: the current page's window of `data` from page 1 on, and nothing on page 0 |
| `Pagination.Pager.Rerender` | lib/usePagination.ts:18-23 | new props replace the old, and the page and the report log are kept |
| `Pagination.Pager.Next` | lib/usePagination.ts:33-39 | stores `NextPage` of the page and reports exactly that value when a callback is given |
| `Pagination.Pager.Prev` | lib/usePagination.ts:41-47 | stores `PrevPage` of the page and reports exactly that value when a callback is given |
| `Pagination.Pager.Jump` | lib/usePagination.ts:49-53 | stores `JumpPage` of the request and reports exactly that value when a callback is given |

## Left out

- React machinery is not modelled: `useState` batching, `useCallback` dependency arrays and the timing of effects. Each callback and each timer firing is one atomic step.
- The trace lemmas of `TimeTracker` cover the hook's events; a re-render is not an event, because it changes only the config, which each periodic-save event carries.
- Timer scheduling is not modelled. Firings of `setInterval` are explicit `Tick` and `PeriodicSave` calls, possible only while their interval would be installed. `saveInterval` is carried in the config and nothing else.
- The periodic-save effect depends on `saveState`, which changes whenever `elapsedTime` changes, so in the browser the save interval is re-created every second. A `saveInterval` of 1000 ms or more may then never elapse. The model does not capture this timing.
- Local storage and JSON are not modelled. The stored value is the triple itself. Storage quota errors are not modelled, and neither is a malformed stored string, which makes `JSON.parse` throw at lib/useTimeTracker.ts:67.
- `Date.now()` is the `now` parameter of `Start`.
- The mm:ss formatting with `Intl.DateTimeFormat` is not modelled (lib/useTimeTracker.ts:3-6, lib/useCountdown.ts:3-6). Its output is locale-dependent library output.
- All numbers are integers. Fractional `initialTime`, `Math.trunc` on fractions, fractional page numbers and the floating-point division inside `Math.ceil` are not modelled.
- Pagination.CeilPages: requires `itemsPerPage > 0`, as do `Pager`'s members. In JavaScript a page size of 0 gives an infinite `maxPage` (not-a-number with no data), and a negative page size gives a non-positive `maxPage`, which makes no sense as a page count; both are excluded.
- `onPageChange` is reduced to the log `notified` of the values passed to it. Its own effects are not modelled, and neither is React calling a state updater twice in strict mode.
- Elapsed time is the flat +1 per tick of the code. Nothing is derived from `now - startTime`.

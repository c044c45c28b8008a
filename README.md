# go-simple-scheduler in Dafny

A model of the core of `go-simple-scheduler`: an in-process registry of
one-shot jobs, each registered under a unique string key and run once after a
delay or at an instant. Callers can cancel a job, reschedule it, or replace it
(cancel, then add again).

The `Scheduler` keeps two structures. The first is a map from key to entry.
The second is a slice of entries in insertion order, where each entry
remembers the position (`idx`) it was appended at. Each entry also owns a
platform timer. The model keeps both structures and represents each armed
timer as the instant at which it fires.

Modules:

- `Constants` (constant.go): the three error values. It also defines the
  `Outcome`, `Result` and `Option` wrappers, which stand for Go's `error`
  returns and nil pointers.
- `Detail` (detail_scheduler.go): the entry datatype and the
  `DetailSchedulers` slice class with `Add`, `Remove`, `Replace` and `Total`.
  `ShiftedOut` states what `Remove` does to the caller's slice.
- `TimeConversion` (scheduler.go): `subtractDateTime` and
  `fromDurationToDateTime`. Instants are integers of nanoseconds, and "now" is
  a parameter.
- `Listing` (scheduler.go): the `(key, instant)` pairs listed for a slice.
- `Registry` (scheduler.go): the scheduler's state as a value and one function
  per operation. It also holds the invariant and the lemmas about each
  operation.
- `History` (scheduler.go): any sequence of operations and timer firings keeps
  the invariant and never shortens the slice. It also contains a concrete
  history that shows a live key missing from the listing.
- `Scheduling` (scheduler.go): the `Scheduler` class. Its fields are updated
  in place. Each transition method (`AddParam`, `RescheduleParam`,
  `CancelKey`, `ReplaceParam`, `Fire` and the seven public operations) is
  proved to change `Model()` exactly as the matching `Registry` function does.
  `Read`, `DeleteScheduler`, `DeleteSchedulerSlice` and `ToResponseScheduler`
  have no such function; their contracts state their effect directly.
- `JsonResponse` (default_json.go): `transformToJsonData`.

How `Remove` behaves as written (detail_scheduler.go:16-19):

- It shifts the later elements one place to the left inside the shared
  backing array.
- It binds the shortened slice only to a local variable. The caller's slice
  keeps its length, and its last element appears twice.
- Stored positions are never renumbered.

So the slice never shrinks, and every stored position stays in range. That is
the invariant `Registry.Inv`, and `History.Run` proves it holds across any
history. But the listing can drift from the map. `History.ListingCanMissLiveKey`
and `Scheduling.ListAfterTwoCancels` show one case: add "a", "b", "c", "d",
cancel "a", then cancel "b". Key "c" is still registered, but no listed pair
carries it, and the cancelled "b" is listed first.

The dated operations accept an instant equal to "now", with duration zero,
because `Time.Before` is strict (scheduler.go:148). The model follows the
code here, where a "strictly in the future" reading would refuse it.

## Model

| member | source | states |
|---|---|---|
| `Detail.ShiftedOut` | detail_scheduler.go:16-19 | After `Remove(index)` the caller's slice has the same length. Positions before `index` are unchanged, positions `index..n-2` hold the old `index+1..n-1`, and position `n-1` still holds the old last element. |
| `Detail.ShiftedOutLastIsNoOp` | detail_scheduler.go:16-19 | `Remove` at the last index leaves the slice's contents identical. |
| `Detail.ShiftedOutElements` | detail_scheduler.go:17-18 | Every element after `Remove` was already in the slice. Removal drops or duplicates entries and never introduces one. |
| `Detail.DetailSchedulers.constructor` | scheduler.go:39-43 | A new scheduler's slice is empty (Go's nil slice). |
| `Detail.DetailSchedulers.Add` | detail_scheduler.go:21-23 | Appends the entry last. The length grows by exactly one and all earlier positions are unchanged. |
| `Detail.DetailSchedulers.Remove` | detail_scheduler.go:16-19 | Requires `index` below the length (otherwise the `index+1` bound is out of range). Leaves the slice equal to `ShiftedOut` of the old slice. |
| `Detail.DetailSchedulers.Replace` | detail_scheduler.go:25-28 | Writes the entry at `index` in place. The length and every other position are unchanged. |
| `Detail.DetailSchedulers.Total` | detail_scheduler.go:30-32 | Returns the current length and reads nothing else. |
| `TimeConversion.SubtractDateTime` | scheduler.go:142-155 | Fails with `DateTimeLessThanNow` exactly when the instant is before now. Otherwise returns `instant - now`, which is at least 0 (0 for equal instants), saturated at the largest int64 duration. |
| `TimeConversion.FromDurationToDateTime` | scheduler.go:157-159 | The instant is not before now exactly when the duration is not negative, and it lies within the int64 duration range of now. |
| `TimeConversion.DurationRoundTrip` | scheduler.go:142-159 | A non-negative duration turned into an instant and back is the same duration. |
| `TimeConversion.NegativeDurationIsPast` | scheduler.go:142-159 | A negative duration gives an instant that the dated operations refuse. |
| `TimeConversion.DateTimeRoundTrip` | scheduler.go:142-159 | An instant from now up to the largest duration ahead, turned into a duration and back, is the same instant. |
| `Listing.Snapshot` | scheduler.go:161-173 | Exactly one pair per slice element, in slice order, with that element's key and instant. |
| `Registry.Empty` | scheduler.go:39-43 | A new scheduler has no keys, no timers and an empty slice, and satisfies the invariant. |
| `Registry.Inv` | scheduler.go:16-18 | Under the invariant every live key has an armed timer, and its stored position is inside the slice, so `deleteSchedulerSlice` never removes out of range. |
| `Registry.AddParam` | scheduler.go:65-91 | `add` keeps the invariant. The slice grows by one for a new key and not at all for a present key. |
| `Registry.Delete` | scheduler.go:93-105 | Deleting a live key keeps the invariant, removes the key, and leaves the slice's length unchanged. |
| `Registry.Cancel` | scheduler.go:119-130 | After `cancel` the key is absent, the invariant holds, and the slice's length is unchanged. |
| `Registry.RescheduleParam` | scheduler.go:107-117 | `reschedule` keeps the invariant. |
| `Registry.ReplaceParam` | scheduler.go:132-140 | `replace` keeps the invariant and never shortens the slice. |
| `Registry.Add` | scheduler.go:175-180 | `Add` keeps the invariant. It fails exactly when the key is present, with `KeyIsExists`, and a failure leaves the state unchanged. |
| `Registry.AddDate` | scheduler.go:182-192 | `AddDate` keeps the invariant. An instant before now fails with `DateTimeLessThanNow` before the key is looked at; a present key then fails with `KeyIsExists`; both leave the state unchanged. Otherwise the entry records `dateTime`, is appended at the old length, and the timer is armed for `dateTime`, or for the largest duration after now when the gap does not fit (the timer then fires before the recorded instant). |
| `Registry.Reschedule` | scheduler.go:199-204 | `Reschedule` keeps the invariant. An absent key fails with `KeyIsNotExists` and changes nothing. A present key only gets its timer moved to `duration` after now; map and slice are unchanged. |
| `Registry.RescheduleDateTime` | scheduler.go:206-216 | `RescheduleDateTime` keeps the invariant. A past instant fails first, then an absent key; both leave the state unchanged. On success only the key's timer moves, to the instant or to the largest duration after now. |
| `Registry.Replace` | scheduler.go:218-224 | `Replace` keeps the invariant. An absent key fails with `KeyIsNotExists` and changes nothing. A present key's slice becomes `ShiftedOut` at its old position plus a new entry at the old length recording `duration` after now; only that key is rebound and only its timer is re-armed. |
| `Registry.ReplaceDateTime` | scheduler.go:226-237 | `ReplaceDateTime` keeps the invariant. A past instant fails first, then an absent key; both leave the state unchanged. Otherwise it acts as `Replace`, recording `dateTime` and arming the timer for it, or for the largest duration after now. |
| `Registry.AddPresentKey` | scheduler.go:66-70 | `add` on a present key returns `KeyIsExists` and changes neither map, slice nor timers. |
| `Registry.AddAbsentKey` | scheduler.go:75-88 | `add` on an absent key binds it to a new entry with `idx` equal to the old slice length and the given instant. The slice becomes the old slice plus that entry. Other keys are untouched and the key's timer is armed `duration` after now. |
| `Registry.CancelAbsentKey` | scheduler.go:119-124 | `cancel` on an absent key returns `KeyIsNotExists` and changes nothing. |
| `Registry.CancelPresentKey` | scheduler.go:119-130 | `cancel` on a present key succeeds. It removes only that key and its timer and applies `ShiftedOut` at the key's stored position, so the slice keeps its length. |
| `Registry.CancelTwice` | scheduler.go:119-130 | A second `cancel` of the same key returns `KeyIsNotExists`. |
| `Registry.RescheduleOnlyMovesTimer` | scheduler.go:107-117 | `reschedule` on an absent key returns `KeyIsNotExists` and changes nothing. On a present key, map and slice (and so the recorded instant) are unchanged and only the key's timer moves. |
| `Registry.ReplaceAbsentKey` | scheduler.go:132-136 | `replace` on an absent key returns `KeyIsNotExists` without attempting the add. |
| `Registry.ReplacePresentKey` | scheduler.go:132-140 | `replace` on a present key succeeds. The new slice is `ShiftedOut` of the old slice at the key's stored position (same length), followed by a new entry at the old length with the new instant. The map is the old map with only this key rebound to that entry, so every other key keeps its entry. Only the key's timer is re-armed. |
| `Registry.DatedOperationsCheckTimeFirst` | scheduler.go:182-237 | `AddDate`, `RescheduleDateTime` and `ReplaceDateTime` with an instant before now return `DateTimeLessThanNow` and leave the state unchanged, whether or not the key exists. |
| `Registry.AddRecordsDueInstant` | scheduler.go:175-180 | `Add` on an absent key records the instant `duration` after now and arms the timer for the same instant. |
| `Registry.AddDateRecordsDueInstant` | scheduler.go:182-192 | `AddDate` on an absent key, with an instant not before now and at most the largest duration after now, records that instant and arms the timer for it. |
| `Registry.RescheduleDateTimeKeepsRecordedInstant` | scheduler.go:206-216 | `RescheduleDateTime` on a present key, with an instant not before now and at most the largest duration after now, moves the timer to that instant, but the entry's recorded instant and the slice are not updated. |
| `History.Apply` | scheduler.go:65-140 | Every public operation, and every firing of a due timer, keeps the invariant and never shortens the slice. |
| `History.Run` | scheduler.go:75-105 | After any history, the invariant holds and the slice is at least as long as at the start. So every stored `idx` stays within the slice. |
| `History.ListingCanMissLiveKey` | detail_scheduler.go:16-19 | After adding "a", "b", "c", "d" and cancelling "a" then "b", key "c" is still registered with an armed timer, yet no listed pair has key "c". The cancelled "b" is listed first. |
| `Scheduling.Scheduler.constructor` | scheduler.go:33-47 | A new scheduler has an empty map, an empty slice and no timers, and satisfies the invariant. |
| `Scheduling.Scheduler.Read` | scheduler.go:57-63 | Reports whether the key is in the map, and returns its entry exactly when it is. |
| `Scheduling.Scheduler.AddParam` | scheduler.go:65-91 | Keeps the invariant and changes map, slice and timers as `Registry.AddParam`. |
| `Scheduling.Scheduler.DeleteScheduler` | scheduler.go:93-98 | Removes only the key from the map. |
| `Scheduling.Scheduler.DeleteSchedulerSlice` | scheduler.go:100-105 | Requires the entry's stored position inside the slice. Applies `ShiftedOut` at that position. |
| `Scheduling.Scheduler.RescheduleParam` | scheduler.go:107-117 | Keeps the invariant and changes state as `Registry.RescheduleParam`: only the key's timer moves. |
| `Scheduling.Scheduler.CancelKey` | scheduler.go:119-130 | Keeps the invariant and changes state as `Registry.Cancel`. |
| `Scheduling.Scheduler.ReplaceParam` | scheduler.go:132-140 | Keeps the invariant and changes state as `Registry.ReplaceParam`. |
| `Scheduling.Scheduler.Fire` | scheduler.go:77-82 | The fire handler for a live key whose timer is due. It deletes the key from the map and removes its stored position from the slice, as `Registry.Delete`, and keeps the invariant. |
| `Scheduling.Scheduler.ToResponseScheduler` | scheduler.go:161-173 | Returns exactly `Listing.Snapshot` of the slice: one pair per element, in order. |
| `Scheduling.Scheduler.Add` | scheduler.go:175-180 | Changes state as `Registry.Add`. |
| `Scheduling.Scheduler.AddDate` | scheduler.go:182-192 | Changes state as `Registry.AddDate`: the instant is checked before the key. |
| `Scheduling.Scheduler.Cancel` | scheduler.go:194-197 | Changes state as `Registry.Cancel`. |
| `Scheduling.Scheduler.Reschedule` | scheduler.go:199-204 | Changes state as `Registry.Reschedule`. |
| `Scheduling.Scheduler.RescheduleDateTime` | scheduler.go:206-216 | Changes state as `Registry.RescheduleDateTime`: the instant is checked before the key. |
| `Scheduling.Scheduler.Replace` | scheduler.go:218-224 | Changes state as `Registry.Replace`. |
| `Scheduling.Scheduler.ReplaceDateTime` | scheduler.go:226-237 | Changes state as `Registry.ReplaceDateTime`: the instant is checked before the key. |
| `Scheduling.ListAfterTwoCancels` | detail_scheduler.go:16-19 | On the class itself: after four adds and two cancels, key "c" is still registered, but none of the four listed pairs has key "c", and the cancelled "b" is listed first. |
| `JsonResponse.TransformToJsonData` | default_json.go:20-28 | One record per listed pair, in the same order, with that pair's key and instant. An empty listing gives no records. |

## Left out

- The `sync.RWMutex` and everything concurrent are not modelled. This covers the non-atomic check-then-lock in `add`, a timer firing while a cancel or reschedule runs, and a fire handler that reads a replaced or missing entry. Every operation here is one sequential step.
- `time.AfterFunc`, `Timer.Reset` and `Timer.Stop` are modelled only as the instant each key's timer fires (`timers`). The goroutine the timer runs on is not modelled.
- The user callback and its `context` are not modelled. `Fire` requires the key to be registered and its timer to be due. With the callback go callbacks that call back into the scheduler. Such a call can reach a replaced or missing entry even without concurrency. A callback that cancels its own key makes `read` return nil at scheduler.go:79, and that nil entry is then dereferenced at scheduler.go:104. A callback that replaces its own key has its new entry deleted at scheduler.go:79-81.
- `time.Now` is the parameter `now`. One reading serves a whole operation, including the instant the timer is armed from.
- `Config`, `loadTZ` and the UTC fallback are not modelled, because they depend on the operating system's time zone database. A zone changes only how an instant is shown, so `NewScheduler` takes no configuration here.
- Instants are unbounded integers of nanoseconds. Overflow of `Time.Add` is not modelled, because Go's instants span hundreds of billions of years. Durations are bounded to int64, and `Time.Sub` saturates as in Go.
- Entry positions are `nat`, because they only ever come from a slice length. Slice capacity and reallocation by `append` are not modelled, because the slice is a sequence.
- Go's nil and empty slices are both the empty sequence.
- `List` is I/O and is not modelled. It writes to an `io.Writer` and drops the converter's error.
- The JSON converter's `Convert` (`json.Marshal`) is library serialisation and is not modelled.
- The table converter in default_response.go is a wrapper over a rendering library and is not modelled.
- helper.go (`randomNumber`) and the `ListType` enum in constant.go have no behaviour to model.

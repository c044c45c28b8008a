/** The scheduler's state and its transitions as values (scheduler.go): the
    key map, the entry slice and the platform timers, and what `add`,
    `cancel`, `reschedule`, `replace`, the public operations built on them and
    the timer's fire handler do to them. The `Scheduler` class is proved to
    follow these functions step for step. */
module Registry {
  import opened Constants
  import opened Detail
  import opened TimeConversion

  /** `paramScheduler`: the duration a timer is armed with and the instant
      recorded in the entry. */
  datatype Param = Param(duration: Duration, dateTime: int)

  /** `schedulers`, `schedulersSlice`, and for every key whose timer is armed
      the instant at which it fires. */
  datatype State = State(
    schedulers: map<string, DetailScheduler>,
    slice: seq<DetailScheduler>,
    timers: map<string, int>)

  /** The state after an operation and the error it returned. */
  datatype Transition = Transition(next: State, outcome: Outcome)

  /** A fresh scheduler: an empty map, a nil slice, no timers. */
  function Empty(): (r: State)
    ensures Inv(r)
    ensures r.schedulers.Keys == {} && r.timers.Keys == {} && |r.slice| == 0
  {
    State(map[], [], map[])
  }

  /** What holds between operations. Every key maps to an entry carrying that
      key, and every stored position, in the map or in the slice, is inside the
      slice; an element never sits to the right of the position it was
      appended at. Each live key has exactly one armed timer. Nothing ties the
      slice's length to the number of keys: removal does not shorten it. */
  ghost predicate Inv(st: State)
    ensures Inv(st) ==> forall k :: k in st.schedulers ==> k in st.timers && st.schedulers[k].idx < |st.slice|
  {
    && st.timers.Keys == st.schedulers.Keys
    && (forall k :: k in st.schedulers ==> st.schedulers[k].key == k && st.schedulers[k].idx < |st.slice|)
    && (forall i :: 0 <= i < |st.slice| ==> i <= st.slice[i].idx < |st.slice|)
  }

  /** `add`: refuses a key already present; otherwise appends a new entry
      whose position is the slice's length, binds the key to it, and arms a
      timer for `param.duration` from `now`. */
  function AddParam(st: State, key: string, param: Param, now: int): (t: Transition)
    ensures Inv(st) ==> Inv(t.next)
    ensures |t.next.slice| == |st.slice| + if key in st.schedulers then 0 else 1
  {
    if key in st.schedulers then Transition(st, Fail(KeyIsExists))
    else
      var ds := DetailScheduler(key, |st.slice|, param.dateTime);
      Transition(State(st.schedulers[key := ds], st.slice + [ds], st.timers[key := now + param.duration]), Pass)
  }

  /** `deleteScheduler` followed by `deleteSchedulerSlice` on the key's entry,
      once its timer is stopped or has fired. */
  function Delete(st: State, key: string): (r: State)
    requires Inv(st) && key in st.schedulers
    ensures Inv(r) && key !in r.schedulers
    ensures |r.slice| == |st.slice|
  {
    State(st.schedulers - {key}, ShiftedOut(st.slice, st.schedulers[key].idx), st.timers - {key})
  }

  /** `cancel` (and `Cancel`, which forwards to it). */
  function Cancel(st: State, key: string): (t: Transition)
    requires Inv(st)
    ensures Inv(t.next) && key !in t.next.schedulers
    ensures |t.next.slice| == |st.slice|
  {
    if key !in st.schedulers then Transition(st, Fail(KeyIsNotExists))
    else Transition(Delete(st, key), Pass)
  }

  /** `reschedule`: resets the key's timer only; the entry keeps its instant. */
  function RescheduleParam(st: State, key: string, param: Param, now: int): (t: Transition)
    ensures Inv(st) ==> Inv(t.next)
  {
    if key !in st.schedulers then Transition(st, Fail(KeyIsNotExists))
    else Transition(st.(timers := st.timers[key := now + param.duration]), Pass)
  }

  /** `replace`: `cancel`, and `add` only if the cancel succeeded. */
  function ReplaceParam(st: State, key: string, param: Param, now: int): (t: Transition)
    requires Inv(st)
    ensures Inv(t.next)
    ensures |st.slice| <= |t.next.slice|
  {
    var c := Cancel(st, key);
    if c.outcome.Fail? then c else AddParam(c.next, key, param, now)
  }

  /** `Add`: the recorded instant is `duration` after `now`. Only a present
      key makes it fail, and a failure changes nothing. */
  function Add(st: State, key: string, duration: Duration, now: int): (t: Transition)
    ensures Inv(st) ==> Inv(t.next)
    ensures t.outcome.Fail? <==> key in st.schedulers
    ensures t.outcome.Fail? ==> t == Transition(st, Fail(KeyIsExists))
  {
    AddParam(st, key, Param(duration, FromDurationToDateTime(now, duration)), now)
  }

  /** `AddDate`: the instant is checked before the key. On success the entry
      records `dateTime`; the timer is armed for it, or for `MaxDuration`
      after `now` when the gap does not fit in a duration. */
  function AddDate(st: State, key: string, dateTime: int, now: int): (t: Transition)
    ensures Inv(st) ==> Inv(t.next)
    ensures dateTime < now ==> t == Transition(st, Fail(DateTimeLessThanNow))
    ensures now <= dateTime && key in st.schedulers ==> t == Transition(st, Fail(KeyIsExists))
    ensures now <= dateTime && key !in st.schedulers ==>
      && t.outcome == Pass
      && key in t.next.schedulers
      && t.next.schedulers[key] == DetailScheduler(key, |st.slice|, dateTime)
      && t.next.slice == st.slice + [t.next.schedulers[key]]
      && t.next.timers == st.timers[key := if dateTime - now <= MaxDuration then dateTime else now + MaxDuration]
  {
    match SubtractDateTime(now, dateTime)
    case Err(e) => Transition(st, Fail(e))
    case Ok(d) => AddParam(st, key, Param(d, dateTime), now)
  }

  /** `Reschedule`: on a present key only the timer moves, to `duration`
      after `now`; an absent key fails and changes nothing. */
  function Reschedule(st: State, key: string, duration: Duration, now: int): (t: Transition)
    ensures Inv(st) ==> Inv(t.next)
    ensures key !in st.schedulers ==> t == Transition(st, Fail(KeyIsNotExists))
    ensures key in st.schedulers ==>
      t == Transition(st.(timers := st.timers[key := now + duration]), Pass)
  {
    RescheduleParam(st, key, Param(duration, FromDurationToDateTime(now, duration)), now)
  }

  /** `RescheduleDateTime`: the instant is checked before the key; on success
      only the timer moves, to `dateTime` or, when the gap does not fit in a
      duration, to `MaxDuration` after `now`. */
  function RescheduleDateTime(st: State, key: string, dateTime: int, now: int): (t: Transition)
    ensures Inv(st) ==> Inv(t.next)
    ensures dateTime < now ==> t == Transition(st, Fail(DateTimeLessThanNow))
    ensures now <= dateTime && key !in st.schedulers ==> t == Transition(st, Fail(KeyIsNotExists))
    ensures now <= dateTime && key in st.schedulers ==>
      t == Transition(st.(timers := st.timers[key := if dateTime - now <= MaxDuration then dateTime else now + MaxDuration]), Pass)
  {
    match SubtractDateTime(now, dateTime)
    case Err(e) => Transition(st, Fail(e))
    case Ok(d) => RescheduleParam(st, key, Param(d, dateTime), now)
  }

  /** `Replace`: an absent key fails and changes nothing; a present key's
      entry is removed as written and a new one recording `duration` after
      `now` is appended, with its timer armed for that instant. */
  function Replace(st: State, key: string, duration: Duration, now: int): (t: Transition)
    requires Inv(st)
    ensures Inv(t.next)
    ensures key !in st.schedulers ==> t == Transition(st, Fail(KeyIsNotExists))
    ensures key in st.schedulers ==>
      var ds := DetailScheduler(key, |st.slice|, now + duration);
      && t.outcome == Pass
      && t.next.schedulers == st.schedulers[key := ds]
      && t.next.slice == ShiftedOut(st.slice, st.schedulers[key].idx) + [ds]
      && t.next.timers == st.timers[key := now + duration]
  {
    ReplaceParam(st, key, Param(duration, FromDurationToDateTime(now, duration)), now)
  }

  /** `ReplaceDateTime`: the instant is checked before the key; otherwise as
      `Replace`, recording `dateTime` and arming the timer for it, or for
      `MaxDuration` after `now` when the gap does not fit in a duration. */
  function ReplaceDateTime(st: State, key: string, dateTime: int, now: int): (t: Transition)
    requires Inv(st)
    ensures Inv(t.next)
    ensures dateTime < now ==> t == Transition(st, Fail(DateTimeLessThanNow))
    ensures now <= dateTime && key !in st.schedulers ==> t == Transition(st, Fail(KeyIsNotExists))
    ensures now <= dateTime && key in st.schedulers ==>
      var ds := DetailScheduler(key, |st.slice|, dateTime);
      && t.outcome == Pass
      && t.next.schedulers == st.schedulers[key := ds]
      && t.next.slice == ShiftedOut(st.slice, st.schedulers[key].idx) + [ds]
      && t.next.timers == st.timers[key := if dateTime - now <= MaxDuration then dateTime else now + MaxDuration]
  {
    match SubtractDateTime(now, dateTime)
    case Err(e) => Transition(st, Fail(e))
    case Ok(d) => ReplaceParam(st, key, Param(d, dateTime), now)
  }

  // ----- What each operation promises -----

  /** Adding a key that is present fails and changes nothing. */
  lemma AddPresentKey(st: State, key: string, param: Param, now: int)
    requires key in st.schedulers
    ensures AddParam(st, key, param, now) == Transition(st, Fail(KeyIsExists))
  {
  }

  /** Adding an absent key appends one entry at the old length, binds the key
      to it, leaves every other key and every earlier position alone, and arms
      the key's timer `param.duration` after `now`. */
  lemma AddAbsentKey(st: State, key: string, param: Param, now: int)
    requires key !in st.schedulers
    ensures var t := AddParam(st, key, param, now);
      && t.outcome == Pass
      && key in t.next.schedulers
      && t.next.schedulers[key] == DetailScheduler(key, |st.slice|, param.dateTime)
      && t.next.slice == st.slice + [t.next.schedulers[key]]
      && (forall k :: k in st.schedulers ==> k in t.next.schedulers && t.next.schedulers[k] == st.schedulers[k])
      && t.next.schedulers.Keys == st.schedulers.Keys + {key}
      && t.next.timers == st.timers[key := now + param.duration]
  {
  }

  /** Cancelling an absent key fails and changes nothing. */
  lemma CancelAbsentKey(st: State, key: string)
    requires Inv(st) && key !in st.schedulers
    ensures Cancel(st, key) == Transition(st, Fail(KeyIsNotExists))
  {
  }

  /** Cancelling a present key removes exactly that key and its timer and
      applies the as-written removal at the key's stored position, which does
      not shorten the slice. */
  lemma CancelPresentKey(st: State, key: string)
    requires Inv(st) && key in st.schedulers
    ensures var t := Cancel(st, key);
      && t.outcome == Pass
      && t.next.schedulers == st.schedulers - {key}
      && t.next.timers == st.timers - {key}
      && t.next.slice == ShiftedOut(st.slice, st.schedulers[key].idx)
      && |t.next.slice| == |st.slice|
  {
  }

  /** A second cancel of the same key fails. */
  lemma CancelTwice(st: State, key: string)
    requires Inv(st) && key in st.schedulers
    ensures Inv(Cancel(st, key).next)
    ensures Cancel(Cancel(st, key).next, key).outcome == Fail(KeyIsNotExists)
  {
  }

  /** Rescheduling an absent key fails and changes nothing; on a present key
      it moves only the key's timer: map, slice and the recorded instant stay. */
  lemma RescheduleOnlyMovesTimer(st: State, key: string, param: Param, now: int)
    ensures var t := RescheduleParam(st, key, param, now);
      && (key !in st.schedulers ==> t == Transition(st, Fail(KeyIsNotExists)))
      && (key in st.schedulers ==>
            && t.outcome == Pass
            && t.next.schedulers == st.schedulers
            && t.next.slice == st.slice
            && t.next.timers == st.timers[key := now + param.duration])
  {
  }

  /** Replacing an absent key fails without attempting the add. */
  lemma ReplaceAbsentKey(st: State, key: string, param: Param, now: int)
    requires Inv(st) && key !in st.schedulers
    ensures ReplaceParam(st, key, param, now) == Transition(st, Fail(KeyIsNotExists))
  {
  }

  /** Replacing a present key succeeds: the old entry is removed as written
      (the slice keeps its length), a new entry with the new instant is
      appended at the old length, the key alone is rebound to it, every other
      key keeps its entry, and only the key's timer is armed anew. */
  lemma ReplacePresentKey(st: State, key: string, param: Param, now: int)
    requires Inv(st) && key in st.schedulers
    ensures var t := ReplaceParam(st, key, param, now);
      var ds := DetailScheduler(key, |st.slice|, param.dateTime);
      && t.outcome == Pass
      && t.next.slice == ShiftedOut(st.slice, st.schedulers[key].idx) + [ds]
      && t.next.schedulers == st.schedulers[key := ds]
      && (forall k :: k in st.schedulers && k != key ==> t.next.schedulers[k] == st.schedulers[k])
      && t.next.timers == st.timers[key := now + param.duration]
  {
  }

  /** The dated operations check the instant before anything else: an instant
      in the past fails and leaves the state alone, whether or not the key is
      present. */
  lemma DatedOperationsCheckTimeFirst(st: State, key: string, dateTime: int, now: int)
    requires Inv(st) && dateTime < now
    ensures AddDate(st, key, dateTime, now) == Transition(st, Fail(DateTimeLessThanNow))
    ensures RescheduleDateTime(st, key, dateTime, now) == Transition(st, Fail(DateTimeLessThanNow))
    ensures ReplaceDateTime(st, key, dateTime, now) == Transition(st, Fail(DateTimeLessThanNow))
  {
  }

  /** `Add` of an absent key records the instant `duration` after `now`, the
      same instant its timer is armed for. */
  lemma AddRecordsDueInstant(st: State, key: string, duration: Duration, now: int)
    requires key !in st.schedulers
    ensures var t := Add(st, key, duration, now);
      && t.outcome == Pass
      && t.next.schedulers[key].dateTime == now + duration
      && t.next.timers[key] == now + duration
  {
  }

  /** `AddDate` of an absent key with an instant not before `now` (and within
      a duration of it) records that instant and arms the timer for it. */
  lemma AddDateRecordsDueInstant(st: State, key: string, dateTime: int, now: int)
    requires key !in st.schedulers && now <= dateTime <= now + MaxDuration
    ensures var t := AddDate(st, key, dateTime, now);
      && t.outcome == Pass
      && t.next.schedulers[key].dateTime == dateTime
      && t.next.timers[key] == dateTime
  {
  }

  /** `RescheduleDateTime` on a present key moves the timer to the new
      instant but the recorded instant, and so the listing, is not updated. */
  lemma RescheduleDateTimeKeepsRecordedInstant(st: State, key: string, dateTime: int, now: int)
    requires key in st.schedulers && now <= dateTime <= now + MaxDuration
    ensures var t := RescheduleDateTime(st, key, dateTime, now);
      && t.outcome == Pass
      && t.next.timers[key] == dateTime
      && t.next.schedulers[key].dateTime == st.schedulers[key].dateTime
      && t.next.slice == st.slice
  {
  }
}

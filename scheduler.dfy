/** The `Scheduler` of scheduler.go: a key map and an entry slice updated in
    place, plus the platform timers, reduced to the instant each armed timer
    fires. Every transition method is proved to take the state `Model()`
    exactly as the matching function of module Registry does, so the lemmas
    proved there hold of the class; `Read`, `DeleteScheduler`,
    `DeleteSchedulerSlice` and `ToResponseScheduler` state their effect
    directly. The wall clock is the parameter `now`; the mutex, the user
    callback and the goroutine a timer fires on are not modelled: `Fire` is the
    timer's handler run as one sequential step. */
module Scheduling {
  import opened Constants
  import opened Detail
  import opened TimeConversion
  import opened Listing
  import R = Registry
  import History

  class Scheduler {
    var schedulers: map<string, DetailScheduler>
    const schedulersSlice: DetailSchedulers
    /** For every key whose timer is armed, the instant it fires. */
    var timers: map<string, int>

    /** The scheduler's state as a value. */
    ghost function Model(): R.State
      reads this, schedulersSlice
    {
      R.State(schedulers, schedulersSlice.items, timers)
    }

    ghost predicate Valid()
      reads this, schedulersSlice
    {
      R.Inv(Model())
    }

    /** `NewScheduler`: an empty map and a nil slice. */
    constructor ()
      ensures Valid() && fresh(schedulersSlice)
      ensures Model() == R.Empty()
    {
      schedulers := map[];
      schedulersSlice := new DetailSchedulers();
      timers := map[];
    }

    /** `read`: whether `key` is registered, and its entry if so. */
    method Read(key: string) returns (isExists: bool, ds: Option<DetailScheduler>)
      ensures isExists <==> key in schedulers
      ensures isExists ==> ds == Some(schedulers[key])
      ensures !isExists ==> ds == None
    {
      isExists := key in schedulers;
      ds := if isExists then Some(schedulers[key]) else None;
    }

    /** `add`: a present key is refused; otherwise a new entry is appended at
        position `Total()`, the key bound to it, and its timer armed. */
    method AddParam(key: string, param: R.Param, now: int) returns (err: Outcome)
      requires Valid()
      modifies this, schedulersSlice
      ensures Valid()
      ensures Model() == R.AddParam(old(Model()), key, param, now).next
      ensures err == R.AddParam(old(Model()), key, param, now).outcome
    {
      var isExists, _ := Read(key);
      if isExists {
        err := Fail(KeyIsExists);
        return;
      }
      var ds := DetailScheduler(key, schedulersSlice.Total(), param.dateTime);
      timers := timers[key := now + param.duration];  // time.AfterFunc
      schedulersSlice.Add(ds);
      schedulers := schedulers[key := ds];
      err := Pass;
    }

    /** `deleteScheduler`: drops `key` from the map only. */
    method DeleteScheduler(key: string)
      modifies this
      ensures schedulers == old(schedulers) - {key}
      ensures timers == old(timers)
    {
      schedulers := schedulers - {key};
    }

    /** `deleteSchedulerSlice`: `Remove` at the entry's stored position. */
    method DeleteSchedulerSlice(ds: DetailScheduler)
      requires ds.idx < |schedulersSlice.items|
      modifies schedulersSlice
      ensures schedulersSlice.items == ShiftedOut(old(schedulersSlice.items), ds.idx)
    {
      schedulersSlice.Remove(ds.idx);
    }

    /** `reschedule`: an absent key is refused; otherwise only the key's timer
        is reset to fire `param.duration` after `now`. */
    method RescheduleParam(key: string, param: R.Param, now: int) returns (err: Outcome)
      requires Valid()
      modifies this
      ensures Valid()
      ensures Model() == R.RescheduleParam(old(Model()), key, param, now).next
      ensures err == R.RescheduleParam(old(Model()), key, param, now).outcome
    {
      var isExists, _ := Read(key);
      if !isExists {
        err := Fail(KeyIsNotExists);
        return;
      }
      timers := timers[key := now + param.duration];  // ds.timer.Reset
      err := Pass;
    }

    /** `cancel`: an absent key is refused; otherwise its timer is stopped and
        the key deleted from the map and, by stored position, from the slice. */
    method CancelKey(key: string) returns (err: Outcome)
      requires Valid()
      modifies this, schedulersSlice
      ensures Valid()
      ensures Model() == R.Cancel(old(Model()), key).next
      ensures err == R.Cancel(old(Model()), key).outcome
    {
      var isExists, ds := Read(key);
      if !isExists {
        err := Fail(KeyIsNotExists);
        return;
      }
      timers := timers - {key};  // ds.timer.Stop
      DeleteScheduler(key);
      DeleteSchedulerSlice(ds.value);
      err := Pass;
    }

    /** `replace`: `cancel`, then `add` if the cancel succeeded. */
    method ReplaceParam(key: string, param: R.Param, now: int) returns (err: Outcome)
      requires Valid()
      modifies this, schedulersSlice
      ensures Valid()
      ensures Model() == R.ReplaceParam(old(Model()), key, param, now).next
      ensures err == R.ReplaceParam(old(Model()), key, param, now).outcome
    {
      err := CancelKey(key);
      if err.Fail? {
        return;
      }
      err := AddParam(key, param, now);
    }

    /** The handler a timer runs when it fires: after the user callback (not
        modelled) it reads the key's current entry and deletes it from the map
        and from the slice. Only a registered key has a timer, and it fires
        no earlier than its instant. */
    method Fire(key: string, now: int)
      requires Valid() && key in schedulers && timers[key] <= now
      modifies this, schedulersSlice
      ensures Valid()
      ensures Model() == R.Delete(old(Model()), key)
    {
      timers := timers - {key};  // a one-shot timer is spent once it fires
      var _, ds := Read(key);
      DeleteScheduler(key);
      DeleteSchedulerSlice(ds.value);
    }

    /** `toResponseScheduler`: one (key, instant) pair per slice element, in
        slice order. */
    method ToResponseScheduler() returns (res: seq<ResponseScheduler>)
      ensures res == Snapshot(schedulersSlice.items)
    {
      res := [];
      var i := 0;
      while i < |schedulersSlice.items|
        invariant 0 <= i <= |schedulersSlice.items|
        invariant |res| == i
        invariant forall j :: 0 <= j < i ==>
                    res[j] == ResponseScheduler(schedulersSlice.items[j].key, schedulersSlice.items[j].dateTime)
      {
        res := res + [ResponseScheduler(schedulersSlice.items[i].key, schedulersSlice.items[i].dateTime)];
        i := i + 1;
      }
    }

    /** `Add`: the recorded instant is `duration` after `now`. */
    method Add(key: string, duration: Duration, now: int) returns (err: Outcome)
      requires Valid()
      modifies this, schedulersSlice
      ensures Valid()
      ensures Model() == R.Add(old(Model()), key, duration, now).next
      ensures err == R.Add(old(Model()), key, duration, now).outcome
    {
      err := AddParam(key, R.Param(duration, FromDurationToDateTime(now, duration)), now);
    }

    /** `AddDate`: an instant before `now` is refused before the key is
        looked at. */
    method AddDate(key: string, dateTime: int, now: int) returns (err: Outcome)
      requires Valid()
      modifies this, schedulersSlice
      ensures Valid()
      ensures Model() == R.AddDate(old(Model()), key, dateTime, now).next
      ensures err == R.AddDate(old(Model()), key, dateTime, now).outcome
    {
      var duration := SubtractDateTime(now, dateTime);
      if duration.Err? {
        err := Fail(duration.error);
        return;
      }
      err := AddParam(key, R.Param(duration.value, dateTime), now);
    }

    /** `Cancel`. */
    method Cancel(key: string) returns (err: Outcome)
      requires Valid()
      modifies this, schedulersSlice
      ensures Valid()
      ensures Model() == R.Cancel(old(Model()), key).next
      ensures err == R.Cancel(old(Model()), key).outcome
    {
      err := CancelKey(key);
    }

    /** `Reschedule`. */
    method Reschedule(key: string, duration: Duration, now: int) returns (err: Outcome)
      requires Valid()
      modifies this
      ensures Valid()
      ensures Model() == R.Reschedule(old(Model()), key, duration, now).next
      ensures err == R.Reschedule(old(Model()), key, duration, now).outcome
    {
      err := RescheduleParam(key, R.Param(duration, FromDurationToDateTime(now, duration)), now);
    }

    /** `RescheduleDateTime`: an instant before `now` is refused before the key
        is looked at. */
    method RescheduleDateTime(key: string, dateTime: int, now: int) returns (err: Outcome)
      requires Valid()
      modifies this
      ensures Valid()
      ensures Model() == R.RescheduleDateTime(old(Model()), key, dateTime, now).next
      ensures err == R.RescheduleDateTime(old(Model()), key, dateTime, now).outcome
    {
      var duration := SubtractDateTime(now, dateTime);
      if duration.Err? {
        err := Fail(duration.error);
        return;
      }
      err := RescheduleParam(key, R.Param(duration.value, dateTime), now);
    }

    /** `Replace`. */
    method Replace(key: string, duration: Duration, now: int) returns (err: Outcome)
      requires Valid()
      modifies this, schedulersSlice
      ensures Valid()
      ensures Model() == R.Replace(old(Model()), key, duration, now).next
      ensures err == R.Replace(old(Model()), key, duration, now).outcome
    {
      err := ReplaceParam(key, R.Param(duration, FromDurationToDateTime(now, duration)), now);
    }

    /** `ReplaceDateTime`: an instant before `now` is refused before the key
        is looked at. */
    method ReplaceDateTime(key: string, dateTime: int, now: int) returns (err: Outcome)
      requires Valid()
      modifies this, schedulersSlice
      ensures Valid()
      ensures Model() == R.ReplaceDateTime(old(Model()), key, dateTime, now).next
      ensures err == R.ReplaceDateTime(old(Model()), key, dateTime, now).outcome
    {
      var duration := SubtractDateTime(now, dateTime);
      if duration.Err? {
        err := Fail(duration.error);
        return;
      }
      err := ReplaceParam(key, R.Param(duration.value, dateTime), now);
    }
  }

  /** Registers "a", "b", "c" and "d", in that order, on a new scheduler. */
  method RegisterFour() returns (s: Scheduler)
    ensures fresh(s) && fresh(s.schedulersSlice) && s.Valid()
    ensures s.Model() == History.AfterAdds()
  {
    s := new Scheduler();
    var err := s.Add("a", 1, 0);
    History.AddStepOne();
    err := s.Add("b", 1, 0);
    History.AddStepTwo();
    err := s.Add("c", 1, 0);
    History.AddStepThree();
    err := s.Add("d", 1, 0);
    History.AddStepFour();
  }

  /** A client of the class: register "a", "b", "c" and "d", cancel "a" and
      then "b", and list. Key "c" is still registered, yet the removal by
      stale position has overwritten its only slice element, so no listed pair
      carries it; the cancelled "b" is listed first. */
  method ListAfterTwoCancels() returns (live: bool, listed: seq<ResponseScheduler>)
    ensures live
    ensures forall i :: 0 <= i < |listed| ==> listed[i].key != "c"
    ensures |listed| == 4 && listed[0].key == "b"
  {
    var s := RegisterFour();
    var err := s.Cancel("a");
    History.CancelFirst();
    err := s.Cancel("b");
    History.CancelSecond();
    var isExists, _ := s.Read("c");
    live := isExists;
    listed := s.ToResponseScheduler();
    History.ScenarioListingOmitsC(s.schedulersSlice.items);
  }
}

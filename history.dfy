/** Any sequence of public operations and timer firings, applied one after
    another to the registry of scheduler.go, keeps the invariant; the slice
    only grows, so every stored position stays inside it. */
module History {
  import opened Detail
  import opened TimeConversion
  import opened Listing
  import R = Registry

  /** One call of a public operation, or one timer firing; each carries the
      clock reading it ran at. */
  datatype Op =
    | Add(key: string, duration: Duration, now: int)
    | AddDate(key: string, dateTime: int, now: int)
    | Cancel(key: string)
    | Reschedule(key: string, duration: Duration, now: int)
    | RescheduleDateTime(key: string, dateTime: int, now: int)
    | Replace(key: string, duration: Duration, now: int)
    | ReplaceDateTime(key: string, dateTime: int, now: int)
    | Fire(key: string, now: int)

  /** The state after `op`. A firing happens only for a key whose timer is
      armed and due at `now`; for any other key there is no timer to fire and
      the event is void. */
  function Apply(st: R.State, op: Op): (r: R.State)
    requires R.Inv(st)
    ensures R.Inv(r)
    ensures |st.slice| <= |r.slice|
  {
    match op
    case Add(k, d, n) => R.Add(st, k, d, n).next
    case AddDate(k, t, n) => R.AddDate(st, k, t, n).next
    case Cancel(k) => R.Cancel(st, k).next
    case Reschedule(k, d, n) => R.Reschedule(st, k, d, n).next
    case RescheduleDateTime(k, t, n) => R.RescheduleDateTime(st, k, t, n).next
    case Replace(k, d, n) => R.Replace(st, k, d, n).next
    case ReplaceDateTime(k, t, n) => R.ReplaceDateTime(st, k, t, n).next
    case Fire(k, n) => if k in st.schedulers && st.timers[k] <= n then R.Delete(st, k) else st
  }

  /** The state after a whole history: it satisfies the invariant, and its
      slice is at least as long as the one it started from. */
  function Run(st: R.State, ops: seq<Op>): (r: R.State)
    requires R.Inv(st)
    ensures R.Inv(r)
    ensures |st.slice| <= |r.slice|
    decreases |ops|
  {
    if ops == [] then st
    else
      Run(Apply(st, ops[0]), ops[1..])
  }

  /** Running two histories one after the other is running their
      concatenation. */
  lemma {:induction false} RunAppend(st: R.State, xs: seq<Op>, ys: seq<Op>)
    requires R.Inv(st)
    ensures Run(st, xs + ys) == Run(Run(st, xs), ys)
    decreases |xs|
  {
    if xs == [] {
      assert xs + ys == ys;
    } else {
      assert (xs + ys)[0] == xs[0] && (xs + ys)[1..] == xs[1..] + ys;
      RunAppend(Apply(st, xs[0]), xs[1..], ys);
    }
  }

  /** The four adds of the scenario below: entry `i` is appended at
      position `i` and due at instant 1. */
  function ScenarioAdds(): seq<Op>
  {
    [Add("a", 1, 0), Add("b", 1, 0), Add("c", 1, 0), Add("d", 1, 0)]
  }

  /** The state the four adds reach. */
  function AfterAdds(): R.State
  {
    R.State(map["a" := DetailScheduler("a", 0, 1), "b" := DetailScheduler("b", 1, 1),
                "c" := DetailScheduler("c", 2, 1), "d" := DetailScheduler("d", 3, 1)],
            [DetailScheduler("a", 0, 1), DetailScheduler("b", 1, 1),
             DetailScheduler("c", 2, 1), DetailScheduler("d", 3, 1)],
            map["a" := 1, "b" := 1, "c" := 1, "d" := 1])
  }

  /** The state the first add reaches. */
  function AfterOneAdd(): R.State
  {
    R.State(map["a" := DetailScheduler("a", 0, 1)], [DetailScheduler("a", 0, 1)], map["a" := 1])
  }

  /** The state the first two adds reach. */
  function AfterTwoAdds(): R.State
  {
    R.State(map["a" := DetailScheduler("a", 0, 1), "b" := DetailScheduler("b", 1, 1)],
            [DetailScheduler("a", 0, 1), DetailScheduler("b", 1, 1)],
            map["a" := 1, "b" := 1])
  }

  /** The state the first three adds reach. */
  function AfterThreeAdds(): R.State
  {
    R.State(map["a" := DetailScheduler("a", 0, 1), "b" := DetailScheduler("b", 1, 1),
                "c" := DetailScheduler("c", 2, 1)],
            [DetailScheduler("a", 0, 1), DetailScheduler("b", 1, 1), DetailScheduler("c", 2, 1)],
            map["a" := 1, "b" := 1, "c" := 1])
  }

  lemma AddStepOne()
    ensures Apply(R.Empty(), Add("a", 1, 0)) == AfterOneAdd()
  {
  }

  lemma AddStepTwo()
    ensures Apply(AfterOneAdd(), Add("b", 1, 0)) == AfterTwoAdds()
  {
  }

  lemma AddStepThree()
    ensures Apply(AfterTwoAdds(), Add("c", 1, 0)) == AfterThreeAdds()
  {
  }

  lemma AddStepFour()
    ensures Apply(AfterThreeAdds(), Add("d", 1, 0)) == AfterAdds()
  {
  }

  lemma RunFirstTwoAdds()
    ensures Run(R.Empty(), ScenarioAdds()[..2]) == AfterTwoAdds()
  {
    AddStepOne();
    AddStepTwo();
    assert ScenarioAdds()[..2][1..] == [Add("b", 1, 0)];
  }

  lemma RunLastTwoAdds()
    ensures Run(AfterTwoAdds(), ScenarioAdds()[2..]) == AfterAdds()
  {
    AddStepThree();
    AddStepFour();
    assert ScenarioAdds()[2..][1..] == [Add("d", 1, 0)];
  }

  lemma RunScenarioAdds()
    ensures Run(R.Empty(), ScenarioAdds()) == AfterAdds()
  {
    RunFirstTwoAdds();
    RunLastTwoAdds();
    RunAppend(R.Empty(), ScenarioAdds()[..2], ScenarioAdds()[2..]);
    assert ScenarioAdds()[..2] + ScenarioAdds()[2..] == ScenarioAdds();
  }

  /** The state after cancelling "a": its position 0 is shifted out. */
  function AfterCancelA(): R.State
  {
    R.State(map["b" := DetailScheduler("b", 1, 1), "c" := DetailScheduler("c", 2, 1), "d" := DetailScheduler("d", 3, 1)],
            [DetailScheduler("b", 1, 1), DetailScheduler("c", 2, 1),
             DetailScheduler("d", 3, 1), DetailScheduler("d", 3, 1)],
            map["b" := 1, "c" := 1, "d" := 1])
  }

  lemma CancelFirst()
    ensures Apply(AfterAdds(), Cancel("a")) == AfterCancelA()
  {
  }

  /** The state after then cancelling "b": its stale position 1 is shifted
      out, which overwrites the only element of the live key "c". */
  function AfterTwoCancels(): R.State
  {
    R.State(map["c" := DetailScheduler("c", 2, 1), "d" := DetailScheduler("d", 3, 1)],
            [DetailScheduler("b", 1, 1), DetailScheduler("d", 3, 1),
             DetailScheduler("d", 3, 1), DetailScheduler("d", 3, 1)],
            map["c" := 1, "d" := 1])
  }

  lemma CancelSecond()
    ensures Apply(AfterCancelA(), Cancel("b")) == AfterTwoCancels()
  {
  }

  lemma RunScenarioCancels()
    ensures var st := Run(AfterAdds(), [Cancel("a"), Cancel("b")]);
      && st.schedulers == map["c" := DetailScheduler("c", 2, 1), "d" := DetailScheduler("d", 3, 1)]
      && st.timers == map["c" := 1, "d" := 1]
      && st.slice == [DetailScheduler("b", 1, 1), DetailScheduler("d", 3, 1),
                      DetailScheduler("d", 3, 1), DetailScheduler("d", 3, 1)]
  {
    CancelFirst();
    CancelSecond();
    assert [Cancel("a"), Cancel("b")][1..] == [Cancel("b")];
  }

  /** No pair listed for the scenario's final slice carries key "c". */
  lemma ScenarioListingOmitsC(s: seq<DetailScheduler>)
    requires s == [DetailScheduler("b", 1, 1), DetailScheduler("d", 3, 1),
                   DetailScheduler("d", 3, 1), DetailScheduler("d", 3, 1)]
    ensures forall i :: 0 <= i < |Snapshot(s)| ==> Snapshot(s)[i].key != "c"
    ensures Snapshot(s)[0].key == "b"
  {
  }

  /** Removal by stale position loses a live entry from the listing: after
      adding "a", "b", "c", "d" and cancelling "a" then "b", key "c" is still
      registered (its timer armed) but no listed pair carries it, while the
      cancelled "b" is listed first. */
  lemma ListingCanMissLiveKey()
    ensures var st := Run(R.Empty(), ScenarioAdds() + [Cancel("a"), Cancel("b")]);
      && "c" in st.schedulers && "c" in st.timers && "b" !in st.schedulers
      && (forall i :: 0 <= i < |Snapshot(st.slice)| ==> Snapshot(st.slice)[i].key != "c")
      && Snapshot(st.slice)[0].key == "b"
  {
    var cancels := [Cancel("a"), Cancel("b")];
    RunScenarioAdds();
    RunAppend(R.Empty(), ScenarioAdds(), cancels);
    RunScenarioCancels();
    ScenarioListingOmitsC(Run(AfterAdds(), cancels).slice);
  }
}

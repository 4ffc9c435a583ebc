/**
 Runs of the throttle, one for every key, in which a call starts before the right end of its slot, in which
 one slot starts two calls, and in which two calls of a key start in the wrong order.
 */
module ThrottleRuns {
  import opened Text
  import opened Throttle
  import opened ThrottleFates
  import opened ThrottleStarts
  import opened ThrottleTiming

  ghost predicate StartsEarly(s: State)
  {
    exists k :: 0 <= k < |s.launched| && s.launched[k].call.index < |s.accepted|
                && s.launched[k].call.how == StaleTimer && !StartsOnTime(s, s.launched[k])
  }

  ghost predicate SlotStartsTwice(s: State)
  {
    exists k, l :: 0 <= k < l < |s.launched| && s.launched[k].call.index < |s.accepted| && s.launched[l].call.index < |s.accepted|
                   && SameSlot(s, s.launched[k].call.index, s.launched[l].call.index)
  }

  // ---------------------------------------------------------------- one call, uninterrupted

  /** The steps of the call with index c, for a key with period 10. */
  function CallSteps(k: string, c: nat): seq<Step> { [Invoke(k, 10, false), SetIfAbsent(c), Get(c), Locked(c)] }

  /** The state in which that call has the lock of entry 0, which it leaves with its call pending there. */
  function AtEntry(s: State, k: string): State
  {
    s.(calls := s.calls + [Call(k, 10)], callers := map[|s.calls| := AtLock(0, 0)])
  }

  /** One entry in the map, and no call running. */
  predicate Resting(s: State, k: string)
  {
    && s.registry == map[k := 0] && |s.entries| == 1 && s.callers == map[]
    && s.entries[0].key == k && s.entries[0].epoch == Some(0) && s.entries[0].period == 10
  }

  lemma RunsOn(start: int, steps: seq<Step>, a: Step, b: Step, c: Step, d: Step)
    ensures Run(start, steps + [a, b, c, d]) == Do(Do(Do(Do(Run(start, steps), a), b), c), d)
  {
    hide Do, Run;
    RunThen(start, steps, a);
    RunThen(start, steps + [a], b);
    RunThen(start, steps + [a] + [b], c);
    RunThen(start, steps + [a] + [b] + [c], d);
    assert steps + [a, b, c, d] == steps + [a] + [b] + [c] + [d];
  }

  lemma CallReachesEntry(s: State, k: string)
    requires WellFormed(s) && k != "" && Resting(s, k)
    ensures WellFormed(AtEntry(s, k)) && DoGet(DoSetIfAbsent(DoInvoke(s, k, 10, false), |s.calls|), |s.calls|) == AtEntry(s, k)
  {
    var c := |s.calls|;
    var s1, s2 := DoInvoke(s, k, 10, false), DoSetIfAbsent(DoInvoke(s, k, 10, false), c);
    hide WellFormed, DoInvoke;
    assert s1 == s.(calls := s.calls + [Call(k, 10)], callers := map[c := AtMap(0)]) by { Invoked(s, k); }
    assert s2 == s1.(callers := map[c := AtGet(0)]);
    assert DoGet(s2, c) == AtEntry(s, k);
  }

  lemma Invoked(s: State, k: string)
    requires WellFormed(s) && k != "" && s.callers == map[]
    ensures DoInvoke(s, k, 10, false) == s.(calls := s.calls + [Call(k, 10)], callers := map[|s.calls| := AtMap(0)])
  {
  }

  /** A call on a resting grid reaches its entry's lock, and there is put into the slot of the clock. */
  lemma CallRuns(start: int, steps: seq<Step>, k: string)
    requires k != "" && Resting(Run(start, steps), k)
    ensures var s := Run(start, steps);
            && WellFormed(AtEntry(s, k))
            && Run(start, steps + CallSteps(k, |s.calls|)) == Accept(AtEntry(s, k), |s.calls|, 0, 10)
  {
    hide Run, Accept, WellFormed, DoInvoke, DoSetIfAbsent, DoGet;
    var s := Run(start, steps);
    var c := |s.calls|;
    RunsOn(start, steps, Invoke(k, 10, false), SetIfAbsent(c), Get(c), Locked(c));
    CallReachesEntry(s, k);
  }

  lemma GridOf(s: State)
    requires WellFormed(s) && |s.entries| > 0 && s.entries[0].epoch == Some(0) && s.entries[0].period == 10 && s.now >= 0
    ensures OnGrid(s, 0, 10) == s && SlotOf(s, 0, 10) == s.now / 10
  {
  }

  lemma AcceptStays(s: State, c: nat)
    requires WellFormed(s) && |s.entries| > 0 && s.entries[0].epoch == Some(0) && s.entries[0].period == 10 && s.now >= 0
    requires s.entries[0].pending.None? || s.now / 10 <= s.entries[0].slot
    ensures Accept(s, c, 0, 10) == Placed(s, c, 0, s.now / 10)
  {
    hide WellFormed, OnGrid, SlotOf, Place, Placed;
    GridOf(s);
    PlaceIsPlaced(s, c, 0, s.now / 10);
  }

  lemma AcceptLeaves(s: State, c: nat)
    requires WellFormed(s) && Holds(s, 0) && s.entries[0].epoch == Some(0) && s.entries[0].period == 10 && s.now >= 0
    requires s.now / 10 > s.entries[0].slot
    ensures
      var l := Begin(TakenOff(s, 0, LaterSlot), Taken(s.entries[0].pending.value, s.now, LaterSlot));
      && WellFormed(l) && l.entries[0].epoch.Some? && |l.entries| == |s.entries|
      && Accept(s, c, 0, 10) == Placed(l, c, 0, s.now / 10)
  {
    hide WellFormed, OnGrid, SlotOf, Place, Placed, Flush, StopTimer;
    GridOf(s);
    FlushTakesOff(s, 0, LaterSlot);
    PlaceIsPlaced(LeaveSlot(s, 0, s.now / 10), c, 0, s.now / 10);
  }

  // ---------------------------------------------------------------- the first call of a key

  /** The states of both runs up to the moment at which the first call's timer has expired. */
  function First(k: string, now: int, phase: Phase): State
  {
    State(now, map[k := 0], [Entry(k, Some(0), 10, 0, Some(0), Some(0))], [Timer(0, 10, phase)], [Call(k, 10)], map[], [],
          [Accepted(0, 0, 0, 0, 10)], [], [], map[], [])
  }

  lemma FirstCall(k: string)
    requires k != ""
    ensures Run(0, CallSteps(k, 0)) == First(k, 0, Armed)
  {
    hide Accept, WellFormed;
    RunsOn(0, [], Invoke(k, 10, false), SetIfAbsent(0), Get(0), Locked(0));
    assert [] + CallSteps(k, 0) == CallSteps(k, 0);
    FirstAtEntry(k);
    FirstAccepted(k);
  }

  function FirstEntry(k: string): State
  {
    State(0, map[k := 0], [Entry(k, None, 0, -1, None, None)], [], [Call(k, 10)], map[0 := AtLock(0, 0)], [], [], [], [], map[], [])
  }

  lemma FirstAtEntry(k: string)
    requires k != ""
    ensures WellFormed(FirstEntry(k)) && DoGet(DoSetIfAbsent(DoInvoke(Start(0), k, 10, false), 0), 0) == FirstEntry(k)
  {
    Invoked(Start(0), k);
  }

  lemma FirstAccepted(k: string)
    requires WellFormed(FirstEntry(k))
    ensures Accept(FirstEntry(k), 0, 0, 10) == First(k, 0, Armed)
  {
    hide WellFormed, Place;
    var g := OnGrid(FirstEntry(k), 0, 10);
    GridOf(g);
    PlaceIsPlaced(g, 0, 0, 0);
  }

  lemma FirstExpired(k: string) returns (steps: seq<Step>)
    requires k != ""
    ensures Run(0, steps) == First(k, 10, InFlight)
  {
    hide Run;
    FirstCall(k);
    RunThen(0, CallSteps(k, 0), Tick(10));
    RunThen(0, CallSteps(k, 0) + [Tick(10)], Expire(0));
    steps := CallSteps(k, 0) + [Tick(10)] + [Expire(0)];
  }

  // ---------------------------------------------------------------- an early start, and a second one for its slot

  /**
   As the timer of the first call has expired but its callback has not yet had the lock, a second call in
   the next slot starts the first one and is pending; the callback takes it and starts it, ten too early.
   */
  function Early(k: string, n: nat): State
  {
    var c, a, b := Call(k, 10), Accepted(0, 0, 0, 0, 10), Accepted(1, 0, 1, 10, 20);
    var t0, t1 := Taken(0, 10, LaterSlot), Taken(1, 10, StaleTimer);
    var idle := Entry(k, Some(0), 10, -1, None, None);
    if n == 0 then
      State(10, map[k := 0], [Entry(k, Some(0), 10, 1, Some(1), Some(1))], [Timer(0, 10, InFlight), Timer(0, 20, Armed)], [c, c], map[], [],
            [a, b], [], [t0], map[], [Launch(t0, 10)])
    else if n == 1 then
      State(10, map[k := 0], [idle], [Timer(0, 10, Done), Timer(0, 20, Stopped)], [c, c], map[], [],
            [a, b], [], [t0, t1], map[0 := t1], [Launch(t0, 10)])
    else
      State(10, map[k := 0], [idle], [Timer(0, 10, Done), Timer(0, 20, Stopped)], [c, c], map[], [],
            [a, b], [], [t0, t1], map[], [Launch(t0, 10), Launch(t1, 10)])
  }

  lemma SecondCall(k: string) returns (steps: seq<Step>)
    requires k != ""
    ensures Run(0, steps) == Early(k, 0)
  {
    hide Run, Accept, WellFormed;
    var p := FirstExpired(k);
    CallRuns(0, p, k);
    steps := p + CallSteps(k, 1);
    AcceptLeaves(AtEntry(First(k, 10, InFlight), k), 1);
  }

  lemma StaleTake(k: string) returns (steps: seq<Step>)
    requires k != ""
    ensures Run(0, steps) == Early(k, 2)
  {
    hide Run, WellFormed, Linked, Logged, OneFate, OneCallFate, Ordered, DoTake;
    var p := SecondCall(k);
    RunKeeps(0, p);
    RunThen(0, p, Take(0));
    TakeIsTakenOff(Early(k, 0), 0);
    assert Run(0, p + [Take(0)]) == Early(k, 1);
    RunThen(0, p + [Take(0)], Go(0));
    steps := p + [Take(0)] + [Go(0)];
  }

  /** For every key, a replaced timer's callback can start a call at 10 whose slot ends at 20. */
  lemma ReplacedTimerStartsEarly(k: string)
    requires k != ""
    ensures exists steps: seq<Step> :: StartsEarly(Run(0, steps))
  {
    hide Run;
    var steps := StaleTake(k);
    assert !StartsOnTime(Early(k, 2), Early(k, 2).launched[1]);
  }

  /** After such an early start the slot's next call starts too, so that one slot starts two calls. */
  lemma SlotCanStartTwice(k: string)
    requires k != ""
    ensures exists steps: seq<Step> :: SlotStartsTwice(Run(0, steps))
  {
    hide Run, Accept, WellFormed, Linked, Logged, OneFate, OneCallFate, Ordered, Do;
    var p := StaleTake(k);
    var s := AtEntry(Early(k, 2), k);
    CallRuns(0, p, k);
    AcceptStays(s, 2);
    var q := p + CallSteps(k, 2);
    RunKeeps(0, q);
    var d, t, l := WaitsForTimer(Run(0, q), 0);
    RunsOn(0, q, Tick(d), Expire(t), Take(t), Go(t));
    var r := Run(0, q + [Tick(d), Expire(t), Take(t), Go(t)]);
    assert r.launched[1].call.index == 1 && r.launched[2] == l && SameSlot(r, 1, 2);
  }

  // ---------------------------------------------------------------- starts in the wrong order

  /**
   The first call's callback, run at 19, takes it and leaves the lock. A second call comes at 19, and at 20 a
   third one in the next slot, which starts the second under the lock. Then the callback starts the first.
   */
  function Inverted(k: string, n: nat): State
  {
    var c, a, b, d := Call(k, 10), Accepted(0, 0, 0, 0, 10), Accepted(1, 0, 1, 19, 20), Accepted(2, 0, 2, 20, 30);
    var t0, t1 := Taken(0, 19, OwnTimer), Taken(1, 20, LaterSlot);
    var done := Timer(0, 10, Done);
    if n == 0 then
      State(19, map[k := 0], [Entry(k, Some(0), 10, -1, None, None)], [done], [c], map[], [], [a], [], [t0], map[0 := t0], [])
    else if n == 1 then
      State(19, map[k := 0], [Entry(k, Some(0), 10, 1, Some(1), Some(1))], [done, Timer(0, 20, Armed)], [c, c], map[], [],
            [a, b], [], [t0], map[0 := t0], [])
    else
      State(20, map[k := 0], [Entry(k, Some(0), 10, 2, Some(2), Some(2))], [done, Timer(0, 20, Stopped), Timer(0, 30, Armed)], [c, c, c], map[], [],
            [a, b, d], [], [t0, t1], map[0 := t0], [Launch(t1, 20)])
  }

  lemma FirstTaken(k: string) returns (steps: seq<Step>)
    requires k != ""
    ensures Run(0, steps) == Inverted(k, 0)
  {
    hide Run, WellFormed, Linked, Logged, OneFate, OneCallFate, Ordered, DoTake;
    var p := FirstExpired(k);
    RunThen(0, p, Tick(9));
    RunKeeps(0, p + [Tick(9)]);
    RunThen(0, p + [Tick(9)], Take(0));
    TakeIsTakenOff(First(k, 19, InFlight), 0);
    steps := p + [Tick(9)] + [Take(0)];
  }

  lemma SecondPending(k: string) returns (steps: seq<Step>)
    requires k != ""
    ensures Run(0, steps) == Inverted(k, 1)
  {
    hide Run, Accept, WellFormed;
    var p := FirstTaken(k);
    CallRuns(0, p, k);
    steps := p + CallSteps(k, 1);
    AcceptStays(AtEntry(Inverted(k, 0), k), 1);
  }

  lemma SecondStarted(k: string) returns (steps: seq<Step>)
    requires k != ""
    ensures Run(0, steps) == Inverted(k, 2)
  {
    hide Run, Accept, WellFormed;
    var p := SecondPending(k);
    RunThen(0, p, Tick(1));
    CallRuns(0, p + [Tick(1)], k);
    steps := p + [Tick(1)] + CallSteps(k, 2);
    AcceptLeaves(AtEntry(Inverted(k, 1).(now := 20), k), 2);
  }

  /** For every key there is a run that starts its second call before its first. */
  lemma StartsCanBeInverted(k: string)
    requires k != ""
    ensures exists steps: seq<Step> :: Logged(Run(0, steps)) && Handed(Run(0, steps)) && !StartsInOrder(Run(0, steps), k)
  {
    hide Run, Handed, WellFormed, Linked, OneFate, OneCallFate, Ordered;
    var p := SecondStarted(k);
    RunThen(0, p, Go(0));
    RunHands(0, p + [Go(0)]);
    var r := Run(0, p + [Go(0)]);
    assert r.launched == [Launch(Taken(1, 20, LaterSlot), 20), Launch(Taken(0, 19, OwnTimer), 20)];
    assert OfKey(r, r.launched[0].call, k) && OfKey(r, r.launched[1].call, k);
  }
}

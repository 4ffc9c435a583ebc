/** The retry loop of a call: it gives up exactly when its attempt has failed 64 times. */
module ThrottleRetries {
  import opened Text
  import opened Throttle
  import opened ThrottleFates
  import opened ThrottleStarts

  /** This step is a failed attempt of call c: the key is not in the map, or under the lock it has another entry. */
  predicate Fails(s: State, step: Step, c: nat)
  {
    && c in s.callers && c < |s.calls|
    && var key := s.calls[c].key;
       || (step == Get(c) && s.callers[c].AtGet? && key !in s.registry)
       || (step == Locked(c) && s.callers[c].AtLock? && (key !in s.registry || s.registry[key] != s.callers[c].entry))
  }

  ghost function Failures(start: int, steps: seq<Step>, c: nat): nat
  {
    if steps == [] then 0
    else
      var n := |steps| - 1;
      Failures(start, steps[..n], c) + if Fails(Run(start, steps[..n]), steps[n], c) then 1 else 0
  }

  /** What the state of call c says about the number of its failed attempts. */
  ghost predicate Counted(s: State, c: nat, failures: nat)
  {
    && (c in s.callers ==> s.callers[c].attempt == failures < 64)
    && (c in s.gaveUp <==> failures == 64)
    && failures <= 64
    && (c >= |s.calls| ==> failures == 0)
  }

  lemma StepCounts(s: State, step: Step, c: nat, failures: nat)
    requires Inv(s) && Handed(s) && Counted(s, c, failures)
    ensures Counted(Do(s, step), c, failures + if Fails(s, step, c) then 1 else 0)
  {
    hide Linked, OneFate, Ordered, Handed, Accept, DoTake, DoInvoke, DoRemoveIfIdle;
    match step
    case Take(t) => TakeLeavesCallers(s, t);
    case Locked(d) => LockedCounts(s, d, c, failures);
    case Invoke(key, period, nilCall) => InvokeCounts(s, key, period, nilCall, c, failures);
    case RemoveIfIdle(e) => RemoveLeavesCallers(s, e);
    case _ =>
  }

  lemma TakeLeavesCallers(s: State, t: nat)
    requires Inv(s)
    ensures var r := DoTake(s, t); r.callers == s.callers && r.gaveUp == s.gaveUp && r.calls == s.calls
  {
    hide Linked, OneFate, OneCallFate, Ordered, Logged, DoTake;
    if t < |s.timers| && s.timers[t].phase == InFlight {
      TakeIsTakenOff(s, t);
    } else {
      NotInFlight(s, t);
    }
  }

  lemma RemoveLeavesCallers(s: State, e: nat)
    requires WellFormed(s)
    ensures var r := DoRemoveIfIdle(s, e); r.callers == s.callers && r.gaveUp == s.gaveUp && r.calls == s.calls
  {
  }

  lemma InvokeCounts(s: State, key: string, period: int, nilCall: bool, c: nat, failures: nat)
    requires Inv(s) && Counted(s, c, failures)
    ensures Counted(DoInvoke(s, key, period, nilCall), c, failures)
  {
    hide Linked, OneFate, OneCallFate, Ordered;
  }

  /** Accepting a call ends it, and no other. */
  lemma AcceptEnds(s: State, c: nat, e: nat, period: int)
    requires Inv(s) && e < |s.entries| && period > 0 && InMap(s, e)
    ensures var r := Accept(s, c, e, period); r.callers == s.callers - {c} && r.gaveUp == s.gaveUp && r.calls == s.calls
  {
    hide WellFormed, Linked, Logged, OneFate, OneCallFate, Ordered, Place, Flush, StopTimer, SlotOf;
    var g := OnGrid(s, e, period);
    OnGridKeeps(s, e, period);
    var slot := SlotOf(g, e, period);
    if g.entries[e].pending.Some? && slot > g.entries[e].slot {
      PendingHolds(g, e);
      FlushTakesOff(g, e, LaterSlot);
    }
    PlaceIsPlaced(LeaveSlot(g, e, slot), c, e, slot);
  }

  lemma LockedCounts(s: State, d: nat, c: nat, failures: nat)
    requires Inv(s) && Counted(s, c, failures)
    ensures Counted(DoLocked(s, d), c, failures + if Fails(s, Locked(d), c) then 1 else 0)
  {
    hide Linked, OneFate, Ordered, Accept, Logged;
    if d in s.callers && s.callers[d].AtLock? {
      var e, call := s.callers[d].entry, s.calls[d];
      if call.key in s.registry && s.registry[call.key] == e {
        assert InMap(s, e) by { MappedEntry(s, call.key); }
        AcceptEnds(s, d, e, call.period);
      } else {
        assert c == d ==> CallFate(s, c) == 1;
      }
    }
  }

  lemma MappedEntry(s: State, key: string)
    requires Inv(s) && key in s.registry
    ensures InMap(s, s.registry[key])
  {
  }

  lemma {:induction false} RunCounts(start: int, steps: seq<Step>, c: nat)
    ensures Counted(Run(start, steps), c, Failures(start, steps, c))
  {
    hide Inv, Handed, Counted, Do;
    if steps == [] {
      NothingCounted(start, c);
    } else {
      var n := |steps| - 1;
      RunHands(start, steps[..n]);
      RunCounts(start, steps[..n], c);
      StepCounts(Run(start, steps[..n]), steps[n], c, Failures(start, steps[..n], c));
    }
  }

  lemma NothingCounted(start: int, c: nat)
    ensures Counted(Start(start), c, 0)
  {
  }

  /** In every run a call has given up if and only if 64 attempts of it have failed; while it tries, fewer have. */
  lemma GivesUpExactly(start: int, steps: seq<Step>, c: nat)
    ensures c in Run(start, steps).gaveUp <==> Failures(start, steps, c) == 64
    ensures c in Run(start, steps).callers ==> Failures(start, steps, c) < 64
  {
    RunCounts(start, steps, c);
  }

  /** A call without a key, without a function or without a positive period is refused; any other gets into the loop. */
  lemma RefusedExactly(s: State, key: string, period: int, nilCall: bool)
    requires WellFormed(s)
    ensures var r := DoInvoke(s, key, period, nilCall);
            if key == "" || nilCall || period <= 0 then r == s
            else r.calls == s.calls + [Call(key, period)] && |s.calls| in r.callers
  {
  }
}

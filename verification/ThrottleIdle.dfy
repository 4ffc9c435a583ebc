/**
 Idle keys: a callback that nothing interrupts takes its key out of the map, and the next call of a key that
 is not in the map begins a grid of its own.
 */
module ThrottleIdle {
  import opened Text
  import opened Throttle
  import opened ThrottleFates
  import ThrottleGrid

  /** A callback that nothing interrupts: it takes the call, starts it, and removes the entry when that is idle. */
  function Fired(s: State, t: nat): State
    requires WellFormed(s) && t < |s.timers|
  {
    DoRemoveIfIdle(DoGo(DoTake(s, t), t), s.timers[t].entry)
  }

  /** After an uninterrupted callback of an entry that was in the map, its key is not in the map any more. */
  lemma CallbackRemovesKey(start: int, steps: seq<Step>, t: nat)
    requires t < |Run(start, steps).timers| && Run(start, steps).timers[t].phase == InFlight
    requires InMap(Run(start, steps), Run(start, steps).timers[t].entry)
    ensures
      var s := Run(start, steps);
      var key := s.entries[s.timers[t].entry].key;
      && Fired(s, t) == Run(start, steps + [Take(t), Go(t), RemoveIfIdle(s.timers[t].entry)])
      && Fired(s, t).registry == s.registry - {key}
  {
    hide Run, Inv, DoTake, DoGo, DoRemoveIfIdle;
    RunKeeps(start, steps);
    ThreeSteps(start, steps, Take(t), Go(t), RemoveIfIdle(Run(start, steps).timers[t].entry));
    FiredRemovesKey(Run(start, steps), t);
  }

  lemma FiredRemovesKey(s: State, t: nat)
    requires Inv(s) && t < |s.timers| && s.timers[t].phase == InFlight && InMap(s, s.timers[t].entry)
    ensures Fired(s, t).registry == s.registry - {s.entries[s.timers[t].entry].key}
  {
    hide Linked, OneFate, OneCallFate, Ordered, Logged, DoTake;
    IdleAfterTake(s, t);
  }

  lemma ThreeSteps(start: int, steps: seq<Step>, a: Step, b: Step, c: Step)
    ensures Run(start, steps + [a, b, c]) == Do(Do(Do(Run(start, steps), a), b), c)
  {
    hide Do;
    assert (steps + [a, b, c])[..|steps| + 2] == steps + [a, b] && (steps + [a, b])[..|steps| + 1] == steps + [a];
    assert (steps + [a])[..|steps|] == steps;
    assert Run(start, steps + [a]) == Do(Run(start, steps), a);
    assert Run(start, steps + [a, b]) == Do(Run(start, steps + [a]), b);
  }

  /** A take leaves the entry without a call and without a timer. */
  lemma IdleAfterTake(s: State, t: nat)
    requires Inv(s) && t < |s.timers| && s.timers[t].phase == InFlight
    ensures
      var r, e := DoTake(s, t), s.timers[t].entry;
      && |r.entries| == |s.entries| && r.entries[e].pending == None && r.entries[e].timer == None && r.entries[e].key == s.entries[e].key
      && r.registry == s.registry
  {
    hide OneFate, OneCallFate, Ordered, Logged, DoTake;
    TakeIsTakenOff(s, t);
  }

  /** An entry without a call and without a timer. */
  predicate IsIdle(s: State, e: nat) { e < |s.entries| && s.entries[e].pending == None && s.entries[e].timer == None }

  /**
   Whenever a run has left an idle entry in the map, its removal takes the key out, and the next call of the key
   that nothing interrupts is put on a new entry, in slot 0 of a grid that begins now, under a timer for now
   plus the period.
   */
  lemma NextCallBeginsGrid(start: int, steps: seq<Step>, e: nat, period: int)
    requires IsIdle(Run(start, steps), e) && InMap(Run(start, steps), e)
    requires Run(start, steps).entries[e].key != "" && period > 0
    ensures
      var s, key := Run(start, steps), Run(start, steps).entries[e].key;
      var q := DoRemoveIfIdle(s, e);
      var r := ThrottleGrid.Alone(q, key, period, false);
      && q == Run(start, steps + [RemoveIfIdle(e)]) && q.registry == s.registry - {key} && q.entries == s.entries
      && BeginsGrid(q, r, key, period)
  {
    hide Run, BeginsGrid;
    assert (steps + [RemoveIfIdle(e)])[..|steps|] == steps;
    assert Run(start, steps + [RemoveIfIdle(e)]) == Do(Run(start, steps), RemoveIfIdle(e)) by { RunLast(start, steps, RemoveIfIdle(e)); }
    var s := Run(start, steps);
    UnknownKeyBeginsGrid(DoRemoveIfIdle(s, e), s.entries[e].key, period);
  }

  lemma RunLast(start: int, steps: seq<Step>, x: Step)
    ensures Run(start, steps + [x]) == Do(Run(start, steps), x)
  {
    assert (steps + [x])[..|steps|] == steps;
  }

  /** r is s with one more call of the key, accepted now, on a new entry. */
  predicate BeginsGrid(s: State, r: State, key: string, period: int)
  {
    var e, c, i, t := |s.entries|, |s.calls|, |s.accepted|, |s.timers|;
    && r.now == s.now && r.registry == s.registry[key := e] && r.callers == s.callers - {c}
    && r.entries == s.entries + [Entry(key, Some(s.now), period, 0, Some(i), Some(t))]
    && r.timers == s.timers + [Timer(e, s.now + period, Armed)]
    && r.calls == s.calls + [Call(key, period)]
    && r.accepted == s.accepted + [Accepted(c, e, 0, s.now, s.now + period)]
    && r.overwritten == s.overwritten && r.taken == s.taken && r.launched == s.launched && r.hands == s.hands
  }

  /** A call that nothing interrupts, of a key that is not in the map. */
  lemma UnknownKeyBeginsGrid(s: State, key: string, period: int)
    requires WellFormed(s) && key != "" && period > 0 && key !in s.registry
    ensures BeginsGrid(s, ThrottleGrid.Alone(s, key, period, false), key, period)
  {
    hide WellFormed, Place, Placed, LeaveSlot;
    var c, e := |s.calls|, |s.entries|;
    var s1 := DoInvoke(s, key, period, false);
    var s2 := DoSetIfAbsent(s1, c);
    assert s2.callers[c] == AtLock(0, e) && DoGet(s2, c) == s2;
    var g := OnGrid(s2, e, period);
    assert g.entries == s.entries + [Entry(key, Some(s.now), period, -1, None, None)];
    FreshSlot(g, e, period);
    PlaceIsPlaced(g, c, e, 0);
    PlacedFirst(s, g, key, period);
  }

  lemma FreshSlot(s: State, e: nat, period: int)
    requires WellFormed(s) && e < |s.entries| && s.entries[e].epoch == Some(s.now) && s.entries[e].pending.None? && period > 0
    ensures SlotOf(s, e, period) == 0 && LeaveSlot(s, e, 0) == s
  {
  }

  lemma PlacedFirst(s: State, g: State, key: string, period: int)
    requires WellFormed(g) && period > 0
    requires g.entries == s.entries + [Entry(key, Some(s.now), period, -1, None, None)] && g.now == s.now
    requires g.registry == s.registry[key := |s.entries|] && g.timers == s.timers && g.calls == s.calls + [Call(key, period)]
    requires g.accepted == s.accepted && g.overwritten == s.overwritten && g.taken == s.taken && g.launched == s.launched
    requires g.hands == s.hands && g.callers == s.callers[|s.calls| := AtLock(0, |s.entries|)]
    ensures BeginsGrid(s, Placed(g, |s.calls|, |s.entries|, 0), key, period)
  {
    assert Boundary(s.now, 0, period) == s.now + period;
  }
}

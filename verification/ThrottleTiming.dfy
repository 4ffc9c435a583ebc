/**
 When calls are taken and start. With one period per key, a call is taken at or after the right end of its
 slot, unless the callback of a timer that was already replaced takes it early; and one call of a slot is
 taken, unless an earlier one was taken early.
 */
module ThrottleTiming {
  import opened Text
  import opened Throttle
  import opened ThrottleFates
  import opened ThrottleStarts

  /** Every call for a key was made with the period of that key. */
  ghost predicate Uniform(s: State, grid: string -> int) { forall c :: 0 <= c < |s.calls| ==> s.calls[c].period == grid(s.calls[c].key) }

  ghost predicate EntryTimed(s: State, e: nat, grid: string -> int)
    requires e < |s.entries|
  {
    var x := s.entries[e];
    x.epoch.Some? ==> x.epoch.value <= s.now && x.period == grid(x.key) && x.period > 0
  }

  /** An accepted call lies in its slot, and the slot's right end is its boundary. */
  ghost predicate InSlot(s: State, i: nat, grid: string -> int)
    requires i < |s.accepted| && s.accepted[i].entry < |s.entries|
  {
    var a := s.accepted[i];
    var x := s.entries[a.entry];
    && x.epoch.Some?
    && x.epoch.value <= a.at <= s.now
    && grid(x.key) > 0
    && a.slot == (a.at - x.epoch.value) / grid(x.key)
    && a.boundary == Boundary(x.epoch.value, a.slot, grid(x.key))
  }

  /** The clock of acceptances, takes and expiries. */
  ghost predicate Clocked(s: State)
    requires Logged(s)
  {
    && (forall i, j :: 0 <= i < j < |s.accepted| ==> s.accepted[i].at <= s.accepted[j].at)
    && (forall k :: 0 <= k < |s.taken| ==> s.taken[k].at <= s.now)
    && (forall t :: 0 <= t < |s.timers| && s.timers[t].phase == InFlight ==> s.timers[t].due <= s.now)
    && (forall k, p :: 0 <= k < |s.taken| && 0 <= p < |s.accepted| ==> TakenEarlier(s, k, p))
  }

  ghost predicate TakenEarlier(s: State, k: nat, p: nat)
    requires k < |s.taken| && s.taken[k].index < |s.accepted| && p < |s.accepted|
  {
    Pending(s, p) && s.accepted[s.taken[k].index].entry == s.accepted[p].entry ==> s.taken[k].at <= s.accepted[p].at
  }

  ghost predicate SameSlot(s: State, i: nat, j: nat)
    requires i < |s.accepted| && j < |s.accepted|
  {
    s.accepted[i].entry == s.accepted[j].entry && s.accepted[i].slot == s.accepted[j].slot
  }

  /** The call was taken at or after the right end of its slot. */
  ghost predicate OnTime(s: State, x: Taken)
    requires x.index < |s.accepted|
  {
    x.at >= s.accepted[x.index].boundary
  }

  ghost predicate StartsOnTime(s: State, l: Launch)
    requires l.call.index < |s.accepted|
  {
    l.at >= s.accepted[l.call.index].boundary
  }

  ghost predicate TakesTimed(s: State)
    requires Logged(s)
  {
    && (forall k :: 0 <= k < |s.taken| && s.taken[k].how != StaleTimer ==> OnTime(s, s.taken[k]))
    && (forall k, l :: 0 <= k < l < |s.taken| && SameSlot(s, s.taken[k].index, s.taken[l].index) ==> !OnTime(s, s.taken[k]))
    && (forall k :: 0 <= k < |s.overwritten| ==> SameSlot(s, s.overwritten[k].index, s.overwritten[k].successor))
  }

  ghost predicate AllInSlot(s: State, grid: string -> int)
    requires Logged(s)
  {
    && (forall e :: 0 <= e < |s.entries| ==> EntryTimed(s, e, grid))
    && (forall i :: 0 <= i < |s.accepted| ==> AcceptedWellFormed(s, i) && InSlot(s, i, grid))
  }

  ghost predicate Timed(s: State, grid: string -> int)
  {
    Inv(s) && AllInSlot(s, grid) && Clocked(s) && TakesTimed(s)
  }

  // ---------------------------------------------------------------- arithmetic of slots

  lemma SlotBounds(d: int, period: int)
    requires d >= 0 && period > 0
    ensures d / period >= 0 && (d / period) * period <= d < (d / period + 1) * period
  {
  }

  lemma LaterSlotsStartLater(a: int, b: int, period: int)
    requires a <= b && period > 0
    ensures a * period <= b * period
  {
  }

  lemma SlotsGrow(c: int, d: int, period: int)
    requires 0 <= c <= d && period > 0
    ensures c / period <= d / period
  {
    SlotBounds(c, period);
    SlotBounds(d, period);
    if c / period > d / period {
      LaterSlotsStartLater(d / period + 1, c / period, period);
    }
  }

  lemma BeforeBoundary(s: State, i: nat, grid: string -> int)
    requires i < |s.accepted| && s.accepted[i].entry < |s.entries| && InSlot(s, i, grid)
    ensures s.accepted[i].at < s.accepted[i].boundary
  {
    var a := s.accepted[i];
    SlotBounds(a.at - s.entries[a.entry].epoch.value, grid(s.entries[a.entry].key));
  }

  // ---------------------------------------------------------------- the moves of a lock region

  lemma OnGridInSlot(s: State, e: nat, period: int, grid: string -> int)
    requires WellFormed(s) && e < |s.entries| && period == grid(s.entries[e].key) && period > 0
    requires Logged(s) && AllInSlot(s, grid) && Logged(OnGrid(s, e, period))
    ensures AllInSlot(OnGrid(s, e, period), grid)
  {
    var r := OnGrid(s, e, period);
    forall i | 0 <= i < |r.accepted| ensures AcceptedWellFormed(r, i) && InSlot(r, i, grid) {
      assert AcceptedWellFormed(s, i) && InSlot(s, i, grid);
    }
    forall f | 0 <= f < |r.entries| ensures EntryTimed(r, f, grid) {
      assert EntryTimed(s, f, grid);
    }
  }

  lemma OnGridTimed(s: State, e: nat, period: int, grid: string -> int)
    requires Timed(s, grid) && e < |s.entries| && period == grid(s.entries[e].key) && period > 0
    ensures Timed(OnGrid(s, e, period), grid)
  {
    var r := OnGrid(s, e, period);
    hide Linked, LinkedEntry, OneFate, OneCallFate, Ordered, AllInSlot;
    OnGridKeeps(s, e, period);
    OnGridInSlot(s, e, period, grid);
    forall k, p | 0 <= k < |r.taken| && 0 <= p < |r.accepted| ensures TakenEarlier(r, k, p) {
      assert TakenEarlier(s, k, p);
    }
  }

  lemma TakenOffTimed(s: State, e: nat, how: How, grid: string -> int)
    requires Timed(s, grid) && Holds(s, e)
    requires how == StaleTimer || s.now >= s.accepted[s.entries[e].pending.value].boundary
    ensures Timed(TakenOff(s, e, how), grid)
  {
    hide Linked, OneFate, OneCallFate, Ordered, AllInSlot, Clocked, TakesTimed;
    TakenOffKeeps(s, e, how);
    TakenOffInSlot(s, e, how, grid);
    TakenOffClocked(s, e, how);
    TakenOffTakesTimed(s, e, how, grid);
  }

  lemma TakenOffInSlot(s: State, e: nat, how: How, grid: string -> int)
    requires Inv(s) && AllInSlot(s, grid) && Holds(s, e) && Logged(TakenOff(s, e, how))
    ensures AllInSlot(TakenOff(s, e, how), grid)
  {
    hide WellFormed, Linked, OneFate, OneCallFate, Ordered;
    var r := TakenOff(s, e, how);
    forall i | 0 <= i < |r.accepted| ensures AcceptedWellFormed(r, i) && InSlot(r, i, grid) {
      assert AcceptedWellFormed(s, i) && InSlot(s, i, grid);
    }
    forall f | 0 <= f < |r.entries| ensures EntryTimed(r, f, grid) {
      assert EntryTimed(s, f, grid);
    }
  }

  lemma TakenOffClocked(s: State, e: nat, how: How)
    requires Inv(s) && Clocked(s) && Holds(s, e) && Logged(TakenOff(s, e, how))
    ensures Clocked(TakenOff(s, e, how))
  {
    hide OneFate, OneCallFate, Ordered;
    var r := TakenOff(s, e, how);
    PendingHolds(s, e);
    forall k, q | 0 <= k < |r.taken| && 0 <= q < |r.accepted| ensures TakenEarlier(r, k, q) {
      assert k < |s.taken| ==> TakenEarlier(s, k, q);
    }
  }

  lemma TakenOffTakesTimed(s: State, e: nat, how: How, grid: string -> int)
    requires Timed(s, grid) && Holds(s, e) && Logged(TakenOff(s, e, how))
    requires how == StaleTimer || s.now >= s.accepted[s.entries[e].pending.value].boundary
    ensures TakesTimed(TakenOff(s, e, how))
  {
    hide WellFormed, Linked, OneFate, OneCallFate, Ordered;
    var r := TakenOff(s, e, how);
    var p := s.entries[e].pending.value;
    PendingHolds(s, e);
    forall k | 0 <= k < |s.taken| && SameSlot(s, s.taken[k].index, p) ensures !OnTime(r, r.taken[k]) {
      assert TakenEarlier(s, k, p) && InSlot(s, p, grid) && InSlot(s, s.taken[k].index, grid);
      BeforeBoundary(s, p, grid);
    }
  }

  /** The slot of a call accepted now. */
  ghost predicate SlotNow(s: State, e: nat, slot: int)
    requires e < |s.entries| && s.entries[e].epoch.Some? && s.entries[e].period > 0
  {
    slot == (s.now - s.entries[e].epoch.value) / s.entries[e].period
  }

  lemma PlacedTimed(s: State, c: nat, e: nat, slot: int, grid: string -> int)
    requires Timed(s, grid) && e < |s.entries| && s.entries[e].epoch.Some? && InMap(s, e)
    requires c in s.callers && s.entries[e].key == s.calls[c].key
    requires s.entries[e].period == grid(s.entries[e].key) && s.entries[e].period > 0 && SlotNow(s, e, slot)
    requires s.entries[e].pending.Some? ==> slot <= s.entries[e].slot
    ensures Timed(Placed(s, c, e, slot), grid)
  {
    hide Linked, OneFate, OneCallFate, Ordered, AllInSlot, Clocked, TakesTimed;
    PlacedKeeps(s, c, e, slot);
    PlacedInSlot(s, c, e, slot, grid);
    PlacedClocked(s, c, e, slot, grid);
    PlacedTakes(s, c, e, slot, grid);
  }

  lemma PlacedInSlot(s: State, c: nat, e: nat, slot: int, grid: string -> int)
    requires Timed(s, grid) && e < |s.entries| && s.entries[e].epoch.Some? && Logged(Placed(s, c, e, slot))
    requires s.entries[e].period == grid(s.entries[e].key) && s.entries[e].period > 0 && SlotNow(s, e, slot)
    ensures AllInSlot(Placed(s, c, e, slot), grid)
  {
    hide Linked, OneFate, OneCallFate, Ordered;
    var r := Placed(s, c, e, slot);
    assert EntryTimed(s, e, grid);
    forall i | 0 <= i < |r.accepted| ensures AcceptedWellFormed(r, i) && InSlot(r, i, grid) {
      assert i < |s.accepted| ==> AcceptedWellFormed(s, i) && InSlot(s, i, grid);
    }
    forall f | 0 <= f < |r.entries| ensures EntryTimed(r, f, grid) {
      assert EntryTimed(s, f, grid);
    }
  }

  lemma PlacedClocked(s: State, c: nat, e: nat, slot: int, grid: string -> int)
    requires Timed(s, grid) && e < |s.entries| && s.entries[e].epoch.Some? && Logged(Placed(s, c, e, slot))
    ensures Clocked(Placed(s, c, e, slot))
  {
    hide Linked, OneFate, OneCallFate, Ordered;
    var r := Placed(s, c, e, slot);
    forall i, j | 0 <= i < j < |r.accepted| ensures r.accepted[i].at <= r.accepted[j].at {
      assert AcceptedWellFormed(s, i) && InSlot(s, i, grid);
    }
    forall k, q | 0 <= k < |r.taken| && 0 <= q < |r.accepted| ensures TakenEarlier(r, k, q) {
      assert q < |s.accepted| ==> TakenEarlier(s, k, q);
    }
  }

  lemma PlacedTakes(s: State, c: nat, e: nat, slot: int, grid: string -> int)
    requires Timed(s, grid) && e < |s.entries| && s.entries[e].epoch.Some? && Logged(Placed(s, c, e, slot))
    requires s.entries[e].period == grid(s.entries[e].key) && s.entries[e].period > 0 && SlotNow(s, e, slot)
    requires s.entries[e].pending.Some? ==> slot <= s.entries[e].slot
    ensures TakesTimed(Placed(s, c, e, slot))
  {
    hide Linked, LinkedEntry, OneFate, OneCallFate, Ordered, AllInSlot, InSlot, EntryTimed, Clocked, SlotNow;
    if s.entries[e].pending.Some? {
      PendingSlotStays(s, e, slot, grid);
    }
  }

  /** Under one period the slots of an entry never go back, so an overwritten call is one of the same slot. */
  lemma PendingSlotStays(s: State, e: nat, slot: int, grid: string -> int)
    requires Timed(s, grid) && e < |s.entries| && s.entries[e].epoch.Some? && s.entries[e].pending.Some?
    requires s.entries[e].period == grid(s.entries[e].key) && s.entries[e].period > 0 && SlotNow(s, e, slot)
    requires slot <= s.entries[e].slot
    ensures var p := s.entries[e].pending.value; p < |s.accepted| && s.accepted[p].entry == e && s.accepted[p].slot == slot
  {
    hide OneFate, OneCallFate, Ordered, Clocked, TakesTimed;
    var p := s.entries[e].pending.value;
    assert LinkedEntry(s, e) && AcceptedWellFormed(s, p) && InSlot(s, p, grid) && EntryTimed(s, e, grid);
    SlotsGrow(s.accepted[p].at - s.entries[e].epoch.value, s.now - s.entries[e].epoch.value, s.entries[e].period);
  }

  lemma AcceptTimed(s: State, c: nat, e: nat, period: int, grid: string -> int)
    requires Timed(s, grid) && e < |s.entries| && period > 0 && InMap(s, e) && period == grid(s.entries[e].key)
    requires c in s.callers && s.entries[e].key == s.calls[c].key
    ensures Timed(Accept(s, c, e, period), grid)
  {
    hide Linked, Logged, OneFate, OneCallFate, Ordered, Place, Placed, TakenOff, Flush, StopTimer, AllInSlot, Clocked, TakesTimed;
    var g := OnGrid(s, e, period);
    OnGridTimed(s, e, period, grid);
    GridStarted(g, e, grid);
    var slot := SlotOf(g, e, period);
    var l := LeaveSlot(g, e, slot);
    if g.entries[e].pending.Some? && slot > g.entries[e].slot {
      PendingHolds(g, e);
      FlushTakesOff(g, e, LaterSlot);
      SlotHasPassed(g, e, slot, grid);
      TakenOffTimed(g, e, LaterSlot, grid);
      TakenOffFrame(g, e, LaterSlot);
      TakenOffGrid(g, e, LaterSlot);
      HandsTimed(TakenOff(g, e, LaterSlot), g.hands, l.launched, grid);
    }
    PlaceIsPlaced(l, c, e, slot);
    PlacedTimed(l, c, e, slot, grid);
  }

  lemma GridStarted(s: State, e: nat, grid: string -> int)
    requires Timed(s, grid) && e < |s.entries| && s.entries[e].epoch.Some?
    ensures s.entries[e].epoch.value <= s.now
  {
    assert EntryTimed(s, e, grid);
  }

  lemma TakenOffGrid(s: State, e: nat, how: How)
    requires Holds(s, e)
    ensures var x, y := s.entries[e], TakenOff(s, e, how).entries[e]; y.epoch == x.epoch && y.period == x.period && y.pending == None
    ensures TakenOff(s, e, how).now == s.now
  {
  }

  /** A call in a later slot comes no earlier than the right end of the pending call's slot. */
  lemma SlotHasPassed(s: State, e: nat, slot: int, grid: string -> int)
    requires Timed(s, grid) && Holds(s, e) && slot > s.entries[e].slot
    requires s.entries[e].epoch.Some? && s.entries[e].period == grid(s.entries[e].key) && s.entries[e].period > 0 && SlotNow(s, e, slot)
    ensures s.now >= s.accepted[s.entries[e].pending.value].boundary
  {
    hide OneFate, OneCallFate, Ordered, Clocked, TakesTimed;
    var p := s.entries[e].pending.value;
    assert LinkedEntry(s, e) && InSlot(s, p, grid) && EntryTimed(s, e, grid);
    SlotBounds(s.now - s.entries[e].epoch.value, s.entries[e].period);
    LaterSlotsStartLater(s.accepted[p].slot + 1, slot, s.entries[e].period);
  }

  // ---------------------------------------------------------------- steps that touch no call

  lemma QuietTimed(s: State, r: State, grid: string -> int)
    requires Timed(s, grid) && Inv(r) && r.now >= s.now
    requires r.accepted == s.accepted && r.taken == s.taken && r.overwritten == s.overwritten
    requires |s.entries| <= |r.entries| && (forall e :: 0 <= e < |s.entries| ==> r.entries[e] == s.entries[e])
    requires forall e :: |s.entries| <= e < |r.entries| ==> r.entries[e].epoch.None? && r.entries[e].pending.None?
    requires forall t :: 0 <= t < |r.timers| && r.timers[t].phase == InFlight ==> r.timers[t].due <= r.now
    ensures Timed(r, grid)
  {
    hide WellFormed, Linked, OneFate, OneCallFate, Ordered;
    forall i | 0 <= i < |r.accepted| ensures AcceptedWellFormed(r, i) && InSlot(r, i, grid) {
      assert AcceptedWellFormed(s, i) && AcceptedWellFormed(r, i) && InSlot(s, i, grid);
    }
    forall f | 0 <= f < |r.entries| ensures EntryTimed(r, f, grid) {
      assert f < |s.entries| ==> EntryTimed(s, f, grid);
    }
    forall k, q | 0 <= k < |r.taken| && 0 <= q < |r.accepted| ensures TakenEarlier(r, k, q) {
      assert TakenEarlier(s, k, q);
    }
  }

  lemma HandsTimed(s: State, hands: map<nat, Taken>, launched: seq<Launch>, grid: string -> int)
    requires Timed(s, grid)
    ensures Timed(s.(hands := hands, launched := launched), grid)
  {
    hide WellFormed, Linked, Logged, OneFate, OneCallFate, Ordered;
    HandsKeep(s, hands, launched);
    QuietTimed(s, s.(hands := hands, launched := launched), grid);
  }

  lemma LockedTimed(s: State, c: nat, grid: string -> int)
    requires Timed(s, grid) && Uniform(s, grid)
    ensures Timed(DoLocked(s, c), grid)
  {
    hide OneFate, OneCallFate, Ordered, Logged, LinkedEntry, Accept, AllInSlot, TakesTimed;
    if c in s.callers && s.callers[c].AtLock? {
      var e, call := s.callers[c].entry, s.calls[c];
      if call.key !in s.registry || s.registry[call.key] != e {
        RetryKeeps(s, c, s.callers[c].attempt);
        QuietTimed(s, DoLocked(s, c), grid);
      } else {
        AcceptTimed(s, c, e, call.period, grid);
      }
    }
  }

  lemma TakeTimed(s: State, t: nat, grid: string -> int)
    requires Timed(s, grid)
    ensures Timed(DoTake(s, t), grid)
  {
    hide Linked, OneFate, OneCallFate, Ordered, Logged, DoTake, TakenOff, AllInSlot, TakesTimed;
    TakeKeeps(s, t);
    if t < |s.timers| && s.timers[t].phase == InFlight {
      var e, how := s.timers[t].entry, Taker(s, t);
      TakeIsTakenOff(s, t);
      if s.entries[e].pending.Some? {
        OwnTimerIsDue(s, t);
        TakenOffFrame(s, e, how);
        TakenOffTimed(s, e, how, grid);
        QuietTimed(TakenOff(s, e, how), DoTake(s, t), grid);
      } else {
        QuietTimed(s, DoTake(s, t), grid);
      }
    } else {
      NotInFlight(s, t);
    }
  }

  /** A callback that is still its entry's own comes no earlier than the right end of the pending call's slot. */
  lemma OwnTimerIsDue(s: State, t: nat)
    requires Inv(s) && Clocked(s) && t < |s.timers| && s.timers[t].phase == InFlight && Holds(s, s.timers[t].entry)
    ensures Taker(s, t) == StaleTimer || s.now >= s.accepted[s.entries[s.timers[t].entry].pending.value].boundary
  {
    hide OneFate, OneCallFate, Ordered;
    assert LinkedEntry(s, s.timers[t].entry);
  }

  lemma StepTimed(s: State, step: Step, grid: string -> int)
    requires Timed(s, grid) && Uniform(s, grid)
    ensures Timed(Do(s, step), grid)
  {
    hide WellFormed, Linked, Logged, OneFate, OneCallFate, Ordered, AllInSlot, TakesTimed, DoLocked, DoTake;
    if step.Locked? {
      LockedTimed(s, step.c, grid);
    } else if step.Take? {
      TakeTimed(s, step.t, grid);
    } else {
      StepKeeps(s, step);
      QuietTimed(s, Do(s, step), grid);
    }
  }

  lemma {:induction false} RunTimed(start: int, steps: seq<Step>, grid: string -> int)
    requires Uniform(Run(start, steps), grid)
    ensures Timed(Run(start, steps), grid)
  {
    hide WellFormed, Linked, OneFate, OneCallFate, Ordered, Handed, Do;
    RunHands(start, steps);
    if steps != [] {
      var before, step := Run(start, steps[..|steps| - 1]), steps[|steps| - 1];
      RunHands(start, steps[..|steps| - 1]);
      StepMoves(before, step);
      forall c | 0 <= c < |before.calls| ensures before.calls[c].period == grid(before.calls[c].key) {
        assert before.calls[c] == Run(start, steps).calls[c];
      }
      RunTimed(start, steps[..|steps| - 1], grid);
      StepTimed(before, step, grid);
    }
  }

  // ---------------------------------------------------------------- theorems

  lemma LaunchEnd(s: State, grid: string -> int, k: nat)
    requires Timed(s, grid) && Handed(s) && k < |s.launched|
    ensures var l := s.launched[k];
            && l.call.index < |s.accepted|
            && var a := s.accepted[l.call.index];
            && a.entry < |s.entries| && s.entries[a.entry].epoch.Some?
            && (l.call.how != StaleTimer ==> l.at >= s.entries[a.entry].epoch.value + (a.slot + 1) * grid(s.entries[a.entry].key))
  {
    hide Linked, OneFate, OneCallFate, Ordered, Clocked, TimesTaken, TimesHeld, TimesStarted;
    var x := s.launched[k].call;
    var p :| 0 <= p < |s.taken| && s.taken[p] == x;
    assert AcceptedWellFormed(s, x.index) && InSlot(s, x.index, grid);
  }

  /** The time of every accepted call lies in its slot of its entry's grid, and its boundary is the slot's right end. */
  lemma AcceptedInSlot(start: int, steps: seq<Step>, grid: string -> int, i: nat)
    requires Uniform(Run(start, steps), grid) && i < |Run(start, steps).accepted|
    ensures
      var s := Run(start, steps);
      var a := s.accepted[i];
      && a.entry < |s.entries| && s.entries[a.entry].epoch.Some?
      && var epoch, period := s.entries[a.entry].epoch.value, grid(s.entries[a.entry].key);
      && epoch + a.slot * period <= a.at < epoch + (a.slot + 1) * period == a.boundary
  {
    hide Run;
    RunTimed(start, steps, grid);
    var s := Run(start, steps);
    hide Inv, Clocked, TakesTimed;
    assert AcceptedWellFormed(s, i) && InSlot(s, i, grid);
    SlotBounds(s.accepted[i].at - s.entries[s.accepted[i].entry].epoch.value, grid(s.entries[s.accepted[i].entry].key));
  }

  /** A call that no replaced timer took starts at or after epoch + (slot + 1) * period. */
  lemma LaunchedAfterSlotEnd(start: int, steps: seq<Step>, grid: string -> int, k: nat)
    requires Uniform(Run(start, steps), grid) && k < |Run(start, steps).launched|
    ensures
      var s := Run(start, steps);
      var l := s.launched[k];
      && l.call.index < |s.accepted|
      && var a := s.accepted[l.call.index];
      && a.entry < |s.entries| && s.entries[a.entry].epoch.Some?
      && (l.call.how != StaleTimer ==> l.at >= s.entries[a.entry].epoch.value + (a.slot + 1) * grid(s.entries[a.entry].key))
  {
    hide Run;
    RunTimed(start, steps, grid);
    RunHands(start, steps);
    LaunchEnd(Run(start, steps), grid, k);
  }

  lemma {:induction false} HandStays(start: int, steps: seq<Step>, more: seq<Step>, t: nat)
    requires t in Run(start, steps).hands && Go(t) !in more
    ensures var m := Run(start, steps + more);
            && t in m.hands && m.hands[t] == Run(start, steps).hands[t] && Run(start, steps).accepted <= m.accepted
  {
    hide Inv, Handed, Do;
    if more == [] {
      assert steps + more == steps;
    } else {
      var n := |more| - 1;
      HandStays(start, steps, more[..n], t);
      assert (steps + more)[..|steps + more| - 1] == steps + more[..n] && Go(t) != more[n];
      RunHands(start, steps + more[..n]);
      StepMoves(Run(start, steps + more[..n]), more[n]);
    }
  }

  lemma TakesPending(s: State, t: nat)
    requires Inv(s) && t < |s.timers| && s.timers[t].phase == InFlight && s.entries[s.timers[t].entry].pending.Some?
    ensures
      var r, i := DoTake(s, t), s.entries[s.timers[t].entry].pending.value;
      && t in r.hands && r.hands[t] == Taken(i, s.now, Taker(s, t)) && r.accepted == s.accepted && r.launched == s.launched
  {
    hide OneFate, OneCallFate, Ordered, DoTake;
    TakeIsTakenOff(s, t);
  }

  /**
   In every run in which the callback of timer t takes its entry's pending call and, after any other steps,
   starts it, the start comes before the right end of the call's slot if and only if the timer had been
   replaced when it took the call, and that end still lies ahead when it starts it.
   */
  lemma GoStartsEarlyExactly(start: int, steps: seq<Step>, more: seq<Step>, grid: string -> int, t: nat)
    requires t < |Run(start, steps).timers| && Run(start, steps).timers[t].phase == InFlight
    requires Run(start, steps).entries[Run(start, steps).timers[t].entry].pending.Some?
    requires Go(t) !in more && Uniform(Run(start, steps + [Take(t)] + more), grid)
    ensures
      var s, m := Run(start, steps), Run(start, steps + [Take(t)] + more);
      var r, i := Do(m, Go(t)), s.entries[s.timers[t].entry].pending.value;
      && i < |s.accepted| && s.accepted <= r.accepted
      && r.launched == m.launched + [Launch(Taken(i, s.now, Taker(s, t)), m.now)]
      && (!StartsOnTime(r, r.launched[|m.launched|]) <==>
            s.entries[s.timers[t].entry].timer != Some(t) && m.now < s.accepted[i].boundary)
  {
    hide Inv, Handed, Run, Uniform, Timed;
    var s, m := Run(start, steps), Run(start, steps + [Take(t)] + more);
    RunHands(start, steps);
    RunThen(start, steps, Take(t));
    TakesPending(s, t);
    HandStays(start, steps + [Take(t)], more, t);
    RunHands(start, steps + [Take(t)] + more);
    RunTimed(start, steps + [Take(t)] + more, grid);
    HeldOnTime(m, grid, t);
  }

  lemma RunThen(start: int, steps: seq<Step>, step: Step)
    ensures Run(start, steps + [step]) == Do(Run(start, steps), step)
  {
    assert (steps + [step])[..|steps|] == steps;
  }

  lemma HeldOnTime(s: State, grid: string -> int, t: nat)
    requires Timed(s, grid) && Handed(s) && t in s.hands
    ensures s.hands[t].index < |s.accepted| && s.hands[t].at <= s.now
    ensures s.hands[t].how != StaleTimer ==> s.now >= s.accepted[s.hands[t].index].boundary
  {
    hide Linked, OneFate, OneCallFate, Ordered, AllInSlot, Clocked, TimesTaken, TimesHeld, TimesStarted;
    var p :| 0 <= p < |s.taken| && s.taken[p] == s.hands[t];
  }

  /** A slot starts two calls only if the one accepted first had been taken early, by a replaced timer. */
  lemma SlotLaunchedOnce(start: int, steps: seq<Step>, grid: string -> int, k: nat, l: nat)
    requires Uniform(Run(start, steps), grid) && k < |Run(start, steps).launched| && l < |Run(start, steps).launched|
    ensures
      var s := Run(start, steps);
      var x, y := s.launched[k].call, s.launched[l].call;
      && x.index < |s.accepted| && y.index < |s.accepted|
      && (x.index < y.index && SameSlot(s, x.index, y.index) ==> x.how == StaleTimer && x.at < s.accepted[x.index].boundary)
  {
    hide Run;
    RunTimed(start, steps, grid);
    RunHands(start, steps);
    TakenTwice(Run(start, steps), grid, k, l);
  }

  lemma TakenTwice(s: State, grid: string -> int, k: nat, l: nat)
    requires Timed(s, grid) && Handed(s) && k < |s.launched| && l < |s.launched|
    ensures
      var x, y := s.launched[k].call, s.launched[l].call;
      && x.index < |s.accepted| && y.index < |s.accepted|
      && (x.index < y.index && SameSlot(s, x.index, y.index) ==> x.how == StaleTimer && x.at < s.accepted[x.index].boundary)
  {
    hide WellFormed, Linked, OneFate, OneCallFate, AllInSlot, Clocked, TimesTaken, TimesHeld, TimesStarted;
    var x, y := s.launched[k].call, s.launched[l].call;
    var p :| 0 <= p < |s.taken| && s.taken[p] == x;
    var q :| 0 <= q < |s.taken| && s.taken[q] == y;
    if x.index < y.index && SameSlot(s, x.index, y.index) {
      assert AcceptedWellFormed(s, x.index) && AcceptedWellFormed(s, y.index);
      assert KeyOf(s, x.index) == KeyOf(s, y.index);
      assert !OnTime(s, s.taken[p]);
    }
  }

  /** The last call of a slot is never overwritten: it is pending, in a callback's hand, or has started. */
  lemma LastCallOfSlotIsKept(start: int, steps: seq<Step>, grid: string -> int, i: nat)
    requires Uniform(Run(start, steps), grid) && i < |Run(start, steps).accepted|
    requires forall j :: i < j < |Run(start, steps).accepted| ==> !SameSlot(Run(start, steps), i, j)
    ensures Pending(Run(start, steps), i) || TimesHeld(Run(start, steps), i) + TimesStarted(Run(start, steps), i) == 1
  {
    hide Run;
    var s := Run(start, steps);
    RunTimed(start, steps, grid);
    EveryAcceptedCallHasOneFate(start, steps, i);
    if TimesOverwritten(s, i) > 0 {
      OverwrittenInSlot(s, grid, i);
    }
  }

  lemma OverwrittenInSlot(s: State, grid: string -> int, i: nat)
    requires Timed(s, grid) && i < |s.accepted| && TimesOverwritten(s, i) > 0
    ensures exists j :: i < j < |s.accepted| && SameSlot(s, i, j)
  {
    hide Linked, OneFate, OneCallFate, Ordered, Clocked, AllInSlot;
    var k :| 0 <= k < |s.overwritten| && OverwrittenIndices(s.overwritten)[k] == i;
    assert SameSlot(s, i, s.overwritten[k].successor);
  }

  /** From any reachable state a pending call is started by waiting for its timer. */
  lemma PendingCallCanStart(start: int, steps: seq<Step>, e: nat)
    requires e < |Run(start, steps).entries| && Run(start, steps).entries[e].pending.Some?
    ensures
      var s := Run(start, steps);
      exists d, t, l :: Do(Do(Do(Do(s, Tick(d)), Expire(t)), Take(t)), Go(t)).launched == s.launched + [l]
                        && l.call.index == s.entries[e].pending.value && l.call.how == OwnTimer
  {
    hide Run, Do;
    RunKeeps(start, steps);
    var d, t, l := WaitsForTimer(Run(start, steps), e);
  }

  lemma WaitsForTimer(s: State, e: nat) returns (d: nat, t: nat, l: Launch)
    requires Inv(s) && e < |s.entries| && s.entries[e].pending.Some?
    ensures var r := Do(Do(Do(Do(s, Tick(d)), Expire(t)), Take(t)), Go(t)); r.launched == s.launched + [l] && r.accepted == s.accepted
    ensures l.call.index == s.entries[e].pending.value && l.call.how == OwnTimer
  {
    hide OneFate, OneCallFate, Ordered, Logged, DoTake, DoGo;
    assert LinkedEntry(s, e);
    t := s.entries[e].timer.value;
    d := Max(0, s.timers[t].due - s.now);
    var late := Do(s, Tick(d));
    TimeKeeps(s, Tick(d));
    TimeKeeps(late, Expire(t));
    l := TakesThenGoes(Do(late, Expire(t)), t);
  }

  lemma TakesThenGoes(s: State, t: nat) returns (l: Launch)
    requires Inv(s) && t < |s.timers| && s.timers[t].phase == InFlight && s.entries[s.timers[t].entry].pending.Some?
    ensures var r := Do(Do(s, Take(t)), Go(t)); r.launched == s.launched + [l] && r.accepted == s.accepted
    ensures l.call.index == s.entries[s.timers[t].entry].pending.value && l.call.how == Taker(s, t)
  {
    hide WellFormed, Linked, Logged, OneFate, OneCallFate, Ordered, DoTake;
    TakesPending(s, t);
    l := Launch(DoTake(s, t).hands[t], DoTake(s, t).now);
  }
}

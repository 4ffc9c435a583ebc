/**
 What every run of the throttle keeps: a call that was put on the grid is pending under a live timer,
 overwritten by a later call, or taken once, and the calls of a key are taken in the order they were
 accepted. When a taken call is started is the subject of module ThrottleStarts.
 */
module ThrottleFates {
  import opened Text
  import opened Throttle

  // ---------------------------------------------------------------- links between entries, timers and the map

  predicate Live(t: Timer) { t.phase == Armed || t.phase == InFlight }

  ghost predicate LinkedEntry(s: State, e: nat)
    requires WellFormed(s) && e < |s.entries|
  {
    var x := s.entries[e];
    && (x.pending.Some? <==> x.timer.Some?)
    && (x.pending.Some? ==>
          && InMap(s, e)
          && x.epoch.Some?
          && s.accepted[x.pending.value].entry == e
          && s.accepted[x.pending.value].slot == x.slot
          && s.timers[x.timer.value].entry == e
          && Live(s.timers[x.timer.value])
          && s.timers[x.timer.value].due == Max(s.accepted[x.pending.value].at, s.accepted[x.pending.value].boundary))
  }

  /** A timer that has not expired is the one its entry holds: an entry never leaves an armed timer behind. */
  ghost predicate ArmedIsHeld(s: State)
  {
    forall t :: 0 <= t < |s.timers| && s.timers[t].phase == Armed && s.timers[t].entry < |s.entries| ==>
                  s.entries[s.timers[t].entry].timer == Some(t)
  }

  ghost predicate Linked(s: State)
    requires WellFormed(s)
  {
    && (forall e :: 0 <= e < |s.entries| ==> LinkedEntry(s, e))
    && ArmedIsHeld(s)
    && (forall k :: k in s.registry ==> s.entries[s.registry[k]].key == k)
    && (forall c :: c in s.callers && s.callers[c].AtLock? ==> s.entries[s.callers[c].entry].key == s.calls[c].key)
  }

  // ---------------------------------------------------------------- fates

  function TakenIndices(l: seq<Taken>): (r: seq<nat>)
    ensures |r| == |l| && forall k :: 0 <= k < |l| ==> r[k] == l[k].index
  {
    seq(|l|, k requires 0 <= k < |l| => l[k].index)
  }

  function OverwrittenIndices(l: seq<Overwrite>): (r: seq<nat>)
    ensures |r| == |l| && forall k :: 0 <= k < |l| ==> r[k] == l[k].index
  {
    seq(|l|, k requires 0 <= k < |l| => l[k].index)
  }

  function AcceptedCalls(l: seq<Accepted>): (r: seq<nat>)
    ensures |r| == |l| && forall k :: 0 <= k < |l| ==> r[k] == l[k].call
  {
    seq(|l|, k requires 0 <= k < |l| => l[k].call)
  }

  ghost predicate Pending(s: State, i: nat)
    requires i < |s.accepted|
  {
    s.accepted[i].entry < |s.entries| && s.entries[s.accepted[i].entry].pending == Some(i)
  }

  ghost function TimesTaken(s: State, i: nat): nat { multiset(TakenIndices(s.taken))[i] }

  ghost function TimesOverwritten(s: State, i: nat): nat { multiset(OverwrittenIndices(s.overwritten))[i] }

  ghost function Fate(s: State, i: nat): nat
    requires i < |s.accepted|
  {
    (if Pending(s, i) then 1 else 0) + TimesOverwritten(s, i) + TimesTaken(s, i)
  }

  /** What has become of call c: it is running, has given up, or was accepted. */
  ghost function CallFate(s: State, c: nat): nat
  {
    (if c in s.callers then 1 else 0) + multiset(s.gaveUp)[c] + multiset(AcceptedCalls(s.accepted))[c]
  }

  ghost predicate Logged(s: State)
  {
    && (forall k :: 0 <= k < |s.taken| ==> s.taken[k].index < |s.accepted|)
    && (forall k :: 0 <= k < |s.overwritten| ==> s.overwritten[k].index < s.overwritten[k].successor < |s.accepted|)
    && (forall k :: 0 <= k < |s.gaveUp| ==> s.gaveUp[k] < |s.calls|)
    && (forall i :: 0 <= i < |s.accepted| ==> AcceptedWellFormed(s, i))
  }

  ghost predicate AcceptedWellFormed(s: State, i: nat)
    requires i < |s.accepted|
  {
    && s.accepted[i].call < |s.calls|
    && s.accepted[i].entry < |s.entries|
    && s.entries[s.accepted[i].entry].key == s.calls[s.accepted[i].call].key
  }

  ghost predicate OneFate(s: State) { forall i :: 0 <= i < |s.accepted| ==> Fate(s, i) == 1 }

  ghost predicate OneCallFate(s: State) { forall c :: 0 <= c < |s.calls| ==> CallFate(s, c) == 1 }

  // ---------------------------------------------------------------- order

  /** The key an accepted call was made with. */
  function KeyOf(s: State, i: nat): string
    requires i < |s.accepted|
  {
    var a := s.accepted[i];
    if a.call < |s.calls| then s.calls[a.call].key else ""
  }

  /** A call that was taken came before the pending call of its key. */
  ghost predicate TakenBefore(s: State, i: nat, p: nat)
    requires i < |s.accepted| && p < |s.accepted|
  {
    Pending(s, p) && KeyOf(s, i) == KeyOf(s, p) ==> i < p
  }

  ghost predicate Ordered(s: State)
    requires Logged(s)
  {
    && (forall k, l :: 0 <= k < l < |s.taken| && KeyOf(s, s.taken[k].index) == KeyOf(s, s.taken[l].index) ==>
                         s.taken[k].index < s.taken[l].index)
    && (forall k, p :: 0 <= k < |s.taken| && 0 <= p < |s.accepted| ==> TakenBefore(s, s.taken[k].index, p))
  }

  ghost predicate Inv(s: State)
  {
    WellFormed(s) && Linked(s) && Logged(s) && OneFate(s) && OneCallFate(s) && Ordered(s)
  }

  // ---------------------------------------------------------------- the three moves of a lock region

  /** The entry has a pending call and a timer. */
  predicate Holds(s: State, e: nat)
  {
    && e < |s.entries|
    && s.entries[e].pending.Some? && s.entries[e].pending.value < |s.accepted|
    && s.entries[e].timer.Some? && s.entries[e].timer.value < |s.timers|
  }

  lemma PendingHolds(s: State, e: nat)
    requires WellFormed(s) && Linked(s) && e < |s.entries| && s.entries[e].pending.Some?
    ensures Holds(s, e) && InMap(s, e) && s.accepted[s.entries[e].pending.value].entry == e
  {
    assert LinkedEntry(s, e);
  }

  /** What stopping the timer and flushing do to an entry with a pending call. */
  function TakenOff(s: State, e: nat, how: How): State
    requires Holds(s, e)
  {
    var x := s.entries[e];
    var t := x.timer.value;
    var phase := if s.timers[t].phase == Armed then Stopped else s.timers[t].phase;
    s.(entries := s.entries[e := x.(pending := None, slot := -1, timer := None)],
       timers := s.timers[t := s.timers[t].(phase := phase)],
       taken := s.taken + [Taken(x.pending.value, s.now, how)])
  }

  lemma FlushTakesOff(s: State, e: nat, how: How)
    requires WellFormed(s) && Holds(s, e)
    ensures Flush(s, e, how) == TakenOff(s, e, how)
    ensures Flush(StopTimer(s, e), e, how) == TakenOff(s, e, how)
  {
  }

  lemma TakenOffKeepsLinks(s: State, e: nat, how: How)
    requires WellFormed(s) && Linked(s) && Holds(s, e)
    ensures WellFormed(TakenOff(s, e, how)) && Linked(TakenOff(s, e, how))
  {
    var r := TakenOff(s, e, how);
    assert LinkedEntry(s, e);
    forall f | 0 <= f < |r.entries| ensures LinkedEntry(r, f) {
      assert LinkedEntry(s, f);
    }
  }

  lemma TakenOffKeepsFates(s: State, e: nat, how: How)
    requires Inv(s) && Holds(s, e)
    ensures Logged(TakenOff(s, e, how)) && OneFate(TakenOff(s, e, how)) && OneCallFate(TakenOff(s, e, how))
  {
    hide WellFormed, Linked, LinkedEntry, ArmedIsHeld, Ordered;
    var r := TakenOff(s, e, how);
    var p := s.entries[e].pending.value;
    PendingHolds(s, e);
    assert TakenIndices(r.taken) == TakenIndices(s.taken) + [p];
    forall i | 0 <= i < |r.accepted| ensures Fate(r, i) == 1 && AcceptedWellFormed(r, i) {
      assert Fate(s, i) == 1 && AcceptedWellFormed(s, i);
    }
    forall c | 0 <= c < |r.calls| ensures CallFate(r, c) == 1 {
      assert CallFate(s, c) == 1;
    }
  }

  /** A key has at most one pending call. */
  lemma OnePendingPerKey(s: State, p: nat, q: nat)
    requires Inv(s) && p < |s.accepted| && q < |s.accepted| && Pending(s, p) && Pending(s, q) && KeyOf(s, p) == KeyOf(s, q)
    ensures p == q
  {
    hide OneFate, OneCallFate, Ordered, ArmedIsHeld;
    assert AcceptedWellFormed(s, p) && AcceptedWellFormed(s, q);
    assert LinkedEntry(s, s.accepted[p].entry) && LinkedEntry(s, s.accepted[q].entry);
  }

  lemma TakenOffKeepsOrder(s: State, e: nat, how: How)
    requires Inv(s) && Holds(s, e) && Logged(TakenOff(s, e, how))
    ensures Ordered(TakenOff(s, e, how))
  {
    hide WellFormed, Linked, LinkedEntry, OneFate, OneCallFate;
    var r := TakenOff(s, e, how);
    var p := s.entries[e].pending.value;
    PendingHolds(s, e);
    assert Pending(s, p);
    forall k, q | 0 <= k < |r.taken| && 0 <= q < |r.accepted| ensures TakenBefore(r, r.taken[k].index, q) {
      if Pending(r, q) && KeyOf(r, r.taken[k].index) == KeyOf(r, q) {
        assert Pending(s, q);
        if k == |s.taken| {
          OnePendingPerKey(s, p, q);
        } else {
          assert TakenBefore(s, s.taken[k].index, q);
        }
      }
    }
    forall k | 0 <= k < |s.taken| ensures TakenBefore(s, s.taken[k].index, p) {
    }
  }

  lemma TakenOffKeeps(s: State, e: nat, how: How)
    requires Inv(s) && Holds(s, e)
    ensures Inv(TakenOff(s, e, how))
  {
    hide WellFormed, Linked, Logged, OneFate, OneCallFate, Ordered, TakenOff;
    TakenOffKeepsLinks(s, e, how);
    TakenOffKeepsFates(s, e, how);
    TakenOffKeepsOrder(s, e, how);
  }

  /** What placing a call does: it takes over the entry's slot, pending call and timer. */
  function Placed(s: State, c: nat, e: nat, slot: int): State
    requires WellFormed(s) && e < |s.entries| && s.entries[e].epoch.Some?
  {
    var x := s.entries[e];
    var i, boundary := |s.accepted|, Boundary(x.epoch.value, slot, x.period);
    var timers := if x.timer.Some? then s.timers[x.timer.value := Halted(s.timers[x.timer.value])] else s.timers;
    s.(accepted := s.accepted + [Accepted(c, e, slot, s.now, boundary)],
       overwritten := if x.pending.Some? then s.overwritten + [Overwrite(x.pending.value, i)] else s.overwritten,
       callers := s.callers - {c},
       timers := timers + [Timer(e, Max(s.now, boundary), Armed)],
       entries := s.entries[e := x.(slot := slot, pending := Some(i), timer := Some(|s.timers|))])
  }

  function Halted(t: Timer): Timer { if t.phase == Armed then t.(phase := Stopped) else t }

  lemma PlaceIsPlaced(s: State, c: nat, e: nat, slot: int)
    requires WellFormed(s) && e < |s.entries| && s.entries[e].epoch.Some?
    ensures Place(s, c, e, slot) == Placed(s, c, e, slot)
  {
  }

  lemma PlacedKeepsLinks(s: State, c: nat, e: nat, slot: int)
    requires WellFormed(s) && Linked(s) && e < |s.entries| && s.entries[e].epoch.Some? && InMap(s, e)
    ensures WellFormed(Placed(s, c, e, slot)) && Linked(Placed(s, c, e, slot))
  {
    var r := Placed(s, c, e, slot);
    assert LinkedEntry(s, e);
    forall f | 0 <= f < |r.entries| ensures LinkedEntry(r, f) {
      assert LinkedEntry(s, f);
    }
  }

  lemma PlacedKeepsFates(s: State, c: nat, e: nat, slot: int)
    requires Inv(s) && e < |s.entries| && s.entries[e].epoch.Some? && InMap(s, e)
    requires c in s.callers && s.entries[e].key == s.calls[c].key
    ensures Logged(Placed(s, c, e, slot)) && OneFate(Placed(s, c, e, slot)) && OneCallFate(Placed(s, c, e, slot))
  {
    hide Linked, ArmedIsHeld, Ordered;
    var r := Placed(s, c, e, slot);
    var n := |s.accepted|;
    if s.entries[e].pending.Some? {
      PendingHolds(s, e);
      assert OverwrittenIndices(r.overwritten) == OverwrittenIndices(s.overwritten) + [s.entries[e].pending.value];
    }
    assert AcceptedCalls(r.accepted) == AcceptedCalls(s.accepted) + [c];
    NotYet(s, n);
    forall i | 0 <= i < |r.accepted| ensures Fate(r, i) == 1 && AcceptedWellFormed(r, i) {
      if i < n {
        assert Fate(s, i) == 1 && AcceptedWellFormed(s, i);
      }
    }
    forall d | 0 <= d < |r.calls| ensures CallFate(r, d) == 1 {
      assert CallFate(s, d) == 1;
    }
  }

  lemma NotYet(s: State, n: nat)
    requires Logged(s) && n == |s.accepted|
    ensures TimesTaken(s, n) == 0 && TimesOverwritten(s, n) == 0
  {
    assert n !in TakenIndices(s.taken) && n !in OverwrittenIndices(s.overwritten);
  }

  lemma PlacedKeepsOrder(s: State, c: nat, e: nat, slot: int)
    requires Inv(s) && e < |s.entries| && s.entries[e].epoch.Some? && Logged(Placed(s, c, e, slot))
    ensures Ordered(Placed(s, c, e, slot))
  {
    hide WellFormed, Linked, LinkedEntry, OneFate, OneCallFate;
    var r := Placed(s, c, e, slot);
    forall i | 0 <= i < |s.accepted| ensures KeyOf(r, i) == KeyOf(s, i) {
    }
    forall k, q | 0 <= k < |r.taken| && 0 <= q < |r.accepted| ensures TakenBefore(r, r.taken[k].index, q) {
      if q < |s.accepted| {
        assert TakenBefore(s, s.taken[k].index, q);
      }
    }
  }

  lemma PlacedKeeps(s: State, c: nat, e: nat, slot: int)
    requires Inv(s) && e < |s.entries| && s.entries[e].epoch.Some? && InMap(s, e)
    requires c in s.callers && s.entries[e].key == s.calls[c].key
    ensures Inv(Placed(s, c, e, slot))
  {
    hide WellFormed, Linked, Logged, OneFate, OneCallFate, Ordered, Placed;
    PlacedKeepsLinks(s, c, e, slot);
    PlacedKeepsFates(s, c, e, slot);
    PlacedKeepsOrder(s, c, e, slot);
  }

  // ---------------------------------------------------------------- changes that touch no call

  /** The same calls, accepted calls, logs and pending calls. */
  ghost predicate SameCalls(s: State, r: State)
  {
    && r.calls == s.calls && r.accepted == s.accepted && r.overwritten == s.overwritten && r.taken == s.taken
    && |s.entries| <= |r.entries|
    && (forall e :: 0 <= e < |s.entries| ==> r.entries[e].key == s.entries[e].key && r.entries[e].pending == s.entries[e].pending)
    && (forall e :: |s.entries| <= e < |r.entries| ==> r.entries[e].pending == None)
  }

  ghost predicate SameCallFates(s: State, r: State)
    requires r.calls == s.calls
  {
    && (forall k :: 0 <= k < |r.gaveUp| ==> r.gaveUp[k] < |r.calls|)
    && (forall c :: 0 <= c < |s.calls| ==>
                      (if c in r.callers then 1 else 0) + multiset(r.gaveUp)[c] == (if c in s.callers then 1 else 0) + multiset(s.gaveUp)[c])
  }

  lemma SameCallsKeepFates(s: State, r: State)
    requires Inv(s) && SameCalls(s, r) && SameCallFates(s, r)
    ensures Logged(r) && OneFate(r) && OneCallFate(r)
  {
    hide WellFormed, Linked, Ordered;
    forall i | 0 <= i < |r.accepted| ensures AcceptedWellFormed(r, i) && Fate(r, i) == 1 {
      assert AcceptedWellFormed(s, i) && Fate(s, i) == 1;
    }
    forall c | 0 <= c < |r.calls| ensures CallFate(r, c) == 1 {
      assert CallFate(s, c) == 1;
    }
  }

  lemma SameCallsKeepOrder(s: State, r: State)
    requires Inv(s) && SameCalls(s, r) && Logged(r)
    ensures Ordered(r)
  {
    hide WellFormed, Linked, OneFate, OneCallFate;
    forall k, q | 0 <= k < |r.taken| && 0 <= q < |r.accepted| ensures TakenBefore(r, r.taken[k].index, q) {
      assert AcceptedWellFormed(s, q) && TakenBefore(s, s.taken[k].index, q);
    }
  }

  lemma SameCallsKeep(s: State, r: State)
    requires Inv(s) && SameCalls(s, r) && SameCallFates(s, r)
    ensures Logged(r) && OneFate(r) && OneCallFate(r) && Ordered(r)
  {
    hide Inv, SameCallFates, Logged, OneFate, OneCallFate, Ordered;
    SameCallsKeepFates(s, r);
    SameCallsKeepOrder(s, r);
  }

  lemma SameCallersKeep(s: State, r: State)
    requires Inv(s) && SameCalls(s, r) && r.gaveUp == s.gaveUp && r.callers.Keys == s.callers.Keys
    ensures Logged(r) && OneFate(r) && OneCallFate(r) && Ordered(r)
  {
    hide WellFormed, Linked, OneFate, OneCallFate, Ordered;
    assert forall c :: c in r.callers <==> c in s.callers.Keys;
    SameCallsKeep(s, r);
  }

  lemma OnGridKeeps(s: State, e: nat, period: int)
    requires Inv(s) && e < |s.entries|
    ensures Inv(OnGrid(s, e, period))
  {
    hide Ordered, OneFate, OneCallFate, Logged, LinkedEntry;
    var r := OnGrid(s, e, period);
    SameCallersKeep(s, r);
    SameEntriesKeepLinks(s, r);
  }

  /** Links do not depend on the clock, on periods, or on callbacks that no entry is waiting for. */
  lemma SameEntriesKeepLinks(s: State, r: State)
    requires WellFormed(s) && WellFormed(r) && Linked(s)
    requires |r.entries| == |s.entries| && r.registry == s.registry && r.accepted == s.accepted && r.calls == s.calls
    requires |r.timers| == |s.timers|
    requires forall t :: 0 <= t < |s.timers| ==> r.timers[t] == s.timers[t] || Retired(s, t, r.timers[t])
    requires forall e :: 0 <= e < |s.entries| ==> SameButGrid(s.entries[e], r.entries[e])
    requires forall c :: c in r.callers && r.callers[c].AtLock? ==> r.entries[r.callers[c].entry].key == r.calls[c].key
    ensures Linked(r)
  {
    forall f | 0 <= f < |r.entries| ensures LinkedEntry(r, f) {
      assert LinkedEntry(s, f) && SameButGrid(s.entries[f], r.entries[f]);
    }
  }

  predicate SameButGrid(x: Entry, y: Entry)
  {
    && y.key == x.key && y.pending == x.pending && y.timer == x.timer && y.slot == x.slot
    && (x.epoch.Some? ==> y.epoch == x.epoch)
  }

  /** An expired timer, or the callback of one its entry no longer holds. */
  ghost predicate Retired(s: State, t: nat, u: Timer)
    requires t < |s.timers|
  {
    var x := s.timers[t];
    && u.entry == x.entry && u.due == x.due
    && x.entry < |s.entries|
    && ((u.phase == InFlight && x.phase == Armed) || (u.phase == Done && s.entries[x.entry].timer != Some(t)))
  }

  lemma DoneKeeps(s: State, t: nat)
    requires Inv(s) && t < |s.timers| && s.timers[t].phase == InFlight && s.entries[s.timers[t].entry].timer != Some(t)
    ensures Inv(s.(timers := s.timers[t := s.timers[t].(phase := Done)]))
  {
    hide Ordered, OneFate, OneCallFate, Logged, LinkedEntry;
    var r := s.(timers := s.timers[t := s.timers[t].(phase := Done)]);
    SameCallersKeep(s, r);
    SameEntriesKeepLinks(s, r);
  }

  lemma RetryKeeps(s: State, c: nat, attempt: nat)
    requires Inv(s) && c in s.callers
    ensures Inv(Retry(s, c, attempt))
  {
    hide Ordered, OneFate, OneCallFate, LinkedEntry;
    var r := Retry(s, c, attempt);
    SameEntriesKeepLinks(s, r);
    SameCallsKeep(s, r);
  }

  // ---------------------------------------------------------------- steps and runs

  lemma AcceptKeeps(s: State, c: nat, e: nat, period: int)
    requires Inv(s) && e < |s.entries| && period > 0 && InMap(s, e)
    requires c in s.callers && s.entries[e].key == s.calls[c].key
    ensures Inv(Accept(s, c, e, period))
  {
    hide WellFormed, Linked, Logged, OneFate, OneCallFate, Ordered, Place, Placed, TakenOff, Flush, StopTimer, SlotOf;
    var g := OnGrid(s, e, period);
    OnGridKeeps(s, e, period);
    var slot := SlotOf(g, e, period);
    var l := LeaveSlot(g, e, slot);
    if g.entries[e].pending.Some? && slot > g.entries[e].slot {
      PendingHolds(g, e);
      FlushTakesOff(g, e, LaterSlot);
      TakenOffKeeps(g, e, LaterSlot);
      TakenOffFrame(g, e, LaterSlot);
      HandsKeep(TakenOff(g, e, LaterSlot), g.hands, l.launched);
    }
    PlaceIsPlaced(l, c, e, slot);
    PlacedKeeps(l, c, e, slot);
  }

  lemma TakenOffFrame(s: State, e: nat, how: How)
    requires Holds(s, e)
    ensures var r := TakenOff(s, e, how);
            && r.callers == s.callers && r.calls == s.calls && r.registry == s.registry
            && r.hands == s.hands && r.launched == s.launched && r.now == s.now
    ensures var r := TakenOff(s, e, how);
            && |r.entries| == |s.entries| && r.entries[e].key == s.entries[e].key && r.entries[e].timer == None
            && |r.timers| == |s.timers|
            && (forall t :: 0 <= t < |s.timers| ==> r.timers[t] == s.timers[t] || s.timers[t].phase == Armed)
  {
  }

  lemma SetIfAbsentKeeps(s: State, c: nat)
    requires Inv(s)
    ensures Inv(DoSetIfAbsent(s, c))
  {
    hide OneFate, OneCallFate, Ordered, Logged;
    var r := DoSetIfAbsent(s, c);
    SameCallersKeep(s, r);
    forall f | 0 <= f < |r.entries| ensures LinkedEntry(r, f) {
      if f < |s.entries| {
        assert LinkedEntry(s, f);
      }
    }
  }

  lemma GetKeeps(s: State, c: nat)
    requires Inv(s)
    ensures Inv(DoGet(s, c))
  {
    hide OneFate, OneCallFate, Ordered, Logged, Retry, LinkedEntry;
    if c in s.callers && s.callers[c].AtGet? {
      if s.calls[c].key !in s.registry {
        RetryKeeps(s, c, s.callers[c].attempt);
      } else {
        SameCallersKeep(s, DoGet(s, c));
        SameEntriesKeepLinks(s, DoGet(s, c));
      }
    }
  }

  lemma LockedKeeps(s: State, c: nat)
    requires Inv(s)
    ensures Inv(DoLocked(s, c))
  {
    hide OneFate, OneCallFate, Ordered, Logged, Retry, LinkedEntry, Accept;
    if c in s.callers && s.callers[c].AtLock? {
      var e, call := s.callers[c].entry, s.calls[c];
      if call.key !in s.registry || s.registry[call.key] != e {
        RetryKeeps(s, c, s.callers[c].attempt);
      } else {
        AcceptKeeps(s, c, e, call.period);
      }
    }
  }

  /** What becomes of the calls on the grid does not depend on the calls in hand and those started. */
  lemma HandsKeep(s: State, hands: map<nat, Taken>, launched: seq<Launch>)
    requires Inv(s)
    ensures Inv(s.(hands := hands, launched := launched))
  {
    hide Ordered, OneFate, OneCallFate, Logged, LinkedEntry;
    var r := s.(hands := hands, launched := launched);
    SameCallersKeep(s, r);
    SameEntriesKeepLinks(s, r);
  }

  /** What a callback with the lock does: its timer is done and the pending call, if any, is in its hand. */
  lemma TakeIsTakenOff(s: State, t: nat)
    requires WellFormed(s) && Linked(s) && t < |s.timers| && s.timers[t].phase == InFlight
    ensures
      var e, how := s.timers[t].entry, Taker(s, t);
      match s.entries[e].pending
      case None => s.entries[e].timer == None && DoTake(s, t) == s.(timers := s.timers[t := s.timers[t].(phase := Done)])
      case Some(i) =>
        && Holds(s, e)
        && var l := TakenOff(s, e, how);
           DoTake(s, t) == l.(timers := l.timers[t := l.timers[t].(phase := Done)], hands := s.hands[t := Taken(i, s.now, how)])
  {
    hide Flush, StopTimer, ArmedIsHeld;
    var e, how := s.timers[t].entry, Taker(s, t);
    var d := s.(timers := s.timers[t := s.timers[t].(phase := Done)]);
    assert LinkedEntry(s, e);
    DoneWellFormed(s, t);
    if s.entries[e].pending.None? {
      NothingToFlush(d, e, how);
    } else {
      FlushTakesOff(d, e, how);
      var l := TakenOff(s, e, how);
      assert TakenOff(d, e, how).timers == l.timers[t := l.timers[t].(phase := Done)];
    }
  }

  lemma DoneWellFormed(s: State, t: nat)
    requires WellFormed(s) && t < |s.timers|
    ensures WellFormed(s.(timers := s.timers[t := s.timers[t].(phase := Done)]))
  {
  }

  lemma TakeKeeps(s: State, t: nat)
    requires Inv(s)
    ensures Inv(DoTake(s, t))
  {
    hide Linked, OneFate, OneCallFate, Ordered, Logged, DoTake, TakenOff, Taker;
    if t < |s.timers| && s.timers[t].phase == InFlight {
      var e, how := s.timers[t].entry, Taker(s, t);
      TakeIsTakenOff(s, t);
      if s.entries[e].pending.None? {
        DoneKeeps(s, t);
      } else {
        var l := TakenOff(s, e, how);
        TakenOffKeeps(s, e, how);
        TakenOffFrame(s, e, how);
        DoneKeeps(l, t);
        HandsKeep(l.(timers := l.timers[t := l.timers[t].(phase := Done)]), DoTake(s, t).hands, s.launched);
      }
    } else {
      NotInFlight(s, t);
    }
  }

  lemma NotInFlight(s: State, t: nat)
    requires WellFormed(s) && (t >= |s.timers| || s.timers[t].phase != InFlight)
    ensures DoTake(s, t) == s
  {
  }

  lemma GoKeeps(s: State, t: nat)
    requires Inv(s)
    ensures Inv(DoGo(s, t))
  {
    hide Inv;
    if t in s.hands {
      HandsKeep(s, s.hands - {t}, s.launched + [Launch(s.hands[t], s.now)]);
    }
  }

  lemma NothingToFlush(s: State, e: nat, how: How)
    requires WellFormed(s) && e < |s.entries| && s.entries[e].pending.None?
    ensures Flush(s, e, how) == s
  {
  }

  lemma InvokeKeeps(s: State, key: string, period: int, nilCall: bool)
    requires Inv(s)
    ensures Inv(DoInvoke(s, key, period, nilCall))
  {
    hide WellFormed, Linked, Logged, OneFate, OneCallFate, Ordered;
    var r := DoInvoke(s, key, period, nilCall);
    if r != s {
      InvokeKeepsLinks(s, r);
      InvokeKeepsFates(s, r);
      InvokeKeepsOrder(s, r);
    }
  }

  lemma InvokeKeepsLinks(s: State, r: State)
    requires WellFormed(s) && WellFormed(r) && Linked(s) && r.accepted == s.accepted && r.entries == s.entries && r.timers == s.timers
    requires r.registry == s.registry && s.calls <= r.calls && r.callers == s.callers[|s.calls| := AtMap(0)]
    ensures Linked(r)
  {
    forall f | 0 <= f < |r.entries| ensures LinkedEntry(r, f) {
      assert LinkedEntry(s, f);
    }
  }

  lemma InvokeKeepsFates(s: State, r: State)
    requires Inv(s) && |r.calls| == |s.calls| + 1 && s.calls <= r.calls && r.callers == s.callers[|s.calls| := AtMap(0)]
    requires r.entries == s.entries && r.accepted == s.accepted && r.overwritten == s.overwritten
    requires r.taken == s.taken && r.gaveUp == s.gaveUp
    ensures Logged(r) && OneFate(r) && OneCallFate(r)
    ensures forall i :: 0 <= i < |r.accepted| ==> KeyOf(r, i) == KeyOf(s, i)
  {
    hide Linked, Ordered;
    forall i | 0 <= i < |r.accepted| ensures AcceptedWellFormed(r, i) && KeyOf(r, i) == KeyOf(s, i) && Fate(r, i) == 1 {
      assert AcceptedWellFormed(s, i) && Fate(s, i) == 1;
    }
    NoFateYet(s);
    forall c | 0 <= c < |r.calls| ensures CallFate(r, c) == 1 {
      assert c < |s.calls| ==> CallFate(s, c) == 1;
    }
  }

  lemma NoFateYet(s: State)
    requires Logged(s)
    ensures |s.calls| !in AcceptedCalls(s.accepted) && |s.calls| !in s.gaveUp
  {
    forall i | 0 <= i < |s.accepted| ensures AcceptedCalls(s.accepted)[i] < |s.calls| {
      assert AcceptedWellFormed(s, i);
    }
  }

  lemma InvokeKeepsOrder(s: State, r: State)
    requires Logged(s) && Logged(r) && Ordered(s)
    requires r.accepted == s.accepted && r.taken == s.taken && r.entries == s.entries
    requires forall i :: 0 <= i < |r.accepted| ==> KeyOf(r, i) == KeyOf(s, i)
    ensures Ordered(r)
  {
    forall k, q | 0 <= k < |r.taken| && 0 <= q < |r.accepted| ensures TakenBefore(r, r.taken[k].index, q) {
      assert TakenBefore(s, s.taken[k].index, q);
    }
  }

  lemma RemoveKeeps(s: State, e: nat)
    requires Inv(s)
    ensures Inv(DoRemoveIfIdle(s, e))
  {
    hide OneFate, OneCallFate, Ordered, Logged;
    var r := DoRemoveIfIdle(s, e);
    SameCallersKeep(s, r);
    forall f | 0 <= f < |r.entries| ensures LinkedEntry(r, f) {
      assert LinkedEntry(s, f);
    }
  }

  lemma TimeKeeps(s: State, step: Step)
    requires Inv(s) && (step.Tick? || step.Expire?)
    ensures Inv(Do(s, step))
  {
    hide OneFate, OneCallFate, Ordered, Logged, LinkedEntry;
    SameCallersKeep(s, Do(s, step));
    SameEntriesKeepLinks(s, Do(s, step));
  }

  lemma StepKeeps(s: State, step: Step)
    requires Inv(s)
    ensures Inv(Do(s, step))
  {
    hide Inv, DoInvoke, DoSetIfAbsent, DoGet, DoLocked, DoExpire, DoTake, DoGo, DoRemoveIfIdle;
    match step
    case Tick(_) => TimeKeeps(s, step);
    case Invoke(key, period, nilCall) => InvokeKeeps(s, key, period, nilCall);
    case SetIfAbsent(c) => SetIfAbsentKeeps(s, c);
    case Get(c) => GetKeeps(s, c);
    case Locked(c) => LockedKeeps(s, c);
    case Expire(_) => TimeKeeps(s, step);
    case Take(t) => TakeKeeps(s, t);
    case Go(t) => GoKeeps(s, t);
    case RemoveIfIdle(e) => RemoveKeeps(s, e);
  }

  lemma {:induction false} RunKeeps(start: int, steps: seq<Step>)
    ensures Inv(Run(start, steps))
  {
    if steps != [] {
      RunKeeps(start, steps[..|steps| - 1]);
      StepKeeps(Run(start, steps[..|steps| - 1]), steps[|steps| - 1]);
    }
  }

  // ---------------------------------------------------------------- theorems

  /** Every call that was not refused is still trying, has given up, or was accepted once. */
  lemma EveryCallIsAcceptedOnce(start: int, steps: seq<Step>, c: nat)
    requires c < |Run(start, steps).calls|
    ensures CallFate(Run(start, steps), c) == 1
  {
    RunKeeps(start, steps);
  }

  /**
   A pending call is held by an entry that is in the map, under a timer that will still fire, at the right end of
   the call's slot, or at once when that had passed when the call was accepted.
   */
  lemma PendingHasLiveTimer(start: int, steps: seq<Step>, e: nat)
    requires e < |Run(start, steps).entries|
    ensures var s := Run(start, steps);
            s.entries[e].pending.Some? ==>
              && InMap(s, e)
              && s.entries[e].timer.Some? && s.entries[e].timer.value < |s.timers|
              && s.timers[s.entries[e].timer.value].entry == e
              && Live(s.timers[s.entries[e].timer.value])
              && s.entries[e].pending.value < |s.accepted|
              && var a := s.accepted[s.entries[e].pending.value];
                 s.timers[s.entries[e].timer.value].due == if a.at < a.boundary then a.boundary else a.at
  {
    RunKeeps(start, steps);
    assert LinkedEntry(Run(start, steps), e);
  }

  /** Across removal and recreation, a key never has two pending calls. */
  lemma OneLiveEntryPerKey(start: int, steps: seq<Step>, e: nat, f: nat)
    requires e < |Run(start, steps).entries| && f < |Run(start, steps).entries|
    requires Run(start, steps).entries[e].key == Run(start, steps).entries[f].key
    requires Run(start, steps).entries[e].pending.Some? && Run(start, steps).entries[f].pending.Some?
    ensures e == f
  {
    PendingHasLiveTimer(start, steps, e);
    PendingHasLiveTimer(start, steps, f);
  }

  /** The calls of a key are taken off its entries in the order they were accepted, whatever the interleaving. */
  lemma TakesFollowAcceptance(start: int, steps: seq<Step>, k: nat, l: nat)
    requires k < l < |Run(start, steps).taken|
    ensures var s := Run(start, steps);
            && s.taken[k].index < |s.accepted| && s.taken[l].index < |s.accepted|
            && (KeyOf(s, s.taken[k].index) == KeyOf(s, s.taken[l].index) ==> s.taken[k].index < s.taken[l].index)
  {
    RunKeeps(start, steps);
  }
}

/**
 The throttle as the program runs it: entries are objects with fields, reached through a shared map. A
 method is one region that runs under an entry's lock, one access to the map or one start of a call, and
 does exactly what a step of module Throttle does; a callback or call that nothing interrupts is a
 method that runs such regions in order.
 */
module ThrottleGrid {
  import opened Text
  import opened Throttle

  class GridEntry {
    const id: nat       // its place in the order of creation
    const key: string
    var epoch: Option<int>
    var period: int
    var pendingSlot: int
    var pendingCall: Option<nat>
    var timer: Option<nat>

    constructor (id: nat, key: string)
      ensures this.id == id && Value() == Entry(key, None, 0, -1, None, None)
    {
      this.id, this.key := id, key;
      epoch, period, pendingSlot, pendingCall, timer := None, 0, -1, None, None;
    }

    function Value(): Entry
      reads this
    {
      Entry(key, epoch, period, pendingSlot, pendingCall, timer)
    }

    // -------------------------------------------------------------- timers

    method StopTimer(g: Grid)
      requires g.Valid() && g.Has(this)
      modifies this`timer, g`timers
      ensures g.Valid() && g.State() == Throttle.StopTimer(old(g.State()), id)
    {
      if timer == None {
        return;
      }
      var t := timer.value;
      if g.timers[t].phase == Armed {
        g.timers := g.timers[t := g.timers[t].(phase := Stopped)];
      }
      timer := None;
      g.OnlyChanged(this, old(g.State()));
    }

    method ScheduleSlotEnd(g: Grid, slot: int)
      requires g.Valid() && g.Has(this) && epoch.Some?
      modifies this`timer, g`timers
      ensures g.Valid() && g.State() == Schedule(old(g.State()), id, slot)
    {
      StopTimer(g);
      label stopped:
      var deadline := epoch.value + (slot + 1) * period;
      var d := deadline - g.now;
      if d < 0 {
        d := 0;
      }
      timer := Some(|g.timers|);
      g.timers := g.timers + [Timer(id, g.now + d, Armed)];
      g.OnlyChanged(this, old@stopped(g.State()));
    }

    // -------------------------------------------------------------- pending calls

    /** Takes the pending call out, for the caller to start. */
    method FlushPending(g: Grid, how: How) returns (fn: Option<nat>)
      requires g.Valid() && g.Has(this)
      modifies this`pendingCall, this`pendingSlot, this`timer, g`timers, g`taken
      ensures g.Valid() && fn == old(pendingCall)
      ensures g.State() == Flush(old(g.State()), id, how)
    {
      if pendingCall == None {
        return None;
      }
      fn := pendingCall;
      g.taken := g.taken + [Taken(fn.value, g.now, how)];
      pendingCall := None;
      pendingSlot := -1;
      g.OnlyChanged(this, old(g.State()));
      StopTimer(g);
    }

    /** The callback of timer t under the lock: what it takes out is in its hand when it leaves the lock. */
    method TakeOnFire(g: Grid, t: nat) returns (fn: Option<nat>)
      requires g.Valid() && g.Has(this)
      requires t < |g.timers| && g.timers[t].entry == id && g.timers[t].phase == InFlight
      modifies this`pendingCall, this`pendingSlot, this`timer, g`timers, g`taken, g`hands
      ensures g.Valid() && fn == old(pendingCall) && g.State() == DoTake(old(g.State()), t)
    {
      hide Flush, DoTake, WellFormed;
      ghost var s := g.State();
      TakeParts(s, t);
      var how := if timer == Some(t) then OwnTimer else StaleTimer;
      g.timers := g.timers[t := g.timers[t].(phase := Done)];
      assert g.State() == s.(timers := s.timers[t := s.timers[t].(phase := Done)]);
      if pendingCall == None {
        return None;
      }
      fn := FlushPending(g, how);
      g.InHand(t, Taken(fn.value, g.now, how));
    }

    /** The callback of timer t, which has no call in hand yet, when nothing interrupts it. */
    method OnSlotTimerFire(g: Grid, t: nat)
      requires g.Valid() && g.Has(this) && t !in g.hands
      requires t < |g.timers| && g.timers[t].entry == id && g.timers[t].phase == InFlight
      modifies this`pendingCall, this`pendingSlot, this`timer, g`timers, g`taken, g`hands, g`launched, g`registry
      ensures g.Valid() && g.State() == DoRemoveIfIdle(DoGo(DoTake(old(g.State()), t), t), id)
    {
      hide DoTake, WellFormed, Flush, DoRemoveIfIdle;
      TakeParts(g.State(), t);
      var fn := TakeOnFire(g, t);
      if fn.None? {
        RemoveIfIdle(g);
        return;
      }
      g.Go(t);
      RemoveIfIdle(g);
    }

    method RemoveIfIdle(g: Grid)
      requires g.Valid() && g.Has(this)
      modifies g`registry
      ensures g.Valid() && g.State() == DoRemoveIfIdle(old(g.State()), id)
    {
      hide WellFormed;
      if pendingCall.Some? || timer.Some? {
        return;
      }
      if key !in g.registry || g.registry[key] != this {
        return;
      }
      ghost var s := g.State();
      g.Unregister(key);
      assert g.State() == DoRemoveIfIdle(s, id);
    }

    // -------------------------------------------------------------- accepting a call

    method EnterGrid(g: Grid, period: int)
      requires g.Valid() && g.Has(this)
      modifies this`epoch, this`period
      ensures g.Valid() && g.State() == OnGrid(old(g.State()), id, period)
    {
      if epoch == None {
        epoch := Some(g.now);
        this.period := period;
      }
      if this.period != period {
        this.period := period;
      }
      g.OnlyChanged(this, old(g.State()));
    }

    /** A call in a later slot takes the pending one out and starts it, both under the lock. */
    method StartEarlierSlot(g: Grid, slot: int)
      requires g.Valid() && g.Has(this)
      modifies this`pendingCall, this`pendingSlot, this`timer, g`timers, g`taken, g`launched
      ensures g.Valid() && g.State() == LeaveSlot(old(g.State()), id, slot)
    {
      hide Flush, Throttle.StopTimer, WellFormed;
      if pendingCall.Some? && slot > pendingSlot {
        StopKeepsPending(g.State(), id);
        StopTimer(g);
        var fn := FlushPending(g, LaterSlot);
        if fn.Some? {
          g.Begin(Taken(fn.value, g.now, LaterSlot));
        }
      }
    }

    method Pend(g: Grid, c: nat, slot: int)
      requires g.Valid() && g.Has(this) && epoch.Some?
      modifies this`pendingCall, this`pendingSlot, this`timer, g`timers, g`accepted, g`overwritten, g`callers
      ensures g.Valid() && g.State() == Place(old(g.State()), c, id, slot)
    {
      hide Schedule;
      ghost var s := g.State();
      g.Log(c, this, slot);
      pendingSlot := slot;
      pendingCall := Some(|g.accepted| - 1);
      g.OnlyChanged(this, s);
      ScheduleSlotEnd(g, slot);
    }

    /** The part of a call that runs once its entry is known to be the one in the map. */
    method Accept(g: Grid, c: nat, period: int)
      requires g.Valid() && g.Has(this) && period > 0
      modifies this, g`timers, g`taken, g`launched, g`accepted, g`overwritten, g`callers
      ensures g.Valid() && g.State() == Throttle.Accept(old(g.State()), c, id, period)
    {
      hide LeaveSlot, Place, WellFormed;
      EnterGrid(g, period);
      var elapsed := g.now - epoch.value;
      if elapsed < 0 {
        elapsed := 0;
      }
      var slot := elapsed / period;
      assert slot == SlotOf(g.State(), id, period);
      label entered:
      StartEarlierSlot(g, slot);
      assert g.State() == LeaveSlot(old@entered(g.State()), id, slot);
      Pend(g, c, slot);
    }
  }

  /** The records that a call leaves when it is put into its slot. */
  function Logs(s: State, c: nat, e: nat, slot: int): State
    requires e < |s.entries| && s.entries[e].epoch.Some?
  {
    var x := s.entries[e];
    s.(accepted := s.accepted + [Accepted(c, e, slot, s.now, Boundary(x.epoch.value, slot, x.period))],
       overwritten := if x.pending.Some? then s.overwritten + [Overwrite(x.pending.value, |s.accepted|)] else s.overwritten,
       callers := s.callers - {c})
  }

  lemma LogsWellFormed(s: State, c: nat, e: nat, slot: int)
    requires WellFormed(s) && e < |s.entries| && s.entries[e].epoch.Some?
    ensures WellFormed(Logs(s, c, e, slot))
  {
  }

  /** A callback's region under the lock is the end of its timer, the flush and the move into its hand. */
  lemma TakeParts(s: State, t: nat)
    requires WellFormed(s) && t < |s.timers| && s.timers[t].phase == InFlight
    ensures
      var d := s.(timers := s.timers[t := s.timers[t].(phase := Done)]);
      var e, how := s.timers[t].entry, Taker(s, t);
      && WellFormed(d)
      && match s.entries[e].pending
         case None => DoTake(s, t) == d
         case Some(i) => DoTake(s, t) == Flush(d, e, how).(hands := s.hands[t := Taken(i, s.now, how)])
  {
  }

  lemma StopKeepsPending(s: State, e: nat)
    requires WellFormed(s) && e < |s.entries|
    ensures Throttle.StopTimer(s, e).entries[e].pending == s.entries[e].pending
  {
  }

  /** The shared map, the clock, the timers, the running calls, and the record of what happened. */
  class Grid {
    var now: int
    var registry: map<string, GridEntry>
    var entries: seq<GridEntry>
    var timers: seq<Timer>
    var calls: seq<Call>
    var callers: map<nat, Caller>
    var gaveUp: seq<nat>
    var accepted: seq<Accepted>
    var overwritten: seq<Overwrite>
    var taken: seq<Taken>
    var hands: map<nat, Taken>
    var launched: seq<Launch>

    constructor (now: int)
      ensures Valid() && State() == Start(now)
    {
      this.now := now;
      registry, entries, timers, calls, callers, gaveUp := map[], [], [], [], map[], [];
      accepted, overwritten, taken, hands, launched := [], [], [], map[], [];
    }

    ghost predicate Has(e: GridEntry)
      reads this
    {
      e.id < |entries| && entries[e.id] == e
    }

    ghost function Values(): (r: seq<Entry>)
      reads this, entries
      ensures |r| == |entries| && forall i :: 0 <= i < |entries| ==> r[i] == entries[i].Value()
    {
      seq(|entries|, i requires 0 <= i < |entries| reads this, entries => entries[i].Value())
    }

    ghost function State(): State
      reads this, entries
    {
      Throttle.State(now, map k | k in registry :: registry[k].id, Values(), timers, calls, callers, gaveUp, accepted, overwritten,
                     taken, hands, launched)
    }

    ghost predicate Valid()
      reads this, entries
    {
      && (forall i :: 0 <= i < |entries| ==> entries[i].id == i)
      && (forall k :: k in registry ==> Has(registry[k]))
      && WellFormed(State())
    }

    /** One entry and some of the grid's own fields have changed since state s. */
    lemma OnlyChanged(e: GridEntry, s: State)
      requires Has(e) && |s.entries| == |entries|
      requires forall i :: 0 <= i < |entries| && i != e.id ==> entries[i].Value() == s.entries[i]
      ensures Values() == s.entries[e.id := e.Value()]
    {
    }

    method InHand(t: nat, x: Taken)
      requires Valid()
      modifies this`hands
      ensures Valid() && State() == old(State()).(hands := old(hands)[t := x])
    {
      hands := hands[t := x];
    }

    method Begin(x: Taken)
      requires Valid()
      modifies this`launched
      ensures Valid() && State() == Throttle.Begin(old(State()), x)
    {
      launched := launched + [Launch(x, now)];
    }

    /** The callback of timer t, outside every lock, starts the call in its hand. */
    method Go(t: nat)
      requires Valid() && t in hands
      modifies this`hands, this`launched
      ensures Valid() && State() == DoGo(old(State()), t)
    {
      var x := hands[t];
      hands := hands - {t};
      Begin(x);
    }

    method Log(c: nat, e: GridEntry, slot: int)
      requires Valid() && Has(e) && e.epoch.Some?
      modifies this`accepted, this`overwritten, this`callers
      ensures Valid() && State() == Logs(old(State()), c, e.id, slot)
    {
      hide WellFormed;
      LogsWellFormed(State(), c, e.id, slot);
      if e.pendingCall.Some? {
        overwritten := overwritten + [Overwrite(e.pendingCall.value, |accepted|)];
      }
      accepted := accepted + [Accepted(c, e.id, slot, now, Boundary(e.epoch.value, slot, e.period))];
      callers := callers - {c};
      assert Values() == old(Values());
    }

    // -------------------------------------------------------------- the retry loop, one access at a time

    method NewEntry(key: string) returns (e: GridEntry)
      requires Valid()
      modifies this`registry, this`entries
      ensures fresh(e) && entries == old(entries) + [e] && Has(e)
      ensures Valid() && State() == WithNewEntry(old(State()), key)
    {
      hide WellFormed;
      ghost var s := State();
      NewEntryWellFormed(s, key);
      e := new GridEntry(|entries|, key);
      Append(e);
      Register(e);
      assert State() == WithNewEntry(s, key);
    }

    method Register(e: GridEntry)
      requires Has(e)
      modifies this`registry
      ensures registry == old(registry)[e.key := e] && State() == old(State()).(registry := old(State()).registry[e.key := e.id])
    {
      registry := registry[e.key := e];
      assert Values() == old(Values());
    }

    method Unregister(key: string)
      modifies this`registry
      ensures registry == old(registry) - {key} && State() == old(State()).(registry := old(State()).registry - {key})
    {
      registry := registry - {key};
      assert Values() == old(Values());
    }

    method Append(e: GridEntry)
      requires e.id == |entries| && forall i :: 0 <= i < |entries| ==> entries[i].id == i
      modifies this`entries
      ensures entries == old(entries) + [e] && State() == old(State()).(entries := old(Values()) + [e.Value()])
    {
      entries := entries + [e];
      assert Values() == old(Values()) + [e.Value()];
    }

    method SetIfAbsent(c: nat)
      requires Valid() && c in callers && callers[c].AtMap?
      modifies this`registry, this`entries, this`callers
      ensures forall i :: 0 <= i < |entries| ==> entries[i] in old(entries) || fresh(entries[i])
      ensures Valid() && State() == DoSetIfAbsent(old(State()), c)
    {
      hide WellFormed, WithNewEntry;
      ghost var s := State();
      CallerExists(s, c);
      var key, attempt := calls[c].key, callers[c].attempt;
      if key in registry {
        callers := callers[c := AtGet(attempt)];
        assert State() == DoSetIfAbsent(s, c);
      } else {
        NewEntryStep(s, c);
        var e := NewEntry(key);
        callers := callers[c := AtLock(attempt, e.id)];
        assert State() == DoSetIfAbsent(s, c);
      }
    }

    method Get(c: nat)
      requires Valid() && c in callers && callers[c].AtGet?
      modifies this`callers, this`gaveUp
      ensures Valid() && State() == DoGet(old(State()), c)
    {
      var key, attempt := calls[c].key, callers[c].attempt;
      if key !in registry {
        Again(c, attempt);
      } else {
        callers := callers[c := AtLock(attempt, registry[key].id)];
      }
    }

    method Again(c: nat, attempt: nat)
      requires Valid() && c in callers
      modifies this`callers, this`gaveUp
      ensures Valid() && State() == Retry(old(State()), c, attempt)
    {
      if attempt + 1 < MAX_RETRIES {
        callers := callers[c := AtMap(attempt + 1)];
      } else {
        callers := callers - {c};
        gaveUp := gaveUp + [c];
      }
    }

    /** Under the entry's lock: the entry is used only if it is still the one in the map. */
    method Locked(c: nat)
      requires Valid() && c in callers && callers[c].AtLock?
      modifies this, entries
      ensures Valid() && State() == DoLocked(old(State()), c)
    {
      var e, call := entries[callers[c].entry], calls[c];
      if call.key !in registry || registry[call.key] != e {
        Again(c, callers[c].attempt);
        return;
      }
      e.Accept(this, c, call.period);
    }

    method Invoke(key: string, period: int, nilCall: bool)
      requires Valid()
      modifies this`calls, this`callers
      ensures Valid() && State() == DoInvoke(old(State()), key, period, nilCall)
    {
      if key == "" || nilCall || period <= 0 {
        return;
      }
      callers := callers[|calls| := AtMap(0)];
      calls := calls + [Call(key, period)];
    }

    /** A call that nothing interleaves with. */
    method Trailing(key: string, period: int, nilCall: bool)
      requires Valid()
      modifies this, entries
      ensures Valid() && State() == Alone(old(State()), key, period, nilCall)
    {
      hide WellFormed, DoInvoke, DoSetIfAbsent, DoGet, DoLocked, Grid.Values;
      ghost var s := State();
      AlonePhases(s, key, period, nilCall);
      var c := |calls|;
      Invoke(key, period, nilCall);
      if key == "" || nilCall || period <= 0 {
        return;
      }
      Attempt(c);
    }

    /** The first attempt of a call that nothing interleaves with. */
    method Attempt(c: nat)
      requires Valid() && c in callers && callers[c].AtMap?
      requires var s2 := DoSetIfAbsent(State(), c);
               && c in s2.callers && (s2.callers[c].AtGet? || (s2.callers[c].AtLock? && DoGet(s2, c) == s2))
               && c in DoGet(s2, c).callers && DoGet(s2, c).callers[c].AtLock?
      modifies this, entries
      ensures Valid() && State() == DoLocked(DoGet(DoSetIfAbsent(old(State()), c), c), c)
    {
      hide WellFormed, DoSetIfAbsent, DoGet, DoLocked, Grid.Values;
      SetIfAbsent(c);
      if callers[c].AtGet? {
        Get(c);
      }
      Locked(c);
    }
  }

  function WithNewEntry(s: State, key: string): State
  {
    s.(entries := s.entries + [Entry(key, None, 0, -1, None, None)], registry := s.registry[key := |s.entries|])
  }

  lemma NewEntryWellFormed(s: State, key: string)
    requires WellFormed(s)
    ensures WellFormed(WithNewEntry(s, key))
  {
  }

  lemma CallerExists(s: State, c: nat)
    requires WellFormed(s) && c in s.callers
    ensures c < |s.calls|
  {
  }

  lemma NewEntryStep(s: State, c: nat)
    requires WellFormed(s) && c in s.callers && s.callers[c].AtMap? && c < |s.calls| && s.calls[c].key !in s.registry
    ensures var r := WithNewEntry(s, s.calls[c].key);
            DoSetIfAbsent(s, c) == r.(callers := r.callers[c := AtLock(s.callers[c].attempt, |s.entries|)])
  {
  }

  /** The steps of one call, without any other step between them. */
  function Alone(s: State, key: string, period: int, nilCall: bool): State
    requires WellFormed(s)
  {
    var c := |s.calls|;
    DoLocked(DoGet(DoSetIfAbsent(DoInvoke(s, key, period, nilCall), c), c), c)
  }

  lemma AlonePhases(s: State, key: string, period: int, nilCall: bool)
    requires WellFormed(s)
    ensures
      var c := |s.calls|;
      var s1 := DoInvoke(s, key, period, nilCall);
      var s2 := DoSetIfAbsent(s1, c);
      var s3 := DoGet(s2, c);
      if key == "" || nilCall || period <= 0 then s1 == s && s2 == s && s3 == s && DoLocked(s3, c) == s
      else
        && c in s1.callers && s1.callers[c].AtMap?
        && c in s2.callers && (s2.callers[c].AtGet? || (s2.callers[c].AtLock? && s3 == s2))
        && c in s3.callers && s3.callers[c] == AtLock(0, s3.registry[key]) && key in s3.registry
        && s3.calls == s.calls + [Call(key, period)] && s3.accepted == s.accepted
  {
  }

  /** A call that nothing interleaves with is on the grid after its first attempt. */
  lemma AloneIsAccepted(s: State, key: string, period: int)
    requires WellFormed(s) && key != "" && period > 0
    ensures var r := Alone(s, key, period, false);
            |r.accepted| == |s.accepted| + 1 && r.accepted[|s.accepted|].call == |s.calls|
  {
    hide WellFormed, DoInvoke, DoSetIfAbsent, DoGet;
    AlonePhases(s, key, period, false);
  }
}

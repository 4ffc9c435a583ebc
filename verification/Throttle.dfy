/**
 The fixed-grid trailing throttle as a state machine. Every region the program runs under an entry's
 lock, every access to the shared map, and every start of a call outside a lock is one step; runs are
 arbitrary sequences of steps, and a step that is not possible in a state leaves it alone.
 */
module Throttle {
  import opened Text

  datatype Entry = Entry(key: string, epoch: Option<int>, period: int, slot: int, pending: Option<nat>, timer: Option<nat>)

  /** A timer is in flight when it has expired and its callback has not yet taken the entry's lock. */
  datatype Phase = Armed | Stopped | InFlight | Done

  datatype Timer = Timer(entry: nat, due: int, phase: Phase)

  datatype Call = Call(key: string, period: int)

  /** Where a running call is in its retry loop. */
  datatype Caller = AtMap(attempt: nat) | AtGet(attempt: nat) | AtLock(attempt: nat, entry: nat)

  /** A call that was put on the grid; `boundary` is the right end of its slot. */
  datatype Accepted = Accepted(call: nat, entry: nat, slot: int, at: int, boundary: int)

  datatype Overwrite = Overwrite(index: nat, successor: nat)

  /** What took a call off its entry: the entry's timer, a timer already replaced by another, or a call in a later slot. */
  datatype How = OwnTimer | StaleTimer | LaterSlot

  /** An accepted call that was taken off its entry, under the entry's lock. */
  datatype Taken = Taken(index: nat, at: int, how: How)

  /** The start of a call that was taken. */
  datatype Launch = Launch(call: Taken, at: int)

  datatype State = State(
    now: int,
    registry: map<string, nat>,
    entries: seq<Entry>,
    timers: seq<Timer>,
    calls: seq<Call>,
    callers: map<nat, Caller>,
    gaveUp: seq<nat>,
    accepted: seq<Accepted>,
    overwritten: seq<Overwrite>,
    taken: seq<Taken>,
    hands: map<nat, Taken>,  // for a timer whose callback has left the lock: the call it has yet to start
    launched: seq<Launch>)

  datatype Step =
    | Tick(d: nat)
    | Invoke(key: string, period: int, nilCall: bool)
    | SetIfAbsent(c: nat)
    | Get(c: nat)
    | Locked(c: nat)
    | Expire(t: nat)
    | Take(t: nat)
    | Go(t: nat)
    | RemoveIfIdle(e: nat)

  const MAX_RETRIES: nat := 64

  function Start(now: int): State { State(now, map[], [], [], [], map[], [], [], [], [], map[], []) }

  // ---------------------------------------------------------------- the operations on one entry

  /** Every index that a state mentions exists. */
  ghost predicate WellFormed(s: State)
  {
    && (forall k :: k in s.registry ==> s.registry[k] < |s.entries|)
    && (forall e :: 0 <= e < |s.entries| ==> EntryWellFormed(s, s.entries[e]))
    && (forall t :: 0 <= t < |s.timers| ==> s.timers[t].entry < |s.entries|)
    && (forall c :: c in s.callers ==> c < |s.calls| && (s.callers[c].AtLock? ==> s.callers[c].entry < |s.entries|))
    && (forall c :: 0 <= c < |s.calls| ==> s.calls[c].period > 0)
  }

  ghost predicate EntryWellFormed(s: State, e: Entry)
  {
    && (e.timer.Some? ==> e.timer.value < |s.timers|)
    && (e.pending.Some? ==> e.pending.value < |s.accepted|)
  }

  function StopTimer(s: State, e: nat): (r: State)
    requires WellFormed(s) && e < |s.entries|
    ensures WellFormed(r) && |r.entries| == |s.entries|
    ensures r.entries[e] == s.entries[e].(timer := None)
  {
    match s.entries[e].timer
    case None => s
    case Some(t) =>
      var phase := if s.timers[t].phase == Armed then Stopped else s.timers[t].phase;
      s.(timers := s.timers[t := s.timers[t].(phase := phase)], entries := s.entries[e := s.entries[e].(timer := None)])
  }

  function Boundary(epoch: int, slot: int, period: int): int { epoch + (slot + 1) * period }

  function Max(a: int, b: int): int { if a < b then b else a }

  /** A new timer for the right end of the slot, or for now when that has passed. */
  function Schedule(s: State, e: nat, slot: int): (r: State)
    requires WellFormed(s) && e < |s.entries| && s.entries[e].epoch.Some?
    ensures WellFormed(r)
  {
    var s := StopTimer(s, e);
    var due := Max(s.now, Boundary(s.entries[e].epoch.value, slot, s.entries[e].period));
    s.(timers := s.timers + [Timer(e, due, Armed)], entries := s.entries[e := s.entries[e].(timer := Some(|s.timers|))])
  }

  /** Takes the pending call, if any, off the entry, for the caller to start. */
  function Flush(s: State, e: nat, how: How): (r: State)
    requires WellFormed(s) && e < |s.entries|
    ensures WellFormed(r) && |r.entries| == |s.entries| && r.entries[e].epoch == s.entries[e].epoch
  {
    match s.entries[e].pending
    case None => s
    case Some(i) =>
      var s := s.(entries := s.entries[e := s.entries[e].(pending := None, slot := -1)]);
      StopTimer(s, e).(taken := s.taken + [Taken(i, s.now, how)])
  }

  /** Starts a call that was taken. */
  function Begin(s: State, x: Taken): State { s.(launched := s.launched + [Launch(x, s.now)]) }

  /** The grid of an entry starts at its first call; its period is always that of the latest call. */
  function OnGrid(s: State, e: nat, period: int): (r: State)
    requires WellFormed(s) && e < |s.entries|
    ensures WellFormed(r) && |r.entries| == |s.entries| && r.entries[e].epoch.Some?
  {
    var epoch := if s.entries[e].epoch.None? then s.now else s.entries[e].epoch.value;
    s.(entries := s.entries[e := s.entries[e].(epoch := Some(epoch), period := period)])
  }

  function SlotOf(s: State, e: nat, period: int): int
    requires e < |s.entries| && s.entries[e].epoch.Some? && period > 0
  {
    Max(0, s.now - s.entries[e].epoch.value) / period
  }

  /** Makes call c the entry's pending one, over the one that is pending, and arms its timer. */
  function Place(s: State, c: nat, e: nat, slot: int): (r: State)
    requires WellFormed(s) && e < |s.entries| && s.entries[e].epoch.Some?
    ensures WellFormed(r)
  {
    var i := |s.accepted|;
    var x := s.entries[e];
    var s := s.(
      accepted := s.accepted + [Accepted(c, e, slot, s.now, Boundary(x.epoch.value, slot, x.period))],
      overwritten := if x.pending.Some? then s.overwritten + [Overwrite(x.pending.value, i)] else s.overwritten,
      callers := s.callers - {c},
      entries := s.entries[e := x.(slot := slot, pending := Some(i))]);
    Schedule(s, e, slot)
  }

  function Retry(s: State, c: nat, attempt: nat): State
    requires c in s.callers
  {
    if attempt + 1 < MAX_RETRIES then s.(callers := s.callers[c := AtMap(attempt + 1)])
    else s.(callers := s.callers - {c}, gaveUp := s.gaveUp + [c])
  }

  // ---------------------------------------------------------------- steps

  predicate InMap(s: State, e: nat)
    requires e < |s.entries|
  {
    s.entries[e].key in s.registry && s.registry[s.entries[e].key] == e
  }

  function DoInvoke(s: State, key: string, period: int, nilCall: bool): (r: State)
    requires WellFormed(s)
    ensures WellFormed(r)
  {
    if key == "" || nilCall || period <= 0 then s
    else s.(calls := s.calls + [Call(key, period)], callers := s.callers[|s.calls| := AtMap(0)])
  }

  function DoSetIfAbsent(s: State, c: nat): (r: State)
    requires WellFormed(s)
    ensures WellFormed(r)
  {
    if c !in s.callers || !s.callers[c].AtMap? then s
    else
      var key, attempt := s.calls[c].key, s.callers[c].attempt;
      if key in s.registry then s.(callers := s.callers[c := AtGet(attempt)])
      else
        s.(entries := s.entries + [Entry(key, None, 0, -1, None, None)],
           registry := s.registry[key := |s.entries|],
           callers := s.callers[c := AtLock(attempt, |s.entries|)])
  }

  function DoGet(s: State, c: nat): (r: State)
    requires WellFormed(s)
    ensures WellFormed(r)
  {
    if c !in s.callers || !s.callers[c].AtGet? then s
    else
      var key, attempt := s.calls[c].key, s.callers[c].attempt;
      if key !in s.registry then Retry(s, c, attempt)
      else s.(callers := s.callers[c := AtLock(attempt, s.registry[key])])
  }

  function DoLocked(s: State, c: nat): (r: State)
    requires WellFormed(s)
    ensures WellFormed(r)
  {
    if c !in s.callers || !s.callers[c].AtLock? then s
    else
      var e, call := s.callers[c].entry, s.calls[c];
      if call.key !in s.registry || s.registry[call.key] != e then Retry(s, c, s.callers[c].attempt)
      else Accept(s, c, e, call.period)
  }

  /** A call that is still pending from an earlier slot is taken and, still under the lock, started. */
  function LeaveSlot(s: State, e: nat, slot: int): (r: State)
    requires WellFormed(s) && e < |s.entries|
    ensures WellFormed(r) && |r.entries| == |s.entries| && r.entries[e].epoch == s.entries[e].epoch
  {
    var fn := s.entries[e].pending;
    if fn.Some? && slot > s.entries[e].slot then
      Begin(Flush(StopTimer(s, e), e, LaterSlot), Taken(fn.value, s.now, LaterSlot))
    else s
  }

  function Accept(s: State, c: nat, e: nat, period: int): (r: State)
    requires WellFormed(s) && e < |s.entries| && period > 0
    ensures WellFormed(r)
  {
    var s := OnGrid(s, e, period);
    var slot := SlotOf(s, e, period);
    Place(LeaveSlot(s, e, slot), c, e, slot)
  }

  function DoExpire(s: State, t: nat): (r: State)
    requires WellFormed(s)
    ensures WellFormed(r)
  {
    if t < |s.timers| && s.timers[t].phase == Armed && s.timers[t].due <= s.now then
      s.(timers := s.timers[t := s.timers[t].(phase := InFlight)])
    else s
  }

  /** How the callback of timer t takes its entry's call: the timer may have been replaced since it expired. */
  function Taker(s: State, t: nat): How
    requires WellFormed(s) && t < |s.timers|
  {
    if s.entries[s.timers[t].entry].timer == Some(t) then OwnTimer else StaleTimer
  }

  /** The callback of timer t has its entry's lock, takes the pending call out and leaves the lock with it in hand. */
  function DoTake(s: State, t: nat): (r: State)
    requires WellFormed(s)
    ensures WellFormed(r)
  {
    if t >= |s.timers| || s.timers[t].phase != InFlight then s
    else
      var e, how := s.timers[t].entry, Taker(s, t);
      var fn := s.entries[e].pending;
      var s := Flush(s.(timers := s.timers[t := s.timers[t].(phase := Done)]), e, how);
      if fn.None? then s else s.(hands := s.hands[t := Taken(fn.value, s.now, how)])
  }

  /** The callback of timer t, outside the lock, starts the call in its hand. */
  function DoGo(s: State, t: nat): (r: State)
    requires WellFormed(s)
    ensures WellFormed(r)
  {
    if t in s.hands then Begin(s.(hands := s.hands - {t}), s.hands[t]) else s
  }

  function DoRemoveIfIdle(s: State, e: nat): (r: State)
    requires WellFormed(s)
    ensures WellFormed(r)
  {
    if e < |s.entries| && s.entries[e].pending.None? && s.entries[e].timer.None? && InMap(s, e) then
      s.(registry := s.registry - {s.entries[e].key})
    else s
  }

  function Do(s: State, step: Step): (r: State)
    requires WellFormed(s)
    ensures WellFormed(r)
  {
    match step
    case Tick(d) => s.(now := s.now + d)
    case Invoke(key, period, nilCall) => DoInvoke(s, key, period, nilCall)
    case SetIfAbsent(c) => DoSetIfAbsent(s, c)
    case Get(c) => DoGet(s, c)
    case Locked(c) => DoLocked(s, c)
    case Expire(t) => DoExpire(s, t)
    case Take(t) => DoTake(s, t)
    case Go(t) => DoGo(s, t)
    case RemoveIfIdle(e) => DoRemoveIfIdle(s, e)
  }

  /** The state after a run from an empty map. */
  ghost function Run(start: int, steps: seq<Step>): (s: State)
    ensures WellFormed(s)
  {
    if steps == [] then Start(start)
    else Do(Run(start, steps[..|steps| - 1]), steps[|steps| - 1])
  }
}

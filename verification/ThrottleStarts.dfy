/**
 When the calls that were taken are started. A callback leaves the lock before it starts its call, so that
 a call it holds can be overtaken by a later one; apart from that, calls start in the order of acceptance.
 */
module ThrottleStarts {
  import opened Text
  import opened Throttle
  import opened ThrottleFates

  // ---------------------------------------------------------------- calls in hand and calls started

  /** The timers whose callbacks hold call i. */
  ghost function Holders(s: State, i: nat): set<nat> { set t | t in s.hands && s.hands[t].index == i }

  ghost function TimesHeld(s: State, i: nat): nat { |Holders(s, i)| }

  function StartIndices(l: seq<Launch>): (r: seq<nat>)
    ensures |r| == |l| && forall k :: 0 <= k < |l| ==> r[k] == l[k].call.index
  {
    seq(|l|, k requires 0 <= k < |l| => l[k].call.index)
  }

  ghost function TimesStarted(s: State, i: nat): nat { multiset(StartIndices(s.launched))[i] }

  /** A taken call is in one callback's hand or has started, once. */
  ghost predicate Handed(s: State)
  {
    && (forall t :: t in s.hands ==> t < |s.timers| && s.timers[t].phase == Done && s.hands[t] in s.taken && s.hands[t].at <= s.now)
    && (forall k :: 0 <= k < |s.launched| ==> s.launched[k].call in s.taken && s.launched[k].call.at <= s.launched[k].at <= s.now)
    && (forall i: nat :: TimesTaken(s, i) == TimesHeld(s, i) + TimesStarted(s, i))
  }

  // ---------------------------------------------------------------- what one step does to them

  predicate Idle(s: State, r: State) { r.taken == s.taken && r.hands == s.hands && r.launched == s.launched }

  /** A call in a later slot takes the pending one and starts it under the lock. */
  predicate TakesAndStarts(s: State, r: State)
  {
    && |r.taken| == |s.taken| + 1 && s.taken <= r.taken && r.taken[|s.taken|].at == r.now
    && r.hands == s.hands && r.launched == s.launched + [Launch(r.taken[|s.taken|], r.now)]
  }

  predicate TakesInHand(s: State, r: State, t: nat)
  {
    && |r.taken| == |s.taken| + 1 && s.taken <= r.taken && r.taken[|s.taken|].at == r.now
    && t < |r.timers| && r.timers[t].phase == Done
    && t !in s.hands && r.hands == s.hands[t := r.taken[|s.taken|]] && r.launched == s.launched
  }

  predicate Goes(s: State, r: State, t: nat)
  {
    t in s.hands && r.taken == s.taken && r.hands == s.hands - {t} && r.launched == s.launched + [Launch(s.hands[t], r.now)]
  }

  /** Logs only grow, time does not go back and a callback that has had the lock is done for good. */
  predicate Grows(s: State, r: State)
  {
    && s.now <= r.now && s.calls <= r.calls && s.accepted <= r.accepted
    && |s.timers| <= |r.timers| && (forall t :: 0 <= t < |s.timers| && s.timers[t].phase == Done ==> r.timers[t].phase == Done)
  }

  ghost predicate Moves(s: State, step: Step, r: State)
  {
    && Grows(s, r)
    && match step
       case Locked(_) => Idle(s, r) || TakesAndStarts(s, r)
       case Take(t) => Idle(s, r) || TakesInHand(s, r, t)
       case Go(t) => if t in s.hands then Goes(s, r, t) else Idle(s, r)
       case _ => Idle(s, r)
  }

  lemma AcceptMoves(s: State, c: nat, e: nat, period: int)
    requires Inv(s) && e < |s.entries| && period > 0 && InMap(s, e)
    ensures var r := Accept(s, c, e, period); Grows(s, r) && (Idle(s, r) || TakesAndStarts(s, r))
  {
    hide WellFormed, Linked, Logged, OneFate, OneCallFate, Ordered, Place, Placed, TakenOff, Flush, StopTimer, SlotOf;
    var g := OnGrid(s, e, period);
    OnGridKeeps(s, e, period);
    var slot := SlotOf(g, e, period);
    var l := LeaveSlot(g, e, slot);
    if g.entries[e].pending.Some? && slot > g.entries[e].slot {
      PendingHolds(g, e);
      FlushTakesOff(g, e, LaterSlot);
      TakenOffTakes(g, e, LaterSlot);
    }
    PlaceIsPlaced(l, c, e, slot);
    PlacedMoves(l, c, e, slot);
  }

  lemma TakenOffTakes(s: State, e: nat, how: How)
    requires Holds(s, e)
    ensures var r := TakenOff(s, e, how);
            && Grows(s, r) && r.now == s.now && r.hands == s.hands && r.launched == s.launched
            && r.taken == s.taken + [Taken(s.entries[e].pending.value, s.now, how)]
  {
  }

  lemma PlacedMoves(s: State, c: nat, e: nat, slot: int)
    requires WellFormed(s) && e < |s.entries| && s.entries[e].epoch.Some?
    ensures Grows(s, Placed(s, c, e, slot)) && Idle(s, Placed(s, c, e, slot)) && Placed(s, c, e, slot).now == s.now
  {
  }

  lemma TakeMoves(s: State, t: nat)
    requires Inv(s) && Handed(s)
    ensures Moves(s, Take(t), DoTake(s, t))
  {
    hide Linked, Logged, OneFate, OneCallFate, Ordered, DoTake, Taker, TimesTaken, TimesHeld, TimesStarted;
    if t < |s.timers| && s.timers[t].phase == InFlight {
      TakeIsTakenOff(s, t);
    } else {
      NotInFlight(s, t);
    }
  }

  lemma StepMoves(s: State, step: Step)
    requires Inv(s) && Handed(s)
    ensures Moves(s, step, Do(s, step))
  {
    hide Linked, Logged, OneFate, OneCallFate, Ordered, Handed, Accept, DoTake;
    match step
    case Take(t) => TakeMoves(s, t);
    case Locked(c) => LockedMoves(s, c);
    case _ =>
  }

  lemma LockedMoves(s: State, c: nat)
    requires Inv(s)
    ensures Moves(s, Locked(c), DoLocked(s, c))
  {
    hide Logged, OneFate, OneCallFate, Ordered, Accept;
    if c in s.callers && s.callers[c].AtLock? {
      var e, call := s.callers[c].entry, s.calls[c];
      if call.key in s.registry && s.registry[call.key] == e {
        AcceptMoves(s, c, e, call.period);
      }
    }
  }

  lemma MovesKeepHanded(s: State, step: Step, r: State)
    requires Handed(s) && Moves(s, step, r)
    ensures Handed(r)
  {
    forall i: nat ensures TimesTaken(r, i) == TimesHeld(r, i) + TimesStarted(r, i) {
      assert TimesTaken(s, i) == TimesHeld(s, i) + TimesStarted(s, i);
      MovesCount(s, step, r, i);
    }
    if !Idle(s, r) && step.Go? {
      assert forall t :: t in r.hands ==> t in s.hands && r.hands[t] == s.hands[t];
    }
  }

  /** Each move counts a call as often on one side as on the other. */
  lemma MovesCount(s: State, step: Step, r: State, i: nat)
    requires Moves(s, step, r)
    ensures TimesTaken(r, i) - TimesHeld(r, i) - TimesStarted(r, i) == TimesTaken(s, i) - TimesHeld(s, i) - TimesStarted(s, i)
  {
    hide TimesTaken, TimesStarted, Holders;
    if Idle(s, r) {
      SameCounts(s, r, i);
    } else if step.Locked? {
      TakenCounts(s, r, i);
      StartedCounts(s, r, i);
      assert Holders(r, i) == Holders(s, i) by { HoldersOf(s, r, i); }
    } else if step.Take? {
      TakenCounts(s, r, i);
      NothingStarted(s, r, i);
      HeldCounts(s, r, step.t, i);
    } else {
      NothingTaken(s, r, i);
      StartedCounts(s, r, i);
      HeldCounts(r, s, step.t, i);
    }
  }

  lemma SameCounts(s: State, r: State, i: nat)
    requires Idle(s, r)
    ensures TimesTaken(r, i) == TimesTaken(s, i) && TimesStarted(r, i) == TimesStarted(s, i) && Holders(r, i) == Holders(s, i)
  {
  }

  lemma HoldersOf(s: State, r: State, i: nat)
    requires r.hands == s.hands
    ensures Holders(r, i) == Holders(s, i)
  {
  }

  lemma NothingTaken(s: State, r: State, i: nat)
    requires r.taken == s.taken
    ensures TimesTaken(r, i) == TimesTaken(s, i)
  {
  }

  lemma NothingStarted(s: State, r: State, i: nat)
    requires r.launched == s.launched
    ensures TimesStarted(r, i) == TimesStarted(s, i)
  {
  }

  lemma TakenCounts(s: State, r: State, i: nat)
    requires |r.taken| == |s.taken| + 1 && s.taken <= r.taken
    ensures TimesTaken(r, i) == TimesTaken(s, i) + if r.taken[|s.taken|].index == i then 1 else 0
  {
    assert TakenIndices(r.taken) == TakenIndices(s.taken) + [r.taken[|s.taken|].index];
  }

  lemma StartedCounts(s: State, r: State, i: nat)
    requires |r.launched| == |s.launched| + 1 && s.launched <= r.launched
    ensures TimesStarted(r, i) == TimesStarted(s, i) + if r.launched[|s.launched|].call.index == i then 1 else 0
  {
    assert StartIndices(r.launched) == StartIndices(s.launched) + [r.launched[|s.launched|].call.index];
  }

  /** State r has one call more in hand than state s. */
  predicate OneMore(s: State, r: State, t: nat)
  {
    && t !in s.hands && t in r.hands
    && (forall u :: u in r.hands ==> u == t || u in s.hands)
    && (forall u :: u in s.hands ==> u in r.hands && r.hands[u] == s.hands[u])
  }

  lemma HeldCounts(s: State, r: State, t: nat, i: nat)
    requires OneMore(s, r, t)
    ensures TimesHeld(r, i) == TimesHeld(s, i) + if r.hands[t].index == i then 1 else 0
  {
    MoreHolders(s, r, t, i);
    hide Holders;
    if r.hands[t].index == i {
      assert Holders(r, i) == Holders(s, i) + {t};
    } else {
      assert Holders(r, i) == Holders(s, i);
    }
  }

  lemma MoreHolders(s: State, r: State, t: nat, i: nat)
    requires OneMore(s, r, t)
    ensures t !in Holders(s, i)
    ensures forall u :: u in Holders(r, i) <==> u in Holders(s, i) || (u == t && r.hands[t].index == i)
  {
  }

  lemma {:induction false} RunHands(start: int, steps: seq<Step>)
    ensures Inv(Run(start, steps)) && Handed(Run(start, steps))
  {
    hide Inv, Handed, Moves, Do;
    RunKeeps(start, steps);
    if steps == [] {
      NothingHanded(start);
    } else {
      var before, step := Run(start, steps[..|steps| - 1]), steps[|steps| - 1];
      RunHands(start, steps[..|steps| - 1]);
      StepMoves(before, step);
      MovesKeepHanded(before, step, Do(before, step));
    }
  }

  lemma NothingHanded(start: int)
    ensures Handed(Start(start))
  {
    var s := Start(start);
    assert forall i: nat :: Holders(s, i) == {};
  }

  // ---------------------------------------------------------------- one fate

  /** In every run each accepted call is pending, overwritten, in a callback's hand or started: one of these, once. */
  lemma EveryAcceptedCallHasOneFate(start: int, steps: seq<Step>, i: nat)
    requires i < |Run(start, steps).accepted|
    ensures var s := Run(start, steps);
            (if Pending(s, i) then 1 else 0) + TimesOverwritten(s, i) + TimesHeld(s, i) + TimesStarted(s, i) == 1
  {
    hide Run;
    RunHands(start, steps);
    var s := Run(start, steps);
    assert Fate(s, i) == 1 && TimesTaken(s, i) == TimesHeld(s, i) + TimesStarted(s, i);
  }

  // ---------------------------------------------------------------- the order of starts

  ghost predicate Held(s: State, i: nat) { exists t :: t in s.hands && s.hands[t].index == i }

  ghost predicate Started(s: State, i: nat) { exists k :: 0 <= k < |s.launched| && s.launched[k].call.index == i }

  /** The calls of a key started in the order they were accepted. */
  ghost predicate StartsInOrder(s: State, key: string)
    requires Logged(s) && Handed(s)
  {
    forall k, l :: 0 <= k < l < |s.launched| && OfKey(s, s.launched[k].call, key) && OfKey(s, s.launched[l].call, key) ==>
                     s.launched[k].call.index < s.launched[l].call.index
  }

  predicate OfKey(s: State, x: Taken, key: string) { x.index < |s.accepted| && KeyOf(s, x.index) == key }

  /** Step n starts call j of a key while a callback holds an earlier call i of it, which starts too, later on. */
  ghost predicate Overtakes(start: int, steps: seq<Step>, key: string, n: nat, i: nat, j: nat)
    requires n < |steps|
  {
    var s := Run(start, steps);
    && i < j < |s.accepted| && KeyOf(s, i) == key && KeyOf(s, j) == key
    && Held(Run(start, steps[..n]), i)
    && !Started(Run(start, steps[..n]), j) && Started(Run(start, steps[..n + 1]), j)
    && Started(s, i)
  }

  predicate Extends(s: State, r: State) { s.taken <= r.taken && s.launched <= r.launched }

  lemma StepExtends(s: State, step: Step)
    requires Inv(s) && Handed(s)
    ensures Extends(s, Do(s, step)) && |Do(s, step).launched| <= |s.launched| + 1
  {
    hide Inv, Handed, Do;
    StepMoves(s, step);
  }

  lemma {:induction false} RunExtends(start: int, steps: seq<Step>, n: nat)
    requires n <= |steps|
    ensures Extends(Run(start, steps[..n]), Run(start, steps))
  {
    hide Inv, Handed, Do;
    if n == |steps| {
      assert steps[..n] == steps;
    } else {
      var m := |steps| - 1;
      RunExtends(start, steps[..m], n);
      assert steps[..m][..n] == steps[..n];
      RunHands(start, steps[..m]);
      StepExtends(Run(start, steps[..m]), steps[m]);
    }
  }

  /** The step after which the log of starts has entry k. */
  lemma {:induction false} StepOfStart(start: int, steps: seq<Step>, k: nat) returns (n: nat)
    requires k < |Run(start, steps).launched|
    ensures n < |steps| && |Run(start, steps[..n]).launched| == k && |Run(start, steps[..n + 1]).launched| == k + 1
  {
    hide Inv, Handed, Do;
    var m := |steps| - 1;
    RunHands(start, steps[..m]);
    StepExtends(Run(start, steps[..m]), steps[m]);
    if k < |Run(start, steps[..m]).launched| {
      n := StepOfStart(start, steps[..m], k);
      assert steps[..m][..n] == steps[..n] && steps[..m][..n + 1] == steps[..n + 1];
    } else {
      n := m;
      assert steps[..n + 1] == steps;
    }
  }

  lemma SeenOnce(s: seq<nat>, i: nat, k: nat, l: nat)
    requires k < l < |s| && s[k] == i && s[l] == i
    ensures multiset(s)[i] >= 2
  {
    assert s == s[..l] + s[l..];
    assert i in s[..l] && i in s[l..];
  }

  /** No call starts twice, and one that a callback holds has not started. */
  lemma StartedOnce(s: State, k: nat, l: nat)
    requires Inv(s) && Handed(s) && k < |s.launched| && l < |s.launched| && s.launched[k].call.index == s.launched[l].call.index
    ensures k == l
  {
    hide WellFormed, Linked, OneCallFate, Ordered, TimesTaken, TimesHeld;
    var i := s.launched[k].call.index;
    assert Fate(s, i) == 1 && TimesTaken(s, i) == TimesHeld(s, i) + TimesStarted(s, i);
    if k != l {
      SeenOnce(StartIndices(s.launched), i, if k < l then k else l, if k < l then l else k);
    }
  }

  /** A taken call is in a callback's hand exactly when it has not started. */
  lemma HeldExactly(s: State, i: nat)
    requires Inv(s) && Handed(s)
    ensures Held(s, i) <==> (exists p :: 0 <= p < |s.taken| && s.taken[p].index == i) && !Started(s, i)
  {
    hide WellFormed, Linked, OneCallFate, Ordered;
    assert TimesTaken(s, i) == TimesHeld(s, i) + TimesStarted(s, i);
    assert TimesTaken(s, i) > 0 <==> i in TakenIndices(s.taken);
    assert TimesStarted(s, i) > 0 <==> i in StartIndices(s.launched);
    assert Held(s, i) <==> Holders(s, i) != {} by {
      if Held(s, i) {
        var t :| t in s.hands && s.hands[t].index == i;
        assert t in Holders(s, i);
      }
    }
    if exists p :: 0 <= p < |s.taken| && s.taken[p].index == i {
      assert Fate(s, i) == 1;
    }
  }

  /** The call that step n starts is the next entry of the log. */
  lemma NextStart(start: int, steps: seq<Step>, n: nat, j: nat)
    requires n < |steps| && !Started(Run(start, steps[..n]), j) && Started(Run(start, steps[..n + 1]), j)
    ensures
      var s, r, m := Run(start, steps[..n]), Run(start, steps), |Run(start, steps[..n]).launched|;
      && |Run(start, steps[..n + 1]).launched| == m + 1 && s.launched <= r.launched
      && m < |r.launched| && r.launched[m].call.index == j
  {
    hide Inv, Handed, Do;
    RunHands(start, steps[..n]);
    StepExtends(Run(start, steps[..n]), steps[n]);
    assert steps[..n + 1][..n] == steps[..n];
    RunExtends(start, steps, n);
    RunExtends(start, steps, n + 1);
  }

  lemma OvertakenIsOutOfOrder(start: int, steps: seq<Step>, key: string, n: nat, i: nat, j: nat)
    requires n < |steps| && Overtakes(start, steps, key, n, i, j)
    ensures Inv(Run(start, steps)) && Handed(Run(start, steps)) && !StartsInOrder(Run(start, steps), key)
  {
    hide WellFormed, Linked, OneFate, OneCallFate, Ordered, Run, KeyOf, TimesTaken, TimesHeld, TimesStarted;
    var s, r := Run(start, steps[..n]), Run(start, steps);
    RunHands(start, steps[..n]);
    RunHands(start, steps);
    NextStart(start, steps, n, j);
    HeldExactly(s, i);
    var k, l :| k == |s.launched| && 0 <= l < |r.launched| && r.launched[l].call.index == i;
  }

  /** If call j starts before the earlier call i of its key, a callback held i when j was started. */
  lemma OutOfOrderIsOvertaken(start: int, steps: seq<Step>, key: string, k: nat, l: nat) returns (n: nat)
    requires var r := Run(start, steps);
             && k < l < |r.launched| && OfKey(r, r.launched[k].call, key) && OfKey(r, r.launched[l].call, key)
             && r.launched[l].call.index < r.launched[k].call.index
    ensures n < |steps|
    ensures var r := Run(start, steps); Overtakes(start, steps, key, n, r.launched[l].call.index, r.launched[k].call.index)
  {
    hide Inv, Handed, Run, KeyOf;
    var r := Run(start, steps);
    var i, j := r.launched[l].call.index, r.launched[k].call.index;
    n := StepOfStart(start, steps, k);
    var s, next := Run(start, steps[..n]), Run(start, steps[..n + 1]);
    RunExtends(start, steps, n);
    RunExtends(start, steps, n + 1);
    assert next.launched[k] == r.launched[k];
    NotStartedBefore(start, steps, s, k, k);
    NotStartedBefore(start, steps, s, k, l);
    var p := TakenBeforeStart(start, steps, n, k, l);
    RunHands(start, steps[..n]);
    HeldExactly(s, i);
  }

  lemma NotStartedBefore(start: int, steps: seq<Step>, s: State, k: nat, l: nat)
    requires k <= l < |Run(start, steps).launched| && |s.launched| == k && s.launched <= Run(start, steps).launched
    ensures !Started(s, Run(start, steps).launched[l].call.index)
  {
    hide Inv, Handed, Run;
    var r := Run(start, steps);
    RunHands(start, steps);
    if Started(s, r.launched[l].call.index) {
      var m :| 0 <= m < |s.launched| && s.launched[m].call.index == r.launched[l].call.index;
      StartedOnce(r, m, l);
    }
  }

  lemma TakenBeforeStart(start: int, steps: seq<Step>, n: nat, k: nat, l: nat) returns (p: nat)
    requires n < |steps| && |Run(start, steps[..n]).launched| == k && |Run(start, steps[..n + 1]).launched| == k + 1
    requires var r := Run(start, steps);
             && k < l < |r.launched| && r.launched[l].call.index < r.launched[k].call.index < |r.accepted|
             && KeyOf(r, r.launched[l].call.index) == KeyOf(r, r.launched[k].call.index)
    ensures var s := Run(start, steps[..n]); p < |s.taken| && s.taken[p].index == Run(start, steps).launched[l].call.index
  {
    hide Inv, Run, KeyOf, TimesTaken, TimesHeld, TimesStarted;
    var s, next, r := Run(start, steps[..n]), Run(start, steps[..n + 1]), Run(start, steps);
    RunHands(start, steps);
    RunHands(start, steps[..n]);
    RunExtends(start, steps, n);
    RunExtends(start, steps, n + 1);
    p :| p < |r.taken| && r.taken[p] == r.launched[l].call;
    var q := TakenByThen(start, steps, n, k);
    TakenInOrder(start, steps, q, p);
  }

  /** The call that step n starts had been taken by then, or is the one call that the step takes. */
  lemma TakenByThen(start: int, steps: seq<Step>, n: nat, k: nat) returns (q: nat)
    requires n < |steps| && |Run(start, steps[..n]).launched| == k && |Run(start, steps[..n + 1]).launched| == k + 1
    ensures q <= |Run(start, steps[..n]).taken| && q < |Run(start, steps).taken|
    ensures k < |Run(start, steps).launched| && Run(start, steps).taken[q] == Run(start, steps).launched[k].call
  {
    hide WellFormed, Linked, Logged, OneFate, OneCallFate, Ordered, Do, TimesTaken, TimesHeld, TimesStarted;
    var s, next, r := Run(start, steps[..n]), Run(start, steps[..n + 1]), Run(start, steps);
    RunHands(start, steps[..n]);
    assert steps[..n + 1][..n] == steps[..n];
    RunExtends(start, steps, n);
    RunExtends(start, steps, n + 1);
    q := TakenByStart(s, steps[n]);
  }

  lemma TakenByStart(s: State, step: Step) returns (q: nat)
    requires Inv(s) && Handed(s) && |Do(s, step).launched| == |s.launched| + 1
    ensures var r := Do(s, step); q <= |s.taken| && q < |r.taken| && r.taken[q] == r.launched[|s.launched|].call
  {
    hide WellFormed, Linked, Logged, OneFate, OneCallFate, Ordered, Do, TimesTaken, TimesHeld, TimesStarted;
    var r := Do(s, step);
    StepMoves(s, step);
    if TakesAndStarts(s, r) {
      q := |s.taken|;
    } else {
      q :| q < |s.taken| && s.taken[q] == r.launched[|s.launched|].call;
    }
  }

  lemma TakenInOrder(start: int, steps: seq<Step>, q: nat, p: nat)
    requires var s := Run(start, steps);
             && q < |s.taken| && p < |s.taken| && s.taken[p].index < s.taken[q].index < |s.accepted|
             && KeyOf(s, s.taken[p].index) == KeyOf(s, s.taken[q].index)
    ensures p < q
  {
    hide Run, KeyOf;
    if q < p {
      TakesFollowAcceptance(start, steps, q, p);
    }
  }

  /**
   In every run the calls of a key start in the order they were accepted if and only if none of them was
   started while a callback held an earlier one that it started afterwards.
   */
  lemma StartsInOrderExactly(start: int, steps: seq<Step>, key: string)
    ensures Logged(Run(start, steps)) && Handed(Run(start, steps))
    ensures StartsInOrder(Run(start, steps), key) <==>
            !exists n: nat, i: nat, j: nat :: n < |steps| && Overtakes(start, steps, key, n, i, j)
  {
    hide WellFormed, Linked, OneFate, OneCallFate, Ordered, Run, KeyOf, Overtakes, TimesTaken, TimesHeld, TimesStarted;
    RunHands(start, steps);
    var r := Run(start, steps);
    if !StartsInOrder(r, key) {
      var k, l :| 0 <= k < l < |r.launched| && OfKey(r, r.launched[k].call, key) && OfKey(r, r.launched[l].call, key)
                  && r.launched[k].call.index >= r.launched[l].call.index;
      if r.launched[k].call.index == r.launched[l].call.index {
        StartedOnce(r, k, l);
      }
      var n := OutOfOrderIsOvertaken(start, steps, key, k, l);
    }
    forall n: nat, i: nat, j: nat | n < |steps| && Overtakes(start, steps, key, n, i, j) ensures !StartsInOrder(r, key) {
      OvertakenIsOutOfOrder(start, steps, key, n, i, j);
    }
  }
}

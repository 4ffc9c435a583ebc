/** A flush that nothing interleaves with: what it hands over, and what a full worker channel makes it send back. */
module QueueFlush {
  import opened UploadQueue
  import opened QueueConservation

  /** The loop of a flush, run to its end. */
  function FlushRest(s: State): State
    decreases |s.flushing|
  {
    if s.flushing == [] || s.owed.handOffs > 0 then s else FlushRest(HandOne(s))
  }

  function Min(a: int, b: int): int { if a < b then a else b }

  function Only(s: seq<Task>, urgent: bool): seq<Task>
  {
    if s == [] then [] else (if Urgent(s[0]) == urgent then [s[0]] else []) + Only(s[1..], urgent)
  }

  /** How many more tasks go to the workers. */
  function Room(s: State): int { WorkingCapacity(s.config) - |s.working| }

  /** Those of the tasks that fit into a channel with this much room left. */
  function Fitting(tasks: seq<Task>, room: int): (r: seq<Task>)
    ensures r == if room <= 0 then [] else if |tasks| <= room then tasks else tasks[..room]
  {
    if room <= 0 || tasks == [] then [] else [tasks[0]] + Fitting(tasks[1..], room - 1)
  }

  /** The channels once the tasks have been sent back to them as far as there is room. */
  function PriorityChanAfter(s: State, back: seq<Task>): seq<Task>
  {
    s.priorityChan + Fitting(Only(back, true), PriorityCapacity(s.config) - |s.priorityChan|)
  }

  function TaskChanAfter(s: State, back: seq<Task>): seq<Task>
  {
    s.taskChan + Fitting(Only(back, false), s.config.queueSize - |s.taskChan|)
  }

  function SentBack(s: State): nat { s.history.requeues + |s.history.lostTasks| }

  /** r is s after a flush that handed over the first k tasks. */
  ghost predicate Flushed(s: State, r: State, k: nat)
    requires k <= |s.flushing|
  {
    && r.flushing == [] && r.config == s.config && r.owed == s.owed
    && r.working == s.working + s.flushing[..k]
    && r.history.handOffs == s.history.handOffs + k
    && r.stats == s.stats.(waiting := s.stats.waiting - k)
    && r.priorityChan == PriorityChanAfter(s, s.flushing[k..])
    && r.taskChan == TaskChanAfter(s, s.flushing[k..])
    && SentBack(r) == SentBack(s) + |s.flushing| - k
  }

  function HandOne(s: State): State { DoCountHandOff(DoHandOff(s)) }

  /** One task that goes back: it takes the last place in its channel, or is lost. */
  lemma SendBackOne(s: State)
    requires s.flushing != [] && s.owed.handOffs == 0 && Room(s) <= 0
    ensures
      var r := HandOne(s);
      && r.flushing == s.flushing[1..] && r.config == s.config && r.owed == s.owed
      && r.working == s.working && r.history.handOffs == s.history.handOffs && r.stats == s.stats
      && PriorityChanAfter(r, r.flushing) == PriorityChanAfter(s, s.flushing)
      && TaskChanAfter(r, r.flushing) == TaskChanAfter(s, s.flushing)
      && SentBack(r) == SentBack(s) + 1
  {
    hide Fitting;
    var t, u, n := s.flushing[0], Only(s.flushing[1..], true), Only(s.flushing[1..], false);
    if Urgent(t) {
      assert Only(s.flushing, true) == [t] + u && Only(s.flushing, false) == n by {
        assert [] + n == n;
      }
      OneMore(s.priorityChan, t, u, PriorityCapacity(s.config) - |s.priorityChan|);
    } else {
      assert Only(s.flushing, true) == u && Only(s.flushing, false) == [t] + n by {
        assert [] + u == u;
      }
      OneMore(s.taskChan, t, n, s.config.queueSize - |s.taskChan|);
    }
  }

  lemma OneMore(chan: seq<Task>, t: Task, rest: seq<Task>, room: int)
    ensures chan + Fitting([t] + rest, room) == if room > 0 then (chan + [t]) + Fitting(rest, room - 1) else chan + Fitting(rest, room)
  {
    if room > 0 {
      assert ([t] + rest)[1..] == rest;
      assert Fitting([t] + rest, room) == [t] + Fitting(rest, room - 1);
      assert chan + ([t] + Fitting(rest, room - 1)) == (chan + [t]) + Fitting(rest, room - 1);
    }
  }

  lemma NothingBack(s: State)
    ensures PriorityChanAfter(s, []) == s.priorityChan && TaskChanAfter(s, []) == s.taskChan
  {
  }

  lemma {:induction false} BusyWorkersSendBack(s: State)
    requires s.owed.handOffs == 0 && Room(s) <= 0
    ensures Flushed(s, FlushRest(s), 0)
    decreases |s.flushing|
  {
    hide HandOne, DoHandOff, DoCountHandOff, PriorityChanAfter, TaskChanAfter;
    if s.flushing == [] {
      NothingBack(s);
    } else {
      SendBackOne(s);
      BusyWorkersSendBack(HandOne(s));
      assert HandOne(s).flushing[0..] == HandOne(s).flushing && s.flushing[0..] == s.flushing;
      UnfoldFlush(s);
    }
    assert s.working + s.flushing[..0] == s.working;
  }

  lemma UnfoldFlush(s: State)
    requires s.flushing != [] && s.owed.handOffs == 0
    ensures FlushRest(s) == FlushRest(HandOne(s))
  {
  }

  lemma HandOverOne(s: State)
    requires s.flushing != [] && s.owed.handOffs == 0 && Room(s) > 0
    ensures
      var r := HandOne(s);
      && r.flushing == s.flushing[1..] && r.config == s.config && r.owed == s.owed
      && r.working == s.working + [s.flushing[0]] && r.history.handOffs == s.history.handOffs + 1
      && r.stats == s.stats.(waiting := s.stats.waiting - 1)
      && r.priorityChan == s.priorityChan && r.taskChan == s.taskChan && SentBack(r) == SentBack(s)
  {
  }

  /** How many tasks a flush hands over. */
  function HandedOver(s: State): (k: nat)
    ensures k <= |s.flushing|
  {
    if Room(s) < 0 then 0 else Min(Room(s), |s.flushing|)
  }

  /**
   A flush hands over as many tasks as the worker channel has room for, in order, and sends every other
   task back to its own channel, as far as that has room.
   */
  lemma {:induction false} FlushResult(s: State)
    requires s.owed.handOffs == 0
    ensures Flushed(s, FlushRest(s), HandedOver(s))
    decreases |s.flushing|
  {
    hide HandOne, DoHandOff, DoCountHandOff, Only, Fitting;
    if s.flushing == [] || Room(s) <= 0 {
      BusyOrDone(s);
    } else {
      HandOverOne(s);
      var s', k := HandOne(s), HandedOver(s);
      FlushResult(s');
      UnfoldFlush(s);
      assert s.flushing[1..][..k - 1] == s.flushing[1..k] && s.flushing[1..][k - 1..] == s.flushing[k..];
      assert (s.working + [s.flushing[0]]) + s.flushing[1..k] == s.working + s.flushing[..k];
    }
  }

  lemma BusyOrDone(s: State)
    requires s.owed.handOffs == 0 && (s.flushing == [] || Room(s) <= 0)
    ensures Flushed(s, FlushRest(s), 0)
  {
    if s.flushing == [] {
      NothingBack(s);
      assert s.working + [] == s.working && s.flushing[0..] == [];
    } else {
      BusyWorkersSendBack(s);
    }
  }

  /** With priorities on, no task that is sent back was more urgent than a task that was handed over. */
  lemma UrgentFirst(s: State, order: seq<Task>, i: nat, j: nat)
    requires DispatcherWaits(s) && FlushOrder(s, order) && s.config.priorityEnabled && Room(s) >= 0
    requires i < Min(Room(s), |order|) <= j < |order|
    ensures var r := FlushRest(DoFlush(s, order));
            && |r.working| == |s.working| + Min(Room(s), |order|) && r.working[|s.working| + i] == order[i]
            && order[i].priority <= order[j].priority
  {
    hide FlushRest, PriorityChanAfter, TaskChanAfter;
    FlushResult(DoFlush(s, order));
  }
}

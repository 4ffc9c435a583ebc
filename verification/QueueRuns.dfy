/**
 Runs of the upload queue, for all sizes: one task from its sender to its reader, a waiting gauge below zero,
 and a result that a cancelled stream drops.
 */
module QueueRuns {
  import opened UploadQueue
  import opened QueueConservation
  import opened QueueFlush

  function Do3(s: State, x: Step, y: Step, z: Step): State { Do(Do(Do(s, x), y), z) }

  function RunFrom(s: State, steps: seq<Step>): State
    decreases |steps|
  {
    if steps == [] then s else RunFrom(Do(s, steps[0]), steps[1..])
  }

  lemma {:induction false} RunOnwards(c: Config, done: seq<Step>, steps: seq<Step>)
    ensures RunFrom(Run(c, done), steps) == Run(c, done + steps)
    decreases |steps|
  {
    hide Do;
    if steps == [] {
      assert done + [] == done;
    } else {
      assert (done + [steps[0]])[..|done|] == done;
      RunOnwards(c, done + [steps[0]], steps[1..]);
      assert done + [steps[0]] + steps[1..] == done + steps;
    }
  }

  function PullOf(priority: int): Step { if priority <= 2 then PullPriority else PullTask }

  /** A task is sent but not counted; meanwhile it is dispatched and its upload ends, and more steps follow. */
  function UploadThen(t: Task, failed: bool, last: seq<Step>): seq<Step>
  {
    [Add(t.id, t.priority), PullOf(t.priority), CountPull]
    + ([Flush([t]), HandOff, CountHandOff]
       + ([Take(0), CountStart(0), Finish(0, failed)] + ([CountEnd(0), Deliver(0)] + last)))
  }

  /** Room for a task in its channel, for its result, and a worker. */
  predicate Fits(c: Config, t: Task)
  {
    t.serial == 0 && c.workers > 0 && c.resultSize > 0 && c.queueSize > if t.priority <= 2 then 1 else 0
  }

  /** The task t is all there is: as its sender has not counted it, the gauge is lower by one than it should be. */
  ghost predicate OnlyTask(s: State, t: Task, waiting: int)
  {
    && s.taskChan == [] && s.priorityChan == [] && s.flushing == []
    && s.resultChan == [] && s.putBack == [] && s.held == []
    && s.owed == Owed(1, 0, 0, []) && s.stats == NO_STATS.(waiting := waiting)
    && s.config.resultSize > 0 && s.config.workers > 0 && s.workers == Fresh(s.config).workers
    && NothingLost(s) && s.history.consumed == []
  }

  ghost predicate NothingLost(s: State)
  {
    s.history.requeues == 0 && s.history.lostTasks == [] && s.history.lostResults == [] && s.history.silentResults == []
  }

  lemma UploadPull(s: State, t: Task)
    requires s == Fresh(s.config) && Fits(s.config, t)
    ensures
      var r := Do3(s, Add(t.id, t.priority), PullOf(t.priority), CountPull);
      OnlyTask(r, t, 1) && r.priorityBuffer + r.taskBuffer == [t] && r.working == [] && r.config == s.config
  {
    assert [t][1..] == [] && [] + [t] == [t] && [t] + [] == [t] && Task(t.id, t.priority, 0) == t;
  }

  lemma UploadFlush(s: State, t: Task)
    requires OnlyTask(s, t, 1) && s.priorityBuffer + s.taskBuffer == [t] && s.working == []
    ensures
      var r := Do3(s, Flush([t]), HandOff, CountHandOff);
      OnlyTask(r, t, 0) && r.working == [t] && r.taskBuffer == [] && r.priorityBuffer == [] && r.config == s.config
  {
    assert [] + [t] == [t];
  }

  /** Its result, and that it has not been counted, is all that is left of the task. */
  ghost predicate OnlyResult(s: State, t: Task, failed: bool)
  {
    && s.taskChan == [] && s.priorityChan == [] && s.taskBuffer == [] && s.priorityBuffer == [] && s.flushing == [] && s.working == []
    && s.resultChan == [Result(t, failed)] && s.putBack == [] && s.held == [] && s.owed == Owed(1, 0, 0, []) && s.stats == NO_STATS
    && s.config.resultSize > 0 && s.workers == Fresh(s.config).workers
    && NothingLost(s) && s.history.consumed == []
  }

  lemma UploadWork(s: State, t: Task, failed: bool)
    requires OnlyTask(s, t, 0) && s.working == [t] && s.taskBuffer == [] && s.priorityBuffer == []
    ensures var r := Do(Do(Do3(s, Take(0), CountStart(0), Finish(0, failed)), CountEnd(0)), Deliver(0));
            OnlyResult(r, t, failed) && r.config == s.config
  {
    var ws := s.workers;
    assert ws[0 := Taken(t)][0 := Running(t)] == ws[0 := Running(t)];
    assert ws[0 := Finished(Result(t, failed))][0 := Idle] == ws;
  }

  lemma Unroll(s: State, p: seq<Step>, q: seq<Step>)
    requires p != [] && p[1..] == q
    ensures RunFrom(s, p) == RunFrom(Do(s, p[0]), q)
  {
  }

  lemma Unroll3(s: State, x: Step, y: Step, z: Step, p: seq<Step>)
    ensures RunFrom(s, [x, y, z] + p) == RunFrom(Do3(s, x, y, z), p)
  {
    hide Do, RunFrom;
    Unroll(s, [x, y, z] + p, [y, z] + p);
    Unroll(Do(s, x), [y, z] + p, [z] + p);
    Unroll(Do(Do(s, x), y), [z] + p, p);
  }

  lemma Unroll2(s: State, x: Step, y: Step, p: seq<Step>)
    ensures RunFrom(s, [x, y] + p) == RunFrom(Do(Do(s, x), y), p)
  {
    hide Do, RunFrom;
    Unroll(s, [x, y] + p, [y] + p);
    Unroll(Do(s, x), [y] + p, p);
  }

  lemma UploadUnrolled(s: State, t: Task, failed: bool, last: seq<Step>)
    ensures
      var s3 := Do3(s, Add(t.id, t.priority), PullOf(t.priority), CountPull);
      var s6 := Do3(s3, Flush([t]), HandOff, CountHandOff);
      var s9 := Do3(s6, Take(0), CountStart(0), Finish(0, failed));
      RunFrom(s, UploadThen(t, failed, last)) == RunFrom(Do(Do(s9, CountEnd(0)), Deliver(0)), last)
  {
    hide Do, PullOf;
    var end := [CountEnd(0), Deliver(0)] + last;
    var work := [Take(0), CountStart(0), Finish(0, failed)] + end;
    var flush := [Flush([t]), HandOff, CountHandOff] + work;
    var s3 := Do3(s, Add(t.id, t.priority), PullOf(t.priority), CountPull);
    var s6 := Do3(s3, Flush([t]), HandOff, CountHandOff);
    var s9 := Do3(s6, Take(0), CountStart(0), Finish(0, failed));
    hide RunFrom;
    Unroll3(s, Add(t.id, t.priority), PullOf(t.priority), CountPull, flush);
    Unroll3(s3, Flush([t]), HandOff, CountHandOff, work);
    Unroll3(s6, Take(0), CountStart(0), Finish(0, failed), end);
    Unroll2(s9, CountEnd(0), Deliver(0), last);
  }

  /** After the upload, and then the other steps. */
  lemma UploadRun(c: Config, t: Task, failed: bool, last: seq<Step>) returns (s11: State)
    requires Fits(c, t)
    ensures OnlyResult(s11, t, failed) && s11.config == c && Run(c, UploadThen(t, failed, last)) == RunFrom(s11, last)
  {
    hide Do, Do3, RunFrom, OnlyTask, OnlyResult, Fresh, UploadThen, Fits, PullOf;
    var s := Fresh(c);
    FreshConfig(c);
    UploadPull(s, t);
    var s3 := Do3(s, Add(t.id, t.priority), PullOf(t.priority), CountPull);
    UploadFlush(s3, t);
    var s6 := Do3(s3, Flush([t]), HandOff, CountHandOff);
    UploadWork(s6, t, failed);
    s11 := Do(Do(Do3(s6, Take(0), CountStart(0), Finish(0, failed)), CountEnd(0)), Deliver(0));
    UploadUnrolled(s, t, failed, last);
    RunOnwards(c, [], UploadThen(t, failed, last));
    assert [] + UploadThen(t, failed, last) == UploadThen(t, failed, last);
  }

  lemma TwoMore(s: State, x: Step, y: Step)
    ensures RunFrom(s, [x, y]) == Do(Do(s, x), y)
  {
    Unroll2(s, x, y, []);
    assert [x, y] + [] == [x, y];
  }

  lemma ThreeMore(s: State, x: Step, y: Step, z: Step)
    ensures RunFrom(s, [x, y, z]) == Do3(s, x, y, z)
  {
    Unroll3(s, x, y, z, []);
    assert [x, y, z] + [] == [x, y, z];
  }

  lemma FreshConfig(c: Config)
    ensures Fresh(c).config == c
  {
  }

  /** Because a send and its count are two steps, the gauge can show -1, whatever the sizes of the queue. */
  lemma GaugeCanBeNegative(c: Config, id: string)
    requires c.queueSize > 0 && c.workers > 0 && c.resultSize > 0
    ensures exists steps :: Run(c, steps).stats.waiting == -1
  {
    hide Run, RunFrom, UploadThen, Do;
    var t := Task(id, 3, 0);
    var s := UploadRun(c, t, false, [WaiterTake(id), CountResult(0)]);
    TwoMore(s, WaiterTake(id), CountResult(0));
    WaiterTakes(s, Result(t, false));
    BooksResult(Do(s, WaiterTake(id)), Result(t, false));
    assert Run(c, UploadThen(t, false, [WaiterTake(id), CountResult(0)])).stats.waiting == -1;
  }

  lemma WaiterTakes(s: State, r: Result)
    requires s.resultChan == [r] && s.owed.results == [] && s.history.consumed == []
    ensures Do(s, WaiterTake(r.task.id)) == s.(resultChan := [], owed := s.owed.(results := [r]), history := s.history.(consumed := [r]))
  {
    assert [r][1..] == [] && [] + [r] == [r];
  }

  ghost predicate DropsSilently(s: State, t: Task)
  {
    s.history.silentResults == [Result(t, false)] && s.history.lostTasks == [] && s.history.lostResults == []
  }

  /** A stream that takes the only result and is cancelled loses it, and nothing is logged. */
  lemma CancelledStreamDropsResult(c: Config, id: string)
    requires c.queueSize > 0 && c.workers > 0 && c.resultSize > 0
    ensures exists steps :: DropsSilently(Run(c, steps), Task(id, 3, 0))
  {
    hide Run, RunFrom, UploadThen;
    var t := Task(id, 3, 0);
    var s := UploadRun(c, t, false, [StreamTake, StreamCancel(0)]);
    TwoMore(s, StreamTake, StreamCancel(0));
    StreamTakes(s, Result(t, false));
    assert DropsSilently(Run(c, UploadThen(t, false, [StreamTake, StreamCancel(0)])), t);
  }

  // ---------------------------------------------------------------- what becomes of one task

  /** Everything is done, and the books show one task with its outcome. */
  ghost predicate DoneAndBooked(s: State, t: Task, failed: bool)
  {
    Drained(s) && NothingLost(s) && s.history.consumed == [Result(t, failed)]
    && s.stats == Stats(1, if failed then 0 else 1, if failed then 1 else 0, 0, 0)
  }

  lemma NoneBusy(c: Config)
    ensures Busy(Fresh(c).workers) == 0
  {
    AllIdle(c.workers, Task("", 0, 0));
  }

  lemma AddCounted(s: State)
    requires s.owed.adds == 1
    ensures Do(s, CountAdd) == s.(owed := s.owed.(adds := 0), stats := s.stats.(total := s.stats.total + 1, waiting := s.stats.waiting + 1))
  {
  }

  /** Any task that fits, urgent or not, with any outcome: a waiter for it gets its result, and the books are right in the end. */
  lemma WaiterGetsResult(c: Config, t: Task, failed: bool)
    requires Fits(c, t)
    ensures exists steps :: DoneAndBooked(Run(c, steps), t, failed)
  {
    hide Run, RunFrom, UploadThen, Do;
    var last := [CountAdd, WaiterTake(t.id), CountResult(0)];
    var s := UploadRun(c, t, failed, last);
    ThreeMore(s, CountAdd, WaiterTake(t.id), CountResult(0));
    AddCounted(s);
    WaiterTakes(Do(s, CountAdd), Result(t, failed));
    BooksResult(Do(Do(s, CountAdd), WaiterTake(t.id)), Result(t, failed));
    NoneBusy(c);
    assert DoneAndBooked(Run(c, UploadThen(t, failed, last)), t, failed);
  }

  /** A waiter for another task puts the result back, and a stream then delivers it. */
  lemma WrongWaiterReturnsResult(c: Config, t: Task, other: string, failed: bool)
    requires Fits(c, t) && other != t.id
    ensures
      var steps := UploadThen(t, failed, [WaiterTake(other), PutBack(0), CountAdd, StreamTake, StreamSend(0), CountResult(0)]);
      DoneAndBooked(Run(c, steps), t, failed)
  {
    hide Run, RunFrom, UploadThen, OnlyResult, Counted, DoneAndBooked, Do3, Do, Fits, Fresh;
    var end := [StreamTake, StreamSend(0), CountResult(0)];
    var last := [WaiterTake(other), PutBack(0), CountAdd, StreamTake, StreamSend(0), CountResult(0)];
    var s := UploadRun(c, t, failed, last);
    assert last == [WaiterTake(other), PutBack(0), CountAdd] + end;
    Unroll3(s, WaiterTake(other), PutBack(0), CountAdd, end);
    var r := Do3(s, WaiterTake(other), PutBack(0), CountAdd);
    ThreeMore(r, StreamTake, StreamSend(0), CountResult(0));
    PutBackAgain(s, t, other, failed);
    StreamDelivers(r, t, failed);
  }

  /** The result is back in its channel, and the sender has counted its task. */
  ghost predicate Counted(s: State, t: Task, failed: bool)
  {
    && OnlyResult(s.(owed := s.owed.(adds := 1), stats := NO_STATS), t, failed)
    && s.owed == Owed(0, 0, 0, []) && s.stats == Stats(1, 0, 0, 0, 1)
  }

  lemma PutBackAgain(s: State, t: Task, other: string, failed: bool)
    requires OnlyResult(s, t, failed) && other != t.id
    ensures var r := Do3(s, WaiterTake(other), PutBack(0), CountAdd); Counted(r, t, failed) && r.config == s.config
  {
    var r := Result(t, failed);
    assert [r][1..] == [] && [] + [r] == [r] && Without([r], 0) == [];
  }

  lemma StreamDelivers(s: State, t: Task, failed: bool)
    requires Counted(s, t, failed)
    ensures DoneAndBooked(Do3(s, StreamTake, StreamSend(0), CountResult(0)), t, failed)
  {
    var r := Result(t, failed);
    NoneBusy(s.config);
    StreamMoves(s, r);
  }

  lemma StreamMoves(s: State, r: Result)
    requires s.resultChan == [r] && s.held == [] && s.owed.results == [] && s.history.consumed == []
    ensures Do3(s, StreamTake, StreamSend(0), CountResult(0))
            == s.(resultChan := [], history := s.history.(consumed := [r]),
                  stats := s.stats.(waiting := s.stats.waiting - 1,
                                    failed := s.stats.failed + if r.failed then 1 else 0,
                                    success := s.stats.success + if r.failed then 0 else 1))
  {
    hide Do;
    StreamTakes(s, r);
    var s1 := s.(resultChan := [], held := [r]);
    StreamSends(s1, r);
    BooksResult(s1.(held := [], owed := s1.owed.(results := [r]), history := s1.history.(consumed := [r])), r);
  }

  lemma StreamTakes(s: State, r: Result)
    requires s.resultChan == [r] && s.held == []
    ensures Do(s, StreamTake) == s.(resultChan := [], held := [r])
  {
    assert [r][1..] == [] && [] + [r] == [r];
  }

  lemma StreamSends(s: State, r: Result)
    requires s.held == [r] && s.owed.results == [] && s.history.consumed == []
    ensures Do(s, StreamSend(0)) == s.(held := [], owed := s.owed.(results := [r]), history := s.history.(consumed := [r]))
  {
    assert Without([r], 0) == [] && [] + [r] == [r];
  }

  lemma BooksResult(s: State, r: Result)
    requires s.owed.results == [r]
    ensures Do(s, CountResult(0)) ==
            s.(owed := s.owed.(results := []),
               stats := s.stats.(waiting := s.stats.waiting - 1,
                                 failed := s.stats.failed + if r.failed then 1 else 0,
                                 success := s.stats.success + if r.failed then 0 else 1))
  {
    assert Without([r], 0) == [];
  }

  /** When the channel stays full for too long, the result that a wrong waiter took is lost with a log line. */
  lemma WrongWaiterLosesResult(c: Config, t: Task, other: string, failed: bool)
    requires Fits(c, t) && other != t.id
    ensures Run(c, UploadThen(t, failed, [WaiterTake(other), PutBackTimeout(0)])).history.lostResults == [Result(t, failed)]
  {
    var s := UploadRun(c, t, failed, [WaiterTake(other), PutBackTimeout(0)]);
    TwoMore(s, WaiterTake(other), PutBackTimeout(0));
    hide Run, RunFrom, UploadThen;
  }

  // ---------------------------------------------------------------- capacities and orders

  /** A task is refused if and only if its channel is full: half the queue's size for urgent ones, all of it for others. */
  lemma RefusedExactly(s: State, id: string, priority: int)
    ensures
      var r := DoAdd(s, id, priority);
      if priority <= 2 then
        if |s.priorityChan| < s.config.queueSize / 2
        then r.priorityChan == s.priorityChan + [Task(id, priority, |s.history.accepted|)] && r.taskChan == s.taskChan
        else r == s
      else
        if |s.taskChan| < s.config.queueSize
        then r.taskChan == s.taskChan + [Task(id, priority, |s.history.accepted|)] && r.priorityChan == s.priorityChan
        else r == s
  {
  }

  /** In every run no channel holds more than its capacity, and ten tasks wait for each worker at most. */
  lemma CapacitiesHold(c: Config, steps: seq<Step>)
    ensures
      var s := Run(c, steps);
      && |s.taskChan| <= c.queueSize && |s.priorityChan| <= c.queueSize / 2 && |s.working| <= 10 * c.workers
      && |s.resultChan| <= c.resultSize && |s.workers| == c.workers
  {
    RunBooks(c, steps);
    SameConfig(c, steps);
  }

  /** Ten tasks for each worker are handed over before any goes back. */
  lemma WorkersHaveRoomForTen(s: State)
    requires s.flushing != [] && s.owed.handOffs == 0
    ensures DoHandOff(s).working == if |s.working| < 10 * s.config.workers then s.working + [s.flushing[0]] else s.working
  {
  }

  function Inserted(sorted: seq<Task>, t: Task): (r: seq<Task>)
    requires SortedByPriority(sorted)
    ensures SortedByPriority(r) && multiset(r) == multiset(sorted) + multiset{t}
  {
    if sorted == [] || t.priority <= sorted[0].priority then [t] + sorted
    else
      assert sorted == [sorted[0]] + sorted[1..];
      var rest := Inserted(sorted[1..], t);
      InsertedBelow(sorted, t, rest);
      [sorted[0]] + rest
  }

  lemma InsertedBelow(sorted: seq<Task>, t: Task, rest: seq<Task>)
    requires sorted != [] && SortedByPriority(sorted) && t.priority > sorted[0].priority && multiset(rest) == multiset(sorted[1..]) + multiset{t}
    ensures forall i :: 0 <= i < |rest| ==> sorted[0].priority <= rest[i].priority
  {
    forall i | 0 <= i < |rest| ensures sorted[0].priority <= rest[i].priority {
      assert rest[i] in multiset(rest);
    }
  }

  function Sorted(tasks: seq<Task>): (r: seq<Task>)
    ensures SortedByPriority(r) && multiset(r) == multiset(tasks)
  {
    if tasks == [] then []
    else
      assert tasks == [tasks[0]] + tasks[1..];
      Inserted(Sorted(tasks[1..]), tasks[0])
  }

  /**
   A flush is possible whenever the dispatcher waits. Without priorities it keeps the order in which the buffers
   were filled, urgent tasks first; with them it may take any order in which no task comes before a more urgent one.
   */
  lemma FlushOrders(s: State, order: seq<Task>)
    ensures exists order :: FlushOrder(s, order)
    ensures !s.config.priorityEnabled ==> (FlushOrder(s, order) <==> order == s.priorityBuffer + s.taskBuffer)
    ensures s.config.priorityEnabled ==>
              (FlushOrder(s, order) <==>
                 multiset(order) == multiset(s.priorityBuffer) + multiset(s.taskBuffer)
                 && forall i, j :: 0 <= i < j < |order| ==> order[i].priority <= order[j].priority)
  {
    var all := s.priorityBuffer + s.taskBuffer;
    assert FlushOrder(s, if s.config.priorityEnabled then Sorted(all) else all);
  }

  // ---------------------------------------------------------------- first in, first out

  /** Whatever is taken from a channel is the oldest there is. */
  lemma OldestFirst(s: State, t: Task, r: Result, tasks: seq<Task>, results: seq<Result>, w: nat, id: string)
    ensures DispatcherWaits(s) && s.taskChan == [t] + tasks ==>
              DoPullTask(s).taskBuffer == s.taskBuffer + [t] && DoPullTask(s).taskChan == tasks
    ensures DispatcherWaits(s) && s.priorityChan == [t] + tasks ==>
              DoPullPriority(s).priorityBuffer == s.priorityBuffer + [t] && DoPullPriority(s).priorityChan == tasks
    ensures s.working == [t] + tasks && w < |s.workers| && s.workers[w].Idle? ==>
              DoTake(s, w).workers == s.workers[w := Taken(t)] && DoTake(s, w).working == tasks
    ensures s.resultChan == [r] + results ==> DoStreamTake(s).held == s.held + [r] && DoStreamTake(s).resultChan == results
    ensures s.resultChan == [r] + results ==>
              && DoWaiterTake(s, id).resultChan == results
              && if r.task.id == id then DoWaiterTake(s, id).history.consumed == s.history.consumed + [r] && DoWaiterTake(s, id).putBack == s.putBack
                 else DoWaiterTake(s, id).putBack == s.putBack + [r] && DoWaiterTake(s, id).history.consumed == s.history.consumed
  {
    assert ([t] + tasks)[1..] == tasks && ([r] + results)[1..] == results;
  }

  predicate Suffix(s: seq<Task>, all: seq<Task>) { |s| <= |all| && s == all[|all| - |s|..] }

  /** The channels hold the latest of the tasks that were sent to them, in the order in which they were sent. */
  ghost predicate InOrder(s: State)
  {
    Suffix(s.taskChan, Only(s.history.accepted, false)) && Suffix(s.priorityChan, Only(s.history.accepted, true))
  }

  lemma {:induction false} OnlySnoc(tasks: seq<Task>, t: Task, urgent: bool)
    ensures Only(tasks + [t], urgent) == Only(tasks, urgent) + (if Urgent(t) == urgent then [t] else [])
  {
    if tasks == [] {
      var none: seq<Task> := [];
      assert tasks + [t] == [t] && [t][1..] == none;
    } else {
      var head := if Urgent(tasks[0]) == urgent then [tasks[0]] else [];
      assert (tasks + [t])[0] == tasks[0] && (tasks + [t])[1..] == tasks[1..] + [t];
      assert Only(tasks + [t], urgent) == head + Only(tasks[1..] + [t], urgent) && Only(tasks, urgent) == head + Only(tasks[1..], urgent);
      hide Only, Urgent;
      OnlySnoc(tasks[1..], t, urgent);
    }
  }

  lemma AddInOrder(s: State, id: string, priority: int)
    requires InOrder(s)
    ensures InOrder(DoAdd(s, id, priority))
  {
    var t := Task(id, priority, |s.history.accepted|);
    OnlySnoc(s.history.accepted, t, true);
    OnlySnoc(s.history.accepted, t, false);
    hide Only;
  }

  lemma SuffixTail(s: seq<Task>, all: seq<Task>)
    requires Suffix(s, all) && s != []
    ensures Suffix(s[1..], all)
  {
  }

  lemma PullInOrder(s: State)
    requires InOrder(s)
    ensures InOrder(DoPullTask(s)) && InOrder(DoPullPriority(s))
  {
    hide Only, Suffix;
    if s.taskChan != [] {
      SuffixTail(s.taskChan, Only(s.history.accepted, false));
    }
    if s.priorityChan != [] {
      SuffixTail(s.priorityChan, Only(s.history.accepted, true));
    }
  }

  lemma HandOffInOrder(s: State)
    requires InOrder(s) && DoHandOff(s).history.requeues == 0
    ensures InOrder(DoHandOff(s))
  {
    hide Only, Suffix;
  }

  /** The other steps move no task into a channel of the dispatcher or out of it. */
  lemma OthersInOrder(s: State, step: Step)
    requires !step.Add? && !step.PullTask? && !step.PullPriority? && !step.HandOff?
    ensures var r := Do(s, step); r.taskChan == s.taskChan && r.priorityChan == s.priorityChan && r.history.accepted == s.history.accepted
  {
  }

  lemma StepInOrder(s: State, step: Step)
    requires InOrder(s) && Do(s, step).history.requeues == 0
    ensures InOrder(Do(s, step))
  {
    match step
    case Add(id, priority) => AddInOrder(s, id, priority);
    case PullTask => PullInOrder(s);
    case PullPriority => PullInOrder(s);
    case HandOff => HandOffInOrder(s);
    case _ => OthersInOrder(s, step);
  }

  /** As long as nothing was sent back, tasks of a kind wait in the order in which they were accepted. */
  lemma {:induction false} FirstInFirstOut(c: Config, steps: seq<Step>)
    requires Run(c, steps).history.requeues == 0
    ensures InOrder(Run(c, steps))
  {
    if steps != [] {
      var before := Run(c, steps[..|steps| - 1]);
      hide Do, InOrder;
      RequeuesGrow(before, steps[|steps| - 1]);
      FirstInFirstOut(c, steps[..|steps| - 1]);
      StepInOrder(before, steps[|steps| - 1]);
    }
  }

  lemma RequeuesGrow(s: State, step: Step)
    ensures s.history.requeues <= Do(s, step).history.requeues
  {
  }
}

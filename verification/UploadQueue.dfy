/**
 The upload queue as a state machine: bounded channels, a dispatcher with two buffers, workers, and the
 readers of results. One step is one channel operation or one update of the statistics, and runs are
 arbitrary sequences of steps; a step that is not possible leaves the state alone.
 */
module UploadQueue {

  /** `serial` is the task's place among all accepted tasks. */
  datatype Task = Task(id: string, priority: int, serial: nat)

  datatype Result = Result(task: Task, failed: bool)

  /**
   A worker takes a task, counts itself as active, uploads, counts itself out again, and offers the result.
   It is `Taken` before its first count and `Ended` before its second.
   */
  datatype Worker = Idle | Taken(task: Task) | Running(task: Task) | Ended(result: Result) | Finished(result: Result)

  datatype Config = Config(queueSize: nat, workers: nat, resultSize: nat, priorityEnabled: bool)

  datatype Stats = Stats(total: int, success: int, failed: int, active: int, waiting: int)

  /** Updates of the statistics that are still to come: each follows the channel operation it counts. */
  datatype Owed = Owed(adds: nat, pulls: nat, handOffs: nat, results: seq<Result>)

  /** What has happened so far; `silentResults` are the results that were dropped without a log line. */
  datatype History = History(
    accepted: seq<Task>,
    pulls: nat,
    handOffs: nat,
    requeues: nat,
    consumed: seq<Result>,
    lostTasks: seq<Task>,
    lostResults: seq<Result>,
    silentResults: seq<Result>)

  datatype State = State(
    config: Config,
    taskChan: seq<Task>,
    priorityChan: seq<Task>,
    taskBuffer: seq<Task>,
    priorityBuffer: seq<Task>,
    flushing: seq<Task>,
    working: seq<Task>,
    workers: seq<Worker>,
    resultChan: seq<Result>,
    putBack: seq<Result>,
    held: seq<Result>,
    stats: Stats,
    owed: Owed,
    history: History)

  datatype Step =
    | Add(id: string, priority: int)
    | CountAdd
    | PullTask
    | PullPriority
    | CountPull
    | Flush(order: seq<Task>)
    | HandOff
    | CountHandOff
    | Take(w: nat)
    | CountStart(w: nat)
    | Finish(w: nat, failed: bool)
    | CountEnd(w: nat)
    | Deliver(w: nat)
    | WaiterTake(id: string)
    | PutBack(i: nat)
    | PutBackTimeout(i: nat)
    | StreamTake
    | StreamSend(i: nat)
    | StreamCancel(i: nat)
    | CountResult(i: nat)

  const NO_STATS := Stats(0, 0, 0, 0, 0)

  function Fresh(c: Config): State
  {
    State(c, [], [], [], [], [], [], seq(c.workers, _ => Idle), [], [], [], NO_STATS, Owed(0, 0, 0, []), History([], 0, 0, 0, [], [], [], []))
  }

  /** The dispatcher is between two rounds of its select. */
  predicate DispatcherWaits(s: State) { s.flushing == [] && s.owed.pulls == 0 && s.owed.handOffs == 0 }

  function PriorityCapacity(c: Config): nat { c.queueSize / 2 }

  function WorkingCapacity(c: Config): nat { c.workers * 10 }

  predicate Urgent(t: Task) { t.priority <= 2 }

  /** A non-blocking send into the channel a task belongs to; none when that channel is full. */
  predicate HasRoom(s: State, t: Task)
  {
    if Urgent(t) then |s.priorityChan| < PriorityCapacity(s.config) else |s.taskChan| < s.config.queueSize
  }

  function Enqueue(s: State, t: Task): State
  {
    if Urgent(t) then s.(priorityChan := s.priorityChan + [t]) else s.(taskChan := s.taskChan + [t])
  }

  function Without<T>(s: seq<T>, i: nat): seq<T>
    requires i < |s|
  {
    s[..i] + s[i + 1..]
  }

  predicate SortedByPriority(s: seq<Task>) { forall i, j :: 0 <= i < j < |s| ==> s[i].priority <= s[j].priority }

  /** What the library sort may return. */
  predicate FlushOrder(s: State, order: seq<Task>)
  {
    var all := s.priorityBuffer + s.taskBuffer;
    if s.config.priorityEnabled then multiset(order) == multiset(all) && SortedByPriority(order) else order == all
  }

  // ---------------------------------------------------------------- adding and dispatching

  function DoAdd(s: State, id: string, priority: int): State
  {
    var t := Task(id, priority, |s.history.accepted|);
    if !HasRoom(s, t) then s
    else
      var s := Enqueue(s, t);
      s.(owed := s.owed.(adds := s.owed.adds + 1), history := s.history.(accepted := s.history.accepted + [t]))
  }

  function DoCountAdd(s: State): State
  {
    if s.owed.adds == 0 then s
    else s.(owed := s.owed.(adds := s.owed.adds - 1), stats := s.stats.(total := s.stats.total + 1, waiting := s.stats.waiting + 1))
  }

  function Pulled(s: State): State
  {
    s.(owed := s.owed.(pulls := s.owed.pulls + 1), history := s.history.(pulls := s.history.pulls + 1))
  }

  function DoPullTask(s: State): State
  {
    if !DispatcherWaits(s) || s.taskChan == [] then s
    else Pulled(s.(taskBuffer := s.taskBuffer + [s.taskChan[0]], taskChan := s.taskChan[1..]))
  }

  function DoPullPriority(s: State): State
  {
    if !DispatcherWaits(s) || s.priorityChan == [] then s
    else Pulled(s.(priorityBuffer := s.priorityBuffer + [s.priorityChan[0]], priorityChan := s.priorityChan[1..]))
  }

  function DoCountPull(s: State): State
  {
    if s.owed.pulls == 0 then s
    else s.(owed := s.owed.(pulls := s.owed.pulls - 1), stats := s.stats.(waiting := s.stats.waiting + 1))
  }

  function DoFlush(s: State, order: seq<Task>): State
  {
    if !DispatcherWaits(s) || !FlushOrder(s, order) then s
    else s.(flushing := order, taskBuffer := [], priorityBuffer := [])
  }

  /** The next task of a flush goes to the workers, back to its channel, or is lost when both are full. */
  function DoHandOff(s: State): State
  {
    if s.flushing == [] || s.owed.handOffs > 0 then s
    else
      var t := s.flushing[0];
      var s := s.(flushing := s.flushing[1..]);
      if |s.working| < WorkingCapacity(s.config) then
        s.(working := s.working + [t],
           owed := s.owed.(handOffs := s.owed.handOffs + 1),
           history := s.history.(handOffs := s.history.handOffs + 1))
      else if HasRoom(s, t) then
        var s := Enqueue(s, t);
        s.(history := s.history.(requeues := s.history.requeues + 1))
      else s.(history := s.history.(lostTasks := s.history.lostTasks + [t]))
  }

  function DoCountHandOff(s: State): State
  {
    if s.owed.handOffs == 0 then s
    else s.(owed := s.owed.(handOffs := s.owed.handOffs - 1), stats := s.stats.(waiting := s.stats.waiting - 1))
  }

  // ---------------------------------------------------------------- working

  function DoTake(s: State, w: nat): State
  {
    if w >= |s.workers| || !s.workers[w].Idle? || s.working == [] then s
    else s.(workers := s.workers[w := Taken(s.working[0])], working := s.working[1..])
  }

  function DoCountStart(s: State, w: nat): State
  {
    if w >= |s.workers| || !s.workers[w].Taken? then s
    else s.(workers := s.workers[w := Running(s.workers[w].task)], stats := s.stats.(active := s.stats.active + 1))
  }

  function DoFinish(s: State, w: nat, failed: bool): State
  {
    if w >= |s.workers| || !s.workers[w].Running? then s
    else s.(workers := s.workers[w := Ended(Result(s.workers[w].task, failed))])
  }

  function DoCountEnd(s: State, w: nat): State
  {
    if w >= |s.workers| || !s.workers[w].Ended? then s
    else s.(workers := s.workers[w := Finished(s.workers[w].result)], stats := s.stats.(active := s.stats.active - 1))
  }

  /** A result that does not fit into the result channel is dropped. */
  function DoDeliver(s: State, w: nat): State
  {
    if w >= |s.workers| || !s.workers[w].Finished? then s
    else
      var r := s.workers[w].result;
      var s := s.(workers := s.workers[w := Idle]);
      if |s.resultChan| < s.config.resultSize then s.(resultChan := s.resultChan + [r])
      else s.(history := s.history.(lostResults := s.history.lostResults + [r]))
  }

  // ---------------------------------------------------------------- results

  function Consume(s: State, r: Result): State
  {
    s.(owed := s.owed.(results := s.owed.results + [r]), history := s.history.(consumed := s.history.consumed + [r]))
  }

  /** A waiter keeps the result it waits for and puts any other back from a goroutine of its own. */
  function DoWaiterTake(s: State, id: string): State
  {
    if s.resultChan == [] then s
    else
      var r := s.resultChan[0];
      var s := s.(resultChan := s.resultChan[1..]);
      if r.task.id == id then Consume(s, r) else s.(putBack := s.putBack + [r])
  }

  function DoPutBack(s: State, i: nat): State
  {
    if i >= |s.putBack| || |s.resultChan| >= s.config.resultSize then s
    else s.(resultChan := s.resultChan + [s.putBack[i]], putBack := Without(s.putBack, i))
  }

  function DoPutBackTimeout(s: State, i: nat): State
  {
    if i >= |s.putBack| then s
    else s.(history := s.history.(lostResults := s.history.lostResults + [s.putBack[i]]), putBack := Without(s.putBack, i))
  }

  function DoStreamTake(s: State): State
  {
    if s.resultChan == [] then s else s.(held := s.held + [s.resultChan[0]], resultChan := s.resultChan[1..])
  }

  function DoStreamSend(s: State, i: nat): State
  {
    if i >= |s.held| then s else Consume(s.(held := Without(s.held, i)), s.held[i])
  }

  /** The stream ends with a result in hand: the result is gone, and nothing is logged. */
  function DoStreamCancel(s: State, i: nat): State
  {
    if i >= |s.held| then s
    else s.(history := s.history.(silentResults := s.history.silentResults + [s.held[i]]), held := Without(s.held, i))
  }

  function DoCountResult(s: State, i: nat): State
  {
    if i >= |s.owed.results| then s
    else
      var r := s.owed.results[i];
      var x := s.stats.(waiting := s.stats.waiting - 1);
      s.(owed := s.owed.(results := Without(s.owed.results, i)),
         stats := if r.failed then x.(failed := x.failed + 1) else x.(success := x.success + 1))
  }

  // ---------------------------------------------------------------- runs

  function Do(s: State, step: Step): State
  {
    match step
    case Add(id, priority) => DoAdd(s, id, priority)
    case CountAdd => DoCountAdd(s)
    case PullTask => DoPullTask(s)
    case PullPriority => DoPullPriority(s)
    case CountPull => DoCountPull(s)
    case Flush(order) => DoFlush(s, order)
    case HandOff => DoHandOff(s)
    case CountHandOff => DoCountHandOff(s)
    case Take(w) => DoTake(s, w)
    case CountStart(w) => DoCountStart(s, w)
    case Finish(w, failed) => DoFinish(s, w, failed)
    case CountEnd(w) => DoCountEnd(s, w)
    case Deliver(w) => DoDeliver(s, w)
    case WaiterTake(id) => DoWaiterTake(s, id)
    case PutBack(i) => DoPutBack(s, i)
    case PutBackTimeout(i) => DoPutBackTimeout(s, i)
    case StreamTake => DoStreamTake(s)
    case StreamSend(i) => DoStreamSend(s, i)
    case StreamCancel(i) => DoStreamCancel(s, i)
    case CountResult(i) => DoCountResult(s, i)
  }

  function Run(c: Config, steps: seq<Step>): State
  {
    if steps == [] then Fresh(c) else Do(Run(c, steps[..|steps| - 1]), steps[|steps| - 1])
  }
}

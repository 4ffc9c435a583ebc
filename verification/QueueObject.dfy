/**
 The upload queue as an object: channels, buffers and statistics are fields, and each method is one case
 of a select or one loop of the program, doing what the step of that name in module UploadQueue does.
 */
module QueueObject {
  import opened UploadQueue
  import opened QueueFlush

  class Queue {
    const config: Config
    var taskChan: seq<Task>
    var priorityChan: seq<Task>
    var taskBuffer: seq<Task>
    var priorityBuffer: seq<Task>
    var flushing: seq<Task>
    var working: seq<Task>
    var workers: seq<Worker>
    var resultChan: seq<Result>
    var putBack: seq<Result>
    var held: seq<Result>
    var stats: Stats
    var owed: Owed
    var history: History

    constructor (config: Config)
      ensures State() == Fresh(config)
    {
      this.config := config;
      taskChan, priorityChan, taskBuffer, priorityBuffer, flushing, working := [], [], [], [], [], [];
      workers := seq(config.workers, _ => Idle);
      resultChan, putBack, held, stats := [], [], [], NO_STATS;
      owed, history := Owed(0, 0, 0, []), History([], 0, 0, 0, [], [], [], []);
    }

    function State(): State
      reads this
    {
      UploadQueue.State(config, taskChan, priorityChan, taskBuffer, priorityBuffer, flushing, working, workers, resultChan, putBack, held,
                        stats, owed, history)
    }

    // -------------------------------------------------------------- statistics

    method UpdateWaitingTasks(delta: int)
      modifies this`stats
      ensures stats == old(stats).(waiting := old(stats).waiting + delta)
    {
      stats := stats.(waiting := stats.waiting + delta);
    }

    method UpdateStatsOnAdd()
      requires owed.adds > 0
      modifies this`stats, this`owed
      ensures State() == DoCountAdd(old(State()))
    {
      owed := owed.(adds := owed.adds - 1);
      stats := stats.(total := stats.total + 1);
      UpdateWaitingTasks(1);
    }

    method UpdateStatsOnResult(i: nat)
      requires i < |owed.results|
      modifies this`stats, this`owed
      ensures State() == DoCountResult(old(State()), i)
    {
      var failed := owed.results[i].failed;
      owed := owed.(results := Without(owed.results, i));
      UpdateWaitingTasks(-1);
      if failed {
        stats := stats.(failed := stats.failed + 1);
      } else {
        stats := stats.(success := stats.success + 1);
      }
    }

    // -------------------------------------------------------------- adding and dispatching

    /** A non-blocking send into the channel the task belongs to. */
    method TrySend(t: Task) returns (ok: bool)
      modifies this`taskChan, this`priorityChan
      ensures ok == HasRoom(old(State()), t)
      ensures State() == if ok then Enqueue(old(State()), t) else old(State())
    {
      if t.priority <= 2 {
        if |priorityChan| >= PriorityCapacity(config) {
          return false;
        }
        priorityChan := priorityChan + [t];
      } else {
        if |taskChan| >= config.queueSize {
          return false;
        }
        taskChan := taskChan + [t];
      }
      return true;
    }

    /** Adds a task and counts it, with nothing in between; a full channel refuses the task. */
    method AddTask(id: string, priority: int) returns (ok: bool)
      modifies this
      ensures ok == HasRoom(old(State()), Task(id, priority, |old(history).accepted|))
      ensures State() == if ok then DoCountAdd(DoAdd(old(State()), id, priority)) else old(State())
    {
      var t := Task(id, priority, |history.accepted|);
      ok := TrySend(t);
      if ok {
        owed := owed.(adds := owed.adds + 1);
        history := history.(accepted := history.accepted + [t]);
        UpdateStatsOnAdd();
      }
    }

    /** The tasks that fit are added, in order; the number of refusals is counted. */
    method AddBatchTasks(tasks: seq<(string, int)>) returns (added: nat, refused: nat)
      modifies this
      ensures added + refused == |tasks| && State() == AddAll(old(State()), tasks)
      ensures |history.accepted| == |old(history).accepted| + added
    {
      added, refused := 0, 0;
      for i := 0 to |tasks|
        invariant added + refused == i
        invariant AddAll(State(), tasks[i..]) == AddAll(old(State()), tasks)
        invariant |history.accepted| == |old(history).accepted| + added
      {
        ghost var before := State();
        assert tasks[i..][0] == tasks[i] && tasks[i..][1..] == tasks[i + 1..];
        var ok := AddTask(tasks[i].0, tasks[i].1);
        AddOneMore(before, tasks[i..]);
        if ok {
          added := added + 1;
        } else {
          refused := refused + 1;
        }
      }
    }

    method OnTask()
      requires DispatcherWaits(State()) && taskChan != []
      modifies this
      ensures State() == DoCountPull(DoPullTask(old(State())))
    {
      taskBuffer, taskChan := taskBuffer + [taskChan[0]], taskChan[1..];
      history := history.(pulls := history.pulls + 1);
      UpdateWaitingTasks(1);
    }

    method OnPriorityTask()
      requires DispatcherWaits(State()) && priorityChan != []
      modifies this
      ensures State() == DoCountPull(DoPullPriority(old(State())))
    {
      priorityBuffer, priorityChan := priorityBuffer + [priorityChan[0]], priorityChan[1..];
      history := history.(pulls := history.pulls + 1);
      UpdateWaitingTasks(1);
    }

    /** `order` is what the library sort made of the two buffers. */
    method OnTick(order: seq<Task>)
      requires DispatcherWaits(State()) && FlushOrder(State(), order)
      modifies this
      ensures State() == FlushRest(DoFlush(old(State()), order))
    {
      flushing := order;
      taskBuffer, priorityBuffer := [], [];
      FlushTasks();
    }

    method FlushTasks()
      requires owed.handOffs == 0
      modifies this
      ensures State() == FlushRest(old(State()))
    {
      hide HandOne, FlushRest;
      while flushing != []
        invariant owed.handOffs == 0
        invariant FlushRest(State()) == FlushRest(old(State()))
        decreases |flushing|
      {
        FlushUnfold(State());
        HandOffNext();
      }
      FlushedAlready(State());
    }

    /** One turn of the flush loop. */
    method HandOffNext()
      requires flushing != [] && owed.handOffs == 0
      modifies this
      ensures State() == HandOne(old(State())) && flushing == old(flushing)[1..] && owed == old(owed)
    {
      var t := flushing[0];
      flushing := flushing[1..];
      if |working| < WorkingCapacity(config) {
        working := working + [t];
        history := history.(handOffs := history.handOffs + 1);
        UpdateWaitingTasks(-1);
      } else {
        var ok := TrySend(t);
        if ok {
          history := history.(requeues := history.requeues + 1);
        } else {
          history := history.(lostTasks := history.lostTasks + [t]);
        }
      }
    }

    // -------------------------------------------------------------- workers and results

    /** The receive of a task and the start of processNextTask, with nothing in between. */
    method TakeTask(w: nat)
      requires w < |workers| && workers[w] == Idle && working != []
      modifies this
      ensures State() == DoCountStart(DoTake(old(State()), w), w)
    {
      workers := workers[w := Running(working[0])];
      working := working[1..];
      stats := stats.(active := stats.active + 1);
    }

    /** The end of processNextTask: the result is offered to the result channel once. */
    method DeliverResult(w: nat, failed: bool)
      requires w < |workers| && workers[w].Running?
      modifies this
      ensures State() == DoDeliver(DoCountEnd(DoFinish(old(State()), w, failed), w), w)
    {
      var r := Result(workers[w].task, failed);
      stats := stats.(active := stats.active - 1);
      if |resultChan| < config.resultSize {
        resultChan := resultChan + [r];
      } else {
        history := history.(lostResults := history.lostResults + [r]);
      }
      workers := workers[w := Idle];
    }

    /** One round of a waiter: only a result with the awaited id ends the wait. */
    method AwaitResult(id: string) returns (r: Result, mine: bool)
      requires resultChan != []
      modifies this
      ensures State() == DoWaiterTake(old(State()), id)
      ensures r == old(resultChan)[0] && (mine <==> r.task.id == id)
    {
      r := resultChan[0];
      resultChan := resultChan[1..];
      mine := r.task.id == id;
      if mine {
        owed := owed.(results := owed.results + [r]);
        history := history.(consumed := history.consumed + [r]);
      } else {
        putBack := putBack + [r];
      }
    }
  }

  function AddAll(s: State, tasks: seq<(string, int)>): State
    decreases |tasks|
  {
    if tasks == [] then s
    else
      var (id, priority) := tasks[0];
      var r := if HasRoom(s, Task(id, priority, |s.history.accepted|)) then DoCountAdd(DoAdd(s, id, priority)) else s;
      AddAll(r, tasks[1..])
  }

  lemma AddOneMore(s: State, tasks: seq<(string, int)>)
    requires tasks != []
    ensures
      var id, priority := tasks[0].0, tasks[0].1;
      AddAll(s, tasks) == AddAll(if HasRoom(s, Task(id, priority, |s.history.accepted|)) then DoCountAdd(DoAdd(s, id, priority)) else s, tasks[1..])
  {
  }

  lemma FlushUnfold(s: State)
    requires s.flushing != [] && s.owed.handOffs == 0
    ensures FlushRest(s) == FlushRest(HandOne(s))
  {
  }

  lemma FlushedAlready(s: State)
    requires s.flushing == []
    ensures FlushRest(s) == s
  {
  }
}

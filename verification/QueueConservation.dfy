/**
 Where tasks are: in every run each accepted task is in one place, or was delivered once, or was lost once,
 in a branch that logs the loss or by a stream that was cancelled. And what the statistics then say.
 */
module QueueConservation {
  import opened UploadQueue

  // ---------------------------------------------------------------- counting

  function Count(s: seq<Task>, t: Task): nat { multiset(s)[t] }

  function TasksOf(rs: seq<Result>): (ts: seq<Task>)
    ensures |ts| == |rs| && forall i :: 0 <= i < |rs| ==> ts[i] == rs[i].task
  {
    seq(|rs|, i requires 0 <= i < |rs| => rs[i].task)
  }

  function CountResults(rs: seq<Result>, t: Task): nat { Count(TasksOf(rs), t) }

  function Has(w: Worker, t: Task): nat
  {
    match w
    case Idle => 0
    case Taken(x) => if x == t then 1 else 0
    case Running(x) => if x == t then 1 else 0
    case Ended(r) => if r.task == t then 1 else 0
    case Finished(r) => if r.task == t then 1 else 0
  }

  function CountWorkers(ws: seq<Worker>, t: Task): nat { if ws == [] then 0 else Has(ws[0], t) + CountWorkers(ws[1..], t) }

  function Busy(ws: seq<Worker>): nat { if ws == [] then 0 else (if ws[0].Idle? then 0 else 1) + Busy(ws[1..]) }

  /** Between the two counts of itself. */
  predicate CountsItself(x: Worker) { x.Running? || x.Ended? }

  function Counted(ws: seq<Worker>): nat { if ws == [] then 0 else (if CountsItself(ws[0]) then 1 else 0) + Counted(ws[1..]) }

  lemma CountSnoc(s: seq<Task>, x: Task, t: Task)
    ensures Count(s + [x], t) == Count(s, t) + (if x == t then 1 else 0)
  {
  }

  lemma CountHead(s: seq<Task>, t: Task)
    requires s != []
    ensures Count(s, t) == (if s[0] == t then 1 else 0) + Count(s[1..], t)
  {
    assert s == [s[0]] + s[1..];
  }

  lemma CountSum(s: seq<Task>, r: seq<Task>, t: Task)
    ensures Count(s + r, t) == Count(s, t) + Count(r, t)
  {
  }

  lemma CountWithout(s: seq<Task>, i: nat, t: Task)
    requires i < |s|
    ensures Count(s, t) == (if s[i] == t then 1 else 0) + Count(Without(s, i), t)
  {
    assert s == s[..i] + [s[i]] + s[i + 1..];
  }

  lemma ResultsSnoc(s: seq<Result>, r: Result, t: Task)
    ensures CountResults(s + [r], t) == CountResults(s, t) + (if r.task == t then 1 else 0)
  {
    assert TasksOf(s + [r]) == TasksOf(s) + [r.task];
  }

  lemma ResultsHead(s: seq<Result>, t: Task)
    requires s != []
    ensures CountResults(s, t) == (if s[0].task == t then 1 else 0) + CountResults(s[1..], t)
  {
    assert TasksOf(s[1..]) == TasksOf(s)[1..];
    CountHead(TasksOf(s), t);
  }

  lemma ResultsWithout(s: seq<Result>, i: nat, t: Task)
    requires i < |s|
    ensures CountResults(s, t) == (if s[i].task == t then 1 else 0) + CountResults(Without(s, i), t)
  {
    assert TasksOf(Without(s, i)) == Without(TasksOf(s), i);
    CountWithout(TasksOf(s), i, t);
  }

  lemma {:induction false} WorkersUpdate(ws: seq<Worker>, w: nat, x: Worker, t: Task)
    requires w < |ws|
    ensures CountWorkers(ws[w := x], t) + Has(ws[w], t) == CountWorkers(ws, t) + Has(x, t)
    ensures Busy(ws[w := x]) + (if ws[w].Idle? then 0 else 1) == Busy(ws) + (if x.Idle? then 0 else 1)
    ensures Counted(ws[w := x]) + (if CountsItself(ws[w]) then 1 else 0) == Counted(ws) + (if CountsItself(x) then 1 else 0)
  {
    if w == 0 {
      assert ws[w := x][1..] == ws[1..];
    } else {
      WorkersUpdate(ws[1..], w - 1, x, t);
      assert ws[w := x][1..] == ws[1..][w - 1 := x];
    }
  }

  lemma {:induction false} AllIdle(n: nat, t: Task)
    ensures var ws := seq(n, _ => Idle); CountWorkers(ws, t) == 0 && Busy(ws) == 0 && Counted(ws) == 0
  {
    if n > 0 {
      AllIdle(n - 1, t);
      assert seq(n, _ => Idle)[1..] == seq(n - 1, _ => Idle);
    }
  }

  // ---------------------------------------------------------------- places

  /** Before a worker is told: in a channel, in a buffer of the dispatcher, or in a flush under way. */
  ghost function PlacesBefore(s: State, t: Task): nat
  {
    Count(s.taskChan, t) + Count(s.priorityChan, t) + Count(s.taskBuffer, t) + Count(s.priorityBuffer, t) + Count(s.flushing, t)
  }

  /** After that: on the way to a worker, at a worker, or as a result nobody has yet. */
  ghost function PlacesAfter(s: State, t: Task): nat
  {
    Count(s.working, t) + CountWorkers(s.workers, t) + CountResults(s.resultChan, t) + CountResults(s.putBack, t) + CountResults(s.held, t)
  }

  ghost function TimesConsumed(s: State, t: Task): nat { CountResults(s.history.consumed, t) }

  ghost function TimesLogged(s: State, t: Task): nat { Count(s.history.lostTasks, t) + CountResults(s.history.lostResults, t) }

  ghost function TimesDropped(s: State, t: Task): nat { CountResults(s.history.silentResults, t) }

  ghost function Whereabouts(s: State, t: Task): nat
  {
    PlacesBefore(s, t) + PlacesAfter(s, t) + TimesConsumed(s, t) + TimesLogged(s, t) + TimesDropped(s, t)
  }

  ghost function TimesAccepted(s: State, t: Task): nat { Count(s.history.accepted, t) }

  /** The same number of places for t, apart from those it gained by being accepted. */
  ghost predicate Conserves(s: State, r: State, t: Task)
  {
    Whereabouts(r, t) - TimesAccepted(r, t) == Whereabouts(s, t) - TimesAccepted(s, t)
  }

  lemma AddKeeps(s: State, id: string, priority: int, t: Task)
    ensures Conserves(s, DoAdd(s, id, priority), t)
  {
    hide Count, CountResults, CountWorkers;
    var x := Task(id, priority, |s.history.accepted|);
    CountSnoc(s.taskChan, x, t);
    CountSnoc(s.priorityChan, x, t);
    CountSnoc(s.history.accepted, x, t);
  }

  lemma PullKeeps(s: State, t: Task)
    ensures Conserves(s, DoPullTask(s), t) && Conserves(s, DoPullPriority(s), t)
  {
    hide Count, CountResults, CountWorkers;
    if s.taskChan != [] {
      CountHead(s.taskChan, t);
      CountSnoc(s.taskBuffer, s.taskChan[0], t);
    }
    if s.priorityChan != [] {
      CountHead(s.priorityChan, t);
      CountSnoc(s.priorityBuffer, s.priorityChan[0], t);
    }
  }

  lemma HandOffKeeps(s: State, t: Task)
    ensures Conserves(s, DoHandOff(s), t)
  {
    hide Count, CountResults, CountWorkers;
    if s.flushing != [] {
      var x := s.flushing[0];
      CountHead(s.flushing, t);
      CountSnoc(s.working, x, t);
      CountSnoc(s.taskChan, x, t);
      CountSnoc(s.priorityChan, x, t);
      CountSnoc(s.history.lostTasks, x, t);
    }
  }

  lemma FlushKeeps(s: State, order: seq<Task>, t: Task)
    ensures Conserves(s, DoFlush(s, order), t)
  {
    hide CountResults, CountWorkers;
    CountSum(s.priorityBuffer, s.taskBuffer, t);
  }

  lemma WorkKeeps(s: State, w: nat, failed: bool, t: Task)
    ensures Conserves(s, DoTake(s, w), t) && Conserves(s, DoFinish(s, w, failed), t) && Conserves(s, DoDeliver(s, w), t)
    ensures Conserves(s, DoCountStart(s, w), t) && Conserves(s, DoCountEnd(s, w), t)
  {
    hide Count, CountResults, CountWorkers;
    if w < |s.workers| {
      match s.workers[w]
      case Idle =>
        if s.working != [] {
          CountHead(s.working, t);
          WorkersUpdate(s.workers, w, Taken(s.working[0]), t);
        }
      case Taken(x) =>
        WorkersUpdate(s.workers, w, Running(x), t);
      case Running(x) =>
        WorkersUpdate(s.workers, w, Ended(Result(x, failed)), t);
      case Ended(r) =>
        WorkersUpdate(s.workers, w, Finished(r), t);
      case Finished(r) =>
        WorkersUpdate(s.workers, w, Idle, t);
        ResultsSnoc(s.resultChan, r, t);
        ResultsSnoc(s.history.lostResults, r, t);
    }
  }

  lemma TakeResultKeeps(s: State, id: string, t: Task)
    ensures Conserves(s, DoWaiterTake(s, id), t) && Conserves(s, DoStreamTake(s), t)
  {
    hide Count, CountResults, CountWorkers;
    if s.resultChan != [] {
      var r := s.resultChan[0];
      ResultsHead(s.resultChan, t);
      ResultsSnoc(s.history.consumed, r, t);
      ResultsSnoc(s.putBack, r, t);
      ResultsSnoc(s.held, r, t);
    }
  }

  lemma PutBackKeeps(s: State, i: nat, t: Task)
    ensures Conserves(s, DoPutBack(s, i), t) && Conserves(s, DoPutBackTimeout(s, i), t)
  {
    hide Count, CountResults, CountWorkers;
    if i < |s.putBack| {
      var r := s.putBack[i];
      ResultsWithout(s.putBack, i, t);
      ResultsSnoc(s.resultChan, r, t);
      ResultsSnoc(s.history.lostResults, r, t);
    }
  }

  lemma StreamKeeps(s: State, i: nat, t: Task)
    ensures Conserves(s, DoStreamSend(s, i), t) && Conserves(s, DoStreamCancel(s, i), t)
  {
    hide Count, CountResults, CountWorkers;
    if i < |s.held| {
      var r := s.held[i];
      ResultsWithout(s.held, i, t);
      ResultsSnoc(s.history.consumed, r, t);
      ResultsSnoc(s.history.silentResults, r, t);
    }
  }

  lemma CountingKeeps(s: State, i: nat, t: Task)
    ensures Conserves(s, DoCountAdd(s), t) && Conserves(s, DoCountPull(s), t)
    ensures Conserves(s, DoCountHandOff(s), t) && Conserves(s, DoCountResult(s, i), t)
  {
    hide Count, CountResults, CountWorkers, Without;
  }

  lemma StepConserves(s: State, step: Step, t: Task)
    ensures Conserves(s, Do(s, step), t)
  {
    hide Conserves, DoAdd, DoCountAdd, DoPullTask, DoPullPriority, DoCountPull, DoFlush, DoHandOff, DoCountHandOff,
      DoTake, DoCountStart, DoFinish, DoCountEnd, DoDeliver, DoWaiterTake, DoPutBack, DoPutBackTimeout, DoStreamTake, DoStreamSend, DoStreamCancel, DoCountResult;
    match step
    case Add(id, priority) => AddKeeps(s, id, priority, t);
    case PullTask => PullKeeps(s, t);
    case PullPriority => PullKeeps(s, t);
    case Flush(order) => FlushKeeps(s, order, t);
    case HandOff => HandOffKeeps(s, t);
    case Take(w) => WorkKeeps(s, w, false, t);
    case Finish(w, failed) => WorkKeeps(s, w, failed, t);
    case CountStart(w) => WorkKeeps(s, w, false, t);
    case CountEnd(w) => WorkKeeps(s, w, false, t);
    case Deliver(w) => WorkKeeps(s, w, false, t);
    case WaiterTake(id) => TakeResultKeeps(s, id, t);
    case StreamTake => TakeResultKeeps(s, "", t);
    case PutBack(i) => PutBackKeeps(s, i, t);
    case PutBackTimeout(i) => PutBackKeeps(s, i, t);
    case StreamSend(i) => StreamKeeps(s, i, t);
    case StreamCancel(i) => StreamKeeps(s, i, t);
    case CountAdd => CountingKeeps(s, 0, t);
    case CountPull => CountingKeeps(s, 0, t);
    case CountHandOff => CountingKeeps(s, 0, t);
    case CountResult(i) => CountingKeeps(s, i, t);
  }

  lemma NothingYet(t: Task)
    ensures Count([], t) == 0 && CountResults([], t) == 0
  {
  }

  lemma {:induction false} RunConserves(c: Config, steps: seq<Step>, t: Task)
    ensures Whereabouts(Run(c, steps), t) == TimesAccepted(Run(c, steps), t)
  {
    hide Count, CountResults, CountWorkers, Do;
    if steps == [] {
      AllIdle(c.workers, t);
      NothingYet(t);
    } else {
      RunConserves(c, steps[..|steps| - 1], t);
      StepConserves(Run(c, steps[..|steps| - 1]), steps[|steps| - 1], t);
    }
  }

  ghost predicate Numbered(a: seq<Task>) { forall i :: 0 <= i < |a| ==> a[i].serial == i }

  lemma AcceptedGrows(s: State, step: Step)
    requires Numbered(s.history.accepted)
    ensures Numbered(Do(s, step).history.accepted)
  {
  }

  lemma {:induction false} SerialsAreIndices(c: Config, steps: seq<Step>)
    ensures Numbered(Run(c, steps).history.accepted)
  {
    hide Do;
    if steps != [] {
      SerialsAreIndices(c, steps[..|steps| - 1]);
      AcceptedGrows(Run(c, steps[..|steps| - 1]), steps[|steps| - 1]);
    }
  }

  lemma CountDistinct(s: seq<Task>, i: nat)
    requires i < |s| && Numbered(s)
    ensures Count(s, s[i]) == 1
  {
    CountWithout(s, i, s[i]);
    assert s[i] !in Without(s, i);
  }

  /**
   Each accepted task is in one place, or delivered once, or lost once with a log line, or dropped once
   without one; and nothing else is anywhere.
   */
  lemma EveryTaskIsSomewhereOnce(c: Config, steps: seq<Step>, t: Task)
    ensures var s := Run(c, steps);
            PlacesBefore(s, t) + PlacesAfter(s, t) + TimesConsumed(s, t) + TimesLogged(s, t) + TimesDropped(s, t)
            == if t in s.history.accepted then 1 else 0
  {
    var s := Run(c, steps);
    RunConserves(c, steps, t);
    SerialsAreIndices(c, steps);
    if t in s.history.accepted {
      var i :| 0 <= i < |s.history.accepted| && s.history.accepted[i] == t;
      CountDistinct(s.history.accepted, i);
    }
  }

  /** The k-th step of a run cancels a stream that holds a result. */
  ghost predicate CancelsHolding(c: Config, steps: seq<Step>, k: nat)
    requires k < |steps|
  {
    steps[k].StreamCancel? && steps[k].i < |Run(c, steps[..k]).held|
  }

  lemma OnlyCancelsDrop(s: State, step: Step)
    ensures
      Do(s, step).history.silentResults ==
      s.history.silentResults + if step.StreamCancel? && step.i < |s.held| then [s.held[step.i]] else []
  {
  }

  lemma {:induction false} DropsAreCancels(c: Config, steps: seq<Step>)
    ensures Run(c, steps).history.silentResults == [] <==> forall k: nat :: k < |steps| ==> !CancelsHolding(c, steps, k)
  {
    hide Do;
    if steps != [] {
      var n := |steps| - 1;
      DropsAreCancels(c, steps[..n]);
      OnlyCancelsDrop(Run(c, steps[..n]), steps[n]);
      forall k: nat | k < n ensures CancelsHolding(c, steps, k) == CancelsHolding(c, steps[..n], k) {
        assert steps[..n][..k] == steps[..k];
      }
      assert CancelsHolding(c, steps, n) == (Run(c, steps).history.silentResults != Run(c, steps[..n]).history.silentResults);
    }
  }

  /** A task that is nowhere any more and was not delivered. */
  ghost predicate Lost(s: State, t: Task)
  {
    t in s.history.accepted && PlacesBefore(s, t) == 0 && PlacesAfter(s, t) == 0 && TimesConsumed(s, t) == 0
  }

  /** Every loss is logged, and once, if and only if no stream is cancelled while it holds a result. */
  lemma LossesAreLogged(c: Config, steps: seq<Step>)
    ensures
      (forall t :: Lost(Run(c, steps), t) ==> TimesLogged(Run(c, steps), t) == 1)
      <==> forall k: nat :: k < |steps| ==> !CancelsHolding(c, steps, k)
  {
    var s := Run(c, steps);
    var silent := s.history.silentResults;
    DropsAreCancels(c, steps);
    forall t | Lost(s, t) ensures TimesLogged(s, t) + TimesDropped(s, t) == 1 {
      EveryTaskIsSomewhereOnce(c, steps, t);
    }
    if silent != [] {
      var t := silent[0].task;
      ResultsHead(silent, t);
      EveryTaskIsSomewhereOnce(c, steps, t);
      assert Lost(s, t) && TimesLogged(s, t) == 0;
    }
  }

  // ---------------------------------------------------------------- statistics

  ghost function Chans(s: State): nat { |s.taskChan| + |s.priorityChan| }

  ghost function Buffered(s: State): nat { |s.taskBuffer| + |s.priorityBuffer| + |s.flushing| }

  ghost function InFlight(s: State): nat { |s.working| + Busy(s.workers) + |s.resultChan| + |s.putBack| + |s.held| }

  function Failures(rs: seq<Result>): nat { if rs == [] then 0 else (if rs[0].failed then 1 else 0) + Failures(rs[1..]) }

  lemma {:induction false} FailuresSnoc(rs: seq<Result>, r: Result)
    ensures Failures(rs + [r]) == Failures(rs) + (if r.failed then 1 else 0)
  {
    if rs != [] {
      FailuresSnoc(rs[1..], r);
      assert (rs + [r])[1..] == rs[1..] + [r];
    }
  }

  lemma {:induction false} FailuresWithout(rs: seq<Result>, i: nat)
    requires i < |rs|
    ensures Failures(rs) == Failures(Without(rs, i)) + (if rs[i].failed then 1 else 0)
  {
    if i == 0 {
      assert Without(rs, 0) == rs[1..];
    } else {
      FailuresWithout(rs[1..], i - 1);
      assert Without(rs, i)[1..] == Without(rs[1..], i - 1);
    }
  }

  /** Every task passes the dispatcher's gates one way: what went in is what is inside or went out. */
  ghost predicate Flows(s: State)
  {
    var h := s.history;
    && |h.accepted| + h.requeues == Chans(s) + h.pulls
    && h.pulls == Buffered(s) + h.handOffs + h.requeues + |h.lostTasks|
    && h.handOffs == InFlight(s) + |h.consumed| + |h.lostResults| + |h.silentResults|
  }

  /** The statistics are the history, less the updates still owed. */
  ghost predicate Booked(s: State)
  {
    var h := s.history;
    && s.stats.total + s.owed.adds == |h.accepted|
    && s.stats.success + s.stats.failed + |s.owed.results| == |h.consumed|
    && s.stats.failed + Failures(s.owed.results) == Failures(h.consumed)
    && s.stats.waiting + s.owed.adds + s.owed.pulls - s.owed.handOffs - |s.owed.results| == |h.accepted| + h.pulls - h.handOffs - |h.consumed|
    && s.stats.active == Counted(s.workers)
    && s.owed.pulls <= |s.taskBuffer| + |s.priorityBuffer|
    && s.owed.handOffs <= 1
  }

  ghost predicate Bounded(s: State)
  {
    && |s.taskChan| <= s.config.queueSize
    && |s.priorityChan| <= PriorityCapacity(s.config)
    && |s.working| <= WorkingCapacity(s.config)
    && |s.resultChan| <= s.config.resultSize
    && |s.workers| == s.config.workers
  }

  ghost predicate Inv(s: State) { Flows(s) && Booked(s) && Bounded(s) }

  lemma WorkSizes(s: State, w: nat, failed: bool)
    requires Inv(s)
    ensures Inv(DoTake(s, w)) && Inv(DoFinish(s, w, failed)) && Inv(DoDeliver(s, w)) && Inv(DoCountStart(s, w)) && Inv(DoCountEnd(s, w))
  {
    hide Busy, Counted, Failures;
    var t := Task("", 0, 0);
    if w < |s.workers| {
      match s.workers[w]
      case Idle =>
        if s.working != [] {
          WorkersUpdate(s.workers, w, Taken(s.working[0]), t);
        }
      case Taken(x) =>
        WorkersUpdate(s.workers, w, Running(x), t);
      case Running(x) =>
        WorkersUpdate(s.workers, w, Ended(Result(x, failed)), t);
      case Ended(r) =>
        WorkersUpdate(s.workers, w, Finished(r), t);
      case Finished(r) =>
        WorkersUpdate(s.workers, w, Idle, t);
    }
  }

  lemma TakeResultSizes(s: State, id: string)
    requires Inv(s)
    ensures Inv(DoWaiterTake(s, id)) && Inv(DoStreamTake(s))
  {
    hide Busy, Counted, Failures;
    if s.resultChan != [] {
      FailuresSnoc(s.owed.results, s.resultChan[0]);
      FailuresSnoc(s.history.consumed, s.resultChan[0]);
    }
  }

  lemma PutBackSizes(s: State, i: nat)
    requires Inv(s)
    ensures Inv(DoPutBack(s, i)) && Inv(DoPutBackTimeout(s, i))
  {
    hide Busy, Counted, Failures;
  }

  lemma StreamSizes(s: State, i: nat)
    requires Inv(s)
    ensures Inv(DoStreamSend(s, i)) && Inv(DoStreamCancel(s, i))
  {
    hide Busy, Counted, Failures;
    if i < |s.held| {
      FailuresSnoc(s.owed.results, s.held[i]);
      FailuresSnoc(s.history.consumed, s.held[i]);
    }
  }

  lemma CountSizes(s: State, i: nat)
    requires Inv(s)
    ensures Inv(DoCountAdd(s)) && Inv(DoCountPull(s)) && Inv(DoCountHandOff(s)) && Inv(DoCountResult(s, i))
  {
    hide Busy, Counted, Failures;
    if i < |s.owed.results| {
      FailuresWithout(s.owed.results, i);
    }
  }

  lemma SamePermutationLength(s: State, order: seq<Task>)
    requires FlushOrder(s, order)
    ensures |order| == |s.taskBuffer| + |s.priorityBuffer|
  {
    assert |multiset(order)| == |multiset(s.priorityBuffer + s.taskBuffer)|;
  }

  lemma AddSizes(s: State, id: string, priority: int)
    requires Inv(s)
    ensures Inv(DoAdd(s, id, priority))
  {
    hide Busy, Counted, Failures;
  }

  lemma PullSizes(s: State)
    requires Inv(s)
    ensures Inv(DoPullTask(s)) && Inv(DoPullPriority(s))
  {
    hide Busy, Counted, Failures;
  }

  lemma HandOffSizes(s: State)
    requires Inv(s)
    ensures Inv(DoHandOff(s))
  {
    hide Busy, Counted, Failures;
  }

  lemma FlushSizes(s: State, order: seq<Task>)
    requires Inv(s)
    ensures Inv(DoFlush(s, order))
  {
    hide Busy, Counted, Failures;
    if FlushOrder(s, order) {
      SamePermutationLength(s, order);
    }
  }

  lemma StepBooks(s: State, step: Step)
    requires Inv(s)
    ensures Inv(Do(s, step))
  {
    hide Inv, DoAdd, DoCountAdd, DoPullTask, DoPullPriority, DoCountPull, DoFlush, DoHandOff, DoCountHandOff,
      DoTake, DoCountStart, DoFinish, DoCountEnd, DoDeliver, DoWaiterTake, DoPutBack, DoPutBackTimeout, DoStreamTake, DoStreamSend, DoStreamCancel, DoCountResult;
    match step
    case Add(id, priority) => AddSizes(s, id, priority);
    case PullTask => PullSizes(s);
    case PullPriority => PullSizes(s);
    case HandOff => HandOffSizes(s);
    case Flush(order) => FlushSizes(s, order);
    case Take(w) => WorkSizes(s, w, false);
    case Finish(w, failed) => WorkSizes(s, w, failed);
    case CountStart(w) => WorkSizes(s, w, false);
    case CountEnd(w) => WorkSizes(s, w, false);
    case Deliver(w) => WorkSizes(s, w, false);
    case WaiterTake(id) => TakeResultSizes(s, id);
    case StreamTake => TakeResultSizes(s, "");
    case PutBack(i) => PutBackSizes(s, i);
    case PutBackTimeout(i) => PutBackSizes(s, i);
    case StreamSend(i) => StreamSizes(s, i);
    case StreamCancel(i) => StreamSizes(s, i);
    case CountAdd => CountSizes(s, 0);
    case CountPull => CountSizes(s, 0);
    case CountHandOff => CountSizes(s, 0);
    case CountResult(i) => CountSizes(s, i);
  }

  lemma {:induction false} RunBooks(c: Config, steps: seq<Step>)
    ensures Inv(Run(c, steps))
  {
    hide Do;
    if steps == [] {
      AllIdle(c.workers, Task("", 0, 0));
    } else {
      RunBooks(c, steps[..|steps| - 1]);
      StepBooks(Run(c, steps[..|steps| - 1]), steps[|steps| - 1]);
    }
  }

  // ---------------------------------------------------------------- theorems

  /**
   What the waiting gauge shows. Tasks the dispatcher holds count twice, and each requeue and each loss
   leaves it too high for good; updates still owed make up the difference.
   */
  lemma WaitingGauge(c: Config, steps: seq<Step>)
    ensures
      var s := Run(c, steps);
      s.stats.waiting
      == Chans(s) + 2 * Buffered(s) + InFlight(s)
         + s.history.requeues + 2 * |s.history.lostTasks| + |s.history.lostResults| + |s.history.silentResults|
         + s.owed.handOffs + |s.owed.results| - s.owed.pulls - s.owed.adds
  {
    RunBooks(c, steps);
  }

  /** The gauge is below zero by at most the number of tasks that are sent but not yet counted. */
  lemma WaitingAtLeastMinusUncounted(c: Config, steps: seq<Step>)
    ensures Run(c, steps).stats.waiting >= -(Run(c, steps).owed.adds as int)
  {
    RunBooks(c, steps);
  }

  function Uploading(ws: seq<Worker>): nat { if ws == [] then 0 else (if ws[0].Running? then 1 else 0) + Uploading(ws[1..]) }

  function JustEnded(ws: seq<Worker>): nat { if ws == [] then 0 else (if ws[0].Ended? then 1 else 0) + JustEnded(ws[1..]) }

  lemma {:induction false} CountedParts(ws: seq<Worker>)
    ensures Counted(ws) == Uploading(ws) + JustEnded(ws) <= Busy(ws) <= |ws|
  {
    if ws != [] {
      CountedParts(ws[1..]);
    }
  }

  /** The active gauge shows the uploads under way and those that have just ended, and never more than there are workers. */
  lemma ActiveGauge(c: Config, steps: seq<Step>)
    ensures var s := Run(c, steps);
            s.stats.active == Uploading(s.workers) + JustEnded(s.workers) <= Busy(s.workers) <= c.workers
  {
    RunBooks(c, steps);
    CountedParts(Run(c, steps).workers);
    SameConfig(c, steps);
  }

  lemma {:induction false} SameConfig(c: Config, steps: seq<Step>)
    ensures Run(c, steps).config == c
  {
    if steps != [] {
      SameConfig(c, steps[..|steps| - 1]);
    }
  }

  /** Nothing is on its way and nothing is owed. */
  ghost predicate Drained(s: State) { Chans(s) == 0 && Buffered(s) == 0 && InFlight(s) == 0 && s.owed == Owed(0, 0, 0, []) }

  /** After everything has drained the gauge is zero exactly when nothing was requeued or lost. */
  lemma GaugeDrifts(c: Config, steps: seq<Step>)
    requires Drained(Run(c, steps))
    ensures
      var s := Run(c, steps);
      var h := s.history;
      && s.stats.total == |h.accepted| == |h.consumed| + |h.lostTasks| + |h.lostResults| + |h.silentResults|
      && s.stats.success + s.stats.failed == |h.consumed| && s.stats.failed == Failures(h.consumed)
      && s.stats.waiting == h.requeues + 2 * |h.lostTasks| + |h.lostResults| + |h.silentResults|
      && (s.stats.waiting == 0 <==> h.requeues == 0 && h.lostTasks == [] && h.lostResults == [] && h.silentResults == [])
  {
    RunBooks(c, steps);
  }

  /** Each send is counted before anything else happens. */
  ghost predicate SendsCounted(steps: seq<Step>)
  {
    forall i :: 0 <= i < |steps| - 1 && steps[i].Add? ==> steps[i + 1].CountAdd?
  }

  lemma {:induction false} FewUncounted(c: Config, steps: seq<Step>)
    requires SendsCounted(steps)
    ensures Run(c, steps).owed.adds <= if steps != [] && steps[|steps| - 1].Add? then 1 else 0
  {
    if steps != [] {
      var before, n := steps[..|steps| - 1], |steps| - 1;
      assert forall i :: 0 <= i < |before| - 1 && before[i].Add? ==> steps[i + 1] == before[i + 1];
      FewUncounted(c, before);
      if before != [] && before[n - 1].Add? {
        assert steps[n - 1].Add? && steps[n].CountAdd?;
      }
    }
  }

  /** When a send and its count are one step, the gauge is never negative. */
  lemma CountedSendsKeepGaugeNonNegative(c: Config, steps: seq<Step>)
    requires SendsCounted(steps) && (steps == [] || !steps[|steps| - 1].Add?)
    ensures Run(c, steps).stats.waiting >= 0
  {
    FewUncounted(c, steps);
    RunBooks(c, steps);
  }
}

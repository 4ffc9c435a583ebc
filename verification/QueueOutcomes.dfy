/**
 What became of the uploads: every result of a run, wherever it is, has the outcome with which its upload ended,
 and the failures that are booked in the end are the uploads that failed.
 */
module QueueOutcomes {
  import opened UploadQueue
  import opened QueueConservation

  // ---------------------------------------------------------------- counting results of a kind

  function Tally(rs: seq<Result>, p: Result -> bool): nat { if rs == [] then 0 else (if p(rs[0]) then 1 else 0) + Tally(rs[1..], p) }

  function WorkerTally(w: Worker, p: Result -> bool): nat
  {
    match w
    case Ended(r) => if p(r) then 1 else 0
    case Finished(r) => if p(r) then 1 else 0
    case _ => 0
  }

  function WorkersTally(ws: seq<Worker>, p: Result -> bool): nat
  {
    if ws == [] then 0 else WorkerTally(ws[0], p) + WorkersTally(ws[1..], p)
  }

  function OfTask(t: Task): Result -> bool { (r: Result) => r.task == t }

  function Is(r: Result): Result -> bool { (x: Result) => x == r }

  function Failure(): Result -> bool { (r: Result) => r.failed }

  /** Results of the kind that are on their way. */
  ghost function Underway(s: State, p: Result -> bool): nat
  {
    WorkersTally(s.workers, p) + Tally(s.resultChan, p) + Tally(s.putBack, p) + Tally(s.held, p)
  }

  /** Results of the kind, wherever they are or went. */
  ghost function Everywhere(s: State, p: Result -> bool): nat
  {
    Underway(s, p) + Tally(s.history.consumed, p) + Tally(s.history.lostResults, p) + Tally(s.history.silentResults, p)
  }

  /** Step k ends the upload of a task, with this result. */
  ghost predicate EndsUpload(c: Config, steps: seq<Step>, k: nat, r: Result)
    requires k < |steps|
  {
    var s := Run(c, steps[..k]);
    && steps[k].Finish? && steps[k].failed == r.failed
    && steps[k].w < |s.workers| && s.workers[steps[k].w] == Running(r.task)
  }

  /** How many uploads the steps of a run end with a result of the kind. */
  ghost function UploadsEnded(c: Config, steps: seq<Step>, p: Result -> bool): nat
  {
    if steps == [] then 0
    else
      var n := |steps| - 1;
      UploadsEnded(c, steps[..n], p) + if exists r :: EndsUpload(c, steps, n, r) && p(r) then 1 else 0
  }

  lemma {:induction false} TallySum(a: seq<Result>, b: seq<Result>, p: Result -> bool)
    ensures Tally(a + b, p) == Tally(a, p) + Tally(b, p)
  {
    if a == [] {
      assert a + b == b;
    } else {
      assert (a + b)[1..] == a[1..] + b;
      TallySum(a[1..], b, p);
    }
  }

  lemma TallySnoc(rs: seq<Result>, r: Result, p: Result -> bool)
    ensures Tally(rs + [r], p) == Tally(rs, p) + if p(r) then 1 else 0
  {
    TallySum(rs, [r], p);
    assert [r][1..] == [];
  }

  lemma TallyWithout(rs: seq<Result>, i: nat, p: Result -> bool)
    requires i < |rs|
    ensures Tally(rs, p) == Tally(Without(rs, i), p) + if p(rs[i]) then 1 else 0
  {
    TallySum(rs[..i], rs[i..], p);
    TallySum(rs[..i], rs[i + 1..], p);
    assert rs == rs[..i] + rs[i..] && rs[i..][1..] == rs[i + 1..];
  }

  lemma {:induction false} WorkersTallyUpdate(ws: seq<Worker>, w: nat, x: Worker, p: Result -> bool)
    requires w < |ws|
    ensures WorkersTally(ws[w := x], p) + WorkerTally(ws[w], p) == WorkersTally(ws, p) + WorkerTally(x, p)
  {
    if w == 0 {
      assert ws[w := x][1..] == ws[1..];
    } else {
      WorkersTallyUpdate(ws[1..], w - 1, x, p);
      assert ws[w := x][1..] == ws[1..][w - 1 := x];
    }
  }

  lemma {:induction false} IdleTally(n: nat, p: Result -> bool)
    ensures WorkersTally(seq(n, _ => Idle), p) == 0
  {
    if n > 0 {
      IdleTally(n - 1, p);
      assert seq(n, _ => Idle)[1..] == seq(n - 1, _ => Idle);
    }
  }

  // ---------------------------------------------------------------- what each step does

  /** The result with which this step ends an upload. */
  predicate Ends(s: State, step: Step) { step.Finish? && step.w < |s.workers| && s.workers[step.w].Running? }

  lemma WorkTally(s: State, w: nat, failed: bool, p: Result -> bool)
    ensures Everywhere(DoTake(s, w), p) == Everywhere(s, p) && Everywhere(DoCountStart(s, w), p) == Everywhere(s, p)
    ensures Everywhere(DoCountEnd(s, w), p) == Everywhere(s, p) && Everywhere(DoDeliver(s, w), p) == Everywhere(s, p)
    ensures Everywhere(DoFinish(s, w, failed), p)
            == Everywhere(s, p) + if Ends(s, Finish(w, failed)) && p(Result(s.workers[w].task, failed)) then 1 else 0
  {
    hide Tally, WorkersTally;
    if w < |s.workers| {
      match s.workers[w]
      case Idle =>
        if s.working != [] {
          WorkersTallyUpdate(s.workers, w, Taken(s.working[0]), p);
        }
      case Taken(x) => WorkersTallyUpdate(s.workers, w, Running(x), p);
      case Running(x) => WorkersTallyUpdate(s.workers, w, Ended(Result(x, failed)), p);
      case Ended(r) => WorkersTallyUpdate(s.workers, w, Finished(r), p);
      case Finished(r) =>
        WorkersTallyUpdate(s.workers, w, Idle, p);
        TallySnoc(s.resultChan, r, p);
        TallySnoc(s.history.lostResults, r, p);
    }
  }

  lemma TallyHead(rs: seq<Result>, p: Result -> bool)
    requires rs != []
    ensures Tally(rs, p) == Tally(rs[1..], p) + if p(rs[0]) then 1 else 0
  {
  }

  lemma ReaderTally(s: State, id: string, p: Result -> bool)
    ensures Everywhere(DoWaiterTake(s, id), p) == Everywhere(s, p) && Everywhere(DoStreamTake(s), p) == Everywhere(s, p)
  {
    hide WorkersTally, Tally;
    if s.resultChan != [] {
      var r := s.resultChan[0];
      TallyHead(s.resultChan, p);
      TallySnoc(s.history.consumed, r, p);
      TallySnoc(s.putBack, r, p);
      TallySnoc(s.held, r, p);
    }
  }

  lemma ReturnTally(s: State, i: nat, p: Result -> bool)
    ensures Everywhere(DoPutBack(s, i), p) == Everywhere(s, p) && Everywhere(DoPutBackTimeout(s, i), p) == Everywhere(s, p)
    ensures Everywhere(DoStreamSend(s, i), p) == Everywhere(s, p) && Everywhere(DoStreamCancel(s, i), p) == Everywhere(s, p)
  {
    hide WorkersTally, Tally;
    if i < |s.putBack| {
      TallyWithout(s.putBack, i, p);
      TallySnoc(s.resultChan, s.putBack[i], p);
      TallySnoc(s.history.lostResults, s.putBack[i], p);
    }
    if i < |s.held| {
      TallyWithout(s.held, i, p);
      TallySnoc(s.history.consumed, s.held[i], p);
      TallySnoc(s.history.silentResults, s.held[i], p);
    }
  }

  /** Steps of the dispatcher and of the statistics move no result. */
  lemma OtherTally(s: State, step: Step, p: Result -> bool)
    requires step.Add? || step.CountAdd? || step.PullTask? || step.PullPriority? || step.CountPull? || step.Flush? || step.HandOff?
             || step.CountHandOff? || step.CountResult?
    ensures Everywhere(Do(s, step), p) == Everywhere(s, p)
  {
    hide WorkersTally, Tally;
  }

  lemma StepTally(s: State, step: Step, p: Result -> bool)
    ensures Everywhere(Do(s, step), p)
            == Everywhere(s, p) + if Ends(s, step) && p(Result(s.workers[step.w].task, step.failed)) then 1 else 0
  {
    hide Everywhere, DoAdd, DoCountAdd, DoPullTask, DoPullPriority, DoCountPull, DoFlush, DoHandOff, DoCountHandOff,
      DoTake, DoCountStart, DoFinish, DoCountEnd, DoDeliver, DoWaiterTake, DoPutBack, DoPutBackTimeout, DoStreamTake, DoStreamSend,
      DoStreamCancel, DoCountResult;
    match step
    case Take(w) => WorkTally(s, w, false, p);
    case CountStart(w) => WorkTally(s, w, false, p);
    case Finish(w, failed) => WorkTally(s, w, failed, p);
    case CountEnd(w) => WorkTally(s, w, false, p);
    case Deliver(w) => WorkTally(s, w, false, p);
    case WaiterTake(id) => ReaderTally(s, id, p);
    case StreamTake => ReaderTally(s, "", p);
    case PutBack(i) => ReturnTally(s, i, p);
    case PutBackTimeout(i) => ReturnTally(s, i, p);
    case StreamSend(i) => ReturnTally(s, i, p);
    case StreamCancel(i) => ReturnTally(s, i, p);
    case _ => OtherTally(s, step, p);
  }

  /** In every run there are as many results of a kind as uploads that ended with one. */
  lemma {:induction false} ResultsAreOutcomes(c: Config, steps: seq<Step>, p: Result -> bool)
    ensures Everywhere(Run(c, steps), p) == UploadsEnded(c, steps, p)
  {
    hide Do, Everywhere;
    if steps == [] {
      NoResults(c, p);
    } else {
      var n := |steps| - 1;
      var s, step := Run(c, steps[..n]), steps[n];
      ResultsAreOutcomes(c, steps[..n], p);
      StepTally(s, step, p);
      if Ends(s, step) {
        assert EndsUpload(c, steps, n, Result(s.workers[step.w].task, step.failed));
      }
    }
  }

  lemma NoResults(c: Config, p: Result -> bool)
    ensures Everywhere(Fresh(c), p) == 0
  {
    IdleTally(c.workers, p);
  }

  // ---------------------------------------------------------------- theorems

  lemma {:induction false} SomeUploadEnded(c: Config, steps: seq<Step>, p: Result -> bool) returns (k: nat, r: Result)
    requires UploadsEnded(c, steps, p) > 0
    ensures k < |steps| && EndsUpload(c, steps, k, r) && p(r)
  {
    var n := |steps| - 1;
    if x :| EndsUpload(c, steps, n, x) && p(x) {
      k, r := n, x;
    } else {
      k, r := SomeUploadEnded(c, steps[..n], p);
      assert steps[..n][..k] == steps[..k];
    }
  }

  lemma {:induction false} UploadCounts(c: Config, steps: seq<Step>, k: nat, r: Result, p: Result -> bool)
    requires k < |steps| && EndsUpload(c, steps, k, r) && p(r)
    ensures UploadsEnded(c, steps, p) > UploadsEnded(c, steps[..k], p)
  {
    var n := |steps| - 1;
    if k < n {
      assert steps[..n][..k] == steps[..k];
      UploadCounts(c, steps[..n], k, r, p);
    }
  }

  lemma {:induction false} UploadsGrow(c: Config, steps: seq<Step>, k: nat, p: Result -> bool)
    requires k <= |steps|
    ensures UploadsEnded(c, steps[..k], p) <= UploadsEnded(c, steps, p)
  {
    if k < |steps| {
      var n := |steps| - 1;
      assert steps[..n][..k] == steps[..k];
      UploadsGrow(c, steps[..n], k, p);
    } else {
      assert steps[..k] == steps;
    }
  }

  lemma {:induction false} TaskTally(rs: seq<Result>, t: Task)
    ensures Tally(rs, OfTask(t)) == CountResults(rs, t)
  {
    if rs != [] {
      TaskTally(rs[1..], t);
      ResultsHead(rs, t);
    } else {
      NothingYet(t);
    }
  }

  lemma {:induction false} TaskWorkers(ws: seq<Worker>, t: Task)
    ensures WorkersTally(ws, OfTask(t)) <= CountWorkers(ws, t)
  {
    if ws != [] {
      TaskWorkers(ws[1..], t);
    }
  }

  /** The upload of a task ends at most once. */
  lemma UploadEndsOnce(c: Config, steps: seq<Step>, t: Task)
    ensures UploadsEnded(c, steps, OfTask(t)) <= 1
  {
    var s := Run(c, steps);
    ResultsAreOutcomes(c, steps, OfTask(t));
    EveryTaskIsSomewhereOnce(c, steps, t);
    hide Tally, CountResults, Count;
    TaskWorkers(s.workers, t);
    TaskTally(s.resultChan, t);
    TaskTally(s.putBack, t);
    TaskTally(s.held, t);
    TaskTally(s.history.consumed, t);
    TaskTally(s.history.lostResults, t);
    TaskTally(s.history.silentResults, t);
  }

  /**
   In every run a result that is anywhere, or has been delivered, lost or dropped, is the outcome of its task's
   upload: some step ended that upload with just this result, and no step ended it with another.
   */
  lemma ResultIsOutcome(c: Config, steps: seq<Step>, r: Result)
    requires Everywhere(Run(c, steps), Is(r)) > 0
    ensures exists k :: 0 <= k < |steps| && EndsUpload(c, steps, k, r)
    ensures forall k, x :: 0 <= k < |steps| && EndsUpload(c, steps, k, x) && x.task == r.task ==> x == r
  {
    ResultsAreOutcomes(c, steps, Is(r));
    var k, x := SomeUploadEnded(c, steps, Is(r));
    UploadEndsOnce(c, steps, r.task);
    forall m: nat, y: Result | m < |steps| && EndsUpload(c, steps, m, y) && y.task == r.task ensures y == r {
      if m != k {
        TwiceEnded(c, steps, k, r, m, y);
      }
    }
  }

  lemma TwiceEnded(c: Config, steps: seq<Step>, k: nat, r: Result, m: nat, y: Result)
    requires k < |steps| && m < |steps| && k != m && EndsUpload(c, steps, k, r) && EndsUpload(c, steps, m, y) && y.task == r.task
    ensures UploadsEnded(c, steps, OfTask(r.task)) >= 2
  {
    var a, x, b, z := if k < m then k else m, if k < m then r else y, if k < m then m else k, if k < m then y else r;
    var p := OfTask(r.task);
    UploadCounts(c, steps, b, z, p);
    assert steps[..b][..a] == steps[..a];
    UploadCounts(c, steps[..b], a, x, p);
  }

  lemma {:induction false} FailuresTally(rs: seq<Result>)
    ensures Failures(rs) == Tally(rs, Failure())
  {
    if rs != [] {
      FailuresTally(rs[1..]);
    }
  }

  /** No worker, channel or reader has a result that is still to be delivered. */
  ghost predicate NoneUnderway(s: State)
  {
    && s.resultChan == [] && s.putBack == [] && s.held == []
    && forall w :: 0 <= w < |s.workers| ==> !s.workers[w].Ended? && !s.workers[w].Finished?
  }

  lemma {:induction false} NoWorkersTally(ws: seq<Worker>, p: Result -> bool)
    requires forall w :: 0 <= w < |ws| ==> !ws[w].Ended? && !ws[w].Finished?
    ensures WorkersTally(ws, p) == 0
  {
    if ws != [] {
      NoWorkersTally(ws[1..], p);
    }
  }

  function Any(): Result -> bool { (r: Result) => true }

  lemma {:induction false} TallyAny(rs: seq<Result>)
    ensures Tally(rs, Any()) == |rs|
  {
    if rs != [] {
      TallyAny(rs[1..]);
    }
  }

  lemma OnlyConsumed(c: Config, steps: seq<Step>, p: Result -> bool)
    requires var s := Run(c, steps); NoneUnderway(s) && s.history.lostResults == [] && s.history.silentResults == []
    ensures Tally(Run(c, steps).history.consumed, p) == UploadsEnded(c, steps, p)
  {
    ResultsAreOutcomes(c, steps, p);
    NoWorkersTally(Run(c, steps).workers, p);
  }

  /**
   Once no result is on its way, none was lost or dropped, and all that were delivered are booked, the failures
   of the statistics are the uploads that failed, and the successes are the others.
   */
  lemma BookedFailures(c: Config, steps: seq<Step>)
    requires var s := Run(c, steps);
             NoneUnderway(s) && s.history.lostResults == [] && s.history.silentResults == [] && s.owed.results == []
    ensures var s := Run(c, steps);
            && s.stats.failed == UploadsEnded(c, steps, Failure())
            && s.stats.success + s.stats.failed == UploadsEnded(c, steps, Any())
  {
    hide Run, UploadsEnded;
    RunBooks(c, steps);
    OnlyConsumed(c, steps, Failure());
    OnlyConsumed(c, steps, Any());
    FailuresTally(Run(c, steps).history.consumed);
    TallyAny(Run(c, steps).history.consumed);
  }
}

/**
 One task in the hands of a worker: uploads are tried until one succeeds, the deadline has passed, the
 error is not worth another try, or the retries are used up.
 */
module UploadRetry {
  import opened Text

  /** What one call of the upload returned, and whether the task's deadline had passed by then. */
  datatype Attempt = Attempt(record: Option<string>, error: Option<string>, deadlinePassed: bool)

  datatype Error = TimedOut(cause: string) | Exhausted(attempts: int, cause: string) | Fatal(cause: string)

  const RETRYABLE := [
    "timeout", "deadline exceeded", "network", "connection reset", "temporary", "throttling", "slow down", "service unavailable"]

  predicate Contains(s: string, word: string) { exists i: nat :: i <= |s| && HasAt(s, word, i) }

  predicate IsRetryable(message: string)
  {
    exists k :: 0 <= k < |RETRYABLE| && Contains(ToLower(message), RETRYABLE[k])
  }

  /** No further try follows this attempt, the i-th counted from 0. */
  predicate Stops(a: Attempt, i: int, maxRetries: int)
  {
    a.error.None? || a.deadlinePassed || i == maxRetries || !IsRetryable(a.error.value)
  }

  /** The n-th try is the last one. */
  ghost predicate LastTry(attempts: nat -> Attempt, maxRetries: int, n: nat)
  {
    && 0 < n <= maxRetries + 1
    && (forall i: nat :: i < n - 1 ==> !Stops(attempts(i), i, maxRetries))
    && Stops(attempts(n - 1), n - 1, maxRetries)
  }

  function Verdict(a: Attempt, i: int, maxRetries: int): Option<Error>
  {
    match a.error
    case None => None
    case Some(m) =>
      Some(if a.deadlinePassed then TimedOut(m) else if i == maxRetries then Exhausted(maxRetries + 1, m) else Fatal(m))
  }

  /** The loop over the words, and in each word over the positions of the message. */
  method CheckRetryable(message: string) returns (r: bool)
    ensures r == IsRetryable(message)
  {
    var m := ToLower(message);
    for k := 0 to |RETRYABLE|
      invariant forall j :: 0 <= j < k ==> !Contains(m, RETRYABLE[j])
    {
      var word := RETRYABLE[k];
      var i: nat := 0;
      while i + |word| <= |m|
        invariant forall j: nat :: j < i ==> !HasAt(m, word, j)
        decreases |m| - i
      {
        if m[i..i + |word|] == word {
          assert HasAt(m, RETRYABLE[k], i);
          assert Contains(m, RETRYABLE[k]);
          return true;
        }
        i := i + 1;
      }
    }
    return false;
  }

  /**
   Runs the tries of one task. `attempts(i)` is what the i-th call of the upload would return. With a
   negative number of retries nothing is tried and the task counts as uploaded.
   */
  method ProcessTask(attempts: nat -> Attempt, maxRetries: int, delay: nat) returns (tries: nat, record: Option<string>, error: Option<Error>, slept: nat)
    ensures tries == 0 <==> maxRetries < 0
    ensures tries == 0 ==> record == None && error == None
    ensures tries > 0 ==>
              && LastTry(attempts, maxRetries, tries)
              && record == attempts(tries - 1).record
              && error == Verdict(attempts(tries - 1), tries - 1, maxRetries)
    ensures 2 * slept == if tries == 0 then 0 else delay * tries * (tries - 1)
  {
    tries, record, error, slept := 0, None, None, 0;
    while tries <= maxRetries
      invariant tries <= maxRetries + 1 || tries == 0
      invariant forall i: nat :: i < tries ==> !Stops(attempts(i), i, maxRetries)
      invariant tries == 0 ==> record == None && error == None
      invariant 2 * slept == if tries == 0 then 0 else delay * tries * (tries - 1)
      decreases maxRetries - tries
    {
      var attempt := tries;
      if attempt > 0 {
        slept := slept + delay * attempt;
        SleepSum(delay, attempt);
      }
      var a := attempts(attempt);
      tries := tries + 1;
      record := a.record;
      if a.error == None {
        error := None;
        break;
      }
      var message := a.error.value;
      if a.deadlinePassed {
        error := Some(TimedOut(message));
        break;
      }
      if attempt == maxRetries {
        error := Some(Exhausted(maxRetries + 1, message));
        break;
      }
      var retryable := CheckRetryable(message);
      if !retryable {
        error := Some(Fatal(message));
        break;
      }
    }
  }

  lemma SleepSum(delay: nat, n: nat)
    requires n > 0
    ensures delay * n * (n - 1) + 2 * (delay * n) == delay * (n + 1) * n
  {
  }

  /** The number of tries is determined by what the uploads return. */
  lemma OneLastTry(attempts: nat -> Attempt, maxRetries: int, m: nat, n: nat)
    requires LastTry(attempts, maxRetries, m) && LastTry(attempts, maxRetries, n)
    ensures m == n
  {
  }

  /** A failure that another try may mend. */
  ghost predicate Passing(a: Attempt) { a.error.Some? && !a.deadlinePassed && IsRetryable(a.error.value) }

  /** A task is uploaded exactly when one of its tries succeeds after nothing but passing failures. */
  lemma UploadedIff(attempts: nat -> Attempt, maxRetries: nat, n: nat)
    requires LastTry(attempts, maxRetries, n)
    ensures Verdict(attempts(n - 1), n - 1, maxRetries) == None
            <==> exists i: nat :: i <= maxRetries && attempts(i).error == None && forall j: nat :: j < i ==> Passing(attempts(j))
  {
    if exists i: nat :: i <= maxRetries && attempts(i).error == None && forall j: nat :: j < i ==> Passing(attempts(j)) {
      var i: nat :| i <= maxRetries && attempts(i).error == None && forall j: nat :: j < i ==> Passing(attempts(j));
      OneLastTry(attempts, maxRetries, i + 1, n);
    } else {
      forall j: nat | j < n - 1 ensures Passing(attempts(j)) {
        assert !Stops(attempts(j), j, maxRetries);
      }
    }
  }

  /** Why a task was not uploaded: its deadline had passed, every try failed, or an error was not worth another try. */
  lemma FailedBecause(attempts: nat -> Attempt, maxRetries: nat, n: nat)
    requires LastTry(attempts, maxRetries, n)
    ensures
      var last := attempts(n - 1);
      match Verdict(last, n - 1, maxRetries)
      case None => last.error == None
      case Some(TimedOut(cause)) => last.error == Some(cause) && last.deadlinePassed
      case Some(Exhausted(tries, cause)) =>
        && last.error == Some(cause) && !last.deadlinePassed
        && tries == n == maxRetries + 1 && forall j: nat :: j < n - 1 ==> Passing(attempts(j))
      case Some(Fatal(cause)) => last.error == Some(cause) && !last.deadlinePassed && n <= maxRetries && !IsRetryable(cause)
  {
    forall j: nat | j < n - 1 ensures Passing(attempts(j)) {
      assert !Stops(attempts(j), j, maxRetries);
    }
  }

  /** An error is worth another try if and only if one of these words occurs in its message, in whatever letter case. */
  lemma RetryableExactly(message: string)
    ensures
      IsRetryable(message) <==>
      exists word, i: nat :: HasAt(ToLower(message), word, i)
                             && word in {"timeout", "deadline exceeded", "network", "connection reset", "temporary", "throttling", "slow down", "service unavailable"}
  {
    assert forall word :: word in RETRYABLE <==>
                            word in {"timeout", "deadline exceeded", "network", "connection reset", "temporary", "throttling", "slow down", "service unavailable"};
    if IsRetryable(message) {
      var k :| 0 <= k < |RETRYABLE| && Contains(ToLower(message), RETRYABLE[k]);
      var i: nat :| i <= |ToLower(message)| && HasAt(ToLower(message), RETRYABLE[k], i);
    }
    if word, i: nat :| HasAt(ToLower(message), word, i) && word in RETRYABLE {
      var k :| 0 <= k < |RETRYABLE| && RETRYABLE[k] == word;
      assert Contains(ToLower(message), RETRYABLE[k]);
    }
  }
}

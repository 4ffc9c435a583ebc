/**
 How much late scripts let through: requests of many seconds whose scripts all run at one instant find no
 counters, so that the limit of each of their seconds passes, all at that instant.
 */
module RateLimitRuns {
  import opened RateLimit

  /** How many requests m seconds make, with as many in each as the limit. */
  function Requests(limit: nat, m: nat): nat { if m == 0 then 0 else Requests(limit, m - 1) + limit }

  lemma {:induction false} RequestsAre(limit: nat, m: nat)
    ensures Requests(limit, m) == m * limit
  {
    if m > 0 {
      RequestsAre(limit, m - 1);
    }
  }

  lemma {:induction false} RequestsGrow(limit: nat, i: nat, j: nat)
    requires i < j
    ensures Requests(limit, i) + limit <= Requests(limit, j)
  {
    if i < j - 1 {
      RequestsGrow(limit, i, j - 1);
    }
  }

  /** n requests, whose scripts are still to come. */
  function Asks(id: string, n: nat): seq<Step> { if n == 0 then [] else Asks(id, n - 1) + [Request(id)] }

  /** The scripts of n requests. */
  function Scripts(first: nat, n: nat): seq<Step> { if n == 0 then [] else Scripts(first, n - 1) + [Script(first + n - 1)] }

  /** In each of m seconds as many requests as the limit. */
  function Waits(id: string, limit: nat, m: nat): seq<Step>
  {
    if m == 0 then [] else Waits(id, limit, m - 1) + Asks(id, limit) + [Tick(SECOND)]
  }

  /** The scripts of all requests of the first m seconds. */
  function Drains(limit: nat, m: nat): seq<Step>
  {
    if m == 0 then [] else Drains(limit, m - 1) + Scripts(Requests(limit, m - 1), limit)
  }

  /** The requests with these numbers wait for their scripts, all for the counter k. */
  ghost predicate Waiting(s: State, k: Key, first: nat, n: nat)
  {
    forall r :: first <= r < first + n ==> r in s.requests && s.requests[r] == k
  }

  // ---------------------------------------------------------------- requests without scripts

  ghost predicate Asked(s: State, t: State, k: Key, n: nat)
  {
    && t.now == s.now && t.counters == s.counters && t.passes == s.passes && t.started == s.started + n
    && Numbered(t) && Waiting(t, k, s.started, n)
    && (forall r :: r in s.requests ==> r in t.requests && t.requests[r] == s.requests[r])
  }

  lemma {:induction false} AsksWait(start: nat, limit: nat, steps: seq<Step>, id: string, n: nat)
    requires id != "" && Numbered(Run(start, limit, steps))
    ensures var s := Run(start, limit, steps); Asked(s, Run(start, limit, steps + Asks(id, n)), Key(id, s.now / SECOND), n)
  {
    hide Run, Do, Asked;
    var s := Run(start, limit, steps);
    if n == 0 {
      assert steps + [] == steps;
      NothingAsked(s, Key(id, s.now / SECOND));
    } else {
      AsksWait(start, limit, steps, id, n - 1);
      RunSnoc(start, limit, steps + Asks(id, n - 1), Request(id));
      assert steps + Asks(id, n) == steps + Asks(id, n - 1) + [Request(id)];
      OneMoreAsked(s, Run(start, limit, steps + Asks(id, n - 1)), limit, id, n);
    }
  }

  lemma NothingAsked(s: State, k: Key)
    requires Numbered(s)
    ensures Asked(s, s, k, 0)
  {
  }

  lemma OneMoreAsked(s: State, t: State, limit: nat, id: string, n: nat)
    requires id != "" && n > 0 && Asked(s, t, Key(id, s.now / SECOND), n - 1) && Numbered(s)
    ensures Asked(s, Do(t, limit, Request(id)), Key(id, s.now / SECOND), n)
  {
  }

  ghost predicate SecondsWait(s: State, id: string, limit: nat, from: nat, m: nat)
  {
    && s.now == m * SECOND
    && forall j: nat {:trigger Key(id, j)} :: from <= j < m ==> Key(id, j) !in s.counters && Waiting(s, Key(id, j), Requests(limit, j), limit)
  }

  ghost predicate OnlyWaits(s: State, id: string, limit: nat, m: nat)
  {
    SecondsWait(s, id, limit, 0, m) && Numbered(s) && s.started == Requests(limit, m) && s.counters == map[] && s.passes == []
  }

  lemma {:induction false} SecondsOfWaiting(limit: nat, id: string, m: nat)
    requires id != ""
    ensures OnlyWaits(Run(0, limit, Waits(id, limit, m)), id, limit, m)
  {
    if m == 0 {
      assert OnlyWaits(Start(0), id, limit, 0);
    } else {
      var before := Waits(id, limit, m - 1);
      SecondsOfWaiting(limit, id, m - 1);
      hide Run, Do, Asked, SecondsWait;
      AsksWait(0, limit, before, id, limit);
      RunSnoc(0, limit, before + Asks(id, limit), Tick(SECOND));
      OneMoreWaits(Run(0, limit, before), Run(0, limit, before + Asks(id, limit)), id, limit, m);
    }
  }

  lemma OneMoreWaits(s: State, t: State, id: string, limit: nat, m: nat)
    requires m > 0 && OnlyWaits(s, id, limit, m - 1) && Asked(s, t, Key(id, s.now / SECOND), limit)
    ensures OnlyWaits(Do(t, limit, Tick(SECOND)), id, limit, m)
  {
    assert s.now / SECOND == m - 1;
    forall j: nat | j < m ensures Waiting(t, Key(id, j), Requests(limit, j), limit) {
      if j < m - 1 {
        assert Key(id, j) !in s.counters && Waiting(s, Key(id, j), Requests(limit, j), limit);
      }
    }
  }

  // ---------------------------------------------------------------- their scripts at one instant

  ghost predicate Drained(s: State, t: State, k: Key, first: nat, n: nat)
  {
    && t.now == s.now && t.passes == s.passes + Copies(Ran(k, s.now), n) && HasCounted(t, k, n)
    && (forall r :: r in s.requests && !(first <= r < first + n) ==> r in t.requests && t.requests[r] == s.requests[r])
    && (forall x :: x != k ==> (x in t.counters <==> x in s.counters))
  }

  lemma {:induction false} ScriptsDrain(start: nat, limit: nat, steps: seq<Step>, k: Key, first: nat, n: nat)
    requires n <= limit && Waiting(Run(start, limit, steps), k, first, n) && k !in Run(start, limit, steps).counters
    ensures Drained(Run(start, limit, steps), Run(start, limit, steps + Scripts(first, n)), k, first, n)
  {
    var s := Run(start, limit, steps);
    hide Run;
    if n == 0 {
      assert steps + [] == steps && s.passes + [] == s.passes;
    } else {
      ScriptsDrain(start, limit, steps, k, first, n - 1);
      RunSnoc(start, limit, steps + Scripts(first, n - 1), Script(first + n - 1));
      assert steps + Scripts(first, n) == steps + Scripts(first, n - 1) + [Script(first + n - 1)];
      var p := Ran(k, s.now);
      assert s.passes + Copies(p, n - 1) + [p] == s.passes + Copies(p, n);
    }
  }

  ghost predicate DrainedSeconds(s: State, id: string, limit: nat, m: nat, j: nat)
  {
    SecondsWait(s, id, limit, j, m) && s.now == m * SECOND && CountWithin(s.passes, id, m * SECOND) == Requests(limit, j)
  }

  lemma {:induction false} SecondsDrain(limit: nat, id: string, m: nat, j: nat)
    requires id != "" && j <= m
    ensures DrainedSeconds(Run(0, limit, Waits(id, limit, m) + Drains(limit, j)), id, limit, m, j)
  {
    hide Run, Waits;
    var steps := Waits(id, limit, m);
    if j == 0 {
      SecondsOfWaiting(limit, id, m);
      assert steps + [] == steps;
    } else {
      SecondsDrain(limit, id, m, j - 1);
      OneMoreSecond(steps + Drains(limit, j - 1), limit, id, m, j);
      assert steps + Drains(limit, j) == steps + Drains(limit, j - 1) + Scripts(Requests(limit, j - 1), limit);
    }
  }

  lemma OneMoreSecond(half: seq<Step>, limit: nat, id: string, m: nat, j: nat)
    requires 0 < j <= m && DrainedSeconds(Run(0, limit, half), id, limit, m, j - 1)
    ensures DrainedSeconds(Run(0, limit, half + Scripts(Requests(limit, j - 1), limit)), id, limit, m, j)
  {
    hide Run, CountWithin, Drained, Waiting, SecondsWait, Scripts;
    var s, first := Run(0, limit, half), Requests(limit, j - 1);
    NextWaits(s, id, limit, j, m);
    ScriptsDrain(0, limit, half, Key(id, j - 1), first, limit);
    var t := Run(0, limit, half + Scripts(first, limit));
    OthersWait(s, t, id, limit, j, m);
    OneMoreDrained(s, t, id, limit, j, m);
  }

  lemma NextWaits(s: State, id: string, limit: nat, j: nat, m: nat)
    requires 0 < j <= m && SecondsWait(s, id, limit, j - 1, m)
    ensures Waiting(s, Key(id, j - 1), Requests(limit, j - 1), limit) && Key(id, j - 1) !in s.counters
  {
  }

  lemma OneMoreDrained(s: State, t: State, id: string, limit: nat, j: nat, m: nat)
    requires 0 < j <= m && s.now == m * SECOND && CountWithin(s.passes, id, m * SECOND) == Requests(limit, j - 1)
    requires Drained(s, t, Key(id, j - 1), Requests(limit, j - 1), limit)
    ensures CountWithin(t.passes, id, m * SECOND) == Requests(limit, j)
  {
    hide CountWithin;
    var k := Key(id, j - 1);
    CountCopies(s.passes, Ran(k, s.now), limit, k, id, m * SECOND);
  }

  lemma OthersWait(s: State, t: State, id: string, limit: nat, j: nat, m: nat)
    requires 0 < j <= m && SecondsWait(s, id, limit, j - 1, m) && Drained(s, t, Key(id, j - 1), Requests(limit, j - 1), limit)
    ensures SecondsWait(t, id, limit, j, m)
  {
    forall i: nat | j <= i < m ensures Key(id, i) !in t.counters && Waiting(t, Key(id, i), Requests(limit, i), limit) {
      assert Key(id, i) !in s.counters && Waiting(s, Key(id, i), Requests(limit, i), limit);
      RequestsGrow(limit, j - 1, i);
    }
  }

  /** For every limit and every m, late scripts of m seconds let m times the limit pass at one instant. */
  lemma LateScriptsPassTogether(limit: nat, id: string, m: nat)
    requires id != ""
    ensures exists steps :: CountWithin(Run(0, limit, steps).passes, id, m * SECOND) == m * limit
  {
    SecondsDrain(limit, id, m, m);
    RequestsAre(limit, m);
  }

  /** So, for every limit of at least one, requests of three seconds can pass more than twice the limit within one second. */
  lemma TwiceLimitIsExceeded(limit: nat, id: string)
    requires id != "" && limit > 0
    ensures exists steps :: CountWithin(Run(0, limit, steps).passes, id, 3 * SECOND) > 2 * limit
  {
    LateScriptsPassTogether(limit, id, 3);
    var steps :| CountWithin(Run(0, limit, steps).passes, id, 3 * SECOND) == 3 * limit;
  }
}

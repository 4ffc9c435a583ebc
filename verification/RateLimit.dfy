/**
 The rate limiter: a counter per id and second, made by the first script that counts a request of them
 and kept for one second from then. A request reads the clock, and the store runs its script some time
 later; the two are separate steps. Times are in milliseconds.
 */
module RateLimit {
  import opened Text

  const SECOND: nat := 1000

  /** The counter of an id in one second of the clock. */
  datatype Key = Key(id: string, second: nat)

  datatype Counter = Counter(count: nat, expiresAt: nat)

  /** A script that ran: the request's counter, and when. */
  datatype Ran = Ran(key: Key, at: nat)
  {
    /** In the second in which the request was made. */
    predicate OnTime() { at / SECOND == key.second }
  }

  /** `ran` has all scripts in their order, `passes` those that let their request pass. */
  datatype State = State(now: nat, counters: map<Key, Counter>, requests: map<nat, Key>, started: nat, ran: seq<Ran>, passes: seq<Ran>)

  datatype Step = Tick(d: nat) | Request(id: string) | Script(r: nat)

  function Start(now: nat): State { State(now, map[], map[], 0, [], []) }

  /** The counter as the store sees it: one that has expired is not there. */
  function Current(s: State, k: Key): Option<Counter>
  {
    if k in s.counters && s.now < s.counters[k].expiresAt then Some(s.counters[k]) else None
  }

  /** INCR, and EXPIRE on the first. */
  function Counted(s: State, k: Key): Counter
  {
    match Current(s, k)
    case None => Counter(1, s.now + SECOND)
    case Some(c) => c.(count := c.count + 1)
  }

  function DoScript(s: State, limit: nat, r: nat): State
  {
    if r !in s.requests then s
    else
      var k := s.requests[r];
      var c := Counted(s, k);
      State(s.now, s.counters[k := c], s.requests - {r}, s.started, s.ran + [Ran(k, s.now)],
            if c.count > limit then s.passes else s.passes + [Ran(k, s.now)])
  }

  /** A request without an id is refused and leaves nothing. */
  function Do(s: State, limit: nat, step: Step): State
  {
    match step
    case Tick(d) => s.(now := s.now + d)
    case Request(id) =>
      if id == "" then s else s.(requests := s.requests[s.started := Key(id, s.now / SECOND)], started := s.started + 1)
    case Script(r) => DoScript(s, limit, r)
  }

  function Run(start: nat, limit: nat, steps: seq<Step>): State
  {
    if steps == [] then Start(start) else Do(Run(start, limit, steps[..|steps| - 1]), limit, steps[|steps| - 1])
  }

  // ---------------------------------------------------------------- counting scripts

  function Count(log: seq<Ran>, k: Key): nat
  {
    if log == [] then 0 else Count(log[..|log| - 1], k) + (if log[|log| - 1].key == k then 1 else 0)
  }

  function CountOnTime(log: seq<Ran>, k: Key): nat
  {
    if log == [] then 0
    else CountOnTime(log[..|log| - 1], k) + (if log[|log| - 1].key == k && log[|log| - 1].OnTime() then 1 else 0)
  }

  predicate Within(p: Ran, id: string, a: nat) { p.key.id == id && a <= p.at < a + SECOND }

  /** Of an id, from time a on and for less than a second. */
  function CountWithin(log: seq<Ran>, id: string, a: nat): nat
  {
    if log == [] then 0
    else CountWithin(log[..|log| - 1], id, a) + (if Within(log[|log| - 1], id, a) then 1 else 0)
  }

  function CountLateWithin(log: seq<Ran>, id: string, a: nat): nat
  {
    if log == [] then 0
    else CountLateWithin(log[..|log| - 1], id, a) + (if Within(log[|log| - 1], id, a) && !log[|log| - 1].OnTime() then 1 else 0)
  }

  /** No script of the counter ran a second or more after another one of it. */
  ghost predicate WithinOneLife(log: seq<Ran>, k: Key)
  {
    forall i, j :: 0 <= i < j < |log| && log[i].key == log[j].key == k ==> log[j].at < log[i].at + SECOND
  }

  // ---------------------------------------------------------------- the lives of a counter

  /** How many scripts each life of the counter has counted, and when the last life began. */
  datatype Lives = Lives(sizes: seq<nat>, since: nat)

  /** A script a second or more after a life began finds the counter gone and begins the next life. */
  function LivesOf(log: seq<Ran>, k: Key): Lives
  {
    if log == [] then Lives([], 0)
    else
      var before, last := LivesOf(log[..|log| - 1], k), log[|log| - 1];
      if last.key != k then before
      else if before.sizes == [] || last.at >= before.since + SECOND then Lives(before.sizes + [1], last.at)
      else before.(sizes := before.sizes[|before.sizes| - 1 := before.sizes[|before.sizes| - 1] + 1])
  }

  function Total(sizes: seq<nat>): nat
  {
    if sizes == [] then 0 else Total(sizes[..|sizes| - 1]) + sizes[|sizes| - 1]
  }

  function Min(a: nat, b: nat): nat { if a <= b then a else b }

  /** Each life lets as many pass as it counts, up to the limit. */
  function Allowed(sizes: seq<nat>, limit: nat): nat
  {
    if sizes == [] then 0 else Allowed(sizes[..|sizes| - 1], limit) + Min(limit, sizes[|sizes| - 1])
  }

  ghost predicate Positive(sizes: seq<nat>) { forall i :: 0 <= i < |sizes| ==> sizes[i] > 0 }

  lemma {:induction false} AllowedIsBounded(sizes: seq<nat>, limit: nat)
    requires Positive(sizes)
    ensures Allowed(sizes, limit) <= Total(sizes)
    ensures limit > 0 && sizes != [] ==> Allowed(sizes, limit) > 0
    ensures Allowed(sizes, limit) < limit ==> Allowed(sizes, limit) == Total(sizes)
  {
    if sizes != [] {
      AllowedIsBounded(sizes[..|sizes| - 1], limit);
    }
  }

  /** The limit is kept in three cases only: nothing may pass, there was one life, or there were few scripts. */
  lemma AllowedWithinLimit(sizes: seq<nat>, limit: nat)
    requires Positive(sizes)
    ensures Allowed(sizes, limit) <= limit <==> limit == 0 || |sizes| <= 1 || Total(sizes) <= limit
  {
    if limit == 0 {
      NothingAllowed(sizes);
    } else if sizes != [] {
      var front := sizes[..|sizes| - 1];
      AllowedIsBounded(front, limit);
      AllowedIsBounded(sizes, limit);
      if |sizes| == 1 {
        assert front == [];
      }
    }
  }

  lemma {:induction false} NothingAllowed(sizes: seq<nat>)
    ensures Allowed(sizes, 0) == 0
  {
    if sizes != [] {
      NothingAllowed(sizes[..|sizes| - 1]);
    }
  }

  // ---------------------------------------------------------------- invariants

  /** The store's counter is the last life, and each life has let its share pass. */
  ghost predicate Accounted(s: State, limit: nat, k: Key)
  {
    var lives := LivesOf(s.ran, k);
    && Positive(lives.sizes)
    && Total(lives.sizes) == Count(s.ran, k)
    && Count(s.passes, k) == Allowed(lives.sizes, limit)
    && (k in s.counters <==> lives.sizes != [])
    && (k in s.counters ==> s.counters[k] == Counter(lives.sizes[|lives.sizes| - 1], lives.since + SECOND))
  }

  /** What one more script does to the lives of its counter. */
  lemma OneMoreScript(log: seq<Ran>, p: Ran, limit: nat, k: Key)
    requires p.key == k && Positive(LivesOf(log, k).sizes)
    ensures
      var before, after := LivesOf(log, k), LivesOf(log + [p], k);
      var dead := before.sizes == [] || p.at >= before.since + SECOND;
      var n := if dead then 1 else before.sizes[|before.sizes| - 1] + 1;
      && after.sizes != [] && after.sizes[|after.sizes| - 1] == n && after.since == (if dead then p.at else before.since)
      && Positive(after.sizes) && Total(after.sizes) == Total(before.sizes) + 1
      && Allowed(after.sizes, limit) == Allowed(before.sizes, limit) + (if n <= limit then 1 else 0)
  {
    assert (log + [p])[..|log|] == log;
    var before, after := LivesOf(log, k).sizes, LivesOf(log + [p], k).sizes;
    if |after| > |before| {
      assert after[..|after| - 1] == before;
    } else {
      assert after[..|after| - 1] == before[..|before| - 1];
    }
  }

  lemma OtherScript(log: seq<Ran>, p: Ran, k: Key)
    ensures Count(log + [p], k) == Count(log, k) + (if p.key == k then 1 else 0)
    ensures p.key != k ==> LivesOf(log + [p], k) == LivesOf(log, k)
  {
    assert (log + [p])[..|log|] == log;
  }

  lemma ScriptAccounted(s: State, limit: nat, r: nat, k: Key)
    requires Accounted(s, limit, k) && r in s.requests
    ensures Accounted(DoScript(s, limit, r), limit, k)
  {
    hide LivesOf, Count, Total, Allowed, Positive;
    var p := Ran(s.requests[r], s.now);
    OtherScript(s.ran, p, k);
    OtherScript(s.passes, p, k);
    if p.key == k {
      OneMoreScript(s.ran, p, limit, k);
    }
  }

  lemma {:induction false} RunAccounted(start: nat, limit: nat, steps: seq<Step>, k: Key)
    ensures Accounted(Run(start, limit, steps), limit, k)
  {
    if steps != [] {
      var before, step := Run(start, limit, steps[..|steps| - 1]), steps[|steps| - 1];
      RunAccounted(start, limit, steps[..|steps| - 1], k);
      if step.Script? && step.r in before.requests {
        ScriptAccounted(before, limit, step.r, k);
      }
    }
  }

  /** A request is made in its own second, and its script runs then or later. */
  ghost predicate Timed(s: State)
  {
    && (forall r :: r in s.requests ==> s.requests[r].second * SECOND <= s.now)
    && (forall i :: 0 <= i < |s.ran| ==> s.ran[i].key.second * SECOND <= s.ran[i].at <= s.now)
    && (forall i, j :: 0 <= i < j < |s.ran| ==> s.ran[i].at <= s.ran[j].at)
  }

  lemma {:induction false} RunTimed(start: nat, limit: nat, steps: seq<Step>)
    ensures Timed(Run(start, limit, steps))
  {
    if steps != [] {
      RunTimed(start, limit, steps[..|steps| - 1]);
    }
  }

  ghost predicate Ordered(log: seq<Ran>) { forall i, j :: 0 <= i < j < |log| ==> log[i].at <= log[j].at }

  /** The last life began with a script of the counter; when it is the only one, that was the first. */
  lemma {:induction false} LastLife(log: seq<Ran>, k: Key)
    requires Ordered(log)
    ensures LivesOf(log, k).sizes == [] ==> forall i :: 0 <= i < |log| ==> log[i].key != k
    ensures LivesOf(log, k).sizes != [] ==> exists i :: 0 <= i < |log| && log[i].key == k && log[i].at == LivesOf(log, k).since
    ensures forall i :: 0 <= i < |log| && log[i].key == k ==> log[i].at < LivesOf(log, k).since + SECOND
    ensures |LivesOf(log, k).sizes| == 1 ==> forall i :: 0 <= i < |log| && log[i].key == k ==> LivesOf(log, k).since <= log[i].at
  {
    if log != [] {
      var front := log[..|log| - 1];
      LastLife(front, k);
      forall i | 0 <= i < |front| ensures log[i] == front[i] {}
    }
  }

  lemma {:induction false} OneLife(log: seq<Ran>, k: Key)
    requires Ordered(log)
    ensures |LivesOf(log, k).sizes| <= 1 <==> WithinOneLife(log, k)
  {
    if log != [] {
      var front, last := log[..|log| - 1], log[|log| - 1];
      forall i | 0 <= i < |front| ensures log[i] == front[i] {}
      OneLife(front, k);
      LastLife(front, k);
      LastLife(log, k);
      if |LivesOf(log, k).sizes| <= 1 {
        assert WithinOneLife(log, k);
      } else if |LivesOf(front, k).sizes| == 1 {
        var i :| 0 <= i < |front| && front[i].key == k && front[i].at == LivesOf(front, k).since;
        assert log[i].key == k && log[i].at + SECOND <= last.at;
      }
    }
  }

  /** As long as the counter's own second lasts, it has one life, and so no more than the limit pass. */
  lemma OwnSecond(s: State, limit: nat, k: Key)
    requires Timed(s) && Accounted(s, limit, k) && s.now / SECOND == k.second
    ensures Count(s.passes, k) <= limit
  {
    assert WithinOneLife(s.ran, k);
    OneLife(s.ran, k);
    AllowedWithinLimit(LivesOf(s.ran, k).sizes, limit);
  }

  ghost predicate FewOnTime(s: State, limit: nat, k: Key) { CountOnTime(s.passes, k) <= Min(limit, Count(s.passes, k)) }

  lemma ScriptOnTime(s: State, limit: nat, r: nat, k: Key)
    requires FewOnTime(s, limit, k) && r in s.requests
    requires s.requests[r] == k && s.now / SECOND == k.second ==> Count(DoScript(s, limit, r).passes, k) <= limit
    ensures FewOnTime(DoScript(s, limit, r), limit, k)
  {
    hide Counted;
    var p := Ran(s.requests[r], s.now);
    assert (s.passes + [p])[..|s.passes|] == s.passes;
  }

  lemma {:induction false} RunOnTime(start: nat, limit: nat, steps: seq<Step>, k: Key)
    ensures FewOnTime(Run(start, limit, steps), limit, k)
  {
    if steps != [] {
      var before, step := Run(start, limit, steps[..|steps| - 1]), steps[|steps| - 1];
      RunOnTime(start, limit, steps[..|steps| - 1], k);
      RunTimed(start, limit, steps);
      RunAccounted(start, limit, steps, k);
      hide Accounted, Timed, FewOnTime, Counted;
      if step.Script? && step.r in before.requests {
        if before.now / SECOND == k.second {
          OwnSecond(Run(start, limit, steps), limit, k);
        }
        ScriptOnTime(before, limit, step.r, k);
      } else {
        SamePasses(before, Run(start, limit, steps), limit, k);
      }
    }
  }

  lemma SamePasses(s: State, t: State, limit: nat, k: Key)
    requires FewOnTime(s, limit, k) && t.passes == s.passes
    ensures FewOnTime(t, limit, k)
  {
  }

  /** An interval of one second touches two seconds of the clock. */
  lemma {:induction false} TwoSeconds(log: seq<Ran>, id: string, a: nat)
    ensures CountWithin(log, id, a) <= CountOnTime(log, Key(id, a / SECOND)) + CountOnTime(log, Key(id, a / SECOND + 1)) + CountLateWithin(log, id, a)
  {
    if log != [] {
      var p := log[|log| - 1];
      TwoSeconds(log[..|log| - 1], id, a);
      if Within(p, id, a) && p.OnTime() {
        assert p.at / SECOND == a / SECOND || p.at / SECOND == a / SECOND + 1;
        assert p.key == Key(id, p.at / SECOND);
      }
    }
  }

  // ---------------------------------------------------------------- theorems

  /** Each life of a counter lets through its first `limit` requests and no others. */
  lemma PassedByLives(start: nat, limit: nat, steps: seq<Step>, k: Key)
    ensures
      var s := Run(start, limit, steps);
      && Count(s.passes, k) == Allowed(LivesOf(s.ran, k).sizes, limit)
      && Count(s.ran, k) == Total(LivesOf(s.ran, k).sizes)
  {
    RunAccounted(start, limit, steps, k);
  }

  /**
   At most `limit` requests that an id makes in a second of the clock pass, if and only if none may pass,
   no script of them runs once their counter has expired, or there are no more of them than the limit.
   */
  lemma LimitPerSecond(start: nat, limit: nat, steps: seq<Step>, k: Key)
    ensures
      var s := Run(start, limit, steps);
      Count(s.passes, k) <= limit <==> limit == 0 || WithinOneLife(s.ran, k) || Count(s.ran, k) <= limit
  {
    RunAccounted(start, limit, steps, k);
    RunTimed(start, limit, steps);
    OneLife(Run(start, limit, steps).ran, k);
    AllowedWithinLimit(LivesOf(Run(start, limit, steps).ran, k).sizes, limit);
  }

  /** Of the requests that an id makes in a second of the clock, no more than the limit pass within that second. */
  lemma LimitOnTime(start: nat, limit: nat, steps: seq<Step>, k: Key)
    ensures CountOnTime(Run(start, limit, steps).passes, k) <= limit
  {
    RunOnTime(start, limit, steps, k);
  }

  /** In an interval of one second no more than twice the limit pass, and those whose scripts ran late. */
  lemma TwiceLimitPerInterval(start: nat, limit: nat, steps: seq<Step>, id: string, a: nat)
    ensures
      var passes := Run(start, limit, steps).passes;
      CountWithin(passes, id, a) <= 2 * limit + CountLateWithin(passes, id, a)
  {
    TwoSeconds(Run(start, limit, steps).passes, id, a);
    RunOnTime(start, limit, steps, Key(id, a / SECOND));
    RunOnTime(start, limit, steps, Key(id, a / SECOND + 1));
  }

  // ---------------------------------------------------------------- runs that reach the bounds

  /** n requests, each with its script at once. */
  function Burst(id: string, n: nat, first: nat): seq<Step>
  {
    if n == 0 then [] else Burst(id, n - 1, first) + [Request(id)] + [Script(first + n - 1)]
  }

  function Copies(p: Ran, n: nat): seq<Ran> { if n == 0 then [] else Copies(p, n - 1) + [p] }

  lemma RunSnoc(start: nat, limit: nat, steps: seq<Step>, x: Step)
    ensures Run(start, limit, steps + [x]) == Do(Run(start, limit, steps), limit, x)
  {
    assert (steps + [x])[..|steps|] == steps;
  }

  lemma RunOne(start: nat, limit: nat, x: Step)
    ensures Run(start, limit, [x]) == Do(Start(start), limit, x)
  {
    RunSnoc(start, limit, [], x);
    assert [] + [x] == [x];
  }

  /** The counter of k has counted n. */
  ghost predicate HasCounted(s: State, k: Key, n: nat)
  {
    if n == 0 then Current(s, k).None? else Current(s, k).Some? && Current(s, k).value.count == n
  }

  ghost predicate AfterBurst(s: State, t: State, k: Key, n: nat)
  {
    && t.now == s.now && t.requests == s.requests && t.started == s.started + n
    && t.passes == s.passes + Copies(Ran(k, s.now), n) && HasCounted(t, k, n)
  }

  ghost predicate Numbered(s: State) { forall r :: r in s.requests ==> r < s.started }

  lemma {:induction false} BurstPasses(start: nat, limit: nat, steps: seq<Step>, id: string, n: nat)
    requires id != "" && n <= limit
    requires var s := Run(start, limit, steps); Numbered(s) && Current(s, Key(id, s.now / SECOND)).None?
    ensures
      var s := Run(start, limit, steps);
      AfterBurst(s, Run(start, limit, steps + Burst(id, n, s.started)), Key(id, s.now / SECOND), n)
  {
    var s := Run(start, limit, steps);
    if n == 0 {
      assert steps + [] == steps && s.passes + [] == s.passes;
    } else {
      BurstPasses(start, limit, steps, id, n - 1);
      var half := steps + Burst(id, n - 1, s.started);
      hide Run, Do;
      RunSnoc(start, limit, half, Request(id));
      RunSnoc(start, limit, half + [Request(id)], Script(s.started + n - 1));
      assert steps + Burst(id, n, s.started) == half + [Request(id)] + [Script(s.started + n - 1)];
      OneMorePasses(s, Run(start, limit, half), limit, id, n);
    }
  }

  lemma OneMorePasses(s: State, t: State, limit: nat, id: string, n: nat)
    requires id != "" && 0 < n <= limit && AfterBurst(s, t, Key(id, s.now / SECOND), n - 1)
    requires Numbered(s)
    ensures AfterBurst(s, Do(Do(t, limit, Request(id)), limit, Script(s.started + n - 1)), Key(id, s.now / SECOND), n)
  {
    var r := s.started + n - 1;
    var u := Do(t, limit, Request(id));
    assert r !in s.requests && u.requests - {r} == s.requests;
    var p := Ran(Key(id, s.now / SECOND), s.now);
    assert s.passes + Copies(p, n - 1) + [p] == s.passes + Copies(p, n);
  }

  lemma {:induction false} CountCopies(log: seq<Ran>, p: Ran, n: nat, k: Key, id: string, a: nat)
    ensures Count(log + Copies(p, n), k) == Count(log, k) + (if p.key == k then n else 0)
    ensures CountWithin(log + Copies(p, n), id, a) == CountWithin(log, id, a) + (if Within(p, id, a) then n else 0)
    ensures CountLateWithin(log + Copies(p, n), id, a) == CountLateWithin(log, id, a) + (if Within(p, id, a) && !p.OnTime() then n else 0)
  {
    if n == 0 {
      assert log + [] == log;
    } else {
      CountCopies(log, p, n - 1, k, id, a);
      var more := log + Copies(p, n);
      assert more[..|more| - 1] == log + Copies(p, n - 1) && more[|more| - 1] == p;
    }
  }

  /** No script has run yet for a second that lies ahead. */
  lemma NothingCounted(start: nat, limit: nat, steps: seq<Step>, k: Key)
    requires Run(start, limit, steps).now < k.second * SECOND
    ensures k !in Run(start, limit, steps).counters
  {
    var s := Run(start, limit, steps);
    RunAccounted(start, limit, steps, k);
    RunTimed(start, limit, steps);
    LastLife(s.ran, k);
  }

  ghost predicate ReachesTwice(passes: seq<Ran>, limit: nat, id: string, a: nat)
  {
    CountWithin(passes, id, a) == 2 * limit && CountLateWithin(passes, id, a) == 0
  }

  /** At the end of second 0 the limit has been used up, and second 1 has not been counted yet. */
  lemma LastMoment(limit: nat, id: string)
    requires id != ""
    ensures
      var s := Run(0, limit, [Tick(999)] + Burst(id, limit, 0) + [Tick(1)]);
      && s.now == 1000 && s.requests == map[] && s.started == limit && s.passes == Copies(Ran(Key(id, 0), 999), limit)
      && Current(s, Key(id, 1)).None?
  {
    var half := [Tick(999)] + Burst(id, limit, 0);
    RunOne(0, limit, Tick(999));
    BurstPasses(0, limit, [Tick(999)], id, limit);
    RunSnoc(0, limit, half, Tick(1));
    NothingCounted(0, limit, half, Key(id, 1));
  }

  /** The bound of twice the limit is reached for every limit, at the two sides of a second's end. */
  lemma TwiceLimitIsReached(limit: nat, id: string)
    requires id != ""
    ensures exists steps :: ReachesTwice(Run(0, limit, steps).passes, limit, id, 999)
  {
    LastMoment(limit, id);
    var steps := [Tick(999)] + Burst(id, limit, 0) + [Tick(1)];
    BurstPasses(0, limit, steps, id, limit);
    var p, q := Ran(Key(id, 0), 999), Ran(Key(id, 1), 1000);
    hide Run;
    assert Run(0, limit, steps + Burst(id, limit, limit)).passes == [] + Copies(p, limit) + Copies(q, limit);
    CountCopies([], p, limit, Key(id, 0), id, 999);
    CountCopies([] + Copies(p, limit), q, limit, Key(id, 1), id, 999);
    assert ReachesTwice(Run(0, limit, steps + Burst(id, limit, limit)).passes, limit, id, 999);
  }

  ghost predicate PassesOneMore(s: State, limit: nat, k: Key) { s.started == limit + 1 && Count(s.passes, k) == limit + 1 }

  /** After as many passes as the limit, all in second 0, one request of that second still waits for its script. */
  lemma OneWaits(limit: nat, id: string)
    requires id != "" && limit > 0
    ensures
      var t, k := Run(0, limit, [Request(id)] + Burst(id, limit, 1)), Key(id, 0);
      && t.now == 0 && t.started == limit + 1 && t.requests == map[0 := k] && Count(t.passes, k) == limit
      && k in t.counters && t.counters[k].expiresAt <= 1000
  {
    var k, half := Key(id, 0), [Request(id)] + Burst(id, limit, 1);
    RunOne(0, limit, Request(id));
    BurstPasses(0, limit, [Request(id)], id, limit);
    CountCopies([], Ran(k, 0), limit, k, id, 0);
    RunAccounted(0, limit, half, k);
    RunTimed(0, limit, half);
    hide Run, LivesOf, Count, Copies, Burst;
    LastLife(Run(0, limit, half).ran, k);
  }

  /**
   For every limit of at least one: of limit + 1 requests made in second 0, the first one's script runs when
   the counter made by the others has expired, and all pass.
   */
  lemma LateScriptResetsCounter(limit: nat, id: string)
    requires id != "" && limit > 0
    ensures exists steps :: PassesOneMore(Run(0, limit, steps), limit, Key(id, 0))
  {
    var k, half := Key(id, 0), [Request(id)] + Burst(id, limit, 1);
    OneWaits(limit, id);
    RunSnoc(0, limit, half, Tick(1000));
    RunSnoc(0, limit, half + [Tick(1000)], Script(0));
    hide Run, Count, Burst;
    var t := Run(0, limit, half);
    OtherScript(t.passes, Ran(k, 1000), k);
    assert PassesOneMore(Run(0, limit, half + [Tick(1000)] + [Script(0)]), limit, k);
  }

  // ---------------------------------------------------------------- the limiter as an object

  function Snapshot(now: nat, counters: map<Key, Counter>, requests: map<nat, Key>, started: nat, ran: seq<Ran>, passes: seq<Ran>): State
  {
    State(now, counters, requests, started, ran, passes)
  }

  /** What a call returns: an error when there is no id. */
  datatype Outcome = EmptyId | Checked(allowed: bool, current: nat)

  class Limiter {
    const limit: nat
    var now: nat
    var counters: map<Key, Counter>
    var requests: map<nat, Key>
    var started: nat
    var ran: seq<Ran>
    var passes: seq<Ran>

    constructor (limit: nat, now: nat)
      ensures this.limit == limit && State() == Start(now)
    {
      this.limit, this.now := limit, now;
      counters, requests, started, ran, passes := map[], map[], 0, [], [];
    }

    function State(): State
      reads this
    {
      Snapshot(now, counters, requests, started, ran, passes)
    }

    /** The script, which the store runs as one step. */
    method CountUp(key: Key) returns (allowed: bool, current: nat)
      modifies this`counters
      ensures counters == old(counters)[key := Counted(old(State()), key)]
      ensures current == Counted(old(State()), key).count && allowed == (current <= limit)
    {
      var counter := Counter(1, now + SECOND);
      if key in counters && now < counters[key].expiresAt {
        counter := counters[key].(count := counters[key].count + 1);
      }
      counters := counters[key := counter];
      return counter.count <= limit, counter.count;
    }

    /** A request whose script runs at once; without an id it is an error and nothing happens. */
    method Allow(id: string) returns (r: Outcome)
      requires started !in requests
      modifies this
      ensures State() == DoScript(Do(old(State()), limit, Request(id)), limit, old(started))
      ensures r.EmptyId? <==> id == ""
      ensures id == "" ==> State() == old(State())
      ensures r.Checked? ==> r.allowed == (|passes| > |old(passes)|) && r.current == counters[Key(id, now / SECOND)].count
    {
      if id == "" {
        return EmptyId;
      }
      var key := Key(id, now / SECOND);
      var allowed, current := CountUp(key);
      assert requests[started := key] - {started} == requests;
      started := started + 1;
      ran := ran + [Ran(key, now)];
      if allowed {
        passes := passes + [Ran(key, now)];
      }
      return Checked(allowed, current);
    }
  }
}

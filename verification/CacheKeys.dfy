/** The list of keys that is kept for a prefix, which the driver's own deletion goes by. */
module CacheKeys {
  import opened Text
  import opened QueryCache
  import opened CacheCoherence
  import opened CacheRuns

  /** A query that has set data and not yet the list of keys. */
  predicate Storing(x: Query, table: string, sql: string)
  {
    x.table == table && x.sql == sql && (x.DataSet? || x.TextSet? || x.KeysGot?)
  }

  ghost predicate BeingStored(s: State, table: string, sql: string)
  {
    exists q :: q in s.queries && Storing(s.queries[q], table, sql)
  }

  /** The keys of a result that is in the cache are in the list of their prefix, or on their way there. */
  ghost predicate RecordedAt(w: World, models: string -> Advanced, s: State, table: string, sql: string)
  {
    var p, keys := models(table).prefix, Recorded(s.cache, s.now, models(table).prefix);
    && (p in s.cache ==> s.cache[p].value.Keys? && s.cache[p].expiresAt == None)
    && (KeyOf(w, models, table, sql) in s.cache ==> KeyOf(w, models, table, sql) in keys || BeingStored(s, table, sql))
    && (TextKeyOf(w, models, table, sql) in s.cache ==> TextKeyOf(w, models, table, sql) in keys || BeingStored(s, table, sql))
  }

  /** Nobody else has read the list of this query's prefix and not yet set it. */
  ghost predicate Alone(models: string -> Advanced, s: State, q: nat)
  {
    q in s.queries ==>
      forall p :: p in s.queries && p != q && s.queries[p].KeysGot? ==> models(s.queries[p].table).prefix != models(s.queries[q].table).prefix
  }

  /** No two queries are between reading and setting the list of one prefix. */
  ghost predicate ListsApart(w: World, models: string -> Advanced, start: State, steps: seq<Step>)
  {
    forall i :: 0 <= i < |steps| && steps[i].GetKeys? ==> Alone(models, Run(w, models, start, steps[..i]), steps[i].q)
  }

  /** A list that has been read and not yet set is still the list, and only one query has it. */
  ghost predicate ListsFresh(models: string -> Advanced, s: State)
  {
    && (forall q :: q in s.queries && s.queries[q].KeysGot? ==> s.queries[q].keys == Recorded(s.cache, s.now, models(s.queries[q].table).prefix))
    && (forall p, q :: p in s.queries && q in s.queries && p != q && s.queries[p].KeysGot? && s.queries[q].KeysGot? ==>
          models(s.queries[p].table).prefix != models(s.queries[q].table).prefix)
  }

  /** The keys that writes delete hold a colon. */
  ghost predicate TodoHasColons(s: State)
  {
    forall x, k :: x in s.writes && s.writes[x].Dropping? && k in s.writes[x].todo ==> !Free(k, ':')
  }

  ghost predicate PrefixesHoldLists(models: string -> Advanced, s: State)
  {
    forall t :: Named(models, t) && models(t).prefix in s.cache ==> s.cache[models(t).prefix].value.Keys? && s.cache[models(t).prefix].expiresAt == None
  }

  ghost predicate Tidy(w: World, models: string -> Advanced, s: State)
  {
    OpsSound(w, models, s) && ListsFresh(models, s) && TodoHasColons(s) && PrefixesHoldLists(models, s)
  }

  lemma ColonInPrefixed(p: string, table: string, key: string)
    requires HasPrefix(key, TablePrefix(p, table))
    ensures !Free(key, ':')
  {
    assert key[|p|] == TablePrefix(p, table)[|p|] == ':';
  }

  // ---------------------------------------------------------------- steps that leave the lists alone

  ghost predicate SameLists(models: string -> Advanced, s: State, r: State)
  {
    forall t :: Named(models, t) ==> SameAt(s.cache, r.cache, models(t).prefix)
  }

  predicate SameAt(c: Cache, d: Cache, key: string) { (key in d <==> key in c) && (key in c ==> d[key] == c[key]) }

  lemma ListStays(models: string -> Advanced, s: State, r: State, t: string)
    requires SameLists(models, s, r) && PrefixesHoldLists(models, s) && Named(models, t)
    ensures Recorded(r.cache, r.now, models(t).prefix) == Recorded(s.cache, s.now, models(t).prefix)
  {
    hide Named;
    assert SameAt(s.cache, r.cache, models(t).prefix);
  }

  /** The key of a result is no prefix. */
  lemma KeyIsNoPrefix(w: World, models: string -> Advanced, table: string, sql: string, t: string)
    requires Named(models, t)
    ensures KeyOf(w, models, table, sql) != models(t).prefix && TextKeyOf(w, models, table, sql) != models(t).prefix
  {
    var p := models(table).prefix;
    assert KeyOf(w, models, table, sql)[|p|] == ':' && TextKeyOf(w, models, table, sql)[|p|] == ':';
  }

  lemma SetsKeepLists(w: World, models: string -> Advanced, s: State, q: nat)
    ensures SameLists(models, s, DoSetData(w, models, s, q)) && SameLists(models, s, DoSetText(w, models, s, q))
  {
    hide DataKey, SqlKey, UniqueId, Named;
    if q in s.queries {
      var x := s.queries[q];
      forall t | Named(models, t)
        ensures SameAt(s.cache, DoSetData(w, models, s, q).cache, models(t).prefix)
        ensures SameAt(s.cache, DoSetText(w, models, s, q).cache, models(t).prefix)
      {
        KeyIsNoPrefix(w, models, x.table, x.sql, t);
      }
    }
  }

  lemma StepKeepsLists(w: World, models: string -> Advanced, s: State, step: Step)
    requires TodoHasColons(s) && !step.SetKeys?
    ensures SameLists(models, s, Do(w, models, s, step))
  {
    hide DoSetData, DoSetText, TableKeys, AnswerTo, Recorded, Drops;
    match step
    case SetData(q) => SetsKeepLists(w, models, s, q);
    case SetText(q) => SetsKeepLists(w, models, s, q);
    case _ =>
  }

  lemma StepKeepsTodo(w: World, models: string -> Advanced, s: State, step: Step)
    requires TodoHasColons(s)
    ensures TodoHasColons(Do(w, models, s, step))
  {
    hide DoSetData, DoSetText, DoSetKeys, AnswerTo, Recorded, Drops, Live;
    var r := Do(w, models, s, step);
    if step.SetData? || step.SetText? || step.SetKeys? {
      QueriesKeepWrites(w, models, s, step);
    }
    if step.Scan? && step.x in s.writes {
      var a, table := models(s.writes[step.x].table), s.writes[step.x].table;
      forall k | k in TableKeys(s.cache, s.now, a, table) ensures !Free(k, ':') {
        ColonInPrefixed(a.prefix, table, k);
      }
    }
  }

  lemma QueriesKeepWrites(w: World, models: string -> Advanced, s: State, step: Step)
    requires step.SetData? || step.SetText? || step.SetKeys?
    ensures Do(w, models, s, step).writes == s.writes
  {
  }

  // ---------------------------------------------------------------- the invariants over runs

  /** What a step other than setting a list does to the queries that have read a list. */
  lemma StepKeepsReaders(w: World, models: string -> Advanced, s: State, step: Step, p: nat)
    requires !step.SetKeys? && !(step.GetKeys? && step.q == p) && (forall q :: q in s.queries ==> q < s.started)
    requires var r := Do(w, models, s, step); p in r.queries && r.queries[p].KeysGot?
    ensures p in s.queries && Do(w, models, s, step).queries[p] == s.queries[p]
  {
    hide DataKey, SqlKey, UniqueId, TableKeys, AnswerTo, Recorded, Drops, Live;
  }

  lemma GetKeysReads(models: string -> Advanced, s: State, q: nat)
    ensures var r := DoGetKeys(models, s, q);
            q in r.queries && r.queries[q].KeysGot? ==>
              q in s.queries && r.queries[q].table == s.queries[q].table && r.cache == s.cache && r.now == s.now
              && (s.queries[q].TextSet? ==> r.queries[q].keys == Recorded(s.cache, s.now, models(r.queries[q].table).prefix))
              && (!s.queries[q].TextSet? ==> r == s)
  {
  }

  lemma StepKeepsHeads(w: World, models: string -> Advanced, s: State, step: Step)
    requires TodoHasColons(s) && PrefixesHoldLists(models, s) && !step.SetKeys?
    ensures PrefixesHoldLists(models, Do(w, models, s, step))
  {
    var r := Do(w, models, s, step);
    StepKeepsLists(w, models, s, step);
    hide Do, Named;
    forall t | Named(models, t) ensures SameAt(s.cache, r.cache, models(t).prefix) {
    }
  }

  lemma StepKeepsFresh(w: World, models: string -> Advanced, s: State, step: Step)
    requires Tidy(w, models, s) && NamedStep(models, step) && !step.SetKeys?
    requires step.GetKeys? ==> Alone(models, s, step.q)
    ensures ListsFresh(models, Do(w, models, s, step))
  {
    StepKeepsLists(w, models, s, step);
    StepOpsSound(w, models, s, step);
    if step.GetKeys? {
      GetKeysReads(models, s, step.q);
      assert Do(w, models, s, step) == DoGetKeys(models, s, step.q);
    }
    var r := Do(w, models, s, step);
    hide Do, DoGetKeys, Recorded, Named, QuerySound, PrefixesHoldLists, SameLists;
    forall q | q in r.queries && r.queries[q].KeysGot?
      ensures r.queries[q].keys == Recorded(r.cache, r.now, models(r.queries[q].table).prefix)
      ensures q in s.queries && r.queries[q].table == s.queries[q].table
      ensures s.queries[q].KeysGot? || (step.GetKeys? && q == step.q)
    {
      assert QuerySound(w, models, r, r.queries[q]);
      NamedQuery(w, models, r, r.queries[q]);
      ListStays(models, s, r, r.queries[q].table);
      if !(step.GetKeys? && step.q == q) {
        StepKeepsReaders(w, models, s, step, q);
      }
    }
  }

  lemma NamedQuery(w: World, models: string -> Advanced, s: State, x: Query)
    requires QuerySound(w, models, s, x)
    ensures Named(models, x.table)
  {
  }

  /** The list that a query sets has all that was in it, and the query's own keys. */
  lemma SetKeysAdds(w: World, models: string -> Advanced, s: State, q: nat, t: string)
    requires Tidy(w, models, s) && q in s.queries && s.queries[q].KeysGot? && Named(models, t)
    ensures
      var r, x := DoSetKeys(w, models, s, q), s.queries[q];
      var before, after := Recorded(s.cache, s.now, models(t).prefix), Recorded(r.cache, r.now, models(t).prefix);
      && (models(t).prefix == models(x.table).prefix ==>
            forall k :: k in after <==> k in before || k in OwnKeys(w, models(x.table), x.table, x.sql))
      && (models(t).prefix != models(x.table).prefix ==> after == before)
  {
    hide OwnKeys, Named, QuerySound, OpsSound;
    var x := s.queries[q];
    assert forall k :: k in x.keys + OwnKeys(w, models(x.table), x.table, x.sql) <==> k in x.keys || k in OwnKeys(w, models(x.table), x.table, x.sql);
  }

  lemma SetKeysKeepsFresh(w: World, models: string -> Advanced, s: State, q: nat)
    requires Tidy(w, models, s)
    ensures ListsFresh(models, DoSetKeys(w, models, s, q)) && PrefixesHoldLists(models, DoSetKeys(w, models, s, q))
  {
    var r := DoSetKeys(w, models, s, q);
    if q in s.queries && s.queries[q].KeysGot? {
      hide OwnKeys, Unique, Recorded, Named;
      forall p | p in r.queries && r.queries[p].KeysGot?
        ensures r.queries[p].keys == Recorded(r.cache, r.now, models(r.queries[p].table).prefix)
      {
        assert QuerySound(w, models, s, s.queries[p]);
        SetKeysAdds(w, models, s, q, s.queries[p].table);
      }
    }
  }

  lemma StepTidy(w: World, models: string -> Advanced, s: State, step: Step)
    requires Tidy(w, models, s) && NamedStep(models, step)
    requires step.GetKeys? ==> Alone(models, s, step.q)
    ensures Tidy(w, models, Do(w, models, s, step))
  {
    StepOpsSound(w, models, s, step);
    StepKeepsTodo(w, models, s, step);
    hide OpsSound, TodoHasColons, ListsFresh, PrefixesHoldLists, DoSetKeys;
    if step.SetKeys? {
      SetKeysKeepsFresh(w, models, s, step.q);
    } else {
      StepKeepsFresh(w, models, s, step);
      StepKeepsHeads(w, models, s, step);
    }
  }

  // ---------------------------------------------------------------- recorded keys

  lemma RecordedStays(w: World, models: string -> Advanced, s: State, r: State, t: string, sql: string)
    requires Named(models, t) && RecordedAt(w, models, s, t, sql) && SameLists(models, s, r) && PrefixesHoldLists(models, s)
    requires BeingStored(s, t, sql) ==> BeingStored(r, t, sql)
    requires KeyOf(w, models, t, sql) in r.cache && KeyOf(w, models, t, sql) !in s.cache ==> BeingStored(r, t, sql)
    requires TextKeyOf(w, models, t, sql) in r.cache && TextKeyOf(w, models, t, sql) !in s.cache ==> BeingStored(r, t, sql)
    ensures RecordedAt(w, models, r, t, sql)
  {
    ListStays(models, s, r, t);
    assert SameAt(s.cache, r.cache, models(t).prefix);
    hide KeyOf, TextKeyOf, Named, BeingStored, Recorded;
  }

  /** Other steps add nothing to the cache, and a query that is storing goes on storing. */
  lemma QuietSteps(w: World, models: string -> Advanced, s: State, step: Step)
    requires !step.SetData? && !step.SetText? && !step.SetKeys? && (forall q :: q in s.queries ==> q < s.started)
    ensures
      var r := Do(w, models, s, step);
      && (forall k :: k in r.cache ==> k in s.cache)
      && (forall q, t, sql :: q in s.queries && Storing(s.queries[q], t, sql) ==> q in r.queries && Storing(r.queries[q], t, sql))
  {
    hide KeyOf, TextKeyOf, Recorded, AnswerTo, TableKeys, Drops;
  }

  lemma StillBeingStored(s: State, r: State, t: string, sql: string)
    requires forall q :: q in s.queries && Storing(s.queries[q], t, sql) ==> q in r.queries && Storing(r.queries[q], t, sql)
    ensures BeingStored(s, t, sql) ==> BeingStored(r, t, sql)
  {
  }

  lemma QuietRecords(w: World, models: string -> Advanced, s: State, step: Step, t: string, sql: string)
    requires Tidy(w, models, s) && Named(models, t) && RecordedAt(w, models, s, t, sql)
    requires !step.SetData? && !step.SetText? && !step.SetKeys?
    ensures RecordedAt(w, models, Do(w, models, s, step), t, sql)
  {
    var r := Do(w, models, s, step);
    StepKeepsLists(w, models, s, step);
    QuietSteps(w, models, s, step);
    hide Do, KeyOf, TextKeyOf, Named, Recorded, RecordedAt, QuerySound, BeingStored, Storing;
    StillBeingStored(s, r, t, sql);
    RecordedStays(w, models, s, r, t, sql);
  }

  /** After the data have been set, the query is storing its result. */
  lemma SetDataStores(w: World, models: string -> Advanced, s: State, q: nat, x: Query, t: string, sql: string)
    requires q in s.queries && s.queries[q] == x && x.HasRead?
    requires KeyOf(w, models, t, sql) == KeyOf(w, models, x.table, x.sql) ==> x.table == t && x.sql == sql
    requires TextKeyOf(w, models, t, sql) != KeyOf(w, models, x.table, x.sql)
    ensures
      var r := DoSetData(w, models, s, q);
      && (BeingStored(s, t, sql) ==> BeingStored(r, t, sql))
      && (KeyOf(w, models, t, sql) in r.cache && KeyOf(w, models, t, sql) !in s.cache ==> BeingStored(r, t, sql))
      && (TextKeyOf(w, models, t, sql) in r.cache ==> TextKeyOf(w, models, t, sql) in s.cache)
  {
    hide DataKey, SqlKey, UniqueId;
    var r := DoSetData(w, models, s, q);
    if BeingStored(s, t, sql) {
      var p :| p in s.queries && Storing(s.queries[p], t, sql);
      assert Storing(r.queries[p], t, sql);
    }
    if Stores(models(x.table), x.rows) && x.table == t && x.sql == sql {
      assert Storing(r.queries[q], t, sql);
    }
  }

  lemma SetDataRecords(w: World, models: string -> Advanced, s: State, q: nat, t: string, sql: string)
    requires Injective(w) && Tidy(w, models, s) && Named(models, t) && RecordedAt(w, models, s, t, sql)
    ensures RecordedAt(w, models, DoSetData(w, models, s, q), t, sql)
  {
    if q in s.queries && s.queries[q].HasRead? {
      var x := s.queries[q];
      assert QuerySound(w, models, s, x);
      KeysDiffer(w, models(t).prefix, t, sql, models(x.table).prefix, x.table, x.sql);
      KeysDiffer(w, models(x.table).prefix, x.table, x.sql, models(t).prefix, t, sql);
      hide DataKey, SqlKey, UniqueId, Recorded, RecordedAt, QuerySound, DoSetData, BeingStored, OpsSound;
      SetDataStores(w, models, s, q, x, t, sql);
      SetsKeepLists(w, models, s, q);
      RecordedStays(w, models, s, DoSetData(w, models, s, q), t, sql);
    } else {
      hide RecordedAt;
      assert DoSetData(w, models, s, q) == s;
    }
  }

  lemma SameTextKey(w: World, models: string -> Advanced, t: string, sql: string, u: string, other: string)
    requires Injective(w) && Named(models, t) && Named(models, u) && TextKeyOf(w, models, t, sql) == TextKeyOf(w, models, u, other)
    ensures t == u && sql == other
  {
    KeyShape(w, models(t).prefix, t, sql);
    KeyShape(w, models(u).prefix, u, other);
    SameKeyParts(models(t).prefix, t, KeyTail(w, sql, "sql"), models(u).prefix, u, KeyTail(w, other, "sql"));
    SameHash(w.hash(sql), w.hash(other), "sql");
  }

  lemma SetTextRecords(w: World, models: string -> Advanced, s: State, q: nat, t: string, sql: string)
    requires Injective(w) && Tidy(w, models, s) && Named(models, t) && RecordedAt(w, models, s, t, sql)
    ensures RecordedAt(w, models, DoSetText(w, models, s, q), t, sql)
  {
    var r := DoSetText(w, models, s, q);
    SetsKeepLists(w, models, s, q);
    if q in s.queries && s.queries[q].DataSet? {
      var x := s.queries[q];
      assert QuerySound(w, models, s, x);
      KeysDiffer(w, models(t).prefix, t, sql, models(x.table).prefix, x.table, x.sql);
      if TextKeyOf(w, models, t, sql) == TextKeyOf(w, models, x.table, x.sql) {
        SameTextKey(w, models, t, sql, x.table, x.sql);
      }
      hide DataKey, SqlKey, UniqueId, Named, Recorded, RecordedAt, QuerySound, Injective;
      if BeingStored(s, t, sql) {
        var p :| p in s.queries && Storing(s.queries[p], t, sql);
        assert Storing(r.queries[p], t, sql);
      }
      if x.table == t && x.sql == sql {
        assert Storing(r.queries[q], t, sql);
      }
      RecordedStays(w, models, s, r, t, sql);
    }
  }

  lemma SetKeysRecords(w: World, models: string -> Advanced, s: State, q: nat, t: string, sql: string)
    requires Tidy(w, models, s) && Named(models, t) && RecordedAt(w, models, s, t, sql)
    ensures RecordedAt(w, models, DoSetKeys(w, models, s, q), t, sql)
  {
    var r := DoSetKeys(w, models, s, q);
    if q in s.queries && s.queries[q].KeysGot? {
      var x := s.queries[q];
      SetKeysKeepsFresh(w, models, s, q);
      SetKeysAdds(w, models, s, q, t);
      assert QuerySound(w, models, s, x);
      KeyIsNoPrefix(w, models, t, sql, x.table);
      var own := OwnKeys(w, models(x.table), x.table, x.sql);
      assert own[0] == KeyOf(w, models, x.table, x.sql) && own[1] == TextKeyOf(w, models, x.table, x.sql);
      hide KeyOf, TextKeyOf, Named, Recorded, OwnKeys, QuerySound, Unique;
      if BeingStored(s, t, sql) {
        var p :| p in s.queries && Storing(s.queries[p], t, sql);
        assert p != q ==> Storing(r.queries[p], t, sql);
      }
    }
  }

  lemma StepRecords(w: World, models: string -> Advanced, s: State, step: Step, t: string, sql: string)
    requires Injective(w) && Tidy(w, models, s) && Named(models, t) && RecordedAt(w, models, s, t, sql)
    ensures RecordedAt(w, models, Do(w, models, s, step), t, sql)
  {
    hide Tidy, Named, RecordedAt, Injective, DoSetData, DoSetText, DoSetKeys;
    match step
    case SetData(q) => SetDataRecords(w, models, s, q, t, sql);
    case SetText(q) => SetTextRecords(w, models, s, q, t, sql);
    case SetKeys(q) => SetKeysRecords(w, models, s, q, t, sql);
    case _ => QuietRecords(w, models, s, step, t, sql);
  }

  ghost predicate AllRecorded(w: World, models: string -> Advanced, s: State)
  {
    forall t, sql :: Named(models, t) ==> RecordedAt(w, models, s, t, sql)
  }

  lemma {:induction false} RunRecords(w: World, models: string -> Advanced, now: int, tables: map<string, Contents>, steps: seq<Step>)
    requires Injective(w) && NamedSteps(models, steps) && ListsApart(w, models, Start(now, tables), steps)
    ensures var s := Run(w, models, Start(now, tables), steps); Tidy(w, models, s) && AllRecorded(w, models, s)
  {
    hide Do, Named, RecordedAt, Tidy, Alone, Injective;
    if steps == [] {
      NothingRecorded(w, models, now, tables);
    } else {
      var n, start := |steps| - 1, Start(now, tables);
      var before := Run(w, models, start, steps[..n]);
      forall i | 0 <= i < n ensures steps[..n][i] == steps[i] && steps[..n][..i] == steps[..i] {
      }
      RunRecords(w, models, now, tables, steps[..n]);
      assert NamedStep(models, steps[n]);
      StepTidy(w, models, before, steps[n]);
      forall t, sql | Named(models, t) ensures RecordedAt(w, models, Do(w, models, before, steps[n]), t, sql) {
        assert RecordedAt(w, models, before, t, sql);
        StepRecords(w, models, before, steps[n], t, sql);
      }
    }
  }

  lemma NothingRecorded(w: World, models: string -> Advanced, now: int, tables: map<string, Contents>)
    ensures Tidy(w, models, Start(now, tables)) && AllRecorded(w, models, Start(now, tables))
  {
  }

  // ---------------------------------------------------------------- theorems

  /**
   When no two queries are between reading and setting one list, the driver's own deletion leaves no result
   of any table with its prefix, except those that are being stored.
   */
  lemma DriverDeletesAll(w: World, models: string -> Advanced, now: int, tables: map<string, Contents>, steps: seq<Step>, table: string, sql: string)
    requires Injective(w) && NamedSteps(models, steps) && ListsApart(w, models, Start(now, tables), steps) && Named(models, table)
    ensures
      var s := Run(w, models, Start(now, tables), steps);
      KeyOf(w, models, table, sql) in Dropped(s.cache, s.now, models(table)) ==> BeingStored(s, table, sql)
  {
    hide Run;
    RunRecords(w, models, now, tables, steps);
    assert RecordedAt(w, models, Run(w, models, Start(now, tables), steps), table, sql);
  }

  // ---------------------------------------------------------------- a run that forgets keys

  /** Nothing is under way, and a live result outlasts the driver's deletion. */
  ghost predicate ForgetsKeys(w: World, models: string -> Advanced, s: State, t: string, sql: string)
  {
    && s.queries == map[] && s.writes == map[]
    && Live(s.cache, s.now, KeyOf(w, models, t, sql)).Some? && KeyOf(w, models, t, sql) in Dropped(s.cache, s.now, models(t))
  }

  function Four(w: World, models: string -> Advanced, s: State, x: Step, y: Step, z: Step, u: Step): State
  {
    Do(w, models, Do(w, models, Do(w, models, Do(w, models, s, x), y), z), u)
  }

  lemma TwoRead(w: World, models: string -> Advanced, now: int, t: string, a: string, b: string, c: Contents)
    ensures
      Four(w, models, Start(now, map[t := c]), Lookup(t, a), Lookup(t, b), Read(0), Read(1)) ==
      State(now, map[t := c], map[], map[], map[], map[0 := HasRead(t, a, w.eval(a, c), c, 0), 1 := HasRead(t, b, w.eval(b, c), c, 0)], map[], 2)
  {
    hide DataKey, UniqueId;
    var start := Start(now, map[t := c]);
    var s1 := Do(w, models, start, Lookup(t, a));
    assert s1.queries == map[0 := Missed(t, a)];
    var s2 := Do(w, models, s1, Lookup(t, b));
    assert s2.queries == map[0 := Missed(t, a), 1 := Missed(t, b)];
    var s3 := Do(w, models, s2, Read(0));
    assert s3.queries == map[0 := HasRead(t, a, w.eval(a, c), c, 0), 1 := Missed(t, b)];
  }

  /** The two queries x and y, no list set yet, and a live result of the first. */
  ghost predicate Both(w: World, models: string -> Advanced, s: State, x: Query, y: Query)
  {
    && s.queries == map[0 := x, 1 := y] && s.writes == map[]
    && models(x.table).prefix !in s.cache && (!x.HasRead? ==> Live(s.cache, s.now, KeyOf(w, models, x.table, x.sql)).Some?)
  }

  /** The three keys of either query, apart from each other and from the first result's. */
  ghost predicate TwoApart(w: World, models: string -> Advanced, t: string, a: string, b: string)
  {
    KeysApart(w, models, t, a) && KeysApart(w, models, t, b) && KeyOf(w, models, t, a) !in OwnKeys(w, models(t), t, b)
  }

  lemma TwoKeysApart(w: World, models: string -> Advanced, t: string, a: string, b: string)
    requires Injective(w) && Named(models, t) && a != b
    ensures TwoApart(w, models, t, a, b)
  {
    KeysDiffer(w, models(t).prefix, t, a, models(t).prefix, t, b);
    DistinctKeys(w, models, t, a);
    DistinctKeys(w, models, t, b);
  }

  lemma FirstData(w: World, models: string -> Advanced, s: State, x: Query, y: Query)
    requires Both(w, models, s, x, y) && x.HasRead? && Stores(models(x.table), x.rows) && KeysApart(w, models, x.table, x.sql)
    ensures Both(w, models, Do(w, models, s, SetData(0)), DataSet(x.table, x.sql), y)
  {
    hide DataKey, SqlKey, UniqueId;
  }

  lemma SecondData(w: World, models: string -> Advanced, s: State, t: string, a: string, y: Query)
    requires Both(w, models, s, DataSet(t, a), y) && y.HasRead? && y.table == t
    requires Stores(models(t), y.rows) && TwoApart(w, models, t, a, y.sql)
    ensures Both(w, models, Do(w, models, s, SetData(1)), DataSet(t, a), DataSet(t, y.sql))
  {
    hide DataKey, SqlKey, UniqueId;
    assert OwnKeys(w, models(t), t, y.sql)[0] == KeyOf(w, models, t, y.sql);
  }

  lemma FirstText(w: World, models: string -> Advanced, s: State, t: string, a: string, b: string)
    requires Both(w, models, s, DataSet(t, a), DataSet(t, b)) && KeysApart(w, models, t, a)
    ensures Both(w, models, Do(w, models, s, SetText(0)), TextSet(t, a), DataSet(t, b))
  {
    hide DataKey, SqlKey, UniqueId;
  }

  lemma SecondText(w: World, models: string -> Advanced, s: State, t: string, a: string, b: string)
    requires Both(w, models, s, TextSet(t, a), DataSet(t, b)) && TwoApart(w, models, t, a, b)
    ensures Both(w, models, Do(w, models, s, SetText(1)), TextSet(t, a), TextSet(t, b))
  {
    hide DataKey, SqlKey, UniqueId;
    assert OwnKeys(w, models(t), t, b)[1] == TextKeyOf(w, models, t, b);
  }

  lemma TwoGet(w: World, models: string -> Advanced, s: State, t: string, a: string, b: string)
    requires Both(w, models, s, TextSet(t, a), TextSet(t, b))
    ensures Both(w, models, Do(w, models, Do(w, models, s, GetKeys(0)), GetKeys(1)), KeysGot(t, a, []), KeysGot(t, b, []))
  {
    hide DataKey, UniqueId;
    var s1 := Do(w, models, s, GetKeys(0));
    assert s1.queries == map[0 := KeysGot(t, a, []), 1 := TextSet(t, b)];
  }

  lemma TwoLists(w: World, models: string -> Advanced, s: State, t: string, a: string, b: string)
    requires Both(w, models, s, KeysGot(t, a, []), KeysGot(t, b, [])) && TwoApart(w, models, t, a, b)
    ensures ForgetsKeys(w, models, Do(w, models, Do(w, models, s, SetKeys(0)), SetKeys(1)), t, a)
  {
    hide DataKey, SqlKey, UniqueId, Unique;
    var s3 := Do(w, models, s, SetKeys(0));
    assert s3.queries == map[1 := KeysGot(t, b, [])];
    var s4 := Do(w, models, s3, SetKeys(1));
    assert s4.queries == map[];
    var keys := [] + OwnKeys(w, models(t), t, b);
    assert Recorded(s4.cache, s4.now, models(t).prefix) == Unique(keys);
    assert KeyOf(w, models, t, a) !in keys;
  }

  lemma TwoSet(w: World, models: string -> Advanced, s: State, x: Query, y: Query)
    requires Both(w, models, s, x, y) && x.HasRead? && y.HasRead? && x.table == y.table
    requires Stores(models(x.table), x.rows) && Stores(models(x.table), y.rows) && TwoApart(w, models, x.table, x.sql, y.sql)
    ensures Both(w, models, Four(w, models, s, SetData(0), SetData(1), SetText(0), SetText(1)), TextSet(x.table, x.sql), TextSet(y.table, y.sql))
  {
    hide Do, Both, Stores;
    var t := x.table;
    FirstData(w, models, s, x, y);
    var s1 := Do(w, models, s, SetData(0));
    SecondData(w, models, s1, t, x.sql, y);
    var s2 := Do(w, models, s1, SetData(1));
    FirstText(w, models, s2, t, x.sql, y.sql);
    SecondText(w, models, Do(w, models, s2, SetText(0)), t, x.sql, y.sql);
  }

  lemma BothRead(w: World, models: string -> Advanced, s: State, x: Query, y: Query)
    requires s.queries == map[0 := x, 1 := y] && s.writes == map[] && s.cache == map[] && x.HasRead?
    ensures Both(w, models, s, x, y)
  {
  }

  /** Two queries that both read the list before either sets it: one of them leaves keys that nobody has recorded. */
  lemma OverlappingStoresForgetKeys(w: World, models: string -> Advanced, now: int, t: string, a: string, b: string, c: Contents)
    requires Injective(w) && Named(models, t) && Stores(models(t), w.eval(a, c)) && Stores(models(t), w.eval(b, c)) && a != b
    ensures exists steps :: ForgetsKeys(w, models, Run(w, models, Start(now, map[t := c]), steps), t, a)
  {
    hide Run, Do, ForgetsKeys, Named, Injective, Stores, TwoApart, Both;
    var start, empty := Start(now, map[t := c]), [];
    var x, y := HasRead(t, a, w.eval(a, c), c, 0), HasRead(t, b, w.eval(b, c), c, 0);
    var first := empty + [Lookup(t, a), Lookup(t, b), Read(0), Read(1)];
    var second := first + [SetData(0), SetData(1), SetText(0), SetText(1)];
    var third := second + [GetKeys(0), GetKeys(1), SetKeys(0), SetKeys(1)];
    EmptyRun(w, models, start);
    RunFour(w, models, start, empty, Lookup(t, a), Lookup(t, b), Read(0), Read(1));
    RunFour(w, models, start, first, SetData(0), SetData(1), SetText(0), SetText(1));
    RunFour(w, models, start, second, GetKeys(0), GetKeys(1), SetKeys(0), SetKeys(1));
    TwoRead(w, models, now, t, a, b, c);
    var s := Run(w, models, start, first);
    TwoKeysApart(w, models, t, a, b);
    BothRead(w, models, s, x, y);
    TwoSet(w, models, s, x, y);
    var r := Run(w, models, start, second);
    TwoGet(w, models, r, t, a, b);
    TwoLists(w, models, Do(w, models, Do(w, models, r, GetKeys(0)), GetKeys(1)), t, a, b);
    assert ForgetsKeys(w, models, Run(w, models, start, third), t, a);
  }
}

/**
 The gatekeeper as an object over the shared store. Each method is one of the program's, run without
 interruption, and leaves the store, the lock and the records as the steps of module Gatekeeper do when
 they are taken one after the other.
 */
module GatekeeperObject {
  import opened Text
  import opened Encryption
  import opened Gatekeeper

  datatype Refusal = EmptyId | Busy | Undecodable | NotStored | OtherToken | Expired

  /** What issuing returns. */
  datatype Credentialed = Credentialed(token: string) | Denied(why: Refusal)

  datatype Granted = Granted(renewed: Option<string>) | Refused(why: Refusal)

  class GuardPost {
    const gate: Gate
    var now: nat
    var store: map<string, string>
    var lock: Option<nat>
    var started: nat
    var issued: seq<Issuance>
    var accepted: seq<Acceptance>

    constructor (gate: Gate, now: nat, store: map<string, string>)
      ensures this.gate == gate && State() == Start(now, store)
    {
      this.gate, this.now, this.store := gate, now, store;
      lock, started, issued, accepted := None, 0, [], [];
    }

    /** No operation is under way. */
    function State(): State
      reads this
    {
      Gatekeeper.State(now, store, lock, map[], started, issued, accepted)
    }

    method Decode(text: string) returns (item: Option<Item>)
      requires Usable(gate)
      ensures item == Parse(gate, text)
    {
      var data := OpenToken(gate.p, gate.key, text);
      return match data case Opened(item) => Some(item) case Failed(_) => None;
    }

    method Encode(item: Item) returns (token: string)
      requires Usable(gate) && item.id != ""
      ensures token == Token(gate, item) && Parse(gate, token) == Some(item)
    {
      ParseToken(gate, item);
      token := SealToken(gate.p, gate.key, item);
    }

    // -------------------------------------------------------------- issuing

    /** Without an id it is an error and nothing happens. */
    method Credential(id: string) returns (r: Credentialed)
      requires Usable(gate) && LockIsOlder(State())
      modifies this
      ensures LockIsOlder(State())
      ensures State() == if id == "" then old(State()) else IssueAlone(gate, old(State()), id)
      ensures r.Credentialed? <==> id != "" && old(lock) == None
      ensures r.Denied? ==> r.why == if id == "" then EmptyId else Busy
      ensures r.Credentialed? ==> id in store && store[id] == r.token && Parse(gate, r.token) == Some(Item(id, (now + gate.lifetime) % TWO64))
    {
      hide Parse, IssueAlone, Stored, Usable, Token;
      if id == "" {
        return Denied(EmptyId);
      }
      IssueSteps(gate, State(), id);
      var o := started;
      started := started + 1;
      var token := Issue(o, id, None);
      return if token.Some? then Credentialed(token.value) else Denied(Busy);
    }

    /** The body of Credential: gives up at once when another operation has the lock. */
    method Issue(o: nat, id: string, renews: Option<nat>) returns (token: Option<string>)
      requires Usable(gate) && id != ""
      modifies this`store, this`issued, this`lock
      ensures State() == Stored(gate, old(State()), id, renews) && lock == old(lock)
      ensures old(lock) == None <==> token.Some?
      ensures token.Some? ==> id in store && store[id] == token.value && Parse(gate, token.value) == Some(Item(id, (now + gate.lifetime) % TWO64))
    {
      hide Token, Parse, Usable;
      if lock.Some? {
        return None;
      }
      lock := Some(o);
      var item := Item(id, (now + gate.lifetime) % TWO64);
      var sealed := Encode(item);
      store := store[id := sealed];
      issued := issued + [Issuance(item, sealed, renews)];
      lock := None;
      token := Some(sealed);
    }

    // -------------------------------------------------------------- guarding

    /** A token that passes is renewed when less than half of its life is left; an expired one is cleaned up. */
    method Guard(token: string) returns (r: Granted)
      requires Usable(gate) && LockIsOlder(State())
      modifies this
      ensures LockIsOlder(State())
      ensures State() == GuardAlone(gate, old(State()), token)
      ensures r.Granted? <==> Passes(gate, old(State()), token)
      ensures r.Granted? && r.renewed.Some? ==>
                Parse(gate, r.renewed.value) == Some(Item(Parse(gate, token).value.id, (now + gate.lifetime) % TWO64))
    {
      hide Parse, Token, GuardAlone, CleanAlone, Cleaned, Stored, Usable;
      GuardSteps(gate, State(), token);
      var data := Decode(token);
      if data.None? {
        return Refused(Undecodable);
      }
      var item := data.value;
      started := started + 1;
      if item.id !in store {
        return Refused(NotStored);
      }
      if store[item.id] != token {
        return Refused(OtherToken);
      }
      if now > item.expire {
        CleanSteps(gate, State(), item.id);
        CleanupExpired(item.id);
        return Refused(Expired);
      }
      accepted := accepted + [Acceptance(token, item, now, |issued|)];
      if item.expire - now >= gate.lifetime / 2 {
        return Granted(None);
      }
      HasId(gate, token);
      var renewed := Issue(started - 1, item.id, Some(item.expire));
      return Granted(renewed);
    }

    // -------------------------------------------------------------- cleaning

    /** One sweep, with the time at which its tick was due. */
    method ClearExpired(t: nat)
      requires Usable(gate) && LockIsOlder(State()) && t <= now
      modifies this
      ensures LockIsOlder(State())
      ensures State() == SweepAlone(gate, old(State()), t)
      ensures old(lock) == None ==> forall id :: id in old(store) ==> (id in store <==> !Doomed(gate, old(store)[id], t))
    {
      SweepSteps(gate, State(), t);
      var o := started;
      started := started + 1;
      if lock.Some? {
        return;
      }
      var deleteIds := ExpiredIds(store, t);
      store := store - deleteIds;
    }

    /** The ids whose text does not open or has expired. */
    method ExpiredIds(maps: map<string, string>, t: nat) returns (deleteIds: set<string>)
      requires Usable(gate)
      ensures deleteIds == set id | id in maps && Doomed(gate, maps[id], t)
    {
      hide Parse, Usable;
      deleteIds := {};
      var keys := maps.Keys;
      while keys != {}
        invariant keys <= maps.Keys
        invariant deleteIds == set id | id in maps && id !in keys && Doomed(gate, maps[id], t)
        decreases keys
      {
        var key :| key in keys;
        keys := keys - {key};
        var data := Decode(maps[key]);
        if data.None? || t > data.value.expire {
          deleteIds := deleteIds + {key};
        }
      }
    }

    /** The cleanup that a guard starts for an expired token. */
    method CleanupExpired(id: string)
      requires Usable(gate) && LockIsOlder(State())
      modifies this
      ensures LockIsOlder(State())
      ensures State() == CleanAlone(gate, old(State()), id)
    {
      hide CleanAlone;
      CleanSteps(gate, State(), id);
      started := started + 1;
      Clean(id);
    }

    /** The body of the cleanup: it looks at the stored credential again before it deletes. */
    method Clean(id: string)
      requires Usable(gate)
      modifies this`store
      ensures State() == Cleaned(gate, old(State()), id)
    {
      hide Parse;
      if lock.Some? || id !in store {
        return;
      }
      var data := Decode(store[id]);
      if data.Some? && now > data.value.expire {
        store := store - {id};
      }
    }
  }

  /** Whoever holds the lock has started already. */
  predicate LockIsOlder(s: State) { s.lock.Some? ==> s.lock.value < s.started }

  // ---------------------------------------------------------------- operations taken alone

  /** The credential is in the store, unless the lock was taken. */
  function Stored(g: Gate, s: State, id: string, renews: Option<nat>): State
    requires Usable(g)
  {
    var item := Item(id, (s.now + g.lifetime) % TWO64);
    if s.lock.Some? then s
    else s.(store := s.store[id := Token(g, item)], issued := s.issued + [Issuance(item, Token(g, item), renews)])
  }

  lemma Single(o: nat, a: Op, b: Op)
    ensures map[o := a][o := b] == map[o := b] && map[o := a] - {o} == map[]
  {
  }

  function IssueOn(g: Gate, s: State, o: nat): State
    requires Usable(g)
  {
    DoRelease(DoHSet(DoMakeToken(g, DoTryLock(s, o), o), o), o)
  }

  function IssueAlone(g: Gate, s: State, id: string): State
    requires Usable(g)
  {
    IssueOn(g, Do(g, s, StartCredential(id)), s.started)
  }

  lemma IssueFinishes(g: Gate, s: State, o: nat, id: string, renews: Option<nat>)
    requires Usable(g) && s.ops == map[o := Op.Issue(id, renews)] && s.lock != Some(o)
    ensures IssueOn(g, s, o) == Stored(g, s.(ops := map[]), id, renews)
  {
    hide Token, DoTryLock, DoMakeToken, DoHSet, DoRelease;
    IssueLocked(s, o, id, renews);
    if s.lock.None? {
      IssueStored(g, DoTryLock(s, o), o, id, renews);
    } else {
      IssueEnded(g, Ended(s, o), o);
      assert s.ops - {o} == map[];
    }
  }

  lemma IssueSteps(g: Gate, s: State, id: string)
    requires Usable(g) && s.ops == map[] && LockIsOlder(s) && id != ""
    ensures IssueAlone(g, s, id) == Stored(g, s.(started := s.started + 1), id, None)
  {
    hide Token, IssueOn;
    IssueFinishes(g, Started(s, Op.Issue(id, None)), s.started, id, None);
  }

  lemma IssueLocked(s: State, o: nat, id: string, renews: Option<nat>)
    requires s.ops == map[o := Op.Issue(id, renews)]
    ensures DoTryLock(s, o) == if s.lock.Some? then Ended(s, o) else s.(ops := map[o := Issuing(id, renews)], lock := Some(o))
  {
  }

  lemma IssueEnded(g: Gate, s: State, o: nat)
    requires Usable(g) && o !in s.ops
    ensures DoRelease(DoHSet(DoMakeToken(g, s, o), o), o) == s
  {
  }

  lemma IssueStored(g: Gate, s: State, o: nat, id: string, renews: Option<nat>)
    requires Usable(g) && s.ops == map[o := Issuing(id, renews)] && s.lock == Some(o)
    ensures
      var item := Item(id, (s.now + g.lifetime) % TWO64);
      DoRelease(DoHSet(DoMakeToken(g, s, o), o), o) ==
      s.(ops := map[], lock := None,
         store := s.store[id := Token(g, item)],
         issued := s.issued + [Issuance(item, Token(g, item), renews)])
  {
    hide Token, Usable;
    var item := Item(id, (s.now + g.lifetime) % TWO64);
    var sealed := Sealed(item, Token(g, item), renews);
    Single(o, Issuing(id, renews), sealed);
    Single(o, sealed, Finishing);
    Single(o, Finishing, Finishing);
  }

  function SweepAlone(g: Gate, s: State, t: nat): State
    requires Usable(g)
  {
    var o := s.started;
    DoRelease(DoHDel(DoHGetAll(g, DoTryLock(Do(g, s, StartSweep(t)), o), o), o), o)
  }

  lemma SweepSteps(g: Gate, s: State, t: nat)
    requires Usable(g) && s.ops == map[] && LockIsOlder(s) && t <= s.now
    ensures
      SweepAlone(g, s, t) ==
      if s.lock.Some? then s.(started := s.started + 1)
      else s.(started := s.started + 1, store := s.store - (set id | id in s.store && Doomed(g, s.store[id], t)))
  {
    hide Parse, Doomed, DoTryLock, DoHGetAll, DoHDel, DoRelease;
    var o := s.started;
    var s0 := Started(s, Sweep(t));
    SweepLocked(s0, o, t);
    if s.lock.None? {
      SweepDeleted(g, DoTryLock(s0, o), o, t);
    } else {
      SweepEnded(g, Ended(s0, o), o);
    }
    assert s0.ops - {o} == map[];
  }

  /**
   A sweep that nothing interrupts, with the lock free, deletes every text that does not open and every
   credential that had expired at its time, and keeps every other one as it is.
   */
  lemma SweepExactly(g: Gate, s: State, t: nat)
    requires Usable(g) && s.ops == map[] && s.lock == None && t <= s.now
    ensures
      var r := SweepAlone(g, s, t);
      && r.ops == map[] && r.lock == None && r.now == s.now && r.issued == s.issued && r.accepted == s.accepted
      && (forall id :: id in r.store <==> id in s.store && Parse(g, s.store[id]).Some? && t <= Parse(g, s.store[id]).value.expire)
      && (forall id :: id in r.store ==> r.store[id] == s.store[id])
  {
    hide Parse, SweepAlone;
    SweepSteps(g, s, t);
  }

  lemma SweepLocked(s: State, o: nat, t: nat)
    requires s.ops == map[o := Sweep(t)]
    ensures DoTryLock(s, o) == if s.lock.Some? then Ended(s, o) else s.(ops := map[o := Sweeping(t)], lock := Some(o))
  {
  }

  lemma SweepEnded(g: Gate, s: State, o: nat)
    requires Usable(g) && o !in s.ops
    ensures DoRelease(DoHDel(DoHGetAll(g, s, o), o), o) == s
  {
  }

  lemma SweepDeleted(g: Gate, s: State, o: nat, t: nat)
    requires Usable(g) && s.ops == map[o := Sweeping(t)] && s.lock == Some(o)
    ensures
      DoRelease(DoHDel(DoHGetAll(g, s, o), o), o) ==
      s.(ops := map[], lock := None, store := s.store - (set id | id in s.store && Doomed(g, s.store[id], t)))
  {
    hide Parse, Doomed;
    var gone := set id | id in s.store && Doomed(g, s.store[id], t);
    var s2 := DoHGetAll(g, s, o);
    assert s2.ops == map[o := Chosen(t, gone)];
    assert DoHDel(s2, o).ops == map[o := Finishing];
    assert map[o := Finishing] - {o} == map[];
  }

  /** The id is gone if its credential has expired, unless the lock was taken. */
  function Cleaned(g: Gate, s: State, id: string): State
    requires Usable(g)
  {
    if s.lock.None? && id in s.store && Parse(g, s.store[id]).Some? && s.now > Parse(g, s.store[id]).value.expire
    then s.(store := s.store - {id}) else s
  }

  function CleanOn(g: Gate, s: State, o: nat): State
    requires Usable(g)
  {
    DoRelease(DoHDel(DoCheck(g, DoHGet(g, DoTryLock(s, o), o), o), o), o)
  }

  function CleanAlone(g: Gate, s: State, id: string): State
    requires Usable(g)
  {
    CleanOn(g, Started(s, Op.Clean(id)), s.started)
  }

  lemma CleanFinishes(g: Gate, s: State, o: nat, id: string)
    requires Usable(g) && s.ops == map[o := Op.Clean(id)] && s.lock != Some(o)
    ensures CleanOn(g, s, o) == Cleaned(g, s.(ops := map[]), id)
  {
    hide Parse, DoTryLock, DoHGet, DoCheck, DoHDel, DoRelease;
    CleanLocked(s, o, id);
    if s.lock.None? {
      CleanLooked(g, DoTryLock(s, o), o, id);
    } else {
      EndedOnly(g, Ended(s, o), o);
      assert s.ops - {o} == map[];
    }
  }

  lemma CleanSteps(g: Gate, s: State, id: string)
    requires Usable(g) && s.ops == map[] && LockIsOlder(s)
    ensures CleanAlone(g, s, id) == Cleaned(g, s.(started := s.started + 1), id)
  {
    hide Parse, CleanOn;
    CleanFinishes(g, Started(s, Op.Clean(id)), s.started, id);
  }

  lemma CleanLocked(s: State, o: nat, id: string)
    requires s.ops == map[o := Op.Clean(id)]
    ensures DoTryLock(s, o) == if s.lock.Some? then Ended(s, o) else s.(ops := map[o := Cleaning(id)], lock := Some(o))
  {
  }

  /** An operation that has ended takes no more steps. */
  lemma EndedOnly(g: Gate, s: State, o: nat)
    requires Usable(g) && o !in s.ops
    ensures DoRelease(DoHDel(DoCheck(g, DoHGet(g, s, o), o), o), o) == s
  {
  }

  lemma CleanLooked(g: Gate, s: State, o: nat, id: string)
    requires Usable(g) && s.ops == map[o := Cleaning(id)] && s.lock == Some(o)
    ensures
      DoRelease(DoHDel(DoCheck(g, DoHGet(g, s, o), o), o), o) ==
      var r := s.(ops := map[], lock := None);
      if id in s.store && Parse(g, s.store[id]).Some? && s.now > Parse(g, s.store[id]).value.expire
      then r.(store := s.store - {id}) else r
  {
    hide Parse, Usable;
    Single(o, Cleaning(id), Finishing);
    Single(o, Condemned(id), Finishing);
    Single(o, Finishing, Finishing);
    if id in s.store && Parse(g, s.store[id]).Some? {
      var found := Found(id, Parse(g, s.store[id]).value);
      Single(o, Cleaning(id), found);
      Single(o, found, Condemned(id));
      Single(o, found, Finishing);
    }
  }

  // ---------------------------------------------------------------- a guard taken alone

  predicate Passes(g: Gate, s: State, token: string)
    requires Usable(g)
  {
    && Parse(g, token).Some?
    && Parse(g, token).value.id in s.store && s.store[Parse(g, token).value.id] == token
    && s.now <= Parse(g, token).value.expire
  }

  /** The guard's own steps, then those of its renewal, then those of the cleanup it started. */
  function GuardAlone(g: Gate, s: State, token: string): State
    requires Usable(g)
  {
    var o := s.started;
    CleanOn(g, IssueOn(g, DoCheck(g, DoHGet(g, Do(g, s, StartGuard(token)), o), o), o), o + 1)
  }

  lemma NothingToIssue(g: Gate, s: State, o: nat)
    requires Usable(g) && o !in s.ops
    ensures IssueOn(g, s, o) == s
  {
    hide DoMakeToken, DoHSet, DoRelease;
    IssueEnded(g, s, o);
  }

  lemma NothingToClean(g: Gate, s: State, o: nat)
    requires Usable(g) && o !in s.ops
    ensures CleanOn(g, s, o) == s
  {
    hide DoHGet, DoCheck, DoHDel, DoRelease;
    EndedOnly(g, s, o);
  }

  /** The state after the guard has read the store and the clock. */
  function Looked(g: Gate, s: State, token: string): State
    requires Usable(g) && s.ops == map[]
  {
    var o, item := s.started, Parse(g, token);
    if item.None? then s
    else
      var r := s.(started := o + 1);
      if item.value.id !in s.store || s.store[item.value.id] != token then r
      else if s.now > item.value.expire then r.(started := o + 2, ops := map[o + 1 := Op.Clean(item.value.id)])
      else
        var r := r.(accepted := s.accepted + [Acceptance(token, item.value, s.now, |s.issued|)]);
        if item.value.expire - s.now < g.lifetime / 2 then r.(ops := map[o := Op.Issue(item.value.id, Some(item.value.expire))]) else r
  }

  lemma GuardLooks(g: Gate, s: State, token: string)
    requires Usable(g) && s.ops == map[] && LockIsOlder(s)
    ensures DoCheck(g, DoHGet(g, Do(g, s, StartGuard(token)), s.started), s.started) == Looked(g, s, token)
  {
    hide Parse, Usable, DoHGet, DoCheck;
    var o := s.started;
    if Parse(g, token).Some? {
      var item := Parse(g, token).value;
      var guarding, fetched := Guarding(token, item), Fetched(token, item, |s.issued|);
      Single(o, guarding, fetched);
      Single(o, fetched, Op.Issue(item.id, Some(item.expire)));
      assert s.ops[o := guarding] == map[o := guarding];
      GuardFetches(g, Started(s, guarding), o, token, item);
      if item.id in s.store && s.store[item.id] == token {
        GuardChecks(g, DoHGet(g, Started(s, guarding), o), o, token, item, |s.issued|);
      } else {
        NothingToCheck(g, DoHGet(g, Started(s, guarding), o), o);
      }
    } else {
      NothingToGet(g, s, o);
      NothingToCheck(g, s, o);
    }
  }

  lemma NothingToGet(g: Gate, s: State, o: nat)
    requires Usable(g) && o !in s.ops
    ensures DoHGet(g, s, o) == s
  {
  }

  lemma NothingToCheck(g: Gate, s: State, o: nat)
    requires o !in s.ops
    ensures DoCheck(g, s, o) == s
  {
  }

  lemma GuardFetches(g: Gate, s: State, o: nat, token: string, item: Item)
    requires Usable(g) && s.ops == map[o := Guarding(token, item)] && s.lock != Some(o)
    ensures DoHGet(g, s, o) ==
            if item.id in s.store && s.store[item.id] == token then s.(ops := map[o := Fetched(token, item, |s.issued|)])
            else s.(ops := map[])
  {
    hide Parse, Usable;
    Single(o, Guarding(token, item), Fetched(token, item, |s.issued|));
  }

  lemma GuardChecks(g: Gate, s: State, o: nat, token: string, item: Item, n: nat)
    requires s.ops == map[o := Fetched(token, item, n)] && s.lock != Some(o)
    ensures DoCheck(g, s, o) ==
            if s.now > item.expire then s.(started := s.started + 1, ops := map[s.started := Op.Clean(item.id)])
            else
              var r := s.(accepted := s.accepted + [Acceptance(token, item, s.now, n)]);
              if item.expire - s.now < g.lifetime / 2 then r.(ops := map[o := Op.Issue(item.id, Some(item.expire))]) else r.(ops := map[])
  {
    Single(o, Fetched(token, item, n), Op.Issue(item.id, Some(item.expire)));
  }

  /** What a guard that nothing interleaves with leaves behind. */
  function GuardResult(g: Gate, s: State, token: string): State
    requires Usable(g)
  {
    match Parse(g, token)
    case None => s
    case Some(item) =>
      if item.id !in s.store || s.store[item.id] != token then s.(started := s.started + 1)
      else if s.now > item.expire then Cleaned(g, s.(started := s.started + 2), item.id)
      else
        var r := s.(started := s.started + 1, accepted := s.accepted + [Acceptance(token, item, s.now, |s.issued|)]);
        if item.expire - s.now < g.lifetime / 2 then Stored(g, r, item.id, Some(item.expire)) else r
  }

  lemma GuardSteps(g: Gate, s: State, token: string)
    requires Usable(g) && s.ops == map[] && LockIsOlder(s)
    ensures GuardAlone(g, s, token) == GuardResult(g, s, token)
  {
    hide Parse, Token, IssueOn, CleanOn, DoCheck, DoHGet, Do, Stored, Cleaned, Usable;
    var o, r := s.started, Looked(g, s, token);
    GuardLooks(g, s, token);
    if Parse(g, token).Some? && Parse(g, token).value.id in s.store && s.store[Parse(g, token).value.id] == token {
      var item := Parse(g, token).value;
      if s.now > item.expire {
        NothingToIssue(g, r, o);
        CleanFinishes(g, r, o + 1, item.id);
      } else if item.expire - s.now < g.lifetime / 2 {
        IssueFinishes(g, r, o, item.id, Some(item.expire));
        StoredKeepsOps(g, r.(ops := map[]), item.id, Some(item.expire));
        NothingToClean(g, IssueOn(g, r, o), o + 1);
      } else {
        NothingToIssue(g, r, o);
        NothingToClean(g, r, o + 1);
      }
    } else {
      NothingToIssue(g, r, o);
      NothingToClean(g, r, o + 1);
    }
  }

  lemma StoredKeepsOps(g: Gate, s: State, id: string, renews: Option<nat>)
    requires Usable(g)
    ensures Stored(g, s, id, renews).ops == s.ops
  {
  }

  lemma HasId(g: Gate, token: string)
    requires Usable(g) && Parse(g, token).Some?
    ensures Parse(g, token).value.id != ""
  {
  }

  // ---------------------------------------------------------------- the life of a credential

  lemma RunLast(g: Gate, start: State, steps: seq<Step>, x: Step)
    requires Usable(g)
    ensures Run(g, start, steps + [x]) == Do(g, Run(g, start, steps), x)
  {
    assert (steps + [x])[..|steps|] == steps;
  }

  /** A credential is issued, and then time passes. */
  function IssueThenWait(id: string, d: nat): seq<Step>
  {
    [StartCredential(id)] + [TryLock(0)] + [MakeToken(0)] + [HSet(0)] + [Release(0)] + [Tick(d)]
  }

  lemma IssuedAndWaited(g: Gate, now: nat, store: map<string, string>, id: string, d: nat)
    requires Usable(g) && id != ""
    ensures Run(g, Start(now, store), IssueThenWait(id, d))
            == Stored(g, Start(now, store).(started := 1), id, None).(now := now + d)
  {
    hide Usable, Token, Run, Do, IssueAlone;
    var s := Start(now, store);
    var none: seq<Step> := [];
    assert Run(g, s, none) == s by { RunNothing(g, s); }
    assert none + [StartCredential(id)] == [StartCredential(id)];
    RunLast(g, s, none, StartCredential(id));
    var p := [StartCredential(id)];
    RunLast(g, s, p, TryLock(0));
    RunLast(g, s, p + [TryLock(0)], MakeToken(0));
    RunLast(g, s, p + [TryLock(0)] + [MakeToken(0)], HSet(0));
    RunLast(g, s, p + [TryLock(0)] + [MakeToken(0)] + [HSet(0)], Release(0));
    RunLast(g, s, p + [TryLock(0)] + [MakeToken(0)] + [HSet(0)] + [Release(0)], Tick(d));
    IssueSteps(g, s, id);
    StepsOfIssue(g, s, id, d);
  }

  lemma RunNothing(g: Gate, s: State)
    requires Usable(g)
    ensures Run(g, s, []) == s
  {
  }

  lemma StepsOfIssue(g: Gate, s: State, id: string, d: nat)
    requires Usable(g) && s.started == 0
    ensures Do(g, Do(g, Do(g, Do(g, Do(g, Do(g, s, StartCredential(id)), TryLock(0)), MakeToken(0)), HSet(0)), Release(0)), Tick(d))
            == IssueAlone(g, s, id).(now := IssueAlone(g, s, id).now + d)
  {
    hide Usable, Token, DoTryLock, DoMakeToken, DoHSet, DoRelease;
  }

  /** A credential that is issued and left alone opens the gate for its lifetime, and no longer. */
  lemma CredentialLives(g: Gate, now: nat, store: map<string, string>, id: string, d: nat)
    requires Usable(g) && id != "" && now + g.lifetime < TWO64
    ensures
      var steps := IssueThenWait(id, d);
      var s := Run(g, Start(now, store), steps);
      && id in s.store && Parse(g, s.store[id]) == Some(Item(id, now + g.lifetime))
      && var r := Run(g, Start(now, store), steps + [StartGuard(s.store[id])] + [HGet(1)] + [Check(1)]);
         |r.accepted| == if d <= g.lifetime then 1 else 0
  {
    hide Usable, Token, Parse, Run, DoHGet, DoCheck;
    var steps, start := IssueThenWait(id, d), Start(now, store);
    IssuedAndWaited(g, now, store, id, d);
    var s := Run(g, start, steps);
    ParseToken(g, Item(id, now + g.lifetime));
    assert (now + g.lifetime) % TWO64 == now + g.lifetime;
    var token := s.store[id];
    assert Parse(g, token) == Some(Item(id, now + g.lifetime));
    RunLast(g, start, steps, StartGuard(token));
    RunLast(g, start, steps + [StartGuard(token)], HGet(1));
    RunLast(g, start, steps + [StartGuard(token)] + [HGet(1)], Check(1));
    assert s.ops == map[] && s.started == 1 && s.now == now + d && s.accepted == [];
    GuardLooks(g, s, token);
    assert Run(g, start, steps + [StartGuard(token)] + [HGet(1)] + [Check(1)]) == Looked(g, s, token);
    assert |Looked(g, s, token).accepted| == if d <= g.lifetime then 1 else 0;
    assert id in s.store && s.store[id] == token;
  }
}

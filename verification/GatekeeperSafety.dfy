/**
 What holds in every run of the gatekeeper, however issuing, guarding and cleaning are interleaved.
 */
module GatekeeperSafety {
  import opened Text
  import opened Encryption
  import opened Gatekeeper

  // ---------------------------------------------------------------- steps that store nothing

  lemma OpStaysSound(g: Gate, s: State, r: State, op: Op)
    requires Usable(g) && OpSound(g, s, op) && r.now >= s.now && r.issued == s.issued
    requires forall id :: id in r.store ==> id in s.store && r.store[id] == s.store[id]
    ensures OpSound(g, r, op)
  {
    hide Parse;
  }

  /** Nothing is stored or accepted, and what is new among the operations is sound. */
  ghost predicate Quiet(g: Gate, s: State, r: State)
    requires Usable(g)
  {
    && r.now >= s.now && r.issued == s.issued && r.accepted == s.accepted
    && (forall id :: id in r.store ==> id in s.store && r.store[id] == s.store[id])
    && (forall o :: o in r.ops ==> (o in s.ops && r.ops[o] == s.ops[o]) || OpSound(g, r, r.ops[o]))
  }

  lemma QuietKeeps(g: Gate, s: State, r: State)
    requires Usable(g) && Inv(g, s) && Quiet(g, s, r) && Locked(r)
    ensures Inv(g, r)
  {
    hide Parse, OpSound, Locked, Usable;
    forall o | o in r.ops ensures OpSound(g, r, r.ops[o]) {
      if o in s.ops && r.ops[o] == s.ops[o] {
        assert OpSound(g, s, s.ops[o]);
        OpStaysSound(g, s, r, s.ops[o]);
      }
    }
    forall id | id in r.store ensures StoredSound(g, r, id) {
      assert StoredSound(g, s, id);
    }
    forall k | 0 <= k < |r.accepted| ensures AcceptanceSound(g, r, r.accepted[k]) {
      assert AcceptanceSound(g, s, s.accepted[k]);
    }
  }

  lemma EndedLocked(s: State, o: nat)
    requires Locked(s)
    ensures Locked(Ended(s, o))
  {
  }

  lemma EndedKeeps(g: Gate, s: State, o: nat)
    requires Usable(g) && Inv(g, s)
    ensures Inv(g, Ended(s, o))
  {
    hide Parse, OpSound, Locked, Usable;
    EndedLocked(s, o);
    QuietKeeps(g, s, Ended(s, o));
  }

  lemma StartedKeeps(g: Gate, s: State, op: Op)
    requires Usable(g) && Inv(g, s) && !Holding(op) && OpSound(g, s, op)
    ensures Inv(g, Started(s, op))
  {
    hide Parse, OpSound, Usable, StoreSound, IssuedInOrder, OpsSound, AcceptedSound;
    var r := Started(s, op);
    OpStaysSound(g, s, r, op);
    QuietKeeps(g, s, r);
  }

  /** An operation goes on without storing anything. */
  lemma MovedKeeps(g: Gate, s: State, o: nat, op: Op)
    requires Usable(g) && Inv(g, s) && o in s.ops && Holding(op) == Holding(s.ops[o]) && OpSound(g, s, op)
    ensures Inv(g, Moved(s, o, op))
  {
    hide Parse, OpSound, Usable, StoreSound, IssuedInOrder, OpsSound, AcceptedSound;
    var r := Moved(s, o, op);
    OpStaysSound(g, s, r, op);
    QuietKeeps(g, s, r);
  }

  lemma TryLockKeeps(g: Gate, s: State, o: nat)
    requires Usable(g) && Inv(g, s)
    ensures Inv(g, DoTryLock(s, o))
  {
    hide Parse, Usable, StoreSound, IssuedInOrder, AcceptedSound;
    if o in s.ops && (s.ops[o].Issue? || s.ops[o].Sweep? || s.ops[o].Clean?) {
      assert OpSound(g, s, s.ops[o]);
      if s.lock.Some? {
        EndedKeeps(g, s, o);
      } else {
        QuietKeeps(g, s, DoTryLock(s, o));
      }
    }
  }

  lemma MakeTokenKeeps(g: Gate, s: State, o: nat)
    requires Usable(g) && Inv(g, s) && NoWrap(g, s)
    ensures Inv(g, DoMakeToken(g, s, o))
  {
    hide Parse, Token, Usable, AcceptedSound, Locked;
    if o in s.ops && s.ops[o].Issuing? {
      assert OpSound(g, s, s.ops[o]);
      var item := Item(s.ops[o].id, s.now + g.lifetime);
      assert (s.now + g.lifetime) % TWO64 == s.now + g.lifetime;
      ParseToken(g, item);
      var op := Sealed(item, Token(g, item), s.ops[o].renews);
      forall id | id in s.store && Parse(g, s.store[id]).Some? ensures Parse(g, s.store[id]).value.expire <= item.expire {
        assert StoredSound(g, s, id);
      }
      assert OpSound(g, s, op);
      MovedKeeps(g, s, o, op);
    }
  }

  lemma HGetKeeps(g: Gate, s: State, o: nat)
    requires Usable(g) && Inv(g, s)
    ensures Inv(g, DoHGet(g, s, o))
  {
    hide Parse, Usable, IssuedInOrder, AcceptedSound, Locked;
    if o in s.ops {
      var op := s.ops[o];
      assert OpSound(g, s, op);
      if op.Guarding? {
        if op.item.id in s.store && s.store[op.item.id] == op.token {
          assert StoredSound(g, s, op.item.id);
          MovedKeeps(g, s, o, Fetched(op.token, op.item, |s.issued|));
        } else {
          EndedKeeps(g, s, o);
        }
      } else if op.Cleaning? {
        if op.id in s.store && Parse(g, s.store[op.id]).Some? {
          MovedKeeps(g, s, o, Found(op.id, Parse(g, s.store[op.id]).value));
        } else {
          MovedKeeps(g, s, o, Finishing);
        }
      }
    }
  }

  lemma AcceptKeeps(g: Gate, s: State, a: Acceptance)
    requires Usable(g) && Inv(g, s)
    requires AcceptanceSound(g, s, a)
    ensures Inv(g, s.(accepted := s.accepted + [a]))
  {
    hide Parse, Usable;
    var r := s.(accepted := s.accepted + [a]);
    forall o | o in r.ops ensures OpSound(g, r, r.ops[o]) {
      assert OpSound(g, s, s.ops[o]);
      OpStaysSound(g, s, r, r.ops[o]);
    }
    forall id | id in r.store ensures StoredSound(g, r, id) {
      assert StoredSound(g, s, id);
    }
    forall k | 0 <= k < |r.accepted| ensures AcceptanceSound(g, r, r.accepted[k]) {
      assert k < |s.accepted| ==> AcceptanceSound(g, s, s.accepted[k]);
    }
  }

  lemma CheckKeeps(g: Gate, s: State, o: nat)
    requires Usable(g) && Inv(g, s)
    ensures Inv(g, DoCheck(g, s, o))
  {
    hide Parse, Usable, IssuedInOrder, AcceptedSound, Locked, StoreSound;
    if o in s.ops {
      var op := s.ops[o];
      assert OpSound(g, s, op);
      match op
      case Fetched(token, item, n) =>
        if s.now > item.expire {
          EndedKeeps(g, s, o);
          StartedKeeps(g, Ended(s, o), Clean(item.id));
        } else {
          var a := s.(accepted := s.accepted + [Acceptance(token, item, s.now, n)]);
          AcceptKeeps(g, s, Acceptance(token, item, s.now, n));
          HasId(g, token, item);
          if item.expire - s.now < g.lifetime / 2 {
            MovedKeeps(g, a, o, Issue(item.id, Some(item.expire)));
          } else {
            EndedKeeps(g, a, o);
          }
        }
      case Found(id, item) =>
        MovedKeeps(g, s, o, if s.now > item.expire then Condemned(id) else Finishing);
      case _ =>
    }
  }

  lemma HasId(g: Gate, token: string, item: Item)
    requires Usable(g) && Parse(g, token) == Some(item)
    ensures item.id != ""
  {
  }

  lemma HGetAllKeeps(g: Gate, s: State, o: nat)
    requires Usable(g) && Inv(g, s)
    ensures Inv(g, DoHGetAll(g, s, o))
  {
    hide Parse, Usable, IssuedInOrder, AcceptedSound, Locked, StoreSound;
    if o in s.ops && s.ops[o].Sweeping? {
      assert OpSound(g, s, s.ops[o]);
      var t := s.ops[o].t;
      MovedKeeps(g, s, o, Chosen(t, set id | id in s.store && Doomed(g, s.store[id], t)));
    }
  }

  lemma HDelKeeps(g: Gate, s: State, o: nat)
    requires Usable(g) && Inv(g, s)
    ensures Inv(g, DoHDel(s, o))
  {
    hide Parse, Usable, IssuedInOrder, AcceptedSound, StoreSound;
    QuietKeeps(g, s, DoHDel(s, o));
  }

  // ---------------------------------------------------------------- storing a credential

  lemma HSetOps(g: Gate, s: State, o: nat)
    requires Usable(g) && Inv(g, s) && o in s.ops && s.ops[o].Sealed?
    ensures OpsSound(g, DoHSet(s, o)) && Locked(DoHSet(s, o))
  {
    hide Parse, Usable, IssuedInOrder, AcceptedSound, StoreSound;
    var r := DoHSet(s, o);
    forall p | p in r.ops ensures OpSound(g, r, r.ops[p]) {
      assert OpSound(g, s, s.ops[p]);
      assert p != o ==> !Holding(s.ops[p]);
    }
  }

  lemma HSetKeeps(g: Gate, s: State, o: nat)
    requires Usable(g) && Inv(g, s)
    ensures Inv(g, DoHSet(s, o))
  {
    hide Parse, Usable, Locked, OpsSound;
    if o in s.ops && s.ops[o].Sealed? {
      var r, x := DoHSet(s, o), s.ops[o];
      HSetOps(g, s, o);
      SealedSound(g, s, o);
      forall id | id in r.store ensures StoredSound(g, r, id) {
        if id != x.item.id {
          assert StoredSound(g, s, id);
        }
      }
      forall k | 0 <= k < |r.accepted| ensures AcceptanceSound(g, r, r.accepted[k]) {
        assert AcceptanceSound(g, s, s.accepted[k]);
      }
    }
  }

  lemma SealedSound(g: Gate, s: State, o: nat)
    requires Usable(g) && Inv(g, s) && o in s.ops && s.ops[o].Sealed?
    ensures OpSound(g, s, s.ops[o])
  {
  }

  // ---------------------------------------------------------------- runs

  lemma StepKeeps(g: Gate, s: State, step: Step)
    requires Usable(g) && Inv(g, s) && NoWrap(g, s)
    ensures Inv(g, Do(g, s, step))
  {
    hide Inv, Usable, DoTryLock, DoMakeToken, DoHSet, DoHGet, DoCheck, DoHGetAll, DoHDel, Started, Ended;
    match step
    case Tick(d) => TickKeeps(g, s, d);
    case StartCredential(id) =>
      if id != "" {
        StartedKeeps(g, s, Issue(id, None));
      }
    case StartGuard(token) =>
      if Parse(g, token).Some? {
        StartedKeeps(g, s, Guarding(token, Parse(g, token).value));
      }
    case StartSweep(t) =>
      if t <= s.now {
        StartedKeeps(g, s, Sweep(t));
      }
    case Abort(o) => EndedKeeps(g, s, o);
    case TryLock(o) => TryLockKeeps(g, s, o);
    case MakeToken(o) => MakeTokenKeeps(g, s, o);
    case HSet(o) => HSetKeeps(g, s, o);
    case HGet(o) => HGetKeeps(g, s, o);
    case Check(o) => CheckKeeps(g, s, o);
    case HGetAll(o) => HGetAllKeeps(g, s, o);
    case HDel(o) => HDelKeeps(g, s, o);
    case Release(o) => EndedKeeps(g, s, o);
  }

  lemma TickKeeps(g: Gate, s: State, d: nat)
    requires Usable(g) && Inv(g, s)
    ensures Inv(g, s.(now := s.now + d))
  {
    hide Parse, Usable, IssuedInOrder, AcceptedSound, StoreSound;
    QuietKeeps(g, s, s.(now := s.now + d));
  }

  lemma StartSound(g: Gate, now: nat, store: map<string, string>)
    requires Usable(g) && Sane(g, now, store)
    ensures Inv(g, Start(now, store))
  {
    hide Parse;
  }

  lemma ClockGrows(g: Gate, s: State, step: Step)
    requires Usable(g)
    ensures s.now <= Do(g, s, step).now && s.issued <= Do(g, s, step).issued
  {
    hide Parse, Token;
  }

  lemma {:induction false} RunKeeps(g: Gate, now: nat, store: map<string, string>, steps: seq<Step>)
    requires Usable(g) && Sane(g, now, store) && NoWrap(g, Run(g, Start(now, store), steps))
    ensures Inv(g, Run(g, Start(now, store), steps))
  {
    hide Inv, Do, Usable;
    if steps == [] {
      StartSound(g, now, store);
    } else {
      var before := Run(g, Start(now, store), steps[..|steps| - 1]);
      ClockGrows(g, before, steps[|steps| - 1]);
      RunKeeps(g, now, store, steps[..|steps| - 1]);
      StepKeeps(g, before, steps[|steps| - 1]);
    }
  }

  // ---------------------------------------------------------------- theorems

  /** A guard lets a token through only if the token was in the store when it looked and has not expired when it checks the clock. */
  lemma AcceptedTokensAreFresh(g: Gate, now: nat, store: map<string, string>, steps: seq<Step>, k: nat)
    requires Usable(g) && Sane(g, now, store) && NoWrap(g, Run(g, Start(now, store), steps))
    requires k < |Run(g, Start(now, store), steps).accepted|
    ensures var a := Run(g, Start(now, store), steps).accepted[k];
            Parse(g, a.token) == Some(a.item) && a.at <= a.item.expire
  {
    hide Usable;
    RunKeeps(g, now, store, steps);
    assert AcceptanceSound(g, Run(g, Start(now, store), steps), Run(g, Start(now, store), steps).accepted[k]);
  }

  /** Once a credential that expires later has been stored for an id, the old token is not fetched and accepted again. */
  lemma SupersededTokensAreRefused(g: Gate, now: nat, store: map<string, string>, steps: seq<Step>, k: nat, i: nat)
    requires Usable(g) && Sane(g, now, store) && NoWrap(g, Run(g, Start(now, store), steps))
    requires k < |Run(g, Start(now, store), steps).accepted|
    requires i < Run(g, Start(now, store), steps).accepted[k].issuedBefore
    ensures
      var s := Run(g, Start(now, store), steps);
      && i < |s.issued|
      && (s.issued[i].item.id == s.accepted[k].item.id ==> s.issued[i].item.expire <= s.accepted[k].item.expire)
  {
    hide Usable;
    RunKeeps(g, now, store, steps);
    assert AcceptanceSound(g, Run(g, Start(now, store), steps), Run(g, Start(now, store), steps).accepted[k]);
  }

  /** Credentials are stored in the order of their expiries, whatever was deleted between them, and a renewal lives longer. */
  lemma ExpiriesGrow(g: Gate, now: nat, store: map<string, string>, steps: seq<Step>, i: nat, j: nat)
    requires Usable(g) && Sane(g, now, store) && NoWrap(g, Run(g, Start(now, store), steps))
    requires i <= j < |Run(g, Start(now, store), steps).issued|
    ensures
      var s := Run(g, Start(now, store), steps);
      && s.issued[i].item.expire <= s.issued[j].item.expire
      && (s.issued[j].renews.Some? ==> s.issued[j].renews.value < s.issued[j].item.expire)
  {
    hide Usable;
    RunKeeps(g, now, store, steps);
  }

  /** While an id stays in the store its expiry never decreases. */
  lemma StoredExpiryNeverDecreases(g: Gate, now: nat, store: map<string, string>, steps: seq<Step>, step: Step, id: string)
    requires Usable(g) && Sane(g, now, store) && NoWrap(g, Run(g, Start(now, store), steps))
    requires id in Run(g, Start(now, store), steps).store && id in Do(g, Run(g, Start(now, store), steps), step).store
    ensures
      var s := Run(g, Start(now, store), steps);
      var before, after := Parse(g, s.store[id]), Parse(g, Do(g, s, step).store[id]);
      before.Some? ==> after.Some? && before.value.expire <= after.value.expire
  {
    hide Usable, Parse, Token;
    var s := Run(g, Start(now, store), steps);
    RunKeeps(g, now, store, steps);
    if step.HSet? && step.o in s.ops && s.ops[step.o].Sealed? {
      SealedSound(g, s, step.o);
    }
  }

  /** Only an expired credential, or a text that opens to nothing, ever leaves the store. */
  lemma OnlyExpiredAreDeleted(g: Gate, now: nat, store: map<string, string>, steps: seq<Step>, step: Step, id: string)
    requires Usable(g) && Sane(g, now, store) && NoWrap(g, Run(g, Start(now, store), steps))
    requires id in Run(g, Start(now, store), steps).store && id !in Do(g, Run(g, Start(now, store), steps), step).store
    ensures
      var s := Run(g, Start(now, store), steps);
      var gone := Parse(g, s.store[id]);
      gone.Some? ==> gone.value.expire < s.now
  {
    hide Usable, Parse, Token;
    var s := Run(g, Start(now, store), steps);
    RunKeeps(g, now, store, steps);
    if step.HDel? && step.o in s.ops {
      assert OpSound(g, s, s.ops[step.o]);
    }
  }
}

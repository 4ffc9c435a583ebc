/**
 Credentials in a shared store, as a state machine. Issuing, guarding and the two cleanups run
 concurrently; one step is one access to the store, one read of the clock or one try of the process-wide
 lock. A step that is not possible leaves the state alone.
 */
module Gatekeeper {
  import opened Text
  import opened Encryption

  const TWO64: nat := 0x1_0000_0000_0000_0000

  /** How tokens are made, and how long they live, in milliseconds. */
  datatype Gate = Gate(p: Primitives, key: Bytes, lifetime: nat)

  ghost predicate Usable(g: Gate) { Invertible(g.p) && |g.key| == BLOCK }

  function Token(g: Gate, item: Item): string
    requires Usable(g)
  {
    Seal(g.p, g.key, item)
  }

  function Parse(g: Gate, text: string): Option<Item>
    requires Usable(g)
  {
    match Open(g.p, g.key, text)
    case Opened(item) => Some(item)
    case Failed(_) => None
  }

  lemma ParseToken(g: Gate, item: Item)
    requires Usable(g) && item.id != ""
    ensures Parse(g, Token(g, item)) == Some(item)
  {
    OpenSeal(g.p, g.key, item);
  }

  /** What a goroutine is doing. `renews` is the expiry of the token that a guard is renewing. */
  datatype Op =
    | Issue(id: string, renews: Option<nat>)
    | Issuing(id: string, renews: Option<nat>)
    | Sealed(item: Item, token: string, renews: Option<nat>)
    | Guarding(token: string, item: Item)
    | Fetched(token: string, item: Item, issuedBefore: nat)
    | Sweep(t: nat)
    | Sweeping(t: nat)
    | Chosen(t: nat, doomed: set<string>)
    | Clean(id: string)
    | Cleaning(id: string)
    | Found(id: string, item: Item)
    | Condemned(id: string)
    | Finishing

  /** The operations between taking and releasing the lock. */
  predicate Holding(o: Op)
  {
    o.Issuing? || o.Sealed? || o.Sweeping? || o.Chosen? || o.Cleaning? || o.Found? || o.Condemned? || o.Finishing?
  }

  datatype Issuance = Issuance(item: Item, token: string, renews: Option<nat>)

  /** `issuedBefore` counts the credentials stored before this one was fetched from the store. */
  datatype Acceptance = Acceptance(token: string, item: Item, at: nat, issuedBefore: nat)

  datatype State = State(
    now: nat,
    store: map<string, string>,
    lock: Option<nat>,
    ops: map<nat, Op>,
    started: nat,
    issued: seq<Issuance>,
    accepted: seq<Acceptance>)

  datatype Step =
    | Tick(d: nat)
    | StartCredential(id: string)
    | StartGuard(token: string)
    | StartSweep(t: nat)
    | Abort(o: nat)
    | TryLock(o: nat)
    | MakeToken(o: nat)
    | HSet(o: nat)
    | HGet(o: nat)
    | Check(o: nat)
    | HGetAll(o: nat)
    | HDel(o: nat)
    | Release(o: nat)

  function Ended(s: State, o: nat): State
  {
    s.(ops := s.ops - {o}, lock := if s.lock == Some(o) then None else s.lock)
  }

  function Started(s: State, op: Op): State { s.(ops := s.ops[s.started := op], started := s.started + 1) }

  function Moved(s: State, o: nat, op: Op): State { s.(ops := s.ops[o := op]) }

  /** The operation goes on under the lock, or gives up when another one has it. */
  function DoTryLock(s: State, o: nat): State
  {
    if o !in s.ops then s
    else
      var locked :=
        match s.ops[o]
        case Issue(id, renews) => Some(Issuing(id, renews))
        case Sweep(t) => Some(Sweeping(t))
        case Clean(id) => Some(Cleaning(id))
        case _ => None;
      if locked.None? then s
      else if s.lock.Some? then Ended(s, o)
      else Moved(s, o, locked.value).(lock := Some(o))
  }

  /** Expiries are unsigned 64-bit numbers and wrap around. */
  function DoMakeToken(g: Gate, s: State, o: nat): State
    requires Usable(g)
  {
    if o !in s.ops || !s.ops[o].Issuing? then s
    else
      var item := Item(s.ops[o].id, (s.now + g.lifetime) % TWO64);
      Moved(s, o, Sealed(item, Token(g, item), s.ops[o].renews))
  }

  function DoHSet(s: State, o: nat): State
  {
    if o !in s.ops || !s.ops[o].Sealed? then s
    else
      var x := s.ops[o];
      Moved(s, o, Finishing).(store := s.store[x.item.id := x.token], issued := s.issued + [Issuance(x.item, x.token, x.renews)])
  }

  /** The guard's read of the store, and the cleanup's. */
  function DoHGet(g: Gate, s: State, o: nat): State
    requires Usable(g)
  {
    if o !in s.ops then s
    else
      match s.ops[o]
      case Guarding(token, item) =>
        if item.id in s.store && s.store[item.id] == token then Moved(s, o, Fetched(token, item, |s.issued|)) else Ended(s, o)
      case Cleaning(id) =>
        if id in s.store && Parse(g, s.store[id]).Some? then Moved(s, o, Found(id, Parse(g, s.store[id]).value)) else Moved(s, o, Finishing)
      case _ => s
  }

  /** The guard's read of the clock, and the cleanup's. */
  function DoCheck(g: Gate, s: State, o: nat): State
  {
    if o !in s.ops then s
    else
      match s.ops[o]
      case Fetched(token, item, n) =>
        if s.now > item.expire then Started(Ended(s, o), Clean(item.id))
        else
          var s := s.(accepted := s.accepted + [Acceptance(token, item, s.now, n)]);
          if item.expire - s.now < g.lifetime / 2 then Moved(s, o, Issue(item.id, Some(item.expire))) else Ended(s, o)
      case Found(id, item) => Moved(s, o, if s.now > item.expire then Condemned(id) else Finishing)
      case _ => s
  }

  /** What a sweep deletes: whatever does not open, or had expired when the sweep was due. */
  predicate Doomed(g: Gate, text: string, t: nat)
    requires Usable(g)
  {
    match Parse(g, text)
    case None => true
    case Some(item) => t > item.expire
  }

  function DoHGetAll(g: Gate, s: State, o: nat): State
    requires Usable(g)
  {
    if o !in s.ops || !s.ops[o].Sweeping? then s
    else
      var t := s.ops[o].t;
      Moved(s, o, Chosen(t, set id | id in s.store && Doomed(g, s.store[id], t)))
  }

  function DoHDel(s: State, o: nat): State
  {
    if o !in s.ops then s
    else
      match s.ops[o]
      case Chosen(t, doomed) => Moved(s, o, Finishing).(store := s.store - doomed)
      case Condemned(id) => Moved(s, o, Finishing).(store := s.store - {id})
      case _ => s
  }

  function DoRelease(s: State, o: nat): State
  {
    if o in s.ops && s.ops[o].Finishing? then Ended(s, o) else s
  }

  /** `Abort` is any failure on the way: a refused request, or a store that does not answer. */
  function Do(g: Gate, s: State, step: Step): State
    requires Usable(g)
  {
    match step
    case Tick(d) => s.(now := s.now + d)
    case StartCredential(id) => if id == "" then s else Started(s, Issue(id, None))
    case StartGuard(token) => if Parse(g, token).None? then s else Started(s, Guarding(token, Parse(g, token).value))
    case StartSweep(t) => if t > s.now then s else Started(s, Sweep(t))
    case Abort(o) => if o in s.ops then Ended(s, o) else s
    case TryLock(o) => DoTryLock(s, o)
    case MakeToken(o) => DoMakeToken(g, s, o)
    case HSet(o) => DoHSet(s, o)
    case HGet(o) => DoHGet(g, s, o)
    case Check(o) => DoCheck(g, s, o)
    case HGetAll(o) => DoHGetAll(g, s, o)
    case HDel(o) => DoHDel(s, o)
    case Release(o) => DoRelease(s, o)
  }

  /** A store as an earlier run may have left it: no credential in it outlives one issued now. */
  ghost predicate Sane(g: Gate, now: nat, store: map<string, string>)
    requires Usable(g)
  {
    forall id :: id in store && Parse(g, store[id]).Some? ==> Parse(g, store[id]).value.expire <= now + g.lifetime
  }

  function Start(now: nat, store: map<string, string>): State { State(now, store, None, map[], 0, [], []) }

  function Run(g: Gate, start: State, steps: seq<Step>): State
    requires Usable(g)
  {
    if steps == [] then start else Do(g, Run(g, start, steps[..|steps| - 1]), steps[|steps| - 1])
  }

  // ---------------------------------------------------------------- invariants

  /** The lock is held by the one operation that is between taking and releasing it. */
  ghost predicate Locked(s: State)
  {
    && (forall o :: o in s.ops && Holding(s.ops[o]) ==> s.lock == Some(o))
    && (s.lock.Some? ==> s.lock.value in s.ops && Holding(s.ops[s.lock.value]))
    && (forall o :: o in s.ops ==> o < s.started)
  }

  /** No credential for this id that is among the first n outlives the item. */
  ghost predicate Newest(s: State, n: nat, item: Item, id: string)
    requires n <= |s.issued|
  {
    forall k :: 0 <= k < n && s.issued[k].item.id == id ==> s.issued[k].item.expire <= item.expire
  }

  ghost predicate StoreSound(g: Gate, s: State)
    requires Usable(g)
  {
    forall id :: id in s.store ==> StoredSound(g, s, id)
  }

  ghost predicate StoredSound(g: Gate, s: State, id: string)
    requires Usable(g) && id in s.store
  {
    match Parse(g, s.store[id])
    case None => forall k :: 0 <= k < |s.issued| ==> s.issued[k].item.id != id
    case Some(item) => item.expire <= s.now + g.lifetime && Newest(s, |s.issued|, item, id)
  }

  ghost predicate IssuedInOrder(g: Gate, s: State)
  {
    && (forall k :: 0 <= k < |s.issued| ==> s.issued[k].item.expire <= s.now + g.lifetime)
    && (forall k, l :: 0 <= k < l < |s.issued| ==> s.issued[k].item.expire <= s.issued[l].item.expire)
    && (forall k :: 0 <= k < |s.issued| && s.issued[k].renews.Some? ==> s.issued[k].renews.value < s.issued[k].item.expire)
  }

  ghost predicate OpSound(g: Gate, s: State, op: Op)
    requires Usable(g)
  {
    match op
    case Issue(id, renews) => id != "" && (renews.Some? ==> renews.value < s.now + g.lifetime)
    case Issuing(id, renews) => id != "" && (renews.Some? ==> renews.value < s.now + g.lifetime)
    case Sealed(item, token, renews) =>
      && Parse(g, token) == Some(item)
      && item.expire <= s.now + g.lifetime
      && (forall k :: 0 <= k < |s.issued| ==> s.issued[k].item.expire <= item.expire)
      && (forall id :: id in s.store && Parse(g, s.store[id]).Some? ==> Parse(g, s.store[id]).value.expire <= item.expire)
      && (renews.Some? ==> renews.value < item.expire)
    case Guarding(token, item) => Parse(g, token) == Some(item)
    case Fetched(token, item, n) => Parse(g, token) == Some(item) && n <= |s.issued| && Newest(s, n, item, item.id)
    case Sweep(t) => t <= s.now
    case Sweeping(t) => t <= s.now
    case Chosen(t, doomed) => t <= s.now && forall id :: id in doomed && id in s.store ==> Doomed(g, s.store[id], t)
    case Found(id, item) => id in s.store ==> Parse(g, s.store[id]) == Some(item)
    case Condemned(id) => id in s.store ==> Parse(g, s.store[id]).Some? && Parse(g, s.store[id]).value.expire < s.now
    case _ => true
  }

  ghost predicate OpsSound(g: Gate, s: State)
    requires Usable(g)
  {
    forall o :: o in s.ops ==> OpSound(g, s, s.ops[o])
  }

  /** What was accepted had not expired, and nothing newer had been stored for its id when it was fetched. */
  ghost predicate AcceptanceSound(g: Gate, s: State, a: Acceptance)
    requires Usable(g)
  {
    && Parse(g, a.token) == Some(a.item)
    && a.at <= a.item.expire
    && a.issuedBefore <= |s.issued|
    && Newest(s, a.issuedBefore, a.item, a.item.id)
  }

  ghost predicate AcceptedSound(g: Gate, s: State)
    requires Usable(g)
  {
    forall k :: 0 <= k < |s.accepted| ==> AcceptanceSound(g, s, s.accepted[k])
  }

  ghost predicate Inv(g: Gate, s: State)
    requires Usable(g)
  {
    Locked(s) && StoreSound(g, s) && IssuedInOrder(g, s) && OpsSound(g, s) && AcceptedSound(g, s)
  }

  /** Expiries do not wrap around. */
  ghost predicate NoWrap(g: Gate, s: State) { s.now + g.lifetime < TWO64 }
}

/** A guard lets through only tokens that were stored for their id: issued in the run, or there at its start. */
module GatekeeperOrigin {
  import opened Text
  import opened Encryption
  import opened Gatekeeper

  /** The token was stored for the id at the start, or by one of the first n credentials. */
  ghost predicate Known(start: map<string, string>, issued: seq<Issuance>, n: nat, token: string, id: string)
  {
    || (id in start && start[id] == token)
    || exists i :: 0 <= i < n && i < |issued| && issued[i].token == token && issued[i].item.id == id
  }

  ghost predicate Traced(start: map<string, string>, s: State)
  {
    && (forall id :: id in s.store ==> Known(start, s.issued, |s.issued|, s.store[id], id))
    && (forall o :: o in s.ops && s.ops[o].Fetched? ==> Known(start, s.issued, s.ops[o].issuedBefore, s.ops[o].token, s.ops[o].item.id))
    && (forall k :: 0 <= k < |s.accepted| ==>
                      Known(start, s.issued, s.accepted[k].issuedBefore, s.accepted[k].token, s.accepted[k].item.id))
  }

  lemma KnownGrows(start: map<string, string>, issued: seq<Issuance>, more: Issuance, n: nat, m: nat, token: string, id: string)
    requires Known(start, issued, n, token, id) && n <= m
    ensures Known(start, issued + [more], m, token, id)
  {
    if !(id in start && start[id] == token) {
      var i :| 0 <= i < n && i < |issued| && issued[i].token == token && issued[i].item.id == id;
      assert (issued + [more])[i] == issued[i];
    }
  }

  lemma HSetTraced(start: map<string, string>, s: State, o: nat)
    requires Traced(start, s)
    ensures Traced(start, DoHSet(s, o))
  {
    hide Known;
    if o in s.ops && s.ops[o].Sealed? {
      var r, x := DoHSet(s, o), s.ops[o];
      var latest, n := Issuance(x.item, x.token, x.renews), |s.issued|;
      forall id | id in r.store ensures Known(start, r.issued, |r.issued|, r.store[id], id) {
        if id == x.item.id {
          JustIssued(start, s.issued, latest);
        } else {
          KnownGrows(start, s.issued, latest, n, n + 1, s.store[id], id);
        }
      }
      forall p | p in r.ops && r.ops[p].Fetched?
        ensures Known(start, r.issued, r.ops[p].issuedBefore, r.ops[p].token, r.ops[p].item.id)
      {
        KnownGrows(start, s.issued, latest, r.ops[p].issuedBefore, r.ops[p].issuedBefore, r.ops[p].token, r.ops[p].item.id);
      }
      forall k | 0 <= k < |r.accepted|
        ensures Known(start, r.issued, r.accepted[k].issuedBefore, r.accepted[k].token, r.accepted[k].item.id)
      {
        KnownGrows(start, s.issued, latest, r.accepted[k].issuedBefore, r.accepted[k].issuedBefore, r.accepted[k].token, r.accepted[k].item.id);
      }
    }
  }

  lemma JustIssued(start: map<string, string>, issued: seq<Issuance>, latest: Issuance)
    ensures Known(start, issued + [latest], |issued| + 1, latest.token, latest.item.id)
  {
    assert (issued + [latest])[|issued|] == latest;
  }

  lemma StepTraced(g: Gate, start: map<string, string>, s: State, step: Step)
    requires Usable(g) && Traced(start, s)
    ensures Traced(start, Do(g, s, step))
  {
    hide Known, Parse, Token, Usable;
    if step.HSet? {
      HSetTraced(start, s, step.o);
    }
  }

  /** Every accepted token was stored for the id it names, before the guard looked. */
  lemma {:induction false} AcceptedTokensWereStored(g: Gate, now: nat, store: map<string, string>, steps: seq<Step>)
    requires Usable(g)
    ensures Traced(store, Run(g, Start(now, store), steps))
  {
    hide Known, Usable, Do;
    if steps == [] {
      StartTraced(now, store);
    } else {
      AcceptedTokensWereStored(g, now, store, steps[..|steps| - 1]);
      StepTraced(g, store, Run(g, Start(now, store), steps[..|steps| - 1]), steps[|steps| - 1]);
    }
  }

  lemma StartTraced(now: nat, store: map<string, string>)
    ensures Traced(store, Start(now, store))
  {
  }
}

/** Validation at startup: every owner of a loaded state is replayed through `Accept`. */
module Startup {
  import opened Wrappers
  import opened Net
  import opened Routing
  import opened Budget
  import opened Soundness

  predicate SameSnapshot(a: State, b: State, o: string)
    requires o in a.owners && o in b.owners
  {
    a.owners[o].snapshot == b.owners[o].snapshot
  }

  /** Some of the owners of another state, with the same snapshots. */
  predicate PartOf(a: State, b: State) {
    && a.owners.Keys <= b.owners.Keys
    && forall o {:trigger SameSnapshot(a, b, o)} :: o in a.owners ==> SameSnapshot(a, b, o)
  }

  lemma PartsAreSound(a: State, b: State, rules: Rules)
    requires PartOf(a, b) && Sound(b, rules)
    ensures Sound(a, rules)
  {
    PartsAreDistinct(a, b);
    forall o | o in a.owners ensures o in rules.applications && OwnerOk(a, rules, o) {
      assert OwnerOk(b, rules, o) && SameSnapshot(a, b, o);
    }
    if a.owners != map[] {
      PartsAreWithin(a, b);
      SmallerFits(a, b, rules.viewLimit);
    }
  }

  lemma PartsAreWithin(a: State, b: State)
    requires PartOf(a, b)
    ensures Within(a, b)
  {
    forall o | o in a.owners ensures o in b.owners && SnapshotWithin(a.owners[o].snapshot, b.owners[o].snapshot) {
      assert SameSnapshot(a, b, o);
    }
  }

  lemma PartsAreDistinct(a: State, b: State)
    requires PartOf(a, b) && Distinct(b)
    ensures Distinct(a)
  {
    forall e, o, i, p, j | Holds(a, e, o, i) && Holds(a, e, p, j) ensures o == p && i == j {
      assert SameSnapshot(a, b, o) && SameSnapshot(a, b, p);
      assert Holds(b, e, o, i) && Holds(b, e, p, j);
    }
  }

  lemma ReplayGrows(s: State, validated: State, id: string)
    requires PartOf(validated, s) && validated.generation < U64_MAX
    requires id in s.owners && id !in validated.owners && s.owners[id].snapshot.owner == id
    ensures var t := Commit(validated, s.owners[id].snapshot, s.owners[id].reconciledMs);
            PartOf(t, s) && t.owners.Keys == validated.owners.Keys + {id} && t.generation == validated.generation + 1
  {
    var t := Commit(validated, s.owners[id].snapshot, s.owners[id].reconciledMs);
    forall o | o in t.owners ensures SameSnapshot(t, s, o) {
      assert o != id ==> SameSnapshot(validated, s, o);
    }
  }

  lemma OwnersAreNamed(s: State, id: string, rules: Rules)
    requires Sound(s, rules) && id in s.owners
    ensures s.owners[id].snapshot.owner == id && id in rules.applications
  {
    assert OwnerOk(s, rules, id);
  }

  lemma Unreplayable(s: State, validated: State, id: string, rules: Rules)
    requires PartOf(validated, s) && validated.generation < U64_MAX
    requires id in s.owners && id !in validated.owners
    requires !(id in rules.applications && s.owners[id].snapshot.owner == id
               && Sound(Commit(validated, s.owners[id].snapshot, s.owners[id].reconciledMs), rules))
    ensures !Sound(s, rules)
  {
    if Sound(s, rules) {
      OwnersAreNamed(s, id, rules);
      ReplayGrows(s, validated, id);
      PartsAreSound(Commit(validated, s.owners[id].snapshot, s.owners[id].reconciledMs), s, rules);
    }
  }

  /** One step of the replay: a refusal condemns the whole state. */
  method Replay(s: State, validated: State, id: string, rules: Rules) returns (r: Option<State>)
    requires Sound(validated, rules) && PartOf(validated, s) && validated.generation < U64_MAX
    requires id in s.owners && id !in validated.owners
    ensures r.None? ==> !Sound(s, rules)
    ensures r.Some? ==>
      && Sound(r.value, rules) && PartOf(r.value, s)
      && r.value.owners.Keys == validated.owners.Keys + {id} && r.value.generation == validated.generation + 1
  {
    if id !in rules.applications {
      Unreplayable(s, validated, id, rules);
      return None;
    }
    var owner := s.owners[id];
    var accepted := Accept(validated, id, owner.snapshot, PolicyOf(rules, id), owner.reconciledMs);
    AcceptIsExact(validated, id, owner.snapshot, rules, owner.reconciledMs);
    if accepted.Err? {
      Unreplayable(s, validated, id, rules);
      return None;
    }
    ReplayGrows(s, validated, id);
    return Some(accepted.value);
  }

  lemma EmptyIsSound(rules: Rules)
    ensures Sound(EMPTY, rules)
  {
  }

  lemma AllReplayed(s: State, validated: State, rules: Rules)
    requires PartOf(validated, s) && validated.owners.Keys == s.owners.Keys && Sound(validated, rules)
    ensures Sound(s, rules)
  {
    forall o | o in s.owners ensures SameSnapshot(s, validated, o) {
      assert SameSnapshot(validated, s, o);
    }
    PartsAreSound(s, validated, rules);
  }

  /** What has been replayed, and what is left. */
  ghost predicate Replayed(s: State, rules: Rules, validated: State, remaining: set<string>) {
    && remaining == s.owners.Keys - validated.owners.Keys
    && validated.generation + |remaining| <= OWNER_LIMIT
    && PartOf(validated, s) && Sound(validated, rules)
  }

  lemma OneFewer(s: State, rules: Rules, validated: State, remaining: set<string>, id: string, next: State)
    requires Replayed(s, rules, validated, remaining) && id in remaining
    requires Sound(next, rules) && PartOf(next, s)
    requires next.owners.Keys == validated.owners.Keys + {id} && next.generation == validated.generation + 1
    ensures Replayed(s, rules, next, remaining - {id})
  {
    assert |remaining - {id}| + 1 == |remaining|;
  }

  /** The replay of every owner, or None when one of them is refused. */
  method ReplayAll(s: State, rules: Rules) returns (r: Option<State>)
    requires |s.owners| <= OWNER_LIMIT
    ensures r.None? ==> !Sound(s, rules)
    ensures r.Some? ==> PartOf(r.value, s) && r.value.owners.Keys == s.owners.Keys && Sound(r.value, rules)
  {
    var validated := EMPTY;
    var remaining := s.owners.Keys;
    EmptyIsSound(rules);
    while remaining != {}
      invariant Replayed(s, rules, validated, remaining)
      decreases remaining
    {
      var id :| id in remaining;
      var replayed := Replay(s, validated, id, rules);
      if replayed.None? {
        return None;
      }
      OneFewer(s, rules, validated, remaining, id, replayed.value);
      validated := replayed.value;
      remaining := remaining - {id};
    }
    return Some(validated);
  }

  /**
   The replay succeeds exactly on the sound states. It may take the owners in any
   order: a sorted map yields them in one, and the choice does not matter.
   */
  method Rebuild(s: State, rules: Rules) returns (ok: bool)
    requires |s.owners| <= OWNER_LIMIT
    ensures ok <==> Sound(s, rules)
  {
    var replayed := ReplayAll(s, rules);
    if replayed.Some? {
      AllReplayed(s, replayed.value, rules);
    }
    return replayed.Some?;
  }
}

/**
 Workers publish complete snapshots; a router may receive them late, twice, out of
 order or not at all, between restarts. It always holds the furthest one it received.
 */
module Convergence {
  import opened Wrappers
  import opened Sets
  import opened Net
  import opened History
  import opened Routing
  import opened Budget
  import opened Soundness
  import opened Router
  import opened Worker

  /** Each owner's registrations, in the order its worker took them. */
  type Workers = map<string, seq<Registration>>

  function SnapshotAt(workers: Workers, owner: string, position: nat): Snapshot
    requires owner in workers && position <= |workers[owner]|
  {
    RegisterAll(Initial(owner), workers[owner][..position]).state
  }

  /** Every owner at the end of its log. */
  function Finished(workers: Workers): State {
    State(0, map o | o in workers :: Owner(SnapshotAt(workers, o, |workers[o]|), 0, false, None, None, None))
  }

  datatype Arrival = Delivered(owner: string, position: nat, now: U64) | Restarted

  predicate Possible(workers: Workers, a: Arrival) {
    a.Delivered? ==> a.owner in workers && a.position <= |workers[a.owner]|
  }

  function StepOf(config: Config, workers: Workers, a: Arrival): Step
    requires Possible(workers, a) && workers.Keys <= config.Keys
  {
    if a.Restarted? then Restart
    else Step.Commit(Publish(SnapshotAt(workers, a.owner, a.position), config[a.owner].tokenHash, a.now))
  }

  function Feed(config: Config, workers: Workers, s: State, arrivals: seq<Arrival>): State
    requires workers.Keys <= config.Keys && forall i :: 0 <= i < |arrivals| ==> Possible(workers, arrivals[i])
    decreases |arrivals|
  {
    if arrivals == [] then s
    else Feed(config, workers, Apply(config, s, StepOf(config, workers, arrivals[0])), arrivals[1..])
  }

  /** The furthest position delivered for each owner. */
  function Hold(held: map<string, nat>, a: Arrival): map<string, nat> {
    if a.Restarted? || (a.owner in held && a.position <= held[a.owner]) then held
    else held[a.owner := a.position]
  }

  function Furthest(held: map<string, nat>, arrivals: seq<Arrival>): map<string, nat>
    decreases |arrivals|
  {
    if arrivals == [] then held else Furthest(Hold(held, arrivals[0]), arrivals[1..])
  }

  /// One log

  lemma {:induction false} RegisterAllConcatenates(log: Log, a: seq<Registration>, b: seq<Registration>)
    ensures RegisterAll(log, a + b) == RegisterAll(RegisterAll(log, a), b)
    decreases |a|
  {
    if a == [] {
      assert a + b == b;
    } else {
      assert (a + b)[1..] == a[1..] + b;
      RegisterAllConcatenates(Registered(log, a[0]).0, a[1..], b);
    }
  }

  predicate Published(owner: string, n: Snapshot) {
    && n.schema == 1 && n.owner == owner && n.incarnation == 1 && 1 <= n.revision
    && Keyed(n.records) && Bounded(n)
  }

  lemma SnapshotIsPublished(workers: Workers, owner: string, position: nat)
    requires owner in workers && position <= |workers[owner]|
    ensures Published(owner, SnapshotAt(workers, owner, position))
  {
    InitialIsInv(owner);
    RegisterAllKeeps(Initial(owner), workers[owner][..position]);
  }

  lemma SnapshotsAscend(workers: Workers, owner: string, j: nat, k: nat)
    requires owner in workers && j <= k <= |workers[owner]|
    ensures SnapshotExtends(SnapshotAt(workers, owner, j), SnapshotAt(workers, owner, k))
  {
    var log := RegisterAll(Initial(owner), workers[owner][..j]);
    InitialIsInv(owner);
    RegisterAllKeeps(Initial(owner), workers[owner][..j]);
    assert workers[owner][..k] == workers[owner][..j] + workers[owner][j..k];
    RegisterAllConcatenates(Initial(owner), workers[owner][..j], workers[owner][j..k]);
    RegisterAllKeeps(log, workers[owner][j..k]);
  }

  /// A state whose owners are all part of the way to a sound one is sound

  ghost predicate PartWay(o: string, n: Snapshot, end: Snapshot) {
    Published(o, n) && SnapshotExtends(n, end)
  }

  ghost predicate Underway(t: State, full: State) {
    && t.owners.Keys <= full.owners.Keys
    && forall o {:trigger PartWay(o, t.owners[o].snapshot, full.owners[o].snapshot)} :: o in t.owners ==>
         PartWay(o, t.owners[o].snapshot, full.owners[o].snapshot)
  }

  lemma UnderwayRecordsOk(o: string, n: Snapshot, end: Snapshot, policy: Policy)
    requires PartWay(o, n, end) && SnapshotOk(o, end, policy)
    ensures SnapshotOk(o, n, policy) && SnapshotWithin(n, end)
  {
    forall id | id in n.records ensures RecordOk(id, n.records[id], n, policy) {
      assert RecordOk(id, end.records[id], end, policy);
    }
    assert n.records.Keys <= end.records.Keys;
    SubsetIsSmaller(n.records.Keys, end.records.Keys);
    assert |n.records| == |n.records.Keys| && |end.records| == |end.records.Keys|;
  }

  lemma UnderwayIsWithin(t: State, full: State, rules: Rules)
    requires Underway(t, full) && OwnersOk(full, rules)
    ensures Within(t, full) && OwnersOk(t, rules)
  {
    forall o | o in t.owners
      ensures o in full.owners && SnapshotWithin(t.owners[o].snapshot, full.owners[o].snapshot)
      ensures o in rules.applications && OwnerOk(t, rules, o)
    {
      assert PartWay(o, t.owners[o].snapshot, full.owners[o].snapshot);
      assert OwnerOk(full, rules, o);
      UnderwayRecordsOk(o, t.owners[o].snapshot, full.owners[o].snapshot, PolicyOf(rules, o));
    }
  }

  lemma UnderwayIsDistinct(t: State, full: State)
    requires Underway(t, full) && Distinct(full)
    ensures Distinct(t)
  {
    forall e, o, i, p, j | Holds(t, e, o, i) && Holds(t, e, p, j) ensures o == p && i == j {
      assert PartWay(o, t.owners[o].snapshot, full.owners[o].snapshot);
      assert PartWay(p, t.owners[p].snapshot, full.owners[p].snapshot);
      assert Holds(full, e, o, i) && Holds(full, e, p, j);
    }
  }

  lemma UnderwayIsSound(t: State, full: State, rules: Rules)
    requires Underway(t, full) && Sound(full, rules)
    ensures Sound(t, rules)
  {
    UnderwayIsWithin(t, full, rules);
    UnderwayIsDistinct(t, full);
    if t.owners != map[] {
      SmallerFits(t, full, rules.viewLimit);
    }
  }

  /// The router

  predicate HeldAt(workers: Workers, s: State, held: map<string, nat>, o: string)
    requires o in s.owners && o in held && o in workers
  {
    && held[o] <= |workers[o]|
    && s.owners[o].snapshot == SnapshotAt(workers, o, held[o])
    && s.owners[o].frozenBy.None? && s.owners[o].credentialHash.None?
  }

  /** The router holds, of every owner delivered so far, exactly the furthest snapshot. */
  predicate Matches(workers: Workers, s: State, held: map<string, nat>) {
    && s.owners.Keys == held.Keys <= workers.Keys
    && forall o {:trigger HeldAt(workers, s, held, o)} :: o in held ==> HeldAt(workers, s, held, o)
  }

  lemma DeliveryIsSound(config: Config, workers: Workers, s: State, held: map<string, nat>, a: Arrival)
    requires Matches(workers, s, held) && a.Delivered? && Possible(workers, a)
    requires Sound(Finished(workers), RulesOf(config)) && s.generation < U64_MAX
    ensures Sound(Routing.Commit(s, SnapshotAt(workers, a.owner, a.position), a.now), RulesOf(config))
  {
    var next := SnapshotAt(workers, a.owner, a.position);
    var full := Finished(workers);
    SnapshotIsPublished(workers, a.owner, a.position);
    var t := Routing.Commit(s, next, a.now);
    forall o | o in t.owners ensures PartWay(o, t.owners[o].snapshot, full.owners[o].snapshot) {
      if o == a.owner {
        SnapshotsAscend(workers, o, a.position, |workers[o]|);
      } else {
        assert HeldAt(workers, s, held, o);
        SnapshotIsPublished(workers, o, held[o]);
        SnapshotsAscend(workers, o, held[o], |workers[o]|);
      }
    }
    UnderwayIsSound(t, full, RulesOf(config));
  }

  /** Whether a delivery follows what is held is a matter of its position alone. */
  lemma DeliveryFollows(workers: Workers, s: State, held: map<string, nat>, a: Arrival)
    requires Matches(workers, s, held) && a.Delivered? && Possible(workers, a) && a.owner in held
    ensures var next := SnapshotAt(workers, a.owner, a.position);
            var current := s.owners[a.owner];
            && (held[a.owner] <= a.position ==> Follows(current, next))
            && (a.position < held[a.owner] ==>
                  if next.revision < current.snapshot.revision then !Follows(current, next)
                  else next == current.snapshot)
  {
    assert HeldAt(workers, s, held, a.owner);
    SnapshotIsPublished(workers, a.owner, a.position);
    SnapshotIsPublished(workers, a.owner, held[a.owner]);
    if held[a.owner] <= a.position {
      SnapshotsAscend(workers, a.owner, held[a.owner], a.position);
    } else {
      SnapshotsAscend(workers, a.owner, a.position, held[a.owner]);
    }
  }

  lemma CommitMatches(workers: Workers, s: State, held: map<string, nat>, a: Arrival)
    requires Matches(workers, s, held) && a.Delivered? && Possible(workers, a) && s.generation < U64_MAX
    requires a.owner in held && a.position < held[a.owner] ==>
               SnapshotAt(workers, a.owner, a.position) == s.owners[a.owner].snapshot
    ensures Matches(workers, Routing.Commit(s, SnapshotAt(workers, a.owner, a.position), a.now), Hold(held, a))
  {
    SnapshotIsPublished(workers, a.owner, a.position);
    var t := Routing.Commit(s, SnapshotAt(workers, a.owner, a.position), a.now);
    var now := Hold(held, a);
    forall o | o in now ensures HeldAt(workers, t, now, o) {
      assert o in held ==> HeldAt(workers, s, held, o);
    }
  }

  /** The router's answer to one publication of a worker that has not been recovered. */
  lemma PublishIsAccept(config: Config, workers: Workers, s: State, held: map<string, nat>, a: Arrival)
    requires Matches(workers, s, held) && a.Delivered? && Possible(workers, a) && workers.Keys <= config.Keys
    ensures var next := SnapshotAt(workers, a.owner, a.position);
            Candidate(config, s, StepOf(config, workers, a).request)
            == Accept(s, a.owner, next, PolicyOf(RulesOf(config), a.owner), a.now)
  {
    SnapshotIsPublished(workers, a.owner, a.position);
    if a.owner in held {
      assert HeldAt(workers, s, held, a.owner);
    }
  }

  /** One delivery: the furthest snapshot stays, and one that is behind it changes nothing at all. */
  lemma DeliveryMatches(config: Config, workers: Workers, s: State, held: map<string, nat>, a: Arrival)
    requires Inv(config, s) && Matches(workers, s, held) && s.generation < U64_MAX
    requires a.Delivered? && Possible(workers, a) && workers.Keys <= config.Keys
    requires Sound(Finished(workers), RulesOf(config))
    ensures var next := SnapshotAt(workers, a.owner, a.position);
            var t := Apply(config, s, StepOf(config, workers, a));
            && Matches(workers, t, Hold(held, a)) && t.generation <= s.generation + 1
            && (a.owner in s.owners && next.revision < s.owners[a.owner].snapshot.revision ==> t == s)
  {
    var next := SnapshotAt(workers, a.owner, a.position);
    PublishIsAccept(config, workers, s, held, a);
    AcceptIsExact(s, a.owner, next, RulesOf(config), a.now);
    SnapshotIsPublished(workers, a.owner, a.position);
    DeliveryIsSound(config, workers, s, held, a);
    if a.owner in held {
      DeliveryFollows(workers, s, held, a);
      SnapshotsAscendIn(workers, s, held, a);
    }
    if !(a.owner in held && a.position < held[a.owner] && next.revision < s.owners[a.owner].snapshot.revision) {
      CommitMatches(workers, s, held, a);
    }
  }

  lemma SnapshotsAscendIn(workers: Workers, s: State, held: map<string, nat>, a: Arrival)
    requires Matches(workers, s, held) && a.Delivered? && Possible(workers, a) && a.owner in held
    ensures SnapshotAt(workers, a.owner, a.position).revision < s.owners[a.owner].snapshot.revision ==>
              a.position < held[a.owner]
  {
    assert HeldAt(workers, s, held, a.owner);
    if held[a.owner] <= a.position {
      SnapshotsAscend(workers, a.owner, held[a.owner], a.position);
    }
  }

  lemma RestartMatches(workers: Workers, s: State, held: map<string, nat>)
    requires Matches(workers, s, held)
    ensures Matches(workers, AfterRestart(s), held)
  {
    assert AfterRestart(s).owners.Keys == s.owners.Keys;
    forall o | o in held ensures HeldAt(workers, AfterRestart(s), held, o) {
      assert HeldAt(workers, s, held, o);
    }
  }

  lemma {:induction false} FeedMatches(
    config: Config, workers: Workers, s: State, held: map<string, nat>, arrivals: seq<Arrival>)
    requires Inv(config, s) && Matches(workers, s, held) && s.generation + |arrivals| <= U64_MAX
    requires workers.Keys <= config.Keys && Sound(Finished(workers), RulesOf(config))
    requires forall i :: 0 <= i < |arrivals| ==> Possible(workers, arrivals[i])
    ensures Matches(workers, Feed(config, workers, s, arrivals), Furthest(held, arrivals))
    decreases |arrivals|
  {
    if arrivals != [] {
      var a := arrivals[0];
      StepKeeps(config, s, StepOf(config, workers, a));
      if a.Restarted? {
        RestartMatches(workers, s, held);
      } else {
        DeliveryMatches(config, workers, s, held, a);
      }
      FeedMatches(config, workers, Apply(config, s, StepOf(config, workers, a)), Hold(held, a), arrivals[1..]);
    }
  }

  /// What the workers' registrations must be

  function EndOf(workers: Workers, owner: string): Snapshot
    requires owner in workers
  {
    SnapshotAt(workers, owner, |workers[owner]|)
  }

  predicate Registers(workers: Workers, owner: string, id: string) {
    owner in workers && id in EndOf(workers, owner).records
  }

  /** Every record a router may take from this owner: names, an allowed application, a routable endpoint. */
  predicate Registrable(config: Config, workers: Workers, owner: string)
    requires owner in workers && owner in config
  {
    var records := EndOf(workers, owner).records;
    && Name(owner)
    && forall id :: id in records ==>
         && Name(id) && Name(records[id].app) && records[id].app in config[owner].applications
         && records[id].endpoint.Routable()
  }

  /** No two owners ever register one endpoint. */
  ghost predicate Apart(workers: Workers) {
    forall o, p, i, j ::
      && Registers(workers, o, i) && Registers(workers, p, j)
      && EndOf(workers, o).records[i].endpoint == EndOf(workers, p).records[j].endpoint ==>
      o == p
  }

  /** A router's configuration suits the workers: known owners, registrable records, and bytes for all of them. */
  ghost predicate Suits(config: Config, workers: Workers) {
    && workers.Keys <= config.Keys
    && (forall o {:trigger Registrable(config, workers, o)} :: o in workers ==> Registrable(config, workers, o))
    && Fits(Finished(workers), VIEW_LIMIT)
  }

  lemma EndOfLog(workers: Workers, owner: string)
    requires owner in workers
    ensures var n := SnapshotAt(workers, owner, |workers[owner]|);
            Published(owner, n) && EndpointsDistinct(n.records) && |n.records| <= RECORD_LIMIT
  {
    InitialIsInv(owner);
    RegisterAllKeeps(Initial(owner), workers[owner][..|workers[owner]|]);
    SnapshotIsPublished(workers, owner, |workers[owner]|);
  }

  /** The worker's own bounds give the rest: record limits, revisions, and distinct endpoints within an owner. */
  lemma FinishedIsSound(config: Config, workers: Workers)
    requires Suits(config, workers) && Apart(workers)
    ensures Sound(Finished(workers), RulesOf(config))
  {
    var s := Finished(workers);
    forall o | o in s.owners ensures o in RulesOf(config).applications && OwnerOk(s, RulesOf(config), o) {
      EndOfLog(workers, o);
      assert Registrable(config, workers, o);
    }
    forall e, o, i, p, j | Holds(s, e, o, i) && Holds(s, e, p, j) ensures o == p && i == j {
      EndOfLog(workers, o);
      assert Registers(workers, o, i) && Registers(workers, p, j);
    }
  }

  /**
   Convergence: whatever was lost, repeated or reordered on the way to two routers,
   if the furthest publication of an owner to reach either is the same, both hold
   that very snapshot.
   */
  lemma RoutersConverge(
    config: Config, other: Config, workers: Workers, owner: string, xs: seq<Arrival>, ys: seq<Arrival>)
    requires Suits(config, workers) && Suits(other, workers) && Apart(workers)
    requires |xs| <= U64_MAX && forall i :: 0 <= i < |xs| ==> Possible(workers, xs[i])
    requires |ys| <= U64_MAX && forall i :: 0 <= i < |ys| ==> Possible(workers, ys[i])
    requires owner in Furthest(map[], xs) && owner in Furthest(map[], ys)
    requires Furthest(map[], xs)[owner] == Furthest(map[], ys)[owner]
    ensures var (s, t) := (Feed(config, workers, EMPTY, xs), Feed(other, workers, EMPTY, ys));
            && owner in s.owners && owner in t.owners && owner in workers
            && s.owners[owner].snapshot == t.owners[owner].snapshot
            && Furthest(map[], xs)[owner] <= |workers[owner]|
            && s.owners[owner].snapshot == SnapshotAt(workers, owner, Furthest(map[], xs)[owner])
  {
    FinishedIsSound(config, workers);
    FinishedIsSound(other, workers);
    EmptyIsInv(config);
    EmptyIsInv(other);
    FeedMatches(config, workers, EMPTY, map[], xs);
    FeedMatches(other, workers, EMPTY, map[], ys);
    assert HeldAt(workers, Feed(config, workers, EMPTY, xs), Furthest(map[], xs), owner);
    assert HeldAt(workers, Feed(other, workers, EMPTY, ys), Furthest(map[], ys), owner);
  }

  /** `Furthest` is what its name says: delivered, and not behind any other delivery. */
  lemma {:induction false} FurthestIsMaximal(held: map<string, nat>, arrivals: seq<Arrival>, owner: string)
    ensures var f := Furthest(held, arrivals);
            && (forall i :: 0 <= i < |arrivals| && arrivals[i].Delivered? && arrivals[i].owner == owner ==>
                  owner in f && arrivals[i].position <= f[owner])
            && (owner in held ==> owner in f && held[owner] <= f[owner])
            && (owner in f && !(owner in held && held[owner] == f[owner]) ==>
                  exists i :: 0 <= i < |arrivals| && arrivals[i].Delivered?
                    && arrivals[i].owner == owner && arrivals[i].position == f[owner])
    decreases |arrivals|
  {
    if arrivals != [] {
      FurthestIsMaximal(Hold(held, arrivals[0]), arrivals[1..], owner);
      forall i | 0 <= i < |arrivals| && arrivals[i].Delivered? && arrivals[i].owner == owner
        ensures owner in Furthest(held, arrivals) && arrivals[i].position <= Furthest(held, arrivals)[owner]
      {
        if i > 0 {
          assert arrivals[1..][i - 1] == arrivals[i];
        }
      }
    }
  }
}

/**
 The merge of a recovery: two routers' histories joined, then the tombstones of the
 restored backup laid over the join.
 */
module Join {
  import opened Wrappers
  import opened Net
  import opened History

  /** The record kept where both histories have one: the later revision, deleted if either is. */
  function JoinRecord(x: Record, y: Record): Record {
    if x.revision < y.revision then y.(deleted := x.deleted || y.deleted) else x.(deleted := x.deleted || y.deleted)
  }

  predicate Conflicting(a: Records, b: Records) {
    exists id | id in a && id in b :: !SameIdentity(a[id], b[id])
  }

  function JoinAt(a: Records, b: Records, id: string): Record
    requires id in a || id in b
  {
    if id !in a then b[id] else if id !in b then a[id] else JoinRecord(a[id], b[id])
  }

  function Joined(a: Records, b: Records): Records {
    map id | id in a.Keys + b.Keys :: JoinAt(a, b, id)
  }

  /** A merge that still lacks some of the incoming records. */
  predicate Merging(merged: Records, incoming: Records, remaining: set<string>, result: Records) {
    && remaining <= incoming.Keys
    && result.Keys == merged.Keys + (incoming.Keys - remaining)
    && (forall id :: id in result ==>
          result[id] == if id in incoming && id !in remaining then JoinAt(merged, incoming, id) else merged[id])
    && forall id :: id in incoming && id !in remaining && id in merged ==> SameIdentity(merged[id], incoming[id])
  }

  lemma MergingOne(merged: Records, incoming: Records, remaining: set<string>, result: Records, id: string)
    requires Merging(merged, incoming, remaining, result) && id in remaining
    requires id in result ==> SameIdentity(result[id], incoming[id])
    ensures Merging(merged, incoming, remaining - {id}, result[id := JoinAt(merged, incoming, id)])
  {
  }

  /** Collecting one router's records into the merge, in whatever order the map yields them. */
  method Collect(merged: Records, incoming: Records) returns (r: Option<Records>)
    ensures r == if Conflicting(merged, incoming) then None else Some(Joined(merged, incoming))
  {
    var remaining := incoming.Keys;
    var result := merged;
    while remaining != {}
      invariant Merging(merged, incoming, remaining, result)
      decreases remaining
    {
      var id :| id in remaining;
      var record := incoming[id];
      ghost var next := result[id := JoinAt(merged, incoming, id)];
      if id in result && !SameIdentity(result[id], record) {
        return None;
      }
      MergingOne(merged, incoming, remaining, result, id);
      if id !in result || result[id].revision < record.revision {
        result := result[id := record.(deleted := record.deleted || (id in result && result[id].deleted))];
      } else if record.deleted {
        result := result[id := result[id].(deleted := true)];
      }
      assert result == next;
      remaining := remaining - {id};
    }
    assert result == Joined(merged, incoming);
    return Some(result);
  }

  /// The join is a least upper bound

  /** Neither the order of the routers nor that of their records matters. */
  lemma JoinCommutes(a: Records, b: Records)
    requires Keyed(a) && Keyed(b)
    ensures Conflicting(a, b) <==> Conflicting(b, a)
    ensures !Conflicting(a, b) ==> Joined(a, b) == Joined(b, a)
  {
    if !Conflicting(a, b) {
      assert Joined(a, b).Keys == Joined(b, a).Keys;
      forall id | id in Joined(a, b) ensures Joined(a, b)[id] == Joined(b, a)[id] {
        if id in a && id in b {
          assert SameIdentity(a[id], b[id]);
        }
      }
    }
  }

  lemma JoinIsUpperBound(a: Records, b: Records)
    requires Keyed(a) && Keyed(b) && !Conflicting(a, b)
    ensures Covers(a, Joined(a, b)) && Covers(b, Joined(a, b)) && Keyed(Joined(a, b))
  {
    forall id | id in Joined(a, b) && id in a && id in b ensures SameIdentity(a[id], b[id]) {
    }
  }

  /** Every history that covers both covers the join; if there is one, nothing conflicts. */
  lemma JoinIsLeast(a: Records, b: Records, c: Records)
    requires Covers(a, c) && Covers(b, c)
    ensures !Conflicting(a, b) && Covers(Joined(a, b), c)
  {
    forall id | id in a && id in b ensures SameIdentity(a[id], b[id]) {
      assert RecordCovers(a[id], c[id]) && RecordCovers(b[id], c[id]);
    }
  }

  predicate Comparable(x: Record, y: Record) {
    RecordExtends(x, y) || RecordExtends(y, x)
  }

  lemma JoinRecordExtends(x: Record, y: Record)
    requires x.id == y.id && SameIdentity(x, y)
    ensures RecordExtends(x, JoinRecord(x, y)) && RecordExtends(y, JoinRecord(x, y)) <==> Comparable(x, y)
  {
  }

  /**
   The routers judge by the stricter history order, in which a revision names one
   record. The join meets it exactly when the two histories never disagree.
   */
  lemma JoinExtendsExactly(a: Records, b: Records)
    requires Keyed(a) && Keyed(b) && !Conflicting(a, b)
    ensures Extends(a, Joined(a, b)) && Extends(b, Joined(a, b))
       <==> forall id :: id in a && id in b ==> Comparable(a[id], b[id])
  {
    var j := Joined(a, b);
    forall id | id in a && id in b
      ensures RecordExtends(a[id], j[id]) && RecordExtends(b[id], j[id]) <==> Comparable(a[id], b[id])
    {
      assert SameIdentity(a[id], b[id]);
      JoinRecordExtends(a[id], b[id]);
    }
    if forall id :: id in a && id in b ==> Comparable(a[id], b[id]) {
      forall id | id in a ensures id in j && RecordExtends(a[id], j[id]) {
        assert id in b || j[id] == a[id];
      }
      forall id | id in b ensures id in j && RecordExtends(b[id], j[id]) {
        assert id in a || j[id] == b[id];
      }
    }
  }

  /// The backup's tombstones

  predicate Buried(merged: Records, backup: Records, id: string) {
    id in merged && id in backup && backup[id].deleted && SameIdentity(backup[id], merged[id])
  }

  function BuryRecord(accepted: Record, old_: Record): Record {
    accepted.(
      deleted := true,
      revision := if accepted.revision < old_.revision then old_.revision else accepted.revision)
  }

  function Overlaid(merged: Records, backup: Records): Records {
    map id | id in merged :: if Buried(merged, backup, id) then BuryRecord(merged[id], backup[id]) else merged[id]
  }

  /** Backup records the result does not vouch for: never accepted, of another identity, or since deleted. */
  function Quarantine(merged: Records, backup: Records): Records {
    map id | id in backup
      && (id !in merged || !SameIdentity(backup[id], merged[id])
          || (Overlaid(merged, backup)[id].deleted && !backup[id].deleted)) :: backup[id]
  }

  method OverlayTombstones(merged: Records, backup: Records) returns (result: Records, quarantined: Records)
    ensures result == Overlaid(merged, backup)
    ensures quarantined == Quarantine(merged, backup)
  {
    var remaining := backup.Keys;
    result, quarantined := merged, map[];
    while remaining != {}
      invariant remaining <= backup.Keys && result.Keys == merged.Keys
      invariant forall id :: id in merged ==>
                  result[id] == if id in remaining then merged[id] else Overlaid(merged, backup)[id]
      invariant quarantined == map id | id in Quarantine(merged, backup) && id !in remaining :: backup[id]
      decreases remaining
    {
      var id :| id in remaining;
      var old_ := backup[id];
      if id in result && old_.deleted && SameIdentity(result[id], old_) {
        result := result[id := BuryRecord(result[id], old_)];
      }
      if id !in result || !SameIdentity(old_, result[id]) || (result[id].deleted && !old_.deleted) {
        quarantined := quarantined[id := old_];
      }
      remaining := remaining - {id};
    }
  }

  /// When both routers can accept the result

  /** The records of the recovery result. */
  function MergedRecords(a: Records, b: Records, backup: Records): Records {
    Overlaid(Joined(a, b), backup)
  }

  /**
   The condition on one record: the backup's tombstone carries a later revision than
   either router's record, or else the routers agree and already know of any deletion.
   */
  predicate Settled(a: Records, b: Records, backup: Records, id: string)
    requires id in a || id in b
  {
    var j := JoinAt(a, b, id);
    var tombstone := id in backup && backup[id].deleted && SameIdentity(backup[id], j);
    || (tombstone && j.revision < backup[id].revision)
    || ((id in a && id in b ==> Comparable(a[id], b[id])) && (tombstone ==> j.deleted))
  }

  lemma MergedCovers(a: Records, b: Records, backup: Records)
    requires Keyed(a) && Keyed(b) && !Conflicting(a, b)
    ensures var m := MergedRecords(a, b, backup); Covers(a, m) && Covers(b, m) && Keyed(m)
  {
    JoinIsUpperBound(a, b);
  }

  predicate Extended(a: Records, b: Records, backup: Records, id: string)
    requires id in a || id in b
  {
    var m := MergedRecords(a, b, backup);
    (id in a ==> RecordExtends(a[id], m[id])) && (id in b ==> RecordExtends(b[id], m[id]))
  }

  lemma SettledExactly(a: Records, b: Records, backup: Records, id: string)
    requires Keyed(a) && Keyed(b) && !Conflicting(a, b) && (id in a || id in b)
    ensures Extended(a, b, backup, id) <==> Settled(a, b, backup, id)
  {
    assert id in a && id in b ==> SameIdentity(a[id], b[id]);
    assert MergedRecords(a, b, backup)[id] ==
      if Buried(Joined(a, b), backup, id) then BuryRecord(JoinAt(a, b, id), backup[id]) else JoinAt(a, b, id);
  }

  /** The result extends what both routers accepted exactly when every record is settled. */
  lemma MergedExtendsExactly(a: Records, b: Records, backup: Records)
    requires Keyed(a) && Keyed(b) && !Conflicting(a, b)
    ensures var m := MergedRecords(a, b, backup);
            (Extends(a, m) && Extends(b, m)) <==> (forall id :: id in a || id in b ==> Settled(a, b, backup, id))
  {
    forall id | id in a || id in b
      ensures Extended(a, b, backup, id) <==> Settled(a, b, backup, id)
    {
      SettledExactly(a, b, backup, id);
    }
  }

  /** Histories that are all stretches of one never leave anything unsettled, nor in conflict. */
  lemma OneHistorySettles(a: Records, b: Records, backup: Records)
    requires Extends(a, b) || Extends(b, a)
    requires Extends(a, backup) || Extends(backup, a)
    requires Extends(b, backup) || Extends(backup, b)
    ensures !Conflicting(a, b)
    ensures forall id :: id in a || id in b ==> Settled(a, b, backup, id)
  {
    forall id | id in a || id in b ensures Settled(a, b, backup, id) {
      assert id in a && id in b ==> Comparable(a[id], b[id]);
      assert id in a && id in backup ==> Comparable(a[id], backup[id]);
      assert id in b && id in backup ==> Comparable(b[id], backup[id]);
    }
  }

  /// The claim without that condition is false

  function ExampleRecord(revision: U64, deleted: bool): Records {
    map["one" := Record("one", "echo", V4(127, 0, 0, 1, 9000), revision, deleted)]
  }

  /**
   Two routers took different snapshots of one revision, as they may after a worker
   restarted from an old copy of its database: the merge deletes the record without
   moving its revision, and the router that holds it live cannot accept that.
   */
  lemma DivergedHistoriesDoNotMerge()
    ensures var (live, dead) := (ExampleRecord(5, false), ExampleRecord(5, true));
            && !Conflicting(live, dead)
            && Covers(live, MergedRecords(live, dead, map[]))
            && !Extends(live, MergedRecords(live, dead, map[]))
            && !Settled(live, dead, map[], "one")
  {
    var (live, dead) := (ExampleRecord(5, false), ExampleRecord(5, true));
    assert "one" in live && "one" in dead;
    assert MergedRecords(live, dead, map[])["one"] == dead["one"];
  }
}

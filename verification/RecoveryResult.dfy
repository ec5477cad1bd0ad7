/**
 What a recovery journals, record by record: the result that the routers install, and the
 backup's records that it does not vouch for.
 */
module RecoveryResult {
  import opened Wrappers
  import opened Net
  import opened History
  import opened Routing
  import opened Soundness
  import opened Router
  import opened Join
  import opened Recovery
  import opened RecoveryRuns

  /** The records have the id with this application and endpoint. */
  predicate HasAs(records: Records, id: string, as_: Record) {
    id in records && records[id].app == as_.app && records[id].endpoint == as_.endpoint
  }

  predicate DeletedIn(records: Records, id: string) {
    id in records && records[id].deleted
  }

  /** The backup has this record deleted. */
  predicate BuriedIn(backup: Records, id: string, as_: Record) {
    HasAs(backup, id, as_) && backup[id].deleted
  }

  /** Not below any revision that counts, and equal to one of them. */
  predicate IsGreatest(revision: U64, a: Records, b: Records, backup: Records, id: string, r: Record) {
    && (id in a ==> a[id].revision <= revision) && (id in b ==> b[id].revision <= revision)
    && (BuriedIn(backup, id, r) ==> backup[id].revision <= revision)
    && (|| (id in a && revision == a[id].revision)
        || (id in b && revision == b[id].revision)
        || (BuriedIn(backup, id, r) && revision == backup[id].revision))
  }

  /** What the result has of one id. */
  predicate RightRecord(a: Records, b: Records, backup: Records, id: string, r: Record) {
    && (id in a ==> HasAs(a, id, r)) && (id in b ==> HasAs(b, id, r))
    && (r.deleted <==> DeletedIn(a, id) || DeletedIn(b, id) || BuriedIn(backup, id, r))
    && IsGreatest(r.revision, a, b, backup, id, r)
  }

  lemma MergedIsRight(a: Records, b: Records, backup: Records, id: string)
    requires !Conflicting(a, b) && (id in a || id in b)
    ensures id in MergedRecords(a, b, backup)
    ensures RightRecord(a, b, backup, id, MergedRecords(a, b, backup)[id])
  {
    assert id in a && id in b ==> SameIdentity(a[id], b[id]);
    assert MergedRecords(a, b, backup)[id] ==
      if Buried(Joined(a, b), backup, id) then BuryRecord(JoinAt(a, b, id), backup[id]) else JoinAt(a, b, id);
  }

  lemma ResultIsMerged(plan: Plan, a: Snapshot, b: Snapshot)
    requires ResultOf(plan, a, b).Some?
    ensures var r := ResultOf(plan, a, b).value;
            && !Conflicting(a.records, b.records)
            && r.records == MergedRecords(a.records, b.records, plan.backup.records)
            && r.incarnation == 1 + Max(Max(plan.backup.incarnation, a.incarnation), b.incarnation)
            && r.revision == 1 + Max(Max(plan.backup.revision, a.revision), b.revision)
            && r.schema == 1 && r.owner == plan.owner
  {
    assert Joined(map[], a.records) == a.records;
  }

  /**
   The result, in terms of the two snapshots collected and the backup: it has the ids of
   either router and no others; each is deleted exactly if a router or the backup deleted
   it, under the greatest of their revisions; and it is one incarnation and one revision
   beyond all three.
   */
  lemma ResultIsExact(plan: Plan, a: Snapshot, b: Snapshot)
    requires ResultOf(plan, a, b).Some?
    ensures var r := ResultOf(plan, a, b).value;
            && (forall id :: id in r.records <==> id in a.records || id in b.records)
            && (forall id :: id in r.records ==>
                  RightRecord(a.records, b.records, plan.backup.records, id, r.records[id]))
            && (forall n :: n in {a, b, plan.backup} ==> n.incarnation < r.incarnation && n.revision < r.revision)
            && (exists n :: n in {a, b, plan.backup} && r.incarnation == n.incarnation + 1)
            && (exists n :: n in {a, b, plan.backup} && r.revision == n.revision + 1)
  {
    var r := ResultOf(plan, a, b).value;
    ResultIsMerged(plan, a, b);
    forall id | id in r.records
      ensures RightRecord(a.records, b.records, plan.backup.records, id, r.records[id])
    {
      MergedIsRight(a.records, b.records, plan.backup.records, id);
    }
    var all := {a, b, plan.backup};
    assert a in all && b in all && plan.backup in all;
  }

  /**
   There is a result exactly if the routers do not hold one id with different applications or
   endpoints, and no incarnation or revision has reached the end of what the worker counts.
   */
  lemma ResultExistsExactly(plan: Plan, a: Snapshot, b: Snapshot)
    ensures ResultOf(plan, a, b).Some? <==>
            && (forall id :: id in a.records && id in b.records ==> HasAs(a.records, id, b.records[id]))
            && (forall n :: n in {a, b, plan.backup} ==>
                  n.incarnation < 0x7FFF_FFFF_FFFF_FFFF && n.revision < 0x7FFF_FFFF_FFFF_FFFF)
  {
    assert Joined(map[], a.records) == a.records;
    var all := {a, b, plan.backup};
    assert a in all && b in all && plan.backup in all;
  }

  /// The quarantine

  /** A record of the backup that nothing vouches for. */
  predicate Unvouched(a: Records, b: Records, backup: Records, result: Records, id: string) {
    && id in backup
    && (|| (!HasAs(a, id, backup[id]) && !HasAs(b, id, backup[id]))
        || (DeletedIn(result, id) && !backup[id].deleted))
  }

  lemma QuarantineByRecord(a: Records, b: Records, backup: Records, id: string)
    requires !Conflicting(a, b)
    ensures id in Quarantine(Joined(a, b), backup) <==> Unvouched(a, b, backup, MergedRecords(a, b, backup), id)
    ensures id in Quarantine(Joined(a, b), backup) ==> Quarantine(Joined(a, b), backup)[id] == backup[id]
  {
    assert id in a && id in b ==> SameIdentity(a[id], b[id]);
  }

  /** Nothing is quarantined until there is a result; then exactly what belongs to that result. */
  predicate QuarantineOk(plan: Plan, w: World) {
    w.journal.Some? ==>
      if w.journal.value.result.None? then w.journal.value.quarantined == map[]
      else
        && |w.journal.value.collected| == 2
        && w.journal.value.quarantined ==
           Quarantine(Joined(w.journal.value.collected[0].records, w.journal.value.collected[1].records),
                      plan.backup.records)
  }

  /** The parts of a journal that decide it. */
  predicate SameFindings(a: Journal, b: Journal) {
    b.result == a.result && b.quarantined == a.quarantined && (a.result.Some? ==> b.collected == a.collected)
  }

  lemma OthersFindNothing(plan: Plan, w: World, h: string)
    requires Shape(plan, w) && !w.process.Prepare?
    ensures var t := Work(plan, w, h);
            if w.journal.Some? then t.journal.Some? && SameFindings(w.journal.value, t.journal.value)
            else t.journal.Some? ==> t.journal.value.result.None? && t.journal.value.quarantined == map[]
  {
  }

  lemma PrepareFinds(plan: Plan, w: World, h: string)
    requires Shape(plan, w) && RecoveryInv(plan, w) && QuarantineOk(plan, w) && w.process.Prepare?
    ensures QuarantineOk(plan, Work(plan, w, h))
  {
    var (a, b) := (SnapshotOf(plan, w.routers[0]), SnapshotOf(plan, w.routers[1]));
    assert Joined(map[], a.records) == a.records;
    assert map[] + Quarantine(Joined(a.records, b.records), plan.backup.records)
        == Quarantine(Joined(a.records, b.records), plan.backup.records);
  }

  lemma NextKeepsQuarantine(plan: Plan, w: World, e: Event)
    requires Shape(plan, w) && RecoveryInv(plan, w) && QuarantineOk(plan, w) && Possible(plan, e)
    ensures QuarantineOk(plan, Next(plan, w, e))
  {
    if e.Working? {
      if w.process.Prepare? {
        PrepareFinds(plan, w, e.h);
      } else {
        OthersFindNothing(plan, w, e.h);
      }
    }
  }

  lemma {:induction false} RunKeepsQuarantine(plan: Plan, w: World, events: seq<Event>)
    requires Shape(plan, w) && RecoveryInv(plan, w) && QuarantineOk(plan, w)
    requires forall k :: 0 <= k < |events| ==> Possible(plan, events[k])
    ensures RecoveryInv(plan, RunAll(plan, w, events)) && QuarantineOk(plan, RunAll(plan, w, events))
    decreases |events|
  {
    if events != [] {
      NextKeepsInv(plan, w, events[0]);
      NextKeepsQuarantine(plan, w, events[0]);
      RunKeepsQuarantine(plan, Next(plan, w, events[0]), events[1..]);
    }
  }

  /**
   Over every run, once there is a result (so in every completed recovery): a record of the
   backup is quarantined exactly if neither router held it with its application and
   endpoint, or if the result deletes it while the backup has it live.
   */
  lemma QuarantineIsExact(plan: Plan, start: World, events: seq<Event>)
    requires Shape(plan, start) && Before(plan, start)
    requires forall k :: 0 <= k < |events| ==> Possible(plan, events[k])
    requires Prepared(RunAll(plan, start, events))
    ensures var j := RunAll(plan, start, events).journal.value;
            && |j.collected| == 2 && ResultOf(plan, j.collected[0], j.collected[1]) == j.result
            && forall id {:trigger id in j.quarantined} ::
                 && (id in j.quarantined <==>
                     Unvouched(j.collected[0].records, j.collected[1].records, plan.backup.records,
                               j.result.value.records, id))
                 && (id in j.quarantined ==> j.quarantined[id] == plan.backup.records[id])
  {
    var w := RunAll(plan, start, events);
    BeforeIsInv(plan, start);
    RunKeepsQuarantine(plan, start, events);
    var j := w.journal.value;
    ResultIsMerged(plan, j.collected[0], j.collected[1]);
    forall id
      ensures id in j.quarantined <==>
              Unvouched(j.collected[0].records, j.collected[1].records, plan.backup.records,
                        j.result.value.records, id)
      ensures id in j.quarantined ==> j.quarantined[id] == plan.backup.records[id]
    {
      QuarantineByRecord(j.collected[0].records, j.collected[1].records, plan.backup.records, id);
    }
  }

  /// A database of another owner

  /** Not past the point where the restored database is looked at. */
  predicate StoppedShort(plan: Plan, w: World) {
    && w.row == plan.backup
    && (w.process.Idle? || w.process.SetGuard? || w.process.SaveJournal?)
    && (w.journal.Some? ==> w.journal.value.result.None? && !w.journal.value.complete)
  }

  lemma NextStopsShort(plan: Plan, w: World, e: Event)
    requires Shape(plan, w) && Possible(plan, e) && StoppedShort(plan, w) && plan.backup.owner != plan.owner
    ensures StoppedShort(plan, Next(plan, w, e)) && Next(plan, w, e).token == w.token
  {
  }

  /**
   A restored database that belongs to another owner is never recovered: over every run no
   result is made, nothing is completed, and row and token stay as they were.
   */
  lemma {:induction false} WrongDatabaseStops(plan: Plan, w: World, events: seq<Event>)
    requires Shape(plan, w) && StoppedShort(plan, w) && plan.backup.owner != plan.owner
    requires forall k :: 0 <= k < |events| ==> Possible(plan, events[k])
    ensures StoppedShort(plan, RunAll(plan, w, events)) && RunAll(plan, w, events).token == w.token
    decreases |events|
  {
    if events != [] {
      NextStopsShort(plan, w, events[0]);
      WrongDatabaseStops(plan, Next(plan, w, events[0]), events[1..]);
    }
  }
}

/**
 The growth controller of one volume: intents in a durable table, the volume and its
 filesystem, and a run that may stop after any effect and is then repeated.
 */
module Growth {
  import opened Wrappers

  const CAP_MIB: nat := 6144
  const STEP_MIB: nat := 500

  function Mib(n: nat): nat {
    n * 0x10_0000
  }

  /** A whole number of 4 MiB extents. */
  predicate Whole(bytes: nat) {
    bytes % 0x40_0000 == 0
  }

  datatype Operation = Operation(id: string, uuid: nat, target: nat, done: bool)

  /** The flags of one run; sizes in MiB, no target meaning growth by threshold. */
  datatype Flags = Flags(id: string, target: nat, threshold: nat, maximum: nat, reserve: nat) {
    predicate Ok() {
      1 <= threshold <= 100 && 1 <= maximum <= CAP_MIB && target <= CAP_MIB
    }
  }

  /** What one run finds outside: the mount, the filesystem's use, and a name for a generated operation. */
  datatype Surroundings = Surroundings(mounted: bool, used: nat, blocks: nat, freshId: string)

  datatype Outcome = Refused | Idle | AlreadyDone | Stopped | Finished

  datatype World = World(rows: seq<Operation>, size: nat, filesystem: nat, free: nat)

  /** To whole extents, upwards. */
  function RoundUp(bytes: nat): (r: nat)
    ensures bytes <= r < bytes + 0x40_0000 && Whole(r)
    ensures Whole(bytes) ==> r == bytes
  {
    (bytes + 0x40_0000 - 1) / 0x40_0000 * 0x40_0000
  }

  /** The flag's target, rounded to 4 MiB before anything else looks at it. */
  function Target(flags: Flags): (r: nat)
    ensures r == RoundUp(Mib(flags.target))
  {
    Mib((flags.target + 3) / 4 * 4)
  }

  function Find(rows: seq<Operation>, id: string): (r: Option<nat>)
    ensures match r
            case Some(i) => i < |rows| && rows[i].id == id && forall j :: 0 <= j < i ==> rows[j].id != id
            case None => forall j :: 0 <= j < |rows| ==> rows[j].id != id
  {
    if rows == [] then None
    else if rows[0].id == id then Some(0)
    else match Find(rows[1..], id)
      case Some(i) => assert forall j :: 0 < j < i + 1 ==> rows[j] == rows[1..][j - 1]; Some(i + 1)
      case None => assert forall j :: 0 < j < |rows| ==> rows[j] == rows[1..][j - 1]; None
  }

  /** The oldest operation that is not done. */
  function Pending(rows: seq<Operation>): (r: Option<nat>)
    ensures match r
            case Some(i) => i < |rows| && !rows[i].done && forall j :: 0 <= j < i ==> rows[j].done
            case None => forall j :: 0 <= j < |rows| ==> rows[j].done
  {
    if rows == [] then None
    else if !rows[0].done then Some(0)
    else match Pending(rows[1..])
      case Some(i) => assert forall j :: 0 < j < i + 1 ==> rows[j] == rows[1..][j - 1]; Some(i + 1)
      case None => assert forall j :: 0 < j < |rows| ==> rows[j] == rows[1..][j - 1]; None
  }

  /// At every instant

  /** The size that the operations before `i` brought the volume to. */
  function Reached(start: nat, rows: seq<Operation>, i: nat): nat
    requires i <= |rows|
  {
    if i == 0 then start else rows[i - 1].target
  }

  predicate RowOk(start: nat, rows: seq<Operation>, i: nat)
    requires i < |rows|
  {
    && Whole(rows[i].target)
    && Reached(start, rows, i) <= rows[i].target <= Mib(CAP_MIB)
    && (i + 1 < |rows| ==> rows[i].done)
  }

  ghost predicate RowsOk(start: nat, rows: seq<Operation>) {
    && (forall i {:trigger RowOk(start, rows, i)} :: 0 <= i < |rows| ==> RowOk(start, rows, i))
    && (forall i, j :: 0 <= i < j < |rows| ==> rows[i].id != rows[j].id)
  }

  predicate HasPending(rows: seq<Operation>) {
    rows != [] && !rows[|rows| - 1].done
  }

  /**
   Only the newest operation may be open. The volume has exactly the size of the last
   completed one, or already that of the open one, which the group has room for.
   */
  ghost predicate Inv(start: nat, total: nat, w: World) {
    && RowsOk(start, w.rows)
    && w.size + w.free == total
    && w.filesystem <= w.size
    && (if HasPending(w.rows) then
          && w.size in {Reached(start, w.rows, |w.rows| - 1), w.rows[|w.rows| - 1].target}
          && w.rows[|w.rows| - 1].target <= total
          && (|w.rows| > 1 ==> Reached(start, w.rows, |w.rows| - 1) <= w.filesystem)
        else
          && w.size == Reached(start, w.rows, |w.rows|)
          && (w.rows != [] ==> w.size == w.filesystem))
  }

  /** `reserve` bytes of the group are untouched, whatever is still open. */
  predicate Spared(reserve: nat, w: World) {
    reserve <= w.free && (HasPending(w.rows) ==> w.rows[|w.rows| - 1].target + reserve <= w.size + w.free)
  }

  /** Nothing is forgotten or undone. */
  ghost predicate Later(a: World, b: World) {
    && a.size <= b.size && a.filesystem <= b.filesystem && a.size + a.free == b.size + b.free
    && |a.rows| <= |b.rows|
    && forall i {:trigger b.rows[i]} :: 0 <= i < |a.rows| ==>
         b.rows[i].id == a.rows[i].id && b.rows[i].target == a.rows[i].target && (a.rows[i].done ==> b.rows[i].done)
  }

  lemma {:induction false} TargetsOnlyRise(start: nat, rows: seq<Operation>, i: nat, j: nat)
    requires RowsOk(start, rows) && i <= j < |rows|
    ensures start <= rows[i].target <= rows[j].target
    decreases j
  {
    assert RowOk(start, rows, j);
    if i < j {
      TargetsOnlyRise(start, rows, i, j - 1);
    } else if j > 0 {
      TargetsOnlyRise(start, rows, j - 1, j - 1);
    }
  }

  /** At most one operation is open, and it is the newest. */
  lemma OnePending(start: nat, total: nat, w: World, i: nat, j: nat)
    requires Inv(start, total, w)
    requires i < |w.rows| && j < |w.rows| && !w.rows[i].done && !w.rows[j].done
    ensures i == j == |w.rows| - 1
  {
    assert RowOk(start, w.rows, i) && RowOk(start, w.rows, j);
  }

  /** What a completed operation promised holds from then on. */
  lemma DoneIsReached(start: nat, total: nat, w: World, i: nat)
    requires Inv(start, total, w) && i < |w.rows| && w.rows[i].done
    ensures w.rows[i].target <= w.filesystem <= w.size
  {
    var last := |w.rows| - 1;
    assert RowOk(start, w.rows, last);
    if HasPending(w.rows) {
      TargetsOnlyRise(start, w.rows, i, last - 1);
    } else {
      TargetsOnlyRise(start, w.rows, i, last);
    }
  }

  /** The volume never passes the cap unless it began beyond it. */
  lemma CapHolds(start: nat, total: nat, w: World)
    requires Inv(start, total, w)
    ensures start <= w.size && (w.size == start || w.size <= 6442450944)
  {
    if w.rows != [] {
      var last := |w.rows| - 1;
      TargetsOnlyRise(start, w.rows, last, last);
      assert RowOk(start, w.rows, last);
      if last > 0 {
        TargetsOnlyRise(start, w.rows, last - 1, last - 1);
        assert RowOk(start, w.rows, last - 1);
      }
    }
  }

  lemma LaterIsTransitive(a: World, b: World, c: World)
    requires Later(a, b) && Later(b, c)
    ensures Later(a, c)
  {
    forall i {:trigger c.rows[i]} | 0 <= i < |a.rows|
      ensures c.rows[i].id == a.rows[i].id && c.rows[i].target == a.rows[i].target
              && (a.rows[i].done ==> c.rows[i].done)
    {
      assert b.rows[i].id == a.rows[i].id;
    }
  }

  /// The run

  /** The run is about the open operation, and its flags allow it. */
  predicate MayResume(w: World, uuid: nat, flags: Flags) {
    && HasPending(w.rows)
    && var open := w.rows[|w.rows| - 1];
    && open.target <= Mib(flags.maximum)
    && (flags.id == ""
        || (flags.id == open.id && open.uuid == uuid && (Target(flags) == 0 || open.target == Target(flags))))
  }

  /** Used up to the threshold or beyond, in percent. */
  predicate Full(flags: Flags, s: Surroundings) {
    flags.threshold * s.blocks <= 100 * s.used
  }

  /** The size asked for, in whole extents: the given one, or 500 MiB more than there is. */
  ghost predicate AskedFor(size: nat, flags: Flags, wanted: nat) {
    var bytes := if flags.target == 0 then size + 524288000 else flags.target * 1048576;
    wanted % 4194304 == 0 && bytes <= wanted < bytes + 4194304
  }

  /** That size is no step back and within the maximum, and its growth leaves the reserve free. */
  ghost predicate Affords(size: nat, free: nat, flags: Flags, wanted: nat) {
    && size <= wanted <= flags.maximum * 1048576
    && wanted - size + flags.reserve * 1048576 <= free
  }

  ghost predicate Grows(size: nat, free: nat, flags: Flags, s: Surroundings, wanted: nat) {
    && (flags.target != 0 || Full(flags, s))
    && AskedFor(size, flags, wanted) && Affords(size, free, flags, wanted)
  }

  lemma WholeIsUnique(bytes: nat, x: nat, y: nat)
    requires x % 4194304 == 0 && y % 4194304 == 0
    requires bytes <= x < bytes + 4194304 && bytes <= y < bytes + 4194304
    ensures x == y
  {
    assert x == x / 4194304 * 4194304 && y == y / 4194304 * 4194304;
  }

  lemma AskedForIsRounded(size: nat, flags: Flags)
    ensures var rounded := RoundUp(if Target(flags) == 0 then size + Mib(STEP_MIB) else Target(flags));
            forall wanted :: AskedFor(size, flags, wanted) <==> wanted == rounded
  {
    var bytes := if flags.target == 0 then size + 524288000 else flags.target * 1048576;
    forall wanted | AskedFor(size, flags, wanted) ensures wanted == RoundUp(bytes) {
      WholeIsUnique(bytes, wanted, RoundUp(bytes));
    }
  }

  datatype Decision = Nothing | NotAllowed | Grow(target: nat)

  /** How large the volume should become when nothing is open. */
  function Decide(size: nat, free: nat, flags: Flags, s: Surroundings): (d: Decision)
    requires flags.Ok()
    ensures d.Nothing? <==> flags.target == 0 && !Full(flags, s)
    ensures forall wanted :: d == Grow(wanted) <==> Grows(size, free, flags, s, wanted)
    ensures d.Grow? ==> Whole(d.target) && Grows(size, free, flags, s, d.target)
  {
    AskedForIsRounded(size, flags);
    if Target(flags) == 0 && 100 * s.used < flags.threshold * s.blocks then Nothing
    else
      var wanted := RoundUp(if Target(flags) == 0 then size + Mib(STEP_MIB) else Target(flags));
      if wanted < size || wanted > Mib(flags.maximum) || wanted - size + Mib(flags.reserve) > free then NotAllowed
      else Grow(wanted)
  }

  /** What the table alone answers to the operation named by the flags. */
  function Answer(rows: seq<Operation>, uuid: nat, flags: Flags): (r: Option<Outcome>)
    ensures r == Some(AlreadyDone) ==> exists i :: 0 <= i < |rows| && rows[i].id == flags.id && rows[i].done
    ensures r.None? && flags.id != "" ==>
              Find(rows, flags.id) == None || (exists i :: 0 <= i < |rows| && rows[i].id == flags.id && !rows[i].done)
  {
    match if flags.id == "" then None else Find(rows, flags.id)
    case None => None
    case Some(i) =>
      if rows[i].uuid != uuid || (Target(flags) != 0 && rows[i].target != Target(flags)) then Some(Refused)
      else if rows[i].done then Some(AlreadyDone)
      else None
  }

  /** The name of a new operation: the given one, or a generated one. */
  function NewId(flags: Flags, s: Surroundings): string {
    if flags.id == "" then s.freshId else flags.id
  }

  /** One operation was appended, open, with the size that was asked for. */
  ghost predicate Begun(a: seq<Operation>, b: seq<Operation>, uuid: nat, flags: Flags, s: Surroundings, size: nat,
                        free: nat)
  {
    && |b| == |a| + 1 && b[..|a|] == a
    && b[|a|] == Operation(NewId(flags, s), uuid, b[|a|].target, false)
    && Grows(size, free, flags, s, b[|a|].target)
  }

  predicate Known(rows: seq<Operation>, id: string) {
    exists i :: 0 <= i < |rows| && rows[i].id == id
  }

  predicate AllDone(rows: seq<Operation>) {
    forall i :: 0 <= i < |rows| ==> rows[i].done
  }

  /** Nothing is open, the name is new, and the size asked for is needed and affordable. */
  ghost predicate MayBegin(w: World, flags: Flags, s: Surroundings, wanted: nat) {
    AllDone(w.rows) && !Known(w.rows, NewId(flags, s)) && Grows(w.size, w.free, flags, s, wanted)
  }

  ghost predicate CanBegin(w: World, flags: Flags, s: Surroundings) {
    exists wanted :: MayBegin(w, flags, s, wanted)
  }

  /** The named operation of this volume is over, and the flags ask for nothing else. */
  predicate IsOver(rows: seq<Operation>, uuid: nat, flags: Flags) {
    flags.id != ""
    && exists i :: 0 <= i < |rows| && rows[i].id == flags.id && rows[i].done && rows[i].uuid == uuid
                   && (flags.target == 0 || rows[i].target == Target(flags))
  }

  /** Nothing is open or named so far, no size is given, and the threshold is not reached. */
  predicate NothingToDo(rows: seq<Operation>, flags: Flags, s: Surroundings) {
    && AllDone(rows) && (flags.id == "" || !Known(rows, flags.id))
    && flags.target == 0 && !Full(flags, s)
  }

  class Controller {
    const uuid: nat
    var rows: seq<Operation>
    var size: nat
    var filesystem: nat
    var free: nat
    /** How many more effects happen before the run stops, for whatever reason. */
    var lives: nat

    ghost function Now(): World
      reads this
    {
      World(rows, size, filesystem, free)
    }

    constructor (uuid: nat, size: nat, filesystem: nat, free: nat)
      requires filesystem <= size
      ensures this.uuid == uuid && Now() == World([], size, filesystem, free) && Inv(size, size + free, Now())
    {
      this.uuid, rows, this.size, this.filesystem, this.free, lives := uuid, [], size, filesystem, free, 0;
    }

    method Survives() returns (alive: bool)
      modifies this`lives
      ensures alive <==> old(lives) > 0
      ensures lives == if alive then old(lives) - 1 else 0
    {
      alive := lives > 0;
      if alive {
        lives := lives - 1;
      }
    }

    /** Records a new intent, if the volume would not shrink and the cap and the group allow it. */
    method Intend(flags: Flags, s: Surroundings, ghost start: nat, ghost total: nat, ghost spared: nat)
      returns (outcome: Outcome)
      requires flags.Ok() && Inv(start, total, Now()) && !HasPending(rows)
      requires flags.id == "" || Find(rows, flags.id) == None
      modifies this`rows, this`lives
      ensures Inv(start, total, Now()) && Later(old(Now()), Now())
      ensures spared <= Mib(flags.reserve) && old(Spared(spared, Now())) ==> Spared(spared, Now())
      ensures outcome in {Idle, Refused, Stopped, Finished}
      ensures outcome != Finished ==> rows == old(rows)
      ensures outcome == Finished ==>
                Begun(old(rows), rows, uuid, flags, s, size, free) && lives == old(lives) - 1
      ensures outcome == Idle <==> flags.target == 0 && !Full(flags, s)
      ensures outcome == Finished <==>
              && (exists wanted :: Grows(size, free, flags, s, wanted))
              && !Known(old(rows), NewId(flags, s)) && old(lives) >= 1
    {
      var decision := Decide(size, free, flags, s);
      if !decision.Grow? {
        return if decision.Nothing? then Idle else Refused;
      }
      MaximumIsUnderCap(flags);
      outcome := Insert(NewId(flags, s), decision.target, start, total);
    }

    method Insert(id: string, target: nat, ghost start: nat, ghost total: nat) returns (outcome: Outcome)
      requires Inv(start, total, Now()) && !HasPending(rows)
      requires Whole(target) && size <= target <= Mib(CAP_MIB) && target <= total
      modifies this`rows, this`lives
      ensures Inv(start, total, Now()) && Later(old(Now()), Now())
      ensures outcome in {Refused, Stopped, Finished}
      ensures rows == if outcome == Finished then old(rows) + [Operation(id, uuid, target, false)] else old(rows)
      ensures lives == if outcome == Finished then old(lives) - 1 else old(lives)
      ensures outcome == Finished <==> !Known(old(rows), id) && old(lives) >= 1
    {
      if Find(rows, id) != None {
        return Refused;
      }
      var alive := Survives();
      if !alive {
        return Stopped;
      }
      rows := rows + [Operation(id, uuid, target, false)];
      IntentKept(start, total, old(Now()), Now());
      return Finished;
    }

    /** Extends the volume, then its filesystem, then marks the open operation done. */
    method Complete(ghost start: nat, ghost total: nat, ghost spared: nat) returns (outcome: Outcome)
      requires Inv(start, total, Now()) && HasPending(rows)
      modifies this`rows, this`size, this`filesystem, this`free, this`lives
      ensures Inv(start, total, Now()) && Later(old(Now()), Now())
      ensures old(Spared(spared, Now())) ==> Spared(spared, Now())
      ensures old(lives) >= 3 ==> outcome == Finished
      ensures if outcome == Finished then
                |rows| == |old(rows)| && rows == old(rows)[|rows| - 1 := old(rows)[|rows| - 1].(done := true)]
                && size == filesystem == rows[|rows| - 1].target
              else rows == old(rows) && outcome == Stopped
    {
      var open := |rows| - 1;
      var wanted := rows[open].target;
      assert RowOk(start, rows, open);
      if size < wanted {
        var alive := Survives();
        if !alive || free < wanted - size {
          return Stopped;
        }
        size, free := wanted, free - (wanted - size);
      }
      var resized := Survives();
      if !resized {
        return Stopped;
      }
      filesystem := size;
      if size < wanted || filesystem < wanted {
        return Stopped;
      }
      var marked := Survives();
      if !marked {
        return Stopped;
      }
      rows := rows[open := rows[open].(done := true)];
      RowDone(start, old(rows), rows);
      return Finished;
    }

    /** One pass. A finished one leaves volume and filesystem at exactly its operation's target. */
    method Pass(flags: Flags, s: Surroundings, ghost start: nat, ghost total: nat, ghost spared: nat)
      returns (outcome: Outcome)
      requires flags.Ok() && Inv(start, total, Now())
      modifies this`rows, this`size, this`filesystem, this`free, this`lives
      ensures Inv(start, total, Now()) && Later(old(Now()), Now())
      ensures spared <= Mib(flags.reserve) && old(Spared(spared, Now())) ==> Spared(spared, Now())
      ensures outcome in {Refused, Idle, AlreadyDone} ==> Now() == old(Now())
      ensures outcome == AlreadyDone ==> exists i :: 0 <= i < |rows| && rows[i].id == flags.id && rows[i].done
      ensures outcome == Finished ==>
                !HasPending(rows) && rows != [] && size == filesystem == rows[|rows| - 1].target
      ensures s.mounted && old(MayResume(Now(), uuid, flags)) && old(lives) >= 3 ==>
                outcome == Finished && |rows| == |old(rows)|
      ensures s.mounted && old(CanBegin(Now(), flags, s)) && old(lives) >= 4 ==>
                outcome == Finished && |rows| == |old(rows)| + 1 && MayBegin(old(Now()), flags, s, size)
      ensures outcome == AlreadyDone <==> s.mounted && IsOver(old(rows), uuid, flags)
      ensures outcome == Idle <==> s.mounted && NothingToDo(old(rows), flags, s)
      ensures outcome == Finished ==> s.mounted && old(MayResume(Now(), uuid, flags) || CanBegin(Now(), flags, s))
    {
      if !s.mounted {
        return Refused;
      }
      var answer := Answer(rows, uuid, flags);
      if answer.Some? {
        ResumableIsUnanswered(start, total, Now(), uuid, flags);
        return answer.value;
      }
      outcome := Proceed(flags, s, start, total, spared);
    }

    method Proceed(flags: Flags, s: Surroundings, ghost start: nat, ghost total: nat, ghost spared: nat)
      returns (outcome: Outcome)
      requires flags.Ok() && Inv(start, total, Now()) && Answer(rows, uuid, flags) == None
      modifies this`rows, this`size, this`filesystem, this`free, this`lives
      ensures Inv(start, total, Now()) && Later(old(Now()), Now())
      ensures spared <= Mib(flags.reserve) && old(Spared(spared, Now())) ==> Spared(spared, Now())
      ensures outcome != AlreadyDone
      ensures outcome in {Refused, Idle} ==> Now() == old(Now())
      ensures outcome == Finished ==>
                !HasPending(rows) && rows != [] && size == filesystem == rows[|rows| - 1].target
      ensures old(MayResume(Now(), uuid, flags)) && old(lives) >= 3 ==> outcome == Finished && |rows| == |old(rows)|
      ensures old(CanBegin(Now(), flags, s)) && old(lives) >= 4 ==>
                outcome == Finished && |rows| == |old(rows)| + 1 && MayBegin(old(Now()), flags, s, size)
      ensures outcome == Idle <==> NothingToDo(old(rows), flags, s)
      ensures outcome == Finished ==> old(MayResume(Now(), uuid, flags) || CanBegin(Now(), flags, s))
    {
      outcome := Open(flags, s, start, total, spared);
      if outcome != Finished {
        return;
      }
      ghost var taken := Now();
      if !old(HasPending(rows)) {
        PendingIsTheLast(start, old(rows));
        assert MayBegin(old(Now()), flags, s, rows[|rows| - 1].target);
      }
      outcome := Complete(start, total, spared);
      LaterIsTransitive(old(Now()), taken, Now());
    }

    /** Takes over the open operation whatever the flags ask for, or records an intent. */
    method Open(flags: Flags, s: Surroundings, ghost start: nat, ghost total: nat, ghost spared: nat)
      returns (outcome: Outcome)
      requires flags.Ok() && Inv(start, total, Now()) && Answer(rows, uuid, flags) == None
      modifies this`rows, this`lives
      ensures Inv(start, total, Now()) && Later(old(Now()), Now())
      ensures spared <= Mib(flags.reserve) && old(Spared(spared, Now())) ==> Spared(spared, Now())
      ensures outcome != AlreadyDone
      ensures outcome in {Refused, Idle} ==> rows == old(rows)
      ensures outcome == Finished ==> HasPending(rows) && rows[|rows| - 1].target <= Mib(flags.maximum)
      ensures old(HasPending(rows)) ==> rows == old(rows) && lives == old(lives)
      ensures old(MayResume(Now(), uuid, flags)) ==> outcome == Finished
      ensures outcome == Idle <==> NothingToDo(old(rows), flags, s)
      ensures outcome == Finished && !old(HasPending(rows)) ==>
                Begun(old(rows), rows, uuid, flags, s, size, free) && lives == old(lives) - 1
                && !Known(old(rows), NewId(flags, s))
      ensures outcome == Finished && old(HasPending(rows)) ==> old(MayResume(Now(), uuid, flags))
      ensures old(CanBegin(Now(), flags, s)) && old(lives) >= 1 ==> outcome == Finished && !old(HasPending(rows))
    {
      var pending := Pending(rows);
      PendingIsTheLast(start, rows);
      if pending.Some? {
        if (flags.id != "" && flags.id != rows[pending.value].id) || rows[pending.value].target > Mib(flags.maximum) {
          return Refused;
        }
        return Finished;
      }
      NamedIsNew(rows, uuid, flags);
      outcome := Intend(flags, s, start, total, spared);
    }

    /** Any passes with any flags, each stopping anywhere. */
    method Campaign(passes: seq<(Flags, Surroundings, nat)>, ghost start: nat, ghost total: nat, ghost spared: nat)
      requires Inv(start, total, Now())
      requires forall i :: 0 <= i < |passes| ==> passes[i].0.Ok()
      modifies this`rows, this`size, this`filesystem, this`free, this`lives
      ensures Inv(start, total, Now()) && Later(old(Now()), Now())
      ensures old(Spared(spared, Now())) && (forall i :: 0 <= i < |passes| ==> spared <= Mib(passes[i].0.reserve)) ==>
                Spared(spared, Now())
    {
      for i := 0 to |passes|
        invariant Inv(start, total, Now()) && Later(old(Now()), Now())
        invariant old(Spared(spared, Now())) &&
                  (forall j :: 0 <= j < |passes| ==> spared <= Mib(passes[j].0.reserve)) ==>
                    Spared(spared, Now())
      {
        ghost var was := Now();
        lives := passes[i].2;
        var outcome := Pass(passes[i].0, passes[i].1, start, total, spared);
        LaterIsTransitive(old(Now()), was, Now());
      }
    }
  }

  lemma ResumableIsUnanswered(start: nat, total: nat, w: World, uuid: nat, flags: Flags)
    requires Inv(start, total, w)
    ensures MayResume(w, uuid, flags) ==> Answer(w.rows, uuid, flags) == None
  {
  }

  lemma RowAppended(start: nat, a: seq<Operation>, b: seq<Operation>)
    requires RowsOk(start, a) && !HasPending(a) && |b| == |a| + 1 && b[..|a|] == a
    requires Whole(b[|a|].target) && Reached(start, a, |a|) <= b[|a|].target <= Mib(CAP_MIB)
    requires forall i :: 0 <= i < |a| ==> a[i].id != b[|a|].id
    ensures RowsOk(start, b)
  {
    forall i | 0 <= i < |b| ensures RowOk(start, b, i) {
      assert i < |a| ==> RowOk(start, a, i) && b[i] == a[i];
      assert 0 < i ==> b[i - 1] == a[i - 1];
    }
    assert forall i :: 0 <= i < |a| ==> b[i] == a[i];
  }

  lemma MaximumIsUnderCap(flags: Flags)
    requires flags.Ok()
    ensures Mib(flags.maximum) <= Mib(CAP_MIB)
  {
  }

  lemma IntentKept(start: nat, total: nat, a: World, b: World)
    requires Inv(start, total, a) && !HasPending(a.rows)
    requires b == a.(rows := b.rows) && |b.rows| == |a.rows| + 1 && b.rows[..|a.rows|] == a.rows
    requires var open := b.rows[|a.rows|];
             && !open.done && Whole(open.target) && a.size <= open.target <= Mib(CAP_MIB) && open.target <= total
             && forall i :: 0 <= i < |a.rows| ==> a.rows[i].id != open.id
    ensures Inv(start, total, b) && Later(a, b)
  {
    RowAppended(start, a.rows, b.rows);
    assert forall i :: 0 <= i < |a.rows| ==> b.rows[i] == a.rows[i];
  }

  lemma PendingIsTheLast(start: nat, rows: seq<Operation>)
    requires RowsOk(start, rows)
    ensures Pending(rows) == if HasPending(rows) then Some(|rows| - 1) else None
  {
    match Pending(rows) {
      case Some(i) => assert RowOk(start, rows, i);
      case None =>
    }
  }

  lemma NamedIsNew(rows: seq<Operation>, uuid: nat, flags: Flags)
    requires Answer(rows, uuid, flags) == None && Pending(rows) == None
    ensures flags.id == "" || Find(rows, flags.id) == None
  {
  }

  lemma RowDone(start: nat, a: seq<Operation>, b: seq<Operation>)
    requires RowsOk(start, a) && a != [] && b == a[|a| - 1 := a[|a| - 1].(done := true)]
    ensures RowsOk(start, b)
  {
    forall i | 0 <= i < |b| ensures RowOk(start, b, i) {
      assert RowOk(start, a, i);
    }
  }
}

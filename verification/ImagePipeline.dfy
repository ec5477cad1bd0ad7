/**
 The image pipeline: request, verify, create the origin, unpack, seal, snapshot, activate,
 register. It may stop after any effect, because a command fails or the process dies, and
 is then run again.
 */
module ImagePipeline {
  import opened Wrappers
  import opened Extraction
  import opened FileTrees
  import opened NewestLayerWins
  import opened Volumes

  const OPERATION_LIMIT: nat := 128

  /** What one run meets outside: whether blobs can be read and the pool has room, and what LVM and a death leave. */
  datatype Conditions = Conditions(
    blobs: bool,
    roomToStart: bool,
    roomForOrigin: bool,
    roomToUnpack: bool,
    roomForSnapshot: bool,
    snapshotReadonly: bool,
    snapshotActive: bool,
    debris: Nodes)
  {
    predicate Ample() {
      blobs && roomToStart && roomForOrigin && roomToUnpack && roomForSnapshot
    }
  }

  /** At most the volume `n` is new or changed. */
  predicate OneChanged(a: map<Name, Volume>, b: map<Name, Volume>, n: Name) {
    b == a || (n in b && b == a[n := b[n]])
  }

  /** Everything but this operation's row, origin and snapshot is as before. */
  ghost predicate OnlyThis(s: Setup, a: World, b: World, id: string, image: string) {
    && (b.rows == a.rows || (id in b.rows && b.rows == a.rows[id := b.rows[id]]))
    && exists mid :: OneChanged(a.volumes, mid, s.OriginName(image)) && OneChanged(mid, b.volumes, s.SnapshotName(id))
  }

  /** The first half can succeed: nothing but this image is in the way, and the image unpacks. */
  ghost predicate CanSeal(s: Setup, volumes: map<Name, Volume>, image: string) {
    && (s.OriginName(image) in volumes ==> volumes[s.OriginName(image)].tag == ImageTag(image))
    && exists tree :: Extracted(s, image, tree)
  }

  /** The operation is new or the same as before, and its names are not taken by another image or operation. */
  ghost predicate CanFinish(s: Setup, w: World, id: string, image: string, size: nat) {
    && (if id in w.rows then w.rows[id].image == image && w.rows[id].size == size else |w.rows| < 128)
    && image in s.library && s.library[image].size == size
    && CanSeal(s, w.volumes, image)
    && (s.SnapshotName(id) in w.volumes ==> w.volumes[s.SnapshotName(id)].tag == OperationTag(id))
  }

  /** The operation is registered, and its snapshot is active. */
  ghost predicate Finished(s: Setup, w: World, id: string, image: string) {
    && id in w.rows && w.rows[id].image == image && w.rows[id].phase == Registered
    && s.SnapshotName(id) in w.volumes && w.volumes[s.SnapshotName(id)].active
  }

  /** The operation was requested before, and for the same image. */
  predicate Repeats(rows: map<string, Row>, id: string, image: string, size: nat) {
    id in rows && rows[id].image == image && rows[id].size == size
  }

  /** The run gets as far as reading the image. */
  predicate Reads(s: Setup, image: string, size: nat, c: Conditions) {
    c.roomToStart && c.blobs && image in s.library && s.library[image].size == size
  }

  predicate OriginExists(s: Setup, volumes: map<Name, Volume>, image: string) {
    s.OriginName(image) in volumes && volumes[s.OriginName(image)].tag == ImageTag(image)
  }

  predicate SnapshotExists(s: Setup, volumes: map<Name, Volume>, id: string) {
    s.SnapshotName(id) in volumes && volumes[s.SnapshotName(id)].tag == OperationTag(id)
  }

  /** An origin for an image, or a snapshot of the operation's own sealed origin. */
  ghost predicate MayCreate(s: Setup, w: World, n: Name, tag: Tag, origin: Option<Name>) {
    match tag
    case ImageTag(image) => n == s.OriginName(image) && origin == None
    case OperationTag(id) =>
      && n == s.SnapshotName(id) && id in w.rows
      && origin == Some(s.OriginName(w.rows[id].image)) && SealedOrigin(s, w.volumes, w.rows[id].image)
  }

  datatype Event =
    | Try(id: string, image: string, size: nat, conditions: Conditions, effects: nat)
    | Loss(damage: map<Name, Nodes>, markerLost: set<Name>)
    | Use(snapshot: Name, content: Content)

  function Damaged(n: Name, v: Volume, mounted: bool, damage: map<Name, Nodes>, markerLost: set<Name>): Volume {
    if n.Snapshot? then v.(active := false)
    else if mounted && !v.readonly && v.content.Filesystem? && n in damage then
      v.(content := Filesystem(damage[n], if n in markerLost then None else v.content.marker))
    else v
  }

  class Worker {
    const setup: Setup
    var volumes: map<Name, Volume>
    var mounts: set<Name>
    var nextUuid: nat
    var rows: map<string, Row>
    /** How many more effects happen before the run stops, for whatever reason. */
    var lives: nat

    ghost function Now(): World
      reads this
    {
      World(volumes, mounts, nextUuid, rows)
    }

    constructor (setup: Setup)
      ensures this.setup == setup && Inv(setup, Now()) && AllActive(setup, volumes, rows)
    {
      this.setup := setup;
      volumes, mounts, nextUuid, rows, lives := map[], {}, 0, map[], 0;
    }

    method Survives() returns (alive: bool)
      modifies this`lives
      ensures alive <==> old(lives) > 0
      ensures lives == if alive then old(lives) - 1 else 0
    {
      alive := lives > 0;
      if alive {
        lives := lives - 1;
      }
    }

    method Begin(id: string, image: string, size: nat) returns (ok: bool)
      requires Inv(setup, Now())
      modifies this`rows, this`lives
      ensures Step(setup, old(Now()), Now())
      ensures rows == old(rows)
              || (id !in old(rows)
                  && rows == old(rows)[id := Row(image, size, Requested, setup.SnapshotName(id), None)])
      ensures lives + 1 >= old(lives) && (id in old(rows) ==> lives == old(lives))
      ensures ok ==> id in rows && rows[id].image == image && rows[id].size == size
      ensures old(lives) >= 1 ==>
                (ok <==> if id in old(rows) then old(rows)[id].image == image && old(rows)[id].size == size
                         else |old(rows)| < 128)
    {
      CountOthers(rows, id);
      if |rows.Keys - {id}| >= OPERATION_LIMIT {
        return false;
      }
      if id !in rows {
        var alive := Survives();
        if !alive {
          return false;
        }
        rows := rows[id := Row(image, size, Requested, setup.SnapshotName(id), None)];
        RowsMoved(setup, old(Now()), Now());
      }
      assert id in old(rows) ==> RowOk(setup, volumes, id, old(rows)[id]);
      return rows[id].image == image && rows[id].size == size && rows[id].snapshot == setup.SnapshotName(id);
    }

    method Stage(id: string, phase: Phase) returns (ok: bool)
      requires Inv(setup, Now()) && id in rows && phase != Registered
      modifies this`rows, this`lives
      ensures Step(setup, old(Now()), Now())
      ensures lives + 1 >= old(lives)
      ensures ok <==> old(lives) >= 1
      ensures rows == if ok then old(rows)[id := old(rows)[id].(phase := phase)] else old(rows)
    {
      ok := Survives();
      if ok {
        rows := rows[id := rows[id].(phase := phase)];
        RowsMoved(setup, old(Now()), Now());
      }
    }

    /** The first stage of a rerun overwrites the phase of a registered operation; the uuid stays. */
    method PhaseGoesBack(id: string)
      requires Inv(setup, Now()) && id in rows && rows[id].phase == Registered && lives >= 1
      modifies this`rows, this`lives
      ensures Step(setup, old(Now()), Now())
      ensures rows[id].phase == Verified && rows[id].uuid.Some? && rows[id].uuid == old(rows)[id].uuid
    {
      assert RowOk(setup, volumes, id, rows[id]);
      var ok := Stage(id, Verified);
    }

    /** Inspect or create: an existing volume is taken only if its whole identity is right. */
    method Create(n: Name, tag: Tag, origin: Option<Name>, room: bool, readonly: bool, active: bool) returns (ok: bool)
      requires Inv(setup, Now()) && MayCreate(setup, Now(), n, tag, origin)
      requires origin == None ==> !readonly
      modifies this`volumes, this`nextUuid, this`lives
      ensures Step(setup, old(Now()), Now())
      ensures lives + 1 >= old(lives)
      ensures ok ==> n in volumes && volumes[n].tag == tag && volumes[n].origin == origin
      ensures ok && n !in old(volumes) ==>
                && volumes[n].readonly == readonly && volumes[n].uuid == old(nextUuid)
                && volumes[n].content == if origin == None then Blank else old(volumes)[origin.value].content
      ensures OneChanged(old(volumes), volumes, n) && (n in old(volumes) ==> volumes == old(volumes))
      ensures old(lives) >= 1 && room ==> (ok <==> (n in old(volumes) ==> old(volumes)[n].tag == tag))
    {
      if n in volumes {
        assert if n.Origin? then OriginOk(setup, n, volumes[n]) else SnapshotOk(setup, volumes, rows, n);
        return volumes[n].tag == tag && volumes[n].origin == origin;
      }
      if !room {
        return false;
      }
      var alive := Survives();
      if !alive {
        return false;
      }
      var content := if origin == None then Blank else volumes[origin.value].content;
      volumes := volumes[n := Volume(nextUuid, tag, origin, readonly, origin == None || active, content)];
      nextUuid := nextUuid + 1;
      VolumeAdded(setup, old(Now()), Now(), n);
      return true;
    }

    /** Mounts the origin read-only, compares its tree with its marker, and unmounts it. */
    method Inspect(image: string) returns (ok: bool, valid: bool)
      requires Inv(setup, Now()) && OriginExists(setup, volumes, image)
      modifies this`mounts, this`lives
      ensures Step(setup, old(Now()), Now())
      ensures lives + 2 >= old(lives) && (old(lives) >= 2 ==> ok)
      ensures ok ==> setup.OriginName(image) !in mounts
      ensures valid <==> ok && Holds(setup, image, volumes[setup.OriginName(image)].content)
    {
      var n := setup.OriginName(image);
      var content := volumes[n].content;
      assert OriginOk(setup, n, volumes[n]);
      if n !in mounts {
        if content.Blank? {
          return true, false;
        }
        ok := Survives();
        if !ok {
          return false, false;
        }
        mounts := mounts + {n};
      }
      valid := content.marker == Some(Marker(image, content.tree));
      ok := Survives();
      if !ok {
        return false, false;
      }
      mounts := mounts - {n};
    }

    /** Formats an origin that is not valid and unpacks the image into it. */
    method Unpack(image: string, c: Conditions) returns (ok: bool)
      requires setup.Ok() && Inv(setup, Now()) && OriginExists(setup, volumes, image) && image in setup.library
      requires setup.OriginName(image) !in mounts
      modifies this`volumes, this`mounts, this`lives
      ensures Step(setup, old(Now()), Now())
      ensures lives + 5 >= old(lives)
      ensures OriginExists(setup, volumes, image)
      ensures volumes == old(volumes)[setup.OriginName(image) := volumes[setup.OriginName(image)]]
      ensures ok ==> Holds(setup, image, volumes[setup.OriginName(image)].content)
      ensures old(lives) >= 5 && c.roomToUnpack && !old(volumes)[setup.OriginName(image)].readonly ==>
                (ok <==> exists tree :: Extracted(setup, image, tree))
    {
      var n := setup.OriginName(image);
      if volumes[n].readonly || !c.roomToUnpack {
        return false;
      }
      ok := Format(image);
      if !ok {
        return;
      }
      ghost var formatted := Now();
      ok := ExtractAndUnmount(image, c.debris);
      StepIsTransitive(setup, old(Now()), formatted, Now());
    }

    method ExtractAndUnmount(image: string, debris: Nodes) returns (ok: bool)
      requires setup.Ok() && Inv(setup, Now()) && OriginExists(setup, volumes, image) && image in setup.library
      requires !volumes[setup.OriginName(image)].readonly
      modifies this`volumes, this`mounts, this`lives
      ensures Step(setup, old(Now()), Now())
      ensures lives + 3 >= old(lives)
      ensures OriginExists(setup, volumes, image)
      ensures volumes == old(volumes)[setup.OriginName(image) := volumes[setup.OriginName(image)]]
      ensures ok ==> Holds(setup, image, volumes[setup.OriginName(image)].content)
      ensures old(lives) >= 3 ==> (ok <==> exists tree :: Extracted(setup, image, tree))
    {
      ok := Extract(image, debris);
      if ok {
        ok := Survives();
        if ok {
          mounts := mounts - {setup.OriginName(image)};
        }
      }
    }

    method Format(image: string) returns (ok: bool)
      requires Inv(setup, Now()) && OriginExists(setup, volumes, image)
      requires !volumes[setup.OriginName(image)].readonly
      modifies this`volumes, this`mounts, this`lives
      ensures Step(setup, old(Now()), Now())
      ensures OriginExists(setup, volumes, image) && !volumes[setup.OriginName(image)].readonly
      ensures volumes == old(volumes)[setup.OriginName(image) := volumes[setup.OriginName(image)]]
      ensures lives + 2 >= old(lives) && (ok <==> old(lives) >= 2)
    {
      ok := SetContent(image, Filesystem(map[], None));
      if ok {
        ok := Survives();
        if ok {
          mounts := mounts + {setup.OriginName(image)};
        }
      }
    }

    /** Runs the extraction; the marker is written last, so a death leaves a tree without one. */
    method Extract(image: string, debris: Nodes) returns (ok: bool)
      requires setup.Ok() && Inv(setup, Now()) && OriginExists(setup, volumes, image) && image in setup.library
      requires !volumes[setup.OriginName(image)].readonly
      modifies this`volumes, this`lives
      ensures Step(setup, old(Now()), Now())
      ensures OriginExists(setup, volumes, image)
      ensures volumes == old(volumes)[setup.OriginName(image) := volumes[setup.OriginName(image)]]
      ensures lives + 2 >= old(lives)
      ensures ok ==> Holds(setup, image, volumes[setup.OriginName(image)].content)
      ensures old(lives) >= 2 ==> (ok <==> exists tree :: Extracted(setup, image, tree))
    {
      ok := SetContent(image, Filesystem(debris, None));
      if !ok {
        return;
      }
      ghost var partial := Now();
      ok := FinishTree(image);
      TwoContents(setup, old(Now()), partial, Now(), setup.OriginName(image));
    }

    method FinishTree(image: string) returns (ok: bool)
      requires setup.Ok() && Inv(setup, Now()) && OriginExists(setup, volumes, image) && image in setup.library
      requires !volumes[setup.OriginName(image)].readonly
      modifies this`volumes, this`lives
      ensures Step(setup, old(Now()), Now())
      ensures OriginExists(setup, volumes, image)
      ensures volumes == old(volumes)[setup.OriginName(image) := volumes[setup.OriginName(image)]]
      ensures lives + 1 >= old(lives)
      ensures ok ==> Holds(setup, image, volumes[setup.OriginName(image)].content)
      ensures old(lives) >= 1 ==> (ok <==> exists tree :: Extracted(setup, image, tree))
    {
      var tree;
      ok, tree := ExtractedTree(image);
      if ok {
        ok := SetContent(image, Filesystem(tree, Some(Marker(image, tree))));
      }
    }

    /** The extraction itself, over the empty filesystem. */
    method ExtractedTree(image: string) returns (ok: bool, tree: Nodes)
      requires setup.Ok() && image in setup.library
      ensures ok ==> Extracted(setup, image, tree)
      ensures !ok ==> forall other :: !Extracted(setup, image, other)
    {
      var layers := setup.library[image].layers;
      var files := new FileTree(map[]);
      ghost var trees;
      ok, trees := files.ApplyLayers(layers);
      tree := files.nodes;
      if ok {
        assert UnpackedBy(layers, trees, tree);
      } else {
        NothingToExtract(setup, image, trees);
      }
    }

    /** One effect on the content of an origin that is not sealed. */
    method SetContent(image: string, content: Content) returns (ok: bool)
      requires Inv(setup, Now()) && OriginExists(setup, volumes, image)
      requires !volumes[setup.OriginName(image)].readonly
      requires content.Filesystem? && MarkerIsTrue(setup, image, content)
      modifies this`volumes, this`lives
      ensures Step(setup, old(Now()), Now())
      ensures OriginExists(setup, volumes, image)
      ensures lives == (if ok then old(lives) - 1 else 0) && (ok <==> old(lives) >= 1)
      ensures var n := setup.OriginName(image);
              volumes == if ok then old(volumes)[n := old(volumes)[n].(content := content)] else old(volumes)
    {
      var n := setup.OriginName(image);
      ok := Survives();
      if ok {
        assert OriginOk(setup, n, volumes[n]);
        volumes := volumes[n := volumes[n].(content := content)];
        VolumeMoved(setup, old(Now()), Now(), n);
      }
    }

    method Seal(image: string) returns (ok: bool)
      requires Inv(setup, Now()) && OriginExists(setup, volumes, image)
      requires Holds(setup, image, volumes[setup.OriginName(image)].content)
      modifies this`volumes, this`lives
      ensures Step(setup, old(Now()), Now())
      ensures lives + 1 >= old(lives) && (old(lives) >= 1 ==> ok)
      ensures ok ==> SealedOrigin(setup, volumes, image)
      ensures var n := setup.OriginName(image);
              volumes == old(volumes) || volumes == old(volumes)[n := old(volumes)[n].(readonly := true)]
    {
      var n := setup.OriginName(image);
      if volumes[n].readonly {
        return true;
      }
      ok := Survives();
      if ok {
        assert OriginOk(setup, n, volumes[n]);
        volumes := volumes[n := volumes[n].(readonly := true)];
        VolumeMoved(setup, old(Now()), Now(), n);
      }
    }

    /** Checks the snapshot against the recorded uuid, then makes it writable and active. */
    method Activate(id: string) returns (ok: bool)
      requires Inv(setup, Now()) && id in rows && SnapshotExists(setup, volumes, id)
      modifies this`volumes, this`lives
      ensures Step(setup, old(Now()), Now())
      ensures SnapshotExists(setup, volumes, id)
      ensures lives + 2 >= old(lives) && (old(lives) >= 2 ==> ok)
      ensures volumes == old(volumes)[setup.SnapshotName(id) := volumes[setup.SnapshotName(id)]]
      ensures var v := volumes[setup.SnapshotName(id)];
              ok ==> v.active && !v.readonly && (rows[id].uuid.Some? ==> rows[id].uuid == Some(v.uuid))
    {
      var n := setup.SnapshotName(id);
      assert RowOk(setup, volumes, id, rows[id]);
      if rows[id].uuid.Some? && rows[id].uuid != Some(volumes[n].uuid) {
        return false;
      }
      ok := true;
      if volumes[n].readonly {
        ok := Survives();
        if !ok {
          return;
        }
        ghost var was := Now();
        volumes := volumes[n := volumes[n].(readonly := false)];
        VolumeMoved(setup, was, Now(), n);
      }
      if !volumes[n].active {
        ok := Survives();
        if !ok {
          return;
        }
        ghost var was := Now();
        volumes := volumes[n := volumes[n].(active := true)];
        VolumeMoved(setup, was, Now(), n);
        StepIsTransitive(setup, old(Now()), was, Now());
      }
    }

    method Register(id: string) returns (ok: bool)
      requires Inv(setup, Now()) && id in rows && SnapshotExists(setup, volumes, id)
      requires var v := volumes[setup.SnapshotName(id)];
               v.active && !v.readonly && (rows[id].uuid.Some? ==> rows[id].uuid == Some(v.uuid))
      modifies this`rows, this`lives
      ensures Step(setup, old(Now()), Now())
      ensures ok <==> old(lives) >= 1
      ensures var uuid := volumes[setup.SnapshotName(id)].uuid;
              rows == if ok then old(rows)[id := old(rows)[id].(phase := Registered, uuid := Some(uuid))] else old(rows)
    {
      ok := Survives();
      if ok {
        rows := rows[id := rows[id].(phase := Registered, uuid := Some(volumes[setup.SnapshotName(id)].uuid))];
        RowRegistered(setup, old(Now()), Now(), id);
      }
    }

    /** Up to a sealed origin. */
    method Prepare(image: string, c: Conditions) returns (ok: bool)
      requires setup.Ok() && Inv(setup, Now()) && image in setup.library
      modifies this`volumes, this`mounts, this`nextUuid, this`lives
      ensures Step(setup, old(Now()), Now())
      ensures lives + 9 >= old(lives)
      ensures OneChanged(old(volumes), volumes, setup.OriginName(image))
      ensures ok ==> SealedOrigin(setup, volumes, image)
      ensures c.Ample() && old(lives) >= 9 ==> (ok <==> CanSeal(setup, old(volumes), image))
    {
      ok := Create(setup.OriginName(image), ImageTag(image), None, c.roomForOrigin, false, true);
      if !ok {
        return;
      }
      ghost var created := Now();
      ok := FillAndSeal(image, c);
      StepIsTransitive(setup, old(Now()), created, Now());
    }

    method FillAndSeal(image: string, c: Conditions) returns (ok: bool)
      requires setup.Ok() && Inv(setup, Now()) && image in setup.library && OriginExists(setup, volumes, image)
      modifies this`volumes, this`mounts, this`lives
      ensures Step(setup, old(Now()), Now())
      ensures lives + 8 >= old(lives)
      ensures OneChanged(old(volumes), volumes, setup.OriginName(image))
      ensures ok ==> SealedOrigin(setup, volumes, image)
      ensures c.Ample() && old(lives) >= 8 ==> (ok <==> exists tree :: Extracted(setup, image, tree))
    {
      ok := Fill(image, c);
      if !ok {
        return;
      }
      ghost var filled := Now();
      ok := Seal(image);
      StepIsTransitive(setup, old(Now()), filled, Now());
    }

    /** Leaves a valid origin alone; a sealed one that is not valid would be an error, never reformatted. */
    method Fill(image: string, c: Conditions) returns (ok: bool)
      requires setup.Ok() && Inv(setup, Now()) && image in setup.library && OriginExists(setup, volumes, image)
      modifies this`volumes, this`mounts, this`lives
      ensures Step(setup, old(Now()), Now())
      ensures lives + 7 >= old(lives)
      ensures OriginExists(setup, volumes, image) && OneChanged(old(volumes), volumes, setup.OriginName(image))
      ensures ok ==> Holds(setup, image, volumes[setup.OriginName(image)].content)
      ensures c.Ample() && old(lives) >= 7 ==> (ok <==> exists tree :: Extracted(setup, image, tree))
    {
      var valid;
      ok, valid := Inspect(image);
      if !ok || valid {
        return;
      }
      ghost var inspected := Now();
      assert OriginOk(setup, setup.OriginName(image), volumes[setup.OriginName(image)]);
      ok := Unpack(image, c);
      StepIsTransitive(setup, old(Now()), inspected, Now());
    }

    /** From a sealed origin to a registered snapshot. */
    method Attach(id: string, c: Conditions) returns (ok: bool)
      requires Inv(setup, Now()) && id in rows && SealedOrigin(setup, volumes, rows[id].image)
      modifies this`volumes, this`nextUuid, this`rows, this`lives
      ensures Step(setup, old(Now()), Now())
      ensures id in rows && rows == old(rows)[id := rows[id]]
      ensures OneChanged(old(volumes), volumes, setup.SnapshotName(id))
      ensures ok ==> Finished(setup, Now(), id, old(rows)[id].image)
      ensures c.Ample() && old(lives) >= 4 ==>
                (ok <==> setup.SnapshotName(id) in old(volumes) ==> SnapshotExists(setup, old(volumes), id))
      ensures !ok ==> rows == old(rows)
    {
      ok := Create(setup.SnapshotName(id), OperationTag(id), Some(setup.OriginName(rows[id].image)),
                   c.roomForSnapshot, c.snapshotReadonly, c.snapshotActive);
      if !ok {
        return;
      }
      ghost var created := Now();
      ok := ActivateAndRegister(id);
      StepIsTransitive(setup, old(Now()), created, Now());
    }

    method ActivateAndRegister(id: string) returns (ok: bool)
      requires Inv(setup, Now()) && id in rows && SnapshotExists(setup, volumes, id)
      modifies this`volumes, this`rows, this`lives
      ensures Step(setup, old(Now()), Now())
      ensures id in rows && rows == old(rows)[id := rows[id]]
      ensures OneChanged(old(volumes), volumes, setup.SnapshotName(id))
      ensures ok ==> Finished(setup, Now(), id, old(rows)[id].image)
      ensures old(lives) >= 3 ==> ok
      ensures !ok ==> rows == old(rows)
    {
      ok := Activate(id);
      if !ok {
        return;
      }
      ghost var activated := Now();
      ok := Register(id);
      StepIsTransitive(setup, old(Now()), activated, Now());
    }

    /** One run of an operation. Given room, blobs and sixteen effects it finishes exactly when it can. */
    method Run(id: string, image: string, size: nat, c: Conditions) returns (done: bool)
      requires setup.Ok() && Inv(setup, Now())
      modifies this
      ensures Step(setup, old(Now()), Now())
      ensures OnlyThis(setup, old(Now()), Now(), id, image)
      ensures done ==> Finished(setup, Now(), id, image)
      ensures c.Ample() && old(lives) >= 16 ==> (done <==> CanFinish(setup, old(Now()), id, image, size))
      ensures old(lives) >= 1 && old(Repeats(rows, id, image, size)) && Reads(setup, image, size, c) ==>
                id in rows && (rows[id].phase == Registered <==> done)
      ensures old(lives) >= 16 && old(Repeats(rows, id, image, size)) && Reads(setup, image, size, c) && c.Ample() ==>
                id in rows && (rows[id].phase == Registered <==> CanFinish(setup, old(Now()), id, image, size))
    {
      assert OneChanged(volumes, volumes, setup.OriginName(image));
      assert OneChanged(volumes, volumes, setup.SnapshotName(id));
      done := Begin(id, image, size);
      if !done {
        return;
      }
      if !c.roomToStart || !c.blobs || image !in setup.library || setup.library[image].size != size {
        return false;
      }
      ghost var begun := Now();
      done := Proceed(id, c);
      StepIsTransitive(setup, old(Now()), begun, Now());
    }

    method Proceed(id: string, c: Conditions) returns (done: bool)
      requires setup.Ok() && Inv(setup, Now()) && id in rows && rows[id].image in setup.library
      modifies this`volumes, this`mounts, this`nextUuid, this`rows, this`lives
      ensures Step(setup, old(Now()), Now())
      ensures OnlyThis(setup, old(Now()), Now(), id, old(rows)[id].image)
      ensures done ==> Finished(setup, Now(), id, old(rows)[id].image)
      ensures c.Ample() && old(lives) >= 15 ==>
                (done <==> CanSeal(setup, old(volumes), old(rows)[id].image)
                           && (setup.SnapshotName(id) in old(volumes) ==> SnapshotExists(setup, old(volumes), id)))
      ensures !done && old(lives) >= 1 ==> id in rows && rows[id].phase != Registered
    {
      assert OneChanged(volumes, volumes, setup.OriginName(rows[id].image));
      assert OneChanged(volumes, volumes, setup.SnapshotName(id));
      done := Stage(id, Verified);
      if !done {
        return;
      }
      ghost var verified := Now();
      done := PrepareAndAttach(id, c);
      StepIsTransitive(setup, old(Now()), verified, Now());
    }

    method PrepareAndAttach(id: string, c: Conditions) returns (done: bool)
      requires setup.Ok() && Inv(setup, Now()) && id in rows && rows[id].image in setup.library
      modifies this`volumes, this`mounts, this`nextUuid, this`rows, this`lives
      ensures Step(setup, old(Now()), Now())
      ensures OnlyThis(setup, old(Now()), Now(), id, old(rows)[id].image)
      ensures done ==> Finished(setup, Now(), id, old(rows)[id].image)
      ensures c.Ample() && old(lives) >= 14 ==>
                (done <==> CanSeal(setup, old(volumes), old(rows)[id].image)
                           && (setup.SnapshotName(id) in old(volumes) ==> SnapshotExists(setup, old(volumes), id)))
      ensures !done && old(rows)[id].phase != Registered ==> id in rows && rows[id].phase != Registered
    {
      done := Prepare(rows[id].image, c);
      assert OneChanged(volumes, volumes, setup.SnapshotName(id));
      if !done {
        return;
      }
      ghost var prepared := Now();
      done := SealAndAttach(id, c);
      StepIsTransitive(setup, old(Now()), prepared, Now());
    }

    method SealAndAttach(id: string, c: Conditions) returns (done: bool)
      requires Inv(setup, Now()) && id in rows && SealedOrigin(setup, volumes, rows[id].image)
      modifies this`volumes, this`nextUuid, this`rows, this`lives
      ensures Step(setup, old(Now()), Now())
      ensures id in rows && rows == old(rows)[id := rows[id]]
      ensures OneChanged(old(volumes), volumes, setup.SnapshotName(id))
      ensures done ==> Finished(setup, Now(), id, old(rows)[id].image)
      ensures c.Ample() && old(lives) >= 5 ==>
                (done <==> setup.SnapshotName(id) in old(volumes) ==> SnapshotExists(setup, old(volumes), id))
      ensures !done && old(rows)[id].phase != Registered ==> rows[id].phase != Registered
    {
      done := Stage(id, Sealed);
      if !done {
        return;
      }
      ghost var sealing := Now();
      done := Attach(id, c);
      TwoRows(setup, old(Now()), sealing, Now(), id);
    }

    /** The machine loses power: unsynced trees of mounted, unsealed origins may be anything, marker kept or lost. */
    method PowerLoss(damage: map<Name, Nodes>, markerLost: set<Name>)
      requires Inv(setup, Now())
      modifies this`volumes, this`mounts, this`lives
      ensures Inv(setup, Now()) && Later(old(Now()), Now()) && mounts == {} && rows == old(rows)
      ensures volumes.Keys == old(volumes).Keys
      ensures forall n :: n in volumes && n.Snapshot? ==> volumes[n] == old(volumes)[n].(active := false)
      ensures forall n :: n in volumes && n.Origin? && (n !in old(mounts) || old(volumes)[n].readonly) ==>
                volumes[n] == old(volumes)[n]
      ensures forall n :: n in volumes && n in old(mounts) && !old(volumes)[n].readonly && n in damage ==>
                && volumes[n].content.Filesystem? && volumes[n].content.tree == damage[n]
                && (n in markerLost ==> volumes[n].content.marker == None)
    {
      volumes := map n | n in volumes :: Damaged(n, volumes[n], n in mounts, damage, markerLost);
      mounts, lives := {}, 0;
      AfterPowerLoss(setup, old(Now()), Now());
    }

    /** The operation's machine writes to its snapshot. */
    method Write(n: Name, content: Content)
      requires Inv(setup, Now()) && n.Snapshot? && n in volumes
      modifies this`volumes
      ensures Step(setup, old(Now()), Now())
      ensures volumes == old(volumes)[n := old(volumes)[n].(content := content)]
    {
      volumes := volumes[n := volumes[n].(content := content)];
      VolumeMoved(setup, old(Now()), Now(), n);
    }

    /** Any runs of any operations on any images, each stopping anywhere, with power losses and use between them. */
    method Campaign(events: seq<Event>)
      requires setup.Ok() && Inv(setup, Now())
      modifies this
      ensures Inv(setup, Now()) && Later(old(Now()), Now())
      ensures old(AllActive(setup, volumes, rows)) && (forall i :: 0 <= i < |events| ==> !events[i].Loss?) ==>
                AllActive(setup, volumes, rows)
    {
      LaterIsReflexive(Now());
      for i := 0 to |events|
        invariant Inv(setup, Now()) && Later(old(Now()), Now())
        invariant old(AllActive(setup, volumes, rows)) && (forall j :: 0 <= j < i ==> !events[j].Loss?) ==>
                    AllActive(setup, volumes, rows)
      {
        ghost var was := Now();
        match events[i] {
          case Try(id, image, size, c, effects) =>
            lives := effects;
            var done := Run(id, image, size, c);
          case Loss(damage, markerLost) =>
            PowerLoss(damage, markerLost);
          case Use(n, content) =>
            if n.Snapshot? && n in volumes {
              Write(n, content);
            }
        }
        LaterIsTransitive(old(Now()), was, Now());
      }
    }
  }

  lemma TwoContents(s: Setup, a: World, b: World, c: World, n: Name)
    requires Step(s, a, b) && Step(s, b, c) && n in b.volumes && n in c.volumes
    requires b.volumes == a.volumes[n := b.volumes[n]] && c.volumes == b.volumes[n := c.volumes[n]]
    ensures Step(s, a, c) && c.volumes == a.volumes[n := c.volumes[n]]
  {
    StepIsTransitive(s, a, b, c);
  }

  lemma TwoRows(s: Setup, a: World, b: World, c: World, id: string)
    requires Step(s, a, b) && Step(s, b, c) && id in a.rows && id in b.rows && id in c.rows
    requires b.rows == a.rows[id := b.rows[id]] && c.rows == b.rows[id := c.rows[id]]
    ensures Step(s, a, c) && c.rows == a.rows[id := c.rows[id]]
  {
    StepIsTransitive(s, a, b, c);
  }

  lemma CountOthers(rows: map<string, Row>, id: string)
    ensures |rows.Keys - {id}| == if id in rows then |rows| - 1 else |rows|
  {
    if id !in rows {
      assert rows.Keys - {id} == rows.Keys;
    }
  }

  /// Each effect keeps everything

  predicate RowMoved(s: Setup, a: World, b: World, id: string)
    requires id in b.rows
  {
    if id in a.rows then
      b.rows[id] == a.rows[id]
      || (b.rows[id].phase != Registered && b.rows[id] == a.rows[id].(phase := b.rows[id].phase))
    else
      b.rows[id].snapshot == s.SnapshotName(id) && b.rows[id].uuid == None && b.rows[id].phase != Registered
  }

  lemma RowsMoved(s: Setup, a: World, b: World)
    requires Inv(s, a) && b == a.(rows := b.rows)
    requires forall id {:trigger id in b.rows} :: id in b.rows ==> RowMoved(s, a, b, id)
    requires a.rows.Keys <= b.rows.Keys && |b.rows| <= 128
    ensures Step(s, a, b)
  {
    forall id | id in b.rows ensures RowOk(s, b.volumes, id, b.rows[id]) {
      assert RowMoved(s, a, b, id);
      assert id in a.rows ==> RowOk(s, a.volumes, id, a.rows[id]);
    }
    forall id | id in a.rows ensures id in b.rows && RowLater(a.rows[id], b.rows[id]) {
      assert id in b.rows && RowMoved(s, a, b, id);
    }
    SnapshotsKept(s, a, b);
    if AllActive(s, a.volumes, a.rows) {
      forall id | id in b.rows ensures ActiveIfRegistered(s, b.volumes, id, b.rows[id]) {
        assert RowMoved(s, a, b, id);
        assert id in a.rows ==> ActiveIfRegistered(s, a.volumes, id, a.rows[id]);
      }
    }
  }

  lemma SealedOriginStays(s: Setup, a: map<Name, Volume>, b: map<Name, Volume>, image: string)
    requires SealedOrigin(s, a, image) && VolumesLater(a, b)
    ensures SealedOrigin(s, b, image)
  {
    assert s.OriginName(image) in b;
  }

  /** Snapshots stay sound, and so do new ones that came sound. */
  lemma SnapshotsKept(s: Setup, a: World, b: World)
    requires SnapshotsOk(s, a.volumes, a.rows)
    requires VolumesLater(a.volumes, b.volumes) && RowsLater(a.rows, b.rows)
    requires forall n :: n in b.volumes && n !in a.volumes ==> n.Origin?
    ensures SnapshotsOk(s, b.volumes, b.rows)
  {
    forall n | n in b.volumes && n.Snapshot? ensures SnapshotOk(s, b.volumes, b.rows, n) {
      SnapshotKept(s, a, b, n);
    }
  }

  lemma SnapshotKept(s: Setup, a: World, b: World, n: Name)
    requires SnapshotsOk(s, a.volumes, a.rows) && n.Snapshot? && n in a.volumes
    requires VolumesLater(a.volumes, b.volumes) && RowsLater(a.rows, b.rows)
    ensures n in b.volumes && SnapshotOk(s, b.volumes, b.rows, n)
  {
    assert n in b.volumes && SnapshotOk(s, a.volumes, a.rows, n);
    var id := a.volumes[n].tag.id;
    assert id in b.rows;
    SealedOriginStays(s, a.volumes, b.volumes, a.rows[id].image);
  }

  /** The volume `n` of `b` may be new or changed; nothing else is. */
  predicate OneVolume(a: World, b: World, n: Name) {
    && n in b.volumes && b.volumes == a.volumes[n := b.volumes[n]]
    && b.mounts == a.mounts && b.rows == a.rows
  }

  lemma RowsKept(s: Setup, a: World, b: World, n: Name)
    requires RowsOk(s, a.volumes, a.rows) && OneVolume(a, b, n)
    requires n in a.volumes ==> VolumeLater(n, a.volumes[n], b.volumes[n])
    requires n in a.volumes && b.volumes[n].readonly ==> a.volumes[n].readonly || n.Origin?
    ensures RowsOk(s, b.volumes, b.rows)
  {
    forall id | id in b.rows ensures RowOk(s, b.volumes, id, b.rows[id]) {
      assert RowOk(s, a.volumes, id, a.rows[id]);
    }
  }

  lemma ActiveKept(s: Setup, a: World, b: World, n: Name)
    requires AllActive(s, a.volumes, a.rows) && OneVolume(a, b, n)
    requires n.Snapshot? && n in a.volumes && a.volumes[n].active ==> b.volumes[n].active
    ensures AllActive(s, b.volumes, b.rows)
  {
    forall id | id in b.rows ensures ActiveIfRegistered(s, b.volumes, id, b.rows[id]) {
      assert ActiveIfRegistered(s, a.volumes, id, a.rows[id]);
    }
  }

  lemma VolumeAdded(s: Setup, a: World, b: World, n: Name)
    requires Inv(s, a) && OneVolume(a, b, n) && n !in a.volumes && b.nextUuid == a.nextUuid + 1
    requires b.volumes[n].uuid == a.nextUuid
    requires if n.Origin? then OriginOk(s, n, b.volumes[n]) else SnapshotOk(s, b.volumes, a.rows, n)
    ensures Step(s, a, b)
  {
    RowsKept(s, a, b, n);
    forall m | m in b.volumes && m.Origin? ensures OriginOk(s, m, b.volumes[m]) {
      assert m != n ==> OriginOk(s, m, a.volumes[m]);
    }
    forall m | m in b.volumes && m.Snapshot? ensures SnapshotOk(s, b.volumes, b.rows, m) {
      if m != n { SnapshotKept(s, a, b, m); }
    }
    if AllActive(s, a.volumes, a.rows) { ActiveKept(s, a, b, n); }
  }

  lemma VolumeMoved(s: Setup, a: World, b: World, n: Name)
    requires Inv(s, a) && OneVolume(a, b, n) && n in a.volumes && b.nextUuid == a.nextUuid
    requires VolumeLater(n, a.volumes[n], b.volumes[n])
    requires if n.Origin? then OriginOk(s, n, b.volumes[n]) && b.volumes[n].content.Filesystem?
             else (b.volumes[n].readonly ==> a.volumes[n].readonly) && (a.volumes[n].active ==> b.volumes[n].active)
    ensures Step(s, a, b)
  {
    RowsKept(s, a, b, n);
    forall m | m in b.volumes && m.Origin? ensures OriginOk(s, m, b.volumes[m]) {
      assert m != n ==> OriginOk(s, m, a.volumes[m]);
    }
    SnapshotsKept(s, a, b);
    if AllActive(s, a.volumes, a.rows) { ActiveKept(s, a, b, n); }
  }

  lemma RowRegistered(s: Setup, a: World, b: World, id: string)
    requires Inv(s, a) && id in a.rows && id in b.rows && SnapshotExists(s, a.volumes, id)
    requires b == a.(rows := a.rows[id := b.rows[id]])
    requires var v := a.volumes[s.SnapshotName(id)];
             && v.active && !v.readonly && (a.rows[id].uuid.Some? ==> a.rows[id].uuid == Some(v.uuid))
             && b.rows[id] == a.rows[id].(phase := Registered, uuid := Some(v.uuid))
    ensures Step(s, a, b)
  {
    assert b.rows.Keys == a.rows.Keys;
    assert |b.rows| == |b.rows.Keys| == |a.rows|;
    forall other | other in b.rows ensures RowOk(s, b.volumes, other, b.rows[other]) {
      assert RowOk(s, a.volumes, other, a.rows[other]);
    }
    SnapshotsKept(s, a, b);
    if AllActive(s, a.volumes, a.rows) {
      forall other | other in b.rows ensures ActiveIfRegistered(s, b.volumes, other, b.rows[other]) {
        assert ActiveIfRegistered(s, a.volumes, other, a.rows[other]);
      }
    }
  }

  lemma NothingToExtract(s: Setup, image: string, trees: seq<Nodes>)
    requires image in s.library
    requires Chain(map[], s.library[image].layers, trees) && |trees| <= |s.library[image].layers|
    requires !Applies(trees[|trees| - 1], s.library[image].layers[|trees| - 1])
    ensures forall tree :: !Extracted(s, image, tree)
  {
    forall tree ensures !Extracted(s, image, tree) {
      StuckNeverUnpacks(s.library[image].layers, trees, tree);
    }
  }

  lemma AfterPowerLoss(s: Setup, a: World, b: World)
    requires Inv(s, a) && b.mounts == {} && b.rows == a.rows && b.nextUuid == a.nextUuid
    requires b.volumes.Keys == a.volumes.Keys
    requires forall n :: n in a.volumes ==>
               exists mounted, damage, markerLost ::
                 b.volumes[n] == Damaged(n, a.volumes[n], mounted, damage, markerLost)
    ensures Inv(s, b) && Later(a, b)
  {
    forall n | n in b.volumes && n.Origin? ensures OriginOk(s, n, b.volumes[n]) {
      assert OriginOk(s, n, a.volumes[n]);
    }
    SnapshotsKept(s, a, b);
    forall id | id in b.rows ensures RowOk(s, b.volumes, id, b.rows[id]) {
      assert RowOk(s, a.volumes, id, a.rows[id]);
    }
  }

  lemma LaterIsReflexive(a: World)
    ensures Later(a, a)
  {
  }
}

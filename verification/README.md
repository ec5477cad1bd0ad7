# A model of the edge lab's control and data paths

This project models the parts of the repository that must stay right across crashes,
lost messages and reruns, and proves what they promise. Everything is plain Dafny;
`dafny verify dfyconfig.toml` checks it.

## What is modelled

**The routing history** (`History`, `Routing`, `Soundness`, `Budget`, `Router`, `Startup`, `Server`,
`ServerRuns`, and in plain terms `RouterLaws`, `FenceLaws`, `Json`).
A router folds complete snapshots from many owners into one state. `Routing` states `accept`,
`freeze`, `recover`, `after_restart` and `validate_metadata` branch by branch, in the order of the
source, together with the length of the JSON encoding (decimal digits, quoted strings against
`null`, `true` against `false`, text forms of IPv4 and IPv6 endpoints). Five source files rely on
one order on histories: nothing is omitted, id, application and endpoint are fixed, revisions only
rise, deletion is permanent, and an equal revision means an equal record. `History` defines that
order once, and most theorems say that a step moves up in it. `Soundness` gives the global
predicate that a router's state satisfies and proves that `accept` and `recover` succeed exactly
when it is kept. `Server` is the concurrent program around it: authentication before the writer
lock, a save that may fail before or after its rename, activation after the save, and two ways to
stop at any point: the process dies and the next one reads the file last renamed, synced or not, or
the power fails and any file since the last completed directory sync may be back. `ServerRuns` says
what holds over all of its runs, and `Server` that it refines the atomic router of `Router` as long
as no power loss returns an older file than was last loaded.

`RouterLaws` and `FenceLaws` say, on every state the server can reach, exactly when each request is
taken and what it leaves, without the predicates the transitions are built from; `Json` writes the
encoding out and proves that what admission measures is the length of that text.

**Workers and convergence** (`Worker`, `Convergence`). A worker appends to its snapshot by
idempotent operations and republishes it; a router may get any of these snapshots late, twice, out
of order or never.

**Recovery** (`Join`, `Recovery`, `RecoveryRuns`, `RecoveryCompletes`, `RecoveryHistory`,
`RecoveryResult`). The journalled
recovery of a restored worker as a state machine: one step per durable effect or router call, crashes
between any two, calls that a router takes only after the process gave up on them, while other
publishers and router restarts go on. Runs are followed up to the first completion.

**The proxy's view** (`ProxyView`, `ProxyRuns`). Validation against the cached view, targets and
ports, and the update loop over two routers with failing saves, deaths and power losses, with the
files of the cache kept apart in the same way.

**Layer extraction** (`LayerReading`, `Extraction`, `FileTrees`, `NewestLayerWins`, `LayerNames`). The checks on
the entries of a layer while it is read, and the three passes of `applyLayers` over a file tree, in
place, against the meaning that the OCI Image Layer Filesystem Changeset specification (sections
"Whiteouts" and "Opaque Whiteout") gives to a set of entries.

**The image pipeline** (`Volumes`, `ImagePipeline`). Operation rows, thin volumes and mounts. A run
is given a number of effects after which it stops, which covers failing commands and dying
processes alike; power losses may damage trees that were not yet sealed. The unpack step calls the
extraction above.

**Volume growth** (`Growth`). The intent table, the volume, its filesystem and the free space of
the group, with runs that stop after any effect.

**Static reload and admission** (`ProxyReload`). Numbered reloads with one validation in flight and
one waiting request, and admission objects that survive reloads through weak references. Start-up
is modelled as the validation of generation 0.

## Results where the obvious claim is false

Each has a lemma at an input, in `Witnesses` where it takes a whole run, and an exact condition.

- The recovery merge takes the larger revision and the OR of the deletions. Against the order that
  routers enforce this is *not* an upper bound: if one router holds a record live and the other, or
  the restored backup, holds it deleted under the same revision, the merged record differs from an
  accepted one under an equal revision and the router refuses it
  (`Join.DivergedHistoriesDoNotMerge`). It is an upper bound exactly when every record is settled
  (`Join.MergedExtendsExactly`, `RecoveryCompletes.HistoryAllowsExactly`), which is always so when
  all three lie on one worker history (`Join.OneHistorySettles`). A refused result is already
  journalled, so the recovery stays stuck for ever (`RecoveryCompletes.RefusalIsFinal`). Two lives of
  a worker that was restored without recovery lead there (`Witnesses.PublishedLivesGetStuck`). Nothing
  is lost or published meanwhile.
- The order of entries inside a layer never changes what a successful extraction leaves, but it
  decides whether it succeeds, for entries (`NewestLayerWins.OrderDecidesSuccess`) and for whiteouts
  (`NewestLayerWins.WhiteoutOrderDecidesSuccess`). `NewestLayerWins.AppliesExactly` says when a layer
  applies in its order; listing shorter paths first is always best
  (`NewestLayerWins.ShallowFirstApplies`).
- Successive active states of a router need not rise. Loading a state file syncs nothing, so a
  candidate that was renamed but not synced may be read and served by the next process and then be
  gone after a power loss (`Witnesses.ActiveGoesBack`). They form one chain exactly when no power loss
  returns a file older than the one loaded since the last completed sync (`ServerRuns.ChainIsExact`).
  Nothing acknowledged is lost in any case (`ServerRuns.AcknowledgedSurvives`, `ServerRuns.FenceHolds`).
- For the same reason a deleted endpoint may become a target of a proxy again
  (`Witnesses.DeletionReturns`); it stays gone exactly when no power loss returns a cache file that
  lacks a deletion of the one last loaded (`ProxyRuns.NoResurrection`), and always once the view was
  saved to the end (`ProxyRuns.SavedDeletionsStayGone`).
- Successive contents of the state file need not rise: after a failed directory sync an older
  publication may replace a newer candidate (`Witnesses.FileGoesBack`). They rise exactly when the
  request carries what the requests of the unsynced files brought (`ServerRuns.RenameRises`).
- The phase column of an image operation goes backwards on a rerun
  (`ImagePipeline.Worker.PhaseGoesBack`): once a repeated run has read its image, the operation is
  registered again exactly if that run finishes (`ImagePipeline.Worker.Run`). Only the uuid is stable,
  and the invariant is stated on it.
- `accept` lets a new owner start at any incarnation (`Router.FirstIncarnationIsFree`,
  `Witnesses.SecondIncarnationFirst`); it is `publish` that demands 1
  (`Router.FirstSnapshotIsInitial`), so `Router.ReachableShape` holds of the server and not of
  `accept` alone.

## Model

| member | source | states |
|---|---|---|
| `History.ExtendsIsTransitive` | routing/src/lib.rs:219-230 | Second law: what extends an extension extends the original, so deliveries may be skipped. |
| `History.ExtendsIsAntisymmetric` | routing/src/lib.rs:219-230 | Third law: two histories that extend each other are equal, because an equal revision means an equal record. |
| `History.SnapshotExtendsIsTransitive` | routing/src/lib.rs:206-231 | The order on whole snapshots of one owner composes as well: same incarnation and rising revision, or a newer incarnation with an extended history. |
| `Soundness.AcceptIsExact` | routing/src/lib.rs:196-323 | On a sound state `accept` succeeds exactly when the owner speaks for itself, the generation is not exhausted, the snapshot follows the previous one, and the state with it in place satisfies the global predicate: well-formed records, endpoints held by one record across all owners, worst-case size within the limit. The result is that state. |
| `Soundness.ReservationsAreExact` | routing/src/lib.rs:232-276 | The reservation map built owner by owner, in which a later duplicate would overwrite an earlier one, answers for every holder: its check passes exactly when the new endpoints are distinct and free. |
| `Soundness.RecoverIsExact` | routing/src/lib.rs:137-187 | For an operation not yet recorded `recover` succeeds exactly when the fence matches, the incarnation is newer, the history is extended and the recovered state is sound. |
| `Soundness.DeletionIsAlwaysAccepted` | routing/src/lib.rs:295-321 | The deletion reserve: a snapshot that only deletes live records under new revisions is accepted on every sound state, whatever the record and byte capacity left. |
| `Budget.EncodingWithinReserve` | routing/src/lib.rs:295-321 | Whatever the numbers, flags and fences of a state with valid metadata are, its JSON encoding is no longer than the inflated copy that admission measured. |
| `Budget.ReserveIsMonotone` | routing/src/lib.rs:295-321 | The inflated size depends on owners, ids, applications and endpoints alone, and only grows with them: revisions, deletions and fences are free. |
| `Budget.AdmittedStaysEncodable` | routing/src/lib.rs:295-321 | What admission is for: whatever revisions, deletions and fences make of a state that fitted, and whatever is missing from it, it still encodes within the limit. |
| `Router.StepKeeps` | routing/src/main.rs:79-199 | Every publication, fence, recovery and restart keeps the invariant of the router and moves up in the history order. |
| `Router.RunKeeps` | routing/src/main.rs:79-199 | Over every run: the invariant holds and the states form one chain. |
| `Router.EncodingIsBounded` | routing/src/lib.rs:295-321 | Every state that any run reaches, fences and recoveries included, encodes within the 16 MiB view limit that loading enforces. |
| `Router.ReservationIsPermanent` | routing/src/lib.rs:232-276 | Over every run an endpoint once given to a record stays with that owner and id, with the same application and a never falling revision, and with nobody else; deletion does not free it. |
| `Router.ReachableShape` | routing/src/main.rs:113-118 | In every reachable state record revisions lie between 1 and the snapshot revision, endpoints are distinct, and an incarnation above 1 comes with a credential and a recorded recovery. |
| `Router.FirstIncarnationIsFree` | routing/src/lib.rs:205-231 | `accept` does not look at the incarnation of an owner it does not know. |
| `Router.FirstSnapshotIsInitial` | routing/src/main.rs:113-121 | Over every run: a run that comes to hold an owner first does so at some step, and whichever step that is, the snapshot it brings has incarnation 1. |
| `Router.IncarnationsComeFromRecoveries` | routing/src/main.rs:113-121 | Over every run: whatever incarnation an owner ends at, it is the one it began with or that of a recovery result which the run took. |
| `Witnesses.SecondIncarnationFirst` | routing/src/main.rs:113-118 | A concrete first snapshot at incarnation 2 that `accept` takes and `publish` refuses. |
| `RouterLaws.PublishIsExact` | routing/src/main.rs:63-141 | On every state the server can reach a publication is taken exactly when the owner is configured, the credential is the one in force, the snapshot is good in itself (schema, names, at most 4096 records, each of an application configured for the owner, at an address written out number by number, under a revision between 1 and that of the snapshot), it is the first under incarnation 1 or continues the one before, its endpoints are nobody else's, and a generation and bytes are left. It then replaces that owner alone and makes it fresh. |
| `RouterLaws.RecordsAreConfigured` | routing/src/lib.rs:196-276 | Over every run: each owner held is configured, each of its records belongs to an application configured for it, and its endpoint is unscoped, not IPv4-mapped, has a port, and is neither unspecified nor multicast. |
| `FenceLaws.FreezeIsExact` | routing/src/lib.rs:109-135 | A fence is taken exactly when operation and owner are known and nobody else holds it (or the operation is over), and changes nothing but the fence; that another operation holds it is its own refusal. |
| `FenceLaws.FenceIsExclusive` | routing/src/lib.rs:109-135 | Over any steps until a recovery of the owner is asked for: no publication of it is taken, its snapshot stands, and another operation is let in only if the owner was last recovered by it. |
| `FenceLaws.RecoveryIsExact` | routing/src/lib.rs:137-187 | On every state the server can reach an unrecorded recovery is taken exactly when it is well formed, finds its own fence, an older incarnation and a history it continues, is good in itself, has its own endpoints, and room is left; it installs snapshot, credential and record, and lifts the fence. |
| `FenceLaws.RepeatIsExact` | routing/src/lib.rs:152-166 | A repeat of a recorded operation is taken exactly if it brings the operation, snapshot and hash that were recorded; any other is a conflict. |
| `FenceLaws.AcknowledgedRecoveryStands` | routing/src/lib.rs:152-166 | After an acknowledged recovery, over any steps but a recovery of that owner under another operation: a repeat is acknowledged exactly if it brings the very snapshot and hash installed, and publications of the owner are taken only under that hash and incarnation. |
| `FenceLaws.StalenessIsExact` | routing/src/lib.rs:189-193 | Over every run an owner is fresh exactly if some publication of it was taken and since then there was no restart, no new fence and no new recovery of it. |
| `FenceLaws.StartIsStale` | routing/src/storage.rs:7-22 | After every start of the server, from whichever file, every owner is stale. |
| `Json.StateHasLength` | routing/src/lib.rs:8-53 | The JSON text of a state, written out with its addresses, is exactly as long as the size function says. |
| `Json.EveryTextIsBounded` | routing/src/lib.rs:295-321 | The text of every state that a run reaches has at most 16777216 characters. |
| `Json.AdmittedTextsFit` | routing/src/lib.rs:295-321 | Admission is exact: a state fits exactly if every text that revisions, deletions and fences can turn its own into stays within the limit; nothing is refused that could not grow too long. |
| `Json.AffordableIsExact` | routing/src/lib.rs:295-321 | So the room that a publication needs, of the texts of the state with it. |
| `Startup.Rebuild` | routing/src/main.rs:272-291 | Starting accepts a loaded state exactly when it satisfies the global predicate, whatever order the owners are replayed in. |
| `Server.EventRefines` | routing/src/main.rs:119-139 | Persist before activate: each event (a save failing before or after its rename, a sync, activation, a dying process that comes back on an unsynced file, a power loss that returns the file last loaded or a later one) is no step or some atomic steps of the router. |
| `Server.ServerRefinesRouter` | routing/src/main.rs:79-199 | Every interleaving of concurrent requests, failing saves, deaths and such power losses reaches the state of an atomic router that took the corresponding steps. |
| `ServerRuns.ChainIsExact` | routing/src/storage.rs:7-40 | The active states of a run form one chain exactly when no power loss of the run returns a file older than the one that a start has loaded since the last completed directory sync: loading syncs nothing. |
| `Witnesses.ActiveGoesBack` | routing/src/storage.rs:7-40 | From no file: a publication is renamed, the process dies before the sync, the next one serves it, and a power loss puts the empty state back. |
| `ServerRuns.ForgettingIsNoRun` | routing/src/storage.rs:7-40 | After such a power loss the active state is one that no steps of the atomic router lead to. |
| `ServerRuns.GenerationsTell` | routing/src/storage.rs:7-40 | Generations decide whether a returned file forgets, unless two files compete for one generation; the last synced file forgets exactly when a start has activated a commit since. |
| `ServerRuns.FilesOfARun` | routing/src/storage.rs:24-40 | At the end of any run every file that may be found keeps the invariant and is no older than the last synced one, the file a process would read is at or ahead of the active state, and another one is so exactly if returning it forgets nothing. |
| `ServerRuns.FloorStays` | routing/src/storage.rs:24-40 | Whatever is both synced and active is in every later active state and every file, over all runs, forgetting power losses included. |
| `ServerRuns.FenceHolds` | routing/src/lib.rs:109-135 | An acknowledged fence holds over all such runs: until a recovery of that owner is asked for, every active state and every file has its snapshot as it was fenced. |
| `ServerRuns.RenameRises` | routing/src/storage.rs:38-39 | A renamed file is never older than the last one synced; it is no older than every file a power loss may return exactly when its request carries each unsynced one: it takes a later generation or the other took none, and the snapshot the other put in place is extended by the one its owner has after the request. |
| `ServerRuns.CarriesIsExact` | routing/src/storage.rs:38-39 | That condition, on two requests and the states they were made on, decides the order of the two candidates for all kinds of requests; fences and credentials follow. |
| `Witnesses.FileGoesBack` | routing/src/storage.rs:38-39 | A run in which a newer candidate is renamed, its sync fails, and an older publication then replaces the file. |
| `ServerRuns.AlwaysLoadable` | routing/src/storage.rs:7-22 | Under an unchanged configuration no file the server leaves behind, wherever it dies or loses power, is refused at the next start. |
| `ServerRuns.AcknowledgedSurvives` | routing/src/main.rs:123-139 | An acknowledged publication is in every later active state and in every file, over all runs, forgetting power losses included. |
| `ServerRuns.NoFencedPublishCommits` | routing/src/main.rs:86-112 | From the first start on, every file renamed for a publication was made on a state active at some point of the run, in which its credential was in force and its owner not fenced; for files renamed since the last start that is the state still active. |
| `ServerRuns.WriterIsPermitted` | routing/src/main.rs:86-112 | The same of whatever the writer holds: a publication that authenticated under a credential since replaced, or whose owner was since fenced, is never written. |
| `RouterLaws.GoodStateIsSound` | routing/src/lib.rs:83-107 | What a start demands of a whole file, in plain terms: at most sixteen owners, each configured, under its own name, with well-formed fences, a good snapshot, and credential and recovery beyond incarnation 1; every endpoint held once; and room for what deletions can lead to. |
| `ServerRuns.WaitingWasAuthentic` | routing/src/main.rs:63-92 | Nothing waits for the writer but publications whose credential was in force in some active state of the run. |
| `ServerRuns.UndisturbedPublication` | routing/src/main.rs:93-141 | A publication that meets an idle writer and a save that works is active and the only file in the end exactly if the router takes it, and else nothing has changed. |
| `ServerRuns.UndisturbedRequest` | routing/src/main.rs:149-204 | The same of an administrator's fence or recovery. |
| `ServerRuns.FromTheFirstStart` | routing/src/main.rs:272-291 | A server begun on no file can start again on any file it may find, and while power losses return the file last loaded or a later one it is where the atomic router gets from the empty state, on one chain. |
| `Worker.Daemon.Register` | cmd/worker/serve.go:285-352 | The transaction, in place: the daemon afterwards holds exactly the log, and returns exactly the answer, of the registration function that the lemmas below are about. |
| `Worker.Daemon.EndpointTaken` | cmd/worker/serve.go:332-336 | The scan over records in any order finds whether another id holds the endpoint. |
| `Worker.RegistrationIsExact` | cmd/worker/serve.go:294-352 | A new operation is taken exactly so: on a new id if it is live, no record holds its endpoint, and fewer than 4096 records and 16384 operations are there; on a known id if application and endpoint stay, a deleted record is not brought back, and there is room or it deletes a live one. It then puts that one record under the next revision. |
| `Worker.RefusalsAreExact` | cmd/worker/serve.go:302-341 | Each refusal of a new operation and the condition under which it is the one given. |
| `Worker.RegisteredKeeps` | cmd/worker/serve.go:285-352 | Every registration keeps the log invariant, extends the published history, and never runs out of revisions. |
| `Worker.RegisterAllKeeps` | cmd/worker/serve.go:285-352 | So does every sequence of registrations, and no stored operation is ever changed. |
| `Worker.LogBound` | cmd/worker/serve.go:311-339 | From an empty log, in any order: the revision is one more than the number of stored operations, operations never exceed 16384 plus the tombstones, hence 20480. |
| `Worker.ReplayAnswersOnce` | cmd/worker/serve.go:294-309 | A repeated operation is answered for ever with its first revision and changes nothing; with another content it is a conflict. |
| `Worker.DeletionIsAlwaysRegistered` | cmd/worker/serve.go:320-328 | However full the log is, every live record can be deleted. |
| `Convergence.DeliveryMatches` | routing/src/lib.rs:206-231 | One delivery of any snapshot of a worker, late or repeated: the router holds the furthest one, and one with a lower revision leaves the state untouched. |
| `Convergence.FeedMatches` | cmd/worker/serve.go:353-402 | Over any finite sequence of lost, repeated and reordered deliveries and restarts, the router holds exactly the furthest delivered snapshot of each owner. |
| `Convergence.RoutersConverge` | cmd/worker/serve.go:353-402 | Two routers with different orders and losses, but the same furthest delivery, hold equal snapshots: that delivery itself. Asked of the workers: registrable records, endpoints disjoint across owners, and bytes for all of them. |
| `Convergence.FinishedIsSound` | cmd/worker/serve.go:320-339 | The bounds each worker keeps give everything else a router checks: record limits, revisions, distinct endpoints within an owner. |
| `Convergence.FurthestIsMaximal` | cmd/worker/serve.go:353-402 | The furthest delivery is one of the deliveries and none is beyond it. |
| `Join.Collect` | cmd/worker/recover.go:168-181 | The merge loop, whatever order the records come in: refused exactly when identities conflict, otherwise the pointwise join. |
| `Join.OverlayTombstones` | cmd/worker/recover.go:188-200 | The loop over the backup, whatever its order: tombstones laid over the merge, and the quarantine of what the result does not vouch for. |
| `Join.JoinCommutes` | cmd/worker/recover.go:157-182 | The order of the two routers does not matter, for the refusal or for the result. |
| `Join.JoinIsUpperBound` | cmd/worker/recover.go:168-181 | The join covers both histories. |
| `Join.JoinIsLeast` | cmd/worker/recover.go:168-181 | Every history that covers both covers the join, and its existence excludes a conflict. |
| `Join.JoinExtendsExactly` | cmd/worker/recover.go:168-181 | The join extends both in the strict order that routers enforce exactly when records under equal revisions agree on their deletion. |
| `Join.MergedExtendsExactly` | cmd/worker/recover.go:157-200 | The final result extends what both routers accepted exactly when every record is settled: each difference in deletion comes with a higher revision. |
| `Join.OneHistorySettles` | cmd/worker/recover.go:157-200 | Snapshots and backup that are stretches of one history never conflict and leave nothing unsettled. |
| `Join.DivergedHistoriesDoNotMerge` | cmd/worker/recover.go:174-181 | A concrete pair, live and deleted under one revision, whose merge the routers refuse: the join is not an upper bound in the strict order. |
| `Witnesses.TwoLives` | cmd/worker/serve.go:285-352 | Two lives of one worker, parted by a restore without recovery, log a live and a deleted record under one revision. |
| `Witnesses.PublishedLivesGetStuck` | cmd/worker/recover.go:157-235 | These two snapshots, each taken by one router, are inputs of the failure: the recovery begins on routers that never heard of it, eight undisturbed steps later its result is journalled, and one router refuses it for ever, whatever happens then. |
| `RecoveryResult.ResultIsExact` | cmd/worker/recover.go:157-204 | The result has the ids of either router and no others, each with its application and endpoint, deleted exactly if a router or the backup (under that identity) deleted it, under the greatest of their revisions, and is one incarnation and one revision beyond both routers and the backup. |
| `RecoveryResult.ResultExistsExactly` | cmd/worker/recover.go:168-187 | There is a result exactly if the routers agree on application and endpoint of every common id and no number is exhausted. |
| `RecoveryResult.QuarantineIsExact` | cmd/worker/recover.go:188-204 | Over every run, once there is a result: a record of the backup is quarantined exactly if neither router held it with that identity, or if the result deletes it while the backup has it live. |
| `RecoveryResult.WrongDatabaseStops` | cmd/worker/recover.go:139-150 | A restored database of another owner is never recovered: over every run no result is made, and row and token stay. |
| `RecoveryRuns.RunKeepsInv` | cmd/worker/recover.go:139-273 | So does every run, with any number of crashes and restarts. |
| `RecoveryRuns.RunExtends` | cmd/worker/recover.go:139-273 | Over every run both routers only move up in the history order. |
| `RecoveryRuns.AcknowledgedRoutersAgree` | cmd/worker/recover.go:213-235 | Once both acknowledgements are journalled both routers hold the one journalled snapshot and credential. |
| `RecoveryRuns.NothingIsLost` | cmd/worker/recover.go:139-240 | For every interleaving: whatever record either router held for the owner at any moment is, once both have acknowledged, at both routers, with the same application and endpoint, a revision no lower, and its deletion kept. |
| `RecoveryRuns.GuardIsLiftedLast` | cmd/worker/recover.go:236-272 | The guard is gone only when both routers, the worker row and the token hold that one result. |
| `RecoveryHistory.RecoveryAlwaysResumes` | cmd/worker/recover.go:139-273 | Recovery always resumes and agrees. For every run from the start on one history, with the process dying anywhere, late calls, restarts and other publishers: wherever it has come to, if each router that lacks the result has generations and bytes left and no other owner holds one of its endpoints, sixteen undisturbed steps complete it with the journalled result, at routers, row and token. |
| `RecoveryHistory.OneHistoryIsReady` | cmd/worker/recover.go:139-240 | At every such point, before the result is journalled, after it, and between the acknowledgements, the result exists, extends both histories, and is in form, applications, record count and its own endpoints acceptable to both routers. |
| `RecoveryHistory.ReadyIsKept` | cmd/worker/recover.go:139-273 | A recovery that can go through still can after any steps, deaths, reruns and late calls of its own. |
| `RecoveryHistory.RecoveryResumesFromEveryDeath` | cmd/worker/recover.go:139-273 | Left to itself, a recovery that has room at its start completes from every point it may die at, always with one result. |
| `RecoveryHistory.ResultIsSane` | cmd/worker/recover.go:157-204 | The result of two stretches of one history passes every check a router makes of a snapshot in itself. |
| `RecoveryHistory.LogsAreOneHistory` | cmd/worker/serve.go:285-352 | All snapshots a worker ever publishes from one log are such a history. |
| `Witnesses.OneLifeBegins` | cmd/worker/recover.go:139-157 | A concrete start of such a recovery, with room at both routers for the result: one router behind the other, the backup older. |
| `RecoveryCompletes.RecoveryResumes` | cmd/worker/recover.go:139-273 | The step behind these: from any point at which both routers can take the result, sixteen undisturbed steps complete the recovery. |
| `RecoveryCompletes.HistoryAllowsExactly` | cmd/worker/recover.go:157-200 | Of what the routers demand of the history, exactly one condition is left by the merge: every record is settled. |
| `RecoveryCompletes.RefusalIsFinal` | cmd/worker/recover.go:139-142 | A prepared result that a router refuses is final: no rerun changes the journalled result, and the worker stays guarded for ever. |
| `ProxyView.Validate` | proxy/src/dynamic.rs:56-95 | The validation loops accept exactly the sound states that continue the cached one: no owner, incarnation or record regresses. |
| `ProxyView.ValidIsPlain` | proxy/src/dynamic.rs:56-69 | What a proxy demands of a view in itself is the same, with every configured application open to every owner. |
| `ProxyView.CollectTargets` | proxy/src/dynamic.rs:101-113 | The loops over owners and records gather exactly the endpoints of the live records of the application. |
| `ProxyView.MakeView` | proxy/src/dynamic.rs:96-123 | Every configured port leads to its application and targets, and no other port exists. |
| `ProxyView.TargetsAreOwned` | proxy/src/dynamic.rs:101-113 | In a validated view each target belongs to exactly one live record, hence to one application. |
| `ProxyView.TargetsAreTheLive` | proxy/src/dynamic.rs:101-113 | The targets of an application are exactly the endpoints of its live records: every one of them, and nothing else. |
| `ProxyView.ContinuesIsExtends` | proxy/src/dynamic.rs:70-93 | The comparison with the cache is the history order on records, together with incarnations. |
| `ProxyView.SubscriberMaySkip` | routing/src/main.rs:206-236 | A proxy configured for all applications that holds any earlier view of a router accepts every later view of it, however many generations were coalesced. |
| `ProxyRuns.EventKeeps` | proxy/src/dynamic.rs:196-296 | One candidate from any router, a failed save, a death or a power loss: what is held stays valid, and goes back exactly on a power loss that returns a cache file older than the one loaded since the last completed sync. |
| `ProxyRuns.RunKeepsView` | proxy/src/dynamic.rs:196-296 | Over every run: the views held only rise exactly when no power loss of the run does that. |
| `ProxyRuns.SavedViewStays` | proxy/src/dynamic.rs:249-296 | A view whose save completed is extended by every later view, whatever a power loss returns. |
| `ProxyRuns.NoResurrection` | proxy/src/dynamic.rs:196-296 | What is deleted in a view stays deleted in all later ones exactly when no power loss of the run returns a file that lacks a deletion of the one last loaded; its endpoint is then a target of no application in any later view, across switching routers, failed saves, deaths and power losses. |
| `ProxyRuns.SavedDeletionsStayGone` | proxy/src/dynamic.rs:249-296 | Deletions in a view whose save completed stay out of all later targets in any case. |
| `Witnesses.DeletionReturns` | proxy/src/dynamic.rs:196-296 | A cached view with the deletion is renamed but not synced, the process dies, the next one shows it, and a power loss makes the endpoint a target again. |
| `ProxyRuns.SubscriberFollowsServer` | routing/src/main.rs:206-236 | A proxy that holds any state a running server once had active accepts any it has active later, as long as the power losses of that run forget nothing. |
| `ProxyRuns.TargetsAreEntitled` | routing/src/main.rs:63-141 | In a view taken from a running server every target of an application is a live endpoint of an owner configured for that application, whatever died or lost power before. |
| `LayerReading.ReadLayer` | cmd/worker/image.go:198-250 | The loop over the headers of a layer accepts exactly when each passes: no step outside, nothing reserved or listed twice, plain files and directories only, within the limits, whiteouts empty. |
| `LayerReading.ReadLayers` | cmd/worker/image.go:173-253 | The loop over all layers accepts exactly when the headers of each are in form and those of all together keep to 4096 headers and 64 MiB, and then every entry is safe to extract. |
| `LayerReading.ReadEntriesAreOk` | cmd/worker/image.go:198-250 | Accepted entries are below the root, distinct and safe, which is all that extraction requires of its caller. |
| `LayerReading.ReadingIsExact` | cmd/worker/image.go:198-250 | A layer is taken exactly if each header is the root or a plain file or directory with a name that neither leaves the root nor is reserved, no path comes twice, and headers and data stay within 4096 and 64 MiB. |
| `LayerReading.ReadNamesArePlain` | cmd/worker/image.go:211-230 | No accepted entry is called lost+found or begins with .edgelab at the top, none has an empty, dot or dot-dot name or a backslash, and each comes from a regular file or directory of the layer with its mode and data. |
| `FileTrees.FileTree.RemoveAll` | cmd/worker/image.go:272-279 | Removing a path takes it and all below; it fails exactly when a file is in the way, and not when nothing is there. |
| `FileTrees.FileTree.MkdirAll` | cmd/worker/image.go:285-296 | All missing directories on the way appear and nothing else changes; it fails exactly at a file. |
| `FileTrees.FileTree.Empty` | cmd/worker/image.go:261-272 | The loop over children, in any order, empties the directory completely. |
| `FileTrees.FileTree.RemoveHidden` | cmd/worker/image.go:258-280 | The first pass leaves exactly the paths that no whiteout of the layer hides; it fails exactly when a whiteout is invalid or blocked at its turn. |
| `FileTrees.FileTree.PutEntry` | cmd/worker/image.go:281-314 | One entry at every path: itself, the directories above, what it displaces below, and the rest unchanged. |
| `FileTrees.FileTree.PutEntries` | cmd/worker/image.go:281-315 | The second pass leaves at every path what the set of entries means there, up to modes. |
| `FileTrees.FileTree.SetModes` | cmd/worker/image.go:316-328 | The third pass sets the listed modes and fails exactly when something listed was displaced by a file of the same layer. |
| `FileTrees.FileTree.ApplyLayer` | cmd/worker/image.go:257-329 | A layer succeeds exactly when it applies, and then leaves exactly what it means by membership alone. |
| `FileTrees.FileTree.ApplyLayers` | cmd/worker/image.go:256-331 | All layers bottom up: every intermediate tree is what its layer means over the one before, and a failure is at a layer that does not apply. |
| `NewestLayerWins.NewestFileWins` | cmd/worker/image.go:256-331 | After all layers a path is a file with given contents and mode exactly when some layer lists it so (or the base had it) and no later layer hides it, lists it, or puts a file above it. |
| `NewestLayerWins.NewestMentionWins` | cmd/worker/image.go:256-331 | A path is present exactly when some layer lists it or something below it (or the base had it) and no later layer removes it. |
| `NewestLayerWins.OwnEntriesStand` | cmd/worker/image.go:258-284 | Whiteouts never hide entries of their own layer. |
| `NewestLayerWins.OrderDoesNotChangeTheTree` | cmd/worker/image.go:257-329 | Two orders of the same entries that both succeed leave the same tree. |
| `NewestLayerWins.AppliesExactly` | cmd/worker/image.go:258-324 | A layer applies exactly when its whiteouts name something, no entry stands below a file of the layer, each lower file above a whiteout is hidden by an earlier whiteout, and each one left above an entry is re-listed as a directory before it. |
| `NewestLayerWins.ShallowFirstApplies` | cmd/worker/image.go:258-324 | With shorter paths first a layer applies exactly when its set of entries clears every way, and so whenever it applies in any order. |
| `NewestLayerWins.OrderDecidesSuccess` | cmd/worker/image.go:281-293 | A concrete layer whose entries apply in one order and fail in the other. |
| `NewestLayerWins.WhiteoutOrderDecidesSuccess` | cmd/worker/image.go:273-278 | A concrete layer whose whiteouts apply in one order and fail in the other. |
| `NewestLayerWins.UnpacksToOneTree` | cmd/worker/image.go:256-331 | An image unpacks over an empty filesystem to one tree only. |
| `LayerNames.LayerByNames` | cmd/worker/image.go:257-329 | A layer, path by path, from the names of its entries: what it lists is there as listed; what it brings without listing stays or becomes a directory with mode 0755; of the rest exactly what no marker and no file of the layer drops is left as it was. |
| `LayerNames.OpaqueEmpties` | cmd/worker/image.go:261-270 | When a layer has .wh..wh..opq in a directory, a path properly below the directory is there afterwards exactly if the layer lists it or something below it. |
| `LayerNames.WhiteoutRemoves` | cmd/worker/image.go:271-280 | When a layer has .wh.name in a directory, the same holds of everything at or below that name. |
| `LayerNames.NothingElseIsLost` | cmd/worker/image.go:257-329 | Where no name of a layer begins with .wh. nothing is lost, except below its files. |
| `LayerNames.AppliesByNames` | cmd/worker/image.go:258-324 | A layer can be extracted exactly if its markers name something, none of its entries stands below one of its files, and every lower file in the way of a marker or an entry is dropped, or listed as a directory, in time. |
| `LayerNames.ImageByNames` | cmd/worker/image.go:256-331 | Over a whole image: a path is there exactly if some layer brings it, or the base had it, and no later layer drops it. |
| `LayerNames.FilesByNames` | cmd/worker/image.go:256-331 | Over a whole image: a path is a given file exactly if some layer lists it so, or the base had it, and no later layer lists or drops it. |
| `LayerNames.OpaqueOverImage` | cmd/worker/image.go:261-270 | Below a directory that some layer made opaque exactly what that layer and later ones brought and kept is there: nothing of lower layers comes through. |
| `LayerNames.WhiteoutOverImage` | cmd/worker/image.go:271-280 | The same at and below what a layer's whiteout names. |
| `Volumes.OriginNamesCollide` | cmd/worker/main.go:147-147 | Two images share the name of their origin exactly if the first 24 digits of their digests agree. |
| `Volumes.OneSnapshotPerOperation` | cmd/worker/storage.go:119-144 | An operation never gets a second snapshot, at any two moments of any run. |
| `Volumes.RegisteredNamesAnIntactSnapshot` | cmd/worker/main.go:296-298 | A registered row names an existing, writable snapshot with its uuid, tagged by the operation, whose origin is sealed and holds the fully extracted tree of the image; it is active as long as registered snapshots were not deactivated by a power loss. |
| `ImagePipeline.Worker.PhaseGoesBack` | cmd/worker/main.go:190-190 | The stage that every rerun passes takes a registered operation back to verified; the uuid stays. |
| `ImagePipeline.Worker.Begin` | cmd/worker/main.go:149-166 | The operation row: a repeated request keeps it, a different one under the same id is refused, and so is a new one beyond the capacity. |
| `ImagePipeline.Worker.Create` | cmd/worker/storage.go:119-144 | Inspect or create: an existing volume is taken exactly when its identity is right. |
| `ImagePipeline.Worker.Inspect` | cmd/worker/main.go:196-215 | An origin counts as valid exactly when its marker names the image and its tree, and that tree is then the extracted one. |
| `ImagePipeline.Worker.Unpack` | cmd/worker/main.go:223-247 | Formatting, extraction and marker: success exactly when the image unpacks, and then the origin holds that tree. |
| `ImagePipeline.Worker.Fill` | cmd/worker/main.go:196-248 | A valid origin is left alone; a sealed one is never reformatted. |
| `ImagePipeline.Worker.Seal` | cmd/worker/main.go:249-262 | Only an origin that holds the extracted tree is made read-only. |
| `ImagePipeline.Worker.Activate` | cmd/worker/main.go:268-294 | The snapshot with the recorded uuid becomes writable and active. |
| `ImagePipeline.Worker.Register` | cmd/worker/main.go:296-298 | The row gets the uuid of that snapshot. |
| `ImagePipeline.Worker.Run` | cmd/worker/main.go:149-299 | One run stopped after any effect keeps all promises and touches only its own row, origin and snapshot; with room, blobs and sixteen effects it finishes exactly when no other image or operation is in its way and the image unpacks. A repeated run with an effect left that reads its image leaves the operation registered exactly if it finishes, so with room and sixteen effects exactly if it can finish. |
| `ImagePipeline.Worker.Campaign` | cmd/worker/main.go:149-299 | So do any runs of any operations on any images, with power losses and use of the snapshots between them; without power loss registered snapshots stay active. |
| `Growth.Decide` | cmd/grow/main.go:183-213 | Nothing is done exactly if no size is given and usage is below the threshold; the volume grows exactly if the size asked for (the given one, or 500 MiB more, in whole extents of 4 MiB) is no smaller than it is, within the maximum, and its growth and the reserve fit the free space. |
| `Growth.Controller.Open` | cmd/grow/main.go:172-224 | An open operation is taken over whatever the flags ask for, or refused if it is another one or above the cap of this run. |
| `Growth.Controller.Complete` | cmd/grow/main.go:225-262 | Extend, resize, mark: three effects, after which volume and filesystem have exactly the target; interrupted anywhere, nothing is lost. |
| `Growth.Controller.Pass` | cmd/grow/main.go:138-264 | One run: whatever is refused changes nothing; a finished one leaves volume and filesystem at exactly its target; an open operation that the flags allow is finished by three effects; with nothing open, a full volume (or a given size) that the cap and the free space allow is grown by four to the size asked for, and nothing else finishes. It is idle, or answers that the operation is over, under exactly the stated conditions. |
| `Growth.Controller.Campaign` | cmd/grow/main.go:138-273 | Over any runs with any flags, stopped anywhere: the invariant, sizes that never shrink, size plus free space conserved, and the reserve untouched. |
| `Growth.OnePending` | cmd/grow/main.go:172-182 | At most one operation is open, and it is the newest. |
| `Growth.DoneIsReached` | cmd/grow/main.go:235-261 | A completed operation leaves volume and filesystem at or above its target for ever. |
| `Growth.TargetsOnlyRise` | cmd/grow/main.go:196-202 | Targets never fall from one operation to the next. |
| `Growth.CapHolds` | cmd/grow/main.go:200-202 | The volume never passes 6144 MiB unless it began beyond it. |
| `ProxyReload.RefusedConfigs` | proxy/src/main.rs:100-137 | A configuration is refused exactly for its size, a name given twice, an application without usable name, ports or number of targets, or a port given to two. |
| `ProxyReload.Proxy.OnSignal` | proxy/src/main.rs:453-462 | A signal numbers a new generation; it starts at once or replaces the waiting one, so at most one validation is in flight. |
| `ProxyReload.Proxy.OnRead` | proxy/src/main.rs:159-163 | Forgetting objects nobody holds forgets none in use by the view or a session. |
| `ProxyReload.Proxy.Admission` | proxy/src/main.rs:164-175 | A name in use keeps its admission object; only an unused one gets a new object. |
| `ProxyReload.Proxy.OnPrepare` | proxy/src/main.rs:164-188 | One application more is prepared, or everything is rejected exactly when one of its ports cannot be bound. |
| `ProxyReload.Proxy.OnCompleted` | proxy/src/main.rs:463-485 | Only the newest generation activates, the view is then exactly the routes of its configuration, ports present before and after keep their listener, and the waiting request starts. |
| `ProxyReload.Proxy.SpawnAccepts` | proxy/src/main.rs:471-476 | After the outstanding accepts were aborted, the loop over the new listeners leaves exactly one accept on each. |
| `ProxyReload.Proxy.Handle` | proxy/src/main.rs:438-518 | One event: what it does to the queue of reloads, and that only the newest generation changes the view. |
| `ProxyReload.Proxy.Serve` | proxy/src/main.rs:438-518 | Over any events: the generations that activate only rise; without signals at most two completions are left (one if the newest is in flight), after them nothing is in flight or waiting, and nothing but the newest generation changes the view. |
| `ProxyReload.Proxy.OnAccepted` | proxy/src/main.rs:492-514 | A connection is served exactly when its application has targets and a permit and the proxy has one; its accept is replaced at once. |
| `ProxyReload.Proxy.OnEnded` | proxy/src/main.rs:515-515 | An ended session returns both permits. |
| `ProxyReload.Proxy.SharedAndBounded` | proxy/src/main.rs:163-180 | Whatever was reloaded, removed or re-added, all sessions of a name share one admission object with each other and with the view, never exceed its limit, and never exceed 1024 in total. |
| `ProxyReload.Proxy.OneAcceptPerListener` | proxy/src/main.rs:492-494 | At every moment exactly one accept is outstanding on each listening port, and each such port has a route. |

## Left out

- HTTP, request parsing, the administrator's token, long polling and subscriber slots: a request is a value, and an administrative one is taken to be authorised. Lost, repeated and late messages are part of the runs.
- SHA-256: taken to be injective, so a digest is represented by what was hashed; credentials drawn by a recovery are taken not to be guessed.
- JSON decoding and text: states and snapshots are values; only the length of the encoding is modelled, for names, which need no escapes.
- Scoped IPv6 addresses and the parsing of endpoints: endpoints are unscoped; IPv4-mapped ones (section 2.5.5.2 of RFC 4291) are refused as the code does.
- Error texts: refusals that differ only in their message are one error. Which of several reasons a router gives is not promised, since the HTTP answer is the same; of a worker's `register` it is.
- The checks of the worker's HTTP handler before `register`, configured workloads, and their probing before publication: a publication is any earlier snapshot of the log.
- Wall clocks: reconciliation times are parameters, delivery and freshness times are absent.
- The order of targets in an application's list, their text, DNS, connecting, the round-robin start, copying and draining.
- `loadLayers`: fetching, digests, media types, gzip and tar decoding; reading starts from decoded headers whose names are already split at slashes.
- Modification times, ownership, umask, `lost+found` and synchronisation of single files during extraction.
- LVM, mkfs, mount and resize2fs as commands: their effects on volumes only. Volume size, pool name and the worker's own tag are taken to be right for every volume; formatting is one effect; an origin stays active.
- The error column of the operations table, and the 90-second limit on a run (a run may stop anywhere).
- The dynamic proxy's static parts: its admission objects are fixed at start and its reload signal is ignored, so `ProxyReload` follows the static mode only.
- Target syntax and the 1 MiB limit of a static configuration: a configuration is refused or accepted by its names, ports and numbers of targets.
- Two validation steps of one application are one event: the awaits between two binds of one application are not interleaved with other events, since its admission object is already held.
- `cmd/objects`, `cmd/echo`, `cmd/traffic` and everything under lab/, tests/ and evidence/.
- RecoveryAlwaysResumes: for routers that both know the owner, snapshots and backup on one history, one application list for the owner at both routers, and a backup within its own revision; what is left to the moment is room in generations and bytes, and no clash with another owner's endpoint.
- RoutersConverge: for workers that have not been recovered, as recovery changes the incarnation.
- AlwaysLoadable: for an unchanged configuration; removing an owner or an application makes the server refuse its own file, as the code does.
- ServerRefinesRouter: for power losses that return the file last loaded or a later one; an earlier file of the same order keeps the chain (`ServerRuns.ChainIsExact`) without being a step of the router.
- Recovery, Convergence and SubscriberMaySkip: follow the atomic router, so runs in which a power loss makes a router forget an unacknowledged file it had loaded are not among theirs. `ServerRuns` has what such a router keeps.
- Losses of the file system other than a rename whose directory was not synced: file contents are synced before the rename and taken to be whole.
- NothingIsLost: up to the first completion; rerunning a completed recovery after further registrations would overwrite the worker's row.
- Campaign: in `Growth`, the volume and the group have no other user, and the volume starts with no operation recorded.
- Recovery and the router's server are state machines on values, not objects: what happens is one step per durable effect, and aliasing has no counterpart there.

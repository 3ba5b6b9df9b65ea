# Incident outbox: model and proofs

A Dafny 4.11 model of the incident service and its transactional outbox, end to end: the HTTP
decoding of a patch, the service's transactions, the incident, audit and outbox tables, the relay and
its publisher, the bus, a deduplicating reader of the bus, and the reference connector that closes the
loop by patching what it hears about. `dafny verify dfyconfig.toml` checks everything.

## How it is built

- **Values.** `Lifecycle`, `Domain`, `PatchAlgebra`, `Auth`, `SchemaRegistry` and `Outbox` hold the
  pure parts: statuses and their graph, rows and partial updates, principals, keys, and the
  sequences a reader derives from the outbox and from the bus.
- **One step machine.** `Machine` has one action per database write, unlocked read, relay step or crash, and one
  that puts a row into the outbox whose payload does not decode. A run is any list of enabled actions (`Exec`), so transactions overlap freely, publishes and marks
  fail in any pattern, and the process may restart anywhere. A failed publish may or may not have
  delivered. `log`, `calls` and `badMarks` are history that no code reads.
- **Requests.** `Requests` says what Create and Patch do field by field from the request, without the functions the
  service computes with; `Origins` says over every run that each commit goes back to a request.
- **Invariants.** `Tables`, `Delivery` and `Conservation` say what each of the sixteen actions keeps;
  `History` reads one incident's commits; `Guarantees` states the results over all runs.
- **Status.** `StatusPaths` and `Overlap` treat the one thing that depends on Patches not
  overlapping; `Serial` has the closed form of a Create or Patch that nothing interrupts.
- **The imperative code.** The classes in `Database`, `Service`, `Publishing`, `Relay` and `Connector` follow the
  source method by method, with a fault for every call that can fail. `Store` carries a ghost
  machine state and the run that led to it, so every method is proved to take exactly the machine steps it
  should, and whatever holds of all runs holds of the code.
- **Tenants.** `Stamps` shows that no two outbox rows share a created_at; `TenantOrder` says exactly
  when a tenant's events reach the bus in created_at order, and `Overtaking` exhibits runs where they do not.
- **Liveness.** `Progress` bounds the number of drains and says when rows starve; `Feedback`,
  `Quiescence` and `Tagging` show that relay and connector come to rest in every fair run, and with which tags.

## Assumptions

- One process clock, at the resolution the database stores, that never shows the same value twice,
  and a supply of fresh ids. Time and ids are drawn by the calls that draw them in the source.
- Commit is atomic, a rolled-back transaction leaves only unused outbox ids behind, UPDATE holds the row
  lock until commit or rollback, and the unique index on (tenant, source connector, external id)
  (migrations/0001_init.up.sql:86-88) refuses clashes. A failed commit has not committed.
- The position of a row in the model's outbox stands for its BIGSERIAL id; `published` is the
  published_at column. `event_id` is UNIQUE (migrations/0001_init.up.sql:122). Rows with the same
  created_at may be fetched in any order.
- The bus is an append-only sequence, and a nil error from the AMQP client means the message is on it:
  the code asks for no publisher confirms.
- The schema registry's verdict on attributes, the authorizer's answer and the fate of
  every call are parameters. Attribute values are opaque text.
- There is one relay, as internal/persistence/outbox.go:49-50 states.

## Where the code and what is said about it differ

- A Patch reads the row without a lock (internal/domain/incident/service.go:222-227), so "read inside
  the tx for consistency" does not protect the status check. `Overlap.OverlapBreaksPath` shows that two
  Patches that read the same row break the status path whenever the first to commit changes the
  status and the other names one; `StatusPaths.CommitConnectsExactly` gives the exact condition at a
  commit, `Overlap.SerialStatusPath` what holds without overlap.
- Skipped malformed rows stay unpublished "for ops to inspect" (internal/outbox/relay.go:113-117), and
  so come back in every fetch. With 100 of them older than a good row, that row is never published
  (`Progress.StarvedForever`), and `Progress.StarvationHappens` is a run that gets there; with fewer,
  everything is published (`Progress.EmptiesExactlyBelowBatch`).
- Order is said to matter within a tenant (internal/outbox/relay.go:121-123). What the relay gives in
  every run is order within an incident; within a tenant `Overtaking.TenantOrderBreaks` is a run of
  two overlapping Creates that ends out of created_at order. `TenantOrder.TenantOrderExactly` says when the
  order holds: no commit makes a row visible that is older than one on the bus, and no publish overtakes
  an older committed row. The second half is needed, because a batch fetched before a commit may
  still be on its way (`Overtaking.StaleBatchOvertakes`): a commit is safe for every continuation exactly when its rows are not older
  than one on the bus or in the batch (`TenantOrder.CommitGuardExactly`).
- `[]` over nil tags is a no-op that leaves the column NULL, so a PATCH is the literal override only up to
  that case (`PatchAlgebra.PipelineIsOverride`). Merging two patches that both carry a status
  is refused when the direct move is not allowed (`PatchAlgebra.MergePatches`).
- The connector ignores incidents that reference-connector created, so those end without its tag
  (`Tagging.TagPresentAtRest`).

## Model

| member | source | states |
|---|---|---|
| Lifecycle.LegalMoves | internal/domain/incident/incident.go:83-114 | a move is legal if and only if it stays, goes up one rank, goes from in_progress straight to resolved, or reopens; unknown statuses only stay |
| Lifecycle.PathStaysKnown | internal/domain/incident/incident.go:83-114 | every walk from `new` over the transition map stays among the six known statuses and never returns to `new` |
| Lifecycle.ChangesBoundedByRank | internal/domain/incident/incident.go:83-90 | a walk ending at a status has at most its rank plus four changes per reopen |
| Lifecycle.ChangesSinceClosing | internal/domain/incident/incident.go:83-90 | the least number of changes for a number of closings, by final status |
| Lifecycle.LifecycleArithmetic | internal/domain/incident/incident.go:83-90 | n <= 5 + 4r; k >= 1 closings need n >= 3k + 1; closings balance the changes out of closed |
| Lifecycle.LifecycleBoundIsTight | internal/domain/incident/incident.go:83-90 | for every r a legal life with r reopens and 5 + 4r changes exists |
| Lifecycle.ClosingBoundIsTight | internal/domain/incident/incident.go:83-90 | for every k >= 1 a legal life with k closings and exactly 3k + 1 changes exists |
| Auth.ParseUndoesRender | internal/auth/auth.go:47-47 | parsing the text form gives the principal back if and only if its type is documented and its id not empty, colons allowed |
| Auth.RenderUndoesParse | internal/auth/auth.go:132-145 | rendering an accepted text's principal gives the text back |
| Auth.AcceptedTexts | internal/auth/auth.go:132-145 | a text is accepted if and only if it is user:, connector: or system: followed by a non-empty id |
| Auth.RefusedTexts | internal/auth/auth.go:132-145 | a refused text is told its type is unknown exactly when it has a type and an id, and which type it was |
| SchemaRegistry.KeyInjective | internal/schemaregistry/registry.go:166-170 | two (entity, version) pairs with one key are equal, for all strings and all integers |
| SchemaRegistry.StoreKeepsAgreement | internal/schemaregistry/registry.go:129-131 | storing under the flat key keeps every lookup equal to the pair-keyed map |
| SchemaRegistry.LoadedExactly | internal/schemaregistry/registry.go:81-96 | after loading, a pair is registered exactly when a file compiled for it, and the last one counts |
| SchemaRegistry.Registry.Load | internal/schemaregistry/registry.go:100-131 | a failed load changes nothing, a successful one sets exactly one key |
| SchemaRegistry.NewRegistry | internal/schemaregistry/registry.go:74-97 | a registry comes back exactly when every file loads; then Has and the lookup agree with a map keyed by pairs |
| Domain.StoreThenLoad | internal/domain/incident/service.go:460-488 | storing and loading normalises nil attributes and loses nothing else |
| Domain.ChangedFieldsMembers | internal/domain/incident/service.go:229-284 | title and tags are listed if and only if they differ, any other field if and only if supplied |
| Domain.ChangedFieldsInOrder | internal/domain/incident/service.go:229-284 | changed_fields names each field at most once, in one fixed order |
| Domain.PlansAreOk | internal/domain/incident/service.go:229-284 | what holds of every computed update: columns written are listed, closed_at exactly with status closed, the move legal |
| Domain.PatchRowExactly | internal/persistence/incidents.go:123-142 | the row an accepted patch leaves, in closed form; with nothing listed even updated_at stays |
| Domain.UpdatesStayInFrame | internal/persistence/incidents.go:130-142 | on whatever row it lands, an update changes only listed fields, updated_at, and closed_at with status |
| PatchAlgebra.DecodePatch | internal/api/incidents.go:179-203 | three-state decoding: absent and null leave a field alone, `[]` and `{}` are given values, attributes that are no object are refused |
| PatchAlgebra.PipelineIsOverride | internal/domain/incident/service.go:229-305 | decoding, planning, the COALESCE/CASE update and reading back are one plain override of the given members |
| PatchAlgebra.PipelineFields | internal/persistence/incidents.go:123-142 | field by field: a given member is written, a missing or null one leaves the field alone, the identity never changes |
| PatchAlgebra.PipelineRefusals | internal/domain/incident/service.go:239-274 | a request is refused if and only if a severity or status is unknown, the move is none of the eight, or the attributes are refused; and with which error |
| PatchAlgebra.PatchTwice | internal/domain/incident/service.go:229-293 | the same patch succeeds again and moves at most updated_at and closed_at |
| PatchAlgebra.MergeAccepted | internal/domain/incident/incident.go:102-114 | the merged patch is accepted if and only if not both carry a status or the direct move is allowed |
| PatchAlgebra.MergePatches | internal/domain/incident/service.go:229-293 | two successful patches leave the same row as their merged patch, up to stamps and nil tags, with the exact condition |
| Outbox.CommitAppends | internal/persistence/outbox.go:34-44 | rows that become visible behind an incident's visible ones append their events in order |
| Outbox.ProjectionReadsFirstCopies | docs/08-glossary.md:21-21 | a reader that drops repeated event ids holds the last snapshot among the first copies, for every bus content |
| Outbox.FirstCopiesMonotone | docs/01-architecture-overview.md:45-45 | first copies only grow at the end as the bus grows |
| Tables.StepKeepsTables | internal/domain/incident/service.go:142-348 | every action keeps the table, lock and history invariants: committed rows explain each incident, staged rows lie behind them |
| Tables.CommitReads | internal/persistence/pool.go:79-102 | a commit appends exactly its own events and audit row to its incident and nothing to any other |
| Delivery.StepKeepsDelivery | internal/outbox/relay.go:101-137 | every action keeps no-loss, no-phantoms, the batch order and the prefix property |
| Delivery.NextInLine | internal/persistence/outbox.go:51-60 | an unsent row at the head of a fetched batch is its incident's next unsent event |
| Conservation.StepKeepsCounts | internal/outbox/relay.go:120-134 | every action keeps the bounds between copies, calls, marks and failed marks |
| History.EntryReads | internal/domain/incident/service.go:319-347 | one commit yields one snapshot of its row, at most one status change, and closed exactly on a change to closed |
| History.LogSnapshots | internal/domain/incident/service.go:319-327 | an incident's snapshots are the rows of its commits, one each, in order |
| History.LogFrames | internal/domain/incident/service.go:319-327 | neighbouring snapshots stay within the later event's frame |
| History.LogClosure | internal/domain/incident/service.go:260-263 | closed implies closed_at; closed_at is set if and only if some commit closed the incident |
| History.EventsPerAuditRow | internal/domain/incident/service.go:308-347 | a status_change audit row has two or three outbox rows, any other success row one |
| Guarantees.RunsStaySound | internal/persistence/pool.go:71-102 | all invariants hold in every state any run reaches |
| Guarantees.NoLossNoPhantoms | internal/outbox/relay.go:120-134 | a marked row is on the bus; every message is the envelope of a committed row |
| Guarantees.OrderPerIncident | internal/outbox/relay.go:109-135 | first copies of an incident's events are a prefix of its committed rows, which are its commits' events in commit order |
| Guarantees.ReplayRebuildsTable | internal/domain/incident/service.go:299-327 | the last snapshot in insertion order is the current row, modulo nil attributes, and exists exactly for existing incidents |
| Guarantees.ProjectionHoldsPastRows | internal/domain/incident/service.go:295-347 | what the deduplicating reader holds was the incident's row at some moment of the run |
| Guarantees.CommitTime | internal/persistence/pool.go:96-100 | each logged row was the stored row after some prefix of the run |
| Guarantees.ProjectionMovesForward | internal/outbox/relay.go:101-137 | at a later moment the reader has reached the same or a later commit |
| Guarantees.DrainedProjectionIsTable | internal/outbox/relay.go:101-137 | once every good row is marked the reader's table equals the incident table, modulo nil attributes |
| Guarantees.FrameSoundness | internal/domain/incident/service.go:321-325 | consecutive snapshots differ only in changed_fields, updated_at, and closed_at when status is named, under any interleaving |
| Guarantees.ClosureInvariant | internal/domain/incident/service.go:260-263 | closed implies closed_at, closed_at if and only if ever closed, created_at <= updated_at |
| Guarantees.ClosedAtNeverCleared | internal/persistence/incidents.go:139-140 | closed_at, once set, is set at every later moment; created_at never changes |
| Guarantees.AuditMatchesEvents | internal/audit/audit.go:50-105 | success audit rows and created/updated events match one to one, in order, by actor, tenant, target and correlation id, with the number of outbox rows per action |
| Guarantees.CopyConservation | internal/outbox/relay.go:120-134 | copies lie between accounted publishes and twice the Publish calls, and equal marks plus failed marks plus a pending one when failed publishes deliver nothing |
| Guarantees.FaultFreePublishesOnce | internal/outbox/relay.go:109-135 | a fault-free run puts exactly one copy of a marked row on the bus and none of an unmarked one |
| StatusPaths.ClosedEventsAreClosings | internal/domain/incident/service.go:337-346 | closed events are exactly the announced changes to closed, under any interleaving |
| StatusPaths.CommitConnectsExactly | internal/domain/incident/service.go:251-259 | a commit keeps the status events connected if and only if its Patch named no status or had read the current one |
| StatusPaths.FreshRunsConnect | internal/domain/incident/service.go:328-336 | when every UPDATE finds the status its Patch read, all incidents stay connected |
| StatusPaths.StatusEventsFormAPath | internal/domain/incident/service.go:328-346 | then status_changed events form a path from `new` to the row's status with the lifecycle arithmetic |
| Overlap.SerialRunsAreFresh | internal/domain/incident/service.go:222-259 | when the Patches of each incident do not overlap, every UPDATE finds the status its Patch read, whatever else interleaves |
| Overlap.SerialStatusPath | internal/domain/incident/service.go:247-346 | the status path and its arithmetic for every run of non-overlapping Patches |
| Overlap.PatchAloneIsFresh | internal/domain/incident/service.go:222-259 | a Patch that runs alone validates against the row it updates |
| Overlap.OverlapBreaksPath | internal/domain/incident/service.go:222-259 | after any run without overlap, two Patches that read the same row break the path if the first to commit changes the status and the other names one, for all such pairs |
| Overlap.OverlapHappens | internal/domain/incident/service.go:222-259 | a concrete run from the empty database that breaks the path |
| Serial.PatchAlone | internal/domain/incident/service.go:288-348 | a Patch alone is a run and leaves exactly its row, its audit row, and its one to three events in order |
| Serial.CreateAlone | internal/domain/incident/service.go:141-159 | a Create whose external id is free is a run, whatever else is open, and leaves exactly its row, its audit row, its created event and one log entry, with all else unchanged |
| Stamps.ReachableTimesDistinct | internal/domain/incident/service.go:110-158 | in every reachable state all outbox rows, committed or not, and all rows prepared by open transactions have pairwise distinct created_at |
| Database.Store.GetByID | internal/persistence/incidents.go:78-98 | the row of this tenant as the transaction sees it, or not found, or the failure |
| Database.Store.Insert | internal/persistence/incidents.go:52-73 | succeeds exactly when it neither fails nor clashes with the unique index, and stages just the row |
| Database.Store.Update | internal/persistence/incidents.go:123-157 | stages the COALESCE/CASE update of the current row under the row lock, or changes nothing visible |
| Database.Store.InsertAudit | internal/persistence/audit.go:36-52 | stages the transaction's audit row, or changes nothing visible |
| Database.Store.Enqueue | internal/persistence/outbox.go:34-44 | appends the next event of the transaction, invisible until the commit |
| Database.Store.Commit | internal/persistence/pool.go:99-102 | all staged writes become visible at once, or none |
| Database.Store.Rollback | internal/persistence/pool.go:87-98 | drops everything staged; nothing a reader sees differs |
| Database.Store.InsertDenial | internal/domain/incident/service.go:199-206 | a denial is its own transaction: one refused audit row or nothing |
| Requests.CreatedIsTold | internal/domain/incident/service.go:110-158 | a lone Create's row, snapshot, audit row and outbox row, each field from the request; one correlation id on all, the given one if any |
| Requests.PatchPlanExactly | internal/domain/incident/service.go:222-293 | when a Patch is accepted, which error it gets otherwise, and when it has anything to write |
| Requests.PatchedIsTold | internal/domain/incident/service.go:288-348 | a lone Patch's row, audit row and one to three events, each field from the request and the row before; one correlation id on all, the given one if any |
| Origins.EveryCommitWasAsked | internal/domain/incident/service.go:72-354 | in every run, each commit goes back to a Create or Patch request of the run: its fields, its actor, its correlation id on the audit row and every event |
| Origins.MessagesCorrelate | internal/domain/incident/service.go:108-112 | every message on the bus has a correlation id |
| Origins.ExternalIdsStayUnique | migrations/0001_init.up.sql:86-88 | in every run no two incidents of a tenant and source connector share an external id |
| Service.Service.Correlation | internal/domain/incident/service.go:208-210 | a given id is kept and none is drawn; a missing one is replaced by a fresh one |
| Service.Service.AuditRecord | internal/audit/audit.go:83-103 | the audit row, with uuid.Nil left out as correlation id |
| Service.Service.RecordDenial | internal/domain/incident/service.go:199-206 | a denied request writes one refused audit row with its actor, tenant, action, target and correlation id, or nothing when that fails |
| Service.Service.EnqueueEvent | internal/domain/incident/service.go:389-412 | the envelope carries the given payload, actor and correlation id, its row the same id and stamp |
| Service.Service.ComputePlan | internal/domain/incident/service.go:229-284 | the branching computation equals the plan function, with one or two clock readings |
| Service.Service.Remaining | internal/domain/incident/service.go:265-284 | assignee, attributes and tags: refused exactly for refused attributes, equal tags elided |
| Service.StringSliceEqual | internal/domain/incident/service.go:439-449 | the loop decides equality of the two slices |
| Service.Service.Create | internal/domain/incident/service.go:72-165 | succeeds if and only if allowed, titled, of known severity, accepted, its external id free, and no call fails; then exactly one row, audit row and event with the request's fields, else nothing but a denial, with the error told |
| Service.Service.CreateAllowed | internal/domain/incident/service.go:106-165 | the same once authorized and validated, with the exact steps taken |
| Service.Service.WriteCreated | internal/domain/incident/service.go:142-159 | Create's transaction is all or nothing, whichever call fails |
| Service.Service.FinishCreated | internal/domain/incident/service.go:147-158 | the same from the inserted row on, with the exact steps taken |
| Service.Service.Patch | internal/domain/incident/service.go:191-354 | succeeds if and only if allowed, found, acceptable and no call it makes fails; then exactly the row, audit row and events the request asks for, or nothing when it names no change; on error nothing but a denial, with the error told |
| Service.Service.PatchAllowed | internal/domain/incident/service.go:222-353 | the same for an authorized Patch, error by error |
| Service.Service.WritePlanned | internal/domain/incident/service.go:295-348 | UPDATE, re-read, audit, events and commit: all or nothing, returning the stored row |
| Service.Service.FinishPlanned | internal/domain/incident/service.go:308-348 | audit row, events and commit, with the exact steps taken |
| Service.Service.SendEvents | internal/domain/incident/service.go:319-347 | updated always, status_changed on a real change, closed on a change to closed, in this order |
| TenantOrder.TenantOrderExactly | internal/outbox/relay.go:121-123 | in every run, a tenant's first copies are a prefix of its committed rows in created_at order if and only if no commit was older than a row on the bus and no publish overtook an older committed row |
| TenantOrder.StepInOrder | internal/outbox/relay.go:109-135 | from an ordered state a step keeps the tenant's order if and only if its guard holds |
| TenantOrder.NewInOrder | internal/persistence/outbox.go:51-60 | one more first copy is in order if and only if every older committed row of the tenant is on the bus |
| TenantOrder.BrokenStays | internal/outbox/relay.go:121-123 | a tenant order once broken is never repaired |
| TenantOrder.FinishedTenantOrder | internal/outbox/relay.go:121-123 | when all the tenant's rows are on the bus, their first copies follow created_at if and only if the run was never late |
| TenantOrder.OnTimeStep | internal/outbox/relay.go:109-135 | with commits on time, every step keeps the bus and the fetched batch in the tenant's order |
| TenantOrder.LateCommitBreaks | internal/outbox/relay.go:109-135 | after a commit that is not on time the relay alone can break the order |
| TenantOrder.CommitGuardExactly | internal/outbox/relay.go:121-123 | every moment of a run is safe for the tenant's order, whatever the relay does next, if and only if each commit's rows were not older than one on the bus or in the batch |
| Overtaking.OverlapOvertakes | internal/domain/incident/service.go:110-158 | after any run that left nothing to publish, two overlapping Creates of one tenant can end with everything published against created_at order |
| Overtaking.TenantOrderBreaks | internal/outbox/relay.go:121-123 | a concrete run from the empty database that ends out of the tenant's order |
| Overtaking.StaleBatchOvertakes | internal/outbox/relay.go:109-135 | a concrete run in which no commit is older than what is on the bus, and a batch fetched earlier still breaks the tenant's order |
| Publishing.PublishCopiesBounded | internal/events/publisher.go:95-138 | one Publish delivers at most two copies, at least one on success, and two only after a retry |
| Publishing.Publisher.Send | internal/events/publisher.go:103-125 | one send: nothing without a channel, else none or one copy |
| Publishing.PublishExactly | internal/events/publisher.go:95-138 | verdict, copies and retry of a Publish call, attempt by attempt |
| Publishing.Publisher.Publish | internal/events/publisher.go:95-138 | succeeds if and only if the last attempt made was delivered: the first on a live channel, or the one after a reconnect; the copies on the bus and the connection afterwards |
| Database.Store.SelectUnpublished | internal/persistence/outbox.go:55-61 | the `limit` oldest unpublished visible rows, oldest first, and all of them when there are fewer |
| Relay.Relay.FetchUnpublished | internal/persistence/outbox.go:51-78 | the oldest unpublished rows, at most the limit, 100 when it is out of range; nothing on an error |
| Relay.Relay.MarkPublished | internal/persistence/outbox.go:82-89 | sets published_at on that row alone, or nothing |
| Relay.Relay.PublishHead | internal/outbox/relay.go:120-127 | publishing the head of the batch is one machine step with the publisher's verdict and copies |
| Relay.Relay.MarkHead | internal/outbox/relay.go:128-134 | marking is one machine step; a failed mark leaves the row unpublished |
| Relay.Relay.HandleRow | internal/outbox/relay.go:109-135 | skip a malformed row; publish, and stop exactly when neither attempt is delivered; mark, and carry on after a failed mark |
| Relay.Relay.HandleRows | internal/outbox/relay.go:109-136 | the loop over a batch takes exactly the steps spelled out for its rows |
| Relay.Relay.DrainOnce | internal/outbox/relay.go:101-137 | a drain fetches the oldest unpublished rows, takes exactly the steps spelled out for them and reports only a failed fetch |
| Relay.Relay.RunTicks | internal/outbox/relay.go:75-97 | tick by tick: nothing when the fetch fails, else a drain of the hundred oldest unpublished rows from that tick's state |
| Relay.Relay.Run | internal/outbox/relay.go:75-97 | the same, and without faults P / (100 - m) ticks, rounded up, leave none of P waiting rows unpublished when m < 100 malformed rows are ahead |
| Relay.TicksEmptyQueue | internal/outbox/relay.go:75-97 | that bound for every run of the ticker |
| Progress.FetchExists | internal/persistence/outbox.go:55-61 | whatever the tables hold, the fetch query has an answer |
| Progress.ServedHead | internal/outbox/relay.go:120-134 | a row whose first send fails and whose retry is delivered is on the bus and marked, and the batch goes on |
| Progress.ServedBatchRun | internal/outbox/relay.go:109-135 | a batch in which every publish is delivered at the first attempt or after a reconnect, and every mark works, is published and marked in full |
| Progress.DrainRun | internal/outbox/relay.go:101-137 | a fault-free drain runs exactly on answers of the query, publishes and marks their good rows in order, and changes nothing else |
| Progress.DrainProgress | internal/outbox/relay.go:101-137 | a drain empties the queue of good rows or shortens it by 100 less the malformed rows ahead |
| Progress.ProgressBound | internal/outbox/relay.go:62-63 | P waiting rows and m < 100 malformed ones ahead: P / (100 - m) drains, rounded up, publish all P |
| Progress.DrainsExist | internal/outbox/relay.go:75-97 | any number of fault-free drains can follow each other |
| Progress.StarvedForever | internal/outbox/relay.go:111-119 | a row behind 100 older malformed rows stays unpublished in every run, whatever else happens |
| Progress.StarvationHappens | internal/outbox/relay.go:111-119 | a run from the empty database into that state: 100 malformed rows, then one Create |
| Progress.EmptiesExactlyBelowBatch | internal/outbox/relay.go:111-119 | in every reachable state between drains, all waiting rows can be published if and only if fewer than 100 malformed rows are ahead of the youngest |
| Connector.HeaderNamesReference | cmd/reference-connector/main.go:49-49 | the connector's header parses to the principal its own events carry |
| Connector.IncidentJson | internal/domain/incident/service.go:492-523 | the snapshot object has every field under its key, and the nil ones left out |
| Connector.AddFirstOptional | internal/domain/incident/service.go:504-512 | external_id, description and assignee_id appear exactly when set |
| Connector.AddLastOptional | internal/domain/incident/service.go:513-521 | source_connector_id, attributes and closed_at appear exactly when set |
| Connector.SnapshotReadsBack | internal/domain/incident/service.go:490-523 | read back under its documented key, every field of the wire form is what it was |
| Connector.TextsReadBack | internal/domain/incident/incident.go:35-64 | the wire texts of statuses and severities read back to them |
| Connector.WireKeepsSnapshot | internal/domain/incident/service.go:490-523 | two valid snapshots with the same object are equal: the wire form loses nothing |
| Connector.PriorTags | cmd/reference-connector/main.go:153-173 | the text items of payload.incident.tags in order, none for any other shape |
| Connector.TextItemsConcat | cmd/reference-connector/main.go:166-172 | items of two lists, one after the other |
| Connector.TextItemsOfOne | cmd/reference-connector/main.go:166-172 | a text is kept, anything else skipped |
| Connector.Contains | cmd/reference-connector/main.go:175-182 | the loop decides membership |
| Connector.TagsSurviveTheWire | cmd/reference-connector/main.go:150-173 | read from the wire form of a snapshot, the tags are the snapshot's tags |
| Connector.HandleCallEffect | cmd/reference-connector/main.go:135-147 | the PATCH succeeds exactly on incidents of its tenant, writes exactly when the tags are not enriched yet, and then changes tags and updated_at alone |
| Connector.SecondHandlingDoesNothing | cmd/reference-connector/main.go:135-147 | a duplicate with no tag edit in between takes no step at all |
| Connector.ToldEnriches | cmd/reference-connector/main.go:271-281 | the tags, updated_at and nothing else change; the updated event and the audit row carry the connector's name and the message's correlation id |
| Connector.ReferenceConnector.HandleEnvelope | cmd/reference-connector/main.go:121-148 | acts only on created events of others, with the enriched tags; fails exactly when the PATCH does |
| Connector.ReferenceConnector.PatchIncidentTags | cmd/reference-connector/main.go:271-281 | the request decodes to a tags-only patch of the connector's principal and tenant with the correlation id forwarded |
| Connector.ReferenceConnector.Subscribe | internal/events/subscriber.go:115-137 | every delivery that decodes is handled once, in order; malformed ones and handler errors are dropped |
| Feedback.LoopIsRun | cmd/reference-connector/main.go:107-110 | every run of relay and connector together is a run of the machine |
| Feedback.StepKeepsLoop | cmd/reference-connector/main.go:121-148 | every step keeps the invariants, and at most one tags-only Patch of the connector under way |
| Feedback.TakeWeight | cmd/reference-connector/main.go:121-148 | taking a message strictly lowers the weight, whether or not it starts a Patch |
| Feedback.PatchStepWeight | internal/domain/incident/service.go:295-348 | the statements of a connector Patch keep the weight: its commit trades it for one row |
| Feedback.RelayStepWeight | internal/outbox/relay.go:109-135 | each publish lowers the weight by exactly one, every other relay step keeps it |
| Feedback.LoopRunsOut | cmd/reference-connector/main.go:130-133 | publishes plus messages taken plus remaining weight never exceed the starting weight, with relay steps interleaved anywhere inside the connector's Patches |
| Quiescence.QuiescentWeighsNothing | internal/outbox/relay.go:101-137 | a resting loop weighs nothing if and only if all is published, marked and handled |
| Quiescence.DrainPublishes | internal/outbox/relay.go:101-137 | with a good row and fewer than 100 malformed ones waiting, a drain lowers the weight, whatever interleaves with it |
| Quiescence.RoundWorks | internal/outbox/relay.go:75-97 | a fair round with work to do publishes a row or takes a message |
| Quiescence.EveryFairRunRests | internal/outbox/relay.go:75-97 | every fault-free run in which the relay keeps draining and the connector keeps taking messages, in any interleaving, has come to rest after as many rounds as the state weighs |
| Quiescence.LoopComesToRest | internal/outbox/relay.go:75-97 | fair runs are never stuck: one to rest exists from every such state |
| Tagging.CreatedMessage | internal/domain/incident/service.go:126-135 | a created message on the bus is its incident's one created event, with the original tags and creator |
| Tagging.CreatedIsOnBus | internal/outbox/relay.go:120-134 | once drained, the created event of every incident is on the bus |
| Tagging.EnrichedTwice | cmd/reference-connector/main.go:136-140 | enriching keeps the tags in order, adds at most one, contains the tag, and is idempotent |
| Tagging.StartsUnedited | cmd/reference-connector/main.go:135-140 | after any run whose Patches left an incident's tags alone the connector starts in the state the next three rows need |
| Tagging.TagsAtRest | cmd/reference-connector/main.go:121-148 | at rest each incident has its original tags, enriched exactly when it is of the connector's tenant and somebody else created it |
| Tagging.TagPresentAtRest | cmd/reference-connector/main.go:130-140 | the enrich tag is present at rest if and only if it was there or the connector had to add it |
| Tagging.TagsAfterEveryFairRun | cmd/reference-connector/main.go:121-148 | every fair run reaches that rest, with those tags |

## Left out

- Overlap.SerialStatusPath: needs Patches of one incident not to overlap, because the claim is false otherwise; the exact condition at a commit is StatusPaths.CommitConnectsExactly.
- Progress.ProgressBound: drains follow each other without new arrivals in between, as the bound has no meaning with arrivals; StarvedForever allows every interleaving.
- Quiescence.EveryFairRunRests: a round starts and ends between drains and between Patches, and fewer than 100 malformed rows wait; with 100 ahead of a good row there is no rest, by StarvedForever.
- Tagging.TagsAtRest: speaks of incidents whose only tag edits are the connector's, and of fault-free runs; a failed PATCH is dropped by the subscriber and leaves the incident without the tag.
- Service.Service.Patch: the method runs one request at a time on the store; overlapping requests are covered by the step machine, whose actions are the same statements.
- Relay.Relay.Run: stops after a given number of ticks instead of on cancellation, and nobody else commits between its ticks; the machine's runs allow any number of drains at any time.
- A commit whose outcome the client cannot tell; a failed commit is taken as not committed.
- An HTTP response lost after the connector's PATCH was applied: the error would be dropped all the same.
- Marshal errors of envelopes and audit columns, which the code calls programmer errors.
- The update's zero-rows check: the row was read before and incidents are never deleted.
- HTTP routing and middleware: missing headers, the default tenant, status codes.
- Incident list filtering and paging, the plain Get endpoint, and response formatting: easy members.
- Connector registration and heartbeat storage, health checks, configuration, logging, start-up retries.
- JSON Schema validation itself and JSON values inside attributes; number formats on the wire.
- RabbitMQ queues, topic matching, redelivery and acknowledgement: the connector takes each bus message once.

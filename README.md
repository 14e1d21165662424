# Bacon tasking, modelled in Dafny

This project models the tasking subsystem for asynchronous implants
("bacons") in better-sliver-package, and proves properties of the model.
A bacon does not hold a connection open. It registers, then checks in
from time to time. At each check-in it either polls for its queued tasks
or hands back the results of earlier ones. The operator's client queues
work for a bacon through the server's RPCs and lists or cancels that
work. It also picks which session or bacon later commands act on.

The model has two sides.

- **Server** (`Handlers`, `RpcBeacons`, `RpcKill`, over `TaskTable`,
  `BaconTable` and `ServerState`). The database is a `Server` object.
  It holds:
  - the bacon rows, with unique ids;
  - the task rows, with unique ids, in creation order;
  - the event broker's log, append-only;
  - the live session table;
  - the requests handed to live sessions without waiting for a reply.

  Each task moves PENDING → SENT → COMPLETED, or PENDING → CANCELED.
  A registration is an upsert into the bacon table. An empty poll
  drains the bacon's pending tasks, oldest first, into one reply batch
  and marks each SENT. A check-in that carries results marks the
  matched tasks COMPLETED and hands out nothing. Only a PENDING task can
  be cancelled. Removing a bacon deletes its tasks first, then its row.
  Kill sends a live session its request at once; for a bacon it queues
  an asynchronous kill task instead.
- **Client** (`ClientState.Console` and one module per command). The
  console object holds:
  - the active target, at most one of a session or a bacon;
  - the socks proxy registry;
  - the callbacks waiting for task results;
  - a log of the RPCs a command sends (see below);
  - the printed lines.

  The commands modelled are `use`, `use bacons`, `info` and its
  siblings, `getprivs`, `bacons` (listing, kill and kill-all),
  `bacons prune`, the `taskmany` wrapper, `generate beacon`'s interval
  rules, `tasks cancel` and `kill`.

Some things the model takes as inputs: listing RPC replies, the user's
choice in a prompt, the clock, and database failures (as flags or sets of
failing ids). The console's `rpcs` log records every request whose content
depends on the command's arguments, the active target or an earlier reply:
kills, removals, cancels, the per-id lookups (`GetBacon` in prune,
`GetBaconTasks` and `GetBaconTaskContent` in tasks cancel), token owner,
privileges and integrity updates. The argument-free listings
(`GetSessions`, `GetBacons`) are inputs given as their replies and are not
logged. Serialized protobuf bytes are the `Wire` datatype, and
decoding is its partial inverse.

Where the code does less than one might expect, the model follows the
code:

- A pending task whose stored request does not decode is skipped before
  its state changes, so it stays PENDING and is retried at every poll
  (`TaskTable.DrainKeepsUndecodable`).
- Recording a result does not check that the task is SENT, so a result
  completes even a CANCELED task (`TaskTable.CanceledTaskCompletedByResult`).
- `RmBacon` is not atomic: when the row delete fails after the task
  delete succeeded, the tasks are gone and the bacon is still listed
  (`RpcBeacons.RmBacon`).
- The pending query is not a dedicated index in the code. The model
  returns the bacon's PENDING rows in table order and keeps the table in
  creation order, so this query is the oldest-first query the handler's
  comment describes (`TaskTable.PendingForFifo`).

## Model

| member | source | states |
|---|---|---|
| Handlers.RegistrationBase | server/handlers/beacons.go:54-65 | a registration starts from the stored row, or a fresh row that carries only the message's id |
| Handlers.Registered | server/handlers/beacons.go:66-89 | every descriptive field comes from the message or the connection; NextCheckin is now plus the reported delay; id, integrity, liveness and task counts are kept |
| Records.NewBacon | server/handlers/beacons.go:61-65 | a bacon created by registration has the message's id and no integrity |
| Handlers.RegisterIntoEffect | server/handlers/beacons.go:54-94 | a saved registration is an upsert keyed by id: the id now maps to the registered row, other ids are untouched, ids stay unique, and only an unknown id adds a row (exactly one) |
| Handlers.RegistrationReplayIdempotent | server/handlers/beacons.go:54-94 | replaying the same registration leaves the table as one registration did |
| Handlers.BaconRegisterHandler | server/handlers/beacons.go:46-105 | an undecodable message or a lookup error other than not-found writes nothing and publishes nothing; otherwise the row is upserted unless the save fails, and exactly one BaconRegistered event is published either way; there is never a reply |
| Handlers.BaconTasksHandler | server/handlers/beacons.go:124-186 | an undecodable message gets no reply; a message with results records them, gets no reply and hands out no task; a failed pending query changes nothing; an empty poll replies with a MsgBaconTasks envelope holding the batch, even an empty one, and leaves the table drained |
| Handlers.DrainPending | server/handlers/beacons.go:157-175 | the loop returns the batch of the bacon's pending tasks in creation order and leaves the table as `Drained` describes |
| Handlers.BaconTaskResults | server/handlers/beacons.go:188-217 | the task table and event log after the results loop are those `RecordResults` gives, where an envelope whose task is not found, or whose row's read or update fails (the ids in `failedUpdates`), is skipped; bacons, sessions and deliveries are unchanged |
| Handlers.RecordEnvelope | server/handlers/beacons.go:189-214 | one iteration records one envelope as `RecordOne` describes |
| TaskTable.PendingForFifo | server/handlers/beacons.go:151-152 | the pending query hands tasks out in creation order |
| TaskTable.PendingForUnique | server/handlers/beacons.go:152-158 | the pending tasks of one bacon have distinct ids |
| TaskTable.ReplaceByIdAt | server/handlers/beacons.go:169-171 | with unique ids, an update keyed by task id rewrites exactly the one row with that id |
| TaskTable.Batch | server/handlers/beacons.go:157-166 | the batch has one envelope per pending task that decodes, in order; each is that task's decoded request, stamped with its envelope id |
| TaskTable.BatchStamped | server/handlers/beacons.go:159-166 | envelope k of the batch carries the envelope id of a pending task whose request decodes |
| TaskTable.MarkSentStep | server/handlers/beacons.go:167-175 | one loop iteration marks exactly the current task SENT at now, unless it does not decode or its update fails |
| TaskTable.DrainedRows | server/handlers/beacons.go:158-175 | after a poll, a row is SENT at now exactly when it is a decodable pending task of the bacon whose update succeeded; every other row is unchanged |
| TaskTable.DrainedLegal | server/handlers/beacons.go:158-175 | a drain only moves tasks from PENDING to SENT and keeps ids unique and creation order |
| TaskTable.DrainNoRedelivery | server/handlers/beacons.go:158-175 | a task handed out and marked SENT is not pending for the next poll |
| TaskTable.DrainKeepsUndecodable | server/handlers/beacons.go:160-164 | a pending task whose request does not decode keeps its row, state included |
| TaskTable.AppendWellFormed | server/rpc/rpc-kill.go:74-80 | queueing a task with a fresh id, created no earlier than every row, keeps the table well formed |
| TaskTable.EnqueueThenPoll | server/rpc/rpc-kill.go:74-80 | a newly queued task is pending last, and the next poll's batch ends with its stamped envelope |
| TaskTable.FindByEnvelope | server/handlers/beacons.go:190-198 | the lookup finds a row of the bacon with that envelope id, or reports that none exists |
| TaskTable.RecordResultsShape | server/handlers/beacons.go:188-216 | recording results keeps every row's identity; a row stays as it was or becomes COMPLETED; only the reporting bacon's rows change; at most one event per result, each carrying a COMPLETED task of that bacon |
| TaskTable.RecordResultsWellFormed | server/handlers/beacons.go:188-216 | recording results keeps the table well formed |
| TaskTable.RecordOneCompletes | server/handlers/beacons.go:199-214 | a result that matches one of the bacon's tasks, and whose update succeeds, completes that task at now with the envelope's data and publishes exactly one event |
| TaskTable.UnmatchedResultsAreNoops | server/handlers/beacons.go:190-194 | results that match no task of the bacon change nothing and publish nothing |
| TaskTable.CanceledTaskCompletedByResult | server/handlers/beacons.go:199-201 | on a concrete table, a CANCELED task that receives a result becomes COMPLETED, a transition the state machine does not allow, because the code does not check SENT |
| TaskTable.CompletedAtMostAll | server/rpc/rpc-beacons.go:43-48 | a bacon never has more completed tasks than tasks |
| TaskTable.WithoutBaconEffect | server/rpc/rpc-beacons.go:71-73 | the task delete leaves the bacon with no task, no completed task and no pending task, and keeps every task of other bacons |
| TaskTable.WithoutBaconWellFormed | server/rpc/rpc-beacons.go:71-73 | the task delete keeps the table well formed |
| TaskTable.FindById | server/rpc/rpc-beacons.go:98-101 | the lookup finds the row with that task id, or reports that none exists |
| TaskTable.CancelRemovesFromPending | server/rpc/rpc-beacons.go:111-113 | a cancelled task leaves the pending query and nothing else leaves it |
| TaskTable.CancelLegal | server/rpc/rpc-beacons.go:111-113 | cancelling is a legal PENDING → CANCELED transition and keeps the table well formed |
| BaconTable.FindBacon | server/rpc/rpc-beacons.go:132-134 | the lookup finds the row with that bacon id, or reports that none exists |
| BaconTable.LookupUnique | server/handlers/beacons.go:54 | with unique ids, looking up a row's id finds that row |
| BaconTable.UpsertEffect | server/handlers/beacons.go:91 | a save makes the row the one found under its id, leaves other ids alone, keeps ids unique, and grows the table only for an unknown id |
| BaconTable.UpsertIdempotent | server/handlers/beacons.go:91 | saving the same row twice is saving it once |
| BaconTable.RemoveBaconEffect | server/rpc/rpc-beacons.go:78 | after the delete the id is unknown and every other bacon is still found as before |
| RpcBeacons.WithCounts | server/rpc/rpc-beacons.go:42-49 | a listed bacon keeps its id and gets completed ≤ all task counts, which are zero when the count fails |
| RpcBeacons.GetBacons | server/rpc/rpc-beacons.go:36-51 | a failed listing is ErrDatabaseFailure; otherwise every bacon is returned in table order with its (all, completed) counts, and a failed count does not fail the listing |
| RpcBeacons.GetBacon | server/rpc/rpc-beacons.go:54-61 | a bacon is returned exactly when one with that id is stored and the read succeeds; otherwise ErrDatabaseFailure |
| RpcBeacons.RmBacon | server/rpc/rpc-beacons.go:64-84 | an unknown id or a failed read of the bacon is ErrInvalidBaconID and deletes nothing; a failed task delete deletes nothing; otherwise the tasks are deleted, then the row, and a failed row delete leaves the tasks deleted |
| RpcBeacons.GetBaconTasks | server/rpc/rpc-beacons.go:87-94 | an unknown bacon or a failed read of it is ErrInvalidBaconID; a failed task query is the database error with no tasks; otherwise exactly its tasks, in table order |
| RpcBeacons.GetBaconTaskContent | server/rpc/rpc-beacons.go:97-103 | a task is returned exactly when one with that id is stored and the read succeeds; otherwise ErrInvalidBaconTaskID |
| RpcBeacons.CancelBaconTask | server/rpc/rpc-beacons.go:106-127 | an unknown id or a failed first read is ErrInvalidBaconTaskID and changes nothing; a PENDING task becomes CANCELED and the re-read task is returned, unless the save fails (ErrDatabaseFailure, nothing changes); when the re-read fails the task stays CANCELED but the reply is ErrInvalidBaconTaskID; a task in any other state is returned unchanged with ErrInvalidBaconTaskCancelState |
| RpcBeacons.UpdateBaconIntegrityInformation | server/rpc/rpc-beacons.go:130-142 | only the named bacon's integrity changes; an unknown id or a failed read of the bacon is ErrInvalidBaconID; a failed save changes nothing |
| RpcKill.RewriteForBacon | server/rpc/rpc-kill.go:66-69 | the queued request has no session id, is async, is addressed to the bacon and keeps the timeout |
| RpcKill.KillTaskDelivered | server/rpc/rpc-kill.go:70-80 | the kill task is handed out by the bacon's next poll after every earlier task, as a MsgKillSessionReq envelope that carries the rewritten request |
| RpcKill.KillDescription | server/rpc/rpc-kill.go:81-83 | a message name without a '.', as a descriptor's `Name()` is, is its own last '.'-separated segment, so the kill task is described by the whole name |
| RpcKill.Kill | server/rpc/rpc-kill.go:35-50 | a live session under the request's session id takes the session path and the bacon table is not consulted; otherwise an unknown bacon, or a failed read of it, is ErrInvalidBeaconID and queues nothing, and a known one takes the bacon path, where a failed insert queues nothing and a failed save queues the task undescribed, both returning the database error |
| RpcKill.KillSession | server/rpc/rpc-kill.go:52-62 | the kill request is delivered to the session without waiting, the session leaves the table at once, and the call succeeds |
| RpcKill.InsertTask | server/rpc/rpc-kill.go:74-80 | inserting a fresh task appends exactly that row and keeps the server valid |
| RpcKill.SaveDescription | server/rpc/rpc-kill.go:84-86 | saving the task again changes only that row's description |
| RpcKill.KillBeacon | server/rpc/rpc-kill.go:64-87 | a failed `bacon.Task` insert returns the database error and queues nothing; otherwise one PENDING kill task carrying the rewritten request is appended, and its description is set unless the save fails, which returns the database error |
| Records.EnvelopeRoundTrip | server/handlers/beacons.go:159-160 | in this model's stand-in for the serialized task bytes (a `Wire` value that holds the envelope), unwrapping gives the envelope back; protobuf encoding itself is not modelled |
| Records.StateNamePending | client/command/tasks/tasks-cancel.go:32 | a task's state text reads "pending" exactly when it is PENDING |
| Use.SessionOrBaconByID | client/command/use/use.go:73-95 | the first session whose id has the prefix wins; bacons are searched only when no session matches; with no match the error names the id; failed listings are passed on |
| Use.SessionKeys | client/command/use/use.go:108-112 | the session keys are exactly the listed session ids |
| Use.SessionKeysSorted | client/command/use/use.go:108-112 | the session keys are ascending, one per listed session |
| Use.SelectionErrors | client/command/use/use.go:98-173 | a pick fails only when a listing fails, when both listings are empty, or when no line is picked |
| Use.SelectionSound | client/command/use/use.go:174-182 | with one option per row, a picked target is listed, and the picked line is that target's line |
| Use.PickedSound | client/command/use/use.go:174-182 | with one option per row, the target of the first matching option is listed, and the option is its line |
| Use.SessionsTakePrecedence | client/command/use/use.go:137-180 | with one option per row and unique session ids, picking a listed session's line selects a session even when a bacon renders the same line |
| Use.SessionsByKey | client/command/use/use.go:104-112 | the session map and its sorted keys are built from the listing |
| Use.BaconsByKey | client/command/use/use.go:119-127 | the bacon map and its sorted keys are built from the listing |
| Use.SelectionAsWrittenAgrees | client/command/use/use.go:163-179 | when no listed session's or bacon's line holds a newline, the split options pick exactly what one option per row picks, errors included |
| Use.OptionTargetAsWrittenAgrees | client/command/use/use.go:163-179 | the same for the picked target alone |
| Use.SplitSessionRowPicksBacon | client/command/use/use.go:163-179 | with a session whose host name is "a\nb" and a bacon whose host name is "c", picking the option "b" makes the bacon the active target, where one option per row matches nothing |
| Use.SelectSessionOrBacon | client/command/use/use.go:98-183 | the method returns exactly what `Selection` specifies, one option per row: option i below the number of session keys is the i-th session by id, and later options are bacons by id |
| Use.PickOption | client/command/use/use.go:137-182 | the options are rendered from the keys, and the picked option is mapped back through its index |
| Use.UseByIdDecides | client/command/use/use.go:54-58 | with an id argument the picker is never consulted, and a missing target is always an error |
| Use.UseCmd | client/command/use/use.go:43-70 | an error is printed and the target is unchanged; a found session or bacon becomes the only active target |
| Use.UseBaconError | client/command/use/beacons.go:35-42 | ErrNoBacons reads "No bacon available", ErrNoSelection reads "No bacon selected", and any other error is printed as is |
| Use.UseBaconCmd | client/command/use/beacons.go:29-44 | a picked bacon becomes the only active target; otherwise the mapped error is printed and nothing else changes |
| BaconHelpers.GetBacon | client/command/beacons/helpers.go:105-121 | a listing error is passed on; an empty listing is ErrNoBacons; otherwise the result is the first bacon whose id equals or starts with the argument, or ErrBaconNotFound |
| BaconHelpers.GetBacons | client/command/beacons/helpers.go:123-134 | succeeds exactly for a non-empty listing, which it returns unchanged; otherwise the listing's error or ErrNoBacons |
| BaconHelpers.BaconKeys | client/command/beacons/helpers.go:57-65 | the option keys are the listed ids, strictly ascending |
| BaconHelpers.BaconSelectionSound | client/command/beacons/helpers.go:90-102 | with one option per row, a picked bacon is listed, and the picked line is its line |
| BaconHelpers.BaconSelectionComplete | client/command/beacons/helpers.go:71-101 | with one option per row, unique ids and distinct lines, picking a listed bacon's line selects that bacon |
| BaconHelpers.BaconSelectionAsWrittenAgrees | client/command/beacons/helpers.go:84-99 | when no listed bacon's line holds a newline, splitting the rendered table at newlines and mapping the option index to keys[index] picks exactly what one option per row picks |
| BaconHelpers.SplitRowOutOfRange | client/command/beacons/helpers.go:84-99 | a single bacon whose host name is "a\nb" is offered as options "a" and "b"; picking "b" indexes past the keys (a Go panic), where one option per row reports ErrNoSelection |
| BaconHelpers.SelectBacon | client/command/beacons/helpers.go:46-103 | the method returns exactly what `BaconSelection` specifies, one option per row: option index maps to keys[index]; an empty or unmatched pick is ErrNoSelection |
| Picking.ById | client/command/use/use.go:104-107 | the map built by the loop holds exactly the listed keys, each mapped to a listed element with that key |
| Picking.ByIdLast | client/command/use/use.go:104-107 | the map keeps the last element with a key |
| Picking.Distinct | client/command/use/use.go:123-126 | the keys of a map are the listed ids, each once |
| Picking.SortedDistinctSpec | client/command/use/use.go:123-127 | the sorted map keys are strictly ascending and are exactly the listed ids |
| Picking.SortedMapKeys | client/command/beacons/helpers.go:61-65 | whatever order the map iteration produces, the sorted keys are strictly ascending and exactly the map's keys |
| Picking.SplitLinesPieces | client/command/beacons/helpers.go:84 | `strings.Split(s, "\n")` as `SplitLines` models it: one piece more than `s` has newlines, and no piece holds a newline |
| Picking.SplitOptions | client/command/beacons/helpers.go:84-85 | the options, with the last empty piece removed, hold no newline |
| Picking.SplitOptionsPlain | client/command/beacons/helpers.go:84-85 | when no line holds a newline, the split options are exactly the rendered lines |
| Picking.SplitRowTwoOptions | client/command/beacons/helpers.go:84-85 | a line "a\nb" followed by plain lines is offered as "a", "b" and then those lines, shifting every later index by one |
| Picking.OptionLines | client/command/use/use.go:137-160 | one option per key, rendered from that key's element |
| Picking.IndexOf | client/command/use/use.go:174-175 | the first option equal to the picked line, or none when no option equals it |
| Common.FirstWhere | client/command/use/use.go:79-83 | the first element that satisfies the test, or none when no element does |
| Picking.MapByKey | client/command/beacons/helpers.go:57-60 | the map loop builds `ById` |
| Picking.RenderOptions | client/command/beacons/helpers.go:71-81 | the rendering loop builds `OptionLines` |
| Picking.FindOption | client/command/beacons/helpers.go:97-101 | the scan stops at the first equal option |
| Picking.CollectKeys | client/command/use/use.go:109-111 | the key loop collects every id in listing order |
| Sorting.SortBySorted | client/command/taskmany/taskmany.go:160-172 | sorting by id yields an ascending permutation of the listing |
| Sorting.SortStringsStrict | client/command/use/use.go:112 | sorting distinct keys yields a strictly ascending permutation |
| Sorting.StrictlySortedUnique | client/command/use/use.go:123-127 | a set of keys has exactly one strictly ascending arrangement, so the map's random order cannot matter |
| Strings.FirstSegment | client/command/beacons/beacons.go:182 | the text before the first separator: a prefix without the separator, followed by the separator or the end |
| Strings.LastSegment | server/rpc/rpc-kill.go:81-82 | the text after the last separator: a suffix without the separator, preceded by the separator or the start |
| Strings.RemoveChars | client/command/taskmany/taskmany.go:231-232 | removal keeps only characters of the input outside the removed set |
| Strings.RemoveCharsConcat | client/command/taskmany/taskmany.go:231-232 | removal distributes over concatenation |
| Strings.RemoveCharsIdempotent | client/command/taskmany/taskmany.go:231-232 | removing the same characters twice is removing them once |
| Strings.PadRight | client/command/privilege/getprivs.go:112-115 | `%-*s` gives the text padded to the width, or the text itself when it is longer |
| Strings.PadRightPads | client/command/privilege/getprivs.go:112-115 | the padded text starts with the original and continues with spaces only |
| Strings.ItoaRoundTrip | client/command/privilege/getprivs.go:94 | decimal printing can be read back, so it is injective |
| Strings.LexLeTotalOrder | client/command/use/use.go:112 | Go's string comparison is a total order |
| TaskMany.StripIsRemove | client/command/taskmany/taskmany.go:231-232 | the two ReplaceAll passes remove exactly the spaces and tabs |
| TaskMany.RemoveAroundSeparator | client/command/taskmany/taskmany.go:231-232 | stripping text around a run of separators is stripping each side |
| TaskMany.PickLinesSound | client/command/taskmany/taskmany.go:230-242 | every picked target is the map's entry for some picked line, stripped |
| TaskMany.PickLinesComplete | client/command/taskmany/taskmany.go:230-242 | a picked line whose stripped text is a key picks that key's entry |
| TaskMany.PickedAreListed | client/command/taskmany/taskmany.go:182-242 | every picked target was listed and was picked through one of the picked lines |
| TaskMany.AsWrittenNeverSelects | client/command/taskmany/taskmany.go:194-195 | as written, a session whose option text holds a space is never picked, whatever lines are picked |
| TaskMany.AsWrittenNeverSelectsBacon | client/command/taskmany/taskmany.go:210-211 | as written, the same holds for a bacon |
| TaskMany.CorrectedSelects | client/command/taskmany/taskmany.go:182-242 | with the corrected key, picking a listed session's displayed line picks that session, however the table padded it |
| TaskMany.CorrectedSelectsBacon | client/command/taskmany/taskmany.go:198-242 | with the corrected key, the same holds for bacons |
| TaskMany.SelectMultipleBaconsAndSessions | client/command/taskmany/taskmany.go:153-245 | for the key function `keyOf` given: failed listings are passed on; both listings empty is an error; no picked line is an error; otherwise the stripped picked lines are looked up in maps of the id-sorted listings keyed by `keyOf` of each option text. With `AsWrittenKey` (tabs removed only, lines 194 and 210) this is the code as written; with `CorrectedKey` the intended picker |
| TaskMany.PickAll | client/command/taskmany/taskmany.go:228-242 | the loop picks, in order, the entries of both maps for each stripped line |
| TaskMany.RunEach | client/command/taskmany/taskmany.go:119-141 | the command runs once per live target, in order, with that target alone active; tasked plus skipped equals the list's length |
| TaskMany.RunPicked | client/command/taskmany/taskmany.go:114-149 | live bacons run first, then live sessions; the saved active target is restored exactly; the counts, and the skipped counts when any, are printed |
| TaskMany.TaskManyCmd | client/command/taskmany/taskmany.go:103-151 | for the key function `keyOf` given (`AsWrittenKey` as written): a failed pick is printed, nothing runs and the target is untouched; otherwise the runs and summary of `RunPicked`, between blank lines |
| Prune.PruneSelection | client/command/beacons/prune.go:48-58 | a bacon is selected exactly when now is not before its next check-in and it is overdue by the duration or more |
| Prune.PruneMonotone | client/command/beacons/prune.go:55-57 | a longer duration selects no bacon that a shorter one leaves out |
| Prune.PruneLater | client/command/beacons/prune.go:49-58 | a bacon selected now is selected later too |
| Prune.PrunedCount | client/command/beacons/prune.go:79-87 | the count printed is the number of removals that succeeded |
| Prune.SelectStale | client/command/beacons/prune.go:48-58 | the loop computes `PruneSelection`; a bacon whose next check-in is ahead is never selected |
| Prune.ListForConfirm | client/command/beacons/prune.go:64-71 | each selected bacon is looked up again and listed with its 1-based number, or the lookup error is printed |
| Prune.RemoveAll | client/command/beacons/prune.go:79-86 | each selected bacon gets one RmBacon in order; failures are printed and counted and do not stop the loop |
| Prune.RemoveAndCount | client/command/beacons/prune.go:79-87 | the removals, then "Pruned N bacon(s)" with N = selected − failed |
| Prune.ConfirmAndRemove | client/command/beacons/prune.go:63-87 | the warning and the list are printed; RmBacon is issued only on confirmation |
| Prune.PruneCmd | client/command/beacons/prune.go:33-88 | a bad duration or a failed listing prints the error and issues nothing; no stale bacon prints "No bacons to prune." and removes nothing; otherwise list, confirm, remove and count |
| Generate.Wrap64 | client/command/generate/generate-beacon.go:45-47 | Duration arithmetic wraps to int64 and is exact when the value fits |
| Generate.UnitsExact | client/command/generate/generate-beacon.go:45-47 | without wrap-around the interval is days·24h + hours·1h + minutes·1min |
| Generate.IntervalExact | client/command/generate/generate-beacon.go:45-59 | without wrap-around the interval is the sum of the units, plus the seconds only when they are counted |
| Generate.SecondsRule | client/command/generate/generate-beacon.go:55-59 | seconds are added exactly when the flag was set, or when no day, hour or minute was given |
| Generate.ParseBaconFlags | client/command/generate/generate-beacon.go:41-69 | an interval under 5 s is ErrBaconIntervalTooShort and the configuration is untouched; otherwise the interval in ns and the jitter seconds × 1 s are stored |
| Generate.GenerateBaconCmd | client/command/generate/generate-beacon.go:19-39 | no configuration means nothing happens; otherwise IsBacon is set; a refused interval is printed and nothing is built; otherwise a local or external build starts in the save directory |
| TasksCancel.PickedTaskIsPending | client/command/tasks/tasks-cancel.go:24-45 | without an id only a pending task can be sent for cancellation, and with no pending task none is |
| TasksCancel.PendingTasks | client/command/tasks/tasks-cancel.go:30-35 | the loop keeps exactly the tasks whose state reads "pending", in order |
| TasksCancel.TasksCancelCmd | client/command/tasks/tasks-cancel.go:12-63 | no active bacon means no RPC; a listing, pick or fetch error is printed and nothing is cancelled; no pending task prints a message; otherwise one cancel RPC, and its error or "Task … canceled" |
| ClientKill.SocksWithout | client/command/kill/kill.go:78-86 | the proxies kept are exactly those of other sessions |
| ClientKill.SocksWithoutDistinct | client/command/kill/kill.go:78-86 | dropping proxies keeps proxy ids distinct |
| ClientKill.RemoveSessionSocks | client/command/kill/kill.go:79-86 | the loop removes every proxy of the session by its id and no other |
| ClientKill.BaconKillRouted | client/command/kill/kill.go:106-112 | the server queues the client's bacon kill as an async request for exactly that bacon, with the client's timeout |
| ClientKill.KillSession | client/command/kill/kill.go:71-96 | no session gives "session does not exist" and no RPC; otherwise the session's proxies are dropped and one kill request with its session id, timeout and force is sent |
| ClientKill.KillBacon | client/command/kill/kill.go:98-114 | no bacon gives "session does not exist" and no RPC; otherwise one kill request with its bacon id, timeout and force is sent |
| ClientKill.KillCmd | client/command/kill/kill.go:36-69 | the warning is printed; without confirmation no kill; a failed kill is printed and the target stays; a successful one is reported and the target is backgrounded; no target prints "No active session or bacon" |
| Info.ArgumentWins | client/command/info/info.go:41-48 | an id argument decides alone, whatever the active target or the pick, and what it finds has the argument as an id prefix, sessions first |
| Info.ActiveSessionReresolved | client/command/info/info.go:49-60 | an active session still listed is looked up again as a session by its id, and is the same session when no other id extends it |
| Info.PickOnlyWithoutTarget | client/command/info/info.go:61-69 | the picker is used exactly when there is no argument and no active target |
| Info.InfoCmd | client/command/info/info.go:35-118 | a resolution error is printed alone; a session's details win over a bacon's; with neither, "No target session". The details are all 18 session lines (with reconnect interval, first contact and last check-in) or 20 bacon lines (with interval, jitter, first contact, last and next check-in), durations and dates written by the `durationText` and `dateDelta` parameters |
| Info.PrintDetails | client/command/info/info.go:71-117 | the detail lines of the session (lines 73-90), else the bacon (lines 94-113), else the no-target line |
| Info.TargetField | client/command/info/info.go:121-157 | at most one line; a line exactly when a target is active; the session's field when a session is active |
| Info.PrintTargetField | client/command/info/info.go:121-131 | prints the field of `TargetField` and changes nothing else |
| Info.PIDCmd | client/command/info/info.go:121-131 | prints the PID of the active session, else of the active bacon, else nothing |
| Info.UIDCmd | client/command/info/info.go:134-144 | prints the UID of the active session, else of the active bacon, else nothing |
| Info.GIDCmd | client/command/info/info.go:147-157 | prints the GID of the active session, else of the active bacon, else nothing |
| Info.TokenOwnerLine | client/command/info/info.go:205-211 | the reply's error when it has one, else the token owner line |
| Info.WhoamiCmd | client/command/info/info.go:160-203 | no target prints nothing; the logon id is printed; only a Windows target gets CurrentTokenOwner; an async reply registers a callback under its task id and prints the `asyncNote` lines of `PrintAsyncResponse`, a sync one is printed |
| Info.TokenOwnerCallback | client/command/info/info.go:190-197 | an undecodable result prints the decode error; otherwise the owner line |
| Privileges.FlagSuffixInjective | client/command/privilege/getprivs.go:121-129 | the flag words name each flag unambiguously |
| Privileges.AttributesDetermineFlags | client/command/privilege/getprivs.go:116-130 | equal attribute cells mean equal flags: "Enabled"/"Disabled", then the set flags in fixed order |
| Privileges.Longest | client/command/privilege/getprivs.go:96-103 | the longest length: no entry is longer, some entry has it, and 0 for none |
| Privileges.ColumnWidths | client/command/privilege/getprivs.go:92-107 | the widths are the longest name and the longest description, each plus one |
| Privileges.CellsFillColumns | client/command/privilege/getprivs.go:105-115 | every name cell and every description cell is exactly as wide as its column |
| Privileges.Rule | client/command/privilege/getprivs.go:94-110 | the rule is all dashes and exactly as long as the title line |
| Privileges.Note | client/command/privilege/getprivs.go:77-80 | the error note appears exactly when the reply carries an error, and ends with that error |
| Privileges.PrivsLines | client/command/privilege/getprivs.go:75-132 | the listing is the note, plus the 8 heading lines and one row per privilege when any is listed |
| Privileges.EntryLineCells | client/command/privilege/getprivs.go:114-115 | a row starts with its name, padded with spaces to a tab at the name column |
| Privileges.RowsAligned | client/command/privilege/getprivs.go:92-131 | every row of the printed listing is aligned at one past the longest name |
| Privileges.PrintGetPrivs | client/command/privilege/getprivs.go:75-132 | prints exactly `PrivsLines` |
| Privileges.PrintTable | client/command/privilege/getprivs.go:85-131 | with privileges, prints the title, rule, integrity, headers and rows |
| Privileges.PrintEntries | client/command/privilege/getprivs.go:114-131 | prints one row per privilege in order |
| Privileges.GetPrivsCmd | client/command/privilege/getprivs.go:35-72 | no target does nothing; a non-Windows target prints an error and makes no RPC; an RPC error is printed; an async reply registers a callback and prints the `asyncNote` lines of `PrintAsyncResponse`, a sync one is printed |
| Privileges.PrivsCallback | client/command/privilege/getprivs.go:55-67 | an undecodable result prints the decode error; otherwise the privileges are printed, then the integrity update is issued and a failure warned about |
| BaconsList.FindWindows | client/command/beacons/beacons.go:115-120 | the scan finds a Windows bacon exactly when one is listed |
| BaconsList.ChooseLayout | client/command/beacons/beacons.go:107-121 | wide exactly when SmallTermWidth < width (999 without a terminal size); Integrity column exactly when wide and some bacon runs Windows |
| BaconsList.ShownIntegrity | client/command/beacons/beacons.go:173-175 | never empty; a recorded integrity is shown as is |
| BaconsList.ShownUsername | client/command/beacons/beacons.go:188 | a leading `hostname\` is trimmed, and only that |
| BaconsList.CellsUnderHeaders | client/command/beacons/beacons.go:121-213 | every row has as many cells as its header (13, 12 or 8); the painted id, username and integrity and the next check-in sit under their headers |
| BaconsList.RowColor | client/command/beacons/beacons.go:167-171 | a row is green exactly when its bacon is the active bacon, else normal |
| BaconsList.FilterSeesColour | client/command/beacons/beacons.go:182-209 | every cell but the two check-in times is the row's colour code, the text and the reset code, so it starts with the escape character the filters of lines 223-235 then see |
| BaconsList.ShowRow | client/command/beacons/beacons.go:220-237 | a row is shown exactly when no filter is set or some cell contains the substring or matches the regular expression |
| BaconsList.FilterRows | client/command/beacons/beacons.go:167-238 | the row loop builds the filtered rows in listing order |
| BaconsList.RenderBacons | client/command/beacons/beacons.go:106-240 | the header of the chosen layout and the filtered rows |
| BaconsList.NoFilterListsAll | client/command/beacons/beacons.go:220-221 | without a filter every bacon gets a row, in order, coloured by the active bacon |
| BaconsList.FilteredRows | client/command/beacons/beacons.go:219-237 | with a filter, a bacon's row, its cells painted in its colour, is listed exactly when one of those painted cells passes, at most once, as wide as the header |
| BaconsList.PrintBacons | client/command/beacons/beacons.go:97-104 | an empty list prints "No bacons" and no table; otherwise the rendered table, the active bacon's row green |
| BaconsList.ReportKilled | client/command/beacons/beacons.go:55-56 | a blank line, then "Killed name (id)" |
| BaconsList.FirstFailure | client/command/beacons/beacons.go:65-70 | the first bacon whose kill fails: all before it succeed |
| BaconsList.KillEach | client/command/beacons/beacons.go:65-73 | kills in listing order up to and including the first failure, whose error ends the command |
| BaconsList.KillFlagEffect | client/command/beacons/beacons.go:44-57 | at most one kill, only when the id is set and the lookup succeeds; a stop prints exactly one line |
| BaconsList.KillAllStopsAtFirstError | client/command/beacons/beacons.go:59-74 | with a failure, the earlier bacons are killed and reported, then the failing one is tried and its error printed; with none, every bacon gets one kill in order |
| BaconsList.KillFlagStage | client/command/beacons/beacons.go:44-57 | the `--kill` stage prints and calls what `KillFlagEffect` says |
| BaconsList.KillAllStage | client/command/beacons/beacons.go:59-74 | the `--kill-all` stage prints and calls what `KillAllEffect` says |
| BaconsList.ListStage | client/command/beacons/beacons.go:75-93 | a bad regular expression or a failed listing prints the error; otherwise the listing |
| BaconsList.BaconsCmd | client/command/beacons/beacons.go:39-94 | `--kill`, then `--kill-all`, then the listing; a stage that stops ends the command; only output and kill RPCs change |

## Left out

- Persistence: gorm and the database are the in-memory tables of `Server`. A failed database read, save, insert or delete is a parameter (a flag, or the set of task ids whose read or update fails in the results loop), and each is answered with the error the source returns for it; the log line is not modelled.
- Concurrency: the goroutines (`go baconTaskResults`, `go session.Request`, `go auditLogBacon`) are sequential steps. The check-in time update of server/handlers/beacons.go:131-136 and the audit log are left out.
- Serialization: protobuf encoding is the `Wire` datatype and decoding is its partial inverse. Marshal errors, including killSession's and killBeacon's, are not modelled because a message built by the server always encodes.
- UUID parsing (`uuid.FromString`): ids are taken to be canonical UUID text and kept as strings; a malformed id, which Go stores as uuid.Nil because the handler ignores the parse error, is not modelled.
- Time: `time.Now` is a parameter `now`. `time.ParseDuration`, the duration text (`time.Duration.String`, parameter `durationText`) and `FormatDateDelta` (parameter `dateDelta`) are parameters.
- Regular expressions are a compiled matcher given as a parameter.
- Interactive UI: survey prompts are inputs (a picked line, a confirmation). The tabwriter layout is a padding given as input. Print prefixes, the bold labels of `info` and the terminal size query are left out. Every print is a finished output line, including `Current Token ID: …` (client/command/info/info.go:210), which Go prints without a newline so that the next output continues it. The cell colours of the bacon listing are modelled because its filters test the coloured text; their codes are taken to be the ANSI sequences ESC[0m and ESC[32m, as console.Normal and console.Green are not part of this model.
- Byte and rune lengths: Go's `len` on strings counts bytes, and the model counts characters. Widths agree for ASCII text.
- Privileges.PrintEntries: Go prints each row in several pieces; the model prints the same text as one line.
- The console package (`ActiveTarget`, the socks proxy table) is the `Console` class. The socks registry is a sequence in listing order with distinct ids.
- Implant compilation (`compile`, `externalBuild`, `parseCompileFlags`): the model only says which build starts, in which directory.
- `TaskmanyCmd` (client/command/taskmany/taskmany.go:84-86) only prints a usage error. `WrapCommand` and the commented-out subcommand list are CLI wiring.
- The ID completers in client/command/use/use.go, and the command files that wire flags, are CLI wiring.
- Privileges.GetPrivsCmd, Info.WhoamiCmd: the body of `con.PrintAsyncResponse` (client/command/privilege/getprivs.go:68, client/command/info/info.go:198) is not part of this model; the lines it prints are the parameter `asyncNote`, and any RPC it makes is not logged.
- TaskMany.Render: client/command/taskmany/taskmany.go:193 and 209 pass the option text to `fmt.Fprintf` as the format string, so a '%' in a name, host or user rewrites the displayed line; the model displays the text as it is.
- BaconHelpers.SelectBacon: offers one option per bacon row. The Go code splits the rendered table at newlines, which differs only when a row's text holds a newline (a host or user name reported by the implant can). That as-written pick is `BaconHelpers.BaconSelectionAsWritten`, and `BaconSelectionAsWrittenAgrees` proves the two equal for newline-free rows (see Findings).
- BaconHelpers.BaconSelectionSound: holds for one option per row; for the Go split it holds when no listed bacon's line holds a newline (`BaconSelectionAsWrittenAgrees`).
- BaconHelpers.BaconSelectionComplete: the same.
- Use.SelectSessionOrBacon: offers one option per session or bacon row. The Go split at newlines is `Use.SelectionAsWritten`, equal to it for newline-free rows by `Use.SelectionAsWrittenAgrees` (see Findings).
- Use.SelectionSound: holds for one option per row; for the Go split it holds when no listed line holds a newline (`Use.SelectionAsWrittenAgrees`).
- Use.PickedSound: the same, by `Use.OptionTargetAsWrittenAgrees`.
- Use.SessionsTakePrecedence: the same, by `Use.SelectionAsWrittenAgrees`.
- Picking.OptionLines: one option line per key. The split of the rendered text is `Picking.SplitOptions`.
- TaskMany.RunEach, TaskMany.RunPicked, TaskMany.TaskManyCmd: the wrapped command (client/command/taskmany/taskmany.go:124, 136) is recorded as one `runs` entry for the target it ran against. Its own output, RPCs and callbacks are not modelled, so these contracts speak only of the target order, the restore, the counts and taskmany's own lines.
- Go panics (getOS/getPID with no target, a callback without a bacon) are excluded by preconditions.
- Sorting: Go's `sort.Slice` is not stable. The model sorts stably, which is one of the outcomes Go may produce.

## Findings

| source | as written | input that shows it | evidently intended | confidence | as-written member | corrected member |
|---|---|---|---|---|---|---|
| client/command/taskmany/taskmany.go:194-195 | the option map key only has its tabs removed, but each picked line has its spaces and tabs removed before the lookup | a session whose user name is "NT AUTHORITY\SYSTEM": its key keeps the space, no stripped line can equal it, and picking it runs nothing | the key is stripped of spaces too, so the displayed line of every target maps back to it | not executed | TaskMany.AsWrittenNeverSelects | TaskMany.CorrectedSelects |
| client/command/taskmany/taskmany.go:210-211 | the same for the bacon map | a bacon whose host name holds a space | the same | not executed | TaskMany.AsWrittenNeverSelectsBacon | TaskMany.CorrectedSelectsBacon |
| client/command/beacons/helpers.go:84-99 | the flushed table is split at "\n" and the picked option's index is looked up in the sorted keys, so a row whose text holds a newline becomes several options and shifts every later index | a single bacon whose host name, as the implant reported it, is "a\nb": the options are "a" and "b", and picking "b" reads keys[1] of a one-key list, which panics (the lemma renders the host name alone) | one option per bacon, so a picked option maps back to the bacon of its row | not executed | BaconHelpers.SplitRowOutOfRange | BaconHelpers.BaconSelectionComplete |
| client/command/use/use.go:163-179 | the same split in the session-or-bacon picker | a session whose host name is "a\nb" followed by a bacon whose host name is "c": the options are "a", "b" and "c", and picking "b", half of the session's row, makes the bacon the active target | one option per session or bacon | not executed | Use.SplitSessionRowPicksBacon | Use.SelectionSound |

# Device custody and its audit log

A Dafny model of the IT asset manager's core: devices, requests, support tickets, extensions and users in
one database, the operations six services perform on them, and the append-only `device_log` those
operations write.

Each fact is stored several times and kept in step by hand: a device has a status and an owner, its request
points at it and has a status of its own, a ticket ties both, and the log tells the same story again. The
theorems say in what sense these copies agree, over every run, and name the exact conditions where they do
not.

## How the model is built

- `Models`, `DeviceLog`, `Queries` are the rows, the log entries with the milestone map, and the queries
  that decide something. Identifiers and timestamps are inputs; nullable columns are `Option`.
- `Operations` gives, for each of the 18 IT operations, the failure it ends in or the `Change` it commits:
  the rows flushed and the entries appended. The partial unique index on `(assigned_item_id, status)` is
  checked where the flush happens. `Plan`, `Apply` and `Run` are one transaction and a whole run. Seven
  environment operations stand for what employees and managers do (file a request, a ticket, an extension;
  decide as manager; start a WFH return).
- `Sessions`, `AssignmentService`, `ShippingService`, `SupportService`, `RequestService`, `ExtensionService`,
  `InventoryService`, `UserService` are the services as the repository has them: methods that change the
  rows of a session step by step and may raise half way. Each is proved to do what `Operations` plans.
  `UnitOfWork.Execute` is the transaction around them.
- `Laws`, `OperationLaws`, `Invariants` prove what every committed change has in common, one operation at a
  time. All theorems about runs use only these laws.
- `Replay`, `Records`, `Grammar`, `Milestones`, `Timelines`, `ForeignKeys`, `Custody`, `Suggestions`, `Race`,
  `Deactivation`, `Returns`, `Lifecycle`, `Endings`, `Bookings`, `Enabled`, `Workflows`, `Pagination` are the
  theorems; `Divergences`, `DeactivationGap` and `RaceStories`
  are short runs from a fresh database, built on `Story`, that reach the states the theorems warn of.

A run starts from a *fresh* database: users and categories, nothing else. Where a theorem needs the
operators' discipline, the discipline is a condition on each step that can be checked before the step, and
`Custody.MatchKeptIff`, `Race.FlushKeepsMatchIff`, `Milestones.ExactKeptIff` and
`Deactivation.ActiveOnlyStep` prove that it is exactly what is needed.

## Where code and documents differ

The model follows the code.

- `request_service.py` opens by saying that reject, cancel and escalate never meet a request with a device.
  `cancel` accepts ASSIGNED requests and then leaves the device assigned to nobody's request
  (`Divergences.CancelStrandsDevice`); `Custody.CancelMatch` gives the exact condition.
- `_docs/WORKFLOWS.md` section 4 says that every open ticket of a device closes when its request completes.
  `_mark_lost` completes the request and closes one ticket only: `Returns.LossClosesOneTicket`,
  `Divergences.LossLeavesTicketOpen`. A return closes the tickets of the device returned, not those of a
  device swapped out earlier.
- Section 6 says that a pending extension is rejected when its parent completes. Nothing does that, and the
  extension can still be approved: `Returns.ExtensionOutlivesReturn`, `Returns.ExtensionOutlivesLoss`,
  `Divergences.ExtensionMovesCompletedBooking`.
- The suggestion list is meant to show devices that can be booked. Of those it lists, `assign` accepts
  exactly the ones without an active booking: `Suggestions.SuggestionsAreExact`,
  `Divergences.SuggestedDeviceRefused`.
- A deactivated user is meant to hold nothing. A swap on a completed request can hand one a device:
  `DeactivationGap.InactiveUserOwnsDevice` is a run that does it.
- Two sessions do not see each other's assignment of one request, nor that the request of a swap has ended;
  the index stops neither (`Race.DoubleAssignOrphans`, `Race.StaleSwapSteals`).

The services trust the request schemas in one place that matters: `change_status` itself takes a shipping
status, which `app/schemas/item.py` refuses. `Milestones.ExactKeptIff` says what that would do to the
milestone view; `Milestones.MilestoneStatus` is about the calls the schemas accept.

## Model

| member | source | states |
|---|---|---|
| `Replay.OwnerReplay` | app/services/support_service.py:331-360 | in every reachable state the owner of a device is what replaying its timeline gives, and the milestone view gives the same owner as the full one |
| `Replay.StatusReplay` | app/services/shipping_service.py:187-280 | replaying the full timeline gives exactly the device's status, except after a swap-out, whose entry records none; then and only then it gives nothing |
| `Replay.StatusChain` | app/services/support_service.py:379-388 | every logged `from_value` is the status in which the earlier entries of that device end, whenever they tell one |
| `Milestones.MilestoneStatus` | app/services/device_log_service.py:19-46 | on every run of calls the request schemas accept, the milestone view tells exactly the status with the two shipping statuses shown as assigned; it tells nothing exactly after a swap-out and for a device never given out nor moved by hand, which is then available and unowned |
| `Milestones.ExactThroughoutIff` | app/schemas/item.py:79-90 | whatever is called, the milestone view is exact at every point of a run if and only if no successful call of it sets a shipping status by hand |
| `Milestones.ExactKeptIff` | app/services/inventory_service.py:442-459 | one successful call keeps it exact if and only if it sets no shipping status by hand |
| `Milestones.MilestoneStatusOfAnyRun` | app/services/device_log_service.py:128 | on any run it tells the status up to the shipping statuses, and is silent exactly as above |
| `Milestones.FlagsFollowMap` | app/services/support_service.py:341-360 | in every reachable log an entry is a milestone exactly if the map says so or it is one of the two entries of a swap, which override it |
| `Milestones.HiddenEntries` | app/services/device_log_service.py:19-46 | exactly the creation, edits, shipping moves, automatic closings and extension entries are hidden from the milestone view |
| `Replay.PointerReplay` | app/services/assignment_service.py:307-334 | `assigned_item_id` is the device of the request's last ASSIGNED, CLIENT_ASSIGNED or SWAPPED_IN entry, and null without one |
| `Replay.AssignedOnce` | app/services/assignment_service.py:371-403 | a request has exactly one ASSIGNED or CLIENT_ASSIGNED entry if its assigned dates are set, and none otherwise |
| `Replay.ReachableTold` | app/services/device_log_service.py:98-131 | all replay invariants together hold after every run |
| `Replay.ReplayOne` | app/repositories/device_log_repository.py:34-41 | appending a transaction with one entry that bears on a device moves its replay by that entry alone |
| `Grammar.EveryEntryHasForm` | app/services/device_log_service.py:98-131 | every entry of every reachable log has the writer's role, the references and the statuses its event calls for: shipping goes from assigned to shipping pending, delivery back, a loss to lost, and so on for each event |
| `Grammar.LogsExactly` | app/services/support_service.py:231-388 | every operation but a return and an edit logs exactly its own events, in order; the request decisions log none |
| `Grammar.TicketEntriesOnDevice` | app/services/support_service.py:282-288 | an entry about a ticket is on the ticket's device, except a swap-in |
| `Grammar.RequestEntriesOnDevice` | app/services/shipping_service.py:205-214 | an entry about shipping, returning or extending a request is on the device the earlier log last gave it |
| `Records.TicketRecord` | app/services/support_service.py:273-289 | the log tells how every ticket was resolved, by whom and when; it was swapped exactly if it has a SWAPPED_IN entry, and names that entry's device |
| `Records.RequestRecord` | app/services/shipping_service.py:198-257 | a request is COMPLETED exactly if the log has a return of it or a loss tied to it; its completion and shipping times, the completing actor and the next status are those of these entries |
| `Records.AssignmentRecord` | app/services/assignment_service.py:311-334 | a request has assigned dates exactly if the log has its assignment, carries that entry's actor and time, and is marked direct exactly if the entry is |
| `Records.ExtensionRecord` | app/services/extension_service.py:316-358 | an extension has the status its decision entry names, with that entry's actor and time |
| `Records.RowsAgreeWithLog` | app/db/session.py:36-46 | all these records hold together after every run |
| `Endings.CompletedOnlyBy` | app/services/shipping_service.py:254-257 | a step completes a request exactly if it is a successful return of it or a loss tied to it |
| `Endings.CancelledOnlyBy` | app/services/request_service.py:325-330 | a step cancels a request exactly if it is a successful cancel of it, and the row names actor, time and the IT cancellation |
| `Endings.RejectedOnlyBy` | app/services/request_service.py:307-313 | a step rejects a request exactly if it is a successful reject of it or a manager's refusal, and the row tells which |
| `Endings.CompletedIffClosed` | app/services/support_service.py:373-388 | the completed requests are those with an ASSIGNMENT_COMPLETED or MARKED_LOST entry |
| `Endings.OriginsNeverChange` | app/services/request_service.py:295-353 | no row is deleted, and what was asked for, what a ticket is about and a device's serial number never change |
| `Endings.SerialsAlwaysDiffer` | app/services/inventory_service.py:384-385 | no two devices ever share a serial number |
| `Endings.DirectOnlyForClients` | app/services/assignment_service.py:353-354 | every CLIENT_ASSIGNED entry is on a client's device |
| `Endings.ActiveMovesOnlyOnRequest` | app/services/user_service.py:110-124 | a user is active after `activate`, inactive after `deactivate`, and otherwise as before |
| `Endings.UpdatedWhenChanged` | app/repositories/item_repository.py:119 | `updated_at` of a device moves to the time of the transaction exactly when something else of its row changes |
| `Bookings.BookedAsAsked` | app/repositories/request_repository.py:171-188 | after an assignment, a direct assignment or a changed range over [from, to) the overlap query finds an overlap with exactly the ranges that meet it |
| `Bookings.ExtensionBooks` | app/services/extension_service.py:312-314 | approving an extension of an assigned request books its device up to the date asked for |
| `Enabled.SucceedsIff` | app/services/assignment_service.py:281-404 | in every reachable state each of the 18 operations succeeds if and only if a condition on the rows it names holds; a device must have no booking at all to be assigned |
| `Enabled.ErrorsMean` | app/services/support_service.py:308-329 | a call answers "not found" exactly if a row it looks up is missing, "validation failed" exactly if the rows do not fit each other |
| `Workflows.WfhRound` | app/services/shipping_service.py:187-282 | a device for work from home makes the whole round: shipped, delivered, sent back, received into any status |
| `Workflows.ShipsOut` | app/services/shipping_service.py:198-213 | shipping takes the device into shipping pending and its request out of the outbound queue |
| `Workflows.InShippingOnlyArrives` | app/services/shipping_service.py:35 | while a device is being shipped only its delivery is accepted |
| `Workflows.StartedReturnCompletes` | app/services/shipping_service.py:247-251 | in every reachable state a return the employee started can be completed into any status, and a device being shipped out cannot be received |
| `Workflows.AssignedIntoQueue` | app/repositories/request_repository.py:190-206 | an assignment enters the outbound queue exactly if it is for work from home and was not shipped yet |
| `Workflows.RepairCycle` | app/services/support_service.py:223-306 | damage repaired in place: the device goes to repair and comes back assigned to the same owner, and no request is touched |
| `Workflows.StartsWork` | app/services/support_service.py:223-246 | starting a ticket takes the device to repair for damage only |
| `Workflows.SwapNamesNewDevice` | app/services/support_service.py:273-279 | the ticket carries the resolution asked for; a swap names on it the device the tied request moved to, and no other resolution names a device or moves a request |
| `Workflows.EscalatedWaitsForManager` | app/services/request_service.py:343-352 | an escalated request waits for the manager named, or else the requester's own, and IT can neither escalate, assign nor reject it meanwhile |
| `Workflows.EditSetsWhatWasAsked` | app/services/inventory_service.py:419-440 | an edit sets the fields asked for and no other; asking again changes and logs nothing |
| `Workflows.CreatedAsAsked` | app/services/inventory_service.py:387-395 | a created device is as asked for, and only a client's device keeps a client name |
| `Timelines.TiesDoNotMatter` | app/repositories/device_log_repository.py:34-41 | ordering by `occurred_at` leaves ties open; every order it allows, in the full and in the milestone view, replays to the live owner and to the same status |
| `Timelines.IncreasingUnique` | app/models/device_log.py:73-75 | two arrangements of the same entries with strictly increasing times are equal |
| `Invariants.EveryChangeIsLawful` | app/db/session.py:36-46 | every successful operation moves each device with exactly one bearing entry, moves a request's pointer exactly with its giving entry, records each fact once, writes at most one request, and respects the index |
| `Invariants.ReachableWf` | alembic/versions/19fa64831348_create_itam_schema.py:155-161 | in every reachable state the keys between requests, devices, owners, tickets, extensions and log entries point at rows, the dates match the statuses, and the unique index holds |
| `ForeignKeys.ReachableKeys` | app/services/request_service.py:343-350 | nor does any key to a category, a manager, the requester of a ticket or extension, or a swap target ever dangle |
| `Custody.MatchKeptIff` | app/services/assignment_service.py:281-335 | a successful operation keeps the one-to-one match of assigned requests and devices in custody if and only if it is orderly |
| `Custody.CustodyMatching` | app/services/shipping_service.py:242-282 | after orderly runs every ASSIGNED request holds a device its requester owns, no two hold the same, and every device assigned or in transit is held by one |
| `Custody.IndexNeverFires` | alembic/versions/19fa64831348_create_itam_schema.py:155-161 | after orderly runs the guards alone exclude every collision: no operation, IT or environment, fails on the unique index |
| `Custody.CompleteReturnMatch` | app/services/shipping_service.py:242-282 | a return keeps the match exactly if its request is still assigned and the next status is outside custody |
| `Custody.CancelMatch` | app/services/request_service.py:316-331 | cancelling keeps the match exactly if it takes no device in custody away from its only request |
| `Custody.SwapKeeps` | app/services/support_service.py:308-360 | a swap on an assigned request whose old device leaves custody and has no other holder keeps the match |
| `Custody.SwapBreaks` | app/services/support_service.py:308-360 | any other swap breaks it |
| `Custody.LossMatch` | app/services/support_service.py:362-388 | marking a device lost keeps the match exactly if nobody else holds it and the tied request leaves no device in custody behind |
| `Custody.RepairMatch` | app/services/support_service.py:291-306 | a repair keeps the match exactly if some assigned request holds the device |
| `Custody.ChangeStatusMatch` | app/services/inventory_service.py:442-459 | a manual status keeps the match exactly if a held device stays in custody or repair and a free one stays out of custody |
| `Custody.BranchMatch` | app/services/support_service.py:264-271 | the exact condition for each of the four resolutions |
| `Suggestions.SuggestionsAreExact` | app/repositories/item_repository.py:91-125 | the list is sorted without duplicates, has counts 0 or 1, zero counts first; its zero-count devices are exactly those `assign` accepts over the requested range, the others exactly those only the index rejects |
| `Suggestions.BookedAtMostOnce` | app/repositories/item_repository.py:94-99 | the booking count of a device is at most one |
| `Suggestions.IndexSeesBookings` | app/services/assignment_service.py:318-324 | for a pending request the index rejects an assignment exactly if the device has an active booking, whatever its dates |
| `Suggestions.ActiveForItemIsExact` | app/repositories/request_repository.py:59-67 | `get_active_for_item` returns a request exactly if that one is assigned to the device, so its ordering and limit decide nothing |
| `Race.RaceSafety` | app/services/assignment_service.py:300-324 | however check steps and flushes of assign, direct_assign and swap interleave with each other and with other transactions, no committed state has two ASSIGNED requests on one device |
| `Race.IndexAlwaysHolds` | alembic/versions/19fa64831348_create_itam_schema.py:155-161 | the unique index holds in every interleaving |
| `Race.FlushLosesIff` | app/services/assignment_service.py:387-393 | in every interleaving a session that passed its guards flushes in vain if and only if its new identifier is taken, or the flushed request is live and another request is on the device with the same status; a loser changes nothing, a winner's request is on the device and its requester owns it |
| `Race.FlushKeepsMatchIff` | app/services/support_service.py:327-339 | in every interleaving a flush of assign, direct_assign or swap keeps the match of requests and devices if and only if it loses or is orderly, a condition on the rows it meets |
| `Race.StaleSwapSteals` | app/services/support_service.py:327-339 | a swap whose request ended meanwhile cannot lose: if another user's request holds the new device by then, the device changes owner under that request |
| `Race.SessionsLoaded` | app/services/support_service.py:316-329 | every row a session loaded is still there when it flushes |
| `Race.DoubleAssignOrphans` | app/services/assignment_service.py:292-324 | after any run from a fresh database that ends matched, two sessions assigning one pending request to different devices both commit, and the first device is left assigned with no request that holds it |
| `RaceStories.LaptopOrphaned` | app/services/assignment_service.py:292-324 | a concrete such race from a fresh database |
| `RaceStories.LaptopStolen` | app/services/support_service.py:327-339 | a concrete race from a fresh database in which a stale swap takes a device's ownership from its holder |
| `Returns.ReturnCascade` | app/services/shipping_service.py:242-297 | after a return no ticket of the device is unresolved, other and resolved tickets are untouched, the device is free with the chosen status and the request completed |
| `Returns.ReturnLog` | app/services/shipping_service.py:264-297 | the log grows by RETURN_RECEIVED, ASSIGNMENT_COMPLETED and one SUPPORT_AUTO_CLOSED by the system per formerly open ticket |
| `Returns.ReturnLogOrder` | app/repositories/support_request_repository.py:39-49 | those closings name every formerly open ticket once, in filed order |
| `Returns.LossClosesOneTicket` | app/services/support_service.py:362-388 | marking lost completes the request but leaves the device without an open ticket exactly if it had no other |
| `Returns.ExtensionOutlivesReturn` | app/services/extension_service.py:301-332 | completing a return leaves a pending extension as approvable as before |
| `Returns.ExtensionOutlivesLoss` | app/services/support_service.py:373-377 | so does completing the request by marking its device lost |
| `Returns.SystemWritesClosingsOnly` | app/services/shipping_service.py:291-297 | over all runs the system actor and a missing actor id occur on exactly the SUPPORT_AUTO_CLOSED entries |
| `Deactivation.ActiveOnlyStep` | app/services/user_service.py:110-118 | "inactive users own no device and have no live request" is broken by a step exactly if it is a successful swap for an inactive requester |
| `Deactivation.InactiveHoldNothing` | app/repositories/user_repository.py:69-82 | without such a swap it holds in every reachable state |
| `Deactivation.LiveSwapsAreEnough` | app/services/support_service.py:327-335 | swapping for non-terminal requests only is enough |
| `Deactivation.AssignKeepsActive` | app/services/assignment_service.py:365-369 | no assignment hands a device to an inactive user, although `assign` never looks at `is_active` |
| `DeactivationGap.InactiveUserOwnsDevice` | app/services/support_service.py:327-335 | a concrete run after which a deactivated user owns a device |
| `Divergences.CancelStrandsDevice` | app/services/request_service.py:316-331 | a concrete run after which cancelling has left a device assigned and unmatched |
| `Divergences.LossLeavesTicketOpen` | app/services/support_service.py:362-388 | a concrete run after which a request is completed and its lost device still has an open ticket |
| `Divergences.ExtensionMovesCompletedBooking` | app/services/extension_service.py:301-332 | a concrete run in which an extension of a completed request is approved and moves its end |
| `Divergences.SuggestedDeviceRefused` | app/repositories/item_repository.py:111-120 | a concrete run after which a suggested device passes every guard of `assign` and is refused by the index |
| `Divergences.TransitShownByHand` | app/services/inventory_service.py:442-459 | a concrete run, refused by the schema only, after which the milestone view is not exact |
| `Lifecycle.ProgressOnly` | app/services/request_service.py:295-353 | a rank of (status, requires_mgr_approval) never rises over a run; COMPLETED and the terminal statuses are permanent |
| `Lifecycle.DecisionFalls` | app/services/request_service.py:333-353 | escalate, assign, reject and cancel each bring the rank strictly below what they need |
| `Lifecycle.DecidedAtMostOnce` | app/services/assignment_service.py:291-313 | per request escalate and assign succeed at most once each, reject and cancel at most once together |
| `Lifecycle.QueueEntry` | app/repositories/request_repository.py:190-206 | a request enters the outbound queue only by a successful `assign` of it with `is_wfh` |
| `Lifecycle.QueueIsOneWay` | app/services/shipping_service.py:198-200 | once it has left the queue it never re-enters |
| `Lifecycle.OnlyAssignmentsAssign` | app/services/assignment_service.py:307-313 | no other operation makes a request assigned |
| `Lifecycle.ResolvedForever` | app/services/support_service.py:258-260 | a resolved ticket never changes again |
| `Lifecycle.TicketsCloseOnce` | app/services/shipping_service.py:284-297 | a ticket has one closing entry exactly if resolved, else none; it was auto-closed exactly if it names no resolution, and exactly if it names no resolver |
| `Lifecycle.ExtensionsDecidedOnce` | app/services/extension_service.py:301-359 | an extension has one decision entry exactly if decided, else none |
| `Lifecycle.EndMovesOnlyOnRequest` | app/services/extension_service.py:312-314 | the end of an assigned booking moves only by `update_booking_range` or by approving one of its extensions, to the date asked for |
| `Lifecycle.OverlapGuardIsRedundant` | app/services/assignment_service.py:262-279 | in every reachable state `update_booking_range` succeeds exactly on ASSIGNED requests: its overlap conflict and its assertion never fire |
| `Lifecycle.AssertionsHold` | app/services/extension_service.py:322-349 | no `assert … is not None` of the services ever fails |
| `Lifecycle.LogOnlyGrows` | alembic/versions/19fa64831348_create_itam_schema.py:252-259 | the log before any point of a run is a prefix of the log after it |
| `UnitOfWork.Execute` | app/db/session.py:36-46 | a call commits its planned change as a whole, or raises and restores every row it had already changed; the old log is a prefix of the new |
| `AssignmentService.Assign` | app/services/assignment_service.py:281-335 | raises the error of the first guard that fails, or the index conflict after the flush; otherwise request and device are handed over together and ASSIGNED is logged |
| `AssignmentService.DirectAssign` | app/services/assignment_service.py:343-404 | a client-owned available device goes to an active employee: an ASSIGNED request is created, the device handed over, CLIENT_ASSIGNED logged; each guard fails with its own error, in order |
| `AssignmentService.UpdateBookingRange` | app/services/assignment_service.py:262-279 | only the two dates of an ASSIGNED request without an overlap move, and nothing is logged |
| `ShippingService.Ship` | app/services/shipping_service.py:187-215 | a WFH request's assigned device goes to shipping, with the matching entry and the ship time |
| `ShippingService.ConfirmDelivery` | app/services/shipping_service.py:217-240 | only a device in shipping becomes assigned again, with the matching entry and the delivery time |
| `ShippingService.CompleteReturn` | app/services/shipping_service.py:242-282 | the request completes, the device is released into the next status, two entries are logged and the open tickets closed; refused unless the device is assigned or coming back |
| `ShippingService.CloseListed` | app/services/shipping_service.py:286-297 | the loop closes exactly the listed tickets and appends one entry for each, in order |
| `ShippingService.AutoCloseOpenSupport` | app/services/shipping_service.py:284-297 | it closes exactly the unresolved tickets of the device |
| `SupportService.Start` | app/services/support_service.py:223-246 | an OPEN ticket goes in progress; for DAMAGE, and only then, the device goes under repair with one entry, after the ticket was already flushed |
| `SupportService.Resolve` | app/services/support_service.py:248-289 | the branch's change together with the closing of the ticket |
| `SupportService.RepairInPlace` | app/services/support_service.py:291-306 | only a device under repair goes back to assigned |
| `SupportService.Swap` | app/services/support_service.py:308-360 | guards in order, then three rows and two milestone entries, or the index crash |
| `SupportService.MarkLost` | app/services/support_service.py:362-388 | the device is lost with its owner unchanged, the request completed |
| `RequestService.Reject` | app/services/request_service.py:295-314 | exactly requests pending IT approval become REJECTED, with actor, time and `rejected_by`; nothing else changes |
| `RequestService.Cancel` | app/services/request_service.py:316-331 | every non-terminal request, assigned ones included, becomes CANCELLED; its device is not touched |
| `RequestService.EscalateToManager` | app/services/request_service.py:333-353 | a request pending IT approval that never needed a manager goes to one: the manager named, else the requester's own |
| `ExtensionService.Approve` | app/services/extension_service.py:301-332 | a pending extension whose manager step is done moves the parent's end date and is logged as no milestone; both rows change before the assertion |
| `ExtensionService.Reject` | app/services/extension_service.py:334-359 | a pending extension is rejected and logged as no milestone; the parent is not written |
| `InventoryService.CreateItem` | app/services/inventory_service.py:371-405 | an available device without owner and its DEVICE_CREATED entry, for a known category and a new serial number; only client devices keep a client name |
| `InventoryService.EditItem` | app/services/inventory_service.py:407-440 | the edited row, the diff the entry stores, naming exactly the changed fields with old and new values, and a DEVICE_EDITED entry exactly if it is not empty |
| `InventoryService.ApplyUpdates` | app/services/inventory_service.py:419-428 | the loop sets every field present in the update, and its diff names exactly the fields that differ, with old and new values |
| `InventoryService.DiffUndoes` | app/services/inventory_service.py:419-428 | the logged old values undo the edit field by field, and the new ones were asked for |
| `InventoryService.ChangeStatus` | app/services/inventory_service.py:442-459 | any status may follow any other; the entry carries both and the event of the status map |
| `UserService.Deactivate` | app/services/user_service.py:110-118 | refused while the user holds a device or has a live request |
| `UserService.Activate` | app/services/user_service.py:120-124 | the user becomes active and nothing else changes |
| `Queries.Sorted` | app/repositories/item_repository.py:119 | ORDER BY: each identifier once, keys non-decreasing |
| `Queries.OpenTickets` | app/repositories/support_request_repository.py:39-49 | exactly the unresolved tickets of the device |
| `Queries.OpenTicketsAsFiled` | app/repositories/support_request_repository.py:46 | each once, earlier filings first |
| `Queries.SuggestedDevices` | app/repositories/item_repository.py:91-125 | exactly the available devices of the category without an overlapping booking, by (bookings, last update) |
| `Pagination.PagingPartitions` | app/utils/pagination.py:22-28 | pages 1 to `total_pages` put together are the list, a page is non-empty exactly up to there, and none is longer than the page size |
| `Pagination.FewerPagesMissRows` | app/utils/pagination.py:51-55 | no smaller number of pages shows every row |
| `Pagination.TotalPagesIsCeiling` | app/utils/pagination.py:51-55 | the negated floor division is the ceiling |

## Left out

- HTTP routers, dependency wiring, authentication, role checks, request and response schemas: plumbing. The
  schemas restrict some inputs further (`complete_return` to available, under repair and retired,
  `change_status` to statuses outside custody, client devices to those with a client name): `Accepted` states
  that; elsewhere the model takes what the services take.
- Handovers, dropdowns, dashboard counts, name search, list filters, result copying: reads without a law.
- `create_user`, `change_role`, and the uniqueness of user e-mails: no device is involved.
- Notes, tracking links and JSON metadata of the log. The diff of `edit_item` is returned beside its entry, not
  stored in it.
- An explicit null for `name` or `category_id` in `edit_item`, which the schema refuses.
- Clocks and UUIDs: times and fresh identifiers are inputs. All rows and entries of one transaction carry its
  one time, although the services read the clock anew for some columns. `Timelines` assumes that transaction
  times strictly increase along the run.
- Ties in ORDER BY other than the timeline's are broken by identifier; the original leaves them open.
- Foreign keys of actors (`it_decided_by`, `cancelled_by`, `completed_by`, `resolved_by`, `actor_id`) are not
  checked. `ForeignKeys` assumes that the managers of the first users exist.
- The environment operations are assumptions about code outside the repository's services; a manager's
  decision never resets `requires_mgr_approval`.
- Isolation levels: `Race` has a check step, then a flush of the session's columns guarded by the index, with
  rollback. A flush writes every column the service sets, also one whose value did not change. Of the
  sequential theorems only the index is claimed under interleaving; the match has its own exact condition
  there.
- The rules that turn UPDATE and DELETE on `device_log` into nothing: the model has no operation that tries.
- Sessions.Performed: leaves the rows of a call that raised open; `UnitOfWork.Execute` says what the rollback
  restores.

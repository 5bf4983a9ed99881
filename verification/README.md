# BizAssist: verified models

This project models five connected parts of BizAssist in Dafny and proves what they are relied on for.
Money is counted in paise, so "more than 0.005" reads "positive". Nothing here runs the original
program.

1. **Change feed** (`Feed*.dfy`, with `Decimal`, `LockOrder`). Concurrent transactions write rows, bump
   the clocks of the owning businesses under row locks held to commit, and append events; a replica
   pulls pages of events and applies the *current* rows. `FeedModel` is the transaction machine,
   `FeedReplica` adds a replica whose pull is not atomic (query, single row reads, delivery, loss),
   `FeedConvergence` states convergence and `FeedOwnerLoss` where it ends, `FeedStore` is the imperative
   store with emit, seeding and `pull_feed`, `FeedRefinement` shows its writes are runs of the machine,
   and `FeedLocks` and `FeedLineLocks` say which writers can deadlock on the clocks.
2. **Links, inbox and outbox** (`Link*.dfy`, `Deferral`, `HeldInbox`, `InboxHistories`, `InboxDrains`,
   `InboxChains`, `SchemaChains`, `Outbox`). A row crosses between two databases that number rows
   differently; parent uids and the BizIDs of users are attached on one side and resolved, nulled or
   deferred on the other. `LinkRules` says which row waits and what each link becomes, `LinkPayload`
   what a serialised row carries, both without the loops that compute it. Deferred rows wait in the
   inbox, with backoff and a cap on attempts: `InboxHistories` says what any history of the inbox
   leaves, `InboxChains` and `SchemaChains` how long a chain of rows the cap allows. The outbox keeps
   one pending row per target, and its repair collapses duplicates.
3. **Collections** (`Collection*.dfy`, `Planning*.dfy`). Owners plan collections on bills, staff
   complete them, owners confirm the cash in batches. `CollectionModel` is the check and the payment
   with the imperative service, `CollectionChecks` which approvals pass and why others do not,
   `CollectionRuns` the machine of concurrent approvals, `CollectionSafety` its invariant,
   `CollectionTheorems`, `CollectionSuggest` and `CollectionRefusals` what follows. `Planning` puts
   concurrent planners, receipts and edits of bills beside that machine, with the locks on bills and on
   the clock of the business, and `PlanningBills` says when a task can be planned; `PayerLocks` proves
   the locks exclusive, `DeskWaits` the graph of waits exact, and `StopLocks`, `ApprovalLocks` and
   `RunApprovalLocks`, with `CrossedLocks`, say exactly which pairs of them can deadlock. `OrderlyDesks`
   and `DeskRings` say which approvals, receipts and edits, any number of them, are free of circular
   waits of any length beside planners that pick their bills once; for runs of several stops only pairs
   are exact.
4. **Balances** (`Balances`, `BalanceLaws`, `BillingContext`). Batch aggregation, the SQL twin and the
   per-request cache against the one-invoice formula, and what that formula adds up.
5. **Repairs, guards, forgetting** (`Overfill`, `OverfillRaces`, `LineRepair*.dfy`, `PaidState`,
   `PaidRules`, `UidDedup`, `Tickets`, `TicketSpelling`, `Throttle`).

Code that changes things in place is a class or a loop proved against a specification function;
protocols are state machines over their steps, with the theorems stated for every run.

## Where the code promises less than it seems to

Each of these has a lemma with the exact condition.

- An update that takes a row away from a business leaves that business's replica with a stale row: the
  trigger announces the new owners only (`UpdateMustKeepTheOwner`, `GivenAwayRowsStay`).
- SQLite's `min`/`max` of a NULL owner is NULL where PostgreSQL's LEAST and GREATEST skip it, so a
  shared record with one owner is announced on one dialect only (`DialectsAgreeExactly` in
  `FeedOwners`).
- Order lines lock the seller's clock before the buyer's and can deadlock, exactly when the orders are
  crossed (`OrderLinesDeadlockIff`).
- "Stable ID order" holds within one picking of bills. Runs of several stops can deadlock, exactly when
  the first bill they share is not the same for both (`RunsDeadlockIff`), and so can a run and an
  approval (`RunAndApprovalDeadlockIff`). An approval keeps the clock of the business from its first
  payment on, so two approvals can deadlock exactly when their first bills differ and one of these is in
  the other split, ascending or not (`ApprovalsDeadlockIff`), and an approval and a receipt exactly when
  the receipt's bill is in the split but not first (`ApprovalAndTillDeadlockIff`). With planners between
  them, longer circles come about exactly when some split is not ascending or some bill after its first
  is not above the first bill of every other payer (`RingsIff`).
- A parent without a uid can be linked by its bare id to another record (`ArrivesRightIff`).
- A held row that is out of attempts when its last parent arrives stays stuck (`StuckIff`). Rows that
  come children first do, exactly past the seventh of a chain, not counting those of tables drained last
  that follow one of another table (`ChainSettlesIff`); along the foreign keys of the schema that takes
  more than four links within one table (`SchemaChainsSettleIff`).
- The suggestion looks at stored totals, the payment at credit-adjusted ones, so a suggestion that
  passes every check can be refused (`SuggestionIsBookedIff`).
- The SQL filter of the bill list differs from the balance on negative payments (`FilterAgreesExactly`).
- The SQLite overfill trigger does not guard negative targets (`DialectsAgreeExactly` in `Overfill`). On
  PostgreSQL the guard sees committed lines only: what keeps concurrent inserters of a document from
  passing the bound together is the clock that the change feed locks first, so a document without an
  owner can pass it (`NeverPassesIff`).
- Rows are deduplicated by uid and business but the index that follows is on the uid alone, so a uid
  shared across businesses keeps it from being created (`IndexCanBeCreatedIff`).
- A spent ticket is remembered as it was written, and an expiry can be written in more than one way, so
  single use holds for each spelling (`OncePerSpellingIff`, `ZeroSpelling`).
- Single use of tickets and the pruned throttle list rely on the clock not going back
  (`ForgettingIsSafeIff`, `PruningIsSafeIff`), the bound on failures on attempts not overlapping
  (`FailuresSpanIff`).

## Model

| member | source | states |
|---|---|---|
| FeedOwners.SeedingReachesTheTriggersOwners | backend/database/change_feed.py:112-141 | Seeding reaches exactly the businesses the triggers emit for, each once and in ascending order |
| FeedOwners.OwnColumnsLockAscending | backend/database/change_feed.py:115-117 | Owner columns on the record itself are emitted for, hence locked, in ascending order |
| FeedOwners.DialectsAgreeExactly | backend/database/change_feed.py:112-129 | SQLite's min/max and PostgreSQL's LEAST/GREATEST emit for the same businesses if and only if the record is not a shared one with exactly one owner |
| FeedModel.StepKeepsInv | backend/database/change_feed.py:18-65 | Every begin, write, emit, commit and abort of any number of transactions keeps the clocks, the pending events and the clock locks consistent |
| FeedModel.CommitKeepsCommitted | backend/database/change_feed.py:31-42 | After a commit the revisions of every business are gap-free up to its clock, and each event of a row that is still there is about one of its owners |
| FeedModel.CommittedRevisionsAreDense | backend/database/change_feed.py:1-6 | From an empty database, after any run, the committed revisions of a business are exactly 1 to its clock, each on one event |
| FeedModel.RevisionsAppearInOrder | backend/database/change_feed.py:3-5 | A step only makes visible revisions above every visible one of the business; an abort leaves rows, clocks and events as they were |
| FeedReplica.CommitAnnouncesChanges | backend/database/change_feed.py:53-64 | A commit that changes what a business sees of a row leaves an event above every cursor handed out before |
| FeedReplica.PrefixApplied | backend/database/change_feed.py:162-180 | Applying the first payloads of a page leaves each touched row as the source had it when it was read, or as a newer event will correct, and no other row changed |
| FeedReplica.DeliverKeepsReplicaOk | backend/database/change_feed.py:162-181 | After a delivery every row where the replica differs from the source has an event above the new cursor |
| FeedReplica.StepKeepsSystemInv | backend/database/change_feed.py:144-181 | Source transactions, paging queries, single row reads, deliveries and lost answers all keep that invariant |
| FeedConvergence.FreshReplicaSatisfiesInv | backend/database/change_feed.py:90-106 | A replica starting at cursor 0 satisfies the invariant as soon as every owned row is announced |
| FeedConvergence.RunKeepsSystemInv | backend/database/change_feed.py:144-181 | The invariant holds after every interleaving of source steps and pulls |
| FeedConvergence.DrainedReplicaEqualsSource | backend/database/change_feed.py:151-178 | Whatever the interleaving, an idle replica at the clock of its business holds exactly the rows its business owns, payloads being current state and not event bodies |
| FeedConvergence.RetainedRowsStay | backend/database/change_feed.py:162-178 | Whatever happens, a replica never loses a row of an entity whose deletions it refuses |
| FeedConvergence.PullSurvives | backend/database/change_feed.py:144-181 | A pull under way is not disturbed by writes and commits that happen before it is delivered |
| FeedConvergence.CompletePullConverges | backend/database/change_feed.py:159-181 | A complete pull (has_more false) with nothing committed for the business meanwhile makes the replica equal to the source |
| FeedConvergence.EmitAllTellsExactlyTodo | backend/database/change_feed.py:32-42 | The trigger of a statement announces the record to the businesses of its owner expressions and to no other |
| FeedConvergence.UpdateMustKeepTheOwner | backend/database/change_feed.py:53-64 | An update keeps a caught-up replica on course if and only if it does not take the row away from its business: the trigger announces new owners only |
| FeedOwnerLoss.GivenAwayRowsStay | backend/database/change_feed.py:53-64 | A replica that has followed the feed from the empty database and pulled everything keeps a row that the source then gives to another business, and no event above its cursor tells it otherwise |
| FeedPaging.PageHoldsTheNextRevisions | backend/database/change_feed.py:159-161 | A page is the next min(limit, rest) revisions, and has_more is true exactly when some are left |
| FeedPaging.PagesAreTheSuffix | backend/database/change_feed.py:159-181 | Concatenated pages equal the whole event suffix after the cursor, for any limit |
| FeedPaging.NumberOfPages | backend/database/change_feed.py:159-161 | There are exactly as many pages as the limit requires (rounding up), and one when there is nothing new |
| FeedPaging.NextPage | backend/database/change_feed.py:159-161 | For any limit and any cursor a page answering the query exists |
| FeedPaging.PullsTerminate | backend/database/change_feed.py:159-181 | Pulling until has_more is false ends |
| FeedPaging.OneEntityDecidesItsRows | backend/database/change_feed.py:162-180 | A row after a page depends only on the payloads of its own entity |
| FeedPaging.RegroupingIsHarmless | backend/database/change_feed.py:162-180 | Applying the page entity by entity, in any order of the entities, gives the replica that revision order gives |
| FeedCursor.PrefixNamesTheBusiness | backend/database/change_feed.py:149-150 | A cursor carries the prefix of one business only |
| FeedCursor.CursorRoundTrip | backend/database/change_feed.py:149-158 | A cursor gives back its revision to its own business and 0 to every other |
| FeedCursor.StartIff | backend/database/change_feed.py:149-158 | A pull starts at revision n if and only if n is 0 and the cursor is empty or of another business or form, or the cursor is the business's prefix followed by n in digits, leading zeros allowed |
| FeedLocks.SharedRecordWritersNeverDeadlock | backend/database/change_feed.py:115-117 | Transactions that each write one record carrying its owners never wait in a circle, whatever their number and outcome |
| FeedLineLocks.WaitingInsertsAreOpposed | backend/database/change_feed.py:115-121 | Wherever two transactions that insert one row each wait for each other, whatever else was going on, their triggers lock the same two clocks in opposite orders |
| FeedLineLocks.InsertsDeadlockIff | backend/database/change_feed.py:115-121 | Two inserts of any records can reach a circular wait if and only if their triggers lock the same two clocks in opposite orders |
| FeedLineLocks.OrderLinesDeadlockIff | backend/database/change_feed.py:118-121 | Inserts of lines of two orders that are there can reach a circular wait if and only if two different businesses trade and the seller of each order is the buyer of the other |
| FeedLineLocks.CrossedOrdersBlock | backend/database/change_feed.py:118-121 | From the empty database two crossed orders are written; then inserts of a line of each block each other |
| FeedLineLocks.OwnColumnsNeverOppose | backend/database/change_feed.py:115-117 | Triggers of records that carry their owners never lock two clocks in opposite orders |
| FeedStore.SeedingTellsEveryOwner | backend/database/change_feed.py:90-106 | After installation every row has an event for each of its owners, and nobody else was told anything new |
| FeedStore.SecondSeedingAddsNothing | backend/database/change_feed.py:97-99 | A second installation, in any order of the rows, appends nothing |
| FeedStore.SeededStoreStartsReplicas | backend/database/change_feed.py:90-106 | A replica at cursor 0 of an installed store satisfies the convergence invariant |
| FeedStore.FirstMatchesArePage | backend/database/change_feed.py:159-161 | Cutting the matching events at the limit answers the paging query |
| FeedStore.Store.Emit | backend/database/change_feed.py:32-42 | One bump and one event for a business, nothing for a NULL one; the log stays gap-free |
| FeedStore.Store.Write | backend/database/change_feed.py:75-89 | A row change and the events of its owners, in the trigger's order |
| FeedStore.Store.Install | backend/database/change_feed.py:90-106 | Seeds the missing events and only those |
| FeedStore.Store.PullFeed | backend/database/change_feed.py:144-181 | Refused if the cursor starts at no revision; from revision n on, the next events up to the limit, each row as it is now or as a tombstone, under its entity in the order of the page, with the cursor of the last event and whether more are left; refused for the first entity the database does not know |
| FeedStore.FirstPullsTellEverything | backend/database/change_feed.py:144-181 | Pulled from the empty cursor, or one of another business or form, with each cursor handed back until no more is left, the pages together are the revisions 1 to the clock of the business |
| FeedRefinement.StoreWriteIsATransaction | backend/database/change_feed.py:18-65 | An owner-keeping write of the imperative store is a legal run begin, write, emits, commit of the machine, with the same rows, clocks and events |
| LinkModel.IncomingRow.ResolveParents | backend/database/sync_map.py:334-532 | The loop over foreign keys computes the link-by-link resolution and defers exactly when that does |
| LinkRules.RowWaitsIff | backend/database/sync_map.py:334-532 | A row is deferred if and only if the uid given for some link is no parent's; or none is given and, for a user, the BizID that decides is nobody's, or, for any other parent, the link cannot be dropped and its id is no parent's |
| LinkRules.LinksAreAsRuled | backend/database/sync_map.py:334-532 | In an accepted row each link is the local id of the parent with its uid; without a uid blank if it was, for a user the local id of whom its BizID names or what it was without one, for another parent what it was if that is a parent here and else NULL; columns that belong to no link stay |
| LinkRules.AloneAsRuled | backend/database/sync_map.py:345-532 | One link by the same rules, with or without a business that is syncing: without one a uid may be any business's, and a bare id must be of the business the row itself names |
| LinkRules.PartiesAreFilledIn | backend/database/sync_map.py:400-428 | The BizID that decided a seller's or buyer's link is filled in as that of the party where it was missing |
| LinkPayload.SerializeRow | backend/database/models.py:1222-1324 | The loop over columns and foreign keys: every column that is not local with its value, no local one, under each link's aliases the uid of its parent or the BizID of its user, and nothing else |
| LinkPayload.UserLinkSurvives | backend/database/models.py:1280-1300 | A link to a user serialised in one database and accepted in another arrives at the user with the same BizID |
| LinkGraph.EachLinkIsResolvedAlone | backend/database/sync_map.py:336-366 | In an accepted row each link is what resolving it alone on the original payload gives |
| LinkGraph.WaitsExactlyForSomeLink | backend/database/sync_map.py:283-290 | A row is deferred if and only if one of its links, resolved alone on the original payload, is |
| LinkGraph.VisitingOrderIsIrrelevant | backend/database/sync_map.py:336-336 | The set of foreign keys may be visited in any order: same verdict, same links |
| LinkGraph.AppliedLinksAreProvenLocal | backend/database/sync_map.py:312-345 | In an accepted row every link not to users is NULL (only if nullable or already so) or names an existing parent, of the same business where the parent has one, by uid or raw id alike |
| LinkGraph.SerialisedLink | backend/database/models.py:1235-1314 | Serialising keeps a link and carries the parent's uid exactly when the parent has one |
| LinkGraph.LinkGraphSurvives | backend/database/models.py:1216-1324 | Serialise in one numbering, accept in another: each link is NULL if and only if it was, and otherwise points at the local row with the same parent uid and business |
| LinkIdentity.ArrivesRightIff | backend/database/sync_map.py:355-379 | A link of a row that some destination accepts arrives at the record it left from, in every destination that accepts the row, if and only if the source's parent has a uid |
| LinkIdentity.UidlessLinkCanBeWrong | backend/database/sync_map.py:374-379 | Wherever a row with a uid-less parent is accepted, it would be accepted all the same if the local row of that id were another record |
| Deferral.WaitsExactlyForMissingParents | backend/database/sync_map.py:347-366 | A uid-carrying payload is deferred if and only if one of its parents is not local |
| Deferral.RealPassesFollowTheUids | backend/core/sync/inbox.py:285-331 | A pass of the real resolver over held rows applies just the rows whose parents are there, seen on uids alone |
| HeldInbox.Inbox.Select | backend/core/sync/inbox.py:207-226 | The loop over the inbox picks the oldest due rows with attempts left, up to the limit, those of parent tables first |
| HeldInbox.DrainTakesTheOldest | backend/core/sync/inbox.py:207-226 | A drain takes due rows only, as many as the limit allows and no younger one before an older; those of child tables last, each kind in the order of arrival |
| HeldInbox.Inbox.Drain | backend/core/sync/inbox.py:270-344 | The loop over the selected rows tries each once: applied with its parents here and nothing else wrong, else one attempt more and its backoff |
| HeldInbox.NoneGivenUpEarly | backend/core/sync/inbox.py:81-99 | Whatever the drains, limits and failures, no row is out of attempts within the delays after its first six attempts, 26475 seconds, of the first drain |
| InboxDrains.DrainsArePasses | backend/core/sync/inbox.py:270-344 | As long as attempts last, drains late enough for every waiting row to be due are passes over the waiting rows in drain order |
| InboxHistories.LeastClosedIff | backend/core/sync/inbox.py:207-344 | After any history of drains (any times, limits and refusals), arrivals, newly held rows and retries, what is here is the least set closed under the rows ever held if and only if no waiting row has all its parents here and would add anything |
| InboxHistories.OrderIsIrrelevant | backend/core/sync/inbox.py:207-344 | Histories that bring the same rows, whatever the order of rows and drains, end with the same rows here as soon as neither leaves one that is ready |
| InboxHistories.InboxKeepsEveryRow | backend/core/sync/inbox.py:123-200 | Whatever the history, the inbox has the rows it had and those held since, in that order |
| InboxHistories.RetryRevives | backend/core/sync/inbox.py:347-364 | After a retry the next drain with room for the whole inbox applies a row whose parents are here and with which nothing else is wrong |
| InboxHistories.NewcomersGetAllAttempts | backend/core/sync/inbox.py:347-364 | No drains give up a row that is newly held or retried within seven hours of the first |
| InboxHistories.StuckIff | backend/core/sync/inbox.py:207-344 | A row whose parents are all here and which nothing else refuses or retries is out of attempts at the end of any such history if and only if it was when the last parent came |
| InboxChains.ChainsDrainWithinTheCap | backend/core/sync/inbox.py:81-96 | With acyclic links, rows of tables drained last counted with their parents, and no more grades than drains, at most seven: every row is applied, in whatever order the rows arrived |
| InboxChains.LongChainsGetStuck | backend/core/sync/inbox.py:207-226 | A chain that arrives children first is left, after seven drains, with exactly its rows past the seventh turn, out of attempts; a turn is one row, or one and a row of a table drained last that follows it |
| InboxChains.ChainSettlesIff | backend/core/sync/inbox.py:81-96 | Given enough drains, the rows of a chain are all applied in whatever order they arrived if and only if there are at most seven, not counting those of tables drained last that follow one of another table |
| SchemaChains.LinksDescend | backend/database/models.py:266-642 | Every foreign key between synced tables, but for those of a table to itself, leads to a table of lower rank, of at most four ranks |
| SchemaChains.ChainLength | backend/database/models.py:266-642 | A chain of held rows along these keys has at most four rows more than links within one table |
| SchemaChains.SchemaRowsSettle | backend/core/sync/inbox.py:81-96 | Held rows with any parents these keys allow, at most four links deep within a table, are all applied by seven drains, in whatever order they arrived |
| SchemaChains.SchemaChainSettlesIff | backend/core/sync/inbox.py:81-96 | The rows of a chain along these keys always drain, whatever the order of arrival, if and only if at most seven are of tables not drained last |
| SchemaChains.SchemaChainsSettleIff | backend/core/sync/inbox.py:81-96 | Chains with up to s links within one table always drain if and only if s is at most four |
| Outbox.ReachableQueues | backend/database/models.py:1393-1451 | In every reachable queue at most one row is pending about a target, holding the payload queued last |
| Outbox.DedupEqualsReplay | backend/database/migration.py:1421-1449 | Collapsing an arbitrary queue leaves the targets, payloads and order that replaying its pending rows into an empty queue gives, each target once |
| Outbox.SyncQueue.QueueRowIfAbsent | backend/database/models.py:1420-1451 | Refreshes the pending row about a target or appends one, and says which |
| Outbox.QueueingIsUpserting | backend/database/models.py:1420-1451 | On the pending list queueing is an upsert |
| Outbox.RequeuingKeepsTimers | backend/database/models.py:1414-1451 | However often changes are queued, a row that was there keeps its id, attempts, next attempt, creation time and status; only its payload changes, to one queued about its target since |
| Outbox.SyncQueue.Dedup | backend/database/migration.py:1421-1449 | The two statements refresh every pending row and then keep the oldest pending one per target |
| Outbox.CollapsingKeepsTheOldest | backend/database/migration.py:1421-1449 | A row is left if and only if it was already sent or was the oldest pending one about its target; only payloads change |
| CollectionKeys.UidIsReadBack | backend-task/app/collections.py:31-36 | The uid read from a receipt key is the uid it was made with |
| CollectionKeys.KeysNeverCollide | backend/core/field_team.py:94-98 | Keys are equal if and only if task, bill and checkpoint are, an absent checkpoint counting as zero |
| CollectionModel.ServicesAgree | backend/core/field_team.py:116-129 | Billing's per-bill record adds up to the total the field service reads back, and names just the bills with a receipt |
| CollectionModel.BillingService.ReadRecorded | backend/core/field_team.py:122-129 | The loop over receipts fills the per-bill record |
| CollectionModel.BillingService.Record | backend/core/billing/commands.py:702-802 | Gives the receipt of a used key, or appends one and adds to the bill, or refuses and changes nothing |
| CollectionModel.BillingService.ConfirmCollection | backend/core/field_team.py:208-271 | Does what the approval function says: all payments and the new total, or no change and the refusal |
| CollectionChecks.CheckIff | backend/core/field_team.py:208-243 | The check of any split passes if and only if the task is a done collection with cash left, the checkpoint is absent or what is confirmed, some portion is positive, the positive ones name distinct bills, each is an open bill among the task's own or else of the shop's customer, with that much due and unused when no checkpoint is given, and they fit what is left; and a refusal names the first of these that fails |
| CollectionChecks.ConfirmedAddsUp | backend/core/field_team.py:116-129 | What two lists of receipts confirm is the sum of both |
| CollectionChecks.OneConfirmed | backend/core/field_team.py:116-129 | One receipt confirms its amount if its key has the uid of the collection after the prefix, and else nothing |
| CollectionChecks.PaymentIff | backend/core/billing/commands.py:702-802 | A payment gives the receipt that its key already has and changes nothing; else it adds one receipt and its amount to the one bill, exactly when that is there, no note, and not paid past its total less its notes; nothing is paid with no amount |
| CollectionSafety.CheckedPortionsFit | backend/core/field_team.py:219-243 | A passed check leaves positive portions of distinct open bills within the uncollected cash, on unused bills when no checkpoint is given |
| CollectionSafety.RecordAppends | backend/core/field_team.py:254-262 | No payment of an approval ever meets a used key: each appends a receipt of its own |
| CollectionSafety.StepKeepsInv | backend/core/field_team.py:208-271 | Every step of concurrent approvals, other payments, edits of bills and task changes keeps: distinct keys, confirmed within collected, confirmed equal to approved, paid equal to opening plus receipts |
| CollectionTheorems.ExactlyOnce | backend/core/field_team.py:208-271 | Over every run keys never collide, confirmed cash is exactly what was approved and at most what was collected, there are at most as many approvals as paise, and each bill is paid its opening amount plus its receipts |
| CollectionTheorems.RepeatsAreRefused | backend/core/field_team.py:222-241 | A committed approval is refused ever after: with any split if it had a checkpoint, else with any split naming one of its bills |
| CollectionTheorems.ConfirmIsARun | backend/core/field_team.py:253-271 | A successful call is one legal run of the concurrent machine and confirms exactly the approved split |
| CollectionSuggest.Suggest | backend/core/field_team.py:153-161 | The loop allocates min(amount, total due), never over a bill's due, later bills only when earlier ones are cleared |
| CollectionSuggest.GreedyIsUnique | backend/core/field_team.py:153-161 | Those properties determine the split |
| CollectionSuggest.SuggestionPassesTheChecks | backend/core/field_team.py:179-203 | With any candidate bill the non-zero part of the suggestion passes every check of a confirmation from the same snapshot |
| CollectionSuggest.SuggestionLeavesNothing | backend/core/field_team.py:179-203 | Once it is confirmed, no cash or no candidate bill is left |
| CollectionRefusals.BatchGoesThroughIff | backend/core/billing/commands.py:744-766 | A checked batch is booked if and only if every bill can take its portion within its credit-adjusted total |
| CollectionRefusals.SuggestionIsBookedIff | backend/core/billing/commands.py:753-766 | Whatever the cash, the suggestion is booked if and only if each bill that the cash comes to, after what the bills before it owe, has room for what it comes to there within its credit-adjusted total |
| CollectionRefusals.WholeSuggestionIsBookedIff | backend/core/billing/commands.py:753-766 | When the cash covers all that is due: if and only if no candidate with a positive total has a credit note |
| CollectionRefusals.SuggestionCanBeRefused | backend/core/field_team.py:105-107 | A credit-noted bill whose suggestion passes every check and is refused by the payment |
| Planning.OneLiveTaskPerBill | backend-task/app/invoices.py:211-225 | From an empty desk, after any run, two live tasks of one kind that share a bill are the same task |
| Planning.ActKeepsDesk | backend-task/app/invoices.py:173-225 | Every step of concurrent planners, staff, owner and billing keeps bills off two live tasks of one kind, and the ledger invariant |
| Planning.ReservedUntilConfirmed | backend-task/app/invoices.py:111-118 | From the moment a collection is completed, in every run, no other collection is planned on its bills before its last paisa is confirmed |
| Planning.ConfirmedGrows | backend-task/app/collections.py:26-37 | No step lowers what is confirmed of a collection |
| PlanningBills.PlanIff | backend-task/app/invoices.py:173-225 | A task is planned if and only if its uid is new and the planner has picked its bills: each locked by the planner, of the task's customer, no note, not closed, not fully returned by billing's balance, with something outstanding if it is to be collected, and on no live task of the kind |
| PlanningBills.OutstandingIsTheBalance | backend-task/app/invoices.py:42-70 | What a planner takes for outstanding is the outstanding amount of billing's balance |
| PlanningGuard.LiveTasks | backend-task/app/invoices.py:96-119 | The loop files the live links under their bills |
| PlanningGuard.EnsureNotPlanned | backend-task/app/invoices.py:211-225 | Refuses if and only if some bill owes nothing to collect or is on a live task of the kind: for the first such bill, naming the first task that has it unless it owes nothing |
| PlanningGuard.GuardMeansNotPlanned | backend-task/app/invoices.py:211-225 | On the links a planner reads, passing the guard is the condition the state machine requires |
| PayerLocks.LocksAreExclusive | backend/database/change_feed.py:31-42 | In every run of planners, approvals, receipts and edits no bill and no clock is ever locked by two of them |
| DeskWaits.WaitsAreExact | backend/database/change_feed.py:31-42 | In every run, a planner, an approval, a receipt or an edit can take its next lock if and only if nobody else holds it and what it is about to do is in order: the graph of waits is neither too large nor too small |
| DeskWaits.NewBillsTakeTheClock | backend/database/change_feed.py:31-42 | A new bill can be written if and only if nobody has the clock of the business |
| DeskWaits.AnyoneCanGiveUp | backend/core/field_team.py:253-271 | Whoever is under way can give up at any time, waiting or not, and nobody else gains or loses a lock by that |
| PayerLocks.WaitingPayersAreCrossed | backend/core/billing/commands.py:716-802 | Wherever two approvals, receipts or edits wait for each other, whatever else was going on, their lists of locks are crossed: first bill, clock of the business, other bills |
| StopLocks.WaitingRunsAreCrossed | backend-task/app/routers/runs.py:79-124 | Wherever two planners of runs of stops wait for each other, whatever else was going on, the bills of their stops strung together are crossed in that sense |
| StopLocks.RunsDeadlockIff | backend-task/app/routers/runs.py:79-124 | Two runs of stops that would each go through can end up waiting for each other if and only if their bills, in visiting order and by id within a stop, are crossed |
| StopLocks.GoodRunsGoThrough | backend-task/app/routers/runs.py:79-124 | Alone on the desk such a run locks all its bills and plans all its stops |
| StopLocks.StopsCanDeadlock | backend-task/app/routers/runs.py:79-124 | Two assignable bills visited in opposite orders by two runs of two stops, with the tasks planned between, are enough |
| OrderlyDesks.OrderlyDesksNeverDeadlock | backend-task/app/invoices.py:187-193 | Any number of planners that pick bills once, in id order, of approvals whose first bill is at most t and whose others ascend above t, and of receipts and edits of bills up to t, never wait in a circle of any length |
| DeskRings.RingsIff | backend/core/field_team.py:254-261 | Beside any planners that pick bills once, any number of approvals, receipts and edits that would each go through can end up with somebody waiting in a circle, of any length, if and only if some split is not ascending or some bill after the first of a split is not above the first bill of every other |
| ApprovalLocks.PayersDeadlockIff | backend/database/change_feed.py:31-42 | Two approvals, receipts or edits that would each go through can end up waiting for each other if and only if the first bills they lock differ and one of these is among the bills of the other |
| ApprovalLocks.ApprovalsDeadlockIff | backend/core/field_team.py:254-261 | Two approvals: if and only if the first bills of their splits differ and one of these is in the other split, ascending or not |
| ApprovalLocks.ApprovalAndTillDeadlockIff | backend/core/field_team.py:254-261 | An approval and a receipt or edit of one bill: if and only if that bill is in the split, but not first |
| ApprovalLocks.TillsNeverDeadlock | backend/core/billing/commands.py:716-802 | Receipts and edits of one bill each never wait for each other in a circle |
| ApprovalLocks.TillGoesThrough | backend/core/billing/commands.py:716-802 | On a quiet desk a receipt or an edit of a bill that is there is made, and leaves no lock |
| ApprovalLocks.ApprovalsCanDeadlock | backend/core/field_team.py:254-261 | On a desk that satisfies the invariant, two collections planned without bills: splits of the same two bills in opposite orders block each other, and so do the ascending split of both and a split of the second alone |
| RunApprovalLocks.RunAndApprovalDeadlockIff | backend-task/app/routers/runs.py:79-124 | A run of stops and an approval that would each go through can end up waiting for each other if and only if they come to the bills they share at different ones first; the clock plays no part |
| Balances.FilterAgreesExactly | backend-task/app/invoices.py:133-147 | The SQL filter and the balance agree on whether a bill is unpaid if and only if not (total - credited <= paid < 0) |
| Balances.FilterAgreesForRealPayments | backend-task/app/invoices.py:133-147 | They agree whenever paid is not negative |
| Balances.SumCredits | backend-task/app/invoices.py:49-51 | The grouped query gives each bill its own sum of notes |
| Balances.SumReceipts | backend-task/app/invoices.py:52-54 | The grouped query gives each bill its own sum of receipts, and none where there is none |
| BalanceLaws.ReceiptsAddUp | backend-task/app/invoices.py:52-54 | The receipts of a bill in two lists come to the sum of both |
| BalanceLaws.OneReceipt | backend-task/app/invoices.py:52-54 | One receipt comes to its amount if it is of the bill and its business, and else to nothing |
| BalanceLaws.ReceiptsInAnyOrder | backend-task/app/invoices.py:52-54 | Their sum does not depend on their order |
| BalanceLaws.ReceiptsAbsentIff | backend-task/app/invoices.py:52-61 | A bill has no receipt sum, and its recorded payment counts, if and only if no receipt is of it |
| BalanceLaws.CreditsAddUp | backend-task/app/invoices.py:49-51 | The notes of a bill in two lists come to the sum of both |
| BalanceLaws.OneNote | backend-task/app/invoices.py:49-51 | One note comes to its total if it was given against the bill in its business, and else to nothing |
| BalanceLaws.CreditsInAnyOrder | backend-task/app/invoices.py:49-51 | The sum of the notes of a bill does not depend on their order |
| Balances.InvoiceBalances | backend-task/app/invoices.py:42-64 | The batch over several businesses gives every invoice the balance it has on its own, and no other |
| BalanceLaws.BalanceIsSettled | backend-task/app/invoices.py:42-64 | What a bill owes and what is owed back differ by its effective total less what is paid, are not negative and not both there; a credit note has neither |
| BillingContext.BillingReadContext.Prime | backend-task/app/billing_context.py:19-42 | Whatever is missing is read, what is cached stays, and every cached entry is what the tables hold |
| BillingContext.BillingReadContext.Customer | backend-task/app/billing_context.py:44-46 | The customer of a shop as without a cache |
| BillingContext.BillingReadContext.TaskBalances | backend-task/app/billing_context.py:48-70 | After any sequence of primes the task's lines, availability and amount due are the uncached ones |
| BillingContext.LineIsLiveIff | backend-task/app/billing_context.py:48-66 | A line of a task is available if and only if there is a bill of that id and business, no note and not closed, given to the customer of the task's shop, and then it shows the balance of that bill |
| BillingContext.DueAddsUp | backend-task/app/billing_context.py:67-70 | The amount due grows with each further available line by what its bill owes, and with no other |
| Overfill.DialectsAgreeExactly | backend/database/migration.py:943-989 | The two triggers accept alike if and only if the target is absent or not negative |
| OverfillRaces.OwnedDocumentsStayUnder | backend/database/change_feed.py:31-62 | With any number of concurrent PostgreSQL transactions, inserting any lines, rolling back to savepoints, committing and aborting as they like, a guarded document with an owner never passes the bound, or what it held to begin with: the feed trigger fires before the guard and keeps other inserters waiting |
| OverfillRaces.NeverPassesIff | backend/database/migration.py:937-978 | With up to n transactions at a time a guarded document never passes the bound if and only if it has an owner or n is 1 |
| OverfillRaces.RacesOverfillByAtMost | backend/database/migration.py:953-978 | Lines that are not negative take any guarded document past the bound by at most n - 1 times the room it had |
| OverfillRaces.RacesDoOverfill | backend/database/migration.py:953-978 | Without an owner that much is reached, for every n |
| OverfillRaces.TurnsAreSerial | backend/database/migration.py:953-978 | Transactions that insert any lines and commit one after the other never keep each other waiting: they leave what the same inserts leave in series, and no lock |
| OverfillRaces.UndoneLeavesNothing | backend/database/migration.py:953-978 | A transaction that is aborted, or rolled back to before its first line, leaves no line and no lock |
| Overfill.NeverOverfilled | backend/database/migration.py:953-989 | Inserts one after the other never take a guarded document past target plus one rupee |
| Overfill.OverfilledTakesNothing | backend/database/migration.py:953-989 | An overfilled document takes no non-negative line |
| Overfill.AllTakenIff | backend/database/migration.py:953-989 | Lines are all taken if and only if no running total passes the bound |
| Overfill.TakenInEveryOrderIff | backend/database/migration.py:953-989 | Any lines are taken in full in whatever order they arrive if and only if what is there, with all positive lines and less any one that is negative, stays under the bound |
| Overfill.EveryOrderIsTakenIff | backend/database/migration.py:953-989 | For a document not yet overfilled: if and only if it has room for all positive lines |
| Overfill.Document.Append | backend/database/migration.py:978-989 | One insert against the trigger: accepted exactly by its test, and never overfilling |
| LineRepair.Ledger.PlanRepairs | repair_line_items.py:41-85 | The loop with its growing targets gives the plans, or the first refusal |
| LineRepair.Ledger.Repair | repair_line_items.py:147-185 | All plans applied, or the database as it was; a dry run only plans |
| LineRepairTheorems.PlanAllIff | repair_line_items.py:45-85 | A list is planned if and only if each mapping is sound on its own and no two share a target |
| LineRepairRules.PlannableIff | repair_line_items.py:45-85 | A mapping is sound on its own if and only if it names one business, one target and one donor in it, the target has no lines and the donor some, headers and identities agree, each line and its product are of the business, and the lines reproduce every header sum and the total within a paisa |
| LineRepairRules.RefusedForTheFirstFault | repair_line_items.py:58-84 | A mapping that names its documents is refused for the first of its faults, in the order of the checks, and else plans the donor's lines |
| LineRepairRules.TargetHoldsTheDonorsLines | repair_line_items.py:160-176 | After a run a target has, line by line, the products and amounts of its donor, in the name of the business |
| LineRepairTheorems.TargetsAreNoDonors | repair_line_items.py:58-62 | No target is the donor of any mapping |
| LineRepairTheorems.RepairedIff | repair_line_items.py:147-185 | A run succeeds if and only if there is a mapping, the list is plannable and the guard takes each plan; and what it then leaves |
| LineRepairTheorems.SuccessCopiesTheDonor | repair_line_items.py:76-83 | Each target has copies of its donor's lines meeting every header sum within a paisa; no other document and no header changes |
| LineRepairTheorems.OrderIsIrrelevant | repair_line_items.py:45-57 | Any order of the mappings gives the same result |
| LineRepairTheorems.RepetitionIsRefused | repair_line_items.py:58-59 | After success any list repeating one of the mappings is refused |
| LineRepairTheorems.GuardTakesIff | backend/database/migration.py:981-989 | The guard stops a plan if and only if the target is positive and a running total passes the bound |
| LineRepairTheorems.GuardNeverBlocks | repair_line_items.py:80-83 | With lines that are not negative a plannable run succeeds |
| PaidState.HistoriesOnlyRaise | backend/database/migration.py:1144-1194 | In any history of starts, receipts, payments and header edits, since the header of an invoice was last written only its paid amount and status have changed, and the amount only upwards, to what the receipts came to at some start and at most the invoice, within a paisa |
| PaidState.StartsSettle | backend/database/migration.py:1149-1194 | In any such history, right after a start each invoice with receipts agrees with them and says so, or is an anomaly left as it was |
| PaidState.PaymentsStayBooked | backend/core/billing/commands.py:821-836 | Over any such history an invoice whose header is written by payments only, and which has no other receipts, records what had been paid before plus its receipts: no start undoes a payment |
| PaidState.Books.RepairPaidState | backend/database/migration.py:1144-1194 | The loop raises, relabels and reports: new table, changed rows, both anomaly lists |
| PaidRules.StartsRepairEach | backend/database/migration.py:1149-1194 | What a start makes of each invoice, in its total, recorded payment and receipts: left as it is and reported, raised, or relabelled, with the status that the amounts give |
| PaidRules.LedgersAddUp | backend/database/migration.py:1136-1141 | The receipts of two lists come to the sum of both |
| PaidRules.EveryPaymentCounts | backend/core/billing/commands.py:821-836 | Over any such history an invoice that only payments write records what it recorded at first plus every payment on it, each once, whatever the starts in between |
| PaidRules.AnyHeaderCanBeWritten | backend/database/migration.py:1144-1194 | The histories leave no edit of a header out |
| PaidState.SecondRunChangesNothing | backend/database/migration.py:1116-1117 | A second run is a no-op |
| PaidState.RunNeverLowers | backend/database/migration.py:1149-1194 | No paid amount and no total goes down |
| UidDedup.Table.Dedup | backend/database/migration.py:1305-1340 | Leaves the rows without a uid and the newest of each uid and business, and counts the rest |
| UidDedup.DialectsKeepTheSame | backend/database/migration.py:1308-1331 | Rank in the group and greatest id of the group keep the same rows: those without a newer copy |
| UidDedup.LeftAreNewest | backend/database/migration.py:1305-1340 | A row is left if and only if it has no uid or no newer copy |
| UidDedup.SomeCopyIsLeft | backend/database/migration.py:1305-1340 | No uid is lost: each row with one leaves a copy of its group at least as new |
| UidDedup.IndexCanBeCreatedIff | backend/database/migration.py:1346-1360 | Afterwards uids are unique, as the index demands, if and only if no uid was shared across businesses |
| Tickets.TicketDesk.Redeem | backend-task/app/security.py:171-199 | Verification, pruning, the single-use test and the spending, on the table |
| Tickets.ForwardClocksAgree | backend-task/app/security.py:187-191 | With a forward clock the pruning table answers as one that never forgets |
| Tickets.RedeemedAtMostOnce | backend-task/app/security.py:187-198 | With a forward clock each ticket, as a string, is redeemed at most once |
| Tickets.ForgettingIsSafeIff | backend-task/app/security.py:182-191 | Forgetting changes no answer, for all tickets, if and only if the clock readings never come back, within a ticket's lifetime, to where they were before an advance |
| TicketSpelling.OncePerClaimsIff | backend-task/app/security.py:173-199 | For any way of reading tickets: if and only if no two of them read as the same claims and expiry |
| TicketSpelling.OncePerSpellingIff | backend-task/app/security.py:173-199 | However expiries are read as numbers, tickets of any set are redeemed at most once for each claims and expiry, under a forward clock, if and only if none comes with its expiry spelled in two ways: the number is signed, the string is remembered |
| TicketSpelling.WrittenIsRead | backend-task/app/security.py:173-183 | Any spelling read as the expiry makes a ticket with the same valid signature |
| TicketSpelling.MintedIsRead | backend/services/auth.py:312-330 | A ticket that Billing mints is read as its claims and expiry, genuine, spelled without leading zeros |
| TicketSpelling.ZeroSpelling | backend-task/app/security.py:173-183 | A zero before any readable minted ticket is another spelling of it with a valid signature |
| TicketSpelling.MintedOnce | backend/services/auth.py:312-330 | Tickets as minted are redeemed at most once for each claims and expiry |
| Throttle.LoginThrottle.Check | backend-task/app/security.py:209-214 | Prunes the key's list to what is kept of its history and admits exactly below ten recent failures |
| Throttle.LoginThrottle.RecordFailure | backend-task/app/security.py:217-218 | Adds the failure to the list, which stays what is kept of the history |
| Throttle.LoginThrottle.ClearFailures | backend-task/app/security.py:221-222 | Empties the list, which stays what is kept of the history |
| Throttle.PruningIsSafeIff | backend-task/app/security.py:209-222 | The pruned list decides as the whole history since the last clear would, whatever happened at given clock readings, if and only if the clock never comes back into the window of an event that it had left |
| Throttle.PruningDecidesAlike | backend-task/app/security.py:209-222 | With a forward clock it does so |
| Throttle.FailuresTakeTime | backend-task/app/security.py:205-218 | With at most m admitted attempts outstanding at a time, any 10 + m failures in a row span at least fifteen minutes |
| Throttle.OverlappingAttemptsEscape | backend-task/app/security.py:209-218 | For every m, 9 + m failures can coincide |
| Throttle.FailuresSpanIff | backend-task/app/security.py:205-218 | Any n failures in a row span fifteen minutes if and only if n is at least 10 + m |
| Throttle.ElevenFailuresIff | backend-task/app/security.py:205-218 | Any eleven failures in a row do if and only if attempts do not overlap |

## Left out

- Replica apply: modelled as upsert or removal by uid, with the entities whose deletions a replica
  ignores as a parameter; last-writer-wins, clock-skew holds and natural-key matching are not.
- Events: their bodies, and the `_sync_revision` stamp, are not part of the model, since pulls ship
  current rows; tables without a uid column are not modelled.
- Owners: a row's owners are taken to stay (the exact condition is proved); a child whose parent is
  already gone when its trigger runs is not modelled.
- FeedConvergence.DrainedReplicaEqualsSource: speaks of entities whose deletions the replica applies;
  a retained entity keeps its deleted rows by design.
- FeedRefinement.StoreWriteIsATransaction: for records on which both dialects emit alike (the condition is
  exact in `FeedOwners.DialectsAgreeExactly`).
- FeedCursor.StartIff: Python's `int` also accepts signs, blanks and underscores in a revision typed by
  hand; here these are refused like any other text.
- FeedStore.Store.PullFeed: likewise.
- Installation: trigger text, grants, the advisory lock and retries of concurrent installers.
- LinkModel.IncomingRow.ResolveParents: whom a BizID resolves to, a local account or a stub created for
  it, is a parameter; `_bizname`, text-typed ids, the conflict log and database errors are not modelled.
- `b2b_orders.seller_invoice_uid`, a real column named like an alias: such tables are excluded by the
  premise on aliases.
- HeldInbox.Inbox.Drain: one reading of the clock for a whole drain; unreadable payloads count as rows
  refused for other reasons; refreshing a held payload is not modelled.
- InboxDrains.DrainsArePasses: drains of the whole inbox, late enough for all to be due, with no row
  refused for another reason; `InboxHistories` has any drains.
- InboxChains.ChainsDrainWithinTheCap: drains of the same kind; with earlier or smaller ones rows wait longer.
- InboxChains.LongChainsGetStuck: likewise, and for chains over any keys; `SchemaChains` ties them to the
  schema.
- InboxChains.ChainSettlesIff: likewise.
- SchemaChains.SchemaRowsSettle: drains as there; links to users, which are not synced, and tables that
  neither link nor are linked to do not matter to chains and are left out.
- SchemaChains.SchemaChainSettlesIff: likewise.
- SchemaChains.SchemaChainsSettleIff: likewise.
- Outbox gating: which changes are queued at all (`_queue_change`, `_get_business_id`), and the SQLite
  refresh's reading of a NULL business as -1 (business ids are positive).
- Outbox.SyncQueue.QueueRowIfAbsent: picks the first pending row where SQL may pick any; in reachable
  queues there is only one.
- Payments: the journal, payment status and dates, legacy baselines captured at the first receipt,
  refunds and credit transfers; a bill carries what was paid before its first receipt as `opening`.
- CollectionModel.BillingService.Record: the journal entry, the payment status and the legacy baseline of
  a bill paid before its first receipt are not modelled; keys are not empty.
- CollectionSafety.StepKeepsInv: other payments carry no collection key; the caller-chosen keys of other
  clients are taken to respect the prefix.
- `pending_collections` beyond its suggestion (labels, dates, the limit of 300), and `attach_invoices`
  (reference text, box counts, the cap on the expected amount).
- Planning.ActKeepsDesk: deleting a run with its tasks is not a step, since it could only free bills; nor
  are the limit of 50 bills a task, the state of runs and stops on reopening, and the comparison of the
  collected amount with the current balance on completion.
- CollectionSuggest.Suggest: the amount is not negative, as its only caller makes sure.
- The billing service's own balance projection (absolute note totals, baselines, refunds, legacy text
  links), of which the modelled batch is a reduced twin.
- Overfill.NeverOverfilled: inserts one after the other; concurrent ones are in `OverfillRaces`.
- OverfillRaces.OwnedDocumentsStayUnder: updates of lines or headers are not modelled under concurrency,
  one of the document's clocks stands for all of them, and a guard sees what was committed when it runs,
  as at PostgreSQL's default isolation level.
- OverfillRaces.RacesOverfillByAtMost: likewise.
- OrderlyDesks.OrderlyDesksNeverDeadlock: other writers of the business, which take its clock but no
  bill, and other businesses are not modelled; nor is the journal's advisory lock
  (`backend/core/accounting/posting.py:112-114`), which is only taken by who has the clock already and
  adds no wait.
- ApprovalLocks.PayersDeadlockIff: likewise.
- DeskRings.RingsIff: likewise, and planners that pick their bills once; for runs of several stops the
  conditions are exact for pairs only.
- StopLocks.RunsDeadlockIff: stops that plan a delivery; the collection and the free tasks a stop may add
  take no further lock.
- Throttle: clock readings are whole seconds.
- LineRepair.Ledger.Repair: fresh line uids, the encrypted backup and missing columns of old databases.
- PaidState.Books.RepairPaidState: a failing update and the log lines.
- PaidState.HistoriesOnlyRaise: a payment's status and what was paid before its first receipt are
  parameters; invoices and receipts are not deleted.
- The party archive (freezing party snapshots when an account is retired) is not modelled.
- Plan expiry, points and settings are not modelled.
- Signatures, tokens, password hashing and encryption are abstract or absent; nothing here assesses
  security.

# Model of the Kalatori daemon

Kalatori takes orders over HTTP, gives each an account of its own on one of several chains, watches these accounts,
records payments and pays them out to one recipient. This project models that path in Dafny and proves what every
interleaving, failing node, shutdown, crash and restart keeps.

`dafny verify dfyconfig.toml` verifies the whole project. Each proof is kept within 2,000,000 resource units:
`dafny verify --resource-limit 2000000 --verification-time-limit 0 dfyconfig.toml`.

## How it is laid out

| file | models |
|---|---|
| `Definitions.dfy` | machine integers, UTF-8 text, orders and currencies |
| `Scale.dfy`, `OrderCodec.dfy`, `Layout.dfy` | the SCALE encoding (Polkadot Protocol Specification, A.2.2), type by type, codecs of keys and rows, and their bytes written out |
| `Ledger.dfy` | the database requests on a plain map, and their lifecycle |
| `Store.dfy` | the database server on a tree of bytes, shown to be that map |
| `Chains.dfy` | duplicate rejection, routing tables, asset matching of one connection |
| `Watching.dfy`, `Blocks.dfy` | the watch map of a tracker: one block, one new connection; a block from a node's storage to the map |
| `Intake.dfy`, `Handling.dfy`, `Signing.dfy` | what a request and a notification lead to, field by field; State handler and signer as objects |
| `Protocol.dfy` | all actors as one state machine: 27 kinds of step, runs, reachable states |
| `Replies.dfy`, `Capacities.dfy`, `Deadlock.dfy` | where reply channels are; the bounds of the queues; progress, and the one deadlock |
| `Safety.dfy`, `Sightings.dfy` | the inductive invariant and the payout theorems; on which chain and in which asset a payment was seen |
| `Watches.dfy`, `Rounds.dfy` | where the request to watch an order is, and exactly which steps drop it; one round over a watch map |
| `Notices.dfy`, `Losses.dfy` | where the report of a covering balance is, where the payout of a paid order is, and exactly which steps lose them |
| `Routing.dfy` | that currencies reach the tracker that knows them |
| `Recovery.dfy`, `WindingDown.dfy` | restarts and endpoint switches; the shutdown of manager and trackers |
| `Scenarios.dfy` | building blocks of runs: chains connect, an order is asked for, watched again, seen paid |
| `Findings.dfy`, `Uncovered.dfy` | runs that reach the deadlock and lose a payout; which requests let an order be paid uncovered |
| `Instances.dfy` | that the assumptions of the theorems can be met |
| `Payouts.dfy` | one payout attempt |
| `KeyPages.dfy`, `Events.dfy` | paged key enumeration, event filtering, receiver scan |
| `Rounding.dfy`, `Amounts.dfy` | binary64 rounding (IEEE 754-2019, section 4.3.1), `parse` and `format` |
| `PrettyCause.dfy`, `Shutdown.dfy` | the printed cause list; shutdown reason and exit code |

Code that works step by step is a class or a method with loops, proved against functions on values; the state machine
uses the same functions, so the theorems about runs are about what the methods compute.

In `Protocol.dfy` an actor's step reaches to its next wait. Queues have a capacity (1024 in the code, a parameter here).
History is kept beside the order table: every record stored, every covering balance fetched, every payout requested and
attempted. What the blocks of the chains hold is a given history; which of it a node shows and when, clients, clocks and
timeouts are free choices of a step. Inserted rows survive a crash, nothing else does.

## What the code does not do

Each of these is proved from the code as written, with the exact condition where there is one.

- The deadline test holds while the deadline is still ahead (src/chain/tracker.rs:121), so the next block drops a live
  unpaid invoice and keeps an expired one: `Watching.UnpaidStaysIff`.
- A modified order is not watched anew (src/state.rs:323-325). It can be paid without a balance that covers its record
  exactly if it was asked for less before, or in another currency: `Uncovered.UncoveredIff`.
- The State handler waits for the manager, whose request or shutdown can wait behind a tracker that waits for room in the
  full State queue: `Findings.DeadlockIsReachable`, `Deadlock.DeadlockIsFinal`; otherwise waiting callers make progress:
  `Deadlock.WaiterMoves`, `Deadlock.StopperMoves`.
- A report of a covering balance is lost by a crash, by the State handler's end, and when that handler has ended, while
  its invoice is no longer watched: `Notices.ForgottenIff`.
- A pending order is left unwatched until the next start when its tracker or the manager ends with the request, when the
  restore task finds the manager gone, and when a round lets it go: `Watches.NeglectedIff`.
- Only native transfers start a check of the account they go to (src/chain/rpc.rs:637-640); after an asset transfer an invoice
  is looked at for its deadline alone, or on a new connection: `Blocks.NextBlock`.
- The payout of a paid order is lost by a crash before it is attempted, since restarts restore pending orders only, and
  by the end of its tracker (src/chain/tracker.rs:92, whose error src/state.rs:130 drops): `Losses.LostIff`,
  `Findings.PayoutLostWithoutCrash`.
- `mark_withdrawn` and `mark_stuck` read under the raw id (src/database.rs:464, src/database.rs:482):
  `Store.SettleAsMeantIff`. Nothing outside the database module asks for them.
- A chain with a native token and assets never connects (src/chain/tracker.rs:225-246): `Chains.ConnectsIff`. Nor is the
  kind of the kept entry looked at: `Chains.NativeEntryIff`.
- Duplicate chain names are accepted and misroute (src/chain/mod.rs:63): `Chains.RoutedHomeIff`. The routing theorems
  require distinct chain names.
- Payout subtraction wraps: `Payouts.UnderpaidNeverPaysIff`.
- More than 2560 storage keys are cut off without an error: `KeyPages.CompleteIff`.
- The panic hook never records a panic as an error and mistakes the first panic for a later one: `Shutdown.ReportIff`,
  `Shutdown.ExitIff`. Its blocking read of the reason (src/shutdown.rs:108) panics again inside the asynchronous runtime,
  as the documentation of tokio's `RwLock::blocking_read` says; that aborts the process before anything is printed.
- A storage value that does not decode panics (src/chain/rpc.rs:676), other unreadable values are errors: `Events.EventsAtBlock`.

The comment at src/chain/tracker.rs:247 asks that the reported assets match exactly; `Chains.ExactMatch` shows this of
the names, and of the ids on asset-only chains. The comment at src/shutdown.rs:151 speaks of the first panic; the code
differs as said above.

## Model

| member | source | states |
|---|---|---|
| `Scale.CompactFaithful` | src/definitions.rs:129-139 | the length prefix of every string and list: encoding then decoding gives the length back and leaves the rest; the decoder accepts exactly the shortest form of each length |
| `Scale.StrFaithful` | src/definitions.rs:211-222 | strings decode to what was encoded and leave the rest; only well-formed UTF-8 with a canonical length is accepted |
| `Scale.SequenceFaithful` | src/definitions.rs:279-290 | lists over any faithful element codec are faithful |
| `Scale.Injective` | src/database.rs:414-415 | two values with the same encoding are equal, for any codec that round-trips |
| `Scale.KeyIsLonger` | src/database.rs:464-469 | an encoded order id is a length prefix followed by the id, never the id itself |
| `OrderCodec.CurrencyFaithful` | src/definitions.rs:211-222 | currency records: decode after encode returns value and rest, and nothing else decodes |
| `OrderCodec.TransactionFaithful` | src/definitions.rs:279-290 | the same for transaction records, with their optional and enumerated parts |
| `OrderCodec.OrderFaithful` | src/definitions.rs:129-139 | the same for whole order records |
| `OrderCodec.TableFormatValid` | src/database.rs:406-446 | the format of the order table meets all the store needs: keys and rows both faithful |
| `OrderCodec.Format.RowRoundTrip` | src/database.rs:202-214 | a stored key and row read back as the id and record they were made from |
| `OrderCodec.Format.KeysInjective` | src/database.rs:414-415 | different order ids have different keys |
| `Layout.LittleEndian` | src/definitions.rs:299-302 | the bytes of 2-, 4- and 8-byte integers, least significant first |
| `Layout.CompactIs` | src/definitions.rs:279-290 | the bytes of every length prefix, in its four forms |
| `Layout.ItemsInOrder` | src/definitions.rs:279-290 | the elements of a list are encoded one after the other |
| `Layout.CurrencyIs` | src/definitions.rs:211-222 | the bytes of a currency record: seven fields in this order, which byte is which kind, how the optional id is marked |
| `Layout.FinalizedIs` | src/definitions.rs:292-297 | the bytes of a finalized transaction: block number, position, timestamp |
| `Layout.TransactionIs` | src/definitions.rs:279-318 | the bytes of a transaction record, its statuses and amounts |
| `Layout.OrderIs` | src/definitions.rs:129-180 | the bytes of an order record: eight fields in this order, which byte is which status |
| `Layout.RowIs` | src/database.rs:202-214 | the key of a row is the order id as a string, its value the record |
| `Store.Lookup` | src/database.rs:439-446 | a key is in the tree exactly when the order is in the map it stands for, and its row decodes to that record |
| `Store.Insert` | src/database.rs:425-434 | inserting an encoded row is updating the map at that id and nowhere else |
| `Store.RepresentsOne` | src/database.rs:198-201 | a byte tree stands for at most one map from order id to record |
| `Store.Database.constructor` | src/database.rs:194-198 | a new table stands for the empty map |
| `Store.Database.CreateOrder` | src/database.rs:406-437 | on every tree that stands for a map, new state and answer are those of the map operation; a new record has each field from the request, the deadline and the given account, an amended one changes amount, currency and deadline only, and exactly this row is written; a row that does not decode is a codec error and changes nothing |
| `Store.Database.ReadOrder` | src/database.rs:439-446 | the answer is the record of the map, or none; a row that does not decode is an error |
| `Store.Database.MarkPaid` | src/database.rs:448-462 | new state and answer are those of the map operation, with all three outcomes |
| `Store.Database.MarkSettled` | src/database.rs:463-498 | mark_withdrawn and mark_stuck as written: read under the raw id, write under the encoded one |
| `Store.Database.ActiveOrderList` | src/database.rs:202-215 | in whatever order the tree yields its rows: exactly the pending orders with their records, each once |
| `Store.Database.ServeOne` | src/database.rs:201-237 | one request of any kind against the map it acts on |
| `Store.Database.ServeRequests` | src/database.rs:200-237 | over any request sequence up to the first shutdown request, every reply and the final tree are those of the map |
| `Store.SettleAsMeantIff` | src/database.rs:463-498 | the raw-key lookup records what was meant exactly when the order is not stored and no stored key equals the id's bytes, or the record found there is interchangeable with the order's own |
| `Store.AliasIsAnother` | src/database.rs:464-469 | the row read under a raw id is never the row of that id |
| `Store.RawKeyLosesAndForges` | src/database.rs:463-480 | a concrete paid order whose withdrawal cannot be recorded, and a concrete id that stores a second order with its account |
| `Store.RecordedAs` | src/database.rs:463-498 | as written, a withdrawal is recorded as completed and a stuck one as failed, on the record the raw id leads to, if that is paid and waiting; nothing else is written |
| `Store.WrittenAsMeant` | src/database.rs:200-237 | without withdrawal results, any request sequence has the meaning of the map operations |
| `Ledger.CreateStores` | src/database.rs:406-437 | the three answers to an order request, field by field: a new record, a pending one with amount, currency and deadline changed, a paid one left alone; no other record changes |
| `Ledger.PayStores` | src/database.rs:448-462 | a payment notification changes the payment status of a pending order and nothing else; both refusals change nothing |
| `Ledger.SettlesAsMeant` | src/database.rs:463-498 | what recording a withdrawal is meant to do: completed or failed, once, on a paid order, with an error for each refusal |
| `Ledger.Lifecycle` | src/database.rs:406-498 | over any requests: statuses only move Pending/Waiting, Paid/Waiting, Paid/Completed or Paid/Failed; a paid record changes in nothing else; account, callback and transactions never change; no record is lost |
| `Ledger.PaidOnce` | src/database.rs:448-462 | of any number of payment notifications for an order exactly one is answered Ok, and only if the order was not paid before |
| `Chains.Manager.Ignite` | src/chain/mod.rs:58-86 | succeeds exactly if every chain has an endpoint and all currency names differ; then the two tables are the routing maps; otherwise the error names a chain without endpoint or a currency that occurs twice |
| `Chains.RoutesIff` | src/chain/mod.rs:95-127 | a request is refused for its currency exactly when no configured chain lists that currency; the invalid-chain branch is never taken |
| `Chains.RoutedHomeIff` | src/chain/mod.rs:63-75 | a currency reaches the tracker of its own chain exactly when no later chain has the same chain name |
| `Chains.AssetsSet` | src/chain/rpc.rs:265-330 | the asset table of a node has an entry for exactly the unit and the listed names; chain name, endpoint and address prefix of each are the node's, kind, decimals and id those of the last asset listed under the name, or of the native token |
| `Chains.PrepareAssets` | src/chain/tracker.rs:207-249 | name check, retain over the table in any order, and count check, each with its error; what is reported are entries of that kind |
| `Chains.LastListedIs` | src/chain/rpc.rs:303-330 | of several assets listed under one name the last one counts |
| `Chains.ExactMatch` | src/chain/tracker.rs:225-249 | by pigeonhole, after deduplication a successful check reports exactly the configured names, all of this chain, with the configured ids on asset-only chains |
| `Chains.ConnectsIff` | src/chain/tracker.rs:225-246 | when a connection succeeds at all; with a native token configured it takes an empty asset list |
| `Chains.NativeEntryIff` | src/chain/tracker.rs:225-232 | the entry kept for a native token is the native one exactly when the node's unit has that name and no listed asset does; it has the configured decimals exactly then, or when the last asset listed under that name has them |
| `Chains.NativeShadowedByAsset` | src/chain/tracker.rs:225-232 | a concrete node that passes with an asset of other decimals in the place of the native token |
| `Watching.Tracker.Add` | src/chain/tracker.rs:147-149 | a watch request replaces what was watched under its id |
| `Watching.Tracker.VisitOne` | src/chain/tracker.rs:107-135 | reports and removal of one invoice in one round; both can happen twice |
| `Watching.Tracker.Round` | src/chain/tracker.rs:107-138 | whatever order the map yields: the remaining invoices and the number of reports of every order equal the per-invoice specification |
| `Watching.Tracker.RemoveAll` | src/chain/tracker.rs:136-138 | removing a list with repetitions removes exactly its members |
| `Watching.Tracker.ProcessBlock` | src/chain/tracker.rs:104-138 | after a block an id is gone exactly if it was reported or its deadline lies ahead and its balance was fetched; at most two reports each, and only of invoices whose account holds the amount in that block |
| `Watching.Tracker.CatchUp` | src/chain/tracker.rs:259-275 | after a connection the map is the old one minus exactly the invoices whose check held, each reported once and its account holding the amount |
| `Watching.UnpaidStaysIff` | src/chain/tracker.rs:121-133 | with the deadline test as written, an unpaid invoice stays exactly if it has expired or the fetch failed |
| `Watching.LeavesOnlyIf` | src/chain/tracker.rs:107-135 | an invoice leaves only if it was reported, or if it was due and a balance below the amount was fetched |
| `Blocks.NextBlock` | src/chain/tracker.rs:94-138 | a whole block against a node's storage: nothing happens exactly if an event cannot be read; otherwise the exact number of reports of every invoice, and which ones leave; in a block without a native transfer nothing is looked at but the invoices whose deadline is ahead |
| `Handling.StateData.UpdateCurrencies` | src/state.rs:279-281 | merging a connection's assets; later entries win |
| `Handling.Start` | src/state.rs:64-75 | the objects made at the first start are the initial state of the state machine |
| `Handling.Restart` | src/state.rs:64-75 | objects made over a surviving table are the newly started daemon over that table |
| `Handling.StateData.CreateInvoice` | src/state.rs:300-334 | the objects follow the protocol step; a new order of a known currency is stored with the fields of the request and the printed address of its own account, and the manager is asked to watch that account for the amount and currency asked for; nothing is asked for a known order; a signer that is down is an error and stores nothing |
| `Handling.StateData.OrderPaid` | src/state.rs:125-138 | the objects follow the protocol step; a payout is asked for exactly if the order was pending and its address parses, on the terms of its record |
| `Handling.StateData.TakeMessage` | src/state.rs:96-139 | each message of the queue has the effect of the protocol step, and leads to the request to watch or to pay out, or to none, as said of the two methods before |
| `Handling.StateData.RestoreList` | src/state.rs:77-86 | the list read at the start is one the protocol's boot step accepts |
| `Intake.RequestIff` | src/chain/definitions.rs:105-124 | a request can be made of exactly the records whose address parses, and carries the id, account, currency, amount, recipient and deadline of the record |
| `Intake.NewOrderIsAsked` | src/state.rs:300-316 | in any state, a request for a new order in a known currency leaves the record stored, each field said, and the handler about to have the order's own account watched for what was asked |
| `Intake.KnownOrderIsNotAsked` | src/state.rs:323-334 | for a known order nothing is asked of the manager; a pending record is amended, a paid one left alone |
| `Intake.PaymentIsAsked` | src/state.rs:125-138 | a notification makes a pending order paid and leaves the handler about to ask for its payout on the terms of the record; any other notification changes nothing |
| `Signing.Signer.Serve` | src/signer.rs:43-72 | an address given out for an order parses to the account of the key of every signature made for it; signatures are over the bytes asked for; the seed is zeroed exactly if a shutdown was requested, and nothing is answered afterwards |
| `Signing.Signer.Public` | src/signer.rs:44-55 | the printed account of the order's key |
| `Signing.Signer.SignFor` | src/signer.rs:56-67 | a signature by the order's key over the given bytes |
| `Protocol.TrackerFrame` | src/chain/tracker.rs:72-167 | a tracker's step changes its own state, the State queue, payout tasks, replies and evidence, nothing else |
| `Protocol.ManagerFrame` | src/chain/mod.rs:93-141 | the manager only takes from its queue, appends to tracker queues and answers callers |
| `Protocol.TakeStateMsgFrame` | src/state.rs:96-139 | one message writes only the order table, the currencies and the handler's own control state |
| `Safety.StepSound` | src/state.rs:88-140 | every step of every actor, a crash included, keeps the safety invariant |
| `Safety.AtMostOnePayout` | src/state.rs:125-138 | over every interleaving, crash and restart, no order has two payout requests or two payout attempts, although it can be reported paid any number of times |
| `Safety.PaidHasEvidence` | src/chain/tracker.rs:107-135 | for every paid record some tracker saw, at some block and at the order's own account, at least the amount of a genuine version of that record |
| `Sightings.PaidWasSeen` | src/chain/definitions.rs:156-191 | that was on a chain configured with the currency and in the asset configured for it, by the balances of the chain's own history |
| `Safety.PaidIsCovered` | src/state.rs:323-325 | an order no version of which asked for less than its record, or for another currency, is paid only on evidence that covers the record |
| `Uncovered.UncoveredOnlyIf` | src/state.rs:323-325 | in any reachable state: an order paid without covering evidence was earlier asked for less, or for another currency |
| `Uncovered.UncoveredIff` | src/state.rs:323-325 | for any sequence of requests for one order: some run makes them and has the order paid uncovered exactly if an earlier one asked for less than the last, or for another currency |
| `Safety.WatchedIsGenuine` | src/state.rs:313-316 | every watched invoice has the currency, amount and deadline of a stored version of its order, the recipient of the configuration and the account of the order's key, through restarts and modifications |
| `Safety.PayoutIntegrity` | src/chain/payout.rs:88-107 | at every later state each payout attempt has currency, amount, recipient and account of the stored paid record, and its author is the account of the key the signer derives |
| `Safety.RequestIntegrity` | src/state.rs:127-130 | so does every payout request still on its way, in whatever queue or task |
| `Safety.TrackerIdsAreKeys` | src/chain/tracker.rs:107-149 | every order a tracker watches, has queued or is about to report is in the database |
| `Safety.ReportedIdsAreKeys` | src/state.rs:80-86 | so is every order reported to the State handler, restored, or passed on by the manager |
| `Replies.StepConserves` | src/chain/mod.rs:149-179 | every step keeps: a waiting caller's reply channel is in exactly one place, a caller that does not wait has none |
| `Replies.ReplyConservation` | src/chain/mod.rs:149-179 | so over every run |
| `Deadlock.ManagerQueueIsBounded` | src/chain/mod.rs:51-51 | the manager's queue holds at most one request per waiting caller and one shutdown, two messages in all |
| `Deadlock.SendersNeverWait` | src/chain/mod.rs:51-51 | so with room for two messages nobody ever waits to send to the manager |
| `Deadlock.WaiterMoves` | src/chain/mod.rs:93-141 | whenever the handler or the restore task waits, its reply is there, or somebody holding its request can move, unless a tracker on the way is between connections or blocked on a full State queue |
| `Deadlock.StopperMoves` | src/state.rs:141-147 | the same for a handler that waits for the manager's shutdown |
| `Deadlock.DeadlockIsFinal` | src/state.rs:127-130 | once the handler waits for a request or a shutdown that can only come after a tracker has moved which waits for room in the State queue, only a crash ends it |
| `Findings.DeadlockIsReachable` | src/chain/tracker.rs:107-135 | for every queue capacity and every order of a currency whose chain connects, a run from the start, with one crash and restart, reaches that deadlock |
| `Losses.LosesIff` | src/state.rs:125-138 | a step loses the payout of a paid order exactly if it is a crash while the request is on its way, or the end of a tracker that has it queued, or its forwarding to an ended tracker; what is lost stays lost |
| `Losses.LostIff` | src/chain/tracker.rs:92-92 | over every run from the first start: a paid order's payout is on its way or attempted or lost, and it is lost exactly if some step of the run dropped it |
| `Losses.NewlyPaid` | src/state.rs:125-130 | the step that makes an order paid leaves its payout about to be requested |
| `Notices.ForgetsIff` | src/chain/tracker.rs:107-135 | a step leaves an order that was seen covered unpaid and unreported exactly if it was so and is not seen covered again, or if the step drops the last report of it: a crash, the State handler's end, or a report to a handler that has ended |
| `Notices.ForgottenIff` | src/state.rs:125-138 | over every run from the first start: an order for which a covering balance was fetched is recorded as paid, or its report is on its way, or it is forgotten; and that exactly if some step dropped the last report and it was not seen covered since |
| `Notices.TakenIsRecorded` | src/state.rs:125-138 | a report the State handler takes always leaves its order recorded as paid, and nothing else records one |
| `Watches.StepAccounts` | src/chain/mod.rs:93-141 | every step of every actor conserves the request to watch an order: it is in as many places as before, less those the step clears without passing it on, and more only for a newly stored or a restored order |
| `Watches.NeglectsIff` | src/chain/mod.rs:95-108 | a step leaves a pending order unwatched and with no request under way exactly if it was so, or the step drops its request: the restore task or the manager finding the other side gone, the manager or a tracker ending with it, a round letting the invoice go |
| `Watches.NeglectedIff` | src/chain/tracker.rs:147-149 | over every run from the first start, a pending order is in exactly one place: at the handler, on the restore list, at the manager, in a tracker's queue or in its watch map, unless one of these steps dropped it and the daemon has not crashed since; it is never in two |
| `Watches.NewlyStored` | src/state.rs:313-316 | the step that stores a new order leaves its watch request about to be sent, and nowhere else |
| `Rounds.RoundsStart` | src/chain/tracker.rs:104-107 | a readable block and a new connection each start a round over the whole watch map |
| `Rounds.SilentNodeIsReplaced` | src/chain/tracker.rs:49-75 | a serving tracker whose connection times out or whose block cannot be read reaches, by the next node that passes, a round over its whole watch map, with its queue kept and its assets announced |
| `Rounds.EveryInvoiceIsVisited` | src/chain/tracker.rs:107-138 | in any run without a crash an invoice that a round has to visit leaves its list only by its own visit, so no round ends before it has visited all that was watched when it began |
| `Rounds.MarkedByVisit` | src/chain/tracker.rs:107-138 | an invoice is marked for removal by its own visit only, and only if that decided so |
| `Rounds.Settles` | src/chain/tracker.rs:136-138 | a round ends with nothing to visit or to report, and removes exactly what was marked |
| `WindingDown.DrainTells` | src/chain/mod.rs:128-137 | draining a tracker that has not ended puts the request to end at the back of its queue |
| `WindingDown.DrainedIff` | src/chain/mod.rs:63-75 | the trackers drained are exactly those of the last chain of each name |
| `WindingDown.AllAreTold` | src/state.rs:142-147 | in every run, when the handler's wait for the manager can end, each of these trackers has ended or has the request to end in its queue |
| `WindingDown.ToldForGood` | src/chain/tracker.rs:164-168 | that stays so until a crash |
| `WindingDown.TrackersEndOnlyIf` | src/chain/tracker.rs:49-54 | a tracker ends only at the request to end, on a node failing for good while it takes a block, or between connections once the daemon is cancelled |
| `WindingDown.StopsOnlyIfCancelled` | src/state.rs:142-147 | the manager is asked to shut down only after the cancellation |
| `WindingDown.AsksWhenDone` | src/state.rs:88-147 | and only when no message is left in the handler's queue |
| `WindingDown.IdleDaemonStops` | src/state.rs:141-156 | a daemon at rest can stop: a run ends handler, manager and exactly the trackers the manager knows, and leaves the order table and the watch maps as they were |
| `Capacities.QueuesAreBounded` | src/state.rs:52-52 | in every reachable state every queue holds at most its capacity |
| `Findings.PayoutLostWithoutCrash` | src/chain/tracker.rs:92-96 | for every such order a run loses its payout in a step that is no crash |
| `Routing.AcceptedIsRouted` | src/state.rs:300-307 | on distinct chain names, every accepted currency and stored order routes to the chain named in its properties, and the manager refuses no request |
| `Routing.TrackerKnowsItsInvoices` | src/chain/tracker.rs:198-249 | through all reconnects a watched invoice's currency belongs to its own tracker and is known to its connection |
| `Routing.PayoutKnowsItsCurrency` | src/chain/payout.rs:47-50 | so does the currency of every payout task: the invalid-currency error is never taken |
| `Recovery.RestartResubmits` | src/state.rs:77-86 | crash at any reachable state, start over the same table, run on in any way up to the next crash: until a shutdown is requested every order pending at the crash is submitted exactly once with its stored record or still in the list; nothing else ever is |
| `Recovery.Restart` | src/database.rs:202-215 | the restarted server's own listing is a list for which that holds, whatever order the tree yields its rows in |
| `Recovery.EveryPendingResubmitted` | src/state.rs:79-86 | the rows are submitted one by one in order, in every interleaving |
| `Recovery.SwitchLosesNothing` | src/chain/tracker.rs:46-104 | over any number of endpoint switches, for timeouts, failed blocks or a changed runtime, until the tracker ends or takes another message: the queued requests are kept in order and only notices of blocks are dropped; a watched invoice is kept unchanged or was found covered |
| `Payouts.PayIff` | src/chain/payout.rs:53-55 | on wrapping subtraction, over all balances and amounts: exactly when a transfer is built |
| `Payouts.OverpaidIff` | src/chain/payout.rs:78-81 | exactly when the overpayment branch is taken |
| `Payouts.UnderpaidNeverPaysIff` | src/chain/payout.rs:53-55 | an account below the amount can never be taken for a payable one exactly if the amount is at most 2^128 - 10001 |
| `Payouts.EmptyAccountIsPayable` | src/chain/payout.rs:53-55 | for the amount that parsing saturates to, an empty account is payable |
| `Payouts.ClassifiedAsMeant` | src/chain/payout.rs:53-86 | below the wrap-around the three verdicts are the three ranges of the surplus |
| `Payouts.Payout` | src/chain/payout.rs:31-115 | a transaction leaves exactly under the listed conditions: one call, the transfer of the currency to the recipient, by the order's account at the node's block with nonce 0, and a signature by the order's key over exactly that content; each error and each silent success |
| `Payouts.SentIsCovered` | src/chain/payout.rs:53-77 | all calls of the transaction together take no more than the observed balance, go to the recipient, and give him at least the amount and at most 10000 units more |
| `Payouts.PreparedIdsPresent` | src/chain/payout.rs:66-70 | over assets a connection reported, the missing-asset-id error is never taken |
| `Payouts.TaskPaysItsRecord` | src/chain/payout.rs:88-107 | in every reachable state the transaction of a payout task is authored by the account of its order's key, and its calls together take what the paid record asks for, or all of the native balance, for the recipient |
| `KeyPages.GetKeysFromStorage` | src/chain/rpc.rs:92-144 | any node at all is called at most 256 times, once per page collected and at most once more |
| `KeyPages.PrefixOfKeys` | src/chain/rpc.rs:110-144 | whatever calls fail: the keys are the first ones in sorted order, each once; all of them if an empty page ended the loop |
| `KeyPages.CompleteIff` | src/chain/rpc.rs:105-143 | with a node that fills its pages the listing is complete exactly up to 2560 keys |
| `Events.EventsAtBlock` | src/chain/rpc.rs:647-718 | exactly the recorded events that pass the filter; stopped exactly if some value cannot be read, with the error or the panic of the one it stopped at |
| `Events.WasBalanceReceivedAtAccount` | src/chain/utils.rs:641-665 | true exactly if one and only one field names a receiver, and it is this account |
| `Events.EventIsSpelled` | src/chain/rpc.rs:683-683 | the names looked for are "event" and "to" |
| `Events.PalletIsSpelled` | src/chain/rpc.rs:49-49 | the pallet looked for is "Balances" |
| `Events.VariantIsSpelled` | src/chain/rpc.rs:50-50 | the event looked for is "Transfer" |
| `Events.TransferIsReceived` | src/chain/utils.rs:641-665 | of a transfer with fields from, to and amount the receiver is the account of the second, the sender only if it is the same |
| `Events.AnyReceived` | src/chain/tracker.rs:108-108 | true exactly if some event has the account as its only receiver |
| `Events.TransferSeen` | src/chain/rpc.rs:627-656 | enumeration, filter and scan together: true exactly if the block has such a transfer |
| `Rounding.RoundIsNearest` | src/definitions.rs:56-71 | for m * 2^e with m <= 2^53 and e >= -1074: rounding gives such a value, none is nearer, and of two as near it gives the one with even m |
| `Rounding.RelativeError` | src/definitions.rs:56-71 | each rounded operation is off by at most 2^-53 of its value |
| `Amounts.PowersExact` | src/definitions.rs:73-75 | powers of ten up to 10^22 are exact |
| `Amounts.FormatIsNearest` | src/definitions.rs:58-63 | up to 2^53 and 22 decimals the formatted amount is the float nearest to the amount divided by the power of ten |
| `Amounts.ParseIsNear` | src/definitions.rs:65-70 | up to 22 decimals and a product of 2^127 the parsed amount is within one rounding and half a unit of the product; what is not positive gives 0 |
| `Amounts.RoundTrip` | src/definitions.rs:58-70 | parse(format(b, d), d) = b for every b < 2^51 and d <= 22 |
| `Amounts.ReturnsIff` | src/definitions.rs:58-70 | from 2^51 to 2^53, exactly which amounts come back, by the distance of the product that parsing rounds |
| `Amounts.RoundTripWide` | src/definitions.rs:58-70 | an amount below 2^53 survives if its float keeps j binary digits and 10^d is below 2^j, or half of it below 2^52 |
| `Amounts.RoundTripBelow` | src/definitions.rs:58-70 | so everything below 2^k * 10^d survives as long as that is at most 2^52 |
| `Amounts.SafeAmounts` | src/definitions.rs:58-70 | with 6, 10 and 12 decimals everything below 4294967296, 262144 and 4096 whole tokens survives |
| `Amounts.RelativeBound` | src/definitions.rs:58-70 | for every amount at all the result is within b / 2^51 + 1/2 |
| `Amounts.ParseMonotone` | src/definitions.rs:65-70 | parsing never reverses the order of two floats, infinities included, for any number of decimals |
| `Amounts.ReturnsOnlyIf` | src/definitions.rs:58-70 | above 2^53 an amount comes back only if a float can hold it, the largest of all excepted |
| `Amounts.OddNeverReturns` | src/definitions.rs:329-337 | so no odd amount above 2^53 does; the one in the repository's example is of this kind |
| `Amounts.DriftAboveTwo51` | src/definitions.rs:58-70 | a concrete amount between 2^51 and 2^52 that gains a unit |
| `PrettyCause.Fmt` | src/error.rs:429-478 | the two loops print, for a chain of any length, what the recursive specification lists |
| `PrettyCause.EveryCauseInOrder` | src/error.rs:450-477 | after the heading every cause has exactly one line, in order, made of its label, which is its number up to 9999 and ">9999" after that, and its message |
| `PrettyCause.ShortCauses` | src/error.rs:429-449 | no cause prints nothing, a single one is put on one line after the heading |
| `PrettyCause.CausesAre` | src/error.rs:429-437 | the causes are the messages of the sources, nearest first, the error itself not among them |
| `PrettyCause.LabelsAlign` | src/error.rs:489-490 | every label is five characters wide |
| `PrettyCause.LabelsDiffer` | src/error.rs:455-466 | no two causes up to the 9999th share a label |
| `Shutdown.ShutdownNotification.Ignite` | src/shutdown.rs:32-35 | reason set, token cancelled |
| `Shutdown.ShutdownNotification.PanicHook` | src/shutdown.rs:107-121 | the hook as written never changes the reason, and takes a panic for the first exactly if a failure was recorded before |
| `Shutdown.ShutdownNotification.WaitWithNotification` | src/task_tracker.rs:49-77 | error loop, listener and hook over any event sequence: final reason, exit code, and which panics asked for a report |
| `Shutdown.ReasonIff` | src/task_tracker.rs:57-71 | the reason is a failure exactly if a task failed before anything else cancelled |
| `Shutdown.ExitIff` | src/main.rs:28-40 | unless killed, the exit code is a failure exactly then: a panic alone, or an error during a requested shutdown, exits with success |
| `Shutdown.ReportIff` | src/shutdown.rs:108-118 | a panic asks for a bug report exactly if it is outside the runtime and a task failure started the shutdown |
| `Shutdown.FirstPanicGoesUnreported` | src/shutdown.rs:108-118 | a run that starts with a panic never asks |
| `Shutdown.KilledIff` | src/shutdown.rs:42-74 | for both kinds of build, exactly what kills the daemon: a panic inside the runtime, any panic in a build that aborts, and a signal when another one, or another reason noticed by the listener, came before |
| `Instances.AcceptableIsEnough` | src/chain/mod.rs:58-86 | every acceptable list of chains has a valid configuration, with any recipient, lifetime and chain history |
| `Instances.SignersExist` | src/signer.rs:44-67 | key derivation and address printing as the signer needs them exist |
| `Instances.OfferedIff` | src/chain/tracker.rs:225-249 | on distinct chain names the currencies the handler knows are exactly those routed to a connected chain that knows them |
| `Instances.ConfiguredIsOffered` | src/chain/tracker.rs:225-249 | every chain without both a native token and assets has a node that makes all its currencies known and routed to it |
| `Instances.ShippedIsAcceptable` | configs/polkadot.toml:5-28 | the shipped configuration for Polkadot is acceptable |
| `Instances.ShippedIsApart` | configs/polkadot.toml:5-28 | its chain names are distinct and nodes can satisfy its chains |

## Left out

- HTTP server, request handlers, command line, configuration files, logging and the callback: plumbing around the modelled path.
- Replies to clients: the handler's answer to a client, and its stopping when a client has gone, are one free step (`StateGivesUp`); the shutdown its error then starts is another (`Cancel`).
- WebSocket transport, metadata decoding and the tree filling of transactions: which call fails is a free choice, a transaction is its author, calls, block and signature.
- Key derivation, signatures and Base58 are functions; it is assumed that parsing a printed address returns the account (`Instances.AcceptableIsEnough` shows that this can be met), and that seed and recipient do not change over restarts.
- `sled`: a map whose inserts persist; its internal errors, flushing and the server-information table are not modelled. Reading and writing of the database server are part of the State handler's step, its only client.
- Clocks and timeouts: `now` is arbitrary, a timeout is a step that may happen at any time. The wait for each tracker's acknowledgement at shutdown is merged with sending it the request.
- The two balance checks of one invoice in one block happen in one step, before its reports; the code sends the first report between them.
- The hash of the block takes the place of the start key on the first page request (src/chain/rpc.rs:114-119); the call meant, without a start key, is modelled.
- A failed runtime-version request ends the tracker task; that the daemon then shuts down is a separate step that may happen at any time.
- Orders from before the first start: runs begin with an empty table.
- Equality of an amount as a 64-bit float is equality of its bits in the store; its value is an abstract conversion in `Protocol` and computed in `Amounts`.
- Amounts.DecimalExponentProduct: beyond 10^22 the order of the multiplications is not fixed by the language, one order is modelled; no exactness is stated there.
- Amounts.RoundTripWide: sufficient; `Amounts.ReturnsIff` is exact, but in terms of the rounded quotient rather than of the number of decimals alone.
- Uncovered.UncoveredIff: the requests of the constructed run are all for one order and for currencies whose chain connects; the direction from a paid order to its requests (`Uncovered.UncoveredOnlyIf`) has no such condition.
- PrettyCause.Fmt: a formatter that fails is not modelled.
- Signing.Signer.Serve: a seed phrase that does not parse ends the task before its loop.
- `get_invoice_status`, `decimals`, `unit`, `base58prefix`, `hashed_key_element`, `unhex` and the logger: one-branch code.
- Force-withdrawal, health, audit and investigation: not implemented in the repository.

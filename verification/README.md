# Dojo: a verified model of its state machines

Dojo is a wallet backend: it follows the Bitcoin chain, derives the addresses of HD accounts, keeps a relational
ledger of the transactions that concern them and pushes scheduled transactions. This project models the parts of it
that carry guarantees across several functions or across whole runs, in Dafny 4.11, and proves those guarantees.
`dafny verify dfyconfig.toml` checks everything.

Five subjects, each built up from small lemmas to a few main theorems:

* **Scheduled pushes** (`scheduled-table`, `schedule-history`, `scheduled-db`, `orchestrator`, `scheduler`). The table
  of scheduled transactions is a forest. One block is given a closed form, `Settled`, that mentions no loop; the
  orchestrator's passes, subtree shifts and deletions are proved to reach it in any row order and for any triggers.
  Runs are sequences of stored rows, attempts at rising or falling heights and removals, interleaved freely, since
  scheduler and orchestrator are two programs without a common lock. Delay safety is proved on them. Every stored
  row, attempt and removal extends a run kept as a ghost field, so the theorems about runs are about the methods.
* **Gap-limit derivation** (`gap-scan`, `xpub-scan`, `gap-tracker`). A reference scan derives one index at a time
  as BIP44's "Address gap limit" section says. The importer's recursion and the tracker's loop are both proved equal
  to it, with measures that do not depend on a bound.
* **Chain tracking** (`reorg`, `pipelined-reorg`). From a linked stored chain, handling a notified block ends with exactly
  the node's chain, also when the blocks go through the pipeline below.
* **The pipeline below it** (`util`, `fifo-queue`, `block-pipeline`). Each synchronous segment is one step and each
  `await` a scheduling point; all interleavings of pushes, completions, fetches and waits are runs.
* **Ledger, batching, indexes** (`ledger`, `ledger-import`, `import-confirmations`, `balance`, `batching`, `insert-batches`, `outpoints`,
  `prefilter`, `notifications`).

The database is a value or a class holding finite maps of rows. What its schema enforces is written into the table
operations: unique transaction ids, block hashes and scheduled txids; `ON DELETE SET NULL` for a scheduled row's and a
block's parent and for a transaction's block; cascading deletion of inputs and outputs; inputs unique on transaction
and position (`db-scripts/1_db.sql:58-69`, `117-129`, `138-151`, `160-172`, `181-194`). The node and the remote index
are oracles: functions passed as parameters whose answers a theorem leaves arbitrary unless it says otherwise.

Some properties one would expect do not hold of the code as written. For each the code is modelled as it is, the exact
condition under which the property holds is proved, and a concrete input shows a failure:

* A delay can be cut short. The triggers of a script are computed once, and each row is stored with the planned
  trigger; if a late block has moved its predecessor in between, the row is released as long after the predecessor
  as it was stored after what its trigger then counted from: the predecessor's trigger or, once that is being
  processed, the height of this. It is released exactly its delay after it if and only if it was stored that delay
  after that point (`ScheduleHistory.DelaySafety`), an attempt ahead of the delay is possible if and only if it was
  stored with less (`ScheduleHistory.EarlyAttemptIff`), and `ScheduleHistory.LateBlockCutsDelay` is a run where that
  happens. A script stored with nothing in between always meets the condition (`Scheduler.Schedule`).
* A queue worker that finds only undefined items left above the high water mark goes idle without waking the
  waiters on the mark, and so does a queue with a negative mark (`Fifo.StepIff`, `Fifo.NoLostWaiterIff`,
  `Fifo.RunIff`, `Fifo.UndefinedItemStrandsWaiter`, `Fifo.NegativeMarkStrandsWaiter`). The block pipeline never does this (`BlockPipeline.StepKeepsInv`).
* On a chain with holes, as a rescan from a later index leaves them, the tracker can miss an output within the gap of
  one it detects. It misses none if and only if the transaction pays no underived index up to a certain one, which
  can be read off the account's rows beforehand: the gap past the last used index if the transaction does not advance
  that, the last row if derivation had not reached the gap past the highest known paid index, that index otherwise
  (`GapTracker.DetectionIff`, with `GapTracker.HoleMissesOutput` as an input). Which holes are repaired is a matter of
  its own (`GapTracker.HoleRepairIff`). Chains without holes meet the condition whatever is paid, and never get holes
  (`GapTracker.GapFreeMissesNothing`, `GapTracker.GapHoldsAlways`).
* The bulk import, unlike the tracker, does not replace earlier spenders (`LedgerImport.ImportSingleSpenderIff`,
  `LedgerImport.ImportCanDoubleSpend`). Over runs of tracker steps and imports no output ever has two spenders if and
  only if each import is free of conflicts when it begins (`LedgerImport.SingleSpenderRunIff`). In consequence the
  running balance below the oldest transaction is zero if and only if no owned output of positive amount has two
  input rows (`Balance.LoadTransactions`).
* Which block an imported transaction is confirmed in can depend on the order and the cutting of the list, when copies of
  it were fetched with different blocks; it does not if and only if all copies that name a stored block name the same
  one (`ImportConfirmations.OrderIrrelevantIff`).

Where comments and code differ, the model follows the code: the block queue holds 50 items at its mark, not 500
(`tracker/blockchain-processor.ts:430`); activated rows include those triggered at the block's own height
(`lib/db/mysql-db-wrapper.ts:2299-2304`); `updateTriggers` is given a row id, not a txid (`pushtx/orchestrator.ts:196`).

## Model

| member | source | states |
|---|---|---|
| ScheduledTable.ProcessKeepsValid | pushtx/orchestrator.ts:155-174 | processing a due root keeps the table a forest, removes that row only, releases each child as long after the height as it was triggered after the root, and keeps every other row's distance to its predecessor |
| ScheduledTable.MovedKeepsValid | pushtx/orchestrator.ts:155-168 | the shift alone leaves roots as they are, makes the children of the pushed row count from the height, and keeps every other distance |
| ScheduledTable.SiblingSubtreesDisjoint | pushtx/orchestrator.ts:203-208 | subtrees of two children of one row share no row, so nothing is shifted twice |
| ScheduledTable.ProcessKeepsDue | pushtx/orchestrator.ts:100-185 | whether any other row will leave the table during this block does not change when a due root is processed |
| ScheduledTable.ProcessKeepsLeader | pushtx/orchestrator.ts:100-185 | processing a due root changes the lowest leaving ancestor of those rows only that had this root |
| ScheduledTable.SettledInvariant | pushtx/orchestrator.ts:100-185 | the closed form of a block is unchanged by processing any due root, whatever the triggers, so the order in which rows are read is irrelevant |
| ScheduledTable.QuiescentIsSettled | pushtx/orchestrator.ts:104-132 | when no activated root is ready the table is its own closed form: the loop may stop |
| ScheduledTable.SettledPointwise | pushtx/orchestrator.ts:155-174 | in the closed form every row left is as it was, at its old distance from a predecessor that is left, or released as long after the height as it was triggered after one that went |
| ScheduledTable.SettledRootsWait | pushtx/orchestrator.ts:112-132 | after a block, every root at or below the height names a predecessor that the node does not know or that has fewer confirmations than the delay |
| Orchestrator.SettledRows | pushtx/orchestrator.ts:112-174 | the closed form row by row, in terms of confirmations and triggers alone: what went had no predecessor or one confirmed at least delay times and was due, what is left keeps its distance or counts from the height, and no root left could go |
| ScheduleHistory.StepKeepsInv | pushtx/orchestrator.ts:100-185 | storing any row the table accepts, attempting a push at any height and removing a pushed row keep the forest, and each row at the offset it was stored with from its predecessor, or from the height that was processed at |
| ScheduleHistory.RunInv | pushtx/transactions-scheduler.ts:151-172 | that invariant holds in every state of every run, with events of scheduler and orchestrator in any order |
| ScheduleHistory.DelaySafety | pushtx/transactions-scheduler.ts:157-164 | in every run a first row is never attempted below its stored trigger; a row with a predecessor only after the predecessor was processed, at a height `at`, with trigger exactly `at` plus the offset it was stored with, and at that height or above; the trigger is `at` plus its delay if and only if it was stored its delay after its predecessor's trigger, or after the height that was just being processed at |
| ScheduleHistory.DelaysAreKept | pushtx/transactions-scheduler.ts:157-164 | if every row of a run is stored so, no row is ever attempted below `at` plus its delay |
| ScheduleHistory.EarlyAttemptIff | pushtx/transactions-scheduler.ts:157-164 | a released row can be attempted ahead of its delay if and only if it was stored less than its delay after its predecessor's trigger, or after the height that was just being processed at |
| ScheduleHistory.LateBlockCutsDelay | pushtx/transactions-scheduler.ts:154-171 | a run in which a late block between two inserts makes a row with delay 5 go out three blocks after its predecessor |
| ScheduleHistory.ProcessedOnce | pushtx/orchestrator.ts:170-174 | a processed row is never attempted again, in any run |
| ScheduledDb.Db.AddScheduledTransaction | lib/db/mysql-db-wrapper.ts:2260-2284 | fails exactly on a known txid or a missing parent, else adds the row, whatever its trigger, under a fresh id; the step extends the run |
| ScheduledDb.Db.DeleteScheduledTransaction | lib/db/mysql-db-wrapper.ts:2289-2295 | removes the rows with the txid and sets to NULL the parent id of their children; every other field and row stays |
| ScheduledDb.Db.GetActivatedScheduledTransactions | lib/db/mysql-db-wrapper.ts:2301-2310 | returns each row with parent id NULL and trigger at or below the height exactly once, in some order, and no other |
| ScheduledDb.Db.GetNextScheduledTransactions | lib/db/mysql-db-wrapper.ts:2315-2324 | returns each child of a row exactly once, in some order |
| ScheduledDb.Db.UpdateTriggerScheduledTransaction | lib/db/mysql-db-wrapper.ts:2330-2337 | changes the trigger of one row |
| Orchestrator.UpdateTriggers | pushtx/orchestrator.ts:198-213 | terminates on every forest; children of the row move by the shift, every row below them keeps its distance to its predecessor, no other row changes, and nothing but triggers does |
| Orchestrator.ShiftChild | pushtx/orchestrator.ts:203-208 | one turn of the loop shifts one child's subtree, given that the subtrees of earlier children are shifted |
| Orchestrator.Release | pushtx/orchestrator.ts:155-174 | shifting a late row's subtree and deleting the row is the processing of that row |
| Orchestrator.Conclude | pushtx/orchestrator.ts:133-183 | an attempt extends the run by itself and, unless the connection was lost, by the removal of the row |
| Orchestrator.TryPush | pushtx/orchestrator.ts:108-183 | the transaction is pushed if and only if the row names no predecessor, or the node reports at least delay confirmations of it at that moment; a lost connection leaves the table, any other outcome processes the row |
| Orchestrator.Visit | pushtx/orchestrator.ts:107-184 | one row of a pass: at most one more push is counted, the rows still to be visited are as they were read, and a row left in place while connected was not ready |
| Orchestrator.Pass | pushtx/orchestrator.ts:107-184 | the snapshot of rows stays valid during a pass; each counted push removed one row; a pass that pushed nothing found nothing ready |
| Orchestrator.OnBlockHash | pushtx/orchestrator.ts:82-192 | terminates; with confirmation counts fixed during the call and no connection error the table ends as the closed form of the block, and row by row: every row that went was due and had no predecessor or one confirmed at least delay times, every root left at or below the height has one that is not; the run grows by attempts at this height, all processed unless the last one lost its connection, which ends the call; even then, with fixed counts, only rows that may go have gone |
| Scheduler.SortedScript | pushtx/transactions-scheduler.ts:55-56 | sorting yields the same entries, a lower hop first and within a hop a lower nlocktime first, and leaves entries alike in both in their order |
| Scheduler.VerdictIff | pushtx/transactions-scheduler.ts:50-133 | the validation loop raises no error if and only if every declared condition on the script holds |
| Scheduler.EntryErrors | pushtx/transactions-scheduler.ts:76-119 | each error of an entry is raised in its case: beyond the range, not parsed, a locktime of zero or another than declared, an nlocktime below that of the previous hop |
| Scheduler.TriggersInRange | pushtx/transactions-scheduler.ts:65-122 | the triggers of an accepted script rise in hop order by the differences of the nlocktimes, start at the last height or the first nlocktime if that is higher, stay within maxDeltaHeight of it, and none lies below its entry's nlocktime |
| Scheduler.ImmediatePrefix | pushtx/transactions-scheduler.ts:138-149 | the entries pushed at once are exactly those with delta 0, if the first nLockTime is at most the last height, otherwise none |
| Scheduler.DelaysTelescope | pushtx/transactions-scheduler.ts:154-172 | stored delays are not negative, are the differences of consecutive nlocktimes, the first one counting from the pushed prefix, and those up to an entry add up to its trigger |
| Scheduler.CheckEntries | pushtx/transactions-scheduler.ts:72-123 | the loop that checks and rewrites entries in place raises the specified error, or leaves every entry with its distance from the first nlocktime as delta, and its nlocktime moved by as much as the last height exceeds the first |
| Scheduler.Validate | pushtx/transactions-scheduler.ts:50-133 | everything up to the strict-mode fault report raises exactly the specified error |
| Scheduler.PushImmediate | pushtx/transactions-scheduler.ts:135-149 | pushes the immediate prefix in order up to the first failed push and leaves the rest of the script |
| Scheduler.StoreEntry | pushtx/transactions-scheduler.ts:154-171 | stores the planned row of one entry below the previous one, or the table refuses just that row |
| Scheduler.StoreChain | pushtx/transactions-scheduler.ts:151-172 | with any blocks handled and any rows of other scripts stored between the inserts, each entry in turn is stored as its planned row, below the row of the one before, up to the first the table refuses, and any other row stored meanwhile comes from elsewhere; with nothing in between, ids are consecutive, table and run grow by the plan alone and every row is stored its delay after its predecessor |
| Scheduler.OthersKeepGrown | pushtx/transactions-scheduler.ts:154-171 | what was stored of a script stays recorded in its slots whatever happens in between |
| Scheduler.Schedule | pushtx/transactions-scheduler.ts:49-173 | a rejected script has no effect, one that is too long or empty with the error saying so; an accepted one pushes entries of the prefix at the first nlocktime in order and stores a row for each entry after it, with the entry's txid and transaction, the trigger its nlocktime moved by as much as the last height exceeds the first, and the delay the distance to the nlocktime before, below the row of the entry before, whatever blocks and other scripts come in between; the result says which refused push or row, if any, cut it short |
| Fifo.StepIff | lib/queue.ts:66-139 | every step keeps push order and single processing; it keeps the waiter invariant if and only if it does not drain undefined items from a queue above its mark |
| Fifo.PushedSpeltOut | lib/queue.ts:66-91 | after a push the flag tells whether the queue held the mark or more; an idle queue begins the first defined item of all it holds and keeps those after it, or goes idle and wakes the end waiters if there is none |
| Fifo.CompletedSpeltOut | lib/queue.ts:82-117 | after a completed call, below the mark the flag is clear and every waiter on the mark woken, otherwise both stay; the worker goes on with the first defined item left |
| Fifo.RunInv | lib/queue.ts:66-139 | with defined items and a mark that is not negative every state of every interleaving is sound |
| Fifo.RunIff | lib/queue.ts:66-139 | with any items and such a mark, a run is sound throughout if and only if none of its steps drains undefined items from a queue above its mark |
| Fifo.OrderedDelivery | lib/queue.ts:76-103 | items are processed once each in push order, never two at a time; waiters exist only while a call is in progress; an idle queue has processed all and woken all |
| Fifo.NoLostWaiterIff | lib/queue.ts:76-139 | exactly the marks that are absent, zero or positive keep every run of defined items from losing a waiter, and from leaving one asleep on an idle queue |
| Fifo.NegativeMarkStrandsWaiter | lib/queue.ts:76-139 | with any other mark, pushing nothing and then waiting leaves the waiter asleep on an idle queue |
| Fifo.UndefinedItemStrandsWaiter | lib/queue.ts:82-91 | one undefined item on an idle queue with mark 1 leaves the next waiter asleep on an idle queue |
| Fifo.FifoQueue.Delivers | lib/queue.ts:66-139 | a queue object reached by its methods with defined items and a usable mark: order, single processing, nobody waiting on an idle queue |
| Fifo.FifoQueue.Push | lib/queue.ts:66-80 | appends, sets the flag if and only if the length is at the mark, and an idle queue begins its first defined item; the step is recorded in the object's run |
| Fifo.FifoQueue.RunWorker | lib/queue.ts:82-90 | the loop up to its next await: undefined items are skipped, one item begun, or the queue finished |
| Fifo.FifoQueue.Resume | lib/queue.ts:86-90 | the segment after a completed call: below the mark all waiters on it pass, then the next defined item is begun or the queue finished |
| Fifo.FifoQueue.OnFinished | lib/queue.ts:97-103 | the queue becomes idle and wakes every waiter on its end |
| Fifo.FifoQueue.CheckWaterMark | lib/queue.ts:108-117 | without a mark, or with fewer items than it, the flag is cleared and every waiter on the mark is woken; otherwise nothing changes |
| Fifo.FifoQueue.AwaitFinished | lib/queue.ts:122-128 | the waiter passes at once if the queue is idle and is registered otherwise, and no other waiter is affected |
| Fifo.FifoQueue.AwaitWaterMark | lib/queue.ts:133-139 | the waiter passes at once if the flag is clear and is registered otherwise, and no other waiter is affected |
| BlockPipeline.StepKeepsInv | tracker/blockchain-processor.ts:429-495 | every step of producer, fetches and worker keeps the pipeline invariant, for all sizes of mark, chunk and pool |
| BlockPipeline.OrderAndBounds | tracker/blockchain-processor.ts:450-494 | in every interleaving blocks are processed in the order of the heights, at most `pool` fetches run, the queue holds at most mark - 1 + chunk blocks, and when the call returns all are processed |
| BlockPipeline.AtMost59Blocks | tracker/blockchain-processor.ts:445-456 | with mark 50, chunks of 10 and a pool of 4, never more than 59 queued blocks and 4 fetches |
| BlockPipeline.NoDeadlock | tracker/blockchain-processor.ts:450-494 | until the call returns some step is possible |
| BlockPipeline.RunsAreFinite | tracker/blockchain-processor.ts:429-495 | every run has a bound on its length fixed by the job |
| BlockPipeline.MaximalRunDelivers | tracker/blockchain-processor.ts:429-495 | a run that cannot continue has returned with every block processed in order |
| Util.ChunksPartition | lib/util.ts:118-123 | slices concatenate to the list and none is empty or longer than the limit |
| Util.ChunksAreFull | lib/util.ts:118-123 | every slice but the last has exactly the limit's length |
| Util.SplitList | lib/util.ts:118-123 | the loop yields slices that concatenate to the list, all of exactly the limit but the last, which is what is left |
| GapScan.GapRule | lib/remote-importer/remote-importer.ts:157-168 | the reference scan derives every index up to gap past the last reachable used one; no used index follows within the gap; every earlier point has one |
| GapScan.WholeWindow | lib/remote-importer/remote-importer.ts:183-191 | a window within the gap is derived whole by the reference scan, which then continues from the last used index in it |
| XpubScan.ReadAnswer | lib/remote-importer/remote-importer.ts:204-213 | from lines in any order: the highest used index, whether anything was used, and exactly the transactions not fetched before |
| XpubScan.ScanWindow | lib/remote-importer/remote-importer.ts:186-239 | one window: for each index past the last derived one up to the gap, in order, that index with its own derived address; and the transactions the node knows; a failed fetch loses them and nothing else |
| XpubScan.Scan | lib/remote-importer/remote-importer.ts:169-263 | the recursion terminates on the used indices above `d`; the k-th address returned is the one derived from the k-th index of the reference scan, whether fetches fail or not, and without a failing remote there is one for each |
| XpubScan.ScanChain | lib/remote-importer/remote-importer.ts:157-168 | a scan from `start` returns for each k, up to the gap past `last`, index start + k with the address derived from it; `last` is used, or nothing is; no used index lies within the gap beyond it, and each one up to it within the gap of one before it or of the start; exactly the known transactions of the used indices up to `last` are returned, only these if a fetch fails |
| GapTracker.Highest | lib/db/mysql-db-wrapper.ts:1224-1246 | MAX over the rows of a chain, -1 without rows |
| GapTracker.CountIsFull | tracker/transaction.ts:382-398 | the count of derived rows in an interval is full if and only if no index of it is missing |
| GapTracker.CheckDerived | tracker/transaction.ts:427-439 | which fresh addresses the transaction pays, the last of them, and whether the loop is done |
| GapTracker.Extend | tracker/transaction.ts:400-440 | the do/while derives exactly what the reference scan over the transaction's outputs derives; each further round has used up a paid index |
| GapTracker.DeriveChain | tracker/transaction.ts:362-441 | what is derived on one chain, over all guards and the hole check |
| GapTracker.DerivesOnlyInGap | tracker/transaction.ts:362-441 | on any chain only a transaction that pays a known index above all used ones derives anything, and each index derived lies within the gap past one it pays |
| GapTracker.CreationHasGap | lib/bitcoin/hd-accounts-service.ts:133-150 | a new account has exactly the indices below the gap derived, none used, and the gap invariant |
| GapTracker.AdvanceGapFree | tracker/transaction.ts:376-440 | on a gap-free chain the new last used index is the one the gap rule reaches among the paid indices, and derivation ends gap past it |
| GapTracker.TxKeepsGap | tracker/transaction.ts:327-445 | every transaction keeps the derived indices a gap-free prefix reaching last used + gap, and no undetected paid index lies within the gap of a detected one |
| GapTracker.TxExtends | tracker/transaction.ts:361-445 | on a gap-free chain the paid indices among the derived ones become used, exactly the indices up to the gap past a used one are derived besides those there were, and each newly derived used one lies within the gap past another used one |
| GapTracker.DeletionKeepsGap | tracker/transaction.ts:167-175 | deleting double-spent transactions, which leaves indices without output, keeps the invariant |
| GapTracker.GapHoldsAlways | tracker/transaction.ts:327-445 | that invariant holds from account creation through any sequence of transactions and deletions |
| GapTracker.DetectionIff | tracker/transaction.ts:361-441 | on every chain, no paid index is left undetected within the gap of a detected one if and only if every paid index up to a bound read off the rows had been derived |
| GapTracker.GapFreeMissesNothing | tracker/transaction.ts:361-441 | a gap-free chain meets that condition whatever is paid |
| GapTracker.HoleRepairIff | tracker/transaction.ts:381-398 | which holes are repaired: the indices from the highest known paid one to the gap past the last considered one are all derived if and only if derivation had reached the gap already or there was no hole up to the last row |
| GapTracker.HoleMissesOutput | tracker/transaction.ts:381-398 | rows 0-4 and 7 with gap 5: an output to index 5 goes undetected |
| GapTracker.HdAccount.ProcessOutputs | tracker/transaction.ts:361-445 | both chains of an account are extended exactly so, keep the invariant and miss no output within the gap |
| GapTracker.HdAccount.LoseOutputs | tracker/transaction.ts:167-175 | both chains keep it when outputs are deleted |
| Reorg.ChainBacktrace | tracker/blockchain-processor.ts:350-377 | terminates with the heights from the notified block down to the first one whose predecessor is stored, or genesis |
| Reorg.Rewind | tracker/blockchain-processor.ts:383-399 | deletes exactly the blocks above the height and unconfirms exactly the transactions confirmed in them |
| Reorg.ConfirmInChunks | tracker/block.ts:144-149 | updating slice by slice equals one update of the whole list |
| Reorg.ProcessBlock | tracker/block.ts:48-86 | a new block gets a fresh row whose parent is the row of its previous hash; a transaction is stored afterwards if and only if it was stored before or is of interest, and the block does not double-spend it; those of interest point to the block and all others where they did |
| Reorg.AppliedExtends | tracker/block.ts:123-149 | applying the next active block extends the chain, the set of stored transactions and their confirmations by it |
| Reorg.Db.AddBlock | lib/db/mysql-db-wrapper.ts:2159-2177 | inserts a new hash, and returns the existing row of a known one |
| Reorg.Db.DeleteBlocksAfterHeight | lib/db/mysql-db-wrapper.ts:2210-2213 | removes the rows above the height and nulls what referred to them |
| Reorg.RewindKeepsChain | tracker/blockchain-processor.ts:329-331 | a rewound chain is the lower part of the chain, still linked |
| Reorg.AppendKeepsChain | tracker/block.ts:123-139 | a block stored above the tip with the tip as parent extends the chain |
| Reorg.CommonBelow | tracker/blockchain-processor.ts:346-377 | a stored block on the node's active chain has all its stored ancestors there too |
| Reorg.ProcessBlockRange | tracker/blockchain-processor.ts:429-495 | applying the blocks of consecutive heights oldest first stores the node's chain up to there |
| Reorg.OnBlockHash | tracker/blockchain-processor.ts:298-344 | the stored chain becomes the old segment up to the common ancestor, with its ids, followed by the node's blocks, equal to the node's chain; a transaction is stored if and only if, without a deletion, it was before or some applied block holds it, and after a deletion a later applied block holds it; every one is confirmed in the last applied block that holds it, and none in a deleted block |
| PipelinedReorg.ReturnedRunBuilds | tracker/blockchain-processor.ts:429-495 | a returned run of the pipeline whose worker processes blocks leaves chain, stored transactions and confirmations as built by applying the range in order |
| PipelinedReorg.EveryStateBuilds | tracker/blockchain-processor.ts:429-495 | at any time of a run the tables hold exactly the chain, transactions and confirmations up to the blocks processed so far |
| Batching.Cut | lib/db/mysql-db-wrapper.ts:654-681 | the one-pass loop produces the greedy cut |
| Batching.GreedyFits | lib/db/mysql-db-wrapper.ts:639-681 | chunks concatenate to the rows; none is empty; each respects both limits unless it is a single row |
| Batching.GreedyIsMaximal | lib/db/mysql-db-wrapper.ts:671-678 | each chunk stops only where its next row would have broken a limit |
| Batching.GreedyIsOptimal | lib/db/mysql-db-wrapper.ts:639-681 | no cutting into acceptable chunks has fewer of them |
| Batching.CutInsert | lib/db/mysql-db-wrapper.ts:640-687 | no chunk binds more than 65535 parameters; each, counted as 4 bytes a row, 16 a value, 16 more a date and the data itself, stays within 1048576 bytes and within the packet size less 1024, unless it is a single row; and with its next row each would exceed one of these limits |
| InsertBatches.TallyAdds | lib/db/mysql-db-wrapper.ts:728-738 | the counters of a statement over rows after others are those from zero combined with what was counted before |
| InsertBatches.StatementSpeltOut | lib/db/mysql-db-wrapper.ts:740-768 | what one statement does: the keys are those there were and those of the rows, ids stay, new ids differ; an ignoring insert keeps existing values and takes the first row of a new key, an upsert the last row of any key; the id reported is that of the first new key |
| InsertBatches.ChunkingInvisible | lib/db/mysql-db-wrapper.ts:715-741 | for every partition of the rows, one statement per chunk with counters from zero, added up as the loop does, yields table, id counter, affected rows, capped warnings, first generated id and row count of one statement over all rows |
| InsertBatches.Connection.AddChunk | lib/db/mysql-db-wrapper.ts:715-739 | one more statement and its contribution to the aggregate |
| InsertBatches.Connection.RunChunks | lib/db/mysql-db-wrapper.ts:714-739 | the loop runs the chunks' statements in order up to the first that fails, which leaves id counter and session id as specified |
| InsertBatches.Connection.Finish | lib/db/mysql-db-wrapper.ts:740-768 | reported id and session id are those of one statement: first generated, else the last row's id if a row was updated, else 0 |
| InsertBatches.Connection.TryChunks | lib/db/mysql-db-wrapper.ts:703-783 | an attempt without failure is one statement over all rows; its first failure, of a chunk or of the commit, is the error reported and rolls the table back, leaving id counter and session id as determined by that statement |
| InsertBatches.Connection.InsertChunks | lib/db/mysql-db-wrapper.ts:696-792 | the last attempt begins where the failed ones, all on lock errors, left the session, and ends as TryChunks says; a lock error is reported only when the retries are used up |
| InsertBatches.Connection.ExecuteWithRetries | lib/db/mysql-db-wrapper.ts:510-550 | a single statement takes effect once, as spelt out, or not at all |
| InsertBatches.Connection.InsertMany | lib/db/mysql-db-wrapper.ts:640-687 | whatever the budget, success has effect and result of one statement over all rows in both foundRows modes, as spelt out by key and by reported id, from the caller's state if the first attempt succeeds; failure changes no row and leaves id counter and session id as the failing statement determines; lock errors end after six attempts |
| Outpoints.InQuery | lib/db/mysql-db-wrapper.ts:2077-2086 | a row is in the UNION query's answer if and only if some request has its output's index and its txid up to collation, and its input is one that spends the output, or is absent where the join finds none or is not asked for |
| Outpoints.IdentityDecides | lib/db/mysql-db-wrapper.ts:2028-2037 | within one snapshot, rows with equal output and input ids are equal |
| Outpoints.QueryChunks | lib/db/mysql-db-wrapper.ts:2000-2068 | chunk by chunk, each identity once, and the same rows as one query for all requests |
| Outpoints.QueryOutpoints | lib/db/mysql-db-wrapper.ts:1957-1998 | the lookup has exactly these rows for the stored outputs, each once, for duplicate and differently spelt requests |
| Prefilter.BuildIndex | tracker/transactions-bundle.ts:96-124 | splits off the cached transactions of interest and maps every key of an uncached one to exactly its positions |
| Prefilter.FilterByIndex | tracker/transactions-bundle.ts:126-136 | collects each position an answered key leads to, once |
| Prefilter.PrefilterSlice | tracker/transactions-bundle.ts:87-142 | one slice yields each wanted transaction once |
| Prefilter.PrefilterByOutputs | tracker/transactions-bundle.ts:73-81 | over 5000-slices: exactly the cached-true transactions and, once each, the uncached ones with a known key |
| Prefilter.PrefilterByInputs | tracker/transactions-bundle.ts:59-67 | the same by spent outpoints, with queries of at most 1000 |
| Prefilter.PermutesNaive | tracker/transactions-bundle.ts:87-205 | the result is a permutation of the naive scan's |
| Notifications.NotificationsService.Connect | accounts/notifications-service.ts:89-121 | a connection gets a fresh id and no subscription |
| Notifications.NotificationsService.AddSub | accounts/notifications-service.ts:247-257 | both indexes gain exactly this subscription and stay mutually inverse without duplicates; no other client changes |
| Notifications.NotificationsService.EntitySub | accounts/notifications-service.ts:230-242 | the client's topics become those it had, the listed addresses and the xpubs; no other client changes; given public keys are cached |
| Notifications.LastKeyWins | accounts/notifications-service.ts:233-239 | of several keys given with one address, the last is the one cached |
| Notifications.OtherKeysStay | accounts/notifications-service.ts:233-239 | for an address without a given key the cache is as before |
| Notifications.NotificationsService.Unsub | accounts/notifications-service.ts:262-276 | the topic loses this client; a topic without clients disappears with its cached key |
| Notifications.NotificationsService.FilterWSMessage | accounts/notifications-service.ts:166-174 | a message passes if and only if it is not in the cache, and is in it afterwards |
| Notifications.NotificationsService.CloseWSConnection | accounts/notifications-service.ts:138-161 | the client leaves every topic and the connection table, also when closed twice; a call that is not forced also takes its topics out of the message cache, as the close event does after a forced one |
| Notifications.NotificationsService.HandleMessage | accounts/notifications-service.ts:180-225 | a closed socket's message, a ping and an empty subscription have no effect; a subscription message still in the cache closes, and drops the keys of topics nobody is left on; any other subscribes to exactly what it asks for |
| Notifications.SelectedIsTailored | accounts/notifications-service.ts:432-453 | selecting by marks and gathered topics equals keeping the items about one of the client's own topics: their xpub, or without one their address |
| Notifications.NotificationsService.NotifyTransaction | accounts/notifications-service.ts:368-481 | each connected client is sent exactly what the naive filter of its subscriptions yields: one message with its items in order, or none |
| Ledger.InputsReplaceSpenders | tracker/transaction.ts:127-176 | processing inputs keeps rows true to their transactions and each output with one spender, and makes this transaction the only spender of what it spends |
| Ledger.InputsSpeltOut | tracker/transaction.ts:97-176 | row by row: nothing changes if no spent outpoint is stored; otherwise the transaction is recorded with a row for each stored outpoint, and exactly the other transactions recorded as spending one of these go, with their outputs, their inputs and the inputs of their outputs |
| Ledger.OutputsKeep | tracker/transaction.ts:181-256 | processing outputs keeps both |
| Ledger.OutputsSpeltOut | tracker/transaction.ts:181-256 | row by row: an output is stored if it was or if it is one of the transaction's and pays a known address; stored rows keep their values, inputs stay, and the transaction is recorded if and only if it was or some output pays |
| Ledger.SingleSpenderAlways | tracker/transaction.ts:97-256 | whatever transactions arrive, in whatever order and however often, no stored output has two spenders |
| Ledger.OneRowFromSingleSpender | db-scripts/1_db.sql:117-129 | a single spender means at most one input row, as a transaction spends an outpoint at one position |
| Ledger.Db.GetOutputSpends | lib/db/mysql-db-wrapper.ts:2071-2088 | rows for exactly the stored outputs asked for, with each transaction spending them |
| Ledger.Db.ProcessInputs | tracker/transaction.ts:97-176 | the method has the specified effect on the tables, row by row: the transaction is recorded with its links, earlier spenders go with all that depends on them, and nothing else changes |
| Ledger.Db.ProcessOutputs | tracker/transaction.ts:181-256 | the method stores exactly the outputs paying known addresses, with their values, and the transaction if there is one; rows stored before keep theirs, inputs stay |
| LedgerImport.ImportIsDetermined | lib/remote-importer/remote-importer.ts:322-343 | the set of imported transactions decides the result |
| LedgerImport.ImportLinksEverything | lib/remote-importer/remote-importer.ts:322-463 | every imported input spending an output stored by the end of the output phase is linked, whatever chunk either is in |
| LedgerImport.ImportSingleSpenderIff | lib/remote-importer/remote-importer.ts:413-463 | the import keeps single spenders if and only if no two transactions, imported or recorded, spend one output stored at its end |
| LedgerImport.ImportCanDoubleSpend | lib/remote-importer/remote-importer.ts:413-463 | a stored spender and an imported one of the same output both remain |
| ImportConfirmations.ConfirmChunk | lib/remote-importer/remote-importer.ts:353-367 | exactly the transactions of a chunk with a copy in a stored block are confirmed, in the block of some copy |
| ImportConfirmations.PhaseNames | lib/remote-importer/remote-importer.ts:332-336 | over all chunks, a transaction is confirmed in a block some copy names, if any names a stored one, and is otherwise as before |
| ImportConfirmations.OrderIrrelevantIff | lib/remote-importer/remote-importer.ts:332-367 | the confirmations are the same for every order, repetition and cutting if and only if all copies that name a stored block name the same one |
| LedgerImport.AddTransactions | lib/remote-importer/remote-importer.ts:348-371 | one chunk stores its transactions and confirms those with a copy in a stored block |
| LedgerImport.AddOutputs | lib/remote-importer/remote-importer.ts:376-408 | one chunk adds exactly its outputs to known addresses and keeps stored ones |
| LedgerImport.AddInputs | lib/remote-importer/remote-importer.ts:413-463 | one chunk links exactly its inputs that spend stored outputs |
| LedgerImport.ImportPhases | lib/remote-importer/remote-importer.ts:332-342 | however each phase is cut, the tables are those the set of transactions determines; each transaction is confirmed in the block of a copy in the last chunk that has one in a stored block |
| LedgerImport.ImportTransactions | lib/remote-importer/remote-importer.ts:322-343 | the import in batches of 200 gives that result |
| LedgerImport.ImportTwice | lib/remote-importer/remote-importer.ts:322-343 | two imports of the same transactions, permuted, repeated and with each phase cut differently, end in the same tables, and in the same confirmations if the copies agree on stored blocks |
| LedgerImport.SingleSpenderRunIff | lib/remote-importer/remote-importer.ts:413-463 | in a run of tracker steps and imports no output ever has two spenders if and only if no import conflicts with what is recorded when it begins |
| Balance.Conservation | lib/db/mysql-db-wrapper.ts:1169-1191 | credits minus debits of an account equal its unspent sum less what extra input rows debit again, on every ledger |
| Balance.ExcessZeroIff | lib/db/mysql-db-wrapper.ts:872-896 | that excess is zero if and only if no owned output of positive amount has several input rows |
| Balance.NoExcessIff | lib/db/mysql-db-wrapper.ts:872-896 | it is zero if and only if no two input rows spend one output to the account with a positive amount |
| Balance.GetBalance | lib/db/mysql-db-wrapper.ts:1169-1191 | the sum of the amounts of the stored outputs to the account's addresses that no input row spends |
| Balance.Assembler.AddRow | lib/db/mysql-db-wrapper.ts:1525-1538 | adds an output to, or subtracts an input from, the result of its transaction; others are ignored |
| Balance.Assemble | lib/db/mysql-db-wrapper.ts:1518-1546 | each transaction of the page once, with its time, most recent first, each with the signed sum of its rows, together the sum of all rows |
| Balance.GetRows | lib/db/mysql-db-wrapper.ts:1402-1431 | the rows of each transaction on the page credit the sum of its outputs to the account and debit the sum of the account's outputs its inputs spend |
| Balance.GetTxs | lib/db/mysql-db-wrapper.ts:1344-1431 | a page's transactions once each, most recent first, each with what its outputs credit less what its inputs debit |
| Balance.SortedByTime | lib/db/mysql-db-wrapper.ts:1541-1545 | the assembled history is in descending time order |
| Balance.RunningBalance | lib/wallet/wallet-info.ts:183-190 | the balance shown at each transaction is the sum of the results from it on, plus what is left below the oldest |
| Balance.PageSplits | lib/db/mysql-db-wrapper.ts:1402-1431 | the rows of a page and those beyond it make up the account's credits and debits; a page with the whole history leaves nothing beyond |
| Balance.LoadTransactions | lib/wallet/wallet-info.ts:171-191 | for any page: its transactions once each, most recent first, each with what its outputs credit less what its inputs debit; the first balance is the account's; what is left below the oldest is the excess of extra input rows plus what other transactions credit and debit; over the full history it is the excess, and zero if and only if no two input rows spend one output to the account with a positive amount |
| Balance.TrackerHistoryReachesZero | lib/wallet/wallet-info.ts:183-190 | on every ledger the tracker built it is zero |

## Left out

- The REST and HTTP servers, ZMQ, RPC and indexer clients, JWT and Auth47, the admin application and scripts: input, output and user interface.
- Cryptography and encodings: address derivation is a function of chain and index, injective where that matters; scripts, hex and base58 do not occur.
- Failed database writes in the orchestrator: its updates and deletions succeed.
- ScheduleHistory.DelaySafety: a push and the updates that shift the subtree below it are one step, and so is the removal. A row stored while the updates run ends up as if it had been stored before or after them.
- Scheduler.VerdictIff: the check for NaN among strict-mode vouts is not modelled, since vouts are integers here.
- Integer widths of the columns: heights, delays, ids and amounts are unbounded.
- Fifo.RunInv: the processing function is taken not to reject; a rejection would leave the worker flag set.
- Fifo.OrderedDelivery: a defined item is any value other than undefined; the model does not look into items.
- BlockPipeline.OrderAndBounds: a failing fetch ends the process in the original and is not a step here.
- Reorg.OnBlockHash: the node's active chain stays fixed during one call and its RPC calls succeed. Catch-up at start-up, which does not rewind, is not modelled, so the stored chain is linked at the beginning.
- Reorg.OnBlockHash: when an already stored block is notified again, the blocks stored above it are deleted until they are notified in turn; the theorem states the chain up to the notified block, as the code leaves it.
- Reorg.ProcessBlock: which transactions are of interest, and which are double-spent, are parameters (the ledger and prefilter modules treat that), and output and input processing of one block count as one step.
- Addresses banned from tracking: a known address is one the query returns.
- GapTracker.TxKeepsGap: accounts with one address per index; postmix accounts, which derive several, are not covered.
- XpubScan.Scan: the progress shown while importing, the batches of 200 in which transactions are fetched, and the lock on concurrent imports.
- XpubScan.ScanWindow: whether a fetch fails is a function of the list asked for.
- InsertBatches.Connection.InsertMany: generated ids are consecutive within a statement and LAST_INSERT_ID behaves as the original's comments say; gaps from concurrent sessions are not modelled.
- Outpoints.QueryOutpoints: lock retries of the read; the UNION is taken to compare txids as the join does.
- Ledger.Db.ProcessInputs: database ids are identified with txids and outpoints; the transactions cache and sequence numbers are not modelled, and each call is one atomic step.
- LedgerImport.ImportTransactions: database errors the original logs and ignores; the table of blocks is fixed during the call.
- Prefilter.PrefilterByOutputs: the cache is fixed during the call; expiry in between is not modelled. The order of the result follows the query's arbitrary row order and is left open.
- Notifications.NotificationsService.HandleMessage: authentication; what the message cache drops by age or size is left open (`ExpireSubs`). Sockets are values in a map and sending is recorded, so a failing send is not modelled.
- Balance.LoadTransactions: choosing the page, the parallel loading of a wallet's parts and the labels on inputs and outputs.
- SQL text, collations other than a folding function, streaming, pool reconnection and timers.
- Statistics, padding and time formatting in `lib/util.ts`, HD type codes and script checks: easy members only.

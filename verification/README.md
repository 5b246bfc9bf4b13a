# Verified model of a bookkeeping engine

The project models the parts of Open B00KS where an error loses money, a receipt or a sign-in check, and
proves what those parts are for. Tables are classes with `map` and `seq` fields, updated by methods; each
method is proved against a specification function of the old table, and the promises are lemmas about runs
of those functions. Stage logic is functions. Amounts are Go's `int64`: sums are computed with wrap-around
(`Int64.Wrap`), and every statement about exact totals says when no wrap-around can matter. Scores and
confidences are `real`.

- **Receipt batches** (`Pipeline`, `ReceiptStages`, `BatchProtocol`, `BatchRuns`, `BatchStranding`,
  `BatchProgress`, `BatchOutcomes`, `BatchCompletion`, `BatchService`, `RunVerdict`, with `VendorMatch`,
  `StableRanking`, `VendorRanking`):
  receipts move through extract, vendor and classify either in one sequential call or through provider batches
  that may be rejected, fail, expire, get stuck or be reset. Proved: no receipt is stranded or held twice,
  receipts only move forward, results are routed to their receipts, a run collects at most three times per
  receipt, no row ever says more than what was read, found and trusted, an item's error parks its receipt,
  every run brings a receipt to one and the same ending and can always still reach it, and that is where the
  sequential call ends - exactly when a stated condition on the vendor name holds. Where the sequential call
  ends is itself read off the AI's answers, stage by stage.
- **Ledger** (`Entries`, `Ledger`, `Reports`, `Imports`, `ImportService`, `Statements`, `Reimports`): posting,
  import rows, statements and reports. Each import row gets at most one transaction and keeps it, and there are
  two end-to-end results: the accounting equation for every run and window, and a reconciled statement's
  movement against the transactions of its rows. Postings go through the statement's account, and reports class
  accounts by their spelled type.
- **Scheduling** (`Scheduler`, `SchedulerService`, `JobQueue`): leases in real time and claims by attempts.
- **Imports** (`ImportDraft`, `Importer`, `TopVendors`): conservation, rows and totals against the records' own
  cells, duplicates, and an in-place sort.
- **Vendor memory** (`AliasLedger`, `AliasHistory`): the tables against the history of accepted writes.
- **One-time passwords** (`Totp`, `TotpReplay`) and **fiscal years** (`FiscalYear`, `Calendar`).

`Common`, `Text` and `Sums` hold shared definitions: option and result types, int64 arithmetic, sorting by a
total order, the string operations that the code uses, and sums over sets. No proof relies on automatic
induction: inductive lemmas make their recursive calls themselves.

## What the proofs found

Each of these is a lemma, with the exact condition under which the code does what is expected.

- Batched and sequential runs differ for a vendor name made of spaces only, about which only the sequential
  path asks the AI: they end alike iff that extra question is answered cleanly (`BatchRuns.BatchRefinesRun`,
  `BatchCompletion.EndingAgreesIff`). `BatchCompletion.SpacesRunDiffers` is such a run: the batches finish the
  receipt, the sequential call parks it at the vendor stage.
- A finished batch whose kind is not registered, or a completed batch that lacks a result for an item, leaves
  receipts in flight for good, and so does resetting a stuck job of such a kind (`BatchStranding.UnsafeStrands`,
  `BatchStranding.StrandedForGood`). Over all runs nobody is stranded iff none of these happened before
  (`BatchStranding.StrandedExactlyWhen`).
- The tolerance of two cents on a tax split never lets an entry through: the balance check after it demands
  an exact split (`Pipeline.BuiltExactlyWhen`).
- Task bodies can overlap as soon as two tasks keep the default timeout, which is the whole lease
  (`Scheduler.TwoDefaultTimeoutsOverlap`). The comment on claiming (internal/db/scheduled_tasks.go:30-31) calls
  it safe across concurrent schedulers; that takes batches whose timeouts together fit into the lease.
- In the work queue a lock never decides a claim: a job that can be claimed is always unlocked, and a job whose
  lock expired stays taken until somebody fails or requeues it (`JobQueue.EligibleExactlyWhen`,
  `JobQueue.NoDoubleClaim`).
- The balance check compares wrapped sums, so totals a whole turn of int64 apart are accepted
  (`Entries.AcceptedWithoutBalance`).
- The tolerance on extracted amounts also passes a difference of exactly half a turn of int64, whose absolute
  value is still negative (`Pipeline.CleanExtraction`).
- A refund next to a purchase on one account unbalances an import draft (`ImportDraft.RefundUnbalances`); a draft
  balances iff what comes in and goes out on such accounts cancels (`ImportDraft.DraftBalancesIff`).
- Re-importing may overwrite the amount of a posted row, after which a statement reconciles against a ledger
  that still holds the old amount: `Reimports.ReimportCanDisagree` runs from the empty desk into such a
  statement. The rows stay posted through the account iff the last proposal for each posted row repeats its
  amount and sense (`Statements.ReimportThroughIff`), and a statement that reconciles afterwards agrees with
  the ledger iff its balance fits and the re-import shifts the covered rows by nothing
  (`Reimports.ReimportedStatementAgreesIff`).
- An alias write that names a vendor not in the table counts an occurrence and no receipt
  (`AliasHistory.TotalsCanDiffer`, `AliasHistory.TotalsMatchIffNobodyMissing`).
- When the clock goes back, if only by one step, a pruned one-time step can be accepted again. Exactly which
  clocks allow it is `TotpReplay.ReplayExactlyWhen` and `TotpReplay.ReplayableMeansGoingBack`.
- With a fiscal year starting on 29 February or later, 28 February of a leap year lies in no fiscal year, and
  that of the year after a leap year in two (`FiscalYear.FiscalYearsTile`).

## Model

| member | source | states |
|---|---|---|
| `BatchRuns.BatchRefinesRun` | internal/pipeline/runner.go:62-147 | In every run, with any rejected, failed, expired or reset batches in between, a receipt that reaches a terminal stage ends as the worker's sequential path ends - done with the same date, memo and lines, or in review at the same stage with the same issues - if and only if a spaces-only vendor name, when there is one, is answered cleanly. |
| `BatchRuns.NeverStranded` | internal/aibatch/aibatch.go:96-259 | In every state of every run a receipt is in flight iff one live job holds it, no two jobs hold it, and every live job's items carry their custom id, the stage of the job and the request the row still asks for. |
| `BatchOutcomes.RowsSay` | internal/receiptbatch/kinds.go:56-277 | At every moment of every run, whatever the provider answered: a receipt past extraction has a consistent one with confidence 0.75 or more that decodes; one past the vendor stage has no name, a match by name, or an answer with confidence 0.85 or more that names an offered or a usable new vendor; a finished one has a draft of the extracted total from the cash account to the matched vendor's account, or else to an offered account that some answer chose with confidence 0.80 or more; and a parked one has no draft and keeps what the stages before had stored. |
| `BatchOutcomes.ErrorParks` | internal/receiptbatch/kinds.go:79-198 | Collecting an item that carries a provider error puts its receipt in review at the stage of the job's kind with exactly that error, and leaves every stored result as it was. |
| `BatchOutcomes.ErrorParksForGood` | internal/aibatch/aibatch.go:198-217 | And the receipt is so at every later moment of the run. |
| `BatchStranding.StrandedExactlyWhen` | internal/aibatch/aibatch.go:157-259 | In every run, whatever kinds are registered and whatever the provider answers: the protocol invariant holds at a moment iff until then every finished batch collected, and every stuck job reset, was of a registered kind and every completed batch had a result for each item; otherwise some receipt is stranded there. |
| `BatchStranding.StrandedForGood` | internal/db/receipt_pipeline_state.go:45-87 | A receipt in flight that no live job holds keeps the same row through every later step. |
| `BatchStranding.UnsafeStrands` | internal/aibatch/aibatch.go:174-245 | From a state in order, collecting or resetting otherwise strands a receipt. |
| `BatchCompletion.OneEnding` | internal/receiptbatch/kinds.go:56-277 | In all runs in which results for the receipt are the AI's own answers, it comes to rest in one and the same row, whatever failed, expired or was reset and in whatever order receipts were claimed. |
| `BatchCompletion.CanAlwaysEnd` | internal/aibatch/aibatch.go:96-259 | Every such run, whatever state it has reached, can go on so that the receipt comes to rest in that row. |
| `BatchCompletion.EndingAgreesIff` | internal/pipeline/runner.go:62-147 | That row is where the sequential path ends iff a spaces-only vendor name, when there is one, is answered cleanly. |
| `BatchCompletion.IncomparableRunDiffers` | internal/pipeline/runner.go:75-111 | Otherwise some run ends elsewhere, while the sequential path parks the receipt at the vendor stage. |
| `BatchCompletion.SpacesRunDiffers` | internal/receiptbatch/kinds.go:96-120 | A concrete AI and tables with a run that ends with the receipt done although the sequential path parks it at the vendor stage. |
| `BatchRuns.AtRest` | internal/aibatch/aibatch.go:96-133 | With no submission under way, in flight means held by a submitted job. |
| `BatchRuns.HeldAtItsStage` | internal/receiptbatch/stages.go:37-48 | The kind of the job that holds a receipt is the kind for the receipt's stage. |
| `BatchRuns.OnlyForward` | internal/receiptbatch/stages.go:23-34 | Between any two moments of a run the stage rank of a receipt never grows, and drops by at least the number of results applied in between. |
| `BatchRuns.AtMostThreeResults` | internal/db/receipt_pipeline_state.go:90-122 | The results applied to a receipt and the rank of its stage never exceed three together. |
| `BatchRuns.ApplyMovesItsReceipts` | internal/aibatch/aibatch.go:198-223 | Collecting a served batch applies one result to each of its receipts, which strictly lowers their rank, and touches no other receipt. |
| `BatchRuns.TerminalForGood` | internal/db/receipt_pipeline_state.go:45-122 | Once a receipt is done or in review, its row is the same at every later moment of the run and no later claim returns it. |
| `BatchProgress.WorkIsBounded` | internal/aibatch/aibatch.go:174-224 | The items whose results were applied so far and the ranks still ahead of all receipts never exceed three per receipt. |
| `BatchProgress.StepPays` | internal/aibatch/aibatch.go:96-259 | Every step takes at least as many ranks off the receipts as it applies results, apart from three for a new receipt. |
| `BatchProgress.CollectionDrops` | internal/aibatch/aibatch.go:198-223 | Collecting a served batch lowers the sum of ranks by at least the number of its items. |
| `BatchProgress.CollectionsAreFew` | internal/aibatch/aibatch.go:157-172 | A run collects results at most three times as often as there are receipts. |
| `BatchRuns.CollectedOnce` | internal/aibatch/aibatch.go:157-224 | Two collections with results never concern the same job. |
| `BatchRuns.ResetKeepsStage` | internal/db/receipt_pipeline_state.go:78-87 | A reset changes neither the stage nor the number of applied results. |
| `BatchRuns.FoldOnce` | internal/aibatch/aibatch.go:198-217 | With distinct custom ids, applying all of a batch's results to a receipt is applying its own one, or nothing. |
| `BatchProtocol.CollectKeepsInvIff` | internal/aibatch/aibatch.go:174-224 | Collecting a submitted job keeps the protocol invariant iff a finished batch's kind is registered and a completed batch has a result for every item. |
| `BatchProtocol.ResetStuckKeepsInvIff` | internal/aibatch/aibatch.go:229-245 | Resetting a stuck job keeps the invariant iff its kind is registered. |
| `BatchProtocol.GatherKeepsInv` | internal/aibatch/aibatch.go:96-116 | Claiming and gathering keeps the invariant: what is asked is held by the new job, what is settled is free. |
| `BatchProtocol.SendKeepsInv` | internal/aibatch/aibatch.go:118-132 | So does sending, whether the provider accepts, rejects, or accepts what the store then fails to record. |
| `BatchProtocol.EnterKeepsInv` | internal/db/receipt_pipeline_state.go:27-32 | So does a new receipt; an existing row is left alone. |
| `BatchProtocol.Routing` | internal/aibatch/aibatch.go:198-217 | In a live job, a result is routed to a receipt iff the job holds the receipt and the custom id is the one made from it. |
| `BatchProtocol.CustomIdInjective` | internal/aibatch/aibatch.go:108-115 | Different receipts of one kind get different custom ids. |
| `BatchProtocol.CustomIdTellsKind` | internal/receiptbatch/kinds.go:51-160 | Requests of different kinds have different ids, too. |
| `BatchProtocol.RequestsFit` | internal/receiptbatch/kinds.go:56-193 | The gathered requests name distinct claimed receipts, one for each that asks, each with its own prompt. |
| `BatchProtocol.FoldReleases` | internal/aibatch/aibatch.go:198-217 | Applying results releases a receipt iff one of them is for it, and leaves it alone otherwise. |
| `BatchService.Tables.Submit` | internal/aibatch/aibatch.go:96-133 | The whole submission is the gather step followed by the send step, and returns the number of items iff both the provider and the store accept. |
| `BatchService.Tables.GatherItems` | internal/receiptbatch/kinds.go:56-193 | Claims at most two hundred pending receipts of the stage, those updated longest ago and all of them if fewer, settles those that need no AI and returns the requests of the others. |
| `BatchService.Tables.ClaimPending` | internal/db/receipt_pipeline_state.go:45-63 | Takes distinct pending receipts of the stage, those updated longest ago, up to the limit and all of them if fewer, and marks exactly those in flight. |
| `BatchService.Tables.Reset` | internal/db/receipt_pipeline_state.go:78-87 | Of the named rows exactly those in flight become pending again. |
| `BatchService.Tables.RouteResults` | internal/aibatch/aibatch.go:198-217 | The loop over the results with its routing map changes the rows as the specification's fold does. |
| `BatchService.Tables.CollectOne` | internal/aibatch/aibatch.go:174-224 | One collected job takes the specified step for every answer of the provider. |
| `BatchService.Tables.Collect` | internal/aibatch/aibatch.go:157-172 | A pass collects every submitted job once. |
| `BatchService.Tables.ResetStuck` | internal/aibatch/aibatch.go:229-245 | A pass resets every submitted job older than the limit, and no other. |
| `BatchService.CollectPassKeepsInv` | internal/aibatch/aibatch.go:157-172 | A whole pass over distinct submitted jobs keeps the invariant. |
| `ReceiptStages.FinalizeAgrees` | internal/receiptbatch/kinds.go:241-277 | The last stage stores the draft, or the issues, that the sequential run's last stage reports. |
| `ReceiptStages.GatherTracks` | internal/receiptbatch/kinds.go:96-120 | A receipt settled without the AI stays where the sequential run passes. |
| `ReceiptStages.ApplyTracks` | internal/receiptbatch/kinds.go:79-219 | So does a receipt whose own answer is applied. |
| `ReceiptStages.RunReachesClassify` | internal/pipeline/runner.go:75-125 | Once the vendor stage is settled, the sequential run goes on at classify with the account that the stored vendor result stands for. |
| `ReceiptStages.IncomparableParksAtVendor` | internal/pipeline/runner.go:75-111 | A spaces-only vendor name whose extra question is not answered cleanly parks the sequential run at the vendor stage. |
| `ReceiptStages.BlankTextParksBoth` | cmd/worker/main.go:562-571 | A receipt without readable text is parked by both paths at the same stage as lacking text; the worker's message about it is longer. |
| `ReceiptStages.SampleTablesAreGood` | internal/receiptbatch/kinds.go:367-398 | The hypotheses of the refinement on codecs and tables can be met. |
| `ReceiptStages.CandidatesAre` | internal/receiptbatch/kinds.go:136-156 | At most eight vendors of the receipt's entity are offered, each scoring at least 0.2, and all of those when there are fewer than eight. |
| `Pipeline.CleanExtraction` | internal/pipeline/extract.go:91-131 | An extraction has no issues iff its confidence is in range, its total matches subtotal and tax and its exact line sum the subtotal or total - within two cents up to whole turns of int64, or half a turn off - and its date and currency are well formed; it clears the gate iff its confidence also reaches the minimum. |
| `Pipeline.NearMeansTwoCents` | internal/pipeline/extract.go:99-119 | For differences below half a turn of int64 the tolerance is two cents. |
| `Calendar.IsoDateMeans` | internal/pipeline/extract.go:120-123 | The dates that pass are exactly the real dates of the years 0 to 9999 as they are written, with leading zeros. |
| `ReceiptStages.ApplyMovesForward` | internal/receiptbatch/kinds.go:79-219 | Applying any result, or an error, releases the receipt to the next stage or to review. |
| `ReceiptStages.GatherMovesForward` | internal/receiptbatch/kinds.go:96-120 | Settling without the AI does so too, without counting a result. |
| `RunVerdict.RunEndsExactly` | internal/pipeline/runner.go:62-147 | Exactly where a sequential run ends, read off the AI's answers: it parks at the first stage that does not clear - extraction consistent with 0.75 or more, vendor known by name or decided with 0.85 or more, account the found vendor's or offered and chosen with 0.80 or more - with that stage's issues and no entry; otherwise it is ready iff the amounts and accounts allow an entry, carries that entry's date, memo and lines, or reports the first thing missing. |
| `RunVerdict.ReadyChargesWhatWasFound` | internal/pipeline/runner.go:75-147 | A ready run charges the default account of the vendor that was found, or else an offered account chosen with enough confidence. |
| `Pipeline.CleanClassification` | internal/pipeline/classify.go:85-106 | A classification clears its gate iff its confidence is between 0.80 and 1 and some offered account has its code; otherwise exactly what is wrong is reported. |
| `Pipeline.CleanVendorAnswer` | internal/pipeline/vendor.go:146-188 | An answer about a vendor clears its gate iff its confidence is between 0.85 and 1 and it names an offered vendor, or a usable new one and no id. |
| `Pipeline.ReadyMeansBalanced` | internal/pipeline/runner.go:62-147 | A sequential run is ready iff it carries an entry, and that entry balances, carries the extracted total and charges the classified account. |
| `Pipeline.BuiltExactlyWhen` | internal/pipeline/build_entry.go:36-96 | An entry is built iff the total is positive, both accounts are set, and a tax split, when one is made, is non-negative and exact to the cent. |
| `Pipeline.BuiltEntryBalances` | internal/pipeline/build_entry.go:36-96 | A built entry's exact debits and credits both equal the extracted total, for all int64 inputs. |
| `Pipeline.BuiltEntryIsStorable` | internal/pipeline/build_entry.go:36-76 | Without a tax account the two lines satisfy every check made when they are stored. |
| `Pipeline.AssertBalanced` | internal/pipeline/build_entry.go:80-96 | The accumulator loop reports the first negative line, else an imbalance or an empty total. |
| `Pipeline.ValidateExtract` | internal/pipeline/extract.go:91-126 | The loop reports nothing iff the extraction is consistent in exact arithmetic, and otherwise the issues in order. |
| `Pipeline.ValidateClassify` | internal/pipeline/classify.go:85-101 | The search with a found flag returns the issues of a classification. |
| `VendorMatch.CleanAnswer` | internal/pipeline/vendor.go:146-186 | An answer without issues names an offered vendor or proposes a usable new one, never both. |
| `VendorMatch.FoldChar` | internal/pipeline/vendor.go:47-54 | Folding turns a letter into lower case, keeps a digit and drops any other ASCII character. |
| `VendorMatch.FoldConcat` | internal/pipeline/vendor.go:47-54 | A name is folded piece by piece. |
| `VendorMatch.SuffixDropped` | internal/pipeline/vendor.go:55-58 | A folded name that ends with one of the six company suffixes stands for what is before it. |
| `VendorMatch.ValidateVendorMatch` | internal/pipeline/vendor.go:146-180 | The loop returns the issues of a vendor answer in order. |
| `VendorMatch.NormalizeVendorName` | internal/pipeline/vendor.go:47-59 | The two loops compute the folded name. |
| `VendorMatch.ExactVendorMatch` | internal/pipeline/vendor.go:64-76 | The loop returns the first candidate with the same folded name. |
| `VendorRanking.ShortlistKeepsTheBest` | internal/pipeline/vendor.go:194-218 | The shortlist is sorted, keeps ties in pool order, together with the dropped candidates lists exactly those above the threshold, and drops none that scores higher than a kept one - and only when full. |
| `VendorRanking.ShortlistAgreesWithFullScan` | internal/pipeline/vendor.go:61-76 | The exact match over the shortlist is that over the whole pool iff there is none, there is no limit, or fewer than limit candidates scoring 1 stand before it. |
| `VendorRanking.ShortlistAgreesWhenOnesFit` | internal/pipeline/vendor.go:194-218 | In particular it agrees when at most limit candidates score 1. |
| `VendorRanking.ScoreRange` | internal/pipeline/vendor.go:224-248 | Scores lie in [0, 1], and an equal folded name scores 1. |
| `VendorRanking.ScoreMeans` | internal/pipeline/vendor.go:224-234 | The score is the name's similarity, raised to 0.9 by a learned pattern that stands in the query and otherwise to the pattern's share of common trigrams. |
| `VendorRanking.SimilarityMeans` | internal/pipeline/vendor.go:237-248 | Equal names are similar by 1, a name that stands in the other by 0.8, and others by the score of their trigrams. |
| `VendorRanking.JaccardMeans` | internal/pipeline/vendor.go:250-263 | That score times the number of all trigrams is the number of common ones. |
| `VendorRanking.LearnedPatternIsOffered` | internal/pipeline/vendor.go:220-234 | A vendor whose learned pattern stands in the receipt's name is on the shortlist, unless the list is full of vendors that score 0.9 or more. |
| `VendorRanking.TrigramJaccard` | internal/pipeline/vendor.go:250-263 | The counting loop computes the shared fraction of two trigram sets. |
| `VendorRanking.BuildTrigrams` | internal/pipeline/vendor.go:265-278 | The loop collects the trigrams of the name, or the name itself when it is shorter. |
| `VendorRanking.RankVendorCandidates` | internal/pipeline/vendor.go:194-218 | The filter loop, stable sort and cut compute the shortlist. |
| `StableRanking.RankedSorts` | internal/pipeline/vendor.go:207-213 | A stable sort by descending score is sorted, a permutation, and keeps the order of equal scores. |
| `Scheduler.MutualExclusion` | internal/ops/scheduler.go:117-161 | For any number of replicas: if every claimed batch's timeouts sum to at most the lease, no task body ever runs twice at the same time. |
| `Scheduler.ExclusiveIffTimeoutsFit` | internal/ops/scheduler.go:117-161 | With tasks started back to back, exclusion holds in every run iff the timeouts of all registered tasks together fit into the lease; the same holds for the runs in which every claim takes all due tasks. |
| `Scheduler.TwoDefaultTimeoutsOverlap` | internal/ops/scheduler.go:57-92 | Two tasks with the default timeout already overlap in some run, even if every claim takes all due tasks. |
| `Scheduler.NotBeforeInterval` | internal/db/scheduled_tasks.go:51-64 | After a recorded completion no replica claims it again before its interval has passed. |
| `Scheduler.NextKeepsInv` | internal/ops/scheduler.go:117-161 | Every step keeps what exclusion rests on: each queued task of a replica is leased to it for long enough. |
| `Scheduler.NextRunOnlyMovesOn` | internal/db/scheduled_tasks.go:32-64 | A task's next run time never moves back. |
| `Scheduler.ClaimTakes` | internal/db/scheduled_tasks.go:32-47 | Only tasks are claimed that are switched on, due, and not run by anybody within the lease. |
| `Scheduler.NeverWhileOff` | internal/db/scheduled_tasks.go:32-47 | In any run a task that is switched off is not claimed until it is switched on. |
| `SchedulerService.TaskStore.ClaimDue` | internal/db/scheduled_tasks.go:32-47 | Leases and returns once exactly the tasks that are switched on, due, and free or leased longer ago than the lease. |
| `SchedulerService.TaskStore.Complete` | internal/db/scheduled_tasks.go:51-64 | Releases the row and sets its next run one interval ahead. |
| `SchedulerService.TaskStore.Ensure` | internal/db/scheduled_tasks.go:21-28 | Adds a missing row that is due at once, and leaves an existing one alone. |
| `SchedulerService.TaskScheduler.Register` | internal/ops/scheduler.go:87-92 | A task without a positive timeout gets the default; the settings stay sane. |
| `SchedulerService.TaskScheduler.Execute` | internal/ops/scheduler.go:128-161 | A task without a handler takes no time, and the row is completed in any case. |
| `SchedulerService.TaskScheduler.RunDue` | internal/ops/scheduler.go:117-126 | A pass claims exactly the due tasks, ends within the sum of their timeouts, leaves other rows alone, and frees every task with its next run one interval after its own end. |
| `JobQueue.NoDoubleClaim` | internal/queue/dbqueue.go:37-115 | Between two claims of a job there is a failure for retry or a requeue; an expired lock alone does not release it. |
| `JobQueue.NeverBeyondLimit` | internal/queue/dbqueue.go:37-84 | With one attempt limit, no job is claimed more often than the limit, even across requeues. |
| `JobQueue.LocksAndCounts` | internal/queue/dbqueue.go:37-115 | A job's attempts equal the number of its claims, and its lock is set iff it is processing. |
| `JobQueue.EligibleExactlyWhen` | internal/queue/dbqueue.go:37-69 | In every run a job can be claimed iff it is queued or failed, has been claimed fewer times than the limit - 5 unless given - and has the stage asked for; its lock never decides. |
| `JobQueue.DBQueue.Claim` | internal/queue/dbqueue.go:37-84 | Takes the oldest eligible jobs in order, up to the batch size and all of them if fewer, and marks exactly those, locked for the given time; 10 jobs, 300 seconds and 5 attempts unless given. |
| `JobQueue.DBQueue.Enqueue` | internal/queue/dbqueue.go:20-35 | Adds one queued job under a new id. |
| `JobQueue.DBQueue.Ack` | internal/queue/dbqueue.go:86-93 | Finishes the job and clears its lock. |
| `JobQueue.DBQueue.Fail` | internal/queue/dbqueue.go:95-106 | Fails or buries the job and clears its lock. |
| `JobQueue.DBQueue.Requeue` | internal/queue/dbqueue.go:108-115 | Queues the job again with its attempts kept. |
| `Ledger.EveryBookIsOk` | internal/db/transactions.go:30-334 | After any run of postings and account deletions every transaction's lines were accepted, their accounts exist and belong to its entity, its receipt belongs to the entity, and a receipt is attached iff exactly one transaction names it. |
| `Ledger.EveryPostingBalances` | internal/db/transactions.go:321-334 | A posted transaction's exact totals are equal and positive whenever they fit into int64. |
| `Ledger.HistoryOnlyGrows` | internal/db/transactions.go:30-101 | No run loses or alters a posted transaction. |
| `Ledger.PostsExactlyWhen` | internal/db/transactions.go:30-334 | Nothing stands against a posting iff the int64 sums are equal and not zero, every line moves a positive amount on one side of an account of the entity, and the receipt, if one is named, is the entity's and not attached. |
| `Ledger.LedgerStore.Create` | internal/db/transactions.go:30-101 | Posts iff no check fails, and changes nothing otherwise; a blank receipt id means no receipt. |
| `Ledger.LedgerStore.CreateFromDraft` | internal/db/transactions.go:183-246 | The same for a draft, which always names its receipt. |
| `Ledger.LedgerStore.CreatePosting` | internal/db/transactions.go:30-101 | The body shared by both: the error reported is that of the first failing check, and success appends exactly the transaction. |
| `Ledger.LedgerStore.ValidateEntriesForEntity` | internal/db/transactions.go:248-273 | The loop accepts iff every line's account exists and belongs to the entity. |
| `Ledger.LedgerStore.Delete` | internal/db/accounts.go:133-164 | Deletes an account iff it exists and nothing refers to it. |
| `Entries.ValidateBalanced` | internal/db/transactions.go:321-334 | The accumulator loop reports an imbalance or a zero total of the int64 sums. |
| `Entries.AcceptedBalances` | internal/db/transactions.go:321-334 | Accepted lines balance exactly iff their exact totals are less than one turn of int64 apart, and then the total is not zero. |
| `Entries.AcceptedWithoutBalance` | internal/db/transactions.go:321-334 | Lines that satisfy every constraint and are accepted without balancing. |
| `Reports.AccountingEquation` | internal/http/reports.go:32-153 | For the rows of any balanced lines the netted debit and credit columns are equal, and what the asset accounts net to equals liabilities, equity and net income plus the credit balance of the accounts that neither statement shows. |
| `Reports.ReportsOfEveryRun` | internal/db/reporting.go:97-115 | After any run of postings whose totals fit into int64 this holds for every entity and window, and the trial balance reports that it balances. |
| `Reports.WindowBalances` | internal/db/reporting.go:97-115 | The lines of balanced transactions in any window balance. |
| `Reports.GroupingConserves` | internal/db/reporting.go:97-115 | Grouping by account keeps debits minus credits. |
| `Reports.ClassesPartitionNet` | internal/reporting/reporting.go:11-48 | The statements' totals, read off the spelled-out account types, and the accounts of no such type make up what all rows net to. |
| `Reports.SpellingFolds` | internal/reporting/reporting.go:11-26 | The class of an account type depends neither on case nor on spaces around it. |
| `Reports.WindowSums` | internal/db/reporting.go:97-115 | The columns of a row are the sums over exactly the entity's transactions dated within the window. |
| `Reports.ColumnsSplitNet` | internal/reporting/reporting.go:52-57 | Splitting net balances into columns keeps their difference. |
| `Reports.ProfitLoss` | internal/http/reports.go:32-67 | Lists in order the accounts whose type is spelled income or revenue, with credit minus debit, and those spelled expense or expenses, with debit minus credit; net income is the credits minus the debits of all of them in int64. |
| `Reports.BalanceSheet` | internal/http/reports.go:69-112 | Lists and totals in the same way asset or assets by debit minus credit, and liability or liabilities and equity by credit minus debit. |
| `Reports.TrialBalance` | internal/http/reports.go:116-153 | Lists the accounts that do not net to zero with their net in the column of its sign, totals both columns and compares them. |
| `Imports.EveryDeskIsOk` | internal/db/import_rows.go:21-131 | In every run a row is posted iff a transaction is set, which exists and is no other row's, and row ids are unique. |
| `Imports.PostedForGood` | internal/db/import_rows.go:21-64 | A set transaction never changes, and a posted row keeps its id and status through every later step. |
| `Imports.PostedOnce` | internal/http/imports.go:380-521 | In every run, once a row was posted no later posting of it changes anything. |
| `Imports.EachRowPostedOnce` | internal/http/imports.go:507-521 | In every run the postings that succeeded are as many as the rows tied to a transaction, and each added exactly one transaction. |
| `Imports.PostedKeepsAccount` | internal/db/import_rows.go:21-112 | Through every run a posted row keeps its account and transaction until a user maps that row again. |
| `Imports.TiedRowsHaveAccounts` | internal/http/imports.go:380-521 | In every run a row tied to a transaction has an account. |
| `Imports.NextKeeps` | internal/http/imports.go:380-521 | Every single step keeps both. |
| `Statements.CanPostExactlyWhen` | internal/http/imports.go:507-565 | A row can be posted iff its amount is positive and its account and the offset account are accounts of its entity. |
| `Statements.ReplaceExactly` | internal/db/import_rows.go:21-64 | Reprocessing leaves rows of other receipts as they were; of its own receipt the unposted rows that no proposal names are gone, posted rows keep id, status, transaction and a chosen account, and every proposed row says what its last proposal says. |
| `Statements.ManyPostings` | internal/http/imports.go:474-521 | Posting a list of rows adds only transactions that are the postings of listed rows: their entity, date and text, the offset account moved by the amount in the row's sense and the row's account the other way. |
| `Statements.ManyThrough` | internal/http/imports.go:474-521 | It keeps a receipt's rows posted through the account when none of them is mapped to the account itself. |
| `ImportService.ImportDesk.ReplaceForReceipt` | internal/db/import_rows.go:21-64 | Deletes the unposted rows of the receipt and upserts the proposals, posted rows keeping their status and account. |
| `ImportService.ImportDesk.MapRow` | internal/db/import_rows.go:98-112 | Sets the account of a row, posted or not, and marks the row mapped unless it is posted. |
| `ImportService.ImportDesk.MarkPosted` | internal/db/import_rows.go:114-131 | Marks exactly the unposted row with the id, and reports whether there was one. |
| `ImportService.ImportDesk.PostImportRow` | internal/http/imports.go:507-521 | Posts the row's two legs and marks the row, or changes nothing. |
| `ImportService.ImportDesk.HandleImportRowPost` | internal/http/imports.go:380-431 | Posts iff the row exists, is not posted, has an account, and the posting is possible through the account of the receipt's statement for the row's entity or, without such a statement, through the default cash account; that account takes the other leg of the one transaction added, and rows posted through it stay so. |
| `ImportService.ImportDesk.HandleImportRowsPostMapped` | internal/http/imports.go:433-505 | Refused for an unknown receipt, one that is no import, or when neither a statement of the receipt's entity nor a default cash account gives the other account; otherwise the receipt's own rows are posted in index order through that account, which takes the other leg of every transaction added, posted + skipped + failed is their number, and each one posted added one transaction. |
| `ImportService.ImportDesk.ListByReceipt` | internal/db/import_rows.go:66-81 | Lists the rows of the receipt by index, each once. |
| `Statements.ReconciledStatementAgrees` | internal/db/account_statements.go:203-221 | After any careful run, a reconciled statement's movement equals the net that its rows' transactions put on its account iff that movement keeps the balance in int64. |
| `Statements.ReconciledMatchesLedger` | internal/db/account_statements.go:28-42 | The same for any state in which the rows were posted through the statement's account. |
| `Statements.CarefulRunGoesThrough` | internal/http/imports.go:507-565 | Careful steps keep all rows of a receipt posted through the account. |
| `Statements.StepThroughIff` | internal/http/imports.go:507-565 | Exactly the careful steps do: posting through the account and never against it, and re-importing with the last proposal for each posted row repeating its amount and sense. |
| `Statements.ReimportThroughIff` | internal/db/import_rows.go:21-64 | After a re-import the receipt's rows are still posted through the account iff the last proposal for each posted row repeats its amount and sense. |
| `Reimports.ReimportedStatementAgreesIff` | internal/db/account_statements.go:203-221 | For every desk and re-import, a statement that reconciles afterwards agrees with the ledger iff its balance stays in int64 and the re-import shifts the covered rows by a whole number of turns, normally zero. |
| `Reimports.ReimportCanDisagree` | internal/db/import_rows.go:36-58 | A run from the empty desk - import, map, post, re-import - ends in a statement that reconciles at 700 cents while the ledger holds 500. |
| `Statements.StatementStore.Reconcile` | internal/db/account_statements.go:203-213 | Sets the status that the aggregates call for, and changes nothing else. |
| `ImportDraft.DraftConservation` | cmd/worker/main.go:1362-1463 | Debits minus credits of the draft is the sum, over accounts with both directions, of outflow minus inflow; the cash legs are the row totals. |
| `ImportDraft.DraftBalancesIff` | cmd/worker/main.go:1362-1463 | A draft balances iff outflow minus inflow, summed over the accounts with both directions, is zero. |
| `ImportDraft.OneWayAccountsBalance` | cmd/worker/main.go:1362-1463 | The draft balances when no account has both directions. |
| `ImportDraft.RefundUnbalances` | cmd/worker/main.go:1425-1453 | A purchase and a refund on one account leave it unbalanced. |
| `ImportDraft.OrderIndependent` | cmd/worker/main.go:1425-1432 | The order of the accounts, and so the draft, does not depend on map iteration. |
| `ImportDraft.AmountsAddUp` | cmd/worker/main.go:1375-1404 | Grouping by account conserves the total of a direction. |
| `ImportDraft.BuildImportEntries` | cmd/worker/main.go:1362-1463 | The two loops and the sort compute the draft. |
| `ImportDraft.BuildEntries` | cmd/worker/main.go:1304-1360 | Explicit entries come first, then an import's rows, then a single expense. |
| `ImportDraft.PlainEntriesBalance` | cmd/worker/main.go:1323-1359 | A single expense balances iff some account takes the credit side. |
| `ImportDraft.DominantAccount` | cmd/worker/main.go:1225-1235 | In any iteration order, and for any ids, the result is the account with the highest count, the smallest id among equals, and the empty id when all counts are zero. |
| `Importer.SummaryIsRight` | internal/importer/parser.go:112-166 | For every file: row count = parsed + error rows, kept rows have positive amounts, a vendor and increasing indices, both flow totals are the sums over the kept rows, the collected duplicates are the repeated rows, and the vendor table groups the kept rows. |
| `Importer.RowsAreRecords` | internal/importer/parser.go:112-206 | The rows kept are those of exactly the records that are not blank, whose date, amount and vendor can be read, and whose amount is neither zero nor the least int64; each says the record's vendor, memo and date, an outflow of the debit cell, else an inflow of the credit cell, else the amount cell by its sign. |
| `Importer.FlowsAreRecords` | internal/importer/parser.go:139-147 | Both flow totals are the int64 sums of those cells over the kept records. |
| `Importer.ErrorsMean` | internal/importer/parser.go:170-206 | For a record exactly the fields that cannot be read are reported. |
| `Importer.HeaderOrData` | internal/importer/parser.go:95-105 | Without any known column the first record is data and the columns are date, vendor and amount; otherwise it is the header. |
| `Importer.DuplicateRowsAreExact` | internal/importer/parser.go:139-166 | The duplicate list has no repeats and holds exactly the rows whose fingerprint another kept row shares. |
| `Importer.ParseRecords` | internal/importer/parser.go:95-168 | The loop computes the summary of the data records; its inflow and outflow are the int64 sums of what the debit, credit and amount cells of the kept records move. |
| `Importer.SettleRecord` | internal/importer/parser.go:121-161 | Every record that is not blank counts once as parsed or as an error: a faultless one with a positive amount adds one kept row and no error, any other adds errors and leaves rows and vendors alone. |
| `Importer.UniqueInts` | internal/importer/parser.go:415-426 | The loop drops repeats and keeps first occurrences. |
| `Importer.UniqueKeepsMembers` | internal/importer/parser.go:415-426 | The result has the same members and no repeats. |
| `TopVendors.ExchangeSort` | internal/importer/parser.go:346-352 | The in-place exchange sort leaves a permutation sorted by total and count descending and name ascending. |
| `TopVendors.BringForward` | internal/importer/parser.go:347-351 | One inner loop places the next entry and keeps the placed ones. |
| `TopVendors.RankVendors` | internal/importer/parser.go:334-366 | The first name and the top three are those of a ranking of all vendors. |
| `TopVendors.RankingIsUnique` | internal/importer/parser.go:342-352 | There is only one ranking, whatever the map's iteration order. |
| `TopVendors.LeftOutRankBehind` | internal/importer/parser.go:353-361 | A vendor that is not listed ranks behind all three that are. |
| `TopVendors.RankedTotalsAddUp` | internal/importer/parser.go:155-165 | The totals fed to the ranking sum to the summary's total cents in int64 arithmetic. |
| `AliasHistory.LedgerAgrees` | internal/db/vendor_aliases.go:26-68 | After any run of writes an alias belongs to the last confirmed vendor, else the first, and counts its writes; a vendor's default account is the last learned, else the first non-blank proposed; its receipts are the alias writes naming it; and names are unique per entity. |
| `AliasHistory.OwnerMeans` | internal/db/vendor_aliases.go:49-68 | The owner is the vendor of the one deciding write, and there is none iff nobody wrote the alias. |
| `AliasHistory.TotalsMatchIffNobodyMissing` | internal/db/vendor_aliases.go:26-44 | Summed occurrences equal summed receipt counts iff every accepted alias write named a stored vendor. |
| `AliasHistory.TotalsCanDiffer` | internal/db/vendor_aliases.go:26-44 | A run whose last alias write is accepted for a vendor id that does not exist, after which the totals are two and one. |
| `AliasHistory.CreateAgrees` | internal/db/vendors.go:37-57 | The upsert keeps the agreement: an existing default is kept, a missing one filled in. |
| `AliasHistory.RecordAgrees` | internal/db/vendor_aliases.go:26-68 | Both alias writes keep it. |
| `AliasLedger.EveryReferenceHolds` | internal/db/vendors.go:37-108 | After any run of writes every vendor belongs to a stored entity and has a stored account or none, and every alias belongs to a stored vendor and entity. |
| `AliasLedger.VendorMemory.Create` | internal/db/vendors.go:37-57 | Merges into the vendor of the same entity and folded name or inserts a new one, unless a constraint fails. |
| `AliasLedger.VendorMemory.SetDefaultAccount` | internal/db/vendors.go:92-108 | Overwrites the default iff the vendor and the account exist. |
| `AliasLedger.VendorMemory.Record` | internal/db/vendor_aliases.go:26-44 | Adds the alias or counts it again for its first writer, and counts a receipt for the named vendor. |
| `AliasLedger.VendorMemory.RecordConfirmed` | internal/db/vendor_aliases.go:49-68 | The same, moving the alias to the named vendor. |
| `AliasLedger.VendorMemory.Memoize` | internal/vendormemo/vendormemo.go:55-73 | Creates or completes a vendor from a proposal with a usable name. |
| `AliasLedger.VendorMemory.RecordResolution` | internal/vendormemo/vendormemo.go:78-86 | Records the raw name for a non-blank vendor id. |
| `AliasLedger.VendorMemory.LearnAccount` | internal/vendormemo/vendormemo.go:93-113 | Overwrites the default account and confirms the alias, or changes nothing; it fails iff the vendor or the account is missing. |
| `TotpReplay.OneTimeUse` | internal/db/used_totp_steps.go:23-43 | With a clock that never goes back no (user, step) is accepted twice, although old steps are pruned (section 5.2 of RFC 6238). |
| `TotpReplay.ReplayExactlyWhen` | internal/db/used_totp_steps.go:23-43 | For any sequence of clocks, some generator, secrets and codes have a step accepted twice iff the clock can report a step, later one more than two ahead, and later the first again. |
| `TotpReplay.ReplayableMeansGoingBack` | internal/auth/mfa.go:59-72 | After the first 30 seconds that holds iff the clock stands at most two steps apart at two moments and ahead of both in between. |
| `TotpReplay.RowsTell` | internal/db/used_totp_steps.go:27-34 | A step is in the table iff it was accepted and no later accepted step of the user exceeds it by more than two. |
| `Totp.FewRowsRemain` | internal/db/used_totp_steps.go:23-43 | After an accepted code at most five rows of the user remain, all within two steps of it, if the clock was not ahead before. |
| `TotpReplay.ReplayHappens` | internal/db/used_totp_steps.go:27-34 | Wherever the clocks allow it, there are attempts by which a step is accepted twice. |
| `Totp.ValidatedMeans` | internal/auth/mfa.go:59-72 | A code is valid iff it has six bytes and belongs to a step within the leeway; the reported step is within the leeway and, once the clock has passed one step, is the counter of the code. |
| `Totp.StepMeans` | internal/auth/mfa.go:59-72 | Steps are half minutes since the epoch. |
| `Totp.ValidateTOTPStep` | internal/auth/mfa.go:59-72 | The loop over the offsets reports the first that matches. |
| `Totp.UsedTotpSteps.MarkUsed` | internal/db/used_totp_steps.go:23-43 | Refuses a recorded step and changes nothing; otherwise prunes the user's older steps and records it. |
| `Totp.UsedTotpSteps.Accept` | internal/http/mfa.go:78-99 | A code is accepted iff it is valid and its step unused. |
| `FiscalYear.FiscalYearsTile` | internal/http/tax_pack.go:364-390 | Every real date lies in exactly one fiscal year, except exactly 28 February of leap years (in none) and of years after leap years (in two) when the start is 29 February or later. |
| `FiscalYear.EndMeetsNextStart` | internal/http/tax_pack.go:378-379 | The last day is the day before the next start unless the start is 29 February or later and exactly one of the two years is leap. |
| `FiscalYear.ValidFiscalYearStart` | internal/http/tax_pack.go:381-390 | The clamping loop ends in a real date: the wanted day or the last of the month. |
| `FiscalYear.FiscalYearRange` | internal/http/tax_pack.go:364-379 | An unknown entity or an out-of-range field means 1 January; the range is the clamped start and the day before its anniversary. |
| `Calendar.NormalizeKeepsDay` | internal/http/tax_pack.go:378-389 | Rolling days over month ends, as time.Date does, preserves the position on the time line. |
| `Calendar.MonthLengths` | internal/http/tax_pack.go:378-389 | The months have their Gregorian lengths. |

## Left out

- HTTP handlers, routing, authorization, logging and configuration: plumbing around the modelled steps.
- The OCR, AI and search clients, storage and backups: foreign calls. The AI is a function from prompts to answers, and vendor retrieval is the database path.
- JSON, CSV and prompt text: encodings are functions assumed to round-trip, and the importer starts at decoded records with column detection, money, date and fingerprint functions as parameters.
- Changes to the vendor and account tables while a receipt is under way, including the memoization writes of finished receipts: the refinement fixes the tables. Reading more than 500 vendors is not modelled.
- AI answers that carry a transport error: such a receipt is parked with the error, which the refinement's hypothesis of own answers excludes.
- Two replicas treating the same batch job at the same moment: collecting and resetting are separate tasks, the stage is written unconditionally, and each is taken as one step here.
- Crashes between gathering and recording a job, and failures of the store calls during collection: the code promises nothing there.
- The status column of single batch items, display summaries of a draft, the draft's storage constraints and its default date.
- BatchService.Tables.GatherItems: does not reset a claimed receipt that cannot be read back, since a pipeline row references its receipt and the lookup fails only with the store.
- Rounding of scores and confidences: they are reals.
- Search-based candidates, whose ranking comes from the search provider.
- Two requests posting the same import row at the same time: posting and marking are two statements, and the model runs one request at a time.
- Rows locked by another claim of the queue at the same moment: `SKIP LOCKED` makes a claim pass them over, so `NoDoubleClaim`, `LocksAndCounts` and `NeverBeyondLimit` allow any eligible jobs, and only an undisturbed claim is shown to take the oldest.
- A task run that ignores its deadline, and more than the scheduler's own ticking: runs are assumed to end within their timeouts.
- Updates of entities, accounts, vendors, statements and drafts through the API, tags, preferences, tenants and vendor rules: easy members.
- Deletion of vendors and accounts in vendor memory: foreign keys would cascade there.
- The other fields of a statement and the general-ledger, vendor-payment and export reports: read-only listings.
- HMAC, base32 and the recovery codes of the second factor: the code is an opaque function of secret and counter.
- The orchestration of the older suggestion job and the web front end.

# Verified models of the BM25 maintenance scripts, the read middleware and log redaction

Each module models one part of the backend and proves what that part promises.
State that the code changes step by step is a class whose methods are proved
against a specification; a protocol between processes is a step relation with an
inductive invariant; pure code is functions and lemmas. A committed transaction is
one atomic step. Scores are exact reals. Nothing here was executed.

| Module | What it models |
|---|---|
| `Options`, `ChunkIds`, `Ranks`, `Vectors`, `Scores`, `Rankings` | ranks of term ids, stored vectors and what they denote, scores through the vocabulary, result pages and their comparison |
| `Numberings`, `Renumber` | `scripts/compact_bm25_term_ids.py`: the dense numbering, its receipt, revert; the database class with survey, rewrite, verification, apply and revert |
| `EpochFence` | encoders, term registrations, fenced stores, renumberings and reverts, interleaved |
| `Checkpoint` | `scripts/bm25_sweep_checkpoint.py`: the compare-and-swap progress row |
| `Sweep` | `scripts/backfill_bm25_vector.py`: pages, parts, waves, retries and attempts while other writers run |
| `RunLock`, `GuardLoss` | `scripts/bm25_run_lock.py`: two guard sessions around one operation; what losing one does |
| `Middleware` | `CancelDisconnectedReadMiddleware` between its awaits |
| `Patterns`, `Pulling`, `Redaction`, `Secrets` | the five patterns of `redact` and their engine; what one replacement leaves; the whole of `redact` and the trigger gate; what it promises, on characters |
| `Migration` | `scripts/migrate_pgvector_to_seahorsedb.py`: batches, checkpoints, one numbering |
| `VaultBackfill` | `scripts/backfill_vault_id.py`: the two batching strategies |

Run `dafny verify dfyconfig.toml` to check everything.

## Where the code does less than it promises

- **A migration with nothing pending, and a dry run, return normally without comparing
  epochs** (`backend/scripts/migrate_pgvector_to_seahorsedb.py:251-263`). The last checkpoint
  is written before the final look at the epoch, so a run stopped by that look is followed
  by one that returns normally over ids of the old numbering.
  `Migration.FinishedUnderTheOldNumbering` is the case, for both returns.
  `Migration.EarlyReturnIffCurrent` says when each return is taken, and that the ids are then
  of the current numbering if and only if the epoch in the progress file is current;
  `Migration.Migrator.Migrate` says the same of the run. Its third normal return, a completed
  run, is proved to leave all that it and the runs it resumed from shipped under one numbering,
  current at its end.
- **Losing at most one guard session each does not keep two runs apart**
  (`backend/scripts/bm25_run_lock.py:154-211`). A run that loses its owner session unnoticed
  while it waits for its control key can start beside another that has lost its control
  session. `GuardLoss.UnnoticedLossBreaksExclusion` gives such a history from nothing, for
  `run_exclusive` and for `run_bulk_exclusive`. `GuardLoss.ExclusionIffOwnerAlive` is the exact
  condition: at a run waiting for its control key, in any state reached in order, losing at
  most one session each is enough if and only if its owner session is alive.
  `RunLock.MutualExclusion` is the safety that follows: it holds over every history in which
  no working run loses its last guard, and every run that begins has a guard left and took
  its control key while its owner session was alive.
- **A row inserted below a migration checkpoint is missed**
  (`backend/scripts/migrate_pgvector_to_seahorsedb.py:104-118`). Chunk ids are random, so a new
  row may fall below a file already written. `Migration.InsertedBelowIsMissed` is such a run:
  it returns normally over a row that no run has accounted for. `Migration.LineageCovers` is
  the exact condition, on the tables the runs found and how far each read: a row the file has
  moved past was accounted for if and only if the one run that moved the file past it found
  it, or an earlier run found it and had accounted for rows as far as that; and likewise for
  the rows runs began to ship, which counts the batch in flight when a run dies.
- **A run resumed from a file without an epoch can leave ids of two numberings in the target**
  (`backend/scripts/migrate_pgvector_to_seahorsedb.py:191-203`, `264-267`). A file written
  before epochs were, or none at all, gives nothing to compare. `Migration.LegacyFileMixes`
  is such a run. `Migration.WholeIffCleanStarts`, which `Migration.Migrator.Migrate` ensures of
  every completed run, is the exact condition: the whole target is of one numbering if and
  only if at each start without a recorded epoch the target held only ids of the epoch that
  run began under.

## Assumptions about what is outside

- `encode_document_at_epoch` returns ids valid at the epoch it names, none when the text
  has no terms; `hold_vocabulary_epoch` lets a transaction commit only under that epoch.
- Chunk ids are random version-4 UUIDs (`backend/app/services/index_service.py:688`), never nil.
- Distinct writer transactions have distinct start stamps, and every write through the
  store stamps the row it touches.
- A session returned to its pool holds no advisory lock; one that has ended holds none.
- Statistics of a rebuilt index are functions of the live vectors (documents, total
  length, largest id + 1); a score depends on counts, document frequency, the number of
  documents, and lengths, through any scorer.
- Failed statements, lost replies, rival attempts, stopped processes and rows a target refuses
  come freely from outside and are counted there (`Sweep.Surroundings`,
  `Migration.Surroundings`); what says that a run does finish is stated against that count.
- In `Patterns` a match is the backtracking engine's: of all ways to match at a position,
  the one whose split points come lexicographically last. `word` stands for `\w`.

## Model

| member | source | states |
|---|---|---|
| `Ranks.RankMonotone` | backend/scripts/compact_bm25_term_ids.py:740-743 | ranking by `row_number()` keeps ids in strict order |
| `Ranks.RankNeverRaises` | backend/scripts/compact_bm25_term_ids.py:740-743 | no nonnegative id is ever raised |
| `Ranks.RankBijection` | backend/scripts/compact_bm25_term_ids.py:740-743 | ranks are one-to-one onto 0 .. n-1 |
| `Ranks.SurveyDenseIff` | backend/scripts/compact_bm25_term_ids.py:197-200 | count, least and greatest id alone decide whether distinct ids are exactly 0 .. n-1, both ways |
| `Ranks.DenseRankIsIdentity` | backend/scripts/compact_bm25_term_ids.py:709-723 | dense ids are their own ranks |
| `Vectors.DenotesOneBag` | backend/scripts/backfill_bm25_vector.py:330-347 | through a vocabulary with unique ids a vector means one bag of terms only |
| `Vectors.RelabelKeepsOrder` | backend/scripts/compact_bm25_term_ids.py:528-553 | a monotone map leaves every vector strictly increasing, so the type's input accepts it |
| `Vectors.RelabelKeepsMeaning` | backend/scripts/compact_bm25_term_ids.py:528-553 | a vector relabelled with its vocabulary denotes a bag afterwards if and only if it did before |
| `Vectors.SortedMonotone` | backend/scripts/compact_bm25_term_ids.py:399-406 | the query's ids come back in the same order after relabelling |
| `Scores.RelabelKeepsScores` | backend/scripts/compact_bm25_term_ids.py:393-438 | every query, sampled or not, scores the same documents the same under either shape and any scorer |
| `Scores.ScoreMeans` | backend/scripts/compact_bm25_term_ids.py:393-438 | which documents a query scores and what it gives them, through the texts alone: the query's known terms in the order of their ids, each entered once; under `posting` the negated sum of the weights |
| `Rankings.TopK` | backend/scripts/compact_bm25_term_ids.py:407-438 | `ORDER BY score LIMIT k` yields a best-first page with ties broken any way |
| `Rankings.CutThenFilter` | backend/scripts/compact_bm25_term_ids.py:409-424 | cutting the page and then dropping score 0 is a page of the matching documents |
| `Rankings.PagesAccepted` | backend/scripts/compact_bm25_term_ids.py:448-471 | the comparison accepts any two pages of one score function at every tolerance, however ties fell |
| `Rankings.AcceptedIff` | backend/scripts/compact_bm25_term_ids.py:448-471 | at tolerance zero two sorted pages are accepted if and only if every rank keeps its score and every tie group better than the last score its documents |
| `Rankings.AcceptedWithin` | backend/scripts/compact_bm25_term_ids.py:448-471 | at every tolerance, zero or not: two pages are accepted if and only if every rank's scores are close, the documents better than the boundary are the same ones, and a document on both pages is scored close on each |
| `Numberings.RenumberedIsDense` | backend/scripts/compact_bm25_term_ids.py:740-748 | apply gives exactly 0 .. terms-1, in the present order, none larger than before |
| `Numberings.RenumberTwice` | backend/scripts/compact_bm25_term_ids.py:709-723 | a second apply would change no id and no vector |
| `Numberings.RenumberPreservesMeaning` | backend/scripts/compact_bm25_term_ids.py:556-607 | apply changes no vector's meaning and no score of any query |
| `Numberings.RevertMonotone` | backend/scripts/compact_bm25_term_ids.py:838-848 | old ids for recorded terms and new ids above them are one strictly monotone map |
| `Numberings.RevertRestores` | backend/scripts/compact_bm25_term_ids.py:786-864 | every recorded term at its exact old id, newer terms above the old largest in their order, the sequence not below its old position |
| `Numberings.RevertPreservesMeaning` | backend/scripts/compact_bm25_term_ids.py:786-864 | revert changes no meaning and no score |
| `Numberings.RevertWellFormed` | backend/scripts/compact_bm25_term_ids.py:829-851 | after revert ids are unique, handed out, and name every stored entry |
| `Numberings.RecordedComesBack` | backend/scripts/compact_bm25_term_ids.py:786-864 | from a record of a numbering, revert gives its terms their very ids, the newer ones the ids right after its largest, and keeps the present order |
| `Numberings.ThereAndBack` | backend/scripts/compact_bm25_term_ids.py:740-748 | apply and then revert, with nothing in between, changes no id and no entry of a vector |
| `Renumber.Ranking` | backend/scripts/compact_bm25_term_ids.py:393-438 | a shape's exact top-k of one query |
| `Renumber.CompareRankings` | backend/scripts/compact_bm25_term_ids.py:651-655 | no problem is reported if and only if no query's ranking differs |
| `Renumber.RewriteVectors` | backend/scripts/compact_bm25_term_ids.py:513-553 | the rewrite raises exactly on unknown ids, never on a monotone map, and otherwise relabels every vector |
| `Renumber.CheckVocabulary` | backend/scripts/compact_bm25_term_ids.py:614-633 | no problem if and only if the same terms hold their mapped ids, densely when asked |
| `Renumber.CheckCopies` | backend/scripts/compact_bm25_term_ids.py:634-649 | no problem if and only if the rewritten copies count what they counted within the new range |
| `Renumber.RankingsAccepted` | backend/scripts/compact_bm25_term_ids.py:651-655 | no baseline query can fail a correct relabelling |
| `Renumber.RelabelledCopiesSound` | backend/scripts/compact_bm25_term_ids.py:634-649 | every count the verification makes is unchanged by a monotone relabelling |
| `Renumber.RelabelableAcceptable` | backend/scripts/compact_bm25_term_ids.py:610-666 | the verification accepts every correct run |
| `Renumber.TermIdDatabase.TakeSurvey` | backend/scripts/compact_bm25_term_ids.py:241-346 | no refusal if and only if no copy of an id would be left behind; its density verdict is exact |
| `Renumber.TermIdDatabase.Relabel` | backend/scripts/compact_bm25_term_ids.py:556-607 | ids, vectors, sequence and epoch become the relabelled numbering; refused exactly when an id would alias, and otherwise raised exactly when a vector names an id no term holds, with nothing changed |
| `Renumber.TermIdDatabase.Verify` | backend/scripts/compact_bm25_term_ids.py:610-666 | acceptance means every check holds and no baseline ranking differs from its recomputed page; sound runs with true baselines are accepted |
| `Renumber.TermIdDatabase.Attempt` | backend/scripts/compact_bm25_term_ids.py:725-783 | committed as the relabelled numbering, or rolled back whole: aborted exactly when a vector names an id no term holds |
| `Renumber.TermIdDatabase.Apply` | backend/scripts/compact_bm25_term_ids.py:696-783 | from every stored state, with unknown ids in vectors or the sequence anywhere, the outcome is decided in advance and the new state is given exactly; the record written holds every old id, new id, epoch and the old sequence; no id is left anywhere that no term holds, and nothing of the other shape has changed |
| `Renumber.TermIdDatabase.RepairSequence` | backend/scripts/compact_bm25_term_ids.py:709-723 | dense ids: only the sequence moves, from wherever it stood, and is then past every id |
| `Renumber.TermIdDatabase.RecordRefusals` | backend/scripts/compact_bm25_term_ids.py:801-822 | no reason if and only if the record still fits |
| `Renumber.TermIdDatabase.Revert` | backend/scripts/compact_bm25_term_ids.py:786-864 | refused exactly when survey, record or aliasing forbid it, aborted exactly when a vector names an id no term holds, otherwise the recorded numbering is put back |
| `Renumber.TermIdDatabase.ApplyThenRevert` | backend/scripts/compact_bm25_term_ids.py:696-864 | apply, then revert: when both commit, every id and every stored vector is what it was at first, the record is gone, and only the epoch and the sequence have moved; the revert is refused exactly when an old id would alias |
| `Renumber.ApplyRelabelable` | backend/scripts/compact_bm25_term_ids.py:740-748 | the dense map can always be carried out, and aliases only past 2^30 terms |
| `Renumber.RevertRelabelable` | backend/scripts/compact_bm25_term_ids.py:829-851 | so can the revert map, and it labels every stored vector exactly when every stored id is known |
| `Renumber.RevertAliasing` | backend/scripts/compact_bm25_term_ids.py:573-582 | the bounds test on the mapping refuses a revert exactly when some term's old or given id is 2^30 or more |
| `EpochFence.StepKeepsInv` | backend/scripts/compact_bm25_term_ids.py:49-66 | registering, burning, encoding, storing, discarding, deleting, repairing, applying and reverting keep every stored vector faithful |
| `EpochFence.FenceKeepsMeaning` | backend/scripts/compact_bm25_term_ids.py:49-61 | over every interleaving each stored vector decodes to exactly what its text was encoded to |
| `EpochFence.PastBatchNeverStored` | backend/scripts/backfill_bm25_vector.py:350-369 | a batch holding an id from a past epoch is never stored |
| `EpochFence.StoreIffCurrent` | backend/scripts/backfill_bm25_vector.py:350-369 | a batch can be stored if and only if each of its items has ids of the current epoch or none, or the vectors are in a separate database |
| `EpochFence.StoreIsWhole` | backend/scripts/backfill_bm25_vector.py:350-369 | a stored batch is all there, the last item of a chunk winning; no other chunk and no id has changed |
| `EpochFence.OtherSteps` | backend/scripts/compact_bm25_term_ids.py:49-66 | what the remaining steps change: a registered term gets a new id above all others and none moves, a burnt id is nobody's, a deleted chunk is gone |
| `EpochFence.RenumberingsPossible` | backend/scripts/compact_bm25_term_ids.py:49-66 | beside the vocabulary apply can be made whenever there are terms, and revert whenever there is a record; elsewhere neither |
| `EpochFence.UnfencedStoreBreaks` | backend/scripts/compact_bm25_term_ids.py:49-61 | without the fence a store can make a chunk mean another text |
| `EpochFence.RevertUndoesApply` | backend/scripts/compact_bm25_term_ids.py:786-864 | after apply and any ordinary steps, revert gives every term of the first vocabulary the very id it held there, every newer term an id above all of those, keeps order and meaning, and the sequence continues |
| `EpochFence.RevertStillFits` | backend/scripts/compact_bm25_term_ids.py:801-822 | ordinary steps never invalidate the recorded mapping |
| `Checkpoint.LifeIsMonotone` | backend/scripts/bm25_sweep_checkpoint.py:36-72 | over every life of a row the sequence counts its changes, the cursor never falls, written never exceeds seen |
| `Checkpoint.LifeAddsUp` | backend/scripts/bm25_sweep_checkpoint.py:36-56 | between any two moments the row's `seen` and `written` grow by exactly the sums of the waves acknowledged in between |
| `Checkpoint.LifeKeepsLast` | backend/scripts/bm25_sweep_checkpoint.py:36-72 | the cursor is the last acknowledged wave's, the attempt the last claim's, and the row is exhausted exactly when an end has come |
| `Checkpoint.OwnerOnly` | backend/scripts/bm25_sweep_checkpoint.py:36-72 | only the attempt that claimed the row last can move it on or end it, and a wave only forward from where the row stands |
| `Checkpoint.ClaimsDiffer` | backend/scripts/bm25_sweep_checkpoint.py:139-154 | no attempt claims the row twice running |
| `Checkpoint.ExhaustedIsFinal` | backend/scripts/bm25_sweep_checkpoint.py:58-72 | nothing advances or resumes an exhausted sweep |
| `Checkpoint.StaleHandleIsFenced` | backend/scripts/bm25_sweep_checkpoint.py:36-56 | a handle behind the row never changes it again, whatever attempt ids are reused |
| `Checkpoint.SweepCheckpoint.Advance` | backend/scripts/bm25_sweep_checkpoint.py:36-56 | exactly an owner's valid wave changes the row, and exactly a delivered reply moves the handle |
| `Checkpoint.SweepCheckpoint.MarkExhausted` | backend/scripts/bm25_sweep_checkpoint.py:58-72 | exactly an owner ends the sweep, changing nothing else |
| `Checkpoint.OpenCheckpoint` | backend/scripts/bm25_sweep_checkpoint.py:75-174 | an opening succeeds if and only if its reply is delivered and the row, if any, has exactly this contract, is not exhausted and was last claimed by another attempt; the row it leaves and the handle it gives are given exactly |
| `Sweep.ChunkTable.Commit` | backend/scripts/backfill_bm25_vector.py:28-55 | a writer's rows appear with its start stamp, however late it commits |
| `Sweep.WriterLeaves` | backend/scripts/backfill_bm25_vector.py:28-55 | a writer that stores encodings leaves none of its rows stale; an older one keeps the encoding a row had, and owes a new row; no other row changes |
| `Sweep.PageOfRead` | backend/scripts/backfill_bm25_vector.py:474-480 | a page holds owed rows only, at most a batch of them, in key order, and leaves out no owed row up to its last key |
| `Sweep.SlicesConcat` | backend/scripts/backfill_bm25_vector.py:506-511 | cutting a page loses and reorders nothing |
| `Sweep.SlicesCount` | backend/scripts/backfill_bm25_vector.py:506-511 | the number of parts is the length over the size, rounded up |
| `Sweep.PartsCut` | backend/scripts/backfill_bm25_vector.py:506-511 | the parts of a page cut it up in order, each within the batch ceiling and the balanced size |
| `Sweep.OneWave` | backend/scripts/backfill_bm25_vector.py:506-515 | a batch ceiling of at least ceil(n / writers) leaves one wave |
| `Sweep.UpdateIsCurrent` | backend/scripts/backfill_bm25_vector.py:407-448 | the conditional update writes no encoding but that of the text the row holds then |
| `Sweep.StampIsIdentity` | backend/scripts/backfill_bm25_vector.py:407-436 | the rows an update hits end up encoded from their own text if and only if each matched stamp still stood for the text read under it |
| `Sweep.CountHits` | backend/scripts/backfill_bm25_vector.py:407-448 | what a statement counts is the number of rows it changed |
| `Sweep.ApplyOnce` | backend/scripts/backfill_bm25_vector.py:407-448 | one try: committed whole or not at all, leaving nothing it read unchanged and unencoded, and counting the rows hit |
| `Sweep.ApplyPart` | backend/scripts/backfill_bm25_vector.py:384-404 | one try of a statement with the rows as they were read: committed whole, given up, or to be tried again, five times at most |
| `Sweep.RunWave` | backend/scripts/backfill_bm25_vector.py:372-381 | at most `writers` statements, their tries interleaved in any order: a wave succeeds only when every one has committed, and counts exactly the rows each hit at its own commit; any failure is drained |
| `Sweep.CommittedPrefixIsSwept` | backend/scripts/backfill_bm25_vector.py:518-530 | once a wave has committed, everything up to its last key is done, whatever happened since the page was read |
| `Sweep.WaveStep` | backend/scripts/backfill_bm25_vector.py:512-532 | the cursor moves past a row only after its wave committed |
| `Sweep.RunParts` | backend/scripts/backfill_bm25_vector.py:501-533 | the waves of a page, none of more than `writers` statements, cover it in key order, and no wave of the pass is refused as out of order |
| `Sweep.Pass` | backend/scripts/backfill_bm25_vector.py:451-536 | ends although written rows stay owed; at the end of the keyspace every row is done, and the sweep's row in the progress table is exhausted with exactly the rows seen and written; it ends otherwise only if a statement failed, a reply was lost, or another attempt moved the row |
| `Sweep.Attempt` | backend/scripts/backfill_bm25_vector.py:690-717 | one attempt from the durable cursor, under the window the sweep was created with or refused by its contract, which may die anywhere; done means the sweep's row is exhausted, and not done that something struck or the opening is not admitted |
| `Sweep.RunSweep` | backend/scripts/backfill_bm25_vector.py:39-72 | over crashes, lost replies, rivals and late commits the durable cursor claims only done rows, and a finished sweep is marked exhausted and leaves no stale row and no open writer older than the protected instant; with nothing struck and no rival it does finish |
| `Sweep.CatchUp` | backend/scripts/backfill_bm25_vector.py:33-37 | a pass from that instant with writers drained leaves no stale row, and ends unless a statement fails |
| `Sweep.Drain` | backend/scripts/backfill_bm25_vector.py:33-37 | whatever writers still commit until none is open, no stale row is older than the instant |
| `Sweep.SweepThenCatchUp` | backend/scripts/backfill_bm25_vector.py:26-37 | a sweep, whatever commits late, and a catch-up: when both reach their end no row is stale, and they do unless something struck or a rival came between |
| `Sweep.ProtectedInstantIsExact` | backend/scripts/backfill_bm25_vector.py:60-68 | late commits leave no stale row older than the instant if and only if it is earlier than every open writer's start |
| `Sweep.LateCommitIsStale` | backend/scripts/backfill_bm25_vector.py:60-68 | a writer no younger than the instant can leave any encoded row stale where the catch-up does not look |
| `RunLock.StepKeepsInv` | backend/scripts/bm25_run_lock.py:55-98 | every step keeps the locks exclusive and each run's holdings as its stage says |
| `RunLock.StepKeepsSolo` | backend/scripts/bm25_run_lock.py:101-116 | at most one run that took both keys has a guard left, and only such a run works |
| `RunLock.MutualExclusion` | backend/scripts/bm25_run_lock.py:189-211 | no two operations are in progress together, and no recompute beside one, when no working run loses its last guard and every run that begins has a guard left and took its control key while its owner session was alive |
| `GuardLoss.DriveOut` | backend/scripts/bm25_run_lock.py:84-98 | from any stage a run can be brought to its end with everything given back |
| `GuardLoss.Breach` | backend/scripts/bm25_run_lock.py:101-116 | from any state with a run waiting on a lost, unnoticed owner session there is a way to two operations in progress |
| `GuardLoss.ExclusionIffOwnerAlive` | backend/scripts/bm25_run_lock.py:154-211 | for a run waiting for its control key, losing at most one session each is enough if and only if its owner session is alive |
| `GuardLoss.UnnoticedLossBreaksExclusion` | backend/scripts/bm25_run_lock.py:154-211 | from nothing, for either kind of run, a history with one lost session a run in which two operations are in progress |
| `RunLock.GuardOutlivesOperation` | backend/scripts/bm25_run_lock.py:119-151 | while an operation is in progress a lock goes only with its session; a cancellation reaches the operation once and is deferred |
| `GuardLoss.NoticedNeverStarts` | backend/scripts/bm25_run_lock.py:101-110 | over every history, once a termination listener of a run has fired, an operation it had not started never starts |
| `GuardLoss.NoticedStops` | backend/scripts/bm25_run_lock.py:101-116 | in every later state where that run still waits on its operation it is woken, and cancels it, once, if it still runs, and drains it |
| `GuardLoss.LossIsDrained` | backend/scripts/bm25_run_lock.py:101-137 | from any state with an operation in progress a listener that fires can be followed through the one cancellation and the drain to the clean-up, with both guards as they were |
| `GuardLoss.TurnedAwayNeverStarts` | backend/scripts/bm25_run_lock.py:70-83 | a run refused a lock, or cancelled before it started its operation, never starts it |
| `RunLock.UnlockFrees` | backend/scripts/bm25_run_lock.py:84-98 | an unlock frees just its lock, the control guard's before the owner's and the shared one before its key |
| `GuardLoss.NeverStranded` | backend/scripts/bm25_run_lock.py:101-151 | a run that is not over can take a step of its own or waits for its operation, which can end; a recompute can start exactly when none runs and nobody holds its key |
| `RunLock.FinishedHoldsNothing` | backend/scripts/bm25_run_lock.py:84-98 | on every exit path all locks are back and the operation is over |
| `Middleware.CallDrainsChildren` | backend/app/http_middleware.py:102-132 | the call ends only when both children have, each cancelled at most once |
| `Middleware.CancellationIsReraised` | backend/app/http_middleware.py:119-132 | a cancellation that arrived after the children started is what the call raises |
| `Middleware.NormalReturn` | backend/app/http_middleware.py:105-120 | a normal return means the request succeeded, or was cancelled because the client had gone |
| `Middleware.OutcomeIs` | backend/app/http_middleware.py:105-132 | what the call raises, exactly: a cancellation that arrived, or else what the request or the watcher that ended first decides |
| `Middleware.SuccessIsReturned` | backend/app/http_middleware.py:105-120 | a request that succeeded, with the watcher stopped or done and no cancellation of the call, makes it return normally |
| `Middleware.DisconnectIsHeard` | backend/app/http_middleware.py:93-132 | at the first wait a disconnect can always be followed through the request's one cancellation to the end of the call, which raises the request's failure or nothing |
| `Middleware.CancellationIsHeard` | backend/app/http_middleware.py:119-132 | at the first wait a cancellation of the call stops both children and is raised when they have ended |
| `Middleware.ChildlessOutcome` | backend/app/http_middleware.py:61-82 | without children: a disconnect before anything else returns with the application never started, a request with a body ends as the application does, and before the first message the call ends as that wait does |
| `Middleware.NeverStranded` | backend/app/http_middleware.py:121-130 | whatever is awaited is running freely or has been cancelled |
| `Middleware.FirstMessageOnce` | backend/app/http_middleware.py:68-98 | on either path the application is given what the client sent, as `DeliveredOk` says |
| `Middleware.BodylessDelivery` | backend/app/http_middleware.py:83-98 | the first message arrives first and once; a disconnect only after a real one |
| `Middleware.ReadsAreAnswered` | backend/app/http_middleware.py:83-98 | the application's first read is answered at once, and a later one exactly when a disconnect has been received, with that |
| `Middleware.BodyIsPassedOn` | backend/app/http_middleware.py:68-82 | with a body, every read is answered in turn with what the client sent |
| `Patterns.Search` | backend/app/logging_redaction.py:106-116 | the leftmost match from a position, or none at all |
| `Patterns.SubSplices` | backend/app/logging_redaction.py:106-116 | a pass replaces exactly its leftmost matches and leaves every other character in place |
| `Pulling.PullBad` | backend/app/logging_redaction.py:58-95 | a match left after one replacement, for this pattern or an earlier one, was there before it |
| `Redaction.SubCleans` | backend/app/logging_redaction.py:106-116 | a pass leaves nothing to do for itself and re-enables no earlier pass |
| `Redaction.CleanFixed` | backend/app/logging_redaction.py:106-116 | a pass over a clean text changes nothing |
| `Redaction.RedactedIsClean` | backend/app/logging_redaction.py:58-116 | no pattern matches the result except on redactions already made |
| `Secrets.NoTokenLeft` | backend/app/logging_redaction.py:88-92 | in characters: nowhere in the result does a known token prefix at a word boundary have 8 token characters after it |
| `Secrets.NoCredentialLeft` | backend/app/logging_redaction.py:82-85 | nowhere in the result is there `basic` or `bearer` at a word boundary, blanks, and 16 credential characters |
| `Secrets.HeadersRedacted` | backend/app/logging_redaction.py:67-75 | every `authorization` and `x-access-token` in the result with a separator and a value has `: <redacted>` and then a delimiter or the end |
| `Secrets.UserinfoRedacted` | backend/app/logging_redaction.py:60-64 | every `scheme://userinfo@` in the result has `<redacted>` for its userinfo |
| `Secrets.MatchesIffBegins` | backend/app/logging_redaction.py:58-92 | each pattern matches exactly where a secret of its kind, said in characters, begins |
| `Secrets.NoSecretUnchanged` | backend/app/logging_redaction.py:106-116 | a text with nothing that looks like a secret is left as it is |
| `Secrets.SpanIsSecret` | backend/app/logging_redaction.py:58-92 | a pass replaces secrets only, and each of them to its last character |
| `Secrets.WholeIsSpan` | backend/app/logging_redaction.py:58-92 | and wherever a secret stands whole, that is what its pass replaces there |
| `Secrets.OneSecret` | backend/app/logging_redaction.py:58-116 | a pass over a text with one secret of its kind puts that kind's mark where the secret was and keeps everything else |
| `Secrets.TokenRedacted` | backend/app/logging_redaction.py:88-92 | a text whose only secret is a token keeps everything but its tail, which becomes `<redacted>` |
| `Secrets.CredentialRedacted` | backend/app/logging_redaction.py:82-85 | likewise for a `basic` or `bearer` credential |
| `Redaction.RedactIdempotent` | backend/app/logging_redaction.py:106-116 | redacting twice is redacting once, on every text |
| `Redaction.PassesInOrder` | backend/app/logging_redaction.py:106-116 | started over after any of its passes, `redact` comes to the same end, so no pass may be moved before an earlier one |
| `Redaction.MatchTriggers` | backend/app/logging_redaction.py:97-103 | whatever a pattern matches, the gate sees |
| `Secrets.GateIff` | backend/app/logging_redaction.py:97-103 | the gate opens if and only if the text holds one of the markers, said in characters |
| `Redaction.UntriggeredUnchanged` | backend/app/logging_redaction.py:97-116 | a text without a trigger marker is left as it is |
| `Migration.PendingAscends` | backend/scripts/migrate_pgvector_to_seahorsedb.py:119-143 | the rows of a run are exactly those after the resume point, in id order |
| `Migration.NextBatch` | backend/scripts/migrate_pgvector_to_seahorsedb.py:145-160 | batches are the rows in order, none twice or left out, only the last short |
| `Migration.CrossingIsDue` | backend/scripts/migrate_pgvector_to_seahorsedb.py:426-430 | the modulus test fires whenever the count crosses a multiple |
| `Migration.DueIff` | backend/scripts/migrate_pgvector_to_seahorsedb.py:426-430 | a checkpoint is due if and only if checkpoints are on and the batch passed or reached a multiple, or everything counted has been seen |
| `Migration.BookedSound` | backend/scripts/migrate_pgvector_to_seahorsedb.py:379-430 | after a batch seen + failed are the rows read and fewer than `checkpoint_every` shipped rows lie beyond the checkpoint |
| `Migration.Migrator.Encode` | backend/scripts/migrate_pgvector_to_seahorsedb.py:301-342 | a batch goes on only with every row under the run's epoch or left out: one row of the payload for each row with a dense vector, under its own id and with ids exactly when it has terms, and the others lost |
| `Migration.Migrator.Ship` | backend/scripts/migrate_pgvector_to_seahorsedb.py:347-407 | each row shipped or given up, given up only if the target refused it, and what is counted is in the target, whatever of a refused batch had landed |
| `Migration.Migrator.Batch` | backend/scripts/migrate_pgvector_to_seahorsedb.py:300-430 | conservation, bounded rework, forward checkpoints on rows already attempted, exactly when due |
| `Migration.Migrator.Finish` | backend/scripts/migrate_pgvector_to_seahorsedb.py:433-442 | the last checkpoint, then success only if the epoch never moved; it may die before looking |
| `Migration.Migrator.Migrate` | backend/scripts/migrate_pgvector_to_seahorsedb.py:228-448 | when each return is taken; stopped as renumbered only if the epoch of the progress file, or without one that at the start, is past; stopped short only if the process was; what each run accounted for and began to ship, a row failing only for want of a dense vector or refused; a complete run accounts for every row, all that it and the runs it resumed from shipped is of one epoch, current at its end, and the whole target is so exactly when every start without a recorded epoch was clean; an early return is so exactly when the file's epoch is current |
| `Migration.EarlyReturnIffCurrent` | backend/scripts/migrate_pgvector_to_seahorsedb.py:251-267 | when a run with nothing pending and a dry run return, and that they are then over current ids if and only if the progress file's epoch is |
| `Migration.FinishedUnderTheOldNumbering` | backend/scripts/migrate_pgvector_to_seahorsedb.py:251-263 | a run, dry or not, that returns normally over ids of an old numbering |
| `Migration.RunCovers` | backend/scripts/migrate_pgvector_to_seahorsedb.py:104-160 | a run accounts for exactly the rows found ahead of the file up to one row, begins to ship them up to another, and moves the file only to a row accounted for |
| `Migration.LineageCovers` | backend/scripts/migrate_pgvector_to_seahorsedb.py:104-188 | across runs a row the file moved past was passed by one run, accounted for by it exactly when that run found it, and by some run exactly when that run or an earlier one that got as far found it; the same for rows begun to be shipped, in flight at a crash included |
| `Migration.InsertedBelowIsMissed` | backend/scripts/migrate_pgvector_to_seahorsedb.py:104-118 | a run that returns normally over a row below the file that no run of its lineage attempted |
| `Migration.WholeIffCleanStarts` | backend/scripts/migrate_pgvector_to_seahorsedb.py:191-211 | the whole target is of one numbering if and only if each start without a recorded epoch found only ids of the epoch it began under |
| `Migration.LegacyFileMixes` | backend/scripts/migrate_pgvector_to_seahorsedb.py:191-267 | a run that completes from a file without an epoch over ids since renumbered leaves two numberings in the target |
| `VaultBackfill.VectorIndex.SameInstance` | backend/scripts/backfill_vault_id.py:94-129 | ends with every owed point filled, nothing else touched, and the exact total |
| `VaultBackfill.VectorIndex.Separate` | backend/scripts/backfill_vault_id.py:132-149 | the same from a stream of sources |
| `VaultBackfill.VectorIndex.ApplyBatch` | backend/scripts/backfill_vault_id.py:76-91 | each point without a vault whose source is in the batch gets that source's vault, every other point is untouched, and the result is the number of points changed |
| `VaultBackfill.JoinIsFilled` | backend/scripts/backfill_vault_id.py:76-91 | filling every joined row and no other is filling from the batch's sources |
| `VaultBackfill.FillInParts` | backend/scripts/backfill_vault_id.py:94-129 | a run stopped anywhere and started again fills the same points and counts up to the whole |
| `VaultBackfill.FillFromParts` | backend/scripts/backfill_vault_id.py:132-149 | filling source batch by source batch is filling from all of them |
| `VaultBackfill.FilledIsFinal` | backend/scripts/backfill_vault_id.py:17-18 | run again, there is nothing to do |
| `VaultBackfill.BothWays` | backend/scripts/backfill_vault_id.py:94-149 | the two backfills leave the same points and report the same number |

## Left out

- `Sweep.CatchUp`: drained writers are modelled as no writer step at all; rival encoders still run. `Sweep.Drain` is how they come to be drained.
- `Sweep.RunSweep`: pauses between waves, tokenizer processes and the printed next window have no effect on the rows and are not modelled.
- `RunLock.MutualExclusion`: covers `run_exclusive` and `run_bulk_exclusive` each on its own keys; the nesting of one inside the other and the JSON announcement are not modelled. A recompute counts as running while it holds its lock.
- `Middleware.CallDrainsChildren`: counts the middleware's own cancellations; a task the application cancels for reasons of its own (a timeout inside the request) is not modelled beyond ending cancelled.
- `Migration.Migrator.Migrate`: one target and one progress path, whose file may be lost or hold no epoch. The driver check before the first row is not modelled. Logging, rates and the dense payload are not modelled.
- `VaultBackfill.VectorIndex.Separate`: asks that no source id come with two vaults; UUIDs are unique across the three source tables.
- `Redaction.RedactIdempotent`: `SecretRedactingFilter`, the handler tree and traceback rendering are not modelled; only the patterns, their application and the trigger test are.
- `Renumber.TermIdDatabase.Apply`: locks and their timeouts, VACUUM, ANALYZE and metapage text are not modelled; one transaction is one step. Term ids are unbounded integers, with the 2^30 aliasing bound explicit.
- `EpochFence.FenceKeepsMeaning`: the shared and exclusive fence locks appear only through the rule they enforce, that a store commits under its ids' epoch or not at all.
- Sampling of baseline queries: every property is for all queries.
- Kiwi tokenization, BM25 floating point and HNSW indexes: library internals.
- Option parsing, report rendering, connection pools and schemas: no hard property.
- `NoStorePublicSurfacesMiddleware` and the read-path pattern: single-branch facts.

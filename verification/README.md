# A verified model of the price-observation ledger

The repository keeps card prices in an append-only ledger: raw artifacts are fetched, parsed into
records, candidates and identity resolution attempts, and confirmed into price observations under an
idempotency key. This project models that ledger, its generator, its workload and its queries in
Dafny, with the worker heartbeat and the branch ruleset tool beside it, and proves what the
repository relies on them for.

## How it is laid out

| file | what it holds |
|---|---|
| Schema.dfy, Collation.dfy, Store.dfy | the tables and constraints, how each engine compares text, and any number of transactions over them |
| Hash.dfy, Text.dfy, Generate.dfy, Files.dfy, Seeded.dfy | the deterministic generator, the loops that write its files, and its properties |
| Workload.dfy, Spaces.dfy, Jobs.dfy | identifiers, batches and reparses, and why they never collide |
| Programs.dfy, Ledger.dfy, Liveness.dfy | writers, restarts, commits, aborts, orphaned transactions and crashes as one machine, and what can always still be written |
| Trace.dfy, Identity.dfy, Columns.dfy | the trace, the confirmed attempt, and what stored rows say of themselves and of each other |
| Append.dfy, Writer.dfy, Solo.dfy, Ingestion.dfy, Integrity.dfy | the append forms and the loops over one connection, and their tie to the concurrent store |
| Review.dfy, Queries.dfy, Answers.dfy, Percentile.dfy | review decisions, the two query dialects and what they answer, the statistics |
| Heartbeat.dfy, Ruleset.dfy | the worker's liveness, the ruleset commands |

A database is a set of rows. PostgreSQL compares text exactly; MariaDB compares what its collation
makes of it, in unique keys, checks and queries, and the collation is a parameter. `Store` fixes the
rules the code relies on from both engines: immediate constraint checks, a duplicate of an
uncommitted row waits, an unfinished transaction leaves nothing. Its transactions insert plainly,
with ON CONFLICT, or the MariaDB way: many rows in one statement and, after a duplicate, one
savepoint per row on top of whatever the failed statement left behind.
`Ledger` runs the real batches under those rules on either engine. Its invariant is that the
committed rows are the seed plus the rows of the committed batches; every constraint, the trace and
the confirmed attempt follow from the key space each batch keeps to; `Liveness` shows that the machine
is never stuck, and `Columns` what holds of every row it ever stores. `Append` and `Writer` treat the
two engines' insert forms as code over one connection and tie them to the same declarative table;
`Solo` shows that a session alone in `Store` does what that code does.

Preconditions the code depends on without checking them are explicit in `Ledger.CanMove` and
`Jobs.Valid`: one live process per writer id below 100, id 41 only for reparsing, at most 60 records
a batch, sequence numbers below 49,872,897, and reparsing on its writer's first run. What happens
just past the last three is proved too (`SixtyRecordsIsTheLimit`, `SequenceLimitIsExact`,
`SecondReparseIsRefused`). Scales are all positive numbers, with 1071 proved to be the last that
works; the repository's own profiles are 1 and 10. MariaDB's databases are created with
utf8mb4_unicode_ci and its tables take the default of their character set; the ledger needs that
this folds no more than case on visible ASCII text (`Collation.Discerning`), and then nothing the
generator or the writers store under a unique key is folded together. For any text and any collation,
`Append`, `Writer` and `Queries` say exactly when the two engines and the two dialects agree.

Where code and documentation differ, the code is followed: `observation_fields` says the generator
reads the fields from it, while `gen_price_observation` computes them again (`Jobs.ReparseRepeats`
shows that they agree); `reparse_batches` promises the keys of the first pass but derives new ones,
so `_reparse_batch` is the reparse modelled here; `write_batch` and its callers report rows offered.

Check the whole project with `dafny verify dfyconfig.toml`.

## Model

| member | source | states |
|---|---|---|
| Ledger.EveryRunIsSound | scripts/db_poc/dbpoc/workload.py:192-316 | on either engine, under any collation that keeps visible ASCII apart but for case, from the loaded seed, under every interleaving of batches, reparses, commits, aborts, killed processes, orphaned transactions, crashes and restarts, the committed tables satisfy every modelled constraint, repeated columns agree, and they hold the seed plus exactly the committed batches, each whole |
| Ledger.NoBatchIsRejected | scripts/db_poc/dbpoc/workload.py:143-169 | in every reachable state, on either engine, the next statement of a live batch is never refused: it is stored, or is a reparsed observation and is passed over or sends the many-row statement to its savepoint loop, or it waits, and then for a row an orphaned transaction holds |
| Ledger.MoveKeepsSound | scripts/db_poc/dbpoc/workload.py:35-48 | each single move of the machine (start through `next_sequence`, begin, statement, commit, abort, crash, kill, reaping an orphan) keeps the invariant |
| Ledger.BatchCommits | scripts/db_poc/dbpoc/workload.py:319-329 | with no orphan about, a batch that is begun and not interfered with runs to its end and enters the log, through the savepoint loop where it has to; its process is then at that sequence number and nothing else has changed |
| Ledger.EveryLiveBatchCanCommit | scripts/db_poc/dbpoc/workload.py:319-329 | from every reachable state the server can roll the orphans back and every live batch can get through: then nothing is open and the log is what it was and exactly these batches |
| Ledger.RestartsAfterTheLast | scripts/db_poc/dbpoc/workload.py:39-48 | `next_sequence` in any reachable state is the highest sequence number that writer committed, 0 before the first |
| Ledger.SecondReparseIsRefused | scripts/db_poc/dbpoc/ingest.py:160-185 | reparsing leaves no runs, so its writer always resumes at 0, and an artifact reparsed before is refused as a duplicate at its first statement |
| Liveness.ResumesAfterTheLast | scripts/db_poc/dbpoc/workload.py:39-48 | in every reachable state a process that is started resumes at a sequence number its writer committed, or at 0; no committed batch of that writer lies above, and nothing else changes |
| Liveness.LiveWriterGoesOn | scripts/db_poc/dbpoc/ingest.py:69-77 | from every reachable state a live writer between transactions can get any valid batches with rising numbers beyond its own committed, one after the other without a restart, and the log gains exactly these |
| Liveness.EveryBatchCanBeWritten | scripts/db_poc/dbpoc/ingest.py:57-77 | from every reachable state, whoever is writing or has died, any valid batches with rising numbers beyond all a writer has committed can still be committed, by a process that is started for it; for a reparse if none was committed before |
| Liveness.CrashLosesTheOpen | scripts/db_poc/dbpoc/crash.py:92-130 | after a crash of the server nothing is open and the committed rows are the seed and the logged batches as before |
| Liveness.KillLeavesAnOrphan | scripts/db_poc/dbpoc/crash.py:72-89 | killing a process leaves its open transaction behind as an orphan with all its rows, for the server to roll back, and nothing of it committed |
| Ledger.TraceIsAlwaysOneLine | scripts/db_poc/dbpoc/queries.py:126-141 | in every reachable state the trace join of a stored observation has exactly one line, ending at its own artifact and source and passing a candidate with its own price |
| Identity.EveryObservationIsConfirmed | scripts/db_poc/dbpoc/workload.py:255-267 | in every reachable state the candidate of a stored observation has exactly one confirmed attempt, and it names the observation's card |
| Columns.EveryRowSpeaks | scripts/db_poc/dbpoc/workload.py:228-287 | in every reachable state each stored observation's key takes apart into the slug of its source, its own price type and condition and the day of its own time, in yen between 50 and 499,999; each review is decided and names an attempt, or pending and names a record; each attempt is confirmed with at least 0.97 or rejected below 0.8 |
| Columns.KeyNamesTheSource | scripts/db_poc/dbpoc/workload.py:205-275 | in every reachable state the slug in an observation's key is that of the stored source row |
| Columns.EveryReviewIsAbout | scripts/db_poc/dbpoc/generate.py:525-554 | in every reachable state a pending review names a stored record of its own artifact, and a decided one a stored rejected attempt of a candidate of such a record |
| Columns.SeenOnItsDay | scripts/db_poc/dbpoc/generate.py:438-441 | a generated observation is stamped between three and four in the morning of the day its ingest run's number stands for, and carries the source whose turn that run was; likewise in the history |
| Columns.SeedReviewsEveryTenth | scripts/db_poc/dbpoc/generate.py:527-554 | a record of the window is reviewed, by itself or through its rejected attempt, if and only if its index is a multiple of ten |
| Columns.BatchReviewsEveryTenth | scripts/db_poc/dbpoc/workload.py:280-285 | a record of a batch is reviewed if and only if its index is a multiple of ten |
| Columns.SeedRejectsAnother | scripts/db_poc/dbpoc/generate.py:383-419 | both attempts of a generated line are at the candidate of that line, and the rejected card is never the confirmed one |
| Columns.RejectsAnother | scripts/db_poc/dbpoc/workload.py:254-267 | in a batch they differ if and only if the number of cards is neither 1 nor 7 |
| Trace.TraceIsOneLine | scripts/db_poc/dbpoc/queries.py:126-141 | constraints plus agreeing copies make the six-way join of an observation single-valued and consistent with the columns the observation repeats, its price and price type included |
| Collation.CasedClash | scripts/db_poc/dbpoc/bootstrap.py:40-41 | rows whose unique texts keep to one case each clash under a case-folding collation only if they clash exactly |
| Collation.CaseBlindDiscerns | scripts/db_poc/bin/instances.sh:118-119 | folding case and trailing blanks is such a collation, and does take "jpy " for "JPY" |
| Seeded.LineIsCased | scripts/db_poc/dbpoc/generate.py:117-560 | every generated unique text keeps to one case, the condition at the end of a key apart |
| Jobs.RowIsCased | scripts/db_poc/dbpoc/workload.py:192-295 | so does every text a batch or a reparse writes |
| Store.ConstraintsAlwaysHold | scripts/db_poc/dbpoc/schema.py:86-358 | for sessions running any statements at all in any of the forms, under any schedule, committed rows and every session's view satisfy all modelled primary, unique, foreign key and check constraints |
| Store.OneRowPerOfferedKey | scripts/db_poc/dbpoc/integrity.py:111-152 | however many sessions offer one idempotency key, in whatever form, at most one committed row ever has it; from the commit of a session that offered it onwards exactly one has, unless that session appended the MariaDB way and the row's identifier went to a row with another key |
| Store.SavepointKeepsKey | scripts/db_poc/dbpoc/workload.py:156-169 | a savepoint statement that neither waits nor fails leaves the offered key stored if and only if the key was stored before or the identifier was free |
| Store.OfferIsSafeExactly | scripts/db_poc/dbpoc/workload.py:143-169 | if nobody offers its identifier under another key, an offered observation has its key stored at every commit under every schedule if and only if its identifier was free, or its key stored, to begin with |
| Store.LosingRunLoses | scripts/db_poc/dbpoc/workload.py:156-169 | the losing input: where the identifier is taken, a session appending the row the MariaDB way reaches its commit and adds nothing |
| Append.PostgresStoresNewRows | scripts/db_poc/dbpoc/workload.py:115-151 | the ON CONFLICT form is the left fold of insert-if-absent, with its count, duplicates inside the batch included; otherwise it raises at the first row that is not storable |
| Append.EnginesAgree | scripts/db_poc/dbpoc/workload.py:143-169 | the savepoint loop ends in the same table as the ON CONFLICT form, or raises the same failure at the same row, if and only if the batch is portable: a row PostgreSQL refuses is refused by MariaDB too, not for a reused identifier and not changed by folding, and if none is refused no key folds to another one |
| Append.MariaIsTheLoop | scripts/db_poc/dbpoc/workload.py:151-169 | whatever a failed many-row statement left behind, the MariaDB form is the savepoint loop over the table as it was: same table or same failure, and a count short by exactly the rows left behind |
| Append.LoopStores | scripts/db_poc/dbpoc/workload.py:156-169 | what the loop stores, identifiers reused or not: offered rows that clash with nothing stored, so many that every offered row clashes with a stored one, and the count is their number |
| Append.IntolerableRowRaises | scripts/db_poc/dbpoc/workload.py:152-169 | the MariaDB form raises a failure at a row, whatever was left behind, if and only if the loop gets to that row and its table refuses it for that reason, not for a duplicate |
| Append.ReusedIdentifierIsLost | scripts/db_poc/dbpoc/workload.py:131-140 | with one identifier under two keys PostgreSQL refuses the batch while the MariaDB form reports success and loses the second row |
| Append.FoldedKeyIsLost | scripts/db_poc/dbpoc/bootstrap.py:40-41 | with two keys the collation takes for one PostgreSQL stores both rows while the MariaDB form reports success and loses the second |
| Writer.FormsAgree | scripts/db_poc/dbpoc/workload.py:143-169 | both forms of `insert_observations` as the connection runs them, for any collation and everything a failed statement can leave: same table or failure if and only if the batch is portable; and what MariaDB stores and counts where it finds every row fine |
| Writer.LeftBeforeFailure | scripts/db_poc/dbpoc/workload.py:153-156 | rows left behind by a failed statement all precede the row it failed at |
| Writer.PlainStoresAll | scripts/db_poc/dbpoc/workload.py:149-151 | without the idempotent form a batch is stored and counted whole, on either engine, if and only if every row passes its checks, finds its references and has a key and an identifier that neither the table nor an earlier row has; else it is refused, at the first row of which that fails and for that reason |
| Writer.NothingNew | scripts/db_poc/dbpoc/workload.py:143-169 | a batch whose keys are all stored changes nothing and counts 0 on either engine, whatever was left behind |
| Writer.TransactionsAgree | scripts/db_poc/dbpoc/workload.py:298-316 | a whole `write_batch` commits the same rows on both engines or fails alike at the same row, for any collation and everything a failed statement can leave, if and only if folding changes no plain statement's checks or keys, a refused observation is refused alike, and no observation key folds to another one unless the reviews end the transaction anyway |
| Solo.AppendAlone | scripts/db_poc/dbpoc/workload.py:143-169 | a session of the concurrent store that appends with nobody else about ends in the table of `insert_observations` on one connection, for rows a failed statement can leave, and dies where that raises |
| Writer.Connection.ExecuteMany | scripts/db_poc/dbpoc/workload.py:151-156 | one statement over many rows: its count and table, or its failure with what each engine leaves of it |
| Writer.Connection.InsertObservations | scripts/db_poc/dbpoc/workload.py:143-169 | the fast path and the savepoint loop compute the form of their engine and leave the savepoints as they were; without the idempotent form the answer is the number of rows and all are in the view, exactly when nothing stands in their way, and otherwise an error; on PostgreSQL an error leaves the view as it was |
| Writer.Connection.InsertTables | scripts/db_poc/dbpoc/workload.py:298-308 | plain tables in dependency order: all rows and the offered counts, or the first failure |
| Writer.Connection.WriteBatch | scripts/db_poc/dbpoc/workload.py:298-316 | the table after a prepared batch, or its failure, for an admissible leaving of the failed statement; the counts reported are the rows offered, not the rows inserted |
| Writer.Connection.WriteAndCommit | scripts/db_poc/dbpoc/workload.py:319-329 | the caller's transaction: the whole batch is committed, as its form says for an admissible leaving, or the committed rows are exactly those before it |
| Workload.BuildBatch | scripts/db_poc/dbpoc/workload.py:192-295 | the one pass over the records builds the lists given record by record, two attempts for each and a review for every tenth; what those rows say is stated by Columns.EveryRowSpeaks, Jobs.FitsWhereItGoes and Columns.BatchReviewsEveryTenth |
| Workload.BuildReparse | scripts/db_poc/dbpoc/ingest.py:97-157 | the pass over a stored artifact's rows builds the four lists and the processing run of its reparse |
| Workload.NextSequence | scripts/db_poc/dbpoc/workload.py:39-48 | no run of the writer lies above it, and a run with exactly that number exists unless it is 0 |
| Spaces.TagsApart | scripts/db_poc/dbpoc/workload.py:19-36 | rows written under different writers or sequence numbers never share a primary or a unique key |
| Spaces.SeedApart | scripts/db_poc/dbpoc/workload.py:19-32 | no row written at runtime shares a primary or unique key with a seed row |
| Spaces.ContentHashCollides | scripts/db_poc/dbpoc/workload.py:215-218 | two runtime artifacts have one content hash exactly when their identifiers agree modulo 2^32 |
| Spaces.ContentHashesDistinct | scripts/db_poc/dbpoc/workload.py:211-219 | for writers below 100 and sequence numbers less than 14,898,176 apart, so for 1 to 14,898,176, two content hashes are equal only for the same writer and number |
| Spaces.ContentHashRepeats | scripts/db_poc/dbpoc/workload.py:211-219 | sequence number 14,898,177 of one writer repeats the hash of number 1 of another, under a different source |
| Spaces.SourceHashesDistinct | scripts/db_poc/dbpoc/schema.py:177-177 | up to sequence number 49,872,896 source and hash together are equal only for the same writer and number |
| Spaces.SequenceLimitIsExact | scripts/db_poc/dbpoc/schema.py:177-177 | at 49,872,897 two artifacts do clash on it |
| Spaces.RuntimeHashIsNew | scripts/db_poc/dbpoc/generate.py:187-205 | no runtime hash equals the digest of a generated or history artifact |
| Jobs.OwnsItsRows | scripts/db_poc/dbpoc/workload.py:35-36 | every stored row of a batch or reparse keeps to the key space of its writer and sequence number |
| Jobs.RowsDiffer | scripts/db_poc/dbpoc/workload.py:192-295 | two rows of one batch never claim the same primary or unique key |
| Jobs.RefsAvailable | scripts/db_poc/dbpoc/workload.py:298-316 | whatever a row refers to is in the seed or was inserted earlier in the same batch |
| Jobs.FitsWhereItGoes | scripts/db_poc/dbpoc/workload.py:206-277 | the source, artifact, run, shop, amount, currency and price type a row repeats agree with the rows it refers to |
| Jobs.SixtyRecordsIsTheLimit | scripts/db_poc/dbpoc/workload.py:222-227 | a batch runs into the identifiers of its writer's next batch if and only if it has more than 60 records |
| Jobs.ReparseRepeats | scripts/db_poc/dbpoc/generate.py:428-480 | reparsing derives the stored observation again in every modelled column, its idempotency key included, except for its identifier and candidate |
| Jobs.ReparseReadsAgain | scripts/db_poc/dbpoc/ingest.py:105-135 | what a reparse stores is read off that observation: the candidate repeats its price, price type, source and shop, in a record of its artifact, and the attempt confirms its card |
| Ingestion.BatchInOrder | scripts/db_poc/dbpoc/workload.py:298-316 | the lists of `build_batch`, in the order `write_batch` takes them, are the program the ledger runs |
| Ingestion.BatchGoesThrough | scripts/db_poc/dbpoc/workload.py:298-316 | on any reachable committed state a batch under a new tag stores all its rows and nothing else, on both engines and in the plain as in the idempotent form |
| Ingestion.ReadNextSequence | scripts/db_poc/dbpoc/workload.py:39-48 | the MAX over the stored runs computes `next_sequence` |
| Ingestion.DailyIngest | scripts/db_poc/dbpoc/ingest.py:51-95 | the daily loop commits one whole batch per artifact from the sequence number reached and reports 309 rows for each; every table has grown by its share of these, under run numbers following the last, and the new observations carry the time given and cards their records' hashes pick among all the cards of the scale |
| Ingestion.ReparseGoesThrough | scripts/db_poc/dbpoc/ingest.py:172-188 | one stored artifact adds its 181 rows; its 60 observations are all passed over, on both engines |
| Ingestion.ReparseTableCount | scripts/db_poc/dbpoc/ingest.py:195-196 | per table: 1 processing run, 60 records, 60 candidates, 60 attempts, no observation |
| Ingestion.ReparseAll | scripts/db_poc/dbpoc/ingest.py:160-215 | after any number of artifacts the observations are exactly those before, none counted as inserted, and every other table has grown by its share of 1 + 3 * 60 per artifact |
| Integrity.ConstraintCase | scripts/db_poc/dbpoc/integrity.py:173-193 | a transaction whose second row breaks a constraint, a missing currency included, leaves no trace of its valid first row |
| Integrity.SequentialCase | scripts/db_poc/dbpoc/integrity.py:83-108 | offering one key twice stores one row, the first, and a plain third attempt is refused |
| Review.SingleWinner | scripts/db_poc/dbpoc/integrity.py:244-297 | for any deciders and schedule: at most one commits a one-row update, only of a pending item; `lock_version` counts the wins; once any decider commits, a pending item has its one winner |
| Review.DecidedStays | scripts/db_poc/dbpoc/integrity.py:244-265 | an item that is no longer pending is never changed by a decider |
| Hash.HInverts | scripts/db_poc/dbpoc/generate.py:74-81 | an explicit inverse undoes `h` on 32-bit words, and `h` sees its argument modulo 2^32 |
| Hash.HIsOnto | scripts/db_poc/dbpoc/generate.py:74-81 | every 32-bit word is a hash |
| Hash.HCollides | scripts/db_poc/dbpoc/generate.py:74-81 | two arguments collide if and only if they agree modulo 2^32 |
| Text.KeyRoundTrip | scripts/db_poc/dbpoc/generate.py:423-425 | splitting an idempotency key on the bar and reading the decimals gives back its six fields when no text field has a bar |
| Text.KeyInjective | scripts/db_poc/dbpoc/generate.py:423-425 | so such keys determine their fields |
| Text.KeyIsAmbiguousExactly | scripts/db_poc/dbpoc/generate.py:423-425 | other fields have the same key if and only if the price type, date or condition has a bar, or the slug ends in a bar and a number or holds two numbers between bars |
| Generate.PriceFor | scripts/db_poc/dbpoc/generate.py:94-104 | a price is at least 50 and below 500,000 |
| Columns.PriceTiers | scripts/db_poc/dbpoc/generate.py:94-104 | of the thousand values of the first hash 700 give prices up to 1,249, 250 from 1,200 to 13,199, 49 from 13,000 to 102,999 and one from 100,000 |
| Files.GenChunked | scripts/db_poc/dbpoc/generate.py:271-318 | the loop of the five plain generators writes every line of both parts once, in order, and counts them |
| Files.GenIngestRun | scripts/db_poc/dbpoc/generate.py:139-169 | days and slots, then days and shops, written at the end: every run once, in order of its number |
| Files.GenRawArtifact | scripts/db_poc/dbpoc/generate.py:172-213 | chunks, then days and shops on top of the unflushed chunk: every artifact once, in order |
| Files.GenProcessingRun | scripts/db_poc/dbpoc/generate.py:216-246 | likewise with one history loop |
| Files.GenAttempts | scripts/db_poc/dbpoc/generate.py:376-420 | two lines an entry: every attempt once, confirmed before rejected |
| Files.SeedIsTheFiles | scripts/db_poc/dbpoc/generate.py:117-560 | the seed the ledger starts from is the lines of these files, with the sources and shops beside them |
| Seeded.SeedConsistent | scripts/db_poc/dbpoc/generate.py:117-560 | up to scale 1071 the seed, loaded with foreign keys off, satisfies every constraint |
| Seeded.ScaleIsTheLargest | scripts/db_poc/dbpoc/generate.py:29-30 | beyond it, it never does: generated and history identifiers overlap |
| Seeded.SeedDistinct | scripts/db_poc/dbpoc/generate.py:117-560 | no two lines of any files claim one primary or unique key |
| Seeded.ReferencesStored | scripts/db_poc/dbpoc/generate.py:172-560 | every reference of every line is the key of a line |
| Seeded.SeedCoherent | scripts/db_poc/dbpoc/generate.py:172-560 | source, artifact and run agree along the chain from every observation and review back to its run, an observation's price is its candidate's, and an attempt a review names is a rejected one |
| Queries.LatestAgree | scripts/db_poc/dbpoc/queries.py:24-66 | DISTINCT ON and ROW_NUMBER = 1 pick the same rows, in whatever order each engine scans the table |
| Answers.Query01Answers | scripts/db_poc/dbpoc/queries.py:17-66 | either dialect answers about the card's buying prices in yen whose corrections end in a restore or are none: the number of shops with one, the highest, lowest and median amount among the prices of each shop with none later, or as late and under a higher identifier, and the latest time of any; a count of 0 and nothing else where there is none |
| Answers.Query02Answers | scripts/db_poc/dbpoc/queries.py:68-112 | a card asked about has a line in either dialect if and only if it has such a price in any currency, and the line says the same of these |
| Answers.OnlyCardsAsked | scripts/db_poc/dbpoc/queries.py:68-112 | no other card has a line |
| Queries.Query01Picks | scripts/db_poc/dbpoc/queries.py:24-66 | over one table, scanned in any order, both dialects of QRY_01 pick the same rows if and only if every row MariaDB picks has the asked price type and currency exactly, and not just folded |
| Queries.Query01Agrees | scripts/db_poc/dbpoc/queries.py:24-66 | then they give the same count, extremes, median and freshness, empty results included (what these are is stated by Answers.Query01Answers) |
| Queries.FoldedPricesCount | scripts/db_poc/dbpoc/queries.py:24-66 | MariaDB's QRY_01 never counts fewer shops than PostgreSQL's, and as many exactly when every shop with a folded price has an exact one |
| Queries.Query02Picks | scripts/db_poc/dbpoc/queries.py:68-112 | likewise for QRY_02, by card and shop, with the price type |
| Queries.Query02Agrees | scripts/db_poc/dbpoc/queries.py:68-112 | then both dialects list the same cards with the same lines (Answers.Query02Answers states what is in them) |
| Queries.LatestOfOneCard | scripts/db_poc/dbpoc/queries.py:24-112 | what QRY_02 picks for a card and what QRY_01 picks are the same rows if and only if each shop's newest row of that card is in yen |
| Queries.ManyCardsAsOne | scripts/db_poc/dbpoc/queries.py:24-112 | then the card's line in QRY_02 is QRY_01's answer, and it is missing exactly when QRY_01 counts no shop |
| Queries.CurrencyMatters | scripts/db_poc/dbpoc/queries.py:68-78 | in any table a newest row in another currency is in QRY_02 and not in QRY_01; QRY_02 never counts fewer shops, and as many exactly when every shop it counts has some price in yen |
| Queries.WithdrawalFallsBack | scripts/db_poc/dbpoc/queries.py:17-41 | a withdrawn observation's shop falls back to the one of its others observed last, of those observed together the one with the highest identifier, and no other shop's row changes |
| Queries.OldWithdrawalIsUnseen | scripts/db_poc/dbpoc/queries.py:17-41 | withdrawing one that was not its shop's latest changes no answer |
| Queries.RestoreGivesBack | scripts/db_poc/dbpoc/queries.py:17-22 | after any corrections of one effective observation ending in a restore both dialects answer as before |
| Percentile.PercentileMonotone | scripts/db_poc/dbpoc/util.py:61-72 | a percentile lies between the extremes and grows with pct |
| Percentile.PercentileForgetsOrder | scripts/db_poc/dbpoc/util.py:61-72 | reordering the values changes no percentile and no median |
| Percentile.HalfIsMedian | scripts/db_poc/dbpoc/util.py:61-72 | at 0.5 it is the median |
| Percentile.PercentileLies | scripts/db_poc/dbpoc/util.py:61-72 | at (k + t) / (n - 1) the percentile of n values is (1 - t) times the k-th plus t times the next in ascending order |
| Percentile.SummaryIs | scripts/db_poc/dbpoc/util.py:75-86 | the summary counts the values, reports their least and greatest, and the median and both percentiles lie where they should among the values in ascending order |
| Percentile.MeanTimesCount | scripts/db_poc/dbpoc/util.py:75-86 | the mean times the count is the sum |
| Percentile.SummaryOrdered | scripts/db_poc/dbpoc/util.py:75-86 | min <= median <= p95 <= p99 <= max, and the mean between the extremes |
| Heartbeat.TenSecondsOfSlack | src/card_pulse/entrypoints/settings.py:102-104 | the staleness limit leaves a given slack beyond every positive interval if and only if the slack is at most ten seconds |
| Heartbeat.NeverReportedStale | src/card_pulse/entrypoints/worker/service.py:59-76 | from its first heartbeat a worker with at most ten seconds outside its wait is alive to the health check whatever its probes say; a reader never finds a partial heartbeat |
| Heartbeat.StoppedIsReported | src/card_pulse/entrypoints/worker/healthcheck.py:46-61 | a worker that is gone is reported exactly from the moment the limit is passed, and ever after |
| Heartbeat.ExitCodes | src/card_pulse/entrypoints/worker/healthcheck.py:46-61 | the health check exits 2 if and only if the interval set is no number above zero, 0 if and only if it is and the file is a whole heartbeat no older than three intervals or fifteen seconds, whichever is longer, and otherwise 1 |
| Heartbeat.BeatsAreApart | src/card_pulse/entrypoints/worker/service.py:68-74 | the next heartbeat is stamped at least an interval after the last |
| Heartbeat.Directory.WriteHeartbeat | src/card_pulse/entrypoints/worker/service.py:45-56 | killed after any number of steps, the published file is the previous one until the last step and the whole new one after it |
| Ruleset.NoDifferenceExactly | scripts/ruleset.py:122-144 | no difference is reported if and only if the other declared fields and the two by-type rule maps agree |
| Ruleset.EachTypeIsNamedOnce | scripts/ruleset.py:135-143 | a rule type is named by exactly one line when the sides differ on it, else by none |
| Ruleset.ReportSays | scripts/ruleset.py:122-144 | which lines a report has, one if-and-only-if for each of the four kinds: a field or a rule type with the committed and the enforced value on their own sides, a rule only committed, a rule only enforced |
| Ruleset.OrderDoesNotMatter | scripts/ruleset.py:122-144 | rules of distinct types may be listed in any order on either side |
| Ruleset.SortSorts | scripts/ruleset.py:80-85 | declaring orders the rules by type and keeps every one |
| Ruleset.ByTypeSort | scripts/ruleset.py:111-112 | ordering never changes which rule counts for a type, repeated types included |
| Ruleset.FindDifferences | scripts/ruleset.py:122-144 | the two loops produce that report |
| Ruleset.Repository.Check | scripts/ruleset.py:147-172 | exit 2 if and only if the file does not load, that is lacks the rules or one of the other four fields; exit 0 if and only if it loads, a ruleset of its name is enforced, the two agree and nobody can bypass it |
| Ruleset.Repository.Apply | scripts/ruleset.py:175-187 | from any state a loadable file ends in agreement and exit 0; the enforced ruleset restates the file with no bypass actors, and no other ruleset is touched |
| Ruleset.Repository.Export | scripts/ruleset.py:190-199 | the written file restates the enforced ruleset and nothing besides, its rules in order of their types; it agrees with what is enforced if and only if no declared field is missing there |

## Left out

- Store.Answer: does not model which failure an engine reports when a row breaks several constraints at once; here a check comes before a duplicate and a duplicate before a missing reference.
- Store.ConstraintsAlwaysHold: does not model NOT NULL on columns other than the currency of candidates and observations, nor the tables card_external_reference and price_observation_correction.
- Collation.Discerning: is a hypothesis about the server's collation; MariaDB's weight tables are not modelled, so it is not derived from them.
- Schema.Same: does not model the blank padding of PostgreSQL's CHAR columns; content hashes fill theirs, and padding does not change whether a currency is JPY.
- Ledger.NoBatchIsRejected: does not model the gap and next-key locks InnoDB keeps after a duplicate error, which can make a live batch wait for another live one.
- Ledger.EveryRunIsSound: does not model the transaction of a killed process committing late; it holds its rows until the server notices, and is then rolled back.
- Jobs.ReparseRepeats: does not model `collected_at` and `created_at`, which differ between the seed's row and the reparsed one.
- Ingestion.DailyIngest: does not model readers and other writers running at the same time; the ledger machine covers interleaved writers.
- Files.GenChunked: does not model the text of a line, only which line goes where.
- Queries.Query01Agrees: does not model rounding of the median to the engines' numeric types; medians are reals.
- Ruleset.Repository.Apply: does not model GitHub storing anything other than what it is sent, nor a failing API call.
- Heartbeat.NeverReportedStale: does not model clock adjustments; the worker and the health check read one clock.
- Calendar text: a date is its day number, and its decimal stands for the year-month-day text in keys.
- Card UUIDs: the index of a card stands for its UUID.
- Columns no property reads: URLs, payload JSON, locators, confidence, warnings, timestamps other than `observed_at`.
- Corrections as rows of the ledger: they appear in the queries only.
- Probe, conflict and crash writers with hand-made identifiers: they are sessions of `Store`, not writers of `Ledger`.
- Deadlock detection, lock timeouts, snapshot reads, type round trips and role checks of integrity.py.
- QRY_03 and QRY_05, benchmarks, measurement, reports, backup, restore, roles, migrations and the Alembic revisions.
- Settings other than the interval, the API server, probes, logging, signal handling and command lines.
- Floating point: scores, percentiles and seconds are reals; JSON numbers are integers, and a number never equals a boolean.

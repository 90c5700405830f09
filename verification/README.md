# gsyncx: a verified model of the sync engine

gsyncx moves rows from a source to a target: a reader goroutine pages through the source and sends
batches over a bounded channel, and the engine's select loop transforms, maps and writes each batch
while it keeps counters, a progress record, a preview and checkpoints.  This project models that
engine and the code around it in Dafny and proves what it keeps over every run.

| files | what they model |
|---|---|
| `Engine`, `EngineAccounting`, `EngineTotals` | one turn of the select loop as a function, the loop as a class that changes its fields, and what the counters of any sequence of messages mean |
| `Protocol`, `ProtocolSafety`, `ProtocolTermination`, `ProtocolAccounting`, `ProtocolPauses` | the engine and the reader as two processes over their channels, interleaved with Stop, Pause, Resume and the end of the context |
| `DatabaseReader` | paging over an ordered table |
| `SqlText`, `SqlCase`, `SqlRoundTrip`, `SqlFirstMatch`, `SqlRewrite`, `SqlFields` | the SQL parser, its printer, the rewrites, the field list |
| `SqlTokens`, `SqlCondition`, `SqlFilter`, `SelectConfigs` | what a condition joined with AND selects, in SQL texts and in the table reader's query |
| `SqlStatements`, `SqlClauses`, `SqlNames`, `SqlUnion` | how a database reads a text, when that agrees with the parser, which rows the text selects, and a UNION where it does not |
| `SqlDatabase`, `SqlReader` | what a database answers to a text, and the paged reader over a user's SQL |
| `Pipeline` | the default, Lua, script and Redis transformers |
| `Mapping`, `MappingDebug`, `SmartMappings` | the field mapper, its debugger, the completion of mapping lists |
| `Checkpoint` | the file store and the map store |
| `BatchWriter`, `BatchRetry` | the database writer, the buffered writer, and retries over the latter |
| `Optimizer`, `Shards` | batch statistics, batch-size control, the shard allocator |
| `Records`, `Wrappers`, `Strings`, `Sequences`, `Arithmetic` | shared types and small facts |

How the world outside is represented:

- A run of the sequential loop is the list of messages its select takes (`Event`): a batch together
  with what the stages and the writer answer to it, a closed channel, an error, the end of the
  context, or a call to Stop, Pause or Resume between two turns.  In the two-process model the same
  events arise from steps of the reader and of the engine.
- `checkpointEnabled` stands for checkpoints switched on and a store present.
- A table is a fixed sequence of rows and a query a slice of it.  For a user's SQL, `Database` answers a
  statement without LIMIT and OFFSET with its rows, in the order it asks for, or refuses it.  It reads a
  text by itself (`SqlStatements`): reserved words at the top level begin sections, LIMIT and OFFSET
  behind an otherwise finished query cut its rows, and an order by something that is no expression (a
  star, DISTINCT or ALL, an alias without AS, a quote or parenthesis left open) is refused
  (`SqlDatabase.Execute`).
- A SQL text is a sequence of words, as if split at blanks.  Each word carries its key: a keyword in
  any case, a number, or neither.  A lazy group of the expression is the shortest run of words whose
  tail still matches.
- A condition is read as tokens: names and numbers, which need a separator between them (section 5.2 of
  ISO/IEC 9075:1992), and symbols and quotes, which do not.  Whether an AND or OR stands at the top level
  follows from the parentheses, brackets, quotes, CASEs and BETWEENs around it.  A clause or condition is
  flat (`SqlStatements.Flat`) when it is closed and holds no reserved word at its top level: no second
  SELECT, no set operator, no semicolon, no FOR, FETCH, INTO, WINDOW, LIMIT or OFFSET.
- A data source handed the k-th batch reports a row count or fails; a script is a function from
  records to results; JSON decoding of a Redis payload is a function that may fail.

Where the code does less than one might expect, the model follows the code and says exactly when the
expected property holds:

- Conservation of the counters holds exactly when the leaks of each stage and of the writes add up to
  zero (`EngineAccounting.ConservedExactly`); a record lost in one batch and one too many in another
  cancel.
- A run that fails on a reader error returns a result without totals (`ProtocolAccounting.RunEndings`),
  and a batch in hand when a paused run is cancelled is dropped uncounted (`ProtocolSafety.AtMostOneDrop`).
- A run panics exactly when it handles a batch with checkpoints on, a table named and a batch size of
  zero (`ProtocolAccounting.RunPanicsExactly`); undisturbed, any other run completes with the whole table
  (`ProtocolAccounting.UndisturbedRunCompletes`).
- A run that stays paused goes round the pause loop for ever; nothing else prolongs it
  (`ProtocolTermination.OnlyPausesProlong`).  Pause does not stop the write in progress: the batch at the
  writer is still finished, and only that one (`ProtocolPauses.PauseHoldsBack`).
- A text whose last clause ends in the keyword of a later clause, as in `SELECT a FROM t WHERE`,
  swallows whatever is appended to it (`SqlRewrite.DanglingKeywordTakesTheLimit`); this, and an OFFSET
  already in the text, are the only cases in which a page text does not parse to what the reader means
  (`SqlReader.PageParsesExactly`).  A LIMIT already in the text is replaced
  (`SqlReader.PagesAreTheQuery`).
- What parses need not be answered: without an ORDER BY the reader orders by the first field, and the
  pages come out exactly when that is a sort key (`SqlReader.PagesExactly`).  `SELECT * FROM t` is ordered
  by the star, so every database refuses all of its page texts and nothing is read
  (`SqlReader.StarIsRefused`).
- A condition joined with AND means both conditions exactly when neither has a top-level OR
  (`SqlCondition.JoinExactly`); it never loses a row that satisfies both (`SqlCondition.JoinLosesNoRow`).
- For a whole text that holds when its clauses are flat, since then the database reads the clauses the
  parser found (`SqlClauses.ParseReadsAs`, `SqlFilter.AddWhereFiltersExactly`).  Behind a UNION the added
  condition filters the last SELECT only (`SqlUnion.UnionEscapes`, `SqlUnion.UnionText`).
- The mapping debugger agrees with the mapper exactly when, at each listed target, the two last writes
  are the same or the debugger's is the value of an unmapped field of that name, and, with auto-mapping
  off, every unmapped field is targeted (`MappingDebug.DebugAgreesExactly`; mapping by mapping for lists
  that pass Validate, `MappingDebug.ValidListAgreesExactly`).  When a single mapping writes differently is
  `MappingDebug.FiringDiffers`.
- Two walks of the Redis transformer over its mapping can give different records exactly when two
  renamed fields of the record clash
  (`Pipeline.OrderIrrelevantExactly`).
- The file store behaves as the map store exactly on table names it can tell apart
  (`Checkpoint.FileStoreRefinesExactly`).
- A run never flushes a buffered writer, so its counts fall short by exactly what stays in the buffer
  (`BatchWriter.CountsMissTheBuffer`).
- A batch that is retried over a buffered writer arrives once exactly when no call failed, or nothing was
  held in the buffer and every failed call failed at its first flush; otherwise records held before are
  lost or records of the batch arrive twice, and some may arrive of a batch counted as failed
  (`BatchRetry.ArrivesOnceExactly`).
- A recorded time of zero is forgotten by the minimum (`Optimizer.MinIsTrueExactly`), and fast signals
  never enlarge a batch size of 0 or 1 (`Optimizer.FastConvergesExactly`).

## Model

| member | source | states |
|---|---|---|
| ProtocolSafety.NoRowLostOrRepeated | engine/sync.go:291-454 | in every reachable state of reader, channels and engine, rows taken, in hand, buffered, fetched and unread concatenate to the table |
| ProtocolSafety.ProcessedIsPrefix | engine/sync.go:291-505 | the rows processed are an in-order prefix of the table; Completed only with the whole table, and then the total read is its size |
| ProtocolSafety.AtMostOneDrop | engine/sync.go:303-311 | batches taken and batches counted differ by at most the last one, and then the run was cancelled |
| ProtocolSafety.ReachableInv | reader/database.go:26-109 | the invariant behind them: channel bounds and closing order, one report on the error channel, engine state equal to the fold of its turns, row positions |
| ProtocolSafety.InvStep | engine/sync.go:291-454 | every enabled step of either process or of an outside call keeps that invariant |
| ProtocolSafety.ErrorsClosedNeverSelected | engine/sync.go:437-448 | in every state the invariant allows, the closed error channel is never what is selected: its one message is read first and then it is watched no longer |
| ProtocolSafety.ChannelsStep | reader/database.go:37-109 | the part about the channels: capacity, single report, error channel closed before the record channel |
| ProtocolTermination.RunsAreBounded | engine/sync.go:291-454 | whatever the interleaving, a run makes at most (2*attempts+6)*rows+10 steps of its own |
| ProtocolTermination.OnlyPausesProlong | engine/sync.go:291-454 | from any reachable state the length of a run is bounded by its measure, the outside calls and the turns of the pause loop begun while paused |
| ProtocolTermination.UnpausedRunsEnd | engine/sync.go:291-454 | so from any reachable state on, once the last pause is lifted, a run ends within a bound linear in the rows left |
| ProtocolTermination.StepMeasure | engine/sync.go:291-454 | every step of reader or engine lowers the measure; the pause loop and outside calls never raise it |
| ProtocolTermination.NoDeadlock | engine/sync.go:291-454 | a state where either process is unfinished has a possible step, and only a pause leaves nothing but waiting |
| ProtocolTermination.ResumeReleases | engine/sync.go:303-311 | in every reachable state of an unfinished run that is not paused, work is possible at once or after the half turn that leaves the pause loop |
| ProtocolTermination.ReaderAlwaysFinishes | reader/database.go:37-109 | after Run has returned the reader never blocks: one of its steps is possible until it is done, and its one report finds the slot free |
| ProtocolTermination.ReaderEndsSoon | reader/database.go:37-109 | and however it goes on, it makes at most six more steps, whatever the size of the table |
| ProtocolPauses.FlagsExactly | engine/sync.go:568-589 | told by the calls alone: a run is paused exactly when Pause was called and Resume not after it, and its context has ended exactly when it was stopped or has returned |
| ProtocolPauses.PauseHoldsBack | engine/sync.go:303-311 | from a call to Pause until Resume is called no batch enters the stages and at most the batch at the writer is finished; all other rows are in hand, on the channel, at the reader, or dropped by a cancelled run |
| ProtocolPauses.ResumedRunEnds | engine/sync.go:303-311 | with Resume called after the last Pause, the steps left are bounded by the rows left and the calls |
| ProtocolPauses.StoppedRunWritesNothing | engine/sync.go:507-535 | once Stop was called or the context has ended, no further record counts as written |
| ProtocolPauses.StatusFollowsCalls | engine/sync.go:568-589 | the status shown after a call to Stop, Pause or Resume |
| ProtocolPauses.EndShowsStatus | engine/sync.go:455-505 | the step that ends a run leaves the status of its result in the progress record |
| ProtocolAccounting.RunConserves | engine/sync.go:313-422 | in every reachable state total read is the rows processed, and the counters conserve them exactly when the leaks of each stage add up to zero |
| ProtocolAccounting.RunProgress | engine/sync.go:424-431 | with Count equal to the table, synced + failed + skipped never exceeds the total and the percentage stays within 0..100 |
| ProtocolAccounting.RunPercentNeverFalls | engine/sync.go:424-431 | no step of a run lowers the percentage |
| ProtocolAccounting.RunCheckpoints | engine/sync.go:667-690 | along every run: one checkpoint per batch, each naming the whole batches written by then, never falling, never above the batches handled |
| ProtocolAccounting.RunPreview | engine/sync.go:323-329 | the preview is the longest prefix of the rows processed that the limit allows |
| ProtocolAccounting.RunEndings | engine/sync.go:437-505 | how any run ends: a panic exactly on a batch with batch size zero; an error only after a failed query, an ended context or without a data source, and without totals; Cancelled only after Stop or the end of the context; otherwise Completed with its totals |
| ProtocolAccounting.EndingsHaveCauses | engine/sync.go:293-311 | a run is cancelled only by Stop or with its context, and returns an error only after a failed query, an ended context or without a data source |
| ProtocolAccounting.RunPanicsExactly | engine/sync.go:667-678 | a reachable state has panicked exactly when checkpoints are on, a table is named, the batch size is 0 and a batch was handled |
| ProtocolAccounting.UndisturbedRunCompletes | engine/sync.go:291-505 | a run with no failed query and no stop that ends is Completed with the whole table processed, exactly unless its checkpoints panic |
| ProtocolAccounting.FailureWasReported | engine/sync.go:437-447 | a run that returns an error was sent that error |
| ProtocolAccounting.EngineIsSequentialRun | engine/sync.go:291-454 | the engine of the two-process model is the sequential loop over the turns it took |
| ProtocolAccounting.TurnOfStep | engine/sync.go:291-454 | each step adds at most one turn, over the batch in hand, and nothing else changes what the engine keeps |
| Engine.SyncEngine.Run | engine/sync.go:237-505 | the loop in place: fields and outcome are the fold of `Deliver` over the messages selected; the context is cancelled on return |
| Engine.SyncEngine.WriteWithRetry | engine/sync.go:507-543 | success is the first successful attempt, all earlier ones having failed and been waited out; never more attempts than configured; the whole batch failed when all did |
| Engine.SyncEngine.ProcessBatch | engine/sync.go:313-435 | the loop body for one batch equals `HandleBatch` and the checkpoint after it, panic included |
| Engine.SyncEngine.ProcessStages | engine/sync.go:313-388 | read, preview, transform and map: the new counters and statistics, and the batch that goes on |
| Engine.SyncEngine.ProcessWrite | engine/sync.go:390-422 | write or preview skip: the new counters and statistics |
| Engine.SyncEngine.SaveCheckpoint | engine/sync.go:667-697 | appends the checkpoint and the progress, unless disabled; the division panics on batch size zero |
| Engine.SyncEngine.Stop | engine/sync.go:568-575 | cancels a run that has begun and sets the status |
| Engine.SyncEngine.Pause | engine/sync.go:577-582 | sets the flag and the status, nothing else |
| Engine.SyncEngine.Resume | engine/sync.go:584-589 | clears the flag and sets the status, nothing else |
| EngineAccounting.Conservation | engine/sync.go:313-422 | for every sequence of messages: each record read is written, failed or skipped, up to what each stage leaked, and the statistics balance stage by stage |
| EngineAccounting.ConservedExactly | engine/sync.go:313-422 | conservation of counters and statistics holds exactly when the leaks of each stage add up to zero; those of honest stages and writers do |
| EngineAccounting.HonestRunsLeakNothing | engine/sync.go:335-419 | stages that meet their contract and writers whose counts add up leak nothing |
| EngineTotals.CountersAreSums | engine/sync.go:313-422 | for every sequence of messages each total and each statistic is a sum over the batches handled: written the success counts of the accepted writes, failed the failed records of both stages, the failed counts of those writes and every batch never accepted, skipped their skipped counts, or all records in preview mode |
| EngineTotals.CheckpointsCountAccepted | engine/sync.go:667-690 | the i-th checkpoint shows those sums over the first i + 1 batches handled |
| EngineTotals.AcceptedExactly | engine/sync.go:507-543 | a write is accepted with a result exactly when an attempt within the configured number succeeds with it and all before it failed and were waited out |
| EngineTotals.RunCounts | engine/sync.go:313-422 | both in every reachable state of the two processes |
| EngineAccounting.PreviewIsPrefix | engine/sync.go:323-329 | the preview is the first rows read, up to the limit, and empty outside preview mode |
| EngineAccounting.CompletedMeansDrained | engine/sync.go:437-505 | Completed only after both channels were seen finished with no batch dropped; which results carry totals |
| EngineAccounting.ProgressFollows | engine/sync.go:424-431 | the progress record restates the counters and its percentage is what they make it, at every loop boundary |
| EngineAccounting.ProgressBounded | engine/sync.go:424-431 | with a total that covers the rows read the counts never exceed it and the percentage stays within 0..100 |
| EngineAccounting.PercentNeverFalls | engine/sync.go:424-431 | no message lowers the percentage |
| EngineAccounting.CheckpointsTrackWrites | engine/sync.go:667-678 | batchNum*BatchSize <= written < (batchNum+1)*BatchSize for every save; the numbers never fall and never exceed the batches handled |
| EngineAccounting.PanicsExactly | engine/sync.go:433-435 | over any messages: a panic exactly when a batch is handled with checkpoints on, a table named and batch size 0, and then it is the first batch |
| EngineAccounting.TruncatesTowardZero | engine/sync.go:667-678 | the division of the checkpoint's batch number truncates toward zero, whatever the signs |
| DatabaseReader.Read | reader/database.go:26-109 | what is sent, in order, is the rows from the first on, each with its data and its key, in batches of the size asked for (1000 if none), of which only the last can be shorter; all rows when it reports success; an undisturbed read makes floor(N/size)+1 queries |
| DatabaseReader.PagesShape | reader/database.go:56-109 | the pages concatenate to the table in order, none is empty and all but the last are full |
| DatabaseReader.PageSent | reader/database.go:74-107 | one turn of the loop: an empty or short page ends it with all pages sent, a full one advances the offset by the page size |
| DatabaseReader.ShortPageIsLast | reader/database.go:74-105 | a page shorter than asked for is the last one, after floor(N/size) full ones |
| DatabaseReader.BuildRecords | reader/database.go:78-87 | one record per row: its data is the row, its key the key column exactly when one is configured and in the row |
| SqlRoundTrip.RoundTripExactly | sqlparser/parser.go:30-148 | printing a value and parsing it gives it back exactly when no clause could have been cut earlier and the limits fit an int |
| SqlRoundTrip.StableUnderPrinting | sqlparser/parser.go:33-148 | for every SQL that parses, Parse(Rebuild(Parse(s))) equals Parse(s) |
| SqlRoundTrip.KeywordFreeRoundTrips | sqlparser/parser.go:30-148 | any value whose clauses hold no clause keyword is given back with all clauses, limit and offset |
| SqlRoundTrip.ParseIsCanonical | sqlparser/parser.go:30-74 | whatever is parsed was cut at the leftmost place: no clause of it could end earlier |
| SqlRoundTrip.CanonicalRoundTrips | sqlparser/parser.go:30-148 | the converse: canonical values survive printing and parsing |
| SqlFirstMatch.ParseIsFirstMatch | sqlparser/parser.go:30 | against a reference: a text parses exactly when the expression can split it, and the parse is the split a backtracking matcher tries first |
| SqlFirstMatch.ParseSplits | sqlparser/parser.go:33-74 | a parse is one of the possible splits, keywords in any case and the clauses word for word |
| SqlRewrite.ParsePrintsBack | sqlparser/parser.go:116-148 | printing a parsed text gives its words back up to the spelling of keywords and numbers |
| SqlRewrite.PrintedLexed | sqlparser/parser.go:116-148 | every printed word reads back as the keyword, number or plain word it was printed as |
| SqlRewrite.SetLimitExactly | sqlparser/parser.go:106-114 | the new text parses to the old value with that limit exactly when the text has no dangling keyword and the limit is an int that is not negative |
| SqlRewrite.CanonicalExactly | sqlparser/parser.go:91-148 | a value with another order, limit or offset survives printing exactly when the first one had no dangling keyword |
| SqlRewrite.LastLimitWins | sqlparser/parser.go:106-114 | a second SetLimit undoes the first |
| SqlRewrite.DanglingKeywordTakesTheLimit | sqlparser/parser.go:106-114 | SELECT a FROM t WHERE parses, and a limit appended to it becomes its WHERE clause |
| SqlText.Rebuild | sqlparser/parser.go:116-148 | the builder's text is the printed form: each present clause behind its keyword, in order, then limit and offset |
| SqlCase.KeywordsInAnyCase | sqlparser/parser.go:30 | a word is a keyword exactly when it has the letters of SELECT, FROM, WHERE, GROUP, BY, HAVING, ORDER, LIMIT or OFFSET in any case, and a number exactly when it is digits only |
| SqlCase.ParseInAnyCase | sqlparser/parser.go:30-74 | two texts that differ only in the case of their keywords parse alike, clause by clause and with the same limits |
| SqlCase.SmallLettersParse | sqlparser/parser.go:30-74 | select a from t parses as SELECT a FROM t |
| SqlText.ParseIntUndoesFormat | sqlparser/parser.go:196-200 | scanning undoes %d exactly for the values of a non-negative int |
| SqlText.ParseIntOverflows | sqlparser/parser.go:196-200 | a text that is no number, or too large for an int, is read as 0 |
| SqlText.DigitsRoundTrip | sqlparser/parser.go:196-200 | the decimal digits of a number have that number as their value |
| SqlText.CutIsShortest | sqlparser/parser.go:30 | no shorter prefix leaves a tail that matches |
| SqlFields.ParseFields | sqlparser/parser.go:166-179 | the loop computes the names between the commas, blanks dropped, aliases taken |
| SqlFields.FieldsAreNames | sqlparser/parser.go:166-179 | every field is non-blank, has no comma and no alias left in it |
| SqlFields.FieldsReadBack | sqlparser/parser.go:166-179 | every list of names written with commas is read back as that list |
| SqlFields.NameIsAlias | sqlparser/parser.go:172-175 | a field is named by what stands behind its last AS, in any case |
| SqlFields.NameIsField | sqlparser/parser.go:172-175 | and without an AS by itself |
| SqlClauses.ParseReadsAs | sqlparser/parser.go:30-74 | for every text whose parsed clauses are flat, the database reads section by section exactly those clauses, keyword by keyword |
| SqlClauses.ChosenExactly | sqlparser/parser.go:50-52 | such a text selects exactly the rows that satisfy the parsed WHERE |
| SqlDatabase.ExecuteBounded | sqlparser/parser.go:140-145 | LIMIT and OFFSET behind a query bring that window of its rows, and the text is refused exactly when it was without them |
| SqlDatabase.OrderedAnswer | reader/database.go:261-265 | with ORDER BY and a field behind it a query is refused when the field is no sort key, and reaches the database as that query with that order when it is |
| SqlReader.PageParsesExactly | reader/database.go:254-324 | a page text parses back to the original clauses, the chosen order, LIMIT and OFFSET exactly when nothing dangles and, behind the first page, the query had no OFFSET |
| SqlReader.PageRows | reader/database.go:278-281 | for every database, the page text at an offset returns exactly that page of the ordered query's rows, and is refused exactly when the ordered query is |
| SqlReader.OrderChosen | reader/database.go:261-265 | the ordered query is the user's own when that has an order; else it is refused when the first field is no sort key, and ordered by it when it is |
| SqlReader.PagesExactly | reader/database.go:254-324 | a query the database answers and can sort is brought page by page exactly when it has its own ORDER BY or its first field is a sort key |
| SqlReader.PagesAreTheQuery | reader/database.go:278-324 | the concatenated pages are the ordered query's rows exactly when its own LIMIT cuts nothing off |
| SqlReader.StarIsRefused | reader/database.go:261-281 | SELECT * FROM t meets every other condition, and no database answers any of its page texts |
| SqlReader.NameIsSortKey | reader/database.go:261-265 | a first field that is a plain name, other than DISTINCT and ALL, can be sorted by |
| SqlDatabase.NoSortKeys | reader/database.go:261-265 | a star, anything ending in one, DISTINCT or ALL in front, and a column or call with a bare alias never can |
| SqlReader.Read | reader/database.go:235-328 | what is sent is the rows of the ordered query from the first on, each with its data and key, in full batches but for the last, all of them on success, with floor(N/size)+1 queries when undisturbed; nothing and an error for a text that does not parse or whose ordered query is refused |
| SqlReader.ReadQueryPages | reader/database.go:267-324 | the paging loop behind it |
| SqlReader.TurnPage | reader/database.go:278-324 | one turn of that loop: an error, an empty or a short page ends it as Read promises, a full page goes on at the next offset |
| SqlReader.ParseQuery | reader/database.go:243-265 | the query with its order: its own, or the first field ascending |
| SqlReader.WithOrderCanonical | reader/database.go:261-265 | choosing the order changes nothing else and the result still survives printing |
| SqlCondition.JoinExactly | sqlparser/parser.go:82-86 | over different atoms, a condition joined with AND means both conditions exactly when neither has a top-level OR |
| SqlCondition.JoinMeansBoth | sqlparser/parser.go:82-86 | without a top-level OR, closed conditions joined with AND select exactly the rows that satisfy both |
| SqlCondition.JoinStaysJoinable | sqlparser/parser.go:82-86 | the joined condition is closed and free of top-level ORs again, so conditions can be added one after the other |
| SqlCondition.GluedOrIsSeen | sqlparser/parser.go:82-86 | an OR glued to a parenthesis, as in a OR(b), makes two terms |
| SqlCondition.JoinLosesNoRow | sqlparser/parser.go:82-86 | a row that satisfies both conditions is always selected, ORs or not |
| SqlCondition.ConditionsJoin | sqlparser/parser.go:82-86 | the last OR-term of the old condition and the first of the new one become one term, all others stay; closed if the new one is |
| SqlCondition.TermsJoin | sqlparser/parser.go:82-86 | the same over the tokens, from any point where nothing is open |
| SqlCondition.OneTermExactly | sqlparser/parser.go:82-86 | a condition is a single AND-term exactly when it has no top-level OR |
| SqlCondition.GroupIsOneAtom | sqlparser/parser.go:82-86 | whatever stands in parentheses or brackets is one atom, its connectives included |
| SqlCondition.CaseIsOneAtom | sqlparser/parser.go:82-86 | so is everything from CASE to END |
| SqlCondition.BetweenIsOneAtom | sqlparser/parser.go:82-86 | and x BETWEEN a AND b, whose AND joins nothing |
| SqlCase.ConnectivesInAnyCase | sqlparser/parser.go:82-86 | AND, OR, CASE, END and BETWEEN are read in any case |
| SqlCase.HeadingsInAnyCase | sqlparser/parser.go:82-86 | the words that begin a section of a text besides the expression's keywords are UNION, INTERSECT, EXCEPT, MINUS, WINDOW, FETCH, FOR, INTO, LOCK and OPTION, in any case |
| SqlFilter.AddWhereExactly | sqlparser/parser.go:76-89 | the new text parses to the query with the joined WHERE and nothing else changed exactly when the condition is attachable |
| SqlFilter.PlainConditionAttaches | sqlparser/parser.go:76-89 | a condition without clause keywords is attachable exactly when the clause before it does not dangle |
| SqlFilter.AddWhereChooses | sqlparser/parser.go:76-89 | for a text and a condition that are flat, the rows the database selects by the new text are those of the joined condition |
| SqlFilter.AddWhereSelectsBoth | sqlparser/parser.go:76-89 | so, with no top-level OR, the new text selects exactly the rows that the old text selected and that satisfy the condition |
| SqlFilter.AddWhereFiltersExactly | sqlparser/parser.go:76-89 | over different atoms, exactly when neither condition has a top-level OR |
| SqlUnion.UnionEscapes | sqlparser/parser.go:76-89 | in a text whose WHERE holds a set operator, the rows of the first SELECT are selected whatever condition is added |
| SqlUnion.UnionText | sqlparser/parser.go:76-89 | SELECT a FROM t WHERE x UNION SELECT b FROM u WHERE y meets all other conditions, and adding c does not filter it |
| SqlFilter.AddOrderExactly | sqlparser/parser.go:91-104 | the new text parses to the query with the longer order exactly when nothing dangles and the order does not end like a LIMIT |
| SqlFields.LongerOrderKeys | sqlparser/parser.go:97-101 | the longer order lists the old keys, if there were any, then the new ones |
| SelectConfigs.BuildSelectConfig | reader/database.go:183-220 | the whole query: WHERE and incremental condition joined when both are there, order by the key, everything else copied |
| SelectConfigs.IncrementalSelectsBoth | reader/database.go:203-217 | whatever the query around its WHERE, an incremental read selects the rows of that query that satisfy the incremental condition, both conditions flat and without a top-level OR |
| SelectConfigs.IncrementalExactly | reader/database.go:203-217 | over different atoms, exactly when neither condition has a top-level OR |
| Pipeline.PartitionCounts | transform/lua.go:47-78 | successes and failures of a batch add up to its records |
| Pipeline.PartitionInOrder | transform/lua.go:47-78 | the two lists, record by record: in the order of the batch what each good result holds, and each bad one's record with its error and stage |
| Pipeline.DefaultTransform | transform/transformer.go:18-20 | the batch unchanged, nothing failed |
| Pipeline.LuaExecute | transform/lua.go:33-79 | success and failed lists partition the batch in order by the per-record results, cancellation included; meets the stage contract |
| Pipeline.ScriptTransform | transform/transformer.go:149-160 | no script or no records is the identity; an unknown language or an ended context is an error without records; else the result is what the script engine returns; meets the stage contract |
| Pipeline.RedisMessageTransformer.TransformRecord | transform/redis_message.go:55-86 | the record of some walk order; renamed fields win over unmapped fields, which win over payload fields; every payload field nothing else claims comes out |
| Pipeline.RedisMessageTransformer.RenameFields | transform/redis_message.go:58-62 | the loop is a walk in the order it picked |
| Pipeline.RedisMessageTransformer.Transform | transform/redis_message.go:22-53 | every record transformed in order, an error exactly when the context ended, with the records up to there; meets the stage contract |
| Pipeline.OrderIrrelevantExactly | transform/redis_message.go:55-86 | the records of any two walk orders are equal exactly when no two renamed fields of the record clash |
| Pipeline.WalkLastWins | transform/redis_message.go:58-62 | in a walk over the mapping the last source that feeds a target wins |
| Pipeline.TransformedRenames | transform/redis_message.go:55-86 | every order of the walk keeps the precedence of renamed, unmapped and payload fields |
| Pipeline.RenamesIsProduced | transform/redis_message.go:55-86 | and every record that precedence allows is produced by some order |
| Mapping.FieldMappingEngine.Map | mapping/mapping.go:40-61 | splits the batch in order into mapped and failed records, fails it as a whole exactly in strict mode with an unmappable record; meets the stage contract |
| Mapping.FieldMappingEngine.MapRecord | mapping/mapping.go:63-137 | succeeds exactly on mappable records with the closed-form lookup of every key; otherwise which error, with which fields |
| Mapping.FieldMappingEngine.ApplyMappings | mapping/mapping.go:72-112 | the loop writes for each key the value of the last mapping that fires, and stops at the first broken transform in strict mode |
| Mapping.FieldMappingEngine.ApplyMapping | mapping/mapping.go:73-111 | case by case: an absent or nil field gives the mapping's default, else the engine's, else nothing and a missing value if required; a value is transformed, and one that cannot be is an error, kept as it is unless strict |
| Mapping.FieldMappingEngine.AddUnmapped | mapping/mapping.go:114-127 | the loop over the record in any order completes the lookup: override with auto-mapping, gap-filling without |
| Mapping.BuiltinsExactly | transform/transformer.go:162-187 | the built-in transforms by name, in any case: rendering, upper and lower case of strings, the string without the blanks around it, and an error for other values |
| Mapping.OnlyTheseBuiltins | transform/transformer.go:162-187 | no other name is a transform |
| Mapping.MappingDeterminesRecord | mapping/mapping.go:63-137 | the closed form determines the record, so map order cannot matter |
| Mapping.LastWriteIsLast | mapping/mapping.go:72-112 | the value comes from a mapping to the key that fires and after which none fires |
| Mapping.MissingFieldsEmpty | mapping/mapping.go:72-134 | the missing list is empty exactly when no required mapping lacks a value |
| Mapping.FieldMappingEngine.Validate | mapping/mapping.go:143-163 | accepts exactly the non-empty lists with sources and distinct targets; each error names a mapping that has it |
| MappingDebug.DebugRecord | mapping/mapping.go:226-300 | target fields by its own closed form, one step per mapping in order, then one for each auto-mapped field with its value |
| MappingDebug.MakeStep | mapping/mapping.go:237-266 | the step of one mapping: missing, default, direct, transformed or kept after a failed transform, with the value found and the value shown |
| MappingDebug.DebugAgreesExactly | mapping/mapping.go:226-300 | for every list, defaults and record: debugger and mapper agree exactly when they agree at the listed targets and no unmapped field is copied silently |
| MappingDebug.ValidListAgreesExactly | mapping/mapping.go:226-300 | for lists that pass Validate, exactly when each mapping alone fires alike or shows the unmapped field it targets |
| MappingDebug.SameFiringAgreesExactly | mapping/mapping.go:226-300 | where every mapping fires alike, exactly when no mapping shadows an unmapped field |
| MappingDebug.FiringDiffers | mapping/mapping.go:72-112 | exactly when a single mapping fires differently: absent fields with an engine default, nil cells with a default or a text made of nil |
| MappingDebug.DebugShowsTheMapping | mapping/mapping.go:226-300 | with auto-mapping, no nil source, no engine defaults and no shadowing target, the debugger shows exactly the mapped record |
| SmartMappings.BuildSmartMappings | mapping/mapping.go:184-215 | the existing list followed by one mapping per unused source with an unused target of the same name ignoring case |
| SmartMappings.SmartIdempotent | mapping/mapping.go:184-215 | the existing mappings stay a prefix and a second pass adds nothing |
| SmartMappings.SmartKeepsValid | mapping/mapping.go:143-215 | a valid list stays valid and no added target equals any other ignoring case |
| SmartMappings.AddedFacts | mapping/mapping.go:200-212 | exactly the addable sources are added, each with a listed target of its name |
| Checkpoint.FileStoreRefinesExactly | checkpoint/checkpoint.go:26-158 | over all operations on given tables every Load agrees in both stores exactly when the sanitised names are distinct and none is "progress" |
| Checkpoint.RunsRelated | checkpoint/checkpoint.go:26-158 | the simulation relation between the stores holds after any operations |
| Checkpoint.PassesAreOneMap | checkpoint/checkpoint.go:98-105 | the nine replacement passes equal one simultaneous character map |
| Checkpoint.SanitizedFacts | checkpoint/checkpoint.go:98-105 | sanitising keeps the length, removes all nine characters and is idempotent |
| Checkpoint.SanitizeFileName | checkpoint/checkpoint.go:98-105 | the loop of passes computes that map |
| Checkpoint.ReplaceAll | checkpoint/checkpoint.go:107-115 | the in-place loop is leftmost non-overlapping replacement, for any old and new text |
| Checkpoint.FileCheckpointStore.Save | checkpoint/checkpoint.go:26-41 | overwrites the file of the sanitised name and no other |
| Checkpoint.FileCheckpointStore.Load | checkpoint/checkpoint.go:43-62 | reads the file of the sanitised name, none when absent |
| Checkpoint.FileCheckpointStore.Delete | checkpoint/checkpoint.go:64-74 | removes that file and no other |
| Checkpoint.FileCheckpointStore.SaveProgress | checkpoint/checkpoint.go:76-91 | overwrites progress.json and no other file |
| Checkpoint.MemoryCheckpointStore.Save | checkpoint/checkpoint.go:129-134 | overwrites the entry of the table and no other |
| Checkpoint.MemoryCheckpointStore.Load | checkpoint/checkpoint.go:136-144 | the entry of the table, none when absent |
| Checkpoint.MemoryCheckpointStore.Delete | checkpoint/checkpoint.go:146-151 | removes that entry and no other |
| Checkpoint.MemoryCheckpointStore.SaveProgress | checkpoint/checkpoint.go:153-158 | replaces the progress and leaves the checkpoints alone |
| BatchWriter.NothingUnaccounted | writer/database.go:218-260 | delivered, lost and buffered records partition what entered the buffer; in arrival order when no flush failed |
| BatchWriter.DeliveredIsAccepted | writer/database.go:250-260 | what counts as delivered is the batches that the data source was handed and accepted, and the rows counted are those it reported |
| BatchWriter.DeliveredCounts | writer/database.go:218-260 | with one row reported per record the success counts are the delivered records |
| BatchWriter.CountsMissTheBuffer | writer/database.go:218-248 | with no failed flush, what the returned counts miss is exactly what is still buffered, less than one batch |
| BatchRetry.WriteRetried | engine/sync.go:507-543 | over a buffered writer, what the data source has accepted or is still buffered afterwards: what each failed call had flushed before it failed, and with success all of the batch, behind what was held if no call failed; when it gives up early |
| BatchRetry.Call | writer/database.go:218-235 | one call: all that was held and given arrives in order, or exactly the full batches before the failing one |
| BatchRetry.ArrivesOnceExactly | engine/sync.go:507-543 | held records and an accepted batch arrive once each, and of a failed batch nothing, exactly when no call failed, or nothing was held and no failed call flushed anything |
| BatchWriter.BatchWriter.Write | writer/database.go:218-235 | the records that entered, the flushes made (each of exactly the batch size), the counts returned, and a failing flush is the last |
| BatchWriter.BatchWriter.Add | writer/database.go:221-231 | one record enters and at most one flush follows, keeping the accounts |
| BatchWriter.BatchWriter.Flush | writer/database.go:241-244 | flushes the buffer, whatever it holds, and empties it |
| BatchWriter.BatchWriter.FlushBuffer | writer/database.go:250-260 | the whole buffer is handed to the data source in one call and logged with its answer; the buffer is empty afterwards also when the write fails |
| BatchWriter.DatabaseWriter.WriteWithMode | writer/database.go:45-87 | nothing to write is a success; else the batch is handed over once, by insert or, for every other mode, upsert; an error counts all of it as failed, a success the rows affected |
| BatchWriter.DatabaseWriter.Write | writer/database.go:34-43 | the configured mode, upsert when none is set |
| Optimizer.AverageBounds | performance/optimizer.go:80-81 | 0 <= S - n*avg <= n(n-1)/2 for the truncated running average of n batches |
| Optimizer.StatsAreTrue | performance/optimizer.go:66-83 | with positive times minimum and maximum are the true extremes and the average lies between them |
| Optimizer.MinIsTrueExactly | performance/optimizer.go:73-75 | the minimum is the true one exactly when no zero was recorded before the last batch |
| Optimizer.MaxIsTrue | performance/optimizer.go:76-78 | the maximum is the true one |
| Optimizer.PerformanceOptimizer.RecordBatch | performance/optimizer.go:66-83 | the statistics stay those of the whole history of batches |
| Optimizer.RangeIsKept | performance/optimizer.go:38-64 | no sequence of signals leaves 100..10000 |
| Optimizer.ControlExactly | performance/optimizer.go:38-64 | what one signal does: 0 and 500 to 2000 ms keep the size, less enlarges it by half up to 10000, more shrinks it down to 100 |
| Optimizer.FastReachesMax | performance/optimizer.go:45-52 | from any start of at least 2, 10000 minus start fast signals reach exactly 10000 |
| Optimizer.FastConvergesExactly | performance/optimizer.go:45-52 | fast signals reach the maximum exactly from a start of at least 2 |
| Optimizer.SlowReachesMin | performance/optimizer.go:54-61 | from any non-negative start slow signals reach exactly 100 and stay |
| Shards.HandedOutOnce | performance/optimizer.go:149-187 | over every interleaving and every map order no shard is handed out twice, and one handed out is never pending |
| Shards.NeverPendingAgain | performance/optimizer.go:149-187 | no shard returns to pending between any two points of a run |
| Shards.EveryShardHandedOut | performance/optimizer.go:133-161 | n requests on a fresh manager hand out all n shards, and the pending count falls by one each time |
| Shards.CountsAddUp | performance/optimizer.go:189-219 | pending + running + completed + failed is the shard count |
| Shards.PendingCount | performance/optimizer.go:195-206 | a shard is pending exactly when the pending count is positive |
| Shards.ShardManager.CreateShards | performance/optimizer.go:133-147 | one pending shard per key, replacing those of the same number |
| Shards.ShardManager.GetNextShard | performance/optimizer.go:149-161 | hands out some pending shard and marks it running; fails exactly when none is pending |
| Shards.ShardManager.MarkShardComplete | performance/optimizer.go:163-174 | marks that shard alone; fails exactly for an unknown number |
| Shards.ShardManager.MarkShardFailed | performance/optimizer.go:176-187 | marks that shard alone; fails exactly for an unknown number |
| Shards.ShardManager.CountStatus | performance/optimizer.go:195-219 | the walk counts exactly the shards of that status |

## Left out

- SQL execution, data sources and DSN building: foreign code; a query is a slice of a fixed ordered row sequence.
- The Redis stream client and its protocol: library calls; the engine never acknowledges messages.
- The inside of a Lua script and script caching: one uninterpreted result per record.
- Logging, masking, hooks and wall-clock time, with the time and error fields of results and checkpoints: side effects that do not touch the modelled state.
- The integrity check after the loop and the reader or writer that is not configured: no state of the run depends on them.
- JSON and file-system errors in the file store: encoding and decoding are taken to undo each other and writes to succeed.
- Checkpoint.MemoryCheckpointStore.Save: stores a value where the code keeps a reference to the caller's checkpoint, so later changes to that object are not captured.
- Character-level details of the expression: runs of blanks inside a clause, a blank select list, newlines, Unicode case folding; case folding here is that of ASCII letters.
- The wording of error messages, and of the error attached to a failed record.
- Conditions that leave a quote, a parenthesis, a CASE or a BETWEEN open: not valid SQL, so a joined condition has no meaning to preserve.
- Texts and conditions that are not flat: what a database makes of a second SELECT, a trailing FOR UPDATE or a clause only one dialect has is left to it; for a set operator in the WHERE see `SqlUnion`.
- SqlReader.PagesExactly: a sort key the database refuses for what it names (an ambiguous column, a position out of range, a type without an order) is excluded by `CanSort`; databases without LIMIT and OFFSET are not modelled.
- SqlDatabase.OrderedAnswer: an alias without AS is recognised behind a single name or a parenthesis; behind other expressions it is taken as part of the key and left to the database.
- SQL comments and escapes by backslash inside a condition: quotes, parentheses, brackets, BETWEEN and CASE are followed, comments are not.
- Dialects inside a condition: connectives other than AND and OR (`||`, `&&`, XOR) and names or numbers run together without a separator (`1OR`) are parts of an atom.
- SqlCondition.JoinMeansBoth: the truth of a condition is whether a row is selected; what makes an atom true, unknown values included, is left to the valuation.
- parseTables and the Tables field: no reader uses them, and they would repeat the proofs of parseFields.
- SQLReader.ReadWithIncremental and containsWhere: a condition is appended behind any ORDER BY or LIMIT, so there is no meaning to preserve.
- SqlReader.Read: the reader is observed for a given number of turns, as a database may answer a misread text with full pages for ever.
- CalculateOptimalParallelism, BuildAutoMappings, GenerateMappingReport, GetSplitKeys: single-branch computations with easy contracts.
- Task configuration, registries, option setters, validators, resuming from a checkpoint, error thresholds and ErrorHandler decisions: not used by Run.
- Percentages are real numbers rather than floating point, and counters are unbounded rather than 64-bit.
- Optimizer.SlowReachesMin: multiplication by 0.7 is any rounding within one percent and one unit of it; multiplication by 1.5 is exact, as it is below 2^52.
- Optimizer.PerformanceOptimizer.RecordBatch: counts and times are taken to be non-negative, as durations and lengths are.
- Locks: each method of a store, of the optimizer and of the shard manager is one atomic step.

# Verified models of the webdsl server

This project states, and proves in Dafny, what the central parts of the webdsl server do.
Each part has the form the C (or Lua) code has: functions for what is computed, classes and
loops for what is changed in place, and a specification on values that the loops are proved
to follow. The main results are lemmas about those specifications.

`dafny verify dfyconfig.toml` checks everything.

## The parts

**Templates.** `Engine` is `process` as a state machine: one pass over the text, a stack of
open sections, an enabled flag, a three-valued line state with pending white space, and a
context stack over JSON data; a section iterates by moving the read position back. `Template`
is the meaning: a recursion over the tree of the template. `EngineCorrect` proves that the
machine computes the recursion, `EngineLaws` and `PlainMeaning` say what the recursion means,
and `Process` proves that the loops over the C variables, with the callbacks of `Wrapper`,
`KeyBuffer`, `JsonContext` and `Escaping`, are the machine. The line state of a closing tag
flows into the next iteration of its section, as in the code. A delimiter change inside a
section outlives the jump back, so the theorems ask that sections put the delimiters back if
they are rendered more than once; `DelimsCounterexample` shows a template that renders for one
element and fails for two. `TagLaws` and `SelectionLaws` say what a tag and a name mean in
writing and in the data, and `VariableLaws` follows a variable from the template to the
output. No partial is declared, so that a partial tag includes nothing.

**Database access.** `ConnectionPool`, `StatementCache`, `StatementNames` and their composition
in `Database`, a transition system in which any number of threads take atomic steps in any
order. Resetting a broken connection does not purge the statements cached for it. The theorem
is therefore an equivalence: an execution is right exactly if its connection has not been reset since; and
there is a run in which one is wrong. `DatabaseProgress` says that queries come to their end and
every connection comes back.

**Migrations.** `Migration` with `Names`: arbitrary histories of `up` and `down` in which the
start, reading, running or recording may fail at any point. A script and its record are two
separate queries; the coherence of table and schema depends on the second one. The name of a
migration is pasted into that query as a string literal, so it is stored as it is exactly when
it has no quote. `MigrationProgress` says exactly when the commands succeed.

**Front end.** `Lexical` says what the tokens of a text are, `Lexing` is the scanner object that
yields them. `Parsing` is the recursive descent, proved against two descriptions that know
nothing of it: it accepts exactly the language of `Grammar`, a stack of what may still come, and
it declares what the flat brace-counting scan of `Declarations` finds. The declarations are kept
in the eight linked lists of `Websites`, which are `NodeLists`. `TokenPrinting` writes tokens down
and has them read back. `WebsiteTrees` does so for whole websites: trees of entries, their texts
put together from the pieces of `TextPieces`, which `TreesAccepted` proves to be in the language
and `TreesDeclared` to declare what the trees do; the theorem is in `WebsitePrinting`.
`HashTables`, `Overrides`,
`RouteParams` and `Routing` are for looking things up, and `RouteMaps` goes from the text of a
website to what a look-up in its tables finds.

**Small parts.** `Arenas` and `StringBuilder` with the real sizes and the wrap-around of
`size_t`; `QueryBuilder` for the placeholders of the Lua builder, whose script
src/server/generated_scripts.c embeds, and `QueryTexts` for its SQL; `Ipv4` with its exact language.

## Where the code surprises

- `initConnectionPool` lowers its limit to 50, but the loop that opens connections only looks at
  the number asked for (src/server/db_pool.c:24-66).
- A failed `up` that ran a script but could not record it runs the script again next time.
- A migration with doubled quotes in its directory name is recorded under another name, and run again.
- The line counter misses the newlines that stand behind a backslash in a quoted string.
- The parser's branch for the keyword `css` with a block in `styles` can never succeed, since
  the lexer takes the keyword and its block as one raw block.
- `sql` with a text in quotes is always an error: the lexer makes a raw string of the two, which
  the parser knows nowhere.
- The JSON pointer to a key that is a single dot selects the current object.
- An included file ends, without an error, at its first closing brace that matches nothing; what
  follows is ignored. So is everything behind the closing brace of the main file.
- A limit or offset with a fraction makes a query with metadata fail, and one that is no number is
  dropped. The metadata row names a column with an alias by the name in front of it.
- In a condition of the query builder a digit behind a `?` becomes part of the number.
- validateIpv4 accepts missing parts and leading zeros.
- An append that makes a string builder grow to its cap and still does not fit leaves the length
  beyond the capacity.

## Model

| member | source | states |
|---|---|---|
| Engine.StepInv | deps/mustach/mustach.c:238-463 | every turn of the main loop keeps the invariant: the context is one level deeper than there are entered sections, saved read positions lie behind each other and before the current one, everything pushed is part of the data |
| Engine.StepDecreases | deps/mustach/mustach.c:424-439 | a turn that does not end the run uses up potential, with the jump back to a section paid for by the element it consumes: `process` halts on every template and all data |
| Engine.RunStep | deps/mustach/mustach.c:238-463 | the run from a state is the run from the state after one turn |
| EngineCorrect.MachineIsRecursion | deps/mustach/mustach.c:182-463 | the machine that jumps back computes the structural recursion over the template tree, same text and same error, whenever every section that is rendered more than once for the data restores the delimiters |
| EngineCorrect.RestoredIsRecursion | deps/mustach/mustach.c:182-463 | the same for all data when every section of the template restores the delimiters |
| EngineCorrect.SimulatesNode | deps/mustach/mustach.c:404-439 | one node of the tree, a whole section with all its iterations included, takes the machine from in front of it to behind it with the value of the recursion |
| EngineCorrect.SimulatesEach | deps/mustach/mustach.c:424-439 | the jump back per element is the recursion over the elements, with line state and pending text threaded from one iteration into the next |
| EngineCorrect.ErrorsAreStatic | deps/mustach/mustach.c:238-463 | whether and how a run of `process` fails is decided by the template, but for running out of context depth, under the same condition on sections rendered more than once |
| EngineLaws.FailsForAllOrNoData | deps/mustach/mustach.c:404-412 | with fewer than 256 nested sections, all of which restore the delimiters, `process` renders a template for all data or fails with the same error for all data |
| EngineLaws.FailsAsTemplate | deps/mustach/mustach.c:238-463 | at that nesting depth a run ends with the error of the template if it has one and with a text otherwise, the context stack never overflowing, if sections rendered more than once for the data restore the delimiters |
| EngineLaws.Discipline | deps/mustach/mustach.c:404-439 | in every reachable state the context depth is the number of entered sections, sections are entered only where enabled, and a run that ends well ends with the context it began with |
| EngineLaws.DisabledTurn | deps/mustach/mustach.c:404-461 | while disabled nothing is put out, entered or advanced; only leaving the disabled section pops its level |
| EngineLaws.DisabledPutsNothing | deps/mustach/mustach.c:244-252 | a disabled piece of template puts nothing out, whatever it contains |
| EngineLaws.SectionsExclude | deps/mustach/mustach.c:404-439 | a section and its inverted twin exclude each other: whichever does not apply puts out nothing but the line in front of it; where they apply, the inverted one renders its body once and the plain one once for each of its items |
| PlainMeaning.InlineRendersPlainly | deps/mustach/mustach.c:238-463 | when every tag that may stand alone has printable text or another tag in front of it on its line, `process` renders the plain meaning of mustache(5) that knows nothing of lines |
| DelimsCounterexample.DelimsNotRestored | deps/mustach/mustach.c:381-403 | a delimiter change inside a section with two elements survives the jump back: the recursion gives `xx`, the machine an empty-tag error |
| DelimsCounterexample.FailureDependsOnData | deps/mustach/mustach.c:381-403 | so one template renders for one element and fails for two |
| Lines.StandaloneLineVanishes | deps/mustach/mustach.c:238-278 | a line with one non-variable tag and white space leaves no trace in the output |
| Lines.TagLineConserves | deps/mustach/mustach.c:238-285 | text in front of a tag is put out whole or held back whole; a variable holds nothing back |
| Lines.DecideConserves | deps/mustach/mustach.c:281-373 | the decision at a tag loses and doubles no text |
| Lines.DisabledSilent | deps/mustach/mustach.c:244-252 | scanning while disabled puts nothing out |
| Tags.NextTag | deps/mustach/mustach.c:281-403 | the token read next lies behind the read position and inside the template, with valid delimiters |
| TagLaws.TagExactly | deps/mustach/mustach.c:285-456 | behind text without an opening delimiter, what stands between two delimiters is read as a tag exactly if it is written as that tag: `#` and `^` for sections, `/` for their end, `>` for partials, `!` for comments, `=` for new delimiters, `&` for an unescaped and no sigil for an escaped variable, the name with white space around it, not empty and at most 4096 characters long; what writes no tag is the error that fits |
| TagLaws.BracesReadBack | deps/mustach/mustach.c:310-346 | a name in braces between the delimiters is an unescaped variable, also where the closing delimiter consists of braces |
| TagLaws.DelimsExactly | deps/mustach/mustach.c:381-403 | a delimiter tag is read as two delimiters exactly if it is two words with white space between them |
| TagLaws.NoTag | deps/mustach/mustach.c:238-278 | a text without an opening delimiter has no tag |
| TagLaws.NoClosing | deps/mustach/mustach.c:302-311 | an opening delimiter without a closing one behind it is an error |
| Process.ScanLoop | deps/mustach/mustach.c:238-278 | the scanning loop stops at the first opening delimiter and has put out exactly the text of the specification |
| Process.OccursAt | deps/mustach/mustach.c:271-275 | the character loop decides whether a delimiter stands at a position |
| Process.FindLoop | deps/mustach/mustach.c:285-296 | the loop finds the first closing delimiter or the end |
| Process.OpenTag | deps/mustach/mustach.c:404-423 | opening a section on the C variables is the step of the machine, the too-deep error included |
| Process.CloseTag | deps/mustach/mustach.c:424-439 | closing a section on the C variables is the step of the machine, jump back and error included |
| Process.BeforeTag | deps/mustach/mustach.c:281-380 | the updates of `stdalone` and the prefix at a tag are the decision of the specification |
| Process.AtTheEnd | deps/mustach/mustach.c:238-256 | the end of the text: the rest is put out and open sections are an error |
| Process.Dispatch | deps/mustach/mustach.c:376-461 | the switch on the tag acts like the machine |
| Process.Turn | deps/mustach/mustach.c:236-462 | one iteration of the main loop over the C variables is one step of the machine |
| Process.Process | deps/mustach/mustach.c:182-463 | `process` halts with the return code and text of the machine run and, where sections restore delimiters, of the tree semantics |
| Escaping.EmitCore | deps/mustach/mustach.c:141-180 | the chunked loop writes the per-character map of `<`, `>`, `&` and `"` to entities |
| Escaping.EmitWrap | deps/mustach/mustach-wrap.c:258-299 | the second chunked loop writes the same |
| Escaping.EscapeRoundTrip | deps/mustach/mustach-wrap.c:258-299 | decoding the entities of an escaped text gives it back |
| Escaping.EscapeInjective | deps/mustach/mustach-wrap.c:258-299 | different texts have different escaped forms |
| Escaping.EscapedIsInert | deps/mustach/mustach-wrap.c:258-299 | escaped text holds no `<`, `>` or double quote |
| VariableLaws.PlainVariable | deps/mustach/mustach.c:452-458 | from template to output: text, a variable without a sigil and text render to the text, the value as a text without angle brackets and double quotes that decodes to it, and the text behind |
| VariableLaws.AmpersandVariable | deps/mustach/mustach.c:339-373 | behind an ampersand the value is put out as it is |
| VariableLaws.BracedVariable | deps/mustach/mustach.c:310-346 | and so it is in braces |
| JsonContext.Context.constructor | deps/mustach/mustach-jansson.c:37-46 | the context starts with the data as its only level |
| JsonContext.Context.Sel | deps/mustach/mustach-jansson.c:74-95 | selection scans the levels from the innermost outwards and finds what the rule of the specification finds |
| JsonContext.Context.Subsel | deps/mustach/mustach-jansson.c:97-107 | descends into a member of the selected object |
| JsonContext.Context.Enter | deps/mustach/mustach-jansson.c:109-147 | pushes the first item and reports whether there is one; 255 levels at most |
| JsonContext.Context.Next | deps/mustach/mustach-jansson.c:149-171 | replaces the top level by the next item exactly when there is one |
| JsonContext.Context.Leave | deps/mustach/mustach-jansson.c:173-181 | pops the top level |
| JsonContext.Context.GetText | deps/mustach/mustach-jansson.c:183-203 | the text of the selected value |
| Selection.ItemsWithin | deps/mustach/mustach-jansson.c:109-147 | a section has no more items than the data has nodes, and they are parts of the data |
| SelectionLaws.LookUpExactly | deps/mustach/mustach-jansson.c:74-95 | a key is found in the innermost level that has it, with the value of its first member there, and not at all exactly if no level has it |
| SelectionLaws.DescendExactly | deps/mustach/mustach-jansson.c:97-107 | further keys end at a value exactly if members of these names lead there; a last star stands for the members of an object without a member of that name |
| SelectionLaws.ComparisonRead | deps/mustach/mustach-wrap.c:74-98 | a path with its comparison characters escaped, an operator and a value are read as these three |
| SelectionLaws.SelectsExactly | deps/mustach/mustach-wrap.c:139-234 | what any name for non-empty keys selects, dotted or as a pointer, with or without a comparison: the value its keys lead to from the innermost level with the first of them, if it compares as asked, or does not where the value starts with an exclamation mark; a last star the members of an object; nothing otherwise |
| SelectionLaws.SelectsCurrent | deps/mustach/mustach-wrap.c:168-171 | a dot selects the current object, and so does the pointer to a key that is a dot |
| SelectionLaws.TextExactly | deps/mustach/mustach-wrap.c:317-330 | what a variable with such a name puts out before escaping |
| SelectionLaws.ItemsExactly | deps/mustach/mustach-jansson.c:109-147 | a section stays closed for nothing, false, null and an empty array, walks through an array or the members of an object in order, and enters any other value once |
| Wrapper.SelectName | deps/mustach/mustach-wrap.c:139-234 | the selection of a name on the scratch buffer is the selection rule of the specification |
| Wrapper.SelectKeys | deps/mustach/mustach-wrap.c:139-234 | the first key is looked up through all levels, and the rest below what it found |
| Wrapper.EnterSection | deps/mustach/mustach-wrap.c:301-305 | entering a section pushes the first of the items the specification lists |
| Wrapper.PutVariable | deps/mustach/mustach-wrap.c:317-330 | a variable appends the text of its value, escaped or not; a missing one appends nothing |
| KeyBuffer.GetKey | deps/mustach/mustach-wrap.c:100-137 | the in-place loop leaves the first key, terminated, where the path began, and the position of the rest; the write index never passes the read index |
| KeyBuffer.CutKey | deps/mustach/mustach-wrap.c:126-130 | the copied key gets its terminator; what stands in front of it and behind the path is left alone |
| KeyBuffer.CompAt | deps/mustach/mustach-wrap.c:65-72 | the comparison operator that starts at a position |
| KeyBuffer.CutComparison | deps/mustach/mustach-wrap.c:74-98 | the in-place loop separates a key from the compared value, backslashes or tildes removed |
| KeyPaths.DottedRoundTrip | deps/mustach/mustach-wrap.c:125-134 | escaping non-empty keys, joining them with dots and splitting gives the keys back |
| KeyPaths.OnePassIsRfc | deps/mustach/mustach-wrap.c:110-124 | on valid tokens one pass decodes `~0` and `~1` like the two substitutions of section 4 of RFC 6901 |
| KeyPaths.PointerRoundTrip | deps/mustach/mustach-wrap.c:110-124 | splitting a joined pointer gives the decoded tokens |
| KeyPaths.EncodedPointerRoundTrip | deps/mustach/mustach-wrap.c:110-124 | encoding non-empty keys, joining and splitting gives the keys back |
| KeyPaths.RfcEncodeRoundTrip | deps/mustach/mustach-wrap.c:110-124 | decoding undoes encoding of a token, and encoded tokens are valid |
| ConnectionPool.GetHandsOut | src/server/db_pool.c:68-99 | a connection nobody holds is handed out and marked; none is returned exactly when all are in use and no new one can be made |
| ConnectionPool.ReturnFrees | src/server/db_pool.c:101-114 | returning frees that connection and no other |
| ConnectionPool.FirstFree | src/server/db_pool.c:73-82 | the first connection that is not in use |
| ConnectionPool.PoolObject.constructor | src/server/db_pool.c:24-66 | the loop opens connections up to the requested number without looking at the limit: the pool respects its limit exactly if not more than 50 were opened |
| ConnectionPool.InitConnectionPool | src/server/db_pool.c:24-66 | fails on bad arguments or when the first connection fails, and on nothing else; otherwise the pool respects its limit exactly if not more than 50 connections were asked for or one of the first 51 was refused |
| ConnectionPool.PoolOverLimit | src/server/db_pool.c:24-66 | asked for 51 connections, all accepted, it makes a pool of 51 with a limit of 50 |
| ConnectionPool.PoolObject.GetConnection | src/server/db_pool.c:68-99 | the locked method does to the list what the specification says |
| ConnectionPool.PoolObject.ReturnConnection | src/server/db_pool.c:101-114 | the locked method frees the connection |
| StatementCache.FindsCached | src/server/db.c:50-62 | a statement is found for a connection and SQL exactly when it is the cached one |
| StatementCache.AddKeeps | src/server/db.c:89-98 | adding after a miss keeps at most one entry per connection and SQL, each in the bucket of its SQL |
| StatementCache.CacheObject.FindPreparedStmt | src/server/db.c:50-62 | the walk along the bucket finds what the specification finds |
| StatementCache.CacheObject.PrepareSqlStatement | src/server/db.c:64-102 | returns the cached statement, or caches a new one under the next name, or leaves the cache alone when the server refuses |
| Database.StepKeeps | src/server/db.c:28-122 | every atomic step of every thread keeps exclusive connections, a valid pool and cache, and a cache that agrees with the server except for reset pairs |
| DatabaseProgress.EnabledExactly | src/server/db.c:28-122 | a thread takes a step exactly at its place: it begins when idle, prepares with a connection in hand, executes once prepared, and releases after that; other threads are left alone |
| DatabaseProgress.NeverStuck | src/server/db.c:104-122 | whatever the server answers, a thread inside a query has exactly one kind of step before it |
| DatabaseProgress.BeginTakes | src/server/db.c:28-39 | an idle thread gets a connection nobody holds, and none exactly if all are in use and no further one can be opened |
| DatabaseProgress.PrepareOutcome | src/server/db.c:64-102 | a cached statement is taken as it is; otherwise a new one under the next name is known to server and cache from then on, unless the server refuses the text or has the name: then the thread gives up and nothing is cached |
| DatabaseProgress.ExecuteOutcome | src/server/db.c:115-118 | executing logs what the server has under the name of the statement, which is the SQL asked for unless the pair is stale |
| DatabaseProgress.ReleaseReturns | src/server/db_pool.c:101-114 | releasing, with the connection broken or not, leaves the thread idle and frees exactly its connection; a broken one comes back without its prepared statements |
| DatabaseProgress.AllReturned | src/server/db.c:104-122 | every connection comes back: any number of threads that run whole queries, interleaved in any way and whatever the server answers, leave no connection in use |
| DatabaseProgress.QueryEnds | src/server/db.c:104-122 | a prepared query that finds a connection ends with its thread idle and the connections in use as before; it executes once if the statement can be used, and what was asked for unless the pair is stale |
| DatabaseProgress.PlainQueryEnds | src/server/db.c:276-312 | a plain query likewise |
| Database.AlwaysSafe | src/server/db.c:28-122 | over all interleavings: a connection is in use exactly when one thread holds it, and what is executed on a connection that was not reset since is what was asked for |
| Database.ResetFreeAlwaysRight | src/server/db.c:104-122 | on runs without a reset every executed name was prepared on that connection with exactly the requested SQL |
| Database.RightExactlyWhenNotStale | src/server/db_pool.c:101-114 | in general, however statements are named, an execution is right if and only if its connection has not been reset since the statement was cached |
| Database.StaleFindsNothing | src/server/db.c:76-79 | under the names the code makes, in a run of at most 100 000 000 000 000 steps, a wrong execution finds no statement at all |
| StatementNames.NamesDifferBelow | src/server/db.c:76-79 | names made from different counter values below that number differ, whatever the processes |
| StatementNames.NamesCollide | src/server/db.c:76-79 | from there on the buffer of 32 characters can cut two names to the same text |
| Database.StaleForever | src/server/db_pool.c:101-114 | a pair of connection and SQL that was reset since it was cached stays so for good, and every later execution of it is a wrong one |
| Database.ResetBreaksAnExecution | src/server/db_pool.c:101-114 | a run in which a statement is prepared, executed, its connection released broken and reset, and then executed again under a name the server no longer has |
| Database.NoConnectionOnlyWhenAllHeld | src/server/db_pool.c:68-99 | a query finds no connection only when threads hold all of them and no further one can be opened |
| Names.SortUnique | src/migration.c:247-256 | a sorted permutation of names is the sort |
| Names.SortSorts | src/migration.c:247-256 | the specification sorts and permutes |
| Names.LeqExactly | src/migration.c:250 | the order is that of strcmp: a text comes before its continuations, and where two first differ the smaller character decides |
| Names.ExchangeSort | src/migration.c:247-256 | the two nested exchange loops sort the array in strcmp order |
| Migration.UpCoherent | src/migration.c:183-335 | one `up` on directories without quotes, whatever fails: the table grows by a prefix of the sorted pending directories, 0 is returned exactly when that is all of them, and table and schema stay in step if no recording failed |
| Migration.UpGrows | src/migration.c:183-335 | with quotes in pairs the table grows by what the server stores for a prefix of the sorted pending directories, which are their names exactly if none has a quote; 0 is returned exactly when that is all of them, and the schema has seen exactly the scripts of that prefix, and of one more directory if its recording failed |
| Migration.ApplyOneCoherent | src/migration.c:271-318 | one pending migration without quotes in its name keeps table and schema in step unless its recording fails |
| Migration.ApplyAllCoherent | src/migration.c:258-322 | the loop records a prefix of what is pending |
| Migration.SecondUpExactly | src/migration.c:183-335 | an `up` after a successful one succeeds exactly when no name it recorded holds a quote, and then changes nothing; doubled quotes are stored single, so that the name is not found applied |
| Migration.LiteralExact | src/migration.c:304-312 | the name pasted into the INSERT is stored as it is exactly when it has no quote |
| Migration.QuotedNameRunsTwice | src/migration.c:304-312 | the directory `1_it''s` is stored as `1_it's`, and the next `up` runs its script again and fails |
| Migration.QuotedNameIsRecorded | src/migration.c:304-312 | such a first `up` does succeed |
| Migration.UnrecordedRunsAgain | src/migration.c:290-312 | after a failed recording the schema is one script ahead, in step exactly if that script changes nothing, and the next `up` runs the script again first |
| Migration.DownCoherent | src/migration.c:337-409 | one `down`, whatever fails: pops the last name and undoes its script, changes nothing, or leaves the schema one script behind |
| Migration.HistoryCoherent | src/migration.c:183-409 | over every history of ups and downs on names without quotes, with scripts failing at any point, no name is recorded twice and the schema is the recorded up scripts run in order, as long as every change of the table succeeds |
| MigrationProgress.OneExactly | src/migration.c:271-318 | a pending migration without quotes in its name succeeds exactly if its script can be read and runs, and its name, of at most 967 characters and without comment markers, can be recorded; then it is the last one and the schema is what the script made |
| MigrationProgress.UpExactly | src/migration.c:183-335 | `up` returns 0 exactly if it can start, all that holds for every pending directory, and their scripts run one after the other; then all of them are recorded in order, and the schema is where the scripts lead |
| MigrationProgress.DownExactly | src/migration.c:337-409 | `down` reverts the last migration exactly if it can start, the script can be read and runs, and the name can be deleted; an unreadable script changes nothing |
| MigrationProgress.DownNothing | src/migration.c:351-355 | with nothing recorded `down` changes nothing and returns 0 |
| MigrationProgress.DownsExactly | src/migration.c:337-409 | a database in step with inverting scripts can be taken back exactly as far as everything works: that the down scripts run follows |
| MigrationProgress.UpThenDowns | src/migration.c:183-409 | as many downs as an `up` recorded migrations restore table and schema, also when it stopped half-way, and they succeed exactly if each of them starts and can read, run and delete its migration, the last recorded first |
| Migration.TemplatesRefused | src/migration.c:602-603 | the scripts `migrate create` writes are refused by executeQuery |
| Migration.IsApplied | src/migration.c:262-269 | the inner loop decides whether a name was applied at the start |
| Migration.ApplyPending | src/migration.c:271-318 | one turn of the loop on the database is the step of the specification |
| Migration.Store.Run | src/server/db.c:276-312 | a query that is refused or fails changes nothing |
| Migration.MigrateUp | src/migration.c:183-335 | the command leaves database and return code as the specification says |
| Migration.MigrateDown | src/migration.c:337-409 | likewise for `down` |
| RouteParams.MatchSubstitutes | src/server/route_params.c:5-51 | whatever is accepted, putting the captured values into the pattern gives back the URL |
| RouteParams.SubstituteMatches | src/server/route_params.c:5-51 | a pattern with slash-free, non-empty values put in is accepted and yields those names and values |
| RouteParams.MatchesItself | src/server/route_params.c:5-51 | every route matches itself as a pattern |
| RouteParams.StoredRoundTrip | src/server/route_params.c:20-31 | the parameters that are kept give back the URL exactly if the pattern has at most eight |
| RouteParams.Params.ScanSegment | src/server/route_params.c:12-26 | the inner loop ends at the next slash |
| RouteParams.Params.Parse | src/server/route_params.c:5-51 | the loop with two advancing positions accepts and stores what the specification says |
| HashTables.BuildPartitions | src/server/routing.c:68-151 | the 64 chains partition the declared list by hash |
| HashTables.FindsLast | src/server/routing.c:181-264 | looking up a key finds its last declaration |
| HashTables.LastNone | src/server/routing.c:181-264 | nothing is found exactly when nothing is declared under the key |
| HashTables.LaterOverrides | src/server/routing.c:112-150 | later declarations hide earlier ones of the same key |
| HashTables.Table.Fill | src/server/routing.c:112-150 | the loop that prepends builds the chains |
| HashTables.Table.Lookup | src/server/routing.c:181-264 | the walk along a chain finds what the specification finds |
| Overrides.MainOverridesIncludes | src/server/routing.c:68-111 | for every kind looked up by name or route, with included declarations in front, a look-up finds the website's own last one of the name, an included one only if there is no own one, nothing only if there is none at all |
| Overrides.EndpointsOverride | src/server/routing.c:112-124 | the same for endpoints, looked up by route and method |
| Overrides.OwnHidesIncluded | src/server/routing.c:112-150 | the same for any table of declarations |
| Overrides.LastPosition | src/server/routing.c:112-150 | the position found is the last one with the key |
| RouteMaps.BuildTable | src/server/routing.c:68-151 | walking a linked list of declarations head first fills the table of its entries |
| RouteMaps.Serve | src/server/routing.c:68-151 | from text to look-up: there is an answer exactly when the program and its includes load; it is the last declaration with the key, one of the text's own exactly when it has one, an included one otherwise, nothing exactly when there is none |
| Routing.Router.constructor | src/server/routing.c:68-111 | the tables built agree with the declared lists |
| Routing.Router.FindPage | src/server/routing.c:153-179 | the last page declared with the URL as its route, and then no parameters, otherwise a page whose pattern matches, with the parameters captured by it; nothing exactly when none matches |
| Routing.Router.FindApi | src/server/routing.c:198-225 | the same for endpoints, with the method compared |
| Routing.Router.FindRoute | src/server/routing.c:340-361 | an endpoint exactly when one matches in pattern and method, no route exactly when no page matches either, and the parameters left behind are those of the route returned |
| RawText.StopsAfterBalanced | src/lexer.c:100-121 | the brace count stops behind a text exactly if the text is balanced |
| RawText.BlockContent | src/lexer.c:95-121 | lexing a balanced text in braces stops at the matching brace with that text |
| RawText.StripsLines | src/lexer.c:123-178 | the copying pass yields the lines without their leading spaces and tabs |
| RawText.StripIdempotent | src/lexer.c:123-178 | stripping twice is stripping once |
| Lexical.RawBlockStops | src/lexer.c:95-178 | a raw block ends at the matching brace and holds the content without indentation; it is an error exactly when there is no matching brace |
| Lexical.RawBlockOfBalanced | src/lexer.c:95-178 | balanced text in braces is read as one raw block with the text stripped |
| Lexical.NextProgress | src/lexer.c:516-581 | every token but the end of input uses up a character, and the end is reported exactly where only white space and comments are left |
| Lexical.NoEscapes | src/lexer.c:331-353 | no newline is read as an escaped character in a text without a backslash directly in front of a newline |
| Lexical.CssWithoutBrace | src/lexer.c:263-270 | the token behind the keyword `css` is never an opening brace |
| TokenPrinting.KeywordExactly | src/lexer.c:180-237 | a word is the keyword whose spelling it is, and no keyword exactly if it is no spelling |
| TokenPrinting.PrintedIsRead | src/lexer.c:516-581 | every text of tokens, written with white space and comments between them or nothing where nothing runs together, is read as just these tokens and then the end: keywords, other words, strings of both kinds, numbers, ranges, environment variables, signs, blocks of code behind the keywords that have them, words in brackets as strings, `css` with its block and `sql` with a quoted text as one token |
| Lexing.Lexer.SkipWhitespace | src/lexer.c:37-66 | the loop stops behind white space and comments, as specified |
| Lexing.Lexer.ScanBraces | src/lexer.c:100-121 | the brace count finds the specified end of the block |
| Lexing.Lexer.RawBlock | src/lexer.c:95-178 | counting and copying yield the specified raw block |
| Lexing.Lexer.CountStripped | src/lexer.c:123-146 | the counting pass counts what the copying pass writes |
| Lexing.Lexer.CopyStripped | src/lexer.c:148-178 | the copying pass stays inside the buffer of the counted size |
| Lexing.Lexer.IdentifierOrKeyword | src/lexer.c:239-277 | the specified word token |
| Lexing.Lexer.ScanTriple | src/lexer.c:289-313 | the specified end of a triple-quoted string |
| Lexing.Lexer.ScanQuoted | src/lexer.c:331-353 | the specified end of a quoted string; exactly the newlines read as escaped characters stay uncounted |
| Lexing.Lexer.StringLiteral | src/lexer.c:279-366 | the specified string token or error |
| Lexing.Lexer.RawStringLiteral | src/lexer.c:402-423 | the specified raw string token or error |
| Lexing.Lexer.ScanNumber | src/lexer.c:368-400 | the specified number, range or error |
| Lexing.Lexer.ScanRange | src/lexer.c:372-386 | the specified range behind two dots, or the error |
| Lexing.Lexer.ScanFraction | src/lexer.c:388-397 | the specified fraction behind a dot, or the error |
| Lexing.Lexer.ScanToken | src/lexer.c:530-568 | the switch on the first character yields the specified token |
| Lexing.Lexer.GetNextToken | src/lexer.c:516-581 | the n-th call yields the n-th token of the text, on the line the counter shows, and the scanner stands at the place behind it |
| Lexing.Lexer.LineCount | src/lexer.c:37-66 | after n tokens the line counter is one plus the newlines read less those that were read as escaped characters in quoted strings; it is exact if and only if there was none, so in every text without a backslash directly in front of a newline |
| Lexing.MissedNewline | src/lexer.c:331-353 | behind the string of a backslash and a newline the counter still shows line 1 |
| NodeLists.ChainUnique | src/parser.c:1168-1359 | the pointers of an acyclic list determine its nodes |
| NodeLists.LinkBehind | src/parser.c:1178-1183 | walking to the tail and linking appends a chain of other nodes |
| NodeLists.NodeList.LinkTail | src/parser.c:1176-1185 | the same for a list that may be empty; the list stays acyclic |
| NodeLists.NodeList.Append | src/parser.c:1176-1185 | the new declaration is the last of the list |
| NodeLists.NodeList.Splice | src/include.c:103-111 | the included nodes follow in their order |
| Declarations.ScanConcat | src/parser.c:1168-1359 | the flat scan of a text can be done piece by piece |
| Declarations.DeclaredConcat | src/parser.c:1168-1359 | what a text declares and includes up to a point outside all declarations does not depend on what follows |
| Declarations.EndsOnce | src/parser.c:1168-1171 | the part of a text that counts, up to its end or the first unmatched closing brace, is determined by the text |
| Websites.Website.Append | src/parser.c:1176-1185 | a declaration goes to the end of the linked list of its kind; the eight lists stay acyclic and apart, and no other list changes |
| Websites.Website.SpliceList | src/include.c:103-111 | one list takes over the nodes of another |
| Websites.Website.Splice | src/include.c:101-181 | eight-way splice: every linked list holds its own declarations and then the included ones, and the eight stay acyclic and apart |
| Parsing.Parser.Advance | src/parser.c:45-48 | reads one token: what may come and the flat scan move on by it, and what is left to read shrinks unless the current token is the end |
| Parsing.Parser.Consume | src/parser.c:50-60 | passes over the expected token, or sets an error and reads nothing; errors stay |
| Parsing.Parser.ParseLayout | src/parser.c:103-145 | ends on every text; without an error it has read one block of the language, and the scan of its tokens declares exactly the layout returned; an error is about a token that cannot come |
| Parsing.Parser.ParsePage | src/parser.c:147-249 | the same for a page, named by its route |
| Parsing.Parser.ParseStyleBlock | src/parser.c:251-296 | the same for a style block, named by its selector |
| Parsing.Parser.ParseStyleProps | src/parser.c:298-334 | ends, and without an error has read the properties and the closing brace |
| Parsing.Parser.ParsePort | src/parser.c:1420-1442 | an error exactly unless an environment variable or decimal digits between 1 and 65535 follow |
| Parsing.Parser.ParsePipelineStep | src/parser.c:353-450 | reads a step of the language or reports a token that cannot come |
| Parsing.Parser.ParsePipeline | src/parser.c:452-476 | ends; without an error it has read one pipeline in braces, which declares nothing |
| Parsing.Parser.ParseApi | src/parser.c:478-530 | like ParsePage, for an endpoint |
| Parsing.Parser.ParseApiFields | src/parser.c:532-612 | ends; without an error it has read the fields and the closing brace |
| Parsing.Parser.ParseQueryParams | src/parser.c:614-663 | ends; reads a bracketed list, which declares nothing |
| Parsing.Parser.ParseQuery | src/parser.c:665-718 | like ParseLayout, for a query |
| Parsing.Parser.ParseNamedCode | src/parser.c:720-810 | like ParseLayout, for a transform or script |
| Parsing.Parser.ParseResponseBlock | src/parser.c:826-878 | ends; one block that declares nothing, in which no template follows a redirect |
| Parsing.Parser.ParsePartial | src/parser.c:880-928 | like ParseLayout, for a partial with a name and a template |
| Parsing.Parser.ParseAuth | src/parser.c:930-1017 | ends; one block that declares nothing |
| Parsing.Parser.ParseEmailTemplate | src/parser.c:1019-1059 | ends; one block that declares nothing |
| Parsing.Parser.ParseSendGrid | src/parser.c:1061-1117 | ends; one block that declares nothing |
| Parsing.Parser.ParseEmail | src/parser.c:1119-1166 | ends; one block that declares nothing |
| Parsing.Parser.ParseStyleEntry | src/parser.c:1213-1256 | adds exactly one style declaration; the branch for the keyword `css` always ends in an error |
| Parsing.Parser.ParseStyles | src/parser.c:1206-1269 | ends; the style list grows by what the scan declares |
| Parsing.Parser.ParseWebsiteNode | src/parser.c:1168-1359 | ends on every text at a closing brace, the end or an error; without an error every list grows by exactly the scanned declarations in source order |
| Parsing.ParseWebsiteContent | src/parser.c:1474-1481 | an included text is refused exactly when it is not in the language; otherwise a website of its own holds what it declares |
| Parsing.ProcessInclude | src/include.c:48-186 | succeeds exactly for a path not included yet, among the first 100, under which there is a text of the language; then its declarations follow those there are in all eight lists, otherwise no list changes |
| Parsing.ParseInclude | src/parser.c:1403-1419 | an include adds its path and the declarations of that file, or is an error that no program with this include escapes |
| Parsing.ParseOpening | src/parser.c:1373-1374 | no error exactly if the text starts with `website {` |
| Parsing.ParseProgramEntry | src/parser.c:1376-1456 | settings and includes come only before the website's own declarations |
| Parsing.ParseEntries | src/parser.c:1376-1456 | the loop up to the closing brace ends on every text, with an error only for a text that does not load |
| Parsing.BlockedLoadsNot | src/parser.c:1403-1419 | a text that includes something that cannot be included does not load, however it goes on |
| Parsing.ProgramEndsOnce | src/parser.c:1361-1472 | where a program ends is determined by its text |
| Grammar.FailsForGood | src/parser.c:50-60 | a text with a token that cannot come is not in the language, however it goes on |
| Parsing.ParseProgram | src/parser.c:1361-1472 | ends on every text, with an error exactly when the text is not a program of the language or includes, in its order, a path twice, a missing file, a text outside the language or more than 100 files; without an error exactly the files it includes were read, and the eight linked lists hold the declarations of those files and then the text's own: what a flat brace-counting scan of the tokens finds |
| TreesAccepted.EntryFed | src/parser.c:103-1359 | the grammar accepts the text of every entry of a tree where it is allowed, and expects the next one there |
| TreesAccepted.StartsExactly | src/parser.c:103-1359 | where an entry may stand, nothing is accepted but the start of an allowed one and the end of the block; no template behind the redirect of a response, and no end of a partial without its name and its template |
| TreesAccepted.FollowsExactly | src/parser.c:103-1359 | what has to stand behind the start of an entry, and that nothing else is accepted there |
| TreesAccepted.PropertyExactly | src/parser.c:532-612 | three properties of a field ask for a text and two for a range |
| TreesAccepted.RawStringRefused | src/lexer.c:570-576 | `sql` with a text in quotes is refused wherever an entry may stand, since the lexer makes one raw string of it |
| TreesDeclared.DeclarationScanned | src/parser.c:1168-1359 | a declaration declares what its entries say: pages and endpoints their route, endpoints their method, everything else its name, the last one given, and styles one by one |
| WebsitePrinting.WrittenContent | src/parser.c:1474-1481 | every file of declarations, written down, can be included and declares what its entries do |
| WebsitePrinting.WrittenProgram | src/parser.c:1361-1472 | every website, written down, is a program that declares and includes what its entries do |
| WebsitePrinting.WrittenLoads | src/parser.c:1361-1472 | every website, written down, loads exactly if its includes can be included, and then declares what its entries do |
| Arenas.Arena.Alloc | src/arena.c:29-49 | fails exactly when the rounded size does not fit; blocks are 8-aligned, in bounds and apart from all earlier ones |
| Arenas.GrantedInBoundsExactly | src/arena.c:29-49 | for requests near the top of the address space a granted block is in bounds exactly if the sum did not wrap around |
| Arenas.RequestWraps | src/arena.c:29-49 | a request of eight bytes less than the address space is granted although it is not in bounds |
| StringBuilder.AppendSound | src/stringbuilder.c:26-75 | an append keeps `length < capacity` and the other bounds exactly if text and terminator fit 1 MiB |
| StringBuilder.AppendsConcatenate | src/stringbuilder.c:26-75 | within 1 MiB any appends yield the concatenation, capacity 1024 times a power of two or the cap, below twice the need once grown, all buffers together below twice the last |
| StringBuilder.NewBuilder | src/stringbuilder.c:9-24 | NULL exactly when the arena has no room for the structure and its first buffer; otherwise an empty builder that is sound |
| StringBuilder.Builder.Print | src/stringbuilder.c:33-37 | writes as much as leaves room for the terminator and touches nothing else |
| StringBuilder.Builder.Grow | src/stringbuilder.c:41-50 | the doubling loop reaches the specified capacity |
| StringBuilder.Builder.Append | src/stringbuilder.c:26-75 | appends, or drops the text when buffer or arena are at their limit; the length passes the capacity exactly when the buffer grew to the cap and the text still does not fit |
| StringBuilder.PastTheCap | src/stringbuilder.c:26-75 | an append that makes length and capacity both 1 MiB, so that the terminator stands outside the buffer |
| Ipv4.ValidateIpv4 | src/server/validation.c:152-182 | accepts exactly the texts of four digit parts of at most three digits and value 255, all but the last possibly empty |
| Ipv4.AcceptsRfc3986 | src/server/validation.c:152-182 | accepts every IPv4address of section 3.2.2 of RFC 3986, and an accepted text is one exactly if no part is empty or has a needless zero in front |
| Ipv4.AcceptsMore | src/server/validation.c:152-182 | two texts accepted beyond it |
| QueryBuilder.RenumberExact | scripts/querybuilder.lua:29-36 | in a condition that names no parameter itself the placeholders continue the count exactly if no `?` is directly followed by a digit |
| QueryBuilder.JsonPathCondition | scripts/querybuilder.lua:29-36 | a jsonpath condition with a `$` names no parameter |
| QueryBuilder.CallsNumbered | scripts/querybuilder.lua:19-76 | any chain of valid calls keeps the placeholders numbered 1 to n and the parameters in the order they were supplied |
| QueryBuilder.PlaceholdersBound | scripts/querybuilder.lua:78-196 | the built SQL, plain or with metadata, has the placeholders $1 to $n from left to right, each bound to the parameter supplied for its `?`; only a query with metadata and a limit or offset with a fraction cannot be built |
| QueryBuilder.QueryNumbered | scripts/querybuilder.lua:78-171 | in a query with metadata only the core has placeholders: the format around it, the second select list, the limits and the typed NULL fields have none |
| QueryBuilder.FormatPlaceholders | scripts/querybuilder.lua:119-170 | the placeholders of a formatted text are those of its arguments, one after the other, if the format has no `$` and no digit behind an argument |
| QueryBuilder.FieldNameSilent | scripts/querybuilder.lua:83-84 | the name cut out of a column, in front of an alias and behind the last dot, names no parameter if the column does not |
| QueryBuilder.SilentExactly | scripts/querybuilder.lua:29-36 | a text names no parameter exactly if no digit stands behind a `$` |
| QueryBuilder.DigitAfterMark | scripts/querybuilder.lua:29-36 | `x = ?0` with one parameter does not refer to the first one |
| QueryTexts.WhereAppends | scripts/querybuilder.lua:26-51 | the SQL after a condition is the SQL before, WHERE for the first condition and AND for later ones, and the condition with its marks numbered |
| QueryTexts.OrderAppends | scripts/querybuilder.lua:53-56 | an order is put behind the SQL before |
| QueryTexts.LimitAppends | scripts/querybuilder.lua:58-63 | so is a limit |
| QueryTexts.OffsetAppends | scripts/querybuilder.lua:65-70 | and an offset |
| QueryTexts.FromAppends | scripts/querybuilder.lua:21-24 | the source comes behind the columns |
| QueryTexts.SelectStarts | scripts/querybuilder.lua:16-19 | a star without columns, the column alone with one |
| QueryTexts.SelectAppends | scripts/querybuilder.lua:16-19 | a further column comes behind a comma |
| QueryTexts.RenumberPieces | scripts/querybuilder.lua:29-36 | a mark becomes the placeholder of the next number and everything else in a condition stays as it is |
| QueryTexts.TextOfCalls | scripts/querybuilder.lua:173-189 | for every chain of calls without metadata, in whatever order: the columns, source and order given last, all conditions in order and numbered through, and the limits given last, each behind its word |
| QueryTexts.MetadataText | scripts/querybuilder.lua:104-170 | the query with metadata holds the plain query without limits inside `base_query`, the limit and offset of the data rows behind it, the columns, as many typed NULL fields, and offset and limit once as columns and once in looking for more rows |
| QueryTexts.FieldNameRead | scripts/querybuilder.lua:83-84 | a field is named by its column: what stands in front of `as`, without what qualifies it |
| QueryTexts.NullFieldText | scripts/querybuilder.lua:86-99 | its type is the one given, or follows from its name |
| QueryBuilder.QueryBuilderObject.AddCondition | scripts/querybuilder.lua:29-44 | `where`: the counting substitution and the loop that collects parameters up to the first nil |
| QueryBuilder.QueryBuilderObject.Call | scripts/querybuilder.lua:19-76 | every builder call changes the state as specified and nothing else |
| QueryBuilder.QueryBuilderObject.CollectNullFields | scripts/querybuilder.lua:81-101 | the loop yields one typed NULL for every selected column |
| QueryBuilder.QueryBuilderObject.Build | scripts/querybuilder.lua:78-196 | the text put together part by part is the specified one, and the parameters are those collected |

## Left out

- EngineCorrect.MachineIsRecursion: asks that a section rendered more than once restores the delimiters, which
  is sufficient; where it does not, a second pass may still happen to read the same tags.
- Process.Process: the text a failing run put out before its error is not stated, since mustach_mem drops it.
- Parsing.ProcessInclude: the file system is a fixed map from paths to texts without NUL.
- Migration.MigrateUp: takes at most 1000 directories and 1000 applied names, the size of the code's arrays.
- Migration.HistoryCoherent: is about names without quotes, as are the other coherence results. With quotes in
  pairs the record is another name (Migration.UpGrows says what one `up` does then); with an unpaired quote
  the outcome of the statement is arbitrary.
- Migration.Store.Run: the scripts themselves do not touch the table of migrations.
- QueryBuilder.PlaceholdersBound: no text passed in, condition, column, source, order or field type, names a
  parameter itself; columns and field types are strings.
- Partials: no partial is declared, so a partial tag includes nothing; real partials and their indentation
  prefixes would need a bound on recursion that the code does not have.
- The comparison of JSON numbers with a tag's value, the text of numbers and the dump of arrays and objects
  are parameters of the template model.
- The trimming of a tag's name and the parsing of a delimiter tag are functions, not the loops of the code.
- A tag that consists of a sigil only makes a length wrap around in the code; it counts as too long here.
- Steps of the database model are atomic under the locks the code takes; statement names and hashes are
  arbitrary functions; libpq and PostgreSQL are events that succeed or fail.
- Scripts are fixed during a history, and running one is all or nothing.
- Only kind, look-up name and method of a declaration are kept; the other fields of the syntax tree are not modelled,
  and an absent name is the empty text.
- WebsitePrinting.WrittenProgram: trees have no raw CSS inside the braces of a style, for which the parser asks two
  more pairs of braces; Grammar and the parsing theorems cover it.
- Declarations whose look-up name is missing: the code would hash a NULL pointer for them.
- Memory allocation failures other than those of the arena; data races on the arena that pool and cache share.
- HTTP handling, authentication, email, GitHub, jq and Lua execution, other validators, CSS and website JSON.

# Artemis, modelled and verified

Artemis is a GraphQL implementation in Go. This project models the parts of it whose correctness is hard to
see, as Dafny programs, and proves what they are for. `dafny verify dfyconfig.toml` verifies everything.

Values keep the form of the source: what the source computes is a function, what it updates in place is a
class or a method with loops, and what runs concurrently is a step machine in which every atomic load,
compare-and-swap or mutex section is one step and any number of calls interleave. A method promises a function
of its input or of the old state; the lemmas are about those functions and about all runs of the machines.

| area | modules | main results |
|---|---|---|
| concurrent map | `SyncMapProtocol`, `SyncMapProof`, `SyncMapRuns`, `SyncMap` | every interleaving and every sequence of calls behaves like a plain map |
| worker pool | `WorkerPool`, `WorkerPoolProof`, `WorkerPoolSteps`, `WorkerPoolShutdown`, `WorkerPoolRuns`, `WorkerPoolQueue` | the state word is sound, no accepted task is stranded, TERMINATED means done |
| data loader | `TaskCell`, `TaskCellProof`, `TaskCellLost`, `BatchJob`, `DataLoaderBatches`, `DataLoaderQueue`, `DataLoaderRuns` | exactly when no wakeup is lost; tasks are conserved and batched, and a batch that was run is completed |
| field collection | `FieldCollection`, `FieldCollectionLoop`, `FieldCollectionSpec`, `FieldCollectionExact`, `FieldCollectionErrors` | the resumable loop is the recursion; exactly when it agrees with the specification, and when it fails |
| strings | `Utf8`, `JsonStream`, `BlockStrings`, `Lexing`, `StringRoundTrip`, `BlockStringRoundTrip` | quoted strings and block strings round trip, with the exact exceptions |
| documents | `Ast`, `Grammar`, `WellFormed`, `PrintableTokens`, `PrintedTokens`, `Parsing`, `ParseRoundTrip`, `LexedTokens`, `AcceptedDocuments`, `Lexers`, `Parsers`, `Printers`, `DocumentRoundTrip` | for every source text that the parser accepts, parsing undoes printing exactly if its strings are printable |
| result tree | `ResultNodeList`, `ResponsePath`, `ResultMarshaler` | indices and paths are inverted by navigation; the stack machine is the recursive writer |
| worklists and tables | `LexicalDistance`, `Graphs`, `Fragments`, `TypeMap` | the distance is a minimum; the worklists compute exact closures |

## Where the code does something else

Five properties one would expect fail for the code as it is. The model keeps the code, gives the input that
shows the failure and proves when the property does hold.

- A wakeup can be lost in the data loader's result cell, although every future has one poller, when a `Poll`
  overlaps both the `Poll` of another future and a `newFuture` (`TaskCellLost.WakeupIsLost`). No overlap of
  only one kind can lose one (`TaskCellLost.NoLostWakeupExactly`).
- For `{ a: nosuch a: name }` the executor collects the second field under `a`, where section 6.3.2 of the
  GraphQL specification (June 2018) groups both and then executes none
  (`FieldCollectionExact.LateDefinitionIsCollected`). The two agree exactly when no response key starts with a
  field that the type does not have and goes on with one that it has.
- When the arguments of a field cannot be coerced the executor gives up the whole selection set, where the
  specification gives up that field. It succeeds exactly when no directive fails and the first field that the
  type has coerces under every response key (`FieldCollectionErrors.CollectionSucceedsExactly`).
- A block string that is a single line ending in a backslash is printed so that its closing quotes are escaped
  (`BlockStringRoundTrip.BackslashBreaks`), and a quoted string that is not valid UTF-8 is printed with the
  error rune for every invalid byte (`StringRoundTrip.QuotedLexes`). These strings are not printable; a
  document comes back exactly if it has none (`AcceptedDocuments.DocumentRoundTripExactly`).
- `IndexOf` takes the address of the first node of a chunk that may be empty: it panics exactly when the first
  chunk is (`ResultNodeList.NoRoomPanics`), as for a SizedIterable that announces no element and yields one.

`Lookahead` is documented not to switch the current token; it does when a comment follows, and the comment
becomes the current token (`Lexers.Lexer.Lookahead` says so).

## Model

| member | source | states |
|---|---|---|
| `SyncMapRuns.NextOk` | internal/util/sync_map_compat.go:156-426 | every step of every call keeps the invariant: a read entry is expunged exactly when dirty exists and lacks its key, shared keys share their entry, and every thread holds an entry it may use |
| `SyncMapRuns.RunOk` | internal/util/sync_map_compat.go:156-426 | the invariant holds in every state of every run |
| `SyncMapRuns.NeverStuck` | internal/util/sync_map_compat.go:223-318 | a call that has not returned and does not wait for the mutex can take a step |
| `SyncMapRuns.EventChanges` | internal/util/sync_map_compat.go:223-348 | one step either leaves the plain map alone or does to one key what the operation asks for, and LoadOrStore stores only where there was nothing |
| `SyncMapRuns.RefinesPlainMap` | internal/util/sync_map_compat.go:156-426 | in every interleaving, what a SyncMap holds is what the acting steps leave in a plain map |
| `SyncMapRuns.ValueIsNeverLost` | internal/util/sync_map_compat.go:393-426 | the value of a key survives expunging, copying and promotion until the next step that stores or deletes that key |
| `SyncMapRuns.CallsAreAtomic` | internal/util/sync_map_compat.go:156-391 | every call that returned behaved like the operation on a plain map at one moment during the call: it acted once, or it acted not at all and reports a value that its key had then; for Range, any key it visits had the value then, and a key that it does not visit was absent at some moment of the call |
| `SyncMap.SyncMap.Promote` | internal/util/sync_map_compat.go:393-401 | making dirty the read map keeps the contents |
| `SyncMap.SyncMap.Load` | internal/util/sync_map_compat.go:156-179 | returns the value of the key, if it has one, and keeps the contents whatever is promoted |
| `SyncMap.SyncMap.DirtyLocked` | internal/util/sync_map_compat.go:403-426 | the new dirty map has the entries with values, the others are expunged, and the contents stay |
| `SyncMap.SyncMap.Store` | internal/util/sync_map_compat.go:190-248 | the contents get the value under the key and change nowhere else |
| `SyncMap.SyncMap.LoadOrStore` | internal/util/sync_map_compat.go:253-318 | returns the value that is there, or stores the given one |
| `SyncMap.SyncMap.Delete` | internal/util/sync_map_compat.go:321-348 | the contents lose the key and nothing else |
| `SyncMap.SyncMap.Range` | internal/util/sync_map_compat.go:360-391 | visits different pairs of the contents, stops only where the callback says so, and otherwise visits all |
| `SyncMap.RunAll` | internal/util/sync_map_compat.go:156-415 | every sequence of Load, Store, LoadOrStore, Delete and Range on a new map gets the replies of a plain map |
| `WorkerPoolRuns.NextOk` | concurrent/worker_pool_executor.go:550-844 | every step of every call and worker keeps the invariant of the pool |
| `WorkerPoolRuns.RunOk` | concurrent/worker_pool_executor.go:550-844 | the invariant holds in every state of every run |
| `WorkerPoolRuns.WordIsSound` | concurrent/worker_pool_executor.go:92-165 | the low 32 bits are the number of workers, at most max(MinPoolSize, 1), without a carry, and the rest is one of the three run states |
| `WorkerPoolRuns.NoStrandedTask` | concurrent/worker_pool_executor.go:301-374 | while an accepted task is queued, some worker is neither blocked in cond.Wait nor leaving |
| `WorkerPoolRuns.RunStateIsMonotone` | concurrent/worker_pool_executor.go:112-125 | the run state only moves forward |
| `WorkerPoolRuns.ResultIsSetOnce` | concurrent/worker_pool_executor.go:204-233 | no two steps of a run set the result of one task |
| `WorkerPoolRuns.TerminatedIsDone` | concurrent/worker_pool_executor.go:594-632 | a TERMINATED pool has no worker, every task whose Submit succeeded ran to its end or was taken out by Cancel, and what is queued belongs to an addTask that has yet to give it up |
| `WorkerPoolRuns.LeftoverIsRejected` | concurrent/worker_pool_executor.go:739-770 | what is queued at TERMINATED never runs, and its Submit fails if it returns |
| `WorkerPoolRuns.TerminatedStays` | concurrent/worker_pool_executor.go:594-632 | TERMINATED is final and no worker comes back |
| `WorkerPoolRuns.SignalMeansTerminated` | concurrent/worker_pool_executor.go:550-632 | a Shutdown channel is signalled only at TERMINATED, and a TERMINATED pool whose mutex is free owes no recorded Shutdown its signal |
| `WorkerPoolRuns.SignalIsSentOnce` | concurrent/worker_pool_executor.go:550-632 | no channel is written twice, so the send does not block |
| `WorkerPoolShutdown.ExitOk` | concurrent/worker_pool_executor.go:719-736 | with the default queue a worker leaves only a pool that is shut down, so terminateWorker never looks for a replacement |
| `WorkerPoolQueue.TaskQueue.Push` | concurrent/worker_pool_executor.go:301-336 | appends to the ring unless it is closed, and signals exactly when the ring was empty |
| `WorkerPoolQueue.TaskQueue.Poll` | concurrent/worker_pool_executor.go:339-374 | takes the first task; an empty ring waits once and not when it is closed |
| `WorkerPoolQueue.TaskQueue.Remove` | concurrent/worker_pool_executor.go:377-426 | finds the task exactly when it is in the ring, deletes it at the head, in the middle, at the tail or alone, and keeps the order of the others |
| `WorkerPoolQueue.WithoutAt` | concurrent/worker_pool_executor.go:377-426 | deleting a task from a queue of different tasks cuts out its one position |
| `TaskCellProof.NeverStuck` | dataloader/task.go:97-246 | no call ever meets a pointer or a slot that is not there |
| `TaskCellProof.CompletesOnce` | dataloader/task.go:223-246 | a task completes at most once and keeps its result |
| `TaskCellProof.NoLostWakeup` | dataloader/task.go:97-212 | a future none of whose Polls overlapped both another Poll and a newFuture has the waker of its latest pending Poll woken once a completion is over |
| `TaskCellLost.WakeupIsLost` | dataloader/task.go:97-212 | a run in which one Poll overlaps one other Poll and one newFuture, and a waker is never woken |
| `TaskCellLost.NoLostWakeupExactly` | dataloader/task.go:97-246 | when a Poll may overlap at most p other Polls and n newFutures, all runs keep every wakeup if and only if p or n is zero |
| `DataLoaderBatches.Task.Complete` | dataloader/task.go:223-246 | without concurrent callers, a task accepts one result; `TaskCellProof.CompletesOnce` says so for all of them |
| `DataLoaderBatches.Append` | dataloader/task.go:299-307 | appends to the linked list |
| `DataLoaderBatches.TaskIterator.Next` | dataloader/task.go:281-339 | visits each task of a part of a list in order and ends behind its last |
| `DataLoaderBatches.BatchesPartition` | dataloader/dataloader.go:252-316 | the batches concatenate to the queue, none is empty, and all but the last have exactly the maximal size |
| `DataLoaderBatches.DispatchQueue` | dataloader/dataloader.go:252-316 | the splitting loop makes exactly those batches, as parts of the linked list |
| `DataLoaderBatches.RunJob` | dataloader/batch_job.go:33-57 | without concurrent callers, afterwards every task of the batch is completed: as before, as the loader did, or with an error |
| `BatchJob.BatchIsCompleted` | dataloader/batch_job.go:33-57 | in every interleaving with polls, new futures and completions by others, a job that is done leaves every task of its batch completed |
| `BatchJob.ResultsStay` | dataloader/batch_job.go:33-57 | neither the job nor anybody else overwrites the result that a task got first |
| `BatchJob.JobIsNotStuck` | dataloader/batch_job.go:47-53 | while the job completes a task, that completion can take a step or has returned |
| `DataLoaderQueue.NextOk` | dataloader/dataloader.go:107-316 | every step of Load and Dispatch keeps the invariant of the queues |
| `DataLoaderRuns.Conservation` | dataloader/dataloader.go:107-316 | in every run an enqueued task is in one queue, once; a detached queue belongs to exactly one Dispatch, and the task is in exactly one place of one of its batches |
| `DataLoaderRuns.DispatchedBatches` | dataloader/dataloader.go:252-316 | in every run the batches of a Dispatch are its queue in order, full but for the last, none empty |
| `DataLoaderRuns.DetachedQueueIsFrozen` | dataloader/dataloader.go:107-126 | nothing is appended to a queue once it is detached |
| `DataLoaderRuns.LoadedTaskIsEnqueued` | dataloader/dataloader.go:184-212 | Load returns a task for its key that is enqueued or primed once the mutex is free |
| `DataLoaderRuns.KeysAreLoadedOnce` | dataloader/dataloader.go:184-212 | with the cache on and no Clear no key is enqueued twice |
| `FieldCollectionLoop.CollectField` | graphql/executor/execute.go:157-199 | a field joins the node of its response key or makes one, as the recursion groups it |
| `FieldCollectionLoop.Visit` | graphql/executor/execute.go:141-241 | one selection does to nodes, visited names and stack what the recursion does, and something gets smaller |
| `FieldCollectionLoop.Resume` | graphql/executor/execute.go:132-243 | resuming a selection set leaves the same result to be collected, and (unvisited fragments, remaining selections) decreases |
| `FieldCollectionLoop.BuildChildren` | graphql/executor/execute.go:92-246 | for non-empty selection sets and possibly cyclic fragments the loop ends, and its nodes are the groups of the recursion in order, or its error is the first one of the recursion |
| `FieldCollectionLoop.CollectFields` | graphql/executor/execute.go:61-89 | the nodes remembered for a runtime type agree with recomputation, and other types' are kept |
| `FieldCollectionSpec.CollectAddsFields` | graphql/executor/execute.go:92-246 | the recursion groups the fields in the order in which they are met |
| `FieldCollectionSpec.SpecGroupsFields` | graphql/executor/execute.go:92-246 | CollectFields of section 6.3.2, which merges the groups of each fragment, groups the same fields in the same order |
| `FieldCollectionExact.CollectAllIsMerged` | graphql/executor/execute.go:117-130 | collecting the selection sets of merged definitions in turn is collecting their merged selection set |
| `FieldCollectionExact.CollectsAsSpecified` | graphql/executor/execute.go:61-246 | when collecting succeeds, the nodes are what the specification executes if and only if no response key starts with an undefined field and goes on with a defined one |
| `FieldCollectionErrors.CollectionSucceedsExactly` | graphql/executor/execute.go:162-199 | collecting succeeds if and only if no directive fails and, for every response key, the arguments of the first field that the type has can be coerced |
| `FieldCollectionExact.LateDefinitionIsCollected` | graphql/executor/execute.go:162-199 | the query for which they differ |
| `Utf8.EncodeHead` | jsonwriter/stream_string.go:354-380 | encoding the code point that a string starts with gives its bytes back |
| `Utf8.SanitizedValid` | jsonwriter/stream_string.go:354-380 | replacing the bytes that start no encoding gives valid UTF-8 and changes exactly the strings that are not |
| `JsonStream.Stream.Write` | jsonwriter/stream.go:63-94 | at every fill level, what reached the sink and what is buffered is the concatenation of everything sent |
| `JsonStream.Stream.Flush` | jsonwriter/stream.go:97-114 | when it succeeds the sink has exactly what was sent |
| `JsonStream.Stream.WriteBytes` | jsonwriter/stream.go:116-138 | appends to what was sent |
| `JsonStream.Stream.WriteString` | jsonwriter/stream_string.go:301-319 | sends the string quoted and escaped, whatever is in the buffer |
| `JsonStream.Stream.WriteStringSlowPath` | jsonwriter/stream_string.go:321-386 | sends what is left, runs of plain characters at a time |
| `StringRoundTrip.QuotedLexes` | graphql/lexer/lexer.go:498-626 | lexing a quoted string gives the string with invalid bytes replaced, so the string itself if and only if it is valid UTF-8 |
| `BlockStrings.CountLeadingWhitespace` | graphql/internal/lexer/block_string_value.go:79-88 | counts the blanks that a line starts with |
| `BlockStrings.FindCommonIndent` | graphql/internal/lexer/block_string_value.go:41-51 | the loop finds the least indentation of the lines that are not blank |
| `BlockStrings.ComputeBlockStringValue` | graphql/internal/lexer/block_string_value.go:36-76 | the loops compute BlockStringValue of section 2.9.4 |
| `BlockStringRoundTrip.BlockValuesExactly` | graphql/internal/lexer/block_string_value.go:36-76 | the values are exactly the strings without blank lines at either end whose several lines have no indentation in common |
| `BlockStringRoundTrip.BackslashBreaks` | graphql/ast/printer.go:438-466 | a single line ending in a backslash is not lexed back, as a token of whatever length and whatever follows |
| `BlockStringRoundTrip.BlockStringsRoundTrip` | graphql/ast/printer.go:438-466 | at every indent level and whatever follows, a printed value is lexed back if and only if it is not a single line ending in a backslash |
| `BlockStringRoundTrip.NotIdempotent` | graphql/internal/lexer/block_string_value.go:36-76 | BlockStringValue of a value may differ from it |
| `Lexers.Lexer.ConsumeWhitespace` | graphql/lexer/lexer.go:134-172 | stops at the first byte that is not ignored, a byte order mark being skipped at the start alone |
| `Lexers.Lexer.LexNumber` | graphql/lexer/lexer.go:388-474 | reads the number that the text starts with, or fails as the grammar of numbers does |
| `Lexers.Lexer.LexString` | graphql/lexer/lexer.go:498-597 | reads a quoted string, or fails for the same reason as the recursive definition |
| `Lexers.Lexer.LexBlockString` | graphql/lexer/lexer.go:629-702 | reads a block string and computes its value |
| `Lexers.Lexer.LexToken` | graphql/lexer/lexer.go:239-345 | reads exactly one token of the text that was not read yet |
| `Lexers.Lexer.Lookahead` | graphql/lexer/lexer.go:83-106 | gives the next token that is not a comment; the tokens ahead stay, but a comment may become the current token |
| `Lexers.Lexer.Advance` | graphql/lexer/lexer.go:73-80 | moves to the next token that is not a comment, stays at the end of the file and reports an error of the lexer when it comes to it |
| `Printers.Printer.PrintBlockString` | graphql/ast/printer.go:438-466 | appends the block string at the indent level |
| `Printers.Printer.PrintStringValue` | graphql/ast/printer.go:424-433 | appends a block string, or what a JSON stream into the printer leaves of the string |
| `Printers.Printer.PrintValue` | graphql/ast/printer.go:343-416 | appends the text of the value in front of whatever comes next |
| `Printers.Printer.PrintType` | graphql/ast/printer.go:477-503 | appends the text of the type |
| `Printers.Printer.PrintArguments` | graphql/ast/printer.go:321-337 | appends the arguments, if there are any |
| `Printers.Printer.PrintDirectives` | graphql/ast/printer.go:509-523 | appends the directives with spaces between them |
| `Printers.Printer.PrintSelectionSet` | graphql/ast/printer.go:272-283 | appends the selections one level deeper and restores the level |
| `Printers.Printer.PrintSelection` | graphql/ast/printer.go:236-319 | appends a field, a spread or an inline fragment |
| `Printers.Printer.PrintVariableDefinitions` | graphql/ast/printer.go:185-212 | appends the variables with their types, defaults and directives |
| `Printers.Printer.PrintOperationDefinition` | graphql/ast/printer.go:149-183 | appends an operation, in shorthand form where that is possible |
| `Printers.Printer.PrintFragmentDefinition` | graphql/ast/printer.go:218-234 | appends a fragment definition |
| `Printers.Print` | graphql/ast/printer.go:29-134 | prints a document as the text whose tokens are known |
| `PrintableTokens.DocumentTokens` | graphql/ast/printer.go:424-433 | the tokens of a document are printable if and only if all strings in it are |
| `PrintedTokens.PrintedDocumentLexes` | graphql/ast/printer.go:121-523 | lexing the printed form of a well-formed document gives the tokens of its grammar if and only if these are printable |
| `Parsers.Parser.ParseType` | graphql/parser/parser.go:953-1012 | counting brackets accepts and builds the same types as the recursive grammar, and never wraps a type in two non-nulls |
| `Parsers.Parser.ParseValue` | graphql/parser/parser.go:685-747 | accepts and builds the values of the grammar, variables only where they are allowed |
| `Parsers.Parser.ParseListValue` | graphql/parser/parser.go:752-786 | the loop builds the list that the recursive grammar builds |
| `Parsers.Parser.ParseObjectValue` | graphql/parser/parser.go:791-849 | the loop builds the object that the recursive grammar builds |
| `Parsers.Parser.ParseArguments` | graphql/parser/parser.go:615-664 | the loop builds the arguments of the grammar |
| `Parsers.Parser.ParseDirectives` | graphql/parser/parser.go:1044-1088 | the loop builds the directives of the grammar |
| `Parsers.Parser.ParseSelectionSet` | graphql/parser/parser.go:367-394 | the loop builds the selections of the grammar |
| `Parsers.Parser.ParseSelection` | graphql/parser/parser.go:406-611 | tells fields, spreads and inline fragments apart as the grammar does |
| `Parsers.Parser.ParseVariableDefinition` | graphql/parser/parser.go:899-937 | accepts and builds a variable definition of the grammar |
| `Parsers.Parser.ParseFragmentDefinition` | graphql/parser/parser.go:513-578 | accepts and builds a fragment definition, its variables only when they are enabled |
| `Parsers.Parser.ParseDefinition` | graphql/parser/parser.go:249-363 | accepts and builds a definition of the grammar |
| `Parsers.Parse` | graphql/parser/parser.go:214-243 | parsing a source text is the recursive grammar on its tokens |
| `ParseRoundTrip.DocumentRoundTrip` | graphql/parser/parser.go:214-1088 | for every well-formed document with printable strings, fragment variables enabled, parsing its printed form gives it back up to the query shorthand |
| `LexedTokens.LexedTokensOk` | graphql/lexer/lexer.go:239-734 | the names, numbers and block strings of the lexer are well-formed, whatever the text, and the end of the file comes last |
| `AcceptedDocuments.DefinitionsRead` | graphql/parser/parser.go:214-1088 | parsing loses nothing: the tokens of the parsed definitions are the tokens that were read |
| `AcceptedDocuments.AcceptedIsWellFormed` | graphql/parser/parser.go:214-1088 | every document that the parser accepts is well-formed and has the tokens of the source text |
| `AcceptedDocuments.DocumentRoundTripExactly` | graphql/parser/parser.go:214-1088 | a well-formed document is what its printed form parses to, up to the query shorthand, if and only if all its strings are printable |
| `AcceptedDocuments.AcceptedRoundTrip` | graphql/parser/parser.go:214-1088 | for every source text that is accepted, its printed form is accepted as the same document if and only if the string tokens of the text are printable |
| `DocumentRoundTrip.FormattingIsIdempotent` | graphql/ast/printer.go:121-523 | the printed form of an accepted text whose string tokens are printable is accepted and prints as itself |
| `DocumentRoundTrip.Reparse` | graphql/parser/parser.go:214-243 | the printer, the lexer and the parser one behind the other give a well-formed document back if and only if its strings are printable |
| `ResultNodeList.PositionOfNode` | graphql/executor/result_node_list.go:150-179 | on disjoint chunks the address of a stored node gives the position at which it was stored |
| `ResultNodeList.PositionOfOther` | graphql/executor/result_node_list.go:150-179 | an address is not found if and only if no chunk has it |
| `ResultNodeList.NodeList.EmplaceBack` | graphql/executor/result_node_list.go:112-146 | appends one node, linking a new chunk where the last is full, and moves no node |
| `ResultNodeList.NodeList.IndexOf` | graphql/executor/result_node_list.go:150-179 | the insertion position of every stored node, -1 for an address outside; panics if and only if the first chunk is empty |
| `ResultNodeList.NoRoomPanics` | graphql/executor/result_node_list.go:88-179 | a list made with room for no node, in which looking for its node panics |
| `ResponsePath.Path` | graphql/executor/result_node.go:132-177 | the keys from the root to the node, ancestors that are neither lists nor objects passed over |
| `ResponsePath.PathInvertsNavigation` | graphql/executor/result_node.go:132-177 | following the path of a node from the root leads to the node, when its ancestors are lists and objects that hold their child |
| `ResultMarshaler.PushList` | graphql/executor/result_marshaler.go:107-132 | the pushed tasks write the elements in order with commas only between them, for every chunk layout |
| `ResultMarshaler.PushObject` | graphql/executor/result_marshaler.go:141-155 | the pushed tasks write the fields in order with commas only between them |
| `ResultMarshaler.MarshalJSONTo` | graphql/executor/result_marshaler.go:73-165 | for every finite tree the stack machine ends, sends exactly the bytes of the recursive writer and fails exactly where an object's keys and values do not match |
| `LexicalDistance.FillTable` | internal/util/suggestion_list.go:101-144 | the table's last cell is the recursive distance |
| `LexicalDistance.DistanceIsOptimal` | internal/util/suggestion_list.go:85-145 | the distance is the least cost of all alignments with insertions, deletions, substitutions and swaps of neighbours, and some alignment has it |
| `LexicalDistance.DistanceIsSymmetric` | internal/util/suggestion_list.go:85-145 | the distance is symmetric |
| `LexicalDistance.DistanceBounds` | internal/util/suggestion_list.go:85-145 | it lies between the difference of the lengths and the greater length, and is zero for equal strings alone |
| `LexicalDistance.ComputeLexicalDistance` | internal/util/suggestion_list.go:85-145 | zero for equal strings alone, one for a change of case, otherwise the distance of the lower-cased strings |
| `LexicalDistance.LexicalDistanceIsSymmetric` | internal/util/suggestion_list.go:85-145 | lexicalDistance is symmetric, whatever the case mapping |
| `LexicalDistance.SuggestionList` | internal/util/suggestion_list.go:50-73 | a permutation of the options within the threshold, the closest first |
| `Fragments.ValidationContext.RecursivelyMarkUsed` | graphql/validator/validation_context.go:91-130 | on cyclic fragments it ends; from a closed used set it adds exactly the fragments reachable from its argument, and the set is closed again |
| `Fragments.OperationWalk.WalkSelectionSet` | graphql/validator/walk.go:538-563 | adds each fragment that the spreads reach at most once, and all that the new ones refer to |
| `Fragments.OperationWalk.WalkOperation` | graphql/validator/walk.go:652-685 | the walk of an operation expands each reachable fragment, and no other, exactly once |
| `TypeMap.TypeMap.Add` | graphql/schema.go:34-127 | on cyclic types it ends; the map then holds exactly the named types that the roots reach, under their names, and it fails if and only if two reachable types share a name |

## Left out

- Liveness of the pool's termination: a rejecting addTask does not retry tryTerminate.
- Queues of the pool other than the default one, and timeouts of idle workers; MinPoolSize is below 2^32-1, as
  the comparison with the worker count needs.
- A callback of Range that stops it is in `SyncMap.SyncMap.Range`, not in the concurrent step machine, which
  follows a Range for one key at a time.
- ResultNodeList: the size of a node is a constant, allocation is a parameter and nodes have no contents;
  addresses are numbers.
- ResultMarshaler.MarshalJSONTo: how a leaf value is encoded (WriteInterface, encoding/json) is a given text,
  and the tree is a value, since the marshaler changes none of it.
- FieldCollectionLoop.BuildChildren: selection sets are not empty, because the outer loop never takes an empty
  one off the stack; what directives and arguments evaluate to is given.
- DocumentRoundTrip.FormattingIsIdempotent: says nothing of texts with strings that are not printable, whose
  printed form is another document or none.
- BatchJob.BatchIsCompleted: the values that tasks are completed with are in `DataLoaderBatches.RunJob`; here a
  result is known by the call that set it.
- Token ranges, locations, the links between tokens and the text of error messages.
- LexicalDistance.SuggestionList: the case mapping is a parameter, and sort.Sort is a sort by swaps of neighbours.
- TaskCellLost.NoLostWakeupExactly: wakers are compared by equality, which stands for reflect.DeepEqual.
- The strings of the model are sequences of bytes; the lexer's value buffers are such strings.
- TypeFromAST, introspection, scalar coercion and the generated visitors: large, but a branch or two each.
- Null propagation, subtyping of types, Join of futures, the operation cache and
  CollectFieldsAndFragmentNamesInSelectionSet: the code does not support the laws one would state of them.
- HTTP handling, reflection-based resolvers, formatting of floats and sync.Pool reuse.

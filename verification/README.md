# Verification of the rust-ef core

Dafny models of the deterministic core of rust-ef, an entity framework for Rust, with proofs about them. The
database is abstract: tables are maps from key to row, a transaction is its data with a stack of savepoints,
and every awaited step may succeed or fail. Code that changes state in place is modelled by classes and loops
proved against specification functions; code made of expressions by functions.

| files | what they model |
|---|---|
| `SqlAst`, `SqlCompile`, `SqlGrammar`, `SqlParseBack`, `SqlMeaning` | query conditions, their compilation to SQL tokens, a standard-precedence parser and three-valued evaluation |
| `QueryState`, `QueryBinding`, `QueryMeaning`, `ExecuteUpdate` | the query builder, whole statements and their parameter vectors, bulk UPDATE |
| `DependencyGraph` | the dependency graph and its sort |
| `MigrationSchema`, `MigrationDiff`, `MigrationScript` | model diff, down scripts, script ranges, applying and reverting |
| `SnapshotText`, `SnapshotIo`, `SnapshotRoundTrip`, `SnapshotReadBack` | the snapshot file's printer and parser, at character level |
| `RowModel`, `BatchUpdate`, `Executor`, `DeleteBatch`, `InsertBatch` | batched INSERT, UPDATE and DELETE against one statement per row |
| `Session` | connections, the session's slot and transaction handles |
| `SaveModel`, `CascadeDrain`, `CascadeAdds`, `CascadeDeletes` | tracked entities with what their containers hold, and the two cascade drains |
| `SaveLinkage`, `InsertPhase`, `SavedLinks` | the insert phase: rows, keys, foreign-key fixup, join rows |
| `SaveTracking`, `SavePhases`, `SaveAtomicity`, `SavePipeline` | detection and acceptance, the phases after the inserts, transactions, and the save as a whole |
| `SaveReady`, `SaveGuarantees`, `SavedDependents`, `SavedUpdates`, `SavedData`, `SaveFit`, `SaveRetry`, `SaveAgain` | when a save goes through, what it guarantees, what the saved data holds of untracked, old and new rows, what a failure leaves, retries and second saves |
| `Tracker` | the change tracker and accepting after a save |
| `Includes` | batched and nested loading of navigations |
| `ModelBuilder` | the model builder and its caches |

`dafny verify dfyconfig.toml` checks the whole project.

## Findings

Natural claims that are false of the code, each with the exact condition under which it holds. Where the code and
its comments disagree the code is modelled.

- Batched UPDATE gives what one UPDATE per row gives (`crates/core/src/change_executor/executor_dml.rs:51`): exactly when no column set by only one form changes a stored value; mixed modified lists break it (`Executor.BatchRefinesRows`, `Executor.MixedListsLose`).
- Parameters stand in text order (`crates/core/src/query/builder/aggregate.rs:63`): exactly when no WHERE value is pushed after a HAVING value (`QueryMeaning.WholeQueryBinding`, `QueryMeaning.FilterAfterHaving`).
- EXISTS keeps its link condition (`crates/core/src/query/compile.rs:150`): with a top-level OR in its predicate only if a linked row satisfies it or no row satisfies the right operand (`SqlMeaning.ExistsWithDisjunction`); never when both tables are one (`SqlMeaning.SelfExists`).
- Every entity is inserted (`crates/core/src/change_executor/executor.rs:51`): exactly when the type has an insert column (`InsertBatch.Store.ExecuteInserts`).
- A child saved with a new parent points to it (`crates/core/src/db_context/save_pipeline.rs:269`): exactly when the parent's type comes first or it already did, and within one type when every column but the first already did (`SavedLinks.LinkRealised`, `SavedLinks.PatchHitsOtherColumn`).
- A child of a new parent is saved (`crates/core/src/db_context/set_ops.rs:299`): not by this save if it came with a key; it is not inserted, and its row is not relinked (`SaveGuarantees.KeyedChildNotInserted`, `SaveGuarantees.KeyedChildRowKept`). The next save finds it Modified and writes the foreign key (`SaveAgain.KeyedChildFoundAgain`).
- A new child's row is in the saved data (`crates/core/src/db_context/save_pipeline.rs:515`): exactly when no DELETE for a deleted principal names a value of its other columns (`SavedData.HeldChildSaved`).
- A failed save can be tried again (`crates/core/src/db_context/save_pipeline.rs:146`): the retry links nothing and adds no join row; it is a first save exactly when that had no links, and a child points to its parent only if the parent gets the same key again (`SaveRetry.RetryLinksNothing`, `SaveRetry.RetryJoinsNothing`, `SaveRetry.RetryRealises`, `SaveRetry.RetryByKeyKind`, `SaveRetry.RetryAfterFailedDrain`).
- A second save has nothing to do (`crates/core/src/tracking.rs:190`): exactly when no entry of a set after the first accepted one was Added or Modified with another original and no link changed the foreign keys of a child that came with a key (`SaveAgain.SecondSaveIdle`, `SaveAgain.SecondSetFoundAgain`, `SaveAgain.RelinkedFoundAgain`).
- An error means nothing was saved (`crates/core/src/db_context/save_pipeline.rs:588`): exactly when it is not the error of the last interceptor (`SaveRetry.ErrorMeansUndone`).
- Principals come before dependents (`crates/core/src/dependency_graph.rs:52`): for every node order exactly when the graph is acyclic apart from self-edges and no type others depend on has repeated edges (`DependencyGraph.SortSound`, `DependencyGraph.RepeatedEdgeDisorders`).
- A down script restores the old schema (`crates/core/src/migration/engine_sql.rs:312`): exactly when nothing was dropped (`MigrationDiff.DownUndoesUp`).
- A snapshot survives its file (`crates/core/src/migration/snapshot_io.rs:142`): among names that are no keys of it and type names without quotes, exactly without quotes and with entities that all have tables, since the printer escapes quotes but the parser does not undo it (`SnapshotReadBack.RoundTrip`).
- The pool holds no open transaction (`crates/core/src/session.rs:96`, `crates/core/src/provider/traits.rs:165`): exactly when no begin is cancelled after the server has carried it out and no isolation level fails to be set and then to be rolled back (`Session.RunClean`, `Session.DefaultIsolationClean`, `Session.CancelledBeginLeaks`).
- Accepting leaves tracker and sets in agreement (`crates/core/src/db_context/set_ops.rs:202`): exactly when every Unchanged entry of the first set was in step, which a linked keyed child is not, and every entry outside it was settled before (`Tracker.AcceptAgrees`, `Tracker.LostOriginal`, `Tracker.KeyedChildDisagrees`).
- A table name set by `apply_configuration` reaches the model (`crates/core/src/model_builder.rs:142`): exactly when the type has a configuration already (`ModelBuilder.TableNameReaches`, `ModelBuilder.UnregisteredKeepsName`).

## Model

| member | source | states |
|---|---|---|
| `SqlCompile.CompiledNumbering` | crates/core/src/query/compile.rs:100-131 | A compiled condition starting at index i carries the placeholders i, i+1, ... in text order, one per bound parameter, and leaves the index just after them, so `?` and `$N` agree |
| `SqlCompile.SubqueryNumbering` | crates/core/src/query/compile.rs:133-158 | The same numbering holds inside EXISTS / NOT EXISTS, predicate included |
| `SqlCompile.InBodyNumbering` | crates/core/src/query/compile.rs:160-183 | The same numbering holds inside IN / NOT IN subqueries |
| `SqlCompile.HavingNumbering` | crates/core/src/query/having_expr.rs:112-170 | The same numbering holds for HAVING trees |
| `SqlCompile.ContiguousNth` | crates/core/src/query/compile.rs:100-131 | In a contiguously numbered text the j-th placeholder has the j-th number, so that position and number bind the same value |
| `SqlAst.CollectedCount` | crates/core/src/query/compile.rs:185-213 | The values collected from a tree whose conditions carry their own values are as many as the tree claims parameters |
| `SqlAst.CollectParams` | crates/core/src/query/having_expr.rs:175-187 | A HAVING tree yields one value per placeholder it claims |
| `SqlParseBack.ReadBack` | crates/core/src/query/compile.rs:100-131 | Parsing the compiled tokens with NOT over AND over OR (section 8.12 of ISO/IEC 9075:1992) consumes exactly them and gives the tree the condition stands for |
| `SqlParseBack.ExistsBack` | crates/core/src/query/compile.rs:133-158 | The unparenthesised EXISTS predicate is read as the left operand of its own top-level OR joined to the link condition, otherwise as a conjunction with it |
| `SqlParseBack.InBodyBack` | crates/core/src/query/compile.rs:160-183 | An IN subquery is read back with its optional WHERE |
| `SqlMeaning.TreeMeaning` | crates/core/src/query/compile.rs:100-183 | In three-valued logic the tree read back evaluates to the meaning of the condition, for every condition whose EXISTS predicates are no top-level OR and link two different tables |
| `SqlMeaning.CompiledMeaning` | crates/core/src/query/compile.rs:100-183 | Compiling, parsing and evaluating a condition gives its meaning on every row and database |
| `SqlMeaning.WrappedFilter` | crates/core/src/change_executor/executor_dml.rs:155-162 | The executors' `(where) AND (filter)` text means the conjunction of both, for any two such conditions |
| `SqlMeaning.ExistsWithDisjunction` | crates/core/src/query/compile.rs:150-152 | With a top-level OR inside, the EXISTS text means what was asked exactly when some linked row satisfies the predicate or no row at all satisfies the right operand: the link is lost on the right |
| `SqlMeaning.SelfExists` | crates/core/src/query/compile.rs:140-150 | When outer and related table share a name, the EXISTS compares each inner row with itself, whatever the outer row is |
| `SqlMeaning.HavingTreeMeaning` | crates/core/src/query/having_expr.rs:112-187 | A HAVING tree read back evaluates to its meaning once its own values are bound at its placeholders |
| `SqlMeaning.HavingBack` | crates/core/src/query/having_expr.rs:112-170 | Parsing a compiled HAVING tree gives the tree back |
| `QueryState.QueryBuilder.FilterColumn` | crates/core/src/query/builder/filter.rs:17-29 | One filter call pushes its value and conjoins its condition, as the call specification says |
| `QueryState.QueryBuilder.FilterIn` | crates/core/src/query/builder/filter.rs:42-51 | IN pushes its values in order and conjoins one condition with that many parameters |
| `QueryState.QueryBuilder.FilterNotIn` | crates/core/src/query/builder/filter.rs:53-64 | NOT IN likewise, under a negation |
| `QueryState.QueryBuilder.FilterBetween` | crates/core/src/query/builder/filter.rs:80-93 | BETWEEN pushes low then high |
| `QueryState.QueryBuilder.OrWhere` | crates/core/src/query/builder/filter.rs:128-158 | A nested builder's WHERE joins by OR and its parameters follow, as the call specification says |
| `QueryState.QueryBuilder.WhereExists` | crates/core/src/query/builder/filter.rs:163-191 | EXISTS conjoins the subquery and appends the values inside it |
| `QueryState.QueryBuilder.WhereInSubquery` | crates/core/src/query/builder/filter.rs:196-217 | IN subquery conjoins and appends likewise |
| `QueryState.QueryBuilder.ApplyQueryFilter` | crates/core/src/query/builder/core.rs:85-90 | A query filter is conjoined and its values appended |
| `QueryState.QueryBuilder.HavingExprInternal` | crates/core/src/query/builder/aggregate.rs:63-75 | A HAVING pushes its values at the time of the call |
| `QueryState.QueryBuilder.WithCteTyped` | crates/core/src/query/builder/aggregate.rs:165-188 | A typed CTE keeps its own condition and values |
| `QueryState.QueryBuilder.ToSqlWith` | crates/core/src/query/state.rs:108-330 | One text per CTE and HAVING of the state, and one for its WHERE, with one index running over WHERE and HAVING from past the CTE parameters and another over the CTEs; what each text means is WholeQueryMeaning, WholeQueryHaving and WholeQueryCte |
| `QueryState.QueryBuilder.AllParams` | crates/core/src/query/state.rs:331-342 | CTE values come before the builder's own parameters |
| `QueryMeaning.StatementNumbering` | crates/core/src/query/state.rs:108-330 | Over a whole statement the placeholders run 1, 2, ... in text order across CTEs, WHERE and HAVING |
| `QueryMeaning.WholeQueryBinding` | crates/core/src/query/state.rs:108-342 | For every sequence of builder calls with self-contained conditions, the parameter vector lists the values in text order for all possible values exactly when no call that pushes WHERE values follows one that pushes HAVING values |
| `QueryMeaning.FilterAfterHaving` | crates/core/src/query/builder/aggregate.rs:63-75 | A HAVING call and then a filter: the vector lists the HAVING value first, the text the filter's |
| `QueryMeaning.MeaningShift` | crates/core/src/query/compile.rs:100-183 | A condition means the same wherever its own values stand in the parameter vector |
| `QueryMeaning.RunTracks` | crates/core/src/query/builder/filter.rs:17-217 | After any calls the WHERE tree over the WHERE values means the calls combined one by one: AND for filters, OR for `or_where` |
| `QueryMeaning.WholeQueryMeaning` | crates/core/src/query/state.rs:108-342 | For every ordered call sequence the compiled WHERE, parsed and evaluated under the whole statement's parameters, means what the calls asked for |
| `QueryMeaning.WholeQueryHaving` | crates/core/src/query/state.rs:108-342 | A statement has one HAVING text per HAVING call; for ordered calls the k-th is one factor that, parsed and evaluated under the whole statement's parameters, means the k-th call's condition with its own values |
| `QueryMeaning.WholeQueryCte` | crates/core/src/query/state.rs:233-262 | A statement has one CTE body per CTE call; the k-th, parsed and evaluated under the whole statement's parameters, means the k-th call's condition with its own values, whatever the other calls are |
| `QueryMeaning.OwnIs` | crates/core/src/query/compile.rs:185-213 | The values collected from a tree are each condition's own, in the order the compiled text asks for them: under them the tree means what its conditions ask with the values they carry |
| `QueryBinding.RunParameters` | crates/core/src/query/builder/filter.rs:17-217 | The builder's parameter vector is the calls' values in call order, values of a dropped `or_where` included |
| `ExecuteUpdate.Builder.ToSql` | crates/core/src/query/execute_update.rs:39-72 | SET placeholders come first, WHERE placeholders continue after them |
| `ExecuteUpdate.SetsBound` | crates/core/src/query/execute_update.rs:74-79 | Each SET placeholder is bound to the value given for its own column, and the builder's values follow |
| `ExecuteUpdate.BulkNumbering` | crates/core/src/query/execute_update.rs:39-79 | Bulk UPDATE's WHERE placeholders continue after its SET ones, and there are as many placeholders as values exactly when no call pushed values outside the WHERE |
| `ExecuteUpdate.BulkMeaning` | crates/core/src/query/execute_update.rs:39-79 | The bulk UPDATE's WHERE, under SET values then WHERE values, means what the builder calls asked for |
| `DependencyGraph.Build` | crates/core/src/dependency_graph.rs:24-40 | The graph holds, for each dependent and principal, as many edges as the principal has HasMany and ManyToMany navigations to the dependent, over all registered types |
| `DependencyGraph.BuiltGraph` | crates/core/src/dependency_graph.rs:24-40 | A built graph is well formed, a type depends on exactly the other types with a collection of it, and its edges repeat exactly when one of them has two |
| `DependencyGraph.RepeatedNavs` | crates/core/src/dependency_graph.rs:24-40 | A type's edges repeat exactly when another type has two collections of it |
| `DependencyGraph.InDegrees` | crates/core/src/dependency_graph.rs:46-56 | In-degrees count non-self parents with repetition, for every node |
| `DependencyGraph.TopologicalSort` | crates/core/src/dependency_graph.rs:46-83 | Every type once and nothing else, left-over nodes last in node order; principals precede dependents whenever the graph is acyclic apart from self-edges and its repeated edges are harmless |
| `DependencyGraph.CountBounds` | crates/core/src/dependency_graph.rs:52-68 | The decrements of a type's count never exceed it, and reach it exactly when its edges do not repeat and all its principals are emitted |
| `DependencyGraph.EmittedAfterPrincipals` | crates/core/src/dependency_graph.rs:62-76 | For every graph the loop emits a type only after all its non-self principals |
| `DependencyGraph.SortComplete` | crates/core/src/dependency_graph.rs:46-83 | The result has every node once and nothing else |
| `DependencyGraph.SortSound` | crates/core/src/dependency_graph.rs:46-83 | Every principal precedes its dependents for every hash order exactly when the graph is acyclic apart from self-edges and no type that others depend on has repeated edges |
| `DependencyGraph.RepeatedEdgeDisorders` | crates/core/src/dependency_graph.rs:46-83 | One principal with two collections of a type that has a dependent: for one node order the type comes after its own dependent |
| `DependencyGraph.DeletionOrder` | crates/core/src/dependency_graph.rs:85-89 | The exact reverse of a topological order, so there dependents precede principals |
| `MigrationDiff.Diff` | crates/core/src/migration/engine.rs:110-208 | The changes run without error from the old snapshot's schema and give exactly the new one's (columns, foreign keys with ON DELETE, index kinds), each change is called for by a difference, whatever order the hash sets have |
| `MigrationDiff.DiffDeclares` | crates/core/src/migration/engine.rs:110-208 | From a database with exactly the tables, columns, foreign keys and indexes one snapshot declares, field by field with ON DELETE and uniqueness, the diff leads to exactly those the other declares |
| `MigrationDiff.PushForeignKeys` | crates/core/src/migration/diff.rs:89-159 | Foreign keys are added, dropped and replaced so that a table's keys become the new columns' |
| `MigrationDiff.PushIndexes` | crates/core/src/migration/diff.rs:176-209 | An index kind change drops the old index before creating the new one |
| `MigrationDiff.PushCommonTable` | crates/core/src/migration/engine.rs:143-205 | One table present in both snapshots ends with the new definition, the others untouched |
| `MigrationDiff.PushNewTable` | crates/core/src/migration/engine.rs:210-248 | A new table gets its columns, then foreign keys, then indexes |
| `MigrationDiff.InitialCreateWithFks` | crates/core/src/migration/engine_sql.rs:11-23 | All tables come first, then foreign keys and indexes per table; running the changes on an empty database gives the snapshot's schema |
| `MigrationDiff.EmptyDiff` | crates/core/src/migration/engine.rs:110-208 | Models alike in what the diff compares, sequences aside, have an empty diff, and an empty diff means equal schemas |
| `MigrationDiff.DownUndoesUp` | crates/core/src/migration/engine_sql.rs:312-419 | Running the reversed inverses restores the old schema exactly when no table, column or foreign key of it is gone in the new snapshot, for both down dialects |
| `MigrationDiff.InitialCreateUndone` | crates/core/src/migration/engine_sql.rs:312-419 | The down script of an initial create leaves an empty schema |
| `MigrationSchema.InverseUndoes` | crates/core/src/migration/engine_sql.rs:312-419 | The inverse of a lossless change undoes it on every schema it fits |
| `MigrationSchema.LosslessUndone` | crates/core/src/migration/engine_sql.rs:312-419 | The reversed inverses of any run of lossless changes restore the start |
| `MigrationSchema.DownWithin` | crates/core/src/migration/engine_sql.rs:312-419 | A down script adds no table, column or foreign key to the schema it starts from, so what was dropped stays lost |
| `MigrationScript.GenerateScript` | crates/core/src/migration/engine_ops.rs:199-244 | Unknown ids are errors, the first one named; otherwise the blocks are those from the state after `from` to the state after `to`, ups in order or downs in reverse |
| `MigrationScript.UpStep` | crates/core/src/migration/engine_ops.rs:22-38 | One up block takes schema and history from one migration's state to the next |
| `MigrationScript.DownStep` | crates/core/src/migration/engine_ops.rs:41-59 | One down block restores the previous state exactly when its migration dropped nothing |
| `MigrationScript.PathRuns` | crates/core/src/migration/engine_ops.rs:199-244 | Running the first n blocks of a path ends in its n-th state |
| `MigrationScript.ForwardScript` | crates/core/src/migration/engine_ops.rs:199-244 | A forward script passes through the state of every migration |
| `MigrationScript.ReverseScript` | crates/core/src/migration/engine_ops.rs:199-244 | A reverse script passes through the state of every migration exactly when none it reverts dropped anything |
| `MigrationScript.ScriptThereAndBack` | crates/core/src/migration/engine_ops.rs:199-244 | The script from i to j and the one back leave schema and history as they were |
| `MigrationScript.ForwardScriptsCompose` | crates/core/src/migration/engine_ops.rs:199-244 | Forward scripts i to j and j to k are together the one i to k |
| `MigrationScript.ReverseScriptsCompose` | crates/core/src/migration/engine_ops.rs:199-244 | Reverse scripts compose likewise |
| `MigrationScript.Store.ApplyMigration` | crates/core/src/migration/engine_ops.rs:22-38 | A recorded migration is left alone, another runs its up block |
| `MigrationScript.Store.ApplyPending` | crates/core/src/migration/engine_ops.rs:104-124 | From any migration's state the database reaches the latest, and the count is the number applied |
| `MigrationScript.Store.Revert` | crates/core/src/migration/engine_ops.rs:41-59 | Only a recorded migration is reverted |
| `MigrationScript.Store.RevertToTarget` | crates/core/src/migration/engine_ops.rs:153-197 | An unapplied target is an error and changes nothing; otherwise exactly the ids after the target are reverted, latest first, and the database is left at the target's state when none of them dropped anything |
| `SnapshotIo.PrintSnapshot` | crates/core/src/migration/snapshot_io.rs:15-78 | The printer's output, character by character |
| `SnapshotIo.ParseSnapshot` | crates/core/src/migration/snapshot_io.rs:80-134 | The parser finds, splits and reads as specified over plain text, for any text at all |
| `SnapshotText.FindKey` | crates/core/src/migration/snapshot_io.rs:136-140 | In text cut at its quotes, the first occurrence of a quoted key is the first segment equal to it, with the text before and after it |
| `SnapshotText.PiecesAgree` | crates/core/src/migration/snapshot_io.rs:86-86 | Splitting text at a quoted key splits its segments at that key |
| `SnapshotText.ReadsValue` | crates/core/src/migration/snapshot_io.rs:142-153 | A quoted value after a colon and perhaps a blank is read back |
| `SnapshotText.ContainsKey` | crates/core/src/migration/snapshot_io.rs:101-103 | A flag text is contained exactly when the key's own segment is followed by it |
| `SnapshotRoundTrip.ColumnRead` | crates/core/src/migration/snapshot_io.rs:37-71 | A printed column is read back whole, its maximal length lost |
| `SnapshotReadBack.FileJoins` | crates/core/src/migration/snapshot_io.rs:15-78 | The printed file is the segment form of the snapshot |
| `SnapshotReadBack.FileRead` | crates/core/src/migration/snapshot_io.rs:15-134 | Reading a printed snapshot without quotes or keys among its names gives its entities that have a table name, type names replaced by table names, or nothing when there is none |
| `SnapshotReadBack.RoundTrip` | crates/core/src/migration/snapshot_io.rs:15-134 | Among snapshots whose names are no keys of the file and whose type names hold no quote, exactly those survive printing and parsing (up to maximal lengths and type names) that have entities, all with a table name, and no quote in any name |
| `SnapshotReadBack.ReadNamed` | crates/core/src/migration/snapshot_io.rs:80-153 | Whatever text is read, a result has entities, all with table names, and no quote in any name |
| `BatchUpdate.BuildBatch` | crates/core/src/change_executor/executor_dml.rs:104-162 | Every placeholder of the CASE/IN statement binds the value meant for it, and carries its position in the text, so `?` and `$N` agree |
| `BatchUpdate.SetClause` | crates/core/src/provider/traits.rs:33-71 | The CASE placeholders come in pairs, column by column and row by row |
| `BatchUpdate.SelectedAre` | crates/core/src/change_executor/executor_dml.rs:110-162 | Exactly the rows of the batch's keys that pass the filter are selected |
| `BatchUpdate.RowIsSet` | crates/core/src/provider/traits.rs:33-71 | A selected row gets the values of the entity with its key |
| `BatchUpdate.StatementApplies` | crates/core/src/change_executor/executor_dml.rs:110-171 | One batch statement applies each entity's changes to the row it reaches and leaves all others |
| `BatchUpdate.AffectedCount` | crates/core/src/change_executor/executor_dml.rs:171-179 | The affected-row count is the number of entities that reach their row |
| `Executor.BuildRow` | crates/core/src/change_executor/executor_dml.rs:444-484 | The per-row statement binds SET values, key, original token values and filter each to its own; it fails exactly when an original token value is missing |
| `Executor.Connection.UpdateInBatches` | crates/core/src/change_executor/executor_dml.rs:69-189 | Succeeds exactly when every batch reaches a row; then each reached row has the union's columns, the count is the rows reached, and no statement binds more than 900 values when one row fits |
| `Executor.Connection.UpdatePerRow` | crates/core/src/change_executor/executor_dml.rs:191-279 | Succeeds exactly when every entity with something to set finds its row there, passing the filter and with the value it was loaded with in the column of every token property; otherwise the first that does not decides the error, a conflict or a missing token; on success each row has the entity's own modified columns |
| `Executor.FreshExactly` | crates/core/src/change_executor/executor_dml.rs:465-484 | What the per-row statement checks of a row is exactly that it is as it was loaded: property by property, original value against column, NULL never equal |
| `Executor.UpdatedCell` | crates/core/src/change_executor/executor_dml.rs:51-102 | After an update in either form a row reached has the entity's current value in every column set (batched: what any entity lists as modified; per row: what its own list has; all but the key where nothing is listed) and its old value in every other |
| `Executor.Connection.ExecuteUpdates` | crates/core/src/change_executor/executor_dml.rs:30-189 | Which of the two runs, and what it then leaves; with a token property it never succeeds unless every row is as it was loaded |
| `Executor.BatchRefinesRows` | crates/core/src/change_executor/executor_dml.rs:30-279 | Whenever one UPDATE per row succeeds for entities that all set something, the batches succeed with the same count, and with the same table exactly when no column set by only one form changes a stored value |
| `Executor.MixedListsLose` | crates/core/src/change_executor/executor_dml.rs:51-67 | All-empty modified lists lose nothing; with an empty list among others the outcome differs as soon as a column no other entity modified holds another value than the entity's |
| `Executor.OthersUntouched` | crates/core/src/change_executor/executor_dml.rs:30-279 | Rows of other keys and rows failing the filter are never touched by either form |
| `RowModel.SameRow` | crates/core/src/change_executor/executor_dml.rs:51-67 | Two sets of fields leave a row alike exactly when the columns in only one of them already hold the entity's value |
| `RowModel.SameTable` | crates/core/src/change_executor/executor_dml.rs:30-279 | Two lists of changes leave the same table exactly when they change each reached row alike |
| `RowModel.ChangesAt` | crates/core/src/change_executor/executor_dml.rs:51-67 | A property's column is set, to the entity's value, exactly when it is no key and its field is modified or none is |
| `DeleteBatch.Connection.DeleteInBatches` | crates/core/src/change_executor/executor_dml.rs:292-387 | Succeeds exactly when every batch reaches a row; then exactly the rows reached are gone, and no statement binds more than 900 values |
| `DeleteBatch.Connection.DeletePerRow` | crates/core/src/change_executor/executor_dml.rs:394-441 | Succeeds exactly when every keyed entity finds its row there, passing the filter and with the value it was loaded with in the column of every token property; otherwise the first that does not decides the error; on success exactly those rows are gone |
| `DeleteBatch.Connection.ExecuteDeletes` | crates/core/src/change_executor/executor_dml.rs:292-387 | Which of the two runs, and what it then leaves; with a token property it never succeeds unless every row is as it was loaded |
| `DeleteBatch.BatchesRefineRows` | crates/core/src/change_executor/executor_dml.rs:292-441 | One DELETE per row succeeds exactly when every entity reaches its row; then the batches succeed too, counting every entity |
| `DeleteBatch.AffectedAre` | crates/core/src/change_executor/executor_dml.rs:340-366 | A batch statement deletes the rows its entities reach and no others |
| `InsertBatch.Placeholders` | crates/postgres/src/sql_generator.rs:58-84 | Row-major placeholders: column c of row r is number r * columns + c + 1 |
| `InsertBatch.BindsRow` | crates/core/src/change_executor/executor.rs:60-100 | A row's placeholder group binds that row's values |
| `InsertBatch.Store.GeneratedKeys` | crates/core/src/change_executor/executor.rs:100-135 | First-id and last-id dialects both yield the ids of the rows just inserted, in order |
| `InsertBatch.Store.ExecuteInserts` | crates/core/src/change_executor/executor.rs:26-141 | Every entity is inserted exactly if the type has an insert column; then the rows are those of inserting one at a time, each entity gets the key of its own row if the dialect reports keys, and all other rows are as before; else nothing is inserted |
| `InsertBatch.Store.InsertBatches` | crates/core/src/change_executor/executor.rs:60-135 | Batch by batch the rows and keys are those of inserting one at a time; each statement binds at most 900 values when one row fits |
| `InsertBatch.OneByOneHolds` | crates/core/src/change_executor/executor.rs:26-141 | After inserting one by one, entity i has its row under the i-th next id |
| `InsertBatch.OneByOneKeeps` | crates/core/src/change_executor/executor.rs:26-141 | Rows that were there stay |
| `InsertBatch.OneByOneJoins` | crates/core/src/change_executor/executor.rs:60-135 | Inserting a batch and then the rest is inserting all |
| `Session.RunSound` | crates/core/src/transaction.rs:73-291 | After any run of begins, statements, saves, commits, rollbacks, discards and drops, with any of their steps failing, and begins, commits, rollbacks and managed saves cancelled, every connection ever acquired is in exactly one place and at most one transaction is active |
| `Session.RunClean` | crates/core/src/session.rs:81-104 | The pool never holds a connection with an open transaction exactly when no begin, a managed save's included, is cancelled after the server has carried out BEGIN, and none fails to set its isolation level and then to roll back |
| `Session.DefaultIsolationClean` | crates/core/src/provider/traits.rs:165-172 | With default isolation the pool is clean throughout exactly when no begin is cancelled after the server has carried it out |
| `Session.CancelledBeginLeaks` | crates/core/src/session.rs:94-101 | One begin with default isolation, cancelled while BEGIN is under way, pools an open transaction |
| `Session.ActiveTakesAll` | crates/core/src/session.rs:126-141 | While a transaction is active every statement of the context runs on its connection |
| `Session.FinishedIsConsumed` | crates/core/src/transaction.rs:137-189 | A commit or rollback leaves the handle consumed, whatever its outcome |
| `Session.FinishExact` | crates/core/src/transaction.rs:137-189 | A commit or rollback is done exactly when the handle is live, its slot has a connection and the statement completes uncancelled; that connection then goes back to the pool without open transaction, and is closed otherwise |
| `Session.BeginExact` | crates/core/src/session.rs:81-104 | A begin is done exactly when no transaction is active and every step succeeds; then the session has a transaction on a connection of its own, otherwise it is as before |
| `Session.DropExact` | crates/core/src/transaction.rs:256-291 | A dropped handle's connection is closed and never pooled |
| `Session.ManagedSaveExact` | crates/core/src/db_context/save_pipeline.rs:106-135 | A save that manages its own connection is done exactly when all its steps are, leaves the session as it was, and pools its connection exactly when its transaction has ended |
| `Session.ConsumedStays` | crates/core/src/session.rs:32-62 | A consumed transaction's facades give errors for ever, never a pool connection |
| `Session.Context.BeginTransaction` | crates/core/src/session.rs:86-104 | The begin protocol, step by step, does what the transition says |
| `Session.Context.Finish` | crates/core/src/transaction.rs:137-189 | Commit and rollback, step by step, do what the transition says |
| `Session.Context.DropHandle` | crates/core/src/transaction.rs:256-291 | Dropping a handle discards its connection and clears the session |
| `Session.Context.RunStatement` | crates/core/src/session.rs:126-141 | A statement takes the active connection or a pooled one and gives that back |
| `CascadeDrain.DrainEntity` | crates/core/src/db_context/set_ops.rs:234-281 | Draining an entity takes exactly the children of its draining containers, each once and under the instance that held it, and leaves the other containers as they were |
| `CascadeDrain.DrainSet` | crates/core/src/db_context/set_ops.rs:234-281 | Every entry of a set keeps its place and loses only what its draining containers held; nothing drained means nothing changed |
| `CascadeDrain.BelowMore` | crates/core/src/db_context/set_ops.rs:251-278 | Draining one container more brings exactly the children that container holds, with all below them |
| `CascadeAdds.SaveContext.DrainRound` | crates/core/src/db_context/save_phases.rs:39-63 | One round drains the sets in order; it fails exactly at a type without metadata |
| `CascadeAdds.SaveContext.AttachChild` | crates/core/src/db_context/save_phases.rs:67-99 | A drained child becomes one new entry at the end of its own set and one slot of its parent's link; it fails exactly when its type has no set |
| `CascadeAdds.LinkChild` | crates/core/src/db_context/save_phases.rs:84-98 | The child joins the link of its parent, type and join table, or opens one; the slots then stand for one tie more, its own |
| `CascadeAdds.SaveContext.DrainCascadeAdds` | crates/core/src/db_context/save_phases.rs:28-103 | Terminates; on success the multiset of (instance, type, join table, whole child) over all link slots is the one held at the start, every new entry stands in one slot with the state its key calls for, and old entries keep their indices; on failure nothing is linked or held that was not there |
| `CascadeAdds.EachChildLinkedOnce` | crates/core/src/db_context/save_phases.rs:80-99 | Each entry the drain added stands in exactly one slot of one link |
| `CascadeAdds.HeldChildLinked` | crates/core/src/db_context/save_phases.rs:28-103 | A child that an Added entry, no upsert, holds in a has-many or many-to-many collection gets an entry of its own with its key, foreign keys and values, Unchanged with these as original if it has a key and Added otherwise, in a link of the very instance that held it |
| `CascadeAdds.ContainersAfter` | crates/core/src/db_context/set_ops.rs:234-281 | Afterwards the has-many and many-to-many collections of Added entries are empty, upserts aside; every other container holds what it held, and nothing else of the entries there were has changed |
| `CascadeAdds.LinkColumns` | crates/core/src/db_context/save_phases.rs:84-98 | A link has the join columns of every navigation it serves when navigations to one type through one join table agree on them |
| `CascadeAdds.SecondDrain` | crates/core/src/db_context/save_phases.rs:28-103 | Draining drained sets yields no link and changes nothing |
| `CascadeDeletes.ExpandEntity` | crates/core/src/db_context/set_ops.rs:393-494 | The children taken are those under cascading navigations, the statements those of the navigations in their order; which these are is StatementsExact and ContainersAfter |
| `CascadeDeletes.DeleteContext.ExpandEntry` | crates/core/src/db_context/set_ops.rs:413-490 | A Deleted entry is expanded once: marked, its cascading containers emptied, its statements issued |
| `CascadeDeletes.DeleteContext.DrainCascadeDeletes` | crates/core/src/db_context/save_phases.rs:107-166 | Terminates; on success the Deleted entries added are, as a multiset of whole children with their types, the keyed children held under cascading containers of Deleted entries at any depth, only keyless ones are dropped, and every Deleted entry has been expanded |
| `CascadeDeletes.HeldChildDeleted` | crates/core/src/db_context/save_phases.rs:107-166 | A keyed child that a Deleted entry holds in a has-many collection configured to cascade, or by default unless the foreign key is optional, gets a Deleted entry in its own type's set, with its own key, foreign keys and values |
| `CascadeDeletes.ContainersAfter` | crates/core/src/db_context/set_ops.rs:413-470 | Afterwards those collections of Deleted entries are empty; every other container holds what it held, and nothing else of the entries there were has changed |
| `CascadeDeletes.ExpandedOnce` | crates/core/src/db_context/save_phases.rs:107-166 | A Deleted entry is expanded in exactly one place, with its own key |
| `CascadeDeletes.DirectivesExact` | crates/core/src/cascade.rs:83-123 | A statement is issued exactly when some Deleted entry's navigation calls for it |
| `CascadeDeletes.StatementsExact` | crates/core/src/cascade.rs:83-123 | A DELETE is issued exactly for the columns that a Deleted entry's many-to-many navigations and its has-many ones that cascade (configured, or by default unless the foreign key is optional) name, a SET NULL exactly for those that SetNull ones name, each with the entry's positive key |
| `SaveLinkage.InsertSet` | crates/core/src/db_context/save_phases.rs:174-216 | Every Added non-upsert entry gets its key and a row with its foreign keys and values, no other row comes or changes; entities get keys only when all are in; with generated keys it fails only when the database stops answering |
| `SaveLinkage.FixChildren` | crates/core/src/db_context/set_ops.rs:321-333 | Exactly the linked children get the parent's key in every foreign key to the parent's type |
| `SaveLinkage.ApplyPatches` | crates/core/src/db_context/save_pipeline.rs:297-312 | Each row whose patches agree ends with that key in its first foreign key column, other rows as they were |
| `SaveLinkage.FixingStep` | crates/core/src/db_context/save_pipeline.rs:233-295 | Fixing one link gives every entry the foreign keys its own link calls for, and its row the patches its own link calls for |
| `InsertPhase.InsertPhase.InsertRows` | crates/core/src/db_context/save_pipeline.rs:175-218 | A type's rows and keys, or on failure memory as it was |
| `InsertPhase.InsertPhase.FixAndPatch` | crates/core/src/db_context/save_pipeline.rs:221-312 | After its type is inserted a parent's links are fixed in memory, then same-type children patched in their rows |
| `InsertPhase.InsertPhase.InsertAll` | crates/core/src/db_context/save_pipeline.rs:174-313 | The row of every inserted entry: its own foreign keys if unlinked, the parent's key where the fixup or the patch puts it if linked, depending only on whether the parent's type comes first; no other rows come or go, nor change but for patches of tracked rows; it succeeds when keys are free and the database answers; on failure memory is as after the types processed so far |
| `InsertPhase.InsertPhase.InsertJoins` | crates/core/src/db_context/save_pipeline.rs:316-371 | The join rows of the links one after the other, up to the statement that fails |
| `SavedLinks.LinkRealised` | crates/core/src/db_context/save_pipeline.rs:175-313 | Across types a link is realised exactly when the parent's type comes first or the child already pointed there; within a type exactly when every foreign key to the type but the first column already pointed there |
| `SavedLinks.PatchHitsOtherColumn` | crates/core/src/db_context/save_pipeline.rs:269-286 | When the first foreign key of a self-referencing type points elsewhere, the patch puts the parent's key there |
| `SavedLinks.JoinedSlot` | crates/core/src/db_context/save_pipeline.rs:316-371 | Every join row is that of a slot of a link with a join table, at its place |
| `SaveTracking.TrackedSets.DetectChanges` | crates/core/src/tracking.rs:107-147 | Unchanged entries whose values differ from their original become Modified with exactly the properties that differ |
| `SaveTracking.ChangedAre` | crates/core/src/tracking.rs:125-141 | A property is recorded as changed exactly when its own value is not the original one: the key, each foreign key, each other value |
| `SaveTracking.ChangedExact` | crates/core/src/tracking.rs:125-141 | Nothing is recorded as changed exactly when the values are those of the original |
| `SaveTracking.TrackedSets.AcceptAll` | crates/core/src/db_context/set_ops.rs:178-203 | Set by set, the first set's turn settles every entry: only its own get a new original, only its own Deleted entries leave their set, those of other sets stay untracked |
| `SaveTracking.LaterTurn` | crates/core/src/tracking.rs:183-198 | A turn after the first changes nothing |
| `SaveTracking.AcceptsAsTracker` | crates/core/src/tracking.rs:183-198 | Accepting an entry of the save is what the tracker does to its own entry |
| `SaveTracking.DetectsAsTracker` | crates/core/src/tracking.rs:107-147 | So is detection, from the same values under any distinct property names: the same state, and the same properties recorded |
| `SavePhases.UpdateSet` | crates/core/src/change_executor/executor_dml.rs:30-279 | On success each Modified entry's row has the entity's values in the columns set for it, no other row changes, every batch reached a row, and one row at a time each was as it was loaded; it succeeds when all rows are there, no tokens are checked and the database answers |
| `SavePhases.RemoveBatches` | crates/core/src/change_executor/executor_dml.rs:292-387 | On success exactly the rows of the given keys are gone and every batch reached a row; it succeeds when all rows are there and the database answers |
| `SavePhases.LaterPhases.NullDependents` | crates/core/src/db_context/save_pipeline.rs:455-471 | The SET NULL statements clear exactly the foreign keys they name with the value they name |
| `SavePhases.LaterPhases.DeleteDependents` | crates/core/src/db_context/save_pipeline.rs:515-531 | The DELETE statements remove exactly the rows and join rows they name |
| `SavePhases.LaterPhases.RunAll` | crates/core/src/db_context/save_pipeline.rs:374-531 | Upserts, updates, SET NULLs, deletes and direct deletes, one after the other, each on the tables the one before left; all succeed when rows are there, no tokens are checked and the database answers as many statements as there can be |
| `SavePipeline.SavePipeline.SaveChanges` | crates/core/src/db_context/save_pipeline.rs:73-597 | All a save may come to, for every outcome of hooks, connection, statements and endings: done, with data committed or in the caller's transaction and entries accepted; or undone, with exactly what each failing step leaves in memory; or nothing at all. It returns Ok whenever hooks, connection, begin and commit succeed, the database answers the statements there can be, every type reached is known, keys of Added entries are generated or free, and Modified and Deleted entries have rows under keys of their own without tokens |
| `SavePipeline.SavePipeline.RunSteps` | crates/core/src/db_context/save_pipeline.rs:143-548 | Both drains, the insert phase in topological order, join rows and the later phases, with what each leaves when it fails; none fails under that condition |
| `SaveReady.ReadyThrough` | crates/core/src/db_context/save_pipeline.rs:143-160 | What a save needs to go through, stated of the sets before it, still holds of the sets both drains leave: free keys, and rows of their own |
| `SaveGuarantees.RowOfInserted` | crates/core/src/db_context/save_pipeline.rs:174-313 | The row each inserted entry has after the insert phase |
| `SaveGuarantees.LinkAfterSave` | crates/core/src/db_context/save_pipeline.rs:174-313 | When a saved link is realised, link by link, for every model |
| `SaveGuarantees.HeldChildPointsToParent` | crates/core/src/db_context/save_pipeline.rs:143-313 | After the insert phase, in a sound model, every new child held by an Added entry at the start has a row pointing, in every column for its type, to the generated key of the very instance that held it |
| `SaveGuarantees.HeldChildJoined` | crates/core/src/db_context/save_pipeline.rs:316-371 | After the insert phase every child held in a many-to-many collection has a join row of its holder's key and its own |
| `SaveGuarantees.JoinRowsAreSlots` | crates/core/src/db_context/save_pipeline.rs:316-371 | Every join row a save adds belongs to exactly one slot of one link |
| `SaveGuarantees.KeyedChildNotInserted` | crates/core/src/db_context/set_ops.rs:283-307 | A held child with a key but no row comes in as Unchanged and is never inserted |
| `SaveGuarantees.KeyedChildRowKept` | crates/core/src/db_context/set_ops.rs:283-307 | A held child that has a row is linked in memory only; this save's insert phase leaves its row as it was unless its type is linked to itself |
| `SaveGuarantees.FitBeforeIsFit` | crates/core/src/db_context/save_pipeline.rs:143-160 | What the insert phase needs of tables and keys follows from a condition on the sets and containers before the save |
| `SaveAtomicity.UndoneExactly` | crates/core/src/db_context/save_pipeline.rs:602-626 | Rolling back to a fresh savepoint and releasing it restores data and stack |
| `SaveAtomicity.RecoveryRestores` | crates/core/src/db_context/save_pipeline.rs:602-626 | Recovery gives back the database as it was when rollback and release succeed, and its data when the rollback does; an own transaction always goes |
| `SaveAtomicity.EndKeeps` | crates/core/src/db_context/save_pipeline.rs:549-575 | The data of a save that went through is committed, or in the caller's transaction with the savepoints it had unless the release fails |
| `SaveRetry.FailureKeepsEntries` | crates/core/src/db_context/save_pipeline.rs:602-626 | Whatever step fails, every entry is tracked with the state it had |
| `SaveRetry.ErrorMeansUndone` | crates/core/src/db_context/save_pipeline.rs:73-597 | With recovery succeeding, every error means the database is as before and every entry is tracked in the state it had, except a late interceptor error, which comes after the data was saved and accepted; children a failed drain took out are in no set and no container |
| `SavedDependents.OkIsFinished` | crates/core/src/db_context/save_pipeline.rs:549-597 | A save with something pending that returns Ok has done all of its steps, on the data the database then has |
| `SavedDependents.UntrackedSaved` | crates/core/src/db_context/save_pipeline.rs:455-531 | After a save a row that no entry stands for is there exactly when no deleting navigation of a Deleted entry names one of its values in a column no SetNull one names it in; each column so named by a SetNull navigation is NULL, and all else is as before |
| `SavedDependents.SetNullNulls` | crates/core/src/db_context/set_ops.rs:472-485 | Under a SetNull navigation an untracked row that pointed to a deleted principal has NULL there, and is still there unless a deleting navigation names another of its values |
| `SavedDependents.CascadeRemoves` | crates/core/src/db_context/set_ops.rs:442-471 | Under a cascading one, configured or by default, it is gone, unless a SetNull navigation clears the same column |
| `SavedDependents.RestrictLeaves` | crates/core/src/db_context/set_ops.rs:486-486 | Where only Restrict and NoAction navigations, or optional ones by default, name its values, it is as before |
| `SavedDependents.JoinRowSaved` | crates/core/src/db_context/set_ops.rs:425-438 | A join row goes exactly when a deleting navigation of a Deleted entry names one of its two columns with the entry's key |
| `SavedDependents.JoinRowsGo` | crates/core/src/db_context/set_ops.rs:425-438 | The join rows of a deleted principal's many-to-many collection are gone |
| `SavedDependents.DependentsSettled` | crates/core/src/db_context/save_pipeline.rs:455-531 | After a save no row, tracked or not, points to a deleted principal through a collection that deletes or nulls dependents |
| `SavedUpdates.DeletedGone` | crates/core/src/db_context/save_pipeline.rs:473-513 | After a save the row of every Deleted entry is gone |
| `SavedUpdates.RowStays` | crates/core/src/db_context/save_pipeline.rs:415-531 | A row that no Deleted entry has the key of is still there exactly when no DELETE for a deleted principal names one of its values in a column not cleared first |
| `SavedUpdates.ColumnsExact` | crates/core/src/change_executor/executor_dml.rs:51-67 | The columns set: without tokens those any Modified entry of the set lists, if one lists any, otherwise the entry's own list, all where it is empty |
| `SavedUpdates.ModifiedRow` | crates/core/src/db_context/save_pipeline.rs:415-471 | After a save the row of a Modified entry with its own key has the entry's values in the columns set and its old ones in all others, but for foreign keys a SET NULL has cleared |
| `SavedUpdates.ModifiedSaved` | crates/core/src/db_context/save_pipeline.rs:415-453 | After a save a Modified entry's row, if still there, has its values in every property listed as modified, but for foreign keys a SET NULL has cleared |
| `SavedUpdates.ChangeSaved` | crates/core/src/db_context/save_pipeline.rs:76-453 | From values and originals alone: the row of an entry that was Unchanged before the save has its value of every property in which it differed from its original, and is there unless deleted |
| `SavedUpdates.UpsertSaved` | crates/core/src/db_context/save_pipeline.rs:374-413 | After a save the row of an upserted entry is the entry's, but for what is to be cleared |
| `SavedUpdates.ModifiedFresh` | crates/core/src/change_executor/executor_dml.rs:191-279 | A save goes through only if the row of every Modified entry with something to set had, in every token, the value the entity was loaded with |
| `SavedUpdates.DeletedFresh` | crates/core/src/change_executor/executor_dml.rs:394-441 | The same for every Deleted entry |
| `SavedUpdates.SomeRowThere` | crates/core/src/change_executor/executor_dml.rs:171-179 | Without tokens a save goes through only if some row of the Modified entries of a set was there, and some row of its Deleted ones |
| `SavedData.InsertedRow` | crates/core/src/db_context/save_pipeline.rs:174-313 | An Added entry's row holds its values, its foreign keys unless it is linked, and stands under its own key unless the database generates keys |
| `SavedData.InsertedSaved` | crates/core/src/db_context/save_pipeline.rs:174-531 | After a save the row of an inserted entry is there exactly when no DELETE names a value of its columns that no SET NULL clears first |
| `SavedData.LinkedSaved` | crates/core/src/db_context/save_pipeline.rs:174-531 | After a save the row of a child linked to a new parent, if there, still points to it: no SET NULL or DELETE names a key of an inserted entry |
| `SavedData.HeldChildSaved` | crates/core/src/db_context/save_pipeline.rs:143-531 | After a save in a sound model every new child an Added entry held is stored pointing to the very instance that held it, unless a DELETE for another deleted principal takes its row |
| `SavedData.JoinSaved` | crates/core/src/db_context/save_pipeline.rs:316-531 | After a save the join row of two new entries is there |
| `SaveAgain.NextFinds` | crates/core/src/db_context/set_ops.rs:166-203 | After acceptance the next detection finds something exactly when some entry's original stays behind its values |
| `SaveAgain.SecondSaveIdle` | crates/core/src/db_context/save_pipeline.rs:76-125 | After a save that went through, with nothing changed since, a second one finds nothing pending exactly when no entry of a set after the first accepted one was Added or Modified with another original and no link changed the foreign keys of a child that came with a key |
| `SaveAgain.IdleTouchesNothing` | crates/core/src/db_context/save_pipeline.rs:106-125 | With nothing pending no transaction is opened and nothing changes |
| `SaveAgain.KeyedChildFoundAgain` | crates/core/src/db_context/set_ops.rs:299-304 | A linked child that came with a key is found Modified by the second save, with its new foreign keys |
| `SaveAgain.SecondSetFoundAgain` | crates/core/src/tracking.rs:183-198 | Two sets with a changed entry in the second: the next detection finds it again |
| `SaveAgain.RelinkedFoundAgain` | crates/core/src/db_context/set_ops.rs:299-304 | One set with a linked keyed child: the next detection finds it |
| `SaveRetry.LateErrors` | crates/core/src/db_context/save_pipeline.rs:602-626 | A failed insert, join, later statement or commit is a failure past both drains |
| `SaveRetry.FailureLeavesDrained` | crates/core/src/db_context/save_pipeline.rs:143-160 | After a failure past the drains no Added entry holds a child in a collection |
| `SaveRetry.RetryLinksNothing` | crates/core/src/db_context/save_pipeline.rs:146-151 | A retry then has no links: it has those of the first save exactly when that had none |
| `SaveRetry.RetryJoinsNothing` | crates/core/src/db_context/save_pipeline.rs:316-371 | So it adds no join row |
| `SaveRetry.RetryRow` | crates/core/src/db_context/save_pipeline.rs:174-313 | A linked child the retry inserts is stored with the foreign keys the failed save left in memory |
| `SaveRetry.RetryRealises` | crates/core/src/db_context/save_pipeline.rs:174-313 | A retry realises a link the failed save had written exactly when the parent gets the key it had then, another exactly when the child pointed there before |
| `SaveRetry.RetryByKeyKind` | crates/core/src/db_context/save_pipeline.rs:174-313 | With generated keys that are not given out again it realises none the failed save had written, with natural keys all |
| `SaveRetry.RetryAfterFailedDrain` | crates/core/src/db_context/save_phases.rs:28-103 | After a failed drain a retry links what containers still hold and nothing that had been taken out |
| `Tracker.ChangeTracker.Track` | crates/core/src/tracking.rs:77-105 | A new entry gets an id never used before |
| `Tracker.ChangeTracker.DetectChanges` | crates/core/src/tracking.rs:107-140 | Every entry becomes what detection of its own snapshot says |
| `Tracker.ChangeTracker.AcceptAllChanges` | crates/core/src/tracking.rs:183-202 | Every entry is accepted with its own snapshot, Deleted ones are gone |
| `Tracker.ChangeTracker.AcceptSets` | crates/core/src/db_context/set_ops.rs:178-203 | Accepting set by set is deciding every entry at the first set |
| `Tracker.DetectExact` | crates/core/src/tracking.rs:107-140 | An Unchanged entry becomes Modified exactly when some field differs, recording exactly those fields |
| `Tracker.DetectedExactly` | crates/core/src/tracking.rs:107-140 | The same for every entry among the pairs handed in; entries without snapshot or original, or in another state, stay as they are |
| `Tracker.AcceptedExactly` | crates/core/src/tracking.rs:183-202 | Deleted entries are forgotten, Unchanged ones stay, Added and Modified ones become Unchanged with the snapshot handed in for them, if any, as original |
| `Tracker.DetectIdempotent` | crates/core/src/tracking.rs:107-140 | Detecting twice is detecting once |
| `Tracker.SameIsFieldwise` | crates/core/src/entity_snapshot.rs:59-65 | With unique fields snapshots are equal exactly when they agree field by field, whatever the order |
| `Tracker.AcceptAgrees` | crates/core/src/db_context/set_ops.rs:178-203 | After accepting, tracker and sets hold the same ids, all Unchanged with original equal to current, exactly when every Unchanged entry of the first set was in step and every entry of the other sets was settled |
| `Tracker.KeyedChildDisagrees` | crates/core/src/db_context/set_ops.rs:299-304 | One set with a linked child that came with a key: tracker and set disagree |
| `Tracker.IdsGrow` | crates/core/src/tracking.rs:77-105 | Over any run, whatever is detached, cleared or rejected, ids only grow, so none is handed out twice |
| `Tracker.IdStandsForOne` | crates/core/src/tracking.rs:77-105 | Over any run an id in use stands for the one entry tracked when it was handed out |
| `Tracker.ChangeTracker.RejectAllChanges` | crates/core/src/tracking.rs:204-212 | The loop drops Added entries and settles the others with the original they had |
| `Tracker.FirstSetDecides` | crates/core/src/tracking.rs:183-202 | The first set's accept decides every entry of every type |
| `Tracker.LostOriginal` | crates/core/src/tracking.rs:183-202 | An entity added through a later set ends Unchanged without an original, so later detection never finds a change in it |
| `Tracker.NextDetectionFindsNothing` | crates/core/src/tracking.rs:107-140 | Over an accepted set the next detection finds nothing |
| `Includes.LoadHasMany` | crates/core/src/navigation_loader.rs:102-211 | Each entity gets exactly the rows its own lookup would return, in row order |
| `Includes.LoadBelongsTo` | crates/core/src/navigation_loader.rs:102-211 | Each entity gets the last row its own lookup would return, if any |
| `Includes.LoadManyToMany` | crates/core/src/navigation_loader.rs:213-322 | Each entity gets the related rows its own join rows lead to, in join order |
| `Includes.BatchHolds` | crates/core/src/navigation_loader.rs:102-211 | The batched IN query holds, under an entity's key, exactly the rows of that entity's lookup |
| `Includes.GroupRows` | crates/core/src/navigation_loader.rs:328-338 | Rows are grouped by key, in order |
| `Includes.IndexRows` | crates/core/src/navigation_loader.rs:356-364 | The last row of a key wins |
| `Includes.DistinctRelated` | crates/core/src/navigation_loader.rs:240-275 | Every related key of the join rows is asked for, and none twice |
| `Includes.EqSymmetric` | crates/core/src/provider/db_value_key.rs:49-75 | Two values, the second not NULL, have the same key exactly when SQL finds them equal |
| `Includes.TakeAll` | crates/macros/src/entity/parse.rs:269-277 | Children are taken in parent order, with their counts |
| `Includes.GiveBack` | crates/macros/src/entity/parse.rs:294-299 | Each parent gets the same number of children back, from its own place |
| `Includes.NestedKeepsPlaces` | crates/macros/src/entity/parse.rs:268-300 | Every child returns to its own parent in its original position, loaded |
| `Includes.TakeReferences` | crates/macros/src/entity/parse.rs:311-325 | References are taken in order, with their positions |
| `Includes.LoadNested` | crates/macros/src/entity/parse.rs:268-300 | One query for the children of all parents gives each parent its own children back in their places, each with what its own lookup finds |
| `Includes.LoadNestedReferences` | crates/macros/src/entity/parse.rs:311-348 | The same below references: every entity that has one keeps it, loaded by itself |
| `Includes.GiveReferences` | crates/macros/src/entity/parse.rs:326-348 | Every entity that had a reference gets the loaded form of its own, the others none |
| `ModelBuilder.DefaultIsNeutral` | crates/core/src/model_builder.rs:120-130 | Adding an empty configuration changes neither the built model nor the filters, which is why those paths need not drop the caches |
| `ModelBuilder.Builder.ApplyConfigToMeta` | crates/core/src/model_builder.rs:160-195 | The two passes over the properties give each its configured form |
| `ModelBuilder.Builder.Build` | crates/core/src/model_builder.rs:148-158 | The cached answer is the one computed anew |
| `ModelBuilder.Builder.FiltersByTable` | crates/core/src/model_builder.rs:273-292 | The cached filter map is the one computed anew |
| `ModelBuilder.Builder.Perform` | crates/core/src/model_builder.rs:100-292 | Every call keeps the caches right and answers as if there were none |
| `ModelBuilder.Builder.Run` | crates/core/src/model_builder.rs:100-292 | Over any sequence of calls every answer is the one computed anew from the model at that point |
| `ModelBuilder.Builder.EntityMetasMut` | crates/core/src/model_builder.rs:198-211 | Direct access keeps the caches right exactly when recomputing would give the same |
| `ModelBuilder.UniqueKept` | crates/core/src/model_builder.rs:120-251 | No call registers a type twice |
| `ModelBuilder.TableNameReaches` | crates/core/src/model_builder.rs:132-146 | A table name set through `apply_configuration` alone reaches the built model exactly when the type already has a configuration, as registering it first ensures |
| `ModelBuilder.UnregisteredKeepsName` | crates/core/src/model_builder.rs:132-146 | A type nobody registered keeps its own table name |
| `ModelBuilder.BuiltAsConfigured` | crates/core/src/model_builder.rs:159-195 | A newly registered type configured by any sequence of fluent calls is built with the last table name and keys given and, property by property, the last column name and length and every flag its calls set; all else as declared |
| `ModelBuilder.FilterThere` | crates/core/src/model_builder.rs:275-292 | Where table names differ the filter map has exactly the filters set, each under its type's table and with its values |
| `ModelBuilder.RegisterEffect` | crates/core/src/model_builder.rs:231-241 | Registering puts a type at the end unless it is there, and leaves every configuration alone |
| `ModelBuilder.FilterEffect` | crates/core/src/model_builder.rs:243-255 | Setting a filter registers the type and changes nothing else of any configuration |

## Left out

- Raw SQL conditions, raw CTE bodies, set operations, window functions, pagination and the legacy filter list: opaque text, or not reachable through the builder.
- Subquery resolution (`resolve_subqueries`): specifications arrive with resolved table and column names.
- SqlMeaning.CompiledMeaning: conditions with an empty `IN ()` list are excluded (`ReadAsMeant`), as that text is not standard SQL; their placeholders are numbered and bound like any other's.
- SqlMeaning.TreeMeaning: EXISTS predicates that are a top-level OR, and tables related to themselves, are excluded; the lemmas ExistsWithDisjunction and SelfExists say exactly what their text means instead.
- Foreign-key enforcement, referenced tables created later in a migration, name collisions of constraints, sequences, and the text of DDL statements.
- MigrationScript.Store.RevertToTarget: the history as queried is a parameter, since the order of ids is the database's; that a dropped object is not restored is shown step by step (DownStep), not for the final state.
- SnapshotReadBack.RoundTrip: names that are themselves keys of the file are excluded, as the parser takes their text for the key, and type names that hold a quote, which are not read back; white space before a value is the ASCII one.
- Batched upserts and `ON CONFLICT` text: keys and binding are those of INSERT.
- Executor.BatchRefinesRows: assumes distinct keys among the entities, property columns that are unique, and a filter that looks at one row; per-row conditions name the key's fields, taken as its columns.
- `RETURNING *` is taken to yield the primary key first; ids generated for one statement are taken to be consecutive.
- Session.RunSound: a statement still running when its handle is dropped, task cancellation inside the background rollback, and a commit whose outcome is unknown are not modelled; neither is MySQL's own way of setting isolation.
- SavePipeline.SavePipeline.SaveChanges: sets carry no query filter, and tables of types without a registered set have no rows. That a save succeeds is stated for types without tokens and rows that all are there; the exact condition for a conflict, batch by batch and token by token, is stated of the executor (`Executor`, `DeleteBatch`), and here only that a save that went through met none (`SavedUpdates.ModifiedFresh`, `SavedUpdates.DeletedFresh`, `SavedUpdates.SomeRowThere`).
- SavedData.HeldChildSaved: assumes that no upsert of the type takes the key of an inserted entry, and that the names in the model are right about which type's keys a column holds (`Proper`).
- SaveLinkage.InsertSet: one statement per row, and a type has at least one insert column. Generated keys count up; whether a rollback resets them is left open.
- The wrong entity type in a cascade (a failed downcast) is a plain error; interceptor bodies, logging and timing are outcomes.
- HasOne loading, lazy loading, float and binary keys, the early returns of the many-to-many loader (the result is the same), and a nested load run a second time for deeper paths.
- ModelBuilder: query filters with unresolved navigation names, `find_entity`, seed application, and the process-wide metadata cache.
- Drivers, pools, TLS, type conversion, introspection, the CLI, scaffolding, dependency injection, the derive macro and `linq!` apart from the quoted nested loaders.

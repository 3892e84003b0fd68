# WeLite statement construction, modelled in Dafny

WeLite is a Kotlin layer over SQLite. Calling code declares tables and columns as typed objects. It builds statements through a DSL and gets back SQL text plus the ordered list of argument types its `?` placeholders bind. This project models the core of that layer:

- **Columns** (`column.dfy`, module `Columns`). A column's constraint list grows in place through its adders. Its foreign key and default are set in place. `markPrimaryKey` numbers it into its table's composite primary key. The module also covers the column's rendering (`"table"."column"`, its `CREATE TABLE` fragment), `equals`/`hashCode`/`compareTo`, and aliasing.
- **Queries** (`query.dfy`, module `Queries`). A query keeps one array of bind slots (`QueryArgs`) for its whole life. `set(index, value)` overwrites one slot in place. Also here: the `count` rewrite to `SELECT COUNT(*) FROM ( … )`, the table from selected expressions to result ordinals, and `subset`, which de-duplicates the selected columns.
- **Triggers** (`trigger.dfy`, module `Triggers`). A collector appends the trigger's body statements in call order. It also checks `NEW.`/`OLD.` column references. A trigger without statements cannot be constructed. The `CREATE TRIGGER` and `DROP TRIGGER` texts have a fixed layout, and the create text refuses body statements that bind arguments.
- **Update statements** (`update_statement.dfy`, module `UpdateStatements`). Builds `UPDATE [OR …] <table> SET … [WHERE …]` and its argument types, through `update(...).where { … }`, `updateAll(...)` and the two factories.

Shared modules:
- `wrappers.dfy` holds `Option`, `Result` and `Outcome`.
- `sql_text.dfy` holds what every part uses: identities, persistent types, SQL fragments (text plus argument types), joining with a separator, counting placeholders, Kotlin `String.compareTo`, `trim()`, and `startsWith(…, ignoreCase = true)`.

Code the model cannot see is taken as a parameter. Each parameter is named at its use:
- identifier quoting (`quote`);
- constraint rendering (`render`);
- a persistent type's bind-text codec (`valueToString`);
- the text of `OnConflict.updateOr`;
- the SQL of each expression, assignment or statement seed, given as a fragment.

The caller's binding callback is the list of `set` calls it makes. The block of a trigger's `trigger(...)` call is the list of collector calls it makes. The SQL executor and the database are objects that record the SQL they are given.

Four behaviours of the code are easy to misread; the model follows the code as written:
- **Unbound slots.** An argument slot that is never set is sent to the database as the text `Unbound`; it is not rejected (see Findings).
- **Repeated expressions.** An expression selected twice maps to its *last* ordinal, because each `put` overwrites the previous one.
- **Count check.** The count rewrite trims the SQL before comparing its prefix.
- **Row-id columns.** A column is nullable when its type is nullable or it is a row id. A row id is an integer-typed column whose constraints include PRIMARY KEY and not DESC. This is the rule documented on `nullable` (`isRowId` itself is not part of this model), applied to the column's own constraint list.

## Model

| member | source | states |
|---|---|---|
| Columns.Table.ColumnDefiningPrimaryKey | welite-core/src/main/java/com/ealva/welite/db/table/Column.kt:269 | none exactly when no registered column declares PRIMARY KEY; otherwise a registered column that does |
| Columns.Table.Register | welite-core/src/main/java/com/ealva/welite/db/table/Column.kt:107-110 | registering a new column appends it and keeps the table invariant (distinct columns; primary-key positions dense 1..n) |
| Columns.NewColumn | welite-core/src/main/java/com/ealva/welite/db/table/Column.kt:102-112 | the column is fresh, has the given table, name, type and constraints, and is unnumbered; it is appended to its table only when the `addTo` callback registers it, and the table stays valid |
| Columns.Column.constructor | welite-core/src/main/java/com/ealva/welite/db/table/Column.kt:116-125 | the initial constraints in order; no foreign key, no primary-key position, no default |
| Columns.Column.RefersTo | welite-core/src/main/java/com/ealva/welite/db/table/Column.kt:140-141 | present exactly when a foreign key is set, and then it is that key's child column |
| Columns.Column.Identity | welite-core/src/main/java/com/ealva/welite/db/table/Column.kt:143 | the identity is made from the column's own name |
| Columns.Column.AppendTo | welite-core/src/main/java/com/ealva/welite/db/table/Column.kt:156-160 | the table identity, a dot at exactly that position, then the quoted column name |
| Columns.Column.AsDefaultValue | welite-core/src/main/java/com/ealva/welite/db/table/Column.kt:199-205 | the unquoted table name and column name, dot-separated, in parentheses |
| Columns.Column.DescriptionDdl | welite-core/src/main/java/com/ealva/welite/db/table/Column.kt:165-177 | starts with the quoted name, a space and the SQL type; ends with ` DEFAULT <text>` when a default is set |
| Columns.ConstraintsDdlSnoc | welite-core/src/main/java/com/ealva/welite/db/table/Column.kt:169-172 | one more constraint appends exactly a space and its rendering: constraints render in insertion order |
| Columns.ColumnDdlAddConstraint | welite-core/src/main/java/com/ealva/welite/db/table/Column.kt:165-177 | an added constraint appears after the earlier ones and before the default clause |
| Columns.MediaTitleDdl | welite-core/src/main/java/com/ealva/welite/db/table/Column.kt:165-177 | a TEXT column with NOT NULL, COLLATE NOCASE and a default renders as `"MediaTitle" TEXT NOT NULL COLLATE NOCASE DEFAULT 'Title'` |
| Columns.Column.AddConstraint | welite-core/src/main/java/com/ealva/welite/db/table/Column.kt:136 | appends the constraint and nothing else |
| Columns.Column.PrimaryKeyConstraint | welite-core/src/main/java/com/ealva/welite/db/table/Column.kt:210 | appends PRIMARY KEY; the column then defines the primary key |
| Columns.Column.UniqueConstraint | welite-core/src/main/java/com/ealva/welite/db/table/Column.kt:212 | appends UNIQUE |
| Columns.Column.AscConstraint | welite-core/src/main/java/com/ealva/welite/db/table/Column.kt:214 | appends ASC |
| Columns.Column.DescConstraint | welite-core/src/main/java/com/ealva/welite/db/table/Column.kt:216 | appends DESC |
| Columns.Column.AutoIncrementConstraint | welite-core/src/main/java/com/ealva/welite/db/table/Column.kt:218-223 | adds PRIMARY KEY only when absent, then AUTOINCREMENT; the column then defines the key and is auto-increment, and an integer column without DESC becomes nullable (a row id) |
| Columns.Column.OnConflictConstraint | welite-core/src/main/java/com/ealva/welite/db/table/Column.kt:225-227 | appends the conflict-resolution constraint |
| Columns.Column.CollateWith | welite-core/src/main/java/com/ealva/welite/db/table/Column.kt:229-233 | appends the collation constraint (binary, NOCASE, RTRIM or a named one) |
| Columns.Column.SetDefault | welite-core/src/main/java/com/ealva/welite/db/table/Column.kt:149-154 | the default becomes the given expression's text |
| Columns.Column.References | welite-core/src/main/java/com/ealva/welite/db/table/Column.kt:240-255 | the foreign key has this column as parent and the referenced column as child, with both tables' identities, both actions and the name; the column then refers to the referenced one |
| Columns.Column.MakeAlias | welite-core/src/main/java/com/ealva/welite/db/table/Column.kt:265-266 | a fresh column with the same name and type, no constraints, on a fresh table named by the alias or `<table>_<column>` |
| Columns.Column.MarkPrimaryKey | welite-core/src/main/java/com/ealva/welite/db/table/Column.kt:268-275 | fails when some column already declares PRIMARY KEY, or this one is already numbered, and then changes nothing; otherwise numbers it one past the count already numbered, keeping the positions dense |
| Columns.Column.Nullable | welite-core/src/main/java/com/ealva/welite/db/table/Column.kt:69-73 | holds exactly when the type is nullable or the column is a row id (integer type, PRIMARY KEY, no DESC) |
| Columns.Column.IsOneColumnPK | welite-core/src/main/java/com/ealva/welite/db/table/Column.kt:162 | true only when the table's primary key has exactly one column; true when that column is this one; false when it is a column not equal to this one |
| Columns.Table.SetPrimaryKey | welite-core/src/main/java/com/ealva/welite/db/table/Column.kt:162 | the table's primary key becomes exactly the given columns |
| Columns.Column.DefinesPrimaryKey | welite-core/src/main/java/com/ealva/welite/db/table/Column.kt:130-131 | true exactly when the constraints include PRIMARY KEY; `PrimaryKeyConstraint` and `AutoIncrementConstraint` establish it |
| Columns.Column.IsAutoInc | welite-core/src/main/java/com/ealva/welite/db/table/Column.kt:133-134 | true exactly when the constraints include AUTOINCREMENT; `AutoIncrementConstraint` establishes it |
| Columns.Column.ToString | welite-core/src/main/java/com/ealva/welite/db/table/Column.kt:193-197 | the unquoted table name, a dot at exactly that position, then the column name |
| Columns.Column.SameColumn | welite-core/src/main/java/com/ealva/welite/db/table/Column.kt:181-189 | `equals`: every column equals itself, and equal columns share table, name and persistent type; `SameColumnEquivalence` proves it an equivalence and `SameColumnConsistent` proves it agrees with `compareTo` and `hashCode` |
| Columns.Column.HashCode | welite-core/src/main/java/com/ealva/welite/db/table/Column.kt:191 | a 32-bit value congruent modulo 2^32 to the table's hash times 31 plus the name's `String.hashCode` |
| Columns.Column.CompareTo | welite-core/src/main/java/com/ealva/welite/db/table/Column.kt:278-279 | by table identity, then by name, and zero exactly when both agree; `CompareToZero`, `CompareToAntisymmetric` and `CompareToTransitive` prove it zero exactly on equal keys, antisymmetric and transitive |
| Columns.CompareToZero | welite-core/src/main/java/com/ealva/welite/db/table/Column.kt:278-279 | compare is zero exactly when table identity and name agree |
| Columns.CompareToAntisymmetric | welite-core/src/main/java/com/ealva/welite/db/table/Column.kt:278-279 | swapping the operands negates the comparison |
| Columns.CompareToTransitive | welite-core/src/main/java/com/ealva/welite/db/table/Column.kt:278-279 | the ordering is transitive |
| Columns.SameColumnConsistent | welite-core/src/main/java/com/ealva/welite/db/table/Column.kt:179-191 | equal columns compare as zero and have equal hash codes |
| Columns.SameColumnEquivalence | welite-core/src/main/java/com/ealva/welite/db/table/Column.kt:181-189 | `equals` is reflexive, symmetric and transitive |
| Queries.SetSlot | library-android/src/main/java/com/ealva/welite/db/table/Query.kt:105-109 | succeeds exactly for an index inside the argument list; then only that slot changes, to the value's bind text; otherwise an out-of-bounds error |
| Queries.ApplySets | library-android/src/main/java/com/ealva/welite/db/table/Query.kt:105-109 | a run of `set` calls fails exactly when one of them has an index out of range |
| Queries.ApplySetsKeepsUntouched | library-android/src/main/java/com/ealva/welite/db/table/Query.kt:105-109 | a slot no call addresses keeps its text and bound state |
| Queries.QueryArgs.constructor | library-android/src/main/java/com/ealva/welite/db/table/Query.kt:102-103 | one slot per argument type, each holding `Unbound` |
| Queries.QueryArgs.ParamCount | library-android/src/main/java/com/ealva/welite/db/table/Query.kt:111-112 | the number of argument types |
| Queries.QueryArgs.Set | library-android/src/main/java/com/ealva/welite/db/table/Query.kt:105-109 | rejects an index outside the slots and changes nothing; otherwise overwrites exactly that slot with the value's bind text |
| Queries.QueryArgs.Arguments | library-android/src/main/java/com/ealva/welite/db/table/Query.kt:114-115 | a fresh copy of the slots, unbound ones included as `Unbound` |
| Queries.QueryArgs.CheckedArguments | library-android/src/main/java/com/ealva/welite/db/table/Query.kt:100-115 | a fresh copy exactly when every slot was set; otherwise the first unset slot |
| Queries.UnboundArgumentIsSentAsText | library-android/src/main/java/com/ealva/welite/db/table/Query.kt:100-115 | a fresh query's arguments are `["Unbound"]` and no failure occurs; the checked form reports slot 0 |
| Queries.QueryImpl.constructor | library-android/src/main/java/com/ealva/welite/db/table/Query.kt:119-125 | the SQL and argument types come from the seed; every slot starts unbound |
| Queries.QueryImpl.ExpectedArgCount | library-android/src/main/java/com/ealva/welite/db/table/Query.kt:161-162 | the number of argument types of the seed |
| Queries.QueryImpl.RequiresBindArguments | library-android/src/main/java/com/ealva/welite/db/table/Query.kt:63-64 | true exactly when the seed has argument types |
| Queries.QueryImpl.Bind | library-android/src/main/java/com/ealva/welite/db/table/Query.kt:151-153 | running the callback's calls on the query's one slot array is exactly the sequential application of those calls |
| Queries.QueryImpl.PrepareExecution | library-android/src/main/java/com/ealva/welite/db/table/Query.kt:151-159 | binds, then sends the SQL (count-rewritten when asked) with a copy of every slot, unset ones as `Unbound`; fails exactly when a `set` call fails, with that call's error |
| Queries.QueryImpl.PrepareCheckedExecution | library-android/src/main/java/com/ealva/welite/db/table/Query.kt:151-159 | the corrected execution: as `PrepareExecution`, but succeeds only when, in addition, every slot was set, and otherwise reports the first unset slot |
| Queries.UnboundArgumentsReachDatabase | library-android/src/main/java/com/ealva/welite/db/table/Query.kt:100-159 | a query run with a callback that sets nothing sends its SQL (count-rewritten when asked) with every slot as `Unbound`; the checked execution reports slot 0 when the query has any argument |
| Queries.BindingsPersistExample | library-android/src/main/java/com/ealva/welite/db/table/Query.kt:125-128 | a value bound in one execution is still sent in the next one |
| Queries.CountQuerySql | library-android/src/main/java/com/ealva/welite/db/table/Query.kt:156-159 | a count query is kept as is; any other is wrapped as `SELECT COUNT(*) FROM ( <sql> )` |
| Queries.CountQuerySqlIsCountQuery | library-android/src/main/java/com/ealva/welite/db/table/Query.kt:156-159 | whatever `count` runs is itself a count query |
| Queries.CountQuerySqlIdempotent | library-android/src/main/java/com/ealva/welite/db/table/Query.kt:156-159 | rewriting twice is the same as rewriting once |
| Queries.PlainSelectIsNotCountQuery | library-android/src/main/java/com/ealva/welite/db/table/Query.kt:157 | `SELECT * FROM "Artist"` is not a count query |
| Queries.CountQueryWrapsPlainSelect | library-android/src/main/java/com/ealva/welite/db/table/Query.kt:156-159 | that select is wrapped |
| Queries.CountQueryKeepsIndentedCount | library-android/src/main/java/com/ealva/welite/db/table/Query.kt:156-159 | a query that, after leading whitespace, starts with `SELECT COUNT(*)` in any letter case is run exactly as written, trailing whitespace included |
| Queries.CountQueryKeepsCountSelect | library-android/src/main/java/com/ealva/welite/db/table/Query.kt:156-159 | an indented, lower-case `select Count(*) …` ending in a space and a newline is run unchanged |
| Queries.LastIndex | library-android/src/main/java/com/ealva/welite/db/table/Query.kt:168-173 | -1 exactly when the expression is not selected; otherwise a position holding it with no later one |
| Queries.MapExprToIndex | library-android/src/main/java/com/ealva/welite/db/table/Query.kt:168-173 | the keys are the selected expressions; each maps to its last ordinal and any other expression looks up as -1 |
| Queries.DistinctElements | library-android/src/main/java/com/ealva/welite/db/table/Query.kt:89-94 | `distinct()` keeps exactly the elements of its input, each once |
| Queries.DistinctOfNoDuplicates | library-android/src/main/java/com/ealva/welite/db/table/Query.kt:89-94 | a list without repeats is its own `distinct()` |
| Queries.DistinctKeepsFirstOccurrenceOrder | library-android/src/main/java/com/ealva/welite/db/table/Query.kt:89-94 | kept elements appear in the order of their first occurrence |
| Queries.DistinctIdempotent | library-android/src/main/java/com/ealva/welite/db/table/Query.kt:89-94 | `distinct()` twice is `distinct()` once |
| Queries.Subset | library-android/src/main/java/com/ealva/welite/db/table/Query.kt:89-94 | same source; the result columns are the requested ones, each exactly once |
| Triggers.NewTrigger | welite-core/src/main/java/com/ealva/welite/db/trigger/TriggerImpl.kt:57-73 | fails exactly when the statement list is empty; otherwise keeps the name, flag, event, update columns and statements |
| Triggers.FirstBindable | welite-core/src/main/java/com/ealva/welite/db/trigger/TriggerImpl.kt:102-105 | none exactly when no statement has argument types; otherwise the least position of one that has |
| Triggers.FirstBindableAt | welite-core/src/main/java/com/ealva/welite/db/trigger/TriggerImpl.kt:102-105 | a statement with arguments after a run of statements without is the first offender overall |
| Triggers.AppendUpdateColumns | welite-core/src/main/java/com/ealva/welite/db/trigger/TriggerImpl.kt:84-92 | appends the update columns' identities separated by ", ", with no trailing separator |
| Triggers.AppendStatements | welite-core/src/main/java/com/ealva/welite/db/trigger/TriggerImpl.kt:101-108 | appends each statement followed by `; `, or fails with the SQL of the first statement that binds arguments |
| Triggers.MakeCreateStatement | welite-core/src/main/java/com/ealva/welite/db/trigger/TriggerImpl.kt:79-110 | the create text: `CREATE [TEMP ]TRIGGER IF NOT EXISTS`, name, BEFORE/AFTER, event, ` OF` columns only for an UPDATE with columns, ` ON` table, optional ` WHEN`, ` BEGIN`, statements, `END;`; fails on a statement with arguments |
| Triggers.CreateFailsIffBindable | welite-core/src/main/java/com/ealva/welite/db/trigger/TriggerImpl.kt:101-108 | creation fails exactly when some statement binds arguments, and the error carries the first such statement's SQL |
| Triggers.BodySqlAppend | welite-core/src/main/java/com/ealva/welite/db/trigger/TriggerImpl.kt:101-108 | the body of two statement runs is the first run's body followed by the second's |
| Triggers.BodyOfOneStatement | welite-core/src/main/java/com/ealva/welite/db/trigger/TriggerImpl.kt:106-107 | one statement renders as its SQL then `; ` |
| Triggers.DropSql | welite-core/src/main/java/com/ealva/welite/db/trigger/TriggerImpl.kt:116-119 | `DROP TRIGGER IF EXISTS ` followed by exactly the trigger's identity |
| Triggers.CreateAndDropNameTheSameTrigger | welite-core/src/main/java/com/ealva/welite/db/trigger/TriggerImpl.kt:79-119 | the identity directly after the create prefix is the one the drop text names |
| Triggers.Create | welite-core/src/main/java/com/ealva/welite/db/trigger/TriggerImpl.kt:75-77 | runs the create text once when it can be built, regardless of the `temporary` argument; otherwise runs nothing and fails |
| Triggers.Drop | welite-core/src/main/java/com/ealva/welite/db/trigger/TriggerImpl.kt:112-114 | runs the drop text once |
| Triggers.NewOrOldColumn.Name | welite-core/src/main/java/com/ealva/welite/db/trigger/TriggerImpl.kt:122-130 | `NEW.` or `OLD.` followed by exactly the original name, so that name can be read back |
| Triggers.NewOrOldColumn.Identity | welite-core/src/main/java/com/ealva/welite/db/trigger/TriggerImpl.kt:131 | the identity is made from the qualified name |
| Triggers.NewOrOldColumn.AppendTo | welite-core/src/main/java/com/ealva/welite/db/trigger/TriggerImpl.kt:133-135 | renders as the bare qualified name, never via the owning table |
| Triggers.NewOrOldColumn.ColumnTable | welite-core/src/main/java/com/ealva/welite/db/trigger/TriggerImpl.kt:129 | every other attribute, such as the table, is the original column's |
| Triggers.TriggerStatements.constructor | welite-core/src/main/java/com/ealva/welite/db/trigger/TriggerImpl.kt:186-190 | the table and event are fixed and no statement is collected yet |
| Triggers.TriggerStatements.NewColumn | welite-core/src/main/java/com/ealva/welite/db/trigger/TriggerImpl.kt:192-198 | succeeds exactly for an INSERT or UPDATE trigger and a column of the trigger's table; a DELETE trigger fails first, then a foreign column |
| Triggers.TriggerStatements.OldColumn | welite-core/src/main/java/com/ealva/welite/db/trigger/TriggerImpl.kt:200-206 | succeeds exactly for a DELETE or UPDATE trigger and a column of the trigger's table; an INSERT trigger fails first, then a foreign column |
| Triggers.TriggerStatements.Add | welite-core/src/main/java/com/ealva/welite/db/trigger/TriggerImpl.kt:208-217 | insert, delete and select-where append their seed at the end |
| Triggers.TriggerStatements.Where | welite-core/src/main/java/com/ealva/welite/db/trigger/TriggerImpl.kt:219-237 | only a `where` after `update` appends, with the predicate evaluated against the updated table |
| Triggers.TriggerStatements.Run | welite-core/src/main/java/com/ealva/welite/db/trigger/TriggerImpl.kt:208-241 | a block of calls appends exactly what those calls collect, in call order |
| Triggers.CollectedEmptyIff | welite-core/src/main/java/com/ealva/welite/db/trigger/TriggerImpl.kt:219-237 | nothing is collected exactly when every call is an update never given a `where` |
| Triggers.CollectedAppend | welite-core/src/main/java/com/ealva/welite/db/trigger/TriggerImpl.kt:208-241 | two blocks in sequence collect the first block's statements then the second's |
| Triggers.TriggerOf | welite-core/src/main/java/com/ealva/welite/db/trigger/TriggerImpl.kt:248-265 | constructs from the collected statements with no update columns, so no ` OF` clause is ever emitted; fails exactly when the block collected nothing |
| UpdateStatements.BuildStatement | library-android/src/main/java/com/ealva/welite/db/statements/UpdateStatement.kt:72-94 | the head (`updateOr` text and table identity), ` SET ` and the assignments separated by ", ", then ` WHERE <predicate>` only when a predicate is given; types of the assignments then of the predicate |
| UpdateStatements.Invoke | library-android/src/main/java/com/ealva/welite/db/statements/UpdateStatement.kt:55-61 | the statement without a WHERE clause; only the assignments' types |
| UpdateStatements.InvokeWhere | library-android/src/main/java/com/ealva/welite/db/statements/UpdateStatement.kt:63-70 | the statement without a predicate followed by ` WHERE <predicate>`; the predicate's types after the assignments' |
| UpdateStatements.UpdateAll | library-android/src/main/java/com/ealva/welite/db/statements/UpdateStatement.kt:35-40 | an update with no WHERE clause |
| UpdateStatements.Update | library-android/src/main/java/com/ealva/welite/db/statements/UpdateStatement.kt:28-33 | the builder remembers table, conflict action and assignments |
| UpdateStatements.UpdateBuilder.Where | library-android/src/main/java/com/ealva/welite/db/statements/UpdateStatement.kt:42-50 | the predicate is evaluated against the builder's own table; the result is the `updateAll` text plus ` WHERE <predicate>`, keeping conflict action and assignments |
| UpdateStatements.ConcatTypesAppend | library-android/src/main/java/com/ealva/welite/db/statements/UpdateStatement.kt:82-87 | argument types concatenate in the order of the fragments they come from |
| UpdateStatements.JoinedPlaceholders | library-android/src/main/java/com/ealva/welite/db/statements/UpdateStatement.kt:85-87 | the joined assignments hold exactly one placeholder per collected argument type |
| UpdateStatements.UpdateSqlWellFormed | library-android/src/main/java/com/ealva/welite/db/statements/UpdateStatement.kt:78-93 | the built statement binds exactly as many arguments as its text has placeholders |
| UpdateStatements.UpdateSqlLayout | library-android/src/main/java/com/ealva/welite/db/statements/UpdateStatement.kt:78-93 | the text starts with the head and ` SET `; a WHERE clause comes last and its types after the assignments' |
| UpdateStatements.Execute | library-android/src/main/java/com/ealva/welite/db/statements/UpdateStatement.kt:98-108 | every execution compiles the statement's fixed SQL and types |

## Left out

- Cursor and database I/O are not modelled: `forEach`, `entityFlow`, `longForQuery` and `DbCursorWrapper`. The same goes for the query-plan logging flag and the coroutine `Flow`. `forEach`, `count` and `longForQuery` are modelled up to the SQL and arguments handed to the database (`PrepareExecution`).
- `db.compileStatement`, `db.select` and the trigger executor's `exec` are foreign calls. They are objects that record what they receive.
- `statementAndTypes` in `UpdateStatementImpl` is never assigned, so nothing is cached. Every execution compiles again.
- Binding values (`executeUpdate(bindArgs)`) after compilation is not modelled.
- The binding callback is the list of `set` calls it makes. A callback that reads state or throws part-way is not modelled beyond a failing `set`.
- These collaborators are not part of this model and are its parameters; their text is not modelled:
  - identifier quoting;
  - rendering of constraints, of assignments collected by `ColumnValues`, and of expressions and predicates;
  - `PersistentType.valueToString`;
  - `OnConflict.updateOr`.
- `ColumnValues` rules are not modelled (last write wins, rejection of a column from another table). The model starts from its already collected assignments, in order.
- The statement builders that make a trigger's insert, delete, update and select seeds are not part of this model; they are parameters. So is the rendering of the trigger's `WHEN` condition.
- `Table` is not part of this model. `columnDefiningPrimaryKey` is the first registered column whose constraints include PRIMARY KEY, and the table's own `hashCode` is a parameter. How a table declares its composite primary key is not modelled: `Columns.Table.SetPrimaryKey` stands for that declaration, so `isOneColumnPK` can be stated for any key. `Column.check`, `index` and `uniqueIndex` forward to table methods and are left out.
- `Column.bindArg` is left out: the bind expression it makes is not part of this model.
- The `block` callback of `Column(...)` runs the adders, and the model calls them one after another.
- `Columns.Column.SameColumn` compares persistent types by value (SQL type, nullability, integer flag), while the source compares the codec objects. Two columns of one table with the same name whose types differ only in codec (a `String` column and an enum stored as TEXT) are equal in the model but not in the source.
- `Columns.NewColumn` starts the constraint list from the caller's constraints. The source's `ConstraintCollection(persistentType)` is not part of this model and may add constraints of its own, such as NOT NULL for a non-nullable type; the examples pass those explicitly.
- `UpdateStatements.BuildStatement` assumes that the assignment list's `appendTo(…, prefix = " SET ")` helper always writes the prefix and separates the assignments with ", ". That helper is not part of this model.
- `Columns.Column.SameColumn` assumes the superclass `equals` of the expression base class accepts any two columns; that class is not part of this model.
- `Columns.Column.MakeAlias`: the alias table is a fresh table whose identity is made from the alias name. The delegation of an `Alias` to its original table is not modelled.
- Kotlin strings are UTF-16, while Dafny characters are Unicode scalar values. `StrCompare` matches `String.compareTo`, and `StringHash` matches `String.hashCode`, only for text without surrogate pairs, since both Kotlin functions run over UTF-16 code units.
- Kotlin `trim()` and `startsWith(…, ignoreCase = true)` are written out for the characters that matter here: Unicode whitespace, and ASCII letters plus U+017F for the fixed `SELECT COUNT(*)` prefix.
- Floating-point and blob values are not modelled.

## Findings

| source | as written | input that shows it | evidently intended | confidence | as-written member | corrected member |
|---|---|---|---|---|---|---|
| library-android/src/main/java/com/ealva/welite/db/table/Query.kt:100-159 | every slot starts as the text `Unbound`, and each execution (`forEach`, `longForQuery`, `count`) hands all slots to the database whether or not they were set | a query whose SQL has one `?` run with a callback that sets nothing: the database receives the argument `"Unbound"` | executing with an unset slot fails before any SQL is sent. The evidence comes from the sibling `Query` implementation in welite-core, whose test of an unbound bindable (welite-core/src/test/java/com/ealva/welite/db/QueryTests.kt:129-132) expects a failure; no test of this Android `Query` says so | medium, not executed | Queries.UnboundArgumentsReachDatabase | Queries.QueryImpl.PrepareCheckedExecution |

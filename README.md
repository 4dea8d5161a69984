# SQLiteQB INSERT builder, modelled in Dafny

This project models the INSERT statement builder of SQLiteQB, a fluent Java library
that assembles SQL statement text. There are three parts:

- `SQLInsertQuery` holds four mutable fields: the conflict policy, the table, the column
  array and the already rendered value source. Package-private setters overwrite
  one field each. `getSQL()` renders the fields into one `INSERT` statement.
- `SQLInsertQuery.Builder` wraps one query object and adds a single-use guard.
  `build()` sets a flag. Each mutator calls `checkNotBuilt()` first, which throws
  `IllegalStateException` once the flag is set.
- A model of Java itself: nullable references are `Option`; the exceptions and
  return values are `Result`/`Outcome`.

The files:

- `base.dfy` (module `Base`) holds that Java model, plus the collaborators this model
  does not see. `OnConflict` is an abstract type. `Action` (`OnConflict.getAction()`)
  and `Join` (`Utils.toString(array, ',', true)`) are uninterpreted constants of
  function type: every proof holds for every keyword and every join that returns normally.
- `insert_query.dfy` (module `InsertQuery`) holds the query's fields as a `QueryState`
  value and the class `SQLInsertQuery` with those fields. `Render` is the pure
  specification of the statement text. `GetSQL` appends the fragments one by one, as
  the source's `StringBuilder` does, and is proved to return `Render` of the fields.
- `insert_builder.dfy` (module `InsertBuilder`) holds the class `Builder` and a pure
  specification of it. `Step` performs one call on a builder state. `Run` performs a
  sequence of calls from left to right, each as a separate statement whose exception
  the caller catches. `Chain` performs a fluent chain, which stops at the first call
  that throws. Each mutator (`Columns`, `Values`, `Value`, `InsertIntoWithConflict`,
  `InsertInto`, `Select`) is proved to move the object's state exactly as `Step` does
  and to report `Step`'s outcome. `Build` and `BuildSQL` move it as `Step(_, Build)`
  does, and `BuildSQL` returns `Render` of the wrapped query. `CheckNotBuilt` reports
  IllegalState exactly when the builder is built.
  `Effective` is an independent definition of the state a sequence leaves: each field
  holds the last write to it among the calls made before the first `build()`.
  `RunIsLastWriteWins` proves `Run` and `Effective` agree for every sequence.

Behaviour kept from the code:

- `values(...)` and `select(...)` write the same field, so the last one called wins.
- `insertInto(table)` is `insertInto(null, table)`, so it clears an earlier policy.
- `build()` never throws and may be repeated.
- `getSQL()` throws `NullPointerException` exactly when the table is null, provided the
  join and `getAction()` return normally.
- A value source that was never set renders as the text `null`. This is Java's
  `StringBuilder.append(null)`.
- A null select object makes `setSelect` throw `NullPointerException` after
  `checkNotBuilt` has passed. The query is then unchanged.

Two behaviours of the code worth noting:

- The code checks only that the table is not null; an empty table name renders.
- `build()` returns the builder's own query object, not a copy. The builder refuses
  further mutation, but the object itself stays mutable through its package-private
  setters.

## Model

| member | source | states |
|---|---|---|
| `InsertQuery.Render` | library/src/main/java/org/mariotaku/sqliteqb/library/query/SQLInsertQuery.java:35-51 | rendering fails with NullPointer exactly when the table is null; otherwise the text starts with "INSERT " and ends with ") " followed by the value-source text |
| `InsertQuery.RenderTailDecides` | library/src/main/java/org/mariotaku/sqliteqb/library/query/SQLInsertQuery.java:44-49 | for two queries with the same non-null table, the same policy and the same columns, the statements are equal if and only if their value-source texts are equal: the tail is decided by the value source alone |
| `InsertQuery.SQLInsertQuery.constructor` | library/src/main/java/org/mariotaku/sqliteqb/library/query/SQLInsertQuery.java:25-32 | a new query has all four fields null |
| `InsertQuery.SQLInsertQuery.GetSQL` | library/src/main/java/org/mariotaku/sqliteqb/library/query/SQLInsertQuery.java:35-51 | appending the fragments one by one yields exactly `Render` of the fields: "INSERT INTO t (join(columns)) values" with no policy, or "INSERT OR action(p) INTO t (join(columns)) values" with one; it modifies nothing, so repeated calls on the same state return equal text |
| `InsertQuery.SQLInsertQuery.SetColumns` | library/src/main/java/org/mariotaku/sqliteqb/library/query/SQLInsertQuery.java:53-55 | replaces the columns and changes no other field |
| `InsertQuery.SQLInsertQuery.SetOnConflict` | library/src/main/java/org/mariotaku/sqliteqb/library/query/SQLInsertQuery.java:57-59 | replaces the conflict policy and changes no other field |
| `InsertQuery.SQLInsertQuery.SetSelect` | library/src/main/java/org/mariotaku/sqliteqb/library/query/SQLInsertQuery.java:61-63 | the value source becomes the nested select's text verbatim; a null select throws NullPointer and changes nothing |
| `InsertQuery.SQLInsertQuery.SetValues` | library/src/main/java/org/mariotaku/sqliteqb/library/query/SQLInsertQuery.java:65-67 | the value source becomes "VALUES (" + join(values) + ")" (`ValuesClause`) and no other field changes |
| `InsertQuery.SQLInsertQuery.SetTable` | library/src/main/java/org/mariotaku/sqliteqb/library/query/SQLInsertQuery.java:69-71 | replaces the table and changes no other field |
| `InsertBuilder.Step` | library/src/main/java/org/mariotaku/sqliteqb/library/query/SQLInsertQuery.java:79-127 | covers the mutators' bodies after the guard (`Apply`); build always passes, sets the flag and leaves the query unchanged; once built, every mutator throws IllegalState and changes nothing; a call that throws leaves the whole state unchanged; the flag is set afterwards exactly when it was set before or the call was build; insertInto(table) sets the table and resets the policy to null |
| `InsertBuilder.BuiltIsFrozen` | library/src/main/java/org/mariotaku/sqliteqb/library/query/SQLInsertQuery.java:125-127 | once built, no sequence of calls changes the builder's state |
| `InsertBuilder.RunIsLastWriteWins` | library/src/main/java/org/mariotaku/sqliteqb/library/query/SQLInsertQuery.java:90-123 | for every sequence of calls made as separate statements (a call that throws changes nothing and the next one still runs), each field of the resulting query is the last write to it among the calls before the first build, or its earlier value, and the builder ends built exactly when it was built before or build was called |
| `InsertBuilder.ChainIsRunOfCompleted` | library/src/main/java/org/mariotaku/sqliteqb/library/query/SQLInsertQuery.java:90-123 | a fluent chain, which stops at the first exception, leaves the state of the calls that completed before it; it throws exactly when some call does not complete, with that call's exception |
| `InsertBuilder.FluentChainStopsAtNullSelect` | library/src/main/java/org/mariotaku/sqliteqb/library/query/SQLInsertQuery.java:119-123 | in the chain values(x).select(null).values(y) the null select throws NullPointer, values(y) never runs, and the value source stays that of values(x) |
| `InsertBuilder.LastValueSourceIsRendered` | library/src/main/java/org/mariotaku/sqliteqb/library/query/SQLInsertQuery.java:45-66 | from a new builder, the rendered statement ends with the text of the last values(...) or non-null select(...) made before build, or with "null" if there was none |
| `InsertBuilder.LastValueSourceWins` | library/src/main/java/org/mariotaku/sqliteqb/library/query/SQLInsertQuery.java:61-67 | whichever of values(String[]), values(String) or a non-null select(...) is called last on the open builder determines the value source, whatever was called before |
| `InsertBuilder.InsertIntoClearsPolicy` | library/src/main/java/org/mariotaku/sqliteqb/library/query/SQLInsertQuery.java:108-117 | after any calls on the open builder, insertInto(table) leaves the table set to its argument and the policy null |
| `InsertBuilder.Builder.constructor` | library/src/main/java/org/mariotaku/sqliteqb/library/query/SQLInsertQuery.java:75-77 | a new builder wraps a fresh query with all fields null and is not built |
| `InsertBuilder.Builder.Build` | library/src/main/java/org/mariotaku/sqliteqb/library/query/SQLInsertQuery.java:79-83 | never throws, sets the built flag, leaves the query unchanged and always returns the same wrapped query object |
| `InsertBuilder.Builder.BuildSQL` | library/src/main/java/org/mariotaku/sqliteqb/library/query/SQLInsertQuery.java:85-88 | leaves the builder built, with the query unchanged, and returns `Render` of the wrapped query: build().getSQL() |
| `InsertBuilder.Builder.CheckNotBuilt` | library/src/main/java/org/mariotaku/sqliteqb/library/query/SQLInsertQuery.java:125-127 | throws IllegalState exactly when build was called |
| `InsertBuilder.Builder.Columns` | library/src/main/java/org/mariotaku/sqliteqb/library/query/SQLInsertQuery.java:90-94 | moves the state exactly as `Step` does and reports its outcome; returns the builder itself on success |
| `InsertBuilder.Builder.Values` | library/src/main/java/org/mariotaku/sqliteqb/library/query/SQLInsertQuery.java:96-100 | moves the state exactly as `Step` does and reports its outcome; returns the builder itself on success |
| `InsertBuilder.Builder.Value` | library/src/main/java/org/mariotaku/sqliteqb/library/query/SQLInsertQuery.java:102-106 | moves the state exactly as `Step` does, passing the single string as a one-element array, and reports its outcome |
| `InsertBuilder.Builder.InsertIntoWithConflict` | library/src/main/java/org/mariotaku/sqliteqb/library/query/SQLInsertQuery.java:108-113 | moves the state exactly as `Step` does: policy and table both set, or IllegalState and nothing changed |
| `InsertBuilder.Builder.InsertInto` | library/src/main/java/org/mariotaku/sqliteqb/library/query/SQLInsertQuery.java:115-117 | moves the state exactly as `Step` does for insertInto(table): the same as insertInto(null, table) |
| `InsertBuilder.Builder.Select` | library/src/main/java/org/mariotaku/sqliteqb/library/query/SQLInsertQuery.java:119-123 | moves the state exactly as `Step` does: IllegalState once built, else NullPointer for a null select, else the select's text replaces the value source |

## Left out

- `Utils.toString` (the join) and `OnConflict.getAction()`: their code is not part of this
  model. They are uninterpreted total functions, so they are assumed to return normally
  for every argument, a null array included. Nothing is claimed about the text the join
  produces for a null array, for empty entries or under its flag.
- InsertQuery.Render: "fails exactly when the table is null" holds only under the
  assumption that the join and `getAction()` return normally. If the join throws on a null
  column array, `getSQL` also throws there; if it throws on a null value array,
  `setValues` throws. The model does not capture either exception. The concrete texts such as "INSERT INTO T () VALUES ()"
  or "(a,b) VALUES (1,2)" depend on the join, so they are not claimed.
- `SQLSelectQuery.getSQL()`: a select object is given by its rendered text, or by `None`
  for a null object. Any failure inside the select's own rendering is not modelled.
- Null entries inside a column or value array, and a null argument to `values(String)`:
  array entries are non-null strings in this model.
- Array aliasing: `setColumns` stores the caller's array. A caller that mutates the array
  later changes the rendered statement. The model stores a snapshot of the contents.
- The `SQLQuery` and `IBuilder` interfaces: they only declare the methods modelled here.
- Thread safety: the builder is not synchronized, and the model is sequential.
- SQL validity, escaping and injection safety: the library does not attempt them.

# history-schema, modelled in Dafny

The history schema gives a PostgreSQL table ("view") `v` two companion tables:
`v_history`, which holds one snapshot per update, and `v_trash`, which holds
deleted rows. It also installs a trigger `v_view_insert` on `v`. This model
covers the two pieces of sequential logic around that trigger:

- **The column catalog** (`src/Util.php`). Two PL/pgSQL functions are shipped
  as strings. `get_columns_except` lists a table's columns minus an exclusion
  list, each rendered `prefix.name` (or bare `name` for an empty prefix), and
  joins them with `,`. `get_columns_with_cutin` splits that list again. It
  walks the list in two nested `FOREACH` loops and appends the cut-in values
  right after every column equal to the (prefixed) cutoff. The column rows of
  `information_schema.columns` are an input sequence.
- **The schema provisioner** (`src/HistorySchema.php`).
  - `createHistoryTable` builds three layouts through Blueprint callbacks and
    creates history, trash and live in that order, then the trigger.
  - `dropHistoryTable` drops the trigger, then live, trash and history.
  - `table` applies one callback to all three tables.
  - Each of the three runs in one transaction.

Files:

| file | contents |
|---|---|
| `array_text.dfy` | `array_to_string(xs, ',')` as `Join` and `string_to_array(s, ',')` as `Split`, with both round trips |
| `column_catalog.dfy` | `get_columns_except` and `get_columns_with_cutin` as functions, the cut-in loop as a method, and their laws |
| `layout.dfy` | column, foreign-key and table descriptors; the container names and layouts; the `Blueprint` builder class; the live-to-history cut-in lemma |
| `ddl.dfy` | the PostgreSQL DDL behaviour the provisioner relies on, as pure steps on a catalog state, and a `Database` class that performs them in place |
| `history_schema.dfy` | the provisioner's callbacks and its three transactions as methods on a `Database`, their effects as functions, and what they guarantee |
| `util_fixture.dfy` | the table the column-list tests query, what their assertions compare, and the corrected expectations |

PostgreSQL has these rules:
- `CREATE TABLE` fails when a column name repeats or when a foreign key points at a missing table.
- `DROP TABLE` (no `CASCADE`) fails while another table references the dropped one. It removes the table's triggers with it.
- `CREATE TRIGGER` fails when its table or its procedure is missing.
- `ALTER TABLE ... ADD COLUMN` fails on a table that holds rows when the new column is `not null` and has no default. Laravel's columns are `not null` unless `->nullable()` is called.

The catalog state records which tables hold rows (`populated`). The rows themselves, and the statements that add them, are outside the model. `v_history` gains a row on every change to `v`, so for a view whose rows have ever been changed, `table` refuses a `not null` column without a default (`HistorySchema.NotNullColumnOnChangedView`).

Because of them, three steps of the provisioner are in a forced order (`HistorySchema.HistoryIsCreatedFirst`, `HistorySchema.TriggerComesAfterLive`, `HistorySchema.HistoryIsDroppedLast`):
- `v_history` is created before `v_trash` and `v`.
- The trigger is created after `v`.
- `v_history` is dropped after `v_trash` and `v`.

The rest is free:
- `v_trash` and `v` can be created in either order (`HistorySchema.TrashLiveOrderFree`) and dropped in either order (`HistorySchema.TrashLiveDropOrderFree`), since neither references the other.
- For a lower-case view name that is a plain identifier, the explicit `DROP TRIGGER` before `DROP TABLE` is redundant, because dropping `v` removes its trigger anyway.

For other view names, the unquoted `DROP TRIGGER` is not redundant (see "## Findings"):
- When the view name is not a plain identifier, it is a syntax error that fails the whole drop (`HistorySchema.NonIdentifierDropFails`).
- When the view name is mixed-case, it removes the trigger of the other table, the one the folded name denotes, if that table has one (`HistorySchema.MixedCaseDropHitsFoldedTable`).

A transaction that hits an error restores the catalog state it started from (`Database.Restore`).

Table names reach PostgreSQL in two ways:
- Laravel's schema builder sends them double-quoted, so `Schema::create`, `Schema::table` and `Schema::drop` use `view`, `view_history` and `view_trash` exactly as given, for names without `.` (see "## Left out"). Only the empty name is rejected.
- The two trigger statements write `${view}_view_insert` and `$view` without quotes. There, the name must be a plain identifier, and it stands for its lower-case folding.

So for a view name with an upper-case letter, creation builds `Foo`, `Foo_history` and `Foo_trash`, then looks for the table `foo` to put the trigger on. The transaction rolls back when `foo` does not exist. When it does exist, the trigger lands on it (see "## Findings").

`string_to_array('', ',')` is the empty array in PostgreSQL. So for a list
`xs`, `Split(Join(xs)) == xs` needs two things: no element holds a comma, and
`xs` is not `[""]`. Real column names are never empty.

`dropHistoryTable` calls `Schema::drop`, not `Schema::dropIfExists`, so a
missing container makes the whole transaction fail
(`HistorySchema.DismantleNeedsAllContainers`). Only the trigger drop uses
`IF EXISTS`.

`table` with a callback that declares no column sends no statement at all, so
it succeeds even when the containers are missing.

## Model

| member | source | states |
|---|---|---|
| `ArrayText.Join` | src/Util.php:23 | defines `array_to_string(xs, ',')`: the elements with `,` between consecutive ones, `''` for the empty array |
| `ArrayText.Split` | src/Util.php:58 | defines `string_to_array(s, ',')`: the pieces between commas, and the empty array for `''` |
| `ArrayText.SplitJoin` | src/Util.php:58 | splitting the comma-joined list recovers it when no element holds a comma and the list is not `[""]` |
| `ArrayText.JoinSplit` | src/Util.php:72 | joining what was split on `,` gives back the original string, for every string |
| `ColumnCatalog.ColumnsExceptList` | src/Util.php:18-22 | defines the array the SELECT builds: each catalog column not in the exclusion list, rendered `prefix.name` (bare `name` for prefix `''`), in catalog order |
| `ColumnCatalog.ColumnsExcept` | src/Util.php:16-25 | defines `get_columns_except(t, except, prefix)`: that array joined with `,` |
| `ColumnCatalog.Cutin` | src/Util.php:60-70 | defines the loop's `result_array`: each element, followed by the cut-in values whenever it equals the target |
| `ColumnCatalog.ColumnsWithCutin` | src/Util.php:51-74 | defines `get_columns_with_cutin(t, cutoff, cutin, prefix)`: `get_columns_except(t, [], prefix)` split, walked with the prefixed cutoff as target, joined |
| `ColumnCatalog.Render` | src/Util.php:18 | defines `prefix \|\| CASE WHEN prefix = '' THEN '' ELSE '.' END \|\| name`, the rendering used again for the cutoff at src/Util.php:64 |
| `ColumnCatalog.RenderInjective` | src/Util.php:18 | under one prefix, two names that render the same are equal |
| `ColumnCatalog.ExceptConcat` | src/Util.php:18-23 | filtering a concatenation gives the concatenation of the filtered parts, so surviving columns keep their input order |
| `ColumnCatalog.ExceptMembership` | src/Util.php:18-22 | `prefix.name` is in the result if and only if `name` is a column and is not in the exclusion list |
| `ColumnCatalog.ExceptNothing` | src/Util.php:18-23 | with no exclusions, position i of the result is column i rendered under the prefix, and the lengths are equal |
| `ColumnCatalog.ExceptLeadingColumns` | tests/UtilTest.php:104-126 | excluding the first k columns, whose names do not recur, leaves exactly the rest, prefixed, in order |
| `ColumnCatalog.SplitColumnsExcept` | src/Util.php:23 | on comma-free non-empty names and a comma-free prefix, splitting the joined string gives back the filtered list |
| `ColumnCatalog.GetColumnsWithCutin` | src/Util.php:51-74 | the nested loops over `result_array` return exactly `ColumnsWithCutin`: the re-split enumeration with the cut-in spliced after each match, re-joined |
| `ColumnCatalog.CutinConcat` | src/Util.php:60-70 | the cut-in walk on a concatenation is the concatenation of the walks |
| `ColumnCatalog.CutinLength` | src/Util.php:60-70 | the output length is the input length plus matches times the cut-in length |
| `ColumnCatalog.CutinPlacement` | src/Util.php:62-68 | input element i sits at position i + (earlier matches) * \|cutin\|; after a match the cut-in values follow verbatim and in order |
| `ColumnCatalog.CutinStrip` | src/Util.php:60-70 | removing the inserted cut-in copies from the output gives back the input list |
| `ColumnCatalog.CutinIdentity` | src/Util.php:64-65 | the output equals the input if and only if the cut-in list is empty or nothing matches the target |
| `ColumnCatalog.CutinSingle` | src/Util.php:60-70 | with one match at k, the output is `xs[..k+1] + cutin + xs[k+1..]`, of length n + \|cutin\| |
| `ColumnCatalog.WithCutinSplit` | src/Util.php:56-72 | on plain names, the returned string splits into the cut-in walk over `get_columns_except(t, [], prefix)`'s list |
| `ColumnCatalog.WithCutinStrip` | src/Util.php:58-70 | removing the cut-in insertions from the split result gives exactly `get_columns_except(t, [], prefix)`'s list |
| `ColumnCatalog.WithCutinNoMatch` | src/Util.php:64-65 | with an empty cut-in or no element equal to the prefixed cutoff, the result equals `get_columns_except(t, [], prefix)` |
| `ColumnCatalog.WithCutinDefaultCutoff` | src/Util.php:51 | on plain names with a comma-free prefix, the default cutoff `''` matches nothing, and the result is the plain enumeration |
| `UtilFixture.Prefixed` | tests/UtilTest.php:73-79 | defines the tests' `prefixArray(names, prefix . '.')`: every name with the prefix and a dot in front |
| `UtilFixture.SetUpColumnsAre` | tests/UtilTest.php:45-49 | the `test` table that `setUp` builds has `id, previous_id, text1_field, text2_field, integer_field, created_at, updated_at`, all plain names |
| `UtilFixture.SetUpCatalog` | tests/UtilTest.php:45-49 | whenever `setUp`'s `createHistoryTable('test', ...)` succeeds, the live table `test` holds exactly those columns |
| `UtilFixture.ExpectsMissingColumn` | tests/UtilTest.php:13 | for any exclusion list, the split result is not the fixture list (or its tail), because it expects `t.prev_id` and `test` has no column `prev_id` |
| `UtilFixture.FixtureFieldsMismatch` | tests/UtilTest.php:92-126 | each of the three assertions, as written, compares two different lists |
| `UtilFixture.TestExceptNothing` | tests/UtilTest.php:92-101 | with no exclusions, the split result is every column of `test` as `t.name`, in order |
| `UtilFixture.TestExceptId` | tests/UtilTest.php:104-114 | excluding `['id']` removes only `id` |
| `UtilFixture.ExceptTwoIdsList` | tests/UtilTest.php:116-126 | excluding `['id', 'text1_field']` from `test`'s columns keeps `t.previous_id`, then the columns after `text1_field` |
| `UtilFixture.TestExceptTwoIds` | tests/UtilTest.php:116-126 | excluding `['id', 'text1_field']` removes exactly those two and keeps `previous_id` and the rest in order |
| `Layout.HistoryName` | src/HistorySchema.php:102 | defines the history table's name, `view . '_history'` |
| `Layout.TrashName` | src/HistorySchema.php:126 | defines the trash table's name, `view . '_trash'` |
| `Layout.TriggerName` | src/HistorySchema.php:146 | defines the trigger's name as written, `${view}_view_insert` |
| `Layout.ReferenceColumn` | src/HistorySchema.php:79 | defines `integer(name)->unsigned()->nullable()` |
| `Layout.HistoryForeignKey` | src/HistorySchema.php:81-84 | defines the key of a column to `v_history.id`, cascading on delete and update, as also at src/HistorySchema.php:109-116 |
| `Layout.TimestampColumns` | src/HistorySchema.php:37-39 | defines nullable `created_at` and `updated_at` when timestamped, and nothing otherwise |
| `Layout.ContainerNamesDistinct` | src/HistorySchema.php:102-135 | `v_history`, `v_trash` and `v` are three different names |
| `Layout.HistoryTable` | src/HistorySchema.php:102-122 | defines the `v_history` layout: four key columns, three cascading keys to itself, two indexes, then the callback's columns and timestamps |
| `Layout.ContainerTable` | src/HistorySchema.php:126-142 | defines the layout shared by `v_trash` and `v`: `id`, `previous_id` with its key to `v_history`, then the callback's columns and timestamps |
| `Layout.HistoryColumnNames` | src/HistorySchema.php:103-121 | history is `id, previous_id, next_id, original_id`, then the callback's columns, then `created_at, updated_at` only when timestamped |
| `Layout.ContainerColumnNames` | src/HistorySchema.php:126-141 | trash and live are `id, previous_id`, then the callback's columns, then the optional timestamps |
| `Layout.HistoryReferences` | src/HistorySchema.php:78-119 | `previous_id` in every container, and `next_id` and `original_id` in history, are nullable with a key to `v_history.id` that cascades on delete and update; history indexes `next_id` and `original_id` |
| `Layout.KeyCutin` | src/Util.php:60-70 | splicing `next_id, original_id` after `previous_id` in `id, previous_id, rest` gives `id, previous_id, next_id, original_id, rest` |
| `Layout.LiveCutinIsHistory` | src/HistorySchema.php:103-141 | the cut-in function on the live layout, with cutoff `previous_id`, cut-in `[next_id, original_id]` and prefix `''`, returns the history layout joined |
| `Layout.CutinFromEnumeration` | src/Util.php:58 | with an empty prefix and comma-free names, the cut-in function walks the names themselves |
| `Layout.Blueprint.Increments` | src/HistorySchema.php:103 | appends an auto-increment unsigned `id` column; keys and indexes unchanged |
| `Layout.Blueprint.Integer` | src/HistorySchema.php:106 | appends a plain integer column |
| `Layout.Blueprint.Unsigned` | src/HistorySchema.php:79 | marks the column just added unsigned and nothing else |
| `Layout.Blueprint.Nullable` | src/HistorySchema.php:107 | marks the column just added nullable and nothing else |
| `Layout.Blueprint.Foreign` | src/HistorySchema.php:109-112 | appends one foreign key |
| `Layout.Blueprint.Index` | src/HistorySchema.php:118 | appends one index |
| `Layout.Blueprint.Timestamps` | src/HistorySchema.php:38 | appends nullable `created_at` and `updated_at` |
| `Layout.Blueprint.Declare` | src/HistorySchema.php:19 | the callback appends its columns in order |
| `Ddl.Fold` | src/HistorySchema.php:146-147 | defines the name an unquoted identifier stands for: ASCII upper-case letters folded to lower case |
| `Ddl.FoldConcat` | src/HistorySchema.php:146 | folding works piece by piece, so `${view}_view_insert` folds to the folded view followed by `_view_insert` |
| `Ddl.FoldFixed` | src/HistorySchema.php:147 | folding leaves a name unchanged if and only if it holds no ASCII upper-case letter |
| `Ddl.FoldIdempotent` | src/HistorySchema.php:147 | folding a folded name changes nothing |
| `Ddl.FoldKeepsIdentifier` | src/HistorySchema.php:147 | the folding of a plain identifier is a plain identifier |
| `Ddl.FirstUnresolved` | src/HistorySchema.php:109-116 | the position of the first foreign key whose target table is missing, every earlier key resolving; `\|keys\|` when all resolve |
| `Ddl.CreateTableStep` | src/HistorySchema.php:102 | defines `create table "name"` and its key constraints. The checks run in PostgreSQL's order: the empty name, then a repeated column, then an existing name, then the first unresolved key, which fails naming its missing target. Otherwise the table is added, holding no rows |
| `Ddl.AddColumnsStep` | src/HistorySchema.php:184-186 | defines `Schema::table`: no columns sends nothing and succeeds; otherwise the empty name, a missing table or a clashing column fails, and so does a column that is neither nullable nor defaulted on a table holding rows; else the columns are appended |
| `Ddl.DropTableStep` | src/HistorySchema.php:164-166 | defines `drop table "name"`: the empty name, a missing table or a still-referenced one fails; otherwise the table and its triggers go |
| `Ddl.CreateTriggerResolved` | src/HistorySchema.php:145-150 | defines `CREATE TRIGGER` on resolved names: an empty name or table is a syntax error; a missing table, a missing procedure or a duplicate trigger fails; otherwise the trigger is added |
| `Ddl.CreateTriggerStep` | src/HistorySchema.php:145-150 | defines the statement as the source writes it: a name or table that is not a plain identifier is a syntax error, otherwise both are folded to lower case and resolved |
| `Ddl.DropTriggerResolved` | src/HistorySchema.php:163 | defines `DROP TRIGGER IF EXISTS` on resolved names: an empty name or table is a syntax error; otherwise it removes that trigger if present, and tolerates a missing trigger or table |
| `Ddl.DropTriggerIfExistsStep` | src/HistorySchema.php:163 | defines the unquoted drop as the source writes it: a syntax error unless both names are plain identifiers, otherwise the drop on their foldings |
| `Ddl.StepsPreserveWellFormed` | src/HistorySchema.php:99-151 | every DDL step keeps the catalog well formed: distinct column names, resolvable keys, triggers on existing tables, and rows only in existing tables |
| `Ddl.Database.CreateTable` | src/HistorySchema.php:102 | `Schema::create`: state and outcome are exactly `CreateTableStep`'s; a failure changes nothing |
| `Ddl.Database.AddColumns` | src/HistorySchema.php:184 | `Schema::table`: state and outcome are exactly `AddColumnsStep`'s, so an empty column list always passes, and a `not null` column without a default fails on a table holding rows |
| `Ddl.Database.DropTable` | src/HistorySchema.php:164-166 | `Schema::drop`: state and outcome are exactly `DropTableStep`'s |
| `Ddl.Database.CreateTrigger` | src/HistorySchema.php:145-150 | the unquoted trigger statement: state and outcome are exactly `CreateTriggerStep`'s. Both names must be plain identifiers. The trigger goes, under its folded name, on the table the folded name of `table` resolves to |
| `Ddl.Database.DropTriggerIfExists` | src/HistorySchema.php:163 | the unquoted drop: state and outcome are exactly `DropTriggerIfExistsStep`'s. It fails only when a name is not a plain identifier. Otherwise it removes the folded trigger from the folded table, if there |
| `Ddl.Database.Restore` | src/HistorySchema.php:99 | rollback: the catalog returns to the saved state |
| `HistorySchema.CreateHistoryReference` | src/HistorySchema.php:78-85 | appends a nullable unsigned `previous_id` and its cascading key to `v_history.id` |
| `HistorySchema.CallIfNotNullWithTable` | src/HistorySchema.php:16-21 | appends the callback's columns |
| `HistorySchema.ExecCallBackFunctionAndCreateTimestamp` | src/HistorySchema.php:33-40 | appends the callback's columns, then the timestamps when asked for |
| `HistorySchema.BuildHistoryTable` | src/HistorySchema.php:102-122 | the history closure builds exactly the history layout |
| `HistorySchema.BuildContainerTable` | src/HistorySchema.php:126-142 | the trash closure and the live closure both build the same container layout |
| `HistorySchema.Provision` | src/HistorySchema.php:99-151 | defines the creation transaction: history, trash and live with their layouts, then the unquoted trigger statement, stopping at the first error |
| `HistorySchema.Dismantle` | src/HistorySchema.php:162-167 | defines the drop transaction: the unquoted trigger drop, then live, trash and history, stopping at the first error |
| `HistorySchema.Alter` | src/HistorySchema.php:181-198 | defines the alteration transaction: the callback's columns added to history, trash and live, stopping at the first error |
| `HistorySchema.CreateHistoryTable` | src/HistorySchema.php:97-152 | the statements run one by one and the first failure rolls back to the old catalog. The final state and the outcome are exactly `Provision`'s, whose success condition is `ProvisionResult` |
| `HistorySchema.DropHistoryTable` | src/HistorySchema.php:160-168 | the trigger drop, then live, trash and history, with the first failure (the trigger drop included) rolling back. The final state and the outcome are exactly `Dismantle`'s |
| `HistorySchema.Table` | src/HistorySchema.php:179-199 | history, trash, then live altered, with the first failure rolling back. The final state and the outcome are exactly `Alter`'s. So an empty callback always passes, and a `not null` column without a default fails once `v_history` holds rows |
| `HistorySchema.InstalledTrigger` | src/HistorySchema.php:145-150 | defines the trigger creation installs: `${view}_view_insert` on `$view`, both folded to lower case, calling `view_insert_update_delete` |
| `HistorySchema.TriggerNameIdentifier` | src/HistorySchema.php:146 | `${view}_view_insert` is a plain identifier whenever `view` is |
| `HistorySchema.LowerCaseTrigger` | src/HistorySchema.php:146-147 | for a lower-case view name the trigger is exactly `v_view_insert` on `v` |
| `HistorySchema.ProvisionResult` | src/HistorySchema.php:97-152 | creation succeeds if and only if all of these hold: none of the three tables exists; the history layout repeats no name; `view` is a plain identifier; the procedure is installed; and either `view` is lower case or its folding names an existing table without that trigger. It then adds exactly the three layouts and `InstalledTrigger(view)` |
| `HistorySchema.HistoryIsCreatedFirst` | src/HistorySchema.php:102-135 | creating trash or live while history is missing fails, naming the missing `v_history` |
| `HistorySchema.TriggerComesAfterLive` | src/HistorySchema.php:145-150 | the trigger statement fails while the table it names is missing |
| `HistorySchema.TrashLiveOrderFree` | src/HistorySchema.php:126-142 | creating trash then live, or live then trash, succeeds in the same cases and gives the same catalog |
| `HistorySchema.TrashLiveDropOrderFree` | src/HistorySchema.php:164-165 | on a catalog where only the containers reference the containers, dropping live then trash and dropping trash then live succeed in the same cases and give the same catalog |
| `HistorySchema.ProvisionWellFormed` | src/HistorySchema.php:99-151 | creation keeps the catalog well formed |
| `HistorySchema.ProvisionReferences` | src/HistorySchema.php:78-142 | after creation, only `v` references `v`, only `v_trash` references `v_trash`, and only the three reference `v_history` |
| `HistorySchema.ProvisionSync` | src/HistorySchema.php:102-142 | after creation the catalog is well formed. The three tables share the callback's columns and timestamps after their keys, and only they reference one another |
| `HistorySchema.DismantleUndoesProvision` | src/HistorySchema.php:160-168 | dropping right after creating gives back exactly the starting catalog |
| `HistorySchema.HistoryIsDroppedLast` | src/HistorySchema.php:163-166 | right after creation, dropping history first fails because trash and live still reference it |
| `HistorySchema.DismantleResult` | src/HistorySchema.php:160-168 | for a view name that is a plain identifier, on any catalog holding the three tables, none referenced from outside, the drop succeeds. It removes exactly the three tables with their rows, the folded trigger, and every trigger on the three |
| `HistorySchema.DismantleNeedsAllContainers` | src/HistorySchema.php:164-166 | if any of the three tables is missing, the drop fails |
| `HistorySchema.DistinctWithoutMiddle` | src/HistorySchema.php:126-141 | removing the middle part of a layout keeps its names distinct; this is why a valid history layout makes valid trash and live layouts |
| `HistorySchema.AlterResult` | src/HistorySchema.php:179-199 | on synced tables, `table` succeeds if and only if one of two things holds. Either the callback declares nothing. Or the view name is non-empty, the new columns clash with none of history's, and either every new column is nullable or defaulted or none of the three tables holds rows. On success it appends the columns to all three, which stay in sync, and changes no other table, key, index, trigger or row |
| `HistorySchema.NotNullColumnOnChangedView` | src/HistorySchema.php:184-186 | once `v_history` holds rows, adding a `not null` column without a default fails at the history statement |
| `HistorySchema.AlterPreservesWellFormed` | src/HistorySchema.php:179-199 | `table` keeps the catalog well formed |
| `HistorySchema.MixedCaseViewRollsBack` | src/HistorySchema.php:145-150 | as written: for a plain view name with an upper-case letter, and no existing table of the folded name, creation fails and rolls back |
| `HistorySchema.FooRollsBack` | src/HistorySchema.php:145-150 | as written: `createHistoryTable('Foo', ...)` on an empty catalog with the procedure installed fails |
| `HistorySchema.ProvisionQuoted` | src/HistorySchema.php:145-150 | defines creation with the trigger statement's names quoted |
| `HistorySchema.QuotedProvisionResult` | src/HistorySchema.php:97-152 | with quoted names, creation succeeds if and only if all of these hold: the three tables are new, `view` is non-empty, the history layout repeats no name, and the procedure is installed. The trigger is then `v_view_insert` on `v` itself |
| `HistorySchema.ProvisionAgreesWhenLowerCase` | src/HistorySchema.php:145-150 | for a lower-case plain view name, creation as written and with quoted names are the same |
| `HistorySchema.MixedCaseDropHitsFoldedTable` | src/HistorySchema.php:163 | as written: for a mixed-case plain view name, with the three tables present and a table of the folded name carrying the folded trigger, the drop succeeds, keeps that other table and removes its trigger |
| `HistorySchema.NonIdentifierDropFails` | src/HistorySchema.php:163 | as written: for a view name that is not a plain identifier, the drop fails with a syntax error before any table is dropped |
| `HistorySchema.DismantleQuoted` | src/HistorySchema.php:162-167 | defines the drop with the trigger statement's names quoted |
| `HistorySchema.QuotedDismantleResult` | src/HistorySchema.php:160-168 | with quoted names and the three tables referenced only from one another, the drop fails for the empty name. For any other name it succeeds, and removes exactly the three tables with their rows and every trigger on them |
| `HistorySchema.QuotedDismantleUndoesProvision` | src/HistorySchema.php:160-168 | with quoted names, dropping right after creating gives back exactly the starting catalog, for every view name creation accepts |
| `HistorySchema.SyncedCutinIsHistory` | src/HistorySchema.php:135-141 | whenever the three tables are in sync, even after alterations, the cut-in function on live's columns returns history's column list |

## Findings

| source | as written | input that shows it | evidently intended | confidence | as-written member | corrected member |
|---|---|---|---|---|---|---|
| tests/UtilTest.php:92-101 | expects `get_columns_except('test', [], 't')` to split into the fixture list of line 13, prefixed; that list ends in `prev_id` | `setUp` as written: `createHistoryTable('test', ...)` at lines 45-49 builds `id, previous_id, text1_field, text2_field, integer_field, created_at, updated_at`, so `t.prev_id` is never returned | the expectation lists the columns `test` really has, `previous_id` second | high; not executed | `UtilFixture.FixtureFieldsMismatch` | `UtilFixture.TestExceptNothing` |
| tests/UtilTest.php:104-114 | expects excluding `['id']` to leave the fixture list from its second element on | the same `setUp`: the result holds `t.previous_id` and no `t.prev_id` | everything but `id`, in `test`'s order | high; not executed | `UtilFixture.FixtureFieldsMismatch` | `UtilFixture.TestExceptId` |
| src/HistorySchema.php:145-150 | the trigger statement writes `${view}_view_insert` and `ON $view` unquoted, while `Schema::create` created the tables under the quoted, exact `$view` | `createHistoryTable('Foo', ...)` with the procedure installed and no table `foo`: `Foo_history`, `Foo_trash` and `Foo` are created, then `ON Foo` names `foo` and fails, and the transaction rolls back. With a table `foo`, the trigger goes onto `foo` | the trigger goes on the live table just created, for any view name the schema builder accepts | medium; not executed | `HistorySchema.MixedCaseViewRollsBack` | `HistorySchema.QuotedProvisionResult` |
| src/HistorySchema.php:163 | the drop's trigger statement writes `${view}_view_insert on $view` unquoted, while `Schema::drop` drops the quoted, exact `$view` | a catalog holding `Foo`, `Foo_trash` and `Foo_history`, and a table `foo` with the trigger `foo_view_insert`: `dropHistoryTable('Foo')` removes whatever trigger `foo_view_insert` sits on `foo` and keeps `foo`. That includes the trigger the as-written `createHistoryTable('Foo')` put there when `foo` existed | the statement addresses the trigger of the live table being dropped. With the corrected, quoted creation, `Foo`'s own trigger would be left for `DROP TABLE` to remove, while `foo` loses its own | medium; not executed | `HistorySchema.MixedCaseDropHitsFoldedTable` | `HistorySchema.QuotedDismantleResult` |
| tests/UtilTest.php:116-126 | expects excluding `['id', 'text1_field']` to leave the fixture list from its third element on | the same `setUp`: the result starts with `t.previous_id` and holds no `t.prev_id` | everything but `id` and `text1_field`: `previous_id, text2_field, integer_field, created_at, updated_at` | high; not executed | `UtilFixture.FixtureFieldsMismatch` | `UtilFixture.TestExceptTwoIds` |

## Left out

- The versioning protocol itself. The trigger procedure is loaded from `SQL/view_insert_update_delete_trigger.sql`, which is not part of this model. The model records only which procedure the trigger calls.
- The catalog query. The `information_schema.columns` SELECT and `current_schema()` are replaced by the input sequence `columns`. That SELECT has no `ORDER BY`, so declaration order is an assumption about the input.
- SQL `NULL`. A `NULL` prefix, exclusion list, cut-in array or array element would give the functions their own `NULL` behaviour. Strings and sequences in the model are never `NULL`.
- SplitColumnsExcept: holds only for non-empty names (as PostgreSQL stores them) without a comma and for a comma-free prefix. A quoted identifier holding a comma is split apart by `string_to_array`.
- WithCutinSplit: holds only under the same conditions, and only when the cut-in values hold no comma.
- WithCutinStrip: holds only under the same conditions as WithCutinSplit.
- SyncedCutinIsHistory: needs the caller's column names to be comma-free, for the same reason.
- LiveCutinIsHistory: needs the caller's column names to be comma-free and not to include `previous_id`. A callback cannot create a repeated name anyway.
- Transactions as concurrency. `DB::transaction` is modelled only as rollback to the saved state. Locking, isolation and concurrent writers are not modelled.
- Rows. The state records only which tables hold at least one row, as an input. Inserts, updates and deletes are not modelled, nor is the trigger's filling of `v_history`. A column's default is a flag (`hasDefault`), and not a value.
- Row-level behaviour of the foreign keys. Cascades, and the primary keys and sequences that `increments` creates, are not modelled. Keys and indexes are descriptor fields. Only their effect on `CREATE TABLE` and `DROP TABLE` is modelled.
- The trigger's timing and events (`BEFORE INSERT OR UPDATE OR DELETE`, `FOR EACH ROW`). They are fixed in the source and not recorded.
- CreateTableStep: Laravel's grammar splits a name at `.` into schema and table, and reads ` as ` as an alias. The model treats every name as one table name in the current schema.
- AddColumnsStep: has the same name limit as CreateTableStep.
- DropTableStep: has the same name limit as CreateTableStep.
- PostgreSQL's identifier length. Names longer than 63 bytes are truncated. The connection's table prefix is prepended. Neither is modelled.
- CreateTriggerStep: a plain identifier that is a reserved key word, such as `user` or `order`, is accepted by the model. PostgreSQL rejects it unquoted as a syntax error.
- CreateTriggerStep: case folding covers ASCII letters only, as PostgreSQL does for multi-byte encodings such as UTF-8. Folding of other letters in single-byte encodings is not modelled.
- CreateTriggerStep: a view name that is not a plain identifier is a syntax error in the model. Text that happens to form other valid SQL (such as `x; DROP ...`) is not modelled.
- DropTriggerIfExistsStep: has the same three limits as CreateTriggerStep.
- CreateHistoryTable: inherits the limits of CreateTriggerStep.
- DropHistoryTable: inherits the limits of DropTriggerIfExistsStep.
- ProvisionResult: inherits the limits of CreateTriggerStep.
- DropTriggerResolved: follows PostgreSQL 9.4 and later, where `DROP TRIGGER IF EXISTS` on a missing table is skipped. Older servers fail there.
- Install and uninstall glue: `createGetAllColumnsExceptProcedure`, `createGetAllColumnsWithCutinProcedure`, `dropGetAllColumnsExceptProcedure`, `dropGetAllColumnsWithCutinProcedure`, `createHistoryTriggerFunction` and `dropHistoryTriggerFunction`. These only install or remove the SQL text above. Installed procedures appear as the `functions` set of the catalog state. Note that `dropHistoryTriggerFunction` drops `view_history_insert()`, while the trigger calls `view_insert_update_delete()`. That glue is not modelled, so the model neither reproduces nor corrects this.
- Null callbacks. `callIfNotNullWithTable` and `execCallBackFunctionAndCreateTimestamp` declare the callback as a non-nullable `callable`. So the default `NULL` of `createHistoryTable` and `table` raises a PHP TypeError inside the transaction. The model takes the callback as a required list of columns, and has no null branch.
- Callbacks that do more than declare columns, such as dropping, renaming or indexing. A callback is the list of columns it adds.
- `src/HistorySchemaServiceProvider.php`, a container registration, and `tests/HistorySchemaTest.php`, whose only test is empty.
- The order of `information_schema.columns`. The tests' catalog is taken in declaration order. The finding above does not depend on that order, because `prev_id` is not a column at all.

/**
 * The catalog that the column-list tests in `tests/UtilTest.php` query. Their
 * `setUp` creates the versioned table `test` with `createHistoryTable`. Its
 * callback declares `text1_field`, `text2_field` (strings) and `integer_field`,
 * and the table is timestamped by default. The tests then compare
 * `get_columns_except('test', except, 't')`, split on ',', with their own field
 * list, prefixed with `t.`.
 *
 * That list names a column `prev_id` and puts it last. The table as created has
 * `previous_id`, in second position. So the three assertions cannot hold as
 * written (`FixtureFieldsMismatch`). The corrected expectations, stated over
 * the columns `test` really has, are proved below.
 */
module UtilFixture {
  import opened ArrayText
  import opened ColumnCatalog
  import opened Layout
  import opened Ddl
  import HistorySchema

  /** The field list the tests compare against. */
  const FIXTURE_FIELDS: seq<string> :=
    ["id", "text1_field", "text2_field", "integer_field", "created_at", "updated_at", "prev_id"]

  /** The columns `setUp`'s callback declares. */
  const FIXTURE_DECLARED: seq<Column> :=
    [Column("text1_field", Declared("string"), false, false, false),
     Column("text2_field", Declared("string"), false, false, false),
     Column("integer_field", ColumnKind.Integer, false, false, false)]

  /** The column names of the live table `test` that `setUp` creates, in declaration order. */
  function SetUpColumns(): seq<string>
  {
    Names(ContainerTable("test", FIXTURE_DECLARED, true).columns)
  }

  /** The columns of `test` as created. */
  const CATALOG_FIELDS: seq<string> :=
    ["id", "previous_id", "text1_field", "text2_field", "integer_field", "created_at", "updated_at"]

  /** The tests' `prefixArray($names, 't.')`. */
  function Prefixed(prefix: string, names: seq<string>): seq<string>
  {
    if names == [] then [] else [prefix + "." + names[0]] + Prefixed(prefix, names[1..])
  }

  lemma {:induction false} PrefixedIsExceptNothing(prefix: string, names: seq<string>)
    requires prefix != ""
    ensures ColumnsExceptList(names, [], prefix) == Prefixed(prefix, names)
  {
    if names != [] {
      PrefixedIsExceptNothing(prefix, names[1..]);
    }
  }

  lemma SetUpColumnsAre()
    ensures SetUpColumns() == CATALOG_FIELDS
    ensures PlainNames(SetUpColumns())
  {
    ContainerColumnNames("test", FIXTURE_DECLARED, true);
    assert Names(FIXTURE_DECLARED) == ["text1_field", "text2_field", "integer_field"];
  }

  /** Whenever `setUp`'s `createHistoryTable('test', ...)` succeeds, `test` holds exactly `CATALOG_FIELDS`. */
  lemma SetUpCatalog(s: DbState)
    requires WellFormed(s)
    requires HistorySchema.Provision(s, "test", FIXTURE_DECLARED, true).Ok?
    ensures Names(HistorySchema.Provision(s, "test", FIXTURE_DECLARED, true).value.tables["test"].columns)
         == CATALOG_FIELDS
  {
    HistorySchema.ProvisionResult(s, "test", FIXTURE_DECLARED, true);
    SetUpColumnsAre();
  }

  /** `t.prev_id` is expected, but `test` has no column `prev_id`, whatever the catalog's order. */
  lemma ExpectsMissingColumn(except: seq<string>, k: nat)
    requires k <= 2
    ensures Split(ColumnsExcept(SetUpColumns(), except, "t")) != Prefixed("t", FIXTURE_FIELDS[k..])
  {
    SetUpColumnsAre();
    SplitColumnsExcept(SetUpColumns(), except, "t");
    ExceptMembership(SetUpColumns(), except, "t", "prev_id");
    PrefixedIsExceptNothing("t", FIXTURE_FIELDS[k..]);
    assert FIXTURE_FIELDS[k..][|FIXTURE_FIELDS[k..]| - 1] == "prev_id";
    ExceptMembership(FIXTURE_FIELDS[k..], [], "t", "prev_id");
  }

  /**
   * As written, none of the three column-list assertions can hold.
   * Each test compares `implode(', ', ...)` of PHP's `explode(',', ...)`
   * of the returned string with `implode(', ', ...)` of the expected list.
   * On these inputs, `explode` agrees with `Split`, because the string is
   * non-empty. Joining with `', '` is injective on comma-free elements. So
   * the strings differ exactly when the lists compared here differ.
   */
  lemma FixtureFieldsMismatch()
    ensures Split(ColumnsExcept(SetUpColumns(), [], "t")) != Prefixed("t", FIXTURE_FIELDS)
    ensures Split(ColumnsExcept(SetUpColumns(), ["id"], "t")) != Prefixed("t", FIXTURE_FIELDS[1..])
    ensures Split(ColumnsExcept(SetUpColumns(), ["id", "text1_field"], "t")) != Prefixed("t", FIXTURE_FIELDS[2..])
  {
    ExpectsMissingColumn([], 0);
    assert FIXTURE_FIELDS[0..] == FIXTURE_FIELDS;
    ExpectsMissingColumn(["id"], 1);
    ExpectsMissingColumn(["id", "text1_field"], 2);
  }

  /** No exclusions: every column of `test`, prefixed with `t.`, in order. */
  lemma TestExceptNothing()
    ensures Split(ColumnsExcept(SetUpColumns(), [], "t")) == Prefixed("t", CATALOG_FIELDS)
  {
    SetUpColumnsAre();
    SplitColumnsExcept(SetUpColumns(), [], "t");
    PrefixedIsExceptNothing("t", CATALOG_FIELDS);
  }

  /** Excluding `['id']` drops the first column only. */
  lemma TestExceptId()
    ensures Split(ColumnsExcept(SetUpColumns(), ["id"], "t")) == Prefixed("t", CATALOG_FIELDS[1..])
  {
    SetUpColumnsAre();
    SplitColumnsExcept(SetUpColumns(), ["id"], "t");
    assert CATALOG_FIELDS[..1] == ["id"];
    ExceptLeadingColumns(CATALOG_FIELDS, 1, "t");
    PrefixedIsExceptNothing("t", CATALOG_FIELDS[1..]);
  }

  /** The filtered list for `['id', 'text1_field']`: `t.previous_id`, then the columns after `text1_field`. */
  lemma ExceptTwoIdsList()
    ensures ColumnsExceptList(CATALOG_FIELDS, ["id", "text1_field"], "t")
         == ["t.previous_id"] + ColumnsExceptList(CATALOG_FIELDS[3..], [], "t")
  {
    var c, except := CATALOG_FIELDS, ["id", "text1_field"];
    assert c[0] in except && c[1] !in except && c[2] in except;
    assert c[1..][0] == c[1] && c[1..][1..] == c[2..];
    assert c[2..][0] == c[2] && c[2..][1..] == c[3..];
    assert ColumnsExceptList(c, except, "t") == ColumnsExceptList(c[1..], except, "t");
    assert ColumnsExceptList(c[1..], except, "t") == [Render("t", c[1])] + ColumnsExceptList(c[2..], except, "t");
    assert ColumnsExceptList(c[2..], except, "t") == ColumnsExceptList(c[3..], except, "t");
    assert Render("t", c[1]) == "t.previous_id";
    ExceptKeepsAll(c[3..], except, "t");
  }

  /** Excluding `['id', 'text1_field']` drops exactly those two; `previous_id` stays. */
  lemma TestExceptTwoIds()
    ensures Split(ColumnsExcept(SetUpColumns(), ["id", "text1_field"], "t"))
         == Prefixed("t", ["previous_id", "text2_field", "integer_field", "created_at", "updated_at"])
  {
    var rest := CATALOG_FIELDS[3..];
    SetUpColumnsAre();
    SplitColumnsExcept(SetUpColumns(), ["id", "text1_field"], "t");
    ExceptTwoIdsList();
    PrefixedIsExceptNothing("t", rest);
    var expected := ["previous_id", "text2_field", "integer_field", "created_at", "updated_at"];
    assert expected[0] == "previous_id" && expected[1..] == rest;
  }
}

/**
 * The layouts the history schema gives its three containers, and the table
 * builder the schema callbacks fill in.
 *
 * For a view `v` there are `v_history`, `v_trash` and the live table `v`;
 * the trigger on `v` is `v_view_insert`. A container's layout is its column
 * list in declaration order, its foreign keys and its indexes.
 */
module Layout {
  import opened ArrayText
  import opened ColumnCatalog

  datatype ColumnKind =
    | Increments              // auto-incrementing unsigned integer primary key
    | Integer
    | Timestamp
    | Declared(typeName: string)   // a column type chosen by the caller's callback

  /**
   * A column as the builder declares it. `hasDefault` says that PostgreSQL
   * fills the column of existing rows with a value of its own: a
   * `->default(...)` of the caller's, or the sequence behind `increments`.
   */
  datatype Column = Column(name: string, kind: ColumnKind, unsigned: bool, nullable: bool, hasDefault: bool)

  datatype RefAction = Cascade | NoAction

  datatype ForeignKey = ForeignKey(
    column: string, onTable: string, references: string, onDelete: RefAction, onUpdate: RefAction)

  datatype Table = Table(columns: seq<Column>, foreignKeys: seq<ForeignKey>, indexes: seq<string>)

  const TRIGGER_PROCEDURE: string := "view_insert_update_delete"

  function HistoryName(view: string): string { view + "_history" }

  function TrashName(view: string): string { view + "_trash" }

  function TriggerName(view: string): string { view + "_view_insert" }

  /** The three containers of a view never share a name. */
  lemma ContainerNamesDistinct(view: string)
    ensures HistoryName(view) != TrashName(view)
    ensures HistoryName(view) != view && TrashName(view) != view
  {
    assert |HistoryName(view)| == |view| + 8;
    assert |TrashName(view)| == |view| + 6;
  }

  function Names(columns: seq<Column>): (r: seq<string>)
    ensures |r| == |columns|
    ensures forall i :: 0 <= i < |columns| ==> r[i] == columns[i].name
  {
    if columns == [] then [] else [columns[0].name] + Names(columns[1..])
  }

  lemma NamesConcat(a: seq<Column>, b: seq<Column>)
    ensures Names(a + b) == Names(a) + Names(b)
  {
  }

  /** No two columns share a name (PostgreSQL refuses a table that would). */
  predicate DistinctNames(columns: seq<Column>)
  {
    forall i, j :: 0 <= i < j < |columns| ==> columns[i].name != columns[j].name
  }

  /** `increments('id')` */
  const ID_COLUMN: Column := Column("id", Increments, true, false, true)

  /** `integer(name)->unsigned()->nullable()` */
  function ReferenceColumn(name: string): Column
  {
    Column(name, Integer, true, true, false)
  }

  /** `foreign(column)->references('id')->on(view . '_history')->onDelete('cascade')->onUpdate('cascade')` */
  function HistoryForeignKey(view: string, column: string): ForeignKey
  {
    ForeignKey(column, HistoryName(view), "id", Cascade, Cascade)
  }

  /** `timestamps()`: nullable `created_at` and `updated_at`, when asked for. */
  function TimestampColumns(timestamped: bool): seq<Column>
  {
    if timestamped then [Column("created_at", Timestamp, false, true, false), Column("updated_at", Timestamp, false, true, false)]
    else []
  }

  /** The columns in front of the caller's columns in `v_history`. */
  const HISTORY_KEY_COLUMNS: seq<Column> :=
    [ID_COLUMN, ReferenceColumn("previous_id"), ReferenceColumn("next_id"), ReferenceColumn("original_id")]

  /** The columns in front of the caller's columns in `v_trash` and `v`. */
  const CONTAINER_KEY_COLUMNS: seq<Column> := [ID_COLUMN, ReferenceColumn("previous_id")]

  /** The layout of `v_history`. */
  function HistoryTable(view: string, declared: seq<Column>, timestamped: bool): Table
  {
    Table(HISTORY_KEY_COLUMNS + declared + TimestampColumns(timestamped),
          [HistoryForeignKey(view, "previous_id"), HistoryForeignKey(view, "next_id"),
           HistoryForeignKey(view, "original_id")],
          ["next_id", "original_id"])
  }

  /** The layout shared by `v_trash` and the live table `v`. */
  function ContainerTable(view: string, declared: seq<Column>, timestamped: bool): Table
  {
    Table(CONTAINER_KEY_COLUMNS + declared + TimestampColumns(timestamped),
          [HistoryForeignKey(view, "previous_id")],
          [])
  }

  function TimestampNames(timestamped: bool): seq<string>
  {
    if timestamped then ["created_at", "updated_at"] else []
  }

  /** `v_history` is `id, previous_id, next_id, original_id`, the caller's columns, then the timestamps if any. */
  lemma HistoryColumnNames(view: string, declared: seq<Column>, timestamped: bool)
    ensures Names(HistoryTable(view, declared, timestamped).columns)
         == ["id", "previous_id", "next_id", "original_id"] + Names(declared) + TimestampNames(timestamped)
  {
    NamesConcat(HISTORY_KEY_COLUMNS + declared, TimestampColumns(timestamped));
    NamesConcat(HISTORY_KEY_COLUMNS, declared);
  }

  /** `v_trash` and `v` are `id, previous_id`, the caller's columns, then the timestamps if any. */
  lemma ContainerColumnNames(view: string, declared: seq<Column>, timestamped: bool)
    ensures Names(ContainerTable(view, declared, timestamped).columns)
         == ["id", "previous_id"] + Names(declared) + TimestampNames(timestamped)
  {
    NamesConcat(CONTAINER_KEY_COLUMNS + declared, TimestampColumns(timestamped));
    NamesConcat(CONTAINER_KEY_COLUMNS, declared);
  }

  /**
   * `column` is a nullable column of `t` with a foreign key to `v_history.id`
   * that cascades on delete and on update.
   */
  predicate CascadingHistoryReference(t: Table, view: string, column: string)
  {
    && (exists i :: 0 <= i < |t.columns| && t.columns[i].name == column && t.columns[i].nullable)
    && HistoryForeignKey(view, column) in t.foreignKeys
  }

  /**
   * In every container `previous_id` is a nullable cascading reference into
   * `v_history`; in `v_history` so are `next_id` and `original_id`, both indexed.
   */
  lemma HistoryReferences(view: string, declared: seq<Column>, timestamped: bool)
    ensures var h := HistoryTable(view, declared, timestamped);
            && CascadingHistoryReference(h, view, "previous_id")
            && CascadingHistoryReference(h, view, "next_id")
            && CascadingHistoryReference(h, view, "original_id")
            && h.indexes == ["next_id", "original_id"]
    ensures CascadingHistoryReference(ContainerTable(view, declared, timestamped), view, "previous_id")
  {
    var h := HistoryTable(view, declared, timestamped);
    assert h.columns[1].name == "previous_id" && h.columns[1].nullable;
    assert h.columns[2].name == "next_id" && h.columns[2].nullable;
    assert h.columns[3].name == "original_id" && h.columns[3].nullable;
    var c := ContainerTable(view, declared, timestamped);
    assert c.columns[1].name == "previous_id" && c.columns[1].nullable;
  }

  /**
   * Cutting `next_id, original_id` in after `previous_id` in the live layout's
   * enumeration gives the history layout: the column list the versioning
   * trigger needs to copy a live row into `v_history`.
   */
  lemma LiveCutinIsHistory(view: string, declared: seq<Column>, timestamped: bool)
    requires CommaFree(Names(declared))
    requires "previous_id" !in Names(declared)
    ensures ColumnsWithCutin(Names(ContainerTable(view, declared, timestamped).columns),
                             "previous_id", ["next_id", "original_id"], "")
         == Join(Names(HistoryTable(view, declared, timestamped).columns))
  {
    ContainerColumnNames(view, declared, timestamped);
    HistoryColumnNames(view, declared, timestamped);
    TailCommaFree(declared, timestamped);
    var tail := Names(declared) + TimestampNames(timestamped);
    KeyCutin(tail);
    assert ["id", "previous_id"] + Names(declared) + TimestampNames(timestamped) == ["id", "previous_id"] + tail;
    assert ["id", "previous_id", "next_id", "original_id"] + Names(declared) + TimestampNames(timestamped)
        == ["id", "previous_id", "next_id", "original_id"] + tail;
  }

  /** The splice itself: after `id, previous_id` come `next_id, original_id`, then the rest unchanged. */
  lemma KeyCutin(tail: seq<string>)
    requires CommaFree(tail) && "previous_id" !in tail
    ensures ColumnsWithCutin(["id", "previous_id"] + tail, "previous_id", ["next_id", "original_id"], "")
         == Join(["id", "previous_id", "next_id", "original_id"] + tail)
  {
    var live := ["id", "previous_id"] + tail;
    var cut := ["next_id", "original_id"];
    assert CommaFree(live) by {
      forall i | 0 <= i < |live| ensures DELIMITER !in live[i] {
        if i >= 2 {
          assert live[i] == tail[i - 2];
        }
      }
    }
    assert live != [""] by {
      assert |live| >= 2;
    }
    CutinFromEnumeration(live, "previous_id", cut);
    assert live[..2] == ["id", "previous_id"] && live[2..] == tail;
    assert live[1] == "previous_id";
    assert "previous_id" !in live[..1];
    CutinSingle(live, "previous_id", cut, 1);
    assert live[..2] + cut + live[2..] == ["id", "previous_id", "next_id", "original_id"] + tail;
  }

  lemma TailCommaFree(declared: seq<Column>, timestamped: bool)
    requires CommaFree(Names(declared))
    ensures CommaFree(Names(declared) + TimestampNames(timestamped))
    ensures "previous_id" !in Names(declared) ==> "previous_id" !in Names(declared) + TimestampNames(timestamped)
  {
    var d := Names(declared);
    var t := d + TimestampNames(timestamped);
    forall i | 0 <= i < |t| ensures DELIMITER !in t[i] {
      if i < |d| {
        assert t[i] == d[i];
      }
    }
  }

  /** With an empty prefix, on names holding no comma, the cut-in function works on the names themselves. */
  lemma CutinFromEnumeration(names: seq<string>, cutoff: string, cutin: seq<string>)
    requires CommaFree(names) && names != [""]
    ensures ColumnsWithCutin(names, cutoff, cutin, "") == Join(Cutin(names, cutoff, cutin))
  {
    ExceptNothing(names, "");
    forall i | 0 <= i < |names| ensures Render("", names[i]) == names[i] {
      assert "" + "" + names[i] == names[i];
    }
    assert ColumnsExceptList(names, [], "") == names;
    assert Render("", cutoff) == cutoff;
    SplitJoin(names);
  }

  /**
   * The Laravel schema Blueprint, reduced to what the schema callbacks do with
   * it: each call appends a column, a foreign key or an index.
   */
  class Blueprint {
    var columns: seq<Column>
    var foreignKeys: seq<ForeignKey>
    var indexes: seq<string>

    constructor ()
      ensures columns == [] && foreignKeys == [] && indexes == []
    {
      columns, foreignKeys, indexes := [], [], [];
    }

    /** The table this blueprint describes. */
    function Definition(): Table
      reads this
    {
      Table(columns, foreignKeys, indexes)
    }

    /** `increments(name)` */
    method Increments(name: string)
      modifies this
      ensures columns == old(columns) + [Column(name, ColumnKind.Increments, true, false, true)]
      ensures foreignKeys == old(foreignKeys) && indexes == old(indexes)
    {
      columns := columns + [Column(name, ColumnKind.Increments, true, false, true)];
    }

    /** `integer(name)` */
    method Integer(name: string)
      modifies this
      ensures columns == old(columns) + [Column(name, ColumnKind.Integer, false, false, false)]
      ensures foreignKeys == old(foreignKeys) && indexes == old(indexes)
    {
      columns := columns + [Column(name, ColumnKind.Integer, false, false, false)];
    }

    /** `->unsigned()` on the column just added. */
    method Unsigned()
      requires columns != []
      modifies this
      ensures var last := old(columns)[|old(columns)| - 1];
              columns == old(columns)[..|old(columns)| - 1] + [last.(unsigned := true)]
      ensures foreignKeys == old(foreignKeys) && indexes == old(indexes)
    {
      var last := columns[|columns| - 1];
      columns := columns[..|columns| - 1] + [last.(unsigned := true)];
    }

    /** `->nullable()` on the column just added. */
    method Nullable()
      requires columns != []
      modifies this
      ensures var last := old(columns)[|old(columns)| - 1];
              columns == old(columns)[..|old(columns)| - 1] + [last.(nullable := true)]
      ensures foreignKeys == old(foreignKeys) && indexes == old(indexes)
    {
      var last := columns[|columns| - 1];
      columns := columns[..|columns| - 1] + [last.(nullable := true)];
    }

    /** `foreign(column)->references(..)->on(..)->onDelete(..)->onUpdate(..)` */
    method Foreign(key: ForeignKey)
      modifies this
      ensures foreignKeys == old(foreignKeys) + [key]
      ensures columns == old(columns) && indexes == old(indexes)
    {
      foreignKeys := foreignKeys + [key];
    }

    /** `index(column)` */
    method Index(column: string)
      modifies this
      ensures indexes == old(indexes) + [column]
      ensures columns == old(columns) && foreignKeys == old(foreignKeys)
    {
      indexes := indexes + [column];
    }

    /** `timestamps()` */
    method Timestamps()
      modifies this
      ensures columns == old(columns) + TimestampColumns(true)
      ensures foreignKeys == old(foreignKeys) && indexes == old(indexes)
    {
      columns := columns + [Column("created_at", Timestamp, false, true, false)];
      columns := columns + [Column("updated_at", Timestamp, false, true, false)];
    }

    /** The caller's callback: it declares its columns, in order. */
    method Declare(declared: seq<Column>)
      modifies this
      ensures columns == old(columns) + declared
      ensures foreignKeys == old(foreignKeys) && indexes == old(indexes)
    {
      columns := columns + declared;
    }
  }
}

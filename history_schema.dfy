/**
 * The schema provisioner: `createHistoryTable`, `dropHistoryTable` and `table`.
 *
 * Each is one transaction of DDL statements: the work is done statement by
 * statement on the `Database`, and the first failing statement rolls the whole
 * transaction back. `Provision`, `Dismantle` and `Alter` give the transaction's
 * effect on the catalog state; the lemmas below are about them.
 *
 * The caller's callback is the list of columns it declares.
 */
module HistorySchema {
  import opened ArrayText
  import opened ColumnCatalog
  import opened Layout
  import opened Ddl

  // ---------------------------------------------------------------------------
  // The schema callbacks, filling in a Blueprint
  // ---------------------------------------------------------------------------

  /** `createHistoryReference`: a nullable `previous_id` with a cascading key to `v_history.id`. */
  method CreateHistoryReference(b: Blueprint, view: string)
    modifies b
    ensures b.columns == old(b.columns) + [ReferenceColumn("previous_id")]
    ensures b.foreignKeys == old(b.foreignKeys) + [HistoryForeignKey(view, "previous_id")]
    ensures b.indexes == old(b.indexes)
  {
    b.Integer("previous_id");
    b.Unsigned();
    b.Nullable();
    b.Foreign(HistoryForeignKey(view, "previous_id"));
  }

  /** `callIfNotNullWithTable`: runs the caller's callback on the blueprint. */
  method CallIfNotNullWithTable(callback: seq<Column>, b: Blueprint)
    modifies b
    ensures b.columns == old(b.columns) + callback
    ensures b.foreignKeys == old(b.foreignKeys) && b.indexes == old(b.indexes)
  {
    b.Declare(callback);
  }

  /** `execCallBackFunctionAndCreateTimestamp`: the callback's columns, then the timestamps if asked for. */
  method ExecCallBackFunctionAndCreateTimestamp(b: Blueprint, callback: seq<Column>, timestamped: bool)
    modifies b
    ensures b.columns == old(b.columns) + callback + TimestampColumns(timestamped)
    ensures b.foreignKeys == old(b.foreignKeys) && b.indexes == old(b.indexes)
  {
    CallIfNotNullWithTable(callback, b);
    if timestamped {
      b.Timestamps();
    }
  }

  /** The closure `createHistoryTable` passes to `Schema::create` for `v_history`. */
  method BuildHistoryTable(view: string, callback: seq<Column>, timestamped: bool) returns (b: Blueprint)
    ensures fresh(b)
    ensures b.Definition() == HistoryTable(view, callback, timestamped)
  {
    b := new Blueprint();
    b.Increments("id");
    CreateHistoryReference(b, view);
    b.Integer("next_id");
    b.Unsigned();
    b.Nullable();
    b.Integer("original_id");
    b.Unsigned();
    b.Nullable();
    b.Foreign(HistoryForeignKey(view, "next_id"));
    b.Foreign(HistoryForeignKey(view, "original_id"));
    b.Index("next_id");
    b.Index("original_id");
    ExecCallBackFunctionAndCreateTimestamp(b, callback, timestamped);
  }

  /** The closure, written out twice in `createHistoryTable`, for `v_trash` and for `v`. */
  method BuildContainerTable(view: string, callback: seq<Column>, timestamped: bool) returns (b: Blueprint)
    ensures fresh(b)
    ensures b.Definition() == ContainerTable(view, callback, timestamped)
  {
    b := new Blueprint();
    b.Increments("id");
    CreateHistoryReference(b, view);
    ExecCallBackFunctionAndCreateTimestamp(b, callback, timestamped);
  }

  // ---------------------------------------------------------------------------
  // The three transactions
  // ---------------------------------------------------------------------------

  /** The effect of `createHistoryTable`: history, trash, live, then the trigger on live. */
  function Provision(s: DbState, view: string, callback: seq<Column>, timestamped: bool): Result<DbState>
  {
    var s1 :- CreateTableStep(s, HistoryName(view), HistoryTable(view, callback, timestamped));
    var s2 :- CreateTableStep(s1, TrashName(view), ContainerTable(view, callback, timestamped));
    var s3 :- CreateTableStep(s2, view, ContainerTable(view, callback, timestamped));
    CreateTriggerStep(s3, TriggerName(view), view, TRIGGER_PROCEDURE)
  }

  /** The effect of `dropHistoryTable`: the trigger, then live, trash and history. */
  function Dismantle(s: DbState, view: string): Result<DbState>
  {
    var s1 :- DropTriggerIfExistsStep(s, TriggerName(view), view);
    var s2 :- DropTableStep(s1, view);
    var s3 :- DropTableStep(s2, TrashName(view));
    DropTableStep(s3, HistoryName(view))
  }

  /** The effect of `table`: the callback's columns added to history, trash and live. */
  function Alter(s: DbState, view: string, callback: seq<Column>): Result<DbState>
  {
    var s1 :- AddColumnsStep(s, HistoryName(view), callback);
    var s2 :- AddColumnsStep(s1, TrashName(view), callback);
    AddColumnsStep(s2, view, callback)
  }

  /** `createHistoryTable($view, $callback, $timestamped)` */
  method CreateHistoryTable(db: Database, view: string, callback: seq<Column>, timestamped: bool)
    returns (r: Outcome)
    modifies db
    ensures db.State() == After(old(db.State()), Provision(old(db.State()), view, callback, timestamped))
    ensures r == OutcomeOf(Provision(old(db.State()), view, callback, timestamped))
  {
    var saved := db.State();
    var history := BuildHistoryTable(view, callback, timestamped);
    r := db.CreateTable(HistoryName(view), history.Definition());
    if r.Fail? {
      db.Restore(saved);
      return;
    }
    var trash := BuildContainerTable(view, callback, timestamped);
    r := db.CreateTable(TrashName(view), trash.Definition());
    if r.Fail? {
      db.Restore(saved);
      return;
    }
    var live := BuildContainerTable(view, callback, timestamped);
    r := db.CreateTable(view, live.Definition());
    if r.Fail? {
      db.Restore(saved);
      return;
    }
    r := db.CreateTrigger(TriggerName(view), view, TRIGGER_PROCEDURE);
    if r.Fail? {
      db.Restore(saved);
    }
  }

  /** `dropHistoryTable($view)` */
  method DropHistoryTable(db: Database, view: string) returns (r: Outcome)
    modifies db
    ensures db.State() == After(old(db.State()), Dismantle(old(db.State()), view))
    ensures r == OutcomeOf(Dismantle(old(db.State()), view))
  {
    var saved := db.State();
    r := db.DropTriggerIfExists(TriggerName(view), view);
    if r.Fail? {
      db.Restore(saved);
      return;
    }
    r := db.DropTable(view);
    if r.Fail? {
      db.Restore(saved);
      return;
    }
    r := db.DropTable(TrashName(view));
    if r.Fail? {
      db.Restore(saved);
      return;
    }
    r := db.DropTable(HistoryName(view));
    if r.Fail? {
      db.Restore(saved);
    }
  }

  /** `table($view, $callback)` */
  method Table(db: Database, view: string, callback: seq<Column>) returns (r: Outcome)
    modifies db
    ensures db.State() == After(old(db.State()), Alter(old(db.State()), view, callback))
    ensures r == OutcomeOf(Alter(old(db.State()), view, callback))
  {
    var saved := db.State();
    r := db.AddColumns(HistoryName(view), callback);
    if r.Fail? {
      db.Restore(saved);
      return;
    }
    r := db.AddColumns(TrashName(view), callback);
    if r.Fail? {
      db.Restore(saved);
      return;
    }
    r := db.AddColumns(view, callback);
    if r.Fail? {
      db.Restore(saved);
    }
  }

  // ---------------------------------------------------------------------------
  // What the transactions guarantee
  // ---------------------------------------------------------------------------

  /**
   * The three containers of `view` exist, start with their key columns, and
   * carry the same caller-defined columns after those.
   */
  predicate InSync(s: DbState, view: string)
  {
    && HistoryName(view) in s.tables && TrashName(view) in s.tables && view in s.tables
    && var h, t, v := s.tables[HistoryName(view)].columns, s.tables[TrashName(view)].columns, s.tables[view].columns;
       && |h| >= 4 && |t| >= 2 && |v| >= 2
       && h[..4] == HISTORY_KEY_COLUMNS && t[..2] == CONTAINER_KEY_COLUMNS && v[..2] == CONTAINER_KEY_COLUMNS
       && h[4..] == v[2..] && t[2..] == v[2..]
  }

  /**
   * Foreign keys into the containers come only from the containers: into `v`
   * only from `v`, into `v_trash` only from `v_trash`, into `v_history` only
   * from the three.
   */
  predicate OnlyContainersReference(s: DbState, view: string)
  {
    forall n, k :: n in s.tables && 0 <= k < |s.tables[n].foreignKeys| ==>
      var target := s.tables[n].foreignKeys[k].onTable;
      && (target == view ==> n == view)
      && (target == TrashName(view) ==> n == TrashName(view))
      && (target == HistoryName(view) ==> n == view || n == TrashName(view) || n == HistoryName(view))
  }

  /** The caller-defined columns (timestamps included) the three containers share. */
  function DeclaredColumns(s: DbState, view: string): seq<Column>
    requires InSync(s, view)
  {
    s.tables[view].columns[2..]
  }

  /** Leaving out a middle part keeps column names distinct. */
  lemma DistinctWithoutMiddle(a: seq<Column>, m: seq<Column>, b: seq<Column>)
    requires DistinctNames(a + m + b)
    ensures DistinctNames(a + b)
  {
    var long, short := a + m + b, a + b;
    forall i, j | 0 <= i < j < |short| ensures short[i].name != short[j].name {
      var i' := if i < |a| then i else i + |m|;
      var j' := if j < |a| then j else j + |m|;
      assert short[i] == long[i'] && short[j] == long[j'];
    }
  }

  /**
   * The trigger `createHistoryTable` installs. Its statement writes
   * `${view}_view_insert` and `ON $view` unquoted, so both stand for their
   * lower-case folding, while `Schema::create` made the live table under the
   * exact name `view`.
   */
  function InstalledTrigger(view: string): Trigger
  {
    Trigger(Fold(TriggerName(view)), Fold(view), TRIGGER_PROCEDURE)
  }

  /**
   * The unquoted trigger statement finds a table without that trigger: either
   * `view` is already lower case (so it names the live table just created), or
   * its folding names some other existing table that lacks the trigger.
   */
  predicate TriggerAttaches(s: DbState, view: string)
  {
    || Fold(view) == view
    || (&& Fold(view) in s.tables
        && !exists tr :: tr in s.triggers && tr.name == Fold(TriggerName(view)) && tr.onTable == Fold(view))
  }

  /** `${view}_view_insert` is a plain identifier whenever `view` is. */
  lemma TriggerNameIdentifier(view: string)
    requires UnquotedIdentifier(view)
    ensures UnquotedIdentifier(TriggerName(view))
  {
    var suffix := "_view_insert";
    var t := TriggerName(view);
    assert t == view + suffix;
    assert forall j :: 0 <= j < |suffix| ==> IdentPart(suffix[j]);
    forall i | 1 <= i < |t| ensures IdentPart(t[i]) {
      if i < |view| {
        assert t[i] == view[i];
      } else {
        assert t[i] == suffix[i - |view|];
      }
    }
  }

  /** For a view name already in lower case the trigger is `v_view_insert` on `v` itself. */
  lemma LowerCaseTrigger(view: string)
    requires Fold(view) == view
    ensures InstalledTrigger(view) == Trigger(TriggerName(view), view, TRIGGER_PROCEDURE)
  {
    var suffix := "_view_insert";
    assert TriggerName(view) == view + suffix;
    FoldConcat(view, suffix);
    assert forall j :: 0 <= j < |suffix| ==> !('A' <= suffix[j] <= 'Z');
    FoldFixed(suffix);
  }

  /**
   * `createHistoryTable` succeeds exactly when none of the three containers
   * exists yet, the history layout has no repeated column name, the view name
   * can stand unquoted in the trigger statement and that statement finds its
   * table, and the trigger procedure is installed. It then adds the three
   * layouts and `InstalledTrigger(view)`, and changes nothing else.
   */
  lemma ProvisionResult(s: DbState, view: string, callback: seq<Column>, timestamped: bool)
    requires WellFormed(s)
    ensures var r := Provision(s, view, callback, timestamped);
            r.Ok? <==> && HistoryName(view) !in s.tables && TrashName(view) !in s.tables && view !in s.tables
                       && DistinctNames(HistoryTable(view, callback, timestamped).columns)
                       && UnquotedIdentifier(view) && TriggerAttaches(s, view)
                       && TRIGGER_PROCEDURE in s.functions
    ensures var r := Provision(s, view, callback, timestamped);
            r.Ok? ==> r.value == DbState(
              s.tables[HistoryName(view) := HistoryTable(view, callback, timestamped)]
                      [TrashName(view) := ContainerTable(view, callback, timestamped)]
                      [view := ContainerTable(view, callback, timestamped)],
              s.triggers + {InstalledTrigger(view)},
              s.functions, s.populated)
  {
    ContainerNamesDistinct(view);
    var h, c := HistoryTable(view, callback, timestamped), ContainerTable(view, callback, timestamped);
    var tail := callback + TimestampColumns(timestamped);
    assert h.columns == CONTAINER_KEY_COLUMNS + [ReferenceColumn("next_id"), ReferenceColumn("original_id")] + tail;
    assert c.columns == CONTAINER_KEY_COLUMNS + tail;
    if DistinctNames(h.columns) {
      DistinctWithoutMiddle(CONTAINER_KEY_COLUMNS, [ReferenceColumn("next_id"), ReferenceColumn("original_id")], tail);
    }
    if UnquotedIdentifier(view) {
      TriggerNameIdentifier(view);
      FoldKeepsIdentifier(view);
      FoldKeepsIdentifier(TriggerName(view));
      assert |Fold(view)| == |view| < |HistoryName(view)| && |view| < |TrashName(view)|;
      if view !in s.tables {
        assert !exists tr :: tr in s.triggers && tr.onTable == view;
      }
    }
  }

  /**
   * The creation order is forced: `v_trash` or `v` created before `v_history`
   * fails, because its key to `v_history` does not resolve.
   */
  lemma HistoryIsCreatedFirst(s: DbState, view: string, callback: seq<Column>, timestamped: bool)
    requires HistoryName(view) !in s.tables
    requires DistinctNames(ContainerTable(view, callback, timestamped).columns)
    ensures TrashName(view) !in s.tables ==>
              CreateTableStep(s, TrashName(view), ContainerTable(view, callback, timestamped))
              == Err(UndefinedTable(HistoryName(view)))
    ensures view != "" && view !in s.tables ==>
              CreateTableStep(s, view, ContainerTable(view, callback, timestamped)) == Err(UndefinedTable(HistoryName(view)))
  {
    ContainerNamesDistinct(view);
    assert ContainerTable(view, callback, timestamped).foreignKeys[0].onTable == HistoryName(view);
  }

  /** The trigger statement fails while the table it names does not exist, so it comes after `v`. */
  lemma TriggerComesAfterLive(s: DbState, view: string)
    requires Fold(view) !in s.tables
    ensures CreateTriggerStep(s, TriggerName(view), view, TRIGGER_PROCEDURE).Err?
  {
  }

  /** Creating both containers, `first` then `second`. */
  function CreateBoth(s: DbState, first: string, second: string, t: Layout.Table): Result<DbState>
  {
    var s1 :- CreateTableStep(s, first, t);
    CreateTableStep(s1, second, t)
  }

  /** The order of `v_trash` and `v` is free: neither references the other. */
  lemma TrashLiveOrderFree(s: DbState, view: string, callback: seq<Column>, timestamped: bool)
    ensures var c := ContainerTable(view, callback, timestamped);
            && (CreateBoth(s, TrashName(view), view, c).Ok? <==> CreateBoth(s, view, TrashName(view), c).Ok?)
            && (CreateBoth(s, TrashName(view), view, c).Ok? ==>
                  CreateBoth(s, TrashName(view), view, c).value == CreateBoth(s, view, TrashName(view), c).value)
  {
    ContainerNamesDistinct(view);
    var c := ContainerTable(view, callback, timestamped);
    assert |c.foreignKeys| == 1 && c.foreignKeys[0].onTable == HistoryName(view);
    if CreateBoth(s, TrashName(view), view, c).Ok? || CreateBoth(s, view, TrashName(view), c).Ok? {
      assert s.tables[TrashName(view) := c][view := c] == s.tables[view := c][TrashName(view) := c];
    }
  }

  /** Dropping `first`, then `second`. */
  function DropBoth(s: DbState, first: string, second: string): Result<DbState>
  {
    var s1 :- DropTableStep(s, first);
    DropTableStep(s1, second)
  }

  /**
   * Neither of trash and live references the other, so they can be dropped in
   * either order with the same outcome.
   */
  lemma TrashLiveDropOrderFree(s: DbState, view: string)
    requires OnlyContainersReference(s, view)
    ensures (DropBoth(s, TrashName(view), view).Ok? <==> DropBoth(s, view, TrashName(view)).Ok?)
    ensures DropBoth(s, TrashName(view), view).Ok? ==>
              DropBoth(s, TrashName(view), view).value == DropBoth(s, view, TrashName(view)).value
  {
    ContainerNamesDistinct(view);
    var tn := TrashName(view);
    if tn in s.tables && view in s.tables {
      var a := s.(tables := s.tables - {tn});
      var b := s.(tables := s.tables - {view});
      assert !ReferencedByOthers(a, view) by {
        forall other, k | other in a.tables && other != view && 0 <= k < |a.tables[other].foreignKeys|
          ensures a.tables[other].foreignKeys[k].onTable != view
        {
          assert a.tables[other] == s.tables[other];
        }
      }
      assert !ReferencedByOthers(b, tn) by {
        forall other, k | other in b.tables && other != tn && 0 <= k < |b.tables[other].foreignKeys|
          ensures b.tables[other].foreignKeys[k].onTable != tn
        {
          assert b.tables[other] == s.tables[other];
        }
      }
      assert s.tables - {tn} - {view} == s.tables - {view} - {tn};
    }
  }

  /** After `createHistoryTable` the catalog is well formed and the three containers are in sync. */
  lemma ProvisionSync(s: DbState, view: string, callback: seq<Column>, timestamped: bool)
    requires WellFormed(s) && Provision(s, view, callback, timestamped).Ok?
    ensures var s' := Provision(s, view, callback, timestamped).value;
            && WellFormed(s') && InSync(s', view)
            && DeclaredColumns(s', view) == callback + TimestampColumns(timestamped)
            && OnlyContainersReference(s', view)
  {
    ProvisionWellFormed(s, view, callback, timestamped);
    ProvisionResult(s, view, callback, timestamped);
    ContainerNamesDistinct(view);
    var h, c := HistoryTable(view, callback, timestamped), ContainerTable(view, callback, timestamped);
    var tail := callback + TimestampColumns(timestamped);
    assert h.columns == HISTORY_KEY_COLUMNS + tail;
    assert c.columns == CONTAINER_KEY_COLUMNS + tail;
    assert h.columns[4..] == tail && c.columns[2..] == tail;
    assert h.columns[..4] == HISTORY_KEY_COLUMNS && c.columns[..2] == CONTAINER_KEY_COLUMNS;
    ProvisionReferences(s, view, callback, timestamped);
  }

  /** `createHistoryTable` keeps the catalog well formed. */
  lemma ProvisionWellFormed(s: DbState, view: string, callback: seq<Column>, timestamped: bool)
    requires WellFormed(s) && Provision(s, view, callback, timestamped).Ok?
    ensures WellFormed(Provision(s, view, callback, timestamped).value)
  {
    var h, c := HistoryTable(view, callback, timestamped), ContainerTable(view, callback, timestamped);
    var s1 := CreateTableStep(s, HistoryName(view), h).value;
    var s2 := CreateTableStep(s1, TrashName(view), c).value;
    var s3 := CreateTableStep(s2, view, c).value;
    StepsPreserveWellFormed(s, HistoryName(view), view, h, [], TRIGGER_PROCEDURE);
    StepsPreserveWellFormed(s1, TrashName(view), view, c, [], TRIGGER_PROCEDURE);
    StepsPreserveWellFormed(s2, view, view, c, [], TRIGGER_PROCEDURE);
    StepsPreserveWellFormed(s3, TriggerName(view), view, c, [], TRIGGER_PROCEDURE);
  }

  /** After `createHistoryTable` only the containers reference the containers. */
  lemma ProvisionReferences(s: DbState, view: string, callback: seq<Column>, timestamped: bool)
    requires WellFormed(s) && Provision(s, view, callback, timestamped).Ok?
    ensures OnlyContainersReference(Provision(s, view, callback, timestamped).value, view)
  {
    ProvisionResult(s, view, callback, timestamped);
    ContainerNamesDistinct(view);
    var s' := Provision(s, view, callback, timestamped).value;
    var h, c := HistoryTable(view, callback, timestamped), ContainerTable(view, callback, timestamped);
    assert forall k :: 0 <= k < |h.foreignKeys| ==> h.foreignKeys[k].onTable == HistoryName(view);
    assert forall k :: 0 <= k < |c.foreignKeys| ==> c.foreignKeys[k].onTable == HistoryName(view);
    forall n, k | n in s'.tables && 0 <= k < |s'.tables[n].foreignKeys|
      ensures var target := s'.tables[n].foreignKeys[k].onTable;
              && (target == view ==> n == view)
              && (target == TrashName(view) ==> n == TrashName(view))
              && (target == HistoryName(view) ==> n == view || n == TrashName(view) || n == HistoryName(view))
    {
      if n != HistoryName(view) && n != TrashName(view) && n != view {
        assert s'.tables[n] == s.tables[n];
        assert s.tables[n].foreignKeys[k].onTable in s.tables;
      }
    }
  }

  /**
   * `dropHistoryTable` undoes `createHistoryTable`: starting from a well-formed
   * catalog, creating and then dropping a view's containers gives back exactly
   * the catalog it started from.
   */
  lemma DismantleUndoesProvision(s: DbState, view: string, callback: seq<Column>, timestamped: bool)
    requires WellFormed(s) && Provision(s, view, callback, timestamped).Ok?
    ensures Dismantle(Provision(s, view, callback, timestamped).value, view) == Ok(s)
  {
    ProvisionResult(s, view, callback, timestamped);
    ProvisionReferences(s, view, callback, timestamped);
    ContainerNamesDistinct(view);
    var hn, tn := HistoryName(view), TrashName(view);
    var s' := Provision(s, view, callback, timestamped).value;
    var trigger := InstalledTrigger(view);
    TriggerNameIdentifier(view);
    DismantleResult(s', view);
    assert s'.tables - {view, tn, hn} == s.tables;
    assert s'.populated - {view, tn, hn} == s.populated;
    assert forall tr :: tr in s.triggers ==> !(tr.name == trigger.name && tr.onTable == trigger.onTable);
    assert (set tr | && tr in s'.triggers
                     && !(tr.name == Fold(TriggerName(view)) && tr.onTable == Fold(view))
                     && tr.onTable != view && tr.onTable != tn && tr.onTable != hn) == s.triggers;
  }

  /**
   * The drop order matters: right after `createHistoryTable`, `v_history`
   * cannot be dropped first, because `v_trash` and `v` still reference it.
   */
  lemma HistoryIsDroppedLast(s: DbState, view: string, callback: seq<Column>, timestamped: bool)
    requires WellFormed(s) && Provision(s, view, callback, timestamped).Ok?
    ensures DropTableStep(Provision(s, view, callback, timestamped).value, HistoryName(view))
         == Err(DependentObjectsStillExist(HistoryName(view)))
  {
    ProvisionResult(s, view, callback, timestamped);
    ContainerNamesDistinct(view);
    var s' := Provision(s, view, callback, timestamped).value;
    assert s'.tables[TrashName(view)].foreignKeys[0].onTable == HistoryName(view);
    assert ReferencedByOthers(s', HistoryName(view));
  }

  /**
   * `dropHistoryTable` fails, and changes nothing, when any of the three
   * containers is missing: `Schema::drop` does not tolerate an absent table.
   */
  lemma DismantleNeedsAllContainers(s: DbState, view: string)
    requires view !in s.tables || TrashName(view) !in s.tables || HistoryName(view) !in s.tables
    ensures Dismantle(s, view).Err?
  {
    ContainerNamesDistinct(view);
  }

  /**
   * `dropHistoryTable` on any catalog that holds the three containers, none of
   * them referenced from outside: it removes exactly those three tables, the
   * trigger its unquoted drop statement names, and every trigger on the three.
   */
  lemma DismantleResult(s: DbState, view: string)
    requires UnquotedIdentifier(view)
    requires HistoryName(view) in s.tables && TrashName(view) in s.tables && view in s.tables
    requires OnlyContainersReference(s, view)
    ensures Dismantle(s, view) == Ok(DbState(
              s.tables - {view, TrashName(view), HistoryName(view)},
              (set tr | && tr in s.triggers
                        && !(tr.name == Fold(TriggerName(view)) && tr.onTable == Fold(view))
                        && tr.onTable != view && tr.onTable != TrashName(view) && tr.onTable != HistoryName(view)),
              s.functions, s.populated - {view, TrashName(view), HistoryName(view)}))
  {
    ContainerNamesDistinct(view);
    TriggerNameIdentifier(view);
    var hn, tn := HistoryName(view), TrashName(view);
    var s1 := DropTriggerIfExistsStep(s, TriggerName(view), view).value;
    assert s1.tables == s.tables;
    assert !ReferencedByOthers(s1, view);
    var s2 := DropTableStep(s1, view).value;
    assert s2.tables == s.tables - {view};
    assert !ReferencedByOthers(s2, tn) by {
      forall other, k | other in s2.tables && other != tn && 0 <= k < |s2.tables[other].foreignKeys|
        ensures s2.tables[other].foreignKeys[k].onTable != tn
      {
        assert s2.tables[other] == s.tables[other];
      }
    }
    var s3 := DropTableStep(s2, tn).value;
    assert s3.tables == s.tables - {view} - {tn};
    assert !ReferencedByOthers(s3, hn) by {
      forall other, k | other in s3.tables && other != hn && 0 <= k < |s3.tables[other].foreignKeys|
        ensures s3.tables[other].foreignKeys[k].onTable != hn
      {
        assert s3.tables[other] == s.tables[other];
      }
    }
    var s4 := DropTableStep(s3, hn).value;
    assert s4.tables == s.tables - {view, tn, hn};
    var kept := set tr | && tr in s.triggers
                         && !(tr.name == Fold(TriggerName(view)) && tr.onTable == Fold(view))
                         && tr.onTable != view && tr.onTable != tn && tr.onTable != hn;
    assert s1.triggers == set tr | tr in s.triggers && !(tr.name == Fold(TriggerName(view)) && tr.onTable == Fold(view));
    assert s4.triggers == kept;
    assert s4.functions == s.functions;
    assert s4.populated == s.populated - {view, tn, hn};
  }

  /**
   * `table` on containers in sync: it succeeds exactly when the callback
   * declares nothing (no statement is sent) or its columns clash with no column
   * of `v_history`; it then appends them to all three, so they stay in sync, and
   * changes no other table, key, index or trigger.
   */
  lemma AlterResult(s: DbState, view: string, callback: seq<Column>)
    requires InSync(s, view)
    ensures var r := Alter(s, view, callback);
            r.Ok? <==> || callback == []
                       || (&& view != "" && DistinctNames(s.tables[HistoryName(view)].columns + callback)
                           && (|| AllFillExistingRows(callback)
                               || (HistoryName(view) !in s.populated && TrashName(view) !in s.populated
                                   && view !in s.populated)))
    ensures var r := Alter(s, view, callback);
            r.Ok? ==> && InSync(r.value, view)
                      && DeclaredColumns(r.value, view) == DeclaredColumns(s, view) + callback
                      && r.value.tables.Keys == s.tables.Keys
                      && (forall n :: n in s.tables && n != view && n != TrashName(view) && n != HistoryName(view)
                                      ==> r.value.tables[n] == s.tables[n])
                      && (forall n :: n in s.tables ==>
                            r.value.tables[n].foreignKeys == s.tables[n].foreignKeys
                            && r.value.tables[n].indexes == s.tables[n].indexes)
                      && r.value.triggers == s.triggers && r.value.functions == s.functions
                      && r.value.populated == s.populated
  {
    ContainerNamesDistinct(view);
    var hn, tn := HistoryName(view), TrashName(view);
    var h, t, v := s.tables[hn].columns, s.tables[tn].columns, s.tables[view].columns;
    var e := v[2..];
    assert h == HISTORY_KEY_COLUMNS + e by { assert h == h[..4] + h[4..]; }
    assert t == CONTAINER_KEY_COLUMNS + e by { assert t == t[..2] + t[2..]; }
    assert v == CONTAINER_KEY_COLUMNS + e by { assert v == v[..2] + v[2..]; }
    if callback == [] {
      assert h + callback == h && t + callback == t && v + callback == v;
    } else if && view != "" && DistinctNames(h + callback)
              && (AllFillExistingRows(callback) || (hn !in s.populated && tn !in s.populated && view !in s.populated)) {
      assert h + callback
          == CONTAINER_KEY_COLUMNS + [ReferenceColumn("next_id"), ReferenceColumn("original_id")] + (e + callback);
      DistinctWithoutMiddle(CONTAINER_KEY_COLUMNS, [ReferenceColumn("next_id"), ReferenceColumn("original_id")], e + callback);
      assert t + callback == CONTAINER_KEY_COLUMNS + (e + callback);
      assert v + callback == CONTAINER_KEY_COLUMNS + (e + callback);
      var r := Alter(s, view, callback);
      assert r.Ok?;
      var h', t', v' := r.value.tables[hn].columns, r.value.tables[tn].columns, r.value.tables[view].columns;
      assert h' == HISTORY_KEY_COLUMNS + (e + callback);
      assert t' == CONTAINER_KEY_COLUMNS + (e + callback);
      assert v' == CONTAINER_KEY_COLUMNS + (e + callback);
      assert h'[4..] == e + callback && t'[2..] == e + callback && v'[2..] == e + callback;
      assert h'[..4] == HISTORY_KEY_COLUMNS && t'[..2] == CONTAINER_KEY_COLUMNS && v'[..2] == CONTAINER_KEY_COLUMNS;
    }
  }

  /**
   * The history table gains a row on every change to `v`, so once a row of
   * `v` has been changed, `table` refuses a column that is `not null` with no
   * default, at its first statement, and rolls back.
   */
  lemma NotNullColumnOnChangedView(s: DbState, view: string, c: Column)
    requires InSync(s, view) && view != "" && HistoryName(view) in s.populated
    requires !c.nullable && !c.hasDefault
    requires DistinctNames(s.tables[HistoryName(view)].columns + [c])
    ensures Alter(s, view, [c]) == Err(NotNullViolation(HistoryName(view)))
  {
    assert !FillsExistingRows([c][0]);
  }

  /** `table` keeps the catalog well formed. */
  lemma AlterPreservesWellFormed(s: DbState, view: string, callback: seq<Column>)
    requires WellFormed(s) && Alter(s, view, callback).Ok?
    ensures WellFormed(Alter(s, view, callback).value)
  {
    var s1 := AddColumnsStep(s, HistoryName(view), callback).value;
    var s2 := AddColumnsStep(s1, TrashName(view), callback).value;
    StepsPreserveWellFormed(s, HistoryName(view), view, Layout.Table([], [], []), callback, TRIGGER_PROCEDURE);
    StepsPreserveWellFormed(s1, TrashName(view), view, Layout.Table([], [], []), callback, TRIGGER_PROCEDURE);
    StepsPreserveWellFormed(s2, view, view, Layout.Table([], [], []), callback, TRIGGER_PROCEDURE);
  }

  /**
   * Whenever the containers are in sync (after `createHistoryTable` and any
   * number of `table` calls), `get_columns_with_cutin` on the live table with
   * cutoff `previous_id`, cut-in `next_id, original_id` and no prefix gives
   * exactly the history table's column list.
   */
  lemma SyncedCutinIsHistory(s: DbState, view: string)
    requires WellFormed(s) && InSync(s, view)
    requires CommaFree(Names(DeclaredColumns(s, view)))
    ensures ColumnsWithCutin(Names(s.tables[view].columns), "previous_id", ["next_id", "original_id"], "")
         == Join(Names(s.tables[HistoryName(view)].columns))
  {
    var h, v := s.tables[HistoryName(view)].columns, s.tables[view].columns;
    var e := DeclaredColumns(s, view);
    assert h == HISTORY_KEY_COLUMNS + e by { assert h == h[..4] + h[4..]; }
    assert v == CONTAINER_KEY_COLUMNS + e by { assert v == v[..2] + v[2..]; }
    NamesConcat(HISTORY_KEY_COLUMNS, e);
    NamesConcat(CONTAINER_KEY_COLUMNS, e);
    assert "previous_id" !in Names(e) by {
      forall i | 0 <= i < |e| ensures e[i].name != "previous_id" {
        assert v[1].name == "previous_id" && v[i + 2] == e[i];
      }
    }
    assert Names(HISTORY_KEY_COLUMNS) == ["id", "previous_id", "next_id", "original_id"];
    assert Names(CONTAINER_KEY_COLUMNS) == ["id", "previous_id"];
    KeyCutin(Names(e));
  }

  // ---------------------------------------------------------------------------
  // A mixed-case view name
  // ---------------------------------------------------------------------------

  /**
   * As written, `createHistoryTable` with a plain view name that holds an
   * upper-case letter always fails when no table of the folded name exists:
   * the three containers are created, then the unquoted `ON $view` names the
   * folded table, and the whole transaction rolls back.
   */
  lemma MixedCaseViewRollsBack(s: DbState, view: string, callback: seq<Column>, timestamped: bool)
    requires WellFormed(s)
    requires UnquotedIdentifier(view) && Fold(view) != view && Fold(view) !in s.tables
    ensures Provision(s, view, callback, timestamped).Err?
  {
    ProvisionResult(s, view, callback, timestamped);
  }

  /** `createHistoryTable('Foo', ...)` on an empty catalog with the procedure installed rolls back. */
  lemma FooRollsBack()
    ensures Provision(DbState(map[], {}, {TRIGGER_PROCEDURE}, {}), "Foo", [], true).Err?
  {
    var foo := "Foo";
    assert UnquotedIdentifier(foo) by {
      assert IdentStart(foo[0]) && IdentPart(foo[1]) && IdentPart(foo[2]);
    }
    assert Fold(foo)[0] == 'f';
    MixedCaseViewRollsBack(DbState(map[], {}, {TRIGGER_PROCEDURE}, {}), foo, [], true);
  }

  /** The effect `createHistoryTable` evidently means: the trigger statement with its names quoted. */
  function ProvisionQuoted(s: DbState, view: string, callback: seq<Column>, timestamped: bool): Result<DbState>
  {
    var s1 :- CreateTableStep(s, HistoryName(view), HistoryTable(view, callback, timestamped));
    var s2 :- CreateTableStep(s1, TrashName(view), ContainerTable(view, callback, timestamped));
    var s3 :- CreateTableStep(s2, view, ContainerTable(view, callback, timestamped));
    CreateTriggerResolved(s3, TriggerName(view), view, TRIGGER_PROCEDURE)
  }

  /**
   * With the names quoted, creation succeeds for every non-empty view name
   * whose containers are all new, and the trigger lands on the live table.
   */
  lemma QuotedProvisionResult(s: DbState, view: string, callback: seq<Column>, timestamped: bool)
    requires WellFormed(s)
    ensures var r := ProvisionQuoted(s, view, callback, timestamped);
            r.Ok? <==> && HistoryName(view) !in s.tables && TrashName(view) !in s.tables && view !in s.tables
                       && view != ""
                       && DistinctNames(HistoryTable(view, callback, timestamped).columns)
                       && TRIGGER_PROCEDURE in s.functions
    ensures var r := ProvisionQuoted(s, view, callback, timestamped);
            r.Ok? ==> r.value == DbState(
              s.tables[HistoryName(view) := HistoryTable(view, callback, timestamped)]
                      [TrashName(view) := ContainerTable(view, callback, timestamped)]
                      [view := ContainerTable(view, callback, timestamped)],
              s.triggers + {Trigger(TriggerName(view), view, TRIGGER_PROCEDURE)},
              s.functions, s.populated)
  {
    ContainerNamesDistinct(view);
    var h, c := HistoryTable(view, callback, timestamped), ContainerTable(view, callback, timestamped);
    var tail := callback + TimestampColumns(timestamped);
    assert h.columns == CONTAINER_KEY_COLUMNS + [ReferenceColumn("next_id"), ReferenceColumn("original_id")] + tail;
    assert c.columns == CONTAINER_KEY_COLUMNS + tail;
    if DistinctNames(h.columns) {
      DistinctWithoutMiddle(CONTAINER_KEY_COLUMNS, [ReferenceColumn("next_id"), ReferenceColumn("original_id")], tail);
    }
    if view !in s.tables {
      assert !exists tr :: tr in s.triggers && tr.onTable == view;
    }
  }

  /** For a lower-case plain view name, the code as written and the quoted form agree. */
  lemma ProvisionAgreesWhenLowerCase(s: DbState, view: string, callback: seq<Column>, timestamped: bool)
    requires UnquotedIdentifier(view) && Fold(view) == view
    ensures Provision(s, view, callback, timestamped) == ProvisionQuoted(s, view, callback, timestamped)
  {
    TriggerNameIdentifier(view);
    LowerCaseTrigger(view);
  }

  /**
   * As written, the drop's unquoted trigger statement addresses the folded
   * names. For a mixed-case view it removes the trigger of the other table
   * named by the folding, and that table stays.
   */
  lemma MixedCaseDropHitsFoldedTable(s: DbState, view: string, procedure: string)
    requires UnquotedIdentifier(view) && Fold(view) != view
    requires HistoryName(view) in s.tables && TrashName(view) in s.tables && view in s.tables
    requires Fold(view) in s.tables
    requires OnlyContainersReference(s, view)
    requires Trigger(Fold(TriggerName(view)), Fold(view), procedure) in s.triggers
    ensures Dismantle(s, view).Ok?
    ensures Fold(view) in Dismantle(s, view).value.tables
    ensures Trigger(Fold(TriggerName(view)), Fold(view), procedure) !in Dismantle(s, view).value.triggers
  {
    DismantleResult(s, view);
    assert |Fold(view)| == |view| < |TrashName(view)| && |view| < |HistoryName(view)|;
  }

  /** As written, a view name that is not a plain identifier makes the whole drop fail. */
  lemma NonIdentifierDropFails(s: DbState, view: string)
    requires !UnquotedIdentifier(view)
    ensures Dismantle(s, view) == Err(SyntaxError(TriggerName(view)))
  {
  }

  /** The drop with the trigger statement's names quoted. */
  function DismantleQuoted(s: DbState, view: string): Result<DbState>
  {
    var s1 :- DropTriggerResolved(s, TriggerName(view), view);
    var s2 :- DropTableStep(s1, view);
    var s3 :- DropTableStep(s2, TrashName(view));
    DropTableStep(s3, HistoryName(view))
  }

  /**
   * With the names quoted, the drop succeeds for every non-empty view name
   * whose three tables exist and are referenced only from one another. It
   * removes the three tables and every trigger on them, and nothing else.
   */
  lemma QuotedDismantleResult(s: DbState, view: string)
    requires HistoryName(view) in s.tables && TrashName(view) in s.tables && view in s.tables
    requires OnlyContainersReference(s, view)
    ensures view == "" ==> DismantleQuoted(s, view).Err?
    ensures view != "" ==> DismantleQuoted(s, view) == Ok(DbState(
              s.tables - {view, TrashName(view), HistoryName(view)},
              (set tr | tr in s.triggers && tr.onTable != view && tr.onTable != TrashName(view) && tr.onTable != HistoryName(view)),
              s.functions, s.populated - {view, TrashName(view), HistoryName(view)}))
  {
    if view != "" {
      ContainerNamesDistinct(view);
      var hn, tn := HistoryName(view), TrashName(view);
      var s1 := DropTriggerResolved(s, TriggerName(view), view).value;
      assert s1.tables == s.tables;
      assert !ReferencedByOthers(s1, view);
      var s2 := DropTableStep(s1, view).value;
      assert s2.tables == s.tables - {view};
      assert !ReferencedByOthers(s2, tn) by {
        forall other, k | other in s2.tables && other != tn && 0 <= k < |s2.tables[other].foreignKeys|
          ensures s2.tables[other].foreignKeys[k].onTable != tn
        {
          assert s2.tables[other] == s.tables[other];
        }
      }
      var s3 := DropTableStep(s2, tn).value;
      assert s3.tables == s.tables - {view} - {tn};
      assert !ReferencedByOthers(s3, hn) by {
        forall other, k | other in s3.tables && other != hn && 0 <= k < |s3.tables[other].foreignKeys|
          ensures s3.tables[other].foreignKeys[k].onTable != hn
        {
          assert s3.tables[other] == s.tables[other];
        }
      }
      var s4 := DropTableStep(s3, hn).value;
      assert s4.tables == s.tables - {view, tn, hn};
      assert s4.triggers == set tr | tr in s.triggers && tr.onTable != view && tr.onTable != tn && tr.onTable != hn;
      assert s4.functions == s.functions;
      assert s4.populated == s.populated - {view, tn, hn};
    }
  }

  /** With quoted names, dropping right after creating gives back exactly the starting catalog. */
  lemma QuotedDismantleUndoesProvision(s: DbState, view: string, callback: seq<Column>, timestamped: bool)
    requires WellFormed(s) && ProvisionQuoted(s, view, callback, timestamped).Ok?
    ensures DismantleQuoted(ProvisionQuoted(s, view, callback, timestamped).value, view) == Ok(s)
  {
    QuotedProvisionResult(s, view, callback, timestamped);
    ContainerNamesDistinct(view);
    var hn, tn := HistoryName(view), TrashName(view);
    var h, c := HistoryTable(view, callback, timestamped), ContainerTable(view, callback, timestamped);
    var s' := ProvisionQuoted(s, view, callback, timestamped).value;
    assert forall k :: 0 <= k < |h.foreignKeys| ==> h.foreignKeys[k].onTable == hn;
    assert forall k :: 0 <= k < |c.foreignKeys| ==> c.foreignKeys[k].onTable == hn;
    assert OnlyContainersReference(s', view) by {
      forall n, k | n in s'.tables && 0 <= k < |s'.tables[n].foreignKeys|
        ensures var target := s'.tables[n].foreignKeys[k].onTable;
                && (target == view ==> n == view)
                && (target == tn ==> n == tn)
                && (target == hn ==> n == view || n == tn || n == hn)
      {
        if n != hn && n != tn && n != view {
          assert s'.tables[n] == s.tables[n];
          assert s.tables[n].foreignKeys[k].onTable in s.tables;
        }
      }
    }
    QuotedDismantleResult(s', view);
    assert s'.tables - {view, tn, hn} == s.tables;
    assert s'.populated - {view, tn, hn} == s.populated;
    assert (set tr | tr in s'.triggers && tr.onTable != view && tr.onTable != tn && tr.onTable != hn) == s.triggers;
  }
}

/**
 * The part of PostgreSQL's DDL behaviour the history schema relies on: the
 * catalog of tables, triggers and functions, and what CREATE TABLE, ALTER TABLE
 * ADD COLUMN, DROP TABLE, CREATE TRIGGER and DROP TRIGGER IF EXISTS do to it,
 * including the errors that abort a transaction.
 *
 * Each statement is a pure step on a `DbState`; the `Database` class holds the
 * state and performs the steps in place.
 */
module Ddl {
  import opened Layout

  datatype Trigger = Trigger(name: string, onTable: string, procedure: string)

  /**
   * The catalog: the tables, the triggers and the installed functions, and
   * which tables hold at least one row. Rows come and go through statements
   * outside the history schema; the DDL steps only read `populated`, except
   * that a dropped table takes its rows with it.
   */
  datatype DbState = DbState(tables: map<string, Table>, triggers: set<Trigger>, functions: set<string>, populated: set<string>)

  /**
   * The PostgreSQL error conditions (SQLSTATE condition names) the steps can
   * raise, each with the table or object PostgreSQL's message names.
   */
  datatype DdlError =
    | SyntaxError(text: string)
    | DuplicateTable(table: string)
    | DuplicateColumn(table: string)
    | UndefinedTable(table: string)
    | NotNullViolation(table: string)
    | UndefinedFunction(procedure: string)
    | DuplicateObject(name: string)
    | DependentObjectsStillExist(table: string)

  datatype Result<T> = Ok(value: T) | Err(error: DdlError) {
    predicate IsFailure() { Err? }

    function PropagateFailure<U>(): Result<U>
      requires Err?
    {
      Err(error)
    }

    function Extract(): T
      requires Ok?
    {
      value
    }
  }

  /** What a statement or a transaction reports to its caller. */
  datatype Outcome = Pass | Fail(error: DdlError)

  /** The state after a step or a transaction: its new state, or the old one when it failed. */
  function After(before: DbState, r: Result<DbState>): DbState
  {
    if r.Ok? then r.value else before
  }

  function OutcomeOf(r: Result<DbState>): Outcome
  {
    if r.Ok? then Pass else Fail(r.error)
  }

  // ---------------------------------------------------------------------------
  // Identifiers
  //
  // Laravel's schema builder sends table names double-quoted, so they are
  // taken verbatim; only the empty name "" is refused. A name written into a
  // statement unquoted must be a plain identifier (a letter, `_` or a non-ASCII
  // character, then also digits and `$`) and is folded to lower case.
  // ---------------------------------------------------------------------------

  predicate IdentStart(c: char)
  {
    'a' <= c <= 'z' || 'A' <= c <= 'Z' || c == '_' || c as int >= 0x80
  }

  predicate IdentPart(c: char)
  {
    IdentStart(c) || '0' <= c <= '9' || c == '$'
  }

  /** `s` can be written unquoted in a statement. */
  predicate UnquotedIdentifier(s: string)
  {
    |s| > 0 && IdentStart(s[0]) && forall i :: 1 <= i < |s| ==> IdentPart(s[i])
  }

  function FoldChar(c: char): char
  {
    if 'A' <= c <= 'Z' then (c as int - 'A' as int + 'a' as int) as char else c
  }

  /** The name an unquoted identifier stands for: ASCII upper-case letters folded to lower case. */
  function Fold(s: string): string
  {
    seq(|s|, i requires 0 <= i < |s| => FoldChar(s[i]))
  }

  /** Folding works character by character. */
  lemma FoldConcat(a: string, b: string)
    ensures Fold(a + b) == Fold(a) + Fold(b)
  {
    assert forall i :: 0 <= i < |a + b| ==> Fold(a + b)[i] == (Fold(a) + Fold(b))[i];
  }

  /** Folding changes a name exactly when it holds an ASCII upper-case letter. */
  lemma FoldFixed(s: string)
    ensures Fold(s) == s <==> forall i :: 0 <= i < |s| ==> !('A' <= s[i] <= 'Z')
  {
    if Fold(s) == s {
      forall i | 0 <= i < |s| ensures !('A' <= s[i] <= 'Z') {
        assert Fold(s)[i] == FoldChar(s[i]);
      }
    }
  }

  /** Folding twice is folding once. */
  lemma FoldIdempotent(s: string)
    ensures Fold(Fold(s)) == Fold(s)
  {
  }

  /** Folding keeps a plain identifier plain. */
  lemma FoldKeepsIdentifier(s: string)
    requires UnquotedIdentifier(s)
    ensures UnquotedIdentifier(Fold(s))
  {
  }

  /** A foreign key of table `name` targets `name` itself or a table that already exists. */
  predicate Resolves(s: DbState, name: string, key: ForeignKey)
  {
    key.onTable == name || key.onTable in s.tables
  }

  /** The position of the first key that does not resolve, or `|keys|` when all of them do. */
  function FirstUnresolved(s: DbState, name: string, keys: seq<ForeignKey>): (k: nat)
    ensures k <= |keys|
    ensures k < |keys| ==> !Resolves(s, name, keys[k])
    ensures forall j :: 0 <= j < k ==> Resolves(s, name, keys[j])
  {
    if keys == [] then 0
    else if !Resolves(s, name, keys[0]) then 0
    else 1 + FirstUnresolved(s, name, keys[1..])
  }

  /** A new column can be added to a table with rows: PostgreSQL has a value to fill it with. */
  predicate FillsExistingRows(c: Column)
  {
    c.nullable || c.hasDefault
  }

  predicate AllFillExistingRows(columns: seq<Column>)
  {
    forall i :: 0 <= i < |columns| ==> FillsExistingRows(columns[i])
  }

  /** Some table other than `name` has a foreign key into `name`. */
  predicate ReferencedByOthers(s: DbState, name: string)
  {
    exists other, k :: other in s.tables && other != name && 0 <= k < |s.tables[other].foreignKeys|
                       && s.tables[other].foreignKeys[k].onTable == name
  }

  // ---------------------------------------------------------------------------
  // The statements
  // ---------------------------------------------------------------------------

  /**
   * `Schema::create(name, ...)`: `create table "name" (...)`, then one `alter
   * table "name" add constraint ... foreign key ... references "target"` per
   * key, in declaration order. PostgreSQL rejects a repeated column before it
   * looks for an existing table; the first key whose target is missing fails
   * with that target's name. The new table holds no rows.
   */
  function CreateTableStep(s: DbState, name: string, t: Table): Result<DbState>
  {
    if name == "" then Err(SyntaxError(name))
    else if !DistinctNames(t.columns) then Err(DuplicateColumn(name))
    else if name in s.tables then Err(DuplicateTable(name))
    else if FirstUnresolved(s, name, t.foreignKeys) < |t.foreignKeys| then
      Err(UndefinedTable(t.foreignKeys[FirstUnresolved(s, name, t.foreignKeys)].onTable))
    else Ok(s.(tables := s.tables[name := t]))
  }

  /**
   * `Schema::table(name, ...)` declaring `columns`: one `alter table "name" add
   * column ...` statement. With no columns the builder sends no statement.
   * On a table that holds rows, a column that is neither nullable nor
   * defaulted (Laravel's columns are `not null` unless `->nullable()`) has no
   * value for those rows, and PostgreSQL refuses it.
   */
  function AddColumnsStep(s: DbState, name: string, columns: seq<Column>): Result<DbState>
  {
    if columns == [] then Ok(s)
    else if name == "" then Err(SyntaxError(name))
    else if name !in s.tables then Err(UndefinedTable(name))
    else if !DistinctNames(s.tables[name].columns + columns) then Err(DuplicateColumn(name))
    else if name in s.populated && !AllFillExistingRows(columns) then
      Err(NotNullViolation(name))
    else Ok(s.(tables := s.tables[name := s.tables[name].(columns := s.tables[name].columns + columns)]))
  }

  /** `Schema::drop(name)`: `drop table "name"` (no CASCADE); the table's triggers go with it. */
  function DropTableStep(s: DbState, name: string): Result<DbState>
  {
    if name == "" then Err(SyntaxError(name))
    else if name !in s.tables then Err(UndefinedTable(name))
    else if ReferencedByOthers(s, name) then Err(DependentObjectsStillExist(name))
    else Ok(s.(tables := s.tables - {name}, triggers := (set tr | tr in s.triggers && tr.onTable != name),
               populated := s.populated - {name}))
  }

  /** `CREATE TRIGGER "name" ... ON "table" ... EXECUTE PROCEDURE procedure()`, names quoted. */
  function CreateTriggerResolved(s: DbState, name: string, table: string, procedure: string): Result<DbState>
  {
    if name == "" || table == "" then Err(SyntaxError(name))
    else if table !in s.tables then Err(UndefinedTable(table))
    else if procedure !in s.functions then Err(UndefinedFunction(procedure))
    else if exists tr :: tr in s.triggers && tr.name == name && tr.onTable == table then Err(DuplicateObject(name))
    else Ok(s.(triggers := s.triggers + {Trigger(name, table, procedure)}))
  }

  /**
   * `CREATE TRIGGER name ... ON table ... EXECUTE PROCEDURE procedure()` with
   * `name` and `table` written unquoted: both must be plain identifiers and
   * stand for their lower-case folding. The procedure name is a lower-case
   * constant of the system and is taken as it is.
   */
  function CreateTriggerStep(s: DbState, name: string, table: string, procedure: string): Result<DbState>
  {
    if !UnquotedIdentifier(name) || !UnquotedIdentifier(table) then Err(SyntaxError(name))
    else CreateTriggerResolved(s, Fold(name), Fold(table), procedure)
  }

  /**
   * `DROP TRIGGER IF EXISTS "name" ON "table"`: a missing trigger, or a
   * missing table, is skipped with a notice.
   */
  function DropTriggerResolved(s: DbState, name: string, table: string): Result<DbState>
  {
    if name == "" || table == "" then Err(SyntaxError(name))
    else Ok(s.(triggers := set tr | tr in s.triggers && !(tr.name == name && tr.onTable == table)))
  }

  /** `DROP TRIGGER IF EXISTS name ON table` with both names written unquoted. */
  function DropTriggerIfExistsStep(s: DbState, name: string, table: string): Result<DbState>
  {
    if !UnquotedIdentifier(name) || !UnquotedIdentifier(table) then Err(SyntaxError(name))
    else DropTriggerResolved(s, Fold(name), Fold(table))
  }

  /**
   * What the catalog guarantees: no table has two columns of one name, every
   * foreign key targets an existing table, every trigger is on one, and only
   * existing tables hold rows.
   */
  predicate WellFormed(s: DbState)
  {
    && (forall n :: n in s.tables ==> DistinctNames(s.tables[n].columns))
    && (forall n, k :: n in s.tables && 0 <= k < |s.tables[n].foreignKeys| ==> s.tables[n].foreignKeys[k].onTable in s.tables)
    && (forall tr :: tr in s.triggers ==> tr.onTable in s.tables)
    && (forall n :: n in s.populated ==> n in s.tables)
  }

  /** Every DDL step keeps the catalog well formed. */
  lemma StepsPreserveWellFormed(s: DbState, name: string, table: string, t: Table, columns: seq<Column>, procedure: string)
    requires WellFormed(s)
    ensures CreateTableStep(s, name, t).Ok? ==> WellFormed(CreateTableStep(s, name, t).value)
    ensures AddColumnsStep(s, name, columns).Ok? ==> WellFormed(AddColumnsStep(s, name, columns).value)
    ensures DropTableStep(s, name).Ok? ==> WellFormed(DropTableStep(s, name).value)
    ensures CreateTriggerStep(s, name, table, procedure).Ok? ==> WellFormed(CreateTriggerStep(s, name, table, procedure).value)
    ensures CreateTriggerResolved(s, name, table, procedure).Ok? ==> WellFormed(CreateTriggerResolved(s, name, table, procedure).value)
    ensures DropTriggerIfExistsStep(s, name, table).Ok? ==> WellFormed(DropTriggerIfExistsStep(s, name, table).value)
    ensures DropTriggerResolved(s, name, table).Ok? ==> WellFormed(DropTriggerResolved(s, name, table).value)
  {
    CreateTablePreservesWellFormed(s, name, t);
    AddColumnsPreservesWellFormed(s, name, columns);
    DropTablePreservesWellFormed(s, name);
  }

  lemma CreateTablePreservesWellFormed(s: DbState, name: string, t: Table)
    requires WellFormed(s)
    ensures CreateTableStep(s, name, t).Ok? ==> WellFormed(CreateTableStep(s, name, t).value)
  {
  }

  lemma AddColumnsPreservesWellFormed(s: DbState, name: string, columns: seq<Column>)
    requires WellFormed(s)
    ensures AddColumnsStep(s, name, columns).Ok? ==> WellFormed(AddColumnsStep(s, name, columns).value)
  {
  }

  lemma DropTablePreservesWellFormed(s: DbState, name: string)
    requires WellFormed(s)
    ensures DropTableStep(s, name).Ok? ==> WellFormed(DropTableStep(s, name).value)
  {
  }

  /** The catalog of one database, changed in place by DDL statements. */
  class Database {
    var tables: map<string, Table>
    var triggers: set<Trigger>
    var functions: set<string>
    var populated: set<string>

    function State(): DbState
      reads this
    {
      DbState(tables, triggers, functions, populated)
    }

    constructor (initial: DbState)
      ensures State() == initial
    {
      tables, triggers, functions, populated := initial.tables, initial.triggers, initial.functions, initial.populated;
    }

    method CreateTable(name: string, t: Table) returns (r: Outcome)
      modifies this
      ensures State() == After(old(State()), CreateTableStep(old(State()), name, t))
      ensures r == OutcomeOf(CreateTableStep(old(State()), name, t))
    {
      if name == "" {
        r := Fail(SyntaxError(name));
      } else if !DistinctNames(t.columns) {
        r := Fail(DuplicateColumn(name));
      } else if name in tables {
        r := Fail(DuplicateTable(name));
      } else if FirstUnresolved(State(), name, t.foreignKeys) < |t.foreignKeys| {
        r := Fail(UndefinedTable(t.foreignKeys[FirstUnresolved(State(), name, t.foreignKeys)].onTable));
      } else {
        tables := tables[name := t];
        r := Pass;
      }
    }

    method AddColumns(name: string, columns: seq<Column>) returns (r: Outcome)
      modifies this
      ensures State() == After(old(State()), AddColumnsStep(old(State()), name, columns))
      ensures r == OutcomeOf(AddColumnsStep(old(State()), name, columns))
    {
      if columns == [] {
        r := Pass;
      } else if name == "" {
        r := Fail(SyntaxError(name));
      } else if name !in tables {
        r := Fail(UndefinedTable(name));
      } else if !DistinctNames(tables[name].columns + columns) {
        r := Fail(DuplicateColumn(name));
      } else if name in populated && !AllFillExistingRows(columns) {
        r := Fail(NotNullViolation(name));
      } else {
        tables := tables[name := tables[name].(columns := tables[name].columns + columns)];
        r := Pass;
      }
    }

    method DropTable(name: string) returns (r: Outcome)
      modifies this
      ensures State() == After(old(State()), DropTableStep(old(State()), name))
      ensures r == OutcomeOf(DropTableStep(old(State()), name))
    {
      if name == "" {
        r := Fail(SyntaxError(name));
      } else if name !in tables {
        r := Fail(UndefinedTable(name));
      } else if ReferencedByOthers(State(), name) {
        r := Fail(DependentObjectsStillExist(name));
      } else {
        tables := tables - {name};
        triggers := set tr | tr in triggers && tr.onTable != name;
        populated := populated - {name};
        r := Pass;
      }
    }

    /** The trigger statement with `name` and `table` written unquoted. */
    method CreateTrigger(name: string, table: string, procedure: string) returns (r: Outcome)
      modifies this
      ensures State() == After(old(State()), CreateTriggerStep(old(State()), name, table, procedure))
      ensures r == OutcomeOf(CreateTriggerStep(old(State()), name, table, procedure))
    {
      if !UnquotedIdentifier(name) || !UnquotedIdentifier(table) {
        r := Fail(SyntaxError(name));
        return;
      }
      var n, t := Fold(name), Fold(table);
      FoldKeepsIdentifier(name);
      FoldKeepsIdentifier(table);
      if t !in tables {
        r := Fail(UndefinedTable(t));
      } else if procedure !in functions {
        r := Fail(UndefinedFunction(procedure));
      } else if exists tr :: tr in triggers && tr.name == n && tr.onTable == t {
        r := Fail(DuplicateObject(n));
      } else {
        triggers := triggers + {Trigger(n, t, procedure)};
        r := Pass;
      }
    }

    /** The drop statement with `name` and `table` written unquoted. */
    method DropTriggerIfExists(name: string, table: string) returns (r: Outcome)
      modifies this
      ensures State() == After(old(State()), DropTriggerIfExistsStep(old(State()), name, table))
      ensures r == OutcomeOf(DropTriggerIfExistsStep(old(State()), name, table))
    {
      if !UnquotedIdentifier(name) || !UnquotedIdentifier(table) {
        r := Fail(SyntaxError(name));
        return;
      }
      var n, t := Fold(name), Fold(table);
      FoldKeepsIdentifier(name);
      FoldKeepsIdentifier(table);
      triggers := set tr | tr in triggers && !(tr.name == n && tr.onTable == t);
      r := Pass;
    }

    /** Rolling a transaction back: the catalog returns to the state it started from. */
    method Restore(saved: DbState)
      modifies this
      ensures State() == saved
    {
      tables, triggers, functions, populated := saved.tables, saved.triggers, saved.functions, saved.populated;
    }
  }
}

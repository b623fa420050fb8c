/** The index database as values (bdl/index.py): the `bdlitems` table
    schema as the `pragma table_info` tuples, the rows, the column-by-column
    schema check and the two-step migration of an outdated database. */
module Schema {
  import opened Wrappers
  import opened Errors
  import Items

  /** One `pragma table_info` tuple: (cid, name, type, notnull, dflt_value, pk). */
  datatype Column = Column(cid: nat, name: string, ctype: string, notnull: bool,
                           dflt: Option<string>, pk: nat)

  /** The `metadata` column: the JSON text of a metadata mapping, a text that
      does not decode to one, or SQL NULL. JSON itself is not modelled. */
  datatype MetaText = Encoded(attributes: map<string, string>) | Corrupt(text: string) | Null

  /** `json.loads(row[5])`, and `{}` when that fails (index.py:264-267). */
  function DecodeMetadata(m: MetaText): (attrs: map<string, string>)
    ensures m.Encoded? ==> attrs == m.attributes
    ensures !m.Encoded? ==> attrs == map[]
  {
    if m.Encoded? then m.attributes else map[]
  }

  /** One row of `bdlitems`. The nullable text columns are `Option`s; the URL
      is kept in its parsed form. */
  datatype Row = Row(position: int, url: Items.Url, filename: Option<string>,
                     extension: Option<string>, storename: Option<string>,
                     hashed: Option<Items.Digest>, metadata: MetaText)

  datatype Table = Table(columns: seq<Column>, rows: seq<Row>)

  /** A database file: its tables by name. */
  datatype Database = Database(tables: map<string, Table>)

  const ItemsTable: string := "bdlitems"
  const LegacyTable: string := "files"

  /** The schema `query_create_bdlitems` gives (index.py:13-20). The `url`
      column is declared `TEXT DEFAUTL NULL`: SQLite reads the misspelt word
      as part of the type name and `NULL` as a constraint, so the column has
      type "TEXT DEFAUTL" and no default. */
  const Reference: seq<Column> := [
    Column(0, "position", "INTEGER", false, Some("0"), 1),
    Column(1, "url", "TEXT DEFAUTL", false, None, 0),
    Column(2, "filename", "TEXT", false, Some("NULL"), 0),
    Column(3, "extension", "TEXT", false, Some("NULL"), 0),
    Column(4, "storename", "TEXT", false, Some("NULL"), 0),
    Column(5, "hashed", "TEXT", false, Some("NULL"), 0),
    Column(6, "metadata", "TEXT", false, Some("NULL"), 0)
  ]

  /** Column `i` of the reference schema has cid `i`; only `position` is a key. */
  lemma ReferenceShape()
    ensures |Reference| == 7
    ensures forall i :: 0 <= i < |Reference| ==> Reference[i].cid == i
    ensures forall i :: 0 <= i < |Reference| ==> (Reference[i].pk != 0 <==> i == 0)
  {
  }

  /** The live schema of `bdlitems`: `pragma table_info` of a missing table
      is empty. */
  function LiveColumns(db: Database): seq<Column>
  {
    if ItemsTable in db.tables then db.tables[ItemsTable].columns else []
  }

  /** The names of the reference columns among the first `n` that lie beyond
      the live schema, in reference order. */
  function MissingUpTo(live: seq<Column>, n: nat): seq<string>
    requires n <= |Reference|
  {
    if n == 0 then []
    else MissingUpTo(live, n - 1) + (if n - 1 >= |live| then [Reference[n - 1].name] else [])
  }

  /** The names of the reference columns among the first `n` that differ from
      the live column at the same index, in reference order. */
  function InvalidUpTo(live: seq<Column>, n: nat): seq<string>
    requires n <= |Reference|
  {
    if n == 0 then []
    else InvalidUpTo(live, n - 1)
         + (if n - 1 < |live| && live[n - 1] != Reference[n - 1] then [Reference[n - 1].name] else [])
  }

  /** The schema check: no missing and no invalid column. */
  predicate Compatible(live: seq<Column>)
  {
    MissingUpTo(live, |Reference|) == [] && InvalidUpTo(live, |Reference|) == []
  }

  /** `Index.validate` (index.py:67-100): the missing and invalid columns
      are collected in one pass over the reference schema, and the check
      fails with both lists when either is non-empty. */
  method Validate(db: Database, path: string) returns (r: Outcome)
    ensures r.Pass? <==> Compatible(LiveColumns(db))
    ensures r.Fail? ==> r.error == IndexDBSchemaError(Some(path),
                                     MissingUpTo(LiveColumns(db), |Reference|),
                                     InvalidUpTo(LiveColumns(db), |Reference|))
  {
    var live := LiveColumns(db);
    var missing: seq<string> := [];
    var invalid: seq<string> := [];
    var i := 0;
    while i < |Reference|
      invariant 0 <= i <= |Reference|
      invariant missing == MissingUpTo(live, i)
      invariant invalid == InvalidUpTo(live, i)
    {
      if i >= |live| {
        missing := missing + [Reference[i].name];
      } else if live[i] != Reference[i] {
        invalid := invalid + [Reference[i].name];
      }
      i := i + 1;
    }
    if |missing| > 0 || |invalid| > 0 {
      r := Fail(IndexDBSchemaError(Some(path), missing, invalid));
    } else {
      r := Pass;
    }
  }

  lemma {:induction false} MissingEmpty(live: seq<Column>, n: nat)
    requires n <= |Reference|
    ensures MissingUpTo(live, n) == [] <==> n <= |live|
  {
    if n > 0 {
      MissingEmpty(live, n - 1);
    }
  }

  lemma {:induction false} InvalidEmpty(live: seq<Column>, n: nat)
    requires n <= |live| && n <= |Reference|
    ensures InvalidUpTo(live, n) == [] <==> live[..n] == Reference[..n]
  {
    if n > 0 {
      InvalidEmpty(live, n - 1);
      assert live[..n] == live[..n - 1] + [live[n - 1]];
      assert Reference[..n] == Reference[..n - 1] + [Reference[n - 1]];
      if live[..n] == Reference[..n] {
        assert live[..n - 1] == live[..n][..n - 1];
        assert Reference[..n - 1] == Reference[..n][..n - 1];
        assert live[n - 1] == live[..n][n - 1];
      }
    }
  }

  /** The schema check passes exactly when the live schema starts with the
      whole reference schema; extra trailing live columns are accepted. */
  lemma CompatibleIff(live: seq<Column>)
    ensures Compatible(live) <==> |live| >= |Reference| && live[..|Reference|] == Reference
  {
    MissingEmpty(live, |Reference|);
    if |live| >= |Reference| {
      InvalidEmpty(live, |Reference|);
    }
  }

  /** Migration step one, `ALTER TABLE files RENAME TO bdlitems`
      (index.py:111-113), with SQLite's two failure messages. */
  function RenameLegacy(db: Database): (r: Result<Database>)
    ensures LegacyTable !in db.tables ==> r.Err?
    ensures r.Ok? <==> LegacyTable in db.tables && ItemsTable !in db.tables
    ensures r.Ok? ==> r.value.tables == (db.tables - {LegacyTable})[ItemsTable := db.tables[LegacyTable]]
  {
    if LegacyTable !in db.tables then Err(Builtin("OperationalError", "no such table: files"))
    else if ItemsTable in db.tables then
      Err(Builtin("OperationalError", "there is already another table or index with this name: bdlitems"))
    else Ok(Database((db.tables - {LegacyTable})[ItemsTable := db.tables[LegacyTable]]))
  }

  /** Whether a column of that name exists. */
  predicate HasColumn(columns: seq<Column>, name: string)
  {
    exists j :: 0 <= j < |columns| && columns[j].name == name
  }

  /** `ALTER TABLE bdlitems ADD COLUMN <reference column i>`: SQLite refuses a
      PRIMARY KEY column and a duplicate name; otherwise the column is
      appended with the next cid. */
  function AddColumn(columns: seq<Column>, i: nat): (r: Result<seq<Column>>)
    requires i < |Reference|
    ensures r.Ok? <==> Reference[i].pk == 0 && !HasColumn(columns, Reference[i].name)
    ensures r.Ok? ==> r.value == columns + [Reference[i].(cid := |columns|)]
  {
    var c := Reference[i];
    if c.pk != 0 then Err(Builtin("OperationalError", "Cannot add a PRIMARY KEY column"))
    else if HasColumn(columns, c.name) then
      Err(Builtin("OperationalError", "duplicate column name: " + c.name))
    else Ok(columns + [c.(cid := |columns|)])
  }

  /** The add-columns step as a value: the columns after adding reference
      columns `from` .. `|Reference|-1` one by one, and the first failure. A
      failed statement leaves the columns added before it in place. */
  function AddColumnsFrom(columns: seq<Column>, from: nat): (Result<seq<Column>>, seq<Column>)
    decreases |Reference| - from
  {
    if from >= |Reference| then (Ok(columns), columns)
    else match AddColumn(columns, from)
      case Err(e) => (Err(e), columns)
      case Ok(next) => AddColumnsFrom(next, from + 1)
  }

  /** On a live schema that is a prefix of the reference, the add-columns
      step succeeds exactly when the prefix is not empty, and then yields the
      whole reference schema. */
  lemma {:induction false} AddColumnsCompletes(columns: seq<Column>)
    requires |columns| <= |Reference| && columns == Reference[..|columns|]
    ensures |columns| >= 1 ==> AddColumnsFrom(columns, |columns|) == (Ok(Reference), Reference)
    ensures |columns| == 0 ==> AddColumnsFrom(columns, 0).0.Err?
    decreases |Reference| - |columns|
  {
    if |columns| == 0 {
      assert Reference[0].pk != 0;
    } else if |columns| < |Reference| {
      var i := |columns|;
      assert !HasColumn(columns, Reference[i].name) by {
        forall j | 0 <= j < |columns|
          ensures columns[j].name != Reference[i].name
        {
          assert columns[j] == Reference[j];
        }
      }
      var next := columns + [Reference[i].(cid := i)];
      assert Reference[i].(cid := i) == Reference[i];
      assert next == Reference[..i + 1];
      AddColumnsCompletes(next);
    } else {
      assert columns == Reference;
    }
  }

  /** The database after the add-columns step (index.py:115-129), as a
      loop over the missing reference columns; a failure keeps the columns
      added so far. */
  method AddColumns(db: Database) returns (after: Database, failure: Option<Error>)
    requires ItemsTable in db.tables
    ensures var run := AddColumnsFrom(LiveColumns(db), |LiveColumns(db)|);
            ItemsTable in after.tables
            && after.tables == db.tables[ItemsTable := db.tables[ItemsTable].(columns := run.1)]
            && (failure.None? <==> run.0.Ok?)
            && (failure.Some? ==> failure.value == run.0.error)
  {
    var columns := db.tables[ItemsTable].columns;
    var i := |columns|;
    failure := None;
    ghost var start := columns;
    while i < |Reference| && failure.None?
      invariant |start| <= i
      invariant failure.None? ==> AddColumnsFrom(columns, i) == AddColumnsFrom(start, |start|)
      invariant failure.Some? ==> AddColumnsFrom(start, |start|) == (Err(failure.value), columns)
      decreases |Reference| - i, if failure.None? then 1 else 0
    {
      match AddColumn(columns, i)
      case Err(e) =>
        failure := Some(e);
      case Ok(next) =>
        columns := next;
        i := i + 1;
    }
    after := Database(db.tables[ItemsTable := db.tables[ItemsTable].(columns := columns)]);
  }

  /** `Index.update` (index.py:102-137): the rename, then the add-columns
      step, each committed before the next; the first failure is raised as an
      IndexDBError carrying SQLite's message. `after` is the database as it
      stands on disk afterwards. */
  method Migrate(db: Database, path: string) returns (after: Database, failure: Option<Error>)
    ensures LegacyTable !in db.tables || ItemsTable in db.tables ==>
              after == db && failure == Some(IndexDBError(Some(path), Message(RenameLegacy(db).error)))
    ensures failure.None? ==> ItemsTable in after.tables && LegacyTable !in after.tables
    ensures failure.None? ==>
              after.tables[ItemsTable].columns == AddColumnsFrom(LiveColumns(RenameLegacy(db).value),
                                                               |LiveColumns(RenameLegacy(db).value)|).1
    ensures failure.None? ==> after.tables[ItemsTable].rows == db.tables[LegacyTable].rows
    ensures RenameLegacy(db).Ok? ==>
              var renamed := RenameLegacy(db).value;
              var run := AddColumnsFrom(LiveColumns(renamed), |LiveColumns(renamed)|);
              && after.tables == renamed.tables[ItemsTable := renamed.tables[ItemsTable].(columns := run.1)]
              && (failure.None? <==> run.0.Ok?)
              && (run.0.Err? ==> failure == Some(IndexDBError(Some(path), Message(run.0.error))))
  {
    var renamed := RenameLegacy(db);
    if renamed.Err? {
      return db, Some(IndexDBError(Some(path), Message(renamed.error)));
    }
    var failed;
    after, failed := AddColumns(renamed.value);
    if failed.Some? {
      failure := Some(IndexDBError(Some(path), Message(failed.value)));
    } else {
      failure := None;
    }
  }

  /** A legacy `files` table whose columns are a non-empty prefix of the
      reference schema migrates to a table that passes the schema check,
      keeping its rows. */
  lemma LegacyMigrates(db: Database)
    requires LegacyTable in db.tables && ItemsTable !in db.tables
    requires var cols := db.tables[LegacyTable].columns;
             1 <= |cols| <= |Reference| && cols == Reference[..|cols|]
    ensures var renamed := RenameLegacy(db).value;
            AddColumnsFrom(LiveColumns(renamed), |LiveColumns(renamed)|) == (Ok(Reference), Reference)
            && Compatible(Reference) && !Compatible(LiveColumns(db))
            && renamed.tables[ItemsTable := renamed.tables[ItemsTable].(columns := Reference)]
               == (db.tables - {LegacyTable})[ItemsTable := Table(Reference, db.tables[LegacyTable].rows)]
  {
    var renamed := RenameLegacy(db).value;
    assert LiveColumns(renamed) == db.tables[LegacyTable].columns;
    AddColumnsCompletes(LiveColumns(renamed));
    CompatibleIff(Reference);
    LegacyRenamed(db);
  }

  /** A database without `bdlitems` fails the schema check, and the renamed
      legacy table with the reference columns keeps the legacy rows. */
  lemma LegacyRenamed(db: Database)
    requires LegacyTable in db.tables && ItemsTable !in db.tables
    ensures !Compatible(LiveColumns(db))
    ensures var renamed := RenameLegacy(db).value;
            renamed.tables[ItemsTable := renamed.tables[ItemsTable].(columns := Reference)]
            == (db.tables - {LegacyTable})[ItemsTable := Table(Reference, db.tables[LegacyTable].rows)]
  {
    assert LiveColumns(db) == [];
    CompatibleIff([]);
  }
}

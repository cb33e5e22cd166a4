/**
 * The restore script: it splits the rows of a database comparison into objects to create
 * and objects to modify, then scripts each non-empty list from the source database with
 * mssql-scripter, creates first.
 */
module DbRestore {
  import opened Wrappers
  import opened PyStr
  import Shell
  import opened DatabaseCompare
  import MssqlScripter

  /** The row's lower-cased CompareType is 'not exists'. */
  predicate IsCreate(row: CompareRow) {
    Lower(row.compareType) == NOT_EXISTS
  }

  /** The row's lower-cased CompareType is 'hash'. */
  predicate IsModify(row: CompareRow) {
    Lower(row.compareType) == HASH
  }

  /** The FullName of every 'not exists' row, in row order. */
  function Created(rows: seq<CompareRow>): seq<string> {
    if rows == [] then []
    else Created(rows[..|rows| - 1]) + (if IsCreate(rows[|rows| - 1]) then [rows[|rows| - 1].fullName] else [])
  }

  /** The FullName of every 'hash' row, in row order. */
  function Modified(rows: seq<CompareRow>): seq<string> {
    if rows == [] then []
    else Modified(rows[..|rows| - 1]) + (if IsModify(rows[|rows| - 1]) then [rows[|rows| - 1].fullName] else [])
  }

  /** The loop over the comparison rows that fills `to_create` and `to_modify`. */
  method Partition(rows: seq<CompareRow>) returns (toCreate: seq<string>, toModify: seq<string>)
    ensures toCreate == Created(rows) && toModify == Modified(rows)
  {
    toCreate, toModify := [], [];
    var i := 0;
    while i < |rows|
      invariant 0 <= i <= |rows|
      invariant toCreate == Created(rows[..i]) && toModify == Modified(rows[..i])
    {
      var compareType := Lower(rows[i].compareType);
      if compareType == NOT_EXISTS {
        toCreate := toCreate + [rows[i].fullName];
      }
      if compareType == HASH {
        toModify := toModify + [rows[i].fullName];
      }
      assert rows[..i + 1][..i] == rows[..i];
      i := i + 1;
    }
    assert rows[..|rows|] == rows;
  }

  /** Both lists keep row order: the rows of a concatenation give the concatenated lists. */
  lemma {:induction false} PartitionAppend(a: seq<CompareRow>, b: seq<CompareRow>)
    ensures Created(a + b) == Created(a) + Created(b)
    ensures Modified(a + b) == Modified(a) + Modified(b)
    decreases |b|
  {
    if b == [] {
      assert a + b == a;
    } else {
      var b' := b[..|b| - 1];
      DropLastOfAppend(a, b);
      PartitionAppend(a, b');
    }
  }

  /** A name is to be created iff some 'not exists' row carries it, and to be modified iff
      some 'hash' row carries it. */
  lemma {:induction false} PartitionMembers(rows: seq<CompareRow>)
    ensures forall x :: x in Created(rows) <==> exists row :: row in rows && IsCreate(row) && row.fullName == x
    ensures forall x :: x in Modified(rows) <==> exists row :: row in rows && IsModify(row) && row.fullName == x
  {
    if rows != [] {
      var init := rows[..|rows| - 1];
      PartitionMembers(init);
      assert rows == init + [rows[|rows| - 1]];
    }
  }

  /** Each row lands in at most one list, so together they are no longer than the rows;
      they account for every row exactly when every row is 'not exists' or 'hash'. */
  lemma {:induction false} PartitionDisjoint(rows: seq<CompareRow>)
    ensures |Created(rows)| + |Modified(rows)| <= |rows|
    ensures |Created(rows)| + |Modified(rows)| == |rows| <==> forall row :: row in rows ==> IsCreate(row) || IsModify(row)
  {
    assert NOT_EXISTS != HASH by {
      assert NOT_EXISTS[0] != HASH[0];
    }
    if rows != [] {
      var init := rows[..|rows| - 1];
      PartitionDisjoint(init);
      assert rows == init + [rows[|rows| - 1]];
    }
  }

  lemma LowerOfTypes()
    ensures Lower(NOT_EXISTS) == NOT_EXISTS && Lower(HASH) == HASH
  {
    assert Lower(NOT_EXISTS)[0] == 'n';
  }

  /** Every row of `compare_objects_in_databases` is a source module's 'not exists' or
      'hash' row. */
  lemma ComparisonRows(db1: string, db2: string, h: Hasher, src: seq<CatalogObject>, dst: seq<CatalogObject>)
    requires db1 != [] && db2 != []
    ensures var rows := CompareObjects(db1, db2, h, src, dst).value;
      forall row :: row in rows ==>
        exists o :: o in src && o.typeDesc in MODULE_TYPES && row.fullName == FullName(o)
          && ((IsCreate(row) && IsNotExists(o, Modules(dst)))
              || (IsModify(row) && !IsNotExists(o, Modules(dst)) && IsHashChange(h, o, Modules(dst))))
  {
    CompareObjectsMembers(db1, db2, h, src, dst);
    LowerOfTypes();
  }

  /** On the rows of `compare_objects_in_databases` nothing is ignored. */
  lemma RestoreIgnoresNothing(db1: string, db2: string, h: Hasher, src: seq<CatalogObject>, dst: seq<CatalogObject>)
    requires db1 != [] && db2 != []
    ensures var rows := CompareObjects(db1, db2, h, src, dst).value;
      |Created(rows)| + |Modified(rows)| == |rows|
  {
    var rows := CompareObjects(db1, db2, h, src, dst).value;
    ComparisonRows(db1, db2, h, src, dst);
    PartitionDisjoint(rows);
  }

  /** The names to create are those of the source modules no destination module has. */
  lemma RestoreCreatesMissing(db1: string, db2: string, h: Hasher, src: seq<CatalogObject>, dst: seq<CatalogObject>)
    requires db1 != [] && db2 != []
    ensures var rows := CompareObjects(db1, db2, h, src, dst).value;
      forall x :: x in Created(rows) <==>
        exists o :: o in src && o.typeDesc in MODULE_TYPES && IsNotExists(o, Modules(dst)) && FullName(o) == x
  {
    var rows := CompareObjects(db1, db2, h, src, dst).value;
    ComparisonRows(db1, db2, h, src, dst);
    PartitionMembers(rows);
    CompareObjectsMembers(db1, db2, h, src, dst);
    LowerOfTypes();
    forall x, o | o in src && o.typeDesc in MODULE_TYPES && IsNotExists(o, Modules(dst)) && FullName(o) == x
      ensures x in Created(rows)
    {
      assert RowOf(NOT_EXISTS, h, o) in RowFor(h, o, Modules(dst));
    }
  }

  /** The names to modify are those of the other source modules whose hash matches no
      destination hash. */
  lemma RestoreModifiesChanged(db1: string, db2: string, h: Hasher, src: seq<CatalogObject>, dst: seq<CatalogObject>)
    requires db1 != [] && db2 != []
    ensures var rows := CompareObjects(db1, db2, h, src, dst).value;
      forall x :: x in Modified(rows) <==>
        exists o :: o in src && o.typeDesc in MODULE_TYPES && !IsNotExists(o, Modules(dst))
                    && IsHashChange(h, o, Modules(dst)) && FullName(o) == x
  {
    var rows := CompareObjects(db1, db2, h, src, dst).value;
    ComparisonRows(db1, db2, h, src, dst);
    PartitionMembers(rows);
    CompareObjectsMembers(db1, db2, h, src, dst);
    LowerOfTypes();
    assert NOT_EXISTS != HASH by {
      assert NOT_EXISTS[0] != HASH[0];
    }
    forall x, o | o in src && o.typeDesc in MODULE_TYPES && !IsNotExists(o, Modules(dst))
                  && IsHashChange(h, o, Modules(dst)) && FullName(o) == x
      ensures x in Modified(rows)
    {
      assert RowOf(HASH, h, o) in RowFor(h, o, Modules(dst));
    }
  }

  /** One `script_objects(names)` call of the script: no output path, one file per object. */
  function ScriptNames(db: MssqlScripter.MssqlDatabase, names: seq<string>, catalog: set<string>,
                       respond: Shell.Responder, h: seq<seq<string>>): (seq<seq<string>>, Result<Option<string>>)
  {
    MssqlScripter.ScriptObjectsRun(db, names, None, true, false, catalog, respond, h)
  }

  /** Lines 28-34 and 51 of the script against an environment: the commands issued and the
      value of `script` when it is printed, or the error that stops the script. An empty
      pair of lists leaves `script` unbound (NameError). */
  function RestoreRun(db: MssqlScripter.MssqlDatabase, rows: seq<CompareRow>, catalog: set<string>,
                      respond: Shell.Responder, h: seq<seq<string>>): (seq<seq<string>>, Result<Option<string>>)
  {
    var c := Created(rows);
    var m := Modified(rows);
    var first := ScriptNames(db, c, catalog, respond, h);
    if c != [] && first.1.Err? then first
    else if m != [] then
      var h' := if c != [] then h + first.0 else h;
      var second := ScriptNames(db, m, catalog, respond, h');
      ((if c != [] then first.0 else []) + second.0, second.1)
    else if c != [] then first
    else ([], Err(NameError))
  }

  /** The restore script after the comparison: partition the rows, then script creates and
      modifies from the source database. */
  method Restore(db: MssqlScripter.MssqlDatabase, rows: seq<CompareRow>, catalog: set<string>, runner: Shell.Runner)
    returns (script: Result<Option<string>>)
    modifies runner
    ensures var run := RestoreRun(db, rows, catalog, runner.respond, old(runner.issued));
      runner.issued == old(runner.issued) + run.0 && script == run.1
  {
    var toCreate, toModify := Partition(rows);
    var bound := false;
    script := Err(NameError);
    if |toCreate| > 0 {
      script := MssqlScripter.ScriptObjects(db, toCreate, None, true, false, catalog, runner);
      if script.Err? {
        return;
      }
      bound := true;
    }
    if |toModify| > 0 {
      script := MssqlScripter.ScriptObjects(db, toModify, None, true, false, catalog, runner);
      bound := true;
    }
    if !bound {
      script := Err(NameError);
    }
  }

  /** NameError is raised exactly when there is nothing to create or modify, and then no
      command runs. */
  lemma RestoreNameError(db: MssqlScripter.MssqlDatabase, rows: seq<CompareRow>, catalog: set<string>,
                         respond: Shell.Responder, h: seq<seq<string>>)
    ensures var run := RestoreRun(db, rows, catalog, respond, h);
      (run.1 == Err(NameError) <==> Created(rows) == [] && Modified(rows) == [])
      && (Created(rows) == [] && Modified(rows) == [] ==> run.0 == [])
  {
  }

  /** Creates are scripted before modifies, each list in one command; a create list the
      catalog does not fully contain stops the script before any command, so nothing is
      modified either. */
  lemma RestoreCreatesFirst(db: MssqlScripter.MssqlDatabase, rows: seq<CompareRow>, catalog: set<string>,
                            respond: Shell.Responder, h: seq<seq<string>>)
    ensures var run := RestoreRun(db, rows, catalog, respond, h);
      var c := Created(rows);
      var m := Modified(rows);
      |run.0| <= 2
      && (c != [] ==> |run.0| >= 1 ==> run.0[0] == MssqlScripter.ScriptCommand(db, c, None, true))
      && (c == [] && m != [] && |run.0| >= 1 ==> run.0 == [MssqlScripter.ScriptCommand(db, m, None, true)])
      && (|run.0| == 2 ==> run.0 == [MssqlScripter.ScriptCommand(db, c, None, true), MssqlScripter.ScriptCommand(db, m, None, true)])
      && ((exists x :: x in c && MssqlScripter.RemoveBrackets(x) !in catalog) ==> run == ([], Err(ValueError)))
  {
    var c := Created(rows);
    var m := Modified(rows);
    MssqlScripter.ScriptObjectsGuards(db, c, None, true, false, catalog, respond, h);
    var first := ScriptNames(db, c, catalog, respond, h);
    var h' := if c != [] then h + first.0 else h;
    MssqlScripter.ScriptObjectsGuards(db, m, None, true, false, catalog, respond, h');
  }
}

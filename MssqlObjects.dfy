/**
 * `mssql_objects.MssqlObjects`: bracket quoting of SQL Server names, objects whose
 * setters strip one bracket pair, columns and the CREATE TABLE text of a table.
 * A Python value that may be `None` is an `Option<string>`, printed by `format` as
 * "None".
 */
module MssqlObjects {
  import opened Wrappers
  import opened PyStr

  predicate Falsy(v: Option<string>) {
    v.None? || v.value == []
  }

  /** `SqlServerObject.is_value_quoted(val)` */
  function IsValueQuoted(val: Option<string>): (r: bool)
    ensures r <==> !Falsy(val) && StartsWith(Strip(val.value), "[") && EndsWith(Strip(val.value), "]")
  {
    if Falsy(val) then false
    else
      var v := Strip(val.value);
      StartsWith(v, "[") && EndsWith(v, "]")
  }

  /** A quoted value, once trimmed, is at least the two brackets. */
  lemma QuotedLength(v: string)
    requires StartsWith(v, "[") && EndsWith(v, "]")
    ensures |v| >= 2
  {
    assert v[..1] == "[";
    assert v[0] == '[';
    assert v[|v| - 1..] == "]";
    assert v[|v| - 1] == ']';
  }

  /** `SqlServerObject.unquote_value(val)`: None for a falsy value; otherwise the trimmed
      value with one outer bracket pair removed when it has one. */
  function UnquoteValue(val: Option<string>): (r: Option<string>)
    ensures r.None? <==> Falsy(val)
    ensures r.Some? && IsValueQuoted(val) ==> "[" + r.value + "]" == Strip(val.value)
    ensures r.Some? && !IsValueQuoted(val) ==> r.value == Strip(val.value)
  {
    if Falsy(val) then None
    else
      var v := Strip(val.value);
      if StartsWith(v, "[") && EndsWith(v, "]") then
        QuotedLength(v);
        assert v == "[" + v[1..|v| - 1] + "]" by {
          assert v[..1] == "[" && v[|v| - 1..] == "]";
        }
        Some(v[1..|v| - 1])
      else Some(v)
  }

  /** A stripped value is its own `strip()`; used to see that quoting absorbs the trim. */
  lemma StripBracketed(x: string)
    ensures Strip("[" + x + "]") == "[" + x + "]"
  {
    var v := "[" + x + "]";
    assert v[0] == '[' && v[|v| - 1] == ']';
    StripOfStripped(v);
  }

  /** Wrapping a name in brackets and unquoting it gives the name back, whatever it is. */
  lemma UnquoteBracketed(x: string)
    ensures UnquoteValue(Some("[" + x + "]")) == Some(x)
  {
    var v := "[" + x + "]";
    StripBracketed(x);
    assert StartsWith(v, "[") && EndsWith(v, "]");
    assert v[1..|v| - 1] == x;
  }

  /** Only one bracket pair is removed: '[[a]]' becomes '[a]'. */
  lemma UnquoteDoubleBracket()
    ensures UnquoteValue(Some("[[a]]")) == Some("[a]")
  {
    UnquoteBracketed("[a]");
    assert "[" + "[a]" + "]" == "[[a]]";
  }

  /** `SqlServerObject.get_quoted_name(val)`: never adds brackets; a quoted value comes
      back as given (untrimmed), any other value trimmed. */
  function GetQuotedName(val: Option<string>): (r: Option<string>)
    ensures r.None? <==> Falsy(val)
    ensures r.Some? && IsValueQuoted(val) ==> r == val
    ensures r.Some? && !IsValueQuoted(val) ==> r.value == Strip(val.value)
  {
    if Falsy(val) then None
    else if IsValueQuoted(val) then val
    else UnquoteValue(val)
  }

  /** A quoted name never gets brackets it did not have. */
  lemma GetQuotedNameAddsNoBrackets(val: Option<string>)
    requires !IsValueQuoted(val)
    ensures GetQuotedName(val).Some? ==> !IsValueQuoted(GetQuotedName(val))
  {
    if !Falsy(val) {
      var v := Strip(val.value);
      StripFacts(val.value);
      if v != [] {
        StripOfStripped(v);
      }
    }
  }

  /** The stored name parts of a `SqlServerObject`. */
  datatype ObjectName = ObjectName(name: Option<string>, schema: Option<string>, database: Option<string>)

  /** One part as `get_object_full_name` prints it: through `get_quoted_name` when
      quoting, then through `str.format`, which prints a missing part as 'None'. */
  function PartText(v: Option<string>, isQuoted: bool): string {
    Format(if isQuoted then GetQuotedName(v) else v)
  }

  /** `get_object_full_name(is_quoted, is_include_database_name)` on the stored parts:
      the printed schema and name joined by '.', with the printed database in front when
      the flag is set. */
  function FullName(o: ObjectName, isQuoted: bool, includeDatabase: bool): (r: string)
    ensures var tail := [PartText(o.schema, isQuoted), PartText(o.name, isQuoted)];
      r == JoinWith(if includeDatabase then [PartText(o.database, isQuoted)] + tail else tail, ".")
  {
    var name := if isQuoted then GetQuotedName(o.name) else o.name;
    var schema := if isQuoted then GetQuotedName(o.schema) else o.schema;
    var database := if !includeDatabase then Some("") else if isQuoted then GetQuotedName(o.database) else o.database;
    var schemaName := Format(schema) + "." + Format(name);
    var tail := [Format(schema), Format(name)];
    assert tail[1..] == [Format(name)] && ([Format(database)] + tail)[1..] == tail;
    assert JoinWith(tail, ".") == schemaName;
    if includeDatabase then Format(database) + "." + schemaName else schemaName
  }

  /** With the flag, the full name is the printed database, a '.', and the full name
      without the flag. */
  lemma FullNameWithDatabase(o: ObjectName, isQuoted: bool)
    ensures FullName(o, isQuoted, true) == PartText(o.database, isQuoted) + "." + FullName(o, isQuoted, false)
  {
  }

  /** When no printed part holds a '.', splitting the full name on '.' gives the parts
      back: [schema, name], or [database, schema, name] with the flag. */
  lemma FullNameSplits(o: ObjectName, isQuoted: bool, includeDatabase: bool)
    requires '.' !in PartText(o.schema, isQuoted) && '.' !in PartText(o.name, isQuoted)
    requires includeDatabase ==> '.' !in PartText(o.database, isQuoted)
    ensures var tail := [PartText(o.schema, isQuoted), PartText(o.name, isQuoted)];
      SplitOn(FullName(o, isQuoted, includeDatabase), '.')
        == if includeDatabase then [PartText(o.database, isQuoted)] + tail else tail
  {
    var tail := [PartText(o.schema, isQuoted), PartText(o.name, isQuoted)];
    var parts := if includeDatabase then [PartText(o.database, isQuoted)] + tail else tail;
    assert forall i :: 0 <= i < |parts| ==> '.' !in parts[i];
    JoinSplitRoundTrip(parts, '.');
  }

  /** A part that is non-empty, unquoted and already trimmed. */
  predicate PlainPart(v: Option<string>) {
    v.Some? && v.value != [] && !IsValueQuoted(v) && Strip(v.value) == v.value
  }

  /** Quoting does not add brackets: for plain stored parts the "quoted" full name is
      the unquoted one. */
  lemma FullNameQuotedIsPlain(o: ObjectName, includeDatabase: bool)
    requires PlainPart(o.name) && PlainPart(o.schema) && (includeDatabase ==> PlainPart(o.database))
    ensures FullName(o, true, includeDatabase) == FullName(o, false, includeDatabase)
  {
  }

  /** `SqlServerObject`: the constructor stores its parts as given, the setters unquote. */
  class SqlServerObject {
    var name: Option<string>
    var schema: Option<string>
    var database: Option<string>

    constructor (name: Option<string>, schema: Option<string>, database: Option<string>)
      ensures this.name == name && this.schema == schema && this.database == database
    {
      this.name := name;
      this.schema := schema;
      this.database := database;
    }

    function Parts(): ObjectName
      reads this
    {
      ObjectName(name, schema, database)
    }

    /** The `name` setter */
    method SetName(val: Option<string>)
      modifies this
      ensures name == UnquoteValue(val) && schema == old(schema) && database == old(database)
    {
      name := UnquoteValue(val);
    }

    /** The `schema` setter */
    method SetSchema(val: Option<string>)
      modifies this
      ensures schema == UnquoteValue(val) && name == old(name) && database == old(database)
    {
      schema := UnquoteValue(val);
    }

    /** The `database` setter */
    method SetDatabase(val: Option<string>)
      modifies this
      ensures database == UnquoteValue(val) && name == old(name) && schema == old(schema)
    {
      database := UnquoteValue(val);
    }

    /** `get_object_full_name(is_quoted, is_include_database_name)` */
    function GetObjectFullName(isQuoted: bool, includeDatabase: bool): (r: string)
      reads this
      ensures r == FullName(Parts(), isQuoted, includeDatabase)
      ensures !includeDatabase ==> r == PartText(schema, isQuoted) + "." + PartText(name, isQuoted)
      ensures includeDatabase ==> r == PartText(database, isQuoted) + "." + FullName(Parts(), isQuoted, false)
    {
      FullName(Parts(), isQuoted, includeDatabase)
    }
  }

  /** The state of a `Column`: name and type text as stored, and the nullable flag. */
  datatype ColumnState = ColumnState(name: Option<string>, sql: Option<string>, isNullable: bool)

  /** `Column.get_sql(is_quoted)`: '<name> <type>', the name in brackets when quoted,
      with ' NOT NULL' appended exactly when the column is nullable. */
  function ColumnSql(c: ColumnState, isQuoted: bool): string {
    var colName := if isQuoted then "[" + Format(c.name) + "]" else Format(c.name);
    var sql := colName + " " + Format(c.sql);
    if c.isNullable then sql + " NOT NULL" else sql
  }

  /** The shape of a column's text: the bracketed name first when quoted, then either
      ' NOT NULL' or the type text last. */
  lemma ColumnSqlShape(c: ColumnState, isQuoted: bool)
    ensures isQuoted ==> StartsWith(ColumnSql(c, isQuoted), "[" + Format(c.name) + "] ")
    ensures c.isNullable ==> EndsWith(ColumnSql(c, isQuoted), " NOT NULL")
    ensures !c.isNullable ==> EndsWith(ColumnSql(c, isQuoted), " " + Format(c.sql))
  {
    var colName := if isQuoted then "[" + Format(c.name) + "]" else Format(c.name);
    var sql := colName + " " + Format(c.sql);
    assert isQuoted ==> sql == ("[" + Format(c.name) + "] ") + Format(c.sql);
  }

  /** The nullable flag adds ' NOT NULL' and changes nothing else. */
  lemma ColumnSqlNullable(c: ColumnState, isQuoted: bool)
    ensures ColumnSql(c.(isNullable := true), isQuoted) == ColumnSql(c.(isNullable := false), isQuoted) + " NOT NULL"
  {
  }

  /** `Column`: the setters ignore falsy values. */
  class Column {
    var name: Option<string>
    var sql: Option<string>
    var isNullable: bool

    constructor (name: Option<string>, sql: Option<string>, isNullable: bool)
      ensures this.name == name && this.sql == sql && this.isNullable == isNullable
    {
      this.name := name;
      this.sql := sql;
      this.isNullable := isNullable;
    }

    function State(): ColumnState
      reads this
    {
      ColumnState(name, sql, isNullable)
    }

    /** The `name` setter: trims and unquotes a truthy value. */
    method SetName(val: Option<string>)
      modifies this
      ensures !Falsy(val) ==> name == UnquoteValue(Some(Strip(val.value)))
      ensures Falsy(val) ==> name == old(name)
      ensures sql == old(sql) && isNullable == old(isNullable)
    {
      if Falsy(val) {
        return;
      }
      name := UnquoteValue(Some(Strip(val.value)));
    }

    /** The `sql` setter */
    method SetSql(val: Option<string>)
      modifies this
      ensures sql == if Falsy(val) then old(sql) else val
      ensures name == old(name) && isNullable == old(isNullable)
    {
      if Falsy(val) {
        return;
      }
      sql := val;
    }

    /** The `is_nullable` setter: False is falsy, so it can never clear the flag. */
    method SetIsNullable(val: bool)
      modifies this
      ensures isNullable == (old(isNullable) || val)
      ensures name == old(name) && sql == old(sql)
    {
      if !val {
        return;
      }
      isNullable := val;
    }
  }

  /** The columns' states, in order. */
  function States(cols: seq<Column>): (r: seq<ColumnState>)
    reads set c | c in cols
    ensures |r| == |cols| && forall i :: 0 <= i < |cols| ==> r[i] == cols[i].State()
  {
    if cols == [] then [] else States(cols[..|cols| - 1]) + [cols[|cols| - 1].State()]
  }

  /** The '#'/'##' prefix: a global temporary table wins over a local one. */
  function PoundSigns(isLocalTemp: bool, isGlobalTemp: bool): string {
    if isGlobalTemp then "##" else if isLocalTemp then "#" else ""
  }

  /** Whether column `c` passes the include and exclude lists (an empty list is falsy). */
  predicate Kept(c: ColumnState, included: seq<Option<string>>, excluded: seq<Option<string>>) {
    !(included != [] && c.name !in included) && !(excluded != [] && c.name in excluded)
  }

  /** The text for the first `n` columns: each kept column on a new line, with a leading
      ',' whenever its original index is above 0. */
  function ColumnLines(cols: seq<ColumnState>, n: nat, included: seq<Option<string>>, excluded: seq<Option<string>>): string
    requires n <= |cols|
  {
    if n == 0 then ""
    else
      var c := cols[n - 1];
      ColumnLines(cols, n - 1, included, excluded)
        + (if Kept(c, included, excluded) then (if n - 1 > 0 then "," else "") + ("\n" + ColumnSql(c, true)) else "")
  }

  /** The additional columns, each on a new line, without commas. */
  function AdditionalLines(extra: seq<ColumnState>): string {
    if extra == [] then "" else AdditionalLines(extra[..|extra| - 1]) + "\n" + ColumnSql(extra[|extra| - 1], true)
  }

  /** The text of `Table.get_sql_create_table` after 'CREATE TABLE ' and the pound
      signs: the quoted name, the column list and the closing parenthesis. */
  function CreateTableBody(o: ObjectName, cols: seq<ColumnState>, included: seq<Option<string>>,
                           excluded: seq<Option<string>>, extra: seq<ColumnState>): string {
    FullName(o, true, false) + " (" + ColumnLines(cols, |cols|, included, excluded) + AdditionalLines(extra) + "\n)"
  }

  /** The reference text of `Table.get_sql_create_table`. */
  function CreateTableSql(o: ObjectName, isLocalTemp: bool, isGlobalTemp: bool, cols: seq<ColumnState>,
                          included: seq<Option<string>>, excluded: seq<Option<string>>, extra: seq<ColumnState>): string {
    "CREATE TABLE " + PoundSigns(isLocalTemp, isGlobalTemp) + FullName(o, true, false) + " ("
      + ColumnLines(cols, |cols|, included, excluded) + AdditionalLines(extra) + "\n)"
  }

  /** `Table`: an object name and its columns. */
  class Table {
    const obj: SqlServerObject
    var columns: seq<Column>

    constructor (name: Option<string>, schema: Option<string>, database: Option<string>, columns: seq<Column>)
      ensures fresh(obj) && obj.Parts() == ObjectName(name, schema, database) && this.columns == columns
    {
      obj := new SqlServerObject(name, schema, database);
      this.columns := columns;
    }

    /** `get_sql_create_table(...)`: the header, the kept columns, the additional
        columns, then '\n)'. */
    method GetSqlCreateTable(isLocalTemp: bool, isGlobalTemp: bool, included: seq<Option<string>>,
                             excluded: seq<Option<string>>, additional: seq<Column>) returns (sql: string)
      ensures sql == CreateTableSql(obj.Parts(), isLocalTemp, isGlobalTemp, States(columns),
                                    included, excluded, States(additional))
    {
      sql := "CREATE TABLE " + PoundSigns(isLocalTemp, isGlobalTemp) + obj.GetObjectFullName(true, false) + " (";
      var lines := KeptColumnLines(columns, included, excluded);
      var extra := AdditionalColumnLines(additional);
      sql := sql + lines + extra + "\n)";
    }
  }

  /** The column loop of `get_sql_create_table`. */
  method KeptColumnLines(columns: seq<Column>, included: seq<Option<string>>, excluded: seq<Option<string>>)
    returns (sql: string)
    ensures sql == ColumnLines(States(columns), |columns|, included, excluded)
  {
    ghost var states := States(columns);
    sql := "";
    var i := 0;
    while i < |columns|
      invariant 0 <= i <= |columns|
      invariant sql == ColumnLines(states, i, included, excluded)
    {
      var col := columns[i];
      assert col.State() == states[i];
      ColumnLinesNext(states, i, included, excluded);
      if !(included != [] && col.name !in included) && !(excluded != [] && col.name in excluded) {
        var colSql := "\n" + ColumnSql(col.State(), true);
        if i > 0 {
          colSql := "," + colSql;
        }
        sql := sql + colSql;
      }
      i := i + 1;
    }
  }

  /** One more column adds its line when it is kept, and nothing otherwise. */
  lemma ColumnLinesNext(cols: seq<ColumnState>, i: nat, included: seq<Option<string>>, excluded: seq<Option<string>>)
    requires i < |cols|
    ensures Kept(cols[i], included, excluded) && i > 0 ==>
      ColumnLines(cols, i + 1, included, excluded) == ColumnLines(cols, i, included, excluded) + ("," + ("\n" + ColumnSql(cols[i], true)))
    ensures Kept(cols[i], included, excluded) && i == 0 ==>
      ColumnLines(cols, i + 1, included, excluded) == ColumnLines(cols, i, included, excluded) + ("\n" + ColumnSql(cols[i], true))
    ensures !Kept(cols[i], included, excluded) ==>
      ColumnLines(cols, i + 1, included, excluded) == ColumnLines(cols, i, included, excluded)
  {
    var x := "\n" + ColumnSql(cols[i], true);
    assert "" + x == x;
    assert ColumnLines(cols, i, included, excluded) + "" == ColumnLines(cols, i, included, excluded);
  }

  /** The loop over the additional columns of `get_sql_create_table`. */
  method AdditionalColumnLines(additional: seq<Column>) returns (sql: string)
    ensures sql == AdditionalLines(States(additional))
  {
    ghost var extra := States(additional);
    sql := "";
    var j := 0;
    while j < |additional|
      invariant 0 <= j <= |additional|
      invariant sql == AdditionalLines(extra[..j])
    {
      assert extra[..j + 1][..j] == extra[..j];
      sql := sql + "\n" + ColumnSql(additional[j].State(), true);
      j := j + 1;
    }
    assert extra[..|additional|] == extra;
  }

  /** Without filters, extra columns or temporary-table flags, the column list is the
      columns' texts joined by ",\n". */
  lemma CreateTableJoinsColumns(o: ObjectName, cols: seq<ColumnState>)
    requires cols != []
    ensures CreateTableSql(o, false, false, cols, [], [], [])
         == "CREATE TABLE " + FullName(o, true, false) + " (\n" + JoinWith(ColumnTexts(cols), ",\n") + "\n)"
  {
    ColumnLinesJoined(cols, |cols|);
    assert ColumnTexts(cols)[..|cols|] == ColumnTexts(cols);
  }

  function ColumnTexts(cols: seq<ColumnState>): (r: seq<string>)
    ensures |r| == |cols| && forall i :: 0 <= i < |cols| ==> r[i] == ColumnSql(cols[i], true)
  {
    if cols == [] then [] else ColumnTexts(cols[..|cols| - 1]) + [ColumnSql(cols[|cols| - 1], true)]
  }

  lemma {:induction false} ColumnLinesJoined(cols: seq<ColumnState>, n: nat)
    requires 0 < n <= |cols|
    ensures ColumnLines(cols, n, [], []) == "\n" + JoinWith(ColumnTexts(cols)[..n], ",\n")
  {
    var t := ColumnTexts(cols);
    if n == 1 {
      assert ColumnLines(cols, 0, [], []) == "";
      assert t[..1] == [t[0]];
    } else {
      ColumnLinesStep(cols, n);
      ColumnLinesJoined(cols, n - 1);
      JoinWithPrefixStep(t, n, ",\n");
      Assoc("\n", JoinWith(t[..n - 1], ",\n"), ",\n" + t[n - 1]);
    }
  }

  /** Without filters, every column after the first adds ",\n" and its text. */
  lemma ColumnLinesStep(cols: seq<ColumnState>, n: nat)
    requires 1 < n <= |cols|
    ensures ColumnLines(cols, n, [], []) == ColumnLines(cols, n - 1, [], []) + (",\n" + ColumnTexts(cols)[n - 1])
  {
    assert Kept(cols[n - 1], [], []);
  }

  /** Excluding the first column leaves the comma of the second in front of it. */
  lemma CreateTableExcludedFirstColumn(cols: seq<ColumnState>)
    requires |cols| == 2 && cols[0].name != cols[1].name
    ensures ColumnLines(cols, 2, [], [cols[0].name]) == ",\n" + ColumnSql(cols[1], true)
  {
    var excl := [cols[0].name];
    assert !Kept(cols[0], [], excl);
    assert Kept(cols[1], [], excl);
    assert ColumnLines(cols, 1, [], excl) == ColumnLines(cols, 0, [], excl) + "";
  }

  /** A temporary table's statement is the plain one with '#' (local) or '##' (global)
      in front of the table name, and a global table gets '##' even when it is also
      marked local. */
  lemma TempTableStatements(o: ObjectName, isLocalTemp: bool, cols: seq<ColumnState>, included: seq<Option<string>>,
                            excluded: seq<Option<string>>, extra: seq<ColumnState>)
    ensures var body := CreateTableBody(o, cols, included, excluded, extra);
      CreateTableSql(o, false, false, cols, included, excluded, extra) == "CREATE TABLE " + body
      && CreateTableSql(o, true, false, cols, included, excluded, extra) == "CREATE TABLE " + "#" + body
      && CreateTableSql(o, isLocalTemp, true, cols, included, excluded, extra) == "CREATE TABLE " + "##" + body
  {
    var name, lines, more := FullName(o, true, false), ColumnLines(cols, |cols|, included, excluded), AdditionalLines(extra);
    var body := CreateTableBody(o, cols, included, excluded, extra);
    forall p | p in ["", "#", "##"]
      ensures "CREATE TABLE " + p + name + " (" + lines + more + "\n)" == "CREATE TABLE " + p + body
    {
      Assoc("CREATE TABLE " + p, name + " (" + lines + more, "\n)");
      Assoc("CREATE TABLE " + p, name + " (" + lines, more);
      Assoc("CREATE TABLE " + p, name + " (", lines);
      Assoc("CREATE TABLE " + p, name, " (");
    }
    assert "CREATE TABLE " + "" == "CREATE TABLE ";
  }
}

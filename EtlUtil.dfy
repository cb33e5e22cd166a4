/**
 * `SqlBuilder` and `DataImport` of the ETL utilities: the SQL text that creates a table
 * from a header row and inserts one row per data row, with single quotes escaped.
 * A cell is an `Option<string>`: `None` is Python's `None`, any other value is given by
 * its `str()`.
 */
module EtlUtil {
  import opened Wrappers
  import opened PyStr

  // Value escaping

  /** `re.sub("'", "''", s)`: every single quote doubled. */
  function Escape(s: string): string {
    if s == [] then [] else (if s[0] == '\'' then "''" else [s[0]]) + Escape(s[1..])
  }

  /** Collapsing each '' back to ': the reading a SQL parser gives a quoted literal. */
  function Unescape(s: string): string
    decreases |s|
  {
    if |s| >= 2 && s[0] == '\'' && s[1] == '\'' then "'" + Unescape(s[2..])
    else if s == [] then []
    else [s[0]] + Unescape(s[1..])
  }

  /** Unescaping an escaped value gives the value back. */
  lemma {:induction false} UnescapeEscape(s: string)
    ensures Unescape(Escape(s)) == s
  {
    if s != [] {
      var e := Escape(s);
      UnescapeEscape(s[1..]);
      if s[0] == '\'' {
        assert e == "''" + Escape(s[1..]);
        assert e[2..] == Escape(s[1..]);
      } else {
        assert e == [s[0]] + Escape(s[1..]);
        assert e[1..] == Escape(s[1..]);
      }
    }
  }

  /** Escaping only adds characters: a value without quotes is left as it is. */
  lemma {:induction false} EscapeWithoutQuotes(s: string)
    requires '\'' !in s
    ensures Escape(s) == s
  {
    if s != [] {
      assert s[1..] == s[1..] && forall c :: c in s[1..] ==> c in s;
      EscapeWithoutQuotes(s[1..]);
    }
  }

  /** `SqlBuilder.__get_insert_value(val, is_quoted, is_null_to_empty_string)`: the value is
      stringified first; a blank one becomes NULL, or '' with the flag; otherwise its
      single quotes are doubled and it is wrapped in single quotes when quoted, in square
      brackets when not. */
  function InsertValue(val: Option<string>, isQuoted: bool, nullToEmpty: bool): (r: string)
    ensures IsBlank(Format(val)) ==> r == (if nullToEmpty then "''" else "NULL")
    ensures !IsBlank(Format(val)) && isQuoted ==> r == "'" + Escape(Format(val)) + "'"
    ensures !IsBlank(Format(val)) && !isQuoted ==> r == "[" + Escape(Format(val)) + "]"
  {
    var s := Format(val);
    if s == [] || IsBlank(s) then (if nullToEmpty then "''" else "NULL")
    else
      var e := Escape(s);
      if isQuoted then "'" + e + "'" else "[" + e + "]"
  }

  /** A non-blank value round-trips through its quoted form: dropping the outer quotes
      and collapsing each '' gives back `str(val)`. */
  lemma InsertValueRoundTrip(val: Option<string>, nullToEmpty: bool)
    ensures var q := InsertValue(val, true, nullToEmpty);
      !IsBlank(Format(val)) ==>
        |q| >= 2 && q[0] == '\'' && q[|q| - 1] == '\'' && Unescape(q[1..|q| - 1]) == Format(val)
  {
    var s := Format(val);
    if !IsBlank(s) {
      var q := InsertValue(val, true, nullToEmpty);
      assert q[1..|q| - 1] == Escape(s);
      UnescapeEscape(s);
    }
  }

  /** `None` is not NULL but the quoted text 'None'. */
  lemma InsertValueOfNone(nullToEmpty: bool)
    ensures InsertValue(None, true, nullToEmpty) == "'None'"
  {
    var s := Format(None);
    assert !IsBlank(s) by {
      StripEmptyIffBlank(s);
      assert !IsSpace(s[0]);
    }
    EscapeWithoutQuotes(s);
    assert InsertValue(None, true, nullToEmpty) == "'" + s + "'";
    QuoteFour('\'', 'N', 'o', 'n', 'e');
  }

  /** A four-element sequence between two copies of a quote. */
  lemma QuoteFour<T>(q: T, a: T, b: T, c: T, d: T)
    ensures [q] + [a, b, c, d] + [q] == [q, a, b, c, d, q]
  {
  }

  // `get_column_values`

  /** What `get_column_values` is given: one string, or a list or tuple of cells. */
  datatype Values = Text(s: string) | Items(items: seq<Option<string>>)

  /** The items the loop renders: a bare string counts as a one-element tuple. */
  function AsItems(v: Values): seq<Option<string>> {
    match v
    case Text(s) => [Some(s)]
    case Items(items) => items
  }

  /** `get_column_values` refuses a blank string and an empty list. */
  predicate NoValues(v: Values) {
    match v
    case Text(s) => IsBlank(s)
    case Items(items) => items == []
  }

  /** The loop of `get_column_values`: ' x' for the first item and ', x' for each later
      one, blank values as NULL. */
  function ColumnValuesOf(items: seq<Option<string>>, isQuoted: bool): string {
    if items == [] then ""
    else if |items| == 1 then " " + InsertValue(items[0], isQuoted, false)
    else ColumnValuesOf(items[..|items| - 1], isQuoted) + ", " + InsertValue(items[|items| - 1], isQuoted, false)
  }

  /** `get_column_values(header, is_quoted)`: `None` when there is nothing to render. */
  function ColumnValues(v: Values, isQuoted: bool): Option<string> {
    if NoValues(v) then None else Some(ColumnValuesOf(AsItems(v), isQuoted))
  }

  /** Each rendered item. */
  function Rendered(items: seq<Option<string>>, isQuoted: bool): (r: seq<string>)
    ensures |r| == |items|
    ensures forall i :: 0 <= i < |items| ==> r[i] == InsertValue(items[i], isQuoted, false)
  {
    if items == [] then [] else Rendered(items[..|items| - 1], isQuoted) + [InsertValue(items[|items| - 1], isQuoted, false)]
  }

  /** The rendered values are the items, each escaped, joined by ', ' after one leading
      space. */
  lemma {:induction false} ColumnValuesJoin(items: seq<Option<string>>, isQuoted: bool)
    requires items != []
    ensures ColumnValuesOf(items, isQuoted) == " " + JoinWith(Rendered(items, isQuoted), ", ")
  {
    if |items| > 1 {
      var init := items[..|items| - 1];
      ColumnValuesJoin(init, isQuoted);
      JoinWithSnoc(Rendered(init, isQuoted), InsertValue(items[|items| - 1], isQuoted, false), ", ");
    } else {
      assert Rendered(items, isQuoted) == [InsertValue(items[0], isQuoted, false)];
    }
  }

  /** The loop of `get_column_values`, appending one piece per item. */
  method GetColumnValues(header: Values, isQuoted: bool) returns (r: Option<string>)
    ensures r == ColumnValues(header, isQuoted)
  {
    if header.Text? && IsBlank(header.s) {
      return None;
    }
    if header.Items? && |header.items| == 0 {
      return None;
    }
    var items := AsItems(header);
    var sql: seq<string> := [];
    for i := 0 to |items|
      invariant |sql| == i
      invariant i > 0 ==> Concat(sql) == ColumnValuesOf(items[..i], isQuoted)
    {
      var piece;
      if i == 0 {
        piece := " " + InsertValue(items[i], isQuoted, false);
      } else {
        piece := ", " + InsertValue(items[i], isQuoted, false);
      }
      assert items[..i + 1][..i] == items[..i];
      ConcatAppend(sql, [piece]);
      assert Concat([piece]) == piece by {
        assert [piece][..0] == [];
      }
      if i == 0 {
        assert sql == [];
        assert Concat([] + [piece]) == piece;
      }
      sql := sql + [piece];
    }
    assert items[..|items|] == items;
    return Some(Concat(sql));
  }

  // `create_insert_statement`

  /** `str(x)` of a `get_column_values` result, which is 'None' when there was nothing to
      render. */
  function FormatValues(v: Values, isQuoted: bool): string {
    Format(ColumnValues(v, isQuoted))
  }

  /** `create_insert_statement(...)`: the target, the bracketed column list and the quoted
      value list, each on their own lines, then 'GO' when asked for. */
  function CreateInsertStatement(table: string, database: string, colNames: Values, insertVals: Values,
                                 schema: string, appendGo: bool): string
  {
    var sql := "INSERT INTO " + database + "." + schema + "." + table + " (\n"
      + FormatValues(colNames, false) + "\n)\nVALUES (\n" + FormatValues(insertVals, true) + "\n)\n";
    if appendGo then sql + "GO" else sql
  }

  /** An insert names its target first, then lists the columns bracketed and the values
      quoted, each joined by ', ', and appends 'GO' exactly when asked to. */
  lemma InsertStatementText(table: string, database: string, cols: seq<Option<string>>, vals: seq<Option<string>>,
                            schema: string, appendGo: bool)
    requires cols != [] && vals != []
    ensures CreateInsertStatement(table, database, Items(cols), Items(vals), schema, appendGo)
      == InsertBody("INSERT INTO " + database + "." + schema + "." + table + " (\n",
                    " " + JoinWith(Rendered(cols, false), ", "), " " + JoinWith(Rendered(vals, true), ", "))
         + (if appendGo then "GO" else "")
  {
    ColumnValuesJoin(cols, false);
    ColumnValuesJoin(vals, true);
    var body := InsertBody("INSERT INTO " + database + "." + schema + "." + table + " (\n",
                           " " + JoinWith(Rendered(cols, false), ", "), " " + JoinWith(Rendered(vals, true), ", "));
    assert body + "" == body;
  }

  /** The statement without its optional 'GO'. */
  function InsertBody(head: string, cols: string, vals: string): string {
    head + cols + "\n)\nVALUES (\n" + vals + "\n)\n"
  }

  /** Every insert ends with 'GO' exactly when asked to, and with the closing parenthesis
      otherwise. */
  lemma InsertStatementEnds(table: string, database: string, cols: Values, vals: Values,
                            schema: string, appendGo: bool)
    ensures var s := CreateInsertStatement(table, database, cols, vals, schema, appendGo);
      (appendGo ==> EndsWith(s, ")\nGO")) && (!appendGo ==> EndsWith(s, "\n)\n"))
  {
    var body := "INSERT INTO " + database + "." + schema + "." + table + " (\n"
      + FormatValues(cols, false) + "\n)\nVALUES (\n" + FormatValues(vals, true);
    var s := CreateInsertStatement(table, database, cols, vals, schema, appendGo);
    if appendGo {
      assert s == body + "\n" + ")\nGO";
    } else {
      assert s == body + "\n)\n";
    }
  }

  /** With no column names the column list is the text 'None'. */
  lemma InsertWithoutColumns(table: string, database: string, vals: Values, schema: string)
    ensures var s := CreateInsertStatement(table, database, Items([]), vals, schema, false);
      s == "INSERT INTO " + database + "." + schema + "." + table + " (\nNone\n)\nVALUES (\n"
           + FormatValues(vals, true) + "\n)\n"
  {
  }

  // `create_table_from_header`

  /** The drop-if-exists block for a table. */
  function DropBlock(name: string): string {
    "IF OBJECT_ID('" + name + "') IS NOT NULL\n\tDROP TABLE " + name + ";\nGO\n"
  }

  /** The CREATE TABLE line and the identity key column. */
  function CreateHead(name: string, idName: string): string {
    "CREATE TABLE " + name + " (\n\t" + idName + " INT PRIMARY KEY IDENTITY(1, 1)\n"
  }

  /** One header column, bracketed but not escaped. */
  function ColumnLine(col: string): string {
    "\t,[" + col + "] NVARCHAR(MAX)\n"
  }

  /** The column lines, one per header column in header order. */
  function ColumnLines(header: seq<string>): (r: seq<string>)
    ensures |r| == |header|
    ensures forall i :: 0 <= i < |header| ==> r[i] == ColumnLine(header[i])
  {
    if header == [] then [] else ColumnLines(header[..|header| - 1]) + [ColumnLine(header[|header| - 1])]
  }

  /** `create_table_from_header(table_name, database_name, header, schema_name)`: `None` for
      a blank table name. The key column is '<table>ID'; when the header already has it,
      the renaming loop reaches `uuid1().clock_seq_loq`, which does not exist, and raises
      AttributeError. */
  function CreateTableFromHeader(table: string, database: string, header: seq<string>, schema: string): Result<Option<string>> {
    if IsBlank(table) then Ok(None)
    else
      var name := database + "." + schema + "." + table;
      var idName := table + "ID";
      if idName in header then Err(AttributeError)
      else Ok(Some(Concat([DropBlock(name), CreateHead(name, idName)] + ColumnLines(header) + [")\n", "\nGO\n"])))
  }

  lemma ConcatPair(a: string, b: string)
    ensures Concat([a, b]) == a + b
  {
    assert [a, b][..1] == [a];
    assert [a][..0] == [];
    assert Concat([a]) == "" + a == a;
  }

  /** The text of a created table: the drop block, the key column, one NVARCHAR(MAX) line
      per header column in order, and the closing parenthesis and GO. */
  lemma CreateTableText(table: string, database: string, header: seq<string>, schema: string)
    requires !IsBlank(table) && table + "ID" !in header
    ensures var name := database + "." + schema + "." + table;
      CreateTableFromHeader(table, database, header, schema)
        == Ok(Some(DropBlock(name) + CreateHead(name, table + "ID") + Concat(ColumnLines(header)) + ")\n\nGO\n"))
  {
    var name := database + "." + schema + "." + table;
    var head := [DropBlock(name), CreateHead(name, table + "ID")];
    var cols := ColumnLines(header);
    ConcatPair(DropBlock(name), CreateHead(name, table + "ID"));
    ConcatPair(")\n", "\nGO\n");
    ConcatAppend(head, cols);
    ConcatAppend(head + cols, [")\n", "\nGO\n"]);
    assert ")\n" + "\nGO\n" == ")\n\nGO\n";
    var d, c, t := DropBlock(name), CreateHead(name, table + "ID"), Concat(cols);
    assert d + c + t + (")\n" + "\nGO\n") == d + c + t + ")\n\nGO\n";
  }

  /** The loop of `create_table_from_header`. The renaming `while` loop raises on its first
      iteration, so it is the test that enters it. */
  method CreateTable(table: string, database: string, header: seq<string>, schema: string) returns (r: Result<Option<string>>)
    ensures r == CreateTableFromHeader(table, database, header, schema)
  {
    if IsBlank(table) {
      return Ok(None);
    }
    var insertName := database + "." + schema + "." + table;
    var sql := [DropBlock(insertName)];
    var idName := table + "ID";
    if idName in header {
      return Err(AttributeError);
    }
    sql := sql + [CreateHead(insertName, idName)];
    for i := 0 to |header|
      invariant sql == [DropBlock(insertName), CreateHead(insertName, idName)] + ColumnLines(header[..i])
    {
      assert header[..i + 1][..i] == header[..i];
      sql := sql + [ColumnLine(header[i])];
    }
    assert header[..|header|] == header;
    sql := sql + [")\n"];
    sql := sql + ["\nGO\n"];
    assert sql == [DropBlock(insertName), CreateHead(insertName, idName)] + ColumnLines(header) + [")\n", "\nGO\n"];
    return Ok(Some(Concat(sql)));
  }

  // `DataImport`

  /** `DataImport`: the target table, its column names, and the data rows. */
  class DataImport {
    const databaseName: string
    const schemaName: string
    const tableName: string
    const columnNames: seq<string>
    const rows: seq<Values>

    /** The first row is dropped when it holds the column names. */
    constructor (databaseName: string, schemaName: string, tableName: string, columnNames: seq<string>,
                 rows: seq<Values>, rowContainsColumnNames: bool)
      ensures this.databaseName == databaseName && this.schemaName == schemaName && this.tableName == tableName
      ensures this.columnNames == columnNames
      ensures this.rows == if rowContainsColumnNames && rows != [] then rows[1..]
                           else if rowContainsColumnNames then [] else rows
    {
      this.databaseName := databaseName;
      this.schemaName := schemaName;
      this.tableName := tableName;
      this.columnNames := columnNames;
      if rowContainsColumnNames {
        this.rows := if rows != [] then rows[1..] else [];
      } else {
        this.rows := rows;
      }
    }

    /** The column names as the insert statements render them. */
    function ColumnValuesList(): Values {
      Items(Cells(columnNames))
    }

    /** One row's insert statement, as `generate_sql_insert_stmts_list` formats it. */
    function InsertFor(row: Values): string {
      CreateInsertStatement(tableName, databaseName, ColumnValuesList(), row, schemaName, true) + "\n"
    }

    /** `generate_sql_create_table_stmt()` */
    function CreateTableStmt(): Result<Option<string>> {
      CreateTableFromHeader(tableName, databaseName, columnNames, schemaName)
    }

    /** `generate_sql_insert_stmts_list()`: one insert per row, in row order, each ending in
        'GO' and a newline. */
    method GenerateSqlInsertStmtsList() returns (stmts: seq<string>)
      ensures |stmts| == |rows|
      ensures forall i :: 0 <= i < |rows| ==> stmts[i] == InsertFor(rows[i])
    {
      stmts := RenderEach(rows, InsertFor);
    }

    /** `generate_all_sql()`: a list, not a string, holding the options, the CREATE text
        (or `None` for a blank table name) and then every insert in row order; the
        AttributeError of the CREATE text leaves it. */
    method GenerateAllSql() returns (r: Result<seq<Option<string>>>)
      ensures r.Ok? <==> CreateTableStmt().Ok?
      ensures r.Err? ==> r.error == CreateTableStmt().error
      ensures r.Ok? ==> (|r.value| == 2 + |rows| && r.value[0] == Some(SQL_OPTIONS)
                         && r.value[1] == CreateTableStmt().value
                         && forall i :: 2 <= i < |r.value| ==> r.value[i] == Some(InsertFor(rows[i - 2])))
    {
      var create := CreateTable(tableName, databaseName, columnNames, schemaName);
      if create.Err? {
        return Err(create.error);
      }
      var stmts := GenerateSqlInsertStmtsList();
      var sql := AssembleSql(create.value, stmts);
      return Ok(sql);
    }
  }

  /** The loop of `generate_sql_insert_stmts_list`: one rendered statement appended per
      row. */
  method RenderEach<T>(xs: seq<T>, render: T -> string) returns (r: seq<string>)
    ensures |r| == |xs|
    ensures forall k :: 0 <= k < |xs| ==> r[k] == render(xs[k])
  {
    r := [];
    for i := 0 to |xs|
      invariant |r| == i
      invariant forall k :: 0 <= k < i ==> r[k] == render(xs[k])
    {
      r := r + [render(xs[i])];
    }
  }

  /** The list `generate_all_sql` returns: the options, the CREATE text, then the
      inserts. */
  method AssembleSql(create: Option<string>, stmts: seq<string>) returns (sql: seq<Option<string>>)
    ensures |sql| == 2 + |stmts| && sql[0] == Some(SQL_OPTIONS) && sql[1] == create
    ensures forall i :: 2 <= i < |sql| ==> sql[i] == Some(stmts[i - 2])
  {
    var inserts := SomeEach(stmts);
    sql := [Some(SQL_OPTIONS), create] + inserts;
  }

  /** Each statement as a list element. */
  method SomeEach(stmts: seq<string>) returns (r: seq<Option<string>>)
    ensures |r| == |stmts|
    ensures forall k :: 0 <= k < |r| ==> r[k] == Some(stmts[k])
  {
    r := [];
    for i := 0 to |stmts|
      invariant |r| == i
      invariant forall k :: 0 <= k < i ==> r[k] == Some(stmts[k])
    {
      r := r + [Some(stmts[i])];
    }
  }

  /** `generate_sql_options()` */
  const SQL_OPTIONS := "SET NOCOUNT ON;\n\n"

  /** Column names as cells. */
  function Cells(names: seq<string>): (r: seq<Option<string>>)
    ensures |r| == |names|
    ensures forall i :: 0 <= i < |names| ==> r[i] == Some(names[i])
  {
    if names == [] then [] else Cells(names[..|names| - 1]) + [Some(names[|names| - 1])]
  }
}

/**
 * SQL text helpers of `DatabaseUtils.Database`: reading the body of a script file,
 * the parenthesised IN-list text, and the inventory query of `get_objects` as a
 * function over an abstract catalog. The file's lines (as `readlines()` gives them)
 * are a parameter; `None` stands for a file that cannot be opened.
 */
module DatabaseSql {
  import opened Wrappers
  import opened PyStr

  /** A line whose trimmed, lower-cased text starts with 'go' (which includes 'goto…'). */
  predicate IsGoLine(line: string) {
    StartsWith(Norm(line), "go")
  }

  /** A line whose trimmed, lower-cased text starts with 'create'. */
  predicate IsCreateLine(line: string) {
    StartsWith(Norm(line), "create")
  }

  /** No line is both: their first normalised characters differ. */
  lemma CreateIsNotGo(line: string)
    requires IsCreateLine(line)
    ensures !IsGoLine(line)
  {
    assert Norm(line)[0] == 'c';
  }

  /** The index of the first line that passes `start`, or |lines| when there is none. */
  function FirstWhere(lines: seq<string>, start: string -> bool): (k: nat)
    ensures k <= |lines|
    ensures forall j :: 0 <= j < k ==> !start(lines[j])
    ensures k < |lines| ==> start(lines[k])
  {
    if lines == [] then 0
    else if start(lines[0]) then 0
    else 1 + FirstWhere(lines[1..], start)
  }

  /** The lines that fail `skip`, in order. */
  function DropWhere(lines: seq<string>, skip: string -> bool): seq<string> {
    if lines == [] then []
    else DropWhere(lines[..|lines| - 1], skip) + (if skip(lines[|lines| - 1]) then [] else [lines[|lines| - 1]])
  }

  /** The index of the first 'create' line, or |lines| when there is none. */
  function FirstCreate(lines: seq<string>): (k: nat)
    ensures k <= |lines|
    ensures forall j :: 0 <= j < k ==> !IsCreateLine(lines[j])
    ensures k < |lines| ==> IsCreateLine(lines[k])
  {
    FirstWhere(lines, IsCreateLine)
  }

  /** The lines that are not 'go' lines, in order. */
  function DropGo(lines: seq<string>): seq<string> {
    DropWhere(lines, IsGoLine)
  }

  /** The lines `get_sql_from_file` keeps: from the first 'create' line on, without the
      'go' lines. */
  function ScriptBody(lines: seq<string>): seq<string> {
    DropGo(lines[FirstCreate(lines)..])
  }

  /** A line is kept by `DropGo` exactly when it occurs and is not a 'go' line. */
  lemma {:induction false} DropGoMembers(lines: seq<string>, x: string)
    ensures x in DropGo(lines) <==> x in lines && !IsGoLine(x)
  {
    if lines != [] {
      DropGoMembers(lines[..|lines| - 1], x);
      assert lines == lines[..|lines| - 1] + [lines[|lines| - 1]];
    }
  }

  /** What the loop of `get_sql_from_file` has kept after `i` lines, `k` being the first
      line that starts the body. */
  ghost function KeptSoFar(lines: seq<string>, skip: string -> bool, k: nat, i: nat): seq<string>
    requires k <= |lines| && i <= |lines|
  {
    if i <= k then [] else DropWhere(lines[k..i], skip)
  }

  /** One turn of the loop: line `i` is kept when it is at or after the start line and is
      not skipped. */
  lemma KeptSoFarStep(lines: seq<string>, start: string -> bool, skip: string -> bool, i: nat)
    requires i < |lines|
    requires forall x :: start(x) ==> !skip(x)
    ensures var k := FirstWhere(lines, start);
      KeptSoFar(lines, skip, k, i + 1)
        == KeptSoFar(lines, skip, k, i) + (if k <= i && !skip(lines[i]) then [lines[i]] else [])
    ensures i < FirstWhere(lines, start) ==> !start(lines[i])
    ensures i == FirstWhere(lines, start) ==> start(lines[i]) && !skip(lines[i])
  {
    var k := FirstWhere(lines, start);
    if i == k {
      SliceSnoc(lines, k, k);
      assert lines[k..k] == [];
      DropWhereSnoc([], lines[k], skip);
    } else if k < i {
      SliceSnoc(lines, k, i);
      DropWhereSnoc(lines[k..i], lines[i], skip);
    }
  }

  lemma DropWhereSnoc(lines: seq<string>, x: string, skip: string -> bool)
    ensures DropWhere(lines + [x], skip) == DropWhere(lines, skip) + (if skip(x) then [] else [x])
  {
    assert (lines + [x])[..|lines|] == lines;
  }

  /** The line loop of `get_sql_from_file` over its two line tests: lines before the first
      that passes `start` are dropped, and so is every line that passes `skip`. */
  method KeepFrom(lines: seq<string>, start: string -> bool, skip: string -> bool) returns (sql: seq<string>)
    requires forall x :: start(x) ==> !skip(x)
    ensures sql == DropWhere(lines[FirstWhere(lines, start)..], skip)
  {
    ghost var k := FirstWhere(lines, start);
    sql := [];
    var isStartToReadFile := false;
    var i := 0;
    while i < |lines|
      invariant 0 <= i <= |lines|
      invariant isStartToReadFile == (k < i)
      invariant sql == KeptSoFar(lines, skip, k, i)
    {
      var line := lines[i];
      KeptSoFarStep(lines, start, skip, i);
      if skip(line) {
      } else if isStartToReadFile {
        sql := sql + [line];
      } else if start(line) {
        isStartToReadFile := true;
        sql := sql + [line];
      }
      i := i + 1;
    }
    assert lines[k..|lines|] == lines[k..];
    if k == |lines| {
      assert lines[k..] == [];
    }
  }

  /** Without a 'create' line nothing is kept; otherwise the first kept line is the
      first 'create' line. */
  lemma ScriptBodyStart(lines: seq<string>)
    ensures FirstCreate(lines) == |lines| ==> ScriptBody(lines) == []
    ensures FirstCreate(lines) < |lines| ==> ScriptBody(lines) != [] && ScriptBody(lines)[0] == lines[FirstCreate(lines)]
  {
    var k := FirstCreate(lines);
    if k < |lines| {
      CreateIsNotGo(lines[k]);
      DropWhereFirst(lines[k..], IsGoLine);
    }
  }

  lemma {:induction false} DropWhereFirst(lines: seq<string>, skip: string -> bool)
    requires lines != [] && !skip(lines[0])
    ensures DropWhere(lines, skip) != [] && DropWhere(lines, skip)[0] == lines[0]
  {
    if |lines| > 1 {
      DropWhereFirst(lines[..|lines| - 1], skip);
    } else {
      assert lines[..0] == [];
    }
  }

  /** `get_sql_from_file(path)`: None for an empty path; otherwise the kept lines joined
      with ''. */
  method GetSqlFromFile(path: string, contents: Option<seq<string>>) returns (r: Result<Option<string>>)
    ensures path == [] ==> r == Ok(None)
    ensures path != [] && contents.None? ==> r == Err(FileNotFoundError)
    ensures path != [] && contents.Some? ==> r == Ok(Some(Concat(ScriptBody(contents.value))))
  {
    if path == [] {
      return Ok(None);
    }
    if contents.None? {
      return Err(FileNotFoundError);
    }
    var sql := ReadScriptBody(contents.value);
    return Ok(Some(Concat(sql)));
  }

  /** The line loop of `get_sql_from_file`, with its `is_start_to_read_file` flag. */
  method ReadScriptBody(lines: seq<string>) returns (sql: seq<string>)
    ensures sql == ScriptBody(lines)
  {
    forall x | IsCreateLine(x)
      ensures !IsGoLine(x)
    {
      CreateIsNotGo(x);
    }
    sql := KeepFrom(lines, IsCreateLine, IsGoLine);
  }

  /** One IN-list element: the value in single quotes, not escaped. */
  function QuotedValue(v: string): string {
    "'" + v + "'"
  }

  function QuotedValues(values: seq<string>): (r: seq<string>)
    ensures |r| == |values| && forall i :: 0 <= i < |values| ==> r[i] == QuotedValue(values[i])
  {
    if values == [] then [] else QuotedValues(values[..|values| - 1]) + [QuotedValue(values[|values| - 1])]
  }

  /** `generate_in_string_from_list(values)`: None for no values; otherwise the quoted
      values joined by ',' in parentheses, with no spaces and no IN keyword. */
  method GenerateInString(values: seq<string>) returns (r: Option<string>)
    ensures values == [] ==> r == None
    ensures values != [] ==> r == Some("(" + JoinWith(QuotedValues(values), ",") + ")")
  {
    if values == [] {
      return None;
    }
    var toDelete: Option<string> := None;
    var i := 0;
    while i < |values|
      invariant 0 <= i <= |values|
      invariant i == 0 <==> toDelete.None?
      invariant i > 0 ==> toDelete == Some(JoinWith(QuotedValues(values[..i]), ","))
    {
      var idStr := QuotedValue(values[i]);
      assert QuotedValues(values[..i + 1]) == QuotedValues(values[..i]) + [idStr] by {
        assert values[..i + 1][..i] == values[..i];
      }
      if toDelete.None? || toDelete.value == [] {
        assert i == 0 && values[..1] == [values[0]];
        toDelete := Some(idStr);
      } else {
        JoinWithSnoc(QuotedValues(values[..i]), idStr, ",");
        toDelete := Some(toDelete.value + "," + idStr);
      }
      i := i + 1;
    }
    assert values[..|values|] == values;
    return Some("(" + toDelete.value + ")");
  }

  /** A single value gives "('v')". */
  lemma InStringSingle(v: string)
    ensures "(" + JoinWith(QuotedValues([v]), ",") + ")" == "('" + v + "')"
  {
  }

  /** Two values are separated by a bare ','. */
  lemma InStringPair(v: string, w: string)
    ensures "(" + JoinWith(QuotedValues([v, w]), ",") + ")" == "('" + v + "','" + w + "')"
  {
    assert QuotedValues([v, w]) == [QuotedValue(v), QuotedValue(w)] by {
      assert [v, w][..1] == [v];
    }
    assert [QuotedValue(v), QuotedValue(w)][1..] == [QuotedValue(w)];
  }

  /** SQL Server `QUOTENAME(s)`: brackets around `s`, each ']' doubled. */
  function QuoteName(s: string): (r: string)
    ensures |r| >= 2 && r[0] == '[' && r[|r| - 1] == ']'
  {
    "[" + EscapeBrackets(s) + "]"
  }

  function EscapeBrackets(s: string): string {
    if s == [] then [] else (if s[0] == ']' then "]]" else [s[0]]) + EscapeBrackets(s[1..])
  }

  /** A name without ']' is only wrapped. */
  lemma {:induction false} EscapeBracketsPlain(s: string)
    requires forall i :: 0 <= i < |s| ==> s[i] != ']'
    ensures EscapeBrackets(s) == s
  {
    if s != [] {
      EscapeBracketsPlain(s[1..]);
    }
  }

  /** A row of `sys.objects` joined with its schema; times are whole numbers. */
  datatype CatalogEntry = CatalogEntry(objectId: int, objType: string, schema: string, name: string,
                                       modifyDate: Option<int>, createDate: int)

  /** A row of `get_objects`. */
  datatype ObjectRow = ObjectRow(objectId: int, objType: string, fullName: string, fullNameQuoted: string, lastChangeDate: int)

  function LastChange(e: CatalogEntry): int {
    if e.modifyDate.Some? then e.modifyDate.value else e.createDate
  }

  function RowOf(e: CatalogEntry): ObjectRow {
    ObjectRow(e.objectId, e.objType, e.schema + "." + e.name, QuoteName(e.schema) + "." + QuoteName(e.name), LastChange(e))
  }

  /** The WHERE clause: none without `from_date`; with one, ISNULL(modify_date,
      create_date) >= TRY_CONVERT(date, from_date), where a failed conversion is NULL and
      keeps nothing. `toDate` plays the conversion. */
  predicate Selected(e: CatalogEntry, fromDate: string, toDate: string -> Option<int>) {
    fromDate == [] || (toDate(fromDate).Some? && LastChange(e) >= toDate(fromDate).value)
  }

  /** The rows of the `get_objects` query, in catalog order. */
  function ObjectsQuery(catalog: seq<CatalogEntry>, fromDate: string, toDate: string -> Option<int>): seq<ObjectRow> {
    if catalog == [] then []
    else
      var e := catalog[|catalog| - 1];
      ObjectsQuery(catalog[..|catalog| - 1], fromDate, toDate) + (if Selected(e, fromDate, toDate) then [RowOf(e)] else [])
  }

  /** Without a date every object is listed; with one, exactly the objects changed on or
      after it; each row carries 'schema.name' and '[schema].[name]'. */
  lemma {:induction false} ObjectsQueryMembers(catalog: seq<CatalogEntry>, fromDate: string, toDate: string -> Option<int>, row: ObjectRow)
    ensures row in ObjectsQuery(catalog, fromDate, toDate) <==>
      exists e :: e in catalog && Selected(e, fromDate, toDate) && row == RowOf(e)
  {
    if catalog != [] {
      var init, e := catalog[..|catalog| - 1], catalog[|catalog| - 1];
      ObjectsQueryMembers(init, fromDate, toDate, row);
      assert catalog == init + [e];
      if row == RowOf(e) && Selected(e, fromDate, toDate) {
        assert e in catalog;
      }
    }
  }

  lemma {:induction false} ObjectsQueryAll(catalog: seq<CatalogEntry>, toDate: string -> Option<int>)
    ensures |ObjectsQuery(catalog, "", toDate)| == |catalog|
  {
    if catalog != [] {
      ObjectsQueryAll(catalog[..|catalog| - 1], toDate);
    }
  }
}

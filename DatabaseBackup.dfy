/**
 * `MssqlDatabaseBackup`: a backup directory for one database, filled by mssql-scripter.
 * Five object types go to their own sub-folders, every other type to 'other', and a
 * change-only backup restricts both phases to the objects changed since the last run
 * recorded in the log.
 */
module DatabaseBackup {
  import opened Wrappers
  import opened PyStr
  import Shell
  import DatabaseSql
  import opened MssqlScripter

  /** `__sub_folders`, in dict order. */
  const SUB_FOLDERS: seq<(string, ScripterObjectType)> :=
    [("database", Database), ("tables", Table), ("views", View), ("functions", UserDefinedFunction),
     ("procedures", StoredProcedure)]

  /** `__path_for_other_objects` */
  const OTHER_FOLDER := "other"

  /** The folder of a mapped type. */
  function FolderName(t: ScripterObjectType): Option<string> {
    match t
    case Database => Some("database")
    case Table => Some("tables")
    case View => Some("views")
    case UserDefinedFunction => Some("functions")
    case StoredProcedure => Some("procedures")
    case _ => None
  }

  /** The map holds exactly the five mapped types, each with its folder. */
  lemma SubFoldersTable()
    ensures |SUB_FOLDERS| == 5
    ensures forall j :: 0 <= j < |SUB_FOLDERS| ==> FolderName(SUB_FOLDERS[j].1) == Some(SUB_FOLDERS[j].0)
    ensures forall t :: FolderName(t).Some? ==> exists j :: 0 <= j < |SUB_FOLDERS| && SUB_FOLDERS[j].1 == t
  {
    forall t | FolderName(t).Some?
      ensures exists j :: 0 <= j < |SUB_FOLDERS| && SUB_FOLDERS[j].1 == t
    {
      match t
      case Database => assert SUB_FOLDERS[0].1 == t;
      case Table => assert SUB_FOLDERS[1].1 == t;
      case View => assert SUB_FOLDERS[2].1 == t;
      case UserDefinedFunction => assert SUB_FOLDERS[3].1 == t;
      case StoredProcedure => assert SUB_FOLDERS[4].1 == t;
    }
  }

  /** `[v.value for k, v in __sub_folders.items()]` */
  function TypeValues(entries: seq<(string, ScripterObjectType)>): seq<string> {
    seq(|entries|, j requires 0 <= j < |entries| => entries[j].1.Value())
  }

  /** The exclude list of `script_other_objects` names the five mapped types, in map order. */
  lemma MappedTypeValues()
    ensures TypeValues(SUB_FOLDERS) == ["Database", "Table", "View", "UserDefinedFunction", "StoredProcedure"]
  {
  }

  /** Every type that has its own folder is on that exclude list. */
  lemma MappedTypesExcluded(t: ScripterObjectType)
    requires FolderName(t).Some?
    ensures t.Value() in TypeValues(SUB_FOLDERS)
  {
    SubFoldersTable();
    var j :| 0 <= j < |SUB_FOLDERS| && SUB_FOLDERS[j].1 == t;
    assert TypeValues(SUB_FOLDERS)[j] == t.Value();
  }

  /** The directory name the path setter appends: '<server>_<database>'. */
  function Segment(db: MssqlDatabase): string {
    db.server + "_" + db.database
  }

  /** The `path` setter's stored value, or the `exit(1)` it ends in for an empty or blank
      value. `cwd` is the working directory `os.path.abspath` resolves against. */
  function BackupPath(db: MssqlDatabase, cwd: string, value: Option<string>): Result<string> {
    if value.None? || !Truthy(value.value) || IsBlank(value.value) then Err(SystemExit(1))
    else
      var v := value.value;
      var full := if Norm(Tail(v)) == Norm(db.database) then v else PathJoin(v, Segment(db));
      Ok(AbsPath(cwd, full))
  }

  /** The stored path is absolute, and its last component is the given value's when that
      names the database (trimmed, case-insensitive), and '<server>_<database>' otherwise. */
  lemma BackupPathRule(db: MssqlDatabase, cwd: string, value: Option<string>)
    requires '/' !in Segment(db)
    ensures BackupPath(db, cwd, value).Err? <==> value.None? || IsBlank(value.value)
    ensures BackupPath(db, cwd, value).Ok? && Norm(Tail(value.value)) == Norm(db.database) ==>
      Tail(BackupPath(db, cwd, value).value) == Tail(value.value)
    ensures BackupPath(db, cwd, value).Ok? && Norm(Tail(value.value)) != Norm(db.database) ==>
      Tail(BackupPath(db, cwd, value).value) == Segment(db)
  {
    if value.Some? && value.value == [] {
      StripEmptyIffBlank(value.value);
    }
    if BackupPath(db, cwd, value).Ok? {
      var v := value.value;
      var full := if Norm(Tail(v)) == Norm(db.database) then v else PathJoin(v, Segment(db));
      if !StartsWith(full, "/") {
        TailOfPathJoin(cwd, full);
      }
      TailOfPathJoin(v, Segment(db));
      TailWithoutSlash(Segment(db));
    }
  }

  /** Under an absolute working directory the stored path is absolute. */
  lemma BackupPathAbsolute(db: MssqlDatabase, cwd: string, value: Option<string>)
    requires StartsWith(cwd, "/") && BackupPath(db, cwd, value).Ok?
    ensures StartsWith(BackupPath(db, cwd, value).value, "/")
  {
    var v := value.value;
    var full := if Norm(Tail(v)) == Norm(db.database) then v else PathJoin(v, Segment(db));
    if !StartsWith(full, "/") {
      PathJoinAbsolute(cwd, full);
    }
  }

  /** The setter is not idempotent: storing the stored value again appends a second
      '<server>_<database>' whenever that segment does not itself name the database. */
  lemma BackupPathNotIdempotent(db: MssqlDatabase, cwd: string, value: string)
    requires '/' !in Segment(db) && Norm(Segment(db)) != Norm(db.database)
    requires StartsWith(cwd, "/") && BackupPath(db, cwd, Some(value)).Ok?
    requires Norm(Tail(value)) != Norm(db.database)
    ensures var stored := BackupPath(db, cwd, Some(value)).value;
      BackupPath(db, cwd, Some(stored)) == Ok(PathJoin(stored, Segment(db))) && PathJoin(stored, Segment(db)) != stored
  {
    var stored := BackupPath(db, cwd, Some(value)).value;
    BackupPathRule(db, cwd, Some(value));
    BackupPathAbsolute(db, cwd, Some(value));
    AbsoluteNotBlank(stored);
    PathJoinAbsolute(stored, Segment(db));
    var next := PathJoin(stored, Segment(db));
    assert Segment(db)[0] != '/';
    assert !StartsWith(Segment(db), "/") by {
      assert Segment(db)[..1][0] == Segment(db)[0];
    }
    assert |next| > |stored|;
  }

  // Last-run parsing and the change list.

  const SCRIPTER_TOOL := "mssql-scripter"

  /** `line.split(' ')[0]` */
  function FirstToken(line: string): string {
    SplitOn(line, ' ')[0]
  }

  /** `line.find('mssql-scripter') == 0`, the lines the scan skips. */
  predicate IsToolLine(line: string) {
    StartsWith(line, SCRIPTER_TOOL)
  }

  /** The leading tokens of the lines that are not skipped, in order. */
  function KeptTokens(lines: seq<string>): seq<string> {
    if lines == [] then []
    else KeptTokens(lines[..|lines| - 1]) + (if IsToolLine(lines[|lines| - 1]) then [] else [FirstToken(lines[|lines| - 1])])
  }

  function FirstNonEmpty(ts: seq<string>): (r: Option<string>)
    ensures r.Some? ==> r.value != []
  {
    if ts == [] then None else if ts[0] != [] then Some(ts[0]) else FirstNonEmpty(ts[1..])
  }

  /** The date the scan settles on: the first non-empty token, else the last (empty)
      token assigned, else None. */
  function LastRunOf(lines: seq<string>): Option<string> {
    var ts := KeptTokens(lines);
    if ts == [] then None else if FirstNonEmpty(ts).Some? then FirstNonEmpty(ts) else Some("")
  }

  /** `__get_last_run_time()`; `log` is the log file's lines, None when it is absent. */
  function LastRun(log: Option<seq<string>>): Option<string> {
    if log.None? then None else LastRunOf(log.value)
  }

  lemma {:induction false} FirstNonEmptyAppend(a: seq<string>, b: seq<string>)
    ensures FirstNonEmpty(a).Some? ==> FirstNonEmpty(a + b) == FirstNonEmpty(a)
    ensures FirstNonEmpty(a).None? ==> FirstNonEmpty(a + b) == FirstNonEmpty(b)
  {
    if a != [] {
      DropFirstOfAppend(a, b);
      FirstNonEmptyAppend(a[1..], b);
    } else {
      assert a + b == b;
    }
  }

  /** The scan gives None exactly when the log is absent or every line is skipped. */
  lemma {:induction false} LastRunNone(lines: seq<string>)
    ensures LastRunOf(lines) == None <==> forall l :: l in lines ==> IsToolLine(l)
  {
    if lines != [] {
      var init := lines[..|lines| - 1];
      LastRunNone(init);
      assert lines == init + [lines[|lines| - 1]];
    }
  }

  lemma {:induction false} KeptTokensEmptyTokens(lines: seq<string>, k: nat)
    requires k <= |lines|
    requires forall j :: 0 <= j < k ==> IsToolLine(lines[j]) || FirstToken(lines[j]) == []
    ensures FirstNonEmpty(KeptTokens(lines[..k])).None?
  {
    if k > 0 {
      var init := lines[..k - 1];
      assert lines[..k][..k - 1] == init;
      assert init == lines[..k - 1][..k - 1];
      KeptTokensEmptyTokens(lines, k - 1);
      var last := if IsToolLine(lines[k - 1]) then [] else [FirstToken(lines[k - 1])];
      FirstNonEmptyAppend(KeptTokens(init), last);
    }
  }

  lemma {:induction false} KeptTokensAppend(a: seq<string>, b: seq<string>)
    ensures KeptTokens(a + b) == KeptTokens(a) + KeptTokens(b)
    decreases |b|
  {
    if b == [] {
      assert a + b == a;
    } else {
      var b' := b[..|b| - 1];
      DropLastOfAppend(a, b);
      KeptTokensAppend(a, b');
    }
  }

  /** The date is the leading token of the first line that is not skipped and whose
      leading token is non-empty. */
  lemma LastRunFirstDate(lines: seq<string>, k: nat)
    requires k < |lines| && !IsToolLine(lines[k]) && FirstToken(lines[k]) != []
    requires forall j :: 0 <= j < k ==> IsToolLine(lines[j]) || FirstToken(lines[j]) == []
    ensures LastRunOf(lines) == Some(FirstToken(lines[k]))
  {
    KeptTokensEmptyTokens(lines, k);
    var pre := lines[..k];
    var rest := lines[k + 1..];
    SplitAt(lines, k);
    KeptTokensAppend(pre + [lines[k]], rest);
    KeptTokensAppend(pre, [lines[k]]);
    assert KeptTokens([lines[k]]) == [FirstToken(lines[k])] by {
      assert [lines[k]][..0] == [];
    }
    Assoc(KeptTokens(pre), [FirstToken(lines[k])], KeptTokens(rest));
    FirstNonEmptyAppend(KeptTokens(pre), [FirstToken(lines[k])] + KeptTokens(rest));
  }

  /** A skipped line leaves the scan where it was. */
  lemma LastRunSkip(pre: seq<string>, line: string)
    requires IsToolLine(line)
    ensures LastRunOf(pre + [line]) == LastRunOf(pre)
  {
    KeptTokensAppend(pre, [line]);
    assert KeptTokens([line]) == [] by {
      assert [line][..0] == [];
    }
    assert KeptTokens(pre) + [] == KeptTokens(pre);
  }

  /** While the date is unset or empty, a kept line sets it to the line's leading token. */
  lemma LastRunAssign(pre: seq<string>, line: string)
    requires !IsToolLine(line) && (LastRunOf(pre).None? || LastRunOf(pre) == Some(""))
    ensures LastRunOf(pre + [line]) == Some(FirstToken(line))
  {
    var ts := KeptTokens(pre);
    var tok := FirstToken(line);
    KeptTokensAppend(pre, [line]);
    assert KeptTokens([line]) == [tok] by {
      assert [line][..0] == [];
    }
    FirstNonEmptyAppend(ts, [tok]);
    assert [tok][1..] == [];
  }

  /** Once the date is non-empty, the scan stops: the remaining lines do not change it. */
  lemma LastRunSettled(pre: seq<string>, rest: seq<string>)
    requires LastRunOf(pre).Some? && LastRunOf(pre).value != []
    ensures LastRunOf(pre + rest) == LastRunOf(pre)
  {
    KeptTokensAppend(pre, rest);
    FirstNonEmptyAppend(KeptTokens(pre), KeptTokens(rest));
  }

  /** `from_date` of `get_objects`: a falsy date means no filter. */
  function FromDate(lastRun: Option<string>): string {
    if lastRun.None? then "" else lastRun.value
  }

  /** `[obj['FullName'] for obj in rows]` */
  function FullNames(rows: seq<DatabaseSql.ObjectRow>): (r: seq<string>)
    ensures |r| == |rows| && forall i :: 0 <= i < |rows| ==> r[i] == rows[i].fullName
  {
    if rows == [] then [] else FullNames(rows[..|rows| - 1]) + [rows[|rows| - 1].fullName]
  }

  /** The names `get_changes_from_last_run` returns for a catalog and a log. */
  function Changes(catalog: seq<DatabaseSql.CatalogEntry>, toDate: string -> Option<int>, log: Option<seq<string>>)
    : seq<string>
  {
    FullNames(DatabaseSql.ObjectsQuery(catalog, FromDate(LastRun(log)), toDate))
  }

  /** A name is reported exactly when an object with that 'schema.name' passes the
      last-run filter; without a usable last run every object is reported. */
  lemma ChangesMembers(catalog: seq<DatabaseSql.CatalogEntry>, toDate: string -> Option<int>, log: Option<seq<string>>)
    ensures forall x :: x in Changes(catalog, toDate, log) <==>
      exists e :: e in catalog && DatabaseSql.Selected(e, FromDate(LastRun(log)), toDate) && e.schema + "." + e.name == x
    ensures FromDate(LastRun(log)) == [] ==> |Changes(catalog, toDate, log)| == |catalog|
  {
    var from := FromDate(LastRun(log));
    var rows := DatabaseSql.ObjectsQuery(catalog, from, toDate);
    forall x
      ensures x in Changes(catalog, toDate, log) <==>
        exists e :: e in catalog && DatabaseSql.Selected(e, from, toDate) && e.schema + "." + e.name == x
    {
      if x in Changes(catalog, toDate, log) {
        var i :| 0 <= i < |rows| && FullNames(rows)[i] == x;
        DatabaseSql.ObjectsQueryMembers(catalog, from, toDate, rows[i]);
      }
      if e :| e in catalog && DatabaseSql.Selected(e, from, toDate) && e.schema + "." + e.name == x {
        DatabaseSql.ObjectsQueryMembers(catalog, from, toDate, DatabaseSql.RowOf(e));
        var i :| 0 <= i < |rows| && rows[i] == DatabaseSql.RowOf(e);
        assert FullNames(rows)[i] == x;
      }
    }
    if from == [] {
      DatabaseSql.ObjectsQueryAll(catalog, toDate);
    }
  }

  // The commands.

  /** The keyword arguments of `__script_objects_by_type_to_path`. */
  function TypeOptions(filePath: string, t: ScripterObjectType, dropCreate: bool, filePerObject: bool, inc: ListArg)
    : ScripterOptions
  {
    DEFAULTS.(scriptDropCreate := dropCreate, filePerObject := filePerObject, filePath := Some(filePath),
              includeTypes := Text(t.Value()), includeObjects := inc)
  }

  /** The keyword arguments of `script_other_objects`. */
  function OtherOptions(filePath: string, dropCreate: bool, filePerObject: bool, inc: ListArg): ScripterOptions {
    DEFAULTS.(scriptDropCreate := dropCreate, filePerObject := filePerObject, filePath := Some(filePath),
              excludeTypes := Items(TypeValues(SUB_FOLDERS)), includeObjects := inc,
              checkForExistence := true, changeTracking := true)
  }

  /** The flags both kinds of backup command start with, up to the output directory. */
  function LeadArgs(dir: string, dropCreate: bool, filePerObject: bool): seq<Arg> {
    [Flag(ExcludeHeaders)]
      + (if dropCreate then [Flag(ScriptDropCreate), Flag(CheckForExistence)] else [])
      + (if filePerObject then [Flag(FilePerObject)] else [])
      + [Flag(FilePath), Value(dir)]
  }

  /** The arguments of a folder command, written out: one type, the given objects. */
  function FolderArgs(dir: string, t: ScripterObjectType, dropCreate: bool, filePerObject: bool, inc: ListArg)
    : seq<Arg>
  {
    LeadArgs(dir, dropCreate, filePerObject) + [Flag(IncludeTypes), Value(t.Value())] + Block(IncludeObjects, inc)
  }

  /** The arguments of the 'other' command, written out: the five mapped types excluded,
      and check-for-existence among the trailing flags (a second time with drop-create). */
  function OtherArgs(dir: string, dropCreate: bool, filePerObject: bool, inc: ListArg): seq<Arg> {
    LeadArgs(dir, dropCreate, filePerObject)
      + [Flag(ExcludeTypes)] + Values(["Database", "Table", "View", "UserDefinedFunction", "StoredProcedure"])
      + Block(IncludeObjects, inc) + [Flag(CheckForExistence), Flag(ChangeTracking)]
  }

  /** The commands issued for a list of argument lists, one per list, in order. */
  function Commands(db: MssqlDatabase, argLists: seq<seq<Arg>>): seq<seq<string>> {
    if argLists == [] then []
    else Commands(db, argLists[..|argLists| - 1]) + [ActionCommand(db, Render(argLists[|argLists| - 1]), true)]
  }

  /** One argument list gives one command. */
  lemma CommandsSingle(db: MssqlDatabase, args: seq<Arg>)
    ensures Commands(db, [args]) == [ActionCommand(db, Render(args), true)]
  {
    assert [args][..0] == [];
  }

  lemma {:induction false} CommandsAppend(db: MssqlDatabase, a: seq<seq<Arg>>, b: seq<seq<Arg>>)
    ensures Commands(db, a + b) == Commands(db, a) + Commands(db, b)
    decreases |b|
  {
    if b == [] {
      assert a + b == a;
    } else {
      var b' := b[..|b| - 1];
      DropLastOfAppend(a, b);
      CommandsAppend(db, a, b');
    }
  }

  /** One command per argument list, each running mssql-scripter with that list. */
  lemma {:induction false} CommandsEach(db: MssqlDatabase, argLists: seq<seq<Arg>>)
    ensures |Commands(db, argLists)| == |argLists|
    ensures forall j :: 0 <= j < |argLists| ==> Commands(db, argLists)[j] == ActionCommand(db, Render(argLists[j]), true)
  {
    if argLists != [] {
      CommandsEach(db, argLists[..|argLists| - 1]);
    }
  }

  /** The argument list `__script_objects_by_type_to_path(t, …)` runs with under an
      absolute stored path: none for an unmapped type, otherwise one writing to
      '<path>/<folder>'. */
  function TypeArgs(path: string, t: ScripterObjectType, dropCreate: bool, filePerObject: bool, inc: ListArg)
    : seq<seq<Arg>>
  {
    if FolderName(t).None? then []
    else [FolderArgs(PathJoin(path, FolderName(t).value), t, dropCreate, filePerObject, inc)]
  }

  /** The argument lists of `script_objects_to_folders` for the given map entries. */
  function FolderArgLists(path: string, entries: seq<(string, ScripterObjectType)>, inc: ListArg): seq<seq<Arg>> {
    if entries == [] then []
    else FolderArgLists(path, entries[..|entries| - 1], inc) + TypeArgs(path, entries[|entries| - 1].1, true, true, inc)
  }

  /** The argument list `script_other_objects(folder, …)` runs with under an absolute
      stored path: none for a falsy folder (the ValueError is logged), otherwise one
      writing to '<path>/<folder>'. */
  function OtherArgLists(path: string, folder: Option<string>, dropCreate: bool, filePerObject: bool, inc: ListArg)
    : seq<seq<Arg>>
  {
    if folder.None? || !Truthy(folder.value) then []
    else [OtherArgs(PathJoin(path, folder.value), dropCreate, filePerObject, inc)]
  }

  /** The argument lists of `do_full_backup` for the change list `changes`. */
  function BackupArgLists(path: string, changedOnly: bool, changes: seq<string>): seq<seq<Arg>> {
    if changedOnly then
      if |changes| > 0 then
        FolderArgLists(path, SUB_FOLDERS, Items(changes)) + OtherArgLists(path, Some(OTHER_FOLDER), true, true, Items(changes))
      else []
    else FolderArgLists(path, SUB_FOLDERS, NoList) + OtherArgLists(path, Some(OTHER_FOLDER), true, true, NoList)
  }
  lemma MappedValueNonEmpty(t: ScripterObjectType)
    ensures t.Value() != []
  {
    match t
    case UserDefinedFunction => assert t.Value()[0] == 'U';
    case StoredProcedure => assert t.Value()[0] == 'S';
    case View => assert t.Value()[0] == 'V';
    case Table => assert t.Value()[0] == 'T';
    case Database => assert t.Value()[0] == 'D';
    case Schema => assert t.Value()[0] == 'S';
    case ExtendedProperty => assert t.Value()[0] == 'E';
    case FullTextCatalog => assert t.Value()[0] == 'F';
    case XmlSchemaCollection => assert t.Value()[0] == 'X';
    case UserDefinedDataType => assert t.Value()[0] == 'U';
  }

  /** The general builder's leading flags for a backup command are `LeadArgs`. */
  lemma LeadArgsBuilt(o: ScripterOptions, dir: string)
    requires o.addDefaultOptions && !o.scriptCreate
    ensures LeadingArgs(o, [Flag(FilePath), Value(dir)]) == LeadArgs(dir, o.scriptDropCreate, o.filePerObject)
  {
  }

  /** Under an absolute stored path the builder, given the folder path
      `__script_objects_by_type_to_path` computes, yields `FolderArgs` for '<path>/<folder>'. */
  lemma FolderArgsShape(path: string, t: ScripterObjectType, dropCreate: bool, filePerObject: bool, inc: ListArg)
    requires StartsWith(path, "/") && FolderName(t).Some? && inc != BadType
    ensures var dir := PathJoin(path, FolderName(t).value);
      ScripterArgs(Some(path), TypeOptions(PathJoin(path, dir), t, dropCreate, filePerObject, inc))
        == Ok(FolderArgs(dir, t, dropCreate, filePerObject, inc))
  {
    var dir := PathJoin(path, FolderName(t).value);
    PathJoinAbsolute(path, FolderName(t).value);
    assert PathJoin(path, dir) == dir;
    AbsoluteNotBlank(dir);
    var o := TypeOptions(dir, t, dropCreate, filePerObject, inc);
    var pathArgs := [Flag(FilePath), Value(dir)];
    MappedValueNonEmpty(t);
    TypeBlocks(path, dir, o, t.Value());
    BuildArgsBlocks(o, pathArgs);
    var lead := LeadingArgs(o, pathArgs);
    LeadArgsBuilt(o, dir);
    DropEmpties(lead, [Flag(IncludeTypes), Value(t.Value())], Block(IncludeObjects, inc));
  }

  /** Empty pieces vanish from a concatenation. */
  lemma DropEmpties<T>(a: seq<T>, b: seq<T>, c: seq<T>)
    ensures a + b + [] + c + [] == a + b + c
  {
  }

  /** The blocks the builder produces from the options of one type's folder. */
  lemma TypeBlocks(path: string, dir: string, o: ScripterOptions, v: string)
    requires PathJoin(path, dir) == dir && dir != [] && !IsBlank(dir) && v != []
    requires o.filePath == Some(dir) && o.includeTypes == Text(v) && o.excludeTypes == NoList
    requires !o.checkForExistence && !o.changeTracking && !o.dataOnly && !o.schemaAndData && !o.append
    ensures FilePathArgs(Some(path), o.filePath) == Ok([Flag(FilePath), Value(dir)])
    ensures TrailingArgs(o) == []
    ensures Block(IncludeTypes, o.includeTypes) == [Flag(IncludeTypes), Value(v)]
    ensures Block(ExcludeTypes, o.excludeTypes) == []
  {
  }

  /** Under an absolute stored path the directory `script_other_objects` computes is
      '<path>/<folder>', and the builder yields `OtherArgs` for it. */
  lemma OtherArgsShape(path: string, cwd: string, folder: string, dropCreate: bool, filePerObject: bool, inc: ListArg)
    requires StartsWith(path, "/") && folder != [] && inc != BadType
    ensures var dir := AbsPath(cwd, PathJoin(path, folder));
      dir == PathJoin(path, folder)
      && ScripterArgs(Some(path), OtherOptions(dir, dropCreate, filePerObject, inc))
           == Ok(OtherArgs(dir, dropCreate, filePerObject, inc))
  {
    PathJoinAbsolute(path, folder);
    var dir := PathJoin(path, folder);
    assert AbsPath(cwd, dir) == dir;
    assert PathJoin(path, dir) == dir;
    AbsoluteNotBlank(dir);
    OtherArgsBuilt(path, dir, dropCreate, filePerObject, inc);
    MappedTypeValues();
  }

  /** The body of `__script_objects_by_type_to_path` for a mapped type, given the folder
      path it computed. */
  method ScriptTypeFolder(db: MssqlDatabase, path: string, dir: string, t: ScripterObjectType, dropCreate: bool,
                          filePerObject: bool, inc: ListArg, runner: Shell.Runner)
    requires StartsWith(path, "/") && FolderName(t).Some? && dir == PathJoin(path, FolderName(t).value) && inc != BadType
    modifies runner
    ensures runner.issued == old(runner.issued) + Commands(db, TypeArgs(path, t, dropCreate, filePerObject, inc))
  {
    var args := GetScripterArgs(Some(path), TypeOptions(PathJoin(path, dir), t, dropCreate, filePerObject, inc));
    FolderArgsShape(path, t, dropCreate, filePerObject, inc);
    CommandsSingle(db, args.value);
    var _ := DoAction(db, Render(args.value), true, runner);
  }

  /** The body of `script_other_objects` for a truthy folder, on the stored path and the
      working directory. */
  method ScriptOtherFolder(db: MssqlDatabase, path: string, cwd: string, folder: string, dropCreate: bool,
                           filePerObject: bool, inc: ListArg, runner: Shell.Runner)
    requires StartsWith(path, "/") && Truthy(folder) && inc != BadType
    modifies runner
    ensures runner.issued == old(runner.issued) + Commands(db, OtherArgLists(path, Some(folder), dropCreate, filePerObject, inc))
  {
    var dir := AbsPath(cwd, PathJoin(path, folder));
    var args := GetScripterArgs(Some(path), OtherOptions(dir, dropCreate, filePerObject, inc));
    OtherCommand(db, path, cwd, folder, dropCreate, filePerObject, inc);
    var _ := DoAction(db, Render(args.value), true, runner);
  }

  /** The one command `script_other_objects` issues for a truthy folder. */
  lemma OtherCommand(db: MssqlDatabase, path: string, cwd: string, folder: string, dropCreate: bool,
                     filePerObject: bool, inc: ListArg)
    requires StartsWith(path, "/") && Truthy(folder) && inc != BadType
    ensures var args := ScripterArgs(Some(path), OtherOptions(AbsPath(cwd, PathJoin(path, folder)), dropCreate, filePerObject, inc));
      args.Ok? && Commands(db, OtherArgLists(path, Some(folder), dropCreate, filePerObject, inc))
                  == [ActionCommand(db, Render(args.value), true)]
  {
    OtherArgsShape(path, cwd, folder, dropCreate, filePerObject, inc);
    var args := ScripterArgs(Some(path), OtherOptions(AbsPath(cwd, PathJoin(path, folder)), dropCreate, filePerObject, inc));
    assert OtherArgLists(path, Some(folder), dropCreate, filePerObject, inc) == [args.value];
    CommandsSingle(db, args.value);
  }

  lemma OtherArgsBuilt(path: string, dir: string, dropCreate: bool, filePerObject: bool, inc: ListArg)
    requires PathJoin(path, dir) == dir && dir != [] && !IsBlank(dir) && inc != BadType
    ensures ScripterArgs(Some(path), OtherOptions(dir, dropCreate, filePerObject, inc))
      == Ok(LeadArgs(dir, dropCreate, filePerObject) + [Flag(ExcludeTypes)] + Values(TypeValues(SUB_FOLDERS))
            + Block(IncludeObjects, inc) + [Flag(CheckForExistence), Flag(ChangeTracking)])
  {
    var e := SUB_FOLDERS;
    assert TypeValues(e) == TypeValues(e[..|e| - 1]) + [e[|e| - 1].1.Value()];
    ExcludingBuilt(path, dir, OtherOptions(dir, dropCreate, filePerObject, inc), TypeValues(e));
  }

  /** The builder on the options of `script_other_objects`, for any non-empty exclude
      list. */
  lemma ExcludingBuilt(path: string, dir: string, o: ScripterOptions, xs: seq<string>)
    requires PathJoin(path, dir) == dir && dir != [] && !IsBlank(dir) && o.includeObjects != BadType && xs != []
    requires o == DEFAULTS.(scriptDropCreate := o.scriptDropCreate, filePerObject := o.filePerObject,
                            filePath := Some(dir), excludeTypes := Items(xs), includeObjects := o.includeObjects,
                            checkForExistence := true, changeTracking := true)
    ensures ScripterArgs(Some(path), o)
      == Ok(LeadArgs(dir, o.scriptDropCreate, o.filePerObject) + [Flag(ExcludeTypes)] + Values(xs)
            + Block(IncludeObjects, o.includeObjects) + [Flag(CheckForExistence), Flag(ChangeTracking)])
  {
    var pathArgs := [Flag(FilePath), Value(dir)];
    ExcludingBlocks(path, dir, o, xs);
    BuildArgsBlocks(o, pathArgs);
    var lead := LeadingArgs(o, pathArgs);
    LeadArgsBuilt(o, dir);
    assert lead + [] == lead;
    Assoc(lead, [Flag(ExcludeTypes)], Values(xs));
  }

  /** The blocks the builder produces from those options. */
  lemma ExcludingBlocks(path: string, dir: string, o: ScripterOptions, xs: seq<string>)
    requires PathJoin(path, dir) == dir && dir != [] && !IsBlank(dir) && xs != []
    requires o.filePath == Some(dir) && o.includeTypes == NoList && o.excludeTypes == Items(xs)
    requires o.checkForExistence && o.changeTracking && !o.dataOnly && !o.schemaAndData && !o.append
    ensures FilePathArgs(Some(path), o.filePath) == Ok([Flag(FilePath), Value(dir)])
    ensures TrailingArgs(o) == [Flag(CheckForExistence), Flag(ChangeTracking)]
    ensures Block(IncludeTypes, o.includeTypes) == []
    ensures Block(ExcludeTypes, o.excludeTypes) == [Flag(ExcludeTypes)] + Values(xs)
  {
  }

  lemma FolderArgListsSnoc(path: string, entries: seq<(string, ScripterObjectType)>, i: nat, inc: ListArg)
    requires i < |entries|
    ensures FolderArgLists(path, entries[..i + 1], inc)
         == FolderArgLists(path, entries[..i], inc) + TypeArgs(path, entries[i].1, true, true, inc)
  {
    assert entries[..i + 1][..i] == entries[..i];
  }

  /** The five folder argument lists, in map order. */
  lemma FolderArgListsOfMap(path: string, inc: ListArg)
    ensures FolderArgLists(path, SUB_FOLDERS, inc)
      == [FolderArgs(PathJoin(path, "database"), Database, true, true, inc),
          FolderArgs(PathJoin(path, "tables"), Table, true, true, inc),
          FolderArgs(PathJoin(path, "views"), View, true, true, inc),
          FolderArgs(PathJoin(path, "functions"), UserDefinedFunction, true, true, inc),
          FolderArgs(PathJoin(path, "procedures"), StoredProcedure, true, true, inc)]
  {
    var e := SUB_FOLDERS;
    assert e[0].1 == Database && e[1].1 == Table && e[2].1 == View;
    assert e[3].1 == UserDefinedFunction && e[4].1 == StoredProcedure;
    FolderArgListsOfFive(path, e, inc);
  }

  /** The argument list of one mapped type. */
  function MappedArgs(path: string, t: ScripterObjectType, inc: ListArg): seq<Arg>
    requires FolderName(t).Some?
  {
    FolderArgs(PathJoin(path, FolderName(t).value), t, true, true, inc)
  }

  /** Five mapped entries give their five argument lists, in order. */
  lemma FolderArgListsOfFive(path: string, e: seq<(string, ScripterObjectType)>, inc: ListArg)
    requires |e| == 5 && forall i :: 0 <= i < 5 ==> FolderName(e[i].1).Some?
    ensures FolderArgLists(path, e, inc)
      == [MappedArgs(path, e[0].1, inc), MappedArgs(path, e[1].1, inc), MappedArgs(path, e[2].1, inc),
          MappedArgs(path, e[3].1, inc), MappedArgs(path, e[4].1, inc)]
  {
    assert e[..0] == [];
    forall i | 0 <= i < 5
      ensures FolderArgLists(path, e[..i + 1], inc) == FolderArgLists(path, e[..i], inc) + [MappedArgs(path, e[i].1, inc)]
    {
      FolderArgListsSnoc(path, e, i, inc);
    }
    assert e[..5] == e;
    FiveSnocs(FolderArgLists(path, e[..0], inc), FolderArgLists(path, e[..1], inc), FolderArgLists(path, e[..2], inc),
              FolderArgLists(path, e[..3], inc), FolderArgLists(path, e[..4], inc), FolderArgLists(path, e[..5], inc),
              MappedArgs(path, e[0].1, inc), MappedArgs(path, e[1].1, inc), MappedArgs(path, e[2].1, inc),
              MappedArgs(path, e[3].1, inc), MappedArgs(path, e[4].1, inc));
  }

  /** Five one-element extensions of the empty sequence make the five-element sequence. */
  lemma FiveSnocs<T>(l0: seq<T>, l1: seq<T>, l2: seq<T>, l3: seq<T>, l4: seq<T>, l5: seq<T>, a: T, b: T, c: T, d: T, f: T)
    requires l0 == [] && l1 == l0 + [a] && l2 == l1 + [b] && l3 == l2 + [c] && l4 == l3 + [d] && l5 == l4 + [f]
    ensures l5 == [a, b, c, d, f]
  {
  }

  /** `do_full_backup` runs nothing in change-only mode without changes; otherwise the
      five folder commands in map order, each writing its type to its folder, and then
      the 'other' command writing to '<path>/other', all restricted to the changes in
      change-only mode and unrestricted otherwise. */
  lemma BackupArgListsShape(path: string, changedOnly: bool, changes: seq<string>)
    ensures changedOnly && changes == [] ==> BackupArgLists(path, changedOnly, changes) == []
    ensures !(changedOnly && changes == []) ==>
      var inc := if changedOnly then Items(changes) else NoList;
      BackupArgLists(path, changedOnly, changes)
        == [FolderArgs(PathJoin(path, "database"), Database, true, true, inc),
            FolderArgs(PathJoin(path, "tables"), Table, true, true, inc),
            FolderArgs(PathJoin(path, "views"), View, true, true, inc),
            FolderArgs(PathJoin(path, "functions"), UserDefinedFunction, true, true, inc),
            FolderArgs(PathJoin(path, "procedures"), StoredProcedure, true, true, inc),
            OtherArgs(PathJoin(path, "other"), true, true, inc)]
  {
    if !(changedOnly && changes == []) {
      var inc := if changedOnly then Items(changes) else NoList;
      FolderArgListsOfMap(path, inc);
      assert OTHER_FOLDER != [];
    }
  }

  /** The arguments `script_all_objects` builds by hand; a blank path means the stored
      path. */
  function AllObjectsArgs(stored: string, path: Option<string>, dropCreate: bool, filePerObject: bool): seq<Arg> {
    (if dropCreate then [Flag(ScriptDropCreate), Flag(CheckForExistence)] else [Flag(ScriptCreate)])
      + (if filePerObject then [Flag(FilePerObject)] else [])
      + [Flag(FilePath), Value(if path.None? || IsBlank(path.value) then stored else path.value)]
  }

  /** `script_all_objects` builds what the general builder builds without default options
      for an absolute target (the defaults are added when the command runs); it differs
      for a relative path, which it passes on without joining. */
  lemma AllObjectsMatchesBuilder(stored: string, path: Option<string>, dropCreate: bool, filePerObject: bool)
    requires StartsWith(stored, "/")
    requires path.None? || IsBlank(path.value) || StartsWith(path.value, "/")
    ensures var target := if path.None? || IsBlank(path.value) then stored else path.value;
      ScripterArgs(Some(stored), DEFAULTS.(addDefaultOptions := false, scriptCreate := !dropCreate,
                                           scriptDropCreate := dropCreate, filePerObject := filePerObject,
                                           filePath := Some(target)))
        == Ok(AllObjectsArgs(stored, path, dropCreate, filePerObject))
  {
    var target := if path.None? || IsBlank(path.value) then stored else path.value;
    AbsoluteNotBlank(target);
    assert PathJoin(stored, target) == target;
    var o := DEFAULTS.(addDefaultOptions := false, scriptCreate := !dropCreate, scriptDropCreate := dropCreate,
                       filePerObject := filePerObject, filePath := Some(target));
    var pathArgs := [Flag(FilePath), Value(target)];
    assert FilePathArgs(Some(stored), o.filePath) == Ok(pathArgs);
    BuildArgsBlocks(o, pathArgs);
    assert TrailingArgs(o) == [];
    assert Block(IncludeTypes, o.includeTypes) == [] && Block(ExcludeTypes, o.excludeTypes) == [];
    assert Block(IncludeObjects, o.includeObjects) == [];
    var lead := LeadingArgs(o, pathArgs);
    assert ScripterArgs(Some(stored), o) == Ok(lead + [] + [] + [] + []);
    assert lead == AllObjectsArgs(stored, path, dropCreate, filePerObject);
    assert lead + [] + [] + [] + [] == lead;
  }

  /** The keyword arguments of `__get_sql_full_scripted_database`. */
  const FULL_SCRIPT_OPTIONS := DEFAULTS.(scriptDropCreate := true, checkForExistence := true, changeTracking := true)

  /** The whole database is scripted to standard output: the default options,
      drop-create with its check-for-existence, no file path, and check-for-existence
      and change-tracking once more at the end. */
  lemma FullScriptArgs(path: Option<string>)
    ensures ScripterArgs(path, FULL_SCRIPT_OPTIONS)
      == Ok(DEFAULT_OPTIONS + [Flag(ScriptDropCreate), Flag(CheckForExistence), Flag(CheckForExistence), Flag(ChangeTracking)])
  {
    var o := FULL_SCRIPT_OPTIONS;
    BuildArgsBlocks(o, []);
    assert LeadingArgs(o, []) == DEFAULT_OPTIONS + [Flag(ScriptDropCreate), Flag(CheckForExistence)];
    assert TrailingArgs(o) == [Flag(CheckForExistence), Flag(ChangeTracking)];
    assert Block(IncludeTypes, NoList) == [] && Block(ExcludeTypes, NoList) == [] && Block(IncludeObjects, NoList) == [];
    assert FilePathArgs(path, o.filePath) == Ok([]);
    var lead := DEFAULT_OPTIONS + [Flag(ScriptDropCreate), Flag(CheckForExistence)];
    var trail: seq<Arg> := [Flag(CheckForExistence), Flag(ChangeTracking)];
    assert ScripterArgs(path, o) == Ok(lead + [] + [] + [] + trail);
    assert lead + [] + [] + [] + trail == lead + trail;
    Assoc(DEFAULT_OPTIONS, [Flag(ScriptDropCreate), Flag(CheckForExistence)], trail);
    assert [Flag(ScriptDropCreate), Flag(CheckForExistence)] + trail
        == [Flag(ScriptDropCreate), Flag(CheckForExistence), Flag(CheckForExistence), Flag(ChangeTracking)];
  }

  /** A backup of one database under a stored directory `path`; `cwd` is the process's
      working directory. */
  class MssqlDatabaseBackup {
    const database: MssqlDatabase
    const cwd: string
    var path: string

    constructor (database: MssqlDatabase, cwd: string)
      ensures this.database == database && this.cwd == cwd && path == ""
    {
      this.database := database;
      this.cwd := cwd;
      path := "";
    }

    /** The `path` setter. */
    method SetPath(value: Option<string>) returns (r: Outcome)
      modifies this
      ensures r.Ok? <==> BackupPath(database, cwd, value).Ok?
      ensures r.Err? ==> r.error == BackupPath(database, cwd, value).error && path == old(path)
      ensures r.Ok? ==> path == BackupPath(database, cwd, value).value
    {
      if value.None? || !Truthy(value.value) || value.value == [] || IsBlank(value.value) {
        return Err(SystemExit(1));
      }
      var v := value.value;
      var parts := Tail(v);
      var full := v;
      if Norm(parts) != Norm(database.database) {
        full := PathJoin(v, Segment(database));
      }
      path := AbsPath(cwd, full);
      return Ok(());
    }

    /** `__get_folder_by_mssqlscript_object_type(t, is_abspath)` */
    method FolderFor(t: ScripterObjectType, isAbsPath: bool) returns (r: Option<string>)
      ensures FolderName(t).None? ==> r == None
      ensures FolderName(t).Some? ==>
        r == Some(if isAbsPath then PathJoin(path, FolderName(t).value) else FolderName(t).value)
    {
      SubFoldersTable();
      var folder := "";
      var i := 0;
      while i < |SUB_FOLDERS|
        invariant 0 <= i <= |SUB_FOLDERS|
        invariant (exists j :: 0 <= j < i && SUB_FOLDERS[j].1 == t) ==> FolderName(t).Some? && folder == FolderName(t).value
        invariant !(exists j :: 0 <= j < i && SUB_FOLDERS[j].1 == t) ==> folder == ""
      {
        var (k, v) := SUB_FOLDERS[i];
        if v == t {
          folder := k;
        }
        i := i + 1;
      }
      if folder == "" {
        return None;
      }
      if isAbsPath {
        return Some(PathJoin(path, folder));
      }
      return Some(folder);
    }

    /** `__script_objects_by_type_to_path(t, is_script_drop_create, is_file_per_object,
        include_objects)` */
    method ScriptObjectsByTypeToPath(t: ScripterObjectType, dropCreate: bool, filePerObject: bool, inc: ListArg,
                                     runner: Shell.Runner)
      requires StartsWith(path, "/") && inc != BadType
      modifies runner
      ensures runner.issued == old(runner.issued) + Commands(database, TypeArgs(path, t, dropCreate, filePerObject, inc))
    {
      var folder := FolderFor(t, true);
      if folder.None? {
        return;
      }
      ScriptTypeFolder(database, path, folder.value, t, dropCreate, filePerObject, inc, runner);
    }

    /** `script_objects_to_folders(include_objects)` */
    method ScriptObjectsToFolders(inc: ListArg, runner: Shell.Runner)
      requires StartsWith(path, "/") && inc != BadType
      modifies runner
      ensures runner.issued == old(runner.issued) + Commands(database, FolderArgLists(path, SUB_FOLDERS, inc))
    {
      var i := 0;
      while i < |SUB_FOLDERS|
        invariant 0 <= i <= |SUB_FOLDERS|
        invariant runner.issued == old(runner.issued) + Commands(database, FolderArgLists(path, SUB_FOLDERS[..i], inc))
      {
        ghost var done := Commands(database, FolderArgLists(path, SUB_FOLDERS[..i], inc));
        ghost var next := Commands(database, TypeArgs(path, SUB_FOLDERS[i].1, true, true, inc));
        FolderArgListsSnoc(path, SUB_FOLDERS, i, inc);
        CommandsAppend(database, FolderArgLists(path, SUB_FOLDERS[..i], inc), TypeArgs(path, SUB_FOLDERS[i].1, true, true, inc));
        ScriptObjectsByTypeToPath(SUB_FOLDERS[i].1, true, true, inc, runner);
        Assoc(old(runner.issued), done, next);
        i := i + 1;
      }
      assert SUB_FOLDERS[..|SUB_FOLDERS|] == SUB_FOLDERS;
    }

    /** `script_other_objects(path, is_script_drop_create, is_file_per_object,
        included_objects)`; errors are logged and swallowed. */
    method ScriptOtherObjects(folder: Option<string>, dropCreate: bool, filePerObject: bool, inc: ListArg,
                              runner: Shell.Runner)
      requires StartsWith(path, "/") && inc != BadType
      modifies runner
      ensures runner.issued == old(runner.issued) + Commands(database, OtherArgLists(path, folder, dropCreate, filePerObject, inc))
    {
      if folder.None? || !Truthy(folder.value) {
        return;
      }
      ScriptOtherFolder(database, path, cwd, folder.value, dropCreate, filePerObject, inc, runner);
    }

    /** `script_all_objects(path, is_script_drop_create, is_file_per_object)` */
    method ScriptAllObjects(target: Option<string>, dropCreate: bool, filePerObject: bool, runner: Shell.Runner)
      returns (out: Option<string>)
      modifies runner
      ensures var cmd := ActionCommand(database, Render(AllObjectsArgs(path, target, dropCreate, filePerObject)), true);
        runner.issued == old(runner.issued) + [cmd]
        && out == ActionResult(Shell.CheckOutput(runner.respond(old(runner.issued), cmd), cmd))
    {
      var args: seq<Arg>;
      if dropCreate {
        args := [Flag(ScriptDropCreate), Flag(CheckForExistence)];
      } else {
        args := [Flag(ScriptCreate)];
      }
      if filePerObject {
        args := args + [Flag(FilePerObject)];
      }
      var p := path;
      if target.Some? && !IsBlank(target.value) {
        p := target.value;
      }
      args := args + [Flag(FilePath), Value(p)];
      assert args == AllObjectsArgs(path, target, dropCreate, filePerObject);
      out := DoAction(database, Render(args), true, runner);
    }

    /** `__get_sql_full_scripted_database()`: one command scripting the whole database; the
        script is what the tool prints. */
    method GetSqlFullScriptedDatabase(runner: Shell.Runner) returns (out: Option<string>)
      modifies runner
      ensures var cmd := ActionCommand(database, Render(DEFAULT_OPTIONS + [Flag(ScriptDropCreate), Flag(CheckForExistence),
                                                                          Flag(CheckForExistence), Flag(ChangeTracking)]), true);
        runner.issued == old(runner.issued) + [cmd]
        && out == ActionResult(Shell.CheckOutput(runner.respond(old(runner.issued), cmd), cmd))
    {
      var args := GetScripterArgs(Some(path), FULL_SCRIPT_OPTIONS);
      FullScriptArgs(Some(path));
      out := DoAction(database, Render(args.value), true, runner);
    }

    /** `__get_last_run_time()`; `log` is the log file's lines as `readlines` returns them,
        None when the file is absent. */
    method GetLastRunTime(log: Option<seq<string>>) returns (logDate: Option<string>)
      ensures logDate == LastRun(log)
    {
      if log.None? {
        return None;
      }
      var lines := log.value;
      logDate := None;
      var i := 0;
      while i < |lines|
        invariant 0 <= i <= |lines|
        invariant logDate == LastRunOf(lines[..i])
      {
        assert lines[..i + 1] == lines[..i] + [lines[i]];
        if IsToolLine(lines[i]) {
          LastRunSkip(lines[..i], lines[i]);
          i := i + 1;
          continue;
        }
        if logDate.Some? && logDate.value != [] {
          assert lines == lines[..i] + lines[i..];
          LastRunSettled(lines[..i], lines[i..]);
          return;
        }
        LastRunAssign(lines[..i], lines[i]);
        logDate := Some(FirstToken(lines[i]));
        i := i + 1;
      }
      assert lines[..|lines|] == lines;
    }

    /** `get_changes_from_last_run()`; `catalog` is the database's catalog and `toDate`
        plays TRY_CONVERT. */
    method GetChangesFromLastRun(catalog: seq<DatabaseSql.CatalogEntry>, toDate: string -> Option<int>,
                                 log: Option<seq<string>>) returns (changed: seq<string>)
      ensures changed == Changes(catalog, toDate, log)
    {
      var lastRun := GetLastRunTime(log);
      var rows := DatabaseSql.ObjectsQuery(catalog, FromDate(lastRun), toDate);
      changed := [];
      var i := 0;
      while i < |rows|
        invariant 0 <= i <= |rows|
        invariant changed == FullNames(rows[..i])
      {
        assert rows[..i + 1][..i] == rows[..i];
        changed := changed + [rows[i].fullName];
        i := i + 1;
      }
      assert rows[..|rows|] == rows;
    }

    /** `do_full_backup(is_changed_objects_only)` */
    method DoFullBackup(changedOnly: bool, catalog: seq<DatabaseSql.CatalogEntry>, toDate: string -> Option<int>,
                        log: Option<seq<string>>, runner: Shell.Runner)
      requires StartsWith(path, "/")
      modifies runner
      ensures runner.issued == old(runner.issued) + Commands(database, BackupArgLists(path, changedOnly, Changes(catalog, toDate, log)))
    {
      var inc := NoList;
      if changedOnly {
        var includeObjects := GetChangesFromLastRun(catalog, toDate, log);
        if |includeObjects| == 0 {
          return;
        }
        inc := Items(includeObjects);
      }
      ghost var start := runner.issued;
      ghost var folders := FolderArgLists(path, SUB_FOLDERS, inc);
      ghost var other := OtherArgLists(path, Some(OTHER_FOLDER), true, true, inc);
      assert BackupArgLists(path, changedOnly, Changes(catalog, toDate, log)) == folders + other;
      ScriptObjectsToFolders(inc, runner);
      ScriptOtherObjects(Some(OTHER_FOLDER), true, true, inc, runner);
      CommandsAppend(database, folders, other);
      Assoc(start, Commands(database, folders), Commands(database, other));
    }
  }

  /** `MssqlDatabaseBackup(path, database, logger)`: the setter runs on construction, so a
      blank path ends the process before a backup object exists. */
  method Open(database: MssqlDatabase, cwd: string, value: Option<string>) returns (r: Result<MssqlDatabaseBackup>)
    ensures r.Ok? <==> BackupPath(database, cwd, value).Ok?
    ensures r.Err? ==> r.error == SystemExit(1)
    ensures r.Ok? ==> fresh(r.value) && r.value.database == database && r.value.cwd == cwd
                      && r.value.path == BackupPath(database, cwd, value).value
    ensures r.Ok? && StartsWith(cwd, "/") ==> StartsWith(r.value.path, "/")
  {
    var b := new MssqlDatabaseBackup(database, cwd);
    var o := b.SetPath(value);
    if o.Err? {
      return Err(o.error);
    }
    if StartsWith(cwd, "/") {
      BackupPathAbsolute(database, cwd, value);
    }
    return Ok(b);
  }
}

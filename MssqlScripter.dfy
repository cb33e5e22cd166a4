/**
 * The mssql-scripter side of `DatabaseUtils.Database.MssqlDatabase`: the option
 * names, the flag-by-flag argument builder, the assembled command line, the existence
 * check of requested objects and `script_objects`. Each tool invocation is issued on a
 * `Shell.Runner`; the catalog of existing 'schema.name' entries is a parameter.
 */
module MssqlScripter {
  import opened Wrappers
  import opened PyStr
  import Shell

  /** `MssqlScripterArguments`; `DatabaseName` is the `--database` option. */
  datatype ScripterFlag = Server | DatabaseName | User | Password | FilePath | FilePerObject | ScriptCreate
    | ScriptDropCreate | IncludeObjects | IncludeTypes | ExcludeTypes | Append | CheckForExistence
    | ExcludeHeaders | ExcludeUseDatabase | ChangeTracking | DisplayProgress | DataOnly | SchemaAndData
  {
    function Text(): string {
      match this
      case Server => "--server"
      case DatabaseName => "--database"
      case User => "--user"
      case Password => "--password"
      case FilePath => "--file-path"
      case FilePerObject => "--file-per-object"
      case ScriptCreate => "--script-create"
      case ScriptDropCreate => "--script-drop-create"
      case IncludeObjects => "--include-objects"
      case IncludeTypes => "--include-types"
      case ExcludeTypes => "--exclude-types"
      case Append => "--append"
      case CheckForExistence => "--check-for-existence"
      case ExcludeHeaders => "--exclude-headers"
      case ExcludeUseDatabase => "--exclude-use-database"
      case ChangeTracking => "--change-tracking"
      case DisplayProgress => "--display-progress"
      case DataOnly => "--data-only"
      case SchemaAndData => "--schema-and-data"
    }
  }

  /** One element of an argument list: an option flag or a value. */
  datatype Arg = Flag(flag: ScripterFlag) | Value(text: string)

  /** The argument list as the strings handed to the process. */
  function RenderArg(a: Arg): string {
    if a.Flag? then a.flag.Text() else a.text
  }

  /** The argument list as the strings handed to the process. */
  function Render(args: seq<Arg>): (r: seq<string>)
    ensures |r| == |args| && forall i :: 0 <= i < |args| ==> r[i] == RenderArg(args[i])
  {
    if args == [] then [] else [RenderArg(args[0])] + Render(args[1..])
  }

  function Values(xs: seq<string>): (r: seq<Arg>)
    ensures |r| == |xs| && forall i :: 0 <= i < |xs| ==> r[i] == Value(xs[i])
  {
    if xs == [] then [] else [Value(xs[0])] + Values(xs[1..])
  }

  /** `__default_mssqlscripter_options` */
  const DEFAULT_OPTIONS: seq<Arg> := [Flag(ExcludeHeaders)]

  /** `MssqlScripterObjectType`; DDL_TRIGGER is an alias of USER_DEFINED_DATA_TYPE. */
  datatype ScripterObjectType = UserDefinedFunction | StoredProcedure | View | Table | Database | Schema
    | ExtendedProperty | FullTextCatalog | XmlSchemaCollection | UserDefinedDataType
  {
    function Value(): string {
      match this
      case UserDefinedFunction => "UserDefinedFunction"
      case StoredProcedure => "StoredProcedure"
      case View => "View"
      case Table => "Table"
      case Database => "Database"
      case Schema => "Schema"
      case ExtendedProperty => "ExtendedProperty"
      case FullTextCatalog => "FullTextCatalog"
      case XmlSchemaCollection => "XmlSchemaCollection"
      case UserDefinedDataType => "UserDefinedDataType"
    }
  }

  const DDL_TRIGGER := UserDefinedDataType

  /** The connection settings of an `MssqlDatabase`. */
  datatype MssqlDatabase = MssqlDatabase(server: string, database: string, username: string, password: string,
                                         port: int, localPath: Option<string>)

  /** `MssqlDatabase(...)`: a missing or zero port becomes 1433. */
  function NewMssqlDatabase(server: string, database: string, username: string, password: string,
                            port: Option<int>, localPath: Option<string>): (db: MssqlDatabase)
    ensures db.port == (if port.None? || port.value == 0 then 1433 else port.value)
    ensures db.server == server && db.database == database && db.username == username
    ensures db.password == password && db.localPath == localPath
  {
    MssqlDatabase(server, database, username, password, if port.None? || port.value == 0 then 1433 else port.value, localPath)
  }

  /** `__get_default_mssqlscripter_args()`: the connection prefix of every command. */
  function ConnectionArgs(db: MssqlDatabase): seq<string> {
    ["mssql-scripter", Server.Text(), db.server, DatabaseName.Text(), db.database,
     User.Text(), db.username, Password.Text(), db.password, DisplayProgress.Text()]
  }

  /** A list-valued argument: falsy, a list or tuple of strings, one string, or a truthy
      value of another type. */
  datatype ListArg = NoList | Items(items: seq<string>) | Text(text: string) | BadType

  predicate ListTruthy(a: ListArg) {
    match a
    case NoList => false
    case Items(xs) => xs != []
    case Text(s) => s != []
    case BadType => true
  }

  /** `list.remove(x)` when `x` occurs, else the list unchanged. */
  function RemoveFirst<T(==)>(s: seq<T>, x: T): seq<T> {
    if s == [] then []
    else if s[0] == x then s[1..]
    else [s[0]] + RemoveFirst(s[1..], x)
  }

  /** Removing an absent element changes nothing; removing a present one deletes exactly
      one element and keeps every other element. */
  lemma {:induction false} RemoveFirstFacts<T>(s: seq<T>, x: T)
    ensures x !in s ==> RemoveFirst(s, x) == s
    ensures x in s ==> |RemoveFirst(s, x)| == |s| - 1
    ensures forall y :: y != x ==> (y in RemoveFirst(s, x) <==> y in s)
  {
    if s != [] {
      RemoveFirstFacts(s[1..], x);
      assert s == [s[0]] + s[1..];
    }
  }

  /** One list block of the builder: the flag and then every element; for a value of
      another type the flag is appended, a TypeError is caught, and the first
      `removeFlag` in the list is removed (`removeFlag` differs from `flag` for
      include_objects). */
  function ListStep(args: seq<Arg>, flag: ScripterFlag, removeFlag: ScripterFlag, a: ListArg): seq<Arg> {
    if !ListTruthy(a) then args
    else match a
      case Items(xs) => args + [Flag(flag)] + Values(xs)
      case Text(s) => args + [Flag(flag), Value(s)]
      case _ => RemoveFirst(args + [Flag(flag)], Flag(removeFlag))
  }

  /** What a well-typed list argument contributes: nothing when falsy, else the flag and
      its elements. */
  function Block(flag: ScripterFlag, a: ListArg): seq<Arg> {
    if !ListTruthy(a) then []
    else match a
      case Items(xs) => [Flag(flag)] + Values(xs)
      case Text(s) => [Flag(flag), Value(s)]
      case _ => []
  }

  /** The keyword arguments of `__get_mssqlscripter_args`; `excludeObjects` is the
      truthiness of exclude_objects. */
  datatype ScripterOptions = ScripterOptions(
    addDefaultOptions: bool, scriptCreate: bool, scriptDropCreate: bool, filePerObject: bool,
    filePath: Option<string>, includeTypes: ListArg, excludeTypes: ListArg, includeObjects: ListArg,
    excludeObjects: bool, checkForExistence: bool, changeTracking: bool, dataOnly: bool,
    schemaAndData: bool, append: bool)

  /** The keyword defaults. */
  const DEFAULTS := ScripterOptions(true, false, false, false, None, NoList, NoList, NoList,
                                    false, false, false, false, false, false)

  /** The file path block. `abspath('')` is never '', so a non-blank path is always
      joined onto `local_path`; `os.path.join(None, …)` raises TypeError. */
  function FilePathArgs(localPath: Option<string>, filePath: Option<string>): Result<seq<Arg>> {
    if filePath.None? || filePath.value == [] || IsBlank(filePath.value) then Ok([])
    else if localPath.None? then Err(TypeError)
    else Ok([Flag(FilePath), Value(PathJoin(localPath.value, filePath.value))])
  }

  /** The flags before the file-per-object flag. */
  function HeadArgs(o: ScripterOptions): seq<Arg> {
    (if o.addDefaultOptions then DEFAULT_OPTIONS else [])
      + (if o.scriptCreate && !o.scriptDropCreate then [Flag(ScriptCreate)] else [])
      + (if o.scriptDropCreate then [Flag(ScriptDropCreate), Flag(CheckForExistence)] else [])
  }

  /** Everything before the list blocks. */
  function LeadingArgs(o: ScripterOptions, pathArgs: seq<Arg>): seq<Arg> {
    HeadArgs(o) + (if o.filePerObject then [Flag(FilePerObject)] else []) + pathArgs
  }

  function FlagIf(b: bool, f: ScripterFlag): seq<Arg> {
    if b then [Flag(f)] else []
  }

  /** The trailing flags, in their fixed order. */
  function TrailingArgs(o: ScripterOptions): seq<Arg> {
    FlagIf(o.checkForExistence, CheckForExistence) + FlagIf(o.changeTracking, ChangeTracking)
      + FlagIf(o.dataOnly, DataOnly) + FlagIf(o.schemaAndData, SchemaAndData) + FlagIf(o.append, Append)
  }

  /** The arguments after the three list blocks. */
  function ListedArgs(o: ScripterOptions, pathArgs: seq<Arg>): seq<Arg> {
    var a1 := ListStep(LeadingArgs(o, pathArgs), IncludeTypes, IncludeTypes, o.includeTypes);
    var a2 := ListStep(a1, ExcludeTypes, ExcludeTypes, o.excludeTypes);
    ListStep(a2, IncludeObjects, IncludeTypes, o.includeObjects)
  }

  /** The builder after the file path block. */
  function BuildArgs(o: ScripterOptions, pathArgs: seq<Arg>): Result<seq<Arg>> {
    if o.excludeObjects then Err(NotImplementedError) else Ok(ListedArgs(o, pathArgs) + TrailingArgs(o))
  }

  /** The reference result of `__get_mssqlscripter_args`. */
  function ScripterArgs(localPath: Option<string>, o: ScripterOptions): Result<seq<Arg>> {
    var pathArgs := FilePathArgs(localPath, o.filePath);
    if pathArgs.Err? then Err(pathArgs.error) else BuildArgs(o, pathArgs.value)
  }

  /** Appends every element of a list, in order. */
  method AppendValues(args: seq<Arg>, xs: seq<string>) returns (r: seq<Arg>)
    ensures r == args + Values(xs)
  {
    r := args;
    var i := 0;
    while i < |xs|
      invariant 0 <= i <= |xs|
      invariant r == args + Values(xs[..i])
    {
      assert Values(xs[..i + 1]) == Values(xs[..i]) + [Value(xs[i])];
      r := r + [Value(xs[i])];
      i := i + 1;
    }
    assert xs[..|xs|] == xs;
  }

  /** Appends one list block, element by element. */
  method AppendListArg(args: seq<Arg>, flag: ScripterFlag, removeFlag: ScripterFlag, a: ListArg) returns (r: seq<Arg>)
    ensures r == ListStep(args, flag, removeFlag, a)
  {
    r := args;
    if !ListTruthy(a) {
      return;
    }
    r := r + [Flag(flag)];
    match a {
      case Items(xs) =>
        r := AppendValues(r, xs);
      case Text(s) =>
        r := r + [Value(s)];
      case _ =>
        RemoveFirstFacts(r, Flag(removeFlag));
        if Flag(removeFlag) in r {
          r := RemoveFirst(r, Flag(removeFlag));
        }
    }
  }

  /** The first part of `__get_mssqlscripter_args`: default options and the create flags. */
  method AppendHeadArgs(o: ScripterOptions) returns (args: seq<Arg>)
    ensures args == HeadArgs(o)
  {
    args := [];
    if o.addDefaultOptions {
      var i := 0;
      while i < |DEFAULT_OPTIONS|
        invariant 0 <= i <= |DEFAULT_OPTIONS|
        invariant args == DEFAULT_OPTIONS[..i]
      {
        args := args + [DEFAULT_OPTIONS[i]];
        i := i + 1;
      }
    }
    assert DEFAULT_OPTIONS[..|DEFAULT_OPTIONS|] == DEFAULT_OPTIONS;
    if o.scriptCreate && !o.scriptDropCreate {
      args := args + [Flag(ScriptCreate)];
    }
    if o.scriptDropCreate {
      args := args + [Flag(ScriptDropCreate)];
      args := args + [Flag(CheckForExistence)];
    }
  }

  /** Appends `f` when `b` holds. */
  method AppendFlagIf(args: seq<Arg>, b: bool, f: ScripterFlag) returns (r: seq<Arg>)
    ensures r == args + FlagIf(b, f)
  {
    r := args;
    if b {
      r := r + [Flag(f)];
    }
  }

  /** The last part of `__get_mssqlscripter_args`: the trailing flags. */
  method AppendTrailingArgs(args: seq<Arg>, o: ScripterOptions) returns (r: seq<Arg>)
    ensures r == args + TrailingArgs(o)
  {
    var f1, f2, f3, f4, f5 := FlagIf(o.checkForExistence, CheckForExistence), FlagIf(o.changeTracking, ChangeTracking),
      FlagIf(o.dataOnly, DataOnly), FlagIf(o.schemaAndData, SchemaAndData), FlagIf(o.append, Append);
    r := AppendFlagIf(args, o.checkForExistence, CheckForExistence);
    r := AppendFlagIf(r, o.changeTracking, ChangeTracking);
    Assoc(args, f1, f2);
    r := AppendFlagIf(r, o.dataOnly, DataOnly);
    Assoc(args, f1 + f2, f3);
    r := AppendFlagIf(r, o.schemaAndData, SchemaAndData);
    Assoc(args, f1 + f2 + f3, f4);
    r := AppendFlagIf(r, o.append, Append);
    Assoc(args, f1 + f2 + f3 + f4, f5);
  }

  /** `__get_mssqlscripter_args(...)`, appending to `args` flag by flag. */
  method GetScripterArgs(localPath: Option<string>, o: ScripterOptions) returns (r: Result<seq<Arg>>)
    ensures r == ScripterArgs(localPath, o)
  {
    var args := AppendHeadArgs(o);
    if o.filePerObject {
      args := args + [Flag(FilePerObject)];
    }
    var pathArgs := FilePathArgs(localPath, o.filePath);
    if pathArgs.Err? {
      return Err(pathArgs.error);
    }
    args := args + pathArgs.value;
    assert args == LeadingArgs(o, pathArgs.value);
    args := AppendListArg(args, IncludeTypes, IncludeTypes, o.includeTypes);
    args := AppendListArg(args, ExcludeTypes, ExcludeTypes, o.excludeTypes);
    args := AppendListArg(args, IncludeObjects, IncludeTypes, o.includeObjects);
    if o.excludeObjects {
      return Err(NotImplementedError);
    }
    args := AppendTrailingArgs(args, o);
    return Ok(args);
  }

  /** The builder fails exactly for a non-blank file path without a local path
      (TypeError) and for any exclude_objects (NotImplementedError), in that order. */
  lemma ScripterArgsErrors(localPath: Option<string>, o: ScripterOptions)
    ensures FilePathArgs(localPath, o.filePath).Err? ==> ScripterArgs(localPath, o) == Err(TypeError)
    ensures FilePathArgs(localPath, o.filePath).Ok? && o.excludeObjects ==> ScripterArgs(localPath, o) == Err(NotImplementedError)
    ensures ScripterArgs(localPath, o).Ok? <==> FilePathArgs(localPath, o.filePath).Ok? && !o.excludeObjects
  {
  }

  /** The file path block is empty or the flag and the joined path. */
  lemma FilePathArgsShape(localPath: Option<string>, filePath: Option<string>)
    ensures FilePathArgs(localPath, filePath).Ok? ==>
      (FilePathArgs(localPath, filePath).value == [] <==> filePath.None? || IsBlank(filePath.value))
    ensures FilePathArgs(localPath, filePath).Ok? && FilePathArgs(localPath, filePath).value != [] ==>
      FilePathArgs(localPath, filePath).value == [Flag(FilePath), Value(PathJoin(localPath.value, filePath.value))]
  {
    if filePath.Some? && filePath.value == [] {
      StripEmptyIffBlank(filePath.value);
    }
  }

  /** A well-typed list argument adds exactly its block at the end. */
  lemma ListStepAppendsBlock(args: seq<Arg>, flag: ScripterFlag, removeFlag: ScripterFlag, a: ListArg)
    requires a != BadType
    ensures ListStep(args, flag, removeFlag, a) == args + Block(flag, a)
  {
    if ListTruthy(a) && a.Items? {
      assert args + [Flag(flag)] + Values(a.items) == args + ([Flag(flag)] + Values(a.items));
    }
  }

  /** With well-typed list arguments the command is the leading flags, then the
      include-types block, the exclude-types block and the include-objects block, then
      the trailing flags. */
  lemma BuildArgsBlocks(o: ScripterOptions, pathArgs: seq<Arg>)
    requires !o.excludeObjects
    requires o.includeTypes != BadType && o.excludeTypes != BadType && o.includeObjects != BadType
    ensures BuildArgs(o, pathArgs) == Ok(LeadingArgs(o, pathArgs) + Block(IncludeTypes, o.includeTypes)
      + Block(ExcludeTypes, o.excludeTypes) + Block(IncludeObjects, o.includeObjects) + TrailingArgs(o))
  {
    var lead := LeadingArgs(o, pathArgs);
    ListStepAppendsBlock(lead, IncludeTypes, IncludeTypes, o.includeTypes);
    var a1 := lead + Block(IncludeTypes, o.includeTypes);
    ListStepAppendsBlock(a1, ExcludeTypes, ExcludeTypes, o.excludeTypes);
    var a2 := a1 + Block(ExcludeTypes, o.excludeTypes);
    ListStepAppendsBlock(a2, IncludeObjects, IncludeTypes, o.includeObjects);
  }

  /** A list argument given as one string contributes exactly one element after its flag. */
  lemma BlockOfText(flag: ScripterFlag, s: string)
    ensures s != [] ==> Block(flag, Text(s)) == [Flag(flag), Value(s)]
    ensures s == [] ==> Block(flag, Text(s)) == []
  {
  }

  /** A bad include or exclude types value leaves no trace: its flag is appended and then
      removed again. */
  lemma ListStepBadTypeRestores(args: seq<Arg>, flag: ScripterFlag)
    requires Flag(flag) !in args
    ensures ListStep(args, flag, flag, BadType) == args
  {
    RemoveFirstAbsentPrefix(args, [Flag(flag)], Flag(flag));
  }

  lemma {:induction false} RemoveFirstAbsentPrefix<T>(p: seq<T>, s: seq<T>, x: T)
    requires x !in p
    ensures RemoveFirst(p + s, x) == p + RemoveFirst(s, x)
  {
    if p != [] {
      DropFirstOfAppend(p, s);
      RemoveFirstAbsentPrefix(p[1..], s, x);
      assert p == [p[0]] + p[1..];
    } else {
      assert p + s == s;
    }
  }

  /** Removing `x` before appending a different `y` is the same as removing it after. */
  lemma {:induction false} RemoveFirstSnoc<T>(s: seq<T>, x: T, y: T)
    requires x != y
    ensures RemoveFirst(s + [y], x) == RemoveFirst(s, x) + [y]
  {
    if s != [] {
      DropFirstOfAppend(s, [y]);
      RemoveFirstSnoc(s[1..], x, y);
    }
  }

  /** A bad include_objects value keeps the include-objects flag and removes the first
      include-types flag instead: the builder's except block removes the wrong flag. */
  lemma ListStepBadObjects(args: seq<Arg>)
    ensures ListStep(args, IncludeObjects, IncludeTypes, BadType)
         == RemoveFirst(args, Flag(IncludeTypes)) + [Flag(IncludeObjects)]
  {
    RemoveFirstSnoc(args, Flag(IncludeTypes), Flag(IncludeObjects));
  }

  /** With a bad include_objects value the builder drops the first include-types flag
      produced so far and leaves the include-objects flag with no element; when the
      include-types block is the only place that flag occurs, its elements stay behind bare. */
  lemma BuildArgsBadObjects(o: ScripterOptions, pathArgs: seq<Arg>)
    requires !o.excludeObjects && o.includeTypes != BadType && o.excludeTypes != BadType
    requires o.includeObjects == BadType
    ensures var lead := LeadingArgs(o, pathArgs);
      BuildArgs(o, pathArgs) == Ok(RemoveFirst(lead + Block(IncludeTypes, o.includeTypes)
        + Block(ExcludeTypes, o.excludeTypes), Flag(IncludeTypes)) + [Flag(IncludeObjects)] + TrailingArgs(o))
    ensures var lead := LeadingArgs(o, pathArgs);
      Flag(IncludeTypes) !in lead && o.includeTypes.Items? && o.includeTypes.items != [] ==>
      BuildArgs(o, pathArgs) == Ok(lead + Values(o.includeTypes.items)
        + Block(ExcludeTypes, o.excludeTypes) + [Flag(IncludeObjects)] + TrailingArgs(o))
  {
    var lead := LeadingArgs(o, pathArgs);
    ListStepAppendsBlock(lead, IncludeTypes, IncludeTypes, o.includeTypes);
    var a1 := lead + Block(IncludeTypes, o.includeTypes);
    ListStepAppendsBlock(a1, ExcludeTypes, ExcludeTypes, o.excludeTypes);
    var a2 := a1 + Block(ExcludeTypes, o.excludeTypes);
    ListStepBadObjects(a2);
    if Flag(IncludeTypes) !in lead && o.includeTypes.Items? && o.includeTypes.items != [] {
      var rest := Values(o.includeTypes.items) + Block(ExcludeTypes, o.excludeTypes);
      assert a2 == lead + ([Flag(IncludeTypes)] + rest);
      RemoveFirstAbsentPrefix(lead, [Flag(IncludeTypes)] + rest, Flag(IncludeTypes));
      assert RemoveFirst(a2, Flag(IncludeTypes)) == lead + rest;
      assert lead + rest == lead + Values(o.includeTypes.items) + Block(ExcludeTypes, o.excludeTypes);
    }
  }

  /** For example, include_types ['Table'] with a bad include_objects value turns
      `--include-types Table` into a bare `Table`. */
  lemma BuildArgsBadObjectsDropsTypesFlag()
    ensures BuildArgs(DEFAULTS.(includeTypes := Items(["Table"]), includeObjects := BadType), [])
         == Ok([Flag(ExcludeHeaders), Value("Table"), Flag(IncludeObjects)])
  {
    var o := DEFAULTS.(includeTypes := Items(["Table"]), includeObjects := BadType);
    assert LeadingArgs(o, []) == [Flag(ExcludeHeaders)];
    assert Values(["Table"]) == [Value("Table")];
    assert Block(ExcludeTypes, o.excludeTypes) == [] && TrailingArgs(o) == [];
    assert Flag(IncludeTypes) !in [Flag(ExcludeHeaders)];
    BuildArgsBadObjects(o, []);
    assert [Flag(ExcludeHeaders)] + [Value("Table")] + [] + [Flag(IncludeObjects)] + []
        == [Flag(ExcludeHeaders), Value("Table"), Flag(IncludeObjects)];
  }

  /** A list block only ever adds at the end of `args`, as long as the flag it may remove
      does not occur in the prefix `p`. */
  lemma ListStepKeepsPrefix(p: seq<Arg>, args: seq<Arg>, flag: ScripterFlag, removeFlag: ScripterFlag, a: ListArg)
    requires p <= args && Flag(removeFlag) !in p
    ensures p <= ListStep(args, flag, removeFlag, a)
  {
    if a == BadType && ListTruthy(a) {
      var rest := args[|p|..];
      PrefixSplit(p, args);
      Assoc(p, rest, [Flag(flag)]);
      RemoveFirstAbsentPrefix(p, rest + [Flag(flag)], Flag(removeFlag));
      PrefixExtends(p, p, RemoveFirst(rest + [Flag(flag)], Flag(removeFlag)));
    } else if a != BadType {
      ListStepAppendsBlock(args, flag, removeFlag, a);
      PrefixExtends(p, args, Block(flag, a));
    }
  }

  /** The leading flags survive the list blocks: drop-create is followed immediately by
      check-for-existence, and script-create is emitted only without drop-create. */
  lemma BuildArgsDropCreate(o: ScripterOptions, pathArgs: seq<Arg>)
    requires !o.excludeObjects
    ensures var args := BuildArgs(o, pathArgs).value;
      var i := if o.addDefaultOptions then 1 else 0;
      (o.scriptDropCreate ==> |args| >= i + 2 && args[i] == Flag(ScriptDropCreate) && args[i + 1] == Flag(CheckForExistence))
      && (o.scriptCreate && !o.scriptDropCreate ==> |args| > i && args[i] == Flag(ScriptCreate))
  {
    var head := HeadArgs(o);
    var lead := LeadingArgs(o, pathArgs);
    assert head <= lead;
    ListStepKeepsPrefix(head, lead, IncludeTypes, IncludeTypes, o.includeTypes);
    var a1 := ListStep(lead, IncludeTypes, IncludeTypes, o.includeTypes);
    ListStepKeepsPrefix(head, a1, ExcludeTypes, ExcludeTypes, o.excludeTypes);
    var a2 := ListStep(a1, ExcludeTypes, ExcludeTypes, o.excludeTypes);
    ListStepKeepsPrefix(head, a2, IncludeObjects, IncludeTypes, o.includeObjects);
    var a3 := ListStep(a2, IncludeObjects, IncludeTypes, o.includeObjects);
    var args := BuildArgs(o, pathArgs).value;
    assert args == a3 + TrailingArgs(o);
    assert head <= args;
  }

  /** A list block never adds or removes a flag other than its own two. */
  lemma ListStepOtherFlags(args: seq<Arg>, flag: ScripterFlag, removeFlag: ScripterFlag, a: ListArg, f: ScripterFlag)
    requires f != flag && f != removeFlag
    ensures Flag(f) in ListStep(args, flag, removeFlag, a) <==> Flag(f) in args
  {
    if a == BadType {
      RemoveFirstFacts(args + [Flag(flag)], Flag(removeFlag));
    } else {
      ListStepAppendsBlock(args, flag, removeFlag, a);
      if ListTruthy(a) && a.Items? {
        assert Flag(f) !in Values(a.items);
      }
    }
  }

  /** '--script-create' is emitted exactly when script-create is asked for without
      drop-create, whatever the other arguments are. */
  lemma ScriptCreateIff(localPath: Option<string>, o: ScripterOptions)
    requires ScripterArgs(localPath, o).Ok?
    ensures Flag(ScriptCreate) in ScripterArgs(localPath, o).value <==> o.scriptCreate && !o.scriptDropCreate
  {
    var pathArgs := FilePathArgs(localPath, o.filePath).value;
    var lead := LeadingArgs(o, pathArgs);
    assert Flag(ScriptCreate) in lead <==> o.scriptCreate && !o.scriptDropCreate;
    var a1 := ListStep(lead, IncludeTypes, IncludeTypes, o.includeTypes);
    ListStepOtherFlags(lead, IncludeTypes, IncludeTypes, o.includeTypes, ScriptCreate);
    var a2 := ListStep(a1, ExcludeTypes, ExcludeTypes, o.excludeTypes);
    ListStepOtherFlags(a1, ExcludeTypes, ExcludeTypes, o.excludeTypes, ScriptCreate);
    ListStepOtherFlags(a2, IncludeObjects, IncludeTypes, o.includeObjects, ScriptCreate);
  }

  /** The trailing flags always close the command. */
  lemma BuildArgsEndsWithTrailing(o: ScripterOptions, pathArgs: seq<Arg>)
    requires !o.excludeObjects
    ensures var args := BuildArgs(o, pathArgs).value;
      |args| >= |TrailingArgs(o)| && args[|args| - |TrailingArgs(o)|..] == TrailingArgs(o)
  {
    var args := BuildArgs(o, pathArgs).value;
    assert args == ListedArgs(o, pathArgs) + TrailingArgs(o);
  }

  // `__do_mssqlscripter_action`

  /** `[x.strip().lower() for x in args]` */
  function Norms(xs: seq<string>): seq<string> {
    if xs == [] then [] else [Norm(xs[0])] + Norms(xs[1..])
  }

  lemma {:induction false} NormsIndex(xs: seq<string>)
    ensures |Norms(xs)| == |xs| && forall i :: 0 <= i < |xs| ==> Norms(xs)[i] == Norm(xs[i])
  {
    if xs != [] {
      NormsIndex(xs[1..]);
    }
  }

  /** An argument trimmed and lower-cased; a flag's text already is. */
  function NormArg(a: Arg): string {
    if a.Flag? then a.flag.Text() else Norm(a.text)
  }

  lemma LowerOfLower(s: string)
    requires forall i :: 0 <= i < |s| ==> !('A' <= s[i] <= 'Z')
    ensures Lower(s) == s
  {
  }

  /** An option name of dashes and lower-case letters is its own normal form. */
  lemma OptionNormal(s: string)
    requires forall i :: 0 <= i < |s| ==> s[i] == '-' || 'a' <= s[i] <= 'z'
    ensures Norm(s) == s
  {
    StripOfStripped(s);
    LowerOfLower(s);
  }

  /** Comparing a default option by `NormArg` is comparing it trimmed and lower-cased. */
  lemma DefaultOptionsNormal()
    ensures forall d :: d in DEFAULT_OPTIONS ==> NormArg(d) == Norm(RenderArg(d))
  {
    var s := ExcludeHeaders.Text();
    assert s == "--exclude-headers";
    assert forall i :: 0 <= i < |s| ==> s[i] == '-' || 'a' <= s[i] <= 'z';
    OptionNormal(s);
  }

  /** The default options, in order, that are not already among `args` (compared
      trimmed and case-insensitively, see `DefaultOptionsNormal`). */
  function MissingDefaults(defaults: seq<Arg>, args: seq<string>): seq<string>
    decreases |defaults|
  {
    if defaults == [] then []
    else
      var d := defaults[|defaults| - 1];
      MissingDefaults(defaults[..|defaults| - 1], args) + (if NormArg(d) in Norms(args) then [] else [RenderArg(d)])
  }

  /** The command `__do_mssqlscripter_action` hands to the process. */
  function ActionCommand(db: MssqlDatabase, args: seq<string>, includeDefault: bool): seq<string> {
    ConnectionArgs(db) + (if includeDefault then MissingDefaults(DEFAULT_OPTIONS, args) else []) + args
  }

  /** What `__do_mssqlscripter_action` returns for a reply: the output, or None once the
      exception is logged and swallowed. */
  function ActionResult(reply: Result<string>): (r: Option<string>)
    ensures r.Some? <==> reply.Ok?
    ensures r.Some? ==> r.value == reply.value
  {
    if reply.Ok? then Some(reply.value) else None
  }

  /** The default-option loop of `__do_mssqlscripter_action`. */
  method AppendMissingDefaults(allArgs: seq<string>, args: seq<string>) returns (r: seq<string>)
    ensures r == allArgs + MissingDefaults(DEFAULT_OPTIONS, args)
  {
    r := allArgs;
    var current := Norms(args);
    var defaults := DEFAULT_OPTIONS;
    var i := 0;
    while i < |defaults|
      invariant 0 <= i <= |defaults|
      invariant r == allArgs + MissingDefaults(defaults[..i], args)
    {
      assert defaults[..i + 1][..i] == defaults[..i];
      var d := RenderArg(defaults[i]);
      DefaultOptionsNormal();
      if Norm(d) !in current {
        r := r + [d];
      }
      i := i + 1;
    }
    assert defaults[..|defaults|] == defaults;
  }

  /** Appends every element of `args`, in order. */
  method AppendAll(allArgs: seq<string>, args: seq<string>) returns (r: seq<string>)
    ensures r == allArgs + args
  {
    r := allArgs;
    var j := 0;
    while j < |args|
      invariant 0 <= j <= |args|
      invariant r == allArgs + args[..j]
    {
      assert args[..j + 1] == args[..j] + [args[j]];
      r := r + [args[j]];
      j := j + 1;
    }
    assert args[..|args|] == args;
  }

  /** `__do_mssqlscripter_action(args, is_include_default_options)`: the connection
      prefix, the missing default options, then `args` unchanged; the tool runs once. */
  method DoAction(db: MssqlDatabase, args: seq<string>, includeDefault: bool, runner: Shell.Runner)
    returns (out: Option<string>)
    modifies runner
    ensures runner.issued == old(runner.issued) + [ActionCommand(db, args, includeDefault)]
    ensures out == ActionResult(Shell.CheckOutput(runner.respond(old(runner.issued), ActionCommand(db, args, includeDefault)),
                                                  ActionCommand(db, args, includeDefault)))
  {
    var allArgs := ConnectionArgs(db);
    if includeDefault {
      allArgs := AppendMissingDefaults(allArgs, args);
    }
    allArgs := AppendAll(allArgs, args);
    assert allArgs == ActionCommand(db, args, includeDefault);
    var reply := runner.Run(allArgs);
    out := ActionResult(reply);
  }

  /** A default option is added exactly when no argument equals it after trimming and
      lower-casing. */
  lemma {:induction false} MissingDefaultsMembers(defaults: seq<Arg>, args: seq<string>)
    ensures forall t :: t in MissingDefaults(defaults, args) ==>
      exists d :: d in defaults && t == RenderArg(d) && NormArg(d) !in Norms(args)
    ensures forall d :: d in defaults && NormArg(d) !in Norms(args) ==> RenderArg(d) in MissingDefaults(defaults, args)
    decreases |defaults|
  {
    if defaults != [] {
      MissingDefaultsMembers(defaults[..|defaults| - 1], args);
      assert defaults == defaults[..|defaults| - 1] + [defaults[|defaults| - 1]];
    }
  }

  /** The executed command is the ten-element connection prefix, then the missing
      default options, then `args` unchanged. */
  lemma ActionCommandShape(db: MssqlDatabase, args: seq<string>, includeDefault: bool)
    ensures var cmd := ActionCommand(db, args, includeDefault);
      |cmd| >= 10 + |args| && cmd[..10] == ConnectionArgs(db) && cmd[|cmd| - |args|..] == args
      && (!includeDefault ==> |cmd| == 10 + |args|)
  {
    var cmd := ActionCommand(db, args, includeDefault);
    var added := if includeDefault then MissingDefaults(DEFAULT_OPTIONS, args) else [];
    assert cmd == ConnectionArgs(db) + (added + args);
  }

  /** With defaults included every default option is present after the prefix, added or
      already given. */
  lemma ActionCommandHasDefaults(db: MssqlDatabase, args: seq<string>)
    ensures forall d :: d in DEFAULT_OPTIONS ==> Norm(RenderArg(d)) in Norms(ActionCommand(db, args, true)[10..])
  {
    var cmd := ActionCommand(db, args, true);
    var added := MissingDefaults(DEFAULT_OPTIONS, args);
    assert cmd == ConnectionArgs(db) + (added + args);
    assert cmd[10..] == added + args;
    DefaultOptionsNormal();
    DefaultsPresent(DEFAULT_OPTIONS, args);
  }

  lemma DefaultsPresent(defaults: seq<Arg>, args: seq<string>)
    requires forall d :: d in defaults ==> NormArg(d) == Norm(RenderArg(d))
    ensures forall d :: d in defaults ==> Norm(RenderArg(d)) in Norms(MissingDefaults(defaults, args) + args)
  {
    forall d | d in defaults
      ensures Norm(RenderArg(d)) in Norms(MissingDefaults(defaults, args) + args)
    {
      DefaultPresent(d, defaults, args);
    }
  }

  /** One default option is present, added or already given. */
  lemma DefaultPresent(d: Arg, defaults: seq<Arg>, args: seq<string>)
    requires d in defaults && NormArg(d) == Norm(RenderArg(d))
    ensures Norm(RenderArg(d)) in Norms(MissingDefaults(defaults, args) + args)
  {
    var added := MissingDefaults(defaults, args);
    var t := RenderArg(d);
    NormsAppend(added, args);
    if NormArg(d) !in Norms(args) {
      MissingDefaultsMembers(defaults, args);
      NormOfMember(t, added);
    }
  }

  /** Normalising a concatenation normalises each part. */
  lemma {:induction false} NormsAppend(a: seq<string>, b: seq<string>)
    ensures Norms(a + b) == Norms(a) + Norms(b)
    decreases |a|
  {
    if a == [] {
      assert a + b == b;
    } else {
      assert (a + b)[0] == a[0] && (a + b)[1..] == a[1..] + b;
      NormsAppend(a[1..], b);
    }
  }

  /** A member's normal form is among the normal forms. */
  lemma NormOfMember(x: string, xs: seq<string>)
    requires x in xs
    ensures Norm(x) in Norms(xs)
  {
    NormsIndex(xs);
    var k :| 0 <= k < |xs| && xs[k] == x;
    assert Norms(xs)[k] == Norm(x);
  }

  // `get_objects_not_found`

  /** `REPLACE(REPLACE(o, '[', ''), ']', '')` */
  function RemoveBrackets(s: string): string {
    if s == [] then [] else (if s[0] == '[' || s[0] == ']' then [] else [s[0]]) + RemoveBrackets(s[1..])
  }

  lemma {:induction false} RemoveBracketsConcat(a: string, b: string)
    ensures RemoveBrackets(a + b) == RemoveBrackets(a) + RemoveBrackets(b)
  {
    if a != [] {
      DropFirstOfAppend(a, b);
      RemoveBracketsConcat(a[1..], b);
    } else {
      assert a + b == b;
    }
  }

  lemma {:induction false} RemoveBracketsPlain(s: string)
    requires '[' !in s && ']' !in s
    ensures RemoveBrackets(s) == s
  {
    if s != [] {
      RemoveBracketsPlain(s[1..]);
      assert s == [s[0]] + s[1..];
    }
  }

  lemma RemoveBracketsLiterals()
    ensures RemoveBrackets("[") == [] && RemoveBrackets("]") == [] && RemoveBrackets("].[") == "."
  {
    assert "].["[1..] == ".[" && ".["[1..] == "[" && "["[1..] == [];
  }

  /** '[schema].[name]' is looked up as 'schema.name'. */
  lemma RemoveBracketsQuotedName(schema: string, name: string)
    requires '[' !in schema && ']' !in schema && '[' !in name && ']' !in name
    ensures RemoveBrackets("[" + schema + "].[" + name + "]") == schema + "." + name
  {
    RemoveBracketsLiterals();
    RemoveBracketsPlain(schema);
    RemoveBracketsPlain(name);
    var a := "[" + schema;
    RemoveBracketsConcat("[", schema);
    assert RemoveBrackets(a) == schema;
    var b := a + "].[";
    RemoveBracketsConcat(a, "].[");
    assert RemoveBrackets(b) == schema + ".";
    var c := b + name;
    RemoveBracketsConcat(b, name);
    assert RemoveBrackets(c) == schema + "." + name;
    RemoveBracketsConcat(c, "]");
  }

  /** The requested objects, in order, whose bracket-free name is not a 'schema.name' of
      the catalog. */
  function NotFound(objects: seq<string>, catalog: set<string>): seq<string>
    decreases |objects|
  {
    if objects == [] then []
    else
      var o := objects[|objects| - 1];
      NotFound(objects[..|objects| - 1], catalog) + (if RemoveBrackets(o) in catalog then [] else [o])
  }

  lemma {:induction false} NotFoundMembers(objects: seq<string>, catalog: set<string>)
    ensures forall o :: o in NotFound(objects, catalog) <==> o in objects && RemoveBrackets(o) !in catalog
    decreases |objects|
  {
    if objects != [] {
      NotFoundMembers(objects[..|objects| - 1], catalog);
      assert objects == objects[..|objects| - 1] + [objects[|objects| - 1]];
    }
  }

  /** `get_objects_not_found(objects)`: None for an empty list, else the objects the
      catalog lacks. */
  method GetObjectsNotFound(objects: seq<string>, catalog: set<string>) returns (r: Option<seq<string>>)
    ensures objects == [] <==> r.None?
    ensures r.Some? ==> r.value == NotFound(objects, catalog)
  {
    if objects == [] {
      return None;
    }
    var bad: seq<string> := [];
    var i := 0;
    while i < |objects|
      invariant 0 <= i <= |objects|
      invariant bad == NotFound(objects[..i], catalog)
    {
      assert objects[..i + 1][..i] == objects[..i];
      if RemoveBrackets(objects[i]) !in catalog {
        bad := bad + [objects[i]];
      }
      i := i + 1;
    }
    assert objects[..|objects|] == objects;
    return Some(bad);
  }

  // `script_objects`

  predicate PathGiven(path: Option<string>) {
    path.Some? && path.value != []
  }

  /** The optional path block of `script_objects`. */
  function ScriptPathArgs(path: Option<string>, isFilePerObject: bool): seq<Arg> {
    (if PathGiven(path) then [Flag(FilePath), Value(path.value)] else [])
      + (if isFilePerObject && PathGiven(path) then [Flag(FilePerObject)] else [])
  }

  /** The arguments `script_objects` builds. */
  function ScriptObjectsArgs(objects: seq<string>, path: Option<string>, isFilePerObject: bool): seq<Arg> {
    ScriptPathArgs(path, isFilePerObject) + [Flag(IncludeObjects)] + Values(objects)
      + [Flag(ExcludeUseDatabase)] + [Flag(ScriptDropCreate)] + [Flag(CheckForExistence)]
  }

  /** `bytes.decode('ascii', 'ignore')` */
  function AsciiOnly(s: string): string {
    if s == [] then [] else (if s[0] < 128 as char then [s[0]] else []) + AsciiOnly(s[1..])
  }

  lemma {:induction false} AsciiOnlyFacts(s: string)
    ensures forall c :: c in AsciiOnly(s) <==> c in s && c < 128 as char
    ensures (forall c :: c in s ==> c < 128 as char) ==> AsciiOnly(s) == s
  {
    if s != [] {
      AsciiOnlyFacts(s[1..]);
      assert s == [s[0]] + s[1..];
      assert forall c :: c in s[1..] ==> c in s;
      assert s[0] in s;
    }
  }

  /** What `script_objects` returns once the tool has replied: None with a path (the
      files are the result); otherwise the ASCII part of the output, and None from a
      failed run makes `.decode` raise AttributeError. */
  function ScriptResult(path: Option<string>, out: Option<string>): (r: Result<Option<string>>)
    ensures PathGiven(path) ==> r == Ok(None)
    ensures !PathGiven(path) && out.None? ==> r == Err(AttributeError)
    ensures !PathGiven(path) && out.Some? ==> r.Ok? && r.value.Some? && forall c :: c in r.value.value ==> c < 128 as char
  {
    AsciiOnlyFacts(if out.Some? then out.value else []);
    if PathGiven(path) then Ok(None)
    else if out.None? then Err(AttributeError)
    else Ok(Some(AsciiOnly(out.value)))
  }

  /** Builds the `script_objects` arguments by appending. */
  method BuildScriptObjectsArgs(objects: seq<string>, path: Option<string>, isFilePerObject: bool) returns (args: seq<Arg>)
    ensures args == ScriptObjectsArgs(objects, path, isFilePerObject)
  {
    args := [];
    if PathGiven(path) {
      args := args + [Flag(FilePath), Value(path.value)];
    }
    if isFilePerObject && PathGiven(path) {
      args := args + [Flag(FilePerObject)];
    }
    assert args == ScriptPathArgs(path, isFilePerObject);
    args := args + [Flag(IncludeObjects)];
    args := AppendValues(args, objects);
    args := args + [Flag(ExcludeUseDatabase)];
    args := args + [Flag(ScriptDropCreate)];
    args := args + [Flag(CheckForExistence)];
  }

  /** The command `script_objects` runs for accepted objects. */
  function ScriptCommand(db: MssqlDatabase, objects: seq<string>, path: Option<string>, isFilePerObject: bool): seq<string> {
    ActionCommand(db, Render(ScriptObjectsArgs(objects, path, isFilePerObject)), true)
  }

  /** `script_objects` against an environment that answers `respond` after history `h`:
      the commands issued and the result. */
  function ScriptObjectsRun(db: MssqlDatabase, objects: seq<string>, path: Option<string>, isFilePerObject: bool,
                            pathExists: bool, catalog: set<string>, respond: Shell.Responder, h: seq<seq<string>>)
    : (seq<seq<string>>, Result<Option<string>>)
  {
    if objects == [] then ([], Ok(None))
    else if PathGiven(path) && !pathExists then ([], Err(ValueError))
    else if NotFound(objects, catalog) != [] then ([], Err(ValueError))
    else
      var cmd := ScriptCommand(db, objects, path, isFilePerObject);
      ([cmd], ScriptResult(path, ActionResult(Shell.CheckOutput(respond(h, cmd), cmd))))
  }

  /** `script_objects(objects, path, is_file_per_object)`. `pathExists` answers
      `os.path.exists(path)`; `catalog` holds the database's 'schema.name' entries. */
  method ScriptObjects(db: MssqlDatabase, objects: seq<string>, path: Option<string>, isFilePerObject: bool,
                       pathExists: bool, catalog: set<string>, runner: Shell.Runner)
    returns (r: Result<Option<string>>)
    modifies runner
    ensures var run := ScriptObjectsRun(db, objects, path, isFilePerObject, pathExists, catalog, runner.respond, old(runner.issued));
      runner.issued == old(runner.issued) + run.0 && r == run.1
  {
    if objects == [] {
      return Ok(None);
    }
    if PathGiven(path) && !pathExists {
      return Err(ValueError);
    }
    var invalid := GetObjectsNotFound(objects, catalog);
    if invalid.Some? && |invalid.value| > 0 {
      return Err(ValueError);
    }
    var args := BuildScriptObjectsArgs(objects, path, isFilePerObject);
    var result := DoAction(db, Render(args), true, runner);
    return ScriptResult(path, result);
  }

  /** `script_objects` returns None for an empty list and raises ValueError for a missing
      path or any object the catalog lacks, in both cases before the tool runs; otherwise
      the tool runs exactly once. */
  lemma ScriptObjectsGuards(db: MssqlDatabase, objects: seq<string>, path: Option<string>, isFilePerObject: bool,
                            pathExists: bool, catalog: set<string>, respond: Shell.Responder, h: seq<seq<string>>)
    ensures var run := ScriptObjectsRun(db, objects, path, isFilePerObject, pathExists, catalog, respond, h);
      (objects == [] ==> run == ([], Ok(None)))
      && (objects != [] && PathGiven(path) && !pathExists ==> run == ([], Err(ValueError)))
      && (objects != [] && (exists o :: o in objects && RemoveBrackets(o) !in catalog) ==> run == ([], Err(ValueError)))
      && (run.0 != [] <==> objects != [] && !(PathGiven(path) && !pathExists)
                           && forall o :: o in objects ==> RemoveBrackets(o) in catalog)
      && (run.0 != [] ==> run.0 == [ScriptCommand(db, objects, path, isFilePerObject)])
  {
    NotFoundMembers(objects, catalog);
    var nf := NotFound(objects, catalog);
    if nf != [] {
      assert nf[0] in nf;
    }
  }

  /** The `script_objects` path block: the path flag and the path when a path is given,
      followed by the file-per-object flag only alongside a path. */
  lemma ScriptPathArgsShape(path: Option<string>, isFilePerObject: bool)
    ensures var head := ScriptPathArgs(path, isFilePerObject);
      |head| == (if PathGiven(path) then 2 else 0) + (if isFilePerObject && PathGiven(path) then 1 else 0)
      && (PathGiven(path) ==> head[..2] == [Flag(FilePath), Value(path.value)])
      && (Flag(FilePerObject) in head <==> isFilePerObject && PathGiven(path))
  {
  }

  /** The `script_objects` command: the path block, then the include-objects flag and
      every object in order, then the three fixed flags; file-per-object appears only
      in the path block. */
  lemma ScriptObjectsArgsShape(objects: seq<string>, path: Option<string>, isFilePerObject: bool)
    ensures var args := ScriptObjectsArgs(objects, path, isFilePerObject);
      var k := |ScriptPathArgs(path, isFilePerObject)|;
      |args| == k + |objects| + 4
      && args[..k] == ScriptPathArgs(path, isFilePerObject)
      && args[k] == Flag(IncludeObjects) && args[k + 1..k + 1 + |objects|] == Values(objects)
      && args[|args| - 3..] == [Flag(ExcludeUseDatabase), Flag(ScriptDropCreate), Flag(CheckForExistence)]
      && (Flag(FilePerObject) in args <==> Flag(FilePerObject) in ScriptPathArgs(path, isFilePerObject))
  {
    var head := ScriptPathArgs(path, isFilePerObject);
    var vs := Values(objects);
    CommandShape(head, Flag(IncludeObjects), vs, Flag(ExcludeUseDatabase), Flag(ScriptDropCreate),
                 Flag(CheckForExistence), Flag(FilePerObject));
    assert Flag(FilePerObject) !in vs;
  }

  /** Where the parts of `head + [x] + vs + [a] + [b] + [c]` sit, and what it contains. */
  lemma CommandShape<T>(head: seq<T>, x: T, vs: seq<T>, a: T, b: T, c: T, y: T)
    ensures var s := head + [x] + vs + [a] + [b] + [c];
      |s| == |head| + |vs| + 4 && s[..|head|] == head && s[|head|] == x
      && s[|head| + 1..|head| + 1 + |vs|] == vs && s[|s| - 3..] == [a, b, c]
      && (y in s <==> y in head || y == x || y in vs || y == a || y == b || y == c)
  {
    var s := head + [x] + vs + [a] + [b] + [c];
    assert s == head + ([x] + vs + [a, b, c]);
  }
}

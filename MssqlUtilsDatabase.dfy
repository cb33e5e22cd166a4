/**
 * The SQL Server helpers of the `MssqlUtils` package: boolean parsing of catalog flags,
 * `read_script` with its USE-statement filter, and `DatabaseBackupCollection`, which
 * gathers the scripts of a backup directory folder group by folder group.
 * The filesystem is a `Disk` value: the working directory, which paths exist or are
 * directories, directory listings in listing order, and file contents as lines.
 */
module MssqlUtilsDatabase {
  import opened Wrappers
  import opened PyStr
  import StringUtil

  // `Database.get_bool_from_string`

  /** `get_bool_from_string(val)`: `None` for a falsy value; otherwise true exactly for
      '1' and 'true' after trimming and lower-casing, and false for everything else. */
  function GetBoolFromString(val: Option<string>): (r: Option<bool>)
    ensures r.None? <==> val.None? || val.value == []
    ensures r == Some(true) <==> val.Some? && (Norm(val.value) == "1" || Norm(val.value) == "true")
  {
    match val
    case None => None
    case Some(s) =>
      if s == [] then None
      else
        var t := Norm(s);
        Some(t == "1" || t == "true")
  }

  lemma NormOfDigits(s: string)
    requires StringUtil.IsNumeric(s)
    ensures Norm(s) == s
  {
    assert !IsSpace(s[0]) && !IsSpace(s[|s| - 1]);
    StringUtil.NormOfNormal(s);
  }

  /** Compared with `StringUtil.get_boolean_from_string`: every string that one reads as
      false is false here too, and every non-numeric string it reads as true is true
      here; numbers other than 1 and 0, and anything else, are false here rather than
      `None`. */
  lemma GetBoolAgreesWithStringUtil(s: string)
    ensures StringUtil.GetBooleanFromString(Some(s)) == Some(false) ==> GetBoolFromString(Some(s)) == Some(false)
    ensures StringUtil.GetBooleanFromString(Some(s)) == Some(true) && !StringUtil.IsNumeric(s) ==>
      GetBoolFromString(Some(s)) == Some(true)
    ensures s != [] && StringUtil.GetBooleanFromString(Some(s)) == None ==> GetBoolFromString(Some(s)) != None
  {
    if StringUtil.IsNumeric(s) {
      NormOfDigits(s);
      assert s != "true" && s != "false" by {
        assert StringUtil.IsDigit(s[0]) && !StringUtil.IsDigit("true"[0]) && !StringUtil.IsDigit("false"[0]);
      }
      if s == "1" {
        assert StringUtil.DigitsValue(s) == 1;
      }
    } else if Norm(s) == "false" {
      assert Norm(s) != "1" && Norm(s) != "true" by {
        assert "false"[0] != "1"[0] && "false"[0] != "true"[0];
      }
    }
  }

  /** Where the two parsers differ: a padded '1' is true here and `None` there. */
  lemma GetBoolDiffersOnPadding()
    ensures GetBoolFromString(Some(" 1")) == Some(true) && StringUtil.GetBooleanFromString(Some(" 1")) == None
  {
    StringUtil.GetBooleanPaddedDigit();
    assert Strip(" 1") == "1" by {
      assert TrimLeft(" 1") == TrimLeft(" 1"[1..]);
      assert " 1"[1..] == "1";
    }
    NormOfDigits("1");
  }

  /** Where the two parsers differ: '01' is false here and true there. */
  lemma GetBoolDiffersOnLeadingZero()
    ensures GetBoolFromString(Some("01")) == Some(false) && StringUtil.GetBooleanFromString(Some("01")) == Some(true)
  {
    StringUtil.GetBooleanZeroPadded(1, true);
    assert seq(1, _ => '0') + "1" == "01";
    NormOfDigits("01");
    assert "01" != "1" && "01" != "true";
  }

  // `MssqlDatabase.read_script`

  /** A line whose trimmed, lower-cased text starts with 'use'. */
  predicate IsUseLine(line: string) {
    StartsWith(Norm(line), "use")
  }

  /** A line whose first character after trimming is the byte order mark U+FEFF. */
  predicate IsBomLine(line: string) {
    Norm(line) != [] && Norm(line)[0] == '\U{FEFF}'
  }

  /** A line on which `ord(line.strip().lower()[0])` fails: nothing is left after
      trimming, and the 'use' test before it did not already skip the line. */
  predicate IsBlankLine(line: string) {
    Norm(line) == []
  }

  /** The lines neither `skip` nor `mark` holds of, in order. */
  function Without(lines: seq<string>, skip: string -> bool, mark: string -> bool): seq<string> {
    if lines == [] then []
    else
      var x := lines[|lines| - 1];
      Without(lines[..|lines| - 1], skip, mark) + (if skip(x) || mark(x) then [] else [x])
  }

  /** Some line of `lines` satisfies `test`. */
  predicate AnyLine(lines: seq<string>, test: string -> bool) {
    exists i :: 0 <= i < |lines| && test(lines[i])
  }

  /** The lines `read_script` keeps when removing USE statements, in file order. */
  function KeptLines(lines: seq<string>): seq<string> {
    Without(lines, IsUseLine, IsBomLine)
  }

  /** `read_script(path, is_remove_use_database_statement)` with the file's lines (or
      `None` for a file that cannot be opened): `None` for an empty path; every line
      without the flag; with it, an IndexError for any blank line, and otherwise the
      lines that are neither USE statements nor start with a byte order mark. The error
      is re-raised as its own type with the path appended to the message. */
  function ReadScriptResult(path: string, contents: Option<seq<string>>, removeUse: bool): Result<Option<seq<string>>> {
    if path == [] then Ok(None)
    else if contents.None? then Err(FileNotFoundError)
    else if !removeUse then Ok(Some(contents.value))
    else if AnyLine(contents.value, IsBlankLine) then Err(IndexError)
    else Ok(Some(KeptLines(contents.value)))
  }

  lemma {:induction false} KeptLinesAppend(a: seq<string>, b: seq<string>)
    ensures KeptLines(a + b) == KeptLines(a) + KeptLines(b)
    decreases |b|
  {
    if b == [] {
      assert a + b == a;
    } else {
      var b' := b[..|b| - 1];
      DropLastOfAppend(a, b);
      KeptLinesAppend(a, b');
    }
  }

  /** A line is kept iff it occurs in the file and is neither a USE statement nor starts
      with a byte order mark. */
  lemma {:induction false} KeptLinesMembers(lines: seq<string>)
    ensures forall x :: x in KeptLines(lines) <==> x in lines && !IsUseLine(x) && !IsBomLine(x)
  {
    if lines != [] {
      var init := lines[..|lines| - 1];
      KeptLinesMembers(init);
      assert lines == init + [lines[|lines| - 1]];
    }
  }

  /** Filtering twice keeps what filtering once kept. */
  lemma {:induction false} KeptLinesIdempotent(lines: seq<string>)
    ensures KeptLines(KeptLines(lines)) == KeptLines(lines)
  {
    if lines != [] {
      var init := lines[..|lines| - 1];
      var x := lines[|lines| - 1];
      KeptLinesIdempotent(init);
      KeptLinesAppend(KeptLines(init), if IsUseLine(x) || IsBomLine(x) then [] else [x]);
      if !(IsUseLine(x) || IsBomLine(x)) {
        assert [x][..0] == [];
      }
    }
  }

  /** A USE line has text after trimming, so it is never a blank line. */
  lemma UseLinesAreNotBlank()
    ensures forall x :: IsUseLine(x) ==> !IsBlankLine(x)
  {
    forall x | IsUseLine(x) ensures !IsBlankLine(x) {
    }
  }

  /** `read_script` on a file that could be opened: `ReadLines` with its line tests. */
  method ReadScript(path: string, contents: Option<seq<string>>, removeUse: bool) returns (r: Result<Option<seq<string>>>)
    ensures r == ReadScriptResult(path, contents, removeUse)
  {
    if path == [] {
      return Ok(None);
    }
    if contents.None? {
      return Err(FileNotFoundError);
    }
    UseLinesAreNotBlank();
    var lines := ReadLines(contents.value, removeUse, IsUseLine, IsBlankLine, IsBomLine);
    if lines.None? {
      return Err(IndexError);
    }
    return Ok(lines);
  }

  /** The loop of `read_script`: lines are appended one by one; with the flag, a USE line
      is skipped, a blank line raises (`None` here), and a byte-order-mark line is
      skipped, tested in that order. */
  method ReadLines(file: seq<string>, removeUse: bool, isUse: string -> bool, isBlank: string -> bool,
                   isBom: string -> bool) returns (r: Option<seq<string>>)
    requires forall x :: isUse(x) ==> !isBlank(x)
    ensures r.None? <==> removeUse && AnyLine(file, isBlank)
    ensures r.Some? ==> r.value == if removeUse then Without(file, isUse, isBom) else file
  {
    var lines: seq<string> := [];
    for i := 0 to |file|
      invariant forall k :: 0 <= k < i ==> !(removeUse && isBlank(file[k]))
      invariant lines == if removeUse then Without(file[..i], isUse, isBom) else file[..i]
    {
      var line := file[i];
      assert file[..i + 1] == file[..i] + [line];
      if removeUse {
        if isUse(line) {
          continue;
        }
        if isBlank(line) {
          return None;
        }
        if isBom(line) {
          continue;
        }
      }
      lines := lines + [line];
    }
    assert file[..|file|] == file;
    return Some(lines);
  }

  /** With the flag, a file is read without error iff no line is blank; what comes back
      has no USE or byte-order-mark line left, every kept line is a line of the file,
      and reading the result again gives it back unchanged. */
  lemma ReadScriptFilters(path: string, lines: seq<string>)
    requires path != []
    ensures var r := ReadScriptResult(path, Some(lines), true);
      (r.Ok? <==> forall i :: 0 <= i < |lines| ==> !IsBlankLine(lines[i]))
      && (r.Err? ==> r.error == IndexError)
    ensures var r := ReadScriptResult(path, Some(lines), true);
      r.Ok? ==> (r.value.Some?
                 && (forall x :: x in r.value.value <==> x in lines && !IsUseLine(x) && !IsBomLine(x))
                 && ReadScriptResult(path, r.value, true) == r)
  {
    var r := ReadScriptResult(path, Some(lines), true);
    KeptLinesMembers(lines);
    if r.Ok? {
      var kept := KeptLines(lines);
      KeptLinesIdempotent(lines);
      forall i | 0 <= i < |kept| ensures !IsBlankLine(kept[i]) {
        assert kept[i] in kept;
        assert kept[i] in lines;
      }
    }
  }

  /** Without the flag the file comes back as read, blank lines included. */
  lemma ReadScriptPlain(path: string, lines: seq<string>)
    requires path != []
    ensures ReadScriptResult(path, Some(lines), false) == Ok(Some(lines))
  {
  }

  // `DatabaseBackupCollection`

  /** The filesystem as the collection sees it. */
  datatype Disk = Disk(cwd: string, present: string -> bool, isDir: string -> bool,
                       listing: string -> seq<string>, contents: string -> Option<seq<string>>)

  /** One collected item: what `read_script` returned for a file. */
  type Script = Option<seq<string>>

  /** `scripts` extended by a further result, or that result's error. */
  function Append(scripts: seq<Script>, r: Result<seq<Script>>): Result<seq<Script>> {
    if r.Err? then Err(r.error) else Ok(scripts + r.value)
  }

  lemma AppendAssoc(a: seq<Script>, b: seq<Script>, r: Result<seq<Script>>)
    ensures Append(a + b, r) == Append(a, Append(b, r))
  {
    if r.Ok? {
      assert a + b + r.value == a + (b + r.value);
    }
  }

  lemma AppendEmpty(r: Result<seq<Script>>)
    ensures Append([], r) == r
  {
    if r.Ok? {
      assert [] + r.value == r.value;
    }
  }

  /** The folder groups `read_files_from_backup_path` collects, in its fixed order. */
  const BACKUP_FOLDERS: seq<string> := ["database", "other", "tables", "functions", "views", "procedures"]

  /** Where a listed file is read from: `os.path.abspath(file)` of the bare file name,
      that is, relative to the working directory rather than to its folder. */
  function ScriptPath(d: Disk, file: string): string {
    AbsPath(d.cwd, file)
  }

  /** The inner loop of `get_files_by_dir_name` over one folder's files, stopping at the
      first file `read_script` fails on. */
  function FileScripts(d: Disk, files: seq<string>): Result<seq<Script>>
    decreases |files|
  {
    if files == [] then Ok([])
    else
      var p := ScriptPath(d, files[0]);
      var here := ReadScriptResult(p, d.contents(p), true);
      if here.Err? then Err(here.error) else Append([here.value], FileScripts(d, files[1..]))
  }

  /** The inner loop of `get_files_by_dir_name`: `read_script` on each file of a folder,
      in order, stopping at the first that fails. */
  method ReadFolder(d: Disk, files: seq<string>) returns (r: Result<seq<Script>>)
    ensures r == FileScripts(d, files)
  {
    var scripts: seq<Script> := [];
    assert files[0..] == files;
    AppendEmpty(FileScripts(d, files));
    for j := 0 to |files|
      invariant Append(scripts, FileScripts(d, files[j..])) == FileScripts(d, files)
    {
      assert files[j..][0] == files[j] && files[j..][1..] == files[j + 1..];
      var p := AbsPath(d.cwd, files[j]);
      var script := ReadScript(p, d.contents(p), true);
      if script.Err? {
        return Err(script.error);
      }
      AppendAssoc(scripts, [script.value], FileScripts(d, files[j + 1..]));
      scripts := scripts + [script.value];
    }
    assert files[|files|..] == [];
    assert scripts + [] == scripts;
    return Ok(scripts);
  }

  /** The absolute path of a directory entry of the backup path. */
  function EntryPath(d: Disk, path: string, dir: string): string {
    AbsPath(d.cwd, PathJoin(path, dir))
  }

  /** A directory entry whose scripts are read for `dirName`: a directory whose trimmed,
      lower-cased name is exactly `dirName`. */
  predicate IsGroupDir(d: Disk, path: string, dirName: string, dir: string) {
    d.isDir(EntryPath(d, path, dir)) && Norm(dir) == dirName
  }

  /** The outer loop of `get_files_by_dir_name` over the entries of the backup path. */
  function DirScripts(d: Disk, path: string, dirName: string, dirs: seq<string>): Result<seq<Script>>
    decreases |dirs|
  {
    if dirs == [] then Ok([])
    else if !IsGroupDir(d, path, dirName, dirs[0]) then DirScripts(d, path, dirName, dirs[1..])
    else
      var here := FileScripts(d, d.listing(EntryPath(d, path, dirs[0])));
      if here.Err? then Err(here.error) else Append(here.value, DirScripts(d, path, dirName, dirs[1..]))
  }

  /** `get_files_by_dir_name(dir_name)`: `None` for an empty name, otherwise the scripts of
      every matching folder in listing order, or the first error. */
  function FilesByDirName(d: Disk, path: string, dirName: string): Result<Option<seq<Script>>> {
    if dirName == [] then Ok(None)
    else
      var r := DirScripts(d, path, dirName, d.listing(path));
      if r.Err? then Err(r.error) else Ok(Some(r.value))
  }

  /** `read_files_from_backup_path` over folder groups: the scripts appended before it
      stops, and how it stops. Iterating the `None` an empty group name gives raises
      TypeError. */
  function Collect(d: Disk, path: string, groups: seq<string>): (seq<Script>, Outcome)
    decreases |groups|
  {
    if groups == [] then ([], Ok(()))
    else
      var here := FilesByDirName(d, path, groups[0]);
      if here.Err? then ([], Err(here.error))
      else if here.value.None? then ([], Err(TypeError))
      else
        var rest := Collect(d, path, groups[1..]);
        (here.value.value + rest.0, rest.1)
  }

  /** One folder group's scripts, as the collection reads them. */
  function GroupScripts(d: Disk, path: string, dirName: string): Result<seq<Script>> {
    DirScripts(d, path, dirName, d.listing(path))
  }

  /** Entries that are not matching directories are never read: with none, the group is
      empty. */
  lemma {:induction false} DirScriptsNoneMatching(d: Disk, path: string, dirName: string, dirs: seq<string>)
    requires forall i :: 0 <= i < |dirs| ==> !IsGroupDir(d, path, dirName, dirs[i])
    ensures DirScripts(d, path, dirName, dirs) == Ok([])
    decreases |dirs|
  {
    if dirs != [] {
      DirScriptsNoneMatching(d, path, dirName, dirs[1..]);
    }
  }

  /** An entry that is not a matching directory can be dropped from the listing without
      changing what is collected. */
  lemma {:induction false} DirScriptsSkip(d: Disk, path: string, dirName: string, a: seq<string>, x: string, b: seq<string>)
    requires !IsGroupDir(d, path, dirName, x)
    ensures DirScripts(d, path, dirName, a + [x] + b) == DirScripts(d, path, dirName, a + b)
    decreases |a|
  {
    if a == [] {
      assert a + [x] + b == [x] + b && ([x] + b)[1..] == b && a + b == b;
    } else {
      assert (a + [x] + b)[0] == a[0] && (a + [x] + b)[1..] == a[1..] + [x] + b;
      DropFirstOfAppend(a, b);
      DirScriptsSkip(d, path, dirName, a[1..], x, b);
    }
  }

  /** A folder name with an upper-case letter matches no directory, as names are
      lower-cased before the comparison and the name asked for is not: the group is
      empty. */
  lemma UpperCaseGroupIsEmpty(d: Disk, path: string, dirName: string, k: nat)
    requires k < |dirName| && 'A' <= dirName[k] <= 'Z'
    ensures FilesByDirName(d, path, dirName) == Ok(Some([]))
  {
    var dirs := d.listing(path);
    forall i | 0 <= i < |dirs| ensures !IsGroupDir(d, path, dirName, dirs[i]) {
      var n := Norm(dirs[i]);
      if |n| == |dirName| {
        assert n[k] == LowerChar(Strip(dirs[i])[k]);
        assert n[k] != dirName[k];
      }
    }
    DirScriptsNoneMatching(d, path, dirName, dirs);
  }

  lemma CollectStep(d: Disk, path: string, g: string, rest: seq<string>)
    requires g != []
    ensures var c := Collect(d, path, [g] + rest);
      var here := GroupScripts(d, path, g);
      var next := Collect(d, path, rest);
      (c.1.Ok? <==> here.Ok? && next.1.Ok?) && (c.1.Ok? ==> c.0 == here.value + next.0)
  {
    assert ([g] + rest)[0] == g && ([g] + rest)[1..] == rest;
  }

  /** The collection is folder group by folder group in the fixed order database, other,
      tables, functions, views, procedures; it succeeds iff every group is read without
      error. */
  lemma BackupFolderOrder(d: Disk, path: string)
    ensures var c := Collect(d, path, BACKUP_FOLDERS);
      var db := GroupScripts(d, path, "database");
      var other := GroupScripts(d, path, "other");
      var tables := GroupScripts(d, path, "tables");
      var functions := GroupScripts(d, path, "functions");
      var views := GroupScripts(d, path, "views");
      var procedures := GroupScripts(d, path, "procedures");
      (c.1.Ok? <==> db.Ok? && other.Ok? && tables.Ok? && functions.Ok? && views.Ok? && procedures.Ok?)
      && (c.1.Ok? ==> c.0 == db.value + (other.value + (tables.value + (functions.value + (views.value + procedures.value)))))
  {
    CollectSix(d, path, "database", "other", "tables", "functions", "views", "procedures");
  }

  /** A six-element sequence, taken apart one head at a time. */
  lemma ConsSix<T>(x0: T, x1: T, x2: T, x3: T, x4: T, x5: T)
    ensures [x0, x1, x2, x3, x4, x5] == [x0] + [x1, x2, x3, x4, x5]
    ensures [x1, x2, x3, x4, x5] == [x1] + [x2, x3, x4, x5]
    ensures [x2, x3, x4, x5] == [x2] + [x3, x4, x5]
    ensures [x3, x4, x5] == [x3] + [x4, x5]
    ensures [x4, x5] == [x4] + [x5]
    ensures [x5] == [x5] + []
  {
  }

  /** Six non-empty groups are collected one after the other. */
  lemma CollectSix(d: Disk, path: string, g0: string, g1: string, g2: string, g3: string, g4: string, g5: string)
    requires g0 != [] && g1 != [] && g2 != [] && g3 != [] && g4 != [] && g5 != []
    ensures var c := Collect(d, path, [g0, g1, g2, g3, g4, g5]);
      var r0 := GroupScripts(d, path, g0);
      var r1 := GroupScripts(d, path, g1);
      var r2 := GroupScripts(d, path, g2);
      var r3 := GroupScripts(d, path, g3);
      var r4 := GroupScripts(d, path, g4);
      var r5 := GroupScripts(d, path, g5);
      (c.1.Ok? <==> r0.Ok? && r1.Ok? && r2.Ok? && r3.Ok? && r4.Ok? && r5.Ok?)
      && (c.1.Ok? ==> c.0 == r0.value + (r1.value + (r2.value + (r3.value + (r4.value + r5.value)))))
  {
    ConsSix(g0, g1, g2, g3, g4, g5);
    CollectStep(d, path, g0, [g1, g2, g3, g4, g5]);
    CollectStep(d, path, g1, [g2, g3, g4, g5]);
    CollectStep(d, path, g2, [g3, g4, g5]);
    CollectStep(d, path, g3, [g4, g5]);
    CollectStep(d, path, g4, [g5]);
    CollectStep(d, path, g5, []);
    var r5 := GroupScripts(d, path, g5);
    assert r5.Ok? ==> r5.value + [] == r5.value;
  }

  /** `DatabaseBackupCollection`: the backup path and the scripts collected from it. */
  class DatabaseBackupCollection {
    const path: string
    var allScripts: seq<Script>

    constructor (path: string)
      ensures this.path == path && allScripts == []
    {
      this.path := path;
      allScripts := [];
    }

    /** `get_script()`: `'\nGO\n'.join(...)` of the collected items. Each item is the list
        `read_script` returned, and `str.join` takes only strings, so any collected item
        raises TypeError; an empty collection joins to ''. */
    function GetScript(): (r: Result<string>)
      reads this
      ensures r == Ok("") <==> allScripts == []
      ensures r.Err? ==> r.error == TypeError
    {
      if allScripts == [] then Ok(JoinWith([], "\nGO\n")) else Err(TypeError)
    }

    /** `get_files_by_dir_name(dir_name)` */
    method GetFilesByDirName(d: Disk, dirName: string) returns (r: Result<Option<seq<Script>>>)
      ensures r == FilesByDirName(d, path, dirName)
    {
      if dirName == [] {
        return Ok(None);
      }
      var dirs := d.listing(path);
      var scripts: seq<Script> := [];
      assert dirs[0..] == dirs;
      AppendEmpty(DirScripts(d, path, dirName, dirs));
      for i := 0 to |dirs|
        invariant Append(scripts, DirScripts(d, path, dirName, dirs[i..])) == DirScripts(d, path, dirName, dirs)
      {
        assert dirs[i..][0] == dirs[i] && dirs[i..][1..] == dirs[i + 1..];
        var dir := dirs[i];
        var newPath := AbsPath(d.cwd, PathJoin(path, dir));
        if !d.isDir(newPath) {
          continue;
        }
        if Norm(dir) != dirName {
          continue;
        }
        var here := ReadFolder(d, d.listing(newPath));
        if here.Err? {
          return Err(here.error);
        }
        AppendAssoc(scripts, here.value, DirScripts(d, path, dirName, dirs[i + 1..]));
        scripts := scripts + here.value;
      }
      assert dirs[|dirs|..] == [];
      assert scripts + [] == scripts;
      return Ok(Some(scripts));
    }

    /** The `for file in ...: self._all_scripts.append(file)` loop of one group. */
    method AppendEach(files: seq<Script>)
      modifies this
      ensures allScripts == old(allScripts) + files
    {
      for k := 0 to |files|
        invariant allScripts == old(allScripts) + files[..k]
      {
        assert files[..k + 1] == files[..k] + [files[k]];
        allScripts := allScripts + [files[k]];
      }
      assert files[..|files|] == files;
    }

    /** `read_files_from_backup_path()`: each group's scripts appended in the fixed folder
        order, one by one; an error stops it with the earlier groups' scripts kept. */
    method ReadFilesFromBackupPath(d: Disk) returns (r: Outcome)
      modifies this
      ensures var c := Collect(d, path, BACKUP_FOLDERS);
        allScripts == old(allScripts) + c.0 && r == c.1
    {
      r := ReadGroups(d, BACKUP_FOLDERS);
    }

    /** The six loops of `read_files_from_backup_path`, over any list of group names. */
    method ReadGroups(d: Disk, groups: seq<string>) returns (r: Outcome)
      modifies this
      ensures var c := Collect(d, path, groups);
        allScripts == old(allScripts) + c.0 && r == c.1
    {
      var found;
      found, r := CollectGroups(this, d, groups);
      AppendEach(found);
    }
  }

  /** The groups' scripts in order, up to the first group that fails. */
  method CollectGroups(b: DatabaseBackupCollection, d: Disk, groups: seq<string>)
    returns (found: seq<Script>, r: Outcome)
    ensures found == Collect(d, b.path, groups).0 && r == Collect(d, b.path, groups).1
  {
    found := [];
    ghost var c := Collect(d, b.path, groups);
    assert groups[0..] == groups && [] + c.0 == c.0;
    for i := 0 to |groups|
      invariant found + Collect(d, b.path, groups[i..]).0 == c.0
      invariant Collect(d, b.path, groups[i..]).1 == c.1
    {
      CollectAdvance(d, b.path, groups, i, found);
      var here := b.GetFilesByDirName(d, groups[i]);
      if here.Err? {
        return found, Err(here.error);
      }
      if here.value.None? {
        return found, Err(TypeError);
      }
      found := found + here.value.value;
    }
    assert groups[|groups|..] == [];
    assert found + [] == found;
    return found, Ok(());
  }

  /** One step of `Collect` at position `i` of the group list. */
  lemma CollectAt(d: Disk, path: string, groups: seq<string>, i: nat)
    requires i < |groups|
    ensures var here := FilesByDirName(d, path, groups[i]);
      var next := Collect(d, path, groups[i + 1..]);
      Collect(d, path, groups[i..])
        == if here.Err? then ([], Err(here.error))
           else if here.value.None? then ([], Err(TypeError))
           else (here.value.value + next.0, next.1)
  {
    assert groups[i..][0] == groups[i] && groups[i..][1..] == groups[i + 1..];
  }

  /** The loop of `ReadGroups` advanced past position `i`: what an error there leaves,
      and what remains to collect after a group that was found. */
  lemma CollectAdvance(d: Disk, path: string, groups: seq<string>, i: nat, done: seq<Script>)
    requires i < |groups|
    requires done + Collect(d, path, groups[i..]).0 == Collect(d, path, groups).0
    requires Collect(d, path, groups[i..]).1 == Collect(d, path, groups).1
    ensures var here := FilesByDirName(d, path, groups[i]);
      var c := Collect(d, path, groups);
      (here.Err? ==> c.0 == done && c.1 == Err(here.error))
      && (here.Ok? && here.value.None? ==> c.0 == done && c.1 == Err(TypeError))
      && (here.Ok? && here.value.Some? ==>
            done + here.value.value + Collect(d, path, groups[i + 1..]).0 == c.0
            && Collect(d, path, groups[i + 1..]).1 == c.1)
  {
    CollectAt(d, path, groups, i);
    var here := FilesByDirName(d, path, groups[i]);
    if here.Ok? && here.value.Some? {
      Assoc(done, here.value.value, Collect(d, path, groups[i + 1..]).0);
    } else {
      assert done + [] == done;
    }
  }

  /** The `DatabaseBackupCollection(path)` constructor: ValueError for an empty path and
      for one that does not exist, then the scripts are collected; an error while
      collecting leaves the constructor with that error. */
  method NewDatabaseBackupCollection(path: string, d: Disk) returns (r: Result<DatabaseBackupCollection>)
    ensures path == [] || !d.present(path) ==> r == Err(ValueError)
    ensures path != [] && d.present(path) ==>
      var c := Collect(d, path, BACKUP_FOLDERS);
      (r.Ok? <==> c.1.Ok?)
      && (r.Err? ==> r.error == c.1.error)
      && (r.Ok? ==> fresh(r.value) && r.value.path == path && r.value.allScripts == c.0)
  {
    if path == [] {
      return Err(ValueError);
    }
    if !d.present(path) {
      return Err(ValueError);
    }
    var collection := new DatabaseBackupCollection(path);
    var out := collection.ReadFilesFromBackupPath(d);
    if out.Err? {
      return Err(out.error);
    }
    return Ok(collection);
  }
}

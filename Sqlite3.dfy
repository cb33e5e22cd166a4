/**
 * `Sqlite3Database`: the statement splitter that cuts a SQL script into commands at
 * lines ending in ';', and the sequencing of script execution, in which a failing command
 * is rolled back and logged and the later commands still run.
 * The sqlite connection is an oracle: whether a command fails may depend on every
 * command committed before it.
 */
module Sqlite3 {
  import opened Wrappers
  import opened PyStr

  // `get_sql_commands_from_script`

  /** The state of the splitting loop after some lines: the commands closed so far and the
      text of the command being built. Each line is stripped; a blank line is skipped; a
      line ending in ';' closes the pending command; any other line is added to it with a
      newline. */
  function Scan(lines: seq<string>): (seq<string>, string) {
    if lines == [] then ([], "") else Step(Scan(lines[..|lines| - 1]), lines[|lines| - 1])
  }

  /** One turn of the splitting loop. */
  function Step(prev: (seq<string>, string), raw: string): (seq<string>, string) {
    var line := Strip(raw);
    if line == [] then prev
    else if EndsWith(line, ";") then (prev.0 + [prev.1 + line], "")
    else (prev.0, prev.1 + line + "\n")
  }

  /** The commands of a script given as its lines; what is pending at the end is dropped. */
  function SqlCommands(lines: seq<string>): seq<string> {
    Scan(lines).0
  }

  /** A line that closes a command: non-blank after stripping, and ending in ';'. */
  predicate IsClosing(line: string) {
    Strip(line) != [] && EndsWith(Strip(line), ";")
  }

  /** How many lines close a command. */
  function ClosingLines(lines: seq<string>): nat {
    if lines == [] then 0
    else ClosingLines(lines[..|lines| - 1]) + (if IsClosing(lines[|lines| - 1]) then 1 else 0)
  }

  /** What one line contributes to the script text: nothing when blank, the stripped line
      when it closes a command, and the stripped line and a newline otherwise. */
  function Piece(line: string): string {
    if Strip(line) == [] then ""
    else if EndsWith(Strip(line), ";") then Strip(line)
    else Strip(line) + "\n"
  }

  function Pieces(lines: seq<string>): (r: seq<string>)
    ensures |r| == |lines|
    ensures forall i :: 0 <= i < |lines| ==> r[i] == Piece(lines[i])
  {
    if lines == [] then [] else Pieces(lines[..|lines| - 1]) + [Piece(lines[|lines| - 1])]
  }

  /** Every command ends with ';', and the pending text is empty or ends with a newline. */
  lemma {:induction false} ScanShape(lines: seq<string>)
    ensures forall i :: 0 <= i < |Scan(lines).0| ==> EndsWith(Scan(lines).0[i], ";")
    ensures Scan(lines).1 == "" || EndsWith(Scan(lines).1, "\n")
  {
    if lines != [] {
      var init := lines[..|lines| - 1];
      ScanShape(init);
      var prev := Scan(init);
      var line := Strip(lines[|lines| - 1]);
      if line != [] {
        if EndsWith(line, ";") {
          var c := prev.1 + line;
          assert c[|c| - 1..] == line[|line| - 1..];
        } else {
          var p := prev.1 + line + "\n";
          assert p[|p| - 1..] == "\n";
        }
      }
    }
  }

  /** There is one command per closing line: a ';' in the middle of a line does not
      split. */
  lemma {:induction false} CommandCount(lines: seq<string>)
    ensures |SqlCommands(lines)| == ClosingLines(lines)
  {
    if lines != [] {
      CommandCount(lines[..|lines| - 1]);
    }
  }

  /** One turn of the loop adds the line's piece to the text. */
  lemma StepKeepsText(prev: (seq<string>, string), raw: string)
    ensures var next := Step(prev, raw);
      Concat(next.0) + next.1 == Concat(prev.0) + prev.1 + Piece(raw)
  {
    var line := Strip(raw);
    if line == [] {
      assert Concat(prev.0) + prev.1 + "" == Concat(prev.0) + prev.1;
    } else if EndsWith(line, ";") {
      ConcatAppend(prev.0, [prev.1 + line]);
      assert Concat([prev.1 + line]) == prev.1 + line by {
        assert [prev.1 + line][..0] == [];
      }
      assert Concat(prev.0) + (prev.1 + line) + "" == Concat(prev.0) + prev.1 + line;
    } else {
      assert Concat(prev.0) + (prev.1 + line + "\n") == Concat(prev.0) + prev.1 + (line + "\n");
    }
  }

  /** Nothing is lost or reordered: the commands, then the pending text, spell out the
      script's pieces in file order. */
  lemma {:induction false} ScanKeepsText(lines: seq<string>)
    ensures Concat(Scan(lines).0) + Scan(lines).1 == Concat(Pieces(lines))
  {
    if lines != [] {
      var init := lines[..|lines| - 1];
      var last := lines[|lines| - 1];
      ScanKeepsText(init);
      StepKeepsText(Scan(init), last);
      assert Pieces(lines) == Pieces(init) + [Piece(last)];
      ConcatAppend(Pieces(init), [Piece(last)]);
      assert Concat([Piece(last)]) == Piece(last) by {
        assert [Piece(last)][..0] == [];
      }
    }
  }

  /** Commands come back in file order: the commands of a leading part of the script are a
      prefix of the commands of the whole. */
  lemma {:induction false} CommandsPrefix(a: seq<string>, b: seq<string>)
    ensures SqlCommands(a) <= SqlCommands(a + b)
  {
    if b != [] {
      var init := b[..|b| - 1];
      DropLastOfAppend(a, b);
      CommandsPrefix(a, init);
    } else {
      assert a + b == a;
    }
  }

  /** After a closed command the script splits independently: the commands of `a + b`
      are those of `a` followed by those of `b`. */
  lemma {:induction false} ScanAfterClosed(a: seq<string>, b: seq<string>)
    requires Scan(a).1 == ""
    ensures Scan(a + b) == (Scan(a).0 + Scan(b).0, Scan(b).1)
  {
    if b == [] {
      assert a + b == a;
      assert Scan(a).0 + [] == Scan(a).0;
    } else {
      var init := b[..|b| - 1];
      DropLastOfAppend(a, b);
      ScanAfterClosed(a, init);
      var pa, pi := Scan(a), Scan(init);
      assert pa.0 + pi.0 + [pi.1 + Strip(b[|b| - 1])] == pa.0 + (pi.0 + [pi.1 + Strip(b[|b| - 1])]);
    }
  }

  /** Lines after the last closing line are discarded. */
  lemma {:induction false} TrailingLinesDiscarded(lines: seq<string>, tail: seq<string>)
    requires ClosingLines(tail) == 0
    ensures SqlCommands(lines + tail) == SqlCommands(lines)
  {
    if tail == [] {
      assert lines + tail == lines;
    } else {
      var init := tail[..|tail| - 1];
      DropLastOfAppend(lines, tail);
      TrailingLinesDiscarded(lines, init);
    }
  }

  /** `get_sql_commands_from_script(script_path)`: `None` for an empty path; `file` is the
      script's lines, `None` when it cannot be opened. */
  method GetSqlCommandsFromScript(scriptPath: string, file: Option<seq<string>>) returns (r: Result<Option<seq<string>>>)
    ensures scriptPath == [] ==> r == Ok(None)
    ensures scriptPath != [] && file.None? ==> r == Err(FileNotFoundError)
    ensures scriptPath != [] && file.Some? ==> r == Ok(Some(SqlCommands(file.value)))
  {
    if scriptPath == [] {
      return Ok(None);
    }
    if file.None? {
      return Err(FileNotFoundError);
    }
    var lines := file.value;
    var script: seq<string> := [];
    var command := "";
    for i := 0 to |lines|
      invariant (script, command) == Scan(lines[..i])
    {
      assert lines[..i + 1][..i] == lines[..i];
      var line := Strip(lines[i]);
      if line == [] {
        continue;
      }
      if EndsWith(line, ";") {
        command := command + line;
        script := script + [command];
        command := "";
      } else {
        command := command + line;
        command := command + "\n";
      }
    }
    assert lines[..|lines|] == lines;
    return Ok(Some(script));
  }

  // Executing scripts

  /** What the error log records. */
  datatype Event = ScriptPathNull | NotAFile(path: string) | CommandFailed(command: string) | UnableToExecute(path: string)

  /** The files and the database: which paths are files, the lines of each, and whether a
      command fails after the given commands have been committed. */
  datatype Env = Env(isFile: string -> bool, lines: string -> seq<string>, fails: (seq<string>, string) -> bool)

  /** The command loop of `execute_sql_script`: a command that succeeds is committed, one
      that fails is rolled back and logged, and the loop goes on. */
  function RunCommands(env: Env, applied: seq<string>, cmds: seq<string>): (seq<string>, seq<Event>)
    decreases |cmds|
  {
    if cmds == [] then (applied, [])
    else if env.fails(applied, cmds[0]) then
      var rest := RunCommands(env, applied, cmds[1..]);
      (rest.0, [CommandFailed(cmds[0])] + rest.1)
    else RunCommands(env, applied + [cmds[0]], cmds[1..])
  }

  /** Every command is either committed or logged as failed, in order, and nothing that was
      committed before is undone. */
  lemma {:induction false} RunCommandsAccounts(env: Env, applied: seq<string>, cmds: seq<string>)
    ensures var r := RunCommands(env, applied, cmds);
      applied <= r.0 && |r.0| - |applied| + |r.1| == |cmds|
      && (forall k :: 0 <= k < |r.1| ==> r.1[k].CommandFailed? && r.1[k].command in cmds)
      && (forall k :: |applied| <= k < |r.0| ==> r.0[k] in cmds)
    decreases |cmds|
  {
    if cmds != [] {
      var tail := cmds[1..];
      assert forall c :: c in tail ==> c in cmds;
      if env.fails(applied, cmds[0]) {
        RunCommandsAccounts(env, applied, tail);
      } else {
        RunCommandsAccounts(env, applied + [cmds[0]], tail);
        var r := RunCommands(env, applied + [cmds[0]], tail);
        assert r.0[|applied|] == cmds[0];
      }
    }
  }

  /** With no failures, every command is committed in order. */
  lemma {:induction false} RunCommandsNoFailure(env: Env, applied: seq<string>, cmds: seq<string>)
    requires forall h, c :: c in cmds ==> !env.fails(h, c)
    ensures RunCommands(env, applied, cmds) == (applied + cmds, [])
    decreases |cmds|
  {
    if cmds == [] {
      assert applied + cmds == applied;
    } else {
      var tail := cmds[1..];
      assert forall c :: c in tail ==> c in cmds;
      RunCommandsNoFailure(env, applied + [cmds[0]], tail);
      assert applied + [cmds[0]] + tail == applied + cmds;
    }
  }

  /** `execute_sql_script(script_path)`. */
  function ScriptRun(env: Env, applied: seq<string>, path: string): (seq<string>, seq<Event>) {
    if path == [] then (applied, [ScriptPathNull])
    else if !env.isFile(path) then (applied, [NotAFile(path)])
    else RunCommands(env, applied, SqlCommands(env.lines(path)))
  }

  /** `execute_sql_scripts(script_paths)`: a path that is not a file is logged and
      skipped; each other script is executed. */
  function ScriptsRun(env: Env, applied: seq<string>, paths: seq<string>): (seq<string>, seq<Event>)
    decreases |paths|
  {
    if paths == [] then (applied, [])
    else if !env.isFile(paths[0]) then
      var rest := ScriptsRun(env, applied, paths[1..]);
      (rest.0, [UnableToExecute(paths[0])] + rest.1)
    else
      var here := ScriptRun(env, applied, paths[0]);
      var rest := ScriptsRun(env, here.0, paths[1..]);
      (rest.0, here.1 + rest.1)
  }

  /** A failing script does not stop the next: running two lists of scripts is running the
      first and then the second from where it left the database. */
  lemma {:induction false} ScriptsRunAppend(env: Env, applied: seq<string>, a: seq<string>, b: seq<string>)
    ensures var first := ScriptsRun(env, applied, a);
      var second := ScriptsRun(env, first.0, b);
      ScriptsRun(env, applied, a + b) == (second.0, first.1 + second.1)
    decreases |a|
  {
    if a == [] {
      assert a + b == b;
      assert [] + ScriptsRun(env, applied, b).1 == ScriptsRun(env, applied, b).1;
    } else {
      DropFirstOfAppend(a, b);
      if !env.isFile(a[0]) {
        ScriptsRunAppend(env, applied, a[1..], b);
        var first := ScriptsRun(env, applied, a[1..]);
        var second := ScriptsRun(env, first.0, b);
        assert [UnableToExecute(a[0])] + first.1 + second.1 == [UnableToExecute(a[0])] + (first.1 + second.1);
      } else {
        var here := ScriptRun(env, applied, a[0]);
        ScriptsRunAppend(env, here.0, a[1..], b);
        var first := ScriptsRun(env, here.0, a[1..]);
        var second := ScriptsRun(env, first.0, b);
        assert here.1 + first.1 + second.1 == here.1 + (first.1 + second.1);
      }
    }
  }

  /** A script that is a file runs the same way on its own and as a one-element list. */
  lemma ScriptRunAsList(env: Env, applied: seq<string>, path: string)
    requires env.isFile(path)
    ensures ScriptsRun(env, applied, [path]) == ScriptRun(env, applied, path)
  {
    var here := ScriptRun(env, applied, path);
    assert [path][1..] == [];
    assert here.1 + [] == here.1;
  }

  /** `__initialize_database(is_force_new_initialization)`: nothing when the database file
      exists and initialisation is not forced; otherwise the schema script, when one is
      set, and then the setup scripts. */
  function InitRun(env: Env, applied: seq<string>, force: bool, databasePath: string,
                   schema: Option<string>, setup: seq<string>): (seq<string>, seq<Event>)
  {
    if !force && env.isFile(databasePath) then (applied, [])
    else
      var s := if schema.Some? && schema.value != [] then ScriptRun(env, applied, schema.value) else (applied, []);
      var t := if setup != [] then ScriptsRun(env, s.0, setup) else (s.0, []);
      (t.0, s.1 + t.1)
  }

  /** Initialisation skips everything for an existing database unless forced; when it runs
      and the schema script is a file, it is running the schema script and then each setup
      script, in order. */
  lemma InitRunInOrder(env: Env, applied: seq<string>, force: bool, databasePath: string,
                       schema: string, setup: seq<string>)
    ensures !force && env.isFile(databasePath) ==> InitRun(env, applied, force, databasePath, Some(schema), setup) == (applied, [])
    ensures (force || !env.isFile(databasePath)) && env.isFile(schema) && schema != [] ==>
      InitRun(env, applied, force, databasePath, Some(schema), setup) == ScriptsRun(env, applied, [schema] + setup)
  {
    if (force || !env.isFile(databasePath)) && env.isFile(schema) && schema != [] {
      ScriptsRunAppend(env, applied, [schema], setup);
      ScriptRunAsList(env, applied, schema);
      var s := ScriptRun(env, applied, schema);
      if setup == [] {
        assert [schema] + setup == [schema];
        assert s.1 + [] == s.1;
      }
    }
  }

  /** A `Sqlite3Database`: its settings, the commands it has committed, and the error
      log. */
  class Sqlite3Database {
    const databasePath: string
    const schemaScriptPath: Option<string>
    const setupScripts: seq<string>
    const isForceNewInitialization: bool
    const env: Env
    var applied: seq<string>
    var log: seq<Event>

    /** The constructor stores the settings and initialises the database. */
    constructor (databasePath: string, env: Env, schemaScriptPath: Option<string>, setupScripts: seq<string>,
                 isForceNewInitialization: bool)
      ensures this.databasePath == databasePath && this.env == env && this.schemaScriptPath == schemaScriptPath
      ensures this.setupScripts == setupScripts && this.isForceNewInitialization == isForceNewInitialization
      ensures var r := InitRun(env, [], isForceNewInitialization, databasePath, schemaScriptPath, setupScripts);
        applied == r.0 && log == r.1
    {
      this.databasePath := databasePath;
      this.env := env;
      this.schemaScriptPath := schemaScriptPath;
      this.setupScripts := setupScripts;
      this.isForceNewInitialization := isForceNewInitialization;
      applied := [];
      log := [];
      new;
      InitializeDatabase(isForceNewInitialization);
    }

    /** `__initialize_database(is_force_new_initialization)` */
    method InitializeDatabase(force: bool)
      modifies this
      ensures var r := InitRun(env, old(applied), force, databasePath, schemaScriptPath, setupScripts);
        applied == r.0 && log == old(log) + r.1
    {
      if !force && env.isFile(databasePath) {
        assert log == log + [];
        return;
      }
      ghost var log0 := log;
      if schemaScriptPath.Some? && schemaScriptPath.value != [] {
        ExecuteSqlScript(schemaScriptPath.value);
      }
      ghost var log1 := log;
      if setupScripts != [] {
        ExecuteSqlScripts(setupScripts);
      }
      assert log == log0 + (log1[|log0|..] + log[|log1|..]);
    }

    /** `execute_sql_script(script_path)`: each command of the script in turn, the failing
        ones rolled back and logged. */
    method ExecuteSqlScript(scriptPath: string)
      modifies this
      ensures var r := ScriptRun(env, old(applied), scriptPath);
        applied == r.0 && log == old(log) + r.1
    {
      if scriptPath == [] {
        log := log + [ScriptPathNull];
        return;
      }
      if !env.isFile(scriptPath) {
        log := log + [NotAFile(scriptPath)];
        return;
      }
      var read := GetSqlCommandsFromScript(scriptPath, Some(env.lines(scriptPath)));
      var commands := read.value.value;
      ghost var total := RunCommands(env, applied, commands);
      assert commands[0..] == commands;
      for i := 0 to |commands|
        invariant var rest := RunCommands(env, applied, commands[i..]);
          rest.0 == total.0 && log + rest.1 == old(log) + total.1
      {
        assert commands[i..][0] == commands[i];
        assert commands[i..][1..] == commands[i + 1..];
        if env.fails(applied, commands[i]) {
          var rest := RunCommands(env, applied, commands[i + 1..]);
          Assoc(log, [CommandFailed(commands[i])], rest.1);
          log := log + [CommandFailed(commands[i])];
        } else {
          applied := applied + [commands[i]];
        }
      }
      assert log + [] == log;
    }

    /** `execute_sql_scripts(script_paths)`: every script in order; one that is not a file
        is logged and the next still runs. */
    method ExecuteSqlScripts(scriptPaths: seq<string>)
      modifies this
      ensures var r := ScriptsRun(env, old(applied), scriptPaths);
        applied == r.0 && log == old(log) + r.1
    {
      if scriptPaths == [] {
        assert log == log + [];
        return;
      }
      ghost var total := ScriptsRun(env, applied, scriptPaths);
      assert scriptPaths[0..] == scriptPaths;
      for i := 0 to |scriptPaths|
        invariant var rest := ScriptsRun(env, applied, scriptPaths[i..]);
          rest.0 == total.0 && log + rest.1 == old(log) + total.1
      {
        var path := scriptPaths[i];
        assert scriptPaths[i..][0] == path;
        assert scriptPaths[i..][1..] == scriptPaths[i + 1..];
        if !env.isFile(path) {
          var rest := ScriptsRun(env, applied, scriptPaths[i + 1..]);
          Assoc(log, [UnableToExecute(path)], rest.1);
          log := log + [UnableToExecute(path)];
        } else {
          ghost var before := log;
          ghost var here := ScriptRun(env, applied, path);
          ExecuteSqlScript(path);
          var rest := ScriptsRun(env, applied, scriptPaths[i + 1..]);
          Assoc(before, here.1, rest.1);
        }
      }
      assert log + [] == log;
    }
  }
}

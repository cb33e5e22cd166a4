/**
 * Deployment of database objects from a source SQL Server database to a destination
 * through a git working copy. The requested objects are validated against the source
 * catalog. Then the repository is hard-reset, the objects are scripted into the
 * destination's local path, the changes are committed and pushed, and every matching
 * script file is run against the destination with sqlcmd.
 */
module DatabaseDeployment {
  import opened Wrappers
  import opened PyStr
  import Shell
  import MssqlScripter

  // `_do_hard_reset` and `_commit_changes`

  const GIT_RESET_HARD: seq<string> := ["git", "reset", "--hard", "HEAD"]
  const GIT_PULL: seq<string> := ["git", "pull"]
  const GIT_CHECKOUT_MASTER: seq<string> := ["git", "checkout", "master"]
  const GIT_STATUS: seq<string> := ["git", "status"]
  const GIT_ADD_ALL: seq<string> := ["git", "add", "."]
  const GIT_PUSH: seq<string> := ["git", "push", "-u", "origin", "master"]

  /** The hard reset, in the order it is issued. */
  const HARD_RESET: seq<seq<string>> := [GIT_RESET_HARD, GIT_PULL, GIT_CHECKOUT_MASTER]

  const NOTHING_TO_COMMIT := "nothing to commit"

  /** The commit message: the timestamp and the objects joined by single spaces, inside
      literal double quotes. */
  function CommitMessage(timestamp: string, objects: seq<string>): string {
    "\"" + timestamp + " - " + JoinWith(objects, " ") + "\""
  }

  function CommitCommand(timestamp: string, objects: seq<string>): seq<string> {
    ["git", "commit", "-m", CommitMessage(timestamp, objects)]
  }

  /** `'nothing to commit' not in str(status).lower()` */
  predicate HasChanges(status: string) {
    !Contains(Lower(status), NOTHING_TO_COMMIT)
  }

  /** What follows `git status`, given its output. */
  function CommitCommands(status: string, timestamp: string, objects: seq<string>): seq<seq<string>> {
    (if HasChanges(status) then [GIT_ADD_ALL, CommitCommand(timestamp, objects)] else []) + [GIT_PUSH]
  }

  /** `_commit_changes` against an environment that answers `respond` after history `h`:
      the commands issued and the outcome. */
  function CommitRun(respond: Shell.Responder, h: seq<seq<string>>, timestamp: string, objects: seq<string>)
    : (seq<seq<string>>, Outcome)
  {
    match Shell.CheckOutput(respond(h, GIT_STATUS), GIT_STATUS)
    case Err(e) => ([GIT_STATUS], Err(e))
    case Ok(status) =>
      var rest := Shell.RunAll(respond, h + [GIT_STATUS], CommitCommands(status, timestamp, objects));
      ([GIT_STATUS] + rest.0, rest.1)
  }

  /** `git status` comes first. `git add .` and the commit are issued exactly when its
      output does not mention 'nothing to commit'. The push follows in both cases, and a
      commit step that succeeds ends with it. */
  lemma CommitRule(respond: Shell.Responder, h: seq<seq<string>>, timestamp: string, objects: seq<string>)
    ensures CommitRun(respond, h, timestamp, objects).0 != [] && CommitRun(respond, h, timestamp, objects).0[0] == GIT_STATUS
    ensures var reply := Shell.CheckOutput(respond(h, GIT_STATUS), GIT_STATUS);
      reply.Err? ==> CommitRun(respond, h, timestamp, objects) == ([GIT_STATUS], Err(CalledProcessError(GIT_STATUS)))
    ensures var reply := Shell.CheckOutput(respond(h, GIT_STATUS), GIT_STATUS);
      GIT_ADD_ALL in CommitRun(respond, h, timestamp, objects).0 <==> reply.Ok? && HasChanges(reply.value)
    ensures var reply := Shell.CheckOutput(respond(h, GIT_STATUS), GIT_STATUS);
      reply.Ok? ==> CommitRun(respond, h, timestamp, objects).0 <= [GIT_STATUS] + CommitCommands(reply.value, timestamp, objects)
    ensures var reply := Shell.CheckOutput(respond(h, GIT_STATUS), GIT_STATUS);
      var run := CommitRun(respond, h, timestamp, objects);
      run.1.Ok? ==> reply.Ok? && run.0 == [GIT_STATUS] + CommitCommands(reply.value, timestamp, objects)
    ensures var run := CommitRun(respond, h, timestamp, objects);
      run.1.Ok? ==> run.0[|run.0| - 1] == GIT_PUSH
    ensures var run := CommitRun(respond, h, timestamp, objects);
      run.1.Err? ==> run.1.error == CalledProcessError(run.0[|run.0| - 1])
  {
    var run := CommitRun(respond, h, timestamp, objects);
    var reply := Shell.CheckOutput(respond(h, GIT_STATUS), GIT_STATUS);
    assert GIT_ADD_ALL != GIT_STATUS && GIT_ADD_ALL != GIT_PUSH;
    assert GIT_ADD_ALL != CommitCommand(timestamp, objects);
    if reply.Ok? {
      var cmds := CommitCommands(reply.value, timestamp, objects);
      var rest := Shell.RunAll(respond, h + [GIT_STATUS], cmds);
      Shell.RunAllPrefix(respond, h + [GIT_STATUS], cmds);
      assert run.0 == [GIT_STATUS] + rest.0;
      if HasChanges(reply.value) {
        Shell.RunAllStep(respond, h + [GIT_STATUS], GIT_ADD_ALL, cmds[1..]);
        assert cmds == [GIT_ADD_ALL] + cmds[1..];
        assert run.0[1] == GIT_ADD_ALL;
      } else {
        assert cmds == [GIT_PUSH];
        assert forall c :: c in rest.0 ==> c in cmds;
      }
      if rest.1.Ok? {
        assert cmds[|cmds| - 1] == GIT_PUSH;
      } else {
        assert rest.1.error == CalledProcessError(rest.0[|rest.0| - 1]);
        assert run.0[|run.0| - 1] == rest.0[|rest.0| - 1];
      }
    }
  }

  /** The commit message is the timestamp and the object list inside double quotes, and
      the object list splits back into the objects when no name holds a space. */
  lemma CommitMessageNamesObjects(timestamp: string, objects: seq<string>)
    ensures var m := CommitMessage(timestamp, objects);
      var k := |timestamp| + 4;
      |m| == k + |JoinWith(objects, " ")| + 1 && m[0] == '"' && m[|m| - 1] == '"'
      && m[1..|timestamp| + 1] == timestamp && m[|timestamp| + 1..k] == " - "
      && m[k..|m| - 1] == JoinWith(objects, " ")
    ensures objects != [] && (forall i :: 0 <= i < |objects| ==> ' ' !in objects[i]) ==>
      var m := CommitMessage(timestamp, objects);
      SplitOn(m[|timestamp| + 4..|m| - 1], ' ') == objects
  {
    var m := CommitMessage(timestamp, objects);
    var j := JoinWith(objects, " ");
    assert m == "\"" + timestamp + " - " + j + "\"";
    if objects != [] && forall i :: 0 <= i < |objects| ==> ' ' !in objects[i] {
      JoinSplitRoundTrip(objects, ' ');
    }
  }

  // `_get_sql_file_paths` and `_deploy_changes`

  /** `'.'.join(name.split('.')[0:2])` */
  function LeadingParts(name: string): string {
    var parts := SplitOn(name, '.');
    JoinWith(if |parts| >= 2 then parts[..2] else parts, ".")
  }

  lemma JoinTwo(a: string, b: string, sep: string)
    ensures JoinWith([a, b], sep) == a + sep + b
  {
    assert [a, b][1..] == [b];
  }

  /** A name with a '.' splits into the text before it and the parts after it. */
  lemma SplitAtFirst(s: string, c: char)
    requires IndexOf(s, c) < |s|
    ensures var i := IndexOf(s, c);
      SplitOn(s, c) == [s[..i]] + SplitOn(s[i + 1..], c)
  {
  }

  lemma SplitHead(s: string, c: char)
    ensures SplitOn(s, c)[0] == s[..IndexOf(s, c)]
  {
  }

  /** The leading parts of a name with a '.' are the text before it, the '.', and the
      first part of the rest. */
  lemma LeadingPartsOfDotted(name: string)
    requires IndexOf(name, '.') < |name|
    ensures var i := IndexOf(name, '.');
      var r := name[i + 1..];
      LeadingParts(name) == name[..i] + "." + r[..IndexOf(r, '.')]
  {
    var i := IndexOf(name, '.');
    var r := name[i + 1..];
    var parts := SplitOn(name, '.');
    var rest := SplitOn(r, '.');
    SplitAtFirst(name, '.');
    assert parts == [name[..i]] + rest;
    SplitHead(r, '.');
    assert parts[1] == rest[0];
    LeadingPartsOfTwo(name);
  }

  /** A name that splits into at least two parts keeps the first two, joined by '.'. */
  lemma LeadingPartsOfTwo(name: string)
    requires |SplitOn(name, '.')| >= 2
    ensures var parts := SplitOn(name, '.');
      LeadingParts(name) == parts[0] + "." + parts[1]
  {
    var parts := SplitOn(name, '.');
    TakeTwo(parts);
    JoinTwo(parts[0], parts[1], ".");
  }

  /** The first two '.'-separated parts of a name are the longest prefix with at most one
      '.': the name itself, or everything before its second '.'. */
  lemma LeadingPartsPrefix(name: string)
    ensures var n := |LeadingParts(name)|;
      n <= |name| && LeadingParts(name) == name[..n]
      && (forall k, m :: 0 <= k < m < n && name[k] == '.' ==> name[m] != '.')
      && (n < |name| ==> name[n] == '.' && exists k :: 0 <= k < n && name[k] == '.')
  {
    var i := IndexOf(name, '.');
    IndexOfFirst(name, '.');
    if i < |name| {
      var r := name[i + 1..];
      var j := IndexOf(r, '.');
      var n := i + 1 + j;
      LeadingPartsOfDotted(name);
      IndexOfFirst(r, '.');
      assert name[..i] + "." + r[..j] == name[..n];
      forall k, m | 0 <= k < m < n && name[k] == '.'
        ensures name[m] != '.'
      {
        assert k == i;
        assert name[m] == r[m - i - 1];
      }
      if n < |name| {
        assert name[n] == r[j];
      }
      assert LeadingParts(name) == name[..n];
    } else {
      LeadingPartsOfPlain(name);
    }
  }

  /** A name without '.' is its own leading parts. */
  lemma LeadingPartsOfPlain(name: string)
    requires IndexOf(name, '.') == |name|
    ensures LeadingParts(name) == name
  {
    assert SplitOn(name, '.') == [name];
  }

  /** In `a.b` with no '.' in `a`, the first '.' follows `a`. */
  lemma FirstDotAfter(a: string, b: string)
    requires '.' !in a
    ensures var s := a + "." + b;
      IndexOf(s, '.') == |a| && s[..|a|] == a && s[|a| + 1..] == b
  {
    var s := a + "." + b;
    assert s == a + ("." + b);
    IndexOfPrefix(a, "." + b, '.');
    IndexOfAbsent(a, '.');
  }

  /** A file named after an object 'schema.name', as mssql-scripter names one file per
      object, has that object as its key. */
  lemma LeadingPartsOfObjectFile(schema: string, name: string, rest: string)
    requires '.' !in schema && '.' !in name
    ensures LeadingParts(schema + "." + name + "." + rest) == schema + "." + name
  {
    var r := name + "." + rest;
    var full := schema + "." + r;
    assert schema + "." + name + "." + rest == full;
    FirstDotAfter(schema, r);
    FirstDotAfter(name, rest);
    LeadingPartsOfDotted(full);
  }

  /** The key a listed file name is matched on, trimmed and lower-cased. */
  function FileKey(name: string): string {
    Norm(LeadingParts(name))
  }

  /** A listed file belongs to the deployment when its key is one of the requested
      objects, trimmed and lower-cased. */
  predicate IsRequested(name: string, objects: seq<string>) {
    FileKey(name) in MssqlScripter.Norms(objects)
  }

  /** The paths `_get_sql_file_paths` collects from a directory listing, in listing
      order. */
  function SelectedPaths(dir: string, listing: seq<string>, objects: seq<string>): seq<string>
    decreases |listing|
  {
    if listing == [] then []
    else
      var o := listing[|listing| - 1];
      SelectedPaths(dir, listing[..|listing| - 1], objects) + (if IsRequested(o, objects) then [PathJoin(dir, o)] else [])
  }

  /** One more listed name: its path is selected after the earlier ones iff it is
      requested. */
  lemma SelectedPathsStep(dir: string, listing: seq<string>, i: nat, objects: seq<string>)
    requires i < |listing|
    ensures SelectedPaths(dir, listing[..i + 1], objects)
         == SelectedPaths(dir, listing[..i], objects)
            + (if FileKey(listing[i]) in MssqlScripter.Norms(objects) then [PathJoin(dir, listing[i])] else [])
  {
    assert listing[..i + 1][..i] == listing[..i];
  }

  /** Selection keeps listing order: the listing of a concatenation selects the
      concatenated paths. */
  lemma {:induction false} SelectedPathsAppend(dir: string, a: seq<string>, b: seq<string>, objects: seq<string>)
    ensures SelectedPaths(dir, a + b, objects) == SelectedPaths(dir, a, objects) + SelectedPaths(dir, b, objects)
    decreases |b|
  {
    if b == [] {
      assert a + b == a;
    } else {
      var b' := b[..|b| - 1];
      DropLastOfAppend(a, b);
      SelectedPathsAppend(dir, a, b', objects);
    }
  }

  /** A path is selected iff it joins the directory with a listed name whose key is a
      requested object. */
  lemma {:induction false} SelectedPathsMembers(dir: string, listing: seq<string>, objects: seq<string>)
    ensures forall p :: p in SelectedPaths(dir, listing, objects) <==>
      exists o :: o in listing && IsRequested(o, objects) && p == PathJoin(dir, o)
    decreases |listing|
  {
    if listing != [] {
      var init := listing[..|listing| - 1];
      SelectedPathsMembers(dir, init, objects);
      assert listing == init + [listing[|listing| - 1]];
    }
  }

  /** Characters of `s` that are not whitespace survive `strip()`, and nothing else
      appears in its result. */
  lemma StripKeeps(s: string)
    ensures forall c :: c in Strip(s) ==> c in s
    ensures forall k :: 0 <= k < |s| && !IsSpace(s[k]) ==> s[k] in Strip(s)
  {
    TrimLeftFacts(s);
    var l := TrimLeft(s);
    TrimRightFacts(l);
    var r := Strip(s);
    var off := |s| - |l|;
    assert forall k :: 0 <= k < |r| ==> r[k] == s[off + k];
    forall k | 0 <= k < |s| && !IsSpace(s[k])
      ensures s[k] in r
    {
      assert k >= off;
      assert l[k - off] == s[k];
      assert k - off < |r|;
      assert r[k - off] == s[k];
    }
  }

  /** A requested name written with brackets, such as '[dbo].[X]', never matches a file
      whose name has no '['. */
  lemma BracketedNeverRequested(name: string, objects: seq<string>)
    requires '[' !in name
    requires forall i :: 0 <= i < |objects| ==> '[' in objects[i]
    ensures !IsRequested(name, objects)
  {
    LeadingPartsPrefix(name);
    var lead := LeadingParts(name);
    assert '[' !in lead;
    StripKeeps(lead);
    var key := FileKey(name);
    forall k | 0 <= k < |key|
      ensures key[k] != '['
    {
      assert Strip(lead)[k] in Strip(lead);
    }
    MssqlScripter.NormsIndex(objects);
    forall i | 0 <= i < |objects|
      ensures MssqlScripter.Norms(objects)[i] != key
    {
      var x := objects[i];
      var k :| 0 <= k < |x| && x[k] == '[';
      StripKeeps(x);
      var st := Strip(x);
      var m :| 0 <= m < |st| && st[m] == '[';
      assert Norm(x)[m] == '[';
    }
  }

  /** `os.path.join` onto any directory gives a non-empty path for a non-empty name. */
  lemma PathJoinNonEmpty(dir: string, name: string)
    requires name != []
    ensures PathJoin(dir, name) != []
  {
  }

  /** Joining the collected path onto an absolute local path again changes nothing. */
  lemma JoinedTwiceAbsolute(dir: string, name: string)
    requires StartsWith(dir, "/")
    ensures PathJoin(dir, PathJoin(dir, name)) == PathJoin(dir, name)
  {
    PathJoinAbsolute(dir, name);
  }

  /** `_deploy_changes` joins the collected path onto the local path a second time, so a
      relative local path appears twice in the executed path. */
  lemma JoinedTwiceRelative(dir: string, name: string)
    requires dir != [] && !StartsWith(dir, "/") && !EndsWith(dir, "/") && !StartsWith(name, "/")
    ensures PathJoin(dir, PathJoin(dir, name)) == dir + "/" + dir + "/" + name
  {
    var p := dir + "/" + name;
    assert PathJoin(dir, name) == p;
    assert p[..1] == dir[..1];
  }

  /** `__get_sqlcmd_start_args()` */
  function SqlCmdArgs(db: MssqlScripter.MssqlDatabase): seq<string> {
    ["sqlcmd", "-S", db.server, "-d", db.database, "-U", db.username, "-P", db.password]
  }

  /** The command `execute_script(path)` runs. */
  function ExecuteCommand(db: MssqlScripter.MssqlDatabase, path: string): seq<string> {
    SqlCmdArgs(db) + ["-i", path]
  }

  /** The sqlcmd commands of `_deploy_changes` for the collected paths: falsy entries are
      skipped, the others are joined onto the local path. */
  function ExecuteCommands(db: MssqlScripter.MssqlDatabase, dir: string, paths: seq<string>): seq<seq<string>>
    decreases |paths|
  {
    if paths == [] then []
    else
      var head := if paths[0] == [] then [] else [ExecuteCommand(db, PathJoin(dir, paths[0]))];
      head + ExecuteCommands(db, dir, paths[1..])
  }

  lemma ExecuteCommandsCons(db: MssqlScripter.MssqlDatabase, dir: string, f: string, rest: seq<string>)
    ensures ExecuteCommands(db, dir, [f] + rest)
         == (if f == [] then [] else [ExecuteCommand(db, PathJoin(dir, f))]) + ExecuteCommands(db, dir, rest)
  {
    assert ([f] + rest)[0] == f && ([f] + rest)[1..] == rest;
  }

  /** Every non-empty collected path is executed exactly once, in order. */
  lemma {:induction false} ExecuteCommandsEach(db: MssqlScripter.MssqlDatabase, dir: string, paths: seq<string>)
    requires forall i :: 0 <= i < |paths| ==> paths[i] != []
    ensures |ExecuteCommands(db, dir, paths)| == |paths|
    ensures forall j :: 0 <= j < |paths| ==> ExecuteCommands(db, dir, paths)[j] == ExecuteCommand(db, PathJoin(dir, paths[j]))
    decreases |paths|
  {
    if paths != [] {
      ExecuteCommandsEach(db, dir, paths[1..]);
      var rest := ExecuteCommands(db, dir, paths[1..]);
      assert ExecuteCommands(db, dir, paths) == [ExecuteCommand(db, PathJoin(dir, paths[0]))] + rest;
      forall j | 1 <= j < |paths|
        ensures ExecuteCommands(db, dir, paths)[j] == ExecuteCommand(db, PathJoin(dir, paths[j]))
      {
        assert paths[1..][j - 1] == paths[j];
      }
    }
  }

  /** Names in a listing are never empty, so every collected path is executed. */
  lemma SelectedPathsNonEmpty(dir: string, listing: seq<string>, objects: seq<string>)
    requires forall i :: 0 <= i < |listing| ==> listing[i] != []
    ensures forall i :: 0 <= i < |SelectedPaths(dir, listing, objects)| ==> SelectedPaths(dir, listing, objects)[i] != []
  {
    SelectedPathsMembers(dir, listing, objects);
    forall i | 0 <= i < |SelectedPaths(dir, listing, objects)|
      ensures SelectedPaths(dir, listing, objects)[i] != []
    {
      var p := SelectedPaths(dir, listing, objects)[i];
      assert p in SelectedPaths(dir, listing, objects);
      var o :| o in listing && IsRequested(o, objects) && p == PathJoin(dir, o);
      PathJoinNonEmpty(dir, o);
    }
  }

  /** `execute_script(path)`: nothing for an empty path, else one sqlcmd run. */
  method ExecuteScript(db: MssqlScripter.MssqlDatabase, path: string, runner: Shell.Runner) returns (r: Outcome)
    modifies runner
    ensures path == [] ==> runner.issued == old(runner.issued) && r == Ok(())
    ensures path != [] ==> runner.issued == old(runner.issued) + [ExecuteCommand(db, path)]
    ensures path != [] ==> (r.Ok? <==> runner.respond(old(runner.issued), ExecuteCommand(db, path)).exitCode == 0)
    ensures path != [] && r.Err? ==> r.error == CalledProcessError(ExecuteCommand(db, path))
  {
    if path == [] {
      return Ok(());
    }
    var args := SqlCmdArgs(db);
    args := args + ["-i"];
    args := args + [path];
    assert args == ExecuteCommand(db, path);
    var out := runner.Run(args);
    if out.Err? {
      return Err(out.error);
    }
    return Ok(());
  }

  /** The loop of `_deploy_changes()`: each non-empty path, joined onto the local path,
      is executed until one fails. */
  method ExecuteEach(destination: MssqlScripter.MssqlDatabase, dir: string, paths: seq<string>, runner: Shell.Runner) returns (r: Outcome)
    modifies runner
    ensures var run := Shell.RunAll(runner.respond, old(runner.issued), ExecuteCommands(destination, dir, paths));
      runner.issued == old(runner.issued) + run.0 && r == run.1
  {
    ghost var respond := runner.respond;
    ghost var h0 := runner.issued;
    ghost var total := ExecuteCommands(destination, dir, paths);
    ghost var done: seq<seq<string>> := [];
    assert paths[0..] == paths && [] + Shell.RunAll(respond, h0, total).0 == Shell.RunAll(respond, h0, total).0;
    var i := 0;
    while i < |paths|
      invariant 0 <= i <= |paths|
      invariant runner.respond == respond && runner.issued == h0 + done
      invariant Shell.Pending(respond, h0, total, done, runner.issued, ExecuteCommands(destination, dir, paths[i..]))
    {
      var f := paths[i];
      ExecuteEachStep(respond, h0, destination, dir, paths, i, done, runner.issued);
      if f == [] {
        i := i + 1;
        continue;
      }
      var path := PathJoin(dir, f);
      PathJoinNonEmpty(dir, f);
      ghost var c := ExecuteCommand(destination, path);
      Shell.PendingStep(respond, h0, total, done, runner.issued, c, ExecuteCommands(destination, dir, paths[i + 1..]));
      var out := ExecuteScript(destination, path, runner);
      done := done + [c];
      if out.Err? {
        return out;
      }
      i := i + 1;
    }
    assert paths[i..] == [] && done + [] == done;
    return Ok(());
  }

  /** One turn of the loop of `_deploy_changes()`: an empty path is skipped, any other
      leaves its sqlcmd command first among the pending ones. */
  lemma ExecuteEachStep(respond: Shell.Responder, h0: seq<seq<string>>, db: MssqlScripter.MssqlDatabase, dir: string,
                        paths: seq<string>, i: nat, done: seq<seq<string>>, h: seq<seq<string>>)
    requires i < |paths|
    requires Shell.Pending(respond, h0, ExecuteCommands(db, dir, paths), done, h, ExecuteCommands(db, dir, paths[i..]))
    ensures var next := ExecuteCommands(db, dir, paths[i + 1..]);
      (paths[i] == [] ==> Shell.Pending(respond, h0, ExecuteCommands(db, dir, paths), done, h, next))
      && (paths[i] != [] ==>
           Shell.Pending(respond, h0, ExecuteCommands(db, dir, paths), done, h,
                         [ExecuteCommand(db, PathJoin(dir, paths[i]))] + next))
  {
    assert paths[i..] == [paths[i]] + paths[i + 1..];
    ExecuteCommandsCons(db, dir, paths[i], paths[i + 1..]);
    assert [] + ExecuteCommands(db, dir, paths[i + 1..]) == ExecuteCommands(db, dir, paths[i + 1..]);
  }

  /** `_deploy_changes` against an environment: `os.chdir` of a missing local path raises
      TypeError, of an empty one FileNotFoundError; otherwise the scripts run in order
      until one fails. */
  function DeployChangesRun(destination: MssqlScripter.MssqlDatabase, listing: seq<string>, objects: seq<string>,
                            respond: Shell.Responder, h: seq<seq<string>>): (seq<seq<string>>, Outcome)
  {
    match destination.localPath
    case None => ([], Err(TypeError))
    case Some(dir) =>
      if dir == [] then ([], Err(FileNotFoundError))
      else Shell.RunAll(respond, h, ExecuteCommands(destination, dir, SelectedPaths(dir, listing, objects)))
  }

  // `deploy`

  /** What the deployment reads from outside: the clock's timestamp for the commit
      message, the listing of the destination's local path, and whether that path
      exists. */
  datatype World = World(timestamp: string, listing: seq<string>, pathExists: bool)

  /** `_do_hard_reset` against an environment: `os.chdir` of a missing repository path
      raises TypeError, of an empty one FileNotFoundError, before any git command;
      otherwise reset, pull and checkout run in order until one fails. */
  function HardResetRun(repo: Option<string>, respond: Shell.Responder, h: seq<seq<string>>): (seq<seq<string>>, Outcome)
  {
    match repo
    case None => ([], Err(TypeError))
    case Some(p) =>
      if p == [] then ([], Err(FileNotFoundError))
      else Shell.RunAll(respond, h, HARD_RESET)
  }

  /** The reset stage issues nothing without a usable repository path, and with one it
      issues a prefix of the three git commands, all of them exactly when it succeeds. */
  lemma HardResetGuards(repo: Option<string>, respond: Shell.Responder, h: seq<seq<string>>)
    ensures var run := HardResetRun(repo, respond, h);
      (repo.None? ==> run == ([], Err(TypeError)))
      && (repo == Some("") ==> run == ([], Err(FileNotFoundError)))
      && run.0 <= HARD_RESET
      && (run.1.Ok? <==> repo.Some? && repo.value != [] && run.0 == HARD_RESET && Shell.RunAll(respond, h, HARD_RESET).1.Ok?)
  {
    if repo.Some? && repo.value != [] {
      Shell.RunAllPrefix(respond, h, HARD_RESET);
    }
  }

  /** `deploy()` against an environment: hard reset, scripting, commit and push, then
      execution, each step only after the previous one succeeded. */
  function DeployRun(source: MssqlScripter.MssqlDatabase, destination: MssqlScripter.MssqlDatabase, repo: Option<string>,
                     objects: seq<string>, catalog: set<string>, w: World,
                     respond: Shell.Responder, h: seq<seq<string>>): (seq<seq<string>>, Outcome)
  {
    var reset := HardResetRun(repo, respond, h);
    if reset.1.Err? then reset
    else
      var h1 := h + reset.0;
      var script := MssqlScripter.ScriptObjectsRun(source, objects, destination.localPath, true, w.pathExists,
                                                   catalog, respond, h1);
      if script.1.Err? then (reset.0 + script.0, Err(script.1.error))
      else
        var h2 := h1 + script.0;
        var commit := CommitRun(respond, h2, w.timestamp, objects);
        if commit.1.Err? then (reset.0 + script.0 + commit.0, commit.1)
        else
          var exec := DeployChangesRun(destination, w.listing, objects, respond, h2 + commit.0);
          (reset.0 + script.0 + commit.0 + exec.0, exec.1)
  }

  /** The commands of a deployment in which nothing fails, given what `git status`
      prints. */
  function DeployPlan(source: MssqlScripter.MssqlDatabase, destination: MssqlScripter.MssqlDatabase,
                      objects: seq<string>, w: World, status: string, dir: string): seq<seq<string>>
  {
    HARD_RESET + [MssqlScripter.ScriptCommand(source, objects, destination.localPath, true)]
      + ([GIT_STATUS] + CommitCommands(status, w.timestamp, objects))
      + ExecuteCommands(destination, dir, SelectedPaths(dir, w.listing, objects))
  }

  /** A run that issued a prefix of `plan`, and whose failed command, if any, is the
      last one it issued. */
  ghost predicate FollowsPlan(run: (seq<seq<string>>, Outcome), plan: seq<seq<string>>) {
    run.0 <= plan
    && (run.1.Err? && run.1.error.CalledProcessError? ==> run.0 != [] && run.1.error.cmd == run.0[|run.0| - 1])
  }

  lemma PrefixJoin<T>(a: seq<T>, x: seq<T>, b: seq<T>)
    requires x <= b
    ensures a + x <= a + b
  {
  }

  lemma RunAllFollows(respond: Shell.Responder, h: seq<seq<string>>, cs: seq<seq<string>>, done: seq<seq<string>>, rest: seq<seq<string>>)
    ensures var run := Shell.RunAll(respond, h, cs);
      FollowsPlan((done + run.0, run.1), done + cs + rest)
      && (run.1.Ok? ==> run.0 == cs)
  {
    var run := Shell.RunAll(respond, h, cs);
    Shell.RunAllPrefix(respond, h, cs);
    PrefixJoin(done, run.0, cs + rest);
    assert done + cs + rest == done + (cs + rest);
  }

  /** `_deploy_changes` issues a prefix of its scripts' commands, all of them when it
      succeeds, and that needs a non-empty local path. */
  lemma ExecFollows(destination: MssqlScripter.MssqlDatabase, listing: seq<string>, objects: seq<string>,
                    respond: Shell.Responder, h: seq<seq<string>>, done: seq<seq<string>>, dir: string)
    requires dir == if destination.localPath.Some? then destination.localPath.value else ""
    ensures var exec := DeployChangesRun(destination, listing, objects, respond, h);
      var tail := ExecuteCommands(destination, dir, SelectedPaths(dir, listing, objects));
      FollowsPlan((done + exec.0, exec.1), done + tail)
      && (exec.1.Ok? ==> destination.localPath.Some? && dir != [] && exec.0 == tail)
  {
    var tail := ExecuteCommands(destination, dir, SelectedPaths(dir, listing, objects));
    if destination.localPath.Some? && dir != [] {
      RunAllFollows(respond, h, tail, done, []);
      assert done + tail + [] == done + tail;
    } else {
      assert done + [] == done;
      PrefixJoin(done, [], tail);
    }
  }

  /** The deployment issues a prefix of its plan, and all of it, with a non-empty local
      path, when it succeeds. */
  ghost predicate DeploymentFollowsPlan(source: MssqlScripter.MssqlDatabase, destination: MssqlScripter.MssqlDatabase,
                                        repo: Option<string>, objects: seq<string>, catalog: set<string>, w: World,
                                        respond: Shell.Responder, h: seq<seq<string>>)
  {
    var run := DeployRun(source, destination, repo, objects, catalog, w, respond, h);
    var cmd := MssqlScripter.ScriptCommand(source, objects, destination.localPath, true);
    var status := respond(h + HARD_RESET + [cmd], GIT_STATUS).stdout;
    var dir := if destination.localPath.Some? then destination.localPath.value else "";
    var plan := DeployPlan(source, destination, objects, w, status, dir);
    FollowsPlan(run, plan)
    && (run.1.Ok? ==> repo.Some? && repo.value != [] && destination.localPath.Some? && dir != [] && run.0 == plan)
  }

  /** The commit and execution stages of a deployment whose reset and scripting
      succeeded. */
  lemma DeployAfterScript(source: MssqlScripter.MssqlDatabase, destination: MssqlScripter.MssqlDatabase,
                          repo: Option<string>, objects: seq<string>, catalog: set<string>, w: World,
                          respond: Shell.Responder, h: seq<seq<string>>)
    requires objects != [] && forall o :: o in objects ==> MssqlScripter.RemoveBrackets(o) in catalog
    requires HardResetRun(repo, respond, h).1.Ok?
    requires MssqlScripter.ScriptObjectsRun(source, objects, destination.localPath, true, w.pathExists, catalog,
                                            respond, h + HARD_RESET).1.Ok?
    ensures DeploymentFollowsPlan(source, destination, repo, objects, catalog, w, respond, h)
  {
    var run := DeployRun(source, destination, repo, objects, catalog, w, respond, h);
    var cmd := MssqlScripter.ScriptCommand(source, objects, destination.localPath, true);
    var status := respond(h + HARD_RESET + [cmd], GIT_STATUS).stdout;
    var dir := if destination.localPath.Some? then destination.localPath.value else "";
    var cc := [GIT_STATUS] + CommitCommands(status, w.timestamp, objects);
    var tail := ExecuteCommands(destination, dir, SelectedPaths(dir, w.listing, objects));
    var plan := DeployPlan(source, destination, objects, w, status, dir);
    assert plan == HARD_RESET + [cmd] + cc + tail;
    var h2 := h + HARD_RESET + [cmd];
    var commit := CommitRun(respond, h2, w.timestamp, objects);
    CommitRule(respond, h2, w.timestamp, objects);
    var exec := DeployChangesRun(destination, w.listing, objects, respond, h2 + commit.0);
    if commit.1.Ok? {
      assert commit.0 == cc;
      ExecFollows(destination, w.listing, objects, respond, h2 + commit.0, HARD_RESET + [cmd] + cc, dir);
    }
    DeployRunAfterScript(source, destination, repo, objects, catalog, w, respond, h);
    StagesFollow(HARD_RESET + [cmd], commit, cc, exec, tail);
  }

  /** A deployment whose reset and scripting succeeded issues the reset, the scripting
      command, and then the commit stage followed, when that succeeds, by the execution
      stage. */
  lemma DeployRunAfterScript(source: MssqlScripter.MssqlDatabase, destination: MssqlScripter.MssqlDatabase,
                             repo: Option<string>, objects: seq<string>, catalog: set<string>, w: World,
                             respond: Shell.Responder, h: seq<seq<string>>)
    requires objects != [] && forall o :: o in objects ==> MssqlScripter.RemoveBrackets(o) in catalog
    requires HardResetRun(repo, respond, h).1.Ok?
    requires MssqlScripter.ScriptObjectsRun(source, objects, destination.localPath, true, w.pathExists, catalog,
                                            respond, h + HARD_RESET).1.Ok?
    ensures var cmd := MssqlScripter.ScriptCommand(source, objects, destination.localPath, true);
      var h2 := h + HARD_RESET + [cmd];
      var commit := CommitRun(respond, h2, w.timestamp, objects);
      var exec := DeployChangesRun(destination, w.listing, objects, respond, h2 + commit.0);
      DeployRun(source, destination, repo, objects, catalog, w, respond, h)
        == if commit.1.Err? then (HARD_RESET + [cmd] + commit.0, commit.1)
           else (HARD_RESET + [cmd] + commit.0 + exec.0, exec.1)
  {
    HardResetGuards(repo, respond, h);
    var h1 := h + HARD_RESET;
    MssqlScripter.ScriptObjectsGuards(source, objects, destination.localPath, true, w.pathExists, catalog, respond, h1);
  }

  /** A commit stage that issues a prefix of its commands, all of them when it succeeds,
      followed on success by an execution stage that follows its own plan, follows the
      joined plan. */
  lemma StagesFollow(pre: seq<seq<string>>, commit: (seq<seq<string>>, Outcome), cc: seq<seq<string>>,
                     exec: (seq<seq<string>>, Outcome), tail: seq<seq<string>>)
    requires commit.0 <= cc && (commit.1.Ok? ==> commit.0 == cc)
    requires commit.1.Err? && commit.1.error.CalledProcessError? ==>
      commit.0 != [] && commit.1.error.cmd == commit.0[|commit.0| - 1]
    requires commit.1.Ok? ==> FollowsPlan((pre + cc + exec.0, exec.1), pre + cc + tail) && (exec.1.Ok? ==> exec.0 == tail)
    ensures var run := if commit.1.Err? then (pre + commit.0, commit.1) else (pre + commit.0 + exec.0, exec.1);
      FollowsPlan(run, pre + cc + tail) && (run.1.Ok? ==> run.0 == pre + cc + tail)
  {
    if commit.1.Err? {
      PrefixJoin(pre, commit.0, cc + tail);
      Assoc(pre, cc, tail);
      if commit.1.error.CalledProcessError? {
        assert (pre + commit.0)[|pre + commit.0| - 1] == commit.0[|commit.0| - 1];
      }
    }
  }

  /** For objects that are all in the source catalog, the deployment issues a prefix of
      its plan. A deployment that succeeds issues the whole plan with a local path, and a
      failed command is the last one issued: nothing after a failure runs and nothing
      before it is undone. */
  lemma DeployFollowsPlan(source: MssqlScripter.MssqlDatabase, destination: MssqlScripter.MssqlDatabase,
                          repo: Option<string>, objects: seq<string>, catalog: set<string>, w: World,
                          respond: Shell.Responder, h: seq<seq<string>>)
    requires objects != [] && forall o :: o in objects ==> MssqlScripter.RemoveBrackets(o) in catalog
    ensures var run := DeployRun(source, destination, repo, objects, catalog, w, respond, h);
      var cmd := MssqlScripter.ScriptCommand(source, objects, destination.localPath, true);
      var status := respond(h + HARD_RESET + [cmd], GIT_STATUS).stdout;
      var dir := if destination.localPath.Some? then destination.localPath.value else "";
      var plan := DeployPlan(source, destination, objects, w, status, dir);
      FollowsPlan(run, plan)
      && (run.1.Ok? ==> repo.Some? && repo.value != [] && destination.localPath.Some? && dir != [] && run.0 == plan)
      && (repo.None? ==> run == ([], Err(TypeError)))
      && (repo == Some("") ==> run == ([], Err(FileNotFoundError)))
  {
    var run := DeployRun(source, destination, repo, objects, catalog, w, respond, h);
    var cmd := MssqlScripter.ScriptCommand(source, objects, destination.localPath, true);
    var status := respond(h + HARD_RESET + [cmd], GIT_STATUS).stdout;
    var dir := if destination.localPath.Some? then destination.localPath.value else "";
    var cc := [GIT_STATUS] + CommitCommands(status, w.timestamp, objects);
    var tail := ExecuteCommands(destination, dir, SelectedPaths(dir, w.listing, objects));
    var plan := DeployPlan(source, destination, objects, w, status, dir);
    var reset := HardResetRun(repo, respond, h);
    HardResetGuards(repo, respond, h);
    if reset.1.Err? {
      assert plan == HARD_RESET + [cmd] + cc + tail;
      if repo.None? || repo.value == [] {
        PrefixJoin([], [], plan);
        return;
      }
      RunAllFollows(respond, h, HARD_RESET, [], [cmd] + cc + tail);
      assert [] + HARD_RESET == HARD_RESET && [] + reset.0 == reset.0;
      Assoc(HARD_RESET + [cmd], cc, tail);
      Assoc(HARD_RESET, [cmd], cc + tail);
      Assoc(HARD_RESET, [cmd] + cc, tail);
      Assoc(HARD_RESET, [cmd], cc);
      return;
    }
    var h1 := h + HARD_RESET;
    Shell.RunAllPrefix(respond, h, HARD_RESET);
    var script := MssqlScripter.ScriptObjectsRun(source, objects, destination.localPath, true, w.pathExists, catalog, respond, h1);
    if script.1.Err? {
      assert plan == HARD_RESET + [cmd] + cc + tail;
      MssqlScripter.ScriptObjectsGuards(source, objects, destination.localPath, true, w.pathExists, catalog, respond, h1);
      assert script.0 == [] || script.0 == [cmd];
      assert run.0 == HARD_RESET + script.0;
      assert script.0 <= [cmd] + (cc + tail);
      PrefixJoin(HARD_RESET, script.0, [cmd] + (cc + tail));
      Assoc(HARD_RESET + [cmd], cc, tail);
      Assoc(HARD_RESET, [cmd], cc + tail);
      return;
    }
    DeployAfterScript(source, destination, repo, objects, catalog, w, respond, h);
  }

  // The deployment

  /** `MssqlDatabaseDeployment`: the databases, the repository path and the requested
      objects, fixed at construction. */
  class MssqlDatabaseDeployment {
    const source: MssqlScripter.MssqlDatabase
    const destination: MssqlScripter.MssqlDatabase
    const localRepoPath: Option<string>
    const objects: seq<string>
    /** The source database's 'schema.name' entries, which both the object check and
        `script_objects` query. */
    const catalog: set<string>

    constructor (source: MssqlScripter.MssqlDatabase, destination: MssqlScripter.MssqlDatabase,
                 localRepoPath: Option<string>, objects: seq<string>, catalog: set<string>)
      ensures this.source == source && this.destination == destination && this.localRepoPath == localRepoPath
      ensures this.objects == objects && this.catalog == catalog
    {
      this.source := source;
      this.destination := destination;
      this.localRepoPath := localRepoPath;
      this.objects := objects;
      this.catalog := catalog;
    }

    /** `_do_hard_reset()`: the working directory moves to the repository first, so a
        missing or empty repository path fails before any git command. */
    method DoHardReset(runner: Shell.Runner) returns (r: Outcome)
      modifies runner
      ensures localRepoPath.None? ==> runner.issued == old(runner.issued) && r == Err(TypeError)
      ensures localRepoPath == Some("") ==> runner.issued == old(runner.issued) && r == Err(FileNotFoundError)
      ensures runner.issued == old(runner.issued) + HardResetRun(localRepoPath, runner.respond, old(runner.issued)).0
      ensures r == HardResetRun(localRepoPath, runner.respond, old(runner.issued)).1
    {
      if localRepoPath.None? {
        return Err(TypeError);
      }
      if localRepoPath.value == [] {
        return Err(FileNotFoundError);
      }
      ghost var respond := runner.respond;
      assert HARD_RESET == [GIT_RESET_HARD] + ([GIT_PULL] + ([GIT_CHECKOUT_MASTER] + []));
      Shell.RunAllStep(respond, runner.issued, GIT_RESET_HARD, [GIT_PULL] + ([GIT_CHECKOUT_MASTER] + []));
      var out := runner.Run(GIT_RESET_HARD);
      if out.Err? {
        return Err(out.error);
      }
      Shell.RunAllStep(respond, runner.issued, GIT_PULL, [GIT_CHECKOUT_MASTER] + []);
      out := runner.Run(GIT_PULL);
      if out.Err? {
        return Err(out.error);
      }
      Shell.RunAllStep(respond, runner.issued, GIT_CHECKOUT_MASTER, []);
      out := runner.Run(GIT_CHECKOUT_MASTER);
      if out.Err? {
        return Err(out.error);
      }
      return Ok(());
    }

    /** `script_objects()`: the objects scripted from the source into the destination's
        local path, one file per object. */
    method ScriptObjects(pathExists: bool, runner: Shell.Runner) returns (r: Result<Option<string>>)
      modifies runner
      ensures var run := MssqlScripter.ScriptObjectsRun(source, objects, destination.localPath, true, pathExists,
                                                        catalog, runner.respond, old(runner.issued));
        runner.issued == old(runner.issued) + run.0 && r == run.1
    {
      r := MssqlScripter.ScriptObjects(source, objects, destination.localPath, true, pathExists, catalog, runner);
    }

    /** `_commit_changes()` */
    method CommitChanges(timestamp: string, runner: Shell.Runner) returns (r: Outcome)
      modifies runner
      ensures var run := CommitRun(runner.respond, old(runner.issued), timestamp, objects);
        runner.issued == old(runner.issued) + run.0 && r == run.1
    {
      ghost var respond := runner.respond;
      var status := runner.Run(GIT_STATUS);
      if status.Err? {
        return Err(status.error);
      }
      ghost var cmds := CommitCommands(status.value, timestamp, objects);
      if !Contains(Lower(status.value), NOTHING_TO_COMMIT) {
        var message := "\"" + timestamp + " - " + JoinWith(objects, " ") + "\"";
        assert cmds == [GIT_ADD_ALL] + ([CommitCommand(timestamp, objects)] + ([GIT_PUSH] + []));
        Shell.RunAllStep(respond, runner.issued, GIT_ADD_ALL, [CommitCommand(timestamp, objects)] + ([GIT_PUSH] + []));
        var add := runner.Run(GIT_ADD_ALL);
        if add.Err? {
          return Err(add.error);
        }
        Shell.RunAllStep(respond, runner.issued, CommitCommand(timestamp, objects), [GIT_PUSH] + []);
        var commit := runner.Run(["git", "commit", "-m", message]);
        if commit.Err? {
          return Err(commit.error);
        }
      } else {
        assert cmds == [GIT_PUSH] + [];
      }
      Shell.RunAllStep(respond, runner.issued, GIT_PUSH, []);
      var push := runner.Run(GIT_PUSH);
      if push.Err? {
        return Err(push.error);
      }
      return Ok(());
    }

    /** `_get_sql_file_paths()` over the listing of the destination's local path:
        `os.path.abspath(None)` raises TypeError. */
    method GetSqlFilePaths(listing: seq<string>) returns (r: Result<seq<string>>)
      ensures destination.localPath.None? ==> r == Err(TypeError)
      ensures destination.localPath.Some? ==> r == Ok(SelectedPaths(destination.localPath.value, listing, objects))
    {
      if destination.localPath.None? {
        return Err(TypeError);
      }
      var dir := destination.localPath.value;
      var paths: seq<string> := [];
      var i := 0;
      while i < |listing|
        invariant 0 <= i <= |listing|
        invariant paths == SelectedPaths(dir, listing[..i], objects)
      {
        var o := listing[i];
        SelectedPathsStep(dir, listing, i, objects);
        var parts := SplitOn(o, '.');
        var lead := JoinWith(if |parts| >= 2 then parts[..2] else parts, ".");
        if Norm(lead) in MssqlScripter.Norms(objects) {
          paths := paths + [PathJoin(dir, o)];
        }
        i := i + 1;
      }
      assert listing[..|listing|] == listing;
      return Ok(paths);
    }

    /** `_deploy_changes()` */
    method DeployChanges(listing: seq<string>, runner: Shell.Runner) returns (r: Outcome)
      modifies runner
      ensures var run := DeployChangesRun(destination, listing, objects, runner.respond, old(runner.issued));
        runner.issued == old(runner.issued) + run.0 && r == run.1
    {
      if destination.localPath.None? {
        return Err(TypeError);
      }
      var dir := destination.localPath.value;
      if dir == [] {
        return Err(FileNotFoundError);
      }
      var found := GetSqlFilePaths(listing);
      r := ExecuteEach(destination, dir, found.value, runner);
    }

    /** `deploy()`: every step runs only after the previous one succeeded, and no step is
        undone. */
    method Deploy(w: World, runner: Shell.Runner) returns (r: Outcome)
      modifies runner
      ensures localRepoPath.None? ==> runner.issued == old(runner.issued) && r == Err(TypeError)
      ensures localRepoPath == Some("") ==> runner.issued == old(runner.issued) && r == Err(FileNotFoundError)
      ensures var run := DeployRun(source, destination, localRepoPath, objects, catalog, w, runner.respond, old(runner.issued));
        runner.issued == old(runner.issued) + run.0 && r == run.1
    {
      ghost var respond := runner.respond;
      ghost var h := runner.issued;
      ghost var run := DeployRun(source, destination, localRepoPath, objects, catalog, w, respond, h);
      ghost var reset := HardResetRun(localRepoPath, respond, h);
      r := DoHardReset(runner);
      if r.Err? {
        assert run == reset;
        return;
      }
      ghost var h1 := runner.issued;
      ghost var script := MssqlScripter.ScriptObjectsRun(source, objects, destination.localPath, true, w.pathExists,
                                                         catalog, respond, h1);
      var scripted := ScriptObjects(w.pathExists, runner);
      if scripted.Err? {
        assert run == (reset.0 + script.0, Err(script.1.error));
        return Err(scripted.error);
      }
      ghost var h2 := runner.issued;
      ghost var commit := CommitRun(respond, h2, w.timestamp, objects);
      r := CommitChanges(w.timestamp, runner);
      Assoc(h, reset.0, script.0);
      if r.Err? {
        assert run == (reset.0 + script.0 + commit.0, commit.1);
        Assoc(h, reset.0 + script.0, commit.0);
        return;
      }
      ghost var h3 := runner.issued;
      ghost var exec := DeployChangesRun(destination, w.listing, objects, respond, h3);
      r := DeployChanges(w.listing, runner);
      assert run == (reset.0 + script.0 + commit.0 + exec.0, exec.1);
      Assoc(h, reset.0 + script.0, commit.0);
      Assoc(h, reset.0 + script.0 + commit.0, exec.0);
    }
  }

  /** `_is_have_bad_objects()`: `get_objects_not_found` answers None for an empty list,
      and `len(None)` raises TypeError. */
  method HasBadObjects(objects: seq<string>, catalog: set<string>) returns (r: Result<bool>)
    ensures objects == [] ==> r == Err(TypeError)
    ensures objects != [] ==> r.Ok? && (r.value <==> exists o :: o in objects && MssqlScripter.RemoveBrackets(o) !in catalog)
  {
    var bad := MssqlScripter.GetObjectsNotFound(objects, catalog);
    if bad.None? {
      return Err(TypeError);
    }
    MssqlScripter.NotFoundMembers(objects, catalog);
    if |bad.value| > 0 {
      assert bad.value[0] in bad.value;
      return Ok(true);
    }
    return Ok(false);
  }

  /** `MssqlDatabaseDeployment(source, destination, local_repo_path, objects)`: the
      objects are checked against the source catalog before any other step. */
  method New(source: MssqlScripter.MssqlDatabase, destination: MssqlScripter.MssqlDatabase,
             localRepoPath: Option<string>, objects: seq<string>, catalog: set<string>)
    returns (r: Result<MssqlDatabaseDeployment>)
    ensures objects == [] ==> r == Err(TypeError)
    ensures objects != [] && (exists o :: o in objects && MssqlScripter.RemoveBrackets(o) !in catalog) ==> r == Err(ValueError)
    ensures r.Ok? <==> objects != [] && forall o :: o in objects ==> MssqlScripter.RemoveBrackets(o) in catalog
    ensures r.Ok? ==> fresh(r.value) && r.value.source == source && r.value.destination == destination
                      && r.value.localRepoPath == localRepoPath && r.value.objects == objects && r.value.catalog == catalog
  {
    var d := new MssqlDatabaseDeployment(source, destination, localRepoPath, objects, catalog);
    var bad := HasBadObjects(objects, catalog);
    if bad.Err? {
      return Err(bad.error);
    }
    if bad.value {
      return Err(ValueError);
    }
    return Ok(d);
  }

  // `DatabaseDeploymentConfig.get_database` and `DatabaseDeploymentCollections.do_deployment`

  /** One entry of the configuration's 'databases' list. */
  datatype DeploymentEntry = DeploymentEntry(alias: string, host: string, database: string, username: string,
                                             password: string, port: Option<int>, localPath: Option<string>)

  /** The `MssqlDatabase` an entry describes. */
  function EntryDatabase(e: DeploymentEntry): MssqlScripter.MssqlDatabase {
    MssqlScripter.NewMssqlDatabase(e.host, e.database, e.username, e.password, e.port, e.localPath)
  }

  /** `get_database(alias)`: the first entry whose trimmed, lower-cased alias equals the
      trimmed, lower-cased argument; None for an empty alias or no match. */
  method GetDatabase(databases: seq<DeploymentEntry>, alias: string) returns (r: Option<MssqlScripter.MssqlDatabase>)
    ensures alias == [] ==> r.None?
    ensures alias != [] ==> (r.Some? <==> exists i :: 0 <= i < |databases| && Norm(databases[i].alias) == Norm(alias))
    ensures r.Some? ==>
      exists i :: 0 <= i < |databases| && Norm(databases[i].alias) == Norm(alias)
        && (forall j :: 0 <= j < i ==> Norm(databases[j].alias) != Norm(alias)) && r.value == EntryDatabase(databases[i])
  {
    if alias == [] {
      return None;
    }
    var key := Norm(alias);
    var i := 0;
    while i < |databases|
      invariant 0 <= i <= |databases|
      invariant forall j :: 0 <= j < i ==> Norm(databases[j].alias) != key
    {
      if Norm(databases[i].alias) == key {
        return Some(EntryDatabase(databases[i]));
      }
      i := i + 1;
    }
    return None;
  }

  const STABLE := "stable"

  /** `do_deployment(deployment_set)`: only 'stable' (trimmed, case-insensitive) is
      deployed, with the objects handed to `deploy_to_stable`. `objects` is None when the
      instance never received them, since the class's initialiser is misspelt `__int__`. */
  function DoDeployment(deploymentSet: string, objects: Option<seq<string>>): (r: Result<seq<string>>)
    ensures Norm(deploymentSet) != STABLE ==> r == Err(NotImplementedError)
    ensures Norm(deploymentSet) == STABLE && objects.None? ==> r == Err(AttributeError)
    ensures r.Ok? <==> Norm(deploymentSet) == STABLE && objects.Some?
  {
    if Norm(deploymentSet) == STABLE then
      if objects.Some? then Ok(objects.value) else Err(AttributeError)
    else Err(NotImplementedError)
  }

  /** 'stable' is accepted with any case and any whitespace around it. */
  lemma DoDeploymentIgnoresCase(l: string, word: string, r: string, objects: seq<string>)
    requires AllSpace(l) && AllSpace(r) && Lower(word) == STABLE
    ensures DoDeployment(l + word + r, Some(objects)) == Ok(objects)
  {
    assert LowerChar(word[0]) == 's' && LowerChar(word[5]) == 'e';
    StripOfRuns(l, word, r);
  }
}

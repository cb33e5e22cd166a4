/**
 * External commands (mssql-scripter, git, sqlcmd) as seen by `subprocess.check_output`:
 * every invocation appends its argument list to a trace, and its reply (exit code and
 * standard output) comes from an oracle that may depend on everything issued before.
 */
module Shell {
  import opened Wrappers

  /** What one process invocation returns. */
  datatype Reply = Reply(exitCode: int, stdout: string)

  /** The environment's answer to the next command, given the commands already issued. */
  type Responder = (seq<seq<string>>, seq<string>) -> Reply

  /** `subprocess.check_output`: the standard output, or CalledProcessError on a non-zero exit. */
  function CheckOutput(reply: Reply, cmd: seq<string>): (r: Result<string>)
    ensures r.Ok? <==> reply.exitCode == 0
    ensures r.Ok? ==> r.value == reply.stdout
    ensures r.Err? ==> r.error == CalledProcessError(cmd)
  {
    if reply.exitCode == 0 then Ok(reply.stdout) else Err(CalledProcessError(cmd))
  }

  /** Replays `cmds` against `respond` after history `h`, stopping at the first failure;
      gives the commands issued and the outcome. */
  function RunAll(respond: Responder, h: seq<seq<string>>, cmds: seq<seq<string>>): (p: (seq<seq<string>>, Outcome))
    decreases |cmds|
  {
    if cmds == [] then ([], Ok(()))
    else match CheckOutput(respond(h, cmds[0]), cmds[0])
      case Err(e) => ([cmds[0]], Err(e))
      case Ok(_) =>
        var rest := RunAll(respond, h + [cmds[0]], cmds[1..]);
        ([cmds[0]] + rest.0, rest.1)
  }

  /** Commands run in order until one fails: what was issued is a prefix of `cmds`, all of
      of it when no command failed, and a failure is the last command issued. */
  lemma {:induction false} RunAllPrefix(respond: Responder, h: seq<seq<string>>, cmds: seq<seq<string>>)
    ensures |RunAll(respond, h, cmds).0| <= |cmds|
    ensures RunAll(respond, h, cmds).0 == cmds[..|RunAll(respond, h, cmds).0|]
    ensures RunAll(respond, h, cmds).1.Ok? ==> RunAll(respond, h, cmds).0 == cmds
    ensures RunAll(respond, h, cmds).1.Err? ==>
      var issued := RunAll(respond, h, cmds).0;
      issued != [] && RunAll(respond, h, cmds).1.error == CalledProcessError(issued[|issued| - 1])
    decreases |cmds|
  {
    if cmds != [] {
      RunAllPrefix(respond, h + [cmds[0]], cmds[1..]);
    }
  }

  /** Running `[c] + rest` runs `c`, then `rest` only when `c` succeeded. */
  lemma RunAllStep(respond: Responder, h: seq<seq<string>>, c: seq<string>, rest: seq<seq<string>>)
    ensures var run := RunAll(respond, h, [c] + rest);
      var next := RunAll(respond, h + [c], rest);
      match CheckOutput(respond(h, c), c)
      case Err(e) => run == ([c], Err(e))
      case Ok(_) => run == ([c] + next.0, next.1)
  {
    assert ([c] + rest)[0] == c && ([c] + rest)[1..] == rest;
  }

  /** The process runner: the trace of issued commands and the environment's responder. */
  class Runner {
    var issued: seq<seq<string>>
    const respond: Responder

    constructor (respond: Responder)
      ensures this.respond == respond && issued == []
    {
      this.respond := respond;
      issued := [];
    }

    /** Issues one command. */
    method Run(cmd: seq<string>) returns (r: Result<string>)
      modifies this
      ensures issued == old(issued) + [cmd]
      ensures r == CheckOutput(respond(old(issued), cmd), cmd)
    {
      r := CheckOutput(respond(issued, cmd), cmd);
      issued := issued + [cmd];
    }
  }

  /** Replaying `total` after history `h0` issued `done` first, reaching history `h`, with
      `rest` still to run. */
  ghost predicate Pending(respond: Responder, h0: seq<seq<string>>, total: seq<seq<string>>,
                          done: seq<seq<string>>, h: seq<seq<string>>, rest: seq<seq<string>>)
  {
    RunAll(respond, h0, total).0 == done + RunAll(respond, h, rest).0
    && RunAll(respond, h0, total).1 == RunAll(respond, h, rest).1
  }

  /** Running the first pending command: a failure ends the replay with its error, a
      success leaves the others pending. */
  lemma PendingStep(respond: Responder, h0: seq<seq<string>>, total: seq<seq<string>>,
                    done: seq<seq<string>>, h: seq<seq<string>>, c: seq<string>, rest: seq<seq<string>>)
    requires Pending(respond, h0, total, done, h, [c] + rest)
    ensures var out := CheckOutput(respond(h, c), c);
      (out.Err? ==> RunAll(respond, h0, total) == (done + [c], Err(out.error)))
      && (out.Ok? ==> Pending(respond, h0, total, done + [c], h + [c], rest))
  {
    RunAllStep(respond, h, c, rest);
    var next := RunAll(respond, h + [c], rest);
    Assoc(done, [c], next.0);
  }
}

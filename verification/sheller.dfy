/** The `Sheller` builder: the platform shell table, the resolution of the
    shell program from the environment, construction, `build`, and the
    `run`/`try_run` shorthands that build and then run. */
module Sheller {
  import opened Rust
  import opened Platform
  import opened Env
  import opened Process
  import L = Log
  import opened ShellerError
  import CommandExt

  /** `Metadata`: the variable that names the shell, the program used when
      it cannot be read, and the flags that precede the script. */
  datatype Metadata = Metadata(envKey: string, program: string, args: seq<string>)

  /** `DEFAULT_METADATA`, one table per target family. */
  function DefaultMetadata(f: Family): Metadata {
    match f
    case Unix => Metadata("SHELL", "/bin/sh", ["-c"])
    case Windows => Metadata("COMSPEC", "cmd.exe", ["/D", "/S", "/C"])
  }

  /** `parse_program`: never fails. A readable variable is used verbatim,
      even when empty; a missing or non-Unicode one yields the default
      program and exactly one debug record naming the reason. */
  function ParseProgram(f: Family, env: Environment): (r: L.Traced<string>)
    ensures var m := DefaultMetadata(f);
      m.envKey in env && env[m.envKey].Text? ==>
        r.value == env[m.envKey].text && r.log == []
    ensures var m := DefaultMetadata(f);
      m.envKey !in env ==>
        r.value == m.program && r.log == [L.Record(L.Debug, L.ShellFallback(m.program, m.envKey, NotPresent))]
    ensures var m := DefaultMetadata(f);
      m.envKey in env && env[m.envKey].NonUnicode? ==>
        r.value == m.program
        && r.log == [L.Record(L.Debug, L.ShellFallback(m.program, m.envKey, NotUnicode(env[m.envKey].raw)))]
  {
    var m := DefaultMetadata(f);
    match Var(env, m.envKey)
    case Ok(v) => L.Traced(v, [])
    case Err(e) => L.Traced(m.program, [L.Record(L.Debug, L.ShellFallback(m.program, m.envKey, e))])
  }

  /** The builder: the shell program, its fixed flags and the script. */
  datatype Sheller = Sheller(program: string, args: seq<string>, script: string)

  /** `Sheller::default`: the resolved program, the platform's flags and an
      empty script. */
  function Default(f: Family, env: Environment): (r: L.Traced<Sheller>)
    ensures r.value.args == DefaultMetadata(f).args
    ensures r.value.script == ""
    ensures r.value.program == ParseProgram(f, env).value
    ensures r.log == ParseProgram(f, env).log
  {
    var p := ParseProgram(f, env);
    L.Traced(Sheller(p.value, DefaultMetadata(f).args, ""), p.log)
  }

  /** `Sheller::new(script)`: the defaults with the script stored unchanged. */
  function New(f: Family, env: Environment, script: string): (r: L.Traced<Sheller>)
    ensures r.value.script == script
    ensures r.value.args == DefaultMetadata(f).args
    ensures r.value.program == ParseProgram(f, env).value
    ensures r.log == ParseProgram(f, env).log
  {
    var d := Default(f, env);
    L.Traced(d.value.(script := script), d.log)
  }

  /** `Sheller::build`: the program, then the flags, then the script as one
      final, unmodified argument. */
  function Build(s: Sheller): (c: Command)
    ensures c.program == s.program
    ensures c.args == s.args + [s.script]
  {
    Args(Command(s.program, []), s.args).Arg(s.script)
  }

  /** `Sheller::try_run`: build, then `CommandExt::try_run`. */
  function TryRun(s: Sheller, os: Os): (a: CommandExt.Attempt)
    ensures a == CommandExt.TryRun(Command(s.program, s.args + [s.script]), os)
    ensures |a.calls| >= 1 && a.calls[0] == SpawnCall(Command(s.program, s.args + [s.script]))
    ensures a.result.Ok? <==>
      var c := Command(s.program, s.args + [s.script]);
      os.spawn(c).Ok? && os.wait(os.spawn(c).value) == Ok(Exited(0))
    ensures var c := Command(s.program, s.args + [s.script]);
      && (os.spawn(c).Err? ==> a.result == Err(Io(os.spawn(c).error)))
      && (os.spawn(c).Ok? && os.wait(os.spawn(c).value).Err? ==>
            a.result == Err(Io(os.wait(os.spawn(c).value).error)))
      && (os.spawn(c).Ok? && os.wait(os.spawn(c).value).Ok? && os.wait(os.spawn(c).value).value != Exited(0) ==>
            a.result == Err(ProcessExitStatus(os.wait(os.spawn(c).value).value)))
    ensures CommandExt.WellFormedLog(Command(s.program, s.args + [s.script]), a.log, a.result)
  {
    CommandExt.TryRun(Build(s), os)
  }

  /** `Sheller::run`: build, then `CommandExt::run`; it panics exactly when
      `try_run` on the same builder fails. */
  function Run(s: Sheller, os: Os): (r: CommandExt.RunAttempt)
    ensures r.completion.Panicked? <==> TryRun(s, os).result.Err?
    ensures r.completion.Panicked? ==> Err(r.completion.error) == TryRun(s, os).result
    ensures r.log == TryRun(s, os).log && r.calls == TryRun(s, os).calls
    ensures r == CommandExt.Run(Command(s.program, s.args + [s.script]), os)
  {
    CommandExt.Run(Build(s), os)
  }

  /** `Sheller::new("")` is `Sheller::default()`. */
  lemma NewEmptyIsDefault(f: Family, env: Environment)
    ensures New(f, env, "") == Default(f, env)
  {
  }

  /** End to end: the built command runs the variable's value when it can be
      read and the platform default otherwise, with the platform flags
      followed by the script. */
  lemma BuildNewResolves(f: Family, env: Environment, script: string)
    ensures var c := Build(New(f, env, script).value);
      var m := DefaultMetadata(f);
      && c.args == m.args + [script]
      && (m.envKey in env && env[m.envKey].Text? ==> c.program == env[m.envKey].text)
      && (!(m.envKey in env && env[m.envKey].Text?) ==> c.program == m.program)
  {
  }

  /** The fixed tables on concrete inputs. With the variable unset,
      `Sheller::new("echo hello")` builds `/bin/sh -c "echo hello"` on Unix
      and `cmd.exe /D /S /C "echo hello"` on Windows, the argument vectors
      the build tests assert. As a further example, not taken from a test,
      `SHELL=/bin/bash` builds `/bin/bash -c "echo hello"`. */
  lemma BuildExamples()
    ensures Build(New(Unix, map[], "echo hello").value)
         == Command("/bin/sh", ["-c", "echo hello"])
    ensures Build(New(Windows, map[], "echo hello").value)
         == Command("cmd.exe", ["/D", "/S", "/C", "echo hello"])
    ensures Build(New(Unix, map["SHELL" := Text("/bin/bash")], "echo hello").value)
         == Command("/bin/bash", ["-c", "echo hello"])
  {
  }

  /** A variable that is set to the empty string is used as the program; it
      does not trigger the fallback. */
  lemma EmptyVariableUsedVerbatim(f: Family, env: Environment)
    requires DefaultMetadata(f).envKey in env
    requires env[DefaultMetadata(f).envKey] == Text("")
    ensures Build(New(f, env, "x").value).program == ""
    ensures New(f, env, "x").log == []
  {
  }
}

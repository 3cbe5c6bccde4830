/** The earlier resolver of the `shell-process` crate: `get_metadata`, with
    its own copy of the shell tables, an opt-in notice on standard error,
    and `new_shell_command`, which leaves appending the script to the
    caller. */
module ShellProcess {
  import opened Platform
  import opened Env
  import opened Process
  import Sheller

  const DebugKey: string := "SHELL_PROCESS_DEBUG"

  /** `is_debug`: the debug variable can be read. A variable that is set to
      a non-Unicode value does not count as set. */
  function IsDebug(env: Environment): (b: bool)
    ensures b <==> DebugKey in env && env[DebugKey].Text?
  {
    Var(env, DebugKey).Ok?
  }

  /** The variable each target family reads, and its fallback program. */
  function ShellKey(f: Family): string {
    match f
    case Unix => "SHELL"
    case Windows => "COMSPEC"
  }

  function FallbackProgram(f: Family): string {
    match f
    case Unix => "/bin/sh"
    case Windows => "cmd.exe"
  }

  function ShellArgs(f: Family): seq<string> {
    match f
    case Unix => ["-c"]
    case Windows => ["/D", "/S", "/C"]
  }

  /** The `"<KEY> not found: <reason>. Using fallback program: <program>."`
      line written to standard error. */
  datatype Notice = NotFound(envKey: string, error: VarError, fallback: string)

  datatype Metadata = Metadata(program: string, args: seq<string>)

  /** A resolution together with the lines it wrote to standard error. */
  datatype Resolution = Resolution(metadata: Metadata, stderr: seq<Notice>)

  /** `get_metadata`: never fails. The shell variable's value when it can be
      read, otherwise the fallback program; the notice is written only on
      fallback and only in debug mode. */
  function GetMetadata(f: Family, env: Environment): (r: Resolution)
    ensures r.metadata.args == ShellArgs(f)
    ensures ShellKey(f) in env && env[ShellKey(f)].Text? ==>
      r.metadata.program == env[ShellKey(f)].text && r.stderr == []
    ensures !(ShellKey(f) in env && env[ShellKey(f)].Text?) ==>
      r.metadata.program == FallbackProgram(f)
    ensures |r.stderr| <= 1
    ensures r.stderr != [] <==> IsDebug(env) && !(ShellKey(f) in env && env[ShellKey(f)].Text?)
    ensures r.stderr != [] ==>
      r.stderr == [NotFound(ShellKey(f), if ShellKey(f) in env then NotUnicode(env[ShellKey(f)].raw) else NotPresent,
                            FallbackProgram(f))]
  {
    match Var(env, ShellKey(f))
    case Ok(program) => Resolution(Metadata(program, ShellArgs(f)), [])
    case Err(e) =>
      var notice := if IsDebug(env) then [NotFound(ShellKey(f), e, FallbackProgram(f))] else [];
      Resolution(Metadata(FallbackProgram(f), ShellArgs(f)), notice)
  }

  /** A command together with the lines written to standard error while
      resolving it. */
  datatype ShellCommand = ShellCommand(command: Command, stderr: seq<Notice>)

  /** `new_shell_command`: the resolved program with the fixed flags and no
      script yet, after whatever notice `get_metadata` wrote. */
  function NewShellCommand(f: Family, env: Environment): (r: ShellCommand)
    ensures r.command.program == GetMetadata(f, env).metadata.program
    ensures r.command.args == ShellArgs(f)
    ensures r.stderr == GetMetadata(f, env).stderr
  {
    var m := GetMetadata(f, env);
    ShellCommand(Args(Command(m.metadata.program, []), m.metadata.args), m.stderr)
  }

  /** Debug mode decides only whether the notice is written; the resolved
      program and flags are the same with or without it. */
  lemma DebugDoesNotChangeMetadata(f: Family, env: Environment, v: OsValue)
    ensures GetMetadata(f, env[DebugKey := v]).metadata == GetMetadata(f, env).metadata
    ensures DebugKey !in env ==> GetMetadata(f, env).stderr == []
  {
  }

  /** Both crates carry the same tables: variable, fallback and flags. */
  lemma TablesAgree(f: Family)
    ensures ShellKey(f) == Sheller.DefaultMetadata(f).envKey
    ensures FallbackProgram(f) == Sheller.DefaultMetadata(f).program
    ensures ShellArgs(f) == Sheller.DefaultMetadata(f).args
  {
  }

  /** Appending the script to `new_shell_command()`, as the crate's own test
      does, gives the same command as `Sheller::new(script).build()`. */
  lemma AgreesWithSheller(f: Family, env: Environment, script: string)
    ensures NewShellCommand(f, env).command.Arg(script) == Sheller.Build(Sheller.New(f, env, script).value)
  {
  }
}

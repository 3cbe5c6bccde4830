/** The parts of `std::process` the library touches: the `Command` it builds,
    the exit status it classifies, and the operating system as an oracle that
    answers spawn and wait requests. */
module Process {
  import opened Rust

  /** `std::process::Command` as a launch description: a program and its
      argument vector, in order. */
  datatype Command = Command(program: string, args: seq<string>) {

    /** `Command::arg`: append one argument, unmodified. */
    function Arg(a: string): Command {
      Command(program, args + [a])
    }
  }

  /** `Command::args`: append each argument in turn with `Arg`. The result
      keeps the program and extends the argument vector by exactly `xs`. */
  function Args(c: Command, xs: seq<string>): (r: Command)
    ensures r.program == c.program
    ensures r.args == c.args + xs
    decreases |xs|
  {
    if xs == [] then c
    else
      var r := Args(c.Arg(xs[0]), xs[1..]);
      assert [xs[0]] + xs[1..] == xs;
      r
  }

  /** `std::io::Error`; `description` is what its `Display` prints. */
  datatype IoError = IoError(description: string)

  /** A spawned child process. */
  datatype Child = Child(id: nat)

  /** `std::process::ExitStatus`: a normal exit with a code, a termination
      by a signal (Unix), or a status that carries neither. */
  datatype ExitStatus = Exited(code: int) | Signaled(signal: int) | Indeterminate

  /** `ExitStatus::success`: the process exited normally with code 0. */
  predicate Success(s: ExitStatus) {
    s.Exited? && s.code == 0
  }

  /** `std::process::ExitStatusError`: a status that is not a success. */
  type ExitStatusError = s: ExitStatus | !Success(s) witness Exited(1)

  /** `ExitStatus::exit_ok`: `Ok` exactly on exit code 0; otherwise the
      status itself, as an error. */
  function ExitOk(s: ExitStatus): (r: Result<(), ExitStatusError>)
    ensures r.Ok? <==> s == Exited(0)
    ensures r.Err? ==> r.error == s
  {
    if Success(s) then Ok(()) else Err(s)
  }

  /** The operating system as seen by one run: what it answers when asked to
      spawn a command, and what waiting on a child reports. */
  datatype Os = Os(spawn: Command -> Result<Child, IoError>,
                   wait: Child -> Result<ExitStatus, IoError>)

  /** A request made to the operating system. */
  datatype SysCall = SpawnCall(command: Command) | WaitCall(child: Child)
}

/** `sheller::CommandExt` for `std::process::Command`: one run attempt of an
    already-built command, from the "Running command." event through spawn,
    wait and the classification of the exit status. */
module CommandExt {
  import opened Rust
  import opened Process
  import L = Log
  import opened ShellerError

  /** Everything one attempt produces: its result, the log records it
      emitted, and the requests it made to the operating system. */
  datatype Attempt = Attempt(result: Result<(), Error>, log: seq<L.Record>, calls: seq<SysCall>)

  /** The shape every attempt's log has: one "Running" record at info level
      first, then exactly one terminal record about the same command, which
      is a success (at info level) exactly when the attempt succeeded and is
      at error level otherwise. */
  predicate WellFormedLog(cmd: Command, log: seq<L.Record>, result: Result<(), Error>) {
    && |log| == 2
    && log[0] == L.Record(L.Info, L.Running(cmd))
    && L.CountTerminal(log) == 1
    && L.IsTerminal(log[1].event)
    && log[1].event.command == cmd
    && (log[1].event.Succeeded? <==> result.Ok?)
    && (log[1].level == L.Info <==> result.Ok?)
    && (log[1].level == L.Error <==> result.Err?)
  }

  /** `CommandExt::try_run`. A spawn failure is an I/O error and no wait is
      requested; a wait failure is an I/O error; an exit with code 0 is
      success; any other status (a nonzero code, a signal, neither) is a
      `ProcessExitStatus` error carrying that status. */
  function TryRun(cmd: Command, os: Os): (a: Attempt)
    ensures |a.calls| >= 1 && a.calls[0] == SpawnCall(cmd)
    ensures os.spawn(cmd).Err? ==>
      a.result == Err(Io(os.spawn(cmd).error)) && a.calls == [SpawnCall(cmd)]
    ensures os.spawn(cmd).Ok? ==>
      var child := os.spawn(cmd).value;
      && a.calls == [SpawnCall(cmd), WaitCall(child)]
      && (os.wait(child).Err? ==> a.result == Err(Io(os.wait(child).error)))
      && (os.wait(child).Ok? && os.wait(child).value != Exited(0) ==>
            a.result == Err(ProcessExitStatus(os.wait(child).value)))
    ensures a.result.Ok? <==>
      os.spawn(cmd).Ok? && os.wait(os.spawn(cmd).value) == Ok(Exited(0))
    ensures WellFormedLog(cmd, a.log, a.result)
    ensures os.spawn(cmd).Err? ==>
      a.log[1] == L.Record(L.Error, L.SpawnFailed(cmd, os.spawn(cmd).error))
    ensures os.spawn(cmd).Ok? && os.wait(os.spawn(cmd).value).Err? ==>
      a.log[1] == L.Record(L.Error, L.WaitFailed(cmd, os.wait(os.spawn(cmd).value).error))
    ensures os.spawn(cmd).Ok? && os.wait(os.spawn(cmd).value).Ok? ==>
      var status := os.wait(os.spawn(cmd).value).value;
      && (status == Exited(0) ==> a.log[1] == L.Record(L.Info, L.Succeeded(cmd)))
      && (status != Exited(0) ==> a.log[1] == L.Record(L.Error, L.Failed(cmd, status)))
  {
    var running := L.Record(L.Info, L.Running(cmd));
    var (result, terminal, calls) :=
      match os.spawn(cmd)
      case Err(e) =>
        (Err(FromIo(e)), L.Record(L.Error, L.SpawnFailed(cmd, e)), [SpawnCall(cmd)])
      case Ok(child) =>
        var calls := [SpawnCall(cmd), WaitCall(child)];
        match os.wait(child)
        case Err(e) =>
          (Err(FromIo(e)), L.Record(L.Error, L.WaitFailed(cmd, e)), calls)
        case Ok(status) =>
          match ExitOk(status)
          case Ok(_) =>
            (Ok(()), L.Record(L.Info, L.Succeeded(cmd)), calls)
          case Err(se) =>
            (Err(FromExitStatusError(se)), L.Record(L.Error, L.Failed(cmd, se)), calls);
    L.CountTerminalOfPair(running, terminal);
    Attempt(result, [running, terminal], calls)
  }

  /** How `run` ends for its caller: it returns, or it panics with the error
      `unwrap` found. */
  datatype Completion = Returned | Panicked(error: Error)

  datatype RunAttempt = RunAttempt(completion: Completion, log: seq<L.Record>, calls: seq<SysCall>)

  /** `Result::unwrap` on a unit result. */
  function Unwrap(r: Result<(), Error>): Completion {
    match r
    case Ok(_) => Returned
    case Err(e) => Panicked(e)
  }

  /** `CommandExt::run`: `try_run` followed by `unwrap`. It panics exactly
      when `try_run` fails, with that error, after the same log and the same
      requests to the operating system. */
  function Run(cmd: Command, os: Os): (r: RunAttempt)
    ensures r.completion.Panicked? <==> TryRun(cmd, os).result.Err?
    ensures r.completion.Panicked? ==> Err(r.completion.error) == TryRun(cmd, os).result
    ensures r.log == TryRun(cmd, os).log && r.calls == TryRun(cmd, os).calls
  {
    var a := TryRun(cmd, os);
    RunAttempt(Unwrap(a.result), a.log, a.calls)
  }

  /** `run` returns normally exactly when the command was spawned, waited
      for, and exited with code 0. */
  lemma RunReturnsIffExitZero(cmd: Command, os: Os)
    ensures Run(cmd, os).completion == Returned <==>
      os.spawn(cmd).Ok? && os.wait(os.spawn(cmd).value) == Ok(Exited(0))
  {
  }

  /** A shell that starts but whose script fails (for instance, a command
      the shell cannot find, reported as a nonzero exit code) is a
      `ProcessExitStatus` error, never an I/O error. */
  lemma ChildFailureIsNotIoError(cmd: Command, os: Os, code: int)
    requires os.spawn(cmd).Ok?
    requires os.wait(os.spawn(cmd).value) == Ok(Exited(code))
    requires code != 0
    ensures TryRun(cmd, os).result == Err(ProcessExitStatus(Exited(code)))
  {
  }
}

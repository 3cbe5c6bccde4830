/** The structured log events the library emits through `tracing`, as an
    abstract event sequence; subscribers and formatting are not modelled. */
module Log {
  import Env
  import opened Process

  datatype Level = Debug | Info | Error

  datatype Event =
    /** the shell variable could not be read; the default program is used */
    | ShellFallback(defaultProgram: string, envKey: string, error: Env.VarError)
    /** "Running command." */
    | Running(command: Command)
    /** "Failed to spawn command." */
    | SpawnFailed(command: Command, ioError: IoError)
    /** "Failed to wait for command." */
    | WaitFailed(command: Command, ioError: IoError)
    /** "Succeeded to run command." */
    | Succeeded(command: Command)
    /** "Failed to run command." */
    | Failed(command: Command, status: ExitStatusError)

  datatype Record = Record(level: Level, event: Event)

  /** An event that ends a run attempt. */
  predicate IsTerminal(e: Event) {
    e.SpawnFailed? || e.WaitFailed? || e.Succeeded? || e.Failed?
  }

  /** A value together with the log records produced while computing it. */
  datatype Traced<+T> = Traced(value: T, log: seq<Record>)

  /** The number of terminal events in a log. */
  function CountTerminal(log: seq<Record>): nat {
    if log == [] then 0
    else (if IsTerminal(log[0].event) then 1 else 0) + CountTerminal(log[1..])
  }

  /** Counting terminal events distributes over concatenation of logs. */
  lemma {:induction false} CountTerminalAppend(a: seq<Record>, b: seq<Record>)
    ensures CountTerminal(a + b) == CountTerminal(a) + CountTerminal(b)
    decreases |a|
  {
    if a == [] {
      assert a + b == b;
    } else {
      assert (a + b)[1..] == a[1..] + b;
      CountTerminalAppend(a[1..], b);
    }
  }

  /** A log made of one non-terminal record followed by one terminal record
      holds exactly one terminal event. */
  lemma CountTerminalOfPair(first: Record, last: Record)
    requires !IsTerminal(first.event) && IsTerminal(last.event)
    ensures CountTerminal([first, last]) == 1
  {
    assert [first, last] == [first] + [last];
    CountTerminalAppend([first], [last]);
  }
}

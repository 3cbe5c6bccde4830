# sheller, modelled in Dafny

A model of the `sheller` library and of the earlier resolver in the
`shell-process` crate. Both run one script through the system shell. The
model covers four parts:

- **Resolver.** It picks the shell program. The program is the value of `SHELL` (Unix) or `COMSPEC` (Windows) when that value can be read, and `/bin/sh` or `cmd.exe` otherwise. The fixed flags `-c` or `/D /S /C` come before the script.
- **Builder.** `Sheller::new(script).build()` yields a `std::process::Command` whose argument vector is the flags followed by the script, unmodified.
- **Classifier.** `CommandExt::try_run` asks the operating system to spawn the command and to wait for it. It maps what comes back to `Ok(())`, `Err(Io)` or `Err(ProcessExitStatus)` and logs one "Running" event and then one terminal event. `run` is `try_run` followed by `unwrap`.
- **Error type.** `sheller::Error` with its `From` conversions and its `Display` rendering.

Everything is a pure function. The target family (`Platform.Family`), the
environment (`Env.Environment`, a map from names to Unicode or non-Unicode
values) and the operating system (`Process.Os`, which says what spawning a
command and waiting on a child return) are inputs. Log events
(`Log.Record`), standard-error notices (`ShellProcess.Notice`) and requests
to the operating system (`Process.SysCall`) are outputs.

Modules: `Rust` (Result, Option), `Platform`, `Env` (`std::env::var`),
`Process` (`Command`, exit statuses, the OS oracle), `Log`, `ShellerError`,
`CommandExt`, `Sheller`, `ShellProcess`.

Behaviour of the code worth knowing:

- A `SHELL`/`COMSPEC` that is set but empty is used as the program, because `std::env::var` returns `Ok("")`. It does not trigger the fallback.
- The error type has only `Io` and `ProcessExitStatus`. Signal and code-less terminations are `ProcessExitStatus` errors, like nonzero codes.
- `is_debug` in `shell-process` tests `env::var(..).is_ok()`. A debug variable set to a non-Unicode value therefore does not turn on the notice.
- The library has no prefix/sink configuration and no sink lock, so none is modelled.

## Model

| member | source | states |
|---|---|---|
| Env.Var | crates/libs/sheller/src/lib.rs:60 | the lookup succeeds exactly when the variable is present with a Unicode value, returning it verbatim; otherwise it reports not-present exactly when the name is absent, and not-Unicode carrying the value found when it is present |
| Process.Args | crates/libs/sheller/src/lib.rs:148 | appending a list of arguments one by one keeps the program and extends the argument vector by exactly that list, in order |
| Process.ExitOk | crates/libs/sheller/src/lib.rs:307 | a status is accepted exactly when it is a normal exit with code 0; any other status is returned as the error |
| ShellerError.Display | crates/libs/sheller/src/lib.rs:13-20 | the rendering starts with "I/O error: " exactly for `Io` and with "Process exit status error: " exactly for `ProcessExitStatus` |
| ShellerError.DisplayRoundTrip | crates/libs/sheller/src/lib.rs:13-20 | reading the rendering back recovers the variant and the wrapped error's own text |
| ShellerError.DisplayDistinguishesErrors | crates/libs/sheller/src/lib.rs:13-20 | equal renderings imply the same variant and the same wrapped text |
| CommandExt.TryRun | crates/libs/sheller/src/lib.rs:297-317 | spawn failure gives `Err(Io)` with the spawn error converted by `From<io::Error>`, logs `SpawnFailed` with that error, and makes no wait request; wait failure gives `Err(Io)` with the wait error and logs `WaitFailed`; exit code 0 gives `Ok` and logs `Succeeded` at info; any other status gives `Err(ProcessExitStatus)` with that status converted by `From<ExitStatusError>` and logs `Failed` with it; every log is one info "Running" record then exactly one terminal record |
| CommandExt.Run | crates/libs/sheller/src/lib.rs:266-268 | `run` panics exactly when `try_run` fails, with the same error, after the same log and requests |
| CommandExt.RunReturnsIffExitZero | crates/libs/sheller/src/lib.rs:266-268 | `run` returns normally exactly when spawn and wait succeed and the exit code is 0 |
| CommandExt.ChildFailureIsNotIoError | crates/libs/sheller/src/lib.rs:303-315 | a shell that starts and whose script exits with a nonzero code yields a `ProcessExitStatus` error with that code, not an I/O error |
| Sheller.ParseProgram | crates/libs/sheller/src/lib.rs:59-69 | never fails: a readable variable is used verbatim with no log; a missing or non-Unicode one yields the default program and one debug record naming the variable, the default and the reason |
| Sheller.Default | crates/libs/sheller/src/lib.rs:81-89 | the default builder has the resolved program, the platform flags and an empty script, and carries the resolver's log |
| Sheller.New | crates/libs/sheller/src/lib.rs:125-133 | the builder stores the script unchanged, with the resolved program and the platform flags |
| Sheller.Build | crates/libs/sheller/src/lib.rs:146-151 | the command runs the builder's program with the flags followed by the script as one final argument |
| Sheller.TryRun | crates/libs/sheller/src/lib.rs:179-181 | it is `CommandExt::try_run` on program + flags + script, so it inherits the classification: spawn or wait failure is `Err(Io)` with that error, exit code 0 is `Ok`, any other status is `Err(ProcessExitStatus)` with that status; the log has the one-Running-one-terminal shape |
| Sheller.Run | crates/libs/sheller/src/lib.rs:164-166 | it panics exactly when `Sheller::try_run` on the same builder fails, with that same error, after the same log and the same spawn and wait requests; it is `CommandExt::run` on program + flags + script |
| Sheller.NewEmptyIsDefault | crates/libs/sheller/src/lib.rs:125-133 | a builder made with an empty script equals the default builder |
| Sheller.BuildNewResolves | crates/libs/sheller/src/lib.rs:125-151 | the built command's program is the variable's value when it is readable and the platform default otherwise; its arguments are the platform flags followed by the script |
| Sheller.BuildExamples | crates/tests/use/src/lib.rs:6-27 | with the variable unset, "echo hello" builds `/bin/sh -c "echo hello"` on Unix and `cmd.exe /D /S /C "echo hello"` on Windows, the argument vectors the tests assert; as an extra example not taken from the tests, `SHELL=/bin/bash` builds `/bin/bash -c "echo hello"` |
| Sheller.EmptyVariableUsedVerbatim | crates/libs/sheller/src/lib.rs:59-60 | a shell variable set to the empty string becomes the program, and no fallback is logged |
| ShellProcess.IsDebug | src/lib.rs:4-6 | debug mode is on exactly when the debug variable is present with a Unicode value |
| ShellProcess.GetMetadata | src/lib.rs:13-43 | never fails: the flags are the platform's; the program is the shell variable's value when readable, else the fallback; at most one stderr notice, written exactly on fallback in debug mode and naming the variable, the lookup error (not present, or not Unicode with its value) and the fallback program |
| ShellProcess.NewShellCommand | src/lib.rs:45-50 | the command has the resolved program and exactly the platform flags, with no script, and comes with the same stderr notice that resolution wrote |
| ShellProcess.DebugDoesNotChangeMetadata | src/lib.rs:16-24 | setting the debug variable to any value leaves the resolved program and flags unchanged; without it nothing is written |
| ShellProcess.TablesAgree | src/lib.rs:13-43 | the older crate's variable names, fallbacks and flags equal the `sheller` tables for both families |
| ShellProcess.AgreesWithSheller | src/lib.rs:62-66 | appending the script to `new_shell_command()` gives the same command as `Sheller::new(script).build()` |

## Left out

- Spawning, waiting, `output`, `status` and piped stdio are operating-system I/O. They appear only as the `Process.Os` oracle. The `sh` debug helper in `crates/libs/sheller/src/debug.rs` is left out for the same reason.
- The `tracing` subscriber and the text of log lines are a foreign library. Events are abstract `Log.Record` values whose command field stands for the `?self` debug rendering.
- The `run!`/`try_run!` macros in `crates/libs/sheller/src/macros.rs` only call Rust's `format!` and then `Sheller::new`. Formatting is not modelled.
- The `tree_kill` test in `src/lib.rs` uses Windows raw handles.
- The developer tool `crates/tools/dev/src/main.rs` and the readme examples are callers, not part of the library.
- `crates/tests/default/src/lib.rs` calls `Sheller::new()` with no argument and expects no script argument. That contradicts `Sheller::new(script)`, so no property is taken from it.
- The standard library's `Display` text for `io::Error` and `ExitStatusError` is not visible. The first is the `description` field and the second is a parameter of `ShellerError.Display`.
- Exit codes and signal numbers are unbounded integers. Classification depends only on "code 0 or not", so the width of the codes does not matter. The fact that Windows statuses always carry a code is not modelled.
- ShellProcess.GetMetadata: a failed write to standard error (for example a closed pipe), which makes `eprintln!` panic on the debug fallback path, is not modelled; the notice is always delivered.
- Environment keys are compared exactly. Windows' case-insensitive lookup of `COMSPEC` is not modelled.
- `src/lib.rs` imports `std::os::windows::io::AsRawHandle` unconditionally, so that crate compiles only for Windows. The model still states its Unix branch as written.
- The derived `Debug` implementations and the empty `impl std::error::Error for Error` have no behaviour to model.

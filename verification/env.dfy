/** The process environment and `std::env::var`, the only way either crate
    reads it. */
module Env {
  import Rust

  /** A value stored in the environment: Unicode text, or a value that does
      not decode as Unicode. `NonUnicode` means "does not decode" whatever
      its payload holds; the payload stands for the OS units (bytes on Unix,
      16-bit units on Windows) and is only carried into the error. */
  datatype OsValue = Text(text: string) | NonUnicode(raw: seq<bv8>)

  /** The environment at the moment of a lookup. Keys are compared exactly;
      the case-insensitive key matching of Windows is not modelled. */
  type Environment = map<string, OsValue>

  /** `std::env::VarError` */
  datatype VarError = NotPresent | NotUnicode(raw: seq<bv8>)

  /** `std::env::var(key)`: the value when it is present and Unicode, the
      reason otherwise. A present but empty value is a success. */
  function Var(env: Environment, key: string): (r: Rust.Result<string, VarError>)
    ensures r.Ok? <==> key in env && env[key].Text?
    ensures r.Ok? ==> r.value == env[key].text
    ensures r.Err? ==> (r.error.NotPresent? <==> key !in env)
    ensures r.Err? && key in env ==> r.error == NotUnicode(env[key].raw)
  {
    if key !in env then Rust.Err(NotPresent)
    else match env[key]
      case Text(s) => Rust.Ok(s)
      case NonUnicode(raw) => Rust.Err(NotUnicode(raw))
  }
}

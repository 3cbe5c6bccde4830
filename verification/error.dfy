/** `sheller::Error`: the two ways a run attempt can fail, the `From`
    conversions into it, and its `Display` rendering. */
module ShellerError {
  import opened Rust
  import opened Process

  datatype Error =
    | Io(io: IoError)
    | ProcessExitStatus(status: ExitStatusError)

  /** `impl From<io::Error> for Error` */
  function FromIo(e: IoError): (r: Error)
    ensures r.Io? && r.io == e
  {
    Io(e)
  }

  /** `impl From<ExitStatusError> for Error` */
  function FromExitStatusError(e: ExitStatusError): (r: Error)
    ensures r.ProcessExitStatus? && r.status == e
  {
    ProcessExitStatus(e)
  }

  const IoPrefix: string := "I/O error: "
  const ExitStatusPrefix: string := "Process exit status error: "

  /** `impl Display for Error`. How the standard library renders an
      `ExitStatusError` is not visible here, so it is a parameter. The
      rendering starts with the prefix of its variant and of no other. */
  function Display(e: Error, renderStatus: ExitStatusError -> string): (s: string)
    ensures e.Io? <==> IoPrefix <= s
    ensures e.ProcessExitStatus? <==> ExitStatusPrefix <= s
  {
    match e
    case Io(io) =>
      var s := IoPrefix + io.description;
      assert s[0] != ExitStatusPrefix[0];
      s
    case ProcessExitStatus(st) =>
      var s := ExitStatusPrefix + renderStatus(st);
      assert s[0] != IoPrefix[0];
      s
  }

  /** What a reader of a rendered error can recover from it: the variant and
      the text of the wrapped error. */
  datatype Rendered = RenderedIo(detail: string) | RenderedExitStatus(detail: string)

  /** Reads a rendering back: the inverse of `Display` on its image. */
  function ParseDisplay(s: string): Option<Rendered> {
    if IoPrefix <= s then Some(RenderedIo(s[|IoPrefix|..]))
    else if ExitStatusPrefix <= s then Some(RenderedExitStatus(s[|ExitStatusPrefix|..]))
    else None
  }

  /** The rendering keeps the variant and the wrapped error's own text. */
  lemma DisplayRoundTrip(e: Error, renderStatus: ExitStatusError -> string)
    ensures e.Io? ==> ParseDisplay(Display(e, renderStatus)) == Some(RenderedIo(e.io.description))
    ensures e.ProcessExitStatus? ==>
      ParseDisplay(Display(e, renderStatus)) == Some(RenderedExitStatus(renderStatus(e.status)))
  {
  }

  /** Two errors that render alike are of the same variant, and two I/O
      errors that render alike carry the same I/O error text. */
  lemma DisplayDistinguishesErrors(e1: Error, e2: Error, renderStatus: ExitStatusError -> string)
    requires Display(e1, renderStatus) == Display(e2, renderStatus)
    ensures e1.Io? <==> e2.Io?
    ensures e1.Io? ==> e1.io.description == e2.io.description
    ensures e1.ProcessExitStatus? ==> renderStatus(e1.status) == renderStatus(e2.status)
  {
    DisplayRoundTrip(e1, renderStatus);
    DisplayRoundTrip(e2, renderStatus);
  }
}

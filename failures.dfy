/**
  * The exceptions of the automation script, as values. `main` turns four of
  * them into exit code 1 and a keyboard interrupt into exit code 2; everything
  * under `Uncaught` leaves `main` as an exception.
  */
module Failures {
  import opened Common

  /**
    * What a ConfigurationError reports. Parser errors quote the offending line;
    * a misplaced list item also gives its 1-based line number.
    */
  datatype ConfigError =
    | ConfigFileNotFound(path: string)
    | InvalidListPlacement(line: nat, text: string)  // a "- " item whose innermost container is not a list
    | InvalidLine(text: string)                      // a line that is neither an item nor has a ':'
    | ScalarUnderList(text: string)                  // "key: value" whose innermost container is a list
    | NestedUnderList(text: string)                  // "key:" whose innermost container is a list
    | MissingSection(section: string)
    | UnsupportedVideoMode(mode: string)
    | VideoFileRequired
    | VideoFileMissing(path: string)

  /** A gRPC status code other than OK (1 = CANCELLED ... 16 = UNAUTHENTICATED). */
  type StatusCode = c: int | 1 <= c <= 16 witness 2

  const DEADLINE_EXCEEDED: StatusCode := 4
  const UNIMPLEMENTED: StatusCode := 12
  const UNAVAILABLE: StatusCode := 14

  /** Python exceptions that no handler of the script catches. */
  datatype PyError =
    | TypeError
    | ValueError
    | AttributeError
    | RuntimeError(detail: string)
    | RpcError(status: StatusCode)

  datatype LaunchError = ExecutableNotFound(path: string) | SpawnFailed(path: string)

  datatype Failure =
    | ConfigurationError(config: ConfigError)
    | ProcessLaunchError(launch: LaunchError)
    | ConnectionError(target: string)
    | TimeoutError(rpc: string)
    | KeyboardInterrupt
    | Uncaught(error: PyError)

  /**
    * How `main` ends on a failure raised inside its `try`: exit code 1 for the
    * four exceptions it catches, 2 for a keyboard interrupt, and None when
    * the exception leaves `main`.
    */
  function ExitCode(f: Failure): (code: Option<int>)
    ensures code == Some(1) <==> f.ConfigurationError? || f.ProcessLaunchError? || f.ConnectionError? || f.TimeoutError?
    ensures code == Some(2) <==> f.KeyboardInterrupt?
    ensures code.None? <==> f.Uncaught?
  {
    match f
    case KeyboardInterrupt => Some(2)
    case Uncaught(_) => None
    case _ => Some(1)
  }
}

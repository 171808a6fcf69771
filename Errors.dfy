// The crate-wide error type (src/error.rs): 25 kinds, each carrying a message,
// with a fixed recoverability table, a fixed machine-readable code per kind,
// the conversions from foreign errors and the context helper.

module Errors {
  import opened Common

  datatype ErrorKind =
    | ConfigError
    | DeviceNotFound
    | DeviceConnectionError
    | SimulatorNotFound
    | SimulatorStartError
    | SimulatorStopError
    | SimulatorResetError
    | ProjectNotFound
    | ProjectInitError
    | ProjectDeployError
    | BuildError
    | TestExecutionError
    | TestFileNotFound
    | AppInstallError
    | CommandError
    | McpServerError
    | ApiServerError
    | NetworkError
    | FileSystemError
    | SerializationError
    | AuthenticationError
    | PermissionError
    | TimeoutError
    | InvalidInput
    | Unknown

  /** One value of the Rust enum: the variant and the string it carries. */
  datatype KMobileError = KMobileError(kind: ErrorKind, message: string)

  type KResult<T> = Result<T, KMobileError>

  /** The human-readable prefix `Display` puts before the message. */
  function DisplayPrefix(k: ErrorKind): string
  {
    match k
    case ConfigError => "Configuration error: "
    case DeviceNotFound => "Device not found: "
    case DeviceConnectionError => "Device connection error: "
    case SimulatorNotFound => "Simulator not found: "
    case SimulatorStartError => "Simulator start error: "
    case SimulatorStopError => "Simulator stop error: "
    case SimulatorResetError => "Simulator reset error: "
    case ProjectNotFound => "Project not found: "
    case ProjectInitError => "Project initialization error: "
    case ProjectDeployError => "Project deploy error: "
    case BuildError => "Build error: "
    case TestExecutionError => "Test execution error: "
    case TestFileNotFound => "Test file not found: "
    case AppInstallError => "App installation error: "
    case CommandError => "Command execution error: "
    case McpServerError => "MCP server error: "
    case ApiServerError => "API server error: "
    case NetworkError => "Network error: "
    case FileSystemError => "File system error: "
    case SerializationError => "Serialization error: "
    case AuthenticationError => "Authentication error: "
    case PermissionError => "Permission error: "
    case TimeoutError => "Timeout error: "
    case InvalidInput => "Invalid input: "
    case Unknown => "Unknown error: "
  }

  /** `to_string()` of an error. */
  function Display(e: KMobileError): (r: string)
    ensures StartsWith(r, DisplayPrefix(e.kind)) && r[|DisplayPrefix(e.kind)|..] == e.message
  {
    DisplayPrefix(e.kind) + e.message
  }

  /** The kinds a caller may retry after: everything except configuration,
    * project, test-file, file-system, serialization, authentication,
    * permission, input and unknown errors. */
  function IsRecoverable(k: ErrorKind): (r: bool)
    ensures !r <==> k in {ConfigError, ProjectNotFound, ProjectInitError, TestFileNotFound,
                         FileSystemError, SerializationError, AuthenticationError,
                         PermissionError, InvalidInput, Unknown}
  {
    match k
    case ConfigError => false
    case DeviceNotFound => true
    case DeviceConnectionError => true
    case SimulatorNotFound => true
    case SimulatorStartError => true
    case SimulatorStopError => true
    case SimulatorResetError => true
    case ProjectNotFound => false
    case ProjectInitError => false
    case ProjectDeployError => true
    case BuildError => true
    case TestExecutionError => true
    case TestFileNotFound => false
    case AppInstallError => true
    case CommandError => true
    case McpServerError => true
    case ApiServerError => true
    case NetworkError => true
    case FileSystemError => false
    case SerializationError => false
    case AuthenticationError => false
    case PermissionError => false
    case TimeoutError => true
    case InvalidInput => false
    case Unknown => false
  }

  function ErrorCode(k: ErrorKind): string
  {
    match k
    case ConfigError => "CONFIG_ERROR"
    case DeviceNotFound => "DEVICE_NOT_FOUND"
    case DeviceConnectionError => "DEVICE_CONNECTION_ERROR"
    case SimulatorNotFound => "SIMULATOR_NOT_FOUND"
    case SimulatorStartError => "SIMULATOR_START_ERROR"
    case SimulatorStopError => "SIMULATOR_STOP_ERROR"
    case SimulatorResetError => "SIMULATOR_RESET_ERROR"
    case ProjectNotFound => "PROJECT_NOT_FOUND"
    case ProjectInitError => "PROJECT_INIT_ERROR"
    case ProjectDeployError => "PROJECT_DEPLOY_ERROR"
    case BuildError => "BUILD_ERROR"
    case TestExecutionError => "TEST_EXECUTION_ERROR"
    case TestFileNotFound => "TEST_FILE_NOT_FOUND"
    case AppInstallError => "APP_INSTALL_ERROR"
    case CommandError => "COMMAND_ERROR"
    case McpServerError => "MCP_SERVER_ERROR"
    case ApiServerError => "API_SERVER_ERROR"
    case NetworkError => "NETWORK_ERROR"
    case FileSystemError => "FILE_SYSTEM_ERROR"
    case SerializationError => "SERIALIZATION_ERROR"
    case AuthenticationError => "AUTHENTICATION_ERROR"
    case PermissionError => "PERMISSION_ERROR"
    case TimeoutError => "TIMEOUT_ERROR"
    case InvalidInput => "INVALID_INPUT"
    case Unknown => "UNKNOWN_ERROR"
  }

  /** The only kind whose code could be `c`, told apart by the code's length
    * and one or two of its letters. */
  function CodeCandidate(c: string): Option<ErrorKind>
  {
    var n := |c|;
    if n < 11 then None
    else if n == 11 then Some(BuildError)
    else if n == 12 then Some(ConfigError)
    else if n == 13 then
      (if c[0] == 'C' then Some(CommandError) else if c[0] == 'I' then Some(InvalidInput)
       else if c[0] == 'N' then Some(NetworkError) else if c[0] == 'T' then Some(TimeoutError)
       else Some(Unknown))
    else if n == 16 then
      (if c[0] == 'A' then Some(ApiServerError) else if c[0] == 'D' then Some(DeviceNotFound)
       else if c[0] == 'M' then Some(McpServerError) else Some(PermissionError))
    else if n == 17 then
      (if c[0] == 'A' then Some(AppInstallError) else if c[0] == 'F' then Some(FileSystemError)
       else Some(ProjectNotFound))
    else if n == 18 then Some(ProjectInitError)
    else if n == 19 then
      (if c[0] == 'T' then Some(TestFileNotFound) else if c[1] == 'E' then Some(SerializationError)
       else Some(SimulatorNotFound))
    else if n == 20 then
      (if c[0] == 'A' then Some(AuthenticationError) else if c[0] == 'P' then Some(ProjectDeployError)
       else if c[0] == 'S' then Some(SimulatorStopError) else Some(TestExecutionError))
    else if n == 21 then
      (if c[10] == 'R' then Some(SimulatorResetError) else Some(SimulatorStartError))
    else if n == 23 then Some(DeviceConnectionError)
    else None
  }

  /** Reading a code back: the inverse of `ErrorCode`. */
  function KindOfCode(c: string): (r: Option<ErrorKind>)
    ensures r.Some? ==> ErrorCode(r.value) == c
  {
    var k := CodeCandidate(c);
    if k.Some? && ErrorCode(k.value) == c then k else None
  }

  lemma ErrorCodeRoundTrip(k: ErrorKind)
    ensures KindOfCode(ErrorCode(k)) == Some(k)
  {
    CodeCandidateFound(k);
  }

  /** Every kind is the candidate for its own code. */
  lemma CodeCandidateFound(k: ErrorKind)
    ensures CodeCandidate(ErrorCode(k)) == Some(k)
  {
    if k.ConfigError? || k.DeviceNotFound? || k.DeviceConnectionError? {
      CodeCandidateOf1(k);
    } else if k.SimulatorNotFound? || k.SimulatorStartError? || k.SimulatorStopError? {
      CodeCandidateOf2(k);
    } else if k.SimulatorResetError? || k.ProjectNotFound? || k.ProjectInitError? {
      CodeCandidateOf3(k);
    } else if k.ProjectDeployError? || k.BuildError? || k.TestExecutionError? {
      CodeCandidateOf4(k);
    } else if k.TestFileNotFound? || k.AppInstallError? || k.CommandError? {
      CodeCandidateOf5(k);
    } else if k.McpServerError? || k.ApiServerError? || k.NetworkError? {
      CodeCandidateOf6(k);
    } else if k.FileSystemError? || k.SerializationError? || k.AuthenticationError? {
      CodeCandidateOf7(k);
    } else {
      CodeCandidateOf8(k);
    }
  }

  /** The codes of ConfigError, DeviceNotFound, DeviceConnectionError are read back as their kinds. */
  lemma CodeCandidateOf1(k: ErrorKind)
    requires k.ConfigError? || k.DeviceNotFound? || k.DeviceConnectionError?
    ensures CodeCandidate(ErrorCode(k)) == Some(k)
  {
  }

  /** The codes of SimulatorNotFound, SimulatorStartError, SimulatorStopError are read back as their kinds. */
  lemma CodeCandidateOf2(k: ErrorKind)
    requires k.SimulatorNotFound? || k.SimulatorStartError? || k.SimulatorStopError?
    ensures CodeCandidate(ErrorCode(k)) == Some(k)
  {
  }

  /** The codes of SimulatorResetError, ProjectNotFound, ProjectInitError are read back as their kinds. */
  lemma CodeCandidateOf3(k: ErrorKind)
    requires k.SimulatorResetError? || k.ProjectNotFound? || k.ProjectInitError?
    ensures CodeCandidate(ErrorCode(k)) == Some(k)
  {
  }

  /** The codes of ProjectDeployError, BuildError, TestExecutionError are read back as their kinds. */
  lemma CodeCandidateOf4(k: ErrorKind)
    requires k.ProjectDeployError? || k.BuildError? || k.TestExecutionError?
    ensures CodeCandidate(ErrorCode(k)) == Some(k)
  {
  }

  /** The codes of TestFileNotFound, AppInstallError, CommandError are read back as their kinds. */
  lemma CodeCandidateOf5(k: ErrorKind)
    requires k.TestFileNotFound? || k.AppInstallError? || k.CommandError?
    ensures CodeCandidate(ErrorCode(k)) == Some(k)
  {
  }

  /** The codes of McpServerError, ApiServerError, NetworkError are read back as their kinds. */
  lemma CodeCandidateOf6(k: ErrorKind)
    requires k.McpServerError? || k.ApiServerError? || k.NetworkError?
    ensures CodeCandidate(ErrorCode(k)) == Some(k)
  {
  }

  /** The codes of FileSystemError, SerializationError, AuthenticationError are read back as their kinds. */
  lemma CodeCandidateOf7(k: ErrorKind)
    requires k.FileSystemError? || k.SerializationError? || k.AuthenticationError?
    ensures CodeCandidate(ErrorCode(k)) == Some(k)
  {
  }

  /** The codes of PermissionError, TimeoutError, InvalidInput, Unknown are read back as their kinds. */
  lemma CodeCandidateOf8(k: ErrorKind)
    requires k.PermissionError? || k.TimeoutError? || k.InvalidInput? || k.Unknown?
    ensures CodeCandidate(ErrorCode(k)) == Some(k)
  {
  }

  /** Every kind has its own code: two errors with the same code are of the same kind. */
  lemma ErrorCodeInjective(a: ErrorKind, b: ErrorKind)
    ensures ErrorCode(a) == ErrorCode(b) <==> a == b
  {
    ErrorCodeRoundTrip(a);
    ErrorCodeRoundTrip(b);
  }

  /** The foreign errors the crate converts with `From`. */
  datatype ForeignError =
    | IoError(text: string)
    | JsonError(text: string)
    | TomlDecodeError(text: string)
    | TomlEncodeError(text: string)
    | HttpError(text: string)
    | BoxedError(text: string)

  function FromForeign(f: ForeignError): KMobileError
  {
    match f
    case IoError(t) => KMobileError(FileSystemError, t)
    case JsonError(t) => KMobileError(SerializationError, t)
    case TomlDecodeError(t) => KMobileError(SerializationError, t)
    case TomlEncodeError(t) => KMobileError(SerializationError, t)
    case HttpError(t) => KMobileError(NetworkError, t)
    case BoxedError(t) => KMobileError(Unknown, t)
  }

  /** A converted error keeps the foreign message; only a network failure
    * becomes a recoverable error. */
  lemma FromForeignKeepsMessage(f: ForeignError)
    ensures FromForeign(f).message == f.text
    ensures IsRecoverable(FromForeign(f).kind) <==> f.HttpError?
  {
  }

  /** `with_context`: an Ok passes through, an Err becomes an Unknown error
    * whose message is "{context}: {error}". */
  function WithContext<T>(r: Result<T, string>, context: string): (out: KResult<T>)
    ensures r.Ok? <==> out.Ok?
    ensures r.Ok? ==> out.value == r.value
    ensures r.Err? ==> out.error.kind == Unknown && !IsRecoverable(out.error.kind)
    ensures r.Err? ==>
              StartsWith(out.error.message, context + ": ") && out.error.message[|context| + 2..] == r.error
  {
    match r
    case Ok(v) => Ok(v)
    case Err(e) => Err(KMobileError(Unknown, context + ": " + e))
  }
}

/** Log-level selection and log-file placement shared by both crates
    (crates/shared/src/logging.rs). Writing the log is I/O and is not
    modelled. */
module Logging {
  import opened Wrappers
  import opened Text
  import opened Env

  datatype LevelFilter = Off | Error | Warn | Info | Debug | Trace

  /** The upper-case name each filter is selected by. */
  function LevelName(f: LevelFilter): string {
    match f
    case Off => "OFF"
    case Error => "ERROR"
    case Warn => "WARN"
    case Info => "INFO"
    case Debug => "DEBUG"
    case Trace => "TRACE"
  }

  /** The level `match` on `level.to_uppercase()`: the six names select
      their filter whatever their case; anything else selects Info. */
  function LevelFilterFor(level: string): (f: LevelFilter)
    ensures f != Info ==> Upper(level) == LevelName(f)
    ensures Upper(level) == LevelName(f) || f == Info
  {
    match Upper(level)
    case "OFF" => Off
    case "ERROR" => Error
    case "WARN" => Warn
    case "INFO" => Info
    case "DEBUG" => Debug
    case "TRACE" => Trace
    case _ => Info
  }

  /** Every filter is selected by its own name, and by that name in any
      mixture of case. */
  lemma LevelNameSelects(f: LevelFilter, spelled: string)
    requires Upper(spelled) == LevelName(f)
    ensures LevelFilterFor(spelled) == f
  {
  }

  /** Two spellings that differ only in case select the same filter. */
  lemma LevelFilterCaseInsensitive(a: string, b: string)
    requires Upper(a) == Upper(b)
    ensures LevelFilterFor(a) == LevelFilterFor(b)
  {
  }

  /** `init_logging`: `LOG_LEVEL`, defaulting to "INFO", mapped to a filter. */
  function InitLoggingLevel(env: Environment): (f: LevelFilter)
    ensures "LOG_LEVEL" !in env ==> f == Info
    ensures "LOG_LEVEL" in env ==> f == LevelFilterFor(env["LOG_LEVEL"])
  {
    LevelFilterFor(Var(env, "LOG_LEVEL").UnwrapOr("INFO"))
  }

  /** The file `debug_log` appends to: `$HOME/Documents/debug.log` on iOS
      (HOME defaulting to "/tmp"), `debug.log` elsewhere. */
  function LogPath(targetIsIos: bool, env: Environment): (path: string)
    ensures !targetIsIos ==> path == "debug.log"
    ensures targetIsIos ==> path == Var(env, "HOME").UnwrapOr("/tmp") + "/Documents/debug.log"
  {
    if targetIsIos then Var(env, "HOME").UnwrapOr("/tmp") + "/Documents/debug.log" else "debug.log"
  }

  /** The process-wide logger that `init_logging` installs through
      env_logger (the `log` crate's global). Only whether one is installed
      is modelled. */
  class GlobalLogger {
    var installed: bool

    /** A process starts without a logger. */
    constructor ()
      ensures !installed
    {
      installed := false;
    }

    /** `Builder::init`, as called at logging.rs:52-54: it installs the
        logger, and panics (`panicked`) when one is already installed. */
    method Init() returns (panicked: bool)
      modifies this
      ensures panicked <==> old(installed)
      ensures installed
    {
      panicked := installed;
      installed := true;
    }

    /** `Builder::try_init`, the call a re-initialising caller needs: it
        installs the logger unless one is installed already (`first`), and
        never panics. */
    method TryInit() returns (first: bool)
      modifies this
      ensures first <==> !old(installed)
      ensures installed
    {
      first := !installed;
      installed := true;
    }
  }
}

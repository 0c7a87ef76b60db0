/**
 * The PHP error and exception handlers that forward problems to BitL.
 * Error levels are PHP's E_* bit flags; the `error_reporting()` mask, the
 * handlers PHP had installed before and what the previous error handler
 * answers are inputs. A `Handler` is an opaque callable; what it does is
 * not modelled, only that it was called and with what.
 */
module ErrorHandling {
  import opened Wrappers
  import opened Values
  import opened HttpClient
  import opened Facade

  const E_ERROR: int := 1
  const E_WARNING: int := 2
  const E_PARSE: int := 4
  const E_NOTICE: int := 8
  const E_CORE_ERROR: int := 16
  const E_CORE_WARNING: int := 32
  const E_COMPILE_ERROR: int := 64
  const E_COMPILE_WARNING: int := 128
  const E_USER_ERROR: int := 256
  const E_USER_WARNING: int := 512
  const E_USER_NOTICE: int := 1024
  const E_STRICT: int := 2048
  const E_RECOVERABLE_ERROR: int := 4096
  const E_DEPRECATED: int := 8192
  const E_USER_DEPRECATED: int := 16384
  /** Every level at once. */
  const E_ALL: int := 32767

  /** The name of each level errorLevelToString knows. */
  const LevelNames: map<int, string> := map[
    E_ERROR := "Error",
    E_WARNING := "Warning",
    E_PARSE := "Parse Error",
    E_NOTICE := "Notice",
    E_CORE_ERROR := "Core Error",
    E_CORE_WARNING := "Core Warning",
    E_COMPILE_ERROR := "Compile Error",
    E_COMPILE_WARNING := "Compile Warning",
    E_USER_ERROR := "User Error",
    E_USER_WARNING := "User Warning",
    E_USER_NOTICE := "User Notice",
    E_STRICT := "Strict",
    E_RECOVERABLE_ERROR := "Recoverable Error",
    E_DEPRECATED := "Deprecated",
    E_USER_DEPRECATED := "User Deprecated"
  ]

  const UnknownLevel: string := "Unknown Error"

  /** errorLevelToString: the level's name, or "Unknown Error" for any other integer. */
  function ErrorLevelToString(level: int): (r: string)
    ensures level in LevelNames ==> r == LevelNames[level]
    ensures level !in LevelNames ==> r == UnknownLevel
    ensures r == UnknownLevel <==> level !in LevelNames
  {
    match level
    case 1 => "Error"
    case 2 => "Warning"
    case 4 => "Parse Error"
    case 8 => "Notice"
    case 16 => "Core Error"
    case 32 => "Core Warning"
    case 64 => "Compile Error"
    case 128 => "Compile Warning"
    case 256 => "User Error"
    case 512 => "User Warning"
    case 1024 => "User Notice"
    case 2048 => "Strict"
    case 4096 => "Recoverable Error"
    case 8192 => "Deprecated"
    case 16384 => "User Deprecated"
    case _ => UnknownLevel
  }

  /** Different known levels have different names. */
  lemma LevelNamesDistinct(a: int, b: int)
    requires a in LevelNames && b in LevelNames && a != b
    ensures ErrorLevelToString(a) != ErrorLevelToString(b)
  {
  }

  /** PHP integers are 64-bit two's complement: an integer's bits read as an unsigned number. */
  const Word: int := 0x1_0000_0000_0000_0000

  function Unsigned(x: int): (r: nat)
    ensures r < Word
    ensures 0 <= x < Word ==> r == x
    ensures -Word / 2 <= x < 0 ==> r == x + Word
  {
    x % Word
  }

  /** Bitwise AND of two non-negative numbers, bit by bit from the lowest. */
  function BitAnd(a: nat, b: nat): (r: nat)
    ensures r <= a && r <= b
    decreases a
  {
    if a == 0 || b == 0 then 0
    else 2 * BitAnd(a / 2, b / 2) + (if a % 2 == 1 && b % 2 == 1 then 1 else 0)
  }

  /** `error_reporting() & errno` is non-zero. */
  predicate Reported(mask: int, errno: int) {
    BitAnd(Unsigned(mask), Unsigned(errno)) != 0
  }

  /** The levels handleError sends as errors rather than warnings. */
  predicate IsFatal(errno: int) {
    errno == E_ERROR || errno == E_PARSE || errno == E_CORE_ERROR
    || errno == E_COMPILE_ERROR || errno == E_USER_ERROR
  }

  /** A mask of 0 reports nothing, and neither is level 0 ever reported. */
  lemma NothingReportedUnderZero(x: int)
    ensures !Reported(0, x) && !Reported(x, 0)
  {
  }

  function Pow2(k: nat): (r: nat)
    ensures r >= 1
  {
    if k == 0 then 1 else 2 * Pow2(k - 1)
  }

  /** A mask of the n lowest bits keeps every one of those bits. */
  lemma {:induction false} LowMaskKeepsBit(n: nat, k: nat)
    requires k < n
    ensures BitAnd(Pow2(n) - 1, Pow2(k)) == Pow2(k)
    decreases k
  {
    if k > 0 {
      assert (Pow2(n) - 1) / 2 == Pow2(n - 1) - 1;
      LowMaskKeepsBit(n - 1, k - 1);
    }
  }

  /** Each known level is one of the 15 lowest bits. */
  lemma LevelIsBit(level: int) returns (k: nat)
    requires level in LevelNames
    ensures k < 15 && level == Pow2(k)
  {
    if level == 1 { return 0; }
    if level == 2 { return 1; }
    if level == 4 { return 2; }
    if level == 8 { return 3; }
    if level == 16 { return 4; }
    if level == 32 { return 5; }
    if level == 64 { return 6; }
    if level == 128 { return 7; }
    if level == 256 { return 8; }
    if level == 512 { return 9; }
    if level == 1024 { return 10; }
    if level == 2048 { return 11; }
    if level == 4096 { return 12; }
    if level == 8192 { return 13; }
    assert Pow2(14) == 16384;
    return 14;
  }

  /** E_ALL reports every known level. */
  lemma AllLevelsReported(level: int)
    requires level in LevelNames
    ensures Reported(E_ALL, level)
  {
    var k := LevelIsBit(level);
    assert E_ALL == Pow2(15) - 1;
    LowMaskKeepsBit(15, k);
  }

  /** Powers of two multiply by adding exponents. */
  lemma {:induction false} Pow2Add(a: nat, b: nat)
    ensures Pow2(a + b) == Pow2(a) * Pow2(b)
    decreases a
  {
    if a > 0 {
      Pow2Add(a - 1, b);
    }
  }

  /** 2^64 is the size of a PHP integer's range. */
  lemma Pow2Word()
    ensures Pow2(64) == Word
  {
    assert Pow2(8) == 0x100;
    Pow2Add(8, 8);
    assert Pow2(16) == 0x100 * 0x100 == 0x1_0000;
    Pow2Add(16, 16);
    assert Pow2(32) == 0x1_0000 * 0x1_0000 == 0x1_0000_0000;
    Pow2Add(32, 32);
    assert Pow2(64) == 0x1_0000_0000 * 0x1_0000_0000;
  }

  /** error_reporting(-1), all 64 bits set, reports every level too. */
  lemma MinusOneReportsAll(level: int)
    requires level in LevelNames
    ensures Reported(-1, level)
  {
    var k := LevelIsBit(level);
    Pow2Word();
    LowMaskKeepsBit(64, k);
  }

  /** A mask without a level's bit suppresses it: E_ALL & ~E_NOTICE leaves notices out. */
  lemma MaskWithoutNotices()
    ensures !Reported(E_ALL - E_NOTICE, E_NOTICE)
    ensures Reported(E_ALL - E_NOTICE, E_WARNING)
  {
    assert !Reported(32759, 8);
    assert Reported(32759, 2);
  }

  /** What handleError sends to BitL. */
  datatype Report =
    | Suppressed
    | AsError(exception: Throwable)
    | AsWarning(message: string)

  /**
   * The report for an error: nothing when the mask excludes it; an
   * ErrorException for the fatal levels; otherwise a warning whose message
   * names the level. `trace` is the new exception's rendered trace.
   */
  function Classify(mask: int, errno: int, errstr: string, errfile: string, errline: int, trace: string): (r: Report)
    ensures r.Suppressed? <==> !Reported(mask, errno)
    ensures r.AsError? <==> Reported(mask, errno) && IsFatal(errno)
    ensures r.AsError? ==> r.exception == Throwable("ErrorException", errstr, errfile, errline, trace)
    ensures r.AsWarning? ==> r.message == "[" + ErrorLevelToString(errno) + "] " + errstr
  {
    if !Reported(mask, errno) then Suppressed
    else if IsFatal(errno) then AsError(Throwable("ErrorException", errstr, errfile, errline, trace))
    else AsWarning("[" + ErrorLevelToString(errno) + "] " + errstr)
  }

  /** An opaque PHP callable installed as a handler. */
  datatype Handler = Handler(id: nat)

  /** A call of a previous handler made by this one. */
  datatype Delegation =
    | ErrorCall(handler: Handler, errno: int, errstr: string, errfile: string, errline: int)
    | ExceptionCall(handler: Handler, exception: Throwable)

  /** The previous error handler is called for every reported error when one was saved. */
  function ErrorDelegation(report: Report, previous: Option<Handler>, errno: int, errstr: string,
                           errfile: string, errline: int): (r: seq<Delegation>)
    ensures |r| <= 1
    ensures |r| == 1 <==> !report.Suppressed? && previous.Some?
    ensures |r| == 1 ==> r[0] == ErrorCall(previous.value, errno, errstr, errfile, errline)
  {
    if report.Suppressed? || previous.None? then [] else [ErrorCall(previous.value, errno, errstr, errfile, errline)]
  }

  /**
   * What handleError hands back to PHP: a boolean, or the TypeError PHP
   * raises when the value returned through its `: bool` declaration cannot
   * be converted.
   */
  datatype Answer = Returned(handled: bool) | ReturnTypeError

  /**
   * A value returned through a `: bool` declaration without strict types:
   * booleans pass unchanged, integers and strings are converted as PHP
   * converts them to bool, and null, arrays and objects raise a TypeError.
   */
  function CoerceToBool(v: Value): (r: Answer)
    ensures r.ReturnTypeError? <==> v.Null? || v.Arr? || v.Obj?
    ensures v.Bool? ==> r == Returned(v.b)
    ensures r == Returned(false) <==> v == Bool(false) || v == Int(0) || v == Str("") || v == Str("0")
  {
    match v
    case Bool(b) => Returned(b)
    case Int(i) => Returned(i != 0)
    case Str(s) => Returned(s != "" && s != "0")
    case _ => ReturnTypeError
  }

  /**
   * handleError's answer to PHP: false for a suppressed error, the previous
   * handler's return value passed through the `: bool` declaration when one
   * was saved, false (let PHP handle it) otherwise.
   */
  function ErrorResult(report: Report, previous: Option<Handler>, previousResult: Value): (r: Answer)
    ensures report.Suppressed? || previous.None? ==> r == Returned(false)
    ensures !report.Suppressed? && previous.Some? ==> r == CoerceToBool(previousResult)
    ensures r.ReturnTypeError? <==>
              !report.Suppressed? && previous.Some? && (previousResult.Null? || previousResult.Arr? || previousResult.Obj?)
  {
    if report.Suppressed? then Returned(false) else if previous.Some? then CoerceToBool(previousResult) else Returned(false)
  }

  /** The registration state: whether the handlers are installed, and the handlers they replaced. */
  datatype Registration = Registration(registered: bool, previousError: Option<Handler>,
                                       previousException: Option<Handler>)

  /** register: records the handlers being replaced, unless already registered. */
  function AfterRegister(s: Registration, currentError: Option<Handler>, currentException: Option<Handler>): (r: Registration)
    ensures r.registered
    ensures s.registered ==> r == s
    ensures !s.registered ==> r == Registration(true, currentError, currentException)
  {
    if s.registered then s else Registration(true, currentError, currentException)
  }

  /** unregister: clears the flag; the saved handlers are kept. */
  function AfterUnregister(s: Registration): (r: Registration)
    ensures !r.registered
    ensures r.previousError == s.previousError && r.previousException == s.previousException
  {
    s.(registered := false)
  }

  /** What unregister does to one of PHP's handler slots. */
  datatype Restore = Untouched | Reinstall(handler: Handler) | RestorePrevious

  /** The saved handler is set again; without one, PHP's previous handler is restored. Nothing happens when not registered. */
  function RestoreAction(registered: bool, previous: Option<Handler>): (r: Restore)
    ensures r.Untouched? <==> !registered
    ensures r.Reinstall? <==> registered && previous.Some?
    ensures r.Reinstall? ==> r.handler == previous.value
  {
    if !registered then Untouched
    else if previous.Some? then Reinstall(previous.value)
    else RestorePrevious
  }

  /** register is idempotent. */
  lemma RegisterIdempotent(s: Registration, e1: Option<Handler>, x1: Option<Handler>, e2: Option<Handler>, x2: Option<Handler>)
    ensures AfterRegister(AfterRegister(s, e1, x1), e2, x2) == AfterRegister(s, e1, x1)
  {
  }

  /** unregister does nothing when not registered, and leaves the state unregistered otherwise. */
  lemma UnregisterNoOp(s: Registration)
    ensures !s.registered ==> AfterUnregister(s) == s
    ensures !AfterUnregister(s).registered
  {
  }

  /** Registering then unregistering ends unregistered, remembering the handlers registration replaced. */
  lemma RegisterUnregister(s: Registration, e: Option<Handler>, x: Option<Handler>)
    ensures !AfterUnregister(AfterRegister(s, e, x)).registered
    ensures !s.registered ==> AfterUnregister(AfterRegister(s, e, x)) == Registration(false, e, x)
    ensures s.registered ==> AfterUnregister(AfterRegister(s, e, x)) == AfterUnregister(s)
  {
  }

  class ErrorHandler {
    var registered: bool
    var previousErrorHandler: Option<Handler>
    var previousExceptionHandler: Option<Handler>
    /** The calls made to previous handlers, oldest first. */
    var delegated: seq<Delegation>

    /** The initial static state: not registered, nothing saved. */
    constructor ()
      ensures State() == Registration(false, None, None) && delegated == []
    {
      registered := false;
      previousErrorHandler := None;
      previousExceptionHandler := None;
      delegated := [];
    }

    function State(): Registration
      reads this
    {
      Registration(registered, previousErrorHandler, previousExceptionHandler)
    }

    /**
     * register: `currentError` and `currentException` are what PHP's
     * set_error_handler and set_exception_handler return, the handlers
     * being replaced.
     */
    method Register(currentError: Option<Handler>, currentException: Option<Handler>)
      modifies this
      ensures State() == AfterRegister(old(State()), currentError, currentException)
      ensures delegated == old(delegated)
    {
      if registered {
        return;
      }
      previousErrorHandler := currentError;
      previousExceptionHandler := currentException;
      registered := true;
    }

    /** unregister: returns what it does to PHP's error and exception handler slots. */
    method Unregister() returns (errorSlot: Restore, exceptionSlot: Restore)
      modifies this
      ensures State() == AfterUnregister(old(State()))
      ensures errorSlot == RestoreAction(old(registered), previousErrorHandler)
      ensures exceptionSlot == RestoreAction(old(registered), previousExceptionHandler)
      ensures delegated == old(delegated)
    {
      if !registered {
        return Untouched, Untouched;
      }
      errorSlot := if previousErrorHandler.Some? then Reinstall(previousErrorHandler.value) else RestorePrevious;
      exceptionSlot := if previousExceptionHandler.Some? then Reinstall(previousExceptionHandler.value) else RestorePrevious;
      registered := false;
    }

    /**
     * handleError: reports the error through the facade (an error for the
     * fatal levels, a warning otherwise, nothing when suppressed), calls the
     * previous handler, and answers PHP. `previousResult` is the value the
     * previous handler returns; a null there ends in a TypeError after the
     * report and the call.
     */
    method HandleError(bitl: BitL, mask: int, errno: int, errstr: string, errfile: string, errline: int,
                       trace: string, previousResult: Value, env: Environment) returns (handled: Answer)
      modifies this, bitl, bitl.client
      ensures State() == old(State())
      ensures var report := Classify(mask, errno, errstr, errfile, errline, trace);
        && handled == ErrorResult(report, previousErrorHandler, previousResult)
        && delegated == old(delegated) + ErrorDelegation(report, previousErrorHandler, errno, errstr, errfile, errline)
        && (report.Suppressed? ==> bitl.Untouched())
        && (report.AsError? ==> bitl.Gated("/error", ErrorReport(report.exception, None, env)))
        && (report.AsWarning? ==> bitl.Gated("/warning", WarningReport(report.message, errfile, errline, None, env)))
    {
      var report := Classify(mask, errno, errstr, errfile, errline, trace);
      if report.Suppressed? {
        return Returned(false);
      }
      var level := ErrorLevelToString(errno);
      if IsFatal(errno) {
        bitl.Error(Throwable("ErrorException", errstr, errfile, errline, trace), None, env);
      } else {
        bitl.Warning("[" + level + "] " + errstr, errfile, errline, None, env);
      }
      if previousErrorHandler.Some? {
        delegated := delegated + [ErrorCall(previousErrorHandler.value, errno, errstr, errfile, errline)];
        return CoerceToBool(previousResult);
      }
      return Returned(false);
    }

    /** handleException: reports the exception once, then hands it to the previous handler if one was saved. */
    method HandleException(bitl: BitL, e: Throwable, env: Environment)
      modifies this, bitl, bitl.client
      ensures State() == old(State())
      ensures bitl.Gated("/error", ErrorReport(e, None, env))
      ensures previousExceptionHandler.Some? ==> delegated == old(delegated) + [ExceptionCall(previousExceptionHandler.value, e)]
      ensures previousExceptionHandler.None? ==> delegated == old(delegated)
    {
      bitl.Error(e, None, env);
      if previousExceptionHandler.Some? {
        delegated := delegated + [ExceptionCall(previousExceptionHandler.value, e)];
      }
    }
  }
}

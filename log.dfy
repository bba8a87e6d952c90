/**
 * The leveled logger of log/log.go: level names, the process-wide current
 * level and output, the level gate in front of every print, and Fatal.
 */
module Log {
  import opened Wrappers

  /** log.Level is a Go int, so values outside the four constants exist. */
  type Level = int

  const DebugLevel: Level := 0
  const InfoLevel: Level := 1
  const ErrorLevel: Level := 2
  const DisabledLevel: Level := 3

  /** The four names toLevel accepts. */
  predicate IsLevelName(s: string)
  {
    s == "info" || s == "debug" || s == "error" || s == "disabled"
  }

  /** toString: a level's name, "unknown" outside the four constants. */
  function ToString(level: Level): (name: string)
    ensures DebugLevel <= level <= DisabledLevel <==> IsLevelName(name)
    ensures !(DebugLevel <= level <= DisabledLevel) ==> name == "unknown"
  {
    if level == InfoLevel then "info"
    else if level == DebugLevel then "debug"
    else if level == ErrorLevel then "error"
    else if level == DisabledLevel then "disabled"
    else "unknown"
  }

  /**
   * toLevel: the level named by `s`, or DisabledLevel together with an
   * "invalid log level" error for any other string.
   */
  function ToLevel(s: string): (r: (Level, Option<Error>))
    ensures r.1.None? <==> IsLevelName(s)
    ensures r.1.None? ==> ToString(r.0) == s
    ensures r.1.Some? ==> r.0 == DisabledLevel
  {
    if s == "info" then (InfoLevel, None)
    else if s == "debug" then (DebugLevel, None)
    else if s == "error" then (ErrorLevel, None)
    else if s == "disabled" then (DisabledLevel, None)
    else (DisabledLevel, Some(Message("invalid log level \"" + s + "\"")))
  }

  /** toLevel(toString(l)) == l for each of the four levels. */
  lemma LevelRoundTrip(level: Level)
    requires DebugLevel <= level <= DisabledLevel
    ensures ToLevel(ToString(level)) == (level, None)
  {
  }

  /** The package's loggers are values that carry only a level. */
  datatype Logger = Logger(level: Level)

  const Debug := Logger(DebugLevel)
  const Info := Logger(InfoLevel)
  const Error := Logger(ErrorLevel)

  /** The gate shared by Print, Printf and Println. */
  predicate Writes(l: Logger, current: Level, hasOutput: bool)
  {
    l.level >= current && hasOutput
  }

  /**
   * The package's `state`: the current level, whether a default logger is
   * set, and the lines that logger has written so far.
   */
  class Logging {
    var currentLevel: Level
    var hasOutput: bool
    var written: seq<string>

    /** The initial state: level Info, writing to standard error. */
    constructor ()
      ensures currentLevel == InfoLevel && hasOutput && written == []
    {
      currentLevel := InfoLevel;
      hasOutput := true;
      written := [];
    }

    /** SetOutput(w): a nil writer removes the default logger. */
    method SetOutput(present: bool)
      modifies this
      ensures hasOutput == present
      ensures currentLevel == old(currentLevel) && written == old(written)
    {
      hasOutput := present;
    }

    /** GetLevel() */
    function GetLevel(): (name: string)
      reads this
      ensures name == ToString(currentLevel)
    {
      ToString(currentLevel)
    }

    /**
     * SetLevel(s): an unknown name is an error and leaves the level alone;
     * otherwise GetLevel reports `s` from now on.
     */
    method SetLevel(s: string) returns (err: Option<Error>)
      modifies this
      ensures err.None? <==> IsLevelName(s)
      ensures err.None? ==> currentLevel == ToLevel(s).0 && GetLevel() == s
      ensures err.Some? ==> currentLevel == old(currentLevel)
      ensures hasOutput == old(hasOutput) && written == old(written)
    {
      var l := ToLevel(s);
      if l.1.Some? {
        return l.1;
      }
      currentLevel := l.0;
      return None;
    }

    /**
     * Print, Printf and Println of logger `l`, with the formatted line: it is
     * written iff the logger's level is at least the current one and a
     * default logger is set.
     */
    method Print(l: Logger, line: string)
      modifies this
      ensures written == if Writes(l, old(currentLevel), old(hasOutput)) then old(written) + [line] else old(written)
      ensures currentLevel == old(currentLevel) && hasOutput == old(hasOutput)
    {
      if l.level < currentLevel {
        return;
      }
      if hasOutput {
        written := written + [line];
      }
    }

    /**
     * Fatal and Fatalf: whatever the level, the line goes to the default
     * logger (or to the standard logger when none is set) and the process exits.
     */
    method Fatal(l: Logger, line: string) returns (exit: Outcome<()>)
      modifies this
      ensures exit == Aborted(line)
      ensures written == if old(hasOutput) then old(written) + [line] else old(written)
      ensures currentLevel == old(currentLevel) && hasOutput == old(hasOutput)
    {
      if hasOutput {
        written := written + [line];
      }
      return Aborted(line);
    }
  }

  /** With the initial level, the Debug logger is gated off and Info is not. */
  lemma InitialLevelSuppressesDebug()
    ensures !Writes(Debug, InfoLevel, true)
    ensures Writes(Info, InfoLevel, true)
  {
  }

  /** Once SetLevel("debug") has succeeded, Debug lines are written again. */
  lemma DebugLevelLetsDebugThrough(hasOutput: bool)
    ensures Writes(Debug, ToLevel("debug").0, hasOutput) <==> hasOutput
  {
  }

  /** Without an output no level lets a print through. */
  lemma NoOutputWritesNothing(l: Logger, current: Level)
    ensures !Writes(l, current, false)
  {
  }
}

/**
 * The leveled logger: one mutable threshold, a parser for level names and
 * the filter that decides which messages are written.
 */
module Logger {
  import opened Wrappers
  import Text

  /** A log level is a Go `int`; the named levels are 0 to 3, in increasing severity. */
  type LogLevel = int

  const DEBUG: LogLevel := 0
  const INFO: LogLevel := 1
  const WARN: LogLevel := 2
  const ERROR: LogLevel := 3

  /** The table of level names. */
  const LevelNames: map<LogLevel, string> :=
    map[DEBUG := "DEBUG", INFO := "INFO", WARN := "WARN", ERROR := "ERROR"]

  /** A level's name; a level missing from the table reads as the empty string. */
  function LevelName(level: LogLevel): string {
    if level in LevelNames then LevelNames[level] else ""
  }

  /** The level a name denotes, ignoring case; `None` for an unknown name. */
  function ParseLevel(s: string): (r: Option<LogLevel>)
    ensures r.Some? <==> Text.ToLower(s) in {"debug", "info", "warn", "warning", "error"}
    ensures r.Some? ==> r.value in LevelNames
  {
    var t := Text.ToLower(s);
    if t == "debug" then Some(DEBUG)
    else if t == "info" then Some(INFO)
    else if t == "warn" || t == "warning" then Some(WARN)
    else if t == "error" then Some(ERROR)
    else None
  }

  /** Parsing ignores case: two names that lower-case alike parse alike. */
  lemma ParseLevelIgnoresCase(s: string, s': string)
    requires Text.ToLower(s) == Text.ToLower(s')
    ensures ParseLevel(s) == ParseLevel(s')
  {
  }

  /** Every level's own name parses back to that level. */
  lemma ParseLevelName(level: LogLevel)
    requires level in LevelNames
    ensures ParseLevel(LevelName(level)) == Some(level)
  {
    var name := LevelName(level);
    var lower := Text.ToLower(name);
    if level == DEBUG {
      assert lower == "debug";
    } else if level == INFO {
      assert lower == "info";
    } else if level == WARN {
      assert lower == "warn";
    } else {
      assert lower == "error";
    }
  }

  /** The long spelling "warning" is an alias of WARN. */
  lemma ParseLevelWarning(s: string)
    requires Text.ToLower(s) == "warning"
    ensures ParseLevel(s) == Some(WARN)
  {
  }

  /** The filter: a message is written when its level is at least the threshold. */
  predicate Emits(level: LogLevel, threshold: LogLevel) {
    level >= threshold
  }

  /** A written line starts with the level's name in brackets. */
  function FormatLine(level: LogLevel, message: string): (line: string)
    ensures |line| == |LevelName(level)| + 3 + |message|
    ensures line[..|LevelName(level)| + 3] == "[" + LevelName(level) + "] "
  {
    "[" + LevelName(level) + "] " + message
  }

  /** The levels are ordered DEBUG < INFO < WARN < ERROR, so a message passing the filter at a threshold passes it at every lower one, and a more severe message passes whenever a less severe one does. */
  lemma EmitsMonotone(level: LogLevel, level': LogLevel, threshold: LogLevel, threshold': LogLevel)
    requires Emits(level, threshold)
    requires level <= level' && threshold' <= threshold
    ensures Emits(level', threshold')
  {
  }

  /** With a threshold that is a named level, ERROR messages always pass. */
  lemma ErrorAlwaysEmitted(threshold: LogLevel)
    requires threshold in LevelNames
    ensures Emits(ERROR, threshold)
  {
  }

  /** The logger's state: the package-level threshold. */
  class Logger {
    var currentLevel: LogLevel

    /** The threshold starts at INFO. */
    constructor ()
      ensures currentLevel == INFO
    {
      currentLevel := INFO;
    }

    method SetLevel(level: LogLevel)
      modifies this
      ensures currentLevel == level
    {
      currentLevel := level;
    }

    /** Sets the threshold from a name; an unknown name is an error and changes nothing. */
    method SetLevelFromString(levelStr: string) returns (err: Outcome)
      modifies this
      ensures err.Pass? <==> ParseLevel(levelStr).Some?
      ensures err.Pass? ==> currentLevel == ParseLevel(levelStr).value
      ensures err.Fail? ==> err.message == "invalid log level: " + levelStr && currentLevel == old(currentLevel)
      ensures currentLevel in LevelNames || currentLevel == old(currentLevel)
    {
      var lower := Text.ToLower(levelStr);
      if lower == "debug" {
        currentLevel := DEBUG;
      } else if lower == "info" {
        currentLevel := INFO;
      } else if lower == "warn" || lower == "warning" {
        currentLevel := WARN;
      } else if lower == "error" {
        currentLevel := ERROR;
      } else {
        return Fail("invalid log level: " + levelStr);
      }
      err := Pass;
    }

    method GetLevel() returns (level: LogLevel)
      ensures level == currentLevel
    {
      level := currentLevel;
    }

    /** Writes `message` at `level`: the line written, or `None` when the filter drops it. */
    method Logf(level: LogLevel, message: string) returns (line: Option<string>)
      ensures line.Some? <==> level >= currentLevel
      ensures line.Some? ==> line.value == "[" + LevelName(level) + "] " + message
    {
      if Emits(level, currentLevel) {
        line := Some(FormatLine(level, message));
      } else {
        line := None;
      }
    }

    /**
     * Logs `message` at ERROR and then stops the process, whose last words
     * are `message` itself; the ERROR line is written whenever the threshold
     * is at most ERROR.
     */
    method Fatal(message: string) returns (line: Option<string>, exitMessage: string)
      ensures currentLevel <= ERROR ==> line == Some("[ERROR] " + message)
      ensures currentLevel > ERROR ==> line == None
      ensures exitMessage == message
    {
      assert LevelNames[ERROR] == "ERROR";
      assert "[" + LevelName(ERROR) + "] " + message == "[ERROR] " + message;
      line := Logf(ERROR, message);
      exitMessage := message;
    }
  }
}

/**
 * PAD-Debugger/src/logger.hpp: the debugger's logger.  Its static state, the
 * minimum level and the log file, is one `Logger` object here.  A message
 * below the minimum level is dropped; any other becomes the line
 * "[<time>] [<LEVEL>] <message>\n", which goes to standard error for
 * warnings and errors, or for everything once the minimum level is DEBUG,
 * and to standard output otherwise, and is appended to the log file when
 * one is open.  The time stamp comes from the clock and is a parameter.
 */
module Logging {
  import opened Wrappers

  /** The levels, in increasing order of severity. */
  datatype Level = Debug | Info | Warning | Error {
    /** The numeric value of the level. */
    function Rank(): (r: nat)
      ensures r <= 3
    {
      match this
      case Debug => 0
      case Info => 1
      case Warning => 2
      case Error => 3
    }
  }

  /** Levels compare by their numeric value, so the order is total and distinct levels differ in rank. */
  lemma RankInjective(a: Level, b: Level)
    ensures a.Rank() == b.Rank() <==> a == b
  {
  }

  /** The name a level is printed under. */
  function LevelName(l: Level): (name: string)
    ensures |name| >= 4
  {
    match l
    case Debug => "DEBUG"
    case Info => "INFO"
    case Warning => "WARNING"
    case Error => "ERROR"
  }

  /** The level printed under `name`, if any. */
  function LevelNamed(name: string): Option<Level> {
    if name == "DEBUG" then Some(Debug)
    else if name == "INFO" then Some(Info)
    else if name == "WARNING" then Some(Warning)
    else if name == "ERROR" then Some(Error)
    else None
  }

  /** A printed level name reads back as that level, so no two levels print alike. */
  lemma LevelNameRoundTrip(l: Level)
    ensures LevelNamed(LevelName(l)) == Some(l)
  {
  }

  /** A message is emitted exactly when its level is not below the minimum. */
  predicate Emitted(min: Level, level: Level) {
    !(level.Rank() < min.Rank())
  }

  /** An emitted line goes to standard error for warnings and errors, and for every level once the minimum is DEBUG. */
  predicate ToStderr(min: Level, level: Level) {
    level.Rank() >= Warning.Rank() || min.Rank() <= Debug.Rank()
  }

  /** The line for `message` at `level`, stamped with `stamp`. */
  function FormatLine(stamp: string, level: Level, message: string): (line: string)
    ensures |line| == |stamp| + |LevelName(level)| + |message| + 7
  {
    "[" + stamp + "] [" + LevelName(level) + "] " + message + "\n"
  }

  /**
   * The line can be taken apart again: the stamp, the level name and the
   * message stand at fixed places between the brackets and the final
   * newline, so a reader of the log recovers all three.
   */
  lemma FormatLineFields(stamp: string, level: Level, message: string)
    ensures var line := FormatLine(stamp, level, message);
            var n := |stamp|;
            var k := |LevelName(level)|;
            line[0] == '[' && line[1..n + 1] == stamp && line[n + 1..n + 4] == "] ["
            && LevelNamed(line[n + 4..n + 4 + k]) == Some(level)
            && line[n + 4 + k..n + 6 + k] == "] "
            && line[n + 6 + k..|line| - 1] == message && line[|line| - 1] == '\n'
  {
    var pre, name, post := "[" + stamp + "] [", LevelName(level), "] " + message + "\n";
    assert FormatLine(stamp, level, message) == pre + name + post;
    Pieces(pre, name, post);
    Pieces("[", stamp, "] [");
    Pieces("] ", message, "\n");
    LevelNameRoundTrip(level);
  }

  /** The three parts of a concatenation stand at their places in it. */
  lemma Pieces(a: string, b: string, c: string)
    ensures var s := a + b + c;
            s[..|a|] == a && s[|a|..|a| + |b|] == b && s[|a| + |b|..] == c
  {
  }

  /** Messages at WARNING or ERROR are never dropped, whatever the minimum level. */
  lemma WarningsAlwaysEmitted(min: Level, level: Level)
    requires level.Rank() >= Warning.Rank()
    ensures Emitted(min, level) <==> min.Rank() <= level.Rank()
    ensures Emitted(min, level) ==> ToStderr(min, level)
  {
  }

  /** With the default minimum INFO, DEBUG is dropped, INFO goes to standard output, and WARNING and ERROR to standard error. */
  lemma DefaultRouting(level: Level)
    ensures Emitted(Info, level) <==> level != Debug
    ensures Emitted(Info, level) ==> (ToStderr(Info, level) <==> level in {Warning, Error})
  {
  }

  /** The logger's static state and what it has written to each destination. */
  class Logger {
    var minLevel: Level
    /** Whether the log file stream is open. */
    var fileOpen: bool
    /** Whether the stream still accepts writes: a second `open` on an open stream sets its fail bit. */
    var fileGood: bool
    var stdout: seq<string>
    var stderr: seq<string>
    var file: seq<string>

    /** The static definitions: minimum level INFO and no log file. */
    constructor ()
      ensures minLevel == Info && !fileOpen && stdout == [] && stderr == [] && file == []
    {
      minLevel := Info;
      fileOpen, fileGood := false, true;
      stdout, stderr, file := [], [], [];
    }

    /** `Logger::log`, with `stamp` the formatted current time. */
    method Log(level: Level, message: string, stamp: string)
      modifies this`stdout, this`stderr, this`file
      ensures var line := FormatLine(stamp, level, message);
              var shown := Emitted(minLevel, level);
              stderr == old(stderr) + (if shown && ToStderr(minLevel, level) then [line] else [])
              && stdout == old(stdout) + (if shown && !ToStderr(minLevel, level) then [line] else [])
              && file == old(file) + (if shown && fileOpen && fileGood then [line] else [])
    {
      if level.Rank() < minLevel.Rank() {
        return;
      }
      var levelStr: string;
      match level {
        case Debug => levelStr := "DEBUG";
        case Info => levelStr := "INFO";
        case Warning => levelStr := "WARNING";
        case Error => levelStr := "ERROR";
      }
      var logMsg := "[" + stamp + "] [" + levelStr + "] " + message + "\n";
      if level.Rank() >= Warning.Rank() || minLevel.Rank() <= Debug.Rank() {
        stderr := stderr + [logMsg];
      } else {
        stdout := stdout + [logMsg];
      }
      if fileOpen && fileGood {
        file := file + [logMsg];
      }
    }

    /** `Logger::set_level`. */
    method SetLevel(level: Level)
      modifies this`minLevel
      ensures minLevel == level
    {
      minLevel := level;
    }

    /**
     * `Logger::set_log_file`, with `opens` whether the file can be opened
     * for appending.  An open on a closed stream opens it or leaves it
     * closed; an open on an open stream fails and leaves it open but
     * refusing writes.  The result is whether the stream is open.
     */
    method SetLogFile(opens: bool) returns (ok: bool)
      modifies this`fileOpen, this`fileGood
      ensures ok == fileOpen
      ensures old(fileOpen) ==> fileOpen && !fileGood
      ensures !old(fileOpen) ==> fileOpen == opens && fileGood == opens
    {
      if fileOpen {
        fileGood := false;
      } else {
        fileOpen, fileGood := opens, opens;
      }
      return fileOpen;
    }
  }
}

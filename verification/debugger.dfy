/**
 * PAD-Debugger/src/main.cpp: the debugger's command line.  `parse_arguments`
 * fills a `DebuggerConfig` from the options: the interface, adapter, target
 * ELF file, RTOS, SWO baud rate, configuration file, timeline flag and a
 * list of watchpoints, one per `-W`, `-R` or `-A` in order; `-v` lowers the
 * logger's minimum level to DEBUG.  The first operand is the command, and
 * "debug" needs a target ELF file.  `main` then runs one of four commands.
 *
 * `getopt_long` moves the operands behind the options, so the model takes
 * the options and the operands as two sequences.  The debugger core only
 * has declarations here; the results of starting a debug session and of
 * connecting to the target are parameters, as is whether SDL starts.
 */
module Debugger {
  import opened Wrappers
  import opened Text
  import opened Logging

  /** One option as `getopt_long` returns it. */
  datatype Opt =
    | InterfaceOpt(name: string)
    | AdapterOpt(name: string)
    | TargetOpt(path: string)
    | RtosOpt(name: string)
    | SwoOpt(baud: string)
    | ConfigOpt(path: string)
    | TimelineOpt
    | WatchWriteOpt(target: string)
    | WatchReadOpt(target: string)
    | WatchAccessOpt(target: string)
    | VerboseOpt
    | VersionOpt
    | HelpOpt
    | BadOpt

  datatype WatchType = Read | Write | Access

  /** A watchpoint: an address or symbol and the kind of access that stops the target. */
  datatype Watchpoint = Watchpoint(target: string, kind: WatchType)

  /** The fields of `DebuggerConfig`. */
  datatype Config = Config(command: string, debugInterface: string, adapter: string, targetElf: string,
                           rtos: string, configFile: string, swoBaudrate: int, timeline: bool,
                           watchpoints: seq<Watchpoint>, debugSpeed: int)

  /** The member initialisers: SWD through CMSIS-DAP at 4000 kHz, SWO off, no watchpoints. */
  const DEFAULT: Config := Config("", "swd", "cmsis-dap", "", "", "", 0, false, [], 4000)

  /** What the option loop changes: the configuration and the logger's minimum level. */
  datatype State = State(config: Config, level: Level)

  /** How the option loop ends: out of options, or returning false. */
  datatype Scanned = Scanned(s: State) | Stopped(s: State)

  /** The watchpoint an option adds, if any. */
  function WatchOf(o: Opt): Option<Watchpoint> {
    match o
    case WatchWriteOpt(a) => Some(Watchpoint(a, Write))
    case WatchReadOpt(a) => Some(Watchpoint(a, Read))
    case WatchAccessOpt(a) => Some(Watchpoint(a, Access))
    case _ => None
  }

  /** The effect of one option; a `-s` value `std::stoi` cannot read is caught and fails the parse. */
  function Step(s: State, o: Opt): Scanned {
    var c := s.config;
    match o
    case InterfaceOpt(n) => Scanned(s.(config := c.(debugInterface := n)))
    case AdapterOpt(n) => Scanned(s.(config := c.(adapter := n)))
    case TargetOpt(p) => Scanned(s.(config := c.(targetElf := p)))
    case RtosOpt(n) => Scanned(s.(config := c.(rtos := n)))
    case SwoOpt(b) =>
      (match ParseLeadingInt(b)
       case Some(v) => Scanned(s.(config := c.(swoBaudrate := v)))
       case None => Stopped(s))
    case ConfigOpt(p) => Scanned(s.(config := c.(configFile := p)))
    case TimelineOpt => Scanned(s.(config := c.(timeline := true)))
    case WatchWriteOpt(a) => Scanned(s.(config := c.(watchpoints := c.watchpoints + [Watchpoint(a, Write)])))
    case WatchReadOpt(a) => Scanned(s.(config := c.(watchpoints := c.watchpoints + [Watchpoint(a, Read)])))
    case WatchAccessOpt(a) => Scanned(s.(config := c.(watchpoints := c.watchpoints + [Watchpoint(a, Access)])))
    case VerboseOpt => Scanned(s.(level := Debug))
    case VersionOpt => Stopped(s)
    case HelpOpt => Stopped(s)
    case BadOpt => Stopped(s)
  }

  /** The `getopt_long` loop over `opts`. */
  function Scan(s: State, opts: seq<Opt>): Scanned
    decreases |opts|
  {
    if opts == [] then Scanned(s)
    else
      var r := Step(s, opts[0]);
      if r.Scanned? then Scan(r.s, opts[1..]) else r
  }

  /** The result of `parse_arguments` and the state it leaves. */
  datatype Outcome = Outcome(ok: bool, s: State)

  /** `parse_arguments`: the loop, then the first operand as the command, then the target check for "debug". */
  function Parse(s: State, opts: seq<Opt>, operands: seq<string>): Outcome {
    match Scan(s, opts)
    case Stopped(u) => Outcome(false, u)
    case Scanned(u) =>
      var c := if operands != [] then u.config.(command := operands[0]) else u.config;
      Outcome(!(c.command == "debug" && c.targetElf == []), u.(config := c))
  }

  /** The watchpoints `opts` add, in order. */
  function WatchpointsOf(opts: seq<Opt>): (ws: seq<Watchpoint>)
    ensures |ws| <= |opts|
  {
    if opts == [] then []
    else (match WatchOf(opts[0]) case Some(w) => [w] case None => []) + WatchpointsOf(opts[1..])
  }

  /** The watchpoints of two stretches of options follow one another. */
  lemma {:induction false} WatchpointsAppend(a: seq<Opt>, b: seq<Opt>)
    ensures WatchpointsOf(a + b) == WatchpointsOf(a) + WatchpointsOf(b)
  {
    if a == [] {
      assert a + b == b;
    } else {
      assert (a + b)[0] == a[0] && (a + b)[1..] == a[1..] + b;
      WatchpointsAppend(a[1..], b);
    }
  }

  /**
   * The watchpoint option at position `i` adds its watchpoint right after
   * those of the options before it: `-W` a WRITE, `-R` a READ and `-A` an
   * ACCESS watchpoint on its argument.
   */
  lemma WatchpointAt(opts: seq<Opt>, i: nat)
    requires i < |opts| && WatchOf(opts[i]).Some?
    ensures var ws := WatchpointsOf(opts); var n := |WatchpointsOf(opts[..i])|;
            n < |ws| && ws[n] == WatchOf(opts[i]).value
    ensures opts[i].WatchWriteOpt? ==> WatchOf(opts[i]).value == Watchpoint(opts[i].target, Write)
    ensures opts[i].WatchReadOpt? ==> WatchOf(opts[i]).value == Watchpoint(opts[i].target, Read)
    ensures opts[i].WatchAccessOpt? ==> WatchOf(opts[i]).value == Watchpoint(opts[i].target, Access)
  {
    assert opts == opts[..i] + opts[i..];
    WatchpointsAppend(opts[..i], opts[i..]);
    assert opts[i..][0] == opts[i];
  }

  /** After a loop that runs out of options, the configuration holds the watchpoints it had, then those of `opts`. */
  lemma {:induction false} ScanWatchpoints(s: State, opts: seq<Opt>)
    requires Scan(s, opts).Scanned?
    ensures Scan(s, opts).s.config.watchpoints == s.config.watchpoints + WatchpointsOf(opts)
    decreases |opts|
  {
    if opts != [] {
      var u := Step(s, opts[0]).s;
      assert u.config.watchpoints == s.config.watchpoints + (match WatchOf(opts[0]) case Some(w) => [w] case None => []);
      ScanWatchpoints(u, opts[1..]);
    }
  }

  /** After a loop that runs out of options, the minimum level is DEBUG exactly when it was before or some `-v` came. */
  lemma {:induction false} ScanVerbose(s: State, opts: seq<Opt>)
    requires Scan(s, opts).Scanned?
    ensures Scan(s, opts).s.level == (if VerboseOpt in opts then Debug else s.level)
    decreases |opts|
  {
    if opts != [] {
      ScanVerbose(Step(s, opts[0]).s, opts[1..]);
      assert VerboseOpt in opts <==> opts[0] == VerboseOpt || VerboseOpt in opts[1..];
    }
  }

  /** Scanning a prefix that does not stop, then the rest, is scanning the whole. */
  lemma {:induction false} ScanSplit(s: State, opts: seq<Opt>, k: nat)
    requires k <= |opts| && Scan(s, opts[..k]).Scanned?
    ensures Scan(s, opts) == Scan(Scan(s, opts[..k]).s, opts[k..])
    decreases k
  {
    if k > 0 {
      var r := Step(s, opts[0]);
      assert opts[..k][0] == opts[0] && opts[..k][1..] == opts[1..][..k - 1];
      ScanSplit(r.s, opts[1..], k - 1);
      assert opts[1..][k - 1..] == opts[k..];
    }
  }

  /** `-V`, `-h`, an unknown option and a `-s` value with no digits to read end the parse with failure. */
  lemma StopOptionFails(s: State, opts: seq<Opt>, operands: seq<string>, k: nat)
    requires k < |opts| && Scan(s, opts[..k]).Scanned?
    requires opts[k] in {VersionOpt, HelpOpt, BadOpt} || (opts[k].SwoOpt? && ParseLeadingInt(opts[k].baud).None?)
    ensures !Parse(s, opts, operands).ok
  {
    ScanSplit(s, opts, k);
    assert opts[k..][0] == opts[k];
  }

  /**
   * After a loop that runs out of options, the command is the first operand
   * when there is one, and the parse fails exactly when that command is
   * "debug" and no target ELF file was given.
   */
  lemma CommandRules(s: State, opts: seq<Opt>, operands: seq<string>)
    requires Scan(s, opts).Scanned?
    ensures var p := Parse(s, opts, operands); var u := Scan(s, opts).s;
            p.s.config == (if operands == [] then u.config else u.config.(command := operands[0]))
            && p.s.level == u.level
            && (p.ok <==> !(p.s.config.command == "debug" && u.config.targetElf == []))
  {
  }

  /** The commands `main` knows. */
  const COMMANDS: seq<string> := ["debug", "connect", "list-rtos", "config"]

  /**
   * `main`'s dispatch: no command shows the usage and succeeds, "debug" and
   * "connect" return their own result, "list-rtos" and "config" succeed,
   * and any other command fails.
   */
  function Dispatch(command: string, debugResult: int, connectResult: int): (code: int)
    ensures command == "debug" ==> code == debugResult
    ensures command == "connect" ==> code == connectResult
  {
    if command == "" then 0
    else if command == "debug" then debugResult
    else if command == "connect" then connectResult
    else if command == "list-rtos" then 0
    else if command == "config" then 0
    else 1
  }

  /** When the debug session and the connection succeed, the dispatch succeeds exactly for no command or a known one. */
  lemma DispatchKnown(command: string)
    ensures Dispatch(command, 0, 0) == 0 <==> command == "" || command in COMMANDS
    ensures Dispatch(command, 0, 0) != 0 ==> Dispatch(command, 0, 0) == 1
  {
  }

  /** `main`'s exit status. */
  function MainCode(sdlOk: bool, level: Level, opts: seq<Opt>, operands: seq<string>,
                    debugResult: int, connectResult: int): (code: int)
  {
    if !sdlOk then 1
    else
      var p := Parse(State(DEFAULT, level), opts, operands);
      if !p.ok then 1 else Dispatch(p.s.config.command, debugResult, connectResult)
  }

  /** Without operands there is no command: `main` shows the usage and exits 0 after any successful loop. */
  lemma NoCommandShowsUsage(level: Level, opts: seq<Opt>, debugResult: int, connectResult: int)
    requires Scan(State(DEFAULT, level), opts).Scanned?
    ensures MainCode(true, level, opts, [], debugResult, connectResult) == 0
  {
    ScanCommand(State(DEFAULT, level), opts);
  }

  /** The option loop never sets the command. */
  lemma {:induction false} ScanCommand(s: State, opts: seq<Opt>)
    ensures Scan(s, opts).s.config.command == s.config.command
    decreases |opts|
  {
    if opts != [] {
      ScanCommand(Step(s, opts[0]).s, opts[1..]);
    }
  }

  /** `DebuggerConfig`, which `parse_arguments` fills in place. */
  class DebuggerConfig {
    var command: string
    var debugInterface: string
    var adapter: string
    var targetElf: string
    var rtos: string
    var configFile: string
    var swoBaudrate: int
    var timelineEnabled: bool
    var watchpoints: seq<Watchpoint>
    var debugSpeed: int

    constructor ()
      ensures Snapshot() == DEFAULT
    {
      command, debugInterface, adapter, targetElf := "", "swd", "cmsis-dap", "";
      rtos, configFile, swoBaudrate, timelineEnabled := "", "", 0, false;
      watchpoints, debugSpeed := [], 4000;
    }

    function Snapshot(): Config
      reads this
    {
      Config(command, debugInterface, adapter, targetElf, rtos, configFile, swoBaudrate, timelineEnabled,
             watchpoints, debugSpeed)
    }
  }

  /** One pass of the option loop. */
  method ApplyOption(config: DebuggerConfig, logger: Logger, o: Opt) returns (stop: bool)
    modifies config, logger`minLevel
    ensures var r := Step(State(old(config.Snapshot()), old(logger.minLevel)), o);
            (stop <==> r.Stopped?) && State(config.Snapshot(), logger.minLevel) == r.s
  {
    stop := false;
    match o
    case InterfaceOpt(n) => config.debugInterface := n;
    case AdapterOpt(n) => config.adapter := n;
    case TargetOpt(p) => config.targetElf := p;
    case RtosOpt(n) => config.rtos := n;
    case SwoOpt(b) =>
      var v := ParseLeadingInt(b);
      if v.Some? { config.swoBaudrate := v.value; } else { stop := true; }
    case ConfigOpt(p) => config.configFile := p;
    case TimelineOpt => config.timelineEnabled := true;
    case WatchWriteOpt(a) => config.watchpoints := config.watchpoints + [Watchpoint(a, Write)];
    case WatchReadOpt(a) => config.watchpoints := config.watchpoints + [Watchpoint(a, Read)];
    case WatchAccessOpt(a) => config.watchpoints := config.watchpoints + [Watchpoint(a, Access)];
    case VerboseOpt => logger.SetLevel(Debug);
    case VersionOpt => stop := true;
    case HelpOpt => stop := true;
    case BadOpt => stop := true;
  }

  /** `parse_arguments`. */
  method ParseArguments(config: DebuggerConfig, logger: Logger, opts: seq<Opt>, operands: seq<string>)
    returns (ok: bool)
    modifies config, logger`minLevel
    ensures Parse(State(old(config.Snapshot()), old(logger.minLevel)), opts, operands)
            == Outcome(ok, State(config.Snapshot(), logger.minLevel))
  {
    ghost var start := State(config.Snapshot(), logger.minLevel);
    var i := 0;
    while i < |opts|
      invariant i <= |opts|
      invariant Scan(start, opts) == Scan(State(config.Snapshot(), logger.minLevel), opts[i..])
    {
      var stop := ApplyOption(config, logger, opts[i]);
      if stop {
        return false;
      }
      i := i + 1;
    }
    if 0 < |operands| {
      config.command := operands[0];
    }
    if config.command == "debug" && config.targetElf == [] {
      return false;
    }
    return true;
  }

  /** The two lines `main` logs at INFO before parsing, stamped with `stamp`. */
  function Greeting(stamp: string): (lines: seq<string>)
    ensures |lines| == 2
  {
    [FormatLine(stamp, Info, "PAD-Debugger v1.0.0"), FormatLine(stamp, Info, "RTOS-aware embedded debugging tool")]
  }

  /**
   * `main`, from `SDL_Init` on: the two greeting lines at INFO, the parse,
   * then the dispatch; `stamp` is the time on the greeting lines.
   */
  method Execute(logger: Logger, sdlOk: bool, opts: seq<Opt>, operands: seq<string>, stamp: string,
                 debugResult: int, connectResult: int) returns (code: int)
    modifies logger`minLevel, logger`stdout, logger`stderr, logger`file
    ensures code == MainCode(sdlOk, old(logger.minLevel), opts, operands, debugResult, connectResult)
    ensures logger.minLevel == if sdlOk then Parse(State(DEFAULT, old(logger.minLevel)), opts, operands).s.level
                               else old(logger.minLevel)
    ensures logger.fileOpen == old(logger.fileOpen) && logger.fileGood == old(logger.fileGood)
    ensures var g := if sdlOk && Emitted(old(logger.minLevel), Info) then Greeting(stamp) else [];
            var toErr := ToStderr(old(logger.minLevel), Info);
            logger.stderr == old(logger.stderr) + (if toErr then g else [])
            && logger.stdout == old(logger.stdout) + (if toErr then [] else g)
            && logger.file == old(logger.file) + (if logger.fileOpen && logger.fileGood then g else [])
  {
    if !sdlOk {
      return 1;
    }
    logger.Log(Info, "PAD-Debugger v1.0.0", stamp);
    logger.Log(Info, "RTOS-aware embedded debugging tool", stamp);
    var config := new DebuggerConfig();
    var ok := ParseArguments(config, logger, opts, operands);
    if !ok {
      return 1;
    }
    if config.command == [] {
      return 0;
    }
    if config.command == "debug" {
      code := debugResult;
    } else if config.command == "connect" {
      code := connectResult;
    } else if config.command == "list-rtos" {
      code := 0;
    } else if config.command == "config" {
      code := 0;
    } else {
      code := 1;
    }
  }
}

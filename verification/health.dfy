/**
 * PAD-Health/src/main.cpp: the health monitor.  Its `getopt_long` loop sets
 * the device, the configuration file, the polling interval (at least one
 * second), the output format (text, json or csv) and the MQTT and e-mail
 * alert flags.  `run` checks the configuration file and then prints one
 * reading per iteration, once without `--daemon` and until it is stopped
 * with it.
 *
 * The options reach the model as the sequence `getopt_long` yields.  An
 * interval that `std::stoi` cannot read throws an exception nothing catches,
 * which ends the program.  The readings themselves come from `rand()` and
 * the clock and are left out: a reading is a `Reading` line that records
 * its format and its iteration.
 */
module Health {
  import opened Text

  /** One option as `getopt_long` returns it. */
  datatype Opt =
    | DeviceOpt(port: string)
    | ConfigOpt(file: string)
    | VerboseOpt
    | DaemonOpt
    | IntervalOpt(seconds: string)
    | MqttServerOpt(server: string)
    | EmailOpt(recipient: string)
    | FormatOpt(format: string)
    | EnableMqttOpt
    | EnableEmailOpt
    | TemperatureOnlyOpt
    | VoltageOnlyOpt
    | ClockOnlyOpt
    | StatsReportOpt
    | VersionOpt
    | HelpOpt
    | BadOpt

  /** The fields of `PADHealth`. */
  datatype Settings = Settings(port: string, config: string, verbose: bool, daemon: bool, interval: int,
                               mqtt: bool, email: bool, mqttServer: string, recipient: string,
                               format: string)

  /** The constructor's values: a 5-second interval, text output, every flag off. */
  const INITIAL: Settings := Settings("", "", false, false, 5, false, false, "", "", "text")

  /** The output formats `-f` accepts. */
  predicate KnownFormat(f: string) {
    f == "text" || f == "json" || f == "csv"
  }

  /** What the fields always satisfy after a successful option loop from a state that satisfies it. */
  predicate Sane(t: Settings) {
    t.interval >= 1 && KnownFormat(t.format)
  }

  /** How the option loop ends: out of options, returning false, or with `std::stoi` throwing. */
  datatype Scanned = Scanned(t: Settings) | Stopped(t: Settings) | Thrown

  /** The effect of one option; the `*-only` options only print a line. */
  function Step(t: Settings, o: Opt): Scanned {
    match o
    case DeviceOpt(p) => Scanned(t.(port := p))
    case ConfigOpt(f) => Scanned(t.(config := f))
    case VerboseOpt => Scanned(t.(verbose := true))
    case DaemonOpt => Scanned(t.(daemon := true))
    case IntervalOpt(s) =>
      (match ParseLeadingInt(s)
       case Some(v) => Scanned(t.(interval := if v < 1 then 1 else v))
       case None => Thrown)
    case MqttServerOpt(s) => Scanned(t.(mqttServer := s, mqtt := true))
    case EmailOpt(e) => Scanned(t.(recipient := e, email := true))
    case FormatOpt(f) =>
      if KnownFormat(f) then Scanned(t.(format := f)) else Stopped(t.(format := f))
    case EnableMqttOpt => Scanned(t.(mqtt := true))
    case EnableEmailOpt => Scanned(t.(email := true))
    case TemperatureOnlyOpt => Scanned(t)
    case VoltageOnlyOpt => Scanned(t)
    case ClockOnlyOpt => Scanned(t)
    case StatsReportOpt => Stopped(t)
    case VersionOpt => Stopped(t)
    case HelpOpt => Stopped(t)
    case BadOpt => Stopped(t)
  }

  /** The `getopt_long` loop over `opts`. */
  function Scan(t: Settings, opts: seq<Opt>): Scanned
    decreases |opts|
  {
    if opts == [] then Scanned(t)
    else
      var s := Step(t, opts[0]);
      if s.Scanned? then Scan(s.t, opts[1..]) else s
  }

  /** The result of `parse_arguments` and the fields it leaves, or the end of the program. */
  datatype Outcome = Outcome(ok: bool, t: Settings) | Terminated

  /** `parse_arguments`: it succeeds exactly when the loop runs out of options. */
  function Parse(t: Settings, opts: seq<Opt>): Outcome {
    match Scan(t, opts)
    case Thrown => Terminated
    case Stopped(u) => Outcome(false, u)
    case Scanned(u) => Outcome(true, u)
  }

  /** The defaults are themselves sane. */
  lemma InitialSane()
    ensures Sane(INITIAL) && !INITIAL.mqtt && !INITIAL.email && !INITIAL.daemon && !INITIAL.verbose
  {
  }

  /**
   * A successful parse from sane fields leaves sane fields: `-i` never
   * leaves an interval below one second and `-f` never leaves a format
   * other than text, json or csv.
   */
  lemma {:induction false} ParseSane(t: Settings, opts: seq<Opt>)
    requires Sane(t) && Parse(t, opts).Outcome? && Parse(t, opts).ok
    ensures Sane(Parse(t, opts).t)
    decreases |opts|
  {
    if opts != [] {
      ParseSane(Step(t, opts[0]).t, opts[1..]);
    }
  }

  /** `-i` with a readable value sets the interval to that value raised to at least 1. */
  lemma IntervalClamped(t: Settings, s: string)
    requires ParseLeadingInt(s).Some?
    ensures var v := ParseLeadingInt(s).value;
            Step(t, IntervalOpt(s)) == Scanned(t.(interval := if v >= 1 then v else 1))
  {
  }

  /** An option that turns MQTT publishing on. */
  predicate EnablesMqtt(o: Opt) {
    o.MqttServerOpt? || o == EnableMqttOpt
  }

  /** An option that turns e-mail alerts on. */
  predicate EnablesEmail(o: Opt) {
    o.EmailOpt? || o == EnableEmailOpt
  }

  /**
   * After a loop that runs out of options, MQTT publishing is on exactly
   * when it was on before or some `-m` or `--enable-mqtt` came.
   */
  lemma {:induction false} ScanMqtt(t: Settings, opts: seq<Opt>)
    requires Scan(t, opts).Scanned?
    ensures Scan(t, opts).t.mqtt <==> t.mqtt || exists i :: 0 <= i < |opts| && EnablesMqtt(opts[i])
    decreases |opts|
  {
    if opts != [] {
      var u := Step(t, opts[0]).t;
      ScanMqtt(u, opts[1..]);
      assert u.mqtt <==> t.mqtt || EnablesMqtt(opts[0]);
      if exists i :: 0 <= i < |opts| && EnablesMqtt(opts[i]) {
        var i :| 0 <= i < |opts| && EnablesMqtt(opts[i]);
        if i > 0 { assert EnablesMqtt(opts[1..][i - 1]); }
      }
      if exists i :: 0 <= i < |opts[1..]| && EnablesMqtt(opts[1..][i]) {
        var i :| 0 <= i < |opts[1..]| && EnablesMqtt(opts[1..][i]);
        assert EnablesMqtt(opts[i + 1]);
      }
    }
  }

  /**
   * After a loop that runs out of options, e-mail alerts are on exactly
   * when they were on before or some `-e` or `--enable-email` came.
   */
  lemma {:induction false} ScanEmail(t: Settings, opts: seq<Opt>)
    requires Scan(t, opts).Scanned?
    ensures Scan(t, opts).t.email <==> t.email || exists i :: 0 <= i < |opts| && EnablesEmail(opts[i])
    decreases |opts|
  {
    if opts != [] {
      var u := Step(t, opts[0]).t;
      ScanEmail(u, opts[1..]);
      assert u.email <==> t.email || EnablesEmail(opts[0]);
      if exists i :: 0 <= i < |opts| && EnablesEmail(opts[i]) {
        var i :| 0 <= i < |opts| && EnablesEmail(opts[i]);
        if i > 0 { assert EnablesEmail(opts[1..][i - 1]); }
      }
      if exists i :: 0 <= i < |opts[1..]| && EnablesEmail(opts[1..][i]) {
        var i :| 0 <= i < |opts[1..]| && EnablesEmail(opts[1..][i]);
        assert EnablesEmail(opts[i + 1]);
      }
    }
  }

  /** Scanning a prefix that does not stop, then the rest, is scanning the whole. */
  lemma {:induction false} ScanSplit(t: Settings, opts: seq<Opt>, k: nat)
    requires k <= |opts| && Scan(t, opts[..k]).Scanned?
    ensures Scan(t, opts) == Scan(Scan(t, opts[..k]).t, opts[k..])
    decreases k
  {
    if k > 0 {
      var s := Step(t, opts[0]);
      assert opts[..k][0] == opts[0] && opts[..k][1..] == opts[1..][..k - 1];
      ScanSplit(s.t, opts[1..], k - 1);
      assert opts[1..][k - 1..] == opts[k..];
    }
  }

  /** `--stats-report`, `-V`, `-h`, an unknown option and a format other than text, json or csv end the parse with failure. */
  lemma StopOptionFails(t: Settings, opts: seq<Opt>, k: nat)
    requires k < |opts| && Scan(t, opts[..k]).Scanned?
    requires opts[k] in {StatsReportOpt, VersionOpt, HelpOpt, BadOpt} || (opts[k].FormatOpt? && !KnownFormat(opts[k].format))
    ensures !Parse(t, opts).Terminated? && !Parse(t, opts).ok
  {
    ScanSplit(t, opts, k);
    assert opts[k..][0] == opts[k];
  }

  /** An interval with no digits to read ends the program. */
  lemma BadIntervalTerminates(t: Settings, opts: seq<Opt>, k: nat)
    requires k < |opts| && Scan(t, opts[..k]).Scanned?
    requires opts[k].IntervalOpt? && ParseLeadingInt(opts[k].seconds).None?
    ensures Parse(t, opts) == Terminated
  {
    ScanSplit(t, opts, k);
    assert opts[k..][0] == opts[k];
  }

  /** `load_config`: no configuration file means the defaults; otherwise the file must open. */
  function LoadConfig(t: Settings, opens: bool): (ok: bool)
    ensures t.config == [] ==> ok
    ensures t.config != [] ==> ok == opens
  {
    t.config == [] || opens
  }

  /** A line of output: fixed text, or one reading in the chosen format. */
  datatype Line = Text(s: string) | Reading(format: string, iteration: nat)

  const CSV_HEADER: string := "timestamp,temperature,voltage,clock_stability"

  /** The lines `run_monitoring` prints before its loop. */
  function Banner(t: Settings): (lines: seq<Line>)
    ensures |lines| == 1 + (if t.port != [] then 1 else 0) + (if t.mqtt then 1 else 0) + (if t.email then 1 else 0)
    ensures lines[0].Text? && "Starting health monitoring" <= lines[0].s
    ensures t.port != [] ==> lines[1] == Text("Connected to device: " + t.port)
  {
    [Text("Starting health monitoring" + (if t.daemon then " in daemon mode" else "") + "...")]
    + (if t.port != [] then [Text("Connected to device: " + t.port)] else [])
    + (if t.mqtt then [Text("MQTT publishing enabled, server: " + t.mqttServer)] else [])
    + (if t.email then [Text("Email alerts enabled for: " + t.recipient)] else [])
  }

  /** What iteration `i` of the loop prints: the CSV header first on iteration 0 in csv format, then the reading. */
  function IterationLines(format: string, i: nat): (lines: seq<Line>)
  {
    (if format == "csv" && i == 0 then [Text(CSV_HEADER)] else []) + [Reading(format, i)]
  }

  /** What the first `n` iterations print. */
  function Iterations(format: string, n: nat): (lines: seq<Line>)
  {
    if n == 0 then [] else Iterations(format, n - 1) + IterationLines(format, n - 1)
  }

  /** The readings of iterations 0 to `n - 1`, in order. */
  function Readings(format: string, n: nat): (lines: seq<Line>)
    ensures |lines| == n && forall i :: 0 <= i < n ==> lines[i] == Reading(format, i)
  {
    seq(n, i requires 0 <= i => Reading(format, i))
  }

  /**
   * The loop prints one reading per iteration in iteration order, preceded
   * in csv format by exactly one header line, and in any other format by
   * nothing.
   */
  lemma {:induction false} IterationsShape(format: string, n: nat)
    ensures Iterations(format, n) == (if format == "csv" && n > 0 then [Text(CSV_HEADER)] else []) + Readings(format, n)
  {
    if n > 0 {
      IterationsShape(format, n - 1);
      var h: seq<Line> := if format == "csv" then [Text(CSV_HEADER)] else [];
      if n == 1 {
        assert Iterations(format, 0) == [];
      } else {
        assert Readings(format, n) == Readings(format, n - 1) + [Reading(format, n - 1)];
      }
    }
  }

  /**
   * `run_monitoring`: the banner, then one iteration without `--daemon`;
   * with it, one more iteration after each of the `sleeps` pauses the
   * daemon completes before it is stopped.
   */
  function MonitorLines(t: Settings, sleeps: nat): (lines: seq<Line>)
  {
    Banner(t) + Iterations(t.format, if t.daemon then sleeps + 1 else 1)
  }

  /** Without `--daemon` exactly one reading is printed, however long the program would be left running. */
  lemma SingleShot(t: Settings, sleeps: nat)
    requires !t.daemon
    ensures MonitorLines(t, sleeps) == Banner(t) + (if t.format == "csv" then [Text(CSV_HEADER)] else []) + [Reading(t.format, 0)]
  {
    IterationsShape(t.format, 1);
    assert Readings(t.format, 1) == [Reading(t.format, 0)];
  }

  class PadHealth {
    var devicePort: string
    var configFile: string
    var verbose: bool
    var daemonMode: bool
    var pollingInterval: int
    var mqttEnabled: bool
    var emailEnabled: bool
    var mqttServer: string
    var emailRecipient: string
    var outputFormat: string
    /** What the program printed, in order, apart from usage, version, report and error text. */
    var output: seq<Line>

    constructor ()
      ensures Snapshot() == INITIAL && output == []
    {
      devicePort, configFile, verbose, daemonMode := "", "", false, false;
      pollingInterval, mqttEnabled, emailEnabled := 5, false, false;
      mqttServer, emailRecipient, outputFormat := "", "", "text";
      output := [];
    }

    function Snapshot(): Settings
      reads this
    {
      Settings(devicePort, configFile, verbose, daemonMode, pollingInterval, mqttEnabled, emailEnabled,
               mqttServer, emailRecipient, outputFormat)
    }

    /** One pass of the option loop. */
    method ApplyOption(o: Opt) returns (stop: bool, thrown: bool)
      modifies this`devicePort, this`configFile, this`verbose, this`daemonMode, this`pollingInterval,
               this`mqttEnabled, this`emailEnabled, this`mqttServer, this`emailRecipient, this`outputFormat
      ensures var s := Step(old(Snapshot()), o);
              (thrown <==> s.Thrown?) && (stop <==> s.Stopped?) && (!thrown ==> Snapshot() == s.t)
    {
      stop, thrown := false, false;
      match o
      case DeviceOpt(p) => devicePort := p;
      case ConfigOpt(f) => configFile := f;
      case VerboseOpt => verbose := true;
      case DaemonOpt => daemonMode := true;
      case IntervalOpt(s) =>
        var v := ParseLeadingInt(s);
        if v.Some? {
          pollingInterval := v.value;
          if pollingInterval < 1 {
            pollingInterval := 1;
          }
        } else {
          thrown := true;
        }
      case MqttServerOpt(s) =>
        mqttServer := s;
        mqttEnabled := true;
      case EmailOpt(e) =>
        emailRecipient := e;
        emailEnabled := true;
      case FormatOpt(f) =>
        outputFormat := f;
        if outputFormat != "text" && outputFormat != "json" && outputFormat != "csv" {
          stop := true;
        }
      case EnableMqttOpt => mqttEnabled := true;
      case EnableEmailOpt => emailEnabled := true;
      case TemperatureOnlyOpt =>
      case VoltageOnlyOpt =>
      case ClockOnlyOpt =>
      case StatsReportOpt => stop := true;
      case VersionOpt => stop := true;
      case HelpOpt => stop := true;
      case BadOpt => stop := true;
    }

    /** `parse_arguments`; `thrown` reports that `std::stoi` threw and the program ended. */
    method ParseArguments(opts: seq<Opt>) returns (ok: bool, thrown: bool)
      modifies this`devicePort, this`configFile, this`verbose, this`daemonMode, this`pollingInterval,
               this`mqttEnabled, this`emailEnabled, this`mqttServer, this`emailRecipient, this`outputFormat
      ensures thrown <==> Parse(old(Snapshot()), opts) == Terminated
      ensures !thrown ==> Parse(old(Snapshot()), opts) == Outcome(ok, Snapshot())
    {
      var i := 0;
      while i < |opts|
        invariant i <= |opts|
        invariant Scan(old(Snapshot()), opts) == Scan(Snapshot(), opts[i..])
      {
        var stop;
        stop, thrown := ApplyOption(opts[i]);
        if stop || thrown {
          return false, thrown;
        }
        i := i + 1;
      }
      return true, false;
    }

    /** The lines `run_monitoring` prints before its loop. */
    method PrintBanner()
      modifies this`output
      ensures output == old(output) + Banner(Snapshot())
    {
      output := output + [Text("Starting health monitoring" + (if daemonMode then " in daemon mode" else "") + "...")];
      if devicePort != [] {
        output := output + [Text("Connected to device: " + devicePort)];
      }
      if mqttEnabled {
        output := output + [Text("MQTT publishing enabled, server: " + mqttServer)];
      }
      if emailEnabled {
        output := output + [Text("Email alerts enabled for: " + emailRecipient)];
      }
    }

    /** `run_monitoring`; `sleeps` is how many pauses a daemon completes before it is stopped. */
    method RunMonitoring(sleeps: nat) returns (ok: bool)
      modifies this`output
      ensures ok && output == old(output) + MonitorLines(Snapshot(), sleeps)
    {
      PrintBanner();
      MonitoringLoop(sleeps);
      return true;
    }

    /** The loop of `run_monitoring`: one reading per iteration, ending after the first without `--daemon`. */
    method MonitoringLoop(sleeps: nat)
      modifies this`output
      ensures output == old(output) + Iterations(outputFormat, if daemonMode then sleeps + 1 else 1)
    {
      var iteration: nat := 0;
      while true
        invariant iteration < (if daemonMode then sleeps + 1 else 1)
        invariant output == old(output) + Iterations(outputFormat, iteration)
        decreases (if daemonMode then sleeps + 1 else 1) - iteration
      {
        if outputFormat == "csv" && iteration == 0 {
          output := output + [Text(CSV_HEADER)];
        }
        output := output + [Reading(outputFormat, iteration)];
        iteration := iteration + 1;
        if !daemonMode || iteration == sleeps + 1 {
          break;
        }
      }
    }

    /** `run`: check the configuration file, then monitor. */
    method Run(opens: bool, sleeps: nat) returns (ok: bool)
      modifies this`output
      ensures ok == LoadConfig(Snapshot(), opens)
      ensures output == old(output) + (if ok then MonitorLines(Snapshot(), sleeps) else [])
    {
      if configFile != [] && !opens {
        return false;
      }
      ok := RunMonitoring(sleeps);
    }

    /** `main`: parse, then run; the exit status is 1 when either fails. */
    method Execute(opts: seq<Opt>, opens: bool, sleeps: nat) returns (code: int, thrown: bool)
      modifies this
      ensures thrown <==> Parse(old(Snapshot()), opts) == Terminated
      ensures !thrown ==> var p := Parse(old(Snapshot()), opts);
                          var ran := p.ok && LoadConfig(p.t, opens);
                          code == (if ran then 0 else 1)
                          && output == old(output) + (if ran then MonitorLines(p.t, sleeps) else [])
    {
      var ok;
      ok, thrown := ParseArguments(opts);
      if thrown || !ok {
        return 1, thrown;
      }
      ok := Run(opens, sleeps);
      code := if ok then 0 else 1;
    }
  }
}

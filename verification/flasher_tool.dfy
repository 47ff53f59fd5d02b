/**
 * PAD-Flasher/src/main.cpp: the mass flasher utility.  Its `getopt_long`
 * loop collects device ports from `-d` and comma-separated `-D` lists,
 * then checks the firmware file and the port list and normalises the
 * protocol name; `run` flashes the ports one after the other.
 *
 * The options reach the model as the sequence `getopt_long` yields.  A
 * number that `std::stoi` cannot read throws an exception nothing catches,
 * which ends the program.  Whether the firmware file opens and whether the
 * device on a port flashes are parameters.
 */
module FlasherTool {
  import opened Wrappers
  import opened Text

  /** One option as `getopt_long` returns it. */
  datatype Opt =
    | DeviceOpt(port: string)
    | DevicesOpt(list: string)
    | FirmwareOpt(file: string)
    | ProtocolOpt(name: string)
    | BaudOpt(rate: string)
    | VerboseOpt
    | SkipValidationOpt
    | RecoveryOpt
    | ParallelOpt(count: string)
    | BatchConfigOpt(file: string)
    | BatchModeOpt
    | VersionOpt
    | HelpOpt
    | BadOpt

  /** The fields of `PADFlasher`. */
  datatype Tool = Tool(firmware: string, ports: seq<string>, protocol: string, baudrate: int,
                       verbose: bool, validate: bool, recovery: bool, parallel: int)

  /** The constructor's values. */
  const INITIAL: Tool := Tool("", [], "", 115200, false, true, false, 1)

  /** Each field of a comma-separated list with its blanks trimmed. */
  function TrimAll(fields: seq<string>): (r: seq<string>)
    ensures |r| == |fields|
  {
    if fields == [] then [] else [Trim(fields[0])] + TrimAll(fields[1..])
  }

  /** The ports `parse_device_list` appends for `list`. */
  function DeviceList(list: string): seq<string> {
    TrimAll(SplitFields(list, ','))
  }

  /** Each entry of `TrimAll(fields)` is the matching field trimmed. */
  lemma {:induction false} TrimAllFields(fields: seq<string>)
    ensures forall j :: 0 <= j < |fields| ==> TrimAll(fields)[j] == Trim(fields[j])
  {
    if fields != [] {
      TrimAllFields(fields[1..]);
      assert forall j :: 1 <= j < |fields| ==> TrimAll(fields)[j] == TrimAll(fields[1..])[j - 1];
    }
  }

  /**
   * Each port of a list is the matching comma-separated field with its
   * blanks trimmed: it holds no comma and neither starts nor ends with a blank.
   */
  lemma DeviceListTrimmed(list: string, j: nat)
    requires j < |DeviceList(list)|
    ensures var fields := SplitFields(list, ','); var port := DeviceList(list)[j];
            port == Trim(fields[j]) && ',' !in port
            && (port == [] || (!IsBlank(port[0]) && !IsBlank(port[|port| - 1])))
  {
    var fields := SplitFields(list, ',');
    TrimAllFields(fields);
    SplitFieldsNoSep(list, ',', j);
    TrimExact(fields[j]);
    var i := LeadingBlanks(fields[j]);
    var port := Trim(fields[j]);
    assert forall c :: 0 <= c < |port| ==> port[c] == fields[j][i + c];
  }

  /** The first field of a list, and the rest after its comma. */
  lemma DeviceListCons(rest: string, k: nat, next: string)
    requires rest != [] && k == IndexOf(rest, ',')
    requires next == if k < |rest| then rest[k + 1..] else []
    ensures DeviceList(rest) == [Trim(rest[..k])] + DeviceList(next)
  {
    var fields := SplitFields(rest, ',');
    SplitFieldsCons(rest, ',', k, next);
    assert fields[0] == rest[..k] && fields[1..] == SplitFields(next, ',');
  }

  /** One pass of the `std::getline` loop: the ports so far, then the first field's port, then the rest. */
  lemma DeviceListStep(acc: seq<string>, rest: string, k: nat, next: string)
    requires rest != [] && k == IndexOf(rest, ',')
    requires next == if k < |rest| then rest[k + 1..] else []
    ensures acc + DeviceList(rest) == (acc + [Trim(rest[..k])]) + DeviceList(next)
  {
    DeviceListCons(rest, k, next);
  }

  /** Trimming changes nothing in fields that are already trimmed. */
  lemma {:induction false} TrimAllTrimmed(fields: seq<string>)
    requires forall j :: 0 <= j < |fields| ==> Trim(fields[j]) == fields[j]
    ensures TrimAll(fields) == fields
  {
    if fields != [] {
      TrimAllTrimmed(fields[1..]);
    }
  }

  /**
   * A list written as the ports joined with commas is read back as those
   * ports, when each is non-empty, has no comma and no surrounding blank.
   */
  lemma DeviceListOfJoin(ports: seq<string>)
    requires forall j :: 0 <= j < |ports| ==> ports[j] != [] && ',' !in ports[j] && Trim(ports[j]) == ports[j]
    ensures DeviceList(JoinFields(ports, ',')) == ports
  {
    SplitJoin(ports, ',');
    TrimAllTrimmed(ports);
  }

  /**
   * How one parsing pass ends: the scan goes on, the option makes
   * `parse_arguments` return, or `std::stoi` throws.
   */
  datatype Scanned = Scanned(t: Tool) | Stopped(ok: bool, t: Tool) | Thrown

  /** The effect of one option. */
  function Step(t: Tool, o: Opt): Scanned {
    match o
    case DeviceOpt(p) => Scanned(t.(ports := t.ports + [p]))
    case DevicesOpt(l) => Scanned(t.(ports := t.ports + DeviceList(l)))
    case FirmwareOpt(f) => Scanned(t.(firmware := f))
    case ProtocolOpt(p) => Scanned(t.(protocol := p))
    case BaudOpt(b) => (match ParseLeadingInt(b) case Some(v) => Scanned(t.(baudrate := v)) case None => Thrown)
    case VerboseOpt => Scanned(t.(verbose := true))
    case SkipValidationOpt => Scanned(t.(validate := false))
    case RecoveryOpt => Scanned(t.(recovery := true))
    case ParallelOpt(n) => (match ParseLeadingInt(n) case Some(v) => Scanned(t.(parallel := v)) case None => Thrown)
    case BatchConfigOpt(_) => Scanned(t)
    case BatchModeOpt => Stopped(true, t)
    case VersionOpt => Stopped(false, t)
    case HelpOpt => Stopped(false, t)
    case BadOpt => Stopped(false, t)
  }

  /** The `getopt_long` loop over `opts`. */
  function Scan(t: Tool, opts: seq<Opt>): Scanned
    decreases |opts|
  {
    if opts == [] then Scanned(t)
    else
      var s := Step(t, opts[0]);
      if s.Scanned? then Scan(s.t, opts[1..]) else s
  }

  /** The result of `parse_arguments` and the fields it leaves, or the end of the program. */
  datatype Outcome = Outcome(ok: bool, t: Tool) | Terminated

  /** The protocol name after line 139-144: "uart" when none was given, else lower-cased. */
  function Normalised(protocol: string): (r: string)
    ensures r != [] && ToLower(r) == r
  {
    if protocol == [] then "uart"
    else
      ToLowerIdempotent(protocol);
      ToLower(protocol)
  }

  /** `parse_arguments`: the option loop, then the checks and the protocol name. */
  function Parse(t: Tool, opts: seq<Opt>): Outcome {
    var s := Scan(t, opts);
    if s.Thrown? then Terminated
    else if s.Stopped? then Outcome(s.ok, s.t)
    else if s.t.firmware == [] || s.t.ports == [] then Outcome(false, s.t)
    else Outcome(true, s.t.(protocol := Normalised(s.t.protocol)))
  }

  /** The ports one option names: its `-d` port, or the fields of its `-D` list. */
  function PortsFrom(o: Opt): seq<string> {
    match o
    case DeviceOpt(p) => [p]
    case DevicesOpt(l) => DeviceList(l)
    case _ => []
  }

  /** The ports named by `-d` and `-D` options, in command-line order. */
  function PortsOf(opts: seq<Opt>): seq<string> {
    if opts == [] then [] else PortsFrom(opts[0]) + PortsOf(opts[1..])
  }

  /** An option that does not stop the loop appends exactly its own ports. */
  lemma StepPorts(t: Tool, o: Opt)
    requires !Step(t, o).Thrown?
    ensures Step(t, o).t.ports == t.ports + PortsFrom(o)
  {
  }

  /** A scan that runs to the end appends the ports of `-d` and `-D` in command-line order. */
  lemma {:induction false} ScanCollectsPorts(t: Tool, opts: seq<Opt>)
    requires Scan(t, opts).Scanned?
    ensures Scan(t, opts).t.ports == t.ports + PortsOf(opts)
    decreases |opts|
  {
    if opts != [] {
      var s := Step(t, opts[0]);
      StepPorts(t, opts[0]);
      ScanCollectsPorts(s.t, opts[1..]);
      assert t.ports + PortsFrom(opts[0]) + PortsOf(opts[1..]) == t.ports + PortsOf(opts);
    }
  }

  /** An option that does not stop the loop turns validation off exactly when it is `-s`. */
  lemma StepValidation(t: Tool, o: Opt)
    requires Step(t, o).Scanned?
    ensures Step(t, o).t.validate == (t.validate && o != SkipValidationOpt)
  {
  }

  /** After a scan that runs to the end, validation is on exactly when it was and no `-s` was given. */
  lemma {:induction false} ScanValidation(t: Tool, opts: seq<Opt>)
    requires Scan(t, opts).Scanned?
    ensures Scan(t, opts).t.validate == (t.validate && SkipValidationOpt !in opts)
    decreases |opts|
  {
    if opts != [] {
      StepValidation(t, opts[0]);
      ScanValidation(Step(t, opts[0]).t, opts[1..]);
      assert opts == [opts[0]] + opts[1..];
    }
  }

  /** Scanning a prefix that does not stop, then the rest, is scanning the whole. */
  lemma {:induction false} ScanSplit(t: Tool, opts: seq<Opt>, k: nat)
    requires k <= |opts| && Scan(t, opts[..k]).Scanned?
    ensures Scan(t, opts) == Scan(Scan(t, opts[..k]).t, opts[k..])
    decreases k
  {
    if k > 0 {
      var s := Step(t, opts[0]);
      assert opts[..k][0] == opts[0] && opts[..k][1..] == opts[1..][..k - 1];
      ScanSplit(s.t, opts[1..], k - 1);
      assert opts[1..][k - 1..] == opts[k..];
    }
  }

  /**
   * A successful parse has a firmware file, at least one port and a
   * non-empty lower-case protocol, unless `-B` ended it: `-B` succeeds with
   * no check at all.
   */
  lemma ParseAccepts(t: Tool, opts: seq<Opt>)
    ensures var p := Parse(t, opts);
            Scan(t, opts).Scanned? && p.ok ==>
              (p.t.firmware != [] && p.t.ports != [] && p.t.protocol != [] && ToLower(p.t.protocol) == p.t.protocol)
  {
  }

  /** `-B` after options that do not stop the loop makes the parse succeed, whatever else is missing. */
  lemma BatchModeSucceeds(t: Tool, opts: seq<Opt>, k: nat)
    requires k < |opts| && opts[k] == BatchModeOpt && Scan(t, opts[..k]).Scanned?
    ensures Parse(t, opts) == Outcome(true, Scan(t, opts[..k]).t)
  {
    ScanSplit(t, opts, k);
    assert opts[k..][0] == BatchModeOpt;
  }

  /** `-V`, `-h` or an unknown option after options that do not stop the loop makes the parse fail. */
  lemma StopOptionFails(t: Tool, opts: seq<Opt>, k: nat)
    requires k < |opts| && opts[k] in {VersionOpt, HelpOpt, BadOpt} && Scan(t, opts[..k]).Scanned?
    ensures Parse(t, opts) == Outcome(false, Scan(t, opts[..k]).t)
  {
    ScanSplit(t, opts, k);
    assert opts[k..][0] == opts[k];
  }

  /** A `-b` or `-P` value with no digits to read, after options that do not stop the loop, ends the program. */
  lemma BadNumberTerminates(t: Tool, opts: seq<Opt>, k: nat)
    requires k < |opts| && Scan(t, opts[..k]).Scanned?
    requires (opts[k].BaudOpt? && ParseLeadingInt(opts[k].rate).None?)
          || (opts[k].ParallelOpt? && ParseLeadingInt(opts[k].count).None?)
    ensures Parse(t, opts) == Terminated
  {
    ScanSplit(t, opts, k);
    assert opts[k..][0] == opts[k];
  }

  /** Index of the first of the first `n` ports whose device does not flash, or `n`. */
  function FirstFailure(ports: seq<string>, flashes: string -> bool, n: nat): (k: nat)
    requires n <= |ports|
    ensures k <= n && (k < n ==> !flashes(ports[k])) && forall j :: 0 <= j < k ==> flashes(ports[j])
  {
    if n == 0 then 0
    else
      var k := FirstFailure(ports, flashes, n - 1);
      if k < n - 1 then k else if flashes(ports[n - 1]) then n else n - 1
  }

  /** The exit status `main` returns: 1 when parsing or the run fails, else 0. */
  function ExitCode(parsed: bool, ran: bool): (code: int)
    ensures code == 0 <==> parsed && ran
    ensures code == 0 || code == 1
  {
    if !parsed then 1 else if !ran then 1 else 0
  }

  class PadFlasherTool {
    var firmwareFile: string
    var devicePorts: seq<string>
    var protocol: string
    var baudrate: int
    var verbose: bool
    var validate: bool
    var recoveryMode: bool
    var parallelDevices: int
    /** The ports `run` has tried to flash, in order. */
    var attempted: seq<string>

    constructor ()
      ensures Snapshot() == INITIAL && attempted == []
    {
      firmwareFile, devicePorts, protocol := "", [], "";
      baudrate := 115200;
      verbose, validate, recoveryMode := false, true, false;
      parallelDevices := 1;
      attempted := [];
    }

    function Snapshot(): Tool
      reads this
    {
      Tool(firmwareFile, devicePorts, protocol, baudrate, verbose, validate, recoveryMode, parallelDevices)
    }

    /** `parse_device_list`: one port per comma-separated field, trimmed, in order. */
    method ParseDeviceList(list: string)
      modifies this
      ensures Snapshot() == old(Snapshot()).(ports := old(devicePorts) + DeviceList(list))
      ensures attempted == old(attempted)
    {
      var rest := list;
      while rest != []
        modifies this`devicePorts
        invariant old(devicePorts) + DeviceList(list) == devicePorts + DeviceList(rest)
        decreases |rest|
      {
        var k := IndexOf(rest, ',');
        var next := if k < |rest| then rest[k + 1..] else [];
        var port := Trim(rest[..k]);
        DeviceListStep(devicePorts, rest, k, next);
        devicePorts := devicePorts + [port];
        rest := next;
      }
    }

    /** One pass of the option loop. */
    method ApplyOption(o: Opt) returns (stop: bool, ok: bool, thrown: bool)
      modifies this
      ensures var s := Step(old(Snapshot()), o);
              (thrown <==> s.Thrown?) && (stop <==> s.Stopped?)
              && (!thrown ==> Snapshot() == s.t) && (stop ==> ok == s.ok)
      ensures attempted == old(attempted)
    {
      stop, ok, thrown := false, false, false;
      match o
      case DeviceOpt(p) => devicePorts := devicePorts + [p];
      case DevicesOpt(l) => ParseDeviceList(l);
      case FirmwareOpt(f) => firmwareFile := f;
      case ProtocolOpt(p) => protocol := p;
      case BaudOpt(b) =>
        var v := ParseLeadingInt(b);
        if v.Some? { baudrate := v.value; } else { thrown := true; }
      case VerboseOpt => verbose := true;
      case SkipValidationOpt => validate := false;
      case RecoveryOpt => recoveryMode := true;
      case ParallelOpt(n) =>
        var v := ParseLeadingInt(n);
        if v.Some? { parallelDevices := v.value; } else { thrown := true; }
      case BatchConfigOpt(_) =>
      case BatchModeOpt => stop, ok := true, true;
      case VersionOpt => stop := true;
      case HelpOpt => stop := true;
      case BadOpt => stop := true;
    }

    /** `parse_arguments`; `thrown` reports that `std::stoi` threw and the program ended. */
    method ParseArguments(opts: seq<Opt>) returns (ok: bool, thrown: bool)
      modifies this
      ensures thrown <==> Parse(old(Snapshot()), opts) == Terminated
      ensures !thrown ==> Parse(old(Snapshot()), opts) == Outcome(ok, Snapshot())
      ensures attempted == old(attempted)
    {
      var i := 0;
      while i < |opts|
        invariant i <= |opts| && attempted == old(attempted)
        invariant Scan(old(Snapshot()), opts) == Scan(Snapshot(), opts[i..])
      {
        var stop;
        stop, ok, thrown := ApplyOption(opts[i]);
        if stop || thrown {
          return;
        }
        i := i + 1;
      }
      thrown := false;
      if firmwareFile == [] || devicePorts == [] {
        return false, false;
      }
      protocol := Normalised(protocol);
      return true, false;
    }

    /**
     * `run`: fails when the firmware file does not open (`loads`), then
     * flashes the ports in order and stops at the first whose device does
     * not flash.
     */
    method Run(loads: bool, flashes: string -> bool) returns (ok: bool)
      modifies this
      ensures Snapshot() == old(Snapshot())
      ensures !loads ==> !ok && attempted == old(attempted)
      ensures loads ==> var k := FirstFailure(devicePorts, flashes, |devicePorts|);
                        (ok <==> k == |devicePorts|)
                        && attempted == old(attempted) + devicePorts[..if ok then k else k + 1]
    {
      if !loads {
        return false;
      }
      for i := 0 to |devicePorts|
        invariant Snapshot() == old(Snapshot())
        invariant FirstFailure(devicePorts, flashes, i) == i && attempted == old(attempted) + devicePorts[..i]
      {
        attempted := attempted + [devicePorts[i]];
        assert devicePorts[..i + 1] == devicePorts[..i] + [devicePorts[i]];
        if !flashes(devicePorts[i]) {
          return false;
        }
      }
      return true;
    }

    /**
     * `main`: parse, then run; the exit status is 1 when either fails.
     * `thrown` reports that the program ended inside `std::stoi`.
     */
    method Execute(opts: seq<Opt>, loads: bool, flashes: string -> bool) returns (code: int, thrown: bool)
      modifies this
      ensures thrown <==> Parse(old(Snapshot()), opts) == Terminated
      ensures thrown ==> attempted == old(attempted)
      ensures !thrown ==> var p := Parse(old(Snapshot()), opts);
                          var k := FirstFailure(p.t.ports, flashes, |p.t.ports|);
                          Snapshot() == p.t
                          && (code == 0 <==> p.ok && loads && k == |p.t.ports|)
                          && attempted == old(attempted)
                                          + (if p.ok && loads then p.t.ports[..if k == |p.t.ports| then k else k + 1] else [])
    {
      var ok;
      ok, thrown := ParseArguments(opts);
      if thrown || !ok {
        return 1, thrown;
      }
      var ran := Run(loads, flashes);
      code := ExitCode(ok, ran);
    }
  }
}

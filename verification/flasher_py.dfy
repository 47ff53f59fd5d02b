/**
 * pad-flasher/src/python/main.py: the Python flasher.  `argparse` has
 * already checked and converted the command line, so `parse_arguments`
 * receives an `Args` record.  The batch file is the map of sections
 * `configparser` read from it; a file that cannot be read is an empty map.
 * `os.name == 'nt'` is the parameter `windows`, and the serial port's
 * opening, the flashing and the checksum are results given per device.
 */
module FlasherPy {
  import opened Wrappers
  import opened Text
  import opened Lifecycle

  const DEFAULT_BAUD: int := 115200

  /** The connection a device holds: none, an open `serial.Serial`, or the `True` placeholder of JTAG and SWD. */
  datatype Handle = NoHandle | SerialPort | Placeholder

  /** `DeviceConfig`; the interface is a string, as given on the command line or in the batch file. */
  datatype Device = Device(kind: string, path: string, baudrate: int, validate: bool, recovery: bool, fd: Handle)

  /** `FlashConfig`. */
  datatype Settings = Settings(firmware: string, validate: bool, recovery: bool, parallel: bool,
                               num: int, devices: seq<Device>)

  /** What `parser.parse_args()` returns; an absent `--device` or `--batch` is the empty string. */
  datatype Args = Args(firmware: string, interface: string, device: string, baudrate: int, numDevices: int,
                       validate: bool, recovery: bool, parallel: bool, batch: string)

  /** Sections of an INI file, each a map from (lower-case) option name to value. */
  type Ini = map<string, map<string, string>>

  // ------------------------------------------------- Python conversions

  /** `s` without trailing white space. */
  function StripRight(s: string): (r: string)
    ensures |r| <= |s| && r == s[..|r|]
    ensures r != [] ==> !IsSpace(r[|r| - 1])
  {
    if s != [] && IsSpace(s[|s| - 1]) then StripRight(s[..|s| - 1]) else s
  }

  /** `int(s)` on a string: optional white space, an optional sign, decimal digits, optional white space; `None` is the `ValueError`. */
  function PyInt(s: string): (r: Option<int>)
    ensures r.Some? ==> exists k :: 0 <= k < |s| && IsDigit(s[k])
  {
    SkipSpacesSuffix(s);
    var t := StripRight(SkipSpaces(s));
    var u := if |t| > 0 && (t[0] == '-' || t[0] == '+') then t[1..] else t;
    if |u| > 0 && AllDigits(u) then
      assert IsDigit(t[|t| - 1]);
      assert exists k :: 0 <= k < |s| && s[k] == t[|t| - 1];
      var v: int := DigitsValue(u);
      Some(if t[0] == '-' then -v else v)
    else None
  }

  /** `getboolean`: the spellings `configparser` accepts, in any letter case; `None` is the `ValueError`. */
  function PyBool(s: string): (r: Option<bool>)
    ensures r.Some? <==> ToLower(s) in {"1", "yes", "true", "on", "0", "no", "false", "off"}
    ensures r == Some(true) <==> ToLower(s) in {"1", "yes", "true", "on"}
  {
    var t := ToLower(s);
    if t in {"1", "yes", "true", "on"} then Some(true)
    else if t in {"0", "no", "false", "off"} then Some(false)
    else None
  }

  /** `section.get(key, default)`. */
  function Get(section: map<string, string>, key: string, default: string): (r: string)
    ensures key in section ==> r == section[key]
    ensures key !in section ==> r == default
  {
    if key in section then section[key] else default
  }

  /** `getboolean` ignores letter case. */
  lemma PyBoolIgnoresCase(s: string)
    ensures PyBool(ToLower(s)) == PyBool(s)
  {
    ToLowerIdempotent(s);
  }

  /** `getboolean` reads back what `str` writes for a boolean, and no text means both true and false. */
  lemma PyBoolOfStr(b: bool, s: string)
    ensures PyBool(if b then "True" else "False") == Some(b)
    ensures PyBool(s) == Some(true) ==> PyBool(s) != Some(false)
  {
    assert ToLower("True") == "true";
    assert ToLower("False") == "false";
  }

  /** A `get` of a key just stored gives its value; the other keys keep theirs; an empty section gives the default. */
  lemma GetAfterPut(section: map<string, string>, key: string, other: string, value: string, default: string)
    ensures Get(section[key := value], key, default) == value
    ensures other != key ==> Get(section[key := value], other, default) == Get(section, other, default)
    ensures Get(map[], key, default) == default
  {
  }

  /** `int` reads back what `str` writes for every integer. */
  lemma PyIntOfIntToString(n: int)
    ensures PyInt(IntToString(n)) == Some(n)
  {
    var s := IntToString(n);
    var d := NatToString(if n < 0 then -n else n);
    DigitsValueOfNatToString(if n < 0 then -n else n);
    assert s[0] != ' ' && !IsSpace(s[0]) by {
      if n >= 0 {
        assert s == d && IsDigit(d[0]);
      }
    }
    NoSpaceBeforeDigits(s);
    assert IsDigit(s[|s| - 1]) by {
      assert s[|s| - 1] == d[|d| - 1];
    }
    assert StripRight(s) == s;
    if n < 0 {
      assert s[1..] == d;
    }
  }

  // ----------------------------------------------------- command line

  /** The port name of the `i`-th default device. */
  function DefaultPath(i: nat, windows: bool): string {
    if windows then "COM" + NatToString(i + 1) else "/dev/ttyUSB" + NatToString(i)
  }

  /** The devices `parse_arguments` leaves, before any batch file: the one `--device`, or `existing` followed by `--num-devices` defaults. */
  function ArgDevices(a: Args, windows: bool, existing: seq<Device>): seq<Device> {
    if a.device != "" then
      [Device(a.interface, a.device, a.baudrate, a.validate, a.recovery, NoHandle)]
    else
      existing + seq(if a.numDevices > 0 then a.numDevices else 0, i requires 0 <= i =>
                     Device(a.interface, DefaultPath(i, windows), a.baudrate, a.validate, a.recovery, NoHandle))
  }

  /**
   * A `--device` gives exactly one device; otherwise `--num-devices` default
   * devices (none for a count below 1) are appended, numbered from 0 on
   * POSIX and named `COM1`, `COM2`, ... on Windows, all with the interface,
   * baud rate and flags of the command line.
   */
  lemma ArgDevicesShape(a: Args, windows: bool, existing: seq<Device>)
    ensures var ds := ArgDevices(a, windows, existing);
            (a.device != "" ==> |ds| == 1 && ds[0].path == a.device)
            && (a.device == "" ==> |ds| == |existing| + (if a.numDevices > 0 then a.numDevices else 0)
                                   && ds[..|existing|] == existing
                                   && forall i :: |existing| <= i < |ds| ==> ds[i].path == DefaultPath(i - |existing|, windows))
    ensures var ds := ArgDevices(a, windows, existing);
            forall i :: 0 <= i < |ds| && (a.device != "" || i >= |existing|) ==>
              ds[i].kind == a.interface && ds[i].baudrate == a.baudrate
              && ds[i].validate == a.validate && ds[i].recovery == a.recovery && ds[i].fd == NoHandle
  {
  }

  // ------------------------------------------------------ batch file

  /** A settings value together with the status `load_batch_config` returns. */
  datatype Loaded = Loaded(c: Settings, code: int)

  /** The `[batch_config]` section: device count, parallel and recovery flags, each stopping at the first conversion error. */
  function Header(c: Settings, ini: Ini): (r: Loaded)
    ensures r.c.devices == c.devices && r.c.firmware == c.firmware && r.c.validate == c.validate
    ensures r.code in {0, -1}
  {
    if "batch_config" !in ini then Loaded(c, 0)
    else
      var s := ini["batch_config"];
      var n := if "num_devices" in s then PyInt(s["num_devices"]) else Some(1);
      if n.None? then Loaded(c, -1)
      else
        var p := if "parallel_mode" in s then PyBool(s["parallel_mode"]) else Some(false);
        if p.None? then Loaded(c.(num := n.value), -1)
        else
          var q := if "recovery_mode" in s then PyBool(s["recovery_mode"]) else Some(false);
          if q.None? then Loaded(c.(num := n.value, parallel := p.value), -1)
          else Loaded(c.(num := n.value, parallel := p.value, recovery := q.value), 0)
  }

  /** The device described by section `device_<k+1>`, if its baud rate converts. */
  function SectionDevice(c: Settings, section: map<string, string>, k: nat): Option<Device> {
    var baud := if "baudrate" in section then PyInt(section["baudrate"]) else Some(DEFAULT_BAUD);
    if baud.None? then None
    else Some(Device(Get(section, "interface", "uart"), Get(section, "port", "/dev/ttyUSB" + NatToString(k)),
                     baud.value, c.validate, c.recovery, NoHandle))
  }

  /** The name of the section for device index `k`. */
  function SectionName(k: nat): string {
    "device_" + NatToString(k + 1)
  }

  /** The loop over the first `k` device sections, starting from `c`; a missing section is skipped, a bad baud rate ends the load with -1. */
  function LoadDevices(c: Settings, ini: Ini, k: nat): (r: Loaded)
    ensures r.code in {0, -1}
    ensures r.c == c.(devices := r.c.devices)
  {
    if k == 0 then Loaded(c, 0)
    else
      var prev := LoadDevices(c, ini, k - 1);
      if prev.code != 0 || SectionName(k - 1) !in ini then prev
      else
        var d := SectionDevice(c, ini[SectionName(k - 1)], k - 1);
        if d.None? then Loaded(prev.c, -1)
        else Loaded(prev.c.(devices := prev.c.devices + [d.value]), 0)
  }

  /** `load_batch_config`: the device list starts over, then the header and the device sections are read. */
  function LoadBatch(c: Settings, ini: Ini): Loaded {
    var h := Header(c.(devices := []), ini);
    if h.code != 0 then h else LoadDevices(h.c, ini, if h.c.num > 0 then h.c.num else 0)
  }

  /**
   * `load_batch_config` on a file `configparser` either parses into `ini`
   * or rejects (`None`: a malformed line, a duplicate section or key).  The
   * rejection raises before the device list is cleared, so the settings stay
   * as they were and the result is -1.
   */
  function LoadBatchFile(c: Settings, file: Option<Ini>): Loaded {
    match file
    case None => Loaded(c, -1)
    case Some(ini) => LoadBatch(c, ini)
  }

  /** The first `k` sections load at most `k` devices, each with the configuration's flags and no connection. */
  lemma {:induction false} LoadDevicesBounded(c: Settings, ini: Ini, k: nat)
    ensures var r := LoadDevices(c, ini, k);
            |c.devices| <= |r.c.devices| <= |c.devices| + k && r.c.devices[..|c.devices|] == c.devices
            && forall i :: |c.devices| <= i < |r.c.devices| ==>
                 r.c.devices[i].validate == c.validate && r.c.devices[i].recovery == c.recovery && r.c.devices[i].fd == NoHandle
  {
    if k > 0 {
      LoadDevicesBounded(c, ini, k - 1);
    }
  }

  /** When every section is present and converts, all `k` devices are loaded, in section order. */
  lemma {:induction false} LoadDevicesComplete(c: Settings, ini: Ini, k: nat)
    requires forall j :: 0 <= j < k ==> SectionName(j) in ini && SectionDevice(c, ini[SectionName(j)], j).Some?
    ensures var r := LoadDevices(c, ini, k);
            r.code == 0 && |r.c.devices| == |c.devices| + k
            && forall j :: 0 <= j < k ==> r.c.devices[|c.devices| + j] == SectionDevice(c, ini[SectionName(j)], j).value
  {
    if k > 0 {
      LoadDevicesComplete(c, ini, k - 1);
    }
  }

  /**
   * The batch file replaces the devices of the command line: it loads at
   * most its device count, and a file with no device sections (an unreadable
   * one included) leaves no device at all.
   */
  lemma LoadBatchReplaces(c: Settings, ini: Ini)
    ensures var r := LoadBatch(c, ini);
            |r.c.devices| <= (if r.c.num > 0 then r.c.num else 0)
    ensures (forall j: nat :: SectionName(j) !in ini) ==> LoadBatch(c, ini).c.devices == []
  {
    var h := Header(c.(devices := []), ini);
    if h.code == 0 {
      var n := if h.c.num > 0 then h.c.num else 0;
      LoadDevicesBounded(h.c, ini, n);
      if forall j: nat :: SectionName(j) !in ini {
        NoSections(h.c, ini, n);
      }
    }
  }

  /** After a conversion error no later section is read. */
  lemma {:induction false} LoadDevicesStops(c: Settings, ini: Ini, k: nat, m: nat)
    requires k <= m && LoadDevices(c, ini, k).code != 0
    ensures LoadDevices(c, ini, m) == LoadDevices(c, ini, k)
    decreases m
  {
    if k < m {
      LoadDevicesStops(c, ini, k, m - 1);
    }
  }

  lemma {:induction false} NoSections(c: Settings, ini: Ini, k: nat)
    requires forall j: nat :: SectionName(j) !in ini
    ensures LoadDevices(c, ini, k) == Loaded(c, 0)
  {
    if k > 0 {
      NoSections(c, ini, k - 1);
    }
  }

  // ------------------------------------------------------- the batch run

  /** What the device answers: whether its serial port opens, whether flashing and the checksum succeed. */
  datatype Hardware = Hardware(openOk: bool, flashOk: bool, checksumOk: bool)

  /** `init_device_connection` succeeds: only opening a UART's serial port can fail. */
  predicate Connects(d: Device, h: Hardware) {
    d.kind != "uart" || h.openOk
  }

  function AttemptOf(d: Device, h: Hardware): Attempt {
    Attempt(Connects(d, h), d.recovery, h.flashOk, d.validate, h.checksumOk)
  }

  /** `close_device_connection`: any handle is closed and dropped. */
  function Closed(d: Device): (r: Device)
    ensures r.fd == NoHandle && r == d.(fd := NoHandle)
  {
    if d.fd != NoHandle then d.(fd := NoHandle) else d
  }

  /** The device once connected: a UART holds its serial port, JTAG and SWD the placeholder. */
  function Handled(d: Device): Device {
    d.(fd := if d.kind == "uart" then SerialPort else Placeholder)
  }

  /** The device after its run: connected and closed again, or unchanged when the port did not open. */
  function AfterRun(d: Device, h: Hardware): Device {
    if Connects(d, h) then Closed(Handled(d)) else d
  }

  function Attempts(ds: seq<Device>, hw: seq<Hardware>, n: nat): (r: seq<Attempt>)
    requires n <= |ds| && n <= |hw|
    ensures |r| == n
  {
    seq(n, i requires 0 <= i < n => AttemptOf(ds[i], hw[i]))
  }

  function AfterRuns(ds: seq<Device>, hw: seq<Hardware>, n: nat): (r: seq<Device>)
    requires n <= |ds| && n <= |hw|
    ensures |r| == |ds|
  {
    seq(|ds|, i requires 0 <= i < |ds| => if i < n then AfterRun(ds[i], hw[i]) else ds[i])
  }

  lemma AttemptsStep(ds: seq<Device>, hw: seq<Hardware>, i: nat)
    requires i < |ds| && i < |hw|
    ensures BatchTrace(Attempts(ds, hw, i + 1)) == BatchTrace(Attempts(ds, hw, i)) + DeviceTrace(i, AttemptOf(ds[i], hw[i]))
  {
    assert Attempts(ds, hw, i + 1)[..i] == Attempts(ds, hw, i);
  }

  /** After a batch no device of the batch holds a connection, whatever the hardware answered, if none held one before. */
  lemma AfterRunsHoldNothing(ds: seq<Device>, hw: seq<Hardware>)
    requires |hw| >= |ds| && forall i :: 0 <= i < |ds| ==> ds[i].fd == NoHandle
    ensures forall i :: 0 <= i < |ds| ==> AfterRuns(ds, hw, |ds|)[i].fd == NoHandle
  {
  }

  /**
   * In a batch every device is tried once, in index order, and is flashed
   * and closed exactly once when it connects; a UART whose port does not
   * open is neither flashed nor closed.
   */
  lemma BatchClosesConnected(ds: seq<Device>, hw: seq<Hardware>, j: nat)
    requires |hw| >= |ds|
    ensures var t := BatchTrace(Attempts(ds, hw, |ds|));
            InOrder(t) && DevicesBelow(t, |ds|) && Count(t, j, Init) == (if j < |ds| then 1 else 0)
            && Count(t, j, Flash) == Count(t, j, Close) == (if j < |ds| && Connects(ds[j], hw[j]) then 1 else 0)
  {
    BatchTraceFacts(Attempts(ds, hw, |ds|), j);
  }

  /** `PadFlasher` with its `config`, and the record of the stages run. */
  class PadFlasher {
    var firmwarePath: string
    var validate: bool
    var recovery: bool
    var parallel: bool
    var numDevices: int
    var devices: seq<Device>
    /** Stages performed so far, oldest first. */
    var trace: seq<Event>

    /** `FlashConfig("")`. */
    constructor ()
      ensures firmwarePath == "" && !validate && !recovery && !parallel && numDevices == 1
      ensures devices == [] && trace == []
    {
      firmwarePath := "";
      validate, recovery, parallel := false, false, false;
      numDevices := 1;
      devices := [];
      trace := [];
    }

    function Config(): Settings
      reads this
    {
      Settings(firmwarePath, validate, recovery, parallel, numDevices, devices)
    }

    /** `parse_arguments`: copies the arguments, builds the devices, then loads the batch file, whose status is ignored. */
    method ParseArguments(a: Args, windows: bool, batchFile: Option<Ini>) returns (r: int)
      modifies this
      ensures r == 0 && trace == old(trace)
      ensures var c := old(Config()).(firmware := a.firmware, validate := a.validate, recovery := a.recovery,
                                      parallel := a.parallel, num := a.numDevices,
                                      devices := ArgDevices(a, windows, old(devices)));
              Config() == if a.batch != "" then LoadBatchFile(c, batchFile).c else c
    {
      firmwarePath := a.firmware;
      validate, recovery, parallel := a.validate, a.recovery, a.parallel;
      numDevices := a.numDevices;
      if a.device != "" {
        devices := [Device(a.interface, a.device, a.baudrate, a.validate, a.recovery, NoHandle)];
      } else {
        AddDefaults(a, windows);
      }
      if a.batch != "" {
        var _ := LoadBatchConfig(batchFile);
      }
      return 0;
    }

    /** The loop of lines 110-119: `--num-devices` devices with default port names are appended. */
    method AddDefaults(a: Args, windows: bool)
      requires a.device == ""
      modifies this
      ensures devices == ArgDevices(a, windows, old(devices))
      ensures Config().(devices := []) == old(Config()).(devices := []) && trace == old(trace)
    {
      var i := 0;
      while i < a.numDevices
        invariant 0 <= i <= (if a.numDevices > 0 then a.numDevices else 0)
        invariant devices == old(devices) + seq(i, j requires 0 <= j =>
                    Device(a.interface, DefaultPath(j, windows), a.baudrate, a.validate, a.recovery, NoHandle))
        invariant Config().(devices := []) == old(Config()).(devices := []) && trace == old(trace)
      {
        devices := devices + [Device(a.interface, DefaultPath(i, windows), a.baudrate, a.validate, a.recovery, NoHandle)];
        i := i + 1;
      }
      assert i == (if a.numDevices > 0 then a.numDevices else 0);
    }

    /** `load_batch_config`: on a conversion error the settings read so far stay, and -1 is returned. */
    method LoadBatchConfig(file: Option<Ini>) returns (r: int)
      modifies this
      ensures Loaded(Config(), r) == LoadBatchFile(old(Config()), file) && trace == old(trace)
    {
      if file.None? {
        return -1;
      }
      var ini := file.value;
      devices := [];
      ghost var cleared := Config();
      r := ReadHeader(ini);
      if r != 0 {
        return;
      }
      ghost var header := Config();
      assert Header(cleared, ini) == Loaded(header, 0);
      var i := 0;
      while i < numDevices
        invariant 0 <= i <= (if header.num > 0 then header.num else 0) && numDevices == header.num
        invariant LoadDevices(header, ini, i) == Loaded(Config(), 0) && trace == old(trace)
      {
        var ok := LoadSection(ini, i, header);
        if !ok {
          LoadDevicesStops(header, ini, i + 1, if header.num > 0 then header.num else 0);
          return -1;
        }
        i := i + 1;
      }
      assert i == (if header.num > 0 then header.num else 0);
      return 0;
    }

    /** One pass of the loop of lines 145-156: the section of device index `i`, when present, adds a device. */
    method LoadSection(ini: Ini, i: nat, ghost header: Settings) returns (ok: bool)
      requires LoadDevices(header, ini, i) == Loaded(Config(), 0)
      modifies this
      ensures ok ==> LoadDevices(header, ini, i + 1) == Loaded(Config(), 0)
      ensures !ok ==> LoadDevices(header, ini, i + 1) == Loaded(Config(), -1)
      ensures trace == old(trace)
    {
      var name := SectionName(i);
      if name in ini {
        var section := ini[name];
        var baud := if "baudrate" in section then PyInt(section["baudrate"]) else Some(DEFAULT_BAUD);
        if baud.None? {
          return false;
        }
        devices := devices + [Device(Get(section, "interface", "uart"), Get(section, "port", "/dev/ttyUSB" + NatToString(i)),
                                     baud.value, validate, recovery, NoHandle)];
      }
      return true;
    }

    /** Lines 138-142 of `load_batch_config`. */
    method ReadHeader(ini: Ini) returns (r: int)
      modifies this
      ensures Loaded(Config(), r) == Header(old(Config()), ini) && trace == old(trace)
    {
      if "batch_config" !in ini {
        return 0;
      }
      var s := ini["batch_config"];
      var n := if "num_devices" in s then PyInt(s["num_devices"]) else Some(1);
      if n.None? {
        return -1;
      }
      numDevices := n.value;
      var p := if "parallel_mode" in s then PyBool(s["parallel_mode"]) else Some(false);
      if p.None? {
        return -1;
      }
      parallel := p.value;
      var q := if "recovery_mode" in s then PyBool(s["recovery_mode"]) else Some(false);
      if q.None? {
        return -1;
      }
      recovery := q.value;
      return 0;
    }

    /**
     * `init_device_connection`: a UART device gets its serial port when it
     * opens (`opens`) and -1 otherwise; JTAG and SWD get the placeholder.
     */
    method InitDeviceConnection(i: nat, opens: bool) returns (r: int)
      requires i < |devices|
      modifies this
      ensures r == 0 <==> Connects(old(devices[i]), Hardware(opens, true, true))
      ensures r in {0, -1}
      ensures r == 0 ==> devices == old(devices)[i := Handled(old(devices[i]))]
      ensures r != 0 ==> devices == old(devices)
      ensures Config().(devices := []) == old(Config()).(devices := []) && trace == old(trace)
    {
      if devices[i].kind == "uart" {
        if !opens {
          return -1;
        }
        devices := devices[i := devices[i].(fd := SerialPort)];
      } else {
        devices := devices[i := devices[i].(fd := Placeholder)];
      }
      return 0;
    }

    /** `close_device_connection`: always 0, and the device holds no handle afterwards. */
    method CloseDeviceConnection(i: nat) returns (r: int)
      requires i < |devices|
      modifies this
      ensures r == 0 && devices == old(devices)[i := Closed(old(devices[i]))]
      ensures Config().(devices := []) == old(Config()).(devices := []) && trace == old(trace)
    {
      if devices[i].fd != NoHandle {
        devices := devices[i := devices[i].(fd := NoHandle)];
      }
      return 0;
    }

    /**
     * `process_single_device`: connect, or give up without closing; recovery;
     * flash, closing on failure; validation, closing on failure; close.
     */
    method ProcessSingleDevice(i: nat, h: Hardware)
      requires i < |devices|
      modifies this
      ensures trace == old(trace) + DeviceTrace(i, AttemptOf(old(devices[i]), h))
      ensures devices == old(devices)[i := AfterRun(old(devices[i]), h)]
      ensures Config().(devices := []) == old(Config()).(devices := [])
    {
      ghost var a := AttemptOf(devices[i], h);
      var work := [Event(i, Init)];
      var connected := InitDeviceConnection(i, h.openOk);
      if connected != 0 {
        trace := trace + work;
        return;
      }
      assert a.initOk && devices[i].recovery == a.recovery && devices[i].validate == a.validate;
      if devices[i].recovery {
        work := work + [Event(i, Recovery)];
      }
      work := work + [Event(i, Flash)];
      if !h.flashOk {
        var _ := CloseDeviceConnection(i);
        trace := trace + (work + [Event(i, Close)]);
        return;
      }
      if devices[i].validate {
        work := work + [Event(i, Validate)];
        if !h.checksumOk {
          var _ := CloseDeviceConnection(i);
          trace := trace + (work + [Event(i, Close)]);
          return;
        }
      }
      var _ := CloseDeviceConnection(i);
      trace := trace + (work + [Event(i, Close)]);
    }

    /**
     * `perform_batch_operation`: every device in index order; always 0.  The
     * threaded branch is represented by this one schedule of its threads.
     */
    method PerformBatchOperation(hw: seq<Hardware>) returns (r: int)
      requires |hw| >= |devices|
      modifies this
      ensures r == 0
      ensures trace == old(trace) + BatchTrace(Attempts(old(devices), hw, |old(devices)|))
      ensures devices == AfterRuns(old(devices), hw, |old(devices)|)
      ensures Config().(devices := []) == old(Config()).(devices := [])
    {
      ghost var initial := devices;
      for i := 0 to |devices|
        invariant |devices| == |initial| && devices == AfterRuns(initial, hw, i)
        invariant trace == old(trace) + BatchTrace(Attempts(initial, hw, i))
        invariant Config().(devices := []) == old(Config()).(devices := [])
      {
        AttemptsStep(initial, hw, i);
        assert devices[i] == initial[i];
        ProcessSingleDevice(i, hw[i]);
        ExtendTrace(old(trace), BatchTrace(Attempts(initial, hw, i)), DeviceTrace(i, AttemptOf(initial[i], hw[i])),
                    BatchTrace(Attempts(initial, hw, i + 1)));
      }
      return 0;
    }
  }
}

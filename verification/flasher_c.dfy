/**
 * pad-flasher/src/c/main.c: the C flasher.  `parse_command_line` fills a
 * fixed table of eight device slots from getopt options, and
 * `perform_batch_operation` takes each configured device through connect,
 * recovery, flash, validation and close.
 *
 * getopt is modelled by the sequence of options it returns (a missing
 * argument or an unknown letter is `BadOpt`).  The operating system and
 * the device are parameters: the descriptor `open` returns, whether the
 * terminal attributes can be read and written, and the results of the
 * flash and checksum stages.
 */
module FlasherC {
  import opened Wrappers
  import opened Text
  import opened Lifecycle

  const MAX_DEVICES: nat := 8
  /** `sizeof(device_path) - 1` and `sizeof(firmware_path) - 1`: the most `strncpy` copies. */
  const PATH_MAX: nat := 255
  const FIRMWARE_MAX: nat := 511
  const DEFAULT_BAUD: int := 115200

  /** `device_config_t`; `timeout` is never read and is left out. */
  datatype Device = Device(kind: Interface, path: string, baudrate: int, validate: bool, recovery: bool, fd: int)

  /** A slot of the zero-initialised `flash_config_t` of `main`. */
  const ZERO_DEVICE: Device := Device(Uart, "", 0, false, false, 0)

  /** The options `getopt_long` delivers for "f:i:d:b:vprhVc:n:". */
  datatype Opt =
    | FirmwareOpt(arg: string)
    | InterfaceOpt(arg: string)
    | DeviceOpt(arg: string)
    | BaudOpt(arg: string)
    | ValidateOpt
    | RecoveryOpt
    | ParallelOpt
    | BatchOpt(arg: string)
    | CountOpt(arg: string)
    | VersionOpt
    | HelpOpt
    | BadOpt

  /** The configuration while options are read; `count` is the local `device_count`. */
  datatype Parsing = Parsing(firmware: string, validate: bool, recovery: bool, parallel: bool,
                             num: int, count: nat, slots: seq<Device>)

  /** How reading the options ends: all read, `return -1`, or `exit(EXIT_SUCCESS)`. */
  datatype Scanned = Scanned(p: Parsing) | Rejected | Exited

  /** The configuration `parse_command_line` starts from, over the slots `main` passes in. */
  function Start(slots: seq<Device>): Parsing {
    Parsing("", false, false, false, 0, 0, slots)
  }

  /**
   * The effect of one option.  `capped` chooses between the code as written
   * (`false`: every `-d` counts a device) and the corrected code (`true`:
   * a `-d` beyond the eighth is ignored like its path).
   */
  function Step(p: Parsing, o: Opt, capped: bool): (s: Scanned)
    requires |p.slots| == MAX_DEVICES
    ensures s.Scanned? ==> |s.p.slots| == MAX_DEVICES
  {
    var here := p.count < MAX_DEVICES;
    match o
      case FirmwareOpt(a) => Scanned(p.(firmware := Truncate(a, FIRMWARE_MAX)))
      case InterfaceOpt(a) =>
        if InterfaceNamed(a).None? then Rejected
        else if here then Scanned(p.(slots := p.slots[p.count := p.slots[p.count].(kind := InterfaceNamed(a).value)]))
        else Scanned(p)
      case DeviceOpt(a) =>
        var q := if here then p.(slots := p.slots[p.count := p.slots[p.count].(path := Truncate(a, PATH_MAX))]) else p;
        var count := if here || !capped then p.count + 1 else p.count;
        Scanned(q.(count := count, num := count))
      case BaudOpt(a) =>
        if here then Scanned(p.(slots := p.slots[p.count := p.slots[p.count].(baudrate := Atoi(a))]))
        else Scanned(p)
      case ValidateOpt => Scanned(p.(validate := true))
      case RecoveryOpt => Scanned(p.(recovery := true))
      case ParallelOpt => Scanned(p.(parallel := true))
      case BatchOpt(_) => Scanned(p)
      case CountOpt(a) => Scanned(p.(num := if Atoi(a) > MAX_DEVICES then MAX_DEVICES else Atoi(a)))
      case VersionOpt => Exited
      case HelpOpt => Exited
      case BadOpt => Rejected
  }

  /** The getopt loop of `parse_command_line` over the remaining options. */
  function Scan(p: Parsing, opts: seq<Opt>, capped: bool): (s: Scanned)
    requires |p.slots| == MAX_DEVICES
    ensures s.Scanned? ==> |s.p.slots| == MAX_DEVICES
    decreases |opts|
  {
    if opts == [] then Scanned(p)
    else
      var s := Step(p, opts[0], capped);
      if s.Scanned? then Scan(s.p, opts[1..], capped) else s
  }

  /** The default for slot `i` when only `-n` was given. */
  function DefaultSlot(d: Device, i: nat): Device {
    d.(kind := Uart, path := "/dev/ttyUSB" + NatToString(i), baudrate := DEFAULT_BAUD)
  }

  /** Slots below `n` replaced by their defaults. */
  function DefaultSlots(s: seq<Device>, n: int): (r: seq<Device>)
    ensures |r| == |s|
  {
    seq(|s|, i requires 0 <= i < |s| => if i < n then DefaultSlot(s[i], i) else s[i])
  }

  /** Slots below `n` with a zero baud rate get 115200. */
  function FillBaud(s: seq<Device>, n: int): (r: seq<Device>)
    ensures |r| == |s|
  {
    seq(|s|, i requires 0 <= i < |s| => if i < n && s[i].baudrate == 0 then s[i].(baudrate := DEFAULT_BAUD) else s[i])
  }

  /** `flash_config_t` as `parse_command_line` leaves it. */
  datatype Config = Config(firmware: string, validate: bool, recovery: bool, parallel: bool,
                           num: int, devices: seq<Device>)

  /** Lines 175-198: default slots for `-n` alone, one default device for none, default baud rates. */
  function Finish(p: Parsing): Config
    requires |p.slots| == MAX_DEVICES && p.num <= MAX_DEVICES
  {
    var a := if p.num > 0 && p.count == 0 then DefaultSlots(p.slots, p.num) else p.slots;
    var b := if p.num == 0 then a[0 := DefaultSlot(a[0], 0)] else a;
    var n := if p.num == 0 then 1 else p.num;
    Config(p.firmware, p.validate, p.recovery, p.parallel, n, FillBaud(b, n))
  }

  /** The return value of `parse_command_line` once every option was read. */
  function Code(p: Parsing): int {
    if p.firmware == "" then -1 else 0
  }

  // ------------------------------------------------ properties of parsing

  /** With the corrected counting, the device count never exceeds the table. */
  lemma {:induction false} CappedScanBounded(p: Parsing, opts: seq<Opt>)
    requires |p.slots| == MAX_DEVICES && p.count <= MAX_DEVICES && p.num <= MAX_DEVICES
    ensures Scan(p, opts, true).Scanned? ==>
              Scan(p, opts, true).p.count <= MAX_DEVICES && Scan(p, opts, true).p.num <= MAX_DEVICES
    decreases |opts|
  {
    if opts != [] {
      var s := Step(p, opts[0], true);
      if s.Scanned? {
        CappedScanBounded(s.p, opts[1..]);
      }
    }
  }

  /** Options other than `-d` leave the device count alone. */
  lemma {:induction false} CountOnlyFromDevices(p: Parsing, opts: seq<Opt>, capped: bool)
    requires |p.slots| == MAX_DEVICES
    requires forall k :: 0 <= k < |opts| ==> !opts[k].DeviceOpt?
    ensures Scan(p, opts, capped).Scanned? ==> Scan(p, opts, capped).p.count == p.count
    decreases |opts|
  {
    if opts != [] {
      var s := Step(p, opts[0], capped);
      if s.Scanned? {
        CountOnlyFromDevices(s.p, opts[1..], capped);
      }
    }
  }

  /** No slot has its validation or recovery flag set. */
  predicate FlagsOff(slots: seq<Device>) {
    forall k :: 0 <= k < |slots| ==> !slots[k].validate && !slots[k].recovery
  }

  lemma StepKeepsDeviceFlags(p: Parsing, o: Opt, capped: bool)
    requires |p.slots| == MAX_DEVICES && FlagsOff(p.slots)
    ensures Step(p, o, capped).Scanned? ==> FlagsOff(Step(p, o, capped).p.slots)
  {
  }

  /** No slot ever gets its validation or recovery flag set: the options only set the top-level flags. */
  lemma {:induction false} ScanKeepsDeviceFlags(p: Parsing, opts: seq<Opt>, capped: bool)
    requires |p.slots| == MAX_DEVICES && FlagsOff(p.slots)
    ensures Scan(p, opts, capped).Scanned? ==> FlagsOff(Scan(p, opts, capped).p.slots)
    decreases |opts|
  {
    if opts != [] {
      StepKeepsDeviceFlags(p, opts[0], capped);
      var s := Step(p, opts[0], capped);
      if s.Scanned? {
        ScanKeepsDeviceFlags(s.p, opts[1..], capped);
      }
    }
  }

  /** After parsing, every configured device has a non-zero baud rate. */
  lemma FinishedBaudratesSet(p: Parsing)
    requires |p.slots| == MAX_DEVICES && p.num <= MAX_DEVICES
    ensures var c := Finish(p);
            forall i :: 0 <= i < c.num ==> c.devices[i].baudrate != 0
  {
  }

  /** With no device at all, exactly one UART device `/dev/ttyUSB0` at 115200 is configured. */
  lemma NoDeviceGivesOneDefault(p: Parsing)
    requires |p.slots| == MAX_DEVICES && p.num == 0
    ensures var c := Finish(p);
            c.num == 1 && c.devices[0].kind == Uart && c.devices[0].path == "/dev/ttyUSB0"
            && c.devices[0].baudrate == DEFAULT_BAUD
  {
    assert NatToString(0) == "0";
  }

  /** `-n k` without any `-d` configures `k` UART devices `/dev/ttyUSB<i>` at 115200. */
  lemma CountAloneGivesDefaults(opts: seq<Opt>, slots: seq<Device>)
    requires |slots| == MAX_DEVICES
    requires forall k :: 0 <= k < |opts| ==> !opts[k].DeviceOpt?
    requires Scan(Start(slots), opts, true).Scanned? && Scan(Start(slots), opts, true).p.num > 0
    ensures var p := Scan(Start(slots), opts, true).p;
            p.num <= MAX_DEVICES &&
            var c := Finish(p);
            c.num == p.num &&
            forall i :: 0 <= i < c.num ==>
              c.devices[i].kind == Uart && c.devices[i].path == "/dev/ttyUSB" + NatToString(i)
              && c.devices[i].baudrate == DEFAULT_BAUD
  {
    CountOnlyFromDevices(Start(slots), opts, true);
    CappedScanBounded(Start(slots), opts);
  }

  // ------------------------------------------- the device-count overflow

  /** `k` options `-d` in a row, all naming `path`. */
  function Devices(path: string, k: nat): seq<Opt> {
    seq(k, _ => DeviceOpt(path))
  }

  /** As written, every `-d` counts a device: `k` of them configure `k` devices, however many. */
  lemma {:induction false} UncappedDeviceCount(p: Parsing, path: string, k: nat)
    requires |p.slots| == MAX_DEVICES && k > 0
    ensures Scan(p, Devices(path, k), false).Scanned?
    ensures Scan(p, Devices(path, k), false).p.num == p.count + k
    decreases k
  {
    var s := Step(p, DeviceOpt(path), false);
    assert Devices(path, k)[0] == DeviceOpt(path);
    if k > 1 {
      assert Devices(path, k)[1..] == Devices(path, k - 1);
      UncappedDeviceCount(s.p, path, k - 1);
    } else {
      assert Devices(path, k)[1..] == [];
    }
  }

  /** Nine `-d` options on the code as written: nine devices for a table of eight slots. */
  lemma NinthDeviceOverflows()
    ensures var s := Scan(Start(seq(MAX_DEVICES, _ => ZERO_DEVICE)), Devices("/dev/ttyACM0", 9), false);
            s.Scanned? && s.p.num == 9 && s.p.num > |s.p.slots|
  {
    UncappedDeviceCount(Start(seq(MAX_DEVICES, _ => ZERO_DEVICE)), "/dev/ttyACM0", 9);
  }

  /** Corrected: `k` options `-d` configure `min(k, 8)` devices. */
  lemma {:induction false} CappedDeviceCount(p: Parsing, path: string, k: nat)
    requires |p.slots| == MAX_DEVICES && p.count <= MAX_DEVICES && k > 0
    ensures Scan(p, Devices(path, k), true).Scanned?
    ensures Scan(p, Devices(path, k), true).p.num ==
              if p.count + k > MAX_DEVICES then MAX_DEVICES else p.count + k
    decreases k
  {
    var s := Step(p, DeviceOpt(path), true);
    assert Devices(path, k)[0] == DeviceOpt(path);
    if k > 1 {
      assert Devices(path, k)[1..] == Devices(path, k - 1);
      CappedDeviceCount(s.p, path, k - 1);
    } else {
      assert Devices(path, k)[1..] == [];
    }
  }

  // ------------------------------------------------------- the batch run

  /** What the device and the operating system answer for one device. */
  datatype Hardware = Hardware(openFd: int, attrsOk: bool, flashOk: bool, checksumOk: bool)

  /** `init_device_connection` succeeds: a UART opens and takes its attributes; JTAG and SWD always do. */
  predicate InitSucceeds(d: Device, h: Hardware) {
    d.kind != Uart || (h.openFd >= 0 && h.attrsOk)
  }

  /** The descriptor `init_device_connection` leaves in `fd`, closed or not. */
  function OpenedFd(d: Device, h: Hardware): int {
    if d.kind == Uart then h.openFd else 1
  }

  /** `close_device_connection` on a slot. */
  function Closed(d: Device): (r: Device)
    ensures r.fd <= 0 && (d.fd <= 0 ==> r == d)
  {
    if d.fd > 0 then d.(fd := -1) else d
  }

  /** What one device's run depends on. */
  function AttemptOf(d: Device, h: Hardware): Attempt {
    Attempt(InitSucceeds(d, h), d.recovery, h.flashOk, d.validate, h.checksumOk)
  }

  /** The slot after its run: opened, and closed again when the connection succeeded. */
  function AfterRun(d: Device, h: Hardware): Device {
    var connected := d.(fd := OpenedFd(d, h));
    if InitSucceeds(d, h) then Closed(connected) else connected
  }

  /** `flash_config_t` with the zeroed slots of `main`, and the record of the stages run. */
  class FlashConfig {
    var firmwarePath: string
    var validate: bool
    var recovery: bool
    var parallel: bool
    var numDevices: int
    const devices: array<Device>
    /** Stages performed so far, oldest first. */
    var trace: seq<Event>

    ghost predicate Valid()
      reads this
    {
      devices.Length == MAX_DEVICES
    }

    constructor ()
      ensures Valid() && fresh(devices)
      ensures devices[..] == seq(MAX_DEVICES, _ => ZERO_DEVICE)
      ensures firmwarePath == "" && !validate && !recovery && !parallel && numDevices == 0 && trace == []
    {
      devices := new Device[MAX_DEVICES](_ => ZERO_DEVICE);
      firmwarePath := "";
      validate, recovery, parallel := false, false, false;
      numDevices := 0;
      trace := [];
    }

    /** The configuration while options are read, with `count` the local device count. */
    ghost function Current(count: nat): Parsing
      reads this, devices
    {
      Parsing(firmwarePath, validate, recovery, parallel, numDevices, count, devices[..])
    }

    /** The fields other than the slots and the record of stages. */
    function Settings(): (string, bool, bool, bool, int)
      reads this
    {
      (firmwarePath, validate, recovery, parallel, numDevices)
    }

    ghost function Snapshot(): Config
      reads this, devices
    {
      Config(firmwarePath, validate, recovery, parallel, numDevices, devices[..])
    }

    /** Replaces slot `k`. */
    method SetSlot(k: nat, d: Device)
      requires k < devices.Length
      modifies devices
      ensures devices[..] == old(devices[..])[k := d]
    {
      devices[k] := d;
    }

    /**
     * One pass of the getopt loop of `parse_command_line`, with a `-d`
     * beyond the eighth ignored: `stop` when the function returns (`r`) or
     * the process exits (`exited`), otherwise the new device count.
     */
    method ApplyOption(o: Opt, count: nat) returns (next: nat, stop: bool, r: int, exited: bool)
      requires Valid() && count <= MAX_DEVICES && numDevices <= MAX_DEVICES
      modifies this, devices
      ensures Valid() && trace == old(trace)
      ensures var s := Step(old(Current(count)), o, true);
              (stop <==> !s.Scanned?) && (exited <==> s.Exited?) && (s.Rejected? ==> r == -1)
              && (s.Scanned? ==> s.p == Current(next) && next <= MAX_DEVICES && numDevices <= MAX_DEVICES)
    {
      next, stop, r, exited := count, false, 0, false;
      match o {
        case FirmwareOpt(a) => firmwarePath := Truncate(a, FIRMWARE_MAX);
        case InterfaceOpt(a) =>
          var kind := InterfaceNamed(a);
          if kind.None? {
            return count, true, -1, false;
          }
          if count < MAX_DEVICES {
            SetSlot(count, devices[count].(kind := kind.value));
          }
        case DeviceOpt(a) =>
          if count < MAX_DEVICES {
            SetSlot(count, devices[count].(path := Truncate(a, PATH_MAX)));
            next := count + 1;
          }
          numDevices := next;
        case BaudOpt(a) =>
          if count < MAX_DEVICES {
            SetSlot(count, devices[count].(baudrate := Atoi(a)));
          }
        case ValidateOpt => validate := true;
        case RecoveryOpt => recovery := true;
        case ParallelOpt => parallel := true;
        case BatchOpt(_) =>
        case CountOpt(a) =>
          numDevices := Atoi(a);
          if numDevices > MAX_DEVICES {
            numDevices := MAX_DEVICES;
          }
        case VersionOpt => return count, true, 0, true;
        case HelpOpt => return count, true, 0, true;
        case BadOpt => return count, true, -1, false;
      }
    }

    /**
     * `parse_command_line`, with a `-d` beyond the eighth ignored.  After
     * `-V` or `-h` the process exits; an unknown interface or option gives
     * -1; otherwise the configuration is completed and the result is -1
     * exactly when no firmware path was given.
     */
    method ParseCommandLine(opts: seq<Opt>) returns (r: int, exited: bool)
      requires Valid()
      modifies this, devices
      ensures Valid() && trace == old(trace)
      ensures var s := Scan(Start(old(devices[..])), opts, true);
              (exited <==> s.Exited?)
              && (s.Rejected? ==> r == -1)
              && (s.Scanned? ==> s.p.num <= MAX_DEVICES && Snapshot() == Finish(s.p) && r == Code(s.p))
    {
      ghost var start := Start(devices[..]);
      firmwarePath := "";
      validate, recovery, parallel := false, false, false;
      numDevices := 0;
      var count: nat := 0;
      for i := 0 to |opts|
        invariant count <= MAX_DEVICES && numDevices <= MAX_DEVICES && Valid() && trace == old(trace)
        invariant Scan(start, opts, true) == Scan(Current(count), opts[i..], true)
      {
        assert opts[i..][0] == opts[i] && opts[i..][1..] == opts[i + 1..];
        var stop;
        count, stop, r, exited := ApplyOption(opts[i], count);
        if stop {
          return;
        }
      }
      assert opts[|opts|..] == [];
      r := Complete(count);
      exited := false;
    }

    /** Lines 175-205 of `parse_command_line`, after the last option. */
    method Complete(count: nat) returns (r: int)
      requires Valid() && count <= MAX_DEVICES && numDevices <= MAX_DEVICES
      modifies this, devices
      ensures Valid() && trace == old(trace)
      ensures Snapshot() == Finish(old(Current(count))) && r == Code(old(Current(count)))
    {
      if numDevices > 0 && count == 0 {
        DefaultDevices(numDevices);
      }
      if numDevices == 0 {
        SetSlot(0, DefaultSlot(devices[0], 0));
        numDevices := 1;
      }
      DefaultBaudrates(numDevices);
      if |firmwarePath| == 0 {
        return -1;
      }
      return 0;
    }

    /** The loop of lines 177-182: the first `n` slots become `/dev/ttyUSB<i>` UARTs at 115200. */
    method DefaultDevices(n: nat)
      requires n <= devices.Length
      modifies devices
      ensures devices[..] == DefaultSlots(old(devices[..]), n)
    {
      for i := 0 to n
        invariant devices[..] == DefaultSlots(old(devices[..]), i)
      {
        SetSlot(i, DefaultSlot(devices[i], i));
      }
    }

    /** The loop of lines 194-198: the first `n` slots get 115200 where their baud rate is 0. */
    method DefaultBaudrates(n: int)
      requires n <= devices.Length
      modifies devices
      ensures devices[..] == FillBaud(old(devices[..]), n)
    {
      for i := 0 to Clamp(n)
        invariant devices[..] == FillBaud(old(devices[..]), i)
      {
        if devices[i].baudrate == 0 {
          SetSlot(i, devices[i].(baudrate := DEFAULT_BAUD));
        }
      }
      assert FillBaud(old(devices[..]), Clamp(n)) == FillBaud(old(devices[..]), n);
    }

    /** `init_device_connection`: records the descriptor; 0 when the device is connected, -1 otherwise. */
    method InitDeviceConnection(i: nat, h: Hardware) returns (r: int)
      requires i < devices.Length
      modifies devices
      ensures r == (if InitSucceeds(old(devices[i]), h) then 0 else -1)
      ensures devices[..] == old(devices[..])[i := old(devices[i]).(fd := OpenedFd(old(devices[i]), h))]
    {
      if devices[i].kind == Uart {
        devices[i] := devices[i].(fd := h.openFd);
        if h.openFd < 0 || !h.attrsOk {
          return -1;
        }
      } else {
        devices[i] := devices[i].(fd := 1);
      }
      return 0;
    }

    /** `close_device_connection`: always 0; a positive descriptor becomes -1, so a second call changes nothing. */
    method CloseDeviceConnection(i: nat) returns (r: int)
      requires i < devices.Length
      modifies devices
      ensures r == 0
      ensures devices[..] == old(devices[..])[i := Closed(old(devices[i]))]
      ensures old(devices[i]).fd <= 0 ==> devices[..] == old(devices[..])
    {
      if devices[i].fd > 0 {
        devices[i] := devices[i].(fd := -1);
      }
      return 0;
    }

    /** `enter_recovery_mode`: always 0; it does work only when the slot's flag is set. */
    method EnterRecoveryMode(i: nat) returns (r: int, work: seq<Event>)
      requires i < devices.Length
      ensures r == 0
      ensures work == if devices[i].recovery then [Event(i, Recovery)] else []
    {
      work := if devices[i].recovery then [Event(i, Recovery)] else [];
      return 0, work;
    }

    /** `validate_checksum`: 0 without work when the slot's flag is unset, else the device's verdict. */
    method ValidateChecksum(i: nat, h: Hardware) returns (r: int, work: seq<Event>)
      requires i < devices.Length
      ensures r == (if devices[i].validate && !h.checksumOk then -1 else 0)
      ensures work == if devices[i].validate then [Event(i, Validate)] else []
    {
      if !devices[i].validate {
        return 0, [];
      }
      return (if h.checksumOk then 0 else -1), [Event(i, Validate)];
    }

    /**
     * The body of the device loop of `perform_batch_operation` for slot `i`:
     * connect, or give up on the device; recovery; flash, closing and
     * giving up on failure; validation, closing and giving up on failure;
     * close.  `work` lists the stages performed.
     */
    method RunDevice(i: nat, h: Hardware) returns (work: seq<Event>)
      requires i < devices.Length
      modifies devices
      ensures work == DeviceTrace(i, AttemptOf(old(devices[i]), h))
      ensures devices[..] == old(devices[..])[i := AfterRun(old(devices[i]), h)]
    {
      var ok := InitDeviceConnection(i, h);
      if ok != 0 {
        return [Event(i, Init)];
      }
      var _, rec := EnterRecoveryMode(i);
      work := [Event(i, Init)] + rec + [Event(i, Flash)];
      if !h.flashOk {
        var _ := CloseDeviceConnection(i);
        return work + [Event(i, Close)];
      }
      var valid, check := ValidateChecksum(i, h);
      if valid != 0 {
        var _ := CloseDeviceConnection(i);
        return work + check + [Event(i, Close)];
      }
      var _ := CloseDeviceConnection(i);
      work := work + check + [Event(i, Close)];
    }

    /**
     * `perform_batch_operation` (sequential): devices in index order, a
     * failure skipping only the rest of that device's run; always 0.
     */
    method PerformBatchOperation(hw: seq<Hardware>) returns (r: int)
      requires Valid() && numDevices <= MAX_DEVICES && numDevices <= |hw|
      modifies this, devices
      ensures r == 0 && Valid() && Settings() == old(Settings())
      ensures trace == old(trace) + BatchTrace(Attempts(old(devices[..]), hw, Clamp(numDevices)))
      ensures devices[..] == AfterRuns(old(devices[..]), hw, Clamp(numDevices))
    {
      var n := Clamp(numDevices);
      ghost var initial := devices[..];
      for i := 0 to n
        invariant Settings() == old(Settings())
        invariant trace == old(trace) + BatchTrace(Attempts(initial, hw, i))
        invariant devices[..] == AfterRuns(initial, hw, i)
      {
        AttemptsStep(initial, hw, i);
        AfterRunsStep(initial, hw, i);
        assert devices[i] == initial[i];
        var work := RunDevice(i, hw[i]);
        ExtendTrace(old(trace), BatchTrace(Attempts(initial, hw, i)), work, BatchTrace(Attempts(initial, hw, i + 1)));
        trace := trace + work;
      }
      return 0;
    }
  }

  /** The number of devices the batch loop visits: `num_devices`, or none when it is negative. */
  function Clamp(num: int): nat {
    if num > 0 then num else 0
  }

  /** What the runs of the first `n` slots depend on. */
  function Attempts(slots: seq<Device>, hw: seq<Hardware>, n: nat): (r: seq<Attempt>)
    requires n <= |slots| && n <= |hw|
    ensures |r| == n
  {
    seq(n, i requires 0 <= i < n => AttemptOf(slots[i], hw[i]))
  }

  /** The slots after the runs of the first `n`. */
  function AfterRuns(slots: seq<Device>, hw: seq<Hardware>, n: nat): (r: seq<Device>)
    requires n <= |slots| && n <= |hw|
    ensures |r| == |slots|
  {
    seq(|slots|, i requires 0 <= i < |slots| => if i < n then AfterRun(slots[i], hw[i]) else slots[i])
  }

  lemma AttemptsStep(slots: seq<Device>, hw: seq<Hardware>, i: nat)
    requires i < |slots| && i < |hw|
    ensures BatchTrace(Attempts(slots, hw, i + 1)) ==
            BatchTrace(Attempts(slots, hw, i)) + DeviceTrace(i, AttemptOf(slots[i], hw[i]))
  {
    assert Attempts(slots, hw, i + 1)[..i] == Attempts(slots, hw, i);
  }

  lemma AfterRunsStep(slots: seq<Device>, hw: seq<Hardware>, i: nat)
    requires i < |slots| && i < |hw|
    ensures AfterRuns(slots, hw, i)[i := AfterRun(slots[i], hw[i])] == AfterRuns(slots, hw, i + 1)
  {
  }
}

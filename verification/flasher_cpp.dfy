/**
 * pad-flasher/src/cpp/main.cpp: the C++ flasher.  `parseCommandLine` scans
 * `argv` by hand, growing a vector of device configurations, and
 * `performBatchOperation` runs each device through connect, recovery,
 * flash, validation and close.
 *
 * `argv` is the sequence of arguments after the program name.  `std::stoi`
 * is `ParseLeadingInt`; when it throws, the exception is never caught and
 * the run ends (`Aborted`).  The results of the connect, flash and
 * checksum stages are parameters.
 */
module FlasherCpp {
  import opened Wrappers
  import opened Text
  import opened Lifecycle

  const DEFAULT_BAUD: int := 115200

  /** `DeviceConfig`; `timeout` is never read and is left out. */
  datatype Device = Device(kind: Interface, path: string, baudrate: int, validate: bool, recovery: bool, fd: int)

  /** `DeviceConfig dev_cfg{}`: every member zero except `fd`, whose initialiser is -1. */
  const FRESH: Device := Device(Uart, "", 0, false, false, -1)

  /** `FlashConfig`. */
  datatype Settings = Settings(firmware: string, validate: bool, recovery: bool, parallel: bool,
                               num: int, devices: seq<Device>)

  /**
   * How `parseCommandLine` ends: after the defaults of lines 139-162
   * (`Finished`), by an early `return` (`Returned`), or by an uncaught
   * `std::stoi` exception (`Aborted`).
   */
  datatype Parsed = Finished(c: Settings, code: int) | Returned(c: Settings, code: int) | Aborted

  /** The scan goes on at argument `i`, or has stopped. */
  datatype Next = Go(c: Settings, i: nat) | Stop(result: Parsed)

  /** The `-n` defaults: `n` UART devices `/dev/ttyUSB<j>` at 115200 with the given flags. */
  function Defaults(n: int, validate: bool, recovery: bool): (r: seq<Device>)
    ensures |r| == (if n > 0 then n else 0)
  {
    seq(if n > 0 then n else 0, j requires 0 <= j => Device(Uart, "/dev/ttyUSB" + NatToString(j), DEFAULT_BAUD, validate, recovery, -1))
  }

  /** `d` with its validation flag (`validation`) or its recovery flag set. */
  function Flagged(d: Device, validation: bool): Device {
    if validation then d.(validate := true) else d.(recovery := true)
  }

  /** `ds` with the flag set on its first `k` devices. */
  function FlagFirst(ds: seq<Device>, k: nat, validation: bool): (r: seq<Device>)
    ensures |r| == |ds|
  {
    seq(|ds|, j requires 0 <= j < |ds| => if j < k then Flagged(ds[j], validation) else ds[j])
  }

  /** `d` with a zero baud rate replaced by 115200. */
  function FillBaud(d: Device): (r: Device)
    ensures r.baudrate != 0
  {
    if d.baudrate == 0 then d.(baudrate := DEFAULT_BAUD) else d
  }

  /** `ds` with the baud rate of its first `k` devices filled in. */
  function FillFirst(ds: seq<Device>, k: nat): (r: seq<Device>)
    ensures |r| == |ds|
  {
    seq(|ds|, j requires 0 <= j < |ds| => if j < k then FillBaud(ds[j]) else ds[j])
  }

  /** The options `parseCommandLine` recognises, in its short and long spellings. */
  datatype Arg = FirmwareArg | InterfaceArg | DeviceArg | BaudArg | ValidateArg | RecoveryArg
               | ParallelArg | CountArg | HelpArg | BatchArg | UnknownArg

  function Classify(a: string): Arg {
    if a == "-f" || a == "--firmware" then FirmwareArg
    else if a == "-i" || a == "--interface" then InterfaceArg
    else if a == "-d" || a == "--device" then DeviceArg
    else if a == "-b" || a == "--baudrate" then BaudArg
    else if a == "-v" || a == "--validate" then ValidateArg
    else if a == "-r" || a == "--recovery" then RecoveryArg
    else if a == "-p" || a == "--parallel" then ParallelArg
    else if a == "-n" || a == "--num-devices" then CountArg
    else if a == "-h" || a == "--help" || a == "-V" || a == "--version" then HelpArg
    else if a == "-c" || a == "--batch" then BatchArg
    else UnknownArg
  }

  /** `ds` with the last device changed to `d`. */
  function SetLast(ds: seq<Device>, d: Device): (r: seq<Device>)
    requires ds != []
    ensures |r| == |ds| && r[..|ds| - 1] == ds[..|ds| - 1] && r[|ds| - 1] == d
  {
    ds[|ds| - 1 := d]
  }

  /** The effect of the argument at index `i`. */
  function Step(c: Settings, args: seq<string>, i: nat): (n: Next)
    requires i < |args|
    ensures n.Go? ==> i < n.i <= |args|
  {
    var has := i + 1 < |args|;
    match Classify(args[i])
    case FirmwareArg =>
      if has then Go(c.(firmware := args[i + 1]), i + 2) else Go(c, i + 1)
    case InterfaceArg =>
      if !has then Go(c, i + 1)
      else if InterfaceNamed(args[i + 1]).None? then Stop(Returned(c, -1))
      else Go(c.(devices := c.devices + [FRESH.(kind := InterfaceNamed(args[i + 1]).value)]), i + 2)
    case DeviceArg =>
      if has && c.devices != [] then
        Go(c.(devices := SetLast(c.devices, c.devices[|c.devices| - 1].(path := args[i + 1]))), i + 2)
      else Go(c, i + 1)
    case BaudArg =>
      if !has || c.devices == [] then Go(c, i + 1)
      else if ParseLeadingInt(args[i + 1]).None? then Stop(Aborted)
      else Go(c.(devices := SetLast(c.devices, c.devices[|c.devices| - 1].(baudrate := ParseLeadingInt(args[i + 1]).value))), i + 2)
    case ValidateArg =>
      Go(c.(validate := true, devices := FlagFirst(c.devices, |c.devices|, true)), i + 1)
    case RecoveryArg =>
      Go(c.(recovery := true, devices := FlagFirst(c.devices, |c.devices|, false)), i + 1)
    case ParallelArg =>
      Go(c.(parallel := true), i + 1)
    case CountArg =>
      if !has then Go(c, i + 1)
      else if ParseLeadingInt(args[i + 1]).None? then Stop(Aborted)
      else
        var n := ParseLeadingInt(args[i + 1]).value;
        Go(c.(num := n, devices := if c.devices == [] then Defaults(n, c.validate, c.recovery) else c.devices), i + 2)
    case HelpArg => Stop(Returned(c, 0))
    case BatchArg => Go(c, if has then i + 2 else i + 1)
    case UnknownArg => Stop(Returned(c, -1))
  }

  /** Lines 139-162: one default device when there is none, and 115200 for every zero baud rate. */
  function Finish(c: Settings): (r: Settings)
    ensures |r.devices| >= 1
    ensures forall k :: 0 <= k < |r.devices| ==> r.devices[k].baudrate != 0
  {
    var d := if c.devices == [] then c.(devices := [Device(Uart, "/dev/ttyUSB0", DEFAULT_BAUD, c.validate, c.recovery, -1)], num := 1)
             else c;
    d.(devices := FillFirst(d.devices, |d.devices|))
  }

  /** `parseCommandLine` from argument `i` on. */
  function ParseFrom(c: Settings, args: seq<string>, i: nat): Parsed
    decreases |args| - i
  {
    if i >= |args| then Finished(Finish(c), if c.firmware == "" then -1 else 0)
    else
      var n := Step(c, args, i);
      if n.Go? then ParseFrom(n.c, args, n.i) else n.result
  }

  // ------------------------------------------------ properties of parsing

  /** After a parse that reaches the end, the list is non-empty and no baud rate is 0. */
  lemma {:induction false} FinishedHasDevices(c: Settings, args: seq<string>, i: nat)
    ensures var p := ParseFrom(c, args, i);
            p.Finished? ==> |p.c.devices| >= 1 && forall k :: 0 <= k < |p.c.devices| ==> p.c.devices[k].baudrate != 0
    decreases |args| - i
  {
    if i < |args| {
      var n := Step(c, args, i);
      if n.Go? {
        FinishedHasDevices(n.c, args, n.i);
      }
    }
  }

  /** A parse ends with 0 or -1 unless `std::stoi` throws; 0 after the end of the scan needs a firmware path. */
  lemma {:induction false} ParseCodes(c: Settings, args: seq<string>, i: nat)
    ensures var p := ParseFrom(c, args, i);
            (p.Finished? || p.Returned?) ==> p.code in {0, -1}
    ensures var p := ParseFrom(c, args, i);
            p.Finished? ==> (p.code == 0 <==> p.c.firmware != "")
    decreases |args| - i
  {
    if i < |args| {
      var n := Step(c, args, i);
      if n.Go? {
        ParseCodes(n.c, args, n.i);
      }
    }
  }

  /** `-h` and `-V` return 0 at once, before any default is applied and without the firmware check. */
  lemma HelpReturnsAtOnce(c: Settings, args: seq<string>, i: nat)
    requires i < |args| && Classify(args[i]) == HelpArg
    ensures ParseFrom(c, args, i) == Returned(c, 0)
  {
  }

  /** An unknown option returns -1. */
  lemma UnknownOptionFails(c: Settings, args: seq<string>, i: nat)
    requires i < |args| && Classify(args[i]) == UnknownArg
    ensures ParseFrom(c, args, i) == Returned(c, -1)
  {
  }

  /**
   * `-d` while the list is empty does not take its argument, which is then
   * read as an option: `-d /dev/ttyS0` alone is an unknown option.
   */
  lemma DeviceBeforeInterfaceFails(c: Settings)
    requires c.devices == []
    ensures ParseFrom(c, ["-d", "/dev/ttyS0"], 0) == Returned(c, -1)
  {
    assert Step(c, ["-d", "/dev/ttyS0"], 0) == Go(c, 1);
  }

  /** `-i` appends one device of the named type with both flags off, after any earlier `-v` or `-r`. */
  lemma InterfaceAppendsOne(c: Settings, args: seq<string>, i: nat)
    requires i + 1 < |args| && Classify(args[i]) == InterfaceArg && InterfaceNamed(args[i + 1]).Some?
    ensures var n := Step(c, args, i);
            n.Go? && n.c.devices[..|c.devices|] == c.devices && |n.c.devices| == |c.devices| + 1
            && n.c.devices[|c.devices|].kind == InterfaceNamed(args[i + 1]).value
            && !n.c.devices[|c.devices|].validate && !n.c.devices[|c.devices|].recovery
  {
  }

  /** `-v` sets the top-level flag and the flag of every device present, changing nothing else. */
  lemma ValidateReachesAll(c: Settings, args: seq<string>, i: nat)
    requires i < |args| && Classify(args[i]) == ValidateArg
    ensures var n := Step(c, args, i);
            n.Go? && n.c.validate && |n.c.devices| == |c.devices|
            && forall k :: 0 <= k < |c.devices| ==> n.c.devices[k] == c.devices[k].(validate := true)
  {
  }

  /** `-n k` on an empty list creates `/dev/ttyUSB0 .. /dev/ttyUSB<k-1>` carrying the current flags; otherwise it only records `k`. */
  lemma CountCreatesDefaults(c: Settings, args: seq<string>, i: nat, k: int)
    requires i + 1 < |args| && Classify(args[i]) == CountArg && ParseLeadingInt(args[i + 1]) == Some(k)
    ensures var n := Step(c, args, i);
            n.Go? && n.c.num == k
            && (c.devices != [] ==> n.c.devices == c.devices)
            && (c.devices == [] ==> n.c.devices == Defaults(k, c.validate, c.recovery))
  {
  }

  // ------------------------------------------------------- the batch run

  /** What the device answers when it is flashed and when its checksum is read. */
  datatype Hardware = Hardware(flashOk: bool, checksumOk: bool)

  /** `initDeviceConnection` always succeeds. */
  function AttemptOf(d: Device, h: Hardware): Attempt {
    Attempt(true, d.recovery, h.flashOk, d.validate, h.checksumOk)
  }

  /** `closeDeviceConnection` on a device. */
  function Closed(d: Device): (r: Device)
    ensures r.fd <= 0 && (d.fd <= 0 ==> r == d)
  {
    if d.fd > 0 then d.(fd := -1) else d
  }

  /** The device after its run: given the placeholder descriptor 1, and closed again. */
  function AfterRun(d: Device): (r: Device)
    ensures r == d.(fd := -1)
  {
    Closed(d.(fd := 1))
  }

  function Attempts(ds: seq<Device>, hw: seq<Hardware>, n: nat): (r: seq<Attempt>)
    requires n <= |ds| && n <= |hw|
    ensures |r| == n
  {
    seq(n, i requires 0 <= i < n => AttemptOf(ds[i], hw[i]))
  }

  function AfterRuns(ds: seq<Device>, hw: seq<Hardware>, n: nat): (r: seq<Device>)
    requires n <= |ds| && n <= |hw|
    ensures |r| == |ds|
  {
    seq(|ds|, i requires 0 <= i < |ds| => if i < n then AfterRun(ds[i]) else ds[i])
  }

  lemma AttemptsStep(ds: seq<Device>, hw: seq<Hardware>, i: nat)
    requires i < |ds| && i < |hw|
    ensures BatchTrace(Attempts(ds, hw, i + 1)) == BatchTrace(Attempts(ds, hw, i)) + DeviceTrace(i, AttemptOf(ds[i], hw[i]))
  {
    var next := Attempts(ds, hw, i + 1);
    assert next[..i] == Attempts(ds, hw, i);
    assert next[i] == AttemptOf(ds[i], hw[i]);
    assert BatchTrace(next) == BatchTrace(next[..i]) + DeviceTrace(i, next[i]);
  }

  /** In a batch every device is connected once, flashed once and closed once, in index order. */
  lemma BatchClosesEveryDevice(ds: seq<Device>, hw: seq<Hardware>, j: nat)
    requires |hw| >= |ds|
    ensures var t := BatchTrace(Attempts(ds, hw, |ds|));
            InOrder(t) && DevicesBelow(t, |ds|)
            && Count(t, j, Init) == Count(t, j, Flash) == Count(t, j, Close) == (if j < |ds| then 1 else 0)
  {
    BatchTraceFacts(Attempts(ds, hw, |ds|), j);
  }

  /** `PadFlasher` with its `config_`, and the record of the stages run. */
  class PadFlasher {
    var firmwarePath: string
    var validate: bool
    var recovery: bool
    var parallel: bool
    var numDevices: int
    var devices: seq<Device>
    /** Stages performed so far, oldest first. */
    var trace: seq<Event>

    constructor ()
      ensures firmwarePath == "" && !validate && !recovery && !parallel && numDevices == 0
      ensures devices == [] && trace == []
    {
      firmwarePath := "";
      validate, recovery, parallel := false, false, false;
      numDevices := 0;
      devices := [];
      trace := [];
    }

    function Config(): Settings
      reads this
    {
      Settings(firmwarePath, validate, recovery, parallel, numDevices, devices)
    }

    /** One pass of the argument loop of `parseCommandLine`. */
    method ApplyArg(args: seq<string>, i: nat) returns (next: nat, stop: bool, r: int, aborted: bool)
      requires i < |args|
      modifies this
      ensures trace == old(trace)
      ensures var n := Step(old(Config()), args, i);
              (stop <==> n.Stop?)
              && (n.Go? ==> next == n.i && Config() == n.c)
              && (n.Stop? ==> (aborted <==> n.result.Aborted?) && (!aborted ==> r == n.result.code && Config() == n.result.c))
    {
      next, stop, r, aborted := i + 1, false, 0, false;
      match Classify(args[i])
      case ValidateArg =>
        validate := true;
        SetAllFlags(true);
      case RecoveryArg =>
        recovery := true;
        SetAllFlags(false);
      case ParallelArg =>
        parallel := true;
      case HelpArg =>
        return i + 1, true, 0, false;
      case UnknownArg =>
        return i + 1, true, -1, false;
      case _ =>
        next, stop, r, aborted := ApplyValued(args, i);
    }

    /** The options that take the next argument as their value: `-f`, `-i`, `-d`, `-b`, `-n` and `-c`. */
    method ApplyValued(args: seq<string>, i: nat) returns (next: nat, stop: bool, r: int, aborted: bool)
      requires i < |args| && Classify(args[i]) in {FirmwareArg, InterfaceArg, DeviceArg, BaudArg, CountArg, BatchArg}
      modifies this
      ensures trace == old(trace)
      ensures var n := Step(old(Config()), args, i);
              (stop <==> n.Stop?)
              && (n.Go? ==> next == n.i && Config() == n.c)
              && (n.Stop? ==> (aborted <==> n.result.Aborted?) && (!aborted ==> r == n.result.code && Config() == n.result.c))
    {
      next, stop, r, aborted := i + 1, false, 0, false;
      if i + 1 == |args| {
        return;
      }
      var value := args[i + 1];
      match Classify(args[i])
      case FirmwareArg =>
        firmwarePath := value;
        next := i + 2;
      case InterfaceArg =>
        var kind := InterfaceNamed(value);
        if kind.None? {
          return i + 1, true, -1, false;
        }
        devices := devices + [FRESH.(kind := kind.value)];
        next := i + 2;
      case DeviceArg =>
        if devices != [] {
          devices := SetLast(devices, devices[|devices| - 1].(path := value));
          next := i + 2;
        }
      case BaudArg =>
        if devices != [] {
          var b := ParseLeadingInt(value);
          if b.None? {
            return i + 1, true, 0, true;
          }
          devices := SetLast(devices, devices[|devices| - 1].(baudrate := b.value));
          next := i + 2;
        }
      case CountArg =>
        var n := ParseLeadingInt(value);
        if n.None? {
          return i + 1, true, 0, true;
        }
        numDevices := n.value;
        if devices == [] {
          AddDefaults(n.value);
        }
        next := i + 2;
      case BatchArg =>
        next := i + 2;
    }

    /** The `for (auto& dev : config_.devices)` loops of `-v` (`validation`) and `-r`. */
    method SetAllFlags(validation: bool)
      modifies this
      ensures devices == FlagFirst(old(devices), |old(devices)|, validation)
      ensures firmwarePath == old(firmwarePath) && validate == old(validate) && recovery == old(recovery)
      ensures parallel == old(parallel) && numDevices == old(numDevices) && trace == old(trace)
    {
      for k := 0 to |devices|
        invariant |devices| == |old(devices)| && devices == FlagFirst(old(devices), k, validation)
        invariant firmwarePath == old(firmwarePath) && validate == old(validate) && recovery == old(recovery)
        invariant parallel == old(parallel) && numDevices == old(numDevices) && trace == old(trace)
      {
        if validation {
          devices := devices[k := devices[k].(validate := true)];
        } else {
          devices := devices[k := devices[k].(recovery := true)];
        }
      }
    }

    /** The loop of lines 112-120: `/dev/ttyUSB<j>` UART devices at 115200 with the current flags. */
    method AddDefaults(n: int)
      requires devices == []
      modifies this
      ensures devices == Defaults(n, validate, recovery)
      ensures firmwarePath == old(firmwarePath) && validate == old(validate) && recovery == old(recovery)
      ensures parallel == old(parallel) && numDevices == old(numDevices) && trace == old(trace)
    {
      for j := 0 to (if n > 0 then n else 0)
        invariant devices == Defaults(j, validate, recovery)
        invariant firmwarePath == old(firmwarePath) && validate == old(validate) && recovery == old(recovery)
        invariant parallel == old(parallel) && numDevices == old(numDevices) && trace == old(trace)
      {
        devices := devices + [Device(Uart, "/dev/ttyUSB" + NatToString(j), DEFAULT_BAUD, validate, recovery, -1)];
      }
    }

    /**
     * `parseCommandLine`: clears the list, scans the arguments, then adds the
     * default device and baud rates and checks the firmware path.
     */
    method ParseCommandLine(args: seq<string>) returns (r: int, aborted: bool)
      modifies this
      ensures trace == old(trace)
      ensures var p := ParseFrom(old(Config()).(devices := []), args, 0);
              (aborted <==> p.Aborted?) && (!aborted ==> r == p.code && Config() == p.c)
    {
      devices := [];
      var i := 0;
      while i < |args|
        invariant i <= |args| && trace == old(trace)
        invariant ParseFrom(old(Config()).(devices := []), args, 0) == ParseFrom(Config(), args, i)
        decreases |args| - i
      {
        var stop;
        i, stop, r, aborted := ApplyArg(args, i);
        if stop {
          return;
        }
      }
      aborted := false;
      r := Complete();
    }

    /** Lines 139-162: the default device, the default baud rates and the firmware check. */
    method Complete() returns (r: int)
      modifies this
      ensures Config() == Finish(old(Config())) && trace == old(trace)
      ensures r == (if firmwarePath == "" then -1 else 0)
    {
      if devices == [] {
        devices := [Device(Uart, "/dev/ttyUSB0", DEFAULT_BAUD, validate, recovery, -1)];
        numDevices := 1;
      }
      ghost var listed := Config();
      for k := 0 to |devices|
        invariant Config() == listed.(devices := FillFirst(listed.devices, k))
        invariant trace == old(trace)
      {
        if devices[k].baudrate == 0 {
          devices := devices[k := devices[k].(baudrate := DEFAULT_BAUD)];
        }
      }
      r := if firmwarePath == "" then -1 else 0;
    }

    /** `initDeviceConnection`: the placeholder descriptor 1, and 0. */
    method InitDeviceConnection(i: nat) returns (r: int)
      requires i < |devices|
      modifies this
      ensures r == 0 && devices == old(devices)[i := old(devices[i]).(fd := 1)]
      ensures Config().(devices := []) == old(Config()).(devices := []) && trace == old(trace)
    {
      devices := devices[i := devices[i].(fd := 1)];
      return 0;
    }

    /** `closeDeviceConnection`: always 0; a positive descriptor becomes -1, so a second call changes nothing. */
    method CloseDeviceConnection(i: nat) returns (r: int)
      requires i < |devices|
      modifies this
      ensures r == 0 && devices == old(devices)[i := Closed(old(devices[i]))]
      ensures old(devices[i]).fd <= 0 ==> devices == old(devices)
      ensures Config().(devices := []) == old(Config()).(devices := []) && trace == old(trace)
    {
      if devices[i].fd > 0 {
        devices := devices[i := devices[i].(fd := -1)];
      }
      return 0;
    }

    /**
     * `processSingleDevice`: connect, or give up without closing; recovery;
     * flash, closing on failure; validation, closing on failure; close.
     */
    method ProcessSingleDevice(i: nat, h: Hardware)
      requires i < |devices|
      modifies this
      ensures trace == old(trace) + DeviceTrace(i, AttemptOf(old(devices[i]), h))
      ensures devices == old(devices)[i := AfterRun(old(devices[i]))]
      ensures Config().(devices := []) == old(Config()).(devices := [])
    {
      ghost var a := AttemptOf(devices[i], h);
      var work := [Event(i, Init)];
      var _ := InitDeviceConnection(i);
      assert devices[i].recovery == a.recovery && devices[i].validate == a.validate;
      if devices[i].recovery {
        work := work + [Event(i, Recovery)];
      }
      work := work + [Event(i, Flash)];
      if !h.flashOk {
        var _ := CloseDeviceConnection(i);
        trace := trace + (work + [Event(i, Close)]);
        return;
      }
      if devices[i].validate {
        work := work + [Event(i, Validate)];
        if !h.checksumOk {
          var _ := CloseDeviceConnection(i);
          trace := trace + (work + [Event(i, Close)]);
          return;
        }
      }
      var _ := CloseDeviceConnection(i);
      trace := trace + (work + [Event(i, Close)]);
    }

    /**
     * `performBatchOperation`: every device in index order; always 0.  The
     * parallel branch is represented by this one schedule of its threads.
     */
    method PerformBatchOperation(hw: seq<Hardware>) returns (r: int)
      requires |hw| >= |devices|
      modifies this
      ensures r == 0
      ensures trace == old(trace) + BatchTrace(Attempts(old(devices), hw, |old(devices)|))
      ensures devices == AfterRuns(old(devices), hw, |old(devices)|)
      ensures Config().(devices := []) == old(Config()).(devices := [])
    {
      ghost var initial := devices;
      for i := 0 to |devices|
        invariant |devices| == |initial| && devices == AfterRuns(initial, hw, i)
        invariant trace == old(trace) + BatchTrace(Attempts(initial, hw, i))
        invariant Config().(devices := []) == old(Config()).(devices := [])
      {
        AttemptsStep(initial, hw, i);
        assert devices[i] == initial[i];
        ghost var done := trace;
        ProcessSingleDevice(i, hw[i]);
        ExtendTrace(old(trace), BatchTrace(Attempts(initial, hw, i)), DeviceTrace(i, AttemptOf(initial[i], hw[i])),
                    BatchTrace(Attempts(initial, hw, i + 1)));
      }
      return 0;
    }
  }
}

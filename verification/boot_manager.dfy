/**
 * PAD-BootManager/src/main.cpp: the bootloader utility.  Its `getopt_long`
 * loop sets the device, the firmware file, the bootloader mode and the
 * rollback flag; `-c` and `--list-devices` end the loop with their own
 * result.  The checks after the loop reject a firmware file given together
 * with rollback, a missing firmware file otherwise, and a mode other than
 * DFU or UF2.  `run` rolls back, or loads the firmware file and uploads it.
 *
 * The options reach the model as the sequence `getopt_long` yields.  A
 * timeout that `std::stoi` cannot read throws an exception nothing catches,
 * which ends the program.  Whether the firmware file opens is a parameter.
 */
module BootManager {
  import opened Text

  /** One option as `getopt_long` returns it. */
  datatype Opt =
    | DeviceOpt(port: string)
    | FirmwareOpt(file: string)
    | ModeOpt(mode: string)
    | VerboseOpt
    | RecoveryOpt
    | RollbackOpt
    | SignatureOpt(file: string)
    | TimeoutOpt(seconds: string)
    | CheckSignatureOpt
    | SecureBootOpt
    | ListDevicesOpt
    | VersionOpt
    | HelpOpt
    | BadOpt

  /** The fields of `PADBootManager`. */
  datatype Settings = Settings(firmware: string, port: string, mode: string, verbose: bool,
                               recovery: bool, rollback: bool, signature: string, timeout: int)

  /** The constructor's values: a 30-second timeout, every flag off. */
  const INITIAL: Settings := Settings("", "", "", false, false, false, "", 30)

  /**
   * How the option loop ends: it runs out of options, an option returns
   * from `parse_arguments` (`early` for `-c` and `--list-devices`, which
   * report success or failure of their own work), or `std::stoi` throws.
   */
  datatype Scanned = Scanned(t: Settings) | Returned(ok: bool, early: bool, t: Settings) | Thrown

  /** `handle_signature_check`: it fails exactly when no signature file was given before `-c`. */
  function SignatureCheck(t: Settings): (ok: bool)
    ensures ok <==> t.signature != []
  {
    t.signature != []
  }

  /** The effect of one option. */
  function Step(t: Settings, o: Opt): Scanned {
    match o
    case DeviceOpt(p) => Scanned(t.(port := p))
    case FirmwareOpt(f) => Scanned(t.(firmware := f))
    case ModeOpt(m) => Scanned(t.(mode := m))
    case VerboseOpt => Scanned(t.(verbose := true))
    case RecoveryOpt => Scanned(t.(recovery := true))
    case RollbackOpt => Scanned(t.(rollback := true))
    case SignatureOpt(f) => Scanned(t.(signature := f))
    case TimeoutOpt(s) =>
      (match ParseLeadingInt(s) case Some(v) => Scanned(t.(timeout := v)) case None => Thrown)
    case CheckSignatureOpt => Returned(SignatureCheck(t), true, t)
    case SecureBootOpt => Scanned(t)
    case ListDevicesOpt => Returned(true, true, t)
    case VersionOpt => Returned(false, false, t)
    case HelpOpt => Returned(false, false, t)
    case BadOpt => Returned(false, false, t)
  }

  /** The `getopt_long` loop over `opts`. */
  function Scan(t: Settings, opts: seq<Opt>): Scanned
    decreases |opts|
  {
    if opts == [] then Scanned(t)
    else
      var s := Step(t, opts[0]);
      if s.Scanned? then Scan(s.t, opts[1..]) else s
  }

  /** A mode the bootloader supports. */
  predicate Supported(mode: string) {
    mode == "dfu" || mode == "uf2"
  }

  /** The result of `parse_arguments` and the fields it leaves, or the end of the program. */
  datatype Outcome = Outcome(ok: bool, early: bool, t: Settings) | Terminated

  /**
   * The checks after the loop: a firmware file with rollback fails, no
   * firmware file without rollback fails, an empty mode becomes "dfu", and
   * any other mode is lower-cased in place and must then be supported.
   */
  function Validate(t: Settings): (r: Outcome)
    ensures r.Outcome? && !r.early
  {
    if t.rollback && t.firmware != [] then Outcome(false, false, t)
    else if !t.rollback && t.firmware == [] then Outcome(false, false, t)
    else if t.mode == [] then Outcome(true, false, t.(mode := "dfu"))
    else
      var m := ToLower(t.mode);
      Outcome(Supported(m), false, t.(mode := m))
  }

  /** `parse_arguments`. */
  function Parse(t: Settings, opts: seq<Opt>): Outcome {
    match Scan(t, opts)
    case Thrown => Terminated
    case Returned(ok, early, u) => Outcome(ok, early, u)
    case Scanned(u) => Validate(u)
  }

  /**
   * After a loop that runs out of options, the parse succeeds exactly when
   * the firmware file is given if and only if rollback is not, and the mode
   * is empty or names DFU or UF2 in any letter case; the mode left behind is
   * then "dfu" or "uf2".
   */
  lemma ValidateRules(t: Settings)
    ensures var r := Validate(t);
            (r.ok <==> (t.rollback <==> t.firmware == []) && (t.mode == [] || Supported(ToLower(t.mode))))
            && (r.ok ==> Supported(r.t.mode))
            && r.t.(mode := t.mode) == t
  {
  }

  /** An empty mode is the default "dfu"; a given mode is kept lower-cased. */
  lemma ValidateMode(t: Settings)
    requires t.rollback <==> t.firmware == []
    ensures Validate(t).t.mode == if t.mode == [] then "dfu" else ToLower(t.mode)
  {
  }

  /** Lower-casing makes the mode check ignore letter case: "DFU" and "Uf2" pass. */
  lemma ModeIgnoresCase(t: Settings, u: Settings)
    requires t.(mode := u.mode) == u && t.mode != [] && u.mode != [] && ToLower(t.mode) == ToLower(u.mode)
    ensures Validate(t).ok == Validate(u).ok
  {
  }

  /** Scanning a prefix that does not stop, then the rest, is scanning the whole. */
  lemma {:induction false} ScanSplit(t: Settings, opts: seq<Opt>, k: nat)
    requires k <= |opts| && Scan(t, opts[..k]).Scanned?
    ensures Scan(t, opts) == Scan(Scan(t, opts[..k]).t, opts[k..])
    decreases k
  {
    if k > 0 {
      var s := Step(t, opts[0]);
      assert opts[..k][0] == opts[0] && opts[..k][1..] == opts[1..][..k - 1];
      ScanSplit(s.t, opts[1..], k - 1);
      assert opts[1..][k - 1..] == opts[k..];
    }
  }

  /**
   * `-c` ends the parse with the signature check's result, and
   * `--list-devices` ends it with success, neither looking at the options
   * after it nor applying the checks.
   */
  lemma EarlyReturn(t: Settings, opts: seq<Opt>, k: nat)
    requires k < |opts| && opts[k] in {CheckSignatureOpt, ListDevicesOpt} && Scan(t, opts[..k]).Scanned?
    ensures var u := Scan(t, opts[..k]).t;
            Parse(t, opts) == Outcome(opts[k] == ListDevicesOpt || u.signature != [], true, u)
  {
    ScanSplit(t, opts, k);
    assert opts[k..][0] == opts[k];
  }

  /** `-V`, `-h` or an unknown option ends the parse with failure. */
  lemma StopOptionFails(t: Settings, opts: seq<Opt>, k: nat)
    requires k < |opts| && opts[k] in {VersionOpt, HelpOpt, BadOpt} && Scan(t, opts[..k]).Scanned?
    ensures Parse(t, opts) == Outcome(false, false, Scan(t, opts[..k]).t)
  {
    ScanSplit(t, opts, k);
    assert opts[k..][0] == opts[k];
  }

  /** A `-t` value with no digits to read ends the program. */
  lemma BadTimeoutTerminates(t: Settings, opts: seq<Opt>, k: nat)
    requires k < |opts| && Scan(t, opts[..k]).Scanned?
    requires opts[k].TimeoutOpt? && ParseLeadingInt(opts[k].seconds).None?
    ensures Parse(t, opts) == Terminated
  {
    ScanSplit(t, opts, k);
    assert opts[k..][0] == opts[k];
  }

  /** What `run` does to the device. */
  datatype Operation = RolledBack | Uploaded(mode: string)

  /** `run`: rollback needs no firmware file; otherwise the file must open before the upload. */
  function RunOps(t: Settings, opens: bool): (ops: seq<Operation>)
    ensures |ops| <= 1
    ensures t.rollback ==> ops == [RolledBack]
    ensures !t.rollback ==> (ops == [] <==> !opens) && (opens ==> ops == [Uploaded(t.mode)])
  {
    if t.rollback then [RolledBack] else if opens then [Uploaded(t.mode)] else []
  }

  /** The exit status and the operations of `main` as written: after any successful parse it runs. */
  function MainAsWritten(t: Settings, opts: seq<Opt>, opens: bool): (r: (int, seq<Operation>))
    requires !Parse(t, opts).Terminated?
  {
    var p := Parse(t, opts);
    if !p.ok then (1, [])
    else
      var ops := RunOps(p.t, opens);
      (if ops == [] then 1 else 0, ops)
  }

  /**
   * `-c` promises to check the signature without flashing, yet after a
   * successful check `main` goes on to `run`, which uploads the firmware,
   * here with the mode still empty because the checks that default it
   * were skipped.
   */
  lemma CheckSignatureFlashes()
    ensures MainAsWritten(INITIAL, [FirmwareOpt("fw.bin"), SignatureOpt("fw.sig"), CheckSignatureOpt], true)
            == (0, [Uploaded("")])
  {
    var opts := [FirmwareOpt("fw.bin"), SignatureOpt("fw.sig"), CheckSignatureOpt];
    assert opts[1..] == [SignatureOpt("fw.sig"), CheckSignatureOpt];
    assert opts[1..][1..] == [CheckSignatureOpt];
  }

  /** `--list-devices` on its own lists the devices, then `run` fails to open an unnamed firmware file: exit status 1. */
  lemma ListDevicesExitsOne()
    ensures MainAsWritten(INITIAL, [ListDevicesOpt], false) == (1, [])
  {
  }

  /** `main` as the usage text describes it: `-c` and `--list-devices` end the program with their own result. */
  function MainIntended(t: Settings, opts: seq<Opt>, opens: bool): (r: (int, seq<Operation>))
    requires !Parse(t, opts).Terminated?
    ensures Parse(t, opts).early ==> r.1 == []
    ensures !Parse(t, opts).early ==> r == MainAsWritten(t, opts, opens)
  {
    var p := Parse(t, opts);
    if p.early then (if p.ok then 0 else 1, [])
    else MainAsWritten(t, opts, opens)
  }

  /** In the intended `main`, an upload only follows a parse that passed the checks, so its mode is supported. */
  lemma IntendedUploadsSupportedMode(t: Settings, opts: seq<Opt>, opens: bool)
    requires !Parse(t, opts).Terminated?
    ensures forall op :: op in MainIntended(t, opts, opens).1 && op.Uploaded? ==> Supported(op.mode)
  {
    var p := Parse(t, opts);
    if !p.early && p.ok {
      ScanReturns(t, opts);
      ValidateRules(Scan(t, opts).t);
    }
  }

  /** Only `-c` and `--list-devices` end the loop with success. */
  lemma {:induction false} ScanReturns(t: Settings, opts: seq<Opt>)
    ensures var s := Scan(t, opts); s.Returned? && s.ok ==> s.early
    decreases |opts|
  {
    if opts != [] && Step(t, opts[0]).Scanned? {
      ScanReturns(Step(t, opts[0]).t, opts[1..]);
    }
  }

  class PadBootManager {
    var firmwareFile: string
    var devicePort: string
    var mode: string
    var verbose: bool
    var recoveryMode: bool
    var rollback: bool
    var signatureFile: string
    var timeout: int
    /** What the runs did to the device, in order. */
    var operations: seq<Operation>

    constructor ()
      ensures Snapshot() == INITIAL && operations == []
    {
      firmwareFile, devicePort, mode := "", "", "";
      verbose, recoveryMode, rollback := false, false, false;
      signatureFile, timeout := "", 30;
      operations := [];
    }

    function Snapshot(): Settings
      reads this
    {
      Settings(firmwareFile, devicePort, mode, verbose, recoveryMode, rollback, signatureFile, timeout)
    }

    /** `handle_signature_check`. */
    method HandleSignatureCheck() returns (ok: bool)
      ensures ok == SignatureCheck(Snapshot())
    {
      if signatureFile == [] {
        return false;
      }
      return true;
    }

    /** One pass of the option loop. */
    method ApplyOption(o: Opt) returns (stop: bool, ok: bool, early: bool, thrown: bool)
      modifies this`firmwareFile, this`devicePort, this`mode, this`verbose, this`recoveryMode,
               this`rollback, this`signatureFile, this`timeout
      ensures var s := Step(old(Snapshot()), o);
              (thrown <==> s.Thrown?) && (stop <==> s.Returned?) && (!thrown ==> Snapshot() == s.t)
              && (stop ==> ok == s.ok && early == s.early)
    {
      stop, ok, early, thrown := false, false, false, false;
      match o
      case DeviceOpt(p) => devicePort := p;
      case FirmwareOpt(f) => firmwareFile := f;
      case ModeOpt(m) => mode := m;
      case VerboseOpt => verbose := true;
      case RecoveryOpt => recoveryMode := true;
      case RollbackOpt => rollback := true;
      case SignatureOpt(f) => signatureFile := f;
      case TimeoutOpt(s) =>
        var v := ParseLeadingInt(s);
        if v.Some? { timeout := v.value; } else { thrown := true; }
      case CheckSignatureOpt =>
        stop, early := true, true;
        ok := HandleSignatureCheck();
      case SecureBootOpt =>
      case ListDevicesOpt => stop, ok, early := true, true, true;
      case VersionOpt => stop := true;
      case HelpOpt => stop := true;
      case BadOpt => stop := true;
    }

    /** The checks after the option loop. */
    method ValidateArguments() returns (ok: bool)
      modifies this`mode
      ensures Validate(old(Snapshot())) == Outcome(ok, false, Snapshot())
    {
      if rollback && firmwareFile != [] {
        return false;
      }
      if !rollback && firmwareFile == [] {
        return false;
      }
      if mode == [] {
        mode := "dfu";
      } else {
        mode := ToLower(mode);
        if mode != "dfu" && mode != "uf2" {
          return false;
        }
      }
      return true;
    }

    /**
     * `parse_arguments`; `early` reports that `-c` or `--list-devices` ended
     * it, and `thrown` that `std::stoi` threw and the program ended.
     */
    method ParseArguments(opts: seq<Opt>) returns (ok: bool, early: bool, thrown: bool)
      modifies this`firmwareFile, this`devicePort, this`mode, this`verbose, this`recoveryMode,
               this`rollback, this`signatureFile, this`timeout
      ensures thrown <==> Parse(old(Snapshot()), opts) == Terminated
      ensures !thrown ==> var p := Parse(old(Snapshot()), opts); p.ok == ok && p.early == early && p.t == Snapshot()
    {
      early := false;
      var i := 0;
      while i < |opts|
        invariant i <= |opts|
        invariant Scan(old(Snapshot()), opts) == Scan(Snapshot(), opts[i..])
      {
        var stop;
        stop, ok, early, thrown := ApplyOption(opts[i]);
        if stop || thrown {
          return;
        }
        i := i + 1;
      }
      early, thrown := false, false;
      ok := ValidateArguments();
    }

    /** `run`: roll back, or load the firmware file and upload it in the chosen mode. */
    method Run(opens: bool) returns (ok: bool)
      modifies this`operations
      ensures operations == old(operations) + RunOps(Snapshot(), opens)
      ensures ok <==> RunOps(Snapshot(), opens) != []
    {
      if rollback {
        operations := operations + [RolledBack];
        return true;
      }
      if !opens {
        return false;
      }
      operations := operations + [Uploaded(mode)];
      return true;
    }

    /**
     * `main` as intended: parse, then run, except that `-c` and
     * `--list-devices` end the program with their own result; the exit
     * status is 1 when a step fails.
     */
    method Execute(opts: seq<Opt>, opens: bool) returns (code: int, thrown: bool)
      modifies this
      ensures old(operations) <= operations
      ensures thrown <==> Parse(old(Snapshot()), opts) == Terminated
      ensures !thrown ==> (code, operations[|old(operations)|..]) == MainIntended(old(Snapshot()), opts, opens)
    {
      var ok, early;
      ok, early, thrown := ParseArguments(opts);
      if thrown || !ok || early {
        assert operations[|old(operations)|..] == [];
        return if ok && !thrown then 0 else 1, thrown;
      }
      ok := Run(opens);
      code := if ok then 0 else 1;
    }
  }
}

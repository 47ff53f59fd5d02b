/**
 * pad-corebuilder/src/c/main.c: the C core builder.  `main` collects the
 * options in local `char *` variables, where NULL means "not given" and an
 * empty argument still counts as given, then dispatches in the order of
 * `CoreFiles.Dispatch`.  The generated paths are built with `snprintf` into
 * 512-byte buffers, so a path keeps at most 511 characters; `GenerateCoreWrites`
 * is that code as written, and `main` here uses `CheckedGenerateCore`, which
 * refuses a path that does not fit instead of cutting it.
 *
 * Creating the output directory, the sleeps and the printed progress are
 * left out; whether the pin-map file exists and whether the generated files
 * can be opened for writing are parameters.
 */
module CoreBuilderC {
  import opened Wrappers
  import opened CoreFiles

  /** The locals of `main`; `None` is a NULL pointer. */
  datatype Args = Args(mcu: Option<string>, output: Option<string>, template: Option<string>,
                       config: Option<string>, validate: bool, pinMap: Option<string>,
                       apply: Option<string>)

  const NO_ARGS: Args := Args(None, None, None, None, false, None, None)

  /** How the option loop ends: out of options, or `main` returning at `-h` (0) or an unknown option (1). */
  datatype Scanned = Scanned(a: Args) | Exited(code: int)

  function Step(a: Args, o: Opt): Scanned {
    match o
    case McuOpt(m) => Scanned(a.(mcu := Some(m)))
    case OutputOpt(p) => Scanned(a.(output := Some(p)))
    case TemplateOpt(t) => Scanned(a.(template := Some(t)))
    case ConfigOpt(f) => Scanned(a.(config := Some(f)))
    case ValidateOpt => Scanned(a.(validate := true))
    case PinMapOpt(f) => Scanned(a.(pinMap := Some(f)))
    case ApplyTemplateOpt(t) => Scanned(a.(apply := Some(t)))
    case HelpOpt => Exited(0)
    case BadOpt => Exited(1)
  }

  function Scan(a: Args, opts: seq<Opt>): Scanned
    decreases |opts|
  {
    if opts == [] then Scanned(a)
    else
      var s := Step(a, opts[0]);
      if s.Scanned? then Scan(s.a, opts[1..]) else s
  }

  /** The request the locals make: any non-NULL pointer counts as given. */
  function RequestOf(a: Args): Request {
    Request(a.mcu, a.output, a.template, a.validate, a.pinMap, a.apply)
  }

  /** The path `snprintf` leaves in a 512-byte buffer: at most 511 characters, a prefix of the intended path. */
  function PathBuffer(s: string): (p: string)
    ensures |p| <= 511 && p <= s
    ensures |s| <= 511 ==> p == s
  {
    if |s| <= 511 then s else s[..511]
  }

  /** `generate_core` as written: both paths go through a 512-byte buffer; the result is always 0. */
  function GenerateCoreWrites(mcu: string, output: string, writable: bool): (writes: seq<Write>)
    ensures writable ==> |writes| == 2 && writes[0].lines == CoreLines(mcu) && writes[1].lines == HeaderLines(mcu, mcu)
    ensures !writable ==> writes == []
  {
    if writable then [Write(PathBuffer(CorePath(output, mcu)), CoreLines(mcu)),
                      Write(PathBuffer(HeaderPath(output, mcu)), HeaderLines(mcu, mcu))]
    else []
  }

  /**
   * What an action does: its exit status and the files it writes, with the
   * generated paths checked against the buffer size (see
   * `CheckedGenerateCore`).  A file that cannot be opened is skipped without
   * changing the status; a missing pin-map file, missing arguments and a
   * path too long for its buffer give 1.
   */
  function Perform(action: Action, pinMapExists: bool, writable: bool): (r: (int, seq<Write>))
    ensures r.0 == 1 <==> action.MissingArguments? || (action.ValidatePinMap? && !pinMapExists)
                          || (action.GenerateCore? && |CorePath(action.output, action.mcu)| > 511)
    ensures r.0 == 0 || r.0 == 1
    ensures r.1 != [] <==> writable && (action.ApplyTemplate? || (action.GenerateCore? && r.0 == 0))
  {
    match action
    case ApplyTemplate(m, t, out) => (0, if writable then [Write(out, TemplateLines(m, t))] else [])
    case ValidateMcu(_) => (0, [])
    case ValidatePinMap(_) => (if pinMapExists then 0 else 1, [])
    case MissingArguments => (1, [])
    case GenerateCore(m, out, _) => CheckedGenerateCore(m, out, writable)
  }

  /** `main`: its exit status and the files it writes. */
  function Main(opts: seq<Opt>, pinMapExists: bool, writable: bool): (int, seq<Write>) {
    match Scan(NO_ARGS, opts)
    case Exited(code) => (code, [])
    case Scanned(a) => Perform(Dispatch(RequestOf(a)), pinMapExists, writable)
  }

  /** Scanning a prefix that does not stop, then the rest, is scanning the whole. */
  lemma {:induction false} ScanSplit(a: Args, opts: seq<Opt>, k: nat)
    requires k <= |opts| && Scan(a, opts[..k]).Scanned?
    ensures Scan(a, opts) == Scan(Scan(a, opts[..k]).a, opts[k..])
    decreases k
  {
    if k > 0 {
      var s := Step(a, opts[0]);
      assert opts[..k][0] == opts[0] && opts[..k][1..] == opts[1..][..k - 1];
      ScanSplit(s.a, opts[1..], k - 1);
      assert opts[1..][k - 1..] == opts[k..];
    }
  }

  /** `-h` ends the program with status 0 and an unknown option with 1, whatever follows, writing nothing. */
  lemma HelpAndBadOptionExit(opts: seq<Opt>, k: nat, pinMapExists: bool, writable: bool)
    requires k < |opts| && opts[k] in {HelpOpt, BadOpt} && Scan(NO_ARGS, opts[..k]).Scanned?
    ensures Main(opts, pinMapExists, writable) == (if opts[k] == HelpOpt then 0 else 1, [])
  {
    ScanSplit(NO_ARGS, opts, k);
    assert opts[k..][0] == opts[k];
  }

  /** An empty MCU name still counts as given: `-m "" -o cores -t arduino` generates files for the MCU "". */
  lemma EmptyMcuGenerates()
    ensures Main([McuOpt(""), OutputOpt("cores"), TemplateOpt("arduino")], false, true)
            == (0, [Write("cores/_core.c", CoreLines("")), Write("cores/_hal.h", HeaderLines("", ""))])
  {
    var opts := [McuOpt(""), OutputOpt("cores"), TemplateOpt("arduino")];
    assert opts[1..] == [OutputOpt("cores"), TemplateOpt("arduino")];
    assert opts[1..][1..] == [TemplateOpt("arduino")];
    assert CorePath("cores", "") == "cores/_core.c";
    assert HeaderPath("cores", "") == "cores/_hal.h";
  }

  /** An output directory of 300 characters, in components of ten. */
  const LONG_OUTPUT: string := seq(300, i => if i % 10 == 9 then '/' else 'd')

  /** An MCU name of 240 characters. */
  const LONG_MCU: string := seq(240, i => 'x')

  /**
   * With a 300-character output directory and a 240-character MCU name both
   * paths are cut to the same 511 characters, so the header is written over
   * the core file at one truncated path.
   */
  lemma TruncatedPathsCollide()
    ensures var w := GenerateCoreWrites(LONG_MCU, LONG_OUTPUT, true);
            w[0].path == w[1].path && w[0].lines != w[1].lines
  {
    var c := CorePath(LONG_OUTPUT, LONG_MCU);
    var h := HeaderPath(LONG_OUTPUT, LONG_MCU);
    assert c[..511] == h[..511] by {
      assert c[..541] == LONG_OUTPUT + "/" + LONG_MCU == h[..541];
    }
    assert CoreLines(LONG_MCU)[0] != HeaderLines(LONG_MCU, LONG_MCU)[0] by {
      assert CoreLines(LONG_MCU)[0][3] == 'G';
      assert HeaderLines(LONG_MCU, LONG_MCU)[0][3] == 'H';
    }
  }

  /** `generate_core` checking the `snprintf` results: it fails with 1 and writes nothing when a path does not fit. */
  function CheckedGenerateCore(mcu: string, output: string, writable: bool): (r: (int, seq<Write>))
  {
    if |CorePath(output, mcu)| > 511 then (1, [])
    else (0, GenerateCoreWrites(mcu, output, writable))
  }

  /** Checked, the two files written are always at two different paths, each exactly the intended one. */
  lemma CheckedPathsDistinct(mcu: string, output: string, writable: bool)
    ensures var r := CheckedGenerateCore(mcu, output, writable);
            (r.0 == 0 <==> |CorePath(output, mcu)| <= 511)
            && (|r.1| == 2 ==> r.1[0].path == CorePath(output, mcu) && r.1[1].path == HeaderPath(output, mcu)
                               && r.1[0].path != r.1[1].path)
  {
    GeneratedPathsDiffer(output, mcu);
  }

  /** `main`, with its option loop over the locals. */
  method Run(opts: seq<Opt>, pinMapExists: bool, writable: bool) returns (code: int, writes: seq<Write>)
    ensures (code, writes) == Main(opts, pinMapExists, writable)
  {
    var mcu: Option<string> := None;
    var outputPath: Option<string> := None;
    var templateType: Option<string> := None;
    var configFile: Option<string> := None;
    var validate := false;
    var pinMapFile: Option<string> := None;
    var templateToApply: Option<string> := None;
    var i := 0;
    while i < |opts|
      invariant i <= |opts|
      invariant Scan(NO_ARGS, opts) ==
                Scan(Args(mcu, outputPath, templateType, configFile, validate, pinMapFile, templateToApply), opts[i..])
    {
      match opts[i] {
        case McuOpt(m) => mcu := Some(m);
        case OutputOpt(p) => outputPath := Some(p);
        case TemplateOpt(t) => templateType := Some(t);
        case ConfigOpt(f) => configFile := Some(f);
        case ValidateOpt => validate := true;
        case PinMapOpt(f) => pinMapFile := Some(f);
        case ApplyTemplateOpt(t) => templateToApply := Some(t);
        case HelpOpt => return 0, [];
        case BadOpt => return 1, [];
      }
      i := i + 1;
    }
    var a := Args(mcu, outputPath, templateType, configFile, validate, pinMapFile, templateToApply);
    var r := Perform(Dispatch(RequestOf(a)), pinMapExists, writable);
    code, writes := r.0, r.1;
  }
}

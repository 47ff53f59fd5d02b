/**
 * pad-corebuilder/src/cpp/main.cpp: the C++ core builder.  `main` collects
 * the options in local `std::string` variables and treats an empty string
 * as "not given", then dispatches in the order of `CoreFiles.Dispatch`.
 * Unlike the C version its paths are not cut to a buffer size.
 *
 * Creating the output directory, the sleeps and the printed progress are
 * left out; whether the pin-map file exists and whether the generated files
 * can be opened for writing are parameters.
 */
module CoreBuilderCpp {
  import opened Wrappers
  import opened CoreFiles
  import CoreBuilderC

  /** The locals of `main`. */
  datatype Args = Args(mcu: string, output: string, template: string, config: string, validate: bool,
                       pinMap: string, apply: string)

  const NO_ARGS: Args := Args("", "", "", "", false, "", "")

  /** How the option loop ends: out of options, or `main` returning at `-h` (0) or an unknown option (1). */
  datatype Scanned = Scanned(a: Args) | Exited(code: int)

  function Step(a: Args, o: Opt): Scanned {
    match o
    case McuOpt(m) => Scanned(a.(mcu := m))
    case OutputOpt(p) => Scanned(a.(output := p))
    case TemplateOpt(t) => Scanned(a.(template := t))
    case ConfigOpt(f) => Scanned(a.(config := f))
    case ValidateOpt => Scanned(a.(validate := true))
    case PinMapOpt(f) => Scanned(a.(pinMap := f))
    case ApplyTemplateOpt(t) => Scanned(a.(apply := t))
    case HelpOpt => Exited(0)
    case BadOpt => Exited(1)
  }

  function Scan(a: Args, opts: seq<Opt>): Scanned
    decreases |opts|
  {
    if opts == [] then Scanned(a)
    else
      var s := Step(a, opts[0]);
      if s.Scanned? then Scan(s.a, opts[1..]) else s
  }

  /** A string argument as `main` tests it: empty is absent. */
  function Present(s: string): (o: Option<string>)
    ensures o.None? <==> s == []
    ensures o.Some? ==> o.value == s
  {
    if s == [] then None else Some(s)
  }

  /** The request the locals make. */
  function RequestOf(a: Args): Request {
    Request(Present(a.mcu), Present(a.output), Present(a.template), a.validate, Present(a.pinMap), Present(a.apply))
  }

  /** `generateCore`: the two files at their exact paths; the result is always 0. */
  function GenerateCoreWrites(mcu: string, output: string, writable: bool): (writes: seq<Write>)
    ensures writable ==> |writes| == 2 && writes[0].lines == CoreLines(mcu) && writes[1].lines == HeaderLines(mcu, mcu)
    ensures !writable ==> writes == []
  {
    if writable then [Write(CorePath(output, mcu), CoreLines(mcu)), Write(HeaderPath(output, mcu), HeaderLines(mcu, mcu))]
    else []
  }

  /** The files `generateCore` writes are always two different files. */
  lemma GeneratedFilesDistinct(mcu: string, output: string)
    ensures var w := GenerateCoreWrites(mcu, output, true);
            w[0].path == CorePath(output, mcu) && w[1].path == HeaderPath(output, mcu) && w[0].path != w[1].path
  {
    GeneratedPathsDiffer(output, mcu);
  }

  /** What an action does; a stream that does not open is skipped without changing the status. */
  function Perform(action: Action, pinMapExists: bool, writable: bool): (r: (int, seq<Write>))
    ensures r.0 == 1 <==> action.MissingArguments? || (action.ValidatePinMap? && !pinMapExists)
    ensures r.0 == 0 || r.0 == 1
    ensures r.1 != [] <==> writable && (action.ApplyTemplate? || action.GenerateCore?)
  {
    match action
    case ApplyTemplate(m, t, out) => (0, if writable then [Write(out, TemplateLines(m, t))] else [])
    case ValidateMcu(_) => (0, [])
    case ValidatePinMap(_) => (if pinMapExists then 0 else 1, [])
    case MissingArguments => (1, [])
    case GenerateCore(m, out, _) => (0, GenerateCoreWrites(m, out, writable))
  }

  /** `main`: its exit status and the files it writes. */
  function Main(opts: seq<Opt>, pinMapExists: bool, writable: bool): (int, seq<Write>) {
    match Scan(NO_ARGS, opts)
    case Exited(code) => (code, [])
    case Scanned(a) => Perform(Dispatch(RequestOf(a)), pinMapExists, writable)
  }

  /** Scanning a prefix that does not stop, then the rest, is scanning the whole. */
  lemma {:induction false} ScanSplit(a: Args, opts: seq<Opt>, k: nat)
    requires k <= |opts| && Scan(a, opts[..k]).Scanned?
    ensures Scan(a, opts) == Scan(Scan(a, opts[..k]).a, opts[k..])
    decreases k
  {
    if k > 0 {
      var s := Step(a, opts[0]);
      assert opts[..k][0] == opts[0] && opts[..k][1..] == opts[1..][..k - 1];
      ScanSplit(s.a, opts[1..], k - 1);
      assert opts[1..][k - 1..] == opts[k..];
    }
  }

  /** `-h` ends the program with status 0 and an unknown option with 1, whatever follows, writing nothing. */
  lemma HelpAndBadOptionExit(opts: seq<Opt>, k: nat, pinMapExists: bool, writable: bool)
    requires k < |opts| && opts[k] in {HelpOpt, BadOpt} && Scan(NO_ARGS, opts[..k]).Scanned?
    ensures Main(opts, pinMapExists, writable) == (if opts[k] == HelpOpt then 0 else 1, [])
  {
    ScanSplit(NO_ARGS, opts, k);
    assert opts[k..][0] == opts[k];
  }

  /** An option whose argument, if it has one, is not empty. */
  predicate NonEmptyArgument(o: Opt) {
    match o
    case McuOpt(m) => m != []
    case OutputOpt(p) => p != []
    case TemplateOpt(t) => t != []
    case PinMapOpt(f) => f != []
    case ApplyTemplateOpt(t) => t != []
    case _ => true
  }

  /**
   * When no option has an empty argument, the C++ loop and the C loop end
   * alike: with the same exit status, or with the same request.
   */
  lemma {:induction false} ScanAgrees(c: CoreBuilderC.Args, a: Args, opts: seq<Opt>)
    requires CoreBuilderC.RequestOf(c) == RequestOf(a)
    requires forall i :: 0 <= i < |opts| ==> NonEmptyArgument(opts[i])
    ensures Scan(a, opts).Exited? == CoreBuilderC.Scan(c, opts).Exited?
    ensures Scan(a, opts).Exited? ==> Scan(a, opts).code == CoreBuilderC.Scan(c, opts).code
    ensures Scan(a, opts).Scanned? ==> RequestOf(Scan(a, opts).a) == CoreBuilderC.RequestOf(CoreBuilderC.Scan(c, opts).a)
    decreases |opts|
  {
    if opts != [] {
      assert NonEmptyArgument(opts[0]);
      var s := Step(a, opts[0]);
      var sc := CoreBuilderC.Step(c, opts[0]);
      if s.Scanned? {
        ScanAgrees(sc.a, s.a, opts[1..]);
      }
    }
  }

  /** So, without empty arguments, both programs choose the same action. */
  lemma DispatchAgrees(opts: seq<Opt>)
    requires forall i :: 0 <= i < |opts| ==> NonEmptyArgument(opts[i])
    requires Scan(NO_ARGS, opts).Scanned?
    ensures CoreBuilderC.Scan(CoreBuilderC.NO_ARGS, opts).Scanned?
    ensures Dispatch(RequestOf(Scan(NO_ARGS, opts).a))
            == Dispatch(CoreBuilderC.RequestOf(CoreBuilderC.Scan(CoreBuilderC.NO_ARGS, opts).a))
  {
    ScanAgrees(CoreBuilderC.NO_ARGS, NO_ARGS, opts);
  }

  /** With an empty MCU name the two differ: `-m "" -o cores -t arduino` is missing its MCU here. */
  lemma EmptyMcuMissing()
    ensures Main([McuOpt(""), OutputOpt("cores"), TemplateOpt("arduino")], false, true) == (1, [])
  {
    var opts := [McuOpt(""), OutputOpt("cores"), TemplateOpt("arduino")];
    assert opts[1..] == [OutputOpt("cores"), TemplateOpt("arduino")];
    assert opts[1..][1..] == [TemplateOpt("arduino")];
  }

  /** `main`, with its option loop over the locals. */
  method Run(opts: seq<Opt>, pinMapExists: bool, writable: bool) returns (code: int, writes: seq<Write>)
    ensures (code, writes) == Main(opts, pinMapExists, writable)
  {
    var mcu, outputPath, templateType, configFile := "", "", "", "";
    var validate := false;
    var pinMapFile, templateToApply := "", "";
    var i := 0;
    while i < |opts|
      invariant i <= |opts|
      invariant Scan(NO_ARGS, opts) ==
                Scan(Args(mcu, outputPath, templateType, configFile, validate, pinMapFile, templateToApply), opts[i..])
    {
      match opts[i] {
        case McuOpt(m) => mcu := m;
        case OutputOpt(p) => outputPath := p;
        case TemplateOpt(t) => templateType := t;
        case ConfigOpt(f) => configFile := f;
        case ValidateOpt => validate := true;
        case PinMapOpt(f) => pinMapFile := f;
        case ApplyTemplateOpt(t) => templateToApply := t;
        case HelpOpt => return 0, [];
        case BadOpt => return 1, [];
      }
      i := i + 1;
    }
    var a := Args(mcu, outputPath, templateType, configFile, validate, pinMapFile, templateToApply);
    var r := Perform(Dispatch(RequestOf(a)), pinMapExists, writable);
    code, writes := r.0, r.1;
  }
}

/**
 * pad-corebuilder/src/python/main.py: the Python core builder.  `argparse`
 * yields each option's value or `None`; `main` tests them for truth, so an
 * empty string counts as absent, answers `--help` before anything else and
 * then dispatches in the order of `CoreFiles.Dispatch`.  Its header guard
 * is the upper-cased MCU name.  A file that cannot be opened raises an
 * exception that ends the program.
 *
 * `argparse` itself (its own errors and its exit status 2) is not part of
 * this model: the parsed values are the input.  Creating the output
 * directory, the sleeps and the printed progress are left out; whether the
 * pin-map file exists and whether the files can be written are parameters.
 */
module CoreBuilderPy {
  import opened Wrappers
  import opened Text
  import opened CoreFiles
  import CoreBuilderCpp

  /** The namespace `parser.parse_args()` returns. */
  datatype Namespace = Namespace(mcu: Option<string>, output: Option<string>, template: Option<string>,
                                 config: Option<string>, validate: bool, validatePinMap: Option<string>,
                                 applyTemplate: Option<string>, help: bool)

  /** A value as `if` tests it: `None` and the empty string are false. */
  function Truthy(o: Option<string>): (r: Option<string>)
    ensures r.Some? <==> o.Some? && o.value != []
    ensures r.Some? ==> r == o
  {
    if o.Some? && o.value != [] then o else None
  }

  function RequestOf(n: Namespace): Request {
    Request(Truthy(n.mcu), Truthy(n.output), Truthy(n.template), n.validate, Truthy(n.validatePinMap),
            Truthy(n.applyTemplate))
  }

  /** How `main` ends: with a status and the files written, or with an exception from `open`. */
  datatype Exit = Exit(code: int, writes: seq<Write>) | Raised

  /** `generate_core`: the header guard is the MCU name upper-cased. */
  function GenerateCoreWrites(mcu: string, output: string): (writes: seq<Write>)
    ensures |writes| == 2 && writes[0].lines == CoreLines(mcu) && writes[1].lines == HeaderLines(mcu, ToUpper(mcu))
  {
    [Write(CorePath(output, mcu), CoreLines(mcu)), Write(HeaderPath(output, mcu), HeaderLines(mcu, ToUpper(mcu)))]
  }

  /** What an action does. */
  function Perform(action: Action, pinMapExists: bool, writable: bool): (r: Exit)
    ensures r.Raised? <==> !writable && (action.ApplyTemplate? || action.GenerateCore?)
    ensures r.Exit? ==> (r.code == 1 <==> action.MissingArguments? || (action.ValidatePinMap? && !pinMapExists))
  {
    match action
    case ApplyTemplate(m, t, out) => if writable then Exit(0, [Write(out, TemplateLines(m, t))]) else Raised
    case ValidateMcu(_) => Exit(0, [])
    case ValidatePinMap(_) => Exit(if pinMapExists then 0 else 1, [])
    case MissingArguments => Exit(1, [])
    case GenerateCore(m, out, _) => if writable then Exit(0, GenerateCoreWrites(m, out)) else Raised
  }

  /** `main`. */
  function Main(n: Namespace, pinMapExists: bool, writable: bool): (r: Exit) {
    if n.help then Exit(0, [])
    else Perform(Dispatch(RequestOf(n)), pinMapExists, writable)
  }

  /** `--help` is answered first: status 0 and no files, whatever else was given. */
  lemma HelpFirst(n: Namespace, pinMapExists: bool, writable: bool)
    requires n.help
    ensures Main(n, pinMapExists, writable) == Exit(0, [])
  {
  }

  /** The C++ locals with the same values, an absent option being the empty string. */
  function CppArgs(n: Namespace): CoreBuilderCpp.Args {
    CoreBuilderCpp.Args(n.mcu.GetOr(""), n.output.GetOr(""), n.template.GetOr(""), n.config.GetOr(""),
                        n.validate, n.validatePinMap.GetOr(""), n.applyTemplate.GetOr(""))
  }

  /** Python's truth test and the C++ emptiness test make the same request, so both choose the same action. */
  lemma SameRequestAsCpp(n: Namespace)
    ensures RequestOf(n) == CoreBuilderCpp.RequestOf(CppArgs(n))
    ensures Dispatch(RequestOf(n)) == Dispatch(CoreBuilderCpp.RequestOf(CppArgs(n)))
  {
  }

  /** Two headers with the same MCU name are the same exactly when their guards are. */
  lemma HeaderGuardDetermines(mcu: string, g: string, h: string)
    ensures HeaderLines(mcu, g) == HeaderLines(mcu, h) <==> g == h
  {
    if HeaderLines(mcu, g) == HeaderLines(mcu, h) {
      var a := HeaderLines(mcu, g)[1];
      var b := HeaderLines(mcu, h)[1];
      assert a[12..|a| - 3] == g;
      assert b[12..|b| - 3] == h;
    }
  }

  /**
   * The Python header equals the C++ one exactly when upper-casing leaves
   * the MCU name alone, that is when the name has no lower-case ASCII
   * letter.
   */
  lemma GuardMatchesCppIff(mcu: string, output: string)
    ensures GenerateCoreWrites(mcu, output)[1] == CoreBuilderCpp.GenerateCoreWrites(mcu, output, true)[1]
            <==> forall i :: 0 <= i < |mcu| ==> !('a' <= mcu[i] <= 'z')
  {
    HeaderGuardDetermines(mcu, ToUpper(mcu), mcu);
    if ToUpper(mcu) != mcu {
      var i :| 0 <= i < |mcu| && ToUpper(mcu)[i] != mcu[i];
      assert 'a' <= mcu[i] <= 'z';
    }
  }

  /** "stm32f4" gets the guard `HAL_STM32F4_H_` here, `HAL_stm32f4_H_` in the C and C++ versions. */
  lemma LowerCaseGuard()
    ensures HeaderLines("stm32f4", ToUpper("stm32f4"))[1] == "#ifndef HAL_STM32F4_H_"
  {
    assert ToUpper("stm32f4") == "STM32F4";
  }
}

/**
 * What the three PAD-CoreBuilder programs (pad-corebuilder/src/c/main.c,
 * src/cpp/main.cpp and src/python/main.py) have in common: the request the
 * command line makes, the order in which `main` picks an action from it,
 * and the lines of the files it generates.  A file is its list of lines;
 * every line ends with a newline in the file itself.
 */
module CoreFiles {
  import opened Wrappers

  /** One option as `getopt_long` returns it in the C and C++ programs, which share one option table. */
  datatype Opt =
    | McuOpt(mcu: string)
    | OutputOpt(path: string)
    | TemplateOpt(kind: string)
    | ConfigOpt(file: string)
    | ValidateOpt
    | PinMapOpt(file: string)
    | ApplyTemplateOpt(template: string)
    | HelpOpt
    | BadOpt

  /** The arguments `main` dispatches on; `None` is an argument the program treats as absent. */
  datatype Request = Request(mcu: Option<string>, output: Option<string>, template: Option<string>,
                             validate: bool, pinMap: Option<string>, apply: Option<string>)

  /** What `main` does. */
  datatype Action =
    | ApplyTemplate(mcu: string, template: string, output: string)
    | ValidateMcu(mcu: string)
    | ValidatePinMap(file: string)
    | MissingArguments
    | GenerateCore(mcu: string, output: string, template: string)

  /**
   * The dispatch, first match wins: a template to apply with an MCU and an
   * output; validation with an MCU; a pin map to check; then generation,
   * which needs the MCU, the output and the template type.
   */
  function Dispatch(r: Request): (a: Action)
    ensures a.ApplyTemplate? <==> r.apply.Some? && r.mcu.Some? && r.output.Some?
    ensures a.GenerateCore? <==> r.mcu.Some? && r.output.Some? && r.template.Some? && r.pinMap.None?
                                 && !r.validate && r.apply.None?
  {
    if r.apply.Some? && r.mcu.Some? && r.output.Some? then ApplyTemplate(r.mcu.value, r.apply.value, r.output.value)
    else if r.validate && r.mcu.Some? then ValidateMcu(r.mcu.value)
    else if r.pinMap.Some? then ValidatePinMap(r.pinMap.value)
    else if r.mcu.None? || r.output.None? || r.template.None? then MissingArguments
    else GenerateCore(r.mcu.value, r.output.value, r.template.value)
  }

  /** A template to apply, with an MCU and an output, wins over every other argument. */
  lemma ApplyWins(r: Request, validate: bool, pinMap: Option<string>, template: Option<string>)
    requires r.apply.Some? && r.mcu.Some? && r.output.Some?
    ensures Dispatch(r) == Dispatch(r.(validate := validate, pinMap := pinMap, template := template))
            == ApplyTemplate(r.mcu.value, r.apply.value, r.output.value)
  {
  }

  /** Without an MCU, `--validate` is ignored: the request dispatches as if it were absent. */
  lemma ValidateNeedsMcu(r: Request)
    requires r.mcu.None?
    ensures Dispatch(r) == Dispatch(r.(validate := false))
    ensures !Dispatch(r).ValidateMcu? && !Dispatch(r).GenerateCore? && !Dispatch(r).ApplyTemplate?
  {
  }

  /** A pin map to check is only looked at when neither a template nor validation was chosen first. */
  lemma PinMapPrecedence(r: Request)
    requires r.pinMap.Some?
    ensures Dispatch(r).ValidatePinMap? <==> !(r.apply.Some? && r.mcu.Some? && r.output.Some?) && !(r.validate && r.mcu.Some?)
  {
  }

  /** The name of the header `generate_core` writes. */
  function HeaderName(mcu: string): string {
    mcu + "_hal.h"
  }

  /** The name of the header the generated core file includes. */
  function IncludedName(mcu: string): string {
    "hal_" + mcu + ".h"
  }

  function CorePath(output: string, mcu: string): string {
    output + "/" + mcu + "_core.c"
  }

  function HeaderPath(output: string, mcu: string): string {
    output + "/" + HeaderName(mcu)
  }

  /** The two generated files always have different paths: their names differ in length. */
  lemma GeneratedPathsDiffer(output: string, mcu: string)
    ensures |CorePath(output, mcu)| == |HeaderPath(output, mcu)| + 1
    ensures CorePath(output, mcu) != HeaderPath(output, mcu)
  {
  }

  /** The lines of `<mcu>_core.c`. */
  function CoreLines(mcu: string): (lines: seq<string>)
    ensures |lines| == 6
  {
    ["// Generated core file for " + mcu,
     "#include \"" + IncludedName(mcu) + "\"",
     "",
     "void init_" + mcu + "(void) {",
     "    // Initialize " + mcu + " core",
     "}"]
  }

  /** The lines of `<mcu>_hal.h`, with `guard` the name inside the include guard. */
  function HeaderLines(mcu: string, guard: string): (lines: seq<string>)
    ensures |lines| == 6
  {
    ["// Hardware abstraction layer for " + mcu,
     "#ifndef HAL_" + guard + "_H_",
     "#define HAL_" + guard + "_H_",
     "",
     "void init_" + mcu + "(void);",
     "#endif // HAL_" + guard + "_H_"]
  }

  /** The lines of the file `apply_template` writes. */
  function TemplateLines(mcu: string, template: string): (lines: seq<string>)
    ensures |lines| == 7
  {
    ["// Peripheral template '" + template + "' applied to " + mcu,
     "#include \"" + HeaderName(mcu) + "\"",
     "",
     "// Template-generated peripheral code goes here",
     "void configure_" + template + "_peripheral(void) {",
     "    // Configure " + template + " peripheral for " + mcu,
     "}"]
  }

  /** The file an `#include "..."` line names, if the line is one. */
  function IncludeOf(line: string): Option<string> {
    if |line| >= 11 && line[..10] == "#include \"" && line[|line| - 1] == '"' then Some(line[10..|line| - 1])
    else None
  }

  /** The include line of a file that includes `name` reads back as `name`. */
  lemma IncludeOfLine(name: string)
    ensures IncludeOf("#include \"" + name + "\"") == Some(name)
  {
    var line := "#include \"" + name + "\"";
    assert line[..10] == "#include \"";
    assert line[10..|line| - 1] == name;
  }

  /** The applied template includes exactly the header `generate_core` writes for the same MCU. */
  lemma TemplateIncludesHeader(mcu: string, template: string)
    ensures IncludeOf(TemplateLines(mcu, template)[1]) == Some(HeaderName(mcu))
  {
    IncludeOfLine(HeaderName(mcu));
  }

  /**
   * The core file includes `hal_<mcu>.h`, not the `<mcu>_hal.h` written
   * beside it; the two names only coincide for an MCU name starting with
   * "hal".
   */
  lemma CoreIncludesOtherName(mcu: string)
    ensures IncludeOf(CoreLines(mcu)[1]) == Some(IncludedName(mcu))
    ensures IncludedName(mcu) == HeaderName(mcu) ==> |mcu| >= 3 && mcu[..3] == "hal"
  {
    IncludeOfLine(IncludedName(mcu));
    if !(|mcu| >= 3 && mcu[..3] == "hal") {
      var a := IncludedName(mcu);
      var b := HeaderName(mcu);
      if |mcu| == 0 {
        assert a[0] != b[0];
      } else if |mcu| == 1 {
        assert a[1] != b[1];
      } else if |mcu| == 2 {
        assert a[2] != b[2];
      } else {
        assert a[..3] == "hal" && b[..3] == mcu[..3];
        assert a[..3] != b[..3];
      }
    }
  }

  /** The MCU name "hal" is one where the two names coincide. */
  lemma HalNamesCoincide()
    ensures IncludedName("hal") == HeaderName("hal")
  {
  }

  /** The three lines of the include guard name the same macro, `HAL_<guard>_H_`. */
  lemma GuardConsistent(mcu: string, guard: string)
    ensures var h := HeaderLines(mcu, guard); var macro := "HAL_" + guard + "_H_";
            h[1] == "#ifndef " + macro && h[2] == "#define " + macro && h[5] == "#endif // " + macro
  {
  }

  /** The header declares exactly the `init_<mcu>` function the core file defines. */
  lemma PrototypeMatchesDefinition(mcu: string, guard: string)
    ensures var def := CoreLines(mcu)[3];
            |def| >= 2 && HeaderLines(mcu, guard)[4] == def[..|def| - 2] + ";"
  {
    var def := CoreLines(mcu)[3];
    assert def == "void init_" + mcu + "(void)" + " {";
    assert def[..|def| - 2] == "void init_" + mcu + "(void)";
  }

  /** A file a run writes: its path and its lines. */
  datatype Write = Write(path: string, lines: seq<string>)
}

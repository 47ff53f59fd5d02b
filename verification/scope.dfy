/**
 * monitoring/PAD-Scope/src/main.cpp: the virtual oscilloscope.  Its
 * `getopt_long` loop sets the capture settings and collects channels from
 * every `-c` list; `run` connects, arms the trigger, captures, and then
 * either exports the capture or opens the display.
 *
 * The options reach the model as the sequence `getopt_long` yields.  A
 * number that `std::stoi` or `std::stod` cannot read throws an exception
 * nothing catches, which ends the program.  Whether the export file opens is a parameter,
 * and so is the build date the CSV header quotes.
 */
module Scope {
  import opened Wrappers
  import opened Text

  /** One option as `getopt_long` returns it. */
  datatype Opt =
    | DeviceOpt(port: string)
    | ChannelsOpt(list: string)
    | SampleRateOpt(rate: string)
    | ProtocolOpt(name: string)
    | VerboseOpt
    | ExportOpt(format: string)
    | ExportFileOpt(file: string)
    | TriggerChannelOpt(channel: string)
    | TriggerTypeOpt(kind: string)
    | TriggerLevelOpt(level: string)
    | UartBaudOpt(baud: string)
    | NoGuiOpt
    | VersionOpt
    | HelpOpt
    | BadOpt

  /** The fields of `PADScope`, without the floating-point trigger level. */
  datatype Settings = Settings(channels: seq<int>, port: string, sampleRate: int, protocol: string,
                               verbose: bool, exportFormat: string, exportFile: string,
                               triggerChannel: int, triggerType: string, gui: bool)

  /** The constructor's values: 1 MHz sampling, no trigger channel, display on. */
  const INITIAL: Settings := Settings([], "", 1000000, "", false, "", "", -1, "", true)

  /** The channels "all" stands for: eight of them, numbered from 0. */
  const ALL_CHANNELS: seq<int> := [0, 1, 2, 3, 4, 5, 6, 7]

  /** The channel numbers the fields of a list name, or `None` when `std::stoi` throws on one. */
  function ChannelValues(fields: seq<string>): (r: Option<seq<int>>)
    ensures r.Some? ==> |r.value| == |fields|
  {
    if fields == [] then Some([])
    else
      match ParseLeadingInt(Trim(fields[0]))
      case None => None
      case Some(v) =>
        match ChannelValues(fields[1..])
        case None => None
        case Some(rest) => Some([v] + rest)
  }

  /** The channels `parse_channels` appends for `list`, or `None` when it throws. */
  function ChannelList(list: string): (r: Option<seq<int>>)
    ensures list == "all" ==> r == Some(ALL_CHANNELS)
    ensures list != "all" && r.Some? ==> |r.value| == |SplitFields(list, ',')|
  {
    if list == "all" then Some(ALL_CHANNELS) else ChannelValues(SplitFields(list, ','))
  }

  /** `parse_channels` reads every field, or throws on the first it cannot read. */
  lemma {:induction false} ChannelValuesExact(fields: seq<string>)
    ensures ChannelValues(fields).Some? <==> forall j :: 0 <= j < |fields| ==> ParseLeadingInt(Trim(fields[j])).Some?
    ensures ChannelValues(fields).Some? ==>
              forall j :: 0 <= j < |fields| ==> ChannelValues(fields).value[j] == ParseLeadingInt(Trim(fields[j])).value
  {
    if fields != [] {
      ChannelValuesExact(fields[1..]);
      assert forall j :: 1 <= j < |fields| ==> fields[j] == fields[1..][j - 1];
    }
  }

  /** The decimal text of each channel number. */
  function IntStrings(cs: seq<int>): (r: seq<string>)
    ensures |r| == |cs|
  {
    if cs == [] then [] else [IntToString(cs[0])] + IntStrings(cs[1..])
  }

  lemma {:induction false} IntStringsAt(cs: seq<int>, j: nat)
    requires j < |cs|
    ensures IntStrings(cs)[j] == IntToString(cs[j])
  {
    if j > 0 {
      IntStringsAt(cs[1..], j - 1);
    }
  }

  lemma {:induction false} IntStringsSnoc(cs: seq<int>, c: int)
    ensures IntStrings(cs + [c]) == IntStrings(cs) + [IntToString(c)]
  {
    if cs != [] {
      assert (cs + [c])[1..] == cs[1..] + [c];
      IntStringsSnoc(cs[1..], c);
    }
  }

  /** Decimal text holds digits and perhaps a leading minus sign: no blank, no comma. */
  lemma IntToStringPlain(n: int)
    ensures var r := IntToString(n);
            r != [] && !IsBlank(r[0]) && !IsBlank(r[|r| - 1]) && ',' !in r && r != "all"
  {
    var r := IntToString(n);
    var d := NatToString(if n < 0 then -n else n);
    assert forall i :: 0 <= i < |d| ==> IsDigit(d[i]);
    assert forall i :: 0 <= i < |r| ==> r[i] == '-' || IsDigit(r[i]);
  }

  /** Reading back the decimal text of channel numbers gives the numbers. */
  lemma {:induction false} ChannelValuesOfInts(cs: seq<int>)
    ensures ChannelValues(IntStrings(cs)) == Some(cs)
  {
    if cs != [] {
      var f := IntStrings(cs);
      IntToStringPlain(cs[0]);
      TrimUnchanged(IntToString(cs[0]));
      ParseIntToString(cs[0]);
      assert ParseLeadingInt(Trim(f[0])) == Some(cs[0]);
      assert f[1..] == IntStrings(cs[1..]);
      ChannelValuesOfInts(cs[1..]);
      assert [cs[0]] + cs[1..] == cs;
    }
  }

  /**
   * The list the verbose settings and the CSV header print, channels joined
   * with commas, is read back by `parse_channels` as the same channels.
   */
  lemma ChannelListRoundTrip(cs: seq<int>)
    ensures ChannelList(JoinFields(IntStrings(cs), ',')) == Some(cs)
  {
    var texts := IntStrings(cs);
    forall j | 0 <= j < |texts| ensures texts[j] != [] && ',' !in texts[j] {
      IntStringsAt(cs, j);
      IntToStringPlain(cs[j]);
    }
    SplitJoin(texts, ',');
    if cs != [] {
      IntToStringPlain(cs[0]);
      assert JoinFields(texts, ',') != "all" by {
        if |texts| == 1 {
          assert JoinFields(texts, ',') == texts[0];
        } else {
          assert JoinFields(texts, ',')[|texts[0]|] == ',';
        }
      }
    }
    ChannelValuesOfInts(cs);
  }

  /** How one parsing pass ends: the scan goes on, the option makes `parse_arguments` return false, or `std::stoi` or `std::stod` throws. */
  datatype Scanned = Scanned(t: Settings) | Stopped(t: Settings) | Thrown

  /**
   * Whether `std::stod` (that is `strtod`) finds a number at the front of
   * `s`: white space skipped, an optional sign, then a digit, a point and a
   * digit, or "inf" or "nan" in any letter case (a hexadecimal number starts
   * with the digit 0).  Otherwise it throws `std::invalid_argument`.
   */
  predicate LeadingDouble(s: string)
  {
    if |s| > 0 && IsSpace(s[0]) then LeadingDouble(s[1..])
    else DoubleStart(if |s| > 0 && (s[0] == '+' || s[0] == '-') then s[1..] else s)
  }

  /** What may follow the sign of a number `strtod` reads. */
  predicate DoubleStart(u: string) {
    || (|u| > 0 && IsDigit(u[0]))
    || (|u| > 1 && u[0] == '.' && IsDigit(u[1]))
    || (|u| >= 3 && ToLower(u[..3]) in {"inf", "nan"})
  }

  /** Some texts `std::stod` reads and some it rejects. */
  lemma LeadingDoubleExamples()
    ensures LeadingDouble(" -2.5") && LeadingDouble(".5") && LeadingDouble("+INF") && LeadingDouble("nan")
    ensures !LeadingDouble("abc") && !LeadingDouble(".") && !LeadingDouble("-") && !LeadingDouble("")
  {
    assert ToLower("INF") == "inf";
    assert ToLower("nan") == "nan";
    assert ToLower("abc") == "abc";
  }

  /** The effect of one option; the trigger level is floating point and its value is not kept. */
  function Step(t: Settings, o: Opt): Scanned {
    match o
    case DeviceOpt(p) => Scanned(t.(port := p))
    case ChannelsOpt(l) =>
      (match ChannelList(l) case Some(cs) => Scanned(t.(channels := t.channels + cs)) case None => Thrown)
    case SampleRateOpt(r) =>
      (match ParseLeadingInt(r) case Some(v) => Scanned(t.(sampleRate := v)) case None => Thrown)
    case ProtocolOpt(p) => Scanned(t.(protocol := p))
    case VerboseOpt => Scanned(t.(verbose := true))
    case ExportOpt(f) => Scanned(t.(exportFormat := f))
    case ExportFileOpt(f) => Scanned(t.(exportFile := f))
    case TriggerChannelOpt(c) =>
      (match ParseLeadingInt(c) case Some(v) => Scanned(t.(triggerChannel := v)) case None => Thrown)
    case TriggerTypeOpt(k) => Scanned(t.(triggerType := k))
    case TriggerLevelOpt(l) => if LeadingDouble(l) then Scanned(t) else Thrown
    case UartBaudOpt(b) => if ParseLeadingInt(b).Some? then Scanned(t) else Thrown
    case NoGuiOpt => Scanned(t.(gui := false))
    case VersionOpt => Stopped(t)
    case HelpOpt => Stopped(t)
    case BadOpt => Stopped(t)
  }

  /** The `getopt_long` loop over `opts`. */
  function Scan(t: Settings, opts: seq<Opt>): Scanned
    decreases |opts|
  {
    if opts == [] then Scanned(t)
    else
      var s := Step(t, opts[0]);
      if s.Scanned? then Scan(s.t, opts[1..]) else s
  }

  /** The result of `parse_arguments` and the fields it leaves, or the end of the program. */
  datatype Outcome = Outcome(ok: bool, t: Settings) | Terminated

  /** `parse_arguments`: the option loop, then the checks for a port and a channel. */
  function Parse(t: Settings, opts: seq<Opt>): Outcome {
    match Scan(t, opts)
    case Thrown => Terminated
    case Stopped(u) => Outcome(false, u)
    case Scanned(u) => Outcome(u.port != [] && u.channels != [], u)
  }

  /** The channels named by `-c` options, in command-line order. */
  function ChannelsOf(opts: seq<Opt>): seq<int> {
    if opts == [] then []
    else (if opts[0].ChannelsOpt? then ChannelList(opts[0].list).GetOr([]) else []) + ChannelsOf(opts[1..])
  }

  /** An option that does not stop the loop appends exactly its own channels. */
  lemma StepChannels(t: Settings, o: Opt)
    requires Step(t, o).Scanned?
    ensures Step(t, o).t.channels == t.channels + (if o.ChannelsOpt? then ChannelList(o.list).GetOr([]) else [])
  {
  }

  /** Repeated `-c` options accumulate: a scan that runs to the end appends their channels in order. */
  lemma {:induction false} ScanCollectsChannels(t: Settings, opts: seq<Opt>)
    requires Scan(t, opts).Scanned?
    ensures Scan(t, opts).t.channels == t.channels + ChannelsOf(opts)
    decreases |opts|
  {
    if opts != [] {
      StepChannels(t, opts[0]);
      ScanCollectsChannels(Step(t, opts[0]).t, opts[1..]);
    }
  }

  /** Scanning a prefix that does not stop, then the rest, is scanning the whole. */
  lemma {:induction false} ScanSplit(t: Settings, opts: seq<Opt>, k: nat)
    requires k <= |opts| && Scan(t, opts[..k]).Scanned?
    ensures Scan(t, opts) == Scan(Scan(t, opts[..k]).t, opts[k..])
    decreases k
  {
    if k > 0 {
      var s := Step(t, opts[0]);
      assert opts[..k][0] == opts[0] && opts[..k][1..] == opts[1..][..k - 1];
      ScanSplit(s.t, opts[1..], k - 1);
      assert opts[1..][k - 1..] == opts[k..];
    }
  }

  /** After a scan that runs to the end, the parse succeeds exactly when a port and a channel were given. */
  lemma ParseValidates(t: Settings, opts: seq<Opt>)
    requires Scan(t, opts).Scanned?
    ensures var u := Scan(t, opts).t;
            Parse(t, opts) == Outcome(u.port != [] && u.channels != [], u)
  {
  }

  /** `-V`, `-h` or an unknown option after options that do not stop the loop makes the parse fail. */
  lemma StopOptionFails(t: Settings, opts: seq<Opt>, k: nat)
    requires k < |opts| && opts[k] in {VersionOpt, HelpOpt, BadOpt} && Scan(t, opts[..k]).Scanned?
    ensures Parse(t, opts) == Outcome(false, Scan(t, opts[..k]).t)
  {
    ScanSplit(t, opts, k);
    assert opts[k..][0] == opts[k];
  }

  /** A `-c` list with a field `std::stoi` cannot read ends the program. */
  lemma BadChannelTerminates(t: Settings, opts: seq<Opt>, k: nat, j: nat)
    requires k < |opts| && Scan(t, opts[..k]).Scanned? && opts[k].ChannelsOpt?
    requires opts[k].list != "all" && j < |SplitFields(opts[k].list, ',')|
    requires ParseLeadingInt(Trim(SplitFields(opts[k].list, ',')[j])).None?
    ensures Parse(t, opts) == Terminated
  {
    ChannelValuesExact(SplitFields(opts[k].list, ','));
    ScanSplit(t, opts, k);
    assert opts[k..][0] == opts[k];
  }

  /** A `--trigger-level` text `std::stod` cannot read ends the program, whatever follows. */
  lemma BadTriggerLevelTerminates(t: Settings, opts: seq<Opt>, k: nat)
    requires k < |opts| && Scan(t, opts[..k]).Scanned?
    requires opts[k].TriggerLevelOpt? && !LeadingDouble(opts[k].level)
    ensures Parse(t, opts) == Terminated
  {
    ScanSplit(t, opts, k);
    assert opts[k..][0] == opts[k];
  }

  /** `setup_trigger` arms a trigger only for a channel at or above 0; it succeeds either way. */
  predicate TriggerArmed(t: Settings) {
    t.triggerChannel >= 0
  }

  /** The formats `export_data` knows. */
  datatype Format = Csv | Wav | Png | Bin

  function FormatNamed(name: string): (r: Option<Format>)
    ensures r.Some? <==> name in {"csv", "wav", "png", "bin"}
  {
    if name == "csv" then Some(Csv)
    else if name == "wav" then Some(Wav)
    else if name == "png" then Some(Png)
    else if name == "bin" then Some(Bin)
    else None
  }

  /** What `run_capture` does once the capture is over. */
  datatype Finish = Export(format: string) | LaunchGui | Nothing

  function CaptureFinish(t: Settings): (r: Finish)
    ensures r.Export? <==> t.exportFormat != [] && t.exportFile != []
    ensures r.Export? ==> r.format == t.exportFormat
    ensures r == LaunchGui <==> (t.exportFormat == [] || t.exportFile == []) && t.gui
  {
    if t.exportFormat != [] && t.exportFile != [] then Export(t.exportFormat)
    else if t.gui then LaunchGui
    else Nothing
  }

  /** `export_data`: CSV fails when the file does not open, the other three succeed, an unknown format fails. */
  function ExportOk(format: string, opens: bool): (ok: bool)
    ensures ok <==> FormatNamed(format).Some? && (format == "csv" ==> opens)
  {
    match FormatNamed(format)
    case Some(Csv) => opens
    case Some(_) => true
    case None => false
  }

  /**
   * An export, when both its format and file are given, wins over the
   * display: `--no-gui` then changes nothing.  Without an export the display
   * opens exactly in display mode.
   */
  lemma ExportWinsOverDisplay(t: Settings, gui: bool)
    ensures t.exportFormat != [] && t.exportFile != [] ==> CaptureFinish(t.(gui := gui)) == CaptureFinish(t)
    ensures !CaptureFinish(t).Export? ==> (CaptureFinish(t) == LaunchGui <==> t.gui)
  {
  }

  /**
   * Only a CSV export depends on whether the file opens; a supported format
   * other than CSV always succeeds, and an unsupported one always fails.
   */
  lemma ExportNeedsFileOnlyForCsv(format: string)
    ensures ExportOk(format, true) != ExportOk(format, false) <==> format == "csv"
    ensures format in {"wav", "png", "bin"} ==> ExportOk(format, false)
    ensures format !in {"csv", "wav", "png", "bin"} ==> !ExportOk(format, true)
  {
  }

  /** The column label of one channel. */
  function Label(ch: int): string {
    "Channel_" + IntToString(ch) + "(V)"
  }

  function Labels(cs: seq<int>): (r: seq<string>)
    ensures |r| == |cs|
  {
    if cs == [] then [] else Labels(cs[..|cs| - 1]) + [Label(cs[|cs| - 1])]
  }

  /** The label at each position is that channel's label. */
  lemma {:induction false} LabelsAt(cs: seq<int>, j: nat)
    requires j < |cs|
    ensures Labels(cs)[j] == Label(cs[j])
  {
    if j < |cs| - 1 {
      LabelsAt(cs[..|cs| - 1], j);
    }
  }

  /** `head`, then a comma and the label of each channel in order. */
  function Columns(head: string, cs: seq<int>): string {
    if cs == [] then head else Columns(head, cs[..|cs| - 1]) + [','] + Label(cs[|cs| - 1])
  }

  /** The column header line: "Time(s)", then ",Channel_<ch>(V)" for each channel in order. */
  function ColumnLine(cs: seq<int>): string {
    Columns("Time(s)", cs)
  }

  /** The columns are the head and the labels joined with commas. */
  lemma {:induction false} ColumnsJoined(head: string, cs: seq<int>)
    ensures Columns(head, cs) == JoinFields([head] + Labels(cs), ',')
  {
    if cs != [] {
      var p, last := cs[..|cs| - 1], cs[|cs| - 1];
      ColumnsJoined(head, p);
      JoinFieldsSnoc([head] + Labels(p), Label(last), ',');
      assert [head] + Labels(cs) == ([head] + Labels(p)) + [Label(last)];
    }
  }

  /** The lines `export_csv` writes before the samples. */
  function CsvHeader(t: Settings, date: string): seq<string> {
    ["# PAD-Scope CSV Export", "# Date: " + date, "# Sample Rate: " + IntToString(t.sampleRate) + " Hz",
     "# Channels: " + JoinFields(IntStrings(t.channels), ','), ColumnLine(t.channels)]
  }

  /** A channel label is not empty and holds no comma. */
  lemma LabelPlain(ch: int)
    ensures Label(ch) != [] && ',' !in Label(ch)
  {
    var d := IntToString(ch);
    IntToStringPlain(ch);
    var l := Label(ch);
    assert l == "Channel_" + d + "(V)";
    forall i | 0 <= i < |l| ensures l[i] != ',' {
      if i < 8 {
        assert l[i] == "Channel_"[i];
      } else if i < 8 + |d| {
        assert l[i] == d[i - 8];
      } else {
        assert l[i] == "(V)"[i - 8 - |d|];
      }
    }
  }

  /** The column header splits at its commas into "Time(s)" and one label per channel, in channel order. */
  lemma ColumnLineFields(cs: seq<int>)
    ensures SplitFields(ColumnLine(cs), ',') == ["Time(s)"] + Labels(cs)
  {
    var fields := ["Time(s)"] + Labels(cs);
    ColumnsJoined("Time(s)", cs);
    assert ',' !in fields[0];
    forall j | 1 <= j < |fields| ensures fields[j] != [] && ',' !in fields[j] {
      LabelsAt(cs, j - 1);
      LabelPlain(cs[j - 1]);
    }
    SplitJoin(fields, ',');
  }

  class PadScope {
    var channels: seq<int>
    var devicePort: string
    var sampleRate: int
    var protocol: string
    var verbose: bool
    var exportFormat: string
    var exportFile: string
    var triggerChannel: int
    var triggerType: string
    var guiMode: bool
    /** The header lines written to the export file. */
    var written: seq<string>
    /** Whether the display was launched. */
    var launched: bool

    constructor ()
      ensures Snapshot() == INITIAL && written == [] && !launched
    {
      channels, devicePort, sampleRate, protocol := [], "", 1000000, "";
      verbose, exportFormat, exportFile := false, "", "";
      triggerChannel, triggerType, guiMode := -1, "", true;
      written, launched := [], false;
    }

    function Snapshot(): Settings
      reads this
    {
      Settings(channels, devicePort, sampleRate, protocol, verbose, exportFormat, exportFile,
               triggerChannel, triggerType, guiMode)
    }

    /**
     * `parse_channels`: "all" appends channels 0 to 7; otherwise each
     * comma-separated field is trimmed and read with `std::stoi`.
     * `thrown` reports that `std::stoi` threw.
     */
    method ParseChannels(list: string) returns (thrown: bool)
      modifies this`channels
      ensures thrown <==> ChannelList(list).None?
      ensures !thrown ==> channels == old(channels) + ChannelList(list).value
    {
      if list == "all" {
        for i := 0 to 8
          invariant channels == old(channels) + ALL_CHANNELS[..i]
        {
          assert ALL_CHANNELS[..i + 1] == ALL_CHANNELS[..i] + [i];
          channels := channels + [i];
        }
        return false;
      }
      thrown := ParseChannelFields(list);
    }

    /** The `std::getline` loop of `parse_channels`. */
    method ParseChannelFields(list: string) returns (thrown: bool)
      modifies this`channels
      ensures thrown <==> ChannelValues(SplitFields(list, ',')).None?
      ensures !thrown ==> channels == old(channels) + ChannelValues(SplitFields(list, ',')).value
    {
      var rest := list;
      ghost var done: seq<int> := [];
      PrefixedEnds(done, ChannelValues(SplitFields(list, ',')));
      while rest != []
        invariant channels == old(channels) + done
        invariant ChannelValues(SplitFields(list, ',')) == Prefixed(done, ChannelValues(SplitFields(rest, ',')))
        decreases |rest|
      {
        var k := IndexOf(rest, ',');
        var next := if k < |rest| then rest[k + 1..] else [];
        var v := ParseLeadingInt(Trim(rest[..k]));
        ChannelsCons(rest, k, next, v);
        if v.None? {
          return true;
        }
        PrefixedTwice(done, v.value, ChannelValues(SplitFields(next, ',')));
        channels := channels + [v.value];
        done := done + [v.value];
        rest := next;
      }
      PrefixedEnds(done, Some([]));
      return false;
    }

    /** One pass of the option loop. */
    method ApplyOption(o: Opt) returns (stop: bool, thrown: bool)
      modifies this`channels, this`devicePort, this`sampleRate, this`protocol, this`verbose,
               this`exportFormat, this`exportFile, this`triggerChannel, this`triggerType, this`guiMode
      ensures var s := Step(old(Snapshot()), o);
              (thrown <==> s.Thrown?) && (stop <==> s.Stopped?) && (!thrown ==> Snapshot() == s.t)
    {
      stop, thrown := false, false;
      match o
      case DeviceOpt(p) => devicePort := p;
      case ChannelsOpt(l) => thrown := ParseChannels(l);
      case SampleRateOpt(r) =>
        var v := ParseLeadingInt(r);
        if v.Some? { sampleRate := v.value; } else { thrown := true; }
      case ProtocolOpt(p) => protocol := p;
      case VerboseOpt => verbose := true;
      case ExportOpt(f) => exportFormat := f;
      case ExportFileOpt(f) => exportFile := f;
      case TriggerChannelOpt(c) =>
        var v := ParseLeadingInt(c);
        if v.Some? { triggerChannel := v.value; } else { thrown := true; }
      case TriggerTypeOpt(k) => triggerType := k;
      case TriggerLevelOpt(l) => thrown := !LeadingDouble(l);
      case UartBaudOpt(b) =>
        var v := ParseLeadingInt(b);
        thrown := v.None?;
      case NoGuiOpt => guiMode := false;
      case VersionOpt => stop := true;
      case HelpOpt => stop := true;
      case BadOpt => stop := true;
    }

    /** `parse_arguments`; `thrown` reports that `std::stoi` or `std::stod` threw and the program ended. */
    method ParseArguments(opts: seq<Opt>) returns (ok: bool, thrown: bool)
      modifies this`channels, this`devicePort, this`sampleRate, this`protocol, this`verbose,
               this`exportFormat, this`exportFile, this`triggerChannel, this`triggerType, this`guiMode
      ensures thrown <==> Parse(old(Snapshot()), opts) == Terminated
      ensures !thrown ==> Parse(old(Snapshot()), opts) == Outcome(ok, Snapshot())
    {
      var i := 0;
      while i < |opts|
        invariant i <= |opts|
        invariant Scan(old(Snapshot()), opts) == Scan(Snapshot(), opts[i..])
      {
        var stop;
        stop, thrown := ApplyOption(opts[i]);
        if stop || thrown {
          return false, thrown;
        }
        i := i + 1;
      }
      thrown := false;
      if devicePort == [] {
        return false, false;
      }
      if channels == [] {
        return false, false;
      }
      return true, false;
    }

    /** `setup_trigger`: free-running below channel 0, otherwise the trigger is armed; it never fails. */
    method SetupTrigger() returns (ok: bool, armed: bool)
      ensures ok && (armed <==> TriggerArmed(Snapshot()))
    {
      if triggerChannel < 0 {
        return true, false;
      }
      return true, true;
    }

    /** `export_csv`: the header lines, or failure when the file does not open. */
    method ExportCsv(opens: bool, date: string) returns (ok: bool)
      modifies this`written
      ensures ok == opens && written == (if opens then CsvHeader(Snapshot(), date) else old(written))
    {
      if !opens {
        return false;
      }
      var list := ChannelListText(channels);
      var columns := ColumnHeader(channels);
      written := ["# PAD-Scope CSV Export", "# Date: " + date, "# Sample Rate: " + IntToString(sampleRate) + " Hz",
                  "# Channels: " + list, columns];
      return true;
    }

    /** `export_data`: dispatch on the format name. */
    method ExportData(opens: bool, date: string) returns (ok: bool)
      modifies this`written
      ensures ok == ExportOk(exportFormat, opens)
      ensures written == (if exportFormat == "csv" && opens then CsvHeader(Snapshot(), date) else old(written))
    {
      if exportFormat == "csv" {
        ok := ExportCsv(opens, date);
      } else if exportFormat == "wav" {
        ok := true;
      } else if exportFormat == "png" {
        ok := true;
      } else if exportFormat == "bin" {
        ok := true;
      } else {
        ok := false;
      }
    }

    /** `run_capture`: export when a format and a file were given, else open the display when enabled. */
    method RunCapture(opens: bool, date: string) returns (ok: bool)
      modifies this`written, this`launched
      ensures var f := CaptureFinish(Snapshot());
              (ok <==> !f.Export? || ExportOk(f.format, opens))
              && launched == (f == LaunchGui || old(launched))
              && written == (if f == Export("csv") && opens then CsvHeader(Snapshot(), date) else old(written))
    {
      if exportFormat != [] && exportFile != [] {
        ok := ExportData(opens, date);
        return;
      }
      if guiMode {
        launched := true;
      }
      return true;
    }

    /** `main`: parse, then connect, arm the trigger and capture; the exit status is 1 when a step fails. */
    method Execute(opts: seq<Opt>, opens: bool, date: string) returns (code: int, thrown: bool)
      modifies this`channels, this`devicePort, this`sampleRate, this`protocol, this`verbose,
               this`exportFormat, this`exportFile, this`triggerChannel, this`triggerType, this`guiMode,
               this`written, this`launched
      ensures thrown <==> Parse(old(Snapshot()), opts) == Terminated
      ensures thrown ==> written == old(written) && launched == old(launched)
      ensures !thrown ==> var p := Parse(old(Snapshot()), opts);
                          Snapshot() == p.t
                          && (code == 0 <==> p.ok && (!CaptureFinish(p.t).Export? || ExportOk(p.t.exportFormat, opens)))
                          && launched == ((p.ok && CaptureFinish(p.t) == LaunchGui) || old(launched))
                          && written == (if p.ok && CaptureFinish(p.t) == Export("csv") && opens
                                         then CsvHeader(p.t, date) else old(written))
    {
      var ok;
      ok, thrown := ParseArguments(opts);
      if thrown || !ok {
        return 1, thrown;
      }
      var armed;
      ok, armed := SetupTrigger();
      ok := RunCapture(opens, date);
      code := if ok then 0 else 1;
    }
  }

  /** The loop that prints the channel numbers separated by commas. */
  method ChannelListText(cs: seq<int>) returns (list: string)
    ensures list == JoinFields(IntStrings(cs), ',')
  {
    list := "";
    for i := 0 to |cs|
      invariant list == JoinFields(IntStrings(cs[..i]), ',') + (if 0 < i < |cs| then "," else "")
    {
      ghost var before := IntStrings(cs[..i]);
      assert cs[..i + 1] == cs[..i] + [cs[i]];
      IntStringsSnoc(cs[..i], cs[i]);
      if i > 0 {
        JoinFieldsSnoc(before, IntToString(cs[i]), ',');
      }
      list := list + IntToString(cs[i]);
      if i < |cs| - 1 {
        list := list + ",";
      }
    }
    assert cs[..|cs|] == cs;
  }

  /** Writing ",Channel_", the number and "(V)" appends a comma and the channel's label. */
  lemma LabelAppend(line: string, ch: int)
    ensures line + ",Channel_" + IntToString(ch) + "(V)" == line + [','] + Label(ch)
  {
    assert ",Channel_" == [','] + "Channel_";
  }

  /** The loop that writes the column header: "Time(s)", then ",Channel_<ch>(V)" per channel. */
  method ColumnHeader(cs: seq<int>) returns (line: string)
    ensures line == ColumnLine(cs)
  {
    line := "Time(s)";
    for i := 0 to |cs|
      invariant line == ColumnLine(cs[..i])
    {
      assert cs[..i + 1][..i] == cs[..i];
      LabelAppend(line, cs[i]);
      line := line + ",Channel_" + IntToString(cs[i]) + "(V)";
    }
    assert cs[..|cs|] == cs;
  }

  /** Channels read so far in front of what the rest of the list yields. */
  function Prefixed(done: seq<int>, rest: Option<seq<int>>): Option<seq<int>> {
    match rest
    case None => None
    case Some(cs) => Some(done + cs)
  }

  lemma PrefixedEnds(done: seq<int>, rest: Option<seq<int>>)
    ensures Prefixed([], rest) == rest && Prefixed(done, Some([])) == Some(done)
  {
    if rest.Some? {
      assert [] + rest.value == rest.value;
    }
    assert done + [] == done;
  }

  lemma PrefixedTwice(done: seq<int>, v: int, rest: Option<seq<int>>)
    ensures Prefixed(done, Prefixed([v], rest)) == Prefixed(done + [v], rest)
  {
    if rest.Some? {
      assert done + ([v] + rest.value) == done + [v] + rest.value;
    }
  }

  /** The first field of a channel list, and the rest after its comma. */
  lemma ChannelsCons(rest: string, k: nat, next: string, v: Option<int>)
    requires rest != [] && k == IndexOf(rest, ',')
    requires next == (if k < |rest| then rest[k + 1..] else []) && v == ParseLeadingInt(Trim(rest[..k]))
    ensures ChannelValues(SplitFields(rest, ',')) == if v.None? then None else Prefixed([v.value], ChannelValues(SplitFields(next, ',')))
  {
    var fields := SplitFields(rest, ',');
    SplitFieldsCons(rest, ',', k, next);
    assert fields[0] == rest[..k] && fields[1..] == SplitFields(next, ',');
  }
}

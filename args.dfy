/** process_args: command-line validation. `atoi` is a parameter of the model. */
module Args {
  import opened Basics
  import opened Records

  predicate IsHelp(s: string)
  {
    s == "-h" || s == "--help"
  }

  /** -h or --help at any position, the program name included. */
  predicate HelpRequested(argv: seq<string>)
    ensures HelpRequested(argv) <==> "-h" in argv || "--help" in argv
  {
    exists i :: 0 <= i < |argv| && IsHelp(argv[i])
  }

  /** Which branch of the flag loop an argument takes (the strcmp chain). */
  datatype Flag = ClassFlag | RegFlag | LabelFlag | KFlag | ThreadsFlag | NoFlag

  function FlagOf(s: string): (f: Flag)
    ensures f != NoFlag ==> |s| >= 2 && s[0] == '-'
    ensures IsHelp(s) ==> f == NoFlag
  {
    if s == "-c" || s == "--classification" then ClassFlag
    else if s == "-r" || s == "--regression" then RegFlag
    else if s == "-l" || s == "--label-column" then LabelFlag
    else if s == "-k" || s == "--k-nearest" then KFlag
    else if s == "-t" || s == "--threads" then ThreadsFlag
    else NoFlag
  }

  /** The short spelling of each flag of the loop; anything else is no flag. */
  lemma ShortFlagSpellings()
    ensures FlagOf("-c") == ClassFlag && FlagOf("-r") == RegFlag && FlagOf("-l") == LabelFlag
    ensures FlagOf("-k") == KFlag && FlagOf("-t") == ThreadsFlag
    ensures FlagOf("-x") == NoFlag && FlagOf("c") == NoFlag
  {
  }

  /** The long spelling of each flag of the loop; a shortened one is no flag. */
  lemma LongFlagSpellings()
    ensures FlagOf("--classification") == ClassFlag && FlagOf("--regression") == RegFlag
    ensures FlagOf("--label-column") == LabelFlag && FlagOf("--k-nearest") == KFlag
    ensures FlagOf("--threads") == ThreadsFlag && FlagOf("--class") == NoFlag
  {
  }

  /** The last position i, 1 <= i < hi, at which argv holds flag f. */
  function LastFlag(argv: seq<string>, hi: nat, f: Flag): (r: Option<nat>)
    requires hi <= |argv|
    ensures r.Some? ==> 1 <= r.value < hi
  {
    if hi <= 1 then None
    else if FlagOf(argv[hi - 1]) == f then Some(hi - 1)
    else LastFlag(argv, hi - 1, f)
  }

  /** LastFlag finds the flag, and finds its last occurrence. */
  lemma {:induction false} LastFlagMeans(argv: seq<string>, hi: nat, f: Flag)
    requires hi <= |argv|
    ensures var r := LastFlag(argv, hi, f);
      (r.Some? ==> FlagOf(argv[r.value]) == f &&
                   forall j :: r.value < j < hi ==> FlagOf(argv[j]) != f) &&
      (r.None? <==> forall j :: 1 <= j < hi ==> FlagOf(argv[j]) != f)
  {
    if hi > 1 && FlagOf(argv[hi - 1]) != f {
      LastFlagMeans(argv, hi - 1, f);
    }
  }

  /** A flag counts as given exactly when it occurs at a flag position. */
  lemma GivenMeans(argv: seq<string>, f: Flag)
    ensures Given(argv, f) <==> exists i :: 1 <= i < FlagEnd(argv) && FlagOf(argv[i]) == f
  {
    LastFlagMeans(argv, FlagEnd(argv), f);
  }

  /** The flags are looked for only at positions 1 .. |argv|-2: the last
      argument is the file name. */
  function FlagEnd(argv: seq<string>): nat
  {
    if |argv| == 0 then 0 else |argv| - 1
  }

  predicate Given(argv: seq<string>, f: Flag)
  {
    LastFlag(argv, FlagEnd(argv), f).Some?
  }

  /** The value of an option: atoi of the argument after its LAST occurrence,
      converted to size_t, or the default when the option is absent. */
  function OptionValue(argv: seq<string>, hi: nat, f: Flag, default: nat, atoi: string -> int): (v: nat)
    requires hi <= |argv|
    ensures LastFlag(argv, hi, f).None? ==> v == default
    ensures v == default || v < SIZE_MODULUS
  {
    match LastFlag(argv, hi, f)
    case None => default
    case Some(i) => if i + 1 < |argv| then ToSize(atoi(argv[i + 1])) else default
  }

  /** One more position scanned: a later occurrence of the flag replaces the value. */
  lemma OptionValueStep(argv: seq<string>, i: nat, f: Flag, default: nat, atoi: string -> int)
    requires 1 <= i && i + 1 < |argv|
    ensures LastFlag(argv, i + 1, f) == if FlagOf(argv[i]) == f then Some(i) else LastFlag(argv, i, f)
    ensures OptionValue(argv, i + 1, f, default, atoi) ==
            if FlagOf(argv[i]) == f then ToSize(atoi(argv[i + 1])) else OptionValue(argv, i, f, default, atoi)
  {
  }

  /** The options process_args returns when it does not exit.
      has_header and num_columns are left uninitialised by the C code; they
      are set by count_lines before any use, and are false and 0 here. */
  function Accepted(argv: seq<string>, atoi: string -> int): (o: Options)
    requires |argv| >= 1
    ensures o.filename == argv[|argv| - 1]
    ensures o.k == 5 || o.k < SIZE_MODULUS
    ensures o.numThreads == 4 || o.numThreads < SIZE_MODULUS
    ensures o.labelColumn < SIZE_MODULUS
  {
    var hi := FlagEnd(argv);
    Options(
      classification := Given(argv, ClassFlag),
      regression := Given(argv, RegFlag),
      hasHeader := false,
      labelColumn := OptionValue(argv, hi, LabelFlag, NO_COLUMN, atoi),
      numColumns := 0,
      k := OptionValue(argv, hi, KFlag, 5, atoi),
      labelDefined := Given(argv, LabelFlag),
      filename := argv[|argv| - 1],
      numThreads := OptionValue(argv, hi, ThreadsFlag, 4, atoi))
  }

  /** The flag loop of process_args (positions 1 .. |argv|-2), starting from
      the defaults: k = 5, four threads, label column -1, no mode. The
      fields of `opts` the loop sets are kept in locals of the same names. */
  method ScanFlags(argv: seq<string>, atoi: string -> int)
      returns (opts: Options, classFlag: bool, regFlag: bool, labelFlag: bool)
    requires |argv| >= 1
    ensures classFlag == Given(argv, ClassFlag)
    ensures regFlag == Given(argv, RegFlag)
    ensures labelFlag == Given(argv, LabelFlag)
    ensures !(classFlag && regFlag) ==> opts == Accepted(argv, atoi).(filename := "")
  {
    var classification, regression := false, false;
    var labelColumn: nat, labelDefined := NO_COLUMN, false;
    var k: nat, numThreads: nat := 5, 4;
    regFlag, classFlag, labelFlag := false, false, false;

    var last := |argv| - 1;
    var i := 1;
    while i < last
      invariant 1 <= i <= if last < 1 then 1 else last
      invariant classFlag == LastFlag(argv, i, ClassFlag).Some?
      invariant regFlag == LastFlag(argv, i, RegFlag).Some?
      invariant labelFlag == LastFlag(argv, i, LabelFlag).Some?
      invariant !(classFlag && regFlag) ==> classification == classFlag && regression == regFlag
      invariant labelDefined == labelFlag
      invariant labelColumn == OptionValue(argv, i, LabelFlag, NO_COLUMN, atoi)
      invariant k == OptionValue(argv, i, KFlag, 5, atoi)
      invariant numThreads == OptionValue(argv, i, ThreadsFlag, 4, atoi)
    {
      var flag := FlagOf(argv[i]);
      OptionValueStep(argv, i, LabelFlag, NO_COLUMN, atoi);
      OptionValueStep(argv, i, KFlag, 5, atoi);
      OptionValueStep(argv, i, ThreadsFlag, 4, atoi);
      OptionValueStep(argv, i, ClassFlag, 0, atoi);
      OptionValueStep(argv, i, RegFlag, 0, atoi);
      if flag == ClassFlag {
        classification, regression := true, false;
        classFlag := true;
      } else if flag == RegFlag {
        regression, classification := true, false;
        regFlag := true;
      } else if flag == LabelFlag && i + 1 < |argv| {
        labelColumn, labelDefined := ToSize(atoi(argv[i + 1])), true;
        labelFlag := true;
      } else if flag == KFlag && i + 1 < |argv| {
        k := ToSize(atoi(argv[i + 1]));
      } else if flag == ThreadsFlag && i + 1 < |argv| {
        numThreads := ToSize(atoi(argv[i + 1]));
      }
      i := i + 1;
    }
    opts := Options(
      classification := classification, regression := regression, hasHeader := false,
      labelColumn := labelColumn, numColumns := 0, k := k, labelDefined := labelDefined,
      filename := "", numThreads := numThreads);
  }

  method ProcessArgs(argv: seq<string>, atoi: string -> int) returns (r: Outcome<Options>)
    requires |argv| >= 1
    ensures r == Fail(Help) <==> HelpRequested(argv)
    ensures !HelpRequested(argv) ==>
      var c, rg, l := Given(argv, ClassFlag), Given(argv, RegFlag), Given(argv, LabelFlag);
      r == if c && rg then Fail(BothModes)
           else if rg && !l then Fail(RegressionWithoutLabel)
           else if c && l then Fail(ClassificationWithLabel)
           else Ok(Accepted(argv, atoi))
  {
    for i := 0 to |argv|
      invariant forall j :: 0 <= j < i ==> !IsHelp(argv[j])
    {
      if IsHelp(argv[i]) {
        return Fail(Help);
      }
    }

    var opts, classFlag, regFlag, labelFlag := ScanFlags(argv, atoi);

    if classFlag && regFlag {
      return Fail(BothModes);
    } else if regFlag && !labelFlag {
      return Fail(RegressionWithoutLabel);
    } else if classFlag && labelFlag {
      return Fail(ClassificationWithLabel);
    }

    opts := opts.(filename := argv[|argv| - 1]);
    return Ok(opts);
  }

  /** With no flag at all the defaults hold: k = 5, four threads, no label
      column, neither mode chosen, and the last argument is the file name. */
  lemma Defaults(argv: seq<string>, atoi: string -> int)
    requires |argv| >= 1
    requires forall i :: 1 <= i < |argv| - 1 ==> FlagOf(argv[i]) == NoFlag
    ensures var o := Accepted(argv, atoi);
      o.k == 5 && o.numThreads == 4 && !o.labelDefined && o.labelColumn == NO_COLUMN &&
      !o.classification && !o.regression && o.filename == argv[|argv| - 1]
  {
    var hi := FlagEnd(argv);
    LastFlagMeans(argv, hi, ClassFlag);
    LastFlagMeans(argv, hi, RegFlag);
    LastFlagMeans(argv, hi, LabelFlag);
    LastFlagMeans(argv, hi, KFlag);
    LastFlagMeans(argv, hi, ThreadsFlag);
  }
}

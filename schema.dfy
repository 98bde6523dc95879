/** count_lines: the sample count and the schema inferred from the first two
    lines of the training file. The file is given as its text. */
module Schema {
  import opened Basics
  import opened Records
  import opened Tokens

  /** The number of '\n' characters in s. */
  function NewlineCount(s: string): nat
  {
    multiset(s)['\n']
  }

  /** Where the line that starts at `start` ends, its '\n' included (getline). */
  function LineEnd(s: string, start: nat): (e: nat)
    requires start <= |s|
    ensures start <= e <= |s|
    ensures start < |s| ==> start < e
    ensures forall i :: start <= i < e - 1 ==> s[i] != '\n'
    ensures start < e < |s| ==> s[e - 1] == '\n'
    decreases |s| - start
  {
    if start == |s| then start
    else if s[start] == '\n' then start + 1
    else LineEnd(s, start + 1)
  }

  predicate HasSecondLine(file: string)
  {
    LineEnd(file, 0) < |file|
  }

  /** The first line as getline returns it: up to and including the first '\n'. */
  function FirstLine(file: string): string
  {
    file[..LineEnd(file, 0)]
  }

  /** The first line starts the file and is a whole line: no '\n' before its
      end, and a '\n' at its end unless the file ends there. */
  lemma FirstLineMeans(file: string)
    ensures FirstLine(file) <= file
    ensures file != [] ==> FirstLine(file) != []
    ensures forall i :: 0 <= i < |FirstLine(file)| - 1 ==> FirstLine(file)[i] != '\n'
    ensures |FirstLine(file)| < |file| ==> FirstLine(file)[|FirstLine(file)| - 1] == '\n'
  {
  }

  /** The second line as the next getline returns it. */
  function SecondLine(file: string): (line: string)
    requires HasSecondLine(file)
    ensures line != []
  {
    var e := LineEnd(file, 0);
    file[e..LineEnd(file, e)]
  }

  /** The second line follows the first in the file, and it is a whole line:
      no '\n' before its end, and a '\n' at its end unless the file ends there. */
  lemma SecondLineMeans(file: string)
    requires HasSecondLine(file)
    ensures FirstLine(file) + SecondLine(file) <= file
    ensures forall i :: 0 <= i < |SecondLine(file)| - 1 ==> SecondLine(file)[i] != '\n'
    ensures |FirstLine(file)| + |SecondLine(file)| < |file| ==>
              SecondLine(file)[|SecondLine(file)| - 1] == '\n'
  {
    var e := LineEnd(file, 0);
    var e' := LineEnd(file, e);
    assert file[..e] + file[e..e'] == file[..e'];
  }

  /** Removes a trailing '\n', if there is one. */
  function StripNewline(s: string): string
  {
    if s != [] && s[|s| - 1] == '\n' then s[..|s| - 1] else s
  }

  /** Stripping leaves the line as it is, or takes off exactly one final '\n'. */
  lemma StripNewlineMeans(s: string)
    ensures StripNewline(s) == s || StripNewline(s) + "\n" == s
    ensures StripNewline(s) + "\n" == s <==> s != [] && s[|s| - 1] == '\n'
  {
  }

  /** `line[strlen(line) - 1] = 0`: the last character goes, whatever it is. */
  function DropLast(s: string): string
    requires s != []
  {
    s[..|s| - 1]
  }

  /** Dropping takes off the last character, whatever it is. */
  lemma DropLastMeans(s: string)
    requires s != []
    ensures DropLast(s) + [s[|s| - 1]] == s
  {
  }

  /** The positions below m that hold a non-real field, in increasing order. */
  function NonRealUpTo(ts: seq<string>, m: nat): (r: seq<nat>)
    requires m <= |ts|
    ensures forall a :: 0 <= a < |r| ==> r[a] < m && NonReal(ts[r[a]])
  {
    if m == 0 then []
    else NonRealUpTo(ts, m - 1) + (if NonReal(ts[m - 1]) then [m - 1] else [])
  }

  /** The positions of all non-real fields. */
  function NonRealIndices(ts: seq<string>): seq<nat>
  {
    NonRealUpTo(ts, |ts|)
  }

  /** NonRealUpTo lists exactly the non-real positions below m, in increasing order. */
  lemma {:induction false} NonRealUpToMeans(ts: seq<string>, m: nat)
    requires m <= |ts|
    ensures var r := NonRealUpTo(ts, m);
      (forall a :: 0 <= a < |r| ==> NonReal(ts[r[a]])) &&
      (forall a, b :: 0 <= a < b < |r| ==> r[a] < r[b]) &&
      (forall i :: 0 <= i < m && NonReal(ts[i]) ==> i in r)
  {
    if m > 0 {
      NonRealUpToMeans(ts, m - 1);
    }
  }

  /** Every position NonRealIndices lists holds a non-real field. */
  lemma NonRealIndicesAreNonReal(ts: seq<string>)
    ensures forall a :: 0 <= a < |NonRealIndices(ts)| ==>
      NonRealIndices(ts)[a] < |ts| && NonReal(ts[NonRealIndices(ts)[a]])
  {
    var r := NonRealUpTo(ts, |ts|);
    NonRealUpToMeans(ts, |ts|);
    assert forall a :: 0 <= a < |r| ==> NonReal(ts[r[a]]);
  }

  /** Scanning fewer fields finds a prefix of the positions. */
  lemma {:induction false} NonRealUpToPrefix(ts: seq<string>, m: nat, m': nat)
    requires m <= m' <= |ts|
    ensures NonRealUpTo(ts, m) <= NonRealUpTo(ts, m')
    decreases m' - m
  {
    if m < m' {
      NonRealUpToPrefix(ts, m, m' - 1);
    }
  }

  /** The label column as the second line shows it, in closed form:
      no non-real field leaves the options as they are; a single non-real
      field at position j makes j the label column (classification), unless
      a different column was given or regression was asked for; two or more
      always disagree with the one found first. */
  function DetectLabel(ts: seq<string>, opts: Options): (r: Outcome<Options>)
    ensures r.Fail? ==> r.error == LabelMismatch || r.error == NonRealForRegression
    ensures r.Ok? ==> r.value.(labelColumn := opts.labelColumn, labelDefined := opts.labelDefined,
                               classification := opts.classification) == opts
    ensures r.Ok? && r.value != opts ==>
      r.value.classification && r.value.labelDefined && r.value.labelColumn < |ts| &&
      NonReal(ts[r.value.labelColumn]) && !opts.regression
    ensures opts.regression && r.Ok? ==> r.value == opts
  {
    var nr := NonRealIndices(ts);
    if |nr| == 0 then Ok(opts)
    else if opts.labelDefined && opts.labelColumn != nr[0] then Fail(LabelMismatch)
    else if |nr| > 1 then Fail(LabelMismatch)
    else if opts.regression then Fail(NonRealForRegression)
    else
      NonRealIndicesAreNonReal(ts);
      Ok(opts.(labelColumn := nr[0], labelDefined := true, classification := true))
  }

  /** The loop of count_lines may stop at the first field that shows a
      mismatch: the closed form agrees. */
  lemma EarlyMismatch(ts: seq<string>, opts: Options, m: nat)
    requires m < |ts|
    requires var p := NonRealUpTo(ts, m + 1);
      |p| >= 2 || (|p| == 1 && opts.labelDefined && opts.labelColumn != p[0])
    ensures DetectLabel(ts, opts) == Fail(LabelMismatch)
  {
    NonRealUpToPrefix(ts, m + 1, |ts|);
  }

  lemma {:induction false} NonRealUpToAgree(ts: seq<string>, us: seq<string>, m: nat)
    requires m <= |ts| && m <= |us|
    requires forall i :: 0 <= i < m ==> ts[i] == us[i]
    ensures NonRealUpTo(ts, m) == NonRealUpTo(us, m)
  {
    if m > 0 {
      NonRealUpToAgree(ts, us, m - 1);
    }
  }

  /** Appending a field adds its position when it is non-real. */
  lemma NonRealIndicesSnoc(ts: seq<string>, t: string)
    ensures NonRealIndices(ts + [t]) == NonRealIndices(ts) + (if NonReal(t) then [|ts|] else [])
  {
    NonRealUpToAgree(ts + [t], ts, |ts|);
  }

  /** Some position below m is listed exactly when some field below m is non-real. */
  lemma {:induction false} OneNonReal(ts: seq<string>, m: nat)
    requires m <= |ts|
    ensures |NonRealUpTo(ts, m)| >= 1 <==> exists i :: 0 <= i < m && NonReal(ts[i])
  {
    if m > 0 {
      OneNonReal(ts, m - 1);
    }
  }

  /** When exactly the field at j is non-real, j is the only position listed. */
  lemma {:induction false} OnlyNonReal(ts: seq<string>, m: nat, j: nat)
    requires m <= |ts|
    requires forall i :: 0 <= i < m ==> (NonReal(ts[i]) <==> i == j)
    ensures NonRealUpTo(ts, m) == if j < m then [j] else []
  {
    if m > 0 {
      OnlyNonReal(ts, m - 1, j);
      var prev := NonRealUpTo(ts, m - 1);
      if m - 1 == j {
        assert NonReal(ts[m - 1]);
        assert prev == [];
        assert NonRealUpTo(ts, m) == prev + [m - 1];
      } else {
        assert !NonReal(ts[m - 1]);
        assert NonRealUpTo(ts, m) == prev + [];
      }
    }
  }

  /** Two positions are listed exactly when two fields are non-real. */
  lemma TwoNonReal(ts: seq<string>)
    ensures |NonRealIndices(ts)| >= 2 <==>
            exists i, j :: 0 <= i < j < |ts| && NonReal(ts[i]) && NonReal(ts[j])
  {
    var r := NonRealUpTo(ts, |ts|);
    NonRealUpToMeans(ts, |ts|);
    if |r| >= 2 {
      assert r[0] < r[1] && NonReal(ts[r[0]]) && NonReal(ts[r[1]]);
    }
    if exists i, j :: 0 <= i < j < |ts| && NonReal(ts[i]) && NonReal(ts[j]) {
      var i, j :| 0 <= i < j < |ts| && NonReal(ts[i]) && NonReal(ts[j]);
      assert i in r && j in r;
      var a :| 0 <= a < |r| && r[a] == i;
      var b :| 0 <= b < |r| && r[b] == j;
      assert a != b;
    }
  }

  // ---- has_header -------------------------------------------------------

  /** The header test as src/knn.c:244-258 writes it: the first line is split
      with its '\n' still attached, so that its last field is always non-real. */
  predicate HeaderAsWritten(firstLine: string)
    ensures HeaderAsWritten(firstLine) <==>
            exists i, j :: 0 <= i < j < |Split(firstLine)| &&
                           NonReal(Split(firstLine)[i]) && NonReal(Split(firstLine)[j])
  {
    TwoNonReal(Split(firstLine));
    |NonRealIndices(Split(firstLine))| >= 2
  }

  /** The header test the model uses: the '\n' is removed first, as the code
      does for every other line it splits. */
  predicate HasHeader(firstLine: string)
    ensures HasHeader(firstLine) <==>
            exists i, j :: 0 <= i < j < |Split(StripNewline(firstLine))| &&
                           NonReal(Split(StripNewline(firstLine))[i]) &&
                           NonReal(Split(StripNewline(firstLine))[j])
  {
    TwoNonReal(Split(StripNewline(firstLine)));
    |NonRealIndices(Split(StripNewline(firstLine)))| >= 2
  }

  /** A line made of fields and a '\n' is split back into those fields once the
      '\n' is removed. */
  lemma SplitRow(ts: seq<string>)
    requires forall i :: 0 <= i < |ts| ==> IsField(ts[i])
    ensures Split(StripNewline(Join(ts) + "\n")) == ts
  {
    var line := Join(ts) + "\n";
    assert line[..|line| - 1] == Join(ts);
    SplitJoin(ts);
  }

  lemma FieldWithNewline(t: string)
    requires IsField(t)
    ensures IsField(t + "\n")
  {
    assert forall i :: 0 <= i < |t| ==> (t + "\n")[i] == t[i];
  }

  /** A field that still holds its '\n' is non-real. */
  lemma NewlineNonReal(t: string)
    ensures NonReal(t + "\n")
  {
    assert !IsRealChar((t + "\n")[|t|]);
  }

  /** The fields of a row with the '\n' kept on the last one are fields. */
  lemma FieldsWithNewline(ts: seq<string>)
    requires ts != []
    requires forall i :: 0 <= i < |ts| ==> IsField(ts[i])
    ensures var us := ts[..|ts| - 1] + [ts[|ts| - 1] + "\n"];
      forall i :: 0 <= i < |us| ==> IsField(us[i])
  {
    var n := |ts| - 1;
    var us := ts[..n] + [ts[n] + "\n"];
    FieldWithNewline(ts[n]);
    forall i | 0 <= i < |us|
      ensures IsField(us[i])
    {
      if i < n {
        assert us[i] == ts[i];
      } else {
        assert us[i] == ts[n] + "\n";
      }
    }
  }

  /** Without the removal, the '\n' stays on the last field. */
  lemma SplitRowAsWritten(ts: seq<string>)
    requires ts != []
    requires forall i :: 0 <= i < |ts| ==> IsField(ts[i])
    ensures Split(Join(ts) + "\n") == ts[..|ts| - 1] + [ts[|ts| - 1] + "\n"]
  {
    JoinAppend(ts, "\n");
    FieldsWithNewline(ts);
    SplitJoin(ts[..|ts| - 1] + [ts[|ts| - 1] + "\n"]);
  }

  /** A line made of fields is a header exactly when two of them are non-real. */
  lemma HeaderOfRow(ts: seq<string>)
    requires forall i :: 0 <= i < |ts| ==> IsField(ts[i])
    ensures HasHeader(Join(ts) + "\n") <==>
            exists i, j :: 0 <= i < j < |ts| && NonReal(ts[i]) && NonReal(ts[j])
  {
    SplitRow(ts);
    TwoNonReal(ts);
  }

  /** As written, the header test counts the last field of the first line as
      non-real whatever it holds: one non-real field among the others is
      enough to take the line for a header. */
  lemma HeaderAsWrittenCountsLastField(ts: seq<string>)
    requires ts != []
    requires forall i :: 0 <= i < |ts| ==> IsField(ts[i])
    ensures HeaderAsWritten(Join(ts) + "\n") <==>
            exists i :: 0 <= i < |ts| - 1 && NonReal(ts[i])
  {
    var n := |ts| - 1;
    var init := ts[..n];
    NonRealWithLastField(ts);
    OneNonReal(init, n);
    assert (exists i :: 0 <= i < n && NonReal(init[i])) <==>
           (exists i :: 0 <= i < n && NonReal(ts[i])) by {
      assert forall i :: 0 <= i < n ==> init[i] == ts[i];
    }
  }

  /** Split as written, a row has one non-real field more than its fields
      before the last. */
  lemma NonRealWithLastField(ts: seq<string>)
    requires ts != []
    requires forall i :: 0 <= i < |ts| ==> IsField(ts[i])
    ensures |NonRealIndices(Split(Join(ts) + "\n"))| == |NonRealIndices(ts[..|ts| - 1])| + 1
  {
    var n := |ts| - 1;
    SplitRowAsWritten(ts);
    NewlineNonReal(ts[n]);
    NonRealIndicesSnoc(ts[..n], ts[n] + "\n");
  }

  lemma ExampleRow()
    ensures Join(["1", "A", "2"]) + "\n" == "1,A,2\n"
  {
    var ts := ["1", "A", "2"];
    assert Join(ts[2..]) == "2";
    assert Join(ts[1..]) == "A" + "," + "2";
  }

  /** A headerless row whose one non-real field is not the last one passes
      the header test as written, and not the corrected one. */
  lemma HeaderMisdetectedRow(ts: seq<string>, j: nat)
    requires j < |ts| - 1
    requires forall i :: 0 <= i < |ts| ==> IsField(ts[i])
    requires forall i :: 0 <= i < |ts| ==> (NonReal(ts[i]) <==> i == j)
    ensures HeaderAsWritten(Join(ts) + "\n")
    ensures !HasHeader(Join(ts) + "\n")
  {
    assert NonReal(ts[j]);
    HeaderAsWrittenCountsLastField(ts);
    forall i, i' | 0 <= i < i' < |ts|
      ensures !(NonReal(ts[i]) && NonReal(ts[i']))
    {
    }
    HeaderOfRow(ts);
  }

  /** The smallest such input: a headerless classification table whose label
      column is the middle one. */
  lemma HeaderMisdetected()
    ensures HeaderAsWritten("1,A,2\n")
    ensures !HasHeader("1,A,2\n")
  {
    var ts := ["1", "A", "2"];
    forall i | 0 <= i < |ts|
      ensures IsField(ts[i]) && (NonReal(ts[i]) <==> i == 1)
    {
      if i == 1 {
        assert !IsRealChar(ts[1][0]);
      }
    }
    HeaderMisdetectedRow(ts, 1);
    ExampleRow();
  }

  // ---- label column -----------------------------------------------------

  /** A second line with one non-real field makes its position the label
      column, and turns classification on. */
  lemma LabelFromSingleNonRealField(ts: seq<string>, opts: Options, j: nat)
    requires j < |ts|
    requires forall i :: 0 <= i < |ts| ==> (NonReal(ts[i]) <==> i == j)
    requires !opts.regression
    requires opts.labelDefined ==> opts.labelColumn == j
    ensures DetectLabel(ts, opts) == Ok(opts.(labelColumn := j, labelDefined := true, classification := true))
  {
    OnlyNonReal(ts, |ts|, j);
  }

  /** Without a non-real field the options are left as they are. */
  lemma AllRealKeepsOptions(ts: seq<string>, opts: Options)
    requires forall i :: 0 <= i < |ts| ==> !NonReal(ts[i])
    ensures DetectLabel(ts, opts) == Ok(opts)
  {
    OneNonReal(ts, |ts|);
  }

  /** Two non-real fields are reported as a label mismatch: the first one
      defines the label column and the second one disagrees with it. */
  lemma TwoNonRealFieldsMismatch(ts: seq<string>, opts: Options)
    requires exists i, j :: 0 <= i < j < |ts| && NonReal(ts[i]) && NonReal(ts[j])
    ensures DetectLabel(ts, opts) == Fail(LabelMismatch)
  {
    TwoNonReal(ts);
  }

  /** A non-real field outside the label column given with -l is a mismatch. */
  lemma GivenColumnDisagrees(ts: seq<string>, opts: Options, i: nat)
    requires i < |ts| && NonReal(ts[i])
    requires opts.labelDefined && opts.labelColumn != i
    ensures DetectLabel(ts, opts) == Fail(LabelMismatch)
  {
    var r := NonRealUpTo(ts, |ts|);
    NonRealUpToMeans(ts, |ts|);
    assert i in r;
    if |r| == 1 {
      assert r[0] == i;
    }
  }

  /** Regression never accepts a non-real field: the run exits with EX_DATAERR. */
  lemma RegressionRejectsNonReal(ts: seq<string>, opts: Options, i: nat)
    requires i < |ts| && NonReal(ts[i])
    requires opts.regression
    ensures DetectLabel(ts, opts).Fail?
    ensures ExitStatus(DetectLabel(ts, opts).error) == EX_DATAERR
  {
    NonRealUpToMeans(ts, |ts|);
    assert i in NonRealIndices(ts);
  }

  /** What count_lines computes: the options with has_header, num_columns and
      the label fields set, and the number of samples (newlines, less one for
      a header, in uint16_t arithmetic). */
  function InferSchema(file: string, opts: Options): (r: Outcome<(Options, nat)>)
    requires HasSecondLine(file)
    ensures r.Fail? ==> r.error == LabelMismatch || r.error == NonRealForRegression
    ensures r.Ok? ==> r.value.1 < U16_MODULUS
    ensures r.Ok? ==> r.value.0.hasHeader == HasHeader(FirstLine(file)) &&
                      r.value.0.numColumns == |Split(StripNewline(FirstLine(file)))| &&
                      r.value.0.k == opts.k && r.value.0.regression == opts.regression
  {
    var first := Split(StripNewline(FirstLine(file)));
    var header := HasHeader(FirstLine(file));
    var samples := ToU16(NewlineCount(file) - (if header then 1 else 0));
    match DetectLabel(Split(DropLast(SecondLine(file))), opts.(hasHeader := header, numColumns := |first|))
    case Ok(o) => Ok((o, samples))
    case Fail(e) => Fail(e)
  }

  /** The sample count is the number of '\n' characters as a uint16_t, one
      fewer when the first line is a header. */
  lemma InferSchemaSampleCount(file: string, opts: Options)
    requires HasSecondLine(file)
    ensures InferSchema(file, opts).Ok? ==>
      InferSchema(file, opts).value.1 ==
        ToU16(NewlineCount(file) - if HasHeader(FirstLine(file)) then 1 else 0)
  {
  }

  /** A cell of a table row: a field without a line break. */
  predicate IsCell(t: string)
  {
    IsField(t) && '\n' !in t
  }

  lemma {:induction false} JoinNoNewline(ts: seq<string>)
    requires forall i :: 0 <= i < |ts| ==> IsCell(ts[i])
    ensures '\n' !in Join(ts)
    decreases |ts|
  {
    if |ts| > 1 {
      JoinNoNewline(ts[1..]);
    }
  }

  /** getline stops at the first '\n' after `start`. */
  lemma {:induction false} LineEndAt(s: string, start: nat, end: nat)
    requires start < end <= |s|
    requires forall i :: start <= i < end - 1 ==> s[i] != '\n'
    requires s[end - 1] == '\n'
    ensures LineEnd(s, start) == end
    decreases end - start
  {
    if start < end - 1 {
      LineEndAt(s, start + 1, end);
    }
  }

  /** The first two lines of a text made of two lines and a rest. */
  lemma TableLines(a: string, b: string, rest: string)
    requires '\n' !in a && '\n' !in b
    ensures var file := a + "\n" + b + "\n" + rest;
      HasSecondLine(file) && FirstLine(file) == a + "\n" && SecondLine(file) == b + "\n"
  {
    var file := a + "\n" + b + "\n" + rest;
    var e := |a| + 1;
    forall i | 0 <= i < e - 1
      ensures file[i] != '\n'
    {
      assert file[i] == a[i];
    }
    LineEndAt(file, 0, e);
    assert FirstLine(file) == a + "\n";
    forall i | e <= i < e + |b|
      ensures file[i] != '\n'
    {
      assert file[i] == b[i - e];
    }
    LineEndAt(file, e, e + |b| + 1);
    assert file[e..e + |b| + 1] == b + "\n";
  }

  /** count_lines on a file whose first two lines are rows of cells ending
      in '\n': the columns are the cells of the first row, the header test
      is that of HeaderOfRow, the label is detected on the cells of the
      second row, and a header is not counted as a sample. */
  lemma InferSchemaOfTable(first: seq<string>, second: seq<string>, rest: string, opts: Options)
    requires forall i :: 0 <= i < |first| ==> IsCell(first[i])
    requires forall i :: 0 <= i < |second| ==> IsCell(second[i])
    ensures var file := Join(first) + "\n" + Join(second) + "\n" + rest;
      var header := exists i, j :: 0 <= i < j < |first| && NonReal(first[i]) && NonReal(first[j]);
      var d := DetectLabel(second, opts);
      HasSecondLine(file) &&
      (d.Fail? ==> InferSchema(file, opts) == Fail(d.error)) &&
      (d.Ok? ==> InferSchema(file, opts) ==
                 Ok((d.value.(hasHeader := header, numColumns := |first|),
                     ToU16(NewlineCount(file) - if header then 1 else 0))))
  {
    var a, b := Join(first), Join(second);
    var file := a + "\n" + b + "\n" + rest;
    JoinNoNewline(first);
    JoinNoNewline(second);
    TableLines(a, b, rest);
    assert Split(DropLast(SecondLine(file))) == second by {
      assert DropLast(b + "\n") == b;
      SplitJoin(second);
    }
    assert Split(StripNewline(FirstLine(file))) == first by {
      SplitRow(first);
    }
    HeaderOfRow(first);
    var header := exists i, j :: 0 <= i < j < |first| && NonReal(first[i]) && NonReal(first[j]);
    assert HasHeader(FirstLine(file)) == header;
    InferSchemaFromLines(file, opts, first, second, header);
  }

  /** InferSchema once the fields of the two lines are known. */
  lemma InferSchemaFromLines(file: string, opts: Options, first: seq<string>, second: seq<string>, header: bool)
    requires HasSecondLine(file)
    requires Split(StripNewline(FirstLine(file))) == first
    requires Split(DropLast(SecondLine(file))) == second
    requires HasHeader(FirstLine(file)) == header
    ensures var d := DetectLabel(second, opts);
      (d.Fail? ==> InferSchema(file, opts) == Fail(d.error)) &&
      (d.Ok? ==> InferSchema(file, opts) ==
                 Ok((d.value.(hasHeader := header, numColumns := |first|),
                     ToU16(NewlineCount(file) - if header then 1 else 0))))
  {
    DetectLabelShape(second, opts, header, |first|);
  }

  /** The label detection reads neither has_header nor num_columns. */
  lemma DetectLabelShape(ts: seq<string>, opts: Options, header: bool, columns: nat)
    ensures var d := DetectLabel(ts, opts.(hasHeader := header, numColumns := columns));
      (DetectLabel(ts, opts).Fail? ==> d == DetectLabel(ts, opts)) &&
      (DetectLabel(ts, opts).Ok? ==>
         d == Ok(DetectLabel(ts, opts).value.(hasHeader := header, numColumns := columns)))
  {
  }

  lemma NewlineCountStep(s: string, i: nat)
    requires i < |s|
    ensures NewlineCount(s[..i + 1]) == NewlineCount(s[..i]) + if s[i] == '\n' then 1 else 0
  {
    assert s[..i + 1] == s[..i] + [s[i]];
  }

  /** The fscanf loop of count_lines: one increment of a uint16_t per '\n'. */
  method CountNewlines(file: string) returns (lines: nat)
    ensures lines == ToU16(NewlineCount(file))
  {
    lines := 0;
    for i := 0 to |file|
      invariant lines == ToU16(NewlineCount(file[..i]))
    {
      NewlineCountStep(file, i);
      U16Increment(NewlineCount(file[..i]));
      if file[i] == '\n' {
        lines := if lines == U16_MODULUS - 1 then 0 else lines + 1;
      }
    }
    assert file[..|file|] == file;
  }

  /** The loop of count_lines over the fields of the first line: it counts
      the fields and the non-real ones among them. */
  method ScanFirstLine(first: seq<string>) returns (nonReal: nat, columns: nat)
    ensures nonReal == |NonRealIndices(first)|
    ensures columns == |first|
  {
    nonReal, columns := 0, 0;
    while columns < |first|
      invariant columns <= |first|
      invariant nonReal == |NonRealUpTo(first, columns)|
    {
      var b := IsLabel(first[columns]);
      if b {
        nonReal := nonReal + 1;
      }
      columns := columns + 1;
    }
  }

  /** count_lines on the text of a file with at least two lines. */
  method CountLines(file: string, opts: Options) returns (r: Outcome<(Options, nat)>)
    requires HasSecondLine(file)
    ensures r == InferSchema(file, opts)
  {
    var lines := CountNewlines(file);

    var first := Split(StripNewline(FirstLine(file)));
    var nonRealInFirstLine, columns := ScanFirstLine(first);

    var o := opts;
    if nonRealInFirstLine >= 2 {
      // uint16_t decrement: 0 wraps to 65535
      lines := if lines == 0 then U16_MODULUS - 1 else lines - 1;
      o := o.(hasHeader := true);
    } else {
      o := o.(hasHeader := false);
    }
    o := o.(numColumns := columns);
    assert lines == ToU16(NewlineCount(file) - (if nonRealInFirstLine >= 2 then 1 else 0));

    var second := Split(DropLast(SecondLine(file)));
    var detected := ScanSecondLine(second, o);
    if detected.Fail? {
      return Fail(detected.error);
    }
    return Ok((detected.value, lines));
  }

  /** The label-detection loop of count_lines over the fields of the second
      line, with the two checks that follow it. */
  method ScanSecondLine(second: seq<string>, opts: Options) returns (r: Outcome<Options>)
    ensures r == DetectLabel(second, opts)
  {
    var o := opts;
    var nonRealDataColumns := 0;
    var columnNum := 0;
    while columnNum < |second|
      invariant columnNum <= |second|
      invariant nonRealDataColumns == |NonRealUpTo(second, columnNum)|
      invariant nonRealDataColumns <= 1
      invariant nonRealDataColumns == 0 ==> o == opts
      invariant nonRealDataColumns == 1 ==>
        var j := NonRealUpTo(second, columnNum)[0];
        o == opts.(labelColumn := j, labelDefined := true, classification := true) &&
        (opts.labelDefined ==> opts.labelColumn == j)
    {
      var b := IsLabel(second[columnNum]);
      if b {
        nonRealDataColumns := nonRealDataColumns + 1;
        if o.labelDefined && o.labelColumn != columnNum {
          EarlyMismatch(second, opts, columnNum);
          return Fail(LabelMismatch);
        }
        o := o.(labelColumn := columnNum, labelDefined := true, classification := true);
      }
      columnNum := columnNum + 1;
    }

    assert NonRealIndices(second) == NonRealUpTo(second, columnNum);
    if o.regression && nonRealDataColumns > 0 {
      return Fail(NonRealForRegression);
    } else if nonRealDataColumns > 1 {
      return Fail(MultipleNonReal);
    }
    return Ok(o);
  }
}

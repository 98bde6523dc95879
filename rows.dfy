/** parse_training_line and parse_query_line: one line of text becomes a data
    point. strtod is a parameter; the features are filled slot by slot into
    a buffer of num_columns - 1 (training) or num_features (query) values. */
module Rows {
  import opened Basics
  import opened Records
  import opened Tokens
  import opened Schema

  /** Each token parsed as a number, in order. */
  function Parsed(ts: seq<string>, strtod: string -> real): (r: seq<real>)
    ensures |r| == |ts|
    ensures forall i :: 0 <= i < |ts| ==> r[i] == strtod(ts[i])
  {
    if ts == [] then [] else [strtod(ts[0])] + Parsed(ts[1..], strtod)
  }

  /** The tokens without the one at position lc. */
  function Without(ts: seq<string>, lc: nat): (r: seq<string>)
    requires lc < |ts|
    ensures |r| == |ts| - 1
  {
    ts[..lc] + ts[lc + 1..]
  }

  /** Putting the label token back at its column rebuilds the row. */
  lemma WithoutRestores(ts: seq<string>, lc: nat)
    requires lc < |ts|
    ensures Without(ts, lc)[..lc] + [ts[lc]] + Without(ts, lc)[lc..] == ts
    ensures forall j :: 0 <= j < |ts| - 1 ==>
              Without(ts, lc)[j] == ts[if j < lc then j else j + 1]
  {
    var w := Without(ts, lc);
    assert w[..lc] == ts[..lc];
    assert w[lc..] == ts[lc + 1..];
    assert ts == ts[..lc] + [ts[lc]] + ts[lc + 1..];
  }

  // ---- feature slots ----------------------------------------------------

  /** Where the value of column c (not the label column lc) lands in the
      feature buffer: the columns after the label move down by one. */
  function FeatureSlot(c: nat, lc: nat): (s: nat)
    requires c != lc
    ensures s <= c <= s + 1
    ensures c < lc <==> s == c
  {
    if c < lc then c else c - 1
  }

  /** The slot map is a bijection from the non-label columns below nc onto
      the nc - 1 slots of the buffer. */
  lemma FeatureSlotBijective(nc: nat, lc: nat)
    requires lc < nc
    ensures forall c :: 0 <= c < nc && c != lc ==> FeatureSlot(c, lc) < nc - 1
    ensures forall c, d :: 0 <= c < d < nc && c != lc && d != lc ==>
              FeatureSlot(c, lc) < FeatureSlot(d, lc)
    ensures forall j :: 0 <= j < lc ==> FeatureSlot(j, lc) == j
    ensures forall j :: lc < j < nc ==> FeatureSlot(j, lc) == j - 1
  {
  }

  /** The slot as src/knn.c:343-354 computes it: in the regression branch the
      running index also moves past the label column, so the columns after
      it keep their own position. */
  function FeatureSlotAsWritten(c: nat, lc: nat, classification: bool): (s: nat)
    requires c != lc
    ensures classification ==> s == FeatureSlot(c, lc)
    ensures !classification ==> s == c
  {
    if c < lc then c else if classification then c - 1 else c
  }

  /** The two agree for classification, and for regression when the label is
      the last column. */
  lemma SlotsAgree(nc: nat, lc: nat, classification: bool)
    requires lc < nc
    requires classification || lc == nc - 1
    ensures forall c :: 0 <= c < nc && c != lc ==>
              FeatureSlotAsWritten(c, lc, classification) == FeatureSlot(c, lc)
  {
  }

  /** For regression with the label before the last column the last column is
      written one past the nc - 1 slots, and slot lc is written by no column. */
  lemma RegressionSlotOverflow(nc: nat, lc: nat)
    requires lc < nc - 1
    ensures FeatureSlotAsWritten(nc - 1, lc, false) == nc - 1
    ensures forall c :: 0 <= c < nc && c != lc ==> FeatureSlotAsWritten(c, lc, false) != lc
  {
  }

  /** The smallest instance: three columns, the label first. */
  lemma RegressionSlotWitness()
    ensures FeatureSlotAsWritten(2, 0, false) == 2
    ensures FeatureSlotAsWritten(1, 0, false) == 1
    ensures FeatureSlot(2, 0) == 1 && FeatureSlot(1, 0) == 0
  {
  }

  // ---- parse_training_line ----------------------------------------------

  /** A buffer filled column by column, skipping the label column, holds the
      parsed row without its label, each column at its slot. */
  lemma FilledFeatures(ts: seq<string>, lc: nat, strtod: string -> real, f: seq<real>)
    requires lc < |ts| && |f| == |ts| - 1
    requires forall j :: 0 <= j < |f| ==> f[j] == strtod(ts[if j < lc then j else j + 1])
    ensures f == Parsed(Without(ts, lc), strtod)
    ensures forall c :: 0 <= c < |ts| && c != lc ==> f[FeatureSlot(c, lc)] == strtod(ts[c])
  {
    WithoutRestores(ts, lc);
    var p := Parsed(Without(ts, lc), strtod);
    assert forall j :: 0 <= j < |f| ==> f[j] == p[j];
  }

  /** The tokens of a training line, its trailing '\n' removed. */
  function TrainingTokens(line: string): seq<string>
  {
    Split(StripNewline(line))
  }

  /** A training line is split like a query line once its final '\n', if any,
      is removed; every token is a field. */
  lemma TrainingTokensMeans(line: string)
    ensures forall i :: 0 <= i < |TrainingTokens(line)| ==> IsField(TrainingTokens(line)[i])
    ensures line != [] && line[|line| - 1] == '\n' ==>
              TrainingTokens(line) == QueryTokens(line[..|line| - 1])
    ensures (line == [] || line[|line| - 1] != '\n') ==> TrainingTokens(line) == QueryTokens(line)
  {
  }

  /** No label column means the run ends: parse_training_line never counts a
      label, so both of its branches exit. */
  function MissingLabel(opts: Options): (e: Error)
    ensures ExitStatus(e) == EX_DATAERR
    ensures e == NoClassificationLabel <==> opts.classification
  {
    if opts.classification then NoClassificationLabel else NoRegressionLabel
  }

  /** Splits a training line into its label and features. */
  method ParseTrainingLine(line: string, opts: Options, strtod: string -> real)
    returns (r: Outcome<DataPoint>)
    requires |TrainingTokens(line)| == opts.numColumns
    requires opts.labelDefined ==> opts.labelColumn < opts.numColumns
    ensures !opts.labelDefined ==> r == Fail(MissingLabel(opts))
    ensures !opts.labelDefined ==> ExitStatus(r.error) == EX_DATAERR
    ensures opts.labelDefined ==> r.Ok?
    ensures r.Ok? ==>
      var ts := TrainingTokens(line);
      var lc := opts.labelColumn;
      var p := r.value;
      p.numFeatures == opts.numColumns - 1 &&
      p.features == Parsed(Without(ts, lc), strtod) &&
      p.labelText == Some(ts[lc]) &&
      p.labelIsDouble == !opts.classification &&
      p.outputFeature == (if opts.classification then 0.0 else strtod(ts[lc]))
    ensures r.Ok? ==>
      var ts := TrainingTokens(line);
      forall c :: 0 <= c < |ts| && c != opts.labelColumn ==>
        r.value.features[FeatureSlot(c, opts.labelColumn)] == strtod(ts[c])
  {
    if !opts.labelDefined {
      return Fail(MissingLabel(opts));
    }
    var ts := TrainingTokens(line);
    var lc := opts.labelColumn;
    var nc := opts.numColumns;
    var features := new real[nc - 1];
    var labelText: string := [];
    var output: real := 0.0;
    var isDouble := false;
    var featureNum := 0;
    var col := 0;
    while col < |ts|
      invariant 0 <= col <= |ts|
      invariant featureNum == (if col <= lc then col else col - 1)
      invariant forall j :: 0 <= j < featureNum ==>
                  features[j] == strtod(ts[if j < lc then j else j + 1])
      invariant col > lc ==> labelText == ts[lc]
      invariant col > lc ==> isDouble == !opts.classification
      invariant col > lc ==> output == (if opts.classification then 0.0 else strtod(ts[lc]))
    {
      if col == lc {
        labelText := ts[col];
        if opts.classification {
          output := 0.0;
          isDouble := false;
        } else {
          output := strtod(ts[col]);
          isDouble := true;
        }
      } else {
        features[featureNum] := strtod(ts[col]);
        featureNum := featureNum + 1;
      }
      col := col + 1;
    }
    FilledFeatures(ts, lc, strtod, features[..]);
    r := Ok(DataPoint(nc - 1, features[..], output, Some(labelText), isDouble));
  }

  /** A training row written out as fields and a '\n' gives back its label field
      and the other fields, in order, as features. */
  lemma TrainingTokensOfRow(ts: seq<string>)
    requires forall i :: 0 <= i < |ts| ==> IsField(ts[i])
    ensures TrainingTokens(Join(ts) + "\n") == ts
  {
    SplitRow(ts);
  }

  // ---- parse_query_line -------------------------------------------------

  /** The tokens of a query line. The line keeps its '\n': strtod stops
      before it. */
  function QueryTokens(line: string): (r: seq<string>)
    ensures forall i :: 0 <= i < |r| ==> IsField(r[i])
  {
    Split(line)
  }

  /** A query line ending in '\n' keeps it on its last token. */
  lemma QueryTokensKeepNewline(ts: seq<string>)
    requires ts != []
    requires forall i :: 0 <= i < |ts| ==> IsField(ts[i])
    ensures QueryTokens(Join(ts) + "\n") == ts[..|ts| - 1] + [ts[|ts| - 1] + "\n"]
  {
    SplitRowAsWritten(ts);
  }

  /** Parses a query line: every token is a feature, there is no label. */
  method ParseQueryLine(line: string, numFeatures: nat, strtod: string -> real)
    returns (p: DataPoint)
    requires |QueryTokens(line)| == numFeatures
    ensures p.numFeatures == numFeatures
    ensures p.features == Parsed(QueryTokens(line), strtod)
    ensures p.labelText == None && p.labelIsDouble && p.outputFeature == 0.0
  {
    var ts := QueryTokens(line);
    var features := new real[numFeatures];
    var featureNum := 0;
    while featureNum < |ts|
      invariant 0 <= featureNum <= |ts|
      invariant forall j :: 0 <= j < featureNum ==> features[j] == strtod(ts[j])
    {
      features[featureNum] := strtod(ts[featureNum]);
      featureNum := featureNum + 1;
    }
    p := DataPoint(numFeatures, features[..], 0.0, None, true);
  }

  /** A query written out as fields gives back those fields. */
  lemma QueryTokensOfRow(ts: seq<string>)
    requires forall i :: 0 <= i < |ts| ==> IsField(ts[i])
    ensures QueryTokens(Join(ts)) == ts
  {
    SplitJoin(ts);
  }
}

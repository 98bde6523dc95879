/** Field classification (`is_label`) and comma splitting as done by
    `strtok(line, ",")` throughout src/knn.c. */
module Tokens {

  /** The characters `is_label` accepts in a real field: isdigit, '.' and '-'. */
  predicate IsRealChar(c: char)
  {
    ('0' <= c <= '9') || c == '.' || c == '-'
  }

  /** A field is non-real when some character of it is not a real character.
      The test is purely per character: "", "1.2.3" and "--" are all real. */
  predicate NonReal(s: string)
  {
    exists i :: 0 <= i < |s| && !IsRealChar(s[i])
  }

  /** is_label: scan the field and stop at the first non-real character. */
  method IsLabel(s: string) returns (b: bool)
    ensures b == NonReal(s)
  {
    var i := 0;
    while i < |s|
      invariant 0 <= i <= |s|
      invariant forall j :: 0 <= j < i ==> IsRealChar(s[j])
    {
      if !IsRealChar(s[i]) {
        return true;
      }
      i := i + 1;
    }
    return false;
  }

  lemma RealExamples()
    ensures !NonReal("") && !NonReal("1.2.3") && !NonReal("--") && !NonReal("-0.5")
    ensures NonReal("A") && NonReal("3\n") && NonReal("1e5")
  {
    assert !IsRealChar("A"[0]);
    assert !IsRealChar("3\n"[1]);
    assert !IsRealChar("1e5"[1]);
  }

  /** Length of the leading run of non-comma characters. */
  function RunLength(s: string): (n: nat)
    ensures n <= |s|
    ensures forall i :: 0 <= i < n ==> s[i] != ','
    ensures n < |s| ==> s[n] == ','
  {
    if s == [] || s[0] == ',' then 0 else 1 + RunLength(s[1..])
  }

  /** The fields `strtok(s, ",")` returns one after another: the maximal
      non-empty runs of non-comma characters. Empty fields (leading, trailing
      or doubled commas) are never returned. */
  function Split(s: string): (r: seq<string>)
    ensures forall i :: 0 <= i < |r| ==> r[i] != [] && ',' !in r[i]
    ensures (forall i :: 0 <= i < |s| ==> s[i] == ',') <==> r == []
    decreases |s|
  {
    if s == [] then []
    else if s[0] == ',' then Split(s[1..])
    else
      var n := RunLength(s);
      assert s[..n][0] == s[0];
      [s[..n]] + Split(s[n..])
  }

  /** Fields written out with one comma between neighbours. */
  function Join(ts: seq<string>): string
  {
    if ts == [] then "" else if |ts| == 1 then ts[0] else ts[0] + "," + Join(ts[1..])
  }

  /** A field that strtok can return: non-empty and comma-free. */
  predicate IsField(t: string)
  {
    t != [] && ',' !in t
  }

  lemma {:induction false} RunLengthOfJoined(t: string, rest: string)
    requires ',' !in t
    requires rest == [] || rest[0] == ','
    ensures RunLength(t + rest) == |t|
    decreases |t|
  {
    if t != [] {
      assert (t + rest)[1..] == t[1..] + rest;
      RunLengthOfJoined(t[1..], rest);
    } else {
      assert t + rest == rest;
    }
  }

  /** Splitting undoes joining: fields written out with commas come back as
      the same fields. */
  lemma {:induction false} SplitJoin(ts: seq<string>)
    requires forall i :: 0 <= i < |ts| ==> IsField(ts[i])
    ensures Split(Join(ts)) == ts
    decreases |ts|
  {
    if ts == [] {
    } else if |ts| == 1 {
      var t := ts[0];
      RunLengthOfJoined(t, "");
      assert t + "" == t;
      assert t[|t|..] == [];
      assert t[..|t|] == t;
    } else {
      var t := ts[0];
      var tail := "," + Join(ts[1..]);
      var s := t + tail;
      assert Join(ts) == s;
      RunLengthOfJoined(t, tail);
      assert s[0] == t[0];
      assert s[..|t|] == t;
      assert s[|t|..] == tail;
      assert tail[1..] == Join(ts[1..]);
      SplitJoin(ts[1..]);
      assert Split(Join(ts)) == [t] + Split(tail);
      assert Split(tail) == Split(Join(ts[1..]));
      assert [t] + ts[1..] == ts;
    }
  }

  /** The non-empty fields of ts, in order. */
  function NonEmptyFields(ts: seq<string>): (r: seq<string>)
    ensures forall i :: 0 <= i < |r| ==> r[i] != [] && r[i] in ts
    ensures |r| <= |ts|
  {
    if ts == [] then []
    else (if ts[0] == [] then [] else [ts[0]]) + NonEmptyFields(ts[1..])
  }

  /** A comma-free field followed by a comma: the field comes back if it is
      not empty, and splitting carries on after the comma. */
  lemma SplitField(t: string, rest: string)
    requires ',' !in t
    ensures Split(t + "," + rest) == (if t == [] then [] else [t]) + Split(rest)
  {
    var s := t + "," + rest;
    if t == [] {
      assert s == "," + rest;
      assert s[1..] == rest;
    } else {
      RunLengthOfJoined(t, "," + rest);
      assert s == t + ("," + rest);
      assert s[0] == t[0];
      assert s[..|t|] == t;
      assert s[|t|..] == "," + rest;
      assert ("," + rest)[1..] == rest;
    }
  }

  /** strtok skips empty fields: comma-free fields written out with commas
      come back without the empty ones. */
  lemma {:induction false} SplitJoinDropsEmpty(ts: seq<string>)
    requires forall i :: 0 <= i < |ts| ==> ',' !in ts[i]
    ensures Split(Join(ts)) == NonEmptyFields(ts)
    decreases |ts|
  {
    if ts == [] {
    } else if |ts| == 1 {
      var t := ts[0];
      assert ts[1..] == [];
      if t != [] {
        SplitJoin(ts);
      }
    } else {
      SplitField(ts[0], Join(ts[1..]));
      SplitJoinDropsEmpty(ts[1..]);
    }
  }

  /** An empty field between two commas vanishes. */
  lemma EmptyFieldVanishes()
    ensures Split("1,,2") == ["1", "2"]
  {
    var ts := ["1", "", "2"];
    assert Join(ts[2..]) == "2";
    assert Join(ts[1..]) == ",2";
    assert Join(ts) == "1,,2";
    SplitJoinDropsEmpty(ts);
    assert NonEmptyFields(ts[2..]) == ["2"];
  }

  /** Empty fields before the first and after the last comma vanish. */
  lemma OuterEmptyFieldsVanish()
    ensures Split(",a,") == ["a"]
  {
    var ts := ["", "a", ""];
    assert Join(ts[2..]) == "";
    assert Join(ts[1..]) == "a,";
    assert Join(ts) == ",a,";
    SplitJoinDropsEmpty(ts);
    assert NonEmptyFields(ts[2..]) == [];
  }

  /** Text appended after the joined fields ends up in the last field. */
  lemma {:induction false} JoinAppend(ts: seq<string>, x: string)
    requires ts != []
    ensures Join(ts) + x == Join(ts[..|ts| - 1] + [ts[|ts| - 1] + x])
    decreases |ts|
  {
    if |ts| == 1 {
      assert ts[..0] + [ts[0] + x] == [ts[0] + x];
    } else {
      var us := ts[..|ts| - 1] + [ts[|ts| - 1] + x];
      JoinAppend(ts[1..], x);
      assert ts[1..][..|ts| - 2] + [ts[|ts| - 1] + x] == us[1..];
      assert us[0] == ts[0];
      assert Join(ts) + x == ts[0] + "," + (Join(ts[1..]) + x);
    }
  }
}

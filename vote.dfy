/** find_classification: a plurality vote among the labels of the k nearest
    neighbours, the earliest-seen label winning ties. */
module Vote {
  import opened Basics
  import opened Records

  /** How many times x occurs in ls. */
  function Count(ls: seq<string>, x: string): nat
  {
    multiset(ls)[x]
  }

  /** The position of the first occurrence of x. */
  function FirstIndex(ls: seq<string>, x: string): (r: nat)
    requires x in ls
    ensures r < |ls| && ls[r] == x
    ensures forall j :: 0 <= j < r ==> ls[j] != x
  {
    if ls[0] == x then 0 else 1 + FirstIndex(ls[1..], x)
  }

  /** r is the vote's winner: it is one of the labels, no label occurs more
      often, and every label that occurs as often shows up no earlier. */
  predicate IsPlurality(ls: seq<string>, r: string)
  {
    r in ls &&
    forall i :: 0 <= i < |ls| ==>
      Count(ls, ls[i]) <= Count(ls, r) &&
      (Count(ls, ls[i]) == Count(ls, r) ==> FirstIndex(ls, r) <= i)
  }

  /** The vote has at most one winner. */
  lemma PluralityUnique(ls: seq<string>, a: string, b: string)
    requires IsPlurality(ls, a) && IsPlurality(ls, b)
    ensures a == b
  {
    var ia, ib := FirstIndex(ls, a), FirstIndex(ls, b);
    assert Count(ls, ls[ib]) <= Count(ls, a);
    assert Count(ls, ls[ia]) <= Count(ls, b);
  }

  /** When all neighbours agree, their label wins. */
  lemma UnanimousVote(ls: seq<string>, x: string, r: string)
    requires ls != []
    requires forall i :: 0 <= i < |ls| ==> ls[i] == x
    requires IsPlurality(ls, r)
    ensures r == x
  {
    assert ls[0] == x;
  }

  /** A label that occurs more often than every other one wins. */
  lemma MajorityWins(ls: seq<string>, x: string, r: string)
    requires x in ls
    requires forall i :: 0 <= i < |ls| && ls[i] != x ==> Count(ls, ls[i]) < Count(ls, x)
    requires IsPlurality(ls, r)
    ensures r == x
  {
    var i := FirstIndex(ls, x);
    assert Count(ls, ls[i]) <= Count(ls, r);
    var j := FirstIndex(ls, r);
    assert ls[j] == r;
  }

  /** Earlier occurrences keep their first index when the sequence grows. */
  lemma FirstIndexExtend(ls: seq<string>, x: string, y: string)
    requires y in ls
    ensures FirstIndex(ls + [x], y) == FirstIndex(ls, y)
  {
    var a, b := FirstIndex(ls + [x], y), FirstIndex(ls, y);
    assert (ls + [x])[b] == y;
  }

  /** A label seen for the first time gets the next position. */
  lemma {:induction false} FirstIndexNew(ls: seq<string>, x: string)
    requires x !in ls
    ensures FirstIndex(ls + [x], x) == |ls|
  {
    if ls != [] {
      assert (ls + [x])[1..] == ls[1..] + [x];
      FirstIndexNew(ls[1..], x);
    }
  }

  lemma CountExtend(ls: seq<string>, x: string)
    ensures forall y :: Count(ls + [x], y) == Count(ls, y) + (if y == x then 1 else 0)
  {
    assert multiset(ls + [x]) == multiset(ls) + multiset{x};
  }

  /** The state of the tally after the labels seen: each label seen once in
      u, in the order of first appearance, with its number of occurrences
      at the same position of c. */
  predicate Tallied(seen: seq<string>, u: seq<string>, c: seq<nat>)
  {
    |c| == |u| &&
    (forall a :: 0 <= a < |u| ==> u[a] in seen) &&
    (forall p :: 0 <= p < |seen| ==> seen[p] in u) &&
    (forall a, b :: 0 <= a < b < |u| ==> u[a] != u[b]) &&
    (forall a, b :: 0 <= a < b < |u| ==> FirstIndex(seen, u[a]) < FirstIndex(seen, u[b])) &&
    (forall a :: 0 <= a < |u| ==> c[a] == Count(seen, u[a]))
  }

  /** A label already in the tally: its count goes up by one. */
  lemma TallyKnown(seen: seq<string>, u: seq<string>, c: seq<nat>, x: string, j: nat)
    requires Tallied(seen, u, c)
    requires j < |u| && u[j] == x
    ensures Tallied(seen + [x], u, c[j := c[j] + 1])
  {
    var seen', c' := seen + [x], c[j := c[j] + 1];
    CountExtend(seen, x);
    forall a | 0 <= a < |u|
      ensures u[a] in seen'
      ensures FirstIndex(seen', u[a]) == FirstIndex(seen, u[a])
      ensures c'[a] == Count(seen', u[a])
    {
      FirstIndexExtend(seen, x, u[a]);
    }
    forall p | 0 <= p < |seen'|
      ensures seen'[p] in u
    {
      if p < |seen| {
        assert seen'[p] == seen[p];
      }
    }
  }

  /** A label not in the tally: it takes the next slot, with count one. */
  lemma TallyNew(seen: seq<string>, u: seq<string>, c: seq<nat>, x: string)
    requires Tallied(seen, u, c)
    requires x !in u
    ensures Tallied(seen + [x], u + [x], c + [1])
  {
    assert x !in seen;
    TallyNewCounts(seen, u, c, x);
    TallyNewOrder(seen, u, x);
    var seen', u' := seen + [x], u + [x];
    forall p | 0 <= p < |seen'|
      ensures seen'[p] in u'
    {
      if p < |seen| {
        assert seen'[p] == seen[p];
      }
    }
  }

  lemma TallyNewCounts(seen: seq<string>, u: seq<string>, c: seq<nat>, x: string)
    requires Tallied(seen, u, c)
    requires x !in seen
    ensures var seen', u', c' := seen + [x], u + [x], c + [1];
      forall a :: 0 <= a < |u'| ==> u'[a] in seen' && c'[a] == Count(seen', u'[a])
  {
    var seen', u', c' := seen + [x], u + [x], c + [1];
    CountExtend(seen, x);
    forall a | 0 <= a < |u'|
      ensures u'[a] in seen' && c'[a] == Count(seen', u'[a])
    {
      if a < |u| {
        assert u'[a] == u[a] && c'[a] == c[a];
      }
    }
  }

  lemma TallyNewOrder(seen: seq<string>, u: seq<string>, x: string)
    requires forall a :: 0 <= a < |u| ==> u[a] in seen
    requires forall a, b :: 0 <= a < b < |u| ==> u[a] != u[b]
    requires forall a, b :: 0 <= a < b < |u| ==> FirstIndex(seen, u[a]) < FirstIndex(seen, u[b])
    requires x !in seen
    ensures var seen', u' := seen + [x], u + [x];
      forall a, b :: 0 <= a < b < |u'| ==>
        u'[a] != u'[b] && FirstIndex(seen', u'[a]) < FirstIndex(seen', u'[b])
  {
    var seen', u' := seen + [x], u + [x];
    FirstIndexNew(seen, x);
    forall a | 0 <= a < |u|
      ensures FirstIndex(seen', u[a]) == FirstIndex(seen, u[a])
    {
      FirstIndexExtend(seen, x, u[a]);
    }
    forall a, b | 0 <= a < b < |u'|
      ensures u'[a] != u'[b]
      ensures FirstIndex(seen', u'[a]) < FirstIndex(seen', u'[b])
    {
      assert u'[a] == u[a];
      if b < |u| {
        assert u'[b] == u[b];
      } else {
        assert FirstIndex(seen, u[a]) < |seen|;
      }
    }
  }

  /** One label more in the tally: a known label has its count raised, a
      new one is appended with count one. */
  function TallyAdd(t: (seq<string>, seq<nat>), x: string): (t': (seq<string>, seq<nat>))
    requires |t.0| == |t.1|
    ensures |t'.0| == |t'.1|
  {
    if x in t.0 then
      var j := FirstIndex(t.0, x);
      (t.0, t.1[j := t.1[j] + 1])
    else (t.0 + [x], t.1 + [1])
  }

  /** The tally of the labels seen, one label after the other. */
  function TallyOf(seen: seq<string>): (t: (seq<string>, seq<nat>))
    ensures |t.0| == |t.1|
    decreases |seen|
  {
    if seen == [] then ([], [])
    else TallyAdd(TallyOf(seen[..|seen| - 1]), seen[|seen| - 1])
  }

  lemma TallyOfStep(ls: seq<string>, i: nat)
    requires i < |ls|
    ensures TallyOf(ls[..i + 1]) == TallyAdd(TallyOf(ls[..i]), ls[i])
  {
    assert ls[..i + 1][..i] == ls[..i];
  }

  /** TallyAdd keeps the tally's meaning: t' is the tally t with x added,
      after the labels seen and then x. */
  lemma TallyAddTallied(seen: seq<string>, t: (seq<string>, seq<nat>), x: string,
                        seen': seq<string>, t': (seq<string>, seq<nat>))
    requires Tallied(seen, t.0, t.1)
    requires seen' == seen + [x] && t' == TallyAdd(t, x)
    ensures Tallied(seen', t'.0, t'.1)
  {
    if x in t.0 {
      TallyKnown(seen, t.0, t.1, x, FirstIndex(t.0, x));
    } else {
      TallyNew(seen, t.0, t.1, x);
    }
  }

  /** TallyOf keeps the tally's meaning. */
  lemma {:induction false} TallyOfTallied(seen: seq<string>)
    ensures Tallied(seen, TallyOf(seen).0, TallyOf(seen).1)
    decreases |seen|
  {
    if seen != [] {
      var init := seen[..|seen| - 1];
      var x := seen[|seen| - 1];
      TallyOfTallied(init);
      assert seen == init + [x];
      TallyAddTallied(init, TallyOf(init), x, seen, TallyOf(seen));
    }
  }

  /** The first strict maximum of the counts elects the plurality label. */
  lemma TallyWinner(ls: seq<string>, u: seq<string>, c: seq<nat>, m: nat)
    requires Tallied(ls, u, c)
    requires m < |u|
    requires forall a :: 0 <= a < |u| ==> c[a] <= c[m]
    requires forall a :: 0 <= a < m ==> c[a] < c[m]
    ensures IsPlurality(ls, u[m])
  {
    forall p | 0 <= p < |ls|
      ensures Count(ls, ls[p]) <= Count(ls, u[m])
      ensures Count(ls, ls[p]) == Count(ls, u[m]) ==> FirstIndex(ls, u[m]) <= p
    {
      var a :| 0 <= a < |u| && u[a] == ls[p];
      assert FirstIndex(ls, ls[p]) <= p;
    }
  }

  /** The lookup among the first n slots: the slot that holds x, if any. */
  method FindLabel(uniqueLabels: array<string>, n: nat, x: string) returns (found: bool, j: nat)
    requires n <= uniqueLabels.Length
    ensures found ==> j < n && uniqueLabels[j] == x
    ensures found ==> forall b :: 0 <= b < j ==> uniqueLabels[b] != x
    ensures !found ==> x !in uniqueLabels[..n]
  {
    found := false;
    j := 0;
    while !found && j < n
      invariant 0 <= j <= n
      invariant forall b :: 0 <= b < j ==> uniqueLabels[b] != x
      invariant found ==> j < n && uniqueLabels[j] == x
      decreases n - j, !found
    {
      if x == uniqueLabels[j] {
        found := true;
      } else {
        j := j + 1;
      }
    }
  }

  /** The first strict maximum among counts[..n]. */
  method FirstMaxIndex(counts: array<nat>, n: nat) returns (maxIndex: nat)
    requires 1 <= n <= counts.Length
    ensures maxIndex < n
    ensures forall a :: 0 <= a < n ==> counts[a] <= counts[maxIndex]
    ensures forall a :: 0 <= a < maxIndex ==> counts[a] < counts[maxIndex]
    ensures maxIndex == FirstMax(counts[..n], 1, 0)
  {
    var max := counts[0];
    maxIndex := 0;
    for i := 1 to n
      invariant maxIndex < n && max == counts[maxIndex]
      invariant forall a :: 0 <= a < i ==> counts[a] <= max
      invariant forall a :: 0 <= a < maxIndex ==> counts[a] < max
      invariant FirstMax(counts[..n], i, maxIndex) == FirstMax(counts[..n], 1, 0)
    {
      if counts[i] > max {
        max := counts[i];
        maxIndex := i;
      }
    }
  }

  /** The labels of the first k neighbours. */
  function NeighbourLabels(d: seq<Distance>, k: nat, samples: seq<DataPoint>): (ls: seq<string>)
    requires k <= |d|
    requires forall i :: 0 <= i < k ==> d[i].paired < |samples| && samples[d[i].paired].labelText.Some?
    ensures |ls| == k
    ensures forall i :: 0 <= i < k ==> ls[i] == samples[d[i].paired].labelText.value
  {
    seq(k, i requires 0 <= i < k => samples[d[i].paired].labelText.value)
  }

  /** One step of the tally loop of find_classification (src/knn.c:488-515),
      the new label going to the next free slot. */
  method AddLabel(uniqueLabels: array<string>, counts: array<nat>, n: nat, x: string) returns (n': nat)
    requires n < uniqueLabels.Length && uniqueLabels.Length == counts.Length
    requires forall a :: n <= a < counts.Length ==> counts[a] == 0
    modifies uniqueLabels, counts
    ensures n' <= uniqueLabels.Length
    ensures (uniqueLabels[..n'], counts[..n']) == TallyAdd((old(uniqueLabels[..n]), old(counts[..n])), x)
    ensures forall a :: n' <= a < counts.Length ==> counts[a] == 0
  {
    ghost var u, c := uniqueLabels[..n], counts[..n];
    if n == 0 {
      uniqueLabels[0] := x;
      counts[0] := counts[0] + 1;
      n' := 1;
      assert uniqueLabels[..n'] == u + [x];
      assert counts[..n'] == c + [1];
    } else {
      var found, j := FindLabel(uniqueLabels, n, x);
      if found {
        assert u[j] == x;
        assert FirstIndex(u, x) == j;
        counts[j] := counts[j] + 1;
        n' := n;
        assert uniqueLabels[..n'] == u;
        assert counts[..n'] == c[j := c[j] + 1];
      } else {
        uniqueLabels[n] := x;
        counts[n] := counts[n] + 1;
        n' := n + 1;
        assert uniqueLabels[..n'] == u + [x];
        assert counts[..n'] == c + [1];
      }
    }
  }

  /** The tally loop over the neighbours' labels: parallel arrays of the
      labels seen and their counts. */
  method CountLabels(ls: seq<string>) returns (uniqueLabels: array<string>, counts: array<nat>, numUnique: nat)
    requires ls != []
    ensures fresh(uniqueLabels) && fresh(counts)
    ensures 1 <= numUnique <= uniqueLabels.Length && numUnique <= counts.Length
    ensures uniqueLabels[..numUnique] == TallyOf(ls).0
    ensures counts[..numUnique] == TallyOf(ls).1
  {
    var k := |ls|;
    counts := new nat[k](_ => 0);
    uniqueLabels := new string[k](_ => "");
    numUnique := 0;
    for i := 0 to k
      invariant numUnique <= i
      invariant i > 0 ==> numUnique >= 1
      invariant uniqueLabels[..numUnique] == TallyOf(ls[..i]).0
      invariant counts[..numUnique] == TallyOf(ls[..i]).1
      invariant forall a :: numUnique <= a < k ==> counts[a] == 0
    {
      TallyOfStep(ls, i);
      numUnique := AddLabel(uniqueLabels, counts, numUnique, ls[i]);
    }
    assert ls[..k] == ls;
  }

  /** The vote over the first k entries of the sorted distances. A new label
      goes to the next free slot. */
  method FindClassification(distances: array<Distance>, k: nat, samples: seq<DataPoint>)
    returns (r: string)
    requires 1 <= k <= distances.Length
    requires forall i :: 0 <= i < k ==>
               distances[i].paired < |samples| && samples[distances[i].paired].labelText.Some?
    ensures IsPlurality(NeighbourLabels(distances[..], k, samples), r)
  {
    var ls := NeighbourLabels(distances[..], k, samples);
    var uniqueLabels, counts, numUnique := CountLabels(ls);
    var maxIndex := FirstMaxIndex(counts, numUnique);
    r := uniqueLabels[maxIndex];
    ArraysElect(ls, uniqueLabels[..numUnique], counts[..numUnique], maxIndex);
  }

  /** The label at the first strict maximum of the tally's counts wins. */
  lemma ArraysElect(ls: seq<string>, u: seq<string>, c: seq<nat>, m: nat)
    requires u == TallyOf(ls).0 && c == TallyOf(ls).1
    requires m < |c|
    requires forall a :: 0 <= a < |c| ==> c[a] <= c[m]
    requires forall a :: 0 <= a < m ==> c[a] < c[m]
    ensures IsPlurality(ls, u[m])
  {
    TallyOfTallied(ls);
    TallyWinner(ls, u, c, m);
  }

  // ---- the vote as written ----------------------------------------------

  /** What the lookup of src/knn.c:498-507 finds among the first n slots:
      None when it reaches an empty slot (a strcmp with NULL), otherwise
      Some(the matching slot) or Some(None) when no slot matches. */
  function LookupAsWritten(slots: seq<Option<string>>, n: nat, x: string, j: nat): (r: Option<Option<nat>>)
    requires n <= |slots|
    ensures r.Some? && r.value.Some? ==> j <= r.value.value < n && slots[r.value.value] == Some(x)
    decreases n - j
  {
    if j >= n then Some(None)
    else if slots[j].None? then None
    else if slots[j].value == x then Some(Some(j))
    else LookupAsWritten(slots, n, x, j + 1)
  }

  /** The tally as src/knn.c:484-516 builds it: a new label goes to slot i,
      the neighbour's own position. None is the undefined behaviour. */
  function TallyAsWritten(ls: seq<string>, i: nat, slots: seq<Option<string>>, counts: seq<int>, n: nat)
    : (r: Option<(seq<Option<string>>, seq<int>)>)
    requires i <= |ls| && |slots| == |ls| && |counts| == |ls| && n <= i
    ensures r.Some? ==> |r.value.0| == |r.value.1|
    decreases |ls| - i
  {
    if i == |ls| then Some((slots[..n], counts[..n]))
    else if n == 0 then
      TallyAsWritten(ls, i + 1, slots[0 := Some(ls[i])], counts[0 := counts[0] + 1], 1)
    else match LookupAsWritten(slots, n, ls[i], 0)
      case None => None
      case Some(Some(j)) =>
        if j < |counts| then TallyAsWritten(ls, i + 1, slots, counts[j := counts[j] + 1], n)
        else None
      case Some(None) =>
        TallyAsWritten(ls, i + 1, slots[i := Some(ls[i])], counts[i := counts[i] + 1], n + 1)
  }

  /** The first strict maximum of counts[from..], best so far at index best. */
  function FirstMax(counts: seq<int>, from: nat, best: nat): (m: nat)
    requires best < |counts|
    ensures m < |counts|
    decreases |counts| - from
  {
    if from >= |counts| then best
    else if counts[from] > counts[best] then FirstMax(counts, from + 1, from)
    else FirstMax(counts, from + 1, best)
  }

  /** The label find_classification returns as written; None where it reads
      an empty slot. */
  function VoteAsWritten(ls: seq<string>): (r: Option<string>)
    requires ls != []
    ensures r.Some? ==> IsPlurality(ls, r.value)
  {
    var slots0 := NoSlots(|ls|);
    var counts0 := NoCounts(|ls|);
    var tally := TallyAsWritten(ls, 0, slots0, counts0, 0);
    AlignedStart(ls, slots0, counts0);
    AlignedElects(ls, 0, slots0, counts0, 0, tally);
    match tally
      case None => None
      case Some((slots, counts)) =>
        if counts == [] then None else slots[FirstMax(counts, 1, 0)]
  }

  /** The first strict maximum: no count is larger, every earlier count is
      smaller. */
  lemma FirstMaxSpec(counts: seq<int>, from: nat, best: nat)
    requires best < |counts| && best < from
    requires forall a :: 0 <= a < from && a < |counts| ==> counts[a] <= counts[best]
    requires forall a :: 0 <= a < best ==> counts[a] < counts[best]
    ensures forall a :: 0 <= a < |counts| ==> counts[a] <= counts[FirstMax(counts, from, best)]
    ensures forall a :: 0 <= a < FirstMax(counts, from, best) ==>
      counts[a] < counts[FirstMax(counts, from, best)]
    decreases |counts| - from
  {
    if from < |counts| {
      if counts[from] > counts[best] {
        FirstMaxSpec(counts, from + 1, from);
      } else {
        FirstMaxSpec(counts, from + 1, best);
      }
    }
  }

  /** On the slots 0..m-1, holding u[0..m-1], the lookup finds the first slot
      holding x; past them it stops at the empty slot m, or at the end. */
  lemma LookupFrom(slots: seq<Option<string>>, n: nat, x: string, j: nat, u: seq<string>, m: nat)
    requires m <= n <= |slots| && m <= |u| && j <= m
    requires forall a :: 0 <= a < m ==> slots[a] == Some(u[a])
    requires m < n ==> slots[m] == None
    requires forall a :: 0 <= a < j ==> u[a] != x
    ensures LookupAsWritten(slots, n, x, j) ==
      if x in u[..m] then Some(Some(FirstIndex(u[..m], x)))
      else if m < n then None
      else Some(None)
    decreases m - j
  {
    if j == m {
      assert x !in u[..m];
    } else if u[j] == x {
      assert u[..m][j] == x;
      assert FirstIndex(u[..m], x) == j;
    } else {
      LookupFrom(slots, n, x, j + 1, u, m);
    }
  }

  /** The first occurrence in a prefix is the first occurrence. */
  lemma FirstIndexPrefix(u: seq<string>, m: nat, x: string)
    requires m <= |u| && x in u[..m]
    ensures x in u && FirstIndex(u[..m], x) == FirstIndex(u, x)
  {
    assert u[FirstIndex(u[..m], x)] == x;
  }

  /** The tally as written holds a plurality winner at its first strict
      maximum. */
  predicate ElectsPlurality(ls: seq<string>, r: (seq<Option<string>>, seq<int>))
  {
    |r.0| == |r.1| && r.1 != [] &&
    var k := FirstMax(r.1, 1, 0);
    r.0[k].Some? && IsPlurality(ls, r.0[k].value)
  }

  /** The tally as written, where defined, elects a plurality label. */
  predicate ElectsIfDefined(ls: seq<string>, r: Option<(seq<Option<string>>, seq<int>)>)
  {
    r.Some? ==> ElectsPlurality(ls, r.value)
  }

  /** Before the first misplaced label: the slots 0..n-1 and their counts are
      the intended tally t of ls[..i], and the other slots are empty. */
  predicate Aligned(ls: seq<string>, t: (seq<string>, seq<nat>), slots: seq<Option<string>>,
                    counts: seq<int>, n: nat)
  {
    |slots| == |ls| && |counts| == |ls| && n == |t.0| == |t.1| && n <= |ls| &&
    AgreeBelow(t, slots, counts, n) &&
    (forall a :: n <= a < |ls| ==> slots[a] == None && counts[a] == 0)
  }

  /** After a label went to slot i instead of slot n-1: slot n-1 is empty,
      and the slots before it agree with the intended tally t of ls[..i],
      whose last label has been seen once. */
  predicate Misaligned(ls: seq<string>, t: (seq<string>, seq<nat>), slots: seq<Option<string>>,
                       counts: seq<int>, n: nat)
  {
    |slots| == |ls| && |counts| == |ls| && 2 <= n == |t.0| == |t.1| && n <= |ls| &&
    t.1[n - 1] == 1 && slots[n - 1] == None && counts[n - 1] == 0 &&
    AgreeBelow(t, slots, counts, n - 1)
  }

  /** The slots and counts below m are those of the tally t. */
  predicate AgreeBelow(t: (seq<string>, seq<nat>), slots: seq<Option<string>>, counts: seq<int>, m: nat)
  {
    m <= |t.0| && m <= |t.1| && m <= |slots| && m <= |counts| &&
    forall a :: 0 <= a < m ==> slots[a] == Some(t.0[a]) && counts[a] == t.1[a]
  }

  /** The slot at the first strict maximum holds the winner w. */
  lemma ElectsAt(ls: seq<string>, r: (seq<Option<string>>, seq<int>), w: string)
    requires |r.0| == |r.1| && r.1 != []
    requires r.0[FirstMax(r.1, 1, 0)] == Some(w) && IsPlurality(ls, w)
    ensures ElectsPlurality(ls, r)
  {
  }

  /** Every label of the intended tally has been seen at least once. */
  lemma TallyOfPositive(ls: seq<string>)
    ensures ls != [] ==> |TallyOf(ls).0| >= 1
    ensures forall a :: 0 <= a < |TallyOf(ls).1| ==> TallyOf(ls).1[a] >= 1
  {
    var t := TallyOf(ls);
    TallyOfTallied(ls);
    if ls != [] {
      assert ls[0] in t.0;
    }
    forall a | 0 <= a < |t.1|
      ensures t.1[a] >= 1
    {
      assert t.0[a] in ls;
    }
  }

  /** The first strict maximum of the intended tally elects the plurality. */
  lemma TallyOfWinner(ls: seq<string>, k: nat)
    requires k < |TallyOf(ls).0|
    requires forall a :: 0 <= a < |TallyOf(ls).1| ==> TallyOf(ls).1[a] <= TallyOf(ls).1[k]
    requires forall a :: 0 <= a < k ==> TallyOf(ls).1[a] < TallyOf(ls).1[k]
    ensures IsPlurality(ls, TallyOf(ls).0[k])
  {
    TallyOfTallied(ls);
    TallyWinner(ls, TallyOf(ls).0, TallyOf(ls).1, k);
  }

  /** At the end of an aligned tally, its first strict maximum wins. */
  lemma AlignedEnd(ls: seq<string>, slots: seq<Option<string>>, counts: seq<int>, n: nat)
    requires ls != []
    requires Aligned(ls, TallyOf(ls), slots, counts, n)
    ensures ElectsPlurality(ls, (slots[..n], counts[..n]))
  {
    var t := TallyOf(ls);
    TallyOfPositive(ls);
    var c := counts[..n];
    FirstMaxSpec(c, 1, 0);
    var k := FirstMax(c, 1, 0);
    assert forall a :: 0 <= a < n ==> c[a] == t.1[a];
    TallyOfWinner(ls, k);
    ElectsAt(ls, (slots[..n], c), t.0[k]);
  }

  /** At the end of a misaligned tally, its first strict maximum wins. */
  lemma MisalignedEnd(ls: seq<string>, slots: seq<Option<string>>, counts: seq<int>, n: nat)
    requires Misaligned(ls, TallyOf(ls), slots, counts, n)
    ensures ElectsPlurality(ls, (slots[..n], counts[..n]))
  {
    var t := TallyOf(ls);
    TallyOfPositive(ls);
    var c := counts[..n];
    var k := FirstMax(c, 1, 0);
    MisalignedMax(c, t.1, k);
    TallyOfWinner(ls, k);
    ElectsAt(ls, (slots[..n], c), t.0[k]);
  }

  /** With the empty slot's count 0 in place of the last label's 1, the
      first strict maximum is the same and lies before the empty slot. */
  lemma MisalignedMax(c: seq<int>, tc: seq<nat>, k: nat)
    requires 2 <= |c| == |tc|
    requires forall a :: 0 <= a < |c| - 1 ==> c[a] == tc[a]
    requires c[|c| - 1] == 0 && tc[|c| - 1] == 1 && tc[0] >= 1
    requires k == FirstMax(c, 1, 0)
    ensures k < |c| - 1
    ensures forall a :: 0 <= a < |tc| ==> tc[a] <= tc[k]
    ensures forall a :: 0 <= a < k ==> tc[a] < tc[k]
  {
    FirstMaxSpec(c, 1, 0);
    assert c[0] <= c[k];
  }

  /** A label already counted in slot j. */
  lemma KnownStep(ls: seq<string>, i: nat, slots: seq<Option<string>>, counts: seq<int>, n: nat, j: nat)
    requires i < |ls|
    requires ls[i] in TallyOf(ls[..i]).0 && j == FirstIndex(TallyOf(ls[..i]).0, ls[i])
    requires Aligned(ls, TallyOf(ls[..i]), slots, counts, n)
    ensures Aligned(ls, TallyOf(ls[..i + 1]), slots, counts[j := counts[j] + 1], n)
  {
    TallyOfStep(ls, i);
  }

  /** A label already counted in slot j, before the empty slot. */
  lemma KnownStepMisaligned(ls: seq<string>, i: nat, t: (seq<string>, seq<nat>), t': (seq<string>, seq<nat>),
                            slots: seq<Option<string>>, counts: seq<int>, n: nat, j: nat)
    requires i < |ls| && t == TallyOf(ls[..i]) && t' == TallyOf(ls[..i + 1])
    requires ls[i] in t.0 && j == FirstIndex(t.0, ls[i])
    requires Misaligned(ls, t, slots, counts, n) && j < n - 1
    ensures Misaligned(ls, t', slots, counts[j := counts[j] + 1], n)
  {
    TallyOfStep(ls, i);
  }

  /** A new label that goes to slot n, as intended. */
  lemma NewStep(ls: seq<string>, i: nat, slots: seq<Option<string>>, counts: seq<int>, n: nat)
    requires n < |ls| && i < |ls|
    requires Aligned(ls, TallyOf(ls[..i]), slots, counts, n) && ls[i] !in TallyOf(ls[..i]).0
    ensures Aligned(ls, TallyOf(ls[..i + 1]), slots[n := Some(ls[i])], counts[n := counts[n] + 1], n + 1)
  {
    TallyOfStep(ls, i);
  }

  /** A new label that goes to slot i past slot n: slot n stays empty. */
  lemma MisplacedStep(ls: seq<string>, i: nat, t': (seq<string>, seq<nat>),
                      slots: seq<Option<string>>, counts: seq<int>, n: nat)
    requires 1 <= n < i < |ls| && t' == TallyOf(ls[..i + 1])
    requires Aligned(ls, TallyOf(ls[..i]), slots, counts, n) && ls[i] !in TallyOf(ls[..i]).0
    ensures Misaligned(ls, t', slots[i := Some(ls[i])], counts[i := counts[i] + 1], n + 1)
  {
    TallyOfStep(ls, i);
  }

  /** One step of the tally as written, once the lookup's outcome is known. */
  lemma WrittenStep(ls: seq<string>, i: nat, slots: seq<Option<string>>, counts: seq<int>, n: nat,
                    found: Option<Option<nat>>)
    requires i < |ls| && |slots| == |ls| && |counts| == |ls| && n <= i
    requires n == 0 ==> found == Some(None) && i == 0
    requires n != 0 ==> found == LookupAsWritten(slots, n, ls[i], 0)
    requires found.Some? && found.value.Some? ==> found.value.value < |counts|
    ensures TallyAsWritten(ls, i, slots, counts, n) ==
      match found
        case None => None
        case Some(Some(j)) => TallyAsWritten(ls, i + 1, slots, counts[j := counts[j] + 1], n)
        case Some(None) =>
          TallyAsWritten(ls, i + 1, slots[i := Some(ls[i])], counts[i := counts[i] + 1], n + 1)
  {
  }

  /** The tally as written, one aligned step on a label already counted. */
  lemma AlignedKnownUnfold(ls: seq<string>, i: nat, slots: seq<Option<string>>, counts: seq<int>,
                           n: nat, j: nat, counts': seq<int>, r: Option<(seq<Option<string>>, seq<int>)>)
    requires i < |ls| && 1 <= n <= i
    requires Aligned(ls, TallyOf(ls[..i]), slots, counts, n) && ls[i] in TallyOf(ls[..i]).0
    requires j == FirstIndex(TallyOf(ls[..i]).0, ls[i]) && counts' == counts[j := counts[j] + 1]
    requires r == TallyAsWritten(ls, i, slots, counts, n)
    ensures r == TallyAsWritten(ls, i + 1, slots, counts', n)
  {
    var u := TallyOf(ls[..i]).0;
    LookupFrom(slots, n, ls[i], 0, u, n);
    assert u[..n] == u;
    WrittenStep(ls, i, slots, counts, n, Some(Some(j)));
  }

  /** The tally as written, one aligned step on a new label: it goes to slot i. */
  lemma AlignedNewUnfold(ls: seq<string>, i: nat, slots: seq<Option<string>>, counts: seq<int>, n: nat,
                         slots': seq<Option<string>>, counts': seq<int>,
                         r: Option<(seq<Option<string>>, seq<int>)>)
    requires i < |ls| && 1 <= n <= i
    requires Aligned(ls, TallyOf(ls[..i]), slots, counts, n) && ls[i] !in TallyOf(ls[..i]).0
    requires slots' == slots[i := Some(ls[i])] && counts' == counts[i := counts[i] + 1]
    requires r == TallyAsWritten(ls, i, slots, counts, n)
    ensures r == TallyAsWritten(ls, i + 1, slots', counts', n + 1)
  {
    var u := TallyOf(ls[..i]).0;
    LookupFrom(slots, n, ls[i], 0, u, n);
    assert u[..n] == u;
    WrittenStep(ls, i, slots, counts, n, Some(None));
  }

  /** The tally as written, one misaligned step on a label counted before the
      empty slot. */
  lemma MisalignedKnownUnfold(ls: seq<string>, i: nat, t: (seq<string>, seq<nat>),
                              slots: seq<Option<string>>, counts: seq<int>, n: nat, j: nat,
                              counts': seq<int>, r: Option<(seq<Option<string>>, seq<int>)>)
    requires i < |ls| && n <= i && t == TallyOf(ls[..i])
    requires Misaligned(ls, t, slots, counts, n)
    requires ls[i] in t.0[..n - 1] && ls[i] in t.0
    requires j == FirstIndex(t.0, ls[i]) && counts' == counts[j := counts[j] + 1]
    requires r == TallyAsWritten(ls, i, slots, counts, n)
    ensures j < n - 1
    ensures r == TallyAsWritten(ls, i + 1, slots, counts', n)
  {
    LookupFrom(slots, n, ls[i], 0, t.0, n - 1);
    FirstIndexPrefix(t.0, n - 1, ls[i]);
    WrittenStep(ls, i, slots, counts, n, Some(Some(j)));
  }

  /** From a misaligned state, the tally as written still elects the plurality
      where it is defined. */
  lemma {:induction false} MisalignedElects(ls: seq<string>, i: nat, t: (seq<string>, seq<nat>),
                                            slots: seq<Option<string>>, counts: seq<int>, n: nat,
                                            r: Option<(seq<Option<string>>, seq<int>)>)
    requires i <= |ls| && |slots| == |ls| && |counts| == |ls| && n <= i
    requires t == TallyOf(ls[..i]) && Misaligned(ls, t, slots, counts, n)
    requires r == TallyAsWritten(ls, i, slots, counts, n)
    ensures ElectsIfDefined(ls, r)
    decreases |ls| - i, 1
  {
    if i == |ls| {
      assert ls[..i] == ls;
      MisalignedEnd(ls, slots, counts, n);
    } else {
      LookupFrom(slots, n, ls[i], 0, t.0, n - 1);
      if ls[i] in t.0[..n - 1] {
        MisalignedKnownElects(ls, i, t, slots, counts, n, r);
      } else {
        WrittenStep(ls, i, slots, counts, n, None);
      }
    }
  }

  /** The misaligned step for a label counted before the empty slot. */
  lemma {:induction false} MisalignedKnownElects(ls: seq<string>, i: nat, t: (seq<string>, seq<nat>),
                                                 slots: seq<Option<string>>, counts: seq<int>, n: nat,
                                                 r: Option<(seq<Option<string>>, seq<int>)>)
    requires i < |ls| && |slots| == |ls| && |counts| == |ls| && n <= i
    requires t == TallyOf(ls[..i]) && Misaligned(ls, t, slots, counts, n)
    requires ls[i] in t.0[..n - 1]
    requires r == TallyAsWritten(ls, i, slots, counts, n)
    ensures ElectsIfDefined(ls, r)
    decreases |ls| - i, 0
  {
    var t', counts' := MisalignedKnownNext(ls, i, t, slots, counts, n, r);
    MisalignedElects(ls, i + 1, t', slots, counts', n, r);
  }

  /** The state after a misaligned step on a label counted before the empty
      slot. */
  lemma MisalignedKnownNext(ls: seq<string>, i: nat, t: (seq<string>, seq<nat>),
                            slots: seq<Option<string>>, counts: seq<int>, n: nat,
                            r: Option<(seq<Option<string>>, seq<int>)>)
      returns (t': (seq<string>, seq<nat>), counts': seq<int>)
    requires i < |ls| && |slots| == |ls| && |counts| == |ls| && n <= i
    requires t == TallyOf(ls[..i]) && Misaligned(ls, t, slots, counts, n)
    requires ls[i] in t.0[..n - 1]
    requires r == TallyAsWritten(ls, i, slots, counts, n)
    ensures |counts'| == |ls|
    ensures t' == TallyOf(ls[..i + 1]) && Misaligned(ls, t', slots, counts', n)
    ensures r == TallyAsWritten(ls, i + 1, slots, counts', n)
  {
    FirstIndexPrefix(t.0, n - 1, ls[i]);
    var j := FirstIndex(t.0, ls[i]);
    counts' := counts[j := counts[j] + 1];
    t' := TallyOf(ls[..i + 1]);
    MisalignedKnownUnfold(ls, i, t, slots, counts, n, j, counts', r);
    KnownStepMisaligned(ls, i, t, t', slots, counts, n, j);
  }

  /** From an aligned state, the tally as written elects the plurality where
      it is defined. */
  lemma {:induction false} AlignedElects(ls: seq<string>, i: nat, slots: seq<Option<string>>,
                                         counts: seq<int>, n: nat,
                                         r: Option<(seq<Option<string>>, seq<int>)>)
    requires ls != []
    requires i <= |ls| && |slots| == |ls| && |counts| == |ls| && n <= i
    requires Aligned(ls, TallyOf(ls[..i]), slots, counts, n)
    requires r == TallyAsWritten(ls, i, slots, counts, n)
    ensures ElectsIfDefined(ls, r)
    decreases |ls| - i, 1
  {
    if i == |ls| {
      assert ls[..i] == ls;
      AlignedEnd(ls, slots, counts, n);
    } else if n == 0 {
      assert i == 0;
      var slots', counts' := slots[0 := Some(ls[i])], counts[0 := counts[0] + 1];
      NewStep(ls, i, slots, counts, 0);
      WrittenStep(ls, i, slots, counts, 0, Some(None));
      assert Aligned(ls, TallyOf(ls[..i + 1]), slots', counts', 1);
      assert r == TallyAsWritten(ls, i + 1, slots', counts', 1);
      AlignedElects(ls, i + 1, slots', counts', 1, r);
    } else if ls[i] in TallyOf(ls[..i]).0 {
      AlignedKnownElects(ls, i, slots, counts, n, r);
    } else if i == n {
      AlignedNewElects(ls, i, slots, counts, n, r);
    } else {
      AlignedMisplacedElects(ls, i, slots, counts, n, r);
    }
  }

  /** The aligned step for a label already counted. */
  lemma {:induction false} AlignedKnownElects(ls: seq<string>, i: nat, slots: seq<Option<string>>,
                                              counts: seq<int>, n: nat,
                                              r: Option<(seq<Option<string>>, seq<int>)>)
    requires ls != []
    requires i < |ls| && |slots| == |ls| && |counts| == |ls| && 1 <= n <= i
    requires Aligned(ls, TallyOf(ls[..i]), slots, counts, n) && ls[i] in TallyOf(ls[..i]).0
    requires r == TallyAsWritten(ls, i, slots, counts, n)
    ensures ElectsIfDefined(ls, r)
    decreases |ls| - i, 0
  {
    var u := TallyOf(ls[..i]).0;
    var j := FirstIndex(u, ls[i]);
    var counts' := counts[j := counts[j] + 1];
    AlignedKnownUnfold(ls, i, slots, counts, n, j, counts', r);
    KnownStep(ls, i, slots, counts, n, j);
    assert Aligned(ls, TallyOf(ls[..i + 1]), slots, counts', n);
    assert r == TallyAsWritten(ls, i + 1, slots, counts', n);
    AlignedElects(ls, i + 1, slots, counts', n, r);
  }

  /** The aligned step for a new label while i == n: slot i is slot n. */
  lemma {:induction false} AlignedNewElects(ls: seq<string>, i: nat, slots: seq<Option<string>>,
                                            counts: seq<int>, n: nat,
                                            r: Option<(seq<Option<string>>, seq<int>)>)
    requires ls != []
    requires i < |ls| && |slots| == |ls| && |counts| == |ls| && 1 <= n == i
    requires Aligned(ls, TallyOf(ls[..i]), slots, counts, n) && ls[i] !in TallyOf(ls[..i]).0
    requires r == TallyAsWritten(ls, i, slots, counts, n)
    ensures ElectsIfDefined(ls, r)
    decreases |ls| - i, 0
  {
    var slots', counts' := slots[i := Some(ls[i])], counts[i := counts[i] + 1];
    AlignedNewUnfold(ls, i, slots, counts, n, slots', counts', r);
    assert r == TallyAsWritten(ls, i + 1, slots', counts', n + 1);
    NewStep(ls, i, slots, counts, n);
    assert Aligned(ls, TallyOf(ls[..i + 1]), slots', counts', n + 1);
    AlignedElects(ls, i + 1, slots', counts', n + 1, r);
  }

  /** The aligned step for a new label while i > n: slot n stays empty. */
  lemma {:induction false} AlignedMisplacedElects(ls: seq<string>, i: nat, slots: seq<Option<string>>,
                                                  counts: seq<int>, n: nat,
                                                  r: Option<(seq<Option<string>>, seq<int>)>)
    requires ls != []
    requires i < |ls| && |slots| == |ls| && |counts| == |ls| && 1 <= n < i
    requires Aligned(ls, TallyOf(ls[..i]), slots, counts, n) && ls[i] !in TallyOf(ls[..i]).0
    requires r == TallyAsWritten(ls, i, slots, counts, n)
    ensures ElectsIfDefined(ls, r)
    decreases |ls| - i, 0
  {
    var slots', counts' := slots[i := Some(ls[i])], counts[i := counts[i] + 1];
    AlignedNewUnfold(ls, i, slots, counts, n, slots', counts', r);
    assert r == TallyAsWritten(ls, i + 1, slots', counts', n + 1);
    var t' := TallyOf(ls[..i + 1]);
    MisplacedStep(ls, i, t', slots, counts, n);
    MisalignedElects(ls, i + 1, t', slots', counts', n + 1, r);
  }

  /** The unique_labels buffer as calloc leaves it: every slot empty. */
  function NoSlots(n: nat): (slots: seq<Option<string>>)
    ensures |slots| == n && forall a :: 0 <= a < n ==> slots[a] == None
  {
    seq(n, _ => None)
  }

  /** The counts buffer as calloc leaves it: every count 0. */
  function NoCounts(n: nat): (counts: seq<int>)
    ensures |counts| == n && forall a :: 0 <= a < n ==> counts[a] == 0
  {
    seq(n, _ => 0)
  }

  /** No label seen, no slot filled: the starting state is aligned. */
  lemma AlignedStart(ls: seq<string>, slots: seq<Option<string>>, counts: seq<int>)
    requires slots == NoSlots(|ls|) && counts == NoCounts(|ls|)
    ensures Aligned(ls, TallyOf(ls[..0]), slots, counts, 0)
  {
    assert ls[..0] == [];
  }

  /** Neighbours labelled A, A, B, B: the second B is compared with the empty
      slot 1, while the intended vote elects A. */
  lemma SlotBugWitness()
    ensures VoteAsWritten(["A", "A", "B", "B"]) == None
    ensures IsPlurality(["A", "A", "B", "B"], "A")
  {
    var ls := ["A", "A", "B", "B"];
    var s0: seq<Option<string>> := seq(4, _ => None);
    var c0: seq<int> := seq(4, _ => 0);
    var s1 := s0[0 := Some("A")];
    var c1 := c0[0 := 1];
    assert LookupAsWritten(s1, 1, "A", 0) == Some(Some(0));
    var c2 := c1[0 := 2];
    assert LookupAsWritten(s1, 1, "B", 0) == Some(None);
    var s3 := s1[2 := Some("B")];
    var c3 := c2[2 := 1];
    assert LookupAsWritten(s3, 2, "B", 0) == None;
    assert TallyAsWritten(ls, 3, s3, c3, 2) == None;
    assert TallyAsWritten(ls, 2, s1, c2, 1) == None;
    assert TallyAsWritten(ls, 1, s1, c1, 1) == None;
    assert TallyAsWritten(ls, 0, s0, c0, 0) == None;
    assert Count(ls, "A") == 2 && Count(ls, "B") == 2 by {
      assert multiset(ls) == multiset{"A", "A", "B", "B"};
    }
    assert FirstIndex(ls, "A") == 0;
  }
}

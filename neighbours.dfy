/** One query of knn: the distance to every training point (euclid_dist,
    with its dimension check), the distances sorted by comp_dist, and the
    prediction read off the first k of them. The metric is a parameter;
    distances are reals. */
module Neighbours {
  import opened Basics
  import opened Records
  import opened Vote

  // ---- comp_dist --------------------------------------------------------

  /** The three-way comparison qsort is given. */
  function CompDist(a: Distance, b: Distance): (r: int)
    ensures r == -1 || r == 0 || r == 1
  {
    if a.distance < b.distance then -1
    else if a.distance > b.distance then 1
    else 0
  }

  /** CompDist orders two distances exactly as their values are ordered. */
  lemma CompDistMeans(a: Distance, b: Distance)
    ensures CompDist(a, b) < 0 <==> a.distance < b.distance
    ensures CompDist(a, b) == 0 <==> a.distance == b.distance
    ensures CompDist(a, b) > 0 <==> a.distance > b.distance
  {
  }

  /** Swapping the arguments flips the sign, and the order is transitive:
      CompDist is a total preorder, as qsort requires. */
  lemma CompDistOrder(a: Distance, b: Distance, c: Distance)
    ensures CompDist(a, b) == -CompDist(b, a)
    ensures CompDist(a, b) <= 0 && CompDist(b, c) <= 0 ==> CompDist(a, c) <= 0
  {
  }

  // ---- euclid_dist ------------------------------------------------------

  /** A distance function on feature vectors. */
  type Metric = (seq<real>, seq<real>) -> real

  /** The distance from training point number `index` to the query; the run
      ends when their feature counts differ. */
  function EuclidDist(training: DataPoint, query: DataPoint, index: nat, metric: Metric): (r: Outcome<Distance>)
    ensures r.Fail? <==> training.numFeatures != query.numFeatures
    ensures r.Fail? ==> r.error == ImproperFeatureCount && ExitStatus(r.error) == EX_DATAERR
    ensures r.Ok? ==> r.value.paired == index && r.value.distance == metric(training.features, query.features)
  {
    if training.numFeatures != query.numFeatures then Fail(ImproperFeatureCount)
    else Ok(Distance(metric(training.features, query.features), index))
  }

  /** The distance of every training point, in the order of the samples. */
  function PairDistances(samples: seq<DataPoint>, query: DataPoint, metric: Metric): (d: seq<Distance>)
    ensures |d| == |samples|
    ensures forall i :: 0 <= i < |d| ==>
              d[i] == Distance(metric(samples[i].features, query.features), i)
  {
    seq(|samples|, i requires 0 <= i < |samples| => Distance(metric(samples[i].features, query.features), i))
  }

  predicate SameDimension(samples: seq<DataPoint>, query: DataPoint)
  {
    forall i :: 0 <= i < |samples| ==> samples[i].numFeatures == query.numFeatures
  }

  /** The distance pass of knn, one sample after the other. */
  method ComputeDistances(samples: seq<DataPoint>, query: DataPoint, metric: Metric)
    returns (ok: bool, distances: array<Distance>)
    ensures fresh(distances)
    ensures ok <==> SameDimension(samples, query)
    ensures ok ==> distances[..] == PairDistances(samples, query, metric)
  {
    distances := new Distance[|samples|](_ => Distance(0.0, 0));
    for i := 0 to |samples|
      invariant SameDimension(samples[..i], query)
      invariant forall j :: 0 <= j < i ==>
                  distances[j] == Distance(metric(samples[j].features, query.features), j)
    {
      var d := EuclidDist(samples[i], query, i, metric);
      if d.Fail? {
        assert samples[i].numFeatures != query.numFeatures;
        return false, distances;
      }
      distances[i] := d.value;
      assert samples[..i + 1] == samples[..i] + [samples[i]];
    }
    assert samples[..|samples|] == samples;
    ok := true;
  }

  // ---- qsort ------------------------------------------------------------

  /** Ascending by distance. */
  predicate Ascending(s: seq<Distance>)
  {
    forall p, q :: 0 <= p < q < |s| ==> s[p].distance <= s[q].distance
  }

  method Swap(a: array<Distance>, i: nat, j: nat)
    requires i < j < a.Length
    modifies a
    ensures a[i] == old(a[j]) && a[j] == old(a[i])
    ensures forall m :: 0 <= m < a.Length && m != i && m != j ==> a[m] == old(a[m])
    ensures multiset(a[..]) == old(multiset(a[..]))
  {
    a[i], a[j] := a[j], a[i];
  }

  /** Sorts the distances in place with comp_dist. Equal distances may end up
      in any order, as with qsort. */
  method SortDistances(a: array<Distance>)
    modifies a
    ensures Ascending(a[..])
    ensures multiset(a[..]) == old(multiset(a[..]))
  {
    for i := 0 to a.Length
      invariant forall p, q :: 0 <= p < q < i ==> a[p].distance <= a[q].distance
      invariant multiset(a[..]) == old(multiset(a[..]))
    {
      var j := i;
      while j > 0 && CompDist(a[j - 1], a[j]) > 0
        invariant 0 <= j <= i
        invariant forall p, q :: 0 <= p < q <= i && p != j && q != j ==> a[p].distance <= a[q].distance
        invariant forall q :: j < q <= i ==> a[j].distance <= a[q].distance
        invariant multiset(a[..]) == old(multiset(a[..]))
      {
        Swap(a, j - 1, j);
        j := j - 1;
      }
    }
  }

  /** After sorting, the first k entries are the k nearest: a training point
      nearer than one of them is one of them. */
  lemma NearestFirst(sorted: seq<Distance>, all: seq<Distance>, k: nat)
    requires Ascending(sorted) && multiset(sorted) == multiset(all)
    requires k <= |sorted|
    ensures forall i, p :: 0 <= i < |all| && 0 <= p < k && all[i].distance < sorted[p].distance ==>
              all[i] in sorted[..k]
  {
    forall i, p | 0 <= i < |all| && 0 <= p < k && all[i].distance < sorted[p].distance
      ensures all[i] in sorted[..k]
    {
      assert all[i] in multiset(sorted);
      var q :| 0 <= q < |sorted| && sorted[q] == all[i];
      assert q < p;
      assert sorted[..k][q] == all[i];
    }
  }

  /** A permutation of the distances still names training points only. */
  lemma PermutationPaired(sorted: seq<Distance>, all: seq<Distance>, n: nat)
    requires multiset(sorted) == multiset(all)
    requires forall i :: 0 <= i < |all| ==> all[i].paired < n
    ensures forall p :: 0 <= p < |sorted| ==> sorted[p].paired < n
  {
    forall p | 0 <= p < |sorted|
      ensures sorted[p].paired < n
    {
      assert sorted[p] in multiset(all);
    }
  }

  // ---- regression -------------------------------------------------------

  /** The output features of the given neighbours, added up. */
  function SumOutputs(ds: seq<Distance>, samples: seq<DataPoint>): real
    requires forall i :: 0 <= i < |ds| ==> ds[i].paired < |samples|
  {
    if ds == [] then 0.0
    else SumOutputs(ds[..|ds| - 1], samples) + samples[ds[|ds| - 1].paired].outputFeature
  }

  /** Neighbours whose outputs all lie in [lo, hi] have their mean there too. */
  lemma {:induction false} SumOutputsBounds(ds: seq<Distance>, samples: seq<DataPoint>, lo: real, hi: real)
    requires forall i :: 0 <= i < |ds| ==> ds[i].paired < |samples|
    requires forall i :: 0 <= i < |ds| ==>
               lo <= samples[ds[i].paired].outputFeature <= hi
    ensures |ds| as real * lo <= SumOutputs(ds, samples) <= |ds| as real * hi
  {
    if ds != [] {
      SumOutputsBounds(ds[..|ds| - 1], samples, lo, hi);
    }
  }

  /** When the k neighbours agree on their output, the prediction is that output. */
  lemma {:induction false} MeanOfIdentical(ds: seq<Distance>, samples: seq<DataPoint>, v: real)
    requires ds != []
    requires forall i :: 0 <= i < |ds| ==> ds[i].paired < |samples|
    requires forall i :: 0 <= i < |ds| ==> samples[ds[i].paired].outputFeature == v
    ensures SumOutputs(ds, samples) / |ds| as real == v
  {
    SumOutputsBounds(ds, samples, v, v);
    var n := |ds| as real;
    assert SumOutputs(ds, samples) == n * v;
    assert n * v / n == v;
  }

  /** The regression average of the first k neighbours, as the loop of knn
      adds it up and divides it. */
  method RegressionAverage(neighbours: array<Distance>, k: nat, samples: seq<DataPoint>) returns (avg: real)
    requires 1 <= k <= neighbours.Length
    requires forall i :: 0 <= i < k ==> neighbours[i].paired < |samples|
    ensures avg == SumOutputs(neighbours[..k], samples) / k as real
  {
    var sum := 0.0;
    for i := 0 to k
      invariant sum == SumOutputs(neighbours[..i], samples)
    {
      assert neighbours[..i + 1][..i] == neighbours[..i];
      sum := sum + samples[neighbours[i].paired].outputFeature;
    }
    avg := sum / k as real;
  }

  // ---- knn --------------------------------------------------------------

  /** The prediction for one query. The sorted distances are returned as well. */
  method Predict(samples: seq<DataPoint>, query: DataPoint, opts: Options, metric: Metric)
    returns (r: Outcome<Prediction>, neighbours: seq<Distance>)
    requires 1 <= opts.k <= |samples|
    requires opts.classification ==> forall i :: 0 <= i < |samples| ==> samples[i].labelText.Some?
    ensures r.Fail? <==> !SameDimension(samples, query)
    ensures r.Fail? ==> r.error == ImproperFeatureCount
    ensures r.Ok? ==> Ascending(neighbours)
    ensures r.Ok? ==> multiset(neighbours) == multiset(PairDistances(samples, query, metric))
    ensures r.Ok? ==> forall p :: 0 <= p < |neighbours| ==> neighbours[p].paired < |samples|
    ensures r.Ok? ==> |neighbours| == |samples|
    ensures r.Ok? && opts.classification ==>
              r.value.Label? && IsPlurality(NeighbourLabels(neighbours, opts.k, samples), r.value.text)
    ensures r.Ok? && !opts.classification ==>
              r.value == Value(SumOutputs(neighbours[..opts.k], samples) / opts.k as real)
  {
    var ok, distances := ComputeDistances(samples, query, metric);
    if !ok {
      return Fail(ImproperFeatureCount), [];
    }
    ghost var all := PairDistances(samples, query, metric);
    SortDistances(distances);
    neighbours := distances[..];
    PermutationPaired(neighbours, all, |samples|);
    if opts.classification {
      var winner := FindClassification(distances, opts.k, samples);
      r := Ok(Label(winner));
    } else {
      var avg := RegressionAverage(distances, opts.k, samples);
      r := Ok(Value(avg));
    }
  }
}

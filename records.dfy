/** The records of src/knn.c: options_t, data_point_t, distance_t, and the
    prediction a query produces. */
module Records {
  import opened Basics

  /** options_t. `labelColumn`, `numColumns`, `k` and `numThreads` are size_t. */
  datatype Options = Options(
    classification: bool,
    regression: bool,
    hasHeader: bool,
    labelColumn: nat,
    numColumns: nat,
    k: nat,
    labelDefined: bool,
    filename: string,
    numThreads: nat)

  /** data_point_t. `labelText` is None where the C pointer is NULL. */
  datatype DataPoint = DataPoint(
    numFeatures: nat,
    features: seq<real>,
    outputFeature: real,
    labelText: Option<string>,
    labelIsDouble: bool)

  /** distance_t: the distance to a training point and which point it is
      (an index into the training samples instead of a pointer). */
  datatype Distance = Distance(distance: real, paired: nat)

  /** What the query loop prints for one query. */
  datatype Prediction = Label(text: string) | Value(value: real)
}

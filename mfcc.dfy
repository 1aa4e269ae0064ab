/** mfcc.go: sample normalisation and the row-major flattening of the feature
    rows that the MFCC library returns into a tensor backing slice. The MFCC
    computation itself (gomfcc's GetFeatureByMS) is a function parameter. */
module Mfcc {
  import opened GoNumeric

  /** A feature matrix as its sequence of rows, oldest window first. */
  type Matrix = seq<seq<real>>

  /** The MFCC extractor, configured from the listener's parameters: normalised
      audio to one row of cepstral coefficients per analysis window. */
  type FeatureFn = seq<real> -> Matrix

  /** int16Divider: a sample is scaled by 1/32768. */
  const Int16Divider: real := 1.0 / 32768.0

  /** Every row has `cols` entries. */
  predicate Rectangular(f: Matrix, cols: int) {
    forall i :: 0 <= i < |f| ==> |f[i]| == cols
  }

  /** The amplitudes int16ToFloatSlice produces: each sample divided by 32768. */
  function Normalize(input: seq<int16>): (r: seq<real>)
    ensures |r| == |input|
    ensures forall i :: 0 <= i < |input| ==> r[i] * 32768.0 == input[i] as real
  {
    seq(|input|, i requires 0 <= i < |input| => input[i] as real * Int16Divider)
  }

  /** Normalised amplitudes lie in [-1, 32767/32768]. */
  lemma NormalizeBounds(input: seq<int16>, i: int)
    requires 0 <= i < |input|
    ensures -1.0 <= Normalize(input)[i] <= 32767.0 / 32768.0
  {
    var x := Normalize(input)[i];
    assert x * 32768.0 == input[i] as real;
  }

  /** int16ToFloatSlice: fills a fresh slice of the same length. */
  method Int16ToFloatSlice(input: seq<int16>) returns (output: seq<real>)
    ensures output == Normalize(input)
  {
    var out := new real[|input|];
    for i := 0 to |input|
      invariant forall j :: 0 <= j < i ==> out[j] == input[j] as real * Int16Divider
    {
      out[i] := input[i] as real * Int16Divider;
    }
    output := out[..];
  }

  /** The rows laid end to end, first row first. */
  function Flatten(f: Matrix): (r: seq<real>)
    ensures |f| > 0 ==> f[0] <= r
  {
    if f == [] then [] else Flatten(f[..|f| - 1]) + f[|f| - 1]
  }

  /** In the flattening of a rectangular matrix entry (i, j) sits at i*cols + j. */
  lemma {:induction false} FlattenIndex(f: Matrix, cols: nat, i: int, j: int)
    requires Rectangular(f, cols)
    requires 0 <= i < |f| && 0 <= j < cols
    ensures |Flatten(f)| == |f| * cols
    ensures i * cols + j < |Flatten(f)| && Flatten(f)[i * cols + j] == f[i][j]
  {
    var init := f[..|f| - 1];
    assert Rectangular(init, cols);
    FlattenLength(init, cols);
    assert |Flatten(f)| == |f| * cols by {
      assert (|f| - 1) * cols + cols == |f| * cols;
    }
    IntMulMonotone(0, i, cols);
    IntMulMonotone(i + 1, |f|, cols);
    if i < |f| - 1 {
      FlattenIndex(init, cols, i, j);
      assert init[i] == f[i];
    } else {
      assert i * cols == |Flatten(init)|;
    }
  }

  lemma {:induction false} FlattenLength(f: Matrix, cols: nat)
    requires Rectangular(f, cols)
    ensures |Flatten(f)| == |f| * cols
  {
    if f != [] {
      var init := f[..|f| - 1];
      assert Rectangular(init, cols);
      FlattenLength(init, cols);
      assert (|f| - 1) * cols + cols == |f| * cols;
    }
  }

  /** A dense tensor of shape (rows, cols) over a row-major backing slice. */
  datatype Dense = Dense(rows: nat, cols: nat, backing: seq<real>)

  predicate WellShaped(d: Dense) {
    |d.backing| == d.rows * d.cols
  }

  /** Row i of a dense tensor is the i-th run of cols backing entries. */
  function Row(d: Dense, i: nat): (r: seq<real>)
    requires WellShaped(d) && i < d.rows
    ensures |r| == d.cols
  {
    IntMulMonotone(i + 1, d.rows, d.cols);
    d.backing[i * d.cols..(i + 1) * d.cols]
  }

  function Rows(d: Dense): (m: Matrix)
    requires WellShaped(d)
    ensures |m| == d.rows && Rectangular(m, d.cols)
  {
    seq(d.rows, i requires 0 <= i < d.rows => Row(d, i))
  }

  /** Reading the rows back out of a flattened rectangular matrix gives the matrix. */
  lemma RowsOfFlatten(f: Matrix, cols: nat)
    requires Rectangular(f, cols)
    ensures WellShaped(Dense(|f|, cols, Flatten(f)))
    ensures Rows(Dense(|f|, cols, Flatten(f))) == f
  {
    FlattenLength(f, cols);
    var d := Dense(|f|, cols, Flatten(f));
    forall i | 0 <= i < |f|
      ensures Row(d, i) == f[i]
    {
      RowOfFlatten(f, cols, i);
    }
  }

  lemma RowOfFlatten(f: Matrix, cols: nat, i: nat)
    requires Rectangular(f, cols) && i < |f|
    requires |Flatten(f)| == |f| * cols
    ensures Row(Dense(|f|, cols, Flatten(f)), i) == f[i]
  {
    var r := Row(Dense(|f|, cols, Flatten(f)), i);
    forall j | 0 <= j < cols
      ensures r[j] == f[i][j]
    {
      RowEntryOfFlatten(f, cols, i, j);
    }
  }

  lemma RowEntryOfFlatten(f: Matrix, cols: nat, i: nat, j: nat)
    requires Rectangular(f, cols) && i < |f| && j < cols
    requires |Flatten(f)| == |f| * cols
    ensures Row(Dense(|f|, cols, Flatten(f)), i)[j] == f[i][j]
  {
    var d := Dense(|f|, cols, Flatten(f));
    IntMulMonotone(0, i, cols);
    IntMulMonotone(i + 1, |f|, cols);
    assert Row(d, i)[j] == d.backing[i * cols + j];
    FlattenIndex(f, cols, i, j);
  }

  /** The nested loops of mfccSpec that copy the rows into a fresh backing slice,
      writing entry (i, index) at i*len(row) + index. */
  method FillBacking(features: Matrix, cols: nat) returns (backing: seq<real>)
    requires Rectangular(features, cols)
    ensures backing == Flatten(features)
  {
    var rows := |features|;
    var out := new real[rows * cols];
    ghost var base := 0;
    for i := 0 to rows
      invariant base == i * cols <= rows * cols
      invariant out[..base] == Flatten(features[..i])
    {
      RowSlot(i, rows, cols);
      FlattenStep(features, i);
      CopyRow(out, i * |features[i]|, features[i]);
      base := base + cols;
    }
    assert features[..rows] == features;
    backing := out[..];
  }

  /** Row i of a rows x cols backing slice starts at i*cols and ends inside it. */
  lemma RowSlot(i: nat, rows: nat, cols: nat)
    requires i < rows
    ensures i * cols + cols <= rows * cols && (i + 1) * cols == i * cols + cols
  {
    IntMulMonotone(i + 1, rows, cols);
  }

  lemma FlattenStep(f: Matrix, i: nat)
    requires i < |f|
    ensures Flatten(f[..i + 1]) == Flatten(f[..i]) + f[i]
  {
    assert f[..i + 1][..i] == f[..i];
  }

  /** The inner loop of mfccSpec: one row written from offset `start` on,
      leaving everything before it untouched. */
  method CopyRow(out: array<real>, start: nat, row: seq<real>)
    requires start + |row| <= out.Length
    modifies out
    ensures out[..start + |row|] == old(out[..start]) + row
    ensures out[start + |row|..] == old(out[start + |row|..])
  {
    ghost var prefix := out[..start];
    for index := 0 to |row|
      invariant out[..start + index] == prefix + row[..index]
      invariant out[start + |row|..] == old(out[start + |row|..])
    {
      out[start + index] := row[index];
      assert row[..index + 1] == row[..index] + [row[index]];
    }
    assert row[..|row|] == row;
  }

  /** mfccSpec: normalises the audio, asks the extractor for its feature rows and
      copies them row-major into a tensor of shape (rows, len(features[0])). The
      source reads features[0], so the extractor must return at least one row,
      and it indexes every row with that row's own width, so the rows must agree. */
  method MfccSpec(audio: seq<int16>, getFeatures: FeatureFn) returns (d: Dense)
    requires var f := getFeatures(Normalize(audio)); |f| > 0 && Rectangular(f, |f[0]|)
    ensures var f := getFeatures(Normalize(audio));
      && d.rows == |f| && d.cols == |f[0]| && WellShaped(d)
      && d.backing == Flatten(f) && Rows(d) == f
  {
    var samples := Int16ToFloatSlice(audio);
    var features := getFeatures(samples);
    var cols := |features[0]|;
    var backing := FillBacking(features, cols);
    d := Dense(|features|, cols, backing);
    RowsOfFlatten(features, cols);
  }
}

/** threshold.go: the calibration of a raw model score through an empirical
    cumulative distribution built from a Gaussian mixture. The Gaussian density
    (exp, sqrt, pow) and the inverse sigmoid (log) are function parameters. */
module Threshold {
  import opened GoNumeric

  /** One mixture component: a mean and a standard deviation. */
  datatype MuStd = MuStd(mu: real, std: real)

  /** The normal density at a point for a mean and a standard deviation. */
  type Gaussian = (real, real, real) -> real

  /** The inverse sigmoid (logit). */
  type Asigmoid = real -> real

  datatype ThresholdOptions = ThresholdOptions(minZ: real, maxZ: real, center: real, resolution: int)

  const DefaultThreshold: ThresholdOptions := ThresholdOptions(-4.0, 4.0, 0.5, 200)

  /** The decoder's state; nothing changes it after construction. */
  datatype ThresholdDecoder = ThresholdDecoder(
    options: ThresholdOptions, minOut: int, maxOut: int, outRange: int, cd: seq<real>)

  /** mu + z * std for one component. */
  function ZValue(c: MuStd, z: real): real {
    c.mu + z * c.std
  }

  predicate NonDecreasing(s: seq<real>) {
    forall i, j :: 0 <= i <= j < |s| ==> s[i] <= s[j]
  }

  // ---------------------------------------------------------------- mixture extremes

  /** MuStd.Calculate: one value per component. */
  method Calculate(m: seq<MuStd>, value: real) returns (out: seq<real>)
    ensures |out| == |m|
    ensures forall i :: 0 <= i < |m| ==> out[i] == ZValue(m[i], value)
  {
    var a := new real[|m|];
    for i := 0 to |m|
      invariant forall j :: 0 <= j < i ==> a[j] == ZValue(m[j], value)
    {
      a[i] := m[i].mu + value * m[i].std;
    }
    out := a[..];
  }

  /** The component with the least mu + z*std (the first such one). */
  function MinIndex(m: seq<MuStd>, z: real): (k: nat)
    requires |m| > 0
    ensures k < |m| && forall i :: 0 <= i < |m| ==> ZValue(m[k], z) <= ZValue(m[i], z)
  {
    if |m| == 1 then 0
    else
      var rest := MinIndex(m[..|m| - 1], z);
      if ZValue(m[|m| - 1], z) < ZValue(m[rest], z) then |m| - 1 else rest
  }

  /** The component with the greatest mu + z*std (the first such one). */
  function MaxIndex(m: seq<MuStd>, z: real): (k: nat)
    requires |m| > 0
    ensures k < |m| && forall i :: 0 <= i < |m| ==> ZValue(m[i], z) <= ZValue(m[k], z)
  {
    if |m| == 1 then 0
    else
      var rest := MaxIndex(m[..|m| - 1], z);
      if ZValue(m[|m| - 1], z) > ZValue(m[rest], z) then |m| - 1 else rest
  }

  /** The least value Calculate(z) yields. */
  function MixtureMin(m: seq<MuStd>, z: real): (r: real)
    requires |m| > 0
    ensures forall i :: 0 <= i < |m| ==> r <= ZValue(m[i], z)
    ensures exists i :: 0 <= i < |m| && r == ZValue(m[i], z)
  {
    ZValue(m[MinIndex(m, z)], z)
  }

  /** The greatest value Calculate(z) yields. */
  function MixtureMax(m: seq<MuStd>, z: real): (r: real)
    requires |m| > 0
    ensures forall i :: 0 <= i < |m| ==> ZValue(m[i], z) <= r
    ensures exists i :: 0 <= i < |m| && r == ZValue(m[i], z)
  {
    ZValue(m[MaxIndex(m, z)], z)
  }

  /** MuStd.Min: the source sorts the calculated values ascending and takes the
      first; this scans for it. An empty mixture makes the source index out of
      range, hence the precondition. */
  method Min(m: seq<MuStd>, minZ: real) returns (v: real)
    requires |m| > 0
    ensures v == MixtureMin(m, minZ)
    ensures forall i :: 0 <= i < |m| ==> v <= m[i].mu + minZ * m[i].std
  {
    var vals := Calculate(m, minZ);
    v := vals[0];
    ghost var w := 0;
    for i := 1 to |vals|
      invariant 0 <= w < i && v == vals[w]
      invariant forall j :: 0 <= j < i ==> v <= vals[j]
    {
      if vals[i] < v {
        v := vals[i];
        w := i;
      }
    }
    ScanFindsMinimum(m, minZ, vals, w);
  }

  lemma ScanFindsMinimum(m: seq<MuStd>, z: real, vals: seq<real>, w: nat)
    requires |vals| == |m| && w < |m|
    requires forall i :: 0 <= i < |m| ==> vals[i] == ZValue(m[i], z)
    requires forall j :: 0 <= j < |m| ==> vals[w] <= vals[j]
    ensures vals[w] == MixtureMin(m, z)
  {
    assert vals[w] <= vals[MinIndex(m, z)];
  }

  /** MuStd.Max: the source sorts descending and takes the first. */
  method Max(m: seq<MuStd>, maxZ: real) returns (v: real)
    requires |m| > 0
    ensures v == MixtureMax(m, maxZ)
    ensures forall i :: 0 <= i < |m| ==> m[i].mu + maxZ * m[i].std <= v
  {
    var vals := Calculate(m, maxZ);
    v := vals[0];
    ghost var w := 0;
    for i := 1 to |vals|
      invariant 0 <= w < i && v == vals[w]
      invariant forall j :: 0 <= j < i ==> vals[j] <= v
    {
      if vals[i] > v {
        v := vals[i];
        w := i;
      }
    }
    ScanFindsMaximum(m, maxZ, vals, w);
  }

  lemma ScanFindsMaximum(m: seq<MuStd>, z: real, vals: seq<real>, w: nat)
    requires |vals| == |m| && w < |m|
    requires forall i :: 0 <= i < |m| ==> vals[i] == ZValue(m[i], z)
    requires forall j :: 0 <= j < |m| ==> vals[j] <= vals[w]
    ensures vals[w] == MixtureMax(m, z)
  {
    assert vals[MaxIndex(m, z)] <= vals[w];
  }

  /** With non-negative deviations and minZ <= maxZ the extremes are ordered, so
      the decoder's output range is never negative. */
  lemma ExtremesOrdered(m: seq<MuStd>, minZ: real, maxZ: real)
    requires |m| > 0 && minZ <= maxZ
    requires forall i :: 0 <= i < |m| ==> m[i].std >= 0.0
    ensures MixtureMin(m, minZ) <= MixtureMax(m, maxZ)
    ensures Trunc(MixtureMin(m, minZ)) <= Trunc(MixtureMax(m, maxZ))
  {
    var k := MinIndex(m, minZ);
    assert ZValue(m[k], minZ) <= ZValue(m[k], maxZ) by {
      assert (maxZ - minZ) * m[k].std >= 0.0;
    }
    TruncMonotone(MixtureMin(m, minZ), MixtureMax(m, maxZ));
  }

  // ---------------------------------------------------------------- LinSpace

  /** The spacing of num evenly spaced points from start to stop. */
  function Spacing(start: real, stop: real, num: int): real {
    if num <= 1 then 0.0 else (stop - start) / (num - 1) as real
  }

  /** The points LinSpace produces. */
  function LinSpaced(start: real, stop: real, num: int): (r: seq<real>)
    ensures |r| == if num <= 0 then 0 else num
    ensures num >= 1 ==> r[0] == start
    ensures num >= 2 ==> r[num - 1] == stop
  {
    if num <= 0 then []
    else if num == 1 then [start]
    else seq(num, i requires 0 <= i < num =>
           if i == num - 1 then stop else start + i as real * Spacing(start, stop, num))
  }

  /** The points are evenly spaced: point i is start + i*step, the last one included. */
  lemma LinSpacedEven(start: real, stop: real, num: int, i: int)
    requires 0 <= i < num
    ensures LinSpaced(start, stop, num)[i] == start + i as real * Spacing(start, stop, num)
  {
    if num >= 2 && i == num - 1 {
      var n := (num - 1) as real;
      assert n * ((stop - start) / n) == stop - start;
    }
  }

  /** From start <= stop the points rise and stay in [start, stop]. */
  lemma LinSpacedWithin(start: real, stop: real, num: int, i: int)
    requires start <= stop && 0 <= i < num
    ensures start <= LinSpaced(start, stop, num)[i] <= stop
  {
    LinSpacedEven(start, stop, num, i);
    if num >= 2 {
      var n := (num - 1) as real;
      var step := (stop - start) / n;
      assert step >= 0.0;
      assert i as real * step <= n * step;
      assert n * step == stop - start;
    }
  }

  /** LinSpace: num <= 0 gives no points, num == 1 gives [start]; otherwise the
      loop fills start + i*step and the last slot is set to stop. */
  method LinSpace(start: real, stop: real, num: int) returns (res: seq<real>)
    ensures res == LinSpaced(start, stop, num)
  {
    if num <= 0 {
      return [];
    }
    if num == 1 {
      return [start];
    }
    var step := (stop - start) / (num - 1) as real;
    var resFloats := new real[num];
    resFloats[0] := start;
    for i := 1 to num
      invariant resFloats[0] == start
      invariant forall j :: 1 <= j < i ==> resFloats[j] == start + j as real * step
    {
      resFloats[i] := start + i as real * step;
    }
    resFloats[num - 1] := stop;
    res := resFloats[..];
    assert step == Spacing(start, stop, num);
    assert forall j :: 0 <= j < num ==> res[j] == LinSpaced(start, stop, num)[j];
  }

  // ---------------------------------------------------------------- densities and table

  /** One component's density at x; pdf returns zeros for a zero deviation. */
  function ComponentDensity(c: MuStd, x: real, gauss: Gaussian): real {
    if c.std == 0.0 then 0.0 else gauss(x, c.mu, c.std)
  }

  /** pdf: the density of one component at every point. */
  function Pdf(points: seq<real>, mu: real, std: real, gauss: Gaussian): (r: seq<real>)
    ensures |r| == |points|
    ensures std == 0.0 ==> forall k :: 0 <= k < |r| ==> r[k] == 0.0
  {
    seq(|points|, k requires 0 <= k < |points| => ComponentDensity(MuStd(mu, std), points[k], gauss))
  }

  /** The column sum that data.Sum(0) takes over the per-component pdf rows. */
  function MixtureDensity(m: seq<MuStd>, x: real, gauss: Gaussian): (r: real)
    ensures (forall i :: 0 <= i < |m| ==> m[i].std == 0.0) ==> r == 0.0
  {
    if m == [] then 0.0
    else MixtureDensity(m[..|m| - 1], x, gauss) + ComponentDensity(m[|m| - 1], x, gauss)
  }

  /** The points calcPd evaluates the mixture at: Resolution per unit of
      range, from MinOut to MaxOut. */
  function Points(minOut: int, maxOut: int, options: ThresholdOptions): (r: seq<real>)
    ensures |r| == if options.resolution * (maxOut - minOut) <= 0 then 0 else options.resolution * (maxOut - minOut)
    ensures |r| >= 1 ==> r[0] == minOut as real
    ensures |r| >= 2 ==> r[|r| - 1] == maxOut as real
  {
    LinSpaced(minOut as real, maxOut as real, options.resolution * (maxOut - minOut))
  }

  /** calcPd: the summed component densities at each point, divided by
      Resolution * len(muStds). */
  function CalcPd(m: seq<MuStd>, minOut: int, maxOut: int, options: ThresholdOptions, gauss: Gaussian): (r: seq<real>)
    requires |m| > 0
    ensures |r| == |Points(minOut, maxOut, options)|
    ensures forall k :: 0 <= k < |r| ==>
      r[k] * (options.resolution * |m|) as real == MixtureDensity(m, Points(minOut, maxOut, options)[k], gauss)
  {
    var points := Points(minOut, maxOut, options);
    var divisor := (options.resolution * |m|) as real;
    assert |points| > 0 ==> options.resolution != 0;
    seq(|points|, k requires 0 <= k < |points| => MixtureDensity(m, points[k], gauss) / divisor)
  }

  lemma {:induction false} MixtureDensityNonNegative(m: seq<MuStd>, x: real, gauss: Gaussian)
    requires forall y, mu, std :: gauss(y, mu, std) >= 0.0
    ensures MixtureDensity(m, x, gauss) >= 0.0
  {
    if m != [] {
      MixtureDensityNonNegative(m[..|m| - 1], x, gauss);
    }
  }

  /** With a non-negative density and a positive resolution every table density is >= 0. */
  lemma CalcPdNonNegative(m: seq<MuStd>, minOut: int, maxOut: int, options: ThresholdOptions, gauss: Gaussian)
    requires |m| > 0 && options.resolution > 0
    requires forall y, mu, std :: gauss(y, mu, std) >= 0.0
    ensures forall k :: 0 <= k < |CalcPd(m, minOut, maxOut, options, gauss)| ==>
      CalcPd(m, minOut, maxOut, options, gauss)[k] >= 0.0
  {
    var r := CalcPd(m, minOut, maxOut, options, gauss);
    var divisor := (options.resolution * |m|) as real;
    assert divisor > 0.0;
    forall k | 0 <= k < |r|
      ensures r[k] >= 0.0
    {
      MixtureDensityNonNegative(m, Points(minOut, maxOut, options)[k], gauss);
      assert r[k] * divisor >= 0.0;
    }
  }

  function Sum(s: seq<real>): real {
    if s == [] then 0.0 else Sum(s[..|s| - 1]) + s[|s| - 1]
  }

  /** The running sum the Apply closure in NewThresholdDecoder accumulates. */
  function Cumulative(s: seq<real>): (r: seq<real>)
    ensures |r| == |s|
    ensures |s| > 0 ==> r[0] == s[0]
    ensures forall k :: 0 < k < |s| ==> r[k] == r[k - 1] + s[k]
  {
    assert forall k :: 0 < k < |s| ==> s[..k + 1][..k] == s[..k];
    assert |s| > 0 ==> s[..1][..0] == [] && Sum(s[..1]) == s[0];
    seq(|s|, k requires 0 <= k < |s| => Sum(s[..k + 1]))
  }

  /** The running sum of non-negative densities never decreases. */
  lemma CumulativeNonDecreasing(s: seq<real>)
    requires forall k :: 0 <= k < |s| ==> s[k] >= 0.0
    ensures NonDecreasing(Cumulative(s))
  {
    var c := Cumulative(s);
    forall i, j | 0 <= i <= j < |s|
      ensures c[i] <= c[j]
    {
      CumulativeRises(s, i, j);
    }
  }

  lemma {:induction false} CumulativeRises(s: seq<real>, i: int, j: int)
    requires forall k :: 0 <= k < |s| ==> s[k] >= 0.0
    requires 0 <= i <= j < |s|
    ensures Cumulative(s)[i] <= Cumulative(s)[j]
  {
    if i < j {
      CumulativeRises(s, i, j - 1);
    }
  }

  /** The state NewThresholdDecoder builds from a mixture and options. */
  ghost predicate BuiltFrom(td: ThresholdDecoder, m: seq<MuStd>, options: ThresholdOptions, gauss: Gaussian) {
    && |m| > 0
    && td.options == options
    && td.minOut == Trunc(MixtureMin(m, options.minZ))
    && td.maxOut == Trunc(MixtureMax(m, options.maxZ))
    && td.outRange == td.maxOut - td.minOut
    && td.cd == Cumulative(CalcPd(m, td.minOut, td.maxOut, options, gauss))
  }

  /** NewThresholdDecoder: MinOut and MaxOut are Go int() truncations of the
      mixture extremes, and the table is the running sum of calcPd. */
  method NewThresholdDecoder(muStds: seq<MuStd>, options: ThresholdOptions, gauss: Gaussian)
      returns (td: ThresholdDecoder)
    requires |muStds| > 0
    ensures BuiltFrom(td, muStds, options, gauss)
    ensures |td.cd| == |Points(td.minOut, td.maxOut, options)|
  {
    var lo := Min(muStds, options.minZ);
    var hi := Max(muStds, options.maxZ);
    var min, max := Trunc(lo), Trunc(hi);
    var pd := CalcPd(muStds, min, max, options, gauss);
    var cd := Accumulate(pd);
    td := ThresholdDecoder(options, min, max, max - min, cd);
  }

  /** The Apply closure of NewThresholdDecoder: each entry is replaced by the
      running total `cumulative` up to and including it. */
  method Accumulate(pd: seq<real>) returns (cd: seq<real>)
    ensures cd == Cumulative(pd)
  {
    var out := new real[|pd|];
    var cumulative := 0.0;
    for k := 0 to |pd|
      invariant cumulative == if k == 0 then 0.0 else out[k - 1]
      invariant forall j :: 0 <= j < k ==> out[j] == Cumulative(pd)[j]
    {
      assert Cumulative(pd)[k] == if k == 0 then pd[0] else Cumulative(pd)[k - 1] + pd[k];
      cumulative := cumulative + pd[k];
      out[k] := cumulative;
    }
    cd := out[..];
  }

  /** A decoder whose sensible configuration (non-negative deviations, MinZ <=
      MaxZ, a positive resolution) has a non-negative range, and a table with
      Resolution * OutRange entries. */
  lemma BuiltDecoderShape(td: ThresholdDecoder, m: seq<MuStd>, options: ThresholdOptions, gauss: Gaussian)
    requires BuiltFrom(td, m, options, gauss)
    requires options.minZ <= options.maxZ && options.resolution > 0
    requires forall i :: 0 <= i < |m| ==> m[i].std >= 0.0
    ensures td.outRange >= 0
    ensures |td.cd| == options.resolution * td.outRange
    ensures td.outRange == 0 || |td.cd| > 0
  {
    ExtremesOrdered(m, options.minZ, options.maxZ);
    assert options.resolution * td.outRange >= 0;
  }

  /** With a non-negative density the table never decreases. */
  lemma BuiltTableNonDecreasing(td: ThresholdDecoder, m: seq<MuStd>, options: ThresholdOptions, gauss: Gaussian)
    requires BuiltFrom(td, m, options, gauss) && options.resolution > 0
    requires forall y, mu, std :: gauss(y, mu, std) >= 0.0
    ensures NonDecreasing(td.cd)
  {
    CalcPdNonNegative(m, td.minOut, td.maxOut, options, gauss);
    CumulativeNonDecreasing(CalcPd(m, td.minOut, td.maxOut, options, gauss));
  }

  /** With a non-negative density every table entry is >= 0. */
  lemma BuiltTableNonNegative(td: ThresholdDecoder, m: seq<MuStd>, options: ThresholdOptions, gauss: Gaussian)
    requires BuiltFrom(td, m, options, gauss) && options.resolution > 0
    requires forall y, mu, std :: gauss(y, mu, std) >= 0.0
    ensures forall k :: 0 <= k < |td.cd| ==> td.cd[k] >= 0.0
  {
    var pd := CalcPd(m, td.minOut, td.maxOut, options, gauss);
    CalcPdNonNegative(m, td.minOut, td.maxOut, options, gauss);
    BuiltTableNonDecreasing(td, m, options, gauss);
    forall k | 0 <= k < |td.cd|
      ensures td.cd[k] >= 0.0
    {
      assert td.cd[0] == pd[0] >= 0.0;
      assert td.cd[0] <= td.cd[k];
    }
  }

  // ---------------------------------------------------------------- Decode

  /** math.Min(math.Max(ratio, 0), 1). */
  function Clamp01(x: real): (r: real)
    ensures 0.0 <= r <= 1.0
    ensures 0.0 <= x <= 1.0 ==> r == x
    ensures x < 0.0 ==> r == 0.0
    ensures x > 1.0 ==> r == 1.0
  {
    if x < 0.0 then 0.0 else if x > 1.0 then 1.0 else x
  }

  /** int(ratio * (size - 1) + 0.5): the nearest table slot, always in range. */
  function LookupIndex(ratio: real, size: int): (k: int)
    requires 0.0 <= ratio <= 1.0 && size >= 1
    ensures 0 <= k < size
    ensures k as real - 0.5 <= ratio * (size - 1) as real < k as real + 0.5
  {
    NearestSlot(ratio, size);
    Trunc(ratio * (size - 1) as real + 0.5)
  }

  lemma NearestSlot(ratio: real, size: int)
    requires 0.0 <= ratio <= 1.0 && size >= 1
    ensures 0 <= Trunc(ratio * (size - 1) as real + 0.5) < size
    ensures Trunc(ratio * (size - 1) as real + 0.5) as real - 0.5 <= ratio * (size - 1) as real
    ensures ratio * (size - 1) as real < Trunc(ratio * (size - 1) as real + 0.5) as real + 0.5
  {
    var n := (size - 1) as real;
    var x := ratio * n;
    ScaleWithin(ratio, n);
    assert 0.0 <= x <= n;
    var k := Trunc(x + 0.5);
    assert k as real <= x + 0.5 < k as real + 1.0;
    assert k as real < size as real;
  }

  lemma ScaleWithin(r: real, n: real)
    requires 0.0 <= r <= 1.0 && n >= 0.0
    ensures 0.0 <= r * n <= n
  {
    MulNonNegative(r, n);
    MulNonNegative(1.0 - r, n);
    assert (1.0 - r) * n == n - r * n;
  }

  lemma LookupIndexMonotone(x: real, y: real, size: int)
    requires 0.0 <= x <= y <= 1.0 && size >= 1
    ensures LookupIndex(x, size) <= LookupIndex(y, size)
  {
    var n := (size - 1) as real;
    MulNonNegative(y - x, n);
    assert (y - x) * n == y * n - x * n;
    TruncMonotone(x * (size - 1) as real + 0.5, y * (size - 1) as real + 0.5);
  }

  /** The table can be read: a non-empty table whenever the range is non-zero. */
  predicate TableReadable(td: ThresholdDecoder) {
    td.outRange == 0 || |td.cd| > 0
  }

  /** A decoder that decodes every score without dividing by zero: the table
      can be read, Center is not 1 (cp can be 1), and a Center of 0 comes
      with a table of non-negative entries, so that cp < Center never holds. */
  predicate DecoderReady(td: ThresholdDecoder) {
    && TableReadable(td)
    && td.options.center != 1.0
    && (td.options.center == 0.0 ==> forall k :: 0 <= k < |td.cd| ==> td.cd[k] >= 0.0)
  }

  /** The cumulative probability cp Decode looks up for a score. */
  function Probability(td: ThresholdDecoder, rawOutput: real, asigmoid: Asigmoid): (cp: real)
    requires TableReadable(td)
    ensures td.outRange == 0 ==> (cp == 1.0 <==> rawOutput > td.minOut as real) && (cp == 0.0 || cp == 1.0)
    ensures td.outRange != 0 ==> exists k :: 0 <= k < |td.cd| && cp == td.cd[k]
  {
    if td.outRange == 0 then
      if rawOutput > td.minOut as real then 1.0 else 0.0
    else
      var ratio := Clamp01((asigmoid(rawOutput) - td.minOut as real) / td.outRange as real);
      td.cd[LookupIndex(ratio, |td.cd|)]
  }

  /** The branch Recenter takes for cp divides by a non-zero value. */
  predicate RecenterDefined(cp: real, center: real) {
    (cp < center ==> center != 0.0) && (cp >= center ==> center != 1.0)
  }

  /** The final re-centering: each side of Center is scaled linearly onto one half of [0, 1]. */
  function Recenter(cp: real, center: real): (r: real)
    requires RecenterDefined(cp, center)
    ensures 0.0 < center < 1.0 ==> (r < 0.5 <==> cp < center)
  {
    if cp < center then
      if center > 0.0 then BelowHalf(cp, center); 0.5 * cp / center else 0.5 * cp / center
    else
      if center < 1.0 then DivFacts(0.5 * (cp - center), 1.0 - center); 0.5 + 0.5 * (cp - center) / (1.0 - center)
      else 0.5 + 0.5 * (cp - center) / (1.0 - center)
  }

  /** Center maps to 0.5 and nothing else does; [0, 1] maps into [0, 1] with both ends fixed. */
  lemma RecenterProperties(cp: real, center: real)
    requires 0.0 < center < 1.0
    ensures Recenter(cp, center) == 0.5 <==> cp == center
    ensures 0.0 <= cp <= 1.0 ==> 0.0 <= Recenter(cp, center) <= 1.0
    ensures cp == 0.0 ==> Recenter(cp, center) == 0.0
    ensures cp == 1.0 ==> Recenter(cp, center) == 1.0
  {
    if cp < center {
      BelowHalf(cp, center);
      DivFacts(0.5 * cp, center);
    } else {
      var d := 1.0 - center;
      DivFacts(cp - center, d);
      ScaledQuotient(0.5, cp - center, d);
    }
  }

  lemma RecenterMonotone(x: real, y: real, center: real)
    requires 0.0 < center < 1.0 && x <= y
    ensures Recenter(x, center) <= Recenter(y, center)
  {
    if y < center {
      DivMonotone(0.5 * x, 0.5 * y, center);
    } else if x >= center {
      DivMonotone(0.5 * (x - center), 0.5 * (y - center), 1.0 - center);
    } else {
      BelowHalf(x, center);
      DivFacts(0.5 * (y - center), 1.0 - center);
    }
  }

  lemma BelowHalf(x: real, center: real)
    requires 0.0 < center && x < center
    ensures 0.5 * x / center < 0.5
  {
    var q := 0.5 * x / center;
    DivFacts(0.5 * x, center);
    assert q * center == 0.5 * x < 0.5 * center;
    assert (q - 0.5) * center == q * center - 0.5 * center;
    if q >= 0.5 {
      MulNonNegative(q - 0.5, center);
      assert false;
    }
  }

  /** ThresholdDecoder.Decode. */
  function Decode(td: ThresholdDecoder, rawOutput: real, asigmoid: Asigmoid): (r: real)
    requires rawOutput == 0.0 || rawOutput == 1.0 || DecoderReady(td) ||
      (TableReadable(td) && RecenterDefined(Probability(td, rawOutput, asigmoid), td.options.center))
    ensures rawOutput == 0.0 ==> r == 0.0
    ensures rawOutput == 1.0 ==> r == 1.0
  {
    if rawOutput == 1.0 || rawOutput == 0.0 then rawOutput
    else
      ReadyDecodesAll(td, rawOutput, asigmoid);
      Recenter(Probability(td, rawOutput, asigmoid), td.options.center)
  }

  /** A ready decoder decodes every score: whatever cp the table gives, the
      branch of the re-centering it takes divides by a non-zero value. */
  lemma ReadyDecodesAll(td: ThresholdDecoder, rawOutput: real, asigmoid: Asigmoid)
    ensures DecoderReady(td) ==>
      TableReadable(td) && RecenterDefined(Probability(td, rawOutput, asigmoid), td.options.center)
  {
  }

  /** A single-point support: the output is exactly 1 above MinOut and 0 otherwise. */
  lemma DecodeDegenerateRange(td: ThresholdDecoder, rawOutput: real, asigmoid: Asigmoid)
    requires DecoderReady(td) && td.outRange == 0 && 0.0 < td.options.center < 1.0
    requires rawOutput != 0.0 && rawOutput != 1.0
    ensures Decode(td, rawOutput, asigmoid) == if rawOutput > td.minOut as real then 1.0 else 0.0
  {
    RecenterProperties(Probability(td, rawOutput, asigmoid), td.options.center);
  }

  predicate Unit(x: real) {
    0.0 <= x <= 1.0
  }

  /** The output is in [0, 1] whenever the table entries are. */
  lemma DecodeInUnitInterval(td: ThresholdDecoder, rawOutput: real, asigmoid: Asigmoid)
    requires DecoderReady(td) && 0.0 < td.options.center < 1.0
    requires forall k :: 0 <= k < |td.cd| ==> Unit(td.cd[k])
    ensures Unit(Decode(td, rawOutput, asigmoid))
  {
    RecenterProperties(Probability(td, rawOutput, asigmoid), td.options.center);
  }

  /** Decode is non-decreasing on [0, 1] for a monotone logit and a
      non-decreasing table with entries in [0, 1]. */
  lemma DecodeMonotone(td: ThresholdDecoder, x: real, y: real, asigmoid: Asigmoid)
    requires DecoderReady(td) && 0.0 < td.options.center < 1.0 && td.outRange >= 0
    requires NonDecreasing(td.cd) && forall k :: 0 <= k < |td.cd| ==> Unit(td.cd[k])
    requires forall a, b :: 0.0 < a <= b < 1.0 ==> asigmoid(a) <= asigmoid(b)
    requires 0.0 <= x <= y <= 1.0
    ensures Decode(td, x, asigmoid) <= Decode(td, y, asigmoid)
  {
    DecodeInUnitInterval(td, x, asigmoid);
    DecodeInUnitInterval(td, y, asigmoid);
    if 0.0 < x && y < 1.0 {
      ProbabilityMonotone(td, x, y, asigmoid);
      RecenterMonotone(Probability(td, x, asigmoid), Probability(td, y, asigmoid), td.options.center);
    }
  }

  lemma ProbabilityMonotone(td: ThresholdDecoder, x: real, y: real, asigmoid: Asigmoid)
    requires DecoderReady(td) && td.outRange >= 0 && NonDecreasing(td.cd)
    requires forall a, b :: 0.0 < a <= b < 1.0 ==> asigmoid(a) <= asigmoid(b)
    requires 0.0 < x <= y < 1.0
    ensures Probability(td, x, asigmoid) <= Probability(td, y, asigmoid)
  {
    if td.outRange > 0 {
      var lo, span := td.minOut as real, td.outRange as real;
      assert asigmoid(x) <= asigmoid(y);
      DivMonotone(asigmoid(x) - lo, asigmoid(y) - lo, span);
      var rx := Clamp01((asigmoid(x) - lo) / span);
      var ry := Clamp01((asigmoid(y) - lo) / span);
      assert rx <= ry;
      LookupIndexMonotone(rx, ry, |td.cd|);
    }
  }
}

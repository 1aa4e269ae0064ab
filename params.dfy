/** params.go: the model's audio parameters and the sample counts derived
    from them. float32 products are modelled as exact reals. */
module Parameters {
  import opened GoNumeric
  import opened Threshold

  datatype Params = Params(
    windowT: real,
    hopT: real,
    bufferT: real,
    sampleRate: int,
    sampleDepth: int,
    nMfcc: int,
    nFilt: int,
    nFft: int,
    useDelta: bool,
    thresholdConfig: seq<MuStd>,
    thresholdCenter: real)

  /** NewParams: the defaults of a Precise model; UseDelta keeps Go's zero value. */
  function NewParams(): (p: Params)
    ensures 0 < HopSamples(p) <= WindowSamples(p) <= BufferSamples(p)
    ensures NFeatures(p) >= 1 && p.nMfcc >= 1
    ensures |p.thresholdConfig| > 0 && forall i :: 0 <= i < |p.thresholdConfig| ==> p.thresholdConfig[i].std >= 0.0
    ensures 0.0 < p.thresholdCenter < 1.0
  {
    var p := Params(0.1, 0.05, 1.5, 16000, 2, 13, 20, 512, false, [MuStd(6.0, 4.0)], 0.2);
    DefaultCounts(p);
    p
  }

  /** The counts the default parameters give. */
  lemma DefaultCounts(p: Params)
    requires p == Params(0.1, 0.05, 1.5, 16000, 2, 13, 20, 512, false, [MuStd(6.0, 4.0)], 0.2)
    ensures WindowSamples(p) == 1600 && HopSamples(p) == 800
    ensures BufferSamples(p) == 24000 && NFeatures(p) == 29
  {
    assert WindowSamples(p) == Trunc(1600.5) == 1600;
    assert HopSamples(p) == Trunc(800.5) == 800;
    assert SampleCount(p.sampleRate, p.bufferT) == Trunc(24000.5) == 24000;
    assert Quot(24000, 800) == 30;
    assert (22400 as real / 800 as real).Floor == 28;
  }

  /** int(rate * t + 0.5): a duration in seconds as a count of samples,
      rounded half up for non-negative products and toward zero after the
      shift otherwise. */
  function SampleCount(rate: int, t: real): (r: int)
    ensures rate as real * t >= -0.5 ==> r as real <= rate as real * t + 0.5 < r as real + 1.0
    ensures rate as real * t < -0.5 ==> r as real - 1.0 < rate as real * t + 0.5 <= r as real
    ensures rate as real * t >= -0.5 ==> r >= 0
  {
    Trunc(rate as real * t + 0.5)
  }

  /** The window length in samples: rate * WindowT rounded to the nearest count. */
  function WindowSamples(p: Params): (r: int)
    ensures p.sampleRate as real * p.windowT >= 0.0 ==>
      r >= 0 && r as real - 0.5 <= p.sampleRate as real * p.windowT < r as real + 0.5
  {
    SampleCount(p.sampleRate, p.windowT)
  }

  /** The hop length in samples: rate * HopT rounded to the nearest count. */
  function HopSamples(p: Params): (r: int)
    ensures p.sampleRate as real * p.hopT >= 0.0 ==>
      r >= 0 && r as real - 0.5 <= p.sampleRate as real * p.hopT < r as real + 0.5
  {
    SampleCount(p.sampleRate, p.hopT)
  }

  /** BufferSamples: the buffer length cut to a whole number of hops; Go's
      integer division truncates toward zero. A zero hop is a division by
      zero in Go. */
  function BufferSamples(p: Params): (r: int)
    requires HopSamples(p) != 0
    ensures HopSamples(p) > 0 ==> r % HopSamples(p) == 0
    ensures HopSamples(p) > 0 && SampleCount(p.sampleRate, p.bufferT) >= 0 ==>
      0 <= r <= SampleCount(p.sampleRate, p.bufferT) < r + HopSamples(p)
  {
    var samples := SampleCount(p.sampleRate, p.bufferT);
    var hop := HopSamples(p);
    BufferSamplesFacts(samples, hop);
    hop * Quot(samples, hop)
  }

  lemma BufferSamplesFacts(samples: int, hop: int)
    requires hop != 0
    ensures hop > 0 ==> (hop * Quot(samples, hop)) % hop == 0
    ensures hop > 0 && samples >= 0 ==> 0 <= hop * Quot(samples, hop) <= samples < hop * Quot(samples, hop) + hop
  {
    var q := Quot(samples, hop);
    if hop > 0 {
      MultipleMod(q, hop);
      assert hop * q == q * hop;
    }
    if hop > 0 && samples >= 0 {
      assert samples - q * hop >= 0;
      if q < 0 {
        IntMulMonotone(q, -1, hop);
        assert false;
      }
    }
  }

  lemma MultipleMod(k: int, m: int)
    requires m > 0
    ensures (k * m) % m == 0
  {
    var r := (k * m) % m;
    var d := (k * m) / m;
    assert (k - d) * m == r by {
      assert k * m == d * m + r;
    }
    if k - d >= 1 {
      IntMulMonotone(1, k - d, m);
      assert false;
    } else if k - d <= -1 {
      IntMulMonotone(k - d, -1, m);
      assert false;
    }
  }

  /** NFeatures: how many hop-spaced windows fit in the buffer,
      1 + floor((buffer - window) / hop). */
  function NFeatures(p: Params): (r: int)
    requires HopSamples(p) != 0
    ensures HopSamples(p) > 0 ==>
      (r - 1) * HopSamples(p) <= BufferSamples(p) - WindowSamples(p) < r * HopSamples(p)
  {
    var hop := HopSamples(p);
    var span := BufferSamples(p) - WindowSamples(p);
    var q := (span as real / hop as real).Floor;
    FloorQuotient(span, hop);
    1 + q
  }

  /** For a positive divisor the float64 floor of a / b is the integer quotient. */
  lemma FloorQuotient(a: int, b: int)
    requires b != 0
    ensures b > 0 ==> (a as real / b as real).Floor == a / b
    ensures b > 0 ==> (a / b) * b <= a < (a / b + 1) * b
  {
    if b > 0 {
      var d, m := a / b, a % b;
      assert a == d * b + m && 0 <= m < b;
      var x := a as real / b as real;
      assert x * b as real == a as real;
      var y := d as real + m as real / b as real;
      assert y * b as real == d as real * b as real + m as real;
      assert y == x;
      assert m as real / b as real < 1.0;
      assert 0.0 <= m as real / b as real;
      assert (d + 1) * b == d * b + b;
    }
  }

  /** The derived counts for the default parameters: windows of 1600
      samples every 800 samples over a 24000-sample buffer, 29 windows. */
  lemma DefaultDerivedCounts()
    ensures WindowSamples(NewParams()) == 1600
    ensures HopSamples(NewParams()) == 800
    ensures BufferSamples(NewParams()) == 24000
    ensures NFeatures(NewParams()) == 29
    ensures NewParams().thresholdConfig == [MuStd(6.0, 4.0)] && NewParams().thresholdCenter == 0.2
    ensures !NewParams().useDelta
  {
    DefaultCounts(NewParams());
  }
}

/** listener.go: the listener keeps the audio not yet turned into features and
    a fixed-height sliding window of MFCC rows, runs the model on the window
    and calibrates the model's score with the threshold decoder. The model
    backend and the feature extractor are function values. */
module FeatureWindow {
  import opened GoNumeric
  import opened Outcomes
  import opened Mfcc
  import opened Threshold
  import opened Parameters

  /** A model backend (the Model interface): the result of Predict on a
      feature window, and the result of Close. */
  datatype Model = Model(predict: Matrix -> Result<real>, closeResult: Option<Error>)

  /** The listener's mutable buffers: pending audio and the feature window. */
  datatype Buffers = Buffers(windowAudio: seq<int16>, mfccs: Matrix)

  /** The listener's fixed parts, with the feature extractor (gomfcc with the
      parameters' NMFCC, NFilt, WindowT and HopT) and the logit used by Decode. */
  datatype Setup = Setup(params: Params, decoder: ThresholdDecoder, getFeatures: FeatureFn, asigmoid: Asigmoid)

  /** What updateVectors relies on from the extractor for any audio of at
      least one window: at least one row (it reads row 0), no more rows than
      hops fit in the audio (it drops rows * hop samples), and rows of NMFCC
      values (the window is concatenated with them). */
  ghost predicate ExtractorOk(gf: FeatureFn, window: int, hop: int, cols: int) {
    forall s: seq<real> :: |s| >= window ==> 1 <= |gf(s)| && |gf(s)| * hop <= |s| && Rectangular(gf(s), cols)
  }

  ghost predicate SetupOk(u: Setup) {
    && HopSamples(u.params) > 0
    && NFeatures(u.params) >= 0
    && u.params.nMfcc >= 0
    && ExtractorOk(u.getFeatures, WindowSamples(u.params), HopSamples(u.params), u.params.nMfcc)
    && DecoderReady(u.decoder)
  }

  /** The window always has NFeatures rows of NMFCC values. */
  ghost predicate BuffersOk(u: Setup, b: Buffers)
    requires HopSamples(u.params) != 0
  {
    |b.mfccs| == NFeatures(u.params) && Rectangular(b.mfccs, u.params.nMfcc)
  }

  /** The initial window: NFeatures rows of zeros. */
  function Zeros(rows: nat, cols: nat): (m: Matrix)
    ensures |m| == rows && Rectangular(m, cols)
    ensures forall i, j :: 0 <= i < rows && 0 <= j < cols ==> m[i][j] == 0.0
  {
    seq(rows, _ => seq(cols, _ => 0.0))
  }

  /** The newest `height` rows of the new features (all of them if fewer). */
  function Newest(f: Matrix, height: nat): (r: Matrix)
    ensures |r| == if |f| > height then height else |f|
    ensures r == f[|f| - |r|..]
  {
    if |f| > height then f[|f| - height..] else f
  }

  /** Shifting the window up by |incoming| rows and appending the new rows at the bottom. */
  function Merge(window: Matrix, incoming: Matrix): (r: Matrix)
    requires |incoming| <= |window|
    ensures |r| == |window|
    ensures r[|window| - |incoming|..] == incoming
    ensures r[..|window| - |incoming|] == window[|incoming|..]
  {
    if |incoming| == |window| then incoming else window[|incoming|..] + incoming
  }

  /** Two shifts in a row are one shift by both batches. */
  lemma MergeTwice(window: Matrix, a: Matrix, b: Matrix)
    requires |a| + |b| <= |window|
    ensures Merge(Merge(window, a), b) == Merge(window, a + b)
  {
    var once := Merge(window, a);
    var twice := Merge(once, b);
    var both := Merge(window, a + b);
    var n := |window|;
    forall i | 0 <= i < n
      ensures twice[i] == both[i]
    {
      if i < n - |b| {
        assert twice[i] == twice[..n - |b|][i] == once[|b|..][i] == once[i + |b|];
        if i + |b| < n - |a| {
          assert once[i + |b|] == once[..n - |a|][i + |b|] == window[|a|..][i + |b|];
          assert both[i] == both[..n - |a| - |b|][i] == window[|a + b|..][i];
        } else {
          assert once[i + |b|] == once[n - |a|..][i + |b| - (n - |a|)] == a[i + |b| - (n - |a|)];
          assert both[i] == both[n - |a| - |b|..][i - (n - |a| - |b|)] == (a + b)[i - (n - |a| - |b|)];
        }
      } else {
        assert twice[i] == twice[n - |b|..][i - (n - |b|)] == b[i - (n - |b|)];
        assert both[i] == both[n - |a| - |b|..][i - (n - |a| - |b|)] == (a + b)[i - (n - |a| - |b|)];
      }
    }
  }

  /** updateVectors on the buffers: the audio is appended; once a window's
      worth is pending, the features of all pending audio are computed, the
      audio their hops covered is dropped, and the newest rows are shifted
      into the bottom of the feature window. */
  function UpdatedBuffers(u: Setup, b: Buffers, audio: seq<int16>): (r: Buffers)
    requires SetupOk(u) && BuffersOk(u, b)
    ensures BuffersOk(u, r)
  {
    var w := b.windowAudio + audio;
    if |w| < WindowSamples(u.params) then
      Buffers(w, b.mfccs)
    else
      var f := u.getFeatures(Normalize(w));
      LongUpdate(u, b, w);
      Buffers(w[|f| * HopSamples(u.params)..], Merge(b.mfccs, Newest(f, |b.mfccs|)))
  }

  /** Below a window's worth the audio is only queued; otherwise at least one
      row is extracted, the pending audio loses exactly the prefix the rows'
      hops cover, the newest k rows fill the bottom of the window, and the
      older rows move up by k. */
  lemma UpdatedBuffersShape(u: Setup, b: Buffers, audio: seq<int16>)
    requires SetupOk(u) && BuffersOk(u, b)
    ensures var r := UpdatedBuffers(u, b, audio);
      |b.windowAudio + audio| < WindowSamples(u.params) ==> r == Buffers(b.windowAudio + audio, b.mfccs)
    ensures var r := UpdatedBuffers(u, b, audio);
      var w := b.windowAudio + audio;
      var f := u.getFeatures(Normalize(w));
      var k := if |f| > |b.mfccs| then |b.mfccs| else |f|;
      |w| >= WindowSamples(u.params) ==>
        && 1 <= |f| && 0 <= |f| * HopSamples(u.params) <= |w|
        && w == w[..|f| * HopSamples(u.params)] + r.windowAudio
        && r.mfccs[|b.mfccs| - k..] == f[|f| - k..]
        && r.mfccs[..|b.mfccs| - k] == b.mfccs[k..]
  {
    var w := b.windowAudio + audio;
    if |w| >= WindowSamples(u.params) {
      LongUpdate(u, b, w);
    }
  }

  /** The branch of updateVectors that extracts features. */
  lemma LongUpdate(u: Setup, b: Buffers, w: seq<int16>)
    requires SetupOk(u) && BuffersOk(u, b) && |w| >= WindowSamples(u.params)
    ensures var f := u.getFeatures(Normalize(w));
      var n := |f| * HopSamples(u.params);
      var k := if |f| > |b.mfccs| then |b.mfccs| else |f|;
      && 1 <= |f| && 0 <= n <= |w|
      && var r := Buffers(w[n..], Merge(b.mfccs, Newest(f, |b.mfccs|)));
      && BuffersOk(u, r)
      && w == w[..n] + r.windowAudio
      && r.mfccs[|b.mfccs| - k..] == f[|f| - k..]
      && r.mfccs[..|b.mfccs| - k] == b.mfccs[k..]
  {
    var f := u.getFeatures(Normalize(w));
    ExtractedRows(u, w);
    var n := |f| * HopSamples(u.params);
    Shifted(u, b, f);
    assert w == w[..n] + w[n..];
  }

  lemma ExtractedRows(u: Setup, w: seq<int16>)
    requires SetupOk(u) && |w| >= WindowSamples(u.params)
    ensures var f := u.getFeatures(Normalize(w));
      && 1 <= |f| && 0 <= |f| * HopSamples(u.params) <= |w|
      && Rectangular(f, u.params.nMfcc)
  {
    var s := Normalize(w);
    assert |s| == |w|;
    assert ExtractorOk(u.getFeatures, WindowSamples(u.params), HopSamples(u.params), u.params.nMfcc);
    IntMulMonotone(0, |u.getFeatures(s)|, HopSamples(u.params));
  }

  /** The window after shifting in the newest rows of f. */
  lemma Shifted(u: Setup, b: Buffers, f: Matrix)
    requires HopSamples(u.params) != 0 && BuffersOk(u, b) && Rectangular(f, u.params.nMfcc)
    ensures var k := if |f| > |b.mfccs| then |b.mfccs| else |f|;
      var m := Merge(b.mfccs, Newest(f, |b.mfccs|));
      && |m| == |b.mfccs| && Rectangular(m, u.params.nMfcc)
      && m[|b.mfccs| - k..] == f[|f| - k..]
      && m[..|b.mfccs| - k] == b.mfccs[k..]
  {
    var nf := Newest(f, |b.mfccs|);
    assert Rectangular(nf, u.params.nMfcc) by {
      forall i | 0 <= i < |nf| ensures |nf[i]| == u.params.nMfcc {
        assert nf[i] == f[|f| - |nf| + i];
      }
    }
    MergeRectangular(b.mfccs, nf, u.params.nMfcc);
  }

  lemma MergeRectangular(window: Matrix, incoming: Matrix, cols: int)
    requires |incoming| <= |window| && Rectangular(window, cols) && Rectangular(incoming, cols)
    ensures Rectangular(Merge(window, incoming), cols)
  {
    var r := Merge(window, incoming);
    forall i | 0 <= i < |r|
      ensures |r[i]| == cols
    {
      if i < |window| - |incoming| {
        assert r[i] == r[..|window| - |incoming|][i] == window[i + |incoming|];
      } else {
        assert r[i] == r[|window| - |incoming|..][i - (|window| - |incoming|)];
      }
    }
  }

  /** Rows fed to a window of height at least their number end up at its bottom
      in order, above the rows that were there. */
  lemma UpdatedWindowKeepsOrder(u: Setup, b: Buffers, audio: seq<int16>)
    requires SetupOk(u) && BuffersOk(u, b)
    requires |b.windowAudio + audio| >= WindowSamples(u.params)
    requires |u.getFeatures(Normalize(b.windowAudio + audio))| <= |b.mfccs|
    ensures UpdatedBuffers(u, b, audio).mfccs
      == b.mfccs[|u.getFeatures(Normalize(b.windowAudio + audio))|..] + u.getFeatures(Normalize(b.windowAudio + audio))
  {
    var f := u.getFeatures(Normalize(b.windowAudio + audio));
    var r := UpdatedBuffers(u, b, audio).mfccs;
    assert r == r[..|b.mfccs| - |f|] + r[|b.mfccs| - |f|..];
  }

  /** The outcome of Listener.Update. */
  datatype Heard = Heard(buffers: Buffers, prob: real, err: Option<Error>)

  /** Listener.Update: a closed model yields -1 and ErrModelClosed and leaves
      the buffers alone; otherwise the buffers are updated, and a prediction
      error yields -1 and that error, while a score is decoded. */
  function Listen(u: Setup, model: Option<Model>, b: Buffers, audio: seq<int16>): (r: Heard)
    requires SetupOk(u) && BuffersOk(u, b)
    ensures BuffersOk(u, r.buffers)
    ensures model.None? ==> r == Heard(b, -1.0, Some(ModelClosed))
    ensures model.Some? ==> r.buffers == UpdatedBuffers(u, b, audio)
    ensures r.err.None? <==> model.Some? && model.value.predict(r.buffers.mfccs).Ok?
    ensures r.err.Some? ==> r.prob == -1.0
    ensures r.err.None? ==> r.prob == Decode(u.decoder, model.value.predict(r.buffers.mfccs).value, u.asigmoid)
  {
    if model.None? then Heard(b, -1.0, Some(ModelClosed))
    else
      var nb := UpdatedBuffers(u, b, audio);
      match model.value.predict(nb.mfccs)
      case Err(e) => Heard(nb, -1.0, Some(e))
      case Ok(raw) => Heard(nb, Decode(u.decoder, raw, u.asigmoid), None)
  }

  /** A successful Update yields a probability in [0, 1] when the decoder's
      table entries are in [0, 1] and Center is strictly inside (0, 1). */
  lemma ListenInUnitInterval(u: Setup, model: Option<Model>, b: Buffers, audio: seq<int16>)
    requires SetupOk(u) && BuffersOk(u, b)
    requires 0.0 < u.decoder.options.center < 1.0
    requires forall k :: 0 <= k < |u.decoder.cd| ==> Unit(u.decoder.cd[k])
    requires Listen(u, model, b, audio).err.None?
    ensures Unit(Listen(u, model, b, audio).prob)
  {
    var r := Listen(u, model, b, audio);
    DecodeInUnitInterval(u.decoder, model.value.predict(r.buffers.mfccs).value, u.asigmoid);
  }

  /** A Center the listener can decode every score with: not 1, since cp can
      be 1 and Go's float division by 1 - Center then yields Inf or NaN; and 0
      only with a non-negative density, which keeps every cp at or above it. */
  ghost predicate CenterUsable(center: real, gauss: Gaussian) {
    center != 1.0 && (center == 0.0 ==> forall y, mu, std :: gauss(y, mu, std) >= 0.0)
  }

  /** NewListener's decoder: the default threshold options with the
      parameters' Center. */
  method ListenerDecoder(p: Params, gauss: Gaussian) returns (td: ThresholdDecoder)
    requires |p.thresholdConfig| > 0 && forall i :: 0 <= i < |p.thresholdConfig| ==> p.thresholdConfig[i].std >= 0.0
    requires CenterUsable(p.thresholdCenter, gauss)
    ensures BuiltFrom(td, p.thresholdConfig, DefaultThreshold.(center := p.thresholdCenter), gauss)
    ensures DecoderReady(td)
  {
    var config := DefaultThreshold.(center := p.thresholdCenter);
    td := NewThresholdDecoder(p.thresholdConfig, config, gauss);
    BuiltDecoderShape(td, p.thresholdConfig, config, gauss);
    if p.thresholdCenter == 0.0 {
      BuiltTableNonNegative(td, p.thresholdConfig, config, gauss);
    }
  }

  class Listener {
    const params: Params
    var model: Option<Model>
    var windowAudio: seq<int16>
    var mfccs: Matrix
    const decoder: ThresholdDecoder
    const getFeatures: FeatureFn
    const asigmoid: Asigmoid

    function Fixed(): Setup {
      Setup(params, decoder, getFeatures, asigmoid)
    }

    function State(): Buffers
      reads this
    {
      Buffers(windowAudio, mfccs)
    }

    ghost predicate Valid()
      reads this
    {
      SetupOk(Fixed()) && BuffersOk(Fixed(), State())
    }

    /** NewListener: empty pending audio, a zero feature window of NFeatures
        rows, and a decoder built from the threshold configuration with the
        default options but the parameters' Center. */
    constructor (model: Option<Model>, p: Params, getFeatures: FeatureFn, gauss: Gaussian, asigmoid: Asigmoid)
      requires HopSamples(p) > 0 && NFeatures(p) >= 0 && p.nMfcc >= 0
      requires ExtractorOk(getFeatures, WindowSamples(p), HopSamples(p), p.nMfcc)
      requires |p.thresholdConfig| > 0 && forall i :: 0 <= i < |p.thresholdConfig| ==> p.thresholdConfig[i].std >= 0.0
      requires CenterUsable(p.thresholdCenter, gauss)
      ensures Valid()
      ensures this.model == model && params == p
      ensures this.getFeatures == getFeatures && this.asigmoid == asigmoid
      ensures windowAudio == [] && mfccs == Zeros(NFeatures(p), p.nMfcc)
      ensures BuiltFrom(decoder, p.thresholdConfig, DefaultThreshold.(center := p.thresholdCenter), gauss)
    {
      var td := ListenerDecoder(p, gauss);
      params := p;
      this.model := model;
      windowAudio := [];
      mfccs := Zeros(NFeatures(p), p.nMfcc);
      decoder := td;
      this.getFeatures := getFeatures;
      this.asigmoid := asigmoid;
    }

    /** updateVectors: returns the feature window after taking in the audio. */
    method UpdateVectors(audio: seq<int16>) returns (m: Matrix)
      requires Valid()
      modifies this`windowAudio, this`mfccs
      ensures Valid()
      ensures State() == UpdatedBuffers(Fixed(), old(State()), audio)
      ensures m == mfccs
    {
      ghost var u := Fixed();
      ghost var before := State();
      var pending := windowAudio + audio;
      var window := mfccs;
      if |pending| >= WindowSamples(params) {
        ghost var f := getFeatures(Normalize(pending));
        ExtractedRows(u, pending);
        LongUpdate(u, before, pending);
        var d := MfccSpec(pending, getFeatures);
        var newFeatures := Rows(d);
        var consumed := d.rows * HopSamples(params);
        pending := pending[consumed..];
        if |newFeatures| > |window| {
          newFeatures := newFeatures[|newFeatures| - |window|..];
        }
        if |newFeatures| == |window| {
          window := newFeatures;
        } else {
          window := window[|newFeatures|..] + newFeatures;
        }
      }
      windowAudio, mfccs := pending, window;
      m := window;
    }

    /** Update: the probability for the audio taken in so far, or an error. */
    method Update(audio: seq<int16>) returns (prob: real, err: Option<Error>)
      requires Valid()
      modifies this`windowAudio, this`mfccs
      ensures Valid()
      ensures Heard(State(), prob, err) == Listen(Fixed(), model, old(State()), audio)
    {
      if model.None? {
        return -1.0, Some(ModelClosed);
      }
      var window := UpdateVectors(audio);
      var predicted := model.value.predict(window);
      if predicted.Err? {
        return -1.0, Some(predicted.error);
      }
      prob := Decode(decoder, predicted.value, asigmoid);
      err := None;
    }

    /** Close: the model is released only when its Close succeeds; a failing
        Close leaves it in place and passes the error on. */
    method Close() returns (err: Option<Error>)
      requires model.Some?
      modifies this`model
      ensures err == old(model).value.closeResult
      ensures model == if err.None? then None else old(model)
    {
      err := model.value.closeResult;
      if err.Some? {
        return;
      }
      model := None;
    }
  }
}

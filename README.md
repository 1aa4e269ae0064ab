# precise-go wake-word core in Dafny

This project models the Go core of precise-go, a wake-word runner for
Precise models. The runner takes 16-bit PCM audio and does four things:

- it keeps a rolling buffer of audio and a fixed-height window of MFCC rows (the `Listener`);
- it scores the window with a model backend;
- it calibrates the raw score through a threshold decoder, which is a cumulative table built from a Gaussian mixture;
- it feeds the calibrated probability to a debouncing trigger detector. The `Runner` calls the user's `OnPrediction`, `OnActivation` and `OnExit` hooks.

Each Go file of the core has its own module:

| module | file | form |
|---|---|---|
| `GoNumeric` | Go's `int16`/`byte`, `int()` truncation, truncating `/`, int16 wrap-around | functions and lemmas |
| `Outcomes` | Go's `nil`-or-value results and error values | datatypes |
| `Parameters` | params.go | functions and lemmas |
| `Mfcc` | mfcc.go | loop methods over arrays, specified by `Normalize` and `Flatten` |
| `Threshold` | threshold.go | loop methods (`Calculate`, `Min`, `Max`, `LinSpace`, the running sum) specified by functions, and the pure `Decode` |
| `Detector` | detector.go | class `TriggerDetector`, whose `Update` is specified by the function `Step` |
| `FeatureWindow` | listener.go | class `Listener`, specified by `UpdatedBuffers` and `Listen` |
| `PcmSamples` | runner.go's `bytesToSamples` | a loop method specified by `DecodeSamples` |
| `StreamRunner` | runner.go | class `Runner`; the worker goroutine is specified by the fold `Run` over a schedule of inputs |

## Modelling choices

- **Floats.** Go's `float32`/`float64` values are modelled as exact reals. The library computations become function-typed parameters:
  - the gomfcc feature extractor (`FeatureFn`);
  - the Gaussian density (`Gaussian`);
  - `asigmoid` (`Asigmoid`);
  - a model backend's `Predict` and `Close` (the datatype `Model`).
- **Integers.** They are unbounded. Go's `int(x)` is `Trunc` (toward zero). Go's integer `/` is `Quot` (truncating, not Euclidean). The int16 arithmetic in `bytesToSamples` is `Wrap16`.
- **Tensors.** The listener's feature tensor is a sequence of rows. mfcc.go's row-major backing slice is a `Dense` value whose rows are proved to read back the feature rows.
- **Concurrency.** The goroutine and channels are sequentialised:
  - `Write`, `Queue` and `ReadFrom` append each sample slice they send to the log `sent`;
  - `HandlePredictions` consumes an explicit schedule of what its `select` and loop test observe: a batch, `running` found false, the sample channel closed, or the close channel closed;
  - the hooks it calls are recorded in `events`.

## Model

| member | source | states |
|---|---|---|
| GoNumeric.Trunc | threshold.go:62-63 | `int()` of a float truncates toward zero: the result is within one of the argument, on the argument's side of zero |
| GoNumeric.Quot | detector.go:54 | Go's integer division: the remainder is smaller than the divisor in magnitude and has the dividend's sign |
| GoNumeric.QuotIsNotEuclidean | detector.go:54 | -16384 / 3000 is -5 in Go but -6 with Dafny's Euclidean division; the quotient for 2048 is -8 and for -1 it is +16384 |
| GoNumeric.Wrap16 | runner.go:197 | int16 arithmetic keeps the value modulo 2^16 and leaves in-range values unchanged |
| Parameters.NewParams | params.go:23-36 | the defaults are usable by a listener: a positive hop no longer than the window, itself no longer than the buffer, at least one feature row, one mixture component with a non-negative deviation, and a Center strictly inside (0, 1) |
| Parameters.WindowSamples | params.go:47-49 | the window length is rate·WindowT rounded to the nearest sample count, never negative for a non-negative product |
| Parameters.HopSamples | params.go:51-53 | the hop length is rate·HopT rounded to the nearest sample count, never negative for a non-negative product |
| Parameters.SampleCount | params.go:47-53 | `int(rate*t + 0.5)` rounds a non-negative product to the nearest sample count, half up, and is never negative then |
| Parameters.BufferSamples | params.go:38-41 | the buffer length is a multiple of the hop, at most the rounded buffer duration and less than one hop below it |
| Parameters.NFeatures | params.go:43-45 | `1 + floor(span / hop)` is the number r with (r-1)·hop ≤ buffer − window < r·hop |
| Parameters.FloorQuotient | params.go:44 | for a positive divisor, the float floor of a / b equals the integer quotient, which brackets a |
| Parameters.DefaultDerivedCounts | params.go:23-36 | the defaults give windows of 1600 samples, hops of 800, a 24000-sample buffer and 29 feature rows; threshold config [[6,4]], center 0.2, no deltas |
| Mfcc.Normalize | mfcc.go:13-21 | one amplitude per sample, each sample divided by 32768 |
| Mfcc.NormalizeBounds | mfcc.go:16-18 | every normalised amplitude lies in [-1, 32767/32768] |
| Mfcc.Int16ToFloatSlice | mfcc.go:13-21 | the loop fills exactly `Normalize(input)` |
| Mfcc.Flatten | mfcc.go:29-36 | the rows laid end to end, first row first |
| Mfcc.FlattenLength | mfcc.go:29 | a rectangular matrix flattens to rows·cols values |
| Mfcc.FlattenIndex | mfcc.go:32-36 | entry (i, j) sits at backing index i·cols + j |
| Mfcc.RowsOfFlatten | mfcc.go:38 | the tensor of shape (rows, cols) over the flattened backing reads back the original rows |
| Mfcc.FillBacking | mfcc.go:29-36 | the nested copy loops produce the row-major flattening of the features |
| Mfcc.CopyRow | mfcc.go:33-35 | the inner loop writes one row at its offset and keeps everything before and after it |
| Mfcc.MfccSpec | mfcc.go:23-39 | the tensor has shape (len(features), len(features[0])), a row-major backing, and rows equal to the extractor's rows |
| Threshold.Calculate | threshold.go:35-43 | one value per component, mu + z·std |
| Threshold.MinIndex | threshold.go:13-21 | the chosen component's value is at most every component's value |
| Threshold.MaxIndex | threshold.go:24-32 | the chosen component's value is at least every component's value |
| Threshold.MixtureMin | threshold.go:13-21 | the least of the values mu + z·std over the components: at most each of them and equal to one of them |
| Threshold.MixtureMax | threshold.go:24-32 | the greatest of the values mu + z·std over the components: at least each of them and equal to one of them |
| Threshold.Min | threshold.go:13-21 | the result is the least of the calculated values (the first after an ascending sort) |
| Threshold.Max | threshold.go:24-32 | the result is the greatest of the calculated values |
| Threshold.ExtremesOrdered | threshold.go:61-69 | with minZ ≤ maxZ and non-negative deviations, Min ≤ Max and so MinOut ≤ MaxOut (the range is never negative) |
| Threshold.LinSpaced | threshold.go:193-210 | length num (0 for num ≤ 0), first element start, last element exactly stop for num ≥ 2 |
| Threshold.LinSpacedEven | threshold.go:201-205 | inner points are start + i·step |
| Threshold.LinSpacedWithin | threshold.go:201-207 | for start ≤ stop every point lies in [start, stop] |
| Threshold.LinSpace | threshold.go:193-210 | the filling loop yields `LinSpaced` |
| Threshold.Pdf | threshold.go:154-157 | one density per point, all zero when std is 0 |
| Threshold.MixtureDensity | threshold.go:130-141 | the column sum of the component densities at a point; components with zero deviation contribute nothing |
| Threshold.Points | threshold.go:123 | Resolution·OutRange points (none for a non-positive count), from MinOut to exactly MaxOut |
| Threshold.CalcPd | threshold.go:122-146 | one value per point: the components' densities summed and divided by resolution·len(muStds) |
| Threshold.MixtureDensityNonNegative | threshold.go:130-141 | the summed mixture density is non-negative for a non-negative density |
| Threshold.CalcPdNonNegative | threshold.go:122-146 | every calcPd value is non-negative then |
| Threshold.Cumulative | threshold.go:72-77 | the running sum keeps the length, starts at the first value and adds each value to the previous entry |
| Threshold.CumulativeNonDecreasing | threshold.go:72-77 | the running sum of non-negative values never decreases |
| Threshold.CumulativeRises | threshold.go:72-77 | for i ≤ j the running sum at i is at most the one at j |
| Threshold.Accumulate | threshold.go:72-77 | the `cumulative += v` loop yields the running sum |
| Threshold.NewThresholdDecoder | threshold.go:61-80 | MinOut and MaxOut are the truncated mixture extremes, OutRange is their difference, and the table is the running sum of calcPd with one entry per point |
| Threshold.BuiltDecoderShape | threshold.go:61-70 | a decoder built with minZ ≤ maxZ has a non-negative range and resolution·OutRange table entries, so a non-zero range has a non-empty table |
| Threshold.BuiltTableNonDecreasing | threshold.go:72-77 | a built table never decreases |
| Threshold.BuiltTableNonNegative | threshold.go:72-77 | with a non-negative density every table entry is non-negative |
| Threshold.Clamp01 | threshold.go:109 | the ratio is clamped into [0, 1] and unchanged inside it |
| Threshold.LookupIndex | threshold.go:111 | `int(ratio·(size−1) + 0.5)` is in [0, size) and is the nearest slot |
| Threshold.LookupIndexMonotone | threshold.go:111 | the slot never decreases as the ratio grows |
| Threshold.Probability | threshold.go:99-112 | a zero range gives 1 exactly when the score exceeds MinOut, else 0; otherwise cp is a table entry |
| Threshold.Recenter | threshold.go:114-118 | for 0 < Center < 1, the result is below 0.5 exactly when cp is below Center; only the branch taken must divide by a non-zero value |
| Threshold.RecenterProperties | threshold.go:114-118 | re-centering maps Center, and only Center, to 0.5, maps [0, 1] into [0, 1], and fixes 0 and 1 |
| Threshold.RecenterMonotone | threshold.go:114-118 | re-centering is non-decreasing in cp |
| Threshold.Decode | threshold.go:94-118 | a score of 0 or 1 is returned unchanged; any other score is decoded whenever the table can be read and the re-centering branch it reaches divides by a non-zero value |
| Threshold.ReadyDecodesAll | threshold.go:101-118 | a decoder whose Center is not 1, and whose table is non-negative when Center is 0, decodes every score: the branch taken never divides by zero |
| Threshold.DecodeDegenerateRange | threshold.go:101-118 | with a zero range a score is decoded to exactly 1 if it exceeds MinOut and to 0 otherwise |
| Threshold.DecodeInUnitInterval | threshold.go:94-119 | with table entries in [0, 1] every decoded value is in [0, 1] |
| Threshold.DecodeMonotone | threshold.go:94-119 | with a non-decreasing table and a monotone logit, decoding is monotone on [0, 1] |
| Threshold.ProbabilityMonotone | threshold.go:107-112 | the looked-up cp is monotone in the score |
| Detector.ApplyAll | detector.go:30-32 | the options run in order, and none of them changes the chunk size |
| Detector.LastSensitivityWins | detector.go:30-32 | the sensitivity is set by the last WithSensitivity option |
| Detector.LastTriggerLevelWins | detector.go:30-32 | the trigger level is set by the last WithTriggerLevel option |
| Detector.SensitivityKept | detector.go:23-35 | without a WithSensitivity option the default sensitivity stays |
| Detector.TriggerLevelKept | detector.go:23-35 | without a WithTriggerLevel option the default trigger level stays |
| Detector.Cooldown | detector.go:54 | the reset value −16384 / chunkSize, truncated: |r·chunk| ≤ 16384 < |r·chunk| + |chunk|, ≤ 0 for a positive chunk size and ≥ 0 for a negative one |
| Detector.CooldownValues | detector.go:54 | chunk sizes 2048, 1024 and 3000 give −8, −16 and −5; −1 gives +16384 |
| Detector.Advance | detector.go:45-65 | fires exactly when a counted chunk lifts the counter above the level; a reset sets the cooldown; a counted chunk otherwise adds one; a quiet chunk decays a positive counter by one; nothing fires from a negative counter when the level is non-negative |
| Detector.Step | detector.go:45-65 | one Update with the cooldown of the detector's chunk size |
| Detector.TriggerDetector.constructor | detector.go:23-35 | sensitivity 0.5 and trigger level 3, then the options in order, activation 0 |
| Detector.TriggerDetector.Update | detector.go:45-65 | the new counter and the result are exactly `Step` of the old counter |
| Detector.FiresAfterLevelPlusOne | detector.go:45-65 | from a counter a ≤ level, level+1−a activated chunks fire only on the last one, which leaves the cooldown |
| Detector.QuietStreamSilent | detector.go:60-64 | quiet chunks from a counter ≤ 0 never fire and only raise the counter toward 0 |
| Detector.Refractory | detector.go:48-55 | within the cooldown no chunk fires, whatever the probabilities |
| Detector.SilentAfterFiring | detector.go:51-59 | with a chunk size in (0, 16384], a fire is followed by −cooldown silent chunks |
| Detector.SentinelChunkRefires | detector.go:54 | with chunk size −1 the reset value is +16384, so every activated chunk fires again |
| FeatureWindow.Zeros | listener.go:17 | the initial window has NFeatures rows of NMFCC zeros |
| FeatureWindow.Newest | listener.go:44-49 | only the last R new rows are kept when there are more than R |
| FeatureWindow.Merge | listener.go:58-64 | the window keeps its height, the new rows are at the bottom and the old rows moved up by their number |
| FeatureWindow.MergeTwice | listener.go:58-64 | two shifts in a row equal one shift by both batches |
| FeatureWindow.UpdatedBuffers | listener.go:35-68 | the window always keeps NFeatures rows of NMFCC values |
| FeatureWindow.UpdatedBuffersShape | listener.go:36-64 | below a window's worth the audio is only appended; otherwise ≥ 1 row is extracted, exactly the first rows·hop samples are dropped, the newest k rows fill the bottom and the older rows move up by k |
| FeatureWindow.UpdatedWindowKeepsOrder | listener.go:56-64 | for at most R new rows, the window is old[n:] followed by the new rows |
| FeatureWindow.Listen | listener.go:70-84 | a nil model gives (−1, ErrModelClosed) with the buffers untouched; otherwise the buffers are updated first, an error from Predict gives −1 and that error, and a score is decoded |
| FeatureWindow.ListenInUnitInterval | listener.go:83 | a successful Update yields a probability in [0, 1] |
| FeatureWindow.ListenerDecoder | listener.go:20-22 | the decoder uses DefaultThreshold with Center replaced by ThresholdCenter, and decodes every score |
| FeatureWindow.Listener.constructor | listener.go:12-25 | empty pending audio, an NFeatures × NMFCC zero window, and the decoder built from the parameters' configuration |
| FeatureWindow.Listener.UpdateVectors | listener.go:35-68 | the new buffers are `UpdatedBuffers` of the old ones, and the window is returned |
| FeatureWindow.Listener.Update | listener.go:70-84 | the new buffers, the probability and the error are `Listen` of the old buffers |
| FeatureWindow.Listener.Close | listener.go:86-96 | the model is cleared only when its Close succeeds; the error is passed on |
| PcmSamples.SampleOf | runner.go:197 | the sample is lo + 256·hi, less 65536 when the high byte has its sign bit set |
| PcmSamples.DecodeSamples | runner.go:191-201 | len(b)/2 samples |
| PcmSamples.SampleRoundTrip | runner.go:197 | decoding the two-byte little-endian encoding of a sample gives the sample |
| PcmSamples.DecodeEncode | runner.go:191-201 | bytesToSamples inverts the little-endian encoding of any sample slice |
| PcmSamples.TrailingByteIgnored | runner.go:192 | an odd trailing byte does not change the samples |
| PcmSamples.BytesToSamples | runner.go:191-201 | the loop yields `DecodeSamples` |
| StreamRunner.BatchEvents | runner.go:171-177 | OnPrediction appears exactly when set, and OnActivation exactly when the detector fired |
| StreamRunner.Finish | runner.go:183-187 | leaving the loop marks the worker done (not panicked) and appends OnExit with the last error if set |
| StreamRunner.Panic | runner.go:175-176 | a runtime panic stops the worker with nothing else changed: running stays set and OnExit is not called |
| StreamRunner.Scored | runner.go:171-177 | OnPrediction if set, then the detector: a reset with chunk size 0 panics with the counter unchanged; a firing with OnActivation unset panics; otherwise the counter is `Step`'s and OnActivation follows a firing |
| StreamRunner.Handle | runner.go:159-181 | a batch updates the listener; an Update error changes neither the detector nor the hooks and does not end the loop; a success is `Scored`; any other input ends the loop |
| StreamRunner.Run | runner.go:158-181 | the worker over a schedule keeps a well-formed window, and a panicked worker is always a stopped one |
| StreamRunner.RunAppend | runner.go:158-181 | running two schedules in turn is running their concatenation |
| StreamRunner.DoneIsFinal | runner.go:158-163 | after the loop is left no input changes anything |
| StreamRunner.EventsGrow | runner.go:171-187 | hook calls are only ever appended |
| StreamRunner.ExitAtMostOnce | runner.go:183-187 | OnExit is called at most once, exactly when the loop has been left (not by a panic) with OnExit set |
| StreamRunner.HandleExits | runner.go:165-187 | one turn adds an OnExit call exactly when it leaves the loop with OnExit set; a batch either keeps the loop going or panics |
| StreamRunner.ExitReportsLastError | runner.go:165-187 | OnExit receives the error of the last batch before the loop ended, nil if it succeeded; after a panicking batch nothing more happens |
| StreamRunner.EffectiveChunkSize | runner.go:126-130 | the read buffer is 2048 bytes for chunk size 0 or −1, otherwise the chunk size |
| StreamRunner.FirstStop | runner.go:136-143 | the first read result that reports an error |
| StreamRunner.SentChunks | runner.go:147 | one sample slice per successful read |
| StreamRunner.LastHookOptionWins | runner.go:22-41 | the last option for a hook decides it: set exactly when that option's function is non-nil |
| StreamRunner.HookSetIffOption | runner.go:22-41 | OnActivation, OnPrediction and OnExit are each set exactly when the last option for it was given a non-nil function |
| StreamRunner.CollectSettings | runner.go:52-54 | the option closures run in order over empty settings |
| StreamRunner.Runner.constructor | runner.go:44-61 | options first, then a detector with the chosen options over the defaults and the runner's raw chunk size, then the runner is started |
| StreamRunner.Runner.Intended | runner.go:44-61 | the corrected NewRunner (see "Findings"): as the constructor, but the detector gets the effective chunk size |
| StreamRunner.RawSentinelRefires | runner.go:56 | with the raw chunk size −1 the cooldown is +16384, so once reset the counter stays there and every activated scored batch calls OnActivation again |
| StreamRunner.RawZeroChunkPanics | runner.go:56 | with the raw chunk size 0 the first reset divides by zero: the worker panics and OnExit is not called |
| StreamRunner.IntendedCooldown | detector.go:54 | computed with the effective chunk size, the reset is −8 for 0 and −1 and never positive |
| StreamRunner.RunnerDetectorSilentAfterFiring | runner.go:56 | a detector given the effective chunk size (as `Runner.Intended` builds it) has the intended cooldown, which is negative, and stays silent for −cooldown chunks after each firing for runner chunk sizes from −1 to 16384 |
| StreamRunner.Runner.Start | runner.go:78-86 | running afterwards; a worker is started only if it was not running |
| StreamRunner.Runner.Stop | runner.go:89-95 | not running afterwards |
| StreamRunner.Runner.Close | runner.go:98-108 | stopped, the close channel signalled, and the listener's Close result returned (nil without a listener) |
| StreamRunner.WriteCount | runner.go:116 | Write's count is the byte left over after the whole samples, 0 or 1 |
| StreamRunner.WriteBreaksWriterContract | runner.go:116 | with a nil error, that count keeps io.Writer's contract exactly for writes of at most one byte |
| StreamRunner.IntendedWriteCount | runner.go:111-117 | reporting every byte as written keeps io.Writer's contract |
| StreamRunner.Runner.Write | runner.go:111-117 | the decoded samples are sent; the count returned is `WriteCount` (len(b) % 2) and the error is nil |
| StreamRunner.Runner.WriteIntended | runner.go:111-117 | the corrected Write (see "Findings"): the same samples are sent, and the count len(b) with a nil error keeps io.Writer's contract |
| StreamRunner.Runner.Queue | runner.go:120-122 | the samples are sent unchanged |
| StreamRunner.Runner.ReadFrom | runner.go:125-151 | the samples of each read before the first error are sent; EOF returns the byte total and nil, any other error −1 and that error |
| StreamRunner.Runner.ProcessBatch | runner.go:165-177 | one received batch changes the listener, detector and hooks, and panics or not, as `Handle` says |
| StreamRunner.Runner.Notify | runner.go:171-177 | OnPrediction if set, then the detector's `Step`, then OnActivation if it fired; a reset with chunk size 0 and a firing with OnActivation unset are reported as panics |
| StreamRunner.Runner.Leave | runner.go:183-187 | running is cleared and OnExit, if set, gets the last error |
| StreamRunner.Runner.ScoreBatches | runner.go:158-177 | the loop's batches before the first non-batch input, each as `ProcessBatch`, stopping at a panic: the state is `Run` over the inputs consumed |
| StreamRunner.Runner.HandlePredictions | runner.go:154-188 | the listener, the detector's counter, the hook calls, whether it panicked and `running` end as `Run` over the schedule says |

## Left out

- Goroutines and channels: the blocking sends, the `select` and `close(r.closeCh)` are sequentialised as described above. Interleavings of a producer with the worker are not modelled.
- model_onnx.go, model_tflite.go and model.go: the backends are represented by `Model`, a function for `Predict` and a fixed result for `Close`. model_onnx.go and model_tflite.go are not part of this model.
- Floating point: float32 rounding, NaN and infinities are not modelled. Every float is an exact real. The bit-exact calibrated value of a particular score is therefore out of reach.
- The gomfcc feature computation, the Gaussian density and the logarithm in `asigmoid` are parameters. `ExtractorOk` states the only facts the listener relies on: at least one row, no more rows than hops in the audio, and NMFCC values per row.
- The tensor library's own behaviour beyond shapes (`Sum`, `DivScalar`, `Apply`, `Slice`, `Concat`) is modelled by the sequence operations it performs.
- Threshold.Min: the in-place `sort.Slice` is replaced by a scan for the least value. Only `vals[0]` is observable, and an empty mixture (an index-out-of-range panic in Go) is excluded by a precondition. The same holds for Threshold.Max.
- Threshold.Recenter: Go's float32 division by zero gives ±Inf or NaN and does not panic; reals cannot represent that, so Recenter requires only that the branch taken divides by a non-zero value. With Center 0 the division happens only for cp < 0, which a non-negative table rules out. With Center 1 it happens whenever cp ≥ 1, and cp is 1 above MinOut on a zero range.
- FeatureWindow.Listener.constructor: the listener decodes scores it cannot foresee, so it requires ThresholdCenter ≠ 1 (`CenterUsable`), and a non-negative density when ThresholdCenter is 0. A Center of 1 is left out: the Inf or NaN it gives for cp ≥ 1 is not modelled.
- Parameters.BufferSamples: a zero hop is a division by zero in Go and is excluded. The listener requires a positive hop and a non-negative NFeatures.
- Detector.Step: a reset with chunk size 0 is an integer division by zero, which panics in Go; Step requires a non-zero chunk size only when it resets. The worker does not require it: `Scored` turns that reset, and a firing with `OnActivation` unset (a nil call), into the worker's panicked state.
- StreamRunner.Panic: what follows a runtime panic (the process crashing) is not modelled. The worker just stops, and the counter is left as before the `Update` that panicked, where Go has already added one.
- StreamRunner.Runner.HandlePredictions requires a non-nil listener. Go would dereference nil on the first batch.
- StreamRunner.Runner.Close requires the close channel not to have been closed yet. A second `close(r.closeCh)` panics in Go, and that panic is not modelled.
- Threshold.Decode: requires a readable table (`TableReadable`: an empty table only with a zero range). When Resolution·OutRange ≤ 0 while OutRange ≠ 0, Go's `LinSpace` returns a shapeless tensor, the table is empty, and the lookup `t.cd.GetF32(...)` indexes out of range and panics. That panic is excluded by the precondition, not modelled. The same precondition is on Threshold.Probability.
- Threshold.NewThresholdDecoder: for Resolution·OutRange ≤ 0 (OutRange 0 included, e.g. [[6.5, 0.1]], whose extremes both truncate to 6) the model builds a decoder with an empty table. In Go, `calcPd` then reads `points.Shape()[0]` of a shapeless tensor, and whether that succeeds depends on the tensor library, which is not part of this model. The empty-table decoder is assumed, not established.
- FeatureWindow.ListenerDecoder: requires every ThresholdConfig deviation to be ≥ 0, which Go's NewListener does not check. A negative deviation, e.g. [[6, −4]], gives MinOut 22 > MaxOut −10, a negative range and an empty table, so the first Decode of a score other than 0 or 1 panics on an out-of-range index. The requirement keeps MinOut ≤ MaxOut so the table can be read. The Listener constructor inherits it.
- FeatureWindow.Listener.Close requires a model. Closing an already closed listener calls a nil interface in Go.
- 64-bit overflow of `int`/`int64` counters (the activation counter, the byte total of `ReadFrom`) is not modelled.
- StreamRunner.Runner.ReadFrom: bytes returned together with an error are dropped, as the source does. The reader is a finite schedule of read results that ends in an error. A chunk size below −1 makes Go's `make([]byte, chunkSize)` panic and is excluded by a precondition.
- runner_test.go and threshold_test.go need model and wav files and are not modelled.

## Findings

| source | as written | input that shows it | evidently intended | confidence | as-written member | corrected member |
|---|---|---|---|---|---|---|
| runner.go:56 | NewRunner passes its raw chunk size to the detector, whose cooldown is −16384 / chunkSize (detector.go:54), though runner.go:128-130 treats 0 and −1 as "default, 2048" | NewRunner(l, −1) as in runner_test.go:71: the cooldown becomes +16384, so the counter is positive after a fire and every following activated chunk fires again | the cooldown of the effective chunk size (−8 for 2048), so a fire is followed by a silent period | not executed | StreamRunner.RawSentinelRefires | StreamRunner.RunnerDetectorSilentAfterFiring |
| runner.go:116 | Write returns `len(b) % 2` with a nil error | Write of two bytes: it reports 0 bytes written and no error, which io.Writer forbids (n < len(p) needs a non-nil error), so io.Copy into a Runner fails with ErrShortWrite | Write reports len(b), every byte having been handed on | not executed | StreamRunner.WriteBreaksWriterContract | StreamRunner.Runner.WriteIntended |

`StreamRunner.Runner.constructor` models NewRunner as written: the detector gets the raw chunk size. `StreamRunner.RawSentinelRefires` shows the re-firing with −1 at the level of the worker, and `Detector.SentinelChunkRefires` shows it over a stream of chunks. `StreamRunner.RawZeroChunkPanics` shows that chunk size 0 panics at the first reset. The corrected construction is `StreamRunner.Runner.Intended`, which gives the detector the effective chunk size. Its cooldown is `StreamRunner.IntendedCooldown`, and `StreamRunner.RunnerDetectorSilentAfterFiring` proves the silent period for it.

`StreamRunner.Runner.Write` models Write as written, with the count `StreamRunner.WriteCount`. `StreamRunner.WriteBreaksWriterContract` shows that this count, returned with a nil error, meets io.Writer's contract only for writes of zero or one byte. The corrected `StreamRunner.Runner.WriteIntended` sends the same samples and returns `StreamRunner.IntendedWriteCount`, which is len(b). Its ensures prove that io.Writer's contract holds.

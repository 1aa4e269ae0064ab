/** runner.go: the runner that feeds audio to a listener and a trigger
    detector and calls the user's hooks. The goroutine and the channels are
    modelled sequentially: producers (Write, Queue, ReadFrom) append what
    they hand to the sample channel to a log, and the prediction worker
    consumes an explicit schedule of what its select statement receives. */
module StreamRunner {
  import opened GoNumeric
  import opened Outcomes
  import opened FeatureWindow
  import opened Detector
  import opened PcmSamples

  // ------------------------------------------------------------ the prediction worker

  /** The hooks the runner calls, in the order it calls them. */
  datatype Event = Prediction(prob: real) | Activation | Exit(err: Option<Error>)

  /** Which of OnPrediction, OnActivation and OnExit are set. */
  datatype Hooks = Hooks(onPrediction: bool, onActivation: bool, onExit: bool)

  /** What one turn of the worker's loop observes: samples received, the
      running flag found false, the sample channel closed, or the close
      channel closed. */
  datatype WorkerInput = Batch(samples: seq<int16>) | StopObserved | SampleChannelClosed | CloseSignal

  /** The fixed parts the worker runs with. */
  datatype Env = Env(setup: Setup, model: Option<Model>, detector: Config, hooks: Hooks)

  /** The worker's state: the listener's buffers, the detector's counter, the
      last error, the hook calls so far, whether it has stopped, and whether
      it stopped by a runtime panic rather than by leaving its loop. */
  datatype Worker = Worker(buffers: Buffers, activation: int, err: Option<Error>, events: seq<Event>, done: bool, panicked: bool)

  /** The worker can run: the listener is set up. */
  ghost predicate EnvOk(env: Env) {
    SetupOk(env.setup)
  }

  ghost predicate WorkerOk(env: Env, w: Worker) {
    EnvOk(env) && BuffersOk(env.setup, w.buffers) && (w.panicked ==> w.done)
  }

  /** The calls a successful batch makes: OnPrediction if set, then
      OnActivation if the detector fired. */
  function BatchEvents(hooks: Hooks, prob: real, fired: bool): (r: seq<Event>)
    ensures (Prediction(prob) in r) <==> hooks.onPrediction
    ensures (Activation in r) <==> fired
    ensures Exit(None) !in r
    ensures r == [] <==> !hooks.onPrediction && !fired
  {
    (if hooks.onPrediction then [Prediction(prob)] else []) + (if fired then [Activation] else [])
  }

  /** The detector's Update reaches its reset with a zero chunk size: Go's
      integer division by zero panics. */
  predicate DividesByZero(c: Config, activation: int, prob: real) {
    c.chunkSize == 0 && Resets(c, activation, prob)
  }

  /** A runtime panic stops the worker where it is: running is not cleared
      and OnExit is not called. */
  function Panic(w: Worker): (r: Worker)
    ensures r.done && r.panicked
    ensures r.buffers == w.buffers && r.activation == w.activation && r.err == w.err && r.events == w.events
  {
    w.(done := true, panicked := true)
  }

  /** Leaving the loop: running is cleared and OnExit, if set, gets the last error. */
  function Finish(hooks: Hooks, w: Worker): (r: Worker)
    ensures r.done && !r.panicked
    ensures r.buffers == w.buffers && r.activation == w.activation && r.err == w.err
    ensures r.events == if hooks.onExit then w.events + [Exit(w.err)] else w.events
  {
    w.(done := true, panicked := false, events := if hooks.onExit then w.events + [Exit(w.err)] else w.events)
  }

  /** One scored batch: OnPrediction if set, then the detector's Update, then
      OnActivation on a firing. The Update panics when its reset divides by a
      zero chunk size, and a firing with OnActivation unset is a nil call,
      which panics too. */
  function Scored(env: Env, w: Worker, b: Buffers, prob: real): (r: Worker)
    requires WorkerOk(env, w) && BuffersOk(env.setup, b) && !w.done
    ensures WorkerOk(env, r) && r.buffers == b && r.err.None?
    ensures DividesByZero(env.detector, w.activation, prob) ==>
      r == Panic(w.(buffers := b, err := None, events := w.events + BatchEvents(env.hooks, prob, false)))
    ensures !DividesByZero(env.detector, w.activation, prob) ==>
      var st := Step(env.detector, w.activation, prob);
      && r.activation == st.activation
      && (r.panicked <==> st.fired && !env.hooks.onActivation)
      && r.done == r.panicked
      && r.events == w.events + BatchEvents(env.hooks, prob, st.fired && env.hooks.onActivation)
  {
    var predicted := w.(buffers := b, err := None, events := w.events + BatchEvents(env.hooks, prob, false));
    if DividesByZero(env.detector, w.activation, prob) then Panic(predicted)
    else
      var st := Step(env.detector, w.activation, prob);
      if st.fired && !env.hooks.onActivation then Panic(predicted.(activation := st.activation))
      else w.(buffers := b, activation := st.activation, err := None,
              events := w.events + BatchEvents(env.hooks, prob, st.fired))
  }

  /** One turn of handlePredictions' loop. A failed Update only records the
      error: the break leaves the select, not the loop, and no hook is called. */
  function Handle(env: Env, w: Worker, input: WorkerInput): (r: Worker)
    requires WorkerOk(env, w)
    ensures WorkerOk(env, r)
    ensures w.done ==> r == w
    ensures !w.done && !input.Batch? ==> r == Finish(env.hooks, w)
    ensures !w.done && input.Batch? ==>
      var h := Listen(env.setup, env.model, w.buffers, input.samples);
      && r.buffers == h.buffers && r.err == h.err
      && (h.err.Some? ==> !r.done && r.activation == w.activation && r.events == w.events)
      && (h.err.None? ==> r == Scored(env, w, h.buffers, h.prob))
  {
    if w.done then w
    else match input
      case Batch(samples) =>
        var h := Listen(env.setup, env.model, w.buffers, samples);
        if h.err.Some? then w.(buffers := h.buffers, err := h.err)
        else Scored(env, w, h.buffers, h.prob)
      case _ => Finish(env.hooks, w)
  }

  /** The worker over a schedule of inputs. */
  function Run(env: Env, w: Worker, inputs: seq<WorkerInput>): (r: Worker)
    requires WorkerOk(env, w)
    ensures WorkerOk(env, r)
  {
    if inputs == [] then w else Handle(env, Run(env, w, inputs[..|inputs| - 1]), inputs[|inputs| - 1])
  }

  /** Running two schedules one after the other is running their concatenation. */
  lemma {:induction false} RunAppend(env: Env, w: Worker, a: seq<WorkerInput>, b: seq<WorkerInput>)
    requires WorkerOk(env, w)
    ensures Run(env, w, a + b) == Run(env, Run(env, w, a), b)
    decreases |b|
  {
    if b == [] {
      assert a + b == a;
    } else {
      var b' := b[..|b| - 1];
      assert (a + b)[..|a + b| - 1] == a + b';
      RunAppend(env, w, a, b');
    }
  }

  /** Once the worker has left its loop nothing changes any more. */
  lemma {:induction false} DoneIsFinal(env: Env, w: Worker, inputs: seq<WorkerInput>)
    requires WorkerOk(env, w) && w.done
    ensures Run(env, w, inputs) == w
  {
    if inputs != [] {
      DoneIsFinal(env, w, inputs[..|inputs| - 1]);
    }
  }

  /** One more turn of a schedule. */
  lemma RunStep(env: Env, w: Worker, inputs: seq<WorkerInput>, i: int)
    requires WorkerOk(env, w) && 0 <= i < |inputs|
    ensures Run(env, w, inputs[..i + 1]) == Handle(env, Run(env, w, inputs[..i]), inputs[i])
  {
    assert inputs[..i + 1][..i] == inputs[..i];
  }

  /** The rest of a schedule after the worker has left its loop changes nothing. */
  lemma RunTail(env: Env, w: Worker, inputs: seq<WorkerInput>, k: int)
    requires WorkerOk(env, w) && 0 <= k <= |inputs| && Run(env, w, inputs[..k]).done
    ensures Run(env, w, inputs) == Run(env, w, inputs[..k])
  {
    SplitAt(inputs, k);
    RunAppend(env, w, inputs[..k], inputs[k..]);
    DoneIsFinal(env, Run(env, w, inputs[..k]), inputs[k..]);
  }

  lemma SplitAt<T>(s: seq<T>, k: int)
    requires 0 <= k <= |s|
    ensures s[..k] + s[k..] == s
  {
  }

  /** Hook calls are only ever appended. */
  lemma {:induction false} EventsGrow(env: Env, w: Worker, inputs: seq<WorkerInput>)
    requires WorkerOk(env, w)
    ensures w.events <= Run(env, w, inputs).events
  {
    if inputs != [] {
      var before := Run(env, w, inputs[..|inputs| - 1]);
      EventsGrow(env, w, inputs[..|inputs| - 1]);
      HandleEventsGrow(env, before, inputs[|inputs| - 1]);
      PrefixTransitive(w.events, before.events, Run(env, w, inputs).events);
    }
  }

  lemma HandleEventsGrow(env: Env, w: Worker, input: WorkerInput)
    requires WorkerOk(env, w)
    ensures w.events <= Handle(env, w, input).events
  {
  }

  lemma PrefixTransitive<T>(a: seq<T>, b: seq<T>, c: seq<T>)
    requires a <= b && b <= c
    ensures a <= c
  {
    assert a == b[..|a|] == c[..|b|][..|a|];
  }

  function CountExits(events: seq<Event>): nat {
    if events == [] then 0 else CountExits(events[..|events| - 1]) + if events[|events| - 1].Exit? then 1 else 0
  }

  lemma {:induction false} CountExitsAppend(a: seq<Event>, b: seq<Event>)
    ensures CountExits(a + b) == CountExits(a) + CountExits(b)
    decreases |b|
  {
    if b == [] {
      assert a + b == a;
    } else {
      assert (a + b)[..|a + b| - 1] == a + b[..|b| - 1];
      CountExitsAppend(a, b[..|b| - 1]);
    }
  }

  /** OnExit is called at most once, only when the loop is left, and never
      after a panic. */
  lemma {:induction false} ExitAtMostOnce(env: Env, w: Worker, inputs: seq<WorkerInput>)
    requires WorkerOk(env, w) && !w.done && CountExits(w.events) == 0
    ensures CountExits(Run(env, w, inputs).events) <= 1
    ensures !Run(env, w, inputs).done ==> CountExits(Run(env, w, inputs).events) == 0
    ensures Run(env, w, inputs).panicked ==> CountExits(Run(env, w, inputs).events) == 0
    ensures Run(env, w, inputs).done && !Run(env, w, inputs).panicked && env.hooks.onExit ==>
      CountExits(Run(env, w, inputs).events) == 1
  {
    if inputs != [] {
      var prev := Run(env, w, inputs[..|inputs| - 1]);
      ExitAtMostOnce(env, w, inputs[..|inputs| - 1]);
      HandleExits(env, prev, inputs[|inputs| - 1]);
    }
  }

  /** One turn adds an Exit call exactly when it leaves the loop with OnExit
      set; a panicking turn adds none. */
  lemma HandleExits(env: Env, w: Worker, input: WorkerInput)
    requires WorkerOk(env, w)
    ensures var r := Handle(env, w, input);
      && CountExits(r.events) == CountExits(w.events) + (if !w.done && !input.Batch? && env.hooks.onExit then 1 else 0)
      && (!w.done && input.Batch? ==> !r.done || r.panicked)
      && (!w.done && !input.Batch? ==> !r.panicked)
  {
    if !w.done {
      match input
      case Batch(s) =>
        var h := Listen(env.setup, env.model, w.buffers, s);
        if h.err.None? {
          ScoredExits(env, w, h.buffers, h.prob);
        }
      case _ =>
        if env.hooks.onExit {
          CountExitsAppend(w.events, [Exit(w.err)]);
        }
    }
  }

  /** OnPrediction and OnActivation are not OnExit. */
  lemma BatchEventsNoExit(hooks: Hooks, prob: real, fired: bool)
    ensures CountExits(BatchEvents(hooks, prob, fired)) == 0
  {
    var p: seq<Event> := if hooks.onPrediction then [Prediction(prob)] else [];
    var a: seq<Event> := if fired then [Activation] else [];
    assert CountExits(p) == 0 by {
      if hooks.onPrediction {
        assert p[..0] == [];
      }
    }
    assert CountExits(a) == 0 by {
      if fired {
        assert a[..0] == [];
      }
    }
    CountExitsAppend(p, a);
  }

  /** A scored batch calls no OnExit. */
  lemma ScoredExits(env: Env, w: Worker, b: Buffers, prob: real)
    requires WorkerOk(env, w) && BuffersOk(env.setup, b) && !w.done
    ensures CountExits(Scored(env, w, b, prob).events) == CountExits(w.events)
  {
    var divides := DividesByZero(env.detector, w.activation, prob);
    var fired := !divides && Step(env.detector, w.activation, prob).fired && env.hooks.onActivation;
    var e := BatchEvents(env.hooks, prob, fired);
    assert Scored(env, w, b, prob).events == w.events + e;
    BatchEventsNoExit(env.hooks, prob, fired);
    CountExitsAppend(w.events, e);
  }

  /** The last two turns of a schedule, one at a time. */
  lemma RunLastTwo(env: Env, w: Worker, inputs: seq<WorkerInput>, x: WorkerInput, y: WorkerInput)
    requires WorkerOk(env, w)
    ensures Run(env, w, inputs + [x, y]) == Handle(env, Handle(env, Run(env, w, inputs), x), y)
  {
    var all := inputs + [x, y];
    assert all[..|all| - 1] == inputs + [x];
    assert (inputs + [x])[..|inputs|] == inputs;
  }

  /** The error OnExit receives is the one from the last Update before the
      loop was left (nil if that Update succeeded); if that batch panicked,
      the stop changes nothing and OnExit is not called. */
  lemma ExitReportsLastError(env: Env, w: Worker, inputs: seq<WorkerInput>, samples: seq<int16>, halt: WorkerInput)
    requires WorkerOk(env, w) && !halt.Batch? && env.hooks.onExit
    requires !Run(env, w, inputs).done
    ensures var scored := Handle(env, Run(env, w, inputs), Batch(samples));
      var r := Run(env, w, inputs + [Batch(samples), halt]);
      && r.done
      && (scored.panicked ==> r == scored)
      && (!scored.panicked ==>
            r.events == scored.events + [Exit(Listen(env.setup, env.model, Run(env, w, inputs).buffers, samples).err)])
  {
    RunLastTwo(env, w, inputs, Batch(samples), halt);
    HandleExits(env, Run(env, w, inputs), Batch(samples));
  }

  // ------------------------------------------------------------ reading

  /** The result of one io.Reader Read: the bytes read and an error, possibly io.EOF. */
  datatype ReadError = EOF | ReadFailure(error: Error)
  datatype ReadResult = ReadResult(data: seq<byte>, err: Option<ReadError>)

  /** The chunk size ReadFrom reads with: 0 and -1 mean 2048, anything else is itself. */
  function EffectiveChunkSize(chunkSize: int): (r: int)
    ensures chunkSize == 0 || chunkSize == -1 ==> r == 2048
    ensures chunkSize != 0 && chunkSize != -1 ==> r == chunkSize
  {
    if chunkSize == 0 || chunkSize == -1 then 2048 else chunkSize
  }

  /** The index of the first Read that reports an error. */
  function FirstStop(results: seq<ReadResult>): (k: nat)
    requires exists i :: 0 <= i < |results| && results[i].err.Some?
    ensures k < |results| && results[k].err.Some?
    ensures forall i :: 0 <= i < k ==> results[i].err.None?
  {
    if results[0].err.Some? then 0 else 1 + FirstStop(results[1..])
  }

  function BytesRead(results: seq<ReadResult>): nat {
    if results == [] then 0 else BytesRead(results[..|results| - 1]) + |results[|results| - 1].data|
  }

  /** The sample slices sent for a run of successful reads. */
  function SentChunks(results: seq<ReadResult>): (r: seq<seq<int16>>)
    ensures |r| == |results|
    ensures forall i :: 0 <= i < |results| ==> r[i] == DecodeSamples(results[i].data)
  {
    seq(|results|, i requires 0 <= i < |results| => DecodeSamples(results[i].data))
  }

  // ------------------------------------------------------------ Write and io.Writer

  /** io.Writer's contract for Write(p) returning (n, err): 0 <= n <= len(p),
      and a count below len(p) comes with a non-nil error. */
  predicate WriterContract(size: int, n: int, err: Option<Error>) {
    0 <= n <= size && (n < size ==> err.Some?)
  }

  /** The count Write returns, as written: the byte left over after the
      whole samples, not the bytes consumed. */
  function WriteCount(b: seq<byte>): (n: int)
    ensures n == |b| - 2 * |DecodeSamples(b)| && 0 <= n <= 1
  {
    |b| % 2
  }

  /** With its nil error, Write as written keeps io.Writer's contract only
      for writes of at most one byte: any longer write reports a short count
      without an error (io.Copy then fails with ErrShortWrite). */
  lemma {:induction false} WriteBreaksWriterContract(b: seq<byte>)
    ensures WriterContract(|b|, WriteCount(b), None) <==> |b| <= 1
  {
    if |b| >= 2 {
      assert WriteCount(b) <= 1 < |b|;
    }
  }

  /** The count io.Writer expects once every byte has been handed on. */
  function IntendedWriteCount(b: seq<byte>): (n: int)
    ensures WriterContract(|b|, n, None)
  {
    |b|
  }

  // ------------------------------------------------------------ the runner

  /** NewRunner's options. A hook option records only whether the function
      handed to it is non-nil: a nil one leaves the hook unset. */
  datatype RunnerOption =
    | WithDetectorOpts(opts: seq<TriggerOption>)
    | WithActivationFunc(nonNil: bool)
    | WithPredictionFunc(nonNil: bool)
    | WithExitFunc(nonNil: bool)

  /** What NewRunner's option closures set: the detector options and the hooks. */
  datatype RunnerSettings = RunnerSettings(detectorOpts: seq<TriggerOption>, hooks: Hooks)

  function ApplyRunnerOption(s: RunnerSettings, opt: RunnerOption): RunnerSettings {
    match opt
    case WithDetectorOpts(opts) => s.(detectorOpts := opts)
    case WithActivationFunc(f) => s.(hooks := s.hooks.(onActivation := f))
    case WithPredictionFunc(f) => s.(hooks := s.hooks.(onPrediction := f))
    case WithExitFunc(f) => s.(hooks := s.hooks.(onExit := f))
  }

  function ApplyRunnerOptions(s: RunnerSettings, opts: seq<RunnerOption>): RunnerSettings {
    if opts == [] then s else ApplyRunnerOption(ApplyRunnerOptions(s, opts[..|opts| - 1]), opts[|opts| - 1])
  }

  const NoSettings: RunnerSettings := RunnerSettings([], Hooks(false, false, false))

  datatype HookKind = OnActivationHook | OnPredictionHook | OnExitHook

  predicate SetsHook(opt: RunnerOption, kind: HookKind) {
    match kind
    case OnActivationHook => opt.WithActivationFunc?
    case OnPredictionHook => opt.WithPredictionFunc?
    case OnExitHook => opt.WithExitFunc?
  }

  function HookSet(h: Hooks, kind: HookKind): bool {
    match kind
    case OnActivationHook => h.onActivation
    case OnPredictionHook => h.onPrediction
    case OnExitHook => h.onExit
  }

  /** The last option for a hook decides it: the hook is set exactly when
      that option was given a non-nil function. */
  lemma {:induction false} LastHookOptionWins(opts: seq<RunnerOption>, kind: HookKind)
    ensures HookSet(ApplyRunnerOptions(NoSettings, opts).hooks, kind) <==>
      exists k :: 0 <= k < |opts| && SetsHook(opts[k], kind) && opts[k].nonNil
        && forall j :: k < j < |opts| ==> !SetsHook(opts[j], kind)
  {
    if opts != [] {
      var n := |opts| - 1;
      var init := opts[..n];
      LastHookOptionWins(init, kind);
      assert forall k :: 0 <= k < n ==> init[k] == opts[k];
      if SetsHook(opts[n], kind) {
        assert HookSet(ApplyRunnerOptions(NoSettings, opts).hooks, kind) == opts[n].nonNil;
      } else {
        assert HookSet(ApplyRunnerOptions(NoSettings, opts).hooks, kind)
          == HookSet(ApplyRunnerOptions(NoSettings, init).hooks, kind);
      }
    }
  }

  /** Each hook is set exactly when the last option for it was given a non-nil function. */
  lemma HookSetIffOption(opts: seq<RunnerOption>)
    ensures ApplyRunnerOptions(NoSettings, opts).hooks.onActivation <==>
      exists k :: 0 <= k < |opts| && opts[k] == WithActivationFunc(true)
        && forall j :: k < j < |opts| ==> !opts[j].WithActivationFunc?
    ensures ApplyRunnerOptions(NoSettings, opts).hooks.onPrediction <==>
      exists k :: 0 <= k < |opts| && opts[k] == WithPredictionFunc(true)
        && forall j :: k < j < |opts| ==> !opts[j].WithPredictionFunc?
    ensures ApplyRunnerOptions(NoSettings, opts).hooks.onExit <==>
      exists k :: 0 <= k < |opts| && opts[k] == WithExitFunc(true)
        && forall j :: k < j < |opts| ==> !opts[j].WithExitFunc?
  {
    LastHookOptionWins(opts, OnActivationHook);
    LastHookOptionWins(opts, OnPredictionHook);
    LastHookOptionWins(opts, OnExitHook);
  }

  // ------------------------------------------------------------ the chunk-size sentinel

  /** NewRunner as written hands the raw chunk size to the detector. With the
      sentinel -1 the cooldown is +16384, so once the counter has been reset
      it sits above the trigger level, and every further activated batch the
      worker scores fires again and calls OnActivation. */
  lemma RawSentinelRefires(env: Env, w: Worker, samples: seq<int16>)
    requires WorkerOk(env, w) && !w.done && env.hooks.onActivation
    requires env.detector.chunkSize == -1 && 0 <= env.detector.triggerLevel < 8 * 2048
    requires w.activation == Cooldown(-1)
    requires var h := Listen(env.setup, env.model, w.buffers, samples);
      h.err.None? && Activated(env.detector, h.prob)
    ensures Cooldown(-1) == 8 * 2048
    ensures var h := Listen(env.setup, env.model, w.buffers, samples);
      var r := Handle(env, w, Batch(samples));
      && !r.done && r.activation == w.activation
      && r.events == w.events + BatchEvents(env.hooks, h.prob, true)
  {
    CooldownValues();
  }

  /** NewRunner as written with chunk size 0: the first reset of the
      detector divides by zero and the worker panics. */
  lemma RawZeroChunkPanics(env: Env, w: Worker, samples: seq<int16>)
    requires WorkerOk(env, w) && !w.done && env.detector.chunkSize == 0
    requires var h := Listen(env.setup, env.model, w.buffers, samples);
      h.err.None? && Resets(env.detector, w.activation, h.prob)
    ensures Handle(env, w, Batch(samples)).panicked
    ensures CountExits(Handle(env, w, Batch(samples)).events) == CountExits(w.events)
  {
    HandleExits(env, w, Batch(samples));
  }

  /** The cooldown computed from the chunk size the runner reads with. */
  function IntendedCooldown(chunkSize: int): (r: int)
    requires chunkSize >= -1
    ensures chunkSize == 0 || chunkSize == -1 ==> r == -8
    ensures r <= 0
  {
    CooldownValues();
    Cooldown(EffectiveChunkSize(chunkSize))
  }

  /** A detector given the effective chunk size (the corrected NewRunner,
      Runner.Intended) is silent for -cooldown chunks after each firing, for
      every runner chunk size from -1 to 16384, the sentinel included. */
  lemma RunnerDetectorSilentAfterFiring(chunkSize: int, c: Config, a: int, prob: real, probs: seq<real>)
    requires -1 <= chunkSize <= 8 * 2048 && c.chunkSize == EffectiveChunkSize(chunkSize)
    requires c.triggerLevel >= 0 && Step(c, a, prob).fired
    requires |probs| <= -IntendedCooldown(chunkSize)
    ensures Cooldown(c.chunkSize) == IntendedCooldown(chunkSize) < 0
    ensures NoneFired(Feed(c, Cooldown(c.chunkSize), Step(c, a, prob).activation, probs))
  {
    SilentAfterFiring(c, a, prob, probs);
  }

  /** NewRunner's option loop: each option closure in order. */
  method CollectSettings(opts: seq<RunnerOption>) returns (settings: RunnerSettings)
    ensures settings == ApplyRunnerOptions(NoSettings, opts)
  {
    settings := NoSettings;
    for i := 0 to |opts|
      invariant settings == ApplyRunnerOptions(NoSettings, opts[..i])
    {
      assert opts[..i + 1][..i] == opts[..i];
      settings := ApplyRunnerOption(settings, opts[i]);
    }
    assert opts[..|opts|] == opts;
  }

  class Runner {
    const listener: Listener?
    var detector: TriggerDetector
    var detectorOpts: seq<TriggerOption>
    const chunkSize: int
    var running: bool
    var hooks: Hooks
    /** Goroutines started by Start. */
    var workers: nat
    /** The sample slices handed to the sample channel, in order. */
    var sent: seq<seq<int16>>
    /** Whether the close channel has been closed. */
    var closeSignalled: bool
    /** The hook calls made by the worker, in order. */
    var events: seq<Event>

    /** NewRunner: options first, then a detector with the runner's chunk
        size as given and the chosen detector options, then Start. */
    constructor (listener: Listener?, chunkSize: int, opts: seq<RunnerOption>)
      ensures this.listener == listener && this.chunkSize == chunkSize
      ensures RunnerSettings(detectorOpts, hooks) == ApplyRunnerOptions(NoSettings, opts)
      ensures fresh(detector)
      ensures detector.Settings() == ApplyAll(Defaults(chunkSize), detectorOpts)
      ensures detector.Settings().chunkSize == chunkSize && detector.activation == 0
      ensures running && workers == 1
      ensures sent == [] && events == [] && !closeSignalled
    {
      this.listener := listener;
      this.chunkSize := chunkSize;
      var settings := CollectSettings(opts);
      detectorOpts := settings.detectorOpts;
      hooks := settings.hooks;
      detector := new TriggerDetector(chunkSize, settings.detectorOpts);
      running := false;
      workers := 0;
      sent := [];
      closeSignalled := false;
      events := [];
      new;
      Start();
    }

    /** NewRunner as evidently intended: the detector gets the effective
        chunk size (0 and -1 mean 2048, as for ReadFrom's buffer), so its
        cooldown is never positive and never a division by zero. */
    constructor Intended(listener: Listener?, chunkSize: int, opts: seq<RunnerOption>)
      ensures this.listener == listener && this.chunkSize == chunkSize
      ensures RunnerSettings(detectorOpts, hooks) == ApplyRunnerOptions(NoSettings, opts)
      ensures fresh(detector)
      ensures detector.Settings() == ApplyAll(Defaults(EffectiveChunkSize(chunkSize)), detectorOpts)
      ensures detector.Settings().chunkSize == EffectiveChunkSize(chunkSize) && detector.activation == 0
      ensures running && workers == 1
      ensures sent == [] && events == [] && !closeSignalled
    {
      this.listener := listener;
      this.chunkSize := chunkSize;
      var settings := CollectSettings(opts);
      detectorOpts := settings.detectorOpts;
      hooks := settings.hooks;
      detector := new TriggerDetector(EffectiveChunkSize(chunkSize), settings.detectorOpts);
      running := false;
      workers := 0;
      sent := [];
      closeSignalled := false;
      events := [];
      new;
      Start();
    }

    /** Start: a stopped runner is marked running and a worker is started. */
    method Start()
      modifies this`running, this`workers
      ensures running
      ensures workers == if old(running) then old(workers) else old(workers) + 1
    {
      if running {
        return;
      }
      running := true;
      workers := workers + 1;
    }

    /** Stop: marks the runner not running; the worker leaves its loop the
        next time it checks. */
    method Stop()
      modifies this`running
      ensures !running
    {
      if !running {
        return;
      }
      running := false;
    }

    /** Close: stops, signals the close channel, and closes the listener if
        there is one. Closing the channel twice panics in Go. */
    method Close() returns (err: Option<Error>)
      requires !closeSignalled
      requires listener != null ==> listener.model.Some?
      modifies this`running, this`closeSignalled, (if listener == null then {} else {listener})`model
      ensures !running && closeSignalled
      ensures listener == null ==> err.None?
      ensures listener != null ==> err == old(listener.model).value.closeResult
      ensures listener != null ==> listener.model == if err.None? then None else old(listener.model)
    {
      Stop();
      closeSignalled := true;
      if listener != null {
        err := listener.Close();
        return;
      }
      err := None;
    }

    /** Write: the samples of the bytes go to the worker; the count returned
        is len(b) % 2, as written, and the error is always nil. */
    method Write(b: seq<byte>) returns (n: int, err: Option<Error>)
      modifies this`sent
      ensures sent == old(sent) + [DecodeSamples(b)]
      ensures n == WriteCount(b) && err.None?
    {
      var samples := BytesToSamples(b);
      sent := sent + [samples];
      return |b| % 2, None;
    }

    /** Write as io.Writer intends it: every byte is reported as written. */
    method WriteIntended(b: seq<byte>) returns (n: int, err: Option<Error>)
      modifies this`sent
      ensures sent == old(sent) + [DecodeSamples(b)]
      ensures n == IntendedWriteCount(b) && err.None?
      ensures WriterContract(|b|, n, err)
    {
      var samples := BytesToSamples(b);
      sent := sent + [samples];
      return |b|, None;
    }

    /** Queue: the samples go to the worker unchanged. */
    method Queue(samples: seq<int16>)
      modifies this`sent
      ensures sent == old(sent) + [samples]
    {
      sent := sent + [samples];
    }

    /** ReadFrom over a finite schedule of Read results that ends with an
        error: each successful read's samples are sent; io.EOF ends it with
        the byte total, any other error with -1 and that error. The bytes
        returned alongside an error are dropped, as the source does. */
    method ReadFrom(results: seq<ReadResult>) returns (total: int, err: Option<Error>)
      requires chunkSize >= -1
      requires forall i :: 0 <= i < |results| ==> |results[i].data| <= EffectiveChunkSize(chunkSize)
      requires exists i :: 0 <= i < |results| && results[i].err.Some?
      modifies this`sent
      ensures var k := FirstStop(results);
        && sent == old(sent) + SentChunks(results[..k])
        && (results[k].err == Some(EOF) ==> total == BytesRead(results[..k]) && err.None?)
        && (results[k].err != Some(EOF) ==> total == -1 && err == Some(results[k].err.value.error))
    {
      var k := FirstStop(results);
      total := 0;
      var i := 0;
      while i < k
        invariant 0 <= i <= k
        invariant total == BytesRead(results[..i])
        invariant sent == old(sent) + SentChunks(results[..i])
      {
        var r := results[i];
        assert results[..i + 1][..i] == results[..i];
        total := total + |r.data|;
        var samples := BytesToSamples(r.data);
        sent := sent + [samples];
        i := i + 1;
      }
      if results[k].err != Some(EOF) {
        return -1, Some(results[k].err.value.error);
      }
      return total, None;
    }

    function Environment(): Env
      reads this, listener, detector
      requires listener != null
    {
      Env(listener.Fixed(), listener.model, detector.Settings(), hooks)
    }

    function WorkerState(err: Option<Error>, done: bool, panicked: bool): Worker
      reads this, listener, detector
      requires listener != null
    {
      Worker(listener.State(), detector.activation, err, events, done, panicked)
    }

    /** One received batch: score it, then the hooks and the detector. */
    method ProcessBatch(samples: seq<int16>, ghost lastErr: Option<Error>) returns (err: Option<Error>, panicked: bool)
      requires listener != null && listener.Valid()
      requires EnvOk(Environment())
      modifies this`events, listener`windowAudio, listener`mfccs, detector`activation
      ensures listener.Valid() && Environment() == old(Environment())
      ensures WorkerState(err, panicked, panicked)
        == Handle(old(Environment()), old(WorkerState(lastErr, false, false)), Batch(samples))
    {
      ghost var env := Environment();
      ghost var w := WorkerState(lastErr, false, false);
      ghost var h := Listen(env.setup, env.model, w.buffers, samples);
      var prob, e := listener.Update(samples);
      assert Heard(listener.State(), prob, e) == h;
      err := e;
      panicked := false;
      if e.None? {
        panicked := Notify(prob);
      }
    }

    /** A scored batch: OnPrediction if set, then the detector, then
        OnActivation if it fired. A reset with chunk size 0 (an integer
        division by zero) and a firing with OnActivation unset (a nil call)
        are runtime panics: the method reports them and stops there. */
    method Notify(prob: real) returns (panicked: bool)
      modifies this`events, detector`activation
      ensures var c, a := old(detector.Settings()), old(detector.activation);
        && (DividesByZero(c, a, prob) ==>
              panicked && detector.activation == a && events == old(events) + BatchEvents(hooks, prob, false))
        && (!DividesByZero(c, a, prob) ==>
              var st := Step(c, a, prob);
              && detector.activation == st.activation
              && (panicked <==> st.fired && !hooks.onActivation)
              && events == old(events) + BatchEvents(hooks, prob, st.fired && hooks.onActivation))
    {
      if hooks.onPrediction {
        events := events + [Prediction(prob)];
      }
      if detector.chunkSize == 0 && Resets(detector.Settings(), detector.activation, prob) {
        return true;
      }
      var fired := detector.Update(prob);
      if fired {
        if !hooks.onActivation {
          return true;
        }
        events := events + [Activation];
      }
      return false;
    }

    /** After the loop: running is cleared and OnExit, if set, gets the last error. */
    method Leave(err: Option<Error>)
      modifies this`running, this`events
      ensures !running
      ensures events == if hooks.onExit then old(events) + [Exit(err)] else old(events)
    {
      running := false;
      if hooks.onExit {
        events := events + [Exit(err)];
      }
    }

    /** The batches handlePredictions' loop scores before its first
        non-batch input, one ProcessBatch each, stopping early at a panic. */
    method ScoreBatches(inputs: seq<WorkerInput>, ghost env: Env, ghost w0: Worker)
      returns (i: nat, err: Option<Error>, panicked: bool)
      requires listener != null && listener.Valid() && running
      requires EnvOk(env) && env == Environment() && w0 == WorkerState(None, false, false)
      modifies this`events, listener`windowAudio, listener`mfccs, detector`activation
      ensures i <= |inputs| && listener.Valid() && Environment() == env
      ensures WorkerState(err, panicked, panicked) == Run(env, w0, inputs[..i])
      ensures !panicked && i < |inputs| ==> !inputs[i].Batch?
    {
      ghost var w := w0;
      err := None;
      panicked := false;
      i := 0;
      while i < |inputs| && !panicked
        invariant 0 <= i <= |inputs|
        invariant listener.Valid() && Environment() == env
        invariant WorkerOk(env, w) && w == Run(env, w0, inputs[..i])
        invariant WorkerState(err, panicked, panicked) == w
      {
        if !inputs[i].Batch? {
          break;
        }
        RunStep(env, w0, inputs, i);
        err, panicked := ProcessBatch(inputs[i].samples, err);
        w := Handle(env, w, inputs[i]);
        i := i + 1;
      }
    }

    /** handlePredictions over a schedule of what its select receives: each
        batch is scored by the listener, passed to OnPrediction and to the
        detector, with OnActivation on a firing; the loop ends when running is
        found false or either channel is closed, and then running is cleared
        and OnExit gets the last error. A panic stops everything at once. */
    method HandlePredictions(inputs: seq<WorkerInput>) returns (panicked: bool)
      requires listener != null && listener.Valid() && running
      requires EnvOk(Environment())
      modifies this`running, this`events, listener`windowAudio, listener`mfccs, detector`activation
      ensures listener.Valid()
      ensures var w := Run(old(Environment()), old(WorkerState(None, false, false)), inputs);
        && listener.State() == w.buffers
        && detector.activation == w.activation
        && events == w.events
        && panicked == w.panicked
        && running == (!w.done || w.panicked)
    {
      ghost var env := Environment();
      ghost var w0 := WorkerState(None, false, false);
      var i, err;
      i, err, panicked := ScoreBatches(inputs, env, w0);
      if panicked {
        RunTail(env, w0, inputs, i);
      } else if i < |inputs| {
        RunStep(env, w0, inputs, i);
        RunTail(env, w0, inputs, i + 1);
        Leave(err);
      } else {
        assert inputs[..i] == inputs;
      }
    }
  }
}

/** detector.go: the trigger detector that turns per-chunk probabilities into
    activations. It counts chunks above the sensitivity threshold, fires when
    the count passes the trigger level, and then holds a negative cooldown
    counter. float32 values are modelled as reals, Go's int as an unbounded
    integer. */
module Detector {
  import opened GoNumeric

  /** The functional options WithSensitivity and WithTriggerLevel. */
  datatype TriggerOption = WithSensitivity(sensitivity: real) | WithTriggerLevel(triggerLevel: int)

  /** The detector's settings; none of them changes after construction. */
  datatype Config = Config(chunkSize: int, sensitivity: real, triggerLevel: int)

  const DefaultSensitivity: real := 0.5
  const DefaultTriggerLevel: int := 3

  /** The settings NewTriggerDetector starts from before applying options. */
  function Defaults(chunkSize: int): Config {
    Config(chunkSize, DefaultSensitivity, DefaultTriggerLevel)
  }

  /** Running one option closure on the settings. */
  function ApplyOption(c: Config, opt: TriggerOption): Config {
    match opt
    case WithSensitivity(s) => c.(sensitivity := s)
    case WithTriggerLevel(l) => c.(triggerLevel := l)
  }

  /** Running the option closures in order; none of them touches the chunk size. */
  function ApplyAll(c: Config, opts: seq<TriggerOption>): (r: Config)
    ensures r.chunkSize == c.chunkSize
  {
    if opts == [] then c else ApplyOption(ApplyAll(c, opts[..|opts| - 1]), opts[|opts| - 1])
  }

  /** The last WithSensitivity option wins. */
  lemma {:induction false} LastSensitivityWins(c: Config, opts: seq<TriggerOption>, k: int)
    requires 0 <= k < |opts| && opts[k].WithSensitivity?
    requires forall j :: k < j < |opts| ==> !opts[j].WithSensitivity?
    ensures ApplyAll(c, opts).sensitivity == opts[k].sensitivity
  {
    if k < |opts| - 1 {
      LastSensitivityWins(c, opts[..|opts| - 1], k);
    }
  }

  /** The last WithTriggerLevel option wins. */
  lemma {:induction false} LastTriggerLevelWins(c: Config, opts: seq<TriggerOption>, k: int)
    requires 0 <= k < |opts| && opts[k].WithTriggerLevel?
    requires forall j :: k < j < |opts| ==> !opts[j].WithTriggerLevel?
    ensures ApplyAll(c, opts).triggerLevel == opts[k].triggerLevel
  {
    if k < |opts| - 1 {
      LastTriggerLevelWins(c, opts[..|opts| - 1], k);
    }
  }

  /** Without a WithSensitivity option the sensitivity is kept. */
  lemma {:induction false} SensitivityKept(c: Config, opts: seq<TriggerOption>)
    requires forall j :: 0 <= j < |opts| ==> !opts[j].WithSensitivity?
    ensures ApplyAll(c, opts).sensitivity == c.sensitivity
  {
    if opts != [] {
      SensitivityKept(c, opts[..|opts| - 1]);
    }
  }

  /** Without a WithTriggerLevel option the trigger level is kept. */
  lemma {:induction false} TriggerLevelKept(c: Config, opts: seq<TriggerOption>)
    requires forall j :: 0 <= j < |opts| ==> !opts[j].WithTriggerLevel?
    ensures ApplyAll(c, opts).triggerLevel == c.triggerLevel
  {
    if opts != [] {
      TriggerLevelKept(c, opts[..|opts| - 1]);
    }
  }

  /** The cooldown counter set after a firing: Go's truncating
      -(8 * 2048) / chunkSize. */
  function Cooldown(chunkSize: int): (r: int)
    requires chunkSize != 0
    ensures Abs(r * chunkSize) <= 8 * 2048 < Abs(r * chunkSize) + Abs(chunkSize)
    ensures chunkSize > 0 ==> r <= 0
    ensures chunkSize < 0 ==> r >= 0
  {
    var r := Quot(-(8 * 2048), chunkSize);
    CooldownFacts(chunkSize, r);
    r
  }

  lemma CooldownFacts(chunkSize: int, r: int)
    requires chunkSize != 0 && r == Quot(-(8 * 2048), chunkSize)
    ensures Abs(r * chunkSize) <= 8 * 2048 < Abs(r * chunkSize) + Abs(chunkSize)
    ensures chunkSize > 0 ==> r <= 0
    ensures chunkSize < 0 ==> r >= 0
  {
    var rem := -(8 * 2048) - r * chunkSize;
    assert Abs(rem) < Abs(chunkSize);
    assert rem == 0 || rem < 0;
    if chunkSize > 0 {
      if r > 0 {
        IntMulMonotone(1, r, chunkSize);
        assert false;
      }
      assert r * chunkSize <= 0;
    } else {
      if r < 0 {
        IntMulMonotone(1, -r, -chunkSize);
        assert false;
      }
      assert r * chunkSize <= 0 by {
        IntMulMonotone(1, r + 1, -chunkSize);
      }
    }
  }

  /** Concrete cooldowns: Go truncation (not Euclidean division). */
  lemma CooldownValues()
    ensures Cooldown(2048) == -8
    ensures Cooldown(1024) == -16
    ensures Cooldown(3000) == -5
    ensures Cooldown(-1) == 8 * 2048
  {
    QuotIsNotEuclidean();
    assert Quot(-16384, 1024) == -16;
    assert Quot(-16384, -1) == 16384;
  }

  /** A chunk is activated when its probability exceeds 1 - sensitivity. */
  predicate Activated(c: Config, prob: real) {
    prob > 1.0 - c.sensitivity
  }

  /** The chunk is counted: it is activated, or the counter is still cooling down. */
  predicate Counted(c: Config, activation: int, prob: real) {
    Activated(c, prob) || activation < 0
  }

  /** Update reaches the cooldown assignment, where Go divides by the chunk size. */
  predicate Resets(c: Config, activation: int, prob: real) {
    && Counted(c, activation, prob)
    && (activation + 1 > c.triggerLevel || (Activated(c, prob) && activation + 1 < 0))
  }

  datatype StepResult = StepResult(activation: int, fired: bool)

  /** One Update with the cooldown value passed in: the counter advances on a
      counted chunk, fires past the trigger level, is reset to the cooldown on
      a firing or on an activated chunk still in cooldown, and decays by one
      on a quiet chunk. */
  function Advance(c: Config, cooldown: int, activation: int, prob: real): (r: StepResult)
    ensures r.fired <==> Counted(c, activation, prob) && activation >= c.triggerLevel
    ensures Resets(c, activation, prob) ==> r.activation == cooldown
    ensures Counted(c, activation, prob) && !Resets(c, activation, prob) ==> r.activation == activation + 1
    ensures !Counted(c, activation, prob) ==> r.activation == if activation > 0 then activation - 1 else activation
    ensures activation < 0 && c.triggerLevel >= 0 ==> !r.fired
  {
    var chunkActivated := Activated(c, prob);
    if chunkActivated || activation < 0 then
      var a := activation + 1;
      var hasActivated := a > c.triggerLevel;
      var a' := if hasActivated || (chunkActivated && a < 0) then cooldown else a;
      StepResult(a', hasActivated)
    else if activation > 0 then
      StepResult(activation - 1, false)
    else
      StepResult(activation, false)
  }

  /** TriggerDetector.Update. A detector built with chunk size 0 only divides
      by zero when it resets, so the precondition asks for a non-zero chunk
      size only then. */
  function Step(c: Config, activation: int, prob: real): (r: StepResult)
    requires c.chunkSize != 0 || !Resets(c, activation, prob)
    ensures c.chunkSize != 0 ==> r == Advance(c, Cooldown(c.chunkSize), activation, prob)
    ensures !Resets(c, activation, prob) ==> r == Advance(c, 0, activation, prob)
  {
    Advance(c, if Resets(c, activation, prob) then Cooldown(c.chunkSize) else 0, activation, prob)
  }

  class TriggerDetector {
    const chunkSize: int
    var sensitivity: real
    var triggerLevel: int
    var activation: int

    function Settings(): Config
      reads this
    {
      Config(chunkSize, sensitivity, triggerLevel)
    }

    /** NewTriggerDetector: defaults, then each option closure in order. */
    constructor (chunkSize: int, opts: seq<TriggerOption>)
      ensures Settings() == ApplyAll(Defaults(chunkSize), opts)
      ensures activation == 0
    {
      this.chunkSize := chunkSize;
      sensitivity := DefaultSensitivity;
      triggerLevel := DefaultTriggerLevel;
      activation := 0;
      new;
      for i := 0 to |opts|
        invariant Settings() == ApplyAll(Defaults(chunkSize), opts[..i])
        invariant activation == 0
      {
        assert opts[..i + 1][..i] == opts[..i];
        match opts[i]
        case WithSensitivity(s) =>
          sensitivity := s;
        case WithTriggerLevel(l) =>
          triggerLevel := l;
      }
      assert opts[..|opts|] == opts;
    }

    /** Update adds the chunk's probability to the detection history and
        reports whether the wake word fired. */
    method Update(prob: real) returns (fired: bool)
      requires chunkSize != 0 || !Resets(Settings(), activation, prob)
      modifies this`activation
      ensures StepResult(activation, fired) == Step(Settings(), old(activation), prob)
    {
      var chunkActivated := prob > 1.0 - sensitivity;
      if chunkActivated || activation < 0 {
        activation := activation + 1;
        var hasActivated := activation > triggerLevel;
        if hasActivated || (chunkActivated && activation < 0) {
          activation := Quot(-(8 * 2048), chunkSize);
        }
        if hasActivated {
          return true;
        }
      } else if activation > 0 {
        activation := activation - 1;
      }
      return false;
    }
  }

  // ------------------------------------------------------------ streams of chunks

  datatype Trace = Trace(activation: int, fired: seq<bool>)

  /** Feeding probabilities one after another, with the given cooldown. */
  function Feed(c: Config, cooldown: int, activation: int, probs: seq<real>): (r: Trace)
    ensures |r.fired| == |probs|
    decreases |probs|
  {
    if probs == [] then Trace(activation, [])
    else
      var s := Advance(c, cooldown, activation, probs[0]);
      var t := Feed(c, cooldown, s.activation, probs[1..]);
      Trace(t.activation, [s.fired] + t.fired)
  }

  predicate AllActivated(c: Config, probs: seq<real>) {
    forall i :: 0 <= i < |probs| ==> Activated(c, probs[i])
  }

  predicate AllQuiet(c: Config, probs: seq<real>) {
    forall i :: 0 <= i < |probs| ==> !Activated(c, probs[i])
  }

  predicate NoneFired(t: Trace) {
    forall i :: 0 <= i < |t.fired| ==> !t.fired[i]
  }

  /** From a counter a in [0, level], level + 1 - a activated chunks in a row
      fire exactly once, on the last one, and leave the cooldown. */
  lemma {:induction false} FiresAfterLevelPlusOne(c: Config, cooldown: int, a: int, probs: seq<real>)
    requires 0 <= a <= c.triggerLevel && |probs| == c.triggerLevel + 1 - a
    requires AllActivated(c, probs)
    ensures var t := Feed(c, cooldown, a, probs);
      && t.activation == cooldown
      && t.fired[|probs| - 1]
      && forall i :: 0 <= i < |probs| - 1 ==> !t.fired[i]
    decreases |probs|
  {
    var s := Advance(c, cooldown, a, probs[0]);
    if |probs| > 1 {
      assert !s.fired && s.activation == a + 1;
      assert AllActivated(c, probs[1..]) by {
        forall i | 0 <= i < |probs| - 1 ensures Activated(c, probs[1..][i]) {
          assert probs[1..][i] == probs[i + 1];
        }
      }
      FiresAfterLevelPlusOne(c, cooldown, a + 1, probs[1..]);
    }
  }

  /** A quiet stream from a non-positive counter never fires; the counter
      climbs back to zero and stays there. */
  lemma {:induction false} QuietStreamSilent(c: Config, cooldown: int, a: int, probs: seq<real>)
    requires c.triggerLevel >= 0 && a <= 0 && AllQuiet(c, probs)
    ensures NoneFired(Feed(c, cooldown, a, probs))
    ensures Feed(c, cooldown, a, probs).activation == if a + |probs| < 0 then a + |probs| else 0
    decreases |probs|
  {
    if probs != [] {
      var s := Advance(c, cooldown, a, probs[0]);
      assert !s.fired && s.activation == if a < 0 then a + 1 else 0;
      assert AllQuiet(c, probs[1..]) by {
        forall i | 0 <= i < |probs| - 1 ensures !Activated(c, probs[1..][i]) {
          assert probs[1..][i] == probs[i + 1];
        }
      }
      QuietStreamSilent(c, cooldown, s.activation, probs[1..]);
    }
  }

  /** During a negative cooldown from a, whatever the probabilities, the next
      -a chunks do not fire and the counter stays in [cooldown, 0]. */
  lemma {:induction false} Refractory(c: Config, cooldown: int, a: int, probs: seq<real>)
    requires c.triggerLevel >= 0 && cooldown <= a < 0 && |probs| <= -a
    ensures NoneFired(Feed(c, cooldown, a, probs))
    ensures cooldown <= Feed(c, cooldown, a, probs).activation <= 0
    decreases |probs|
  {
    if probs != [] {
      var s := Advance(c, cooldown, a, probs[0]);
      assert !s.fired;
      assert s.activation == a + 1 || s.activation == cooldown;
      if s.activation < 0 {
        Refractory(c, cooldown, s.activation, probs[1..]);
      } else {
        assert probs[1..] == [];
      }
    }
  }

  /** After a firing with a chunk size in (0, 16384], the detector stays
      silent for the next -Cooldown(chunkSize) chunks, whatever they hold. */
  lemma SilentAfterFiring(c: Config, a: int, prob: real, probs: seq<real>)
    requires 0 < c.chunkSize <= 8 * 2048 && c.triggerLevel >= 0
    requires Step(c, a, prob).fired
    requires |probs| <= -Cooldown(c.chunkSize)
    ensures NoneFired(Feed(c, Cooldown(c.chunkSize), Step(c, a, prob).activation, probs))
  {
    var cd := Cooldown(c.chunkSize);
    assert cd < 0 by {
      if cd == 0 {
        assert false;
      }
    }
    Refractory(c, cd, cd, probs);
  }

  // ------------------------------------------------------------ the chunk-size sentinel

  /** As written, the detector divides by the raw chunk size, so the sentinel
      -1 gives a positive cooldown of 16384: after a firing the counter sits
      above any practical trigger level and every further activated chunk
      fires again. */
  lemma {:induction false} SentinelChunkRefires(c: Config, a: int, probs: seq<real>)
    requires c.chunkSize == -1 && 0 <= c.triggerLevel < 8 * 2048
    requires a == Cooldown(c.chunkSize) && AllActivated(c, probs)
    ensures forall i :: 0 <= i < |probs| ==> Feed(c, Cooldown(c.chunkSize), a, probs).fired[i]
    decreases |probs|
  {
    CooldownValues();
    if probs != [] {
      var s := Advance(c, a, a, probs[0]);
      assert s.fired && s.activation == a;
      assert AllActivated(c, probs[1..]) by {
        forall i | 0 <= i < |probs| - 1 ensures Activated(c, probs[1..][i]) {
          assert probs[1..][i] == probs[i + 1];
        }
      }
      SentinelChunkRefires(c, a, probs[1..]);
      var t := Feed(c, a, a, probs[1..]);
      assert Feed(c, a, a, probs).fired == [true] + t.fired;
    }
  }
}

/**
 What the engine sounds like, in closed form: sample t of a render call as a
 formula over the voices at its start, with no step taken.
*/
module Sounds {
  import opened Voices

  /** A whole turn of the oscillator. */
  const CYCLE: real := 6.283185307179586

  function Least(a: int, b: int): int { if a < b then a else b }

  /**
   The phase t frames after `phase`: one cycle is taken off whenever it is reached,
   at most one per frame.
  */
  function PhaseAfter(phase: real, phaseInc: real, t: nat): real {
    var turned := phase + t as real * phaseInc;
    turned - Least(t, (turned / CYCLE).Floor) as real * CYCLE
  }

  /** Gains add up and are limited to [0, 1]. */
  function Loudness(gain: real, globalMod: real, modGain: real): real {
    var sum := gain + globalMod + modGain;
    if sum > 1.0 then 1.0 else if sum < 0.0 then 0.0 else sum
  }

  /** A voice that is released fades by `releaseStep` per frame; any other stays at full gain. */
  function Fade(v: Voice, t: nat): real {
    if v.releasing then v.releaseGain - (t + 1) as real * v.releaseStep else 1.0
  }

  /** What a voice adds to frame t. */
  function Contribution(sin: real -> real, gain: real, globalMod: real, v: Voice, t: nat): real {
    if !v.active || Fade(v, t) <= 0.0 then 0.0
    else sin(PhaseAfter(v.phase, v.phaseInc, t)) * v.velocity * Loudness(gain, globalMod, v.modGain) * Fade(v, t)
  }

  function Sum(sin: real -> real, gain: real, globalMod: real, vs: seq<Voice>, t: nat): real {
    if vs == [] then 0.0
    else Sum(sin, gain, globalMod, vs[..|vs| - 1], t) + Contribution(sin, gain, globalMod, vs[|vs| - 1], t)
  }

  /** Voices as the engine makes them: they turn forwards and fade downwards. */
  predicate Playable(v: Voice) {
    v.active ==> v.phase >= 0.0 && v.phaseInc >= 0.0 && v.releaseStep >= 0.0
  }

  // ---- the phase ----

  /** The number of whole cycles in x. */
  function Cycles(x: real): int { (x / CYCLE).Floor }

  lemma Scaled(a: real, b: real)
    requires a <= b
    ensures a * CYCLE <= b * CYCLE && (a < b ==> a * CYCLE < b * CYCLE)
  {
  }

  lemma CyclesAtLeast(x: real, n: int)
    ensures Cycles(x) >= n <==> x >= n as real * CYCLE
  {
    var q := x / CYCLE;
    assert x == q * CYCLE;
    if q >= n as real {
      Scaled(n as real, q);
    } else {
      Scaled(q, n as real);
    }
  }

  lemma Faster(t: nat, phaseInc: real)
    requires phaseInc >= CYCLE
    ensures t as real * phaseInc >= t as real * CYCLE
  {
    assert t as real * (phaseInc - CYCLE) >= 0.0;
  }

  /** A phase that has left cycles uncounted turns by less than a cycle per frame. */
  lemma Slow(phase: real, phaseInc: real, t: nat)
    requires phase >= 0.0 && Cycles(phase + t as real * phaseInc) < t
    ensures phaseInc < CYCLE
  {
    hide Cycles;
    CyclesAtLeast(phase + t as real * phaseInc, t);
    if phaseInc >= CYCLE {
      Faster(t, phaseInc);
    }
  }

  lemma OneMore(n: int, c: real)
    ensures (n + 1) as real * c == n as real * c + c
  {
  }

  lemma PhaseIs(phase: real, phaseInc: real, t: nat, x: real)
    requires x == phase + t as real * phaseInc
    ensures PhaseAfter(phase, phaseInc, t) == x - Least(t, Cycles(x)) as real * CYCLE
  {
  }

  /** One more frame turns the phase as the closed form says. */
  lemma OneTurn(phase: real, phaseInc: real, t: nat)
    requires phase >= 0.0 && phaseInc >= 0.0
    ensures var p := PhaseAfter(phase, phaseInc, t) + phaseInc;
      PhaseAfter(phase, phaseInc, t + 1) == if p >= CYCLE then p - CYCLE else p
  {
    hide *;
    var x, y := phase + t as real * phaseInc, phase + (t + 1) as real * phaseInc;
    var j := Least(t, Cycles(x));
    OneMore(t, phaseInc);
    PhaseIs(phase, phaseInc, t, x);
    PhaseIs(phase, phaseInc, t + 1, y);
    CountNext(phase, phaseInc, t, x, y);
    OneMore(j, CYCLE);
    CyclesAtLeast(y, j + 1);
  }

  lemma CountNext(phase: real, phaseInc: real, t: nat, x: real, y: real)
    requires phase >= 0.0 && phaseInc >= 0.0 && x == phase + t as real * phaseInc && y == x + phaseInc
    ensures var j := Least(t, Cycles(x));
      Least(t + 1, Cycles(y)) == if Cycles(y) >= j + 1 then j + 1 else j
  {
    hide Cycles;
    CyclesAtLeast(x, Cycles(x));
    CyclesAtLeast(y, Cycles(x));
    if Cycles(x) < t {
      Slow(phase, phaseInc, t);
      CyclesAtLeast(x, Cycles(x) + 1);
      CyclesAtLeast(y, Cycles(x) + 2);
    }
  }

  predicate CyclesApart(p: real, q: real, j: int) { p == q - j as real * CYCLE }

  ghost predicate SamePhase(p: real, q: real) { exists j :: CyclesApart(p, q, j) }

  /** The phase is that of an oscillator that has turned all the time, up to whole cycles. */
  lemma PhaseWhole(phase: real, phaseInc: real, t: nat)
    requires 0.0 <= phase < CYCLE && 0.0 <= phaseInc <= CYCLE
    ensures 0.0 <= PhaseAfter(phase, phaseInc, t) < CYCLE
    ensures SamePhase(PhaseAfter(phase, phaseInc, t), phase + t as real * phaseInc)
  {
    var x := phase + t as real * phaseInc;
    var j := Least(t, Cycles(x));
    assert CyclesApart(PhaseAfter(phase, phaseInc, t), x, j);
    InOneCycle(phase, phaseInc, t, x);
  }

  lemma InOneCycle(phase: real, phaseInc: real, t: nat, x: real)
    requires 0.0 <= phase < CYCLE && 0.0 <= phaseInc <= CYCLE && x == phase + t as real * phaseInc
    ensures 0.0 <= x - Least(t, Cycles(x)) as real * CYCLE < CYCLE
  {
    hide Cycles;
    var n := Cycles(x);
    CyclesAtLeast(x, n);
    CyclesAtLeast(x, n + 1);
    CyclesAtLeast(x, t + 1);
    Slower(t, phaseInc);
    hide *;
    OneMore(t, CYCLE);
    OneMore(n, CYCLE);
    assert n <= t;
    LeastIs(t, n);
  }

  lemma LeastIs(a: int, b: int)
    requires b <= a
    ensures Least(a, b) == b
  {
  }

  lemma Slower(t: nat, phaseInc: real)
    requires phaseInc <= CYCLE
    ensures t as real * phaseInc <= t as real * CYCLE
  {
    assert t as real * (CYCLE - phaseInc) >= 0.0;
  }

  // ---- one voice ----

  lemma FadeNext(v: Voice, t: nat)
    requires v.releasing
    ensures Fade(v, t + 1) == Fade(v, t) - v.releaseStep
  {
    assert (t + 2) as real * v.releaseStep == (t + 1) as real * v.releaseStep + v.releaseStep;
  }

  /** Where a sounding voice is after t frames, if it has not faded by then. */
  lemma {:induction false} VoiceAfter(v: Voice, t: nat)
    requires Playable(v) && v.active
    ensures var r := Advance(v, t);
      (r.active <==> t == 0 || Fade(v, t - 1) > 0.0) &&
      (r.active ==> r.phase == PhaseAfter(v.phase, v.phaseInc, t)) &&
      (r.active && v.releasing ==> r.releaseGain - v.releaseStep == Fade(v, t))
  {
    hide PhaseAfter, Fade;
    if t == 0 {
      AtStart(v);
    } else {
      VoiceAfter(v, t - 1);
      OneTurn(v.phase, v.phaseInc, t - 1);
      FadeFacts(v, t - 1);
    }
  }

  lemma AtStart(v: Voice)
    requires Playable(v) && v.active
    ensures PhaseAfter(v.phase, v.phaseInc, 0) == v.phase
    ensures v.releasing ==> Fade(v, 0) == v.releaseGain - v.releaseStep
  {
    assert 0.0 * v.phaseInc == 0.0;
    CyclesAtLeast(v.phase, 0);
  }

  lemma FadeFacts(v: Voice, t: nat)
    requires Playable(v) && v.active
    ensures !v.releasing ==> Fade(v, t) == 1.0
    ensures v.releasing ==> Fade(v, t + 1) == Fade(v, t) - v.releaseStep
    ensures t > 0 && Fade(v, t) > 0.0 ==> Fade(v, t - 1) > 0.0
  {
    if v.releasing {
      FadeNext(v, t);
      if t > 0 {
        FadeNext(v, t - 1);
      }
    }
  }

  function Product(sine: real, velocity: real, level: real, fade: real): real { sine * velocity * level * fade }

  /** The sample of one frame, while the voice goes on. */
  lemma SampleIs(k: Knobs, v: Voice)
    ensures var fade := if v.releasing then v.releaseGain - v.releaseStep else 1.0;
      var level := Loudness(k.gain, k.globalMod, v.modGain);
      Sample(k, v) == if Step(v).active then Product(k.tone.sin(v.phase), v.velocity, level, fade) else 0.0
  {
    var level := Loudness(k.gain, k.globalMod, v.modGain);
    assert Level(k, v) == level;
    Grouped(k.tone.sin(v.phase), v.velocity, level, v.releaseGain - v.releaseStep);
  }

  lemma Grouped(a: real, b: real, c: real, d: real)
    ensures a * b * c * d == a * (b * c * d)
    ensures a * b * c * 1.0 == a * (b * c)
  {
  }

  lemma ContributionIs(sin: real -> real, gain: real, globalMod: real, v: Voice, t: nat)
    ensures Contribution(sin, gain, globalMod, v, t) ==
      if !v.active || Fade(v, t) <= 0.0 then 0.0
      else
        Product(sin(PhaseAfter(v.phase, v.phaseInc, t)), v.velocity, Loudness(gain, globalMod, v.modGain), Fade(v, t))
  {
  }

  /** What a voice adds to a frame is the formula over its fields at the start. */
  lemma VoiceSounds(k: Knobs, v: Voice, t: nat)
    requires Playable(v)
    ensures Sample(k, Advance(v, t)) == Contribution(k.tone.sin, k.gain, k.globalMod, v, t)
  {
    var r := Advance(v, t);
    assert Step(r) == Advance(v, t + 1);
    hide *;
    SampleIs(k, r);
    ContributionIs(k.tone.sin, k.gain, k.globalMod, v, t);
    if v.active {
      VoiceAfter(v, t);
      VoiceAfter(v, t + 1);
      FadeFacts(v, t);
    }
  }

  // ---- the mix ----

  /**
   Every sample of a render call, in closed form: the sum over the voices that
   sound and have not faded of sine, velocity, limited gain and fade.
  */
  lemma MixdownSounds(k: Knobs, vs: seq<Voice>, n: nat)
    requires forall i | 0 <= i < |vs| :: Playable(vs[i])
    ensures forall t | 0 <= t < n :: Mixdown(k, vs, n)[t] == Sum(k.tone.sin, k.gain, k.globalMod, vs, t)
  {
    forall t | 0 <= t < n ensures Mixdown(k, vs, n)[t] == Sum(k.tone.sin, k.gain, k.globalMod, vs, t) {
      assert vs[..|vs|] == vs;
      MixSounds(k, vs, |vs|, t);
    }
  }

  lemma {:induction false} MixSounds(k: Knobs, vs: seq<Voice>, m: nat, t: nat)
    requires m <= |vs| && forall i | 0 <= i < |vs| :: Playable(vs[i])
    ensures Mix(k, vs, m, t) == Sum(k.tone.sin, k.gain, k.globalMod, vs[..m], t)
  {
    hide Contribution, Sample, Advance;
    if m > 0 {
      assert vs[..m][..m - 1] == vs[..m - 1];
      MixSounds(k, vs, m - 1, t);
      VoiceSounds(k, vs[m - 1], t);
    }
  }

  // ---- over runs ----

  ghost predicate AllPlayable(e: Engine) { forall i | 0 <= i < |e.voices| :: Playable(e.voices[i]) }

  ghost predicate PositivePowers(tone: Tone) { forall x :: tone.exp2(x) >= 0.0 }

  lemma FreshPlayable(tone: Tone, sampleRate: real, age: nat, key: int, channel: int, noteId: int, velocity: real)
    requires sampleRate > 0.0 && PositivePowers(tone)
    ensures Playable(NewVoice(tone, sampleRate, age, key, channel, noteId, velocity))
  {
    var f := KeyToFrequency(tone, key);
    assert f >= 0.0;
    assert CYCLE * f / sampleRate >= 0.0;
  }

  lemma AdvancePlayable(v: Voice, n: nat)
    requires Playable(v)
    ensures Playable(Advance(v, n))
  {
    if v.active {
      VoiceAfter(v, n);
      NeverNegative(v.phase, v.phaseInc, n);
      hide PhaseAfter, Fade;
    }
  }

  lemma NeverNegative(phase: real, phaseInc: real, t: nat)
    requires phase >= 0.0 && phaseInc >= 0.0
    ensures PhaseAfter(phase, phaseInc, t) >= 0.0
  {
    var x := phase + t as real * phaseInc;
    assert PhaseAfter(phase, phaseInc, t) == x - Least(t, Cycles(x)) as real * CYCLE;
    CyclesAtLeast(x, Least(t, Cycles(x)));
  }

  lemma PlayableNext(tone: Tone, e: Engine, op: Op)
    requires WellFormed(e) && Legal(op) && PositivePowers(tone) && AllPlayable(e)
    ensures AllPlayable(Apply(tone, e, op))
  {
    hide Advance;
    match op
    case StartNote(key, channel, noteId, velocity) =>
      FreshPlayable(tone, e.sampleRate, e.clock, key, channel, noteId, velocity);
      hide NewVoice;
    case Play(frames) =>
      forall i | 0 <= i < |e.voices| ensures Playable(Advance(e.voices[i], frames)) {
        AdvancePlayable(e.voices[i], frames);
      }
    case _ =>
  }

  /** Whatever was played before: what is rendered next is the formula over the voices then. */
  lemma {:induction false} RunPlayable(tone: Tone, e: Engine, ops: seq<Op>)
    requires WellFormed(e) && AllLegal(ops) && PositivePowers(tone) && AllPlayable(e)
    ensures AllPlayable(Run(tone, e, ops))
  {
    hide AllPlayable, Apply;
    if ops != [] {
      RunPlayable(tone, e, ops[..|ops| - 1]);
      PlayableNext(tone, Run(tone, e, ops[..|ops| - 1]), ops[|ops| - 1]);
    }
  }

  lemma RunSounds(k: Knobs, e: Engine, ops: seq<Op>, n: nat)
    requires WellFormed(e) && AllLegal(ops) && PositivePowers(k.tone) && AllPlayable(e)
    ensures var vs := Run(k.tone, e, ops).voices;
      forall t | 0 <= t < n :: Mixdown(k, vs, n)[t] == Sum(k.tone.sin, k.gain, k.globalMod, vs, t)
  {
    RunPlayable(k.tone, e, ops);
    MixdownSounds(k, Run(k.tone, e, ops).voices, n);
  }

  // ---- what a note-on starts ----

  ghost predicate Exponential(exp2: real -> real) {
    exp2(0.0) == 1.0 && exp2(1.0) == 2.0 && forall x, y :: exp2(x + y) == exp2(x) * exp2(y)
  }

  /** Each step up multiplies the frequency by the same factor. */
  lemma Interval(tone: Tone, key: int, steps: int)
    requires Exponential(tone.exp2)
    ensures KeyToFrequency(tone, key + steps) == KeyToFrequency(tone, key) * tone.exp2(steps as real / 12.0)
  {
    var x, y := (key - 69) as real / 12.0, steps as real / 12.0;
    assert (key + steps - 69) as real / 12.0 == x + y;
    assert tone.exp2(x + y) == tone.exp2(x) * tone.exp2(y);
    Regrouped(440.0, tone.exp2(x), tone.exp2(y));
  }

  /** Twelve equal steps to the octave, from 440 for key 69. */
  lemma EqualTemperament(tone: Tone, key: int)
    requires Exponential(tone.exp2)
    ensures KeyToFrequency(tone, 69) == 440.0
    ensures KeyToFrequency(tone, key + 12) == 2.0 * KeyToFrequency(tone, key)
  {
    assert (69 - 69) as real / 12.0 == 0.0 && 12 as real / 12.0 == 1.0;
    Interval(tone, key, 12);
  }

  lemma Regrouped(a: real, b: real, c: real)
    ensures a * (b * c) == a * b * c
  {
  }

  /**
   The note a note-on starts, as it will sound: from phase zero, at its key's
   frequency, with its velocity (full for one that is not positive), modulated by
   nothing but the global amount. The other slots sound as before.
  */
  lemma NoteOnSounds(k: Knobs, e: Engine, key: int, channel: int, noteId: int, velocity: real, i: nat, t: nat)
    requires WellFormed(e) && i < MAX_VOICES
    ensures var r := NoteOn(k.tone, e, key, channel, noteId, velocity);
      var frequency := 440.0 * k.tone.exp2((key - 69) as real / 12.0);
      var strength := if velocity > 0.0 then velocity else 1.0;
      Contribution(k.tone.sin, k.gain, k.globalMod, r.voices[i], t) ==
        if i == Target(e.voices)
        then k.tone.sin(PhaseAfter(0.0, CYCLE * frequency / e.sampleRate, t)) * strength *
          Loudness(k.gain, k.globalMod, 0.0)
        else Contribution(k.tone.sin, k.gain, k.globalMod, e.voices[i], t)
  {
    hide PhaseAfter, Loudness;
  }

  /** Per second a note turns as many cycles as its frequency says. */
  lemma CyclesPerSecond(tone: Tone, e: Engine, key: int, channel: int, noteId: int, velocity: real)
    requires WellFormed(e)
    ensures var v := NoteOn(tone, e, key, channel, noteId, velocity).voices[Target(e.voices)];
      v.phaseInc * e.sampleRate == KeyToFrequency(tone, key) * CYCLE && v.phase == 0.0
  {
    var turns := CYCLE * KeyToFrequency(tone, key);
    assert turns / e.sampleRate * e.sampleRate == turns;
  }
}

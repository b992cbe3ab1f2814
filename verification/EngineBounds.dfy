/**
 Quantitative facts about the engine: how long a release takes and how loud the
 output can get, over every run.
*/
module EngineBounds {
  import opened Voices

  predicate HealthyVoice(v: Voice, sampleRate: real)
    requires sampleRate > 0.0
  {
    v.active ==>
      0.0 < v.releaseGain <= 1.0 && (!v.releasing ==> v.releaseGain == 1.0) &&
      v.releaseStep > 0.0 && v.releaseStep * (RELEASE_SECONDS * sampleRate) == 1.0
  }

  ghost predicate Healthy(e: Engine) {
    WellFormed(e) && forall i | 0 <= i < MAX_VOICES :: HealthyVoice(e.voices[i], e.sampleRate)
  }

  lemma {:induction false} HealthyAdvance(v: Voice, sampleRate: real, n: nat)
    requires sampleRate > 0.0 && HealthyVoice(v, sampleRate)
    ensures HealthyVoice(Advance(v, n), sampleRate)
  {
    if n > 0 {
      HealthyAdvance(v, sampleRate, n - 1);
    }
  }

  lemma HealthyApply(tone: Tone, e: Engine, op: Op)
    requires Healthy(e) && Legal(op)
    ensures Healthy(Apply(tone, e, op))
  {
    if op.Play? {
      forall i | 0 <= i < MAX_VOICES ensures HealthyVoice(Advance(e.voices[i], op.frames), e.sampleRate) {
        HealthyAdvance(e.voices[i], e.sampleRate, op.frames);
      }
    }
  }

  lemma {:induction false} HealthyRun(tone: Tone, e: Engine, ops: seq<Op>)
    requires Healthy(e) && AllLegal(ops)
    ensures Healthy(Run(tone, e, ops))
  {
    if ops != [] {
      HealthyRun(tone, e, ops[..|ops| - 1]);
      HealthyApply(tone, Run(tone, e, ops[..|ops| - 1]), ops[|ops| - 1]);
    }
  }

  // ---- release time ----

  function Ceiling(x: real): (r: int)
    ensures r as real - 1.0 < x <= r as real
  {
    -((-x).Floor)
  }

  /** The number of frames a full release lasts. */
  function ReleaseFrames(sampleRate: real): int {
    Ceiling(0.05 * sampleRate)
  }

  /** Where a voice that was releasing as `start` is after n more frames. */
  ghost predicate Faded(start: Voice, v: Voice, n: nat) {
    v.releaseStep == start.releaseStep && v.releasing &&
    (v.active <==> start.releaseGain - n as real * start.releaseStep > 0.0) &&
    (v.active ==> v.releaseGain == start.releaseGain - n as real * start.releaseStep)
  }

  lemma {:induction false} FadedAdvance(start: Voice, v: Voice, n: nat, more: nat)
    requires Faded(start, v, n) && start.releaseStep > 0.0
    ensures Faded(start, Advance(v, more), n + more)
  {
    if more > 0 {
      FadedAdvance(start, v, n, more - 1);
      var m := n + more - 1;
      assert (m + 1) as real * start.releaseStep == m as real * start.releaseStep + start.releaseStep;
    }
  }

  /** The operation leaves the note in slot i alone: no note takes the slot, no choke addresses it, nothing resets. */
  predicate Spares(e: Engine, i: nat, op: Op)
    requires i < |e.voices|
  {
    match op
    case StartNote(_, _, _, _) => Target(e.voices) != i
    case EndNotes(key, channel, noteId, choke) => !(choke && Addressed(e.voices[i], key, channel, noteId))
    case Restart => false
    case Activate(_) => false
    case _ => true
  }

  /** Every operation of a run spares slot i in the state it meets. */
  ghost predicate SparedAllAlong(tone: Tone, e: Engine, ops: seq<Op>, i: nat)
    requires WellFormed(e) && AllLegal(ops) && i < MAX_VOICES
  {
    ops != [] ==>
      SparedAllAlong(tone, e, ops[..|ops| - 1], i) && Spares(Run(tone, e, ops[..|ops| - 1]), i, ops[|ops| - 1])
  }

  function Frames(ops: seq<Op>): nat {
    if ops == [] then 0 else
    var op := ops[|ops| - 1];
    Frames(ops[..|ops| - 1]) + if op.Play? then op.frames else 0
  }

  lemma {:induction false} FadedRun(tone: Tone, e: Engine, ops: seq<Op>, i: nat)
    requires WellFormed(e) && AllLegal(ops) && i < MAX_VOICES && SparedAllAlong(tone, e, ops, i)
    requires e.voices[i].active && e.voices[i].releasing
    requires e.voices[i].releaseGain > 0.0 && e.voices[i].releaseStep > 0.0
    ensures Faded(e.voices[i], Run(tone, e, ops).voices[i], Frames(ops))
  {
    if ops != [] {
      var front, op := ops[..|ops| - 1], ops[|ops| - 1];
      FadedRun(tone, e, front, i);
      FadedNext(tone, e.voices[i], Run(tone, e, front), op, i, Frames(front));
    }
  }

  lemma FadedNext(tone: Tone, start: Voice, e: Engine, op: Op, i: nat, n: nat)
    requires WellFormed(e) && Legal(op) && i < MAX_VOICES && Spares(e, i, op)
    requires Faded(start, e.voices[i], n) && start.releaseStep > 0.0
    ensures Faded(start, Apply(tone, e, op).voices[i], n + if op.Play? then op.frames else 0)
  {
    if op.Play? {
      FadedAdvance(start, e.voices[i], n, op.frames);
    }
  }

  /**
   A voice released at full gain stops at exactly the ceil(0.05 * sampleRate)-th
   frame, however the frames are cut into render calls and whatever other notes
   start, end or are choked meanwhile, as long as its own slot is spared.
  */
  lemma ReleaseIsExact(tone: Tone, e: Engine, ops: seq<Op>, i: nat)
    requires Healthy(e) && AllLegal(ops) && i < MAX_VOICES && SparedAllAlong(tone, e, ops, i)
    requires e.voices[i].active && e.voices[i].releasing && e.voices[i].releaseGain == 1.0
    ensures Run(tone, e, ops).voices[i].active <==> Frames(ops) < ReleaseFrames(e.sampleRate)
  {
    hide SparedAllAlong, Run, Faded, Frames;
    FadedRun(tone, e, ops, i);
    StopsAt(e.voices[i], Run(tone, e, ops).voices[i], Frames(ops), RELEASE_SECONDS * e.sampleRate);
  }

  lemma TimesOrdered(x: real, y: real, c: real, p: real, q: real)
    requires x <= y && c > 0.0 && p == x * c && q == y * c
    ensures p <= q && (x < y ==> p < q)
  {
    var d := y - x;
    assert d * c >= 0.0 && (d > 0.0 ==> d * c > 0.0);
    assert q == (x + d) * c == p + d * c;
  }

  lemma Scaled(x: real, span: real, step: real)
    requires step > 0.0 && step * span == 1.0
    ensures x * step < 1.0 <==> x < span
  {
    if x < span {
      TimesOrdered(x, span, step, x * step, 1.0);
    } else {
      TimesOrdered(span, x, step, 1.0, x * step);
    }
  }

  lemma StopsAt(start: Voice, v: Voice, n: nat, span: real)
    requires Faded(start, v, n) && start.releaseGain <= 1.0
    requires start.releaseStep > 0.0 && start.releaseStep * span == 1.0
    ensures n >= Ceiling(span) ==> !v.active
    ensures start.releaseGain == 1.0 ==> (v.active <==> n < Ceiling(span))
  {
    Scaled(n as real, span, start.releaseStep);
  }

  predicate NoNoteOns(ops: seq<Op>) { forall k | 0 <= k < |ops| :: !ops[k].StartNote? }

  /**
   Once every note is released and none is added, the engine is silent after one
   release time, whatever is choked, modulated, reset or activated meanwhile.
  */
  lemma FallsSilent(tone: Tone, e: Engine, ops: seq<Op>)
    requires Healthy(e) && AllLegal(ops) && NoNoteOns(ops) && Frames(ops) >= ReleaseFrames(e.sampleRate)
    ensures var released := NoteOff(e, -1, -1, -1, false); !AnyActive(Run(tone, released, ops).voices)
  {
    hide Run, Frames, NoNoteOns, NoteOff;
    var released := NoteOff(e, -1, -1, -1, false);
    ReleasedAll(e);
    forall i | 0 <= i < MAX_VOICES ensures !Run(tone, released, ops).voices[i].active {
      OneFallsSilent(tone, released, ops, i);
    }
  }

  lemma OneFallsSilent(tone: Tone, e: Engine, ops: seq<Op>, i: nat)
    requires Healthy(e) && AllLegal(ops) && NoNoteOns(ops) && Frames(ops) >= ReleaseFrames(e.sampleRate)
    requires i < MAX_VOICES && (e.voices[i].active ==> e.voices[i].releasing)
    ensures !Run(tone, e, ops).voices[i].active
  {
    hide Run, Frames, NoNoteOns, Faded;
    if e.voices[i].active {
      FadesOrEnds(tone, e, ops, i);
      if Run(tone, e, ops).voices[i].active {
        StopsAt(e.voices[i], Run(tone, e, ops).voices[i], Frames(ops), RELEASE_SECONDS * e.sampleRate);
      }
    } else {
      InactiveStays(tone, e, ops, i);
    }
  }

  lemma ReleasedAll(e: Engine)
    requires Healthy(e)
    ensures var released := NoteOff(e, -1, -1, -1, false);
      Healthy(released) && released.sampleRate == e.sampleRate &&
      forall i | 0 <= i < MAX_VOICES && released.voices[i].active :: released.voices[i].releasing
  {
  }

  /** Without note-ons a releasing voice fades on schedule or is gone before. */
  lemma {:induction false} FadesOrEnds(tone: Tone, e: Engine, ops: seq<Op>, i: nat)
    requires WellFormed(e) && AllLegal(ops) && i < MAX_VOICES && NoNoteOns(ops)
    requires e.voices[i].active && e.voices[i].releasing
    requires e.voices[i].releaseGain > 0.0 && e.voices[i].releaseStep > 0.0
    ensures var v := Run(tone, e, ops).voices[i]; v.active ==> Faded(e.voices[i], v, Frames(ops))
  {
    if ops != [] {
      var front, op := ops[..|ops| - 1], ops[|ops| - 1];
      var before := Run(tone, e, front);
      FadesOrEnds(tone, e, front, i);
      if !before.voices[i].active {
      } else if Spares(before, i, op) {
        FadedNext(tone, e.voices[i], before, op, i, Frames(front));
      }
    }
  }

  lemma {:induction false} InactiveStays(tone: Tone, e: Engine, ops: seq<Op>, i: nat)
    requires WellFormed(e) && AllLegal(ops) && i < MAX_VOICES && !e.voices[i].active && NoNoteOns(ops)
    ensures !Run(tone, e, ops).voices[i].active
  {
    if ops != [] {
      InactiveStays(tone, e, ops[..|ops| - 1], i);
    }
  }

  // ---- loudness ----

  ghost predicate SineBounded(tone: Tone) {
    forall x :: -1.0 <= tone.sin(x) <= 1.0
  }

  /** Velocities as a host sends them: at most 1, MIDI velocities at most 127. */
  predicate SoftOp(op: Op) { op.StartNote? ==> op.velocity <= 1.0 }

  ghost predicate Soft(e: Engine) {
    Healthy(e) && forall i | 0 <= i < MAX_VOICES :: 0.0 <= e.voices[i].velocity <= 1.0
  }

  lemma SoftApply(tone: Tone, e: Engine, op: Op)
    requires Soft(e) && Legal(op) && SoftOp(op)
    ensures Soft(Apply(tone, e, op))
  {
    HealthyApply(tone, e, op);
    var r := Apply(tone, e, op);
    forall i | 0 <= i < MAX_VOICES ensures 0.0 <= r.voices[i].velocity <= 1.0 { }
  }

  lemma {:induction false} SoftRun(tone: Tone, e: Engine, ops: seq<Op>)
    requires Soft(e) && AllLegal(ops) && forall k | 0 <= k < |ops| :: SoftOp(ops[k])
    ensures Soft(Run(tone, e, ops))
  {
    if ops != [] {
      SoftRun(tone, e, ops[..|ops| - 1]);
      SoftApply(tone, Run(tone, e, ops[..|ops| - 1]), ops[|ops| - 1]);
    }
  }

  lemma UnitTimes(a: real, b: real)
    requires 0.0 <= a <= 1.0 && -1.0 <= b <= 1.0
    ensures -1.0 <= b * a <= 1.0
    ensures 0.0 <= b ==> 0.0 <= b * a
  {
    if a > 0.0 {
      TimesOrdered(-1.0, b, a, -a, b * a);
      TimesOrdered(b, 1.0, a, b * a, a);
    }
  }

  lemma SampleBounded(k: Knobs, v: Voice, sampleRate: real)
    requires SineBounded(k.tone) && sampleRate > 0.0 && HealthyVoice(v, sampleRate) && 0.0 <= v.velocity <= 1.0
    ensures -1.0 <= Sample(k, v) <= 1.0
  {
    UnitTimes(Level(k, v), v.velocity);
    var envelope := v.velocity * Level(k, v);
    if Step(v).active {
      if v.releasing {
        UnitTimes(v.releaseGain - v.releaseStep, envelope);
        UnitTimes(envelope * (v.releaseGain - v.releaseStep), k.tone.sin(v.phase));
      } else {
        UnitTimes(envelope, k.tone.sin(v.phase));
      }
    }
  }

  lemma {:induction false} MixBounded(k: Knobs, e: Engine, m: nat, t: nat)
    requires SineBounded(k.tone) && Soft(e) && m <= MAX_VOICES
    ensures -(m as real) <= Mix(k, e.voices, m, t) <= m as real
  {
    if m > 0 {
      MixBounded(k, e, m - 1, t);
      HealthyAdvance(e.voices[m - 1], e.sampleRate, t);
      SampleBounded(k, Advance(e.voices[m - 1], t), e.sampleRate);
    }
  }

  /** Whatever was played before, no rendered sample leaves [-8, 8]. */
  lemma OutputBounded(k: Knobs, e: Engine, ops: seq<Op>, n: nat)
    requires SineBounded(k.tone) && Soft(e) && AllLegal(ops) && forall i | 0 <= i < |ops| :: SoftOp(ops[i])
    ensures forall t | 0 <= t < n :: -8.0 <= Mixdown(k, Run(k.tone, e, ops).voices, n)[t] <= 8.0
  {
    SoftRun(k.tone, e, ops);
    forall t | 0 <= t < n ensures -8.0 <= Mix(k, Run(k.tone, e, ops).voices, MAX_VOICES, t) <= 8.0 {
      MixBounded(k, Run(k.tone, e, ops), MAX_VOICES, t);
    }
  }

  /** The oscillator's phase stays in [0, 2 pi) for increments up to 2 pi. */
  lemma {:induction false} PhaseStays(v: Voice, n: nat)
    requires 0.0 <= v.phase < TWO_PI && 0.0 <= v.phaseInc <= TWO_PI
    ensures 0.0 <= Advance(v, n).phase < TWO_PI
  {
    if n > 0 {
      PhaseStays(v, n - 1);
    }
  }

  predicate InPhase(v: Voice) { 0.0 <= v.phase < TWO_PI && 0.0 <= v.phaseInc <= TWO_PI }

  /** A note that starts at this rate turns by at most one cycle per frame. */
  predicate Tuned(tone: Tone, sampleRate: real, op: Op)
    requires sampleRate > 0.0
  {
    op.StartNote? ==> 0.0 <= TWO_PI * KeyToFrequency(tone, op.key) / sampleRate <= TWO_PI
  }

  ghost predicate TunedAllAlong(tone: Tone, e: Engine, ops: seq<Op>)
    requires WellFormed(e) && AllLegal(ops)
  {
    ops != [] ==>
      TunedAllAlong(tone, e, ops[..|ops| - 1]) &&
      Tuned(tone, Run(tone, e, ops[..|ops| - 1]).sampleRate, ops[|ops| - 1])
  }

  lemma PhaseNext(tone: Tone, e: Engine, op: Op, i: nat)
    requires WellFormed(e) && Legal(op) && Tuned(tone, e.sampleRate, op) && i < MAX_VOICES && InPhase(e.voices[i])
    ensures InPhase(Apply(tone, e, op).voices[i])
  {
    hide KeyToFrequency, Advance;
    if op.Play? {
      PhaseStays(e.voices[i], op.frames);
      assert Apply(tone, e, op).voices[i] == Advance(e.voices[i], op.frames);
    }
  }

  /** Over every run of notes that turn by at most one cycle per frame, every phase stays in [0, 2 pi). */
  lemma {:induction false} PhaseRun(tone: Tone, e: Engine, ops: seq<Op>)
    requires WellFormed(e) && AllLegal(ops) && TunedAllAlong(tone, e, ops)
    requires forall i | 0 <= i < MAX_VOICES :: InPhase(e.voices[i])
    ensures forall i | 0 <= i < MAX_VOICES :: InPhase(Run(tone, e, ops).voices[i])
  {
    if ops != [] {
      var front, op := ops[..|ops| - 1], ops[|ops| - 1];
      var before := Run(tone, e, front);
      PhaseRun(tone, e, front);
      forall i | 0 <= i < MAX_VOICES ensures InPhase(Apply(tone, before, op).voices[i]) {
        PhaseNext(tone, before, op, i);
      }
    }
  }
}

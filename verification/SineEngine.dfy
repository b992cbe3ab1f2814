/**
 The voice engine of src/plugins/common/sine_engine.cpp: eight slots updated in
 place, sample buffers added to in place.
*/
module SineEngines {
  import opened Voices

  class SineEngine {
    const tone: Tone
    const voices: array<Voice>
    var sampleRate: real
    var clock: nat
    var globalMod: real

    ghost predicate Valid()
      reads this, voices
    {
      WellFormed(State())
    }

    ghost function State(): Engine
      reads this, voices
    {
      Engine(voices[..], sampleRate, clock, globalMod)
    }

    constructor (tone: Tone)
      ensures Valid() && fresh(voices) && this.tone == tone
      ensures State() == Voices.Reset(Engine([], 48000.0, 0, 0.0))
    {
      this.tone := tone;
      voices := new Voice[MAX_VOICES](_ => BLANK);
      sampleRate, clock, globalMod := 48000.0, 0, 0.0;
    }

    method SetSampleRate(rate: real)
      requires rate > 0.0 && Valid()
      modifies this`sampleRate
      ensures Valid() && State() == old(State()).(sampleRate := rate)
    {
      sampleRate := rate;
    }

    method Reset()
      requires Valid()
      modifies this`clock, this`globalMod, voices
      ensures Valid() && State() == Voices.Reset(old(State()))
    {
      for i := 0 to voices.Length
        invariant forall j | 0 <= j < i :: voices[j] == BLANK
      {
        voices[i] := BLANK;
      }
      clock := 0;
      globalMod := 0.0;
    }

    method Modulate(key: int, channel: int, noteId: int, amount: real)
      requires Valid()
      modifies this`globalMod, voices
      ensures Valid() && State() == Voices.Modulate(old(State()), key, channel, noteId, amount)
    {
      if key < 0 && channel < 0 && noteId < 0 {
        globalMod := amount;
        return;
      }
      for i := 0 to voices.Length
        invariant globalMod == old(globalMod)
        invariant forall j | 0 <= j < i :: voices[j] == ModulateIf(key, channel, noteId, amount)(old(voices[j]))
        invariant forall j | i <= j < voices.Length :: voices[j] == old(voices[j])
      {
        if Addressed(voices[i], key, channel, noteId) {
          voices[i] := voices[i].(modGain := amount);
        }
      }
    }

    /** The slot a new note takes: the first inactive one, else the oldest. */
    method PickSlot() returns (target: nat)
      requires Valid()
      ensures target == Target(voices[..])
    {
      target := 0;
      while target < voices.Length && voices[target].active
        invariant target <= voices.Length
        invariant forall j | 0 <= j < target :: voices[j].active
      {
        target := target + 1;
      }
      ghost var vs := voices[..];
      assert forall j | 0 <= j < target :: vs[j].active;
      if target < voices.Length {
        assert !vs[target].active;
        assert FirstInactive(vs) == target;
        return;
      }
      target := 0;
      for i := 0 to voices.Length
        invariant 0 <= target < voices.Length
        invariant if i == 0 then target == 0 else target == Oldest(vs, i)
      {
        if voices[i].age < voices[target].age {
          target := i;
        }
      }
    }

    method NoteOn(key: int, channel: int, noteId: int, velocity: real)
      requires Valid()
      modifies this`clock, voices
      ensures Valid() && State() == Voices.NoteOn(tone, old(State()), key, channel, noteId, velocity)
    {
      var target := PickSlot();
      voices[target] := BLANK.(active := true, key := key, channel := channel, noteId := noteId, age := clock,
        phaseInc := TWO_PI * KeyToFrequency(tone, key) / sampleRate,
        velocity := if velocity <= 0.0 then 1.0 else velocity,
        releaseStep := 1.0 / (RELEASE_SECONDS * sampleRate));
      clock := (clock + 1) % UINT32;
    }

    method NoteOff(key: int, channel: int, noteId: int, choke: bool)
      requires Valid()
      modifies voices
      ensures Valid() && State() == Voices.NoteOff(old(State()), key, channel, noteId, choke)
    {
      for i := 0 to voices.Length
        invariant forall j | 0 <= j < i :: voices[j] == EndIf(key, channel, noteId, choke)(old(voices[j]))
        invariant forall j | i <= j < voices.Length :: voices[j] == old(voices[j])
      {
        if Addressed(voices[i], key, channel, noteId) {
          if choke {
            voices[i] := voices[i].(active := false, justEnded := true);
          } else {
            voices[i] := voices[i].(releasing := true);
          }
        }
      }
    }

    method HandleEvent(event: Event)
      requires Valid()
      modifies this`clock, voices
      ensures Valid() && State() == Handle(tone, old(State()), event)
    {
      if !event.coreSpace {
        return;
      }
      match event.body
      case NoteOnEvent(key, channel, noteId, velocity) => NoteOn(key, channel, noteId, velocity);
      case NoteOffEvent(key, channel, noteId) => NoteOff(key, channel, noteId, false);
      case NoteChokeEvent(key, channel, noteId) => NoteOff(key, channel, noteId, true);
      case MidiEvent(status, data1, data2) =>
        var kind, channel := status - status % 16, status % 16;
        if kind == 0x90 && data2 > 0 {
          NoteOn(data1, channel, -1, data2 as real / 127.0);
        } else if kind == 0x80 || (kind == 0x90 && data2 == 0) {
          NoteOff(data1, channel, -1, false);
        }
      case _ =>
    }

    /** Adds the sounding voices into the buffers at [offset, offset + frames). */
    method Render(left: array<real>, right: array?<real>, offset: nat, frames: nat, gain: real)
      requires Valid()
      requires offset + frames <= left.Length
      requires right != null ==> right != left && offset + frames <= right.Length
      modifies voices, left, right
      ensures Valid() && State() == Rendered(old(State()), frames)
      ensures Added(left[..], old(left[..]), offset, Mixdown(Knobs(tone, gain, globalMod), old(voices[..]), frames))
      ensures right != null ==>
        Added(right[..], old(right[..]), offset, Mixdown(Knobs(tone, gain, globalMod), old(voices[..]), frames))
    {
      hide MixedIn, VoiceIn, Added, Mixdown, Advance, Rendered;
      ghost var knobs, vs := Knobs(tone, gain, globalMod), voices[..];
      ghost var before, before' := left[..], if right != null then right[..] else [];
      NoVoices(before, offset, knobs, vs, frames);
      NoVoices(before', offset, knobs, vs, frames);
      for m := 0 to voices.Length
        invariant forall j | 0 <= j < voices.Length :: voices[j] == if j < m then Advance(vs[j], frames) else vs[j]
        invariant MixedIn(left[..], before, offset, knobs, vs, m, frames)
        invariant right != null ==> MixedIn(right[..], before', offset, knobs, vs, m, frames)
      {
        ghost var was, was' := left[..], if right != null then right[..] else [];
        RenderVoice(m, left, right, offset, frames, gain);
        OneMoreVoice(left[..], was, before, offset, knobs, vs, m, frames);
        if right != null {
          OneMoreVoice(right[..], was', before', offset, knobs, vs, m, frames);
        }
      }
      AllVoices(left[..], before, offset, knobs, vs, frames);
      if right != null {
        AllVoices(right[..], before', offset, knobs, vs, frames);
      }
      AllRendered(old(State()), State(), frames);
    }

    /** The inner loop of `Render`: one voice into both buffers. */
    method RenderVoice(m: nat, left: array<real>, right: array?<real>, offset: nat, frames: nat, gain: real)
      requires Valid() && m < voices.Length
      requires offset + frames <= left.Length
      requires right != null ==> right != left && offset + frames <= right.Length
      modifies voices, left, right
      ensures forall j | 0 <= j < voices.Length ::
        voices[j] == if j == m then Advance(old(voices[j]), frames) else old(voices[j])
      ensures VoiceIn(left[..], old(left[..]), offset, Knobs(tone, gain, globalMod), old(voices[m]), frames)
      ensures right != null ==>
        VoiceIn(right[..], old(right[..]), offset, Knobs(tone, gain, globalMod), old(voices[m]), frames)
    {
      var voice := voices[m];
      ghost var knobs := Knobs(tone, gain, globalMod);
      if voice.active {
        var level := Clamp(gain + globalMod + voice.modGain);
        voice := RenderActive(voice, level, knobs, left, right, offset, frames);
        voices[m] := voice;
      } else {
        NeverSounds(left[..], offset, knobs, voice, frames);
        if right != null {
          NeverSounds(right[..], offset, knobs, voice, frames);
        }
      }
    }

    /** A sounding voice, up to the frame it ends on. */
    method RenderActive(v0: Voice, level: real, ghost knobs: Knobs, left: array<real>, right: array?<real>,
                        offset: nat, frames: nat) returns (voice: Voice)
      requires v0.active && level == Level(knobs, v0) && knobs.tone == tone
      requires offset + frames <= left.Length
      requires right != null ==> right != left && offset + frames <= right.Length
      modifies left, right
      ensures voice == Advance(v0, frames)
      ensures VoiceIn(left[..], old(left[..]), offset, knobs, v0, frames)
      ensures right != null ==> VoiceIn(right[..], old(right[..]), offset, knobs, v0, frames)
    {
      hide VoiceIn, Sample, Step, Level;
      ghost var before, before' := left[..], if right != null then right[..] else [];
      NothingYet(before, offset, knobs, v0);
      NothingYet(before', offset, knobs, v0);
      voice := v0;
      for n := 0 to frames
        invariant voice == Advance(v0, n) && voice.active
        invariant VoiceIn(left[..], before, offset, knobs, v0, n)
        invariant right != null ==> VoiceIn(right[..], before', offset, knobs, v0, n)
      {
        ghost var was, was' := left[..], if right != null then right[..] else [];
        SameLevel(knobs, v0, n);
        var sample, stepped := RenderFrame(voice, level, knobs);
        voice := stepped;
        if !voice.active {
          SilentFrom(knobs, v0, n, frames);
          SilentTail(left[..], before, offset, knobs, v0, n, frames);
          if right != null {
            SilentTail(right[..], before', offset, knobs, v0, n, frames);
          }
          return;
        }
        AddTo(left, offset + n, sample);
        OneMoreFrame(left[..], was, before, offset, knobs, v0, n);
        if right != null {
          assert right[..] == was';
          AddTo(right, offset + n, sample);
          OneMoreFrame(right[..], was', before', offset, knobs, v0, n);
        }
      }
    }

    /** One frame of one sounding voice. */
    method RenderFrame(voice: Voice, level: real, ghost knobs: Knobs) returns (sample: real, next: Voice)
      requires voice.active && level == Level(knobs, voice) && knobs.tone == tone
      ensures next == Step(voice) && sample == Sample(knobs, voice)
    {
      next := voice;
      var envelope := voice.velocity * level;
      if voice.releasing {
        next := next.(releaseGain := next.releaseGain - next.releaseStep);
        if next.releaseGain <= 0.0 {
          return 0.0, next.(active := false, justEnded := true);
        }
        envelope := envelope * next.releaseGain;
      }
      sample := tone.sin(next.phase) * envelope;
      next := next.(phase := next.phase + next.phaseInc);
      if next.phase >= TWO_PI {
        next := next.(phase := next.phase - TWO_PI);
      }
    }

    /** NOTE_END for every voice that finished since the last call. */
    method EmitNoteEnds(time: nat) returns (out: seq<NoteEnd>)
      requires Valid()
      modifies voices
      ensures Valid() && State() == NoteEndsSent(old(State()))
      ensures out == NoteEnds(old(voices[..]), |old(voices[..])|, time)
    {
      out := [];
      ghost var vs := voices[..];
      for i := 0 to voices.Length
        invariant out == NoteEnds(vs, i, time)
        invariant forall j | 0 <= j < i :: voices[j] == Cleared(vs[j])
        invariant forall j | i <= j < voices.Length :: voices[j] == vs[j]
      {
        if voices[i].justEnded {
          voices[i] := voices[i].(justEnded := false);
          out := out + [NoteEnd(time, voices[i].key, voices[i].channel, voices[i].noteId)];
        }
      }
    }

    method AnyVoiceActive() returns (any: bool)
      requires Valid()
      ensures any == AnyActive(voices[..])
    {
      for i := 0 to voices.Length
        invariant forall j | 0 <= j < i :: !voices[j].active
      {
        if voices[i].active {
          assert voices[..][i].active;
          return true;
        }
      }
      return false;
    }
  }

  /** `now` is `before` with `chunk` added from `offset` on, and nothing else changed. */
  ghost predicate Added(now: seq<real>, before: seq<real>, offset: nat, chunk: seq<real>) {
    |now| == |before| && offset + |chunk| <= |now| &&
    forall i | 0 <= i < |now| ::
      now[i] == before[i] + if offset <= i < offset + |chunk| then chunk[i - offset] else 0.0
  }

  method AddTo(buffer: array<real>, i: nat, sample: real)
    requires i < buffer.Length
    modifies buffer
    ensures buffer[..] == old(buffer[..])[i := old(buffer[i]) + sample]
  {
    buffer[i] := buffer[i] + sample;
  }

  /** The first m voices are added to n frames. */
  ghost predicate MixedIn(
    now: seq<real>, before: seq<real>, offset: nat, k: Knobs, vs: seq<Voice>, m: nat, n: nat)
    requires m <= |vs|
  {
    |now| == |before| &&
    forall i | 0 <= i < |now| ::
      now[i] == before[i] + if offset <= i < offset + n then Mix(k, vs, m, i - offset) else 0.0
  }

  /** One voice is added to n frames. */
  ghost predicate VoiceIn(now: seq<real>, before: seq<real>, offset: nat, k: Knobs, v: Voice, n: nat) {
    |now| == |before| &&
    forall i | 0 <= i < |now| ::
      now[i] == before[i] + if offset <= i < offset + n then Sample(k, Advance(v, i - offset)) else 0.0
  }

  lemma NoVoices(before: seq<real>, offset: nat, k: Knobs, vs: seq<Voice>, n: nat)
    ensures MixedIn(before, before, offset, k, vs, 0, n)
  {
    assert forall t: nat :: Mix(k, vs, 0, t) == 0.0;
  }

  lemma OneMoreVoice(
    now: seq<real>, was: seq<real>, before: seq<real>, offset: nat, k: Knobs, vs: seq<Voice>, m: nat, n: nat)
    requires m < |vs| && MixedIn(was, before, offset, k, vs, m, n) && VoiceIn(now, was, offset, k, vs[m], n)
    ensures MixedIn(now, before, offset, k, vs, m + 1, n)
  {
    hide Sample, Advance;
  }

  lemma AllVoices(now: seq<real>, before: seq<real>, offset: nat, k: Knobs, vs: seq<Voice>, n: nat)
    requires MixedIn(now, before, offset, k, vs, |vs|, n) && offset + n <= |now|
    ensures Added(now, before, offset, Mixdown(k, vs, n))
  {
  }

  lemma AllRendered(e: Engine, r: Engine, n: nat)
    requires |r.voices| == |e.voices| && r == e.(voices := r.voices)
    requires forall j | 0 <= j < |e.voices| :: r.voices[j] == Advance(e.voices[j], n)
    ensures r == Rendered(e, n) && (WellFormed(e) ==> WellFormed(r))
  {
    hide Advance;
  }

  lemma NothingYet(before: seq<real>, offset: nat, k: Knobs, v: Voice)
    ensures VoiceIn(before, before, offset, k, v, 0)
  {
  }

  lemma OneMoreFrame(now: seq<real>, was: seq<real>, before: seq<real>, offset: nat, k: Knobs, v: Voice, n: nat)
    requires VoiceIn(was, before, offset, k, v, n) && offset + n < |was|
    requires now == was[offset + n := was[offset + n] + Sample(k, Advance(v, n))]
    ensures VoiceIn(now, before, offset, k, v, n + 1)
  {
    hide Sample, Advance;
  }

  /** The gains of a voice do not change while it is rendered. */
  lemma {:induction false} SameLevel(k: Knobs, v: Voice, n: nat)
    ensures Level(k, Advance(v, n)) == Level(k, v)
  {
    if n > 0 {
      SameLevel(k, v, n - 1);
    }
  }

  lemma {:induction false} StaysOff(k: Knobs, v: Voice, n: nat)
    requires !v.active
    ensures Advance(v, n) == v && Sample(k, v) == 0.0
  {
    if n > 0 {
      StaysOff(k, v, n - 1);
    }
  }

  lemma NeverSounds(now: seq<real>, offset: nat, k: Knobs, v: Voice, n: nat)
    requires !v.active
    ensures VoiceIn(now, now, offset, k, v, n) && Advance(v, n) == v
  {
    forall t: nat ensures Sample(k, Advance(v, t)) == 0.0 {
      StaysOff(k, v, t);
    }
    StaysOff(k, v, n);
    hide Sample, Advance;
  }

  lemma SilentTail(now: seq<real>, before: seq<real>, offset: nat, k: Knobs, v: Voice, n: nat, frames: nat)
    requires VoiceIn(now, before, offset, k, v, n) && n <= frames
    requires forall t: nat | n <= t :: Sample(k, Advance(v, t)) == 0.0
    ensures VoiceIn(now, before, offset, k, v, frames)
  {
    hide Sample, Advance;
  }

  /** The frame a voice ends on is silent. */
  lemma LastSample(k: Knobs, v: Voice)
    requires !Step(v).active
    ensures Sample(k, v) == 0.0
  {
  }

  lemma SilentFrom(k: Knobs, v: Voice, n: nat, frames: nat)
    requires !Step(Advance(v, n)).active && n < frames
    ensures forall t: nat | n <= t :: Sample(k, Advance(v, t)) == 0.0
    ensures Advance(v, frames) == Step(Advance(v, n))
  {
    LastSample(k, Advance(v, n));
    AdvanceAdds(v, n + 1, frames - (n + 1));
    StaysOff(k, Advance(v, n + 1), frames - (n + 1));
    forall t: nat | n <= t ensures Sample(k, Advance(v, t)) == 0.0 {
      if n < t {
        AdvanceAdds(v, n + 1, t - (n + 1));
        StaysOff(k, Advance(v, n + 1), t - (n + 1));
      }
    }
    hide Sample, Step;
  }
}

/**
 The polyphonic sine engine as a value and as functions on that value.

 The class in SineEngine.dfy updates an array of voices in place; each of its
 methods is proved to have the effect of one function of this module, and every
 theorem about the engine is stated on these functions. Floating-point numbers
 are reals; the sine and the power of two are parameters (`Tone`).
*/
module Voices {

  const MAX_VOICES: nat := 8
  const TWO_PI: real := 6.283185307179586
  const RELEASE_SECONDS: real := 0.05
  const UINT32: nat := 0x1_0000_0000

  /** The two transcendental functions the engine calls. */
  datatype Tone = Tone(sin: real -> real, exp2: real -> real)

  datatype Voice = Voice(
    active: bool, releasing: bool, justEnded: bool,
    key: int, channel: int, noteId: int, age: nat,
    phase: real, phaseInc: real, velocity: real,
    releaseGain: real, releaseStep: real, modGain: real)

  const BLANK: Voice :=
    Voice(false, false, false, 0, 0, -1, 0, 0.0, 0.0, 0.0, 1.0, 0.0, 0.0)

  datatype Engine = Engine(voices: seq<Voice>, sampleRate: real, clock: nat, globalMod: real)

  ghost predicate WellFormed(e: Engine) {
    |e.voices| == MAX_VOICES && e.sampleRate > 0.0 && e.clock < UINT32
  }

  datatype NoteEnd = NoteEnd(time: nat, key: int, channel: int, noteId: int)

  type Byte = b: nat | b < 256

  datatype Body =
    | NoteOnEvent(key: int, channel: int, noteId: int, velocity: real)
    | NoteOffEvent(key: int, channel: int, noteId: int)
    | NoteChokeEvent(key: int, channel: int, noteId: int)
    | MidiEvent(status: Byte, data1: Byte, data2: Byte)
    | ParamValueEvent(paramId: nat, value: real)
    | ParamModEvent(paramId: nat, key: int, channel: int, noteId: int, amount: real)
    | OtherEvent

  datatype Event = Event(time: nat, coreSpace: bool, body: Body)

  // ---- choosing a slot ----

  function FirstInactive(vs: seq<Voice>): (k: nat)
    ensures k <= |vs|
    ensures k < |vs| ==> !vs[k].active
    ensures forall i | 0 <= i < k :: vs[i].active
  {
    if vs == [] || !vs[0].active then 0 else 1 + FirstInactive(vs[1..])
  }

  /** The first slot of smallest age among the first n. */
  function Oldest(vs: seq<Voice>, n: nat): (k: nat)
    requires 0 < n <= |vs|
    ensures k < n
    ensures forall i | 0 <= i < n :: vs[k].age <= vs[i].age
    ensures forall i | 0 <= i < k :: vs[k].age < vs[i].age
  {
    if n == 1 then 0 else
    var k := Oldest(vs, n - 1);
    if vs[n - 1].age < vs[k].age then n - 1 else k
  }

  function Target(vs: seq<Voice>): (k: nat)
    requires |vs| > 0
    ensures k < |vs|
    ensures vs[k].active ==> forall i | 0 <= i < |vs| :: vs[i].active && vs[k].age <= vs[i].age
  {
    var free := FirstInactive(vs);
    if free < |vs| then free else Oldest(vs, |vs|)
  }

  // ---- notes ----

  function KeyToFrequency(tone: Tone, key: int): real {
    440.0 * tone.exp2((key - 69) as real / 12.0)
  }

  function ReleaseStep(sampleRate: real): (step: real)
    requires sampleRate > 0.0
    ensures step > 0.0 && step * (RELEASE_SECONDS * sampleRate) == 1.0
  {
    1.0 / (RELEASE_SECONDS * sampleRate)
  }

  function NewVoice(
    tone: Tone, sampleRate: real, age: nat, key: int, channel: int, noteId: int, velocity: real): Voice
    requires sampleRate > 0.0
  {
    BLANK.(active := true, key := key, channel := channel, noteId := noteId, age := age,
           phaseInc := TWO_PI * KeyToFrequency(tone, key) / sampleRate,
           velocity := if velocity <= 0.0 then 1.0 else velocity,
           releaseStep := ReleaseStep(sampleRate))
  }

  function NoteOn(tone: Tone, e: Engine, key: int, channel: int, noteId: int, velocity: real): (r: Engine)
    requires WellFormed(e)
    ensures WellFormed(r)
  {
    var voice := NewVoice(tone, e.sampleRate, e.clock, key, channel, noteId, velocity);
    e.(voices := e.voices[Target(e.voices) := voice], clock := (e.clock + 1) % UINT32)
  }

  /** A sounding voice matches an address; a negative component matches anything. */
  predicate Addressed(v: Voice, key: int, channel: int, noteId: int) {
    v.active && (key < 0 || v.key == key) && (channel < 0 || v.channel == channel) &&
    (noteId < 0 || v.noteId == noteId)
  }

  function MapVoices(f: Voice -> Voice, vs: seq<Voice>): (r: seq<Voice>)
    ensures |r| == |vs|
    ensures forall i | 0 <= i < |vs| :: r[i] == f(vs[i])
  {
    seq(|vs|, i requires 0 <= i < |vs| => f(vs[i]))
  }

  function Choked(v: Voice): Voice { v.(active := false, justEnded := true) }

  function Released(v: Voice): Voice { v.(releasing := true) }

  function EndIf(key: int, channel: int, noteId: int, choke: bool): Voice -> Voice {
    v => if !Addressed(v, key, channel, noteId) then v else if choke then Choked(v) else Released(v)
  }

  function NoteOff(e: Engine, key: int, channel: int, noteId: int, choke: bool): (r: Engine)
    ensures WellFormed(e) ==> WellFormed(r)
  {
    e.(voices := MapVoices(EndIf(key, channel, noteId, choke), e.voices))
  }

  function ModulateIf(key: int, channel: int, noteId: int, amount: real): Voice -> Voice {
    v => if Addressed(v, key, channel, noteId) then v.(modGain := amount) else v
  }

  function Modulate(e: Engine, key: int, channel: int, noteId: int, amount: real): (r: Engine)
    ensures WellFormed(e) ==> WellFormed(r)
  {
    if key < 0 && channel < 0 && noteId < 0 then e.(globalMod := amount)
    else e.(voices := MapVoices(ModulateIf(key, channel, noteId, amount), e.voices))
  }

  function Reset(e: Engine): (r: Engine)
    ensures e.sampleRate > 0.0 ==> WellFormed(r)
  {
    e.(voices := seq(MAX_VOICES, _ => BLANK), clock := 0, globalMod := 0.0)
  }

  function Handle(tone: Tone, e: Engine, event: Event): (r: Engine)
    requires WellFormed(e)
    ensures WellFormed(r)
  {
    if !event.coreSpace then e else
    match event.body
    case NoteOnEvent(key, channel, noteId, velocity) => NoteOn(tone, e, key, channel, noteId, velocity)
    case NoteOffEvent(key, channel, noteId) => NoteOff(e, key, channel, noteId, false)
    case NoteChokeEvent(key, channel, noteId) => NoteOff(e, key, channel, noteId, true)
    case MidiEvent(status, data1, data2) =>
      var kind := status - status % 16;
      var channel := status % 16;
      if kind == 0x90 && data2 > 0 then NoteOn(tone, e, data1, channel, -1, data2 as real / 127.0)
      else if kind == 0x80 || (kind == 0x90 && data2 == 0) then NoteOff(e, data1, channel, -1, false)
      else e
    case _ => e
  }

  // ---- rendering ----

  /** What is fixed during one render call. */
  datatype Knobs = Knobs(tone: Tone, gain: real, globalMod: real)

  function Clamp(x: real): (r: real)
    ensures 0.0 <= r <= 1.0
  {
    if x < 0.0 then 0.0 else if x > 1.0 then 1.0 else x
  }

  function Level(k: Knobs, v: Voice): (r: real)
    ensures 0.0 <= r <= 1.0
  {
    Clamp(k.gain + k.globalMod + v.modGain)
  }

  function Turned(v: Voice): Voice {
    var phase := v.phase + v.phaseInc;
    v.(phase := if phase >= TWO_PI then phase - TWO_PI else phase)
  }

  /** One frame of one voice. */
  function Step(v: Voice): Voice {
    if !v.active then v
    else if v.releasing then
      var faded := v.(releaseGain := v.releaseGain - v.releaseStep);
      if faded.releaseGain <= 0.0 then Choked(faded) else Turned(faded)
    else Turned(v)
  }

  /** What the frame that `Step` performs adds to the buffer. */
  function Sample(k: Knobs, v: Voice): real {
    if !Step(v).active then 0.0
    else if v.releasing then k.tone.sin(v.phase) * (v.velocity * Level(k, v) * (v.releaseGain - v.releaseStep))
    else k.tone.sin(v.phase) * (v.velocity * Level(k, v))
  }

  function Advance(v: Voice, n: nat): (r: Voice)
    ensures r.key == v.key && r.channel == v.channel && r.noteId == v.noteId && r.age == v.age
    ensures r.modGain == v.modGain && r.velocity == v.velocity && r.releaseStep == v.releaseStep
    ensures r.releasing == v.releasing && r.phaseInc == v.phaseInc
    ensures r.active ==> v.active
    ensures !v.active ==> r == v
    ensures v.active && r.active ==> r.justEnded == v.justEnded
    ensures v.active && !r.active ==> r.justEnded
  {
    if n == 0 then v else Step(Advance(v, n - 1))
  }

  function AdvanceBy(n: nat): Voice -> Voice { v => Advance(v, n) }

  function Rendered(e: Engine, n: nat): (r: Engine)
    ensures WellFormed(e) ==> WellFormed(r)
  {
    e.(voices := MapVoices(AdvanceBy(n), e.voices))
  }

  /** What the first m voices add to frame t of a render call. */
  function Mix(k: Knobs, vs: seq<Voice>, m: nat, t: nat): real
    requires m <= |vs|
  {
    if m == 0 then 0.0 else Mix(k, vs, m - 1, t) + Sample(k, Advance(vs[m - 1], t))
  }

  function Mixdown(k: Knobs, vs: seq<Voice>, n: nat): (r: seq<real>)
    ensures |r| == n
  {
    seq(n, t requires 0 <= t => Mix(k, vs, |vs|, t))
  }

  /** Rendering a + b frames is rendering a frames and then b. */
  lemma {:induction false} AdvanceAdds(v: Voice, a: nat, b: nat)
    ensures Advance(v, a + b) == Advance(Advance(v, a), b)
  {
    if b > 0 {
      AdvanceAdds(v, a, b - 1);
    }
  }

  lemma {:induction false} MixAdds(k: Knobs, vs: seq<Voice>, m: nat, a: nat, t: nat)
    requires m <= |vs|
    ensures Mix(k, vs, m, a + t) == Mix(k, MapVoices(AdvanceBy(a), vs), m, t)
  {
    if m > 0 {
      MixAdds(k, vs, m - 1, a, t);
      AdvanceAdds(vs[m - 1], a, t);
    }
  }

  lemma RenderedAdds(e: Engine, a: nat, b: nat)
    ensures Rendered(e, a + b) == Rendered(Rendered(e, a), b)
  {
    forall i | 0 <= i < |e.voices|
      ensures Rendered(e, a + b).voices[i] == Rendered(Rendered(e, a), b).voices[i]
    {
      AdvanceAdds(e.voices[i], a, b);
    }
  }

  lemma MixdownAdds(k: Knobs, vs: seq<Voice>, a: nat, b: nat)
    ensures Mixdown(k, vs, a + b) == Mixdown(k, vs, a) + Mixdown(k, MapVoices(AdvanceBy(a), vs), b)
  {
    forall t | 0 <= t < b ensures Mix(k, vs, |vs|, a + t) == Mix(k, MapVoices(AdvanceBy(a), vs), |vs|, t) {
      MixAdds(k, vs, |vs|, a, t);
    }
    var whole, parts := Mixdown(k, vs, a + b), Mixdown(k, vs, a) + Mixdown(k, MapVoices(AdvanceBy(a), vs), b);
    forall t | 0 <= t < a + b ensures whole[t] == parts[t] {
      if a <= t {
        assert whole[t] == Mix(k, vs, |vs|, a + (t - a));
      }
    }
  }

  // ---- finished voices ----

  function Cleared(v: Voice): Voice { v.(justEnded := false) }

  function NoteEndsSent(e: Engine): Engine {
    e.(voices := MapVoices(Cleared, e.voices))
  }

  /** The NOTE_END events of the first m slots, in slot order. */
  function NoteEnds(vs: seq<Voice>, m: nat, time: nat): seq<NoteEnd>
    requires m <= |vs|
  {
    if m == 0 then [] else
    var v, before := vs[m - 1], NoteEnds(vs, m - 1, time);
    if v.justEnded then before + [NoteEnd(time, v.key, v.channel, v.noteId)] else before
  }

  predicate AnyActive(vs: seq<Voice>) {
    exists i | 0 <= i < |vs| :: vs[i].active
  }

  // ---- runs ----

  /** Everything a plugin does to its engine. */
  datatype Op =
    | StartNote(key: int, channel: int, noteId: int, velocity: real)
    | EndNotes(key: int, channel: int, noteId: int, choke: bool)
    | Bend(key: int, channel: int, noteId: int, amount: real)
    | Play(frames: nat)
    | SendEnds(time: nat)
    | Restart
    | Activate(rate: real)

  predicate Legal(op: Op) { op.Activate? ==> op.rate > 0.0 }

  predicate AllLegal(ops: seq<Op>) { forall i | 0 <= i < |ops| :: Legal(ops[i]) }

  function Apply(tone: Tone, e: Engine, op: Op): (r: Engine)
    requires WellFormed(e) && Legal(op)
    ensures WellFormed(r)
  {
    match op
    case StartNote(key, channel, noteId, velocity) => NoteOn(tone, e, key, channel, noteId, velocity)
    case EndNotes(key, channel, noteId, choke) => NoteOff(e, key, channel, noteId, choke)
    case Bend(key, channel, noteId, amount) => Modulate(e, key, channel, noteId, amount)
    case Play(frames) => Rendered(e, frames)
    case SendEnds(_) => NoteEndsSent(e)
    case Restart => Reset(e)
    case Activate(rate) => Reset(e.(sampleRate := rate))
  }

  function Run(tone: Tone, e: Engine, ops: seq<Op>): (r: Engine)
    requires WellFormed(e) && AllLegal(ops)
    ensures WellFormed(r)
  {
    if ops == [] then e else Apply(tone, Run(tone, e, ops[..|ops| - 1]), ops[|ops| - 1])
  }

  function NoteOns(ops: seq<Op>): nat {
    if ops == [] then 0 else NoteOns(ops[..|ops| - 1]) + if ops[|ops| - 1].StartNote? then 1 else 0
  }
}

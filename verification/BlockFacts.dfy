/**
 What the theorems about engine runs say about blocks: a block is a run of
 engine operations, so its samples are bounded and its notes are a queue.
*/
module BlockFacts {
  import opened Voices
  import opened BlockRenderer
  import opened EngineBounds
  import SoundingQueue

  /** The engine operations one event causes. */
  function EventOps(event: Event): (r: seq<Op>)
    ensures AllLegal(r)
  {
    if !event.coreSpace then [] else
    match event.body
    case NoteOnEvent(key, channel, noteId, velocity) => [StartNote(key, channel, noteId, velocity)]
    case NoteOffEvent(key, channel, noteId) => [EndNotes(key, channel, noteId, false)]
    case NoteChokeEvent(key, channel, noteId) => [EndNotes(key, channel, noteId, true)]
    case MidiEvent(status, data1, data2) =>
      var kind, channel := status - status % 16, status % 16;
      if kind == 0x90 && data2 > 0 then [StartNote(data1, channel, -1, data2 as real / 127.0)]
      else if kind == 0x80 || (kind == 0x90 && data2 == 0) then [EndNotes(data1, channel, -1, false)]
      else []
    case ParamModEvent(paramId, key, channel, noteId, amount) =>
      if paramId == PARAM_VOLUME then [Bend(key, channel, noteId, amount)] else []
    case _ => []
  }

  function BlockOps(events: seq<Event>, cursor: nat, frames: nat): (r: seq<Op>)
    requires cursor <= frames
    ensures AllLegal(r)
    decreases |events|
  {
    if events == [] then [Voices.Play(frames - cursor)]
    else if cursor < events[0].time <= frames then
      [Voices.Play(events[0].time - cursor)] + EventOps(events[0]) + BlockOps(events[1..], events[0].time, frames)
    else EventOps(events[0]) + BlockOps(events[1..], cursor, frames)
  }

  lemma {:induction false} RunAppends(tone: Tone, e: Engine, a: seq<Op>, b: seq<Op>)
    requires WellFormed(e) && AllLegal(a) && AllLegal(b)
    ensures Run(tone, e, a + b) == Run(tone, Run(tone, e, a), b)
  {
    if b == [] {
      assert a + b == a;
    } else {
      assert (a + b)[..|a + b| - 1] == a + b[..|b| - 1];
      RunAppends(tone, e, a, b[..|b| - 1]);
    }
  }

  lemma DispatchIsRun(tone: Tone, s: Synth, event: Event)
    requires WellFormed(s.engine)
    ensures Dispatch(tone, s, event).engine == Run(tone, s.engine, EventOps(event))
  {
    assert EventOps(event) != [] ==> EventOps(event)[..0] == [];
  }

  /** The engine after a block is the engine after the block's operations. */
  lemma {:induction false} BlockIsRun(
    tone: Tone, s: Synth, gain: real, events: seq<Event>, cursor: nat, frames: nat)
    requires WellFormed(s.engine) && cursor <= frames
    ensures Perform(tone, s, gain, events, cursor, frames).synth.engine ==
      Run(tone, s.engine, BlockOps(events, cursor, frames))
    decreases |events|
  {
    if events == [] {
    } else if cursor < events[0].time <= frames {
      var n := events[0].time - cursor;
      var t := Sounded(s, n);
      DispatchIsRun(tone, t, events[0]);
      BlockIsRun(tone, Dispatch(tone, t, events[0]), gain, events[1..], events[0].time, frames);
      var play, ops, rest := Voices.Play(n), EventOps(events[0]), BlockOps(events[1..], events[0].time, frames);
      assert BlockOps(events, cursor, frames) == [play] + ops + rest;
      RunInTurn(tone, s.engine, play, ops, rest);
    } else {
      DispatchIsRun(tone, s, events[0]);
      BlockIsRun(tone, Dispatch(tone, s, events[0]), gain, events[1..], cursor, frames);
      RunAppends(tone, s.engine, EventOps(events[0]), BlockOps(events[1..], cursor, frames));
    }
  }

  lemma RunInTurn(tone: Tone, e: Engine, op: Op, a: seq<Op>, b: seq<Op>)
    requires WellFormed(e) && Legal(op) && AllLegal(a) && AllLegal(b)
    ensures Run(tone, e, [op] + a + b) == Run(tone, Run(tone, Apply(tone, e, op), a), b)
  {
    RunAppends(tone, e, [op], a);
    RunAppends(tone, e, [op] + a, b);
  }

  /** Over a block with few enough note-ons, the sounding notes behave as the plain queue. */
  lemma BlockIsQueueRun(tone: Tone, s: Synth, events: seq<Event>, frames: nat)
    requires WellFormed(s.engine) && SoundingQueue.Ordered(s.engine)
    requires s.engine.clock + NoteOns(BlockOps(events, 0, frames)) < UINT32
    ensures SoundingQueue.Abstract(Block(tone, s, events, frames).synth.engine) ==
      SoundingQueue.DoAll(tone, SoundingQueue.Abstract(s.engine), BlockOps(events, 0, frames))
  {
    BlockIsRun(tone, s, s.volume, events, 0, frames);
    SoundingQueue.FewNotesHold(tone, s.engine, BlockOps(events, 0, frames));
    SoundingQueue.RunRefines(tone, s.engine, BlockOps(events, 0, frames));
  }

  // ---- loudness ----

  /** Velocities a host may send: at most 1, MIDI velocities at most 127. */
  predicate SoftEvent(event: Event) {
    match event.body
    case NoteOnEvent(_, _, _, velocity) => velocity <= 1.0
    case MidiEvent(_, _, data2) => data2 <= 127
    case _ => true
  }

  lemma SoftDispatch(tone: Tone, s: Synth, event: Event)
    requires Soft(s.engine) && SoftEvent(event)
    ensures Soft(Dispatch(tone, s, event).engine)
  {
    DispatchIsRun(tone, s, event);
    SoftRun(tone, s.engine, EventOps(event));
  }

  lemma SoftSounded(tone: Tone, s: Synth, gain: real, n: nat)
    requires Soft(s.engine) && SineBounded(tone)
    ensures Soft(Sounded(s, n).engine)
    ensures forall t | 0 <= t < n :: -8.0 <= Chunk(tone, s, gain, n)[t] <= 8.0
  {
    SoftApply(tone, s.engine, Voices.Play(n));
    var k := KnobsOf(tone, s, gain);
    forall t | 0 <= t < n ensures -8.0 <= Chunk(tone, s, gain, n)[t] <= 8.0 {
      MixBounded(k, s.engine, MAX_VOICES, t);
    }
  }

  predicate Within8(out: seq<real>) {
    forall t | 0 <= t < |out| :: -8.0 <= out[t] <= 8.0
  }

  /** Every sample of every block is in [-8, 8], whatever the volume and the modulation. */
  lemma {:induction false} BlockBounded(
    tone: Tone, s: Synth, gain: real, events: seq<Event>, cursor: nat, frames: nat)
    requires Soft(s.engine) && SineBounded(tone) && cursor <= frames
    requires forall i | 0 <= i < |events| :: SoftEvent(events[i])
    ensures var played := Perform(tone, s, gain, events, cursor, frames);
      Within8(played.out) && Soft(played.synth.engine)
    decreases |events|
  {
    if events == [] {
      SoftSounded(tone, s, gain, frames - cursor);
    } else if cursor < events[0].time <= frames {
      var n := events[0].time - cursor;
      SoftSounded(tone, s, gain, n);
      SoftDispatch(tone, Sounded(s, n), events[0]);
      BlockBounded(tone, Dispatch(tone, Sounded(s, n), events[0]), gain, events[1..], events[0].time, frames);
    } else {
      SoftDispatch(tone, s, events[0]);
      BlockBounded(tone, Dispatch(tone, s, events[0]), gain, events[1..], cursor, frames);
    }
  }

  // ---- where a block cannot be cut ----

  lemma {:induction false} OnlyVoice(k: Knobs, vs: seq<Voice>, m: nat, t: nat)
    requires 0 < m <= |vs| && forall i | 0 < i < |vs| :: !vs[i].active
    ensures Mix(k, vs, m, t) == Sample(k, Advance(vs[0], t))
  {
    if m == 1 {
      assert Mix(k, vs, 0, t) == 0.0;
    } else {
      OnlyVoice(k, vs, m - 1, t);
    }
  }

  /** A note as it starts, at any age. */
  function Fresh(tone: Tone, sampleRate: real, age: nat, key: int): Voice
    requires sampleRate > 0.0
  {
    NewVoice(tone, sampleRate, age, key, 0, -1, 1.0)
  }

  /** Some note makes a sound at some frame. */
  ghost predicate Audible(tone: Tone, sampleRate: real)
    requires sampleRate > 0.0
  {
    exists key, n: nat :: tone.sin(Advance(Fresh(tone, sampleRate, 0, key), n).phase) != 0.0
  }

  lemma {:induction false} SustainedNote(v: Voice, age: nat, n: nat)
    requires v.active && !v.releasing
    ensures Advance(v, n).active && Advance(v.(age := age), n) == Advance(v, n).(age := age)
  {
    if n > 0 {
      SustainedNote(v, age, n - 1);
    }
  }

  /** Silence everything, set the modulation, and start one note: events a host may send at the start of a block. */
  function Probe(key: int, amount: real): seq<Event> {
    [Event(0, true, NoteChokeEvent(-1, -1, -1)), Event(0, true, ParamModEvent(PARAM_VOLUME, -1, -1, -1, amount)),
     Event(0, true, NoteOnEvent(key, 0, -1, 1.0))]
  }

  /** After the probe's events only its note sounds. */
  lemma ProbeStarts(tone: Tone, s: Synth, key: int, amount: real)
    requires WellFormed(s.engine)
    ensures var probe := Probe(key, amount);
      var t := Dispatch(tone, Dispatch(tone, Dispatch(tone, s, probe[0]), probe[1]), probe[2]);
      t.engine.globalMod == amount && t.engine.sampleRate == s.engine.sampleRate &&
      (forall i | 0 < i < MAX_VOICES :: !t.engine.voices[i].active) &&
      t.engine.voices[0] == Fresh(tone, s.engine.sampleRate, s.engine.clock, key)
  {
    var choked := Dispatch(tone, s, Probe(key, amount)[0]).engine;
    assert forall i | 0 <= i < MAX_VOICES :: !choked.voices[i].active;
    assert FirstInactive(choked.voices) == 0;
  }

  /** What the probe's note sounds like at frame n, at a gain. */
  lemma ProbeSounds(tone: Tone, s: Synth, gain: real, key: int, amount: real, n: nat)
    requires WellFormed(s.engine)
    ensures var phase := Advance(Fresh(tone, s.engine.sampleRate, 0, key), n).phase;
      Perform(tone, s, gain, Probe(key, amount), 0, n + 1).out[n] == tone.sin(phase) * Clamp(gain + amount)
  {
    hide Dispatch, Mix, Advance;
    var probe := Probe(key, amount);
    var one := Dispatch(tone, s, probe[0]);
    var two := Dispatch(tone, one, probe[1]);
    var t := Dispatch(tone, two, probe[2]);
    assert Perform(tone, s, gain, probe, 0, n + 1) == Perform(tone, one, gain, probe[1..], 0, n + 1);
    assert Perform(tone, one, gain, probe[1..], 0, n + 1) == Perform(tone, two, gain, probe[2..], 0, n + 1);
    assert probe[2..][1..] == [];
    assert Perform(tone, two, gain, probe[2..], 0, n + 1) == Perform(tone, t, gain, [], 0, n + 1);
    ProbeStarts(tone, s, key, amount);
    ProbeHeard(tone, t, gain, key, amount, s.engine.clock, n);
  }

  lemma ProbeHeard(tone: Tone, t: Synth, gain: real, key: int, amount: real, age: nat, n: nat)
    requires WellFormed(t.engine) && t.engine.globalMod == amount
    requires forall i | 0 < i < MAX_VOICES :: !t.engine.voices[i].active
    requires t.engine.voices[0] == Fresh(tone, t.engine.sampleRate, age, key)
    ensures Chunk(tone, t, gain, n + 1)[n] ==
      tone.sin(Advance(Fresh(tone, t.engine.sampleRate, 0, key), n).phase) * Clamp(gain + amount)
  {
    hide Mix, Advance;
    var k, v := KnobsOf(tone, t, gain), Fresh(tone, t.engine.sampleRate, 0, key);
    OnlyVoice(k, t.engine.voices, MAX_VOICES, n);
    SustainedNote(v, age, n);
    assert v.(age := age) == t.engine.voices[0];
    var w := Advance(v, n);
    assert w.velocity == v.velocity == 1.0 && w.modGain == v.modGain == 0.0 && w.releasing == v.releasing == false;
  }

  /** Cutting a block after n1 frames changes no sample. */
  ghost predicate CutInaudible(tone: Tone, s: Synth, a: seq<Event>, b: seq<Event>, n1: nat, n2: nat)
    requires WellFormed(s.engine)
  {
    var whole, first := Block(tone, s, a + Shifted(b, n1), n1 + n2), Block(tone, s, a, n1);
    whole.out == first.out + Block(tone, Finished(first.synth), b, n2).out
  }

  /**
   A cut after some events is inaudible, whatever follows, exactly when these
   events leave the volume as they found it: the gain is read once per block.
  */
  lemma CutInaudibleIff(tone: Tone, s: Synth, a: seq<Event>, n1: nat)
    requires WellFormed(s.engine) && Within(a, 0, n1) && Audible(tone, s.engine.sampleRate)
    ensures (forall b, n2 | Within(b, 0, n2) :: CutInaudible(tone, s, a, b, n1, n2)) <==>
      LastVolume(s.volume, a) == s.volume
  {
    if LastVolume(s.volume, a) == s.volume {
      forall b, n2 | Within(b, 0, n2) ensures CutInaudible(tone, s, a, b, n1, n2) {
        BlockSplits(tone, s, a, b, n1, n2);
      }
    } else {
      var key, n: nat :| tone.sin(Advance(Fresh(tone, s.engine.sampleRate, 0, key), n).phase) != 0.0;
      CutHeard(tone, s, a, n1, key, n);
    }
  }

  function Quieter(x: real, y: real): real { if x < y then x else y }

  /** The note that tells the two gains apart: modulated so that it is silent at the quieter one. */
  lemma CutHeard(tone: Tone, s: Synth, a: seq<Event>, n1: nat, key: int, n: nat)
    requires WellFormed(s.engine) && Within(a, 0, n1) && LastVolume(s.volume, a) != s.volume
    requires tone.sin(Advance(Fresh(tone, s.engine.sampleRate, 0, key), n).phase) != 0.0
    ensures var b := Probe(key, -Quieter(s.volume, LastVolume(s.volume, a)));
      Within(b, 0, n + 1) && !CutInaudible(tone, s, a, b, n1, n + 1)
  {
    hide Perform, Advance, LastVolume, Fresh;
    var old_, new_ := s.volume, LastVolume(s.volume, a);
    var amount := -Quieter(old_, new_);
    var b, mid := Probe(key, amount), Block(tone, s, a, n1).synth;
    var sine := tone.sin(Advance(Fresh(tone, s.engine.sampleRate, 0, key), n).phase);
    BlockInTwo(tone, s, a, b, n1, n + 1);
    VolumeAfter(tone, s, s.volume, a, 0, n1);
    ProbeSounds(tone, mid, old_, key, amount, n);
    ProbeSounds(tone, Finished(mid), new_, key, amount, n);
    var whole, first := Block(tone, s, a + Shifted(b, n1), n1 + n + 1), Block(tone, s, a, n1);
    assert whole.out[n1 + n] == sine * Clamp(old_ + amount);
    assert (first.out + Block(tone, Finished(mid), b, n + 1).out)[n1 + n] == sine * Clamp(new_ + amount);
  }
}

/**
 The sample-accurate block loop as a function: render up to each event, handle
 it, go on. Cutting a block anywhere does not change the sound.
*/
module BlockRenderer {
  import opened Voices
  import EngineBounds

  const PARAM_VOLUME: nat := 0

  datatype Synth = Synth(engine: Engine, volume: real)

  datatype Played = Played(synth: Synth, out: seq<real>)

  function Dispatch(tone: Tone, s: Synth, event: Event): (r: Synth)
    requires WellFormed(s.engine)
    ensures WellFormed(r.engine)
  {
    if event.coreSpace && event.body.ParamValueEvent? then
      if event.body.paramId == PARAM_VOLUME then s.(volume := event.body.value) else s
    else if event.coreSpace && event.body.ParamModEvent? then
      if event.body.paramId == PARAM_VOLUME
      then s.(engine := Modulate(s.engine, event.body.key, event.body.channel, event.body.noteId, event.body.amount))
      else s
    else s.(engine := Handle(tone, s.engine, event))
  }

  function KnobsOf(tone: Tone, s: Synth, gain: real): Knobs { Knobs(tone, gain, s.engine.globalMod) }

  function Chunk(tone: Tone, s: Synth, gain: real, n: nat): (r: seq<real>)
    ensures |r| == n
  {
    Mixdown(KnobsOf(tone, s, gain), s.engine.voices, n)
  }

  function Sounded(s: Synth, n: nat): (r: Synth)
    ensures WellFormed(s.engine) ==> WellFormed(r.engine)
  {
    s.(engine := Rendered(s.engine, n))
  }

  /** The block loop from `cursor` on: what it leaves behind and the frames it fills. */
  function Perform(tone: Tone, s: Synth, gain: real, events: seq<Event>, cursor: nat, frames: nat): (r: Played)
    requires WellFormed(s.engine) && cursor <= frames
    ensures WellFormed(r.synth.engine) && |r.out| == frames - cursor
    decreases |events|
  {
    if events == [] then Played(Sounded(s, frames - cursor), Chunk(tone, s, gain, frames - cursor))
    else if cursor < events[0].time <= frames then
      var n := events[0].time - cursor;
      var rest := Perform(tone, Dispatch(tone, Sounded(s, n), events[0]), gain, events[1..], events[0].time, frames);
      Played(rest.synth, Chunk(tone, s, gain, n) + rest.out)
    else Perform(tone, Dispatch(tone, s, events[0]), gain, events[1..], cursor, frames)
  }

  /** One process() call without the NOTE_ENDs: the gain is read once, at its start. */
  function Block(tone: Tone, s: Synth, events: seq<Event>, frames: nat): (r: Played)
    requires WellFormed(s.engine)
    ensures WellFormed(r.synth.engine) && |r.out| == frames
  {
    Perform(tone, s, s.volume, events, 0, frames)
  }

  function Finished(s: Synth): (r: Synth)
    ensures WellFormed(s.engine) ==> WellFormed(r.engine)
  {
    s.(engine := NoteEndsSent(s.engine))
  }

  // ---- one turn of the loop ----

  /** Where the cursor is when an event is handled. */
  function Reached(event: Event, cursor: nat, frames: nat): (next: nat)
    ensures cursor <= next && (cursor <= frames ==> next <= frames)
  {
    if cursor < event.time <= frames then event.time else cursor
  }

  lemma NothingLeft(tone: Tone, s: Synth, gain: real, events: seq<Event>, cursor: nat, frames: nat)
    requires WellFormed(s.engine) && cursor <= frames && events == []
    ensures Perform(tone, s, gain, events, cursor, frames) ==
      Played(Sounded(s, frames - cursor), Chunk(tone, s, gain, frames - cursor))
  {
  }

  lemma SoundedNothing(s: Synth)
    ensures Sounded(s, 0) == s
  {
    assert Rendered(s.engine, 0).voices == s.engine.voices;
  }

  /** The synth after the next event, whether something is rendered before it or not. */
  function AfterTurn(tone: Tone, s: Synth, event: Event, n: nat): (r: Synth)
    requires WellFormed(s.engine)
    ensures WellFormed(r.engine)
  {
    Dispatch(tone, Sounded(s, n), event)
  }

  lemma PerformOne(tone: Tone, s: Synth, gain: real, events: seq<Event>, cursor: nat, frames: nat)
    requires WellFormed(s.engine) && cursor <= frames && events != []
    ensures var next := Reached(events[0], cursor, frames);
      var rest := Perform(tone, AfterTurn(tone, s, events[0], next - cursor), gain, events[1..], next, frames);
      Perform(tone, s, gain, events, cursor, frames) ==
        Played(rest.synth, Chunk(tone, s, gain, next - cursor) + rest.out)
  {
    hide Sounded, Chunk, Dispatch;
    if !(cursor < events[0].time <= frames) {
      SoundedNothing(s);
      var rest := Perform(tone, s, gain, events, cursor, frames);
      assert Chunk(tone, s, gain, 0) + rest.out == rest.out;
    }
  }

  // ---- a pending NOTE_END never influences the sound ----

  ghost predicate SameVoices(vs: seq<Voice>, ws: seq<Voice>) {
    |vs| == |ws| && forall i | 0 <= i < |vs| :: Cleared(vs[i]) == Cleared(ws[i])
  }

  /** Equal up to `justEnded`. */
  ghost predicate SameSound(s: Synth, t: Synth) {
    s.volume == t.volume && s.engine.sampleRate == t.engine.sampleRate && s.engine.clock == t.engine.clock &&
    s.engine.globalMod == t.engine.globalMod && SameVoices(s.engine.voices, t.engine.voices)
  }

  lemma {:induction false} SameAdvance(v: Voice, w: Voice, n: nat)
    requires Cleared(v) == Cleared(w)
    ensures Cleared(Advance(v, n)) == Cleared(Advance(w, n))
  {
    if n > 0 {
      SameAdvance(v, w, n - 1);
    }
  }

  lemma {:induction false} SameMix(k: Knobs, vs: seq<Voice>, ws: seq<Voice>, m: nat, t: nat)
    requires SameVoices(vs, ws) && m <= |vs|
    ensures Mix(k, vs, m, t) == Mix(k, ws, m, t)
  {
    if m > 0 {
      SameMix(k, vs, ws, m - 1, t);
      SameAdvance(vs[m - 1], ws[m - 1], t);
      SameSample(k, Advance(vs[m - 1], t), Advance(ws[m - 1], t));
    }
  }

  lemma SameSample(k: Knobs, v: Voice, w: Voice)
    requires Cleared(v) == Cleared(w)
    ensures Sample(k, v) == Sample(k, w)
  {
    assert v == w.(justEnded := v.justEnded);
  }

  lemma SameChunk(tone: Tone, s: Synth, t: Synth, gain: real, n: nat)
    requires SameSound(s, t)
    ensures Chunk(tone, s, gain, n) == Chunk(tone, t, gain, n)
    ensures SameSound(Sounded(s, n), Sounded(t, n))
  {
    var k := KnobsOf(tone, s, gain);
    forall i | 0 <= i < n ensures Chunk(tone, s, gain, n)[i] == Chunk(tone, t, gain, n)[i] {
      SameMix(k, s.engine.voices, t.engine.voices, |s.engine.voices|, i);
    }
    forall i | 0 <= i < |s.engine.voices|
      ensures Cleared(Advance(s.engine.voices[i], n)) == Cleared(Advance(t.engine.voices[i], n))
    {
      SameAdvance(s.engine.voices[i], t.engine.voices[i], n);
    }
  }

  lemma {:induction false} SameOldest(vs: seq<Voice>, ws: seq<Voice>, n: nat)
    requires SameVoices(vs, ws) && 0 < n <= |vs|
    ensures Oldest(vs, n) == Oldest(ws, n)
  {
    var i, j := Oldest(vs, n), Oldest(ws, n);
    assert Cleared(vs[i]) == Cleared(ws[i]) && Cleared(vs[j]) == Cleared(ws[j]);
  }

  lemma SameNoteOn(tone: Tone, e: Engine, f: Engine, key: int, channel: int, noteId: int, velocity: real)
    requires WellFormed(e) && WellFormed(f) && SameVoices(e.voices, f.voices)
    requires e.clock == f.clock && e.sampleRate == f.sampleRate
    ensures SameVoices(NoteOn(tone, e, key, channel, noteId, velocity).voices,
                       NoteOn(tone, f, key, channel, noteId, velocity).voices)
  {
    SameOldest(e.voices, f.voices, MAX_VOICES);
  }

  /** f reads `justEnded` nowhere that matters. */
  predicate Blind(f: Voice -> Voice, v: Voice) {
    Cleared(f(v)) == Cleared(f(Cleared(v)))
  }

  lemma SameMap(f: Voice -> Voice, vs: seq<Voice>, ws: seq<Voice>)
    requires SameVoices(vs, ws) && forall v :: Blind(f, v)
    ensures SameVoices(MapVoices(f, vs), MapVoices(f, ws))
  {
    forall i | 0 <= i < |vs| ensures Cleared(f(vs[i])) == Cleared(f(ws[i])) {
      assert Blind(f, vs[i]) && Blind(f, ws[i]);
    }
  }

  lemma SameHandle(tone: Tone, e: Engine, f: Engine, event: Event)
    requires WellFormed(e) && WellFormed(f) && SameVoices(e.voices, f.voices)
    requires e.clock == f.clock && e.sampleRate == f.sampleRate
    ensures SameVoices(Handle(tone, e, event).voices, Handle(tone, f, event).voices)
  {
    hide NoteOn, NoteOff, SameVoices;
    if event.coreSpace {
      match event.body
      case NoteOnEvent(key, channel, noteId, velocity) => SameNoteOn(tone, e, f, key, channel, noteId, velocity);
      case NoteOffEvent(key, channel, noteId) => SameNoteOff(e, f, key, channel, noteId, false);
      case NoteChokeEvent(key, channel, noteId) => SameNoteOff(e, f, key, channel, noteId, true);
      case MidiEvent(status, data1, data2) =>
        SameNoteOn(tone, e, f, data1, status % 16, -1, data2 as real / 127.0);
        SameNoteOff(e, f, data1, status % 16, -1, false);
      case _ =>
    }
  }

  lemma SameNoteOff(e: Engine, f: Engine, key: int, channel: int, noteId: int, choke: bool)
    requires SameVoices(e.voices, f.voices)
    ensures SameVoices(NoteOff(e, key, channel, noteId, choke).voices, NoteOff(f, key, channel, noteId, choke).voices)
  {
    forall v ensures Blind(EndIf(key, channel, noteId, choke), v) { }
    SameMap(EndIf(key, channel, noteId, choke), e.voices, f.voices);
  }

  lemma SameDispatch(tone: Tone, s: Synth, t: Synth, event: Event)
    requires WellFormed(s.engine) && WellFormed(t.engine) && SameSound(s, t)
    ensures SameSound(Dispatch(tone, s, event), Dispatch(tone, t, event))
  {
    if event.coreSpace && event.body.ParamValueEvent? {
    } else if event.coreSpace && event.body.ParamModEvent? {
      var body := event.body;
      forall v ensures Blind(ModulateIf(body.key, body.channel, body.noteId, body.amount), v) { }
      SameMap(ModulateIf(body.key, body.channel, body.noteId, body.amount), s.engine.voices, t.engine.voices);
    } else {
      SameHandle(tone, s.engine, t.engine, event);
    }
  }

  lemma SameTurn(tone: Tone, s: Synth, t: Synth, gain: real, event: Event, n: nat)
    requires WellFormed(s.engine) && WellFormed(t.engine) && SameSound(s, t)
    ensures Chunk(tone, s, gain, n) == Chunk(tone, t, gain, n)
    ensures SameSound(AfterTurn(tone, s, event, n), AfterTurn(tone, t, event, n))
  {
    hide Chunk, Sounded, Dispatch, SameSound;
    SameChunk(tone, s, t, gain, n);
    SameDispatch(tone, Sounded(s, n), Sounded(t, n), event);
  }

  lemma {:induction false} SamePerform(
    tone: Tone, s: Synth, t: Synth, gain: real, events: seq<Event>, cursor: nat, frames: nat)
    requires WellFormed(s.engine) && WellFormed(t.engine) && SameSound(s, t) && cursor <= frames
    ensures var p, q := Perform(tone, s, gain, events, cursor, frames), Perform(tone, t, gain, events, cursor, frames);
      p.out == q.out && SameSound(p.synth, q.synth)
    decreases |events|
  {
    hide *;
    if events == [] {
      NothingLeft(tone, s, gain, events, cursor, frames);
      NothingLeft(tone, t, gain, events, cursor, frames);
      SameChunk(tone, s, t, gain, frames - cursor);
    } else {
      var next := Reached(events[0], cursor, frames);
      PerformOne(tone, s, gain, events, cursor, frames);
      PerformOne(tone, t, gain, events, cursor, frames);
      SameTurn(tone, s, t, gain, events[0], next - cursor);
      SamePerform(tone, AfterTurn(tone, s, events[0], next - cursor), AfterTurn(tone, t, events[0], next - cursor),
                  gain, events[1..], next, frames);
    }
  }

  // ---- cutting a block in two ----

  predicate Within(events: seq<Event>, low: nat, high: nat) {
    forall i | 0 <= i < |events| :: low <= events[i].time <= high
  }

  function Shifted(events: seq<Event>, later: nat): (r: seq<Event>)
    ensures |r| == |events|
    ensures forall i | 0 <= i < |events| :: r[i] == events[i].(time := events[i].time + later)
  {
    seq(|events|, i requires 0 <= i < |events| => events[i].(time := events[i].time + later))
  }

  lemma SoundedAdds(tone: Tone, s: Synth, gain: real, a: nat, b: nat)
    ensures Sounded(s, a + b) == Sounded(Sounded(s, a), b)
    ensures Chunk(tone, s, gain, a + b) == Chunk(tone, s, gain, a) + Chunk(tone, Sounded(s, a), gain, b)
  {
    RenderedAdds(s.engine, a, b);
    MixdownAdds(KnobsOf(tone, s, gain), s.engine.voices, a, b);
  }

  /** With no event before `stop`, the loop renders up to it first. */
  lemma PerformUpTo(tone: Tone, s: Synth, gain: real, events: seq<Event>, cursor: nat, stop: nat, frames: nat)
    requires WellFormed(s.engine) && cursor <= stop <= frames && Within(events, stop, frames)
    ensures var rest := Perform(tone, Sounded(s, stop - cursor), gain, events, stop, frames);
      Perform(tone, s, gain, events, cursor, frames) ==
        Played(rest.synth, Chunk(tone, s, gain, stop - cursor) + rest.out)
  {
    hide Perform, Chunk, Sounded, AfterTurn;
    var n := stop - cursor;
    if events == [] {
      NothingLeft(tone, s, gain, events, cursor, frames);
      NothingLeft(tone, Sounded(s, n), gain, events, stop, frames);
      SoundedAdds(tone, s, gain, n, frames - stop);
      assert n + (frames - stop) == frames - cursor;
    } else {
      var m := Reached(events[0], stop, frames) - stop;
      PerformOne(tone, s, gain, events, cursor, frames);
      PerformOne(tone, Sounded(s, n), gain, events, stop, frames);
      TurnAdds(tone, s, events[0], n, m);
      SoundedAdds(tone, s, gain, n, m);
      assert n + m == Reached(events[0], cursor, frames) - cursor;
      var rest := Perform(tone, AfterTurn(tone, s, events[0], n + m), gain, events[1..], stop + m, frames);
      Reassociate(Chunk(tone, s, gain, n), Chunk(tone, Sounded(s, n), gain, m), rest.out);
    }
  }

  lemma TurnAdds(tone: Tone, s: Synth, event: Event, n: nat, m: nat)
    requires WellFormed(s.engine)
    ensures AfterTurn(tone, s, event, n + m) == AfterTurn(tone, Sounded(s, n), event, m)
  {
    hide Dispatch, Sounded, Chunk;
    SoundedAdds(tone, s, 0.0, n, m);
  }

  lemma Reassociate(a: seq<real>, b: seq<real>, c: seq<real>)
    ensures (a + b) + c == a + (b + c)
  {
  }

  /** The first events of a list are those of its first part. */
  lemma FirstOf(a: seq<Event>, b: seq<Event>)
    requires a != []
    ensures a + b != [] && (a + b)[0] == a[0] && (a + b)[1..] == a[1..] + b
  {
  }

  lemma {:induction false} PerformAppends(
    tone: Tone, s: Synth, gain: real, a: seq<Event>, b: seq<Event>, cursor: nat, stop: nat, frames: nat)
    requires WellFormed(s.engine) && cursor <= stop <= frames
    requires Within(a, 0, stop) && Within(b, stop, frames)
    ensures var first := Perform(tone, s, gain, a, cursor, stop);
      var rest := Perform(tone, first.synth, gain, b, stop, frames);
      Perform(tone, s, gain, a + b, cursor, frames) == Played(rest.synth, first.out + rest.out)
    decreases |a|
  {
    hide Perform, AfterTurn, Chunk, Sounded;
    if a == [] {
      assert a + b == b;
      NothingLeft(tone, s, gain, a, cursor, stop);
      PerformUpTo(tone, s, gain, b, cursor, stop, frames);
    } else {
      var next := Reached(a[0], cursor, stop);
      var n := next - cursor;
      var t := AfterTurn(tone, s, a[0], n);
      FirstOf(a, b);
      PerformOne(tone, s, gain, a + b, cursor, frames);
      PerformOne(tone, s, gain, a, cursor, stop);
      PerformAppends(tone, t, gain, a[1..], b, next, stop, frames);
      var first := Perform(tone, t, gain, a[1..], next, stop);
      Reassociate(Chunk(tone, s, gain, n), first.out, Perform(tone, first.synth, gain, b, stop, frames).out);
    }
  }

  lemma ShiftedTurn(tone: Tone, s: Synth, events: seq<Event>, later: nat, n: nat)
    requires WellFormed(s.engine) && events != []
    ensures var shifted := Shifted(events, later);
      shifted[1..] == Shifted(events[1..], later) &&
      AfterTurn(tone, s, shifted[0], n) == AfterTurn(tone, s, events[0], n)
  {
    hide Sounded;
  }

  /** Only differences of times matter. */
  lemma {:induction false} PerformShifts(
    tone: Tone, s: Synth, gain: real, events: seq<Event>, later: nat, cursor: nat, frames: nat)
    requires WellFormed(s.engine) && cursor <= frames
    ensures Perform(tone, s, gain, Shifted(events, later), later + cursor, later + frames) ==
      Perform(tone, s, gain, events, cursor, frames)
    decreases |events|
  {
    hide Perform, AfterTurn, Chunk, Sounded, Shifted;
    var shifted := Shifted(events, later);
    if events == [] {
      NothingLeft(tone, s, gain, events, cursor, frames);
      NothingLeft(tone, s, gain, shifted, later + cursor, later + frames);
    } else {
      var next := Reached(events[0], cursor, frames);
      PerformOne(tone, s, gain, events, cursor, frames);
      PerformOne(tone, s, gain, shifted, later + cursor, later + frames);
      ShiftedTurn(tone, s, events, later, next - cursor);
      PerformShifts(tone, AfterTurn(tone, s, events[0], next - cursor), gain, events[1..], later, next, frames);
    }
  }

  predicate SetsVolume(event: Event) {
    event.coreSpace && event.body.ParamValueEvent? && event.body.paramId == 0
  }

  /** The volume after some events: that of the last volume event, if there is one. */
  function LastVolume(volume: real, events: seq<Event>): real {
    if events == [] then volume
    else if SetsVolume(events[|events| - 1]) then events[|events| - 1].body.value
    else LastVolume(volume, events[..|events| - 1])
  }

  lemma {:induction false} LastVolumeAppends(volume: real, a: seq<Event>, b: seq<Event>)
    ensures LastVolume(volume, a + b) == LastVolume(LastVolume(volume, a), b)
  {
    if b == [] {
      assert a + b == a;
    } else {
      assert (a + b)[..|a + b| - 1] == a + b[..|b| - 1];
      LastVolumeAppends(volume, a, b[..|b| - 1]);
    }
  }

  lemma {:induction false} LastVolumeShifts(volume: real, events: seq<Event>, later: nat)
    ensures LastVolume(volume, Shifted(events, later)) == LastVolume(volume, events)
  {
    if events != [] {
      var front := events[..|events| - 1];
      assert Shifted(events, later)[..|events| - 1] == Shifted(front, later);
      LastVolumeShifts(volume, front, later);
    }
  }

  lemma VolumeTurn(tone: Tone, s: Synth, event: Event, n: nat)
    requires WellFormed(s.engine)
    ensures var r := AfterTurn(tone, s, event, n);
      r.volume == LastVolume(s.volume, [event]) && r.engine.sampleRate == s.engine.sampleRate
  {
    assert [event][..0] == [];
  }

  /** The block loop leaves the volume of the last volume event, and never changes the sample rate. */
  lemma {:induction false} VolumeAfter(
    tone: Tone, s: Synth, gain: real, events: seq<Event>, cursor: nat, frames: nat)
    requires WellFormed(s.engine) && cursor <= frames
    ensures var after := Perform(tone, s, gain, events, cursor, frames).synth;
      after.volume == LastVolume(s.volume, events) && after.engine.sampleRate == s.engine.sampleRate
    decreases |events|
  {
    if events != [] {
      hide Perform, AfterTurn, Chunk, LastVolume;
      var next := Reached(events[0], cursor, frames);
      PerformOne(tone, s, gain, events, cursor, frames);
      VolumeTurn(tone, s, events[0], next - cursor);
      VolumeAfter(tone, AfterTurn(tone, s, events[0], next - cursor), gain, events[1..], next, frames);
      LastVolumeAppends(s.volume, [events[0]], events[1..]);
      assert [events[0]] + events[1..] == events;
    }
  }

  /** A block of both parts is the first part and then, still at the first gain, the second. */
  lemma BlockInTwo(tone: Tone, s: Synth, a: seq<Event>, b: seq<Event>, n1: nat, n2: nat)
    requires WellFormed(s.engine) && Within(a, 0, n1) && Within(b, 0, n2)
    ensures var whole, first := Block(tone, s, a + Shifted(b, n1), n1 + n2), Block(tone, s, a, n1);
      var rest := Perform(tone, first.synth, s.volume, b, 0, n2);
      whole == Played(rest.synth, first.out + rest.out)
  {
    hide Perform, WellFormed;
    PerformAppends(tone, s, s.volume, a, Shifted(b, n1), 0, n1, n1 + n2);
    PerformShifts(tone, Block(tone, s, a, n1).synth, s.volume, b, n1, 0, n2);
  }

  lemma SameFinished(s: Synth)
    ensures SameSound(s, Finished(s))
  {
  }

  /**
   Block-split invariance. Processing n1 + n2 frames gives the samples, and up to
   `justEnded` the state, of processing n1 frames and then n2 with the later
   events shifted, if the first part ends at the volume it began with.
  */
  lemma BlockSplits(tone: Tone, s: Synth, a: seq<Event>, b: seq<Event>, n1: nat, n2: nat)
    requires WellFormed(s.engine) && Within(a, 0, n1) && Within(b, 0, n2)
    requires LastVolume(s.volume, a) == s.volume
    ensures var whole, first := Block(tone, s, a + Shifted(b, n1), n1 + n2), Block(tone, s, a, n1);
      var second := Block(tone, Finished(first.synth), b, n2);
      whole.out == first.out + second.out && SameSound(whole.synth, second.synth)
  {
    hide Perform, SameSound, WellFormed, LastVolume;
    BlockInTwo(tone, s, a, b, n1, n2);
    VolumeAfter(tone, s, s.volume, a, 0, n1);
    var mid := Block(tone, s, a, n1).synth;
    SameFinished(mid);
    SamePerform(tone, mid, Finished(mid), mid.volume, b, 0, n2);
  }

  // ---- cutting a block into any number of pieces ----

  datatype Piece = Piece(events: seq<Event>, frames: nat)

  /** Events lie in their pieces, and every cut is at the volume of the start. */
  predicate Tidy(volume: real, pieces: seq<Piece>) {
    (forall i | 0 <= i < |pieces| :: Within(pieces[i].events, 0, pieces[i].frames)) &&
    forall i | 0 <= i < |pieces| - 1 :: LastVolume(volume, pieces[i].events) == volume
  }

  function TotalFrames(pieces: seq<Piece>): nat {
    if pieces == [] then 0 else TotalFrames(pieces[..|pieces| - 1]) + pieces[|pieces| - 1].frames
  }

  /** The pieces' events on one time line. */
  function Joined(pieces: seq<Piece>): seq<Event> {
    if pieces == [] then [] else
    var front, last := pieces[..|pieces| - 1], pieces[|pieces| - 1];
    Joined(front) + Shifted(last.events, TotalFrames(front))
  }

  function Blocks(tone: Tone, s: Synth, pieces: seq<Piece>): (r: Played)
    requires WellFormed(s.engine)
    ensures WellFormed(r.synth.engine)
  {
    if pieces == [] then Played(s, []) else
    var before, last := Blocks(tone, s, pieces[..|pieces| - 1]), pieces[|pieces| - 1];
    var played := Block(tone, before.synth, last.events, last.frames);
    Played(Finished(played.synth), before.out + played.out)
  }

  lemma {:induction false} JoinedWithin(pieces: seq<Piece>)
    requires forall i | 0 <= i < |pieces| :: Within(pieces[i].events, 0, pieces[i].frames)
    ensures Within(Joined(pieces), 0, TotalFrames(pieces))
  {
    if pieces != [] {
      JoinedWithin(pieces[..|pieces| - 1]);
    }
  }

  lemma {:induction false} JoinedVolume(volume: real, pieces: seq<Piece>)
    requires forall i | 0 <= i < |pieces| :: LastVolume(volume, pieces[i].events) == volume
    ensures LastVolume(volume, Joined(pieces)) == volume
  {
    hide LastVolume, Shifted;
    if pieces != [] {
      var front, last := pieces[..|pieces| - 1], pieces[|pieces| - 1];
      JoinedVolume(volume, front);
      LastVolumeAppends(volume, Joined(front), Shifted(last.events, TotalFrames(front)));
      LastVolumeShifts(volume, last.events, TotalFrames(front));
    } else {
      NoVolume(volume);
    }
  }

  lemma NoVolume(volume: real)
    ensures LastVolume(volume, []) == volume
  {
  }

  /** One more block keeps the joined run and the cut run alike. */
  lemma OneMorePiece(tone: Tone, s: Synth, events: seq<Event>, frames: nat, parts: Played, last: Piece)
    requires WellFormed(s.engine) && WellFormed(parts.synth.engine)
    requires Within(events, 0, frames) && LastVolume(s.volume, events) == s.volume
    requires Within(last.events, 0, last.frames)
    requires var whole := Block(tone, s, events, frames); whole.out == parts.out && SameSound(whole.synth, parts.synth)
    ensures var whole := Block(tone, s, events + Shifted(last.events, frames), frames + last.frames);
      var played := Block(tone, parts.synth, last.events, last.frames);
      whole.out == parts.out + played.out && SameSound(whole.synth, Finished(played.synth))
  {
    BlockSplits(tone, s, events, last.events, frames, last.frames);
    var first := Block(tone, s, events, frames).synth;
    SamePerform(tone, Finished(first), parts.synth, parts.synth.volume, last.events, 0, last.frames);
    var whole := Block(tone, s, events + Shifted(last.events, frames), frames + last.frames).synth;
    var second, played := Block(tone, Finished(first), last.events, last.frames).synth,
                          Block(tone, parts.synth, last.events, last.frames).synth;
  }

  lemma EmptyBlock(tone: Tone, s: Synth)
    requires WellFormed(s.engine)
    ensures Block(tone, s, [], 0) == Played(s, [])
  {
    SoundedNothing(s);
  }

  /** However the host cuts the time line into blocks, the sound is that of one block. */
  lemma {:induction false} AnySplitSoundsTheSame(tone: Tone, s: Synth, pieces: seq<Piece>)
    requires WellFormed(s.engine) && Tidy(s.volume, pieces)
    ensures var whole, parts := Block(tone, s, Joined(pieces), TotalFrames(pieces)), Blocks(tone, s, pieces);
      whole.out == parts.out && SameSound(whole.synth, parts.synth)
  {
    hide LastVolume, Block;
    if pieces == [] {
      EmptyBlock(tone, s);
    } else {
      var front, last := pieces[..|pieces| - 1], pieces[|pieces| - 1];
      AnySplitSoundsTheSame(tone, s, front);
      JoinedWithin(front);
      JoinedVolume(s.volume, front);
      OneMorePiece(tone, s, Joined(front), TotalFrames(front), Blocks(tone, s, front), last);
    }
  }
}

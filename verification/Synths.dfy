/**
 The synthesizer of src/plugins/synth/synth.cpp: `ProcessTyped` fills the host's
 buffers chunk by chunk with a moving cursor.
*/
module Synths {
  import opened Voices
  import opened BlockRenderer
  import opened SineEngines

  datatype Status = ProcessContinue | ProcessSleep

  class SynthPlugin {
    const engine: SineEngine
    var volume: real

    ghost predicate Valid()
      reads this, engine, engine.voices
    {
      engine.Valid()
    }

    ghost function State(): Synth
      reads this, engine, engine.voices
    {
      Synth(engine.State(), volume)
    }

    constructor (tone: Tone)
      ensures Valid() && fresh(engine) && fresh(engine.voices) && engine.tone == tone
      ensures State() == Synth(Voices.Reset(Engine([], 48000.0, 0, 0.0)), 0.7)
    {
      engine := new SineEngine(tone);
      volume := 0.7;
    }

    method Activate(sampleRate: real)
      requires Valid() && sampleRate > 0.0
      modifies engine, engine.voices
      ensures Valid() && volume == old(volume)
      ensures engine.State() == Voices.Reset(old(engine.State()).(sampleRate := sampleRate))
    {
      engine.SetSampleRate(sampleRate);
      engine.Reset();
    }

    method HandleEvent(event: Event)
      requires Valid()
      modifies this`volume, engine, engine.voices
      ensures Valid() && State() == Dispatch(engine.tone, old(State()), event)
    {
      if event.coreSpace && event.body.ParamValueEvent? {
        if event.body.paramId == PARAM_VOLUME {
          volume := event.body.value;
        }
        return;
      }
      if event.coreSpace && event.body.ParamModEvent? {
        if event.body.paramId == PARAM_VOLUME {
          engine.Modulate(event.body.key, event.body.channel, event.body.noteId, event.body.amount);
        }
        return;
      }
      engine.HandleEvent(event);
    }

    /**
     One block. The buffers are filled with the block of `BlockRenderer`, and
     every finished voice gets its NOTE_END on the block's last frame.
    */
    method ProcessTyped(events: seq<Event>, left: array<real>, right: array?<real>, frames: nat)
      returns (ends: seq<NoteEnd>, status: Status)
      requires Valid()
      requires frames <= left.Length && (right != null ==> right != left && frames <= right.Length)
      modifies this`volume, engine, engine.voices, left, right
      ensures Valid()
      ensures var played := Block(engine.tone, old(State()), events, frames);
        State() == Finished(played.synth) &&
        left[..] == played.out + old(left[frames..]) &&
        (right != null ==> right[..] == played.out + old(right[frames..])) &&
        ends == NoteEnds(played.synth.engine.voices, MAX_VOICES, if frames > 0 then frames - 1 else 0)
      ensures status.ProcessSleep? <==> !AnyActive(engine.voices[..])
    {
      Clear(left, frames);
      if right != null {
        Clear(right, frames);
      }
      RenderBlock(events, left, right, frames, volume);
      assert left[..] == left[..frames] + left[frames..];
      assert right != null ==> right[..] == right[..frames] + right[frames..];
      ends := engine.EmitNoteEnds(if frames > 0 then frames - 1 else 0);
      var any := engine.AnyVoiceActive();
      status := if any then ProcessContinue else ProcessSleep;
    }

    /** The event loop: render in chunks between events so notes start sample-accurately. */
    method RenderBlock(events: seq<Event>, left: array<real>, right: array?<real>, frames: nat, gain: real)
      requires Valid() && Blank(left, 0, frames)
      requires right != null ==> right != left && Blank(right, 0, frames)
      modifies this`volume, engine, engine.voices, left, right
      ensures Valid()
      ensures var played := Perform(engine.tone, old(State()), gain, events, 0, frames);
        State() == played.synth && left[..frames] == played.out &&
        (right != null ==> right[..frames] == played.out)
      ensures left[frames..] == old(left[frames..]) && (right != null ==> right[frames..] == old(right[frames..]))
    {
      hide Perform, Chunk, Sounded, Dispatch;
      ghost var played := Perform(engine.tone, State(), gain, events, 0, frames);
      var cursor := 0;
      assert events[0..] == events;
      for i := 0 to |events|
        invariant Valid() && cursor <= frames
        invariant Continues(played, left[..cursor], Perform(engine.tone, State(), gain, events[i..], cursor, frames))
        invariant Blank(left, cursor, frames) && left[frames..] == old(left[frames..])
        invariant right != null ==> Blank(right, cursor, frames) && right[frames..] == old(right[frames..])
        invariant right != null ==> right[..cursor] == left[..cursor]
      {
        ghost var s, done, c := State(), left[..cursor], cursor;
        cursor := Approach(events[i], left, right, cursor, frames, gain);
        HandleEvent(events[i]);
        OneTurn(engine.tone, played, s, gain, events, i, c, frames, done);
      }
      NothingLeft(engine.tone, State(), gain, events[|events|..], cursor, frames);
      Finish(left, right, cursor, frames, gain);
    }

    /** Renders up to an event that is ahead of the cursor and inside the block. */
    method Approach(event: Event, left: array<real>, right: array?<real>, cursor: nat, frames: nat, gain: real)
      returns (next: nat)
      requires Valid() && cursor <= frames <= left.Length
      requires right != null ==> right != left && frames <= right.Length
      requires Blank(left, cursor, frames) && (right != null ==> Blank(right, cursor, frames))
      modifies engine, engine.voices, left, right
      ensures Valid() && cursor <= next <= frames && next == Reached(event, cursor, frames)
      ensures State() == Sounded(old(State()), next - cursor)
      ensures Filled(left[..], old(left[..]), cursor, Chunk(engine.tone, old(State()), gain, next - cursor), frames)
      ensures Blank(left, next, frames)
      ensures right != null ==> Blank(right, next, frames)
      ensures right != null ==>
        Filled(right[..], old(right[..]), cursor, Chunk(engine.tone, old(State()), gain, next - cursor), frames)
    {
      next := cursor;
      if event.time > cursor && event.time <= frames {
        RenderTo(left, right, cursor, event.time, frames, gain);
        next := event.time;
      } else {
        SoundedNothing(State());
      }
    }

    /** The frames after the last event. */
    method Finish(left: array<real>, right: array?<real>, cursor: nat, frames: nat, gain: real)
      requires Valid() && cursor <= frames <= left.Length
      requires right != null ==> right != left && frames <= right.Length
      requires Blank(left, cursor, frames) && (right != null ==> Blank(right, cursor, frames))
      modifies engine, engine.voices, left, right
      ensures Valid() && State() == Sounded(old(State()), frames - cursor)
      ensures Filled(left[..], old(left[..]), cursor, Chunk(engine.tone, old(State()), gain, frames - cursor), frames)
      ensures right != null ==>
        Filled(right[..], old(right[..]), cursor, Chunk(engine.tone, old(State()), gain, frames - cursor), frames)
    {
      if cursor < frames {
        RenderTo(left, right, cursor, frames, frames, gain);
      } else {
        SoundedNothing(State());
      }
    }

    /** A render call onto the part of the buffers that is still blank. */
    method RenderTo(left: array<real>, right: array?<real>, cursor: nat, stop: nat, frames: nat, gain: real)
      requires Valid() && cursor <= stop <= frames <= left.Length
      requires right != null ==> right != left && frames <= right.Length
      requires Blank(left, cursor, frames) && (right != null ==> Blank(right, cursor, frames))
      modifies engine, engine.voices, left, right
      ensures Valid() && State() == Sounded(old(State()), stop - cursor)
      ensures Filled(left[..], old(left[..]), cursor, Chunk(engine.tone, old(State()), gain, stop - cursor), frames)
      ensures Blank(left, stop, frames)
      ensures right != null ==> Blank(right, stop, frames)
      ensures right != null ==>
        Filled(right[..], old(right[..]), cursor, Chunk(engine.tone, old(State()), gain, stop - cursor), frames)
    {
      ghost var chunk := Chunk(engine.tone, State(), gain, stop - cursor);
      ghost var before, before' := left[..], if right != null then right[..] else [];
      engine.Render(left, right, cursor, stop - cursor, gain);
      AddedToBlank(left[..], before, cursor, chunk, frames);
      if right != null {
        AddedToBlank(right[..], before', cursor, chunk, frames);
      }
    }
  }

  method Clear(buffer: array<real>, frames: nat)
    requires frames <= buffer.Length
    modifies buffer
    ensures Blank(buffer, 0, frames)
    ensures buffer[frames..] == old(buffer[frames..])
  {
    for i := 0 to frames
      invariant forall j | 0 <= j < i :: buffer[j] == 0.0
      invariant forall j | i <= j < buffer.Length :: buffer[j] == old(buffer[j])
    {
      buffer[i] := 0.0;
    }
  }

  ghost predicate Blank(buffer: array<real>, from: nat, to: nat)
    reads buffer
  {
    to <= buffer.Length && forall j | from <= j < to :: buffer[j] == 0.0
  }

  /** `now` is `before` with `chunk` put at `cursor`; nothing changed beyond the block. */
  ghost predicate Filled(now: seq<real>, before: seq<real>, cursor: nat, chunk: seq<real>, frames: nat) {
    |now| == |before| && cursor + |chunk| <= frames <= |now| &&
    now[..cursor + |chunk|] == before[..cursor] + chunk && now[frames..] == before[frames..]
  }

  lemma AddedToBlank(now: seq<real>, before: seq<real>, cursor: nat, chunk: seq<real>, frames: nat)
    requires Added(now, before, cursor, chunk) && cursor + |chunk| <= frames <= |before|
    requires forall j | cursor <= j < frames :: before[j] == 0.0
    ensures Filled(now, before, cursor, chunk, frames)
    ensures forall j | cursor + |chunk| <= j < frames :: now[j] == 0.0
  {
    var stop := cursor + |chunk|;
    assert forall j | 0 <= j < stop :: now[..stop][j] == (before[..cursor] + chunk)[j];
  }

  /** `played` is what was `done` so far, followed by `rest`. */
  ghost predicate Continues(played: Played, done: seq<real>, rest: Played) {
    played == Played(rest.synth, done + rest.out)
  }

  lemma OneTurn(
    tone: Tone, played: Played, s: Synth, gain: real, events: seq<Event>, i: nat, cursor: nat, frames: nat,
    done: seq<real>)
    requires WellFormed(s.engine) && i < |events| && cursor <= frames
    requires Continues(played, done, Perform(tone, s, gain, events[i..], cursor, frames))
    ensures var next := Reached(events[i], cursor, frames);
      var n := next - cursor;
      Continues(played, done + Chunk(tone, s, gain, n),
        Perform(tone, Dispatch(tone, Sounded(s, n), events[i]), gain, events[i + 1..], next, frames))
  {
    var next := Reached(events[i], cursor, frames);
    var n := next - cursor;
    assert events[i..][0] == events[i] && events[i..][1..] == events[i + 1..];
    PerformOne(tone, s, gain, events[i..], cursor, frames);
    var rest := Perform(tone, Dispatch(tone, Sounded(s, n), events[i]), gain, events[i + 1..], next, frames);
    Reassociate(done, Chunk(tone, s, gain, n), rest.out);
  }
}

/**
 Any number of process() calls in a row: their engine operations, the NOTE_ENDs
 they return, and when they may sleep.
*/
module ProcessRuns {
  import opened Voices
  import opened BlockRenderer
  import opened BlockFacts
  import EngineBounds
  import Ledgers = NoteLedger

  function LastFrame(frames: nat): nat { if frames > 0 then frames - 1 else 0 }

  /** The operations of one process() call: the block, then the NOTE_ENDs on its last frame. */
  function CallOps(piece: Piece): (r: seq<Op>)
    ensures AllLegal(r)
  {
    BlockOps(piece.events, 0, piece.frames) + [SendEnds(LastFrame(piece.frames))]
  }

  function CallsOps(pieces: seq<Piece>): (r: seq<Op>)
    ensures AllLegal(r)
  {
    if pieces == [] then [] else CallsOps(pieces[..|pieces| - 1]) + CallOps(pieces[|pieces| - 1])
  }

  /** The NOTE_ENDs the calls return, in order. */
  function EndsOf(tone: Tone, s: Synth, pieces: seq<Piece>): seq<NoteEnd>
    requires WellFormed(s.engine)
  {
    if pieces == [] then [] else
    var front, last := pieces[..|pieces| - 1], pieces[|pieces| - 1];
    var played := Block(tone, Blocks(tone, s, front).synth, last.events, last.frames);
    EndsOf(tone, s, front) + NoteEnds(played.synth.engine.voices, MAX_VOICES, LastFrame(last.frames))
  }

  /** The engine after the calls is the engine after their operations. */
  lemma {:induction false} CallsAreRun(tone: Tone, s: Synth, pieces: seq<Piece>)
    requires WellFormed(s.engine)
    ensures Blocks(tone, s, pieces).synth.engine == Run(tone, s.engine, CallsOps(pieces))
  {
    hide Perform, BlockOps;
    if pieces != [] {
      var front, last := pieces[..|pieces| - 1], pieces[|pieces| - 1];
      var before := Blocks(tone, s, front).synth;
      var block, send := BlockOps(last.events, 0, last.frames), SendEnds(LastFrame(last.frames));
      CallsAreRun(tone, s, front);
      BlockIsRun(tone, before, before.volume, last.events, 0, last.frames);
      RunAppends(tone, s.engine, CallsOps(front), block + [send]);
      RunAppends(tone, before.engine, block, [send]);
    }
  }

  // ---- the ledger of the calls ----

  lemma {:induction false} TrackAppends(tone: Tone, l: Ledgers.Ledger, a: seq<Op>, b: seq<Op>)
    requires Ledgers.Sized(l) && AllLegal(a) && AllLegal(b)
    ensures Ledgers.TrackAll(tone, l, a + b) == Ledgers.TrackAll(tone, Ledgers.TrackAll(tone, l, a), b)
  {
    hide Ledgers.Track;
    if b == [] {
      assert a + b == a;
    } else {
      assert (a + b)[..|a + b| - 1] == a + b[..|b| - 1];
      TrackAppends(tone, l, a, b[..|b| - 1]);
    }
  }

  /** Operations of a block: they send no ends and drop no note. */
  predicate Plain(op: Op) { !op.SendEnds? && !op.Restart? && !op.Activate? }

  lemma {:induction false} BlockOpsPlain(events: seq<Event>, cursor: nat, frames: nat)
    requires cursor <= frames
    ensures forall i | 0 <= i < |BlockOps(events, cursor, frames)| :: Plain(BlockOps(events, cursor, frames)[i])
    decreases |events|
  {
    if events != [] {
      BlockOpsPlain(events[1..], if cursor < events[0].time <= frames then events[0].time else cursor, frames);
    }
  }

  lemma {:induction false} PlainTracks(tone: Tone, l: Ledgers.Ledger, ops: seq<Op>)
    requires Ledgers.Sized(l) && AllLegal(ops) && forall i | 0 <= i < |ops| :: Plain(ops[i])
    ensures var r := Ledgers.TrackAll(tone, l, ops); r.ends == l.ends && r.dropped == l.dropped
  {
    if ops != [] {
      PlainTracks(tone, l, ops[..|ops| - 1]);
    }
  }

  /** One more call: the ledger takes in exactly the NOTE_ENDs the call returns. */
  lemma CallTracks(tone: Tone, l: Ledgers.Ledger, s: Synth, piece: Piece)
    requires Ledgers.Sized(l) && l.engine == s.engine
    ensures var r := Ledgers.TrackAll(tone, l, CallOps(piece));
      var voices := Block(tone, s, piece.events, piece.frames).synth.engine.voices;
      r.ends == l.ends + NoteEnds(voices, MAX_VOICES, LastFrame(piece.frames)) && r.dropped == l.dropped &&
      r.engine.voices == MapVoices(Cleared, voices)
  {
    hide Perform, BlockOps, Run;
    var block, send := BlockOps(piece.events, 0, piece.frames), SendEnds(LastFrame(piece.frames));
    BlockOpsPlain(piece.events, 0, piece.frames);
    PlainTracks(tone, l, block);
    BlockIsRun(tone, s, s.volume, piece.events, 0, piece.frames);
    TrackAppends(tone, l, block, [send]);
  }

  lemma {:induction false} CallsTrack(tone: Tone, s: Synth, pieces: seq<Piece>)
    requires WellFormed(s.engine)
    ensures var l := Ledgers.TrackAll(tone, Ledgers.Fresh(s.engine), CallsOps(pieces));
      l.ends == EndsOf(tone, s, pieces) && l.dropped == multiset{} &&
      (pieces != [] ==> forall i | 0 <= i < MAX_VOICES :: !l.engine.voices[i].justEnded)
  {
    hide Block, CallOps, Ledgers.Track;
    if pieces != [] {
      var front, last := pieces[..|pieces| - 1], pieces[|pieces| - 1];
      CallsTrack(tone, s, front);
      CallsAreRun(tone, s, front);
      TrackAppends(tone, Ledgers.Fresh(s.engine), CallsOps(front), CallOps(last));
      var before := Ledgers.TrackAll(tone, Ledgers.Fresh(s.engine), CallsOps(front));
      CallTracks(tone, before, Blocks(tone, s, front).synth, last);
    }
  }

  /** From an engine that holds no note. */
  predicate Empty(e: Engine) { forall i | 0 <= i < |e.voices| :: !Ledgers.Occupied(e.voices[i]) }

  /**
   Over any process() calls: the note-ons are the NOTE_ENDs returned, the notes
   still sounding, the stolen ones and those whose slot was reused within the
   block they ended in. Nothing stays pending between calls.
  */
  lemma CallsAddUp(tone: Tone, s: Synth, pieces: seq<Piece>)
    requires WellFormed(s.engine) && Empty(s.engine) && pieces != []
    ensures var l := Ledgers.TrackAll(tone, Ledgers.Fresh(s.engine), CallsOps(pieces));
      l.engine == Blocks(tone, s, pieces).synth.engine &&
      NoteOns(CallsOps(pieces)) ==
        |EndsOf(tone, s, pieces)| + |Ledgers.Held(Ledgers.Active, l.engine.voices, l.owner, MAX_VOICES)|
        + |l.stolen| + |l.overwritten|
  {
    hide Block, Ledgers.TrackAll, CallsOps, EndsOf;
    CallsAreRun(tone, s, pieces);
    CallsTrack(tone, s, pieces);
    Ledgers.NoteOnsAddUp(tone, s.engine, CallsOps(pieces));
    var l := Ledgers.TrackAll(tone, Ledgers.Fresh(s.engine), CallsOps(pieces));
    Ledgers.HeldNone(Ledgers.Pending, l.engine.voices, l.owner, MAX_VOICES);
  }

  /** Over any process() calls no note-on gets two NOTE_ENDs, and each one carries its note's address. */
  lemma OneEndPerNote(tone: Tone, s: Synth, pieces: seq<Piece>)
    requires WellFormed(s.engine) && Empty(s.engine)
    ensures var l, ends := Ledgers.TrackAll(tone, Ledgers.Fresh(s.engine), CallsOps(pieces)), EndsOf(tone, s, pieces);
      |ends| == |l.sent| &&
      (forall k | 0 <= k < |ends| :: l.sent[k] < |l.notes| == NoteOns(CallsOps(pieces)) &&
        l.notes[l.sent[k]] == Ledgers.Address(ends[k].key, ends[k].channel, ends[k].noteId)) &&
      forall j, k | 0 <= j < k < |ends| :: l.sent[j] != l.sent[k]
  {
    hide Block, Ledgers.TrackAll, CallsOps, EndsOf;
    CallsTrack(tone, s, pieces);
    Ledgers.OneEndPerNote(tone, s.engine, CallsOps(pieces));
    Ledgers.RunBalances(tone, s.engine, CallsOps(pieces));
  }

  // ---- when the host may stop calling ----

  lemma {:induction false} FramesAppend(a: seq<Op>, b: seq<Op>)
    ensures EngineBounds.Frames(a + b) == EngineBounds.Frames(a) + EngineBounds.Frames(b)
  {
    if b == [] {
      assert a + b == a;
    } else {
      assert (a + b)[..|a + b| - 1] == a + b[..|b| - 1];
      FramesAppend(a, b[..|b| - 1]);
    }
  }

  lemma NoFrames(event: Event)
    ensures EngineBounds.Frames(EventOps(event)) == 0
  {
    assert EventOps(event) != [] ==> EventOps(event)[..0] == [];
  }

  lemma OneOpFrames(op: Op)
    ensures EngineBounds.Frames([op]) == if op.Play? then op.frames else 0
  {
    assert [op][..0] == [];
  }

  lemma {:induction false} BlockFrames(events: seq<Event>, cursor: nat, frames: nat)
    requires cursor <= frames
    ensures EngineBounds.Frames(BlockOps(events, cursor, frames)) == frames - cursor
    decreases |events|
  {
    hide EventOps, EngineBounds.Frames;
    if events == [] {
      OneOpFrames(Voices.Play(frames - cursor));
    } else {
      var ops := EventOps(events[0]);
      NoFrames(events[0]);
      if cursor < events[0].time <= frames {
        var play, rest := Voices.Play(events[0].time - cursor), BlockOps(events[1..], events[0].time, frames);
        BlockFrames(events[1..], events[0].time, frames);
        OneOpFrames(play);
        FramesAppend([play], ops);
        FramesAppend([play] + ops, rest);
      } else {
        BlockFrames(events[1..], cursor, frames);
        FramesAppend(ops, BlockOps(events[1..], cursor, frames));
      }
    }
  }

  lemma {:induction false} CallsFrames(pieces: seq<Piece>)
    ensures EngineBounds.Frames(CallsOps(pieces)) == TotalFrames(pieces)
  {
    if pieces != [] {
      var front, last := pieces[..|pieces| - 1], pieces[|pieces| - 1];
      var block, send := BlockOps(last.events, 0, last.frames), SendEnds(LastFrame(last.frames));
      CallsFrames(front);
      BlockFrames(last.events, 0, last.frames);
      OneOpFrames(send);
      FramesAppend(block, [send]);
      FramesAppend(CallsOps(front), CallOps(last));
    }
  }

  /** The event starts a note: a note-on, or a MIDI note-on with a velocity. */
  predicate StartsNote(event: Event) {
    event.coreSpace &&
    (event.body.NoteOnEvent? ||
     (event.body.MidiEvent? && event.body.status - event.body.status % 16 == 0x90 && event.body.data2 > 0))
  }

  predicate StartsNothing(events: seq<Event>) { forall j | 0 <= j < |events| :: !StartsNote(events[j]) }

  predicate NothingStarts(pieces: seq<Piece>) {
    forall i | 0 <= i < |pieces| :: StartsNothing(pieces[i].events)
  }

  lemma {:induction false} BlockStartsNothing(events: seq<Event>, cursor: nat, frames: nat)
    requires cursor <= frames && StartsNothing(events)
    ensures EngineBounds.NoNoteOns(BlockOps(events, cursor, frames))
    decreases |events|
  {
    if events != [] {
      BlockStartsNothing(events[1..], if cursor < events[0].time <= frames then events[0].time else cursor, frames);
    }
  }

  lemma {:induction false} CallsStartNothing(pieces: seq<Piece>)
    requires NothingStarts(pieces)
    ensures EngineBounds.NoNoteOns(CallsOps(pieces))
  {
    if pieces != [] {
      var last := pieces[|pieces| - 1];
      CallsStartNothing(pieces[..|pieces| - 1]);
      BlockStartsNothing(last.events, 0, last.frames);
    }
  }

  /**
   Once all notes are released, process() returns SLEEP after one release time of
   calls that start no note, whatever else their events do.
  */
  lemma SleepsAfterRelease(tone: Tone, s: Synth, pieces: seq<Piece>)
    requires EngineBounds.Healthy(s.engine) && NothingStarts(pieces)
    requires TotalFrames(pieces) >= EngineBounds.ReleaseFrames(s.engine.sampleRate)
    ensures var released := s.(engine := NoteOff(s.engine, -1, -1, -1, false));
      !AnyActive(Blocks(tone, released, pieces).synth.engine.voices)
  {
    hide Blocks, CallsOps, EngineBounds.Frames;
    var released := s.(engine := NoteOff(s.engine, -1, -1, -1, false));
    CallsAreRun(tone, released, pieces);
    CallsFrames(pieces);
    CallsStartNothing(pieces);
    EngineBounds.FallsSilent(tone, s.engine, CallsOps(pieces));
  }
}

/**
 What note-off, choke, modulation and MIDI bytes do to each slot, field by field.
*/
module NoteEvents {
  import opened Voices

  /**
   A note-off or choke changes slot i if and only if it sounds and its key, channel
   and id each equal what is given or what is given is negative: it then is released,
   or ended with a NOTE_END to come. Every other slot is what it was.
  */
  lemma NoteOffExactly(e: Engine, key: int, channel: int, noteId: int, choke: bool, i: nat)
    requires i < |e.voices|
    ensures var v, w := e.voices[i], NoteOff(e, key, channel, noteId, choke).voices[i];
      var meant := v.active && (key >= 0 ==> v.key == key) && (channel >= 0 ==> v.channel == channel) &&
        (noteId >= 0 ==> v.noteId == noteId);
      w == if !meant then v
           else if choke then v.(active := false, justEnded := true)
           else v.(releasing := true)
  {
    hide MapVoices;
  }

  /**
   Modulation without any address is the engine's; with one it is that of exactly
   the sounding voices that match it.
  */
  lemma ModulateExactly(e: Engine, key: int, channel: int, noteId: int, amount: real, i: nat)
    requires i < |e.voices|
    ensures var v, r := e.voices[i], Modulate(e, key, channel, noteId, amount);
      var global := key < 0 && channel < 0 && noteId < 0;
      var meant := v.active && (key >= 0 ==> v.key == key) && (channel >= 0 ==> v.channel == channel) &&
        (noteId >= 0 ==> v.noteId == noteId);
      r.globalMod == (if global then amount else e.globalMod) &&
      r.voices[i] == if meant && !global then v.(modGain := amount) else v
  {
    hide MapVoices;
  }

  /** Nothing else of the engine changes. */
  lemma OnlyVoices(e: Engine, key: int, channel: int, noteId: int, choke: bool, amount: real)
    ensures var off, mod := NoteOff(e, key, channel, noteId, choke), Modulate(e, key, channel, noteId, amount);
      |off.voices| == |e.voices| == |mod.voices| && off == e.(voices := off.voices) &&
      mod == e.(voices := mod.voices, globalMod := mod.globalMod)
  {
  }

  /**
   MIDI bytes are notes without an id: 9n with a data byte above 0 starts one on
   channel n at that velocity out of 127, 9n with 0 and 8n with anything release
   it. Other status bytes, and events of another space, do nothing.
  */
  lemma MidiIsNotes(tone: Tone, e: Engine, time: nat, channel: nat, data1: Byte, data2: Byte)
    requires WellFormed(e) && channel < 16
    ensures var on, off := MidiEvent(144 + channel, data1, data2), MidiEvent(128 + channel, data1, data2);
      Handle(tone, e, Event(time, true, on)) ==
        Handle(tone, e, Event(time, true,
          if data2 > 0 then NoteOnEvent(data1, channel, -1, data2 as real / 127.0)
          else NoteOffEvent(data1, channel, -1))) &&
      Handle(tone, e, Event(time, true, off)) ==
        Handle(tone, e, Event(time, true, NoteOffEvent(data1, channel, -1)))
  {
  }

  lemma OtherBytes(tone: Tone, e: Engine, time: nat, status: Byte, data1: Byte, data2: Byte, body: Body)
    requires WellFormed(e) && (status < 128 || status >= 160)
    ensures Handle(tone, e, Event(time, true, MidiEvent(status, data1, data2))) == e
    ensures Handle(tone, e, Event(time, false, body)) == e
  {
  }

  /** Note events in the core space are the engine's operations. */
  lemma NoteEventsAre(tone: Tone, e: Engine, time: nat, key: int, channel: int, noteId: int, velocity: real)
    requires WellFormed(e)
    ensures Handle(tone, e, Event(time, true, NoteOnEvent(key, channel, noteId, velocity))) ==
      NoteOn(tone, e, key, channel, noteId, velocity)
    ensures Handle(tone, e, Event(time, true, NoteOffEvent(key, channel, noteId))) ==
      NoteOff(e, key, channel, noteId, false)
    ensures Handle(tone, e, Event(time, true, NoteChokeEvent(key, channel, noteId))) ==
      NoteOff(e, key, channel, noteId, true)
  {
  }

  /** `slots` lists the pending ones among the first m, in order, and `ends` their NOTE_ENDs. */
  ghost predicate Lists(slots: seq<nat>, ends: seq<NoteEnd>, vs: seq<Voice>, m: nat, time: nat)
    requires m <= |vs|
  {
    |slots| == |ends| && (forall i: nat :: i in slots <==> i < m && vs[i].justEnded) &&
    (forall j, k | 0 <= j < k < |slots| :: slots[j] < slots[k]) &&
    forall k | 0 <= k < |slots| :: slots[k] < m && EndsNote(ends[k], vs[slots[k]], time)
  }

  /** A NOTE_END at a time, with the address of a voice. */
  predicate EndsNote(end: NoteEnd, v: Voice, time: nat) {
    end.time == time && end.key == v.key && end.channel == v.channel && end.noteId == v.noteId
  }

  lemma ListsNext(slots: seq<nat>, ends: seq<NoteEnd>, vs: seq<Voice>, m: nat, time: nat, end: NoteEnd)
    requires m < |vs| && Lists(slots, ends, vs, m, time)
    ensures !vs[m].justEnded ==> Lists(slots, ends, vs, m + 1, time)
    ensures vs[m].justEnded && EndsNote(end, vs[m], time) ==> Lists(slots + [m], ends + [end], vs, m + 1, time)
  {
    hide EndsNote;
    forall k | 0 <= k < |slots| ensures slots[k] < m {
      assert slots[k] in slots;
    }
  }

  /**
   The NOTE_ENDs that are sent belong to exactly the pending slots, in slot order,
   and each has the given time and its slot's address.
  */
  lemma {:induction false} NoteEndsExactly(vs: seq<Voice>, m: nat, time: nat) returns (slots: seq<nat>)
    requires m <= |vs|
    ensures Lists(slots, NoteEnds(vs, m, time), vs, m, time)
  {
    hide *;
    if m == 0 {
      slots := [];
      NothingListed(vs, time);
    } else {
      var before := NoteEndsExactly(vs, m - 1, time);
      var v, ends := vs[m - 1], NoteEnds(vs, m - 1, time);
      var end := NoteEnd(time, v.key, v.channel, v.noteId);
      EndIs(v, time);
      ListsNext(before, ends, vs, m - 1, time, end);
      EndsNext(vs, m, time);
      slots := if v.justEnded then before + [m - 1] else before;
    }
  }

  lemma NothingListed(vs: seq<Voice>, time: nat)
    ensures Lists([], NoteEnds(vs, 0, time), vs, 0, time)
  {
  }

  lemma EndIs(v: Voice, time: nat)
    ensures EndsNote(NoteEnd(time, v.key, v.channel, v.noteId), v, time)
  {
  }

  lemma EndsNext(vs: seq<Voice>, m: nat, time: nat)
    requires 0 < m <= |vs|
    ensures var v, ends := vs[m - 1], NoteEnds(vs, m - 1, time);
      NoteEnds(vs, m, time) == if v.justEnded then ends + [NoteEnd(time, v.key, v.channel, v.noteId)] else ends
  {
  }
}

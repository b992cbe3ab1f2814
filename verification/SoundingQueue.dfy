/**
 The eight-slot array is a queue. Sorting the active slots by age gives the
 sounding notes in the order they started, and every engine operation does to
 that queue what a plain queue of at most eight notes would do.
*/
module SoundingQueue {
  import opened Voices

  function Insert(q: seq<Voice>, v: Voice): seq<Voice> {
    if q == [] || q[|q| - 1].age <= v.age then q + [v]
    else Insert(q[..|q| - 1], v) + [q[|q| - 1]]
  }

  /** The active voices, by age. */
  function Queue(vs: seq<Voice>): seq<Voice> {
    if vs == [] then [] else
    var q, v := Queue(vs[..|vs| - 1]), vs[|vs| - 1];
    if v.active then Insert(q, v) else q
  }

  predicate ByAge(q: seq<Voice>) {
    forall i, j | 0 <= i < j < |q| :: q[i].age <= q[j].age
  }

  predicate StrictlyByAge(q: seq<Voice>) {
    forall i, j | 0 <= i < j < |q| :: q[i].age < q[j].age
  }

  /** Ages tell active voices apart, and the clock is ahead of all of them. */
  predicate Ordered(e: Engine) {
    (forall i | 0 <= i < |e.voices| && e.voices[i].active :: e.voices[i].age < e.clock) &&
    (forall i, j | 0 <= i < j < |e.voices| && e.voices[i].active && e.voices[j].active ::
      e.voices[i].age != e.voices[j].age)
  }

  // ---- what the queue contains ----

  lemma {:induction false} InsertMembers(q: seq<Voice>, v: Voice)
    ensures |Insert(q, v)| == |q| + 1
    ensures forall w :: w in Insert(q, v) <==> w == v || w in q
  {
    if q == [] || q[|q| - 1].age <= v.age {
    } else {
      var front, last := q[..|q| - 1], q[|q| - 1];
      assert q == front + [last];
      InsertMembers(front, v);
    }
  }

  lemma {:induction false} InsertKeepsAges(q: seq<Voice>, v: Voice)
    requires ByAge(q)
    ensures ByAge(Insert(q, v))
    ensures StrictlyByAge(q) && (forall w | w in q :: w.age != v.age) ==> StrictlyByAge(Insert(q, v))
  {
    if q == [] || q[|q| - 1].age <= v.age {
      assert q != [] ==> q[|q| - 1] in q;
    } else {
      var front, last := q[..|q| - 1], q[|q| - 1];
      assert q == front + [last];
      FrontAges(front, last);
      InsertKeepsAges(front, v);
      InsertMembers(front, v);
      hide Insert, ByAge, StrictlyByAge;
      assert forall w | w in front :: w in q;
      LastAges(Insert(front, v), last);
    }
  }

  /** What the order of a queue says about its front and its last voice. */
  lemma FrontAges(front: seq<Voice>, last: Voice)
    requires ByAge(front + [last])
    ensures ByAge(front) && forall w | w in front :: w.age <= last.age
    ensures StrictlyByAge(front + [last]) ==> StrictlyByAge(front) && forall w | w in front :: w.age < last.age
  {
    var q := front + [last];
    assert forall i | 0 <= i < |front| :: q[i] == front[i] && q[|front|] == last;
  }

  /** A voice no younger than all others goes to the end. */
  lemma LastAges(r: seq<Voice>, last: Voice)
    requires ByAge(r) && forall w | w in r :: w.age <= last.age
    ensures ByAge(r + [last])
    ensures StrictlyByAge(r) && (forall w | w in r :: w.age < last.age) ==> StrictlyByAge(r + [last])
  {
    assert forall i | 0 <= i < |r| :: r[i] in r;
  }

  lemma {:induction false} QueueMembers(vs: seq<Voice>)
    ensures ByAge(Queue(vs))
    ensures forall v :: v in Queue(vs) <==> v in vs && v.active
  {
    if vs == [] {
    } else {
      var front, last := vs[..|vs| - 1], vs[|vs| - 1];
      assert vs == front + [last];
      QueueMembers(front);
      InsertMembers(Queue(front), last);
      InsertKeepsAges(Queue(front), last);
    }
  }

  lemma {:induction false} QueueLength(vs: seq<Voice>)
    ensures |Queue(vs)| <= |vs|
    ensures |Queue(vs)| == |vs| <==> forall i | 0 <= i < |vs| :: vs[i].active
  {
    if vs == [] {
    } else {
      var front, last := vs[..|vs| - 1], vs[|vs| - 1];
      QueueLength(front);
      assert forall i | 0 <= i < |front| :: front[i] == vs[i];
      InsertMembers(Queue(front), last);
    }
  }

  lemma {:induction false} QueueStrict(vs: seq<Voice>)
    requires forall i, j | 0 <= i < j < |vs| && vs[i].active && vs[j].active :: vs[i].age != vs[j].age
    ensures StrictlyByAge(Queue(vs))
  {
    if vs == [] {
    } else {
      var front, last := vs[..|vs| - 1], vs[|vs| - 1];
      QueueStrict(front);
      QueueMembers(front);
      InsertKeepsAges(Queue(front), last);
    }
  }

  /** Strict age order leaves only one arrangement of a set of voices. */
  lemma {:induction false} SameQueue(q: seq<Voice>, r: seq<Voice>)
    requires StrictlyByAge(q) && StrictlyByAge(r)
    requires forall v :: v in q <==> v in r
    ensures q == r
  {
    assert |q| > 0 ==> q[0] in r;
    assert |r| > 0 ==> r[0] in q;
    if q == [] {
    } else {
      var a, b := q[|q| - 1], r[|r| - 1];
      assert a in r && b in q;
      assert a == b;
      var q0, r0 := q[..|q| - 1], r[..|r| - 1];
      WithoutLast(q0, a);
      WithoutLast(r0, a);
      assert q == q0 + [a] && r == r0 + [a];
      SameQueue(q0, r0);
    }
  }

  lemma WithoutLast(front: seq<Voice>, last: Voice)
    requires StrictlyByAge(front + [last])
    ensures StrictlyByAge(front) && forall v :: v in front <==> v in front + [last] && v != last
  {
    var q := front + [last];
    assert q[|front|] == last && forall i | 0 <= i < |front| :: q[i] == front[i];
  }

  // ---- note-on ----

  lemma Replaced(q: seq<Voice>, voice: Voice)
    requires StrictlyByAge(q) && q != [] && forall v | v in q :: v.age < voice.age
    ensures StrictlyByAge(q[1..] + [voice])
    ensures forall v :: v in q[1..] + [voice] <==> v == voice || (v in q && v != q[0])
  {
    assert q == [q[0]] + q[1..];
  }

  /** The voices of a queue that a note-on leaves in place are older than the new note. */
  lemma AllOlder(e: Engine)
    requires Ordered(e)
    ensures StrictlyByAge(Queue(e.voices)) && forall v | v in Queue(e.voices) :: v.age < e.clock
  {
    QueueMembers(e.voices);
    QueueStrict(e.voices);
  }

  /** With the new voice in its slot ages still tell voices apart. */
  lemma StillStrict(e: Engine, t: nat, voice: Voice)
    requires Ordered(e) && t < |e.voices| && voice.age == e.clock
    ensures StrictlyByAge(Queue(e.voices[t := voice]))
  {
    QueueStrict(e.voices[t := voice]);
  }

  /** With eight notes the new one takes the place of the head. */
  lemma NoteOnFull(e: Engine, voice: Voice)
    requires Ordered(e) && |e.voices| == MAX_VOICES == |Queue(e.voices)| && voice.active && voice.age == e.clock
    ensures Queue(e.voices[Target(e.voices) := voice]) == Queue(e.voices)[1..] + [voice]
  {
    hide Queue, StrictlyByAge, Ordered;
    var vs, t, q := e.voices, Target(e.voices), Queue(e.voices);
    AllOlder(e);
    QueueLength(vs);
    OldestFirst(vs, t);
    Replaced(q, voice);
    Distinct(e);
    QueueMembers(vs);
    QueueMembers(vs[t := voice]);
    StillStrict(e, t, voice);
    forall v ensures v in q[1..] + [voice] <==> v in vs[t := voice] && v.active {
      NewMember(vs, t, voice, v);
    }
    SameQueue(Queue(vs[t := voice]), q[1..] + [voice]);
  }

  /** With a slot free nothing is lost. */
  lemma NoteOnFree(e: Engine, voice: Voice)
    requires Ordered(e) && |Queue(e.voices)| < |e.voices| == MAX_VOICES && voice.active && voice.age == e.clock
    ensures Queue(e.voices[Target(e.voices) := voice]) == Queue(e.voices) + [voice]
  {
    hide Queue, StrictlyByAge, Ordered;
    var vs, t, q := e.voices, Target(e.voices), Queue(e.voices);
    AllOlder(e);
    QueueLength(vs);
    Distinct(e);
    QueueMembers(vs);
    LastAges(q, voice);
    QueueMembers(vs[t := voice]);
    StillStrict(e, t, voice);
    forall v ensures v in q + [voice] <==> v in vs[t := voice] && v.active {
      NewMember(vs, t, voice, v);
    }
    SameQueue(Queue(vs[t := voice]), q + [voice]);
  }

  lemma Distinct(e: Engine)
    requires Ordered(e)
    ensures forall i, j | 0 <= i < j < |e.voices| && e.voices[i].active && e.voices[j].active ::
      e.voices[i].age != e.voices[j].age
  {
  }

  /** A note-on appends to the queue, and drops its head only when eight notes sound. */
  lemma NoteOnAppends(tone: Tone, e: Engine, key: int, channel: int, noteId: int, velocity: real)
    requires WellFormed(e) && Ordered(e)
    ensures var q, voice := Queue(e.voices), NewVoice(tone, e.sampleRate, e.clock, key, channel, noteId, velocity);
      Queue(NoteOn(tone, e, key, channel, noteId, velocity).voices) ==
        (if |q| == 8 then q[1..] else q) + [voice]
  {
    hide Queue, Ordered;
    var voice := NewVoice(tone, e.sampleRate, e.clock, key, channel, noteId, velocity);
    QueueLength(e.voices);
    if |Queue(e.voices)| == MAX_VOICES {
      NoteOnFull(e, voice);
    } else {
      NoteOnFree(e, voice);
    }
  }

  lemma OldestFirst(vs: seq<Voice>, t: nat)
    requires t < |vs| == |Queue(vs)|
    requires forall i | 0 <= i < |vs| :: vs[i].active && vs[t].age <= vs[i].age
    requires StrictlyByAge(Queue(vs))
    ensures Queue(vs)[0] == vs[t]
  {
    var q := Queue(vs);
    QueueMembers(vs);
    assert vs[t] in q && q[0] in q;
    assert q[0] in vs;
  }

  lemma NewMember(vs: seq<Voice>, t: nat, voice: Voice, v: Voice)
    requires t < |vs| && voice.active
    requires forall i, j | 0 <= i < j < |vs| && vs[i].active && vs[j].active :: vs[i].age != vs[j].age
    ensures v in vs[t := voice] && v.active <==>
      v == voice || (v in vs && v.active && !(vs[t].active && v == vs[t]))
  {
    var vs' := vs[t := voice];
    assert vs'[t] == voice;
    if v in vs && v.active && v != vs[t] {
      var i :| 0 <= i < |vs| && vs[i] == v;
      assert vs'[i] == v;
    }
    if v in vs' && v != voice && v.active {
      var i :| 0 <= i < |vs'| && vs'[i] == v;
      assert vs[i] == v && i != t;
    }
  }

  /** The age order survives a note-on exactly when the 32-bit clock does not wrap. */
  lemma NoteOnKeepsOrderIff(tone: Tone, e: Engine, key: int, channel: int, noteId: int, velocity: real)
    requires WellFormed(e) && Ordered(e)
    ensures Ordered(NoteOn(tone, e, key, channel, noteId, velocity)) <==> e.clock + 1 < UINT32
  {
    var r := NoteOn(tone, e, key, channel, noteId, velocity);
    assert r.voices[Target(e.voices)].active && r.voices[Target(e.voices)].age == e.clock;
  }

  /** After the clock wraps, the youngest of eight notes is the one stolen. */
  lemma WrapStealsTheYoungest(tone: Tone, e: Engine, a: int, b: int, c: int)
    requires WellFormed(e) && Ordered(e) && e.clock == UINT32 - 1
    requires forall i | 0 <= i < MAX_VOICES :: e.voices[i].active && e.voices[i].age > 0
    ensures var e1 := NoteOn(tone, e, a, 0, -1, 1.0);
      var e2 := NoteOn(tone, e1, b, 0, -1, 1.0);
      Target(e2.voices) == Target(e1.voices) && e2.voices[Target(e2.voices)].key == b
  {
    var e1 := NoteOn(tone, e, a, 0, -1, 1.0);
    var e2 := NoteOn(tone, e1, b, 0, -1, 1.0);
    var t := Target(e1.voices);
    assert e2.voices[t].age == 0;
    forall i | 0 <= i < MAX_VOICES && i != t ensures e2.voices[i].age > 0 { }
  }

  // ---- operations that treat voices one by one ----

  predicate OneByOne(f: Voice -> Voice, v: Voice) {
    f(v).age == v.age && (f(v).active ==> v.active)
  }

  function Survivors(f: Voice -> Voice, q: seq<Voice>): seq<Voice> {
    if q == [] then [] else
    var v := f(q[|q| - 1]);
    if v.active then Survivors(f, q[..|q| - 1]) + [v] else Survivors(f, q[..|q| - 1])
  }

  lemma SurvivorsOfLast(f: Voice -> Voice, q: seq<Voice>, v: Voice)
    ensures Survivors(f, q + [v]) == if f(v).active then Survivors(f, q) + [f(v)] else Survivors(f, q)
  {
    assert (q + [v])[..|q|] == q;
  }

  lemma InsertBefore(q: seq<Voice>, v: Voice, last: Voice)
    requires v.age < last.age
    ensures Insert(q + [last], v) == Insert(q, v) + [last]
  {
    assert (q + [last])[..|q|] == q;
  }

  lemma {:induction false} SurvivorsInsert(f: Voice -> Voice, q: seq<Voice>, v: Voice)
    requires ByAge(q) && forall w :: OneByOne(f, w)
    ensures Survivors(f, Insert(q, v)) ==
      if f(v).active then Insert(Survivors(f, q), f(v)) else Survivors(f, q)
  {
    assert OneByOne(f, v);
    if q == [] || q[|q| - 1].age <= v.age {
      SurvivorsOfLast(f, q, v);
      SurvivorsAges(f, q);
      var s := Survivors(f, q);
      assert s != [] ==> s[|s| - 1] in s;
    } else {
      var front, last := q[..|q| - 1], q[|q| - 1];
      assert q == front + [last] && OneByOne(f, last);
      SurvivorsInsert(f, front, v);
      SurvivorsInsertBefore(f, front, last, v);
    }
  }

  lemma SurvivorsInsertBefore(f: Voice -> Voice, front: seq<Voice>, last: Voice, v: Voice)
    requires v.age < last.age && OneByOne(f, v) && OneByOne(f, last)
    requires Survivors(f, Insert(front, v)) ==
      if f(v).active then Insert(Survivors(f, front), f(v)) else Survivors(f, front)
    ensures Survivors(f, Insert(front + [last], v)) ==
      if f(v).active then Insert(Survivors(f, front + [last]), f(v)) else Survivors(f, front + [last])
  {
    var s := Survivors(f, front);
    var r := Insert(front, v);
    InsertBefore(front, v, last);
    SurvivorsOfLast(f, r, last);
    SurvivorsOfLast(f, front, last);
    if f(last).active && f(v).active {
      InsertBefore(s, f(v), f(last));
    }
  }

  lemma {:induction false} SurvivorsAges(f: Voice -> Voice, q: seq<Voice>)
    requires ByAge(q) && forall w :: OneByOne(f, w)
    ensures forall w | w in Survivors(f, q) :: q != [] && w.age <= q[|q| - 1].age
  {
    if q != [] {
      SurvivorsAges(f, q[..|q| - 1]);
      assert OneByOne(f, q[|q| - 1]);
    }
  }

  lemma {:induction false} MapQueue(f: Voice -> Voice, vs: seq<Voice>)
    requires forall w :: OneByOne(f, w)
    ensures Queue(MapVoices(f, vs)) == Survivors(f, Queue(vs))
  {
    if vs == [] {
    } else {
      var front, last := vs[..|vs| - 1], vs[|vs| - 1];
      MapQueue(f, front);
      QueueMembers(front);
      assert MapVoices(f, vs)[..|vs| - 1] == MapVoices(f, front);
      assert OneByOne(f, last);
      if last.active {
        SurvivorsInsert(f, Queue(front), last);
      }
    }
  }

  function Except(q: seq<Voice>, key: int, channel: int, noteId: int): seq<Voice> {
    if q == [] then [] else
    var v := q[|q| - 1];
    var rest := Except(q[..|q| - 1], key, channel, noteId);
    if Addressed(v, key, channel, noteId) then rest else rest + [v]
  }

  lemma {:induction false} ChokedQueue(q: seq<Voice>, key: int, channel: int, noteId: int)
    requires forall v | v in q :: v.active
    ensures Survivors(EndIf(key, channel, noteId, true), q) == Except(q, key, channel, noteId)
  {
    if q != [] {
      ChokedQueue(q[..|q| - 1], key, channel, noteId);
    }
  }

  /** A choke deletes exactly the matching notes. */
  lemma ChokeDeletes(e: Engine, key: int, channel: int, noteId: int)
    ensures Queue(NoteOff(e, key, channel, noteId, true).voices) == Except(Queue(e.voices), key, channel, noteId)
  {
    MapQueue(EndIf(key, channel, noteId, true), e.voices);
    QueueMembers(e.voices);
    ChokedQueue(Queue(e.voices), key, channel, noteId);
  }

  lemma {:induction false} AllSurvive(f: Voice -> Voice, q: seq<Voice>)
    requires forall i | 0 <= i < |q| :: f(q[i]).active
    ensures Survivors(f, q) == MapVoices(f, q)
  {
    if q != [] {
      AllSurvive(f, q[..|q| - 1]);
    }
  }

  /** A note-off marks exactly the matching notes and keeps every place in the queue. */
  lemma NoteOffMarks(e: Engine, key: int, channel: int, noteId: int)
    ensures var q, r := Queue(e.voices), Queue(NoteOff(e, key, channel, noteId, false).voices);
      |r| == |q| &&
      forall i | 0 <= i < |q| :: r[i] == if Addressed(q[i], key, channel, noteId) then Released(q[i]) else q[i]
  {
    var q := Queue(e.voices);
    MapQueue(EndIf(key, channel, noteId, false), e.voices);
    QueueMembers(e.voices);
    assert forall i | 0 <= i < |q| :: q[i] in q;
    AllSurvive(EndIf(key, channel, noteId, false), q);
  }

  // ---- whole runs ----

  datatype Notes = Notes(queue: seq<Voice>, sampleRate: real, clock: nat, globalMod: real)

  function Abstract(e: Engine): Notes {
    Notes(Queue(e.voices), e.sampleRate, e.clock, e.globalMod)
  }

  /** The plain queue machine: no slots, no search for a free one, no search for the oldest. */
  function Do(tone: Tone, s: Notes, op: Op): Notes
    requires s.sampleRate > 0.0
  {
    match op
    case StartNote(key, channel, noteId, velocity) =>
      var voice := NewVoice(tone, s.sampleRate, s.clock, key, channel, noteId, velocity);
      s.(queue := (if |s.queue| >= MAX_VOICES then s.queue[1..] else s.queue) + [voice], clock := s.clock + 1)
    case EndNotes(key, channel, noteId, choke) =>
      s.(queue := if choke then Except(s.queue, key, channel, noteId)
                  else MapVoices(EndIf(key, channel, noteId, false), s.queue))
    case Bend(key, channel, noteId, amount) =>
      if key < 0 && channel < 0 && noteId < 0 then s.(globalMod := amount)
      else s.(queue := MapVoices(ModulateIf(key, channel, noteId, amount), s.queue))
    case Play(frames) => s.(queue := Survivors(AdvanceBy(frames), s.queue))
    case SendEnds(_) => s.(queue := MapVoices(Cleared, s.queue))
    case Restart => Notes([], s.sampleRate, 0, 0.0)
    case Activate(rate) => Notes([], rate, 0, 0.0)
  }

  function DoAll(tone: Tone, s: Notes, ops: seq<Op>): (r: Notes)
    requires s.sampleRate > 0.0 && AllLegal(ops)
    ensures r.sampleRate > 0.0
  {
    if ops == [] then s else Do(tone, DoAll(tone, s, ops[..|ops| - 1]), ops[|ops| - 1])
  }

  lemma MapKeepsOrder(f: Voice -> Voice, e: Engine)
    requires Ordered(e) && forall w :: OneByOne(f, w)
    ensures Ordered(e.(voices := MapVoices(f, e.voices)))
  {
    forall i | 0 <= i < |e.voices| ensures OneByOne(f, e.voices[i]) { }
  }

  lemma MarkedQueue(f: Voice -> Voice, vs: seq<Voice>)
    requires forall w :: OneByOne(f, w) && f(w).active == w.active
    ensures Queue(MapVoices(f, vs)) == MapVoices(f, Queue(vs))
  {
    var q := Queue(vs);
    forall w ensures OneByOne(f, w) { }
    MapQueue(f, vs);
    QueueMembers(vs);
    forall i | 0 <= i < |q| ensures f(q[i]).active {
      assert q[i] in q;
      assert OneByOne(f, q[i]) && f(q[i]).active == q[i].active;
    }
    AllSurvive(f, q);
  }

  lemma {:induction false} NoneSound(vs: seq<Voice>)
    requires forall i | 0 <= i < |vs| :: !vs[i].active
    ensures Queue(vs) == []
  {
    if vs != [] {
      NoneSound(vs[..|vs| - 1]);
    }
  }

  lemma EndNotesRefines(tone: Tone, e: Engine, op: Op)
    requires WellFormed(e) && Ordered(e) && op.EndNotes?
    ensures Ordered(Apply(tone, e, op)) && Abstract(Apply(tone, e, op)) == Do(tone, Abstract(e), op)
  {
    MapKeepsOrder(EndIf(op.key, op.channel, op.noteId, op.choke), e);
    if op.choke {
      ChokeDeletes(e, op.key, op.channel, op.noteId);
    } else {
      MarkedQueue(EndIf(op.key, op.channel, op.noteId, false), e.voices);
    }
  }

  lemma BendRefines(tone: Tone, e: Engine, op: Op)
    requires WellFormed(e) && Ordered(e) && op.Bend?
    ensures Ordered(Apply(tone, e, op)) && Abstract(Apply(tone, e, op)) == Do(tone, Abstract(e), op)
  {
    MapKeepsOrder(ModulateIf(op.key, op.channel, op.noteId, op.amount), e);
    MarkedQueue(ModulateIf(op.key, op.channel, op.noteId, op.amount), e.voices);
  }

  lemma StartRefines(tone: Tone, e: Engine, op: Op)
    requires WellFormed(e) && Ordered(e) && op.StartNote? && e.clock + 1 < UINT32
    ensures Ordered(Apply(tone, e, op)) && Abstract(Apply(tone, e, op)) == Do(tone, Abstract(e), op)
  {
    hide Queue, Ordered;
    QueueLength(e.voices);
    NoteOnAppends(tone, e, op.key, op.channel, op.noteId, op.velocity);
    NoteOnKeepsOrderIff(tone, e, op.key, op.channel, op.noteId, op.velocity);
  }

  lemma ResetRefines(tone: Tone, e: Engine, op: Op)
    requires WellFormed(e) && Legal(op) && (op.Restart? || op.Activate?)
    ensures Ordered(Apply(tone, e, op)) && Abstract(Apply(tone, e, op)) == Do(tone, Abstract(e), op)
  {
    NoneSound(Apply(tone, e, op).voices);
  }

  /** One operation on the slots is one operation on the queue. */
  lemma ApplyRefines(tone: Tone, e: Engine, op: Op)
    requires WellFormed(e) && Legal(op) && Ordered(e)
    requires op.StartNote? ==> e.clock + 1 < UINT32
    ensures Ordered(Apply(tone, e, op))
    ensures Abstract(Apply(tone, e, op)) == Do(tone, Abstract(e), op)
  {
    hide Queue, Ordered;
    match op
    case StartNote(_, _, _, _) => StartRefines(tone, e, op);
    case EndNotes(_, _, _, _) => EndNotesRefines(tone, e, op);
    case Bend(_, _, _, _) => BendRefines(tone, e, op);
    case Play(frames) =>
      MapKeepsOrder(AdvanceBy(frames), e);
      MapQueue(AdvanceBy(frames), e.voices);
    case SendEnds(_) =>
      MapKeepsOrder(Cleared, e);
      MarkedQueue(Cleared, e.voices);
    case _ => ResetRefines(tone, e, op);
  }

  /** No note of the run starts while the clock is at its last value. */
  predicate ClockHolds(tone: Tone, e: Engine, ops: seq<Op>)
    requires WellFormed(e) && AllLegal(ops)
  {
    forall k | 0 <= k < |ops| && ops[k].StartNote? :: Run(tone, e, ops[..k]).clock + 1 < UINT32
  }

  lemma ClockHoldsNext(tone: Tone, e: Engine, ops: seq<Op>)
    requires WellFormed(e) && AllLegal(ops) && ops != []
    ensures var front, last := ops[..|ops| - 1], ops[|ops| - 1];
      ClockHolds(tone, e, ops) <==>
        ClockHolds(tone, e, front) && (last.StartNote? ==> Run(tone, e, front).clock + 1 < UINT32)
  {
    hide Run;
    var front := ops[..|ops| - 1];
    assert forall k | 0 <= k < |front| :: front[..k] == ops[..k];
  }

  /** Refinement over every run in which the clock does not wrap; reset and activation set it back. */
  lemma {:induction false} RunRefines(tone: Tone, e: Engine, ops: seq<Op>)
    requires WellFormed(e) && AllLegal(ops) && Ordered(e) && ClockHolds(tone, e, ops)
    ensures Ordered(Run(tone, e, ops))
    ensures Abstract(Run(tone, e, ops)) == DoAll(tone, Abstract(e), ops)
    ensures |DoAll(tone, Abstract(e), ops).queue| <= MAX_VOICES
  {
    hide ClockHolds, Ordered, Apply, Do;
    if ops != [] {
      var front, last := ops[..|ops| - 1], ops[|ops| - 1];
      ClockHoldsNext(tone, e, ops);
      RunRefines(tone, e, front);
      ApplyRefines(tone, Run(tone, e, front), last);
    }
    QueueLength(Run(tone, e, ops).voices);
  }

  predicate OrderedAt(tone: Tone, e: Engine, ops: seq<Op>, k: nat)
    requires WellFormed(e) && AllLegal(ops) && k <= |ops|
  {
    Ordered(Run(tone, e, ops[..k]))
  }

  /** The condition is exact: a run keeps the age order all along if and only if its clock never wraps. */
  lemma {:induction false} RunKeepsOrderIff(tone: Tone, e: Engine, ops: seq<Op>)
    requires WellFormed(e) && AllLegal(ops) && Ordered(e)
    ensures (forall k | 0 <= k <= |ops| :: OrderedAt(tone, e, ops, k)) <==> ClockHolds(tone, e, ops)
  {
    hide ClockHolds, Ordered, Apply, Do, Run;
    assert ops[..|ops|] == ops;
    if ops == [] {
      NothingHolds(tone, e);
      RunNothing(tone, e);
    } else {
      var front, last := ops[..|ops| - 1], ops[|ops| - 1];
      RunKeepsOrderIff(tone, e, front);
      ClockHoldsNext(tone, e, ops);
      SameFront(tone, e, ops);
      hide OrderedAt;
      if OrderedAt(tone, e, ops, |front|) {
        OrderNextIff(tone, Run(tone, e, front), last);
      }
    }
  }

  lemma SameFront(tone: Tone, e: Engine, ops: seq<Op>)
    requires WellFormed(e) && AllLegal(ops) && ops != []
    ensures var front := ops[..|ops| - 1];
      (forall k | 0 <= k <= |front| :: OrderedAt(tone, e, ops, k) <==> OrderedAt(tone, e, front, k)) &&
      (OrderedAt(tone, e, ops, |front|) <==> Ordered(Run(tone, e, front))) &&
      (OrderedAt(tone, e, ops, |ops|) <==> Ordered(Apply(tone, Run(tone, e, front), ops[|ops| - 1])))
  {
    hide Ordered, Apply;
    var front := ops[..|ops| - 1];
    assert forall k | 0 <= k <= |front| :: front[..k] == ops[..k];
    assert front[..|front|] == front && ops[..|ops|] == ops;
  }

  lemma OrderNextIff(tone: Tone, e: Engine, op: Op)
    requires WellFormed(e) && Legal(op) && Ordered(e)
    ensures Ordered(Apply(tone, e, op)) <==> (op.StartNote? ==> e.clock + 1 < UINT32)
  {
    if op.StartNote? {
      NoteOnKeepsOrderIff(tone, e, op.key, op.channel, op.noteId, op.velocity);
    } else {
      ApplyRefines(tone, e, op);
    }
  }

  lemma RunNothing(tone: Tone, e: Engine)
    requires WellFormed(e)
    ensures Run(tone, e, []) == e
  {
  }

  /** Fewer note-ons than the clock has values left are always safe. */
  lemma {:induction false} FewNotesHold(tone: Tone, e: Engine, ops: seq<Op>)
    requires WellFormed(e) && AllLegal(ops) && e.clock + NoteOns(ops) < UINT32
    ensures ClockHolds(tone, e, ops) && Run(tone, e, ops).clock <= e.clock + NoteOns(ops)
  {
    hide ClockHolds;
    if ops == [] {
      NothingHolds(tone, e);
    } else {
      FewNotesHold(tone, e, ops[..|ops| - 1]);
      ClockHoldsNext(tone, e, ops);
    }
  }

  lemma NothingHolds(tone: Tone, e: Engine)
    requires WellFormed(e)
    ensures ClockHolds(tone, e, [])
  {
  }

  // ---- the wrap is reached ----

  /** The same note n times. */
  function Again(note: Op, n: nat): (ops: seq<Op>)
    ensures |ops| == n && forall i | 0 <= i < n :: ops[i] == note
  {
    seq(n, _ => note)
  }

  lemma {:induction false} AgainCounts(note: Op, n: nat)
    requires note.StartNote?
    ensures NoteOns(Again(note, n)) == n
  {
    if n > 0 {
      assert Again(note, n)[..n - 1] == Again(note, n - 1);
      AgainCounts(note, n - 1);
    }
  }

  /** The plain queue after n note-ons holds the last eight of them. */
  lemma {:induction false} AgainFills(tone: Tone, s: Notes, note: Op, n: nat)
    requires s.sampleRate > 0.0 && s.queue == [] && s.clock == 0 && note.StartNote?
    ensures var r := DoAll(tone, s, Again(note, n));
      r.clock == n && |r.queue| == (if n < MAX_VOICES then n else MAX_VOICES) &&
      forall i | 0 <= i < |r.queue| :: r.queue[i].age == n - |r.queue| + i
  {
    if n > 0 {
      assert Again(note, n)[..n - 1] == Again(note, n - 1);
      AgainFills(tone, s, note, n - 1);
    }
  }

  /**
   2^32 - 1 note-ons after a reset lead to the state of WrapStealsTheYoungest: the
   clock at its last value and eight notes that all started later than the first.
  */
  lemma WrapIsReached(tone: Tone, e: Engine, note: Op)
    requires WellFormed(e) && note.StartNote?
    ensures var r := Run(tone, Reset(e), Again(note, UINT32 - 1));
      Ordered(r) && r.clock == UINT32 - 1 &&
      forall i | 0 <= i < MAX_VOICES :: r.voices[i].active && r.voices[i].age > 0
  {
    hide Run, DoAll, ClockHolds;
    var ops := Again(note, UINT32 - 1);
    AgainCounts(note, UINT32 - 1);
    FewNotesHold(tone, Reset(e), ops);
    RunRefines(tone, Reset(e), ops);
    NoneSound(Reset(e).voices);
    AgainFills(tone, Abstract(Reset(e)), note, UINT32 - 1);
    var r := Run(tone, Reset(e), ops);
    QueueLength(r.voices);
    QueueMembers(r.voices);
    forall i | 0 <= i < MAX_VOICES ensures r.voices[i].active && r.voices[i].age > 0 {
      assert r.voices[i] in Queue(r.voices);
    }
  }
}

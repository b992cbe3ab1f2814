/**
 Book-keeping of NOTE_END over whole runs. Each note-on gets a serial number;
 the ledger follows the number through the slots and records how it left them.
*/
module NoteLedger {
  import opened Voices

  datatype Address = Address(key: int, channel: int, noteId: int)

  function AddressOf(v: Voice): Address { Address(v.key, v.channel, v.noteId) }

  /**
   `owner[i]` is the serial of the note slot i was last given to, `notes[n]` the
   address of note-on n. `ends` are the NOTE_END events sent and `sent` the
   serials they belong to; the last three fields are the serials that left their
   slot without one.
  */
  datatype Ledger = Ledger(
    engine: Engine, owner: seq<nat>, notes: seq<Address>, ends: seq<NoteEnd>, sent: seq<nat>,
    stolen: multiset<nat>, overwritten: multiset<nat>, dropped: multiset<nat>)

  predicate Occupied(v: Voice) { v.active || v.justEnded }

  function Active(v: Voice): bool { v.active }

  function Pending(v: Voice): bool { v.justEnded }

  /** The serials held by the first m slots that satisfy `keep`. */
  function Held(keep: Voice -> bool, vs: seq<Voice>, owner: seq<nat>, m: nat): multiset<nat>
    requires m <= |vs| == |owner|
  {
    if m == 0 then multiset{}
    else if keep(vs[m - 1]) then Held(keep, vs, owner, m - 1) + multiset{owner[m - 1]}
    else Held(keep, vs, owner, m - 1)
  }

  /** The pending serials in slot order, the order `NoteEnds` sends them in. */
  function Ending(vs: seq<Voice>, owner: seq<nat>, m: nat): seq<nat>
    requires m <= |vs| == |owner|
  {
    if m == 0 then []
    else if vs[m - 1].justEnded then Ending(vs, owner, m - 1) + [owner[m - 1]]
    else Ending(vs, owner, m - 1)
  }

  function Open(l: Ledger): (r: multiset<nat>)
    requires |l.engine.voices| == |l.owner|
  {
    Held(Occupied, l.engine.voices, l.owner, |l.owner|)
  }

  ghost predicate Sized(l: Ledger) {
    WellFormed(l.engine) && |l.owner| == MAX_VOICES
  }

  function Fresh(e: Engine): Ledger {
    Ledger(e, seq(MAX_VOICES, _ => 0), [], [], [], multiset{}, multiset{}, multiset{})
  }

  function Track(tone: Tone, l: Ledger, op: Op): (r: Ledger)
    requires Sized(l) && Legal(op)
    ensures Sized(r) && r.engine == Apply(tone, l.engine, op)
  {
    var vs, next := l.engine.voices, l.(engine := Apply(tone, l.engine, op));
    match op
    case StartNote(key, channel, noteId, velocity) =>
      var t := Target(vs);
      next.(owner := l.owner[t := |l.notes|], notes := l.notes + [Address(key, channel, noteId)],
            stolen := if vs[t].active then l.stolen + multiset{l.owner[t]} else l.stolen,
            overwritten :=
              if !vs[t].active && vs[t].justEnded then l.overwritten + multiset{l.owner[t]} else l.overwritten)
    case SendEnds(time) =>
      next.(ends := l.ends + NoteEnds(vs, |vs|, time), sent := l.sent + Ending(vs, l.owner, |vs|))
    case Restart => next.(dropped := l.dropped + Open(l))
    case Activate(_) => next.(dropped := l.dropped + Open(l))
    case _ => next
  }

  function TrackAll(tone: Tone, l: Ledger, ops: seq<Op>): (r: Ledger)
    requires Sized(l) && AllLegal(ops)
    ensures Sized(r) && r.engine == Run(tone, l.engine, ops)
  {
    if ops == [] then l else Track(tone, TrackAll(tone, l, ops[..|ops| - 1]), ops[|ops| - 1])
  }

  // ---- the invariant ----

  /** The serials 0 .. n - 1, each once. */
  function Serials(n: nat): multiset<nat> {
    if n == 0 then multiset{} else Serials(n - 1) + multiset{n - 1}
  }

  ghost predicate Exclusive(vs: seq<Voice>) {
    forall i | 0 <= i < |vs| :: !(vs[i].active && vs[i].justEnded)
  }

  /** Every note-on is in exactly one place. */
  ghost predicate Accounted(l: Ledger)
    requires Sized(l)
  {
    Open(l) + multiset(l.sent) + l.stolen + l.overwritten + l.dropped == Serials(|l.notes|)
  }

  /** Slots and events carry the address of the note-on they belong to. */
  ghost predicate Labelled(l: Ledger)
    requires Sized(l)
  {
    (forall i | 0 <= i < MAX_VOICES && Occupied(l.engine.voices[i]) ::
      l.owner[i] < |l.notes| && l.notes[l.owner[i]] == AddressOf(l.engine.voices[i])) &&
    |l.ends| == |l.sent| &&
    (forall k | 0 <= k < |l.sent| :: l.sent[k] < |l.notes| &&
      l.notes[l.sent[k]] == Address(l.ends[k].key, l.ends[k].channel, l.ends[k].noteId))
  }

  ghost predicate Balanced(l: Ledger) {
    Sized(l) && Exclusive(l.engine.voices) && Accounted(l) && Labelled(l)
  }

  lemma {:induction false} SerialsOnce(n: nat)
    ensures |Serials(n)| == n
    ensures forall x: nat :: Serials(n)[x] == if x < n then 1 else 0
  {
    if n > 0 {
      SerialsOnce(n - 1);
    }
  }

  lemma {:induction false} HeldSame(
    keep: Voice -> bool, vs: seq<Voice>, ws: seq<Voice>, owner: seq<nat>, owner': seq<nat>, m: nat)
    requires m <= |vs| == |owner| && m <= |ws| == |owner'|
    requires forall i | 0 <= i < m :: keep(vs[i]) == keep(ws[i]) && owner[i] == owner'[i]
    ensures Held(keep, vs, owner, m) == Held(keep, ws, owner', m)
  {
    if m > 0 {
      HeldSame(keep, vs, ws, owner, owner', m - 1);
    }
  }

  lemma {:induction false} HeldNone(keep: Voice -> bool, vs: seq<Voice>, owner: seq<nat>, m: nat)
    requires m <= |vs| == |owner| && forall i | 0 <= i < m :: !keep(vs[i])
    ensures Held(keep, vs, owner, m) == multiset{}
  {
    if m > 0 {
      HeldNone(keep, vs, owner, m - 1);
    }
  }

  /** What one slot adds to the serials held. */
  function Holding(keep: Voice -> bool, v: Voice, serial: nat): multiset<nat> {
    if keep(v) then multiset{serial} else multiset{}
  }

  lemma HeldOne(keep: Voice -> bool, vs: seq<Voice>, owner: seq<nat>, m: nat)
    requires 0 < m <= |vs| == |owner|
    ensures Held(keep, vs, owner, m) == Held(keep, vs, owner, m - 1) + Holding(keep, vs[m - 1], owner[m - 1])
  {
  }

  /** Giving slot t to a new serial exchanges its old one, if it held any. */
  lemma {:induction false} HeldExchange(vs: seq<Voice>, owner: seq<nat>, t: nat, voice: Voice, serial: nat, m: nat)
    requires t < m <= |vs| == |owner| && Occupied(voice)
    ensures var now, was := Held(Occupied, vs[t := voice], owner[t := serial], m), Held(Occupied, vs, owner, m);
      now + Holding(Occupied, vs[t], owner[t]) == was + multiset{serial}
  {
    hide Held, Occupied;
    var ws, owner' := vs[t := voice], owner[t := serial];
    HeldOne(Occupied, vs, owner, m);
    HeldOne(Occupied, ws, owner', m);
    if m - 1 == t {
      HeldSame(Occupied, vs, ws, owner, owner', t);
    } else {
      HeldExchange(vs, owner, t, voice, serial, m - 1);
      hide Holding;
      AddBoth(Held(Occupied, ws, owner', m - 1), Holding(Occupied, vs[t], owner[t]), Held(Occupied, vs, owner, m - 1),
              multiset{serial}, Holding(Occupied, vs[m - 1], owner[m - 1]));
    }
  }

  lemma AddBoth(now: multiset<nat>, gone: multiset<nat>, was: multiset<nat>, come: multiset<nat>, more: multiset<nat>)
    requires now + gone == was + come
    ensures (now + more) + gone == (was + more) + come
  {
    assert (now + more) + gone == (now + gone) + more;
  }

  /** Occupied slots are the active ones and the pending ones, never both. */
  lemma {:induction false} HeldSplit(vs: seq<Voice>, owner: seq<nat>, m: nat)
    requires m <= |vs| == |owner| && Exclusive(vs)
    ensures Held(Occupied, vs, owner, m) == Held(Active, vs, owner, m) + Held(Pending, vs, owner, m)
    ensures Held(Pending, vs, owner, m) == multiset(Ending(vs, owner, m))
  {
    if m > 0 {
      HeldSplit(vs, owner, m - 1);
    }
  }

  lemma {:induction false} EndsMatch(l: Ledger, m: nat, time: nat)
    requires Balanced(l) && m <= MAX_VOICES
    ensures var ends, sent := NoteEnds(l.engine.voices, m, time), Ending(l.engine.voices, l.owner, m);
      |ends| == |sent| &&
      forall k | 0 <= k < |sent| :: sent[k] < |l.notes| &&
        l.notes[sent[k]] == Address(ends[k].key, ends[k].channel, ends[k].noteId)
  {
    if m > 0 {
      EndsMatch(l, m - 1, time);
    }
  }

  /** What a note-on does to the ledger: the slot it takes gives up its serial, if it holds one. */
  lemma StartIs(tone: Tone, l: Ledger, op: Op)
    requires Sized(l) && op.StartNote?
    ensures var t, r := Target(l.engine.voices), Track(tone, l, op);
      var gone := Holding(Occupied, l.engine.voices[t], l.owner[t]);
      Occupied(r.engine.voices[t]) && r.engine.voices == l.engine.voices[t := r.engine.voices[t]] &&
      r.owner == l.owner[t := |l.notes|] && |r.notes| == |l.notes| + 1 && r.sent == l.sent &&
      r.stolen + r.overwritten == l.stolen + l.overwritten + gone && r.dropped == l.dropped
  {
  }

  lemma StartAccounts(tone: Tone, l: Ledger, op: Op)
    requires Sized(l) && op.StartNote? && Accounted(l)
    ensures Accounted(Track(tone, l, op))
  {
    hide Track, Held, Occupied, Holding, Target, Serials;
    var t, r, n := Target(l.engine.voices), Track(tone, l, op), |l.notes|;
    StartIs(tone, l, op);
    HeldExchange(l.engine.voices, l.owner, t, r.engine.voices[t], n, MAX_VOICES);
    var gone := Holding(Occupied, l.engine.voices[t], l.owner[t]);
    Exchanged(Open(l), Open(r), multiset(l.sent), gone, l.stolen, l.overwritten, r.stolen, r.overwritten, l.dropped, n);
  }

  /** The new serial comes in, and what the slot gave up is stolen or overwritten. */
  lemma Exchanged(was: multiset<nat>, now: multiset<nat>, sent: multiset<nat>, gone: multiset<nat>,
                  stolen: multiset<nat>, overwritten: multiset<nat>, stolen': multiset<nat>,
                  overwritten': multiset<nat>, dropped: multiset<nat>, n: nat)
    requires was + sent + stolen + overwritten + dropped == Serials(n)
    requires now + gone == was + multiset{n} && stolen' + overwritten' == stolen + overwritten + gone
    ensures now + sent + stolen' + overwritten' + dropped == Serials(n + 1)
  {
    forall x: nat ensures (now + sent + stolen' + overwritten' + dropped)[x] == Serials(n + 1)[x] {
      assert (was + sent + stolen + overwritten + dropped)[x] == Serials(n)[x];
      assert (now + gone)[x] == (was + multiset{n})[x];
      assert (stolen' + overwritten')[x] == (stolen + overwritten + gone)[x];
    }
  }

  lemma StartBalances(tone: Tone, l: Ledger, op: Op)
    requires Balanced(l) && op.StartNote?
    ensures Balanced(Track(tone, l, op))
  {
    StartAccounts(tone, l, op);
  }

  lemma SendBalances(tone: Tone, l: Ledger, op: Op)
    requires Balanced(l) && op.SendEnds?
    ensures Balanced(Track(tone, l, op))
  {
    var vs, r := l.engine.voices, Track(tone, l, op);
    var ws := r.engine.voices;
    HeldSplit(vs, l.owner, MAX_VOICES);
    HeldSame(Active, vs, ws, l.owner, l.owner, MAX_VOICES);
    HeldSplit(ws, l.owner, MAX_VOICES);
    HeldNone(Pending, ws, l.owner, MAX_VOICES);
    EndsMatch(l, MAX_VOICES, op.time);
  }

  lemma TrackBalances(tone: Tone, l: Ledger, op: Op)
    requires Balanced(l) && Legal(op)
    ensures Balanced(Track(tone, l, op))
  {
    var r := Track(tone, l, op);
    if op.StartNote? {
      StartBalances(tone, l, op);
    } else if op.SendEnds? {
      SendBalances(tone, l, op);
    } else if op.Restart? || op.Activate? {
      HeldNone(Occupied, r.engine.voices, l.owner, MAX_VOICES);
    } else {
      forall i | 0 <= i < MAX_VOICES
        ensures Occupied(r.engine.voices[i]) == Occupied(l.engine.voices[i])
        ensures AddressOf(r.engine.voices[i]) == AddressOf(l.engine.voices[i])
        ensures !(r.engine.voices[i].active && r.engine.voices[i].justEnded)
      { }
      HeldSame(Occupied, l.engine.voices, r.engine.voices, l.owner, l.owner, MAX_VOICES);
    }
  }

  // ---- the theorems ----

  lemma {:induction false} RunBalances(tone: Tone, e: Engine, ops: seq<Op>)
    requires WellFormed(e) && AllLegal(ops) && forall i | 0 <= i < |e.voices| :: !Occupied(e.voices[i])
    ensures Balanced(TrackAll(tone, Fresh(e), ops))
    ensures |TrackAll(tone, Fresh(e), ops).notes| == NoteOns(ops)
  {
    if ops == [] {
      HeldNone(Occupied, e.voices, Fresh(e).owner, MAX_VOICES);
    } else {
      RunBalances(tone, e, ops[..|ops| - 1]);
      TrackBalances(tone, TrackAll(tone, Fresh(e), ops[..|ops| - 1]), ops[|ops| - 1]);
    }
  }

  /** Conservation: note-ons = ends sent + sounding + pending + stolen + overwritten + dropped. */
  lemma NoteOnsAddUp(tone: Tone, e: Engine, ops: seq<Op>)
    requires WellFormed(e) && AllLegal(ops) && forall i | 0 <= i < |e.voices| :: !Occupied(e.voices[i])
    ensures var l := TrackAll(tone, Fresh(e), ops);
      NoteOns(ops) == |l.ends| + |Held(Active, l.engine.voices, l.owner, MAX_VOICES)|
        + |Held(Pending, l.engine.voices, l.owner, MAX_VOICES)|
        + |l.stolen| + |l.overwritten| + |l.dropped|
  {
    RunBalances(tone, e, ops);
    var l := TrackAll(tone, Fresh(e), ops);
    HeldSplit(l.engine.voices, l.owner, MAX_VOICES);
    SerialsOnce(|l.notes|);
  }

  /** No note-on gets two NOTE_ENDs, and each NOTE_END carries its note's address. */
  lemma OneEndPerNote(tone: Tone, e: Engine, ops: seq<Op>)
    requires WellFormed(e) && AllLegal(ops) && forall i | 0 <= i < |e.voices| :: !Occupied(e.voices[i])
    ensures var l := TrackAll(tone, Fresh(e), ops);
      |l.ends| == |l.sent| &&
      (forall k | 0 <= k < |l.sent| :: l.sent[k] < NoteOns(ops) && l.sent[k] < |l.notes| &&
        l.notes[l.sent[k]] == Address(l.ends[k].key, l.ends[k].channel, l.ends[k].noteId)) &&
      forall j, k | 0 <= j < k < |l.sent| :: l.sent[j] != l.sent[k]
  {
    hide TrackAll, Held, Serials;
    RunBalances(tone, e, ops);
    var l := TrackAll(tone, Fresh(e), ops);
    assert multiset(l.sent) <= Serials(|l.notes|);
    SentOnce(l.sent, |l.notes|);
  }

  lemma SentOnce(sent: seq<nat>, n: nat)
    requires multiset(sent) <= Serials(n)
    ensures forall j, k | 0 <= j < k < |sent| :: sent[j] != sent[k]
  {
    SerialsOnce(n);
    forall j, k | 0 <= j < k < |sent| ensures sent[j] != sent[k] {
      if sent[j] == sent[k] {
        TwiceInSequence(sent, j, k);
      }
    }
  }

  lemma TwiceInSequence(s: seq<nat>, j: nat, k: nat)
    requires j < k < |s| && s[j] == s[k]
    ensures multiset(s)[s[j]] >= 2
  {
    assert s == s[..k] + s[k..];
    assert s[..k][j] == s[j] && s[k..][0] == s[j];
    assert s[j] in multiset(s[..k]) && s[j] in multiset(s[k..]);
  }

  predicate Lost(l: Ledger, note: nat) {
    note in l.stolen || note in l.overwritten || note in l.dropped
  }

  /** A note that left its slot without a NOTE_END never gets one later. */
  lemma {:induction false} LostForGood(tone: Tone, l: Ledger, more: seq<Op>, note: nat)
    requires Balanced(l) && AllLegal(more) && Lost(l, note)
    ensures var r := TrackAll(tone, l, more); Balanced(r) && Lost(r, note) && note !in r.sent
  {
    if more == [] {
      LostUnsent(l, note);
    } else {
      LostForGood(tone, l, more[..|more| - 1], note);
      var before := TrackAll(tone, l, more[..|more| - 1]);
      LostNext(tone, before, more[|more| - 1], note);
    }
  }

  lemma LostNext(tone: Tone, l: Ledger, op: Op, note: nat)
    requires Balanced(l) && Legal(op) && Lost(l, note)
    ensures var r := Track(tone, l, op); Balanced(r) && Lost(r, note) && note !in r.sent
  {
    TrackBalances(tone, l, op);
    var r := Track(tone, l, op);
    assert l.stolen <= r.stolen && l.overwritten <= r.overwritten && l.dropped <= r.dropped;
    LostUnsent(r, note);
  }

  lemma LostUnsent(l: Ledger, note: nat)
    requires Balanced(l) && Lost(l, note)
    ensures note !in l.sent
  {
    SerialsOnce(|l.notes|);
    var lost := l.stolen + l.overwritten + l.dropped;
    assert lost + multiset(l.sent) <= Serials(|l.notes|);
    assert lost[note] >= 1;
    assert lost[note] + multiset(l.sent)[note] <= Serials(|l.notes|)[note] == 1;
    assert note in multiset(l.sent) <==> note in l.sent;
  }
}

/**
 The whole process() call of src/plugins/sidechain_synth/sidechain_synth.cpp: the
 synth's block loop, then the envelope follower over the rendered block. Cutting a
 block changes no sample as long as neither parameter is left changed at the cut.
*/
module SidechainBlocks {
  import opened Voices
  import opened BlockRenderer
  import opened Sidechain

  const PARAM_AMOUNT: nat := 1

  datatype Ducker = Ducker(synth: Synth, amount: real, envelope: real)

  datatype Signals = NoSignals | Signals(left: seq<real>, right: seq<real>)

  predicate Covers(signals: Signals, frames: nat) {
    signals.Signals? ==> frames <= |signals.left| && frames <= |signals.right|
  }

  function Later(signals: Signals, n: nat): Signals
    requires Covers(signals, n)
  {
    match signals
    case NoSignals => NoSignals
    case Signals(left, right) => Signals(left[n..], right[n..])
  }

  /** handleEvent(): parameter values are stored, everything else is for the engine; there is no modulation. */
  function Handled(tone: Tone, d: Ducker, event: Event): (r: Ducker)
    requires WellFormed(d.synth.engine)
    ensures WellFormed(r.synth.engine)
  {
    if event.coreSpace && event.body.ParamValueEvent? then
      if event.body.paramId == PARAM_VOLUME then d.(synth := d.synth.(volume := event.body.value))
      else if event.body.paramId == PARAM_AMOUNT then d.(amount := event.body.value)
      else d
    else d.(synth := d.synth.(engine := Handle(tone, d.synth.engine, event)))
  }

  datatype Ducked = Ducked(ducker: Ducker, out: seq<real>)

  /** The event loop of process(). */
  function Loop(tone: Tone, d: Ducker, gain: real, events: seq<Event>, cursor: nat, frames: nat): (r: Ducked)
    requires WellFormed(d.synth.engine) && cursor <= frames
    ensures WellFormed(r.ducker.synth.engine) && |r.out| == frames - cursor
    decreases |events|
  {
    if events == [] then
      Ducked(d.(synth := Sounded(d.synth, frames - cursor)), Chunk(tone, d.synth, gain, frames - cursor))
    else if cursor < events[0].time <= frames then
      var n := events[0].time - cursor;
      var next := Handled(tone, d.(synth := Sounded(d.synth, n)), events[0]);
      var rest := Loop(tone, next, gain, events[1..], events[0].time, frames);
      Ducked(rest.ducker, Chunk(tone, d.synth, gain, n) + rest.out)
    else Loop(tone, Handled(tone, d, events[0]), gain, events[1..], cursor, frames)
  }

  /** The follower: with an input and a positive amount it scales every rendered sample. */
  function Followed(d: Ducked, signals: Signals, frames: nat): (r: Ducked)
    requires Covers(signals, frames) && |d.out| == frames
    ensures |r.out| == frames
  {
    if signals.NoSignals? || d.ducker.amount <= 0.0 then d else
    var gains := Gains(d.ducker.amount, d.ducker.envelope, signals.left, signals.right, frames);
    Ducked(d.ducker.(envelope := Envelope(d.ducker.envelope, signals.left, signals.right, frames)),
           Products(d.out, gains))
  }

  function Products(out: seq<real>, gains: seq<real>): (r: seq<real>)
    requires |out| == |gains|
    ensures |r| == |out| && forall i | 0 <= i < |r| :: r[i] == Product(out[i], gains[i])
  {
    seq(|out|, i requires 0 <= i < |out| == |gains| => Product(out[i], gains[i]))
  }

  /** What that means for each sample and for the envelope. */
  lemma FollowedMeans(d: Ducked, signals: Signals, frames: nat)
    requires Covers(signals, frames) && |d.out| == frames
    ensures var r, follows := Followed(d, signals, frames), signals.Signals? && d.ducker.amount > 0.0;
      r.ducker.synth == d.ducker.synth && r.ducker.amount == d.ducker.amount &&
      (!follows ==> r == d) &&
      (follows ==>
        r.ducker.envelope == Envelope(d.ducker.envelope, signals.left, signals.right, frames) &&
        forall i | 0 <= i < frames ::
          r.out[i] ==
            Blend(d.out[i], d.ducker.amount, Envelope(d.ducker.envelope, signals.left, signals.right, i + 1)))
  {
    hide Envelope, Blend;
    if signals.Signals? && d.ducker.amount > 0.0 {
      var amount, start, l, r := d.ducker.amount, d.ducker.envelope, signals.left, signals.right;
      var out := Followed(d, signals, frames).out;
      assert Scaled(out, d.out, Gains(amount, start, l, r, frames));
      ScaledMeans(out, d.out, amount, start, l, r, frames);
    }
  }

  /** One process() call without the NOTE_ENDs: volume is read before the events, the amount after them. */
  function Process(tone: Tone, d: Ducker, events: seq<Event>, signals: Signals, frames: nat): (r: Ducked)
    requires WellFormed(d.synth.engine) && Covers(signals, frames)
    ensures |r.out| == frames
  {
    Followed(Loop(tone, d, d.synth.volume, events, 0, frames), signals, frames)
  }

  // ---- the loop is the synth's, deaf to modulation ----

  function Deaf(event: Event): Event {
    if event.body.ParamModEvent? then event.(body := OtherEvent) else event
  }

  function Heard(events: seq<Event>): (r: seq<Event>)
    ensures |r| == |events| && forall i | 0 <= i < |r| :: r[i] == Deaf(events[i])
  {
    seq(|events|, i requires 0 <= i < |events| => Deaf(events[i]))
  }

  predicate SetsAmount(event: Event) {
    event.coreSpace && event.body.ParamValueEvent? && event.body.paramId == 1
  }

  /** The amount after some events: that of the last one that sets it. */
  function LastAmount(amount: real, events: seq<Event>): real {
    if events == [] then amount
    else if SetsAmount(events[|events| - 1]) then events[|events| - 1].body.value
    else LastAmount(amount, events[..|events| - 1])
  }

  lemma HandledIs(tone: Tone, d: Ducker, event: Event)
    requires WellFormed(d.synth.engine)
    ensures Handled(tone, d, event) ==
      Ducker(Dispatch(tone, d.synth, Deaf(event)), if SetsAmount(event) then event.body.value else d.amount, d.envelope)
  {
  }

  lemma {:induction false} LastAmountAppends(amount: real, a: seq<Event>, b: seq<Event>)
    ensures LastAmount(amount, a + b) == LastAmount(LastAmount(amount, a), b)
  {
    if b == [] {
      assert a + b == a;
    } else {
      assert (a + b)[..|a + b| - 1] == a + b[..|b| - 1];
      LastAmountAppends(amount, a, b[..|b| - 1]);
    }
  }

  lemma FirstAmount(amount: real, events: seq<Event>)
    requires events != []
    ensures LastAmount(amount, events) ==
      LastAmount(if SetsAmount(events[0]) then events[0].body.value else amount, events[1..])
  {
    assert [events[0]] + events[1..] == events && [events[0]][..0] == [];
    LastAmountAppends(amount, [events[0]], events[1..]);
  }

  /** One turn of the loop. */
  lemma LoopOne(tone: Tone, d: Ducker, gain: real, events: seq<Event>, cursor: nat, frames: nat)
    requires WellFormed(d.synth.engine) && cursor <= frames && events != []
    ensures var next := Reached(events[0], cursor, frames);
      var n := next - cursor;
      var after := Handled(tone, d.(synth := Sounded(d.synth, n)), events[0]);
      var rest := Loop(tone, after, gain, events[1..], next, frames);
      Loop(tone, d, gain, events, cursor, frames) == Ducked(rest.ducker, Chunk(tone, d.synth, gain, n) + rest.out)
  {
    hide Handled, Sounded, Chunk;
    if !(cursor < events[0].time <= frames) {
      SoundedNothing(d.synth);
      var rest := Loop(tone, d, gain, events, cursor, frames);
      assert Chunk(tone, d.synth, gain, 0) + rest.out == rest.out;
    }
  }

  /** What the loop does to the synth is the synth's block loop over the events it hears. */
  lemma {:induction false} LoopIsPerform(
    tone: Tone, d: Ducker, gain: real, events: seq<Event>, cursor: nat, frames: nat)
    requires WellFormed(d.synth.engine) && cursor <= frames
    ensures var played := Perform(tone, d.synth, gain, Heard(events), cursor, frames);
      Loop(tone, d, gain, events, cursor, frames) ==
        Ducked(Ducker(played.synth, LastAmount(d.amount, events), d.envelope), played.out)
    decreases |events|
  {
    hide *;
    if events == [] {
      LoopNothing(tone, d, gain, events, cursor, frames);
    } else {
      var next := Reached(events[0], cursor, frames);
      var before := d.(synth := Sounded(d.synth, next - cursor));
      HeardFirst(events, cursor, frames);
      LoopOne(tone, d, gain, events, cursor, frames);
      PerformOne(tone, d.synth, gain, Heard(events), cursor, frames);
      FirstAmount(d.amount, events);
      HandledIs(tone, before, events[0]);
      TurnIs(tone, d.synth, Deaf(events[0]), next - cursor);
      LoopIsPerform(tone, Handled(tone, before, events[0]), gain, events[1..], next, frames);
    }
  }

  lemma LoopNothing(tone: Tone, d: Ducker, gain: real, events: seq<Event>, cursor: nat, frames: nat)
    requires WellFormed(d.synth.engine) && cursor <= frames && events == []
    ensures var played := Perform(tone, d.synth, gain, Heard(events), cursor, frames);
      Loop(tone, d, gain, events, cursor, frames) ==
        Ducked(Ducker(played.synth, LastAmount(d.amount, events), d.envelope), played.out)
  {
    hide Sounded, Chunk;
    assert Heard(events) == [];
  }

  lemma HeardFirst(events: seq<Event>, cursor: nat, frames: nat)
    requires events != []
    ensures var heard := Heard(events);
      heard != [] && heard[0] == Deaf(events[0]) && heard[1..] == Heard(events[1..]) &&
      Reached(heard[0], cursor, frames) == Reached(events[0], cursor, frames)
  {
  }

  lemma TurnIs(tone: Tone, s: Synth, event: Event, n: nat)
    requires WellFormed(s.engine)
    ensures AfterTurn(tone, s, event, n) == Dispatch(tone, Sounded(s, n), event)
  {
  }

  // ---- cutting ----

  lemma {:induction false} GainsAdd(amount: real, start: real, l: seq<real>, r: seq<real>, a: nat, b: nat)
    requires a + b <= |l| && a + b <= |r|
    ensures Gains(amount, start, l, r, a + b) ==
      Gains(amount, start, l, r, a) + Gains(amount, Envelope(start, l, r, a), l[a..], r[a..], b)
  {
    if b > 0 {
      EnvelopeAdds(start, l, r, a, b);
      GainsAdd(amount, start, l, r, a, b - 1);
    } else {
      assert Gains(amount, start, l, r, a) + [] == Gains(amount, start, l, r, a);
    }
  }

  /** Following a block is following its parts one after the other, as long as the amount is the same. */
  lemma FollowedAdds(d: Ducker, x: seq<real>, y: seq<real>, signals: Signals)
    requires Covers(signals, |x| + |y|)
    ensures var whole, first := Followed(Ducked(d, x + y), signals, |x| + |y|), Followed(Ducked(d, x), signals, |x|);
      var second := Followed(Ducked(first.ducker, y), Later(signals, |x|), |y|);
      whole == Ducked(second.ducker, first.out + second.out)
  {
    hide Gains, Envelope, Products;
    if signals.Signals? && d.amount > 0.0 {
      var l, r, mid := signals.left, signals.right, Envelope(d.envelope, signals.left, signals.right, |x|);
      GainsAdd(d.amount, d.envelope, l, r, |x|, |y|);
      EnvelopeAdds(d.envelope, l, r, |x|, |y|);
      ProductsAdd(x, y, Gains(d.amount, d.envelope, l, r, |x|), Gains(d.amount, mid, l[|x|..], r[|x|..], |y|));
    }
  }

  lemma ProductsAdd(x: seq<real>, y: seq<real>, g: seq<real>, h: seq<real>)
    requires |x| == |g| && |y| == |h|
    ensures Products(x + y, g + h) == Products(x, g) + Products(y, h)
  {
  }

  lemma HeardInTwo(a: seq<Event>, b: seq<Event>, later: nat)
    ensures Heard(a + Shifted(b, later)) == Heard(a) + Shifted(Heard(b), later)
  {
  }

  lemma {:induction false} HeardVolume(volume: real, events: seq<Event>)
    ensures LastVolume(volume, Heard(events)) == LastVolume(volume, events)
  {
    if events != [] {
      assert Heard(events)[..|events| - 1] == Heard(events[..|events| - 1]);
      HeardVolume(volume, events[..|events| - 1]);
    }
  }

  lemma {:induction false} AmountShifts(amount: real, events: seq<Event>, later: nat)
    ensures LastAmount(amount, Shifted(events, later)) == LastAmount(amount, events)
  {
    if events != [] {
      var front := events[..|events| - 1];
      assert Shifted(events, later)[..|events| - 1] == Shifted(front, later);
      AmountShifts(amount, front, later);
    }
  }

  /** The volume is back where it was at the cut, and the later part leaves the amount as the first part left it. */
  predicate CutAllowed(d: Ducker, a: seq<Event>, b: seq<Event>, signals: Signals) {
    LastVolume(d.synth.volume, a) == d.synth.volume &&
    (signals.Signals? ==> var amount := LastAmount(d.amount, a); LastAmount(amount, b) == amount)
  }

  lemma ProcessIs(tone: Tone, d: Ducker, events: seq<Event>, signals: Signals, frames: nat)
    requires WellFormed(d.synth.engine) && Covers(signals, frames)
    ensures var played := Block(tone, d.synth, Heard(events), frames);
      Process(tone, d, events, signals, frames) ==
        Followed(Ducked(Ducker(played.synth, LastAmount(d.amount, events), d.envelope), played.out), signals, frames)
  {
    LoopIsPerform(tone, d, d.synth.volume, events, 0, frames);
  }

  /**
   Block-split invariance of the whole plugin: the samples, the envelope, the
   amount and, up to pending NOTE_ENDs, the synth are those of one longer block.
  */
  lemma ProcessSplits(
    tone: Tone, d: Ducker, a: seq<Event>, b: seq<Event>, signals: Signals, n1: nat, n2: nat)
    requires WellFormed(d.synth.engine) && Within(a, 0, n1) && Within(b, 0, n2)
    requires Covers(signals, n1 + n2) && CutAllowed(d, a, b, signals)
    ensures var whole := Process(tone, d, a + Shifted(b, n1), signals, n1 + n2);
      var first := Process(tone, d, a, signals, n1);
      var cut := first.ducker.(synth := Finished(first.ducker.synth));
      WellFormed(cut.synth.engine) &&
      var second := Process(tone, cut, b, Later(signals, n1), n2);
      whole.out == first.out + second.out && whole.ducker.envelope == second.ducker.envelope &&
      whole.ducker.amount == second.ducker.amount && SameSound(whole.ducker.synth, second.ducker.synth)
  {
    hide Block, Process, Loop, LastVolume, LastAmount, SameSound, Heard, Shifted, Gains, Envelope, Products;
    var v := d.synth.volume;
    ProcessIs(tone, d, a + Shifted(b, n1), signals, n1 + n2);
    ProcessIs(tone, d, a, signals, n1);
    var first := Process(tone, d, a, signals, n1);
    var cut := first.ducker.(synth := Finished(first.ducker.synth));
    ProcessIs(tone, cut, b, Later(signals, n1), n2);
    HeardInTwo(a, b, n1);
    HeardVolume(v, a);
    HeardWithin(a, n1);
    HeardWithin(b, n2);
    BlockSplits(tone, d.synth, Heard(a), Heard(b), n1, n2);
    LastAmountAppends(d.amount, a, Shifted(b, n1));
    AmountShifts(LastAmount(d.amount, a), b, n1);
    var x, y := Block(tone, d.synth, Heard(a), n1).out, Block(tone, cut.synth, Heard(b), n2).out;
    FollowedAdds(Ducker(d.synth, LastAmount(d.amount, a), d.envelope), x, y, signals);
  }

  lemma HeardWithin(events: seq<Event>, frames: nat)
    requires Within(events, 0, frames)
    ensures Within(Heard(events), 0, frames)
  {
  }
}

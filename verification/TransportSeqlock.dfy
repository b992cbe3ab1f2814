/**
 The transport snapshot between process() and the GUI: a sequence lock whose
 single-writer assumption is discharged by the compare-and-swap guard around
 process(). Every host thread and every reader moves one shared-memory access at
 a time, in any interleaving; fields are written and copied in any order.
*/
module TransportSeqlock {

  const UINT32: nat := 0x1_0000_0000

  function Wrapped(n: nat): nat { n % UINT32 }

  /** The fields of TransportInfo. */
  const FIELD_COUNT: nat := 12

  type Field = f: nat | f < FIELD_COUNT
  type Thread = nat

  ghost predicate IsInfo(info: seq<int>) { |info| == FIELD_COUNT }

  /** Where a host thread is in its process() call. */
  datatype Place =
    | Outside
    | Entered
    | Writing(info: seq<int>, written: set<Field>)
    | Stored

  /**
   Where a reader is in guiTransport(). `since`, `start` and `during` are history:
   the number of stores completed when the call began, all increments of the
   counter when this attempt loaded it, and those that fell into the attempt.
  */
  datatype Reader =
    | Resting
    | Trying(since: nat)
    | Copying(since: nat, start: nat, before: nat, taken: set<Field>, copy: seq<int>)
    | Returned(since: nat, info: seq<int>, during: int)

  /**
   `increments` and `stores` are history; the code holds `counter` and `data`.
   `rejected` and `overlapped` are the reports L12 and P07.
  */
  datatype State = State(
    inProcess: bool, counter: nat, data: seq<int>, threads: map<Thread, Place>, readers: map<Thread, Reader>,
    rejected: nat, overlapped: nat, increments: nat, stores: seq<seq<int>>)

  datatype Step =
    | Enter(t: Thread)
    | Leave(t: Thread)
    | Flush(t: Thread)
    | BeginStore(t: Thread, info: seq<int>)
    | WriteField(t: Thread, field: Field)
    | EndStore(t: Thread)
    | BeginRead(r: Thread)
    | LoadBefore(r: Thread)
    | CopyField(r: Thread, field: Field)
    | LoadAfter(r: Thread)

  function PlaceOf(s: State, t: Thread): Place { if t in s.threads then s.threads[t] else Outside }

  function ReaderOf(s: State, r: Thread): Reader { if r in s.readers then s.readers[r] else Resting }

  ghost predicate Complete(fields: set<Field>) { forall f: Field :: f in fields }

  const BLANK: seq<int> := [0, 0, 0, 0, 0, 0, 0, 0, 0, 0, 0, 0]

  ghost predicate Enabled(s: State, step: Step) {
    match step
    case Enter(t) => PlaceOf(s, t).Outside?
    case Flush(t) => PlaceOf(s, t).Outside?
    case Leave(t) => PlaceOf(s, t).Entered? || PlaceOf(s, t).Stored?
    case BeginStore(t, info) => PlaceOf(s, t).Entered? && IsInfo(info)
    case WriteField(t, field) => PlaceOf(s, t).Writing? && field !in PlaceOf(s, t).written
    case EndStore(t) => PlaceOf(s, t).Writing? && Complete(PlaceOf(s, t).written)
    case BeginRead(r) => ReaderOf(s, r).Resting? || ReaderOf(s, r).Returned?
    case LoadBefore(r) => ReaderOf(s, r).Trying?
    case CopyField(r, field) => ReaderOf(s, r).Copying? && field !in ReaderOf(s, r).taken
    case LoadAfter(r) => ReaderOf(s, r).Copying? && Complete(ReaderOf(s, r).taken)
  }

  ghost predicate Shaped(s: State) {
    IsInfo(s.data) && s.stores != [] && (forall i | 0 <= i < |s.stores| :: IsInfo(s.stores[i])) &&
    (forall t | t in s.threads && s.threads[t].Writing? :: IsInfo(s.threads[t].info)) &&
    (forall r | r in s.readers && s.readers[r].Copying? :: IsInfo(s.readers[r].copy))
  }

  function Moved(s: State, t: Thread, place: Place): State { s.(threads := s.threads[t := place]) }

  function Reading(s: State, r: Thread, reader: Reader): State { s.(readers := s.readers[r := reader]) }

  /** A step that is not enabled leaves everything as it is. */
  ghost function Next(s: State, step: Step): (n: State)
    requires Shaped(s)
    ensures Shaped(n)
  {
    if !Enabled(s, step) then s else
    match step
    case Enter(t) => if s.inProcess then s.(rejected := s.rejected + 1) else Moved(s, t, Entered).(inProcess := true)
    case Leave(t) => Moved(s, t, Outside).(inProcess := false)
    case Flush(t) => if s.inProcess then s.(overlapped := s.overlapped + 1) else s
    case BeginStore(t, info) =>
      Moved(s, t, Writing(info, {})).(counter := Wrapped(s.counter + 1), increments := s.increments + 1)
    case WriteField(t, field) =>
      var place := PlaceOf(s, t);
      Moved(s, t, Writing(place.info, place.written + {field})).(data := s.data[field := place.info[field]])
    case EndStore(t) =>
      Moved(s, t, Stored).(
        counter := Wrapped(s.counter + 1), increments := s.increments + 1,
        stores := s.stores + [PlaceOf(s, t).info])
    case BeginRead(r) => Reading(s, r, Trying(|s.stores|))
    case LoadBefore(r) => Reading(s, r, Copying(ReaderOf(s, r).since, s.increments, s.counter, {}, BLANK))
    case CopyField(r, field) =>
      var reader := ReaderOf(s, r);
      Reading(s, r, reader.(taken := reader.taken + {field}, copy := reader.copy[field := s.data[field]]))
    case LoadAfter(r) =>
      var reader := ReaderOf(s, r);
      Reading(s, r, if Agrees(reader, s.counter)
                    then Returned(reader.since, reader.copy, s.increments - reader.start)
                    else Trying(reader.since))
  }

  /** The loop condition of guiTransport(). */
  predicate Agrees(reader: Reader, after: nat)
    requires reader.Copying?
  {
    reader.before == after && reader.before % 2 == 0
  }

  function Start(info: seq<int>): State { State(false, 0, info, map[], map[], 0, 0, 0, [info]) }

  ghost function After(s: State, steps: seq<Step>): (n: State)
    requires Shaped(s)
    ensures Shaped(n)
  {
    if steps == [] then s else Next(After(s, steps[..|steps| - 1]), steps[|steps| - 1])
  }

  ghost function Run(info: seq<int>, steps: seq<Step>): (s: State)
    requires IsInfo(info)
    ensures Shaped(s)
  {
    After(Start(info), steps)
  }

  // ---- one writer ----

  ghost predicate InGuard(s: State, t: Thread) { !PlaceOf(s, t).Outside? }

  /** The guard lets one thread through at a time. */
  ghost predicate Guarded(s: State) {
    (forall t, u | InGuard(s, t) && InGuard(s, u) :: t == u) &&
    (s.inProcess <==> exists t :: InGuard(s, t))
  }

  ghost predicate NobodyWrites(s: State) { forall t :: !PlaceOf(s, t).Writing? }

  /** What the shared fields hold at every instant. */
  ghost predicate WriterRight(s: State)
    requires Shaped(s)
  {
    var last := s.stores[|s.stores| - 1];
    (NobodyWrites(s) ==> s.increments == 2 * (|s.stores| - 1) && s.data == last) &&
    (forall t | PlaceOf(s, t).Writing? ::
      s.increments == 2 * (|s.stores| - 1) + 1 &&
      forall f: Field :: s.data[f] == if f in PlaceOf(s, t).written then PlaceOf(s, t).info[f] else last[f])
  }

  /** A snapshot that was complete no earlier than the n-th store. */
  ghost predicate StoredSince(s: State, info: seq<int>, n: int) {
    exists k | 0 <= k < |s.stores| :: n - 1 <= k && s.stores[k] == info
  }

  /**
   What an attempt knows: if nothing was stored since it began, it has copied the
   current fields. What a reader has returned was stored, unless the counter came round.
  */
  ghost predicate ReaderRight(s: State, r: Thread)
    requires Shaped(s)
  {
    var reader := ReaderOf(s, r);
    (reader.Trying? ==> 1 <= reader.since <= |s.stores|) &&
    (reader.Copying? ==>
      1 <= reader.since <= |s.stores| && reader.start <= s.increments && reader.before == Wrapped(reader.start) &&
      (reader.start == s.increments && reader.start % 2 == 0 ==>
        forall f | f in reader.taken :: reader.copy[f] == s.data[f])) &&
    (reader.Returned? ==>
      reader.during >= 0 && Wrapped(reader.during) == 0 &&
      (reader.during < UINT32 ==> StoredSince(s, reader.info, reader.since)))
  }

  ghost predicate Inv(s: State) {
    Shaped(s) && Guarded(s) && WriterRight(s) && s.counter == Wrapped(s.increments) &&
    forall r :: ReaderRight(s, r)
  }

  lemma GuardedNext(s: State, step: Step)
    requires Shaped(s) && Guarded(s)
    ensures Guarded(Next(s, step))
  {
    hide Shaped, Complete;
    var n := Next(s, step);
    if Enabled(s, step) && (step.Enter? || step.Leave?) {
      var t := step.t;
      assert forall u | u != t :: PlaceOf(n, u) == PlaceOf(s, u);
      if step.Enter? && !s.inProcess {
        assert InGuard(n, t);
        forall u | u != t ensures !InGuard(n, u) {
          assert !InGuard(s, u);
        }
      } else if step.Leave? {
        assert InGuard(s, t) && !InGuard(n, t);
        forall u ensures !InGuard(n, u) {
          assert u != t ==> !InGuard(s, u);
        }
      } else {
        assert forall u :: InGuard(n, u) <==> InGuard(s, u);
      }
    } else {
      if Enabled(s, step) && (step.BeginStore? || step.WriteField? || step.EndStore?) {
        assert InGuard(s, step.t) && InGuard(n, step.t);
        assert forall u | u != step.t :: PlaceOf(n, u) == PlaceOf(s, u);
      } else {
        assert n.threads == s.threads;
      }
      assert forall u :: InGuard(n, u) <==> InGuard(s, u);
    }
  }

  /** While a thread is inside, or nobody is, nobody else writes. */
  lemma OnlyOne(s: State, t: Thread)
    requires Guarded(s) && InGuard(s, t)
    ensures forall u | u != t :: !PlaceOf(s, u).Writing?
  {
    forall u | u != t ensures !PlaceOf(s, u).Writing? {
      assert InGuard(s, u) ==> u == t;
    }
  }

  lemma WriterNext(s: State, step: Step)
    requires Inv(s)
    ensures WriterRight(Next(s, step))
  {
    hide Complete;
    var n := Next(s, step);
    if !Enabled(s, step) {
    } else if step.BeginStore? {
      StoreBegins(s, step.t, step.info);
    } else if step.WriteField? {
      StoreGoesOn(s, step.t, step.field);
    } else if step.EndStore? {
      StoreEnds(s, step.t);
    } else {
      assert forall u ::
        PlaceOf(n, u) == PlaceOf(s, u) || (!PlaceOf(s, u).Writing? && !PlaceOf(n, u).Writing?);
    }
  }

  lemma StoreBegins(s: State, t: Thread, info: seq<int>)
    requires Inv(s) && Enabled(s, BeginStore(t, info))
    ensures WriterRight(Next(s, BeginStore(t, info)))
  {
    var n := Next(s, BeginStore(t, info));
    OnlyOne(s, t);
    assert NobodyWrites(s);
    assert PlaceOf(n, t).Writing?;
    assert forall u | u != t :: PlaceOf(n, u) == PlaceOf(s, u);
  }

  lemma StoreGoesOn(s: State, t: Thread, field: Field)
    requires Inv(s) && Enabled(s, WriteField(t, field))
    ensures WriterRight(Next(s, WriteField(t, field)))
  {
    var n := Next(s, WriteField(t, field));
    OnlyOne(s, t);
    assert PlaceOf(n, t).Writing?;
    assert forall u | u != t :: PlaceOf(n, u) == PlaceOf(s, u);
  }

  lemma StoreEnds(s: State, t: Thread)
    requires Inv(s) && Enabled(s, EndStore(t))
    ensures WriterRight(Next(s, EndStore(t)))
  {
    var info, n := PlaceOf(s, t).info, Next(s, EndStore(t));
    OnlyOne(s, t);
    forall i | 0 <= i < FIELD_COUNT ensures s.data[i] == info[i] {
      var f: Field := i;
      assert f in PlaceOf(s, t).written;
    }
    assert s.data == info;
    assert forall u | u != t :: PlaceOf(n, u) == PlaceOf(s, u);
    assert forall u :: !PlaceOf(n, u).Writing?;
  }

  lemma ReaderNext(s: State, step: Step, r: Thread)
    requires Inv(s)
    ensures ReaderRight(Next(s, step), r)
  {
    var n := Next(s, step);
    assert ReaderRight(s, r);
    if !Enabled(s, step) {
    } else if step.LoadAfter? && r == step.r {
      AttemptEnds(s, r);
    } else {
      KeptStores(s, step, r);
      hide StoredSince;
      if step.WriteField? {
        assert PlaceOf(s, step.t).Writing? && s.increments % 2 == 1;
      } else if step.CopyField? || step.LoadBefore? || step.LoadAfter? || step.BeginRead? {
        assert r != step.r ==> ReaderOf(n, r) == ReaderOf(s, r);
      }
    }
  }

  /** Stores are only ever added. */
  lemma KeptStores(s: State, step: Step, r: Thread)
    requires Shaped(s)
    ensures var reader := ReaderOf(s, r);
      reader.Returned? && StoredSince(s, reader.info, reader.since) ==>
        StoredSince(Next(s, step), reader.info, reader.since)
  {
    var reader, n := ReaderOf(s, r), Next(s, step);
    assert |s.stores| <= |n.stores| && n.stores[..|s.stores|] == s.stores;
    if reader.Returned? && StoredSince(s, reader.info, reader.since) {
      var k :| 0 <= k < |s.stores| && reader.since - 1 <= k && s.stores[k] == reader.info;
      assert n.stores[k] == reader.info;
    }
  }

  /** The end of an attempt: what it returns, if it returns. */
  lemma AttemptEnds(s: State, r: Thread)
    requires Inv(s) && Enabled(s, LoadAfter(r))
    ensures var reader, after := ReaderOf(s, r), ReaderOf(Next(s, LoadAfter(r)), r);
      var during := s.increments - reader.start;
      during >= 0 && (after.Returned? <==> reader.start % 2 == 0 && Wrapped(during) == 0) &&
      (after.Returned? ==> after == Returned(reader.since, reader.copy, during)) &&
      (after.Returned? && during < UINT32 ==> after.info == s.stores[|s.stores| - 1]) &&
      (!after.Returned? ==> after == Trying(reader.since))
    ensures ReaderRight(Next(s, LoadAfter(r)), r)
  {
    hide Wrapped, WriterRight, Guarded;
    var reader := ReaderOf(s, r);
    assert ReaderRight(s, r);
    var during := s.increments - reader.start;
    SameCounterIff(reader.start, during);
    EvenCounter(reader.start);
    if Agrees(reader, s.counter) && during < UINT32 {
      NewestRead(s, r);
    }
  }

  lemma ShapedNext(s: State, step: Step)
    requires Shaped(s) && s.counter == Wrapped(s.increments)
    ensures var n := Next(s, step); Shaped(n) && n.counter == Wrapped(n.increments)
  {
  }

  lemma InvNext(s: State, step: Step)
    requires Inv(s)
    ensures Inv(Next(s, step))
  {
    hide Next, Guarded, WriterRight, ReaderRight, Complete;
    ShapedNext(s, step);
    GuardedNext(s, step);
    WriterNext(s, step);
    forall r ensures ReaderRight(Next(s, step), r) {
      ReaderNext(s, step, r);
    }
  }

  lemma {:induction false} InvAlways(info: seq<int>, steps: seq<Step>)
    requires IsInfo(info)
    ensures Inv(Run(info, steps))
  {
    hide Next;
    if steps != [] {
      InvAlways(info, steps[..|steps| - 1]);
      InvNext(Run(info, steps[..|steps| - 1]), steps[|steps| - 1]);
    }
  }

  // ---- the promises ----

  /** However many host threads call process(), at most one is past the guard, so there is one writer. */
  lemma SingleWriter(info: seq<int>, steps: seq<Step>, t: Thread, u: Thread)
    requires IsInfo(info)
    requires InGuard(Run(info, steps), t) && InGuard(Run(info, steps), u)
    ensures t == u
  {
    hide Run;
    InvAlways(info, steps);
  }

  /** The step is refused or reported because of another call: an entry that finds the guard taken, or a flush. */
  ghost predicate Collides(s: State, step: Step) {
    (step.Enter? || step.Flush?) && PlaceOf(s, step.t).Outside? && exists u :: u != step.t && InGuard(s, u)
  }

  /** Entries that find somebody inside, and flushes that do. */
  ghost function Collisions(info: seq<int>, steps: seq<Step>, flushes: bool): nat
    requires IsInfo(info)
  {
    if steps == [] then 0 else
    var front, last := steps[..|steps| - 1], steps[|steps| - 1];
    Collisions(info, front, flushes) + if Collides(Run(info, front), last) && last.Flush? == flushes then 1 else 0
  }

  lemma CollisionNext(s: State, step: Step)
    requires Inv(s)
    ensures var n := Next(s, step);
      n.rejected == s.rejected + (if Collides(s, step) && step.Enter? then 1 else 0) &&
      n.overlapped == s.overlapped + (if Collides(s, step) && step.Flush? then 1 else 0)
  {
    hide Shaped, WriterRight, ReaderRight, Complete;
    if step.Enter? || step.Flush? {
      assert Enabled(s, step) && s.inProcess ==> Collides(s, step) by {
        if Enabled(s, step) && s.inProcess {
          var u :| InGuard(s, u);
          assert u != step.t;
        }
      }
    }
  }

  /**
   In every interleaving, L12 has been reported once for each process() call that
   found another thread inside at that moment, and P07 once for each such flush.
  */
  lemma {:induction false} ReportsAreCollisions(info: seq<int>, steps: seq<Step>)
    requires IsInfo(info)
    ensures Run(info, steps).rejected == Collisions(info, steps, false)
    ensures Run(info, steps).overlapped == Collisions(info, steps, true)
  {
    hide Next, Collides;
    if steps != [] {
      var front, last := steps[..|steps| - 1], steps[|steps| - 1];
      ReportsAreCollisions(info, front);
      InvAlways(info, front);
      CollisionNext(Run(info, front), last);
      CollidersOnly(Run(info, front), last);
    }
  }

  lemma CollidersOnly(s: State, step: Step)
    ensures Collides(s, step) ==> step.Enter? || step.Flush?
  {
  }

  /**
   An attempt that has copied every field returns if and only if it began at an
   even value and a multiple of 2^32 increments, usually none, fell into it. With
   fewer than 2^32 it returns the newest complete snapshot.
  */
  lemma ReturnsIff(info: seq<int>, steps: seq<Step>, r: Thread)
    requires IsInfo(info)
    requires ReaderOf(Run(info, steps), r).Copying? && Complete(ReaderOf(Run(info, steps), r).taken)
    ensures var s, after := Run(info, steps), ReaderOf(Run(info, steps + [LoadAfter(r)]), r);
      var start, during := ReaderOf(s, r).start, s.increments - ReaderOf(s, r).start;
      during >= 0 && (after.Returned? <==> start % 2 == 0 && during % UINT32 == 0) &&
      (after.Returned? && during < UINT32 ==> after.info == s.stores[|s.stores| - 1])
  {
    hide After, Next;
    InvAlways(info, steps);
    var s := Run(info, steps);
    assert ReaderRight(s, r);
    AttemptEnds(s, r);
    assert (steps + [LoadAfter(r)])[..|steps|] == steps;
    RunOne(info, steps, LoadAfter(r));
  }

  lemma RunOne(info: seq<int>, steps: seq<Step>, step: Step)
    requires IsInfo(info)
    ensures Run(info, steps + [step]) == Next(Run(info, steps), step)
  {
    hide Next;
    assert (steps + [step])[..|steps|] == steps;
  }

  /**
   Whatever guiTransport() has returned is one complete stored snapshot, and no
   older than the newest one that was complete when the call began, provided fewer
   than 2^32 increments fell between the two loads of its last attempt.
  */
  lemma ReadsAreAtomic(info: seq<int>, steps: seq<Step>, r: Thread)
    requires IsInfo(info) && ReaderOf(Run(info, steps), r).Returned?
    ensures var s, reader := Run(info, steps), ReaderOf(Run(info, steps), r);
      reader.during >= 0 && reader.during % UINT32 == 0 &&
      (reader.during < UINT32 ==>
        exists k | 0 <= k < |s.stores| :: reader.since - 1 <= k && s.stores[k] == reader.info)
  {
    hide Run;
    InvAlways(info, steps);
    assert ReaderRight(Run(info, steps), r);
  }

  predicate NoNewCall(steps: seq<Step>, r: Thread) {
    forall i | 0 <= i < |steps| :: steps[i].BeginRead? ==> steps[i].r != r
  }

  lemma SinceNext(s: State, step: Step, r: Thread)
    requires Shaped(s) && NoNewCall([step], r) && !ReaderOf(s, r).Resting?
    ensures var n := Next(s, step);
      !ReaderOf(n, r).Resting? && ReaderOf(n, r).since == ReaderOf(s, r).since
  {
    hide Shaped, Complete;
    assert [step][0] == step;
  }

  lemma {:induction false} SinceKept(s: State, steps: seq<Step>, r: Thread)
    requires Shaped(s) && NoNewCall(steps, r) && !ReaderOf(s, r).Resting?
    ensures var n := After(s, steps); !ReaderOf(n, r).Resting? && ReaderOf(n, r).since == ReaderOf(s, r).since
  {
    hide Shaped, Next;
    if steps != [] {
      var last := steps[|steps| - 1];
      assert [last][0] == last;
      SinceKept(s, steps[..|steps| - 1], r);
      SinceNext(After(s, steps[..|steps| - 1]), last, r);
    }
  }

  /**
   Freshness over the whole call: what a call of guiTransport() that begins after
   some steps returns is no older than the newest snapshot complete at that moment.
  */
  lemma ReadsAreFresh(info: seq<int>, before: seq<Step>, after: seq<Step>, r: Thread)
    requires IsInfo(info) && Enabled(Run(info, before), BeginRead(r)) && NoNewCall(after, r)
    requires var reader := ReaderOf(Run(info, before + [BeginRead(r)] + after), r);
      reader.Returned? && reader.during < UINT32
    ensures var s, n := Run(info, before), Run(info, before + [BeginRead(r)] + after);
      exists k | 0 <= k < |n.stores| :: |s.stores| - 1 <= k && n.stores[k] == ReaderOf(n, r).info
  {
    var s, n := Run(info, before), Run(info, before + [BeginRead(r)] + after);
    var begun := Next(s, BeginRead(r));
    assert ReaderOf(begun, r) == Trying(|s.stores|);
    RunOne(info, before, BeginRead(r));
    AfterAppends(Start(info), before + [BeginRead(r)], after);
    hide After, Next;
    SinceKept(begun, after, r);
    ReadsAreAtomic(info, before + [BeginRead(r)] + after, r);
  }

  lemma NewestRead(s: State, r: Thread)
    requires Inv(s) && Enabled(s, LoadAfter(r))
    requires ReaderOf(s, r).start == s.increments && s.increments % 2 == 0
    ensures ReaderOf(s, r).copy == s.stores[|s.stores| - 1]
  {
    var reader := ReaderOf(s, r);
    assert ReaderRight(s, r);
    assert NobodyWrites(s) by {
      forall t ensures !PlaceOf(s, t).Writing? {
        if PlaceOf(s, t).Writing? {
          assert false;
        }
      }
    }
    forall i | 0 <= i < FIELD_COUNT ensures reader.copy[i] == s.data[i] {
      var f: Field := i;
      assert f in reader.taken;
    }
    assert reader.copy == s.data;
  }

  lemma SameCounterIff(a: nat, k: nat)
    ensures Wrapped(a + k) == Wrapped(a) <==> Wrapped(k) == 0
    ensures Wrapped(k) == 0 && k < UINT32 ==> k == 0
  {
    if Wrapped(a + k) == Wrapped(a) {
      SameCounter(a, k);
    }
    if Wrapped(k) == 0 {
      assert k == k / UINT32 * UINT32;
      AddRounds(a, k / UINT32);
    }
  }

  lemma {:induction false} AddRounds(a: nat, m: nat)
    ensures Wrapped(a + m * UINT32) == Wrapped(a)
  {
    if m > 0 {
      AddRounds(a, m - 1);
      assert a + m * UINT32 == a + (m - 1) * UINT32 + UINT32;
    }
  }

  lemma SameCounter(a: nat, k: nat)
    requires Wrapped(a + k) == Wrapped(a)
    ensures Wrapped(k) == 0 && (k < UINT32 ==> k == 0)
  {
    var q, r := a / UINT32, a % UINT32;
    assert a == q * UINT32 + r;
    var q', r' := (a + k) / UINT32, (a + k) % UINT32;
    assert a + k == q' * UINT32 + r';
    assert k == (q' - q) * UINT32;
    MultipleWraps(q' - q);
  }

  lemma {:induction false} MultipleWraps(m: int)
    requires m * UINT32 >= 0
    ensures m >= 0 && Wrapped(m * UINT32) == 0 && (m * UINT32 < UINT32 ==> m == 0)
    decreases if m >= 0 then m else 0
  {
    if m > 0 {
      MultipleWraps(m - 1);
      assert m * UINT32 == (m - 1) * UINT32 + UINT32;
    }
  }

  lemma EvenCounter(a: nat)
    ensures Wrapped(a) % 2 == a % 2
  {
  }

  // ---- why the counter must not come round ----

  lemma {:induction false} AfterAppends(s: State, a: seq<Step>, b: seq<Step>)
    requires Shaped(s)
    ensures After(s, a + b) == After(After(s, a), b)
  {
    hide Next;
    if b == [] {
      assert a + b == a;
    } else {
      assert (a + b)[..|a + b| - 1] == a + b[..|b| - 1];
      AfterAppends(s, a, b[..|b| - 1]);
    }
  }

  lemma AfterOne(s: State, steps: seq<Step>, step: Step)
    requires Shaped(s)
    ensures After(s, steps + [step]) == Next(After(s, steps), step)
    ensures After(s, [step]) == Next(s, step)
  {
    hide Next;
    assert (steps + [step])[..|steps|] == steps && [step][..0] == [];
  }

  function Below(k: nat): (fields: set<Field>)
    requires k <= FIELD_COUNT
    ensures forall f: Field :: f in fields <==> f < k
  {
    if k == 0 then {} else Below(k - 1) + {k - 1}
  }

  lemma Spliced(info: seq<int>, data: seq<int>, k: nat)
    requires IsInfo(info) && IsInfo(data) && 0 < k <= FIELD_COUNT
    ensures (info[..k - 1] + data[k - 1..])[k - 1 := info[k - 1]] == info[..k] + data[k..]
  {
  }

  lemma DataShaped(s: State)
    requires Shaped(s)
    ensures IsInfo(s.data)
  {
  }

  lemma CopyShaped(s: State, r: Thread)
    requires Shaped(s) && ReaderOf(s, r).Copying?
    ensures IsInfo(ReaderOf(s, r).copy)
  {
  }

  function Writes(k: nat): seq<Step>
    requires k <= FIELD_COUNT
  {
    if k == 0 then [] else Writes(k - 1) + [WriteField(0, k - 1)]
  }

  lemma {:induction false} WritesDone(s: State, info: seq<int>, k: nat)
    requires Shaped(s) && IsInfo(info) && PlaceOf(s, 0) == Writing(info, {}) && k <= FIELD_COUNT
    ensures var m := After(s, Writes(k));
      m == s.(data := info[..k] + s.data[k..], threads := m.threads) && PlaceOf(m, 0) == Writing(info, Below(k))
  {
    hide Next, Shaped, PlaceOf, Below;
    DataShaped(s);
    if k == 0 {
      assert info[..0] + s.data[0..] == s.data;
    } else {
      WritesDone(s, info, k - 1);
      var m := After(s, Writes(k - 1));
      DataShaped(m);
      AfterOne(s, Writes(k - 1), WriteField(0, k - 1));
      WriteDone(m, info, k - 1);
      Spliced(info, s.data, k);
    }
  }

  lemma WriteDone(s: State, info: seq<int>, k: Field)
    requires Shaped(s) && IsInfo(info) && PlaceOf(s, 0) == Writing(info, Below(k))
    ensures var n := Next(s, WriteField(0, k));
      n == s.(data := s.data[k := info[k]], threads := n.threads) && PlaceOf(n, 0) == Writing(info, Below(k + 1))
  {
  }

  function StoreSteps(info: seq<int>): seq<Step> {
    [Enter(0)] + [BeginStore(0, info)] + Writes(FIELD_COUNT) + [EndStore(0)] + [Leave(0)]
  }

  lemma StoreStarts(s: State, info: seq<int>)
    requires Shaped(s) && IsInfo(info) && !s.inProcess && PlaceOf(s, 0).Outside?
    ensures var n := Next(Next(s, Enter(0)), BeginStore(0, info));
      n == s.(inProcess := true, counter := Wrapped(s.counter + 1), increments := s.increments + 1,
              threads := n.threads) &&
      PlaceOf(n, 0) == Writing(info, {})
  {
    hide Shaped, Wrapped;
  }

  lemma StoreFinishes(s: State, info: seq<int>)
    requires Shaped(s) && IsInfo(info) && PlaceOf(s, 0) == Writing(info, Below(FIELD_COUNT))
    ensures var n := Next(Next(s, EndStore(0)), Leave(0));
      n == s.(inProcess := false, counter := Wrapped(s.counter + 1), increments := s.increments + 1,
              threads := n.threads, stores := s.stores + [info]) &&
      PlaceOf(n, 0).Outside?
  {
    hide Shaped, Wrapped;
  }

  lemma OneStore(s: State, info: seq<int>)
    requires Shaped(s) && IsInfo(info) && !s.inProcess && PlaceOf(s, 0).Outside?
    ensures var n := After(s, StoreSteps(info));
      !n.inProcess && PlaceOf(n, 0).Outside? && n.readers == s.readers && n.data == info &&
      n.counter == Wrapped(Wrapped(s.counter + 1) + 1) && n.increments == s.increments + 2 &&
      n.stores == s.stores + [info]
  {
    hide After, Next, Wrapped, Shaped, PlaceOf;
    var start := [Enter(0)] + [BeginStore(0, info)];
    AfterOne(s, [Enter(0)], BeginStore(0, info));
    AfterOne(s, [], Enter(0));
    StoreStarts(s, info);
    var b := After(s, start);
    DataShaped(b);
    AfterAppends(s, start, Writes(FIELD_COUNT));
    WritesDone(b, info, FIELD_COUNT);
    assert info[..FIELD_COUNT] + b.data[FIELD_COUNT..] == info;
    AfterOne(s, start + Writes(FIELD_COUNT), EndStore(0));
    AfterOne(s, start + Writes(FIELD_COUNT) + [EndStore(0)], Leave(0));
    StoreFinishes(After(b, Writes(FIELD_COUNT)), info);
  }

  function ManySteps(info: seq<int>, n: nat): seq<Step> {
    if n == 0 then [] else ManySteps(info, n - 1) + StoreSteps(info)
  }

  lemma {:induction false} ManyStores(s: State, info: seq<int>, n: nat)
    requires Shaped(s) && IsInfo(info) && !s.inProcess && PlaceOf(s, 0).Outside? && s.counter < UINT32
    ensures var m := After(s, ManySteps(info, n));
      !m.inProcess && PlaceOf(m, 0).Outside? && m.readers == s.readers && (n > 0 ==> m.data == info) &&
      m.counter == Wrapped(s.counter + 2 * n) && m.increments == s.increments + 2 * n &&
      forall i | i in m.stores :: i in s.stores || i == info
  {
    hide Next, Shaped, StoreSteps;
    if n > 0 {
      ManyStores(s, info, n - 1);
      var m := After(s, ManySteps(info, n - 1));
      AfterAppends(s, ManySteps(info, n - 1), StoreSteps(info));
      OneStore(m, info);
      WrappedTwice(s.counter + 2 * n - 2);
    }
  }

  lemma WrappedTwice(n: nat)
    ensures Wrapped(Wrapped(Wrapped(n) + 1) + 1) == Wrapped(n + 2)
  {
    WrappedNext(n);
    WrappedNext(n + 1);
  }

  lemma WrappedNext(n: nat)
    ensures Wrapped(Wrapped(n) + 1) == Wrapped(n + 1)
  {
    var q, r := n / UINT32, n % UINT32;
    assert n == q * UINT32 + r;
    if r + 1 == UINT32 {
      assert n + 1 == (q + 1) * UINT32 + 0;
    } else {
      assert n + 1 == q * UINT32 + (r + 1);
    }
  }

  function Copies(lo: nat, hi: nat): seq<Step>
    requires lo <= hi <= FIELD_COUNT
  {
    if lo == hi then [] else Copies(lo, hi - 1) + [CopyField(0, hi - 1)]
  }

  lemma {:induction false} CopiesDone(s: State, lo: nat, hi: nat)
    requires Shaped(s) && lo <= hi <= FIELD_COUNT && ReaderOf(s, 0).Copying? && ReaderOf(s, 0).taken == Below(lo)
    ensures var n, reader := After(s, Copies(lo, hi)), ReaderOf(s, 0);
      n == s.(readers := n.readers) && IsInfo(reader.copy) &&
      ReaderOf(n, 0) == reader.(taken := Below(hi), copy := reader.copy[..lo] + s.data[lo..hi] + reader.copy[hi..])
  {
    hide Next, Below, Shaped, ReaderOf, After;
    var reader := ReaderOf(s, 0);
    DataShaped(s);
    CopyShaped(s, 0);
    if lo == hi {
      AfterNothing(s);
      assert reader.copy[..lo] + s.data[lo..hi] + reader.copy[hi..] == reader.copy;
    } else {
      CopiesDone(s, lo, hi - 1);
      var m := After(s, Copies(lo, hi - 1));
      AfterOne(s, Copies(lo, hi - 1), CopyField(0, hi - 1));
      CopyDone(m, hi - 1);
      CopyShaped(m, 0);
      Patched(reader.copy, s.data, lo, hi);
    }
  }

  lemma Patched(copy: seq<int>, data: seq<int>, lo: nat, hi: nat)
    requires IsInfo(copy) && IsInfo(data) && lo < hi <= FIELD_COUNT
    ensures (copy[..lo] + data[lo..hi - 1] + copy[hi - 1..])[hi - 1 := data[hi - 1]] ==
      copy[..lo] + data[lo..hi] + copy[hi..]
  {
  }

  lemma AfterNothing(s: State)
    requires Shaped(s)
    ensures After(s, []) == s
  {
  }

  lemma CopyDone(s: State, k: Field)
    requires Shaped(s) && ReaderOf(s, 0).Copying? && ReaderOf(s, 0).taken == Below(k)
    ensures var n, reader := Next(s, CopyField(0, k)), ReaderOf(s, 0);
      n == s.(readers := n.readers) && IsInfo(reader.copy) &&
      ReaderOf(n, 0) == reader.(taken := Below(k + 1), copy := reader.copy[k := s.data[k]])
  {
  }

  const ONES: seq<int> := [1, 1, 1, 1, 1, 1, 1, 1, 1, 1, 1, 1]

  /** Half a read, m * 2^31 stores, and the other half. */
  function TornSteps(m: nat): seq<Step> {
    [BeginRead(0)] + [LoadBefore(0)] + Copies(0, 6) + ManySteps(ONES, m * (UINT32 / 2)) + Copies(6, FIELD_COUNT)
  }

  /** An attempt that has loaded the counter and copied half of the fields. */
  lemma HalfRead()
    ensures Shaped(Start(BLANK))
    ensures var s := After(Start(BLANK), [BeginRead(0)] + [LoadBefore(0)] + Copies(0, 6));
      !s.inProcess && PlaceOf(s, 0).Outside? && s.counter == 0 == s.increments && s.stores == [BLANK] &&
      ReaderOf(s, 0) == Copying(1, 0, 0, Below(6), BLANK)
  {
    hide After, Copies;
    var s0 := Start(BLANK);
    AfterOne(s0, [], BeginRead(0));
    AfterOne(s0, [BeginRead(0)], LoadBefore(0));
    AfterAppends(s0, [BeginRead(0)] + [LoadBefore(0)], Copies(0, 6));
    CopiesDone(After(s0, [BeginRead(0)] + [LoadBefore(0)]), 0, 6);
    assert BLANK[..0] + BLANK[0..6] + BLANK[6..] == BLANK;
  }

  /** For every m > 0, some attempt during which the counter goes round m times returns a mix that was never stored. */
  lemma TornWhenCounterComesRound(m: nat)
    requires m > 0
    ensures var s := Run(BLANK, TornSteps(m) + [LoadAfter(0)]);
      var reader := ReaderOf(s, 0);
      reader.Returned? && reader.during == m * UINT32 && reader.info !in s.stores
  {
    hide After, ManySteps, Copies, Shaped, Wrapped;
    var s0, half := Start(BLANK), [BeginRead(0)] + [LoadBefore(0)] + Copies(0, 6);
    var stores := m * (UINT32 / 2);
    var many, rest := ManySteps(ONES, stores), Copies(6, FIELD_COUNT);
    HalfRead();
    AfterAppends(s0, half, many);
    AfterAppends(s0, half + many, rest);
    ManyStores(After(s0, half), ONES, stores);
    CopiesDone(After(s0, half + many), 6, FIELD_COUNT);
    MultipleWraps(m);
    assert 2 * stores == m * UINT32;
    NeverStored(After(s0, half + many).stores, ReaderOf(After(s0, half + many + rest), 0).copy);
    ReturnsMix(m);
  }

  lemma ReturnsMix(m: nat)
    requires ReaderOf(Run(BLANK, TornSteps(m)), 0).Copying? && Complete(ReaderOf(Run(BLANK, TornSteps(m)), 0).taken)
    requires ReaderOf(Run(BLANK, TornSteps(m)), 0).start == 0
    requires Run(BLANK, TornSteps(m)).increments == m * UINT32
    ensures var s, n := Run(BLANK, TornSteps(m)), Run(BLANK, TornSteps(m) + [LoadAfter(0)]);
      n.stores == s.stores && ReaderOf(n, 0) == Returned(ReaderOf(s, 0).since, ReaderOf(s, 0).copy, m * UINT32)
  {
    hide Run, TornSteps, Wrapped;
    InvAlways(BLANK, TornSteps(m));
    RunOne(BLANK, TornSteps(m), LoadAfter(0));
    AttemptEnds(Run(BLANK, TornSteps(m)), 0);
    MultipleWraps(m);
  }

  lemma NeverStored(stores: seq<seq<int>>, copy: seq<int>)
    requires forall i | i in stores :: i == BLANK || i == ONES
    requires copy == BLANK[..6] + ONES[6..FIELD_COUNT] + BLANK[FIELD_COUNT..]
    ensures copy !in stores
  {
    assert copy[0] == 0 && copy[6] == 1;
  }
}

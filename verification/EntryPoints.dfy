/**
 The entry point of the shared library: init(), deinit() and the other exported
 symbols, which check on each other with three counters (src/entry.cpp).
*/
module EntryPoints {

  datatype Code = E01 | E02 | E03 | E04

  // ---- one call at a time ----

  datatype EntryCall = InitCall | DeinitCall | SymbolCall

  class Entry {
    var initCount: int
    var entryDepth: int
    var otherDepth: int
    var reports: seq<Code>

    constructor ()
      ensures initCount == 0 && entryDepth == 0 && otherDepth == 0 && reports == []
    {
      initCount, entryDepth, otherDepth, reports := 0, 0, 0, [];
    }

    ghost function Now(): Serial
      reads this
    {
      Serial(initCount, reports)
    }

    method Init() returns (ok: bool)
      modifies this
      ensures ok && entryDepth == old(entryDepth) && otherDepth == old(otherDepth)
      ensures Now() == CalledAmid(old(Now()), old(entryDepth), old(otherDepth), InitCall)
    {
      BeginEntry();
      var previous := initCount;
      initCount := initCount + 1;
      if previous > 0 {
        reports := reports + [E02];
      }
      entryDepth := entryDepth - 1;
      ok := true;
    }

    method Deinit()
      modifies this
      ensures entryDepth == old(entryDepth) && otherDepth == old(otherDepth)
      ensures Now() == CalledAmid(old(Now()), old(entryDepth), old(otherDepth), DeinitCall)
    {
      BeginEntry();
      if initCount == 0 {
        reports := reports + [E03];
      } else {
        initCount := initCount - 1;
      }
      entryDepth := entryDepth - 1;
    }

    method BeginEntry()
      modifies `entryDepth, `reports
      ensures entryDepth == old(entryDepth) + 1
      ensures reports == old(reports) + Overlaps(old(entryDepth), otherDepth)
    {
      var others := entryDepth;
      entryDepth := entryDepth + 1;
      if others > 0 {
        reports := reports + [E04];
      }
      if otherDepth > 0 {
        reports := reports + [E04];
      }
    }

    /** The checks every other symbol makes first. */
    method Symbol()
      modifies this
      ensures entryDepth == old(entryDepth) && otherDepth == old(otherDepth)
      ensures Now() == CalledAmid(old(Now()), old(entryDepth), old(otherDepth), SymbolCall)
    {
      otherDepth := otherDepth + 1;
      if entryDepth > 0 {
        reports := reports + [E04];
      }
      if initCount == 0 {
        reports := reports + [E01];
      }
      otherDepth := otherDepth - 1;
    }
  }

  datatype Serial = Serial(initCount: int, reports: seq<Code>)

  /** E04 for other entry calls and for other symbols. */
  function Overlaps(entryDepth: int, otherDepth: int): seq<Code> {
    (if entryDepth > 0 then [E04] else []) + (if otherDepth > 0 then [E04] else [])
  }

  /** A call while other threads are inside calls of their own. */
  function CalledAmid(s: Serial, entryDepth: int, otherDepth: int, call: EntryCall): Serial {
    match call
    case InitCall =>
      Serial(s.initCount + 1, s.reports + Overlaps(entryDepth, otherDepth) + if s.initCount > 0 then [E02] else [])
    case DeinitCall =>
      if s.initCount == 0 then Serial(0, s.reports + Overlaps(entryDepth, otherDepth) + [E03])
      else Serial(s.initCount - 1, s.reports + Overlaps(entryDepth, otherDepth))
    case SymbolCall =>
      s.(reports := s.reports + Overlaps(entryDepth, 0) + if s.initCount == 0 then [E01] else [])
  }

  /** A call on its own. */
  function Called(s: Serial, call: EntryCall): Serial { CalledAmid(s, 0, 0, call) }

  function Calls(h: seq<EntryCall>): Serial {
    if h == [] then Serial(0, []) else Called(Calls(h[..|h| - 1]), h[|h| - 1])
  }

  /** Inits minus deinits. */
  function Balance(h: seq<EntryCall>): int {
    if h == [] then 0
    else Balance(h[..|h| - 1]) + if h[|h| - 1].InitCall? then 1 else if h[|h| - 1].DeinitCall? then -1 else 0
  }

  /** The lowest balance of any prefix. */
  function Lowest(h: seq<EntryCall>): (low: int)
    ensures low <= 0 && low <= Balance(h)
  {
    if h == [] then 0 else
    var before := Lowest(h[..|h| - 1]);
    if Balance(h) < before then Balance(h) else before
  }

  lemma {:induction false} LowestIsLowest(h: seq<EntryCall>)
    ensures forall k | 0 <= k <= |h| :: Lowest(h) <= Balance(h[..k])
    ensures exists k | 0 <= k <= |h| :: Lowest(h) == Balance(h[..k])
  {
    assert h[..|h|] == h;
    if h != [] {
      var front := h[..|h| - 1];
      LowestIsLowest(front);
      assert forall k | 0 <= k <= |front| :: front[..k] == h[..k];
      var k :| 0 <= k <= |front| && Lowest(front) == Balance(front[..k]);
      assert Lowest(h) == Balance(h[..k]) || Lowest(h) == Balance(h[..|h|]);
    } else {
      assert h[..0] == h;
    }
  }

  function Tally(code: Code, reports: seq<Code>): nat {
    if reports == [] then 0
    else Tally(code, reports[..|reports| - 1]) + if reports[|reports| - 1] == code then 1 else 0
  }

  lemma TallyNext(code: Code, reports: seq<Code>, next: Code)
    ensures Tally(code, reports + [] + [next]) == Tally(code, reports) + if next == code then 1 else 0
    ensures Tally(code, reports + [] + []) == Tally(code, reports)
  {
    assert (reports + [] + [next])[..|reports|] == reports;
    assert reports + [] + [] == reports;
  }

  lemma NoReports()
    ensures forall code :: Tally(code, []) == 0
  {
  }

  lemma CalledTally(s: Serial, call: EntryCall, code: Code)
    requires code == E03 || code == E04
    ensures Tally(code, Called(s, call).reports) ==
      Tally(code, s.reports) + if code == E03 && call.DeinitCall? && s.initCount == 0 then 1 else 0
  {
    hide Tally;
    assert Overlaps(0, 0) == [];
    TallyNext(code, s.reports, E01);
    TallyNext(code, s.reports, E02);
    TallyNext(code, s.reports, E03);
    assert s.reports + [] == s.reports + [] + [];
  }

  /**
   Whatever the order of the calls: the counter is the balance above its lowest
   point, and each step to a new low was reported as E03.
  */
  lemma {:induction false} CounterIsReflected(h: seq<EntryCall>)
    ensures Calls(h).initCount == Balance(h) - Lowest(h)
    ensures Tally(E03, Calls(h).reports) == -Lowest(h)
    ensures Tally(E04, Calls(h).reports) == 0
  {
    hide Tally, Overlaps;
    if h != [] {
      CounterIsReflected(h[..|h| - 1]);
      CalledTally(Calls(h[..|h| - 1]), h[|h| - 1], E03);
      CalledTally(Calls(h[..|h| - 1]), h[|h| - 1], E04);
    } else {
      NoReports();
    }
  }

  /** The init() calls that find the count above zero. */
  function InitsAbove(h: seq<EntryCall>): nat {
    if h == [] then 0 else
    var front := h[..|h| - 1];
    InitsAbove(front) + if h[|h| - 1].InitCall? && Balance(front) > Lowest(front) then 1 else 0
  }

  /** The calls of other symbols that find it at zero. */
  function SymbolsBelow(h: seq<EntryCall>): nat {
    if h == [] then 0 else
    var front := h[..|h| - 1];
    SymbolsBelow(front) + if h[|h| - 1].SymbolCall? && Balance(front) == Lowest(front) then 1 else 0
  }

  lemma CalledOthers(s: Serial, call: EntryCall)
    ensures var r := Called(s, call).reports;
      Tally(E02, r) == Tally(E02, s.reports) + (if call.InitCall? && s.initCount > 0 then 1 else 0) &&
      Tally(E01, r) == Tally(E01, s.reports) + (if call.SymbolCall? && s.initCount == 0 then 1 else 0)
  {
    hide Tally;
    assert Overlaps(0, 0) == [];
    TallyNext(E01, s.reports, E01);
    TallyNext(E01, s.reports, E02);
    TallyNext(E01, s.reports, E03);
    TallyNext(E02, s.reports, E01);
    TallyNext(E02, s.reports, E02);
    TallyNext(E02, s.reports, E03);
    assert s.reports + [] == s.reports + [] + [];
  }

  /** The other two reports: E02 for an init() above the lowest balance, E01 for a symbol at it. */
  lemma {:induction false} OtherReports(h: seq<EntryCall>)
    ensures Tally(E02, Calls(h).reports) == InitsAbove(h) && Tally(E01, Calls(h).reports) == SymbolsBelow(h)
  {
    hide Tally, Called, Lowest, Balance;
    if h != [] {
      OtherReports(h[..|h| - 1]);
      CounterIsReflected(h[..|h| - 1]);
      CalledOthers(Calls(h[..|h| - 1]), h[|h| - 1]);
    } else {
      NoReports();
    }
  }

  // ---- any calls at once ----

  type Thread = nat

  datatype Stage = Entered | Checked | Taking | Finished

  /**
   A thread in a call. `arrival`, `checkedAt` and `reported` are history: when it
   raised its depth counter, when it looked at the other side, and whether it has
   reported E04.
  */
  datatype Place =
    | Outside
    | Inside(call: EntryCall, stage: Stage, arrival: nat, checkedAt: nat, reported: bool)
  {
    predicate Entry() { Inside? && !call.SymbolCall? }

    predicate Symbol() { Inside? && call.SymbolCall? }

    predicate At(stage: Stage) { Inside? && this.stage == stage }

    /** Past its look at the other side. */
    predicate Looked() { Inside? && !stage.Entered? }
  }

  datatype State = State(
    initCount: int, entryDepth: int, otherDepth: int, threads: map<Thread, Place>, reports: seq<Code>, now: nat)

  /** The atomic accesses of a call, in order: raise a depth, look, read or change the count, leave. */
  datatype Step =
    | Enter(t: Thread, call: EntryCall)
    | Look(t: Thread)
    | Count(t: Thread)
    | CountDown(t: Thread)
    | Leave(t: Thread)

  function PlaceOf(s: State, t: Thread): Place { if t in s.threads then s.threads[t] else Outside }

  predicate Enabled(s: State, step: Step) {
    var place := PlaceOf(s, step.t);
    match step
    case Enter(_, _) => place.Outside?
    case Look(_) => place.At(Entered)
    case Count(_) => place.At(Checked)
    case CountDown(_) => place.At(Taking)
    case Leave(_) => place.At(Finished)
  }

  /** What a thread looking from `place` at `step` sees on the depth counters. */
  predicate Crowded(s: State, step: Step) {
    match step
    case Enter(_, call) => !call.SymbolCall? && s.entryDepth > 0
    case Look(t) => (PlaceOf(s, t).Entry() && s.otherDepth > 0) || (PlaceOf(s, t).Symbol() && s.entryDepth > 0)
    case _ => false
  }

  function PlaceAfter(s: State, step: Step): Place {
    var place := PlaceOf(s, step.t);
    match step
    case Enter(_, call) => Inside(call, Entered, s.now, 0, Crowded(s, step))
    case Leave(_) => Outside
    case Look(_) =>
      if place.Outside? then Outside
      else place.(stage := Checked, checkedAt := s.now, reported := place.reported || Crowded(s, step))
    case Count(_) =>
      if place.Outside? then Outside
      else place.(stage := if place.call.DeinitCall? && s.initCount != 0 then Taking else Finished)
    case CountDown(_) => if place.Outside? then Outside else place.(stage := Finished)
  }

  /** What a step reports: E04, or what Count finds. */
  function Findings(s: State, step: Step): seq<Code> {
    if Crowded(s, step) then [E04]
    else if !step.Count? || PlaceOf(s, step.t).Outside? then []
    else
      match PlaceOf(s, step.t).call
      case InitCall => if s.initCount > 0 then [E02] else []
      case DeinitCall => if s.initCount == 0 then [E03] else []
      case SymbolCall => if s.initCount == 0 then [E01] else []
  }

  function EntryChange(s: State, step: Step): int {
    if step.Enter? && !step.call.SymbolCall? then 1 else if step.Leave? && PlaceOf(s, step.t).Entry() then -1 else 0
  }

  function SymbolChange(s: State, step: Step): int {
    if step.Enter? && step.call.SymbolCall? then 1 else if step.Leave? && PlaceOf(s, step.t).Symbol() then -1 else 0
  }

  function CountChange(s: State, step: Step): int {
    if step.Count? && PlaceOf(s, step.t).Inside? && PlaceOf(s, step.t).call.InitCall? then 1
    else if step.CountDown? then -1 else 0
  }

  /** A step that is not enabled leaves everything as it is. */
  function Next(s: State, step: Step): State {
    if !Enabled(s, step) then s else
    State(s.initCount + CountChange(s, step), s.entryDepth + EntryChange(s, step), s.otherDepth + SymbolChange(s, step),
          s.threads[step.t := PlaceAfter(s, step)], s.reports + Findings(s, step), s.now + 1)
  }

  function Run(steps: seq<Step>): State {
    if steps == [] then State(0, 0, 0, map[], [], 0) else Next(Run(steps[..|steps| - 1]), steps[|steps| - 1])
  }

  // ---- who is inside ----

  predicate Waits(place: Place) { place.At(Entered) || place.At(Checked) }

  /** What a thread is: in an entry call or another one, about to take one off the count, or still to come to it. */
  datatype Role = InEntry | InSymbol | Taker | ComingInit | ComingDeinit

  predicate Plays(place: Place, role: Role) {
    match role
    case InEntry => place.Entry()
    case InSymbol => place.Symbol()
    case Taker => place.At(Taking)
    case ComingInit => Waits(place) && place.call.InitCall?
    case ComingDeinit => Waits(place) && place.call.DeinitCall?
  }

  function Those(role: Role, threads: map<Thread, Place>): set<Thread> {
    set t | t in threads && Plays(threads[t], role)
  }

  function Number(s: State, role: Role): nat { |Those(role, s.threads)| }

  function One(yes: bool): nat { if yes then 1 else 0 }

  lemma NobodyOutside(role: Role)
    ensures !Plays(Outside, role)
  {
  }

  lemma Resized(before: set<Thread>, after: set<Thread>, t: Thread, now: bool)
    requires forall u :: u in after <==> if u == t then now else u in before
    ensures |after| == |before| - One(t in before) + One(now)
  {
    assert after == if now then before + {t} else before - {t};
  }

  /** One thread moves: it leaves its old role and takes on its new one. */
  lemma Moved(threads: map<Thread, Place>, t: Thread, place: Place, role: Role)
    ensures var was := if t in threads then threads[t] else Outside;
      |Those(role, threads[t := place])| == |Those(role, threads)| - One(Plays(was, role)) + One(Plays(place, role))
  {
    hide Plays, One;
    NobodyOutside(role);
    Resized(Those(role, threads), Those(role, threads[t := place]), t, Plays(place, role));
  }

  lemma MovedStep(s: State, step: Step, role: Role)
    requires Enabled(s, step)
    ensures Number(Next(s, step), role) ==
      Number(s, role) - One(Plays(PlaceOf(s, step.t), role)) + One(Plays(PlaceAfter(s, step), role))
  {
    hide Those, Plays, One, PlaceAfter, Findings, Crowded, CountChange, EntryChange, SymbolChange, Enabled;
    Moved(s.threads, step.t, PlaceAfter(s, step), role);
  }

  // ---- the depth counters ----

  function Entries(s: State): set<Thread> { Those(InEntry, s.threads) }

  function Symbols(s: State): set<Thread> { Those(InSymbol, s.threads) }

  ghost predicate DepthsRight(s: State) {
    s.entryDepth == Number(s, InEntry) && s.otherDepth == Number(s, InSymbol)
  }

  lemma KindAfter(s: State, step: Step)
    requires Enabled(s, step)
    ensures var a, b := PlaceOf(s, step.t), PlaceAfter(s, step);
      One(Plays(b, InEntry)) - One(Plays(a, InEntry)) == EntryChange(s, step) &&
      One(Plays(b, InSymbol)) - One(Plays(a, InSymbol)) == SymbolChange(s, step)
  {
    hide Crowded;
  }

  /** Each depth counter is the number of threads inside. */
  lemma DepthsNext(s: State, step: Step)
    requires DepthsRight(s)
    ensures DepthsRight(Next(s, step))
  {
    hide Findings, Crowded, CountChange, EntryChange, SymbolChange, PlaceAfter, Enabled, One, Plays, Number;
    if Enabled(s, step) {
      KindAfter(s, step);
      MovedStep(s, step, InEntry);
      MovedStep(s, step, InSymbol);
    }
  }

  lemma CrowdedMeans(s: State, step: Step, u: Thread)
    requires DepthsRight(s) && u != step.t && !Crowded(s, step)
    ensures step.Enter? && !step.call.SymbolCall? ==> !PlaceOf(s, u).Entry()
    ensures step.Look? && PlaceOf(s, step.t).Entry() ==> !PlaceOf(s, u).Symbol()
    ensures step.Look? && PlaceOf(s, step.t).Symbol() ==> !PlaceOf(s, u).Entry()
  {
    assert PlaceOf(s, u).Entry() ==> u in Entries(s);
    assert PlaceOf(s, u).Symbol() ==> u in Symbols(s);
  }

  // ---- who has reported ----

  /** Stamps are in the past and in order. */
  predicate Stamped(place: Place, now: nat) {
    place.Inside? ==> place.arrival < now && (place.Looked() ==> place.arrival < place.checkedAt < now)
  }

  /** The later of two entry calls has reported; so has one that looked at the other side after its arrival. */
  predicate Told(a: Place, b: Place) {
    a.Inside? && b.Inside? ==>
      a.arrival != b.arrival && (a.Looked() ==> a.checkedAt != b.arrival) &&
      (a.Entry() && b.Entry() && a.arrival < b.arrival ==> b.reported) &&
      (a.Entry() != b.Entry() && a.Looked() && b.arrival < a.checkedAt ==> a.reported)
  }

  ghost predicate Inv(s: State) {
    DepthsRight(s) && (forall t :: Stamped(PlaceOf(s, t), s.now)) &&
    forall t, u | t != u :: Told(PlaceOf(s, t), PlaceOf(s, u))
  }

  lemma PairNext(s: State, step: Step, u: Thread)
    requires Inv(s) && Enabled(s, step) && u != step.t
    ensures Told(PlaceAfter(s, step), PlaceOf(s, u)) && Told(PlaceOf(s, u), PlaceAfter(s, step))
    ensures Stamped(PlaceAfter(s, step), s.now + 1)
  {
    hide DepthsRight, Crowded;
    var a, b := PlaceOf(s, step.t), PlaceOf(s, u);
    assert Told(a, b) && Told(b, a) && Stamped(a, s.now) && Stamped(b, s.now);
    if !Crowded(s, step) {
      CrowdedMeans(s, step, u);
    }
  }

  lemma InvNext(s: State, step: Step)
    requires Inv(s)
    ensures Inv(Next(s, step))
  {
    hide Told, Stamped, DepthsRight, PlaceAfter, Findings, CountChange, EntryChange, SymbolChange;
    DepthsNext(s, step);
    var n, t := Next(s, step), step.t;
    if Enabled(s, step) {
      assert PlaceOf(n, t) == PlaceAfter(s, step);
      assert forall u | u != t :: PlaceOf(n, u) == PlaceOf(s, u);
      forall u | u != t
        ensures Told(PlaceOf(n, t), PlaceOf(n, u)) && Told(PlaceOf(n, u), PlaceOf(n, t))
      {
        PairNext(s, step, u);
      }
      PairNext(s, step, t + 1);
      forall u ensures Stamped(PlaceOf(n, u), n.now) {
        StampedLater(PlaceOf(s, u), s.now);
      }
    }
  }

  lemma StampedLater(place: Place, now: nat)
    requires Stamped(place, now)
    ensures Stamped(place, now + 1)
  {
  }

  lemma {:induction false} InvAlways(steps: seq<Step>)
    ensures Inv(Run(steps))
  {
    hide Next;
    if steps != [] {
      InvAlways(steps[..|steps| - 1]);
      InvNext(Run(steps[..|steps| - 1]), steps[|steps| - 1]);
    } else {
      assert Entries(Run([])) == {} && Symbols(Run([])) == {};
    }
  }

  /** Of two entry calls in progress at once, the one that came later has reported E04. */
  lemma OverlappingEntriesReport(steps: seq<Step>, t: Thread, u: Thread)
    requires PlaceOf(Run(steps), t).Entry() && PlaceOf(Run(steps), u).Entry() && t != u
    ensures var a, b := PlaceOf(Run(steps), t), PlaceOf(Run(steps), u);
      a.arrival != b.arrival && (if a.arrival < b.arrival then b.reported else a.reported)
  {
    hide Run;
    InvAlways(steps);
    assert Told(PlaceOf(Run(steps), t), PlaceOf(Run(steps), u)) && Told(PlaceOf(Run(steps), u), PlaceOf(Run(steps), t));
  }

  /** An entry call and another symbol, both past their checks and both still inside: one has reported E04. */
  lemma OverlappingSymbolReports(steps: seq<Step>, t: Thread, u: Thread)
    requires PlaceOf(Run(steps), t).Entry() && PlaceOf(Run(steps), u).Symbol()
    requires PlaceOf(Run(steps), t).Looked() && PlaceOf(Run(steps), u).Looked()
    ensures PlaceOf(Run(steps), t).reported || PlaceOf(Run(steps), u).reported
  {
    hide Run;
    InvAlways(steps);
    assert t != u;
    var a, b := PlaceOf(Run(steps), t), PlaceOf(Run(steps), u);
    assert Told(a, b) && Told(b, a) && Stamped(a, Run(steps).now) && Stamped(b, Run(steps).now);
  }

  /** A step reports E04 exactly when somebody else is in a call it must not overlap with at that moment. */
  lemma OverlapReportsAreReal(steps: seq<Step>, step: Step)
    requires Enabled(Run(steps), step)
    ensures var s := Run(steps);
      E04 in Findings(s, step) <==>
        exists u :: u != step.t &&
          ((step.Enter? && !step.call.SymbolCall? && PlaceOf(s, u).Entry()) ||
           (step.Look? && PlaceOf(s, step.t).Entry() && PlaceOf(s, u).Symbol()) ||
           (step.Look? && PlaceOf(s, step.t).Symbol() && PlaceOf(s, u).Entry()))
  {
    hide Run;
    InvAlways(steps);
    var s := Run(steps);
    assert forall u :: u in Entries(s) <==> PlaceOf(s, u).Entry();
    assert forall u :: u in Symbols(s) <==> PlaceOf(s, u).Symbol();
    if Crowded(s, step) {
      if step.Enter? || PlaceOf(s, step.t).Symbol() {
        var u :| u in Entries(s);
      } else {
        var u :| u in Symbols(s);
      }
    }
  }

  // ---- the init count ----

  predicate Told04(s: State) { E04 in s.reports }

  /** As long as no E04 has been reported, entry calls take turns and the count stays right. */
  ghost predicate TurnTaking(s: State) {
    Told04(s) ||
    ((forall t, u | PlaceOf(s, t).Entry() && PlaceOf(s, u).Entry() :: t == u) &&
     0 <= s.initCount && (forall t | PlaceOf(s, t).At(Taking) :: PlaceOf(s, t).Entry() && s.initCount > 0))
  }

  lemma CrowdedIsTold(s: State, step: Step)
    requires Enabled(s, step) && Crowded(s, step)
    ensures Told04(Next(s, step))
  {
    assert Next(s, step).reports[|s.reports|] == E04;
  }

  lemma TurnTakingNext(s: State, step: Step)
    requires Inv(s) && TurnTaking(s)
    ensures TurnTaking(Next(s, step))
  {
    hide Stamped, Told, DepthsRight, Crowded;
    var n, t := Next(s, step), step.t;
    if !Enabled(s, step) {
    } else if Crowded(s, step) {
      CrowdedIsTold(s, step);
    } else if !Told04(n) {
      assert !Told04(s);
      assert PlaceOf(n, t) == PlaceAfter(s, step);
      forall u | u != t
        ensures PlaceOf(n, u) == PlaceOf(s, u) && (PlaceAfter(s, step).Entry() ==> !PlaceOf(s, u).Entry())
      {
        CrowdedMeans(s, step, u);
      }
    }
  }

  lemma {:induction false} TakesTurns(steps: seq<Step>)
    ensures TurnTaking(Run(steps))
  {
    hide Next, Inv;
    if steps != [] {
      TakesTurns(steps[..|steps| - 1]);
      InvAlways(steps[..|steps| - 1]);
      TurnTakingNext(Run(steps[..|steps| - 1]), steps[|steps| - 1]);
    }
  }

  /** The count can only go below zero after an overlap of entry calls has been reported. */
  lemma NegativeOnlyAfterE04(steps: seq<Step>)
    requires Run(steps).initCount < 0
    ensures E04 in Run(steps).reports
  {
    hide Run;
    TakesTurns(steps);
  }

  function After(s: State, steps: seq<Step>): State
    decreases |steps|
  {
    if steps == [] then s else After(Next(s, steps[0]), steps[1..])
  }

  lemma {:induction false} RunAfter(before: seq<Step>, steps: seq<Step>)
    ensures Run(before + steps) == After(Run(before), steps)
    decreases |steps|
  {
    hide Next;
    if steps == [] {
      assert before + steps == before;
    } else {
      assert (before + [steps[0]])[..|before|] == before;
      assert before + steps == before + [steps[0]] + steps[1..];
      RunAfter(before + [steps[0]], steps[1..]);
    }
  }

  lemma {:induction false} AfterAppends(s: State, a: seq<Step>, b: seq<Step>)
    ensures After(s, a + b) == After(After(s, a), b)
    decreases |a|
  {
    hide Next;
    if a == [] {
      assert a + b == b;
    } else {
      assert (a + b)[1..] == a[1..] + b;
      AfterAppends(Next(s, a[0]), a[1..], b);
    }
  }

  // ---- when the count can go below zero ----

  /** There is a count for every thread about to take one off. */
  predicate Backed(s: State) { s.initCount >= Number(s, Taker) }

  /** A deinit() reads a count that other threads are about to use up. */
  predicate Overtakes(s: State, step: Step) {
    Enabled(s, step) && step.Count? && PlaceOf(s, step.t).call.DeinitCall? && 0 < s.initCount <= Number(s, Taker)
  }

  /** The one step that takes the backing away. */
  lemma BackedNextIff(s: State, step: Step)
    requires Backed(s)
    ensures Backed(Next(s, step)) <==> !Overtakes(s, step)
  {
    hide Findings, Crowded, EntryChange, SymbolChange, Those;
    if Enabled(s, step) {
      MovedStep(s, step, Taker);
    }
  }

  predicate BackedAt(steps: seq<Step>, k: nat)
    requires k <= |steps|
  {
    Backed(Run(steps[..k]))
  }

  /** The k-th step is a deinit() that overtakes. */
  predicate OvertakenAt(steps: seq<Step>, k: nat)
    requires k < |steps|
  {
    Overtakes(Run(steps[..k]), steps[k])
  }

  lemma SamePrefix(steps: seq<Step>, last: Step)
    ensures forall k | 0 <= k <= |steps| :: BackedAt(steps + [last], k) == BackedAt(steps, k)
    ensures forall k | 0 <= k < |steps| :: OvertakenAt(steps + [last], k) == OvertakenAt(steps, k)
    ensures BackedAt(steps, |steps|) ==>
      (BackedAt(steps + [last], |steps| + 1) <==> !OvertakenAt(steps + [last], |steps|))
  {
    hide Backed, Overtakes, Next;
    var longer := steps + [last];
    assert forall k | 0 <= k <= |steps| :: longer[..k] == steps[..k];
    assert longer[..|steps| + 1][..|steps|] == steps == steps[..|steps|] && longer[..|steps|] == steps;
    if Backed(Run(steps)) {
      BackedNextIff(Run(steps), last);
    }
  }

  /** A run keeps the count backed throughout exactly when no deinit() of it overtakes. */
  lemma {:induction false} BackedThroughoutIff(steps: seq<Step>)
    ensures (forall k | 0 <= k <= |steps| :: BackedAt(steps, k)) <==>
      forall k | 0 <= k < |steps| :: !OvertakenAt(steps, k)
  {
    if steps == [] {
    } else {
      hide BackedAt, OvertakenAt;
      var front, last := steps[..|steps| - 1], steps[|steps| - 1];
      BackedThroughoutIff(front);
      SamePrefix(front, last);
      assert steps == front + [last];
    }
  }

  predicate OnlyCountDowns(steps: seq<Step>) { forall i | 0 <= i < |steps| :: steps[i].CountDown? }

  /** What backing means: the threads already past their test cannot bring the count below zero. */
  lemma BackedMeans(s: State)
    ensures Backed(s) <==> forall downs | OnlyCountDowns(downs) :: After(s, downs).initCount >= 0
  {
    if Backed(s) {
      forall downs | OnlyCountDowns(downs) ensures After(s, downs).initCount >= 0 {
        StaysBacked(s, downs);
      }
    } else {
      var downs := AllCountDown(s);
      assert After(s, downs).initCount < 0;
    }
  }

  lemma {:induction false} StaysBacked(s: State, downs: seq<Step>)
    requires Backed(s) && OnlyCountDowns(downs)
    ensures After(s, downs).initCount >= 0
    decreases |downs|
  {
    hide Next;
    if downs != [] {
      BackedNextIff(s, downs[0]);
      StaysBacked(Next(s, downs[0]), downs[1..]);
    }
  }

  /** A schedule in which every thread past its test takes its count. */
  lemma {:induction false} AllCountDown(s: State) returns (downs: seq<Step>)
    ensures OnlyCountDowns(downs) && After(s, downs).initCount == s.initCount - Number(s, Taker)
    decreases Number(s, Taker)
  {
    hide Next;
    if Number(s, Taker) == 0 {
      downs := [];
    } else {
      var t :| t in Those(Taker, s.threads);
      CountsDown(s, t);
      var rest := AllCountDown(Next(s, CountDown(t)));
      downs := [CountDown(t)] + rest;
      assert downs[1..] == rest;
    }
  }

  lemma CountsDown(s: State, t: Thread)
    requires t in Those(Taker, s.threads)
    ensures var n := Next(s, CountDown(t));
      n.initCount == s.initCount - 1 && Number(n, Taker) == Number(s, Taker) - 1
  {
    hide Findings, Crowded, EntryChange, SymbolChange, Number;
    MovedStep(s, CountDown(t), Taker);
  }

  /**
   The count goes below zero in some continuation of a run by the threads past
   their test exactly when some deinit() of the run overtook.
  */
  lemma NegativeReachableIff(steps: seq<Step>)
    ensures (exists k, downs | 0 <= k <= |steps| && OnlyCountDowns(downs) ::
              After(Run(steps[..k]), downs).initCount < 0) <==>
      exists k | 0 <= k < |steps| :: OvertakenAt(steps, k)
  {
    hide Run, After, Backed, OvertakenAt;
    BackedThroughoutIff(steps);
    forall k | 0 <= k <= |steps|
      ensures BackedAt(steps, k) <==>
        !exists downs :: OnlyCountDowns(downs) && After(Run(steps[..k]), downs).initCount < 0
    {
      BackedMeans(Run(steps[..k]));
    }
  }

  // ---- what a host can tell beforehand ----

  /** Nobody calls init() or deinit() anew. */
  predicate NoNewEntries(steps: seq<Step>) {
    forall i | 0 <= i < |steps| :: steps[i].Enter? ==> steps[i].call.SymbolCall?
  }

  /** What is left when everybody who is past the test, or can still come to it, takes one off. */
  function Reserve(s: State): int { s.initCount - Number(s, Taker) - Number(s, ComingDeinit) }

  /**
   Nothing can go wrong any more: there is a count for every deinit() in progress, or
   the count is zero, which stops each of them, and no init() can open it to two of them.
  */
  predicate Safe(s: State) {
    Reserve(s) >= 0 ||
    (s.initCount == 0 && Number(s, Taker) == 0 && (Number(s, ComingInit) == 0 || Number(s, ComingDeinit) <= 1))
  }

  /** The count and the roles after a step that begins no entry call. */
  lemma RolesNext(s: State, step: Step)
    requires Enabled(s, step) && NoNewEntries([step])
    ensures var n, place := Next(s, step), PlaceOf(s, step.t);
      var counts := step.Count? && place.Inside?;
      n.initCount == s.initCount + One(counts && place.call.InitCall?) - One(step.CountDown?) &&
      Number(n, ComingInit) == Number(s, ComingInit) - One(counts && place.call.InitCall?) &&
      Number(n, ComingDeinit) == Number(s, ComingDeinit) - One(counts && place.call.DeinitCall?) &&
      Number(n, Taker) == Number(s, Taker) + One(counts && place.call.DeinitCall? && s.initCount != 0)
                          - One(step.CountDown?)
  {
    hide Number, Findings, Crowded, EntryChange, SymbolChange;
    assert [step][0] == step;
    MovedStep(s, step, Taker);
    MovedStep(s, step, ComingInit);
    MovedStep(s, step, ComingDeinit);
  }

  lemma SafeNext(s: State, step: Step)
    requires Safe(s) && NoNewEntries([step])
    ensures Safe(Next(s, step))
  {
    hide Number, NoNewEntries, PlaceAfter, CountChange, Enabled;
    if Enabled(s, step) {
      RolesNext(s, step);
    }
  }

  lemma {:induction false} SafeLasts(s: State, steps: seq<Step>)
    requires Safe(s) && NoNewEntries(steps)
    ensures After(s, steps).initCount >= 0
    decreases |steps|
  {
    hide Next, Number;
    if steps != [] {
      assert [steps[0]][0] == steps[0];
      SafeNext(s, steps[0]);
      SafeLasts(Next(s, steps[0]), steps[1..]);
    }
  }

  /** A schedule that brings every deinit() in progress past its test while the count is not zero. */
  lemma {:induction false} AllTake(s: State) returns (steps: seq<Step>)
    requires s.initCount > 0
    ensures NoNewEntries(steps)
    ensures var n := After(s, steps);
      n.initCount == s.initCount && Number(n, Taker) == Number(s, Taker) + Number(s, ComingDeinit)
    decreases Number(s, ComingDeinit)
  {
    hide After, Next;
    if Number(s, ComingDeinit) == 0 {
      steps := [];
      AfterNothing(s);
    } else {
      var t :| t in Those(ComingDeinit, s.threads);
      var first := Counts(s, t);
      var rest := AllTake(After(s, first));
      steps := first + rest;
      AfterAppends(s, first, rest);
    }
  }

  /** A thread in an init() or deinit() call comes to the count. */
  lemma Counts(s: State, t: Thread) returns (steps: seq<Step>)
    requires Plays(PlaceOf(s, t), ComingInit) || Plays(PlaceOf(s, t), ComingDeinit)
    ensures NoNewEntries(steps)
    ensures var n, isInit := After(s, steps), PlaceOf(s, t).call.InitCall?;
      n.initCount == s.initCount + One(isInit) &&
      Number(n, ComingInit) == Number(s, ComingInit) - One(isInit) &&
      Number(n, ComingDeinit) == Number(s, ComingDeinit) - One(!isInit) &&
      Number(n, Taker) == Number(s, Taker) + One(!isInit && s.initCount != 0)
  {
    hide After, Next, Number;
    if PlaceOf(s, t).At(Checked) {
      steps := [Count(t)];
      AfterStep(s, Count(t));
      RolesNext(s, Count(t));
    } else {
      steps := [Look(t)] + [Count(t)];
      AfterAppends(s, [Look(t)], [Count(t)]);
      AfterStep(s, Look(t));
      RolesNext(s, Look(t));
      LookStays(s, t);
      AfterStep(Next(s, Look(t)), Count(t));
      RolesNext(Next(s, Look(t)), Count(t));
    }
  }

  lemma LookStays(s: State, t: Thread)
    requires PlaceOf(s, t).At(Entered)
    ensures var place := PlaceOf(Next(s, Look(t)), t); place.At(Checked) && place.call == PlaceOf(s, t).call
  {
    hide Findings, Crowded, EntryChange, SymbolChange, CountChange;
  }

  lemma AfterStep(s: State, step: Step)
    ensures After(s, [step]) == Next(s, step)
  {
    hide Next;
    assert [step][1..] == [];
  }

  /** With the count above zero, every deinit() in progress reads it before any takes one off. */
  lemma AllTakeAndDown(s: State) returns (steps: seq<Step>)
    requires s.initCount > 0
    ensures NoNewEntries(steps) && After(s, steps).initCount == Reserve(s)
  {
    hide After, Number;
    var take := AllTake(s);
    var down := AllCountDown(After(s, take));
    AfterAppends(s, take, down);
    steps := take + down;
  }

  /** A schedule that brings the count below zero, where one exists. */
  lemma GoesNegative(s: State) returns (steps: seq<Step>)
    requires !Safe(s)
    ensures NoNewEntries(steps) && After(s, steps).initCount < 0
  {
    hide After;
    if s.initCount < 0 {
      steps := [];
      AfterNothing(s);
    } else if s.initCount > 0 {
      steps := AllTakeAndDown(s);
    } else if Number(s, Taker) > 0 {
      steps := AllCountDown(s);
    } else {
      var t :| t in Those(ComingInit, s.threads);
      var first := Counts(s, t);
      var rest := AllTakeAndDown(After(s, first));
      AfterAppends(s, first, rest);
      steps := first + rest;
    }
  }

  /** From any state, whoever is inside: some schedule of the calls in progress brings the count below zero, or none. */
  lemma CanGoNegativeIff(s: State)
    ensures (exists steps :: NoNewEntries(steps) && After(s, steps).initCount < 0) <==> !Safe(s)
  {
    hide After, Safe;
    if Safe(s) {
      forall steps | NoNewEntries(steps) ensures After(s, steps).initCount >= 0 {
        SafeLasts(s, steps);
      }
    } else {
      var steps := GoesNegative(s);
    }
  }

  /**
   What a host can tell beforehand. With i init() and d deinit() calls in progress
   that have not come to the count c yet, some schedule of them brings it below zero
   exactly when d > c and either c >= 1, or one of i init() calls can open a zero
   count to d >= 2: at zero every deinit() stops at its test.
  */
  lemma DeinitsCanGoNegativeIff(s: State)
    requires Number(s, Taker) == 0 && s.initCount >= 0
    ensures var i, d, c := Number(s, ComingInit), Number(s, ComingDeinit), s.initCount;
      (exists steps :: NoNewEntries(steps) && After(s, steps).initCount < 0) <==>
        d > c && (c >= 1 || (i >= 1 && d >= 2))
  {
    hide After, Number;
    CanGoNegativeIff(s);
  }

  /** One init(), then two deinit() calls that both read the count before either takes one off. */
  function RaceSteps(): seq<Step> {
    [Enter(0, InitCall), Look(0), Count(0), Leave(0), Enter(1, DeinitCall), Look(1), Enter(2, DeinitCall), Look(2),
     Count(1), Count(2), CountDown(1), CountDown(2)]
  }

  /** What one step does to the count and to the threads. */
  lemma Stepped(s: State, step: Step, rest: seq<Step>)
    requires Enabled(s, step)
    ensures var n := Next(s, step);
      n.initCount == s.initCount + CountChange(s, step) && PlaceOf(n, step.t) == PlaceAfter(s, step) &&
      (forall u | u != step.t :: PlaceOf(n, u) == PlaceOf(s, u)) && After(s, [step] + rest) == After(n, rest)
  {
    assert ([step] + rest)[1..] == rest;
  }

  predicate Ready(s: State, t: Thread, call: EntryCall, stage: Stage) {
    PlaceOf(s, t).At(stage) && PlaceOf(s, t).call == call
  }

  /** A whole init() call of an idle thread, then any further steps. */
  lemma InitRuns(s: State, rest: seq<Step>) returns (n: State)
    requires PlaceOf(s, 0).Outside?
    ensures After(s, [Enter(0, InitCall)] + ([Look(0)] + ([Count(0)] + ([Leave(0)] + rest)))) == After(n, rest)
    ensures n.initCount == s.initCount + 1 && PlaceOf(n, 0).Outside?
    ensures forall u | u != 0 :: PlaceOf(n, u) == PlaceOf(s, u)
  {
    hide Next, After;
    var a, b := Next(s, Enter(0, InitCall)), Next(Next(s, Enter(0, InitCall)), Look(0));
    var c := Next(b, Count(0));
    Stepped(s, Enter(0, InitCall), [Look(0)] + ([Count(0)] + ([Leave(0)] + rest)));
    Stepped(a, Look(0), [Count(0)] + ([Leave(0)] + rest));
    Stepped(b, Count(0), [Leave(0)] + rest);
    Stepped(c, Leave(0), rest);
    n := Next(c, Leave(0));
  }

  /** A deinit() call up to the point where it is about to read the count. */
  lemma DeinitBegins(s: State, t: Thread, rest: seq<Step>) returns (n: State)
    requires PlaceOf(s, t).Outside?
    ensures After(s, [Enter(t, DeinitCall)] + ([Look(t)] + rest)) == After(n, rest)
    ensures n.initCount == s.initCount && Ready(n, t, DeinitCall, Checked)
    ensures forall u | u != t :: PlaceOf(n, u) == PlaceOf(s, u)
  {
    hide Next, After;
    var a := Next(s, Enter(t, DeinitCall));
    Stepped(s, Enter(t, DeinitCall), [Look(t)] + rest);
    Stepped(a, Look(t), rest);
    n := Next(a, Look(t));
  }

  lemma BothCountDown(s: State)
    requires s.initCount == 1 && Ready(s, 1, DeinitCall, Checked) && Ready(s, 2, DeinitCall, Checked)
    ensures After(s, [Count(1)] + ([Count(2)] + ([CountDown(1)] + ([CountDown(2)] + [])))).initCount == -1
  {
    hide Next;
    var a, b := Next(s, Count(1)), Next(Next(s, Count(1)), Count(2));
    var c := Next(b, CountDown(1));
    Stepped(s, Count(1), [Count(2)] + ([CountDown(1)] + ([CountDown(2)] + [])));
    Stepped(a, Count(2), [CountDown(1)] + ([CountDown(2)] + []));
    Stepped(b, CountDown(1), [CountDown(2)] + []);
    Stepped(c, CountDown(2), []);
  }

  /** The race can happen: the count ends at -1. */
  lemma TwoDeinitsGoBelowZero()
    ensures Run(RaceSteps()).initCount == -1
  {
    hide Next, After, Enabled;
    var down := [Count(1)] + ([Count(2)] + ([CountDown(1)] + ([CountDown(2)] + [])));
    var second := [Enter(2, DeinitCall)] + ([Look(2)] + down);
    var first := [Enter(1, DeinitCall)] + ([Look(1)] + second);
    RunAfter([], RaceSteps());
    assert [] + RaceSteps() == RaceSteps();
    var a := InitRuns(Run([]), first);
    var b := DeinitBegins(a, 1, second);
    var c := DeinitBegins(b, 2, down);
    BothCountDown(c);
    RaceInParts();
  }

  lemma RaceInParts()
    ensures var down := [Count(1)] + ([Count(2)] + ([CountDown(1)] + ([CountDown(2)] + [])));
      var second := [Enter(2, DeinitCall)] + ([Look(2)] + down);
      var first := [Enter(1, DeinitCall)] + ([Look(1)] + second);
      RaceSteps() == [Enter(0, InitCall)] + ([Look(0)] + ([Count(0)] + ([Leave(0)] + first)))
  {
  }

  // ---- the serial calls are uninterrupted steps ----

  /** The steps of a whole call that starts at init count `count`. */
  function CallSteps(t: Thread, call: EntryCall, count: int): seq<Step> {
    [Enter(t, call)] + ([Look(t)] + ([Count(t)] +
      if call.DeinitCall? && count != 0 then [CountDown(t)] + ([Leave(t)] + []) else [Leave(t)] + []))
  }

  /** The counters and reports after one enabled step. */
  lemma SteppedCounters(s: State, step: Step)
    requires Enabled(s, step)
    ensures var n := Next(s, step);
      n.entryDepth == s.entryDepth + EntryChange(s, step) && n.otherDepth == s.otherDepth + SymbolChange(s, step) &&
      n.reports == s.reports + Findings(s, step)
  {
  }

  /**
   Whatever other threads are in, a call whose steps are not interrupted counts
   and reports what the class promises for it, and leaves the depths as they were.
  */
  lemma CallInSteps(s: State, t: Thread, call: EntryCall)
    requires PlaceOf(s, t).Outside?
    ensures var n := After(s, CallSteps(t, call, s.initCount));
      Serial(n.initCount, n.reports) ==
        CalledAmid(Serial(s.initCount, s.reports), s.entryDepth, s.otherDepth, call) &&
      n.entryDepth == s.entryDepth && n.otherDepth == s.otherDepth && PlaceOf(n, t).Outside?
  {
    hide Next, After;
    var down := if call.DeinitCall? && s.initCount != 0 then [CountDown(t)] + ([Leave(t)] + []) else [Leave(t)] + [];
    var a := Next(s, Enter(t, call));
    Stepped(s, Enter(t, call), [Look(t)] + ([Count(t)] + down));
    SteppedCounters(s, Enter(t, call));
    var b := Next(a, Look(t));
    Stepped(a, Look(t), [Count(t)] + down);
    SteppedCounters(a, Look(t));
    var c := Next(b, Count(t));
    Stepped(b, Count(t), down);
    SteppedCounters(b, Count(t));
    assert b.reports == s.reports + Overlaps(s.entryDepth, if call.SymbolCall? then 0 else s.otherDepth);
    CallEnds(c, t, call, s.initCount);
  }

  lemma CallEnds(c: State, t: Thread, call: EntryCall, count: int)
    requires PlaceOf(c, t).Inside? && PlaceOf(c, t).call == call
    requires PlaceOf(c, t).stage == if call.DeinitCall? && count != 0 then Taking else Finished
    ensures var steps :=
        if call.DeinitCall? && count != 0 then [CountDown(t)] + ([Leave(t)] + []) else [Leave(t)] + [];
      var n := After(c, steps);
      n.initCount == c.initCount - (if call.DeinitCall? && count != 0 then 1 else 0) && n.reports == c.reports &&
      n.entryDepth == c.entryDepth - (if call.SymbolCall? then 0 else 1) &&
      n.otherDepth == c.otherDepth - (if call.SymbolCall? then 1 else 0) && PlaceOf(n, t).Outside?
  {
    hide Next, After;
    if call.DeinitCall? && count != 0 {
      Stepped(c, CountDown(t), [Leave(t)] + []);
      SteppedCounters(c, CountDown(t));
      Stepped(Next(c, CountDown(t)), Leave(t), []);
      SteppedCounters(Next(c, CountDown(t)), Leave(t));
      AfterNothing(Next(Next(c, CountDown(t)), Leave(t)));
    } else {
      Stepped(c, Leave(t), []);
      SteppedCounters(c, Leave(t));
      AfterNothing(Next(c, Leave(t)));
    }
  }

  lemma AfterNothing(s: State)
    ensures After(s, []) == s
  {
  }
}

/**
 Whole runs of host calls. The monitor's flags, counters and caches are compared
 with a reading of the call history that never mentions them.
*/
module HostRuns {
  import V = Violations
  import opened PrePass
  import opened Monitors
  import opened PortConfigs
  import opened Plugins

  datatype Host = Host(provider: Provider, params: seq<ParamRecord>)

  /** The state of a fresh instance after some host calls. */
  function Run(host: Host, h: seq<Call>): (s: State)
    requires ValidProvider(host.provider)
    ensures WellFormed(s)
  {
    if h == [] then State(Initial(), host.provider, host.params, [])
    else Step(Run(host, h[..|h| - 1]), h[|h| - 1])
  }

  predicate PossibleRun(h: seq<Call>) { forall i | 0 <= i < |h| :: Possible(h[i]) }

  // ---- reading a history ----

  predicate InitializedAfter(h: seq<Call>) { exists i | 0 <= i < |h| :: h[i].Init? }

  predicate ActiveSince(h: seq<Call>, i: int) {
    0 <= i < |h| && h[i].Activate? && h[i].ok && forall j | i < j < |h| :: !h[j].Deactivate?
  }

  predicate ActiveAfter(h: seq<Call>) { exists i | 0 <= i < |h| :: ActiveSince(h, i) }

  predicate ProcessingSince(h: seq<Call>, i: int) {
    0 <= i < |h| && h[i].StartProcessing? && h[i].ok && ActiveAfter(h[..i]) &&
    forall j | i < j < |h| :: !h[j].StopProcessing? && !h[j].Deactivate?
  }

  predicate ProcessingAfter(h: seq<Call>) { exists i | 0 <= i < |h| :: ProcessingSince(h, i) }

  /** Callback requests since the last on_main_thread(). */
  function Requested(h: seq<Call>): nat {
    if h == [] || h[|h| - 1].OnMainThread? then 0
    else Requested(h[..|h| - 1]) + if h[|h| - 1].RequestCallback? then 1 else 0
  }

  /** How often a call breaks a rule about when it may be made, after history h. */
  function Breaches(code: V.Code, h: seq<Call>, call: Call): nat {
    match call
    case GetExtension(id) => if code == V.L01 && id.OtherId? && !InitializedAfter(h) then 1 else 0
    case Init(_) => if code == V.L02 && InitializedAfter(h) then 1 else 0
    case Activate(minFrames, maxFrames, _) =>
      if code == V.L03 && ActiveAfter(h) then 1
      else if code == V.L13 && !ActiveAfter(h) && !(1 <= minFrames <= maxFrames) then 1 else 0
    case Deactivate =>
      if code == V.L04 && !ActiveAfter(h) then 1 else if code == V.L05 && ProcessingAfter(h) then 1 else 0
    case Destroy => if code == V.L06 && ActiveAfter(h) then 1 else 0
    case StartProcessing(_) => if code == V.L07 && (!ActiveAfter(h) || ProcessingAfter(h)) then 1 else 0
    case StopProcessing =>
      if code != V.L08 then 0 else (if ActiveAfter(h) then 0 else 1) + if ProcessingAfter(h) then 0 else 1
    case Process(_) => if code == V.L09 && !ProcessingAfter(h) then 1 else 0
    case Reset => if code == V.L10 && !ActiveAfter(h) then 1 else 0
    case OnMainThread => if code == V.L11 && Requested(h) % V.UINT32 == 0 then 1 else 0
    case CanApplyConfiguration(_) => if code == V.CA01 && ActiveAfter(h) then 1 else 0
    case ApplyConfiguration(_) => if code == V.CA01 && ActiveAfter(h) then 1 else 0
    case SelectConfig(_) => if code == V.AC01 && ActiveAfter(h) then 1 else 0
    case TailGet(elsewhere) => if code == V.T04 && elsewhere then 1 else 0
    case ThreadFinding(found) => if code == found then 1 else 0
    case Flush(_, notAudio, notMain) =>
      if code == V.T03 && (if ActiveAfter(h) then notAudio else notMain) then 1 else 0
    case RequestCallback => 0
    case ClearViolations => 0
  }

  /** All rules a call breaks after history h: the lifecycle ones, and those of a block that is processed. */
  ghost function AllBreaches(host: Host, code: V.Code, h: seq<Call>, call: Call): nat
    requires ValidProvider(host.provider)
  {
    Breaches(code, h, call) + DataBreaches(Run(host, h).monitor, code, h, call)
  }

  /** The data rules a processed block or a flush breaks. */
  ghost function DataBreaches(m: Monitor, code: V.Code, h: seq<Call>, call: Call): nat {
    if call.Process? && ProcessingAfter(h) then RuleBreaches(code, m.snapshot, m.steady, call.data)
    else if call.Flush? && code in PARAM_CODES && m.snapshot.params != [] && call.list.EventList? then
      HowMany(BreachIn(code, m.snapshot.params, call.list.events, false), |call.list.events|)
    else 0
  }

  /** All breaches of a rule since the counters were last cleared. */
  ghost function BreachesSinceClear(host: Host, code: V.Code, h: seq<Call>): nat
    requires ValidProvider(host.provider)
  {
    if h == [] || h[|h| - 1].ClearViolations? then 0
    else BreachesSinceClear(host, code, h[..|h| - 1]) + AllBreaches(host, code, h[..|h| - 1], h[|h| - 1])
  }

  // ---- one more call ----

  lemma InitializedNext(h: seq<Call>, call: Call)
    ensures InitializedAfter(h + [call]) <==> InitializedAfter(h) || call.Init?
  {
    var g := h + [call];
    if i :| 0 <= i < |h| && h[i].Init? {
      assert g[i].Init?;
    }
    assert g[|h|] == call;
  }

  lemma ActiveNext(h: seq<Call>, call: Call)
    ensures ActiveAfter(h + [call]) <==> (call.Activate? && call.ok) || (ActiveAfter(h) && !call.Deactivate?)
  {
    var g := h + [call];
    assert g[|h|] == call;
    if call.Activate? && call.ok {
      assert ActiveSince(g, |h|);
    }
    if ActiveAfter(h) && !call.Deactivate? {
      var i :| 0 <= i < |h| && ActiveSince(h, i);
      assert ActiveSince(g, i);
    }
    if ActiveAfter(g) {
      var i :| 0 <= i < |g| && ActiveSince(g, i);
      if i < |h| {
        assert ActiveSince(h, i) by {
          assert forall j | i < j < |h| :: g[j] == h[j];
        }
      }
    }
  }

  lemma ProcessingNext(h: seq<Call>, call: Call)
    ensures ProcessingAfter(h + [call]) <==>
      (call.StartProcessing? && call.ok && ActiveAfter(h)) ||
      (ProcessingAfter(h) && !call.StopProcessing? && !call.Deactivate?)
  {
    var g := h + [call];
    assert g[|h|] == call && g[..|h|] == h;
    if call.StartProcessing? && call.ok && ActiveAfter(h) {
      assert ProcessingSince(g, |h|);
    }
    if ProcessingAfter(h) && !call.StopProcessing? && !call.Deactivate? {
      var i :| 0 <= i < |h| && ProcessingSince(h, i);
      assert g[..i] == h[..i];
      assert ProcessingSince(g, i);
    }
    if ProcessingAfter(g) {
      var i :| 0 <= i < |g| && ProcessingSince(g, i);
      if i < |h| {
        assert g[..i] == h[..i];
        assert ProcessingSince(h, i) by {
          assert forall j | i < j < |h| :: g[j] == h[j];
        }
      }
    }
  }

  // ---- the flags are the history ----

  ghost predicate ReadsAs(m: Monitor, h: seq<Call>) {
    (m.initialized <==> InitializedAfter(h)) && (m.active <==> ActiveAfter(h)) &&
    (m.processing <==> ProcessingAfter(h)) && !m.inProcess && !m.beingActivated &&
    m.pending == Requested(h) % V.UINT32 && (m.processing ==> m.active) &&
    (m.active ==> 1 <= m.snapshot.minFrames <= m.snapshot.maxFrames)
  }

  /** After any calls and any answers of the subclass, the flags say what the history says. */
  lemma {:induction false} FlagsReadHistory(host: Host, h: seq<Call>)
    requires ValidProvider(host.provider)
    ensures ReadsAs(Run(host, h).monitor, h)
  {
    hide ReadsAs, Step;
    if h != [] {
      var front, last := h[..|h| - 1], h[|h| - 1];
      FlagsReadHistory(host, front);
      FlagsNext(Run(host, front), front, last);
      assert h == front + [last];
    } else {
      StartsAsRead();
    }
  }

  lemma StartsAsRead()
    ensures ReadsAs(Initial(), [])
  {
  }

  lemma FlagsNext(s: State, h: seq<Call>, call: Call)
    requires WellFormed(s) && ReadsAs(s.monitor, h)
    ensures ReadsAs(Step(s, call).monitor, h + [call])
  {
    hide Step, InitializedAfter, ActiveAfter, ProcessingAfter, RegistryAfter, ProviderAfter, Reached, Captured,
         SteadyNext, Requested, V.Bumped;
    StepParts(s, call);
    BoundsNext(s, call);
    InitializedNext(h, call);
    ActiveNext(h, call);
    ProcessingNext(h, call);
    RequestedNext(h, call);
  }

  /** The bounds in force are always sensible: activation clamps them. */
  lemma BoundsNext(s: State, call: Call)
    requires WellFormed(s)
    requires s.monitor.active ==> 1 <= s.monitor.snapshot.minFrames <= s.monitor.snapshot.maxFrames
    ensures var m := Step(s, call).monitor; m.active ==> 1 <= m.snapshot.minFrames <= m.snapshot.maxFrames
  {
    hide Step, RegistryAfter, ProviderAfter, Reached, LivePorts, SteadyNext, V.Bumped;
    StepParts(s, call);
    SnapshotNext(s, call);
  }

  lemma RequestedNext(h: seq<Call>, call: Call)
    ensures Requested(h + [call]) % V.UINT32 ==
      if call.OnMainThread? then 0
      else if call.RequestCallback? then V.Bumped(Requested(h) % V.UINT32)
      else Requested(h) % V.UINT32
  {
    assert (h + [call])[..|h|] == h;
    V.BumpedMod(Requested(h));
  }

  /** The bounds in force are those of the activate() call that began this activation. */
  lemma {:induction false} BoundsAreActivations(host: Host, h: seq<Call>, i: nat)
    requires ValidProvider(host.provider) && ActiveSince(h, i) && !ActiveAfter(h[..i])
    ensures var low, high := h[i].minFrames, h[i].maxFrames;
      var snapshot, least := Run(host, h).monitor.snapshot, if low < 1 then 1 else low;
      snapshot.minFrames == least && snapshot.maxFrames == if high < least then least else high
  {
    hide Step;
    var front, last := h[..|h| - 1], h[|h| - 1];
    FlagsReadHistory(host, front);
    if i < |h| - 1 {
      assert front[..i] == h[..i];
      assert ActiveSince(front, i);
      BoundsAreActivations(host, front, i);
      BoundsKept(Run(host, front), last);
    } else {
      BoundsTaken(Run(host, front), last);
    }
  }

  lemma BoundsKept(s: State, call: Call)
    requires WellFormed(s) && (s.monitor.active || !call.Activate?)
    ensures Step(s, call).monitor.snapshot == s.monitor.snapshot
  {
    hide Step, Captured;
    SnapshotNext(s, call);
  }

  lemma BoundsTaken(s: State, call: Call)
    requires WellFormed(s) && !s.monitor.active && call.Activate? && call.ok
    ensures Step(s, call).monitor.snapshot.minFrames == Max(call.minFrames, 1)
    ensures Step(s, call).monitor.snapshot.maxFrames == Max(call.maxFrames, Max(call.minFrames, 1))
  {
    hide Step, LivePorts;
    SnapshotNext(s, call);
  }

  /** An active instance has such a call. */
  lemma {:induction false} ActivationExists(h: seq<Call>)
    requires ActiveAfter(h)
    ensures exists i | 0 <= i < |h| :: ActiveSince(h, i) && !ActiveAfter(h[..i])
  {
    var i :| 0 <= i < |h| && ActiveSince(h, i);
    if ActiveAfter(h[..i]) {
      ActivationExists(h[..i]);
      var k :| 0 <= k < i && ActiveSince(h[..i], k) && !ActiveAfter(h[..i][..k]);
      assert h[..i][..k] == h[..k] && h[..i][k] == h[k];
      assert forall j | k < j < i :: h[j] == h[..i][j];
      assert ActiveSince(h, k);
    }
  }

  // ---- the counters are the breaches ----

  lemma {:induction false} ReportsCount(r: V.Registry, codes: seq<V.Code>, code: V.Code)
    requires V.WellFormed(r)
    ensures V.ReportedAll(r, codes).counters[code] == (r.counters[code] + Count(code, codes)) % V.UINT32
  {
    if codes != [] {
      ReportsCount(r, codes[..|codes| - 1], code);
      V.BumpedMod(r.counters[code] + Count(code, codes[..|codes| - 1]));
    }
  }

  /** What a call reports: nothing but what it breaks. */
  lemma CallReports(m: Monitor, h: seq<Call>, call: Call, code: V.Code)
    requires ReadsAs(m, h) && !call.ThreadFinding?
    ensures Count(code, CallFindings(m, call)) ==
      Breaches(code, h, call) + DataBreaches(m, code, h, call)
  {
    hide Count, HowMany, BreachIn, ParamEventFindings, Findings, RuleBreaches,
         InitializedAfter, ActiveAfter, ProcessingAfter;
    CountShort(code, V.L08, V.L08);
    if call.Process? {
      CountShort(code, V.L09, V.L09);
      BlockFindingsExact(code, m.snapshot, m.steady, call.data);
    } else if call.Flush? {
      FlushFindingsExact(code, m.snapshot.params, call.list);
      CountShort(code, V.T03, V.T03);
      CountAppend(code, FlushFindings(m, call.notAudio, call.notMain),
                  ParamEventFindings(m.snapshot.params, call.list, false));
      var found := FlushFindings(m, call.notAudio, call.notMain);
      assert found == [] || found == [V.T03];
    } else if call.StopProcessing? {
      StopReports(m);
    } else {
      SingleReport(m, call, code);
    }
  }

  lemma FlushFindingsExact(code: V.Code, params: seq<ParamRecord>, list: EventList)
    ensures Count(code, ParamEventFindings(params, list, false)) ==
      if code in PARAM_CODES && params != [] && list.EventList? then
        HowMany(BreachIn(code, params, list.events, false), |list.events|)
      else 0
  {
    hide Count, HowMany, ParamsFindings, BreachIn;
    CountShort(code, V.P08, V.P08);
    if params != [] && list.EventList? {
      ParamsAmong(params, list.events, false, |list.events|);
      if code in PARAM_CODES {
        ParamFindingsExact(code, params, list.events, false, |list.events|);
      } else {
        CountOutside(code, ParamEventFindings(params, list, false), PARAM_CODES);
      }
    }
  }

  lemma StopReports(m: Monitor)
    ensures CallFindings(m, StopProcessing) ==
      if !m.active && !m.processing then [V.L08, V.L08] else if m.active && m.processing then [] else [V.L08]
  {
  }

  lemma SingleReport(m: Monitor, call: Call, code: V.Code)
    requires !call.Process? && !call.StopProcessing? && !call.Flush?
    ensures var codes := CallFindings(m, call);
      |codes| <= 1 && Count(code, codes) == if codes != [] && codes[0] == code then 1 else 0
  {
    var codes := CallFindings(m, call);
    if codes != [] {
      CountShort(code, codes[0], codes[0]);
      assert codes == [codes[0]];
    }
  }

  /** Every counter is the number of breaches of its rule since the last clear, modulo 2^32. */
  lemma {:induction false} CountersAreBreaches(host: Host, h: seq<Call>, code: V.Code)
    requires ValidProvider(host.provider)
    ensures Run(host, h).monitor.registry.counters[code] == BreachesSinceClear(host, code, h) % V.UINT32
  {
    hide ReadsAs, Breaches, Flags, RegistryAfter, Reached, ProviderAfter, DataBreaches, ProcessingAfter;
    if h != [] {
      var front, last := h[..|h| - 1], h[|h| - 1];
      CountersAreBreaches(host, front, code);
      FlagsReadHistory(host, front);
      CounterNext(host, Run(host, front).monitor, front, last, code, BreachesSinceClear(host, code, front));
    }
  }

  lemma CounterNext(host: Host, m: Monitor, h: seq<Call>, call: Call, code: V.Code, n: nat)
    requires V.WellFormed(m.registry) && ReadsAs(m, h) && ValidProvider(host.provider) && m == Run(host, h).monitor
    requires m.registry.counters[code] == n % V.UINT32
    ensures RegistryAfter(m, call).counters[code] ==
      (if call.ClearViolations? then 0 else (n + AllBreaches(host, code, h, call)) % V.UINT32)
  {
    hide ReadsAs, CallFindings, V.ReportedAll, InitializedAfter, ActiveAfter, ProcessingAfter, Findings,
         RuleBreaches, HowMany, BreachIn, Run;
    if call.ThreadFinding? {
      V.BumpedMod(n);
    } else if !call.ClearViolations? {
      CallReports(m, h, call, code);
      ReportsCount(m.registry, CallFindings(m, call), code);
      ModSum(n, AllBreaches(host, code, h, call));
    }
  }

  lemma ModSum(n: nat, k: nat)
    ensures (n % V.UINT32 + k) % V.UINT32 == (n + k) % V.UINT32
  {
    var q := n / V.UINT32;
    assert n + k == q * V.UINT32 + (n % V.UINT32 + k);
    ModShift(q, n % V.UINT32 + k);
  }

  lemma {:induction false} ModShift(q: nat, n: nat)
    ensures (q * V.UINT32 + n) % V.UINT32 == n % V.UINT32
  {
    if q > 0 {
      ModShift(q - 1, n);
      V.ModAgain(q * V.UINT32 + n);
    }
  }

  /** Below the wrap a counter is zero exactly when no call since the last clear broke its rule. */
  lemma ZeroIffLegal(host: Host, h: seq<Call>, code: V.Code)
    requires ValidProvider(host.provider) && BreachesSinceClear(host, code, h) < V.UINT32
    ensures Run(host, h).monitor.registry.counters[code] == 0 <==>
      forall k | 0 <= k < |h| && NoClearFrom(h, k) :: AllBreaches(host, code, h[..k], h[k]) == 0
  {
    hide Run, AllBreaches, NoClearFrom, BreachesSinceClear;
    CountersAreBreaches(host, h, code);
    NoBreaches(host, h, code);
  }

  predicate NoClearFrom(h: seq<Call>, k: nat) { forall j | k <= j < |h| :: !h[j].ClearViolations? }

  lemma {:induction false} NoBreaches(host: Host, h: seq<Call>, code: V.Code)
    requires ValidProvider(host.provider)
    ensures BreachesSinceClear(host, code, h) == 0 <==>
      forall k | 0 <= k < |h| && NoClearFrom(h, k) :: AllBreaches(host, code, h[..k], h[k]) == 0
  {
    hide AllBreaches;
    if h != [] {
      var front := h[..|h| - 1];
      if h[|h| - 1].ClearViolations? {
        assert forall k | 0 <= k < |h| :: !NoClearFrom(h, k);
      } else {
        NoBreaches(host, front, code);
        assert NoClearFrom(h, |h| - 1);
        assert forall k | 0 <= k < |front| :: NoClearFrom(h, k) <==> NoClearFrom(front, k);
        assert forall k | 0 <= k < |front| :: front[..k] == h[..k];
      }
    }
  }

  /** One call at a time never reports L12 or P07. */
  lemma NeverConcurrent(host: Host, h: seq<Call>)
    requires ValidProvider(host.provider) && PossibleRun(h)
    ensures Run(host, h).monitor.registry.counters[V.L12] == 0 == Run(host, h).monitor.registry.counters[V.P07]
  {
    hide Run;
    CountersAreBreaches(host, h, V.L12);
    CountersAreBreaches(host, h, V.P07);
    NoOverlaps(host, h, V.L12);
    NoOverlaps(host, h, V.P07);
  }

  lemma {:induction false} NoOverlaps(host: Host, h: seq<Call>, code: V.Code)
    requires ValidProvider(host.provider) && PossibleRun(h) && (code == V.L12 || code == V.P07)
    ensures BreachesSinceClear(host, code, h) == 0
  {
    hide Run, ProcessingAfter, ActiveAfter, InitializedAfter;
    if h != [] {
      NoOverlaps(host, h[..|h| - 1], code);
    }
  }

  // ---- shielding ----

  /** Where a well-behaved host would have the subclass. */
  datatype Phase = Idle | Live | Running | Broken

  function After(phase: Phase, v: Virtual): Phase {
    match v
    case VActivate(ok) => if phase.Idle? then (if ok then Live else Idle) else Broken
    case VDeactivate => if phase.Live? then Idle else Broken
    case VStart(ok) => if phase.Live? then (if ok then Running else Live) else Broken
    case VStop => if phase.Running? then Live else Broken
    case VProcess => if phase.Running? then Running else Broken
    case _ => phase
  }

  function Walk(trace: seq<Virtual>): Phase {
    if trace == [] then Idle else After(Walk(trace[..|trace| - 1]), trace[|trace| - 1])
  }

  lemma WalkAppend(trace: seq<Virtual>, v: Virtual)
    ensures Walk(trace + [v]) == After(Walk(trace), v)
    ensures Walk(trace + []) == Walk(trace)
  {
    assert (trace + [v])[..|trace|] == trace;
    assert trace + [] == trace;
  }

  lemma WalkAppendTwo(trace: seq<Virtual>, v: Virtual, w: Virtual)
    ensures Walk(trace + [v, w]) == After(After(Walk(trace), v), w)
  {
    assert trace + [v, w] == trace + [v] + [w];
    WalkAppend(trace, v);
    WalkAppend(trace + [v], w);
  }

  function PhaseOf(m: Monitor): Phase {
    if !m.active then Idle else if m.processing then Running else Live
  }

  /** Whatever the host calls and the subclass answers, the subclass sees a legal sequence. */
  lemma {:induction false} Shielded(host: Host, h: seq<Call>)
    requires ValidProvider(host.provider)
    ensures var s := Run(host, h); Walk(s.virtuals) == PhaseOf(s.monitor)
  {
    if h != [] {
      var s, call := Run(host, h[..|h| - 1]), h[|h| - 1];
      Shielded(host, h[..|h| - 1]);
      FlagsReadHistory(host, h[..|h| - 1]);
      WalkNext(s, call);
    }
  }

  lemma WalkNext(s: State, call: Call)
    requires WellFormed(s) && Walk(s.virtuals) == PhaseOf(s.monitor) && (s.monitor.processing ==> s.monitor.active)
    ensures var t := Step(s, call); Walk(t.virtuals) == PhaseOf(t.monitor)
  {
    hide *;
    var reached := Reached(s.monitor, call);
    StepParts(s, call);
    PhaseNext(s, call);
    if |reached| <= 1 {
      WalkAppend(s.virtuals, if reached == [] then VMain else reached[0]);
      assert reached == [] || reached == [reached[0]];
    } else {
      WalkAppendTwo(s.virtuals, VStop, VDeactivate);
    }
  }

  /** The virtuals a call reaches move the automaton as the call moves the flags. */
  lemma PhaseNext(s: State, call: Call)
    requires WellFormed(s) && (s.monitor.processing ==> s.monitor.active)
    ensures var p, reached := PhaseOf(s.monitor), Reached(s.monitor, call);
      PhaseOf(Step(s, call).monitor) ==
        (if reached == [] then p
         else if |reached| == 1 then After(p, reached[0])
         else After(After(p, VStop), VDeactivate)) &&
      (|reached| <= 1 || reached == [VStop, VDeactivate])
  {
    hide Step, Flags, RegistryAfter, ProviderAfter, Processable;
    StepParts(s, call);
    RunningNext(s, call);
  }

  /** Call k of the trace comes after an `opens` that no `closes` has ended. */
  predicate Inside(trace: seq<Virtual>, k: nat, opens: Virtual -> bool, closes: Virtual -> bool) {
    k <= |trace| && exists j | 0 <= j < k ::
      opens(trace[j]) && forall i | j < i < k :: !opens(trace[i]) && !closes(trace[i])
  }

  ghost predicate InActivation(trace: seq<Virtual>, k: nat) {
    Inside(trace, k, (v: Virtual) => v == VActivate(true), (v: Virtual) => v == VDeactivate)
  }

  ghost predicate InProcessing(trace: seq<Virtual>, k: nat) {
    Inside(trace, k, (v: Virtual) => v == VStart(true), (v: Virtual) => v == VStop || v == VDeactivate)
  }

  lemma InsideNext(trace: seq<Virtual>, k: nat, opens: Virtual -> bool, closes: Virtual -> bool)
    requires 0 < k <= |trace|
    ensures Inside(trace, k, opens, closes) <==>
      opens(trace[k - 1]) || (Inside(trace, k - 1, opens, closes) && !closes(trace[k - 1]))
  {
  }

  lemma BracketsNext(trace: seq<Virtual>, k: nat)
    requires 0 < k <= |trace|
    ensures var v := trace[k - 1];
      (InActivation(trace, k) <==> v == VActivate(true) || (InActivation(trace, k - 1) && v != VDeactivate)) &&
      (InProcessing(trace, k) <==>
        v == VStart(true) || (InProcessing(trace, k - 1) && v != VStop && v != VDeactivate))
  {
    InsideNext(trace, k, (v: Virtual) => v == VActivate(true), (v: Virtual) => v == VDeactivate);
    InsideNext(trace, k, (v: Virtual) => v == VStart(true), (v: Virtual) => v == VStop || v == VDeactivate);
  }

  /** What the phases mean: brackets that are open. */
  lemma {:induction false} PhaseIsBrackets(trace: seq<Virtual>, k: nat)
    requires k <= |trace| && forall i | 0 <= i <= k :: Walk(trace[..i]) != Broken
    ensures Walk(trace[..k]) != Idle <==> InActivation(trace, k)
    ensures Walk(trace[..k]) == Running <==> InProcessing(trace, k)
  {
    if k > 0 {
      hide InActivation, InProcessing;
      PhaseIsBrackets(trace, k - 1);
      BracketsNext(trace, k);
      assert trace[..k][..k - 1] == trace[..k - 1];
    }
  }

  /** Every call the subclass sees is one a correct host could have made at that point. */
  lemma SubclassSeesLegalCalls(host: Host, h: seq<Call>, k: nat)
    requires ValidProvider(host.provider) && k < |Run(host, h).virtuals|
    ensures var trace := Run(host, h).virtuals;
      (trace[k].VProcess? || trace[k].VStop? ==> InProcessing(trace, k)) &&
      (trace[k].VStart? || trace[k].VDeactivate? ==> InActivation(trace, k) && !InProcessing(trace, k)) &&
      (trace[k].VActivate? ==> !InActivation(trace, k))
  {
    hide Run, InActivation, InProcessing;
    var trace := Run(host, h).virtuals;
    Shielded(host, h);
    NeverBroken(trace, k);
    NeverBroken(trace, k + 1);
    PhaseIsBrackets(trace, k);
    assert trace[..k + 1][..k] == trace[..k];
  }

  lemma {:induction false} NeverBroken(trace: seq<Virtual>, k: nat)
    requires k <= |trace| && Walk(trace) != Broken
    ensures forall i | 0 <= i <= k :: Walk(trace[..i]) != Broken
    decreases |trace|
  {
    if k == |trace| {
      assert trace[..k] == trace;
    }
    if trace != [] {
      var front := trace[..|trace| - 1];
      NeverBroken(front, if k < |trace| then k else |front|);
      assert forall i | 0 <= i <= |front| :: front[..i] == trace[..i];
    }
  }

  function Inits(trace: seq<Virtual>): nat {
    if trace == [] then 0 else Inits(trace[..|trace| - 1]) + if trace[|trace| - 1].VInit? then 1 else 0
  }

  /** init() reaches the subclass once, however often the host calls it. */
  lemma {:induction false} InitOnce(host: Host, h: seq<Call>)
    requires ValidProvider(host.provider)
    ensures Inits(Run(host, h).virtuals) == if InitializedAfter(h) then 1 else 0
  {
    hide InitializedAfter, Inits, Flags, RegistryAfter, Reached, ProviderAfter;
    if h != [] {
      var front, call := h[..|h| - 1], h[|h| - 1];
      var s := Run(host, front);
      InitOnce(host, front);
      FlagsReadHistory(host, front);
      InitializedNext(front, call);
      assert h == front + [call];
      ReachedShape(s.monitor, call);
      InitsNext(s.virtuals, Reached(s.monitor, call));
    } else {
      NothingYet();
    }
  }

  lemma NothingYet()
    ensures !InitializedAfter([]) && Inits([]) == 0
  {
  }

  lemma ReachedShape(m: Monitor, call: Call)
    ensures |Reached(m, call)| <= 1 || Reached(m, call) == [VStop, VDeactivate]
    ensures VInit in Reached(m, call) <==> call.Init? && !m.initialized
  {
  }

  lemma InitsNext(trace: seq<Virtual>, more: seq<Virtual>)
    requires |more| <= 1 || more == [VStop, VDeactivate]
    ensures Inits(trace + more) == Inits(trace) + if VInit in more then 1 else 0
  {
    if more == [] {
      assert trace + more == trace;
    } else if |more| == 1 {
      assert (trace + more)[..|trace|] == trace;
    } else {
      assert (trace + more)[..|trace| + 1] == trace + [VStop];
      assert (trace + [VStop])[..|trace|] == trace;
    }
  }

  // ---- cache coherence ----

  ghost predicate Coherent(s: State) {
    ValidProvider(s.provider) &&
    (s.monitor.active ==>
      s.monitor.snapshot.inputs == LivePorts(s.provider, true) &&
      s.monitor.snapshot.outputs == LivePorts(s.provider, false) && s.monitor.snapshot.params == s.params)
  }

  /** While active, the cached port table is what the live provider reports. */
  lemma {:induction false} CacheCoherent(host: Host, h: seq<Call>)
    requires ValidProvider(host.provider)
    ensures Coherent(Run(host, h))
  {
    hide Step;
    if h != [] {
      CacheCoherent(host, h[..|h| - 1]);
      CoherentNext(Run(host, h[..|h| - 1]), h[|h| - 1]);
    }
  }

  lemma CoherentNext(s: State, call: Call)
    requires WellFormed(s) && Coherent(s)
    ensures Coherent(Step(s, call))
  {
    hide LivePorts, RegistryAfter, Reached, SteadyNext, LayoutFor, V.Bumped;
  }
}

/**
 The data rules read off the host's calls alone: which activation set the frame
 bounds, which call last changed the ports, which block steady time is measured
 from. With these readings every counter is a count over the call history.
*/
module HistoryRules {
  import V = Violations
  import opened PrePass
  import opened Monitors
  import opened PortConfigs
  import opened Plugins
  import opened HostRuns
  import opened SteadyTimes

  // ---- the ports ----

  /** Call k changes the ports: the plugin is not active and agrees. */
  predicate Configures(host: Host, h: seq<Call>, k: int) {
    0 <= k < |h| && !ActiveAfter(h[..k]) &&
    ((host.provider.SurroundPorts? && h[k].ApplyConfiguration? && LayoutFor(h[k].requests) >= 0) ||
     (host.provider.MultiOutPorts? && h[k].SelectConfig? &&
      (h[k].config == STEREO_CONFIG || h[k].config == MULTI_OUT_CONFIG)))
  }

  predicate LastConfigures(host: Host, h: seq<Call>, k: int) {
    Configures(host, h, k) && forall j | k < j < |h| :: !Configures(host, h, j)
  }

  function ConfiguredBy(call: Call): Provider {
    if call.ApplyConfiguration? && LayoutFor(call.requests) >= 0 then SurroundPorts(LayoutFor(call.requests))
    else if call.SelectConfig? then MultiOutPorts(call.config)
    else Fixed([], [])
  }

  /** The provider as the latest such call left it. */
  ghost function ProviderRead(host: Host, h: seq<Call>): Provider {
    if exists k :: LastConfigures(host, h, k) then
      var k :| LastConfigures(host, h, k);
      ConfiguredBy(h[k])
    else host.provider
  }

  lemma ConfiguresNext(host: Host, h: seq<Call>, call: Call, k: int)
    ensures var g := h + [call];
      LastConfigures(host, g, k) <==>
        if Configures(host, g, |h|) then k == |h| else LastConfigures(host, h, k)
  {
    hide ActiveAfter;
    var g := h + [call];
    forall j | 0 <= j < |h| ensures Configures(host, g, j) <==> Configures(host, h, j) {
      assert g[..j] == h[..j] && g[j] == h[j];
    }
  }

  /** A provider never changes its kind. */
  predicate SameKind(p: Provider, q: Provider) {
    p.SurroundPorts? == q.SurroundPorts? && p.MultiOutPorts? == q.MultiOutPorts?
  }

  lemma ProviderNext(host: Host, s: State, h: seq<Call>, call: Call)
    requires WellFormed(s) && ReadsAs(s.monitor, h) && SameKind(s.provider, host.provider)
    ensures var t := Step(s, call);
      t.provider == (if Configures(host, h + [call], |h|) then ConfiguredBy(call) else s.provider) &&
      SameKind(t.provider, host.provider) && t.params == s.params
  {
    hide RegistryAfter, Reached, Flags, LayoutFor, ActiveAfter, ProcessingAfter, InitializedAfter;
    assert (h + [call])[..|h|] == h && (h + [call])[|h|] == call;
  }

  lemma {:induction false} ProviderReads(host: Host, h: seq<Call>)
    requires ValidProvider(host.provider)
    ensures var s := Run(host, h);
      SameKind(s.provider, host.provider) && s.params == host.params &&
      (forall k | LastConfigures(host, h, k) :: s.provider == ConfiguredBy(h[k])) &&
      ((forall k :: !LastConfigures(host, h, k)) ==> s.provider == host.provider)
  {
    hide Step, LastConfigures, Configures, ConfiguredBy;
    if h != [] {
      var front, call := h[..|h| - 1], h[|h| - 1];
      assert h == front + [call];
      ProviderReads(host, front);
      FlagsReadHistory(host, front);
      ProviderNext(host, Run(host, front), front, call);
      forall k
        ensures LastConfigures(host, h, k) <==>
          if Configures(host, h, |front|) then k == |front| else LastConfigures(host, front, k)
      {
        ConfiguresNext(host, front, call, k);
      }
      forall k | LastConfigures(host, front, k) ensures 0 <= k < |front| && front[k] == h[k] {
        InRange(host, front, k);
      }
      if Configures(host, h, |front|) {
        assert LastConfigures(host, h, |front|);
      }
    } else {
      forall k ensures !LastConfigures(host, h, k) {
        NoneConfigures(host, k);
      }
    }
  }

  lemma InRange(host: Host, h: seq<Call>, k: int)
    requires LastConfigures(host, h, k)
    ensures 0 <= k < |h|
  {
  }

  lemma NoneConfigures(host: Host, k: int)
    ensures !LastConfigures(host, [], k)
  {
  }

  lemma ProviderIsRead(host: Host, h: seq<Call>)
    requires ValidProvider(host.provider)
    ensures Run(host, h).provider == ProviderRead(host, h)
  {
    hide Run, LastConfigures;
    ProviderReads(host, h);
  }

  // ---- what activation captured ----

  predicate EverActivated(h: seq<Call>) { exists i | 0 <= i < |h| :: h[i].Activate? && h[i].ok }

  ghost function ParamsRead(host: Host, h: seq<Call>): seq<ParamRecord> {
    if EverActivated(h) then host.params else []
  }

  lemma EverNext(h: seq<Call>, call: Call)
    ensures EverActivated(h + [call]) <==> EverActivated(h) || (call.Activate? && call.ok)
  {
    var g := h + [call];
    assert g[|h|] == call && forall i | 0 <= i < |h| :: g[i] == h[i];
    if i :| 0 <= i < |h| && h[i].Activate? && h[i].ok {
      assert g[i].Activate? && g[i].ok;
    }
  }

  lemma ActiveMeansEver(h: seq<Call>)
    requires ActiveAfter(h)
    ensures EverActivated(h)
  {
  }

  lemma ParamsTaken(s: State, call: Call)
    requires WellFormed(s)
    ensures Step(s, call).monitor.snapshot.params ==
      if !s.monitor.active && call.Activate? && call.ok then s.params else s.monitor.snapshot.params
  {
    hide Step, LivePorts;
    SnapshotNext(s, call);
  }

  lemma {:induction false} ParamsAreRead(host: Host, h: seq<Call>)
    requires ValidProvider(host.provider)
    ensures Run(host, h).monitor.snapshot.params == ParamsRead(host, h)
  {
    hide Step, ActiveAfter, EverActivated, InitializedAfter, ProcessingAfter;
    if h != [] {
      var front, call := h[..|h| - 1], h[|h| - 1];
      assert h == front + [call];
      ParamsAreRead(host, front);
      FlagsReadHistory(host, front);
      ProviderReads(host, front);
      EverNext(front, call);
      ParamsTaken(Run(host, front), call);
      if ActiveAfter(front) {
        ActiveMeansEver(front);
      }
    } else {
      NeverYet();
    }
  }

  lemma NeverYet()
    ensures !EverActivated([])
  {
  }

  /** The activate() call that began the activation. */
  ghost predicate Opens(h: seq<Call>, i: int) { 0 <= i < |h| && ActiveSince(h, i) && !ActiveAfter(h[..i]) }

  lemma SomethingOpens(h: seq<Call>)
    requires ActiveAfter(h)
    ensures exists i :: Opens(h, i)
  {
    ActivationExists(h);
    var i :| 0 <= i < |h| && ActiveSince(h, i) && !ActiveAfter(h[..i]);
    assert Opens(h, i);
  }

  /** What the activation in force captured: its own bounds, the ports as last configured, the parameters. */
  ghost function SnapshotRead(host: Host, h: seq<Call>): Snapshot
    requires ValidProvider(host.provider) && ActiveAfter(h)
  {
    SomethingOpens(h);
    ProviderIsRead(host, h);
    var i :| Opens(h, i);
    Captured(MinBound(h[i].minFrames), MaxBound(h[i].minFrames, h[i].maxFrames), ProviderRead(host, h), host.params)
  }

  lemma SnapshotIsRead(host: Host, h: seq<Call>)
    requires ValidProvider(host.provider) && ActiveAfter(h)
    ensures Run(host, h).monitor.snapshot == SnapshotRead(host, h)
  {
    hide Run, ActiveAfter, LivePorts, ProviderRead, InitializedAfter, ProcessingAfter;
    SomethingOpens(h);
    FlagsReadHistory(host, h);
    CacheCoherent(host, h);
    ProviderIsRead(host, h);
    ProviderReads(host, h);
    forall i | Opens(h, i)
      ensures Run(host, h).monitor.snapshot.minFrames == MinBound(h[i].minFrames)
      ensures Run(host, h).monitor.snapshot.maxFrames == MaxBound(h[i].minFrames, h[i].maxFrames)
    {
      BoundsAreActivations(host, h, i);
    }
  }

  // ---- steady time ----

  /** The end of the block that steady time is measured from. */
  ghost function SteadyRead(h: seq<Call>): Steady {
    if HasBaseline(h) then
      var i :| Baselines(h, i);
      Baseline(EndOf(h[i].data))
    else NoBaseline
  }

  lemma SteadyIsRead(host: Host, h: seq<Call>)
    requires ValidProvider(host.provider)
    ensures Run(host, h).monitor.steady == SteadyRead(h)
  {
    hide Run, Accepted, Rebases;
    BaselineReadsHistory(host, h);
  }

  // ---- the counters ----

  /** The data rules a call breaks, from what the host did and what the plugin declared. */
  ghost function DataBreachesRead(host: Host, code: V.Code, h: seq<Call>, call: Call): nat
    requires ValidProvider(host.provider)
  {
    if call.Process? && ActiveAfter(h) && ProcessingAfter(h) then
      RuleBreaches(code, SnapshotRead(host, h), SteadyRead(h), call.data)
    else if call.Flush? && code in PARAM_CODES && ParamsRead(host, h) != [] && call.list.EventList? then
      HowMany(BreachIn(code, ParamsRead(host, h), call.list.events, false), |call.list.events|)
    else 0
  }

  /** The monitor's caches play no part: the breaches are those of the history. */
  lemma DataBreachesAreRead(host: Host, code: V.Code, h: seq<Call>, call: Call)
    requires ValidProvider(host.provider)
    ensures DataBreaches(Run(host, h).monitor, code, h, call) == DataBreachesRead(host, code, h, call)
  {
    hide Run, RuleBreaches, HowMany, BreachIn, ParamsRead, SnapshotRead, SteadyRead, ActiveAfter, ProcessingAfter,
         InitializedAfter;
    FlagsReadHistory(host, h);
    ParamsAreRead(host, h);
    SteadyIsRead(host, h);
    if ActiveAfter(h) {
      SnapshotIsRead(host, h);
    }
  }

  /** Breaches since the last clear, with nothing of the monitor in them. */
  ghost function BreachesRead(host: Host, code: V.Code, h: seq<Call>): nat
    requires ValidProvider(host.provider)
  {
    if h == [] || h[|h| - 1].ClearViolations? then 0 else
    var front, last := h[..|h| - 1], h[|h| - 1];
    BreachesRead(host, code, front) + Breaches(code, front, last) + DataBreachesRead(host, code, front, last)
  }

  lemma {:induction false} SinceClearRead(host: Host, code: V.Code, h: seq<Call>)
    requires ValidProvider(host.provider)
    ensures BreachesSinceClear(host, code, h) == BreachesRead(host, code, h)
  {
    hide Breaches, DataBreaches, DataBreachesRead, Run;
    if h != [] {
      SinceClearRead(host, code, h[..|h| - 1]);
      DataBreachesAreRead(host, code, h[..|h| - 1], h[|h| - 1]);
    }
  }

  /** Every counter of every rule is a count over the host's calls alone, modulo 2^32. */
  lemma CountersReadHistory(host: Host, h: seq<Call>, code: V.Code)
    requires ValidProvider(host.provider)
    ensures Run(host, h).monitor.registry.counters[code] == BreachesRead(host, code, h) % V.UINT32
  {
    hide Run, BreachesSinceClear, BreachesRead;
    CountersAreBreaches(host, h, code);
    SinceClearRead(host, code, h);
  }

  // ---- what the subclass gets ----

  /** The block has a buffer for every port, or not as many as ports were declared, which is left to the subclass. */
  ghost predicate Fitting(snapshot: Snapshot, data: ProcessData) {
    |data.inputs| == |snapshot.inputs| && |data.outputs| == |snapshot.outputs| ==>
      BuffersFit(snapshot.inputs, data.inputs) && BuffersFit(snapshot.outputs, data.outputs)
  }

  /** Call k is a process() call that the subclass gets to see. */
  ghost predicate Heeded(host: Host, h: seq<Call>, k: int)
    requires ValidProvider(host.provider)
  {
    0 <= k < |h| && h[k].Process? && ActiveAfter(h[..k]) && ProcessingAfter(h[..k]) &&
    Fitting(SnapshotRead(host, h[..k]), h[k].data)
  }

  /** What a call owes the subclass after history h. */
  ghost function Owed(host: Host, h: seq<Call>, call: Call): seq<Virtual>
    requires ValidProvider(host.provider)
  {
    match call
    case Init(_) => if InitializedAfter(h) then [] else [VInit]
    case Activate(_, _, ok) => if ActiveAfter(h) then [] else [VActivate(ok)]
    case Deactivate =>
      if !ActiveAfter(h) then [] else if ProcessingAfter(h) then [VStop, VDeactivate] else [VDeactivate]
    case StartProcessing(ok) => if ActiveAfter(h) && !ProcessingAfter(h) then [VStart(ok)] else []
    case StopProcessing => if ProcessingAfter(h) then [VStop] else []
    case Reset => [VReset]
    case Flush(_, _, _) => [VFlush]
    case OnMainThread => [VMain]
    case Process(data) =>
      if ActiveAfter(h) && ProcessingAfter(h) && Fitting(SnapshotRead(host, h), data) then [VProcess] else []
    case _ => []
  }

  ghost function AllOwed(host: Host, h: seq<Call>): seq<Virtual>
    requires ValidProvider(host.provider)
  {
    if h == [] then [] else
    var front, last := h[..|h| - 1], h[|h| - 1];
    AllOwed(host, front) + Owed(host, front, last)
  }

  /** The subclass gets exactly what the calls owe it, in order. */
  lemma {:induction false} SubclassGetsWhatIsOwed(host: Host, h: seq<Call>)
    requires ValidProvider(host.provider)
    ensures Run(host, h).virtuals == AllOwed(host, h)
  {
    hide Step, Owed;
    if h != [] {
      var front, last := h[..|h| - 1], h[|h| - 1];
      SubclassGetsWhatIsOwed(host, front);
      OwedNext(host, front, last);
    }
  }

  lemma OwedNext(host: Host, h: seq<Call>, call: Call)
    requires ValidProvider(host.provider)
    ensures var s := Run(host, h); Step(s, call).virtuals == s.virtuals + Owed(host, h, call)
  {
    hide Run, Step, InitializedAfter, ActiveAfter, ProcessingAfter, SnapshotRead, BuffersFit, Reached;
    var s := Run(host, h);
    FlagsReadHistory(host, h);
    if call.Process? {
      if ActiveAfter(h) {
        SnapshotIsRead(host, h);
      }
      DeliveredIff(s, call.data);
      assert s.virtuals + [] == s.virtuals;
    } else {
      StepParts(s, call);
      ReachedIsOwed(host, s.monitor, h, call);
    }
  }

  lemma ReachedIsOwed(host: Host, m: Monitor, h: seq<Call>, call: Call)
    requires ValidProvider(host.provider) && ReadsAs(m, h) && !call.Process?
    ensures Reached(m, call) == Owed(host, h, call)
  {
    hide InitializedAfter, ActiveAfter, ProcessingAfter;
  }

  function Times(v: Virtual, trace: seq<Virtual>): nat {
    if trace == [] then 0 else Times(v, trace[..|trace| - 1]) + if trace[|trace| - 1] == v then 1 else 0
  }

  lemma TimesOfShort(v: Virtual, a: seq<Virtual>, b: seq<Virtual>)
    requires |b| <= 1 || b == [VStop, VDeactivate]
    ensures Times(v, a + b) == Times(v, a) + (if v in b then 1 else 0)
  {
    if b == [] {
      assert a + b == a;
    } else if |b| == 1 {
      assert (a + b)[..|a|] == a;
    } else {
      assert (a + b)[..|a| + 1] == a + [VStop];
      assert (a + [VStop])[..|a|] == a;
    }
  }

  /** How many process() calls of a history the subclass is to see. */
  ghost function HeededCalls(host: Host, h: seq<Call>): nat
    requires ValidProvider(host.provider)
  {
    if h == [] then 0
    else HeededCalls(host, h[..|h| - 1]) + if Heeded(host, h, |h| - 1) then 1 else 0
  }

  /** The subclass processes exactly as many blocks as the host passed in order, with fitting buffers. */
  lemma {:induction false} BlocksDelivered(host: Host, h: seq<Call>)
    requires ValidProvider(host.provider)
    ensures Times(VProcess, Run(host, h).virtuals) == HeededCalls(host, h)
  {
    hide Step, Owed, SnapshotRead, ActiveAfter, ProcessingAfter, Fitting;
    if h != [] {
      var front, last := h[..|h| - 1], h[|h| - 1];
      BlocksDelivered(host, front);
      OwedNext(host, front, last);
      OwedShape(host, front, last);
      TimesOfShort(VProcess, Run(host, front).virtuals, Owed(host, front, last));
    }
  }

  lemma OwedShape(host: Host, h: seq<Call>, call: Call)
    requires ValidProvider(host.provider)
    ensures var owed := Owed(host, h, call);
      (|owed| <= 1 || owed == [VStop, VDeactivate]) &&
      (VProcess in owed <==>
        call.Process? && ActiveAfter(h) && ProcessingAfter(h) && Fitting(SnapshotRead(host, h), call.data))
  {
    hide InitializedAfter, ActiveAfter, ProcessingAfter, SnapshotRead, Fitting;
  }
}

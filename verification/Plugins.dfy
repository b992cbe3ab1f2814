/**
 The trampolines of src/wrapper/plugin.cpp: each host call is checked against the
 monitor's flags, reported if it breaks a rule, and passed on to the subclass only
 where that is safe. What the subclass virtuals answer is a parameter of the call.
*/
module Plugins {
  import V = Violations
  import opened PrePass
  import opened Monitors
  import opened PortConfigs

  // ---- the port provider ----

  datatype Provider =
    | Fixed(inputs: seq<PortInfo>, outputs: seq<PortInfo>)
    | SurroundPorts(layout: nat)
    | MultiOutPorts(config: nat)

  predicate ValidProvider(p: Provider) {
    (p.SurroundPorts? ==> p.layout < LAYOUT_COUNT) &&
    (p.MultiOutPorts? ==> p.config == STEREO_CONFIG || p.config == MULTI_OUT_CONFIG)
  }

  /** What audioPortCount and audioPortInfo would report now. */
  function LivePorts(p: Provider, isInput: bool): seq<PortInfo>
    requires ValidProvider(p)
  {
    match p
    case Fixed(inputs, outputs) => if isInput then inputs else outputs
    case SurroundPorts(layout) => Ports(layout)
    case MultiOutPorts(config) => if isInput then [] else ConfigPorts(config)
  }

  function AudioPortCount(p: Provider, isInput: bool): nat
    requires ValidProvider(p)
  {
    match p
    case Fixed(inputs, outputs) => if isInput then |inputs| else |outputs|
    case SurroundPorts(_) => 1
    case MultiOutPorts(config) => if isInput then 0 else if config == MULTI_OUT_CONFIG then MULTI_OUT_PORTS else 1
  }

  function AudioPortInfo(p: Provider, i: nat, isInput: bool): PortInfo
    requires ValidProvider(p) && i < AudioPortCount(p, isInput)
  {
    match p
    case Fixed(inputs, outputs) => if isInput then inputs[i] else outputs[i]
    case SurroundPorts(layout) => PortInfo(LayoutAt(layout).channels, false, false)
    case MultiOutPorts(_) => PortInfo(2, false, false)
  }

  /**
   The ports a host is to be told of: those of a fixed table; in and out alike one
   surround port of 4, 6 or 8 channels; or no input and one or five stereo outputs.
  */
  lemma PortsAre(p: Provider, isInput: bool)
    requires ValidProvider(p)
    ensures var ports := LivePorts(p, isInput);
      match p
      case Fixed(inputs, outputs) => (isInput ==> ports == inputs) && (!isInput ==> ports == outputs)
      case SurroundPorts(layout) => |ports| == 1 && ports[0] == PortInfo(4 + 2 * layout, false, false)
      case MultiOutPorts(config) =>
        |ports| == (if isInput then 0 else if config == 0 then 1 else 5) &&
        forall i | 0 <= i < |ports| :: ports[i] == PortInfo(2, false, false)
  {
  }

  // ---- calls ----

  datatype ExtensionId = NullId | ViolationsId | OtherId

  datatype Call =
    | Init(ok: bool)
    | Destroy
    | Activate(minFrames: nat, maxFrames: nat, ok: bool)
    | Deactivate
    | StartProcessing(ok: bool)
    | StopProcessing
    | Reset
    | Process(data: ProcessData)
    | Flush(list: EventList, notAudio: bool, notMain: bool)
    | GetExtension(id: ExtensionId)
    | OnMainThread
    | RequestCallback
    | TailGet(elsewhere: bool)
    | ThreadFinding(code: V.Code)
    | ClearViolations
    | CanApplyConfiguration(requests: Requests)
    | ApplyConfiguration(requests: Requests)
    | SelectConfig(config: nat)

  predicate Possible(call: Call) {
    call.ThreadFinding? ==> V.T01 <= call.code < V.T03
  }

  /** A call the wrapper makes to the subclass. */
  datatype Virtual =
    | VInit | VActivate(ok: bool) | VDeactivate | VStart(ok: bool) | VStop | VReset | VProcess | VFlush | VMain

  datatype State = State(monitor: Monitor, provider: Provider, params: seq<ParamRecord>, virtuals: seq<Virtual>)

  ghost predicate WellFormed(s: State) {
    V.WellFormed(s.monitor.registry) && ValidProvider(s.provider)
  }

  function Max(a: nat, b: nat): nat { if a > b then a else b }

  function MinBound(minFrames: nat): nat { Max(minFrames, 1) }

  function MaxBound(minFrames: nat, maxFrames: nat): nat { Max(maxFrames, MinBound(minFrames)) }

  function Captured(minFrames: nat, maxFrames: nat, p: Provider, params: seq<ParamRecord>): Snapshot
    requires ValidProvider(p)
  {
    Snapshot(minFrames, maxFrames, LivePorts(p, true), LivePorts(p, false), params)
  }

  predicate BadBounds(minFrames: nat, maxFrames: nat) { minFrames < 1 || maxFrames < minFrames }

  /** flush() during process(), and on a thread the host has confirmed to be the wrong one. */
  function FlushFindings(m: Monitor, notAudio: bool, notMain: bool): seq<V.Code> {
    (if m.inProcess then [V.P07] else []) + (if (if m.active then notAudio else notMain) then [V.T03] else [])
  }

  /** The codes a call is reported with. */
  function CallFindings(m: Monitor, call: Call): seq<V.Code> {
    match call
    case Init(_) => if m.initialized then [V.L02] else []
    case Destroy => if m.active then [V.L06] else []
    case Activate(minFrames, maxFrames, _) =>
      if m.active then [V.L03] else if BadBounds(minFrames, maxFrames) then [V.L13] else []
    case Deactivate => if !m.active then [V.L04] else if m.processing then [V.L05] else []
    case StartProcessing(_) => if !m.active || m.processing then [V.L07] else []
    case StopProcessing => (if !m.active then [V.L08] else []) + (if !m.processing then [V.L08] else [])
    case Reset => if !m.active then [V.L10] else []
    case Process(data) =>
      if m.inProcess then [V.L12]
      else if !m.active || !m.processing then [V.L09]
      else Findings(m.snapshot, m.steady, data)
    case Flush(list, notAudio, notMain) =>
      FlushFindings(m, notAudio, notMain) + ParamEventFindings(m.snapshot.params, list, false)
    case GetExtension(id) => if !m.initialized && id.OtherId? then [V.L01] else []
    case TailGet(elsewhere) => if elsewhere then [V.T04] else []
    case OnMainThread => if m.pending == 0 then [V.L11] else []
    case CanApplyConfiguration(_) => if m.active then [V.CA01] else []
    case ApplyConfiguration(_) => if m.active then [V.CA01] else []
    case SelectConfig(_) => if m.active then [V.AC01] else []
    case _ => []
  }

  /** The virtuals a call reaches. */
  function Reached(m: Monitor, call: Call): seq<Virtual> {
    match call
    case Init(_) => if m.initialized then [] else [VInit]
    case Activate(_, _, ok) => if m.active then [] else [VActivate(ok)]
    case Deactivate => if !m.active then [] else if m.processing then [VStop, VDeactivate] else [VDeactivate]
    case StartProcessing(ok) => if !m.active || m.processing then [] else [VStart(ok)]
    case StopProcessing => if m.processing then [VStop] else []
    case Reset => [VReset]
    case Process(data) =>
      if m.inProcess || !m.active || !m.processing || !Processable(m.snapshot, data) then [] else [VProcess]
    case Flush(_, _, _) => [VFlush]
    case OnMainThread => [VMain]
    case _ => []
  }

  /** The flags and caches after a call; the registry is not touched here. */
  function Flags(s: State, call: Call): Monitor
    requires ValidProvider(s.provider)
  {
    var m := s.monitor;
    match call
    case Init(_) => m.(initialized := true)
    case Activate(minFrames, maxFrames, ok) =>
      if m.active then m
      else if ok then
        var snapshot := Captured(MinBound(minFrames), MaxBound(minFrames, maxFrames), s.provider, s.params);
        m.(active := true, beingActivated := false, snapshot := snapshot)
      else m.(beingActivated := false)
    case Deactivate => if m.active then m.(active := false, processing := false) else m
    case StartProcessing(ok) =>
      if !m.active || m.processing then m else m.(processing := ok, steady := NoBaseline)
    case StopProcessing => m.(processing := false)
    case Reset => m.(steady := NoBaseline)
    case Process(data) =>
      if m.inProcess || !m.active || !m.processing then m
      else m.(steady := SteadyNext(data.steadyTime, data.frames))
    case OnMainThread => m.(pending := 0)
    case RequestCallback => m.(pending := V.Bumped(m.pending))
    case _ => m
  }

  function ProviderAfter(s: State, call: Call): (p: Provider)
    requires ValidProvider(s.provider)
    ensures ValidProvider(p)
  {
    if s.monitor.active then s.provider
    else if call.ApplyConfiguration? && s.provider.SurroundPorts? && LayoutFor(call.requests) >= 0
    then SurroundPorts(LayoutFor(call.requests))
    else if call.SelectConfig? && s.provider.MultiOutPorts? &&
      (call.config == STEREO_CONFIG || call.config == MULTI_OUT_CONFIG)
    then MultiOutPorts(call.config)
    else s.provider
  }

  function RegistryAfter(m: Monitor, call: Call): (r: V.Registry)
    requires V.WellFormed(m.registry)
    ensures V.WellFormed(r)
  {
    match call
    case ThreadFinding(code) => V.Noted(m.registry, code, 0)
    case ClearViolations => V.Cleared(m.registry)
    case _ => V.ReportedAll(m.registry, CallFindings(m, call))
  }

  function Step(s: State, call: Call): (t: State)
    requires WellFormed(s)
    ensures WellFormed(t)
  {
    State(Flags(s, call).(registry := RegistryAfter(s.monitor, call)),
          ProviderAfter(s, call), s.params, s.virtuals + Reached(s.monitor, call))
  }

  /** The monitor after the guarded part of process(). */
  function Checked(m: Monitor, data: ProcessData): Monitor
    requires V.WellFormed(m.registry)
  {
    if m.active && m.processing then
      m.(registry := V.ReportedAll(m.registry, Findings(m.snapshot, m.steady, data)),
         steady := SteadyNext(data.steadyTime, data.frames))
    else m.(registry := V.ReportedAll(m.registry, [V.L09]))
  }

  predicate Delivered(m: Monitor, data: ProcessData) {
    m.active && m.processing && Processable(m.snapshot, data)
  }

  lemma StepParts(s: State, call: Call)
    requires WellFormed(s)
    ensures var t := Step(s, call);
      t.monitor == Flags(s, call).(registry := RegistryAfter(s.monitor, call)) && t.params == s.params &&
      t.provider == ProviderAfter(s, call) && t.virtuals == s.virtuals + Reached(s.monitor, call)
  {
    hide Flags, RegistryAfter, ProviderAfter, Reached;
  }

  /** The two running flags after a call. */
  lemma RunningNext(s: State, call: Call)
    requires ValidProvider(s.provider)
    ensures var m, r := s.monitor, Flags(s, call);
      r.active == (if call.Activate? then m.active || call.ok else !call.Deactivate? && m.active) &&
      r.processing ==
        (if call.StartProcessing? then m.processing || (m.active && call.ok)
         else if call.Deactivate? then !m.active && m.processing
         else !call.StopProcessing? && m.processing)
  {
    hide Captured, SteadyNext, V.Bumped;
  }

  /** Every buffer the block brings for a port is of a size the port takes. */
  ghost predicate BuffersFit(ports: seq<PortInfo>, buffers: seq<Buffer>) {
    forall i | 0 <= i < |ports| && i < |buffers| ::
      buffers[i].has32 || (buffers[i].has64 && ports[i].supports64)
  }

  /**
   A process() call reaches the subclass if and only if no other is inside, the
   plugin is active and processing, and either the port counts differ from the
   captured ones or every port of both directions has a buffer it can take.
  */
  lemma DeliveredIff(s: State, data: ProcessData)
    requires WellFormed(s)
    ensures var m := s.monitor;
      var counted := |data.inputs| == |m.snapshot.inputs| && |data.outputs| == |m.snapshot.outputs|;
      var fits := BuffersFit(m.snapshot.inputs, data.inputs) && BuffersFit(m.snapshot.outputs, data.outputs);
      Step(s, Process(data)).virtuals ==
        if !m.inProcess && m.active && m.processing && (counted ==> fits) then s.virtuals + [VProcess]
        else s.virtuals
  {
    hide Flags, RegistryAfter, ProviderAfter;
    assert s.virtuals + [] == s.virtuals;
  }

  /** Only an activate() that succeeds replaces what is captured. */
  lemma SnapshotNext(s: State, call: Call)
    requires WellFormed(s)
    ensures Step(s, call).monitor.snapshot ==
      if !s.monitor.active && call.Activate? && call.ok
      then Captured(MinBound(call.minFrames), MaxBound(call.minFrames, call.maxFrames), s.provider, s.params)
      else s.monitor.snapshot
  {
    hide Step, Flags, RegistryAfter, ProviderAfter, Reached, Captured, MinBound, MaxBound;
    StepParts(s, call);
    FlagsSnapshot(s, call);
  }

  lemma FlagsSnapshot(s: State, call: Call)
    requires ValidProvider(s.provider)
    ensures Flags(s, call).snapshot ==
      if !s.monitor.active && call.Activate? && call.ok
      then Captured(MinBound(call.minFrames), MaxBound(call.minFrames, call.maxFrames), s.provider, s.params)
      else s.monitor.snapshot
  {
    hide SteadyNext, V.Bumped, Captured, MinBound, MaxBound, ValidProvider;
    match call
    case Activate(_, _, _) =>
    case _ =>
  }

  /** Step for a process() call that got past the guard. */
  lemma StepEntered(s: State, data: ProcessData)
    requires WellFormed(s) && !s.monitor.inProcess
    ensures var guarded := s.monitor.(inProcess := true);
      Step(s, Process(data)) ==
        s.(monitor := Checked(guarded, data).(inProcess := false),
           virtuals := if Delivered(guarded, data) then s.virtuals + [VProcess] else s.virtuals)
  {
    assert s.virtuals == s.virtuals + [];
  }

  /** Step for an activate() call on an inactive instance. */
  lemma StepActivates(s: State, minFrames: nat, maxFrames: nat, ok: bool)
    requires WellFormed(s) && !s.monitor.active
    ensures var codes := if BadBounds(minFrames, maxFrames) then [V.L13] else [];
      var snapshot := Captured(MinBound(minFrames), MaxBound(minFrames, maxFrames), s.provider, s.params);
      var m := s.monitor.(registry := V.ReportedAll(s.monitor.registry, codes), beingActivated := false);
      Step(s, Activate(minFrames, maxFrames, ok)) ==
        s.(monitor := if ok then m.(active := true, snapshot := snapshot) else m,
           virtuals := s.virtuals + [VActivate(ok)])
  {
    hide V.ReportedAll, Captured;
  }

  lemma StepFlushes(s: State, list: EventList, notAudio: bool, notMain: bool)
    requires WellFormed(s)
    ensures var codes := FlushFindings(s.monitor, notAudio, notMain);
      var found := codes + ParamEventFindings(s.monitor.snapshot.params, list, false);
      Step(s, Flush(list, notAudio, notMain)) ==
        s.(monitor := s.monitor.(registry := V.ReportedAll(s.monitor.registry, found)),
           virtuals := s.virtuals + [VFlush])
  {
    hide V.ReportedAll, ParamEventFindings, FlushFindings;
  }

  lemma StepDeactivates(s: State)
    requires WellFormed(s) && s.monitor.active
    ensures var codes := if s.monitor.processing then [V.L05] else [];
      var m := s.monitor.(registry := V.ReportedAll(s.monitor.registry, codes), active := false, processing := false);
      Step(s, Deactivate) ==
        s.(monitor := m,
           virtuals := s.virtuals + if s.monitor.processing then [VStop, VDeactivate] else [VDeactivate])
  {
    hide V.ReportedAll;
  }

  lemma StepStops(s: State)
    requires WellFormed(s)
    ensures var m := s.monitor;
      Step(s, StopProcessing) ==
        s.(monitor := m.(registry := V.ReportedAll(m.registry, CallFindings(m, StopProcessing)), processing := false),
           virtuals := if m.processing then s.virtuals + [VStop] else s.virtuals)
  {
    hide V.ReportedAll, CallFindings;
    assert s.virtuals + [] == s.virtuals;
  }

  lemma StepAsks(s: State, requests: Requests)
    requires WellFormed(s)
    ensures var m, codes := s.monitor, if s.monitor.active then [V.CA01] else [];
      Step(s, CanApplyConfiguration(requests)) ==
        s.(monitor := m.(registry := V.ReportedAll(m.registry, codes)))
  {
    hide V.ReportedAll;
    assert s.virtuals + [] == s.virtuals;
  }

  lemma StepConfigures(s: State, requests: Requests)
    requires WellFormed(s)
    ensures var m, codes := s.monitor, if s.monitor.active then [V.CA01] else [];
      Step(s, ApplyConfiguration(requests)) ==
        s.(monitor := m.(registry := V.ReportedAll(m.registry, codes)),
           provider := if !m.active && s.provider.SurroundPorts? && LayoutFor(requests) >= 0
                       then SurroundPorts(LayoutFor(requests)) else s.provider)
  {
    hide V.ReportedAll, LayoutFor;
    assert s.virtuals + [] == s.virtuals;
  }

  lemma StepSelects(s: State, config: nat)
    requires WellFormed(s)
    ensures var m, codes := s.monitor, if s.monitor.active then [V.AC01] else [];
      Step(s, SelectConfig(config)) ==
        s.(monitor := m.(registry := V.ReportedAll(m.registry, codes)),
           provider :=
             if !m.active && s.provider.MultiOutPorts? && (config == STEREO_CONFIG || config == MULTI_OUT_CONFIG)
             then MultiOutPorts(config) else s.provider)
  {
    hide V.ReportedAll;
    assert s.virtuals + [] == s.virtuals;
  }

  lemma StepMain(s: State)
    requires WellFormed(s)
    ensures var r, codes := s.monitor.registry, if s.monitor.pending == 0 then [V.L11] else [];
      Step(s, OnMainThread) ==
        s.(monitor := s.monitor.(registry := V.ReportedAll(r, codes), pending := 0), virtuals := s.virtuals + [VMain])
  {
    hide V.ReportedAll;
  }

  lemma StepRefused(s: State, data: ProcessData)
    requires WellFormed(s) && s.monitor.inProcess
    ensures Step(s, Process(data)) ==
      s.(monitor := s.monitor.(registry := V.ReportedAll(s.monitor.registry, [V.L12])))
  {
    assert s.virtuals == s.virtuals + [];
  }

  lemma NothingReported(r: V.Registry)
    requires V.WellFormed(r)
    ensures V.ReportedAll(r, []) == r
  {
  }

  lemma OneReported(r: V.Registry, codes: seq<V.Code>, code: V.Code)
    requires V.WellFormed(r)
    ensures V.ReportedAll(r, codes + [code]) == V.Reported(V.ReportedAll(r, codes), code, 0)
    ensures codes == [] ==> codes + [code] == [code]
  {
    assert (codes + [code])[..|codes|] == codes;
  }

  // ---- the class ----

  class Plugin {
    const contract: ContractMonitor
    const params: seq<ParamRecord>
    var provider: Provider
    var virtuals: seq<Virtual>

    ghost predicate Valid()
      ensures Valid() ==> V.WellFormed(contract.registry) && ValidProvider(provider)
      reads `provider, contract`total, contract`lastCode, contract`log, contract`registry,
            contract.counters, contract.messages
    {
      contract.Valid() && ValidProvider(provider)
    }

    ghost function Now(): State
      reads this, contract
    {
      State(contract.State(), provider, params, virtuals)
    }

    constructor (provider: Provider, params: seq<ParamRecord>)
      requires ValidProvider(provider)
      ensures Valid() && fresh(contract) && fresh(contract.counters) && fresh(contract.messages)
      ensures Now() == State(Initial(), provider, params, [])
    {
      contract := new ContractMonitor();
      this.provider, this.params, virtuals := provider, params, [];
    }

    /** Reports one code, extending a list of reports already made. */
    method Report(code: V.Code, ghost before: V.Registry, ghost codes: seq<V.Code>)
      requires Valid() && V.WellFormed(before) && contract.registry == V.ReportedAll(before, codes)
      modifies contract`total, contract`lastCode, contract`log, contract`registry, contract.counters, contract.messages
      ensures Valid() && contract.registry == V.ReportedAll(before, codes + [code])
      ensures contract.State() == old(contract.State()).(registry := contract.registry)
      ensures codes == [] ==> contract.registry == V.ReportedAll(before, [code])
    {
      hide ContractMonitor.Valid, ContractMonitor.State, V.Reported, V.ReportedAll, V.WellFormed;
      contract.Report(code, 0);
      OneReported(before, codes, code);
    }

    method SInit(ok: bool) returns (r: bool)
      requires Valid()
      modifies this, contract, contract.counters, contract.messages
      ensures Valid() && Now() == Step(old(Now()), Init(ok))
      ensures r == (old(contract.initialized) || ok)
    {
      hide ContractMonitor.Valid, ContractMonitor.State, V.ReportedAll, Findings, Captured, LayoutFor;
      if contract.initialized {
        Report(V.L02, contract.registry, []);
        assert virtuals == virtuals + [];
        return true;
      }
      contract.SetInitialized();
      virtuals := virtuals + [VInit];
      r := ok;
    }

    method SDestroy()
      requires Valid()
      modifies this, contract, contract.counters, contract.messages
      ensures Valid() && Now() == Step(old(Now()), Destroy)
    {
      hide ContractMonitor.Valid, ContractMonitor.State, V.ReportedAll, Findings, Captured, LayoutFor;
      if contract.active {
        Report(V.L06, contract.registry, []);
      }
      assert virtuals == virtuals + [];
    }

    method SActivate(minFrames: nat, maxFrames: nat, ok: bool) returns (r: bool)
      requires Valid()
      modifies this, contract, contract.counters, contract.messages
      ensures Valid() && Now() == Step(old(Now()), Activate(minFrames, maxFrames, ok))
      ensures r == (!old(contract.active) && ok)
    {
      hide ContractMonitor.Valid, ContractMonitor.State, V.ReportedAll, Findings, Captured, LayoutFor;
      r := false;
      if contract.active {
        assert virtuals == virtuals + [];
        Report(V.L03, contract.registry, []);
      } else {
        r := ok;
        BeActivated(minFrames, maxFrames, ok);
      }
    }

    /** The part of activate() behind the check; the subclass answers `ok`. */
    method BeActivated(minFrames: nat, maxFrames: nat, ok: bool)
      requires Valid() && !contract.active
      modifies this, contract, contract.counters, contract.messages
      ensures Valid() && Now() == Step(old(Now()), Activate(minFrames, maxFrames, ok))
    {
      hide ContractMonitor.Valid, ContractMonitor.State, V.ReportedAll, Findings, Captured, Step;
      ghost var before := Now();
      var low, high := CheckBounds(minFrames, maxFrames);
      CallActivate(low, high, ok);
      StepActivates(before, minFrames, maxFrames, ok);
    }

    /** The [being-activated] window around the subclass call. */
    method CallActivate(low: nat, high: nat, ok: bool)
      requires Valid()
      modifies `virtuals, contract`beingActivated, contract`active, contract`snapshot
      ensures Valid() && virtuals == old(virtuals) + [VActivate(ok)]
      ensures var m := old(contract.State()).(beingActivated := false);
        contract.State() ==
          if ok then m.(active := true, snapshot := Captured(low, high, provider, params)) else m
    {
      hide ContractMonitor.Valid, ContractMonitor.State, Captured;
      contract.SetBeingActivated(true);
      virtuals := virtuals + [VActivate(ok)];
      Activated(low, high, ok);
    }

    /** The subclass has answered: if it agreed, capture what it reports now and count as active. */
    method Activated(low: nat, high: nat, ok: bool)
      requires Valid()
      modifies contract`beingActivated, contract`active, contract`snapshot
      ensures Valid()
      ensures var m := old(contract.State()).(beingActivated := false);
        contract.State() ==
          if ok then m.(active := true, snapshot := Captured(low, high, provider, params)) else m
    {
      hide ContractMonitor.Valid, ContractMonitor.State, Captured;
      if ok {
        CaptureActivateSnapshot(low, high);
        contract.SetActive(true);
      }
      contract.SetBeingActivated(false);
    }

    method CheckBounds(minFrames: nat, maxFrames: nat) returns (low: nat, high: nat)
      requires Valid()
      modifies contract`total, contract`lastCode, contract`log, contract`registry, contract.counters, contract.messages
      ensures Valid() && low == MinBound(minFrames) && high == MaxBound(minFrames, maxFrames)
      ensures var codes := if BadBounds(minFrames, maxFrames) then [V.L13] else [];
        contract.State() == old(contract.State()).(registry := V.ReportedAll(old(contract.registry), codes))
    {
      hide ContractMonitor.Valid, V.ReportedAll, Findings, Captured, LayoutFor;
      low, high := minFrames, maxFrames;
      if minFrames < 1 || maxFrames < minFrames {
        Report(V.L13, contract.registry, []);
        low := Max(low, 1);
        high := Max(high, low);
      }
    }

    method CaptureActivateSnapshot(minFrames: nat, maxFrames: nat)
      requires Valid()
      modifies contract`snapshot
      ensures contract.State() == old(contract.State()).(snapshot := Captured(minFrames, maxFrames, provider, params))
    {
      var inputs := ScanPorts(true);
      var outputs := ScanPorts(false);
      contract.SetSnapshot(Snapshot(minFrames, maxFrames, inputs, outputs, params));
    }

    method ScanPorts(isInput: bool) returns (layout: seq<PortInfo>)
      requires Valid()
      ensures layout == LivePorts(provider, isInput)
    {
      layout := [];
      var count := AudioPortCount(provider, isInput);
      for i := 0 to count
        invariant |layout| == i && forall j | 0 <= j < i :: layout[j] == AudioPortInfo(provider, j, isInput)
      {
        layout := layout + [AudioPortInfo(provider, i, isInput)];
      }
      assert |LivePorts(provider, isInput)| == count;
      assert forall j | 0 <= j < count :: LivePorts(provider, isInput)[j] == AudioPortInfo(provider, j, isInput);
    }

    method SDeactivate()
      requires Valid()
      modifies this, contract, contract.counters, contract.messages
      ensures Valid() && Now() == Step(old(Now()), Deactivate)
    {
      hide ContractMonitor.Valid, ContractMonitor.State, V.ReportedAll, Findings, Captured, LayoutFor;
      if !contract.active {
        Report(V.L04, contract.registry, []);
        assert virtuals == virtuals + [];
      } else {
        BeDeactivated();
      }
    }

    /** The part of deactivate() behind the check. */
    method BeDeactivated()
      requires Valid() && contract.active
      modifies this, contract, contract.counters, contract.messages
      ensures Valid() && Now() == Step(old(Now()), Deactivate)
    {
      hide ContractMonitor.Valid, ContractMonitor.State, V.ReportedAll, Step;
      ghost var before := Now();
      if contract.processing {
        Report(V.L05, contract.registry, []);
        virtuals := virtuals + [VStop];
        contract.SetProcessing(false);
      }
      virtuals := virtuals + [VDeactivate];
      assert before.virtuals + [VStop] + [VDeactivate] == before.virtuals + [VStop, VDeactivate];
      contract.SetActive(false);
      StepDeactivates(before);
    }

    method SStartProcessing(ok: bool) returns (r: bool)
      requires Valid()
      modifies this, contract, contract.counters, contract.messages
      ensures Valid() && Now() == Step(old(Now()), StartProcessing(ok))
      ensures r == (old(contract.active) && (old(contract.processing) || ok))
    {
      hide ContractMonitor.Valid, ContractMonitor.State, V.ReportedAll, Findings, Captured, LayoutFor;
      assert virtuals == virtuals + [];
      if !contract.active {
        Report(V.L07, contract.registry, []);
        return false;
      }
      if contract.processing {
        Report(V.L07, contract.registry, []);
        return true;
      }
      virtuals := virtuals + [VStart(ok)];
      contract.SetProcessing(ok);
      contract.InvalidateSteadyTime();
      r := ok;
    }

    method SStopProcessing()
      requires Valid()
      modifies this, contract, contract.counters, contract.messages
      ensures Valid() && Now() == Step(old(Now()), StopProcessing)
    {
      hide ContractMonitor.Valid, ContractMonitor.State, V.ReportedAll, CallFindings, Step;
      ghost var before := Now();
      CheckStopping();
      if contract.processing {
        virtuals := virtuals + [VStop];
        contract.SetProcessing(false);
      }
      StepStops(before);
    }

    /** L08 for a plugin that is not active, and again for one that is not processing. */
    method CheckStopping()
      requires Valid()
      modifies contract`total, contract`lastCode, contract`log, contract`registry, contract.counters, contract.messages
      ensures Valid()
      ensures var m := old(contract.State());
        contract.State() == m.(registry := V.ReportedAll(m.registry, CallFindings(m, StopProcessing)))
    {
      hide ContractMonitor.Valid, ContractMonitor.State, V.ReportedAll;
      ghost var before, codes := contract.registry, [];
      NothingReported(before);
      if !contract.active {
        Report(V.L08, before, codes);
        codes := codes + [V.L08];
      }
      if !contract.processing {
        Report(V.L08, before, codes);
        codes := codes + [V.L08];
      }
      assert codes == CallFindings(old(contract.State()), StopProcessing);
    }

    method SReset()
      requires Valid()
      modifies this, contract, contract.counters, contract.messages
      ensures Valid() && Now() == Step(old(Now()), Reset)
    {
      hide ContractMonitor.Valid, ContractMonitor.State, V.ReportedAll, Findings, Captured, LayoutFor;
      if !contract.active {
        Report(V.L10, contract.registry, []);
      }
      contract.InvalidateSteadyTime();
      virtuals := virtuals + [VReset];
    }

    /** True when the subclass got the block. */
    method SProcess(data: ProcessData) returns (processed: bool)
      requires Valid()
      modifies this, contract, contract.counters, contract.messages
      ensures Valid() && Now() == Step(old(Now()), Process(data))
      ensures processed <==> |virtuals| > old(|virtuals|)
    {
      hide ContractMonitor.Valid, ContractMonitor.State, Step, Checked, Delivered, V.ReportedAll, Findings,
           Processable, SteadyNext, Captured, LayoutFor;
      processed := false;
      ghost var before := Now();
      var entered := contract.TryEnterProcess();
      if entered {
        processed := CheckRunning(data);
        if processed {
          virtuals := virtuals + [VProcess];
        }
        contract.LeaveProcess();
        StepEntered(before, data);
      } else {
        Report(V.L12, contract.registry, []);
        StepRefused(before, data);
      }
    }

    /** What the guarded part of process() does before it calls the subclass. */
    method CheckRunning(data: ProcessData) returns (processable: bool)
      requires Valid()
      modifies contract`total, contract`lastCode, contract`log, contract`registry, contract`steady,
               contract.counters, contract.messages
      ensures Valid()
      ensures contract.State() == Checked(old(contract.State()), data)
      ensures processable <==> Delivered(old(contract.State()), data)
    {
      hide ContractMonitor.Valid, V.ReportedAll, Findings, Processable, SteadyNext, Captured, LayoutFor;
      if !contract.active || !contract.processing {
        Report(V.L09, contract.registry, []);
        return false;
      }
      processable := CheckProcessContracts(data);
    }

    method CheckProcessContracts(data: ProcessData) returns (processable: bool)
      requires Valid()
      modifies contract`total, contract`lastCode, contract`log, contract`registry, contract`steady,
               contract.counters, contract.messages
      ensures Valid()
      ensures contract.registry ==
        V.ReportedAll(old(contract.registry), Findings(contract.snapshot, old(contract.steady), data))
      ensures contract.steady == SteadyNext(data.steadyTime, data.frames)
      ensures processable <==> Processable(contract.snapshot, data)
    {
      hide ContractMonitor.Valid, ContractMonitor.State, V.ReportedAll, BufferFindings, EventFindings, Processable;
      var s := contract.snapshot;
      ghost var before, codes := contract.registry, [];
      if data.frames < s.minFrames || data.frames > s.maxFrames {
        Report(V.P01, before, codes);
        codes := codes + [V.P01];
      }
      var ok := contract.CheckSteadyTime(data.steadyTime, data.frames);
      if !ok {
        Report(V.P02, before, codes);
        codes := codes + [V.P02];
      }
      processable := CheckBuffers(data, before, codes);
      CheckEvents(data, before, codes + BufferFindings(s, data));
      assert codes + BufferFindings(s, data) + EventFindings(s, data) == Findings(s, old(contract.steady), data);
    }

    method CheckBuffers(data: ProcessData, ghost before: V.Registry, ghost codes: seq<V.Code>)
      returns (processable: bool)
      requires Valid() && V.WellFormed(before) && contract.registry == V.ReportedAll(before, codes)
      modifies contract`total, contract`lastCode, contract`log, contract`registry, contract.counters, contract.messages
      ensures Valid()
      ensures contract.registry == V.ReportedAll(before, codes + BufferFindings(contract.snapshot, data))
      ensures processable <==> Processable(contract.snapshot, data)
    {
      hide ContractMonitor.Valid, ContractMonitor.State, V.ReportedAll, PortsFindings, AllUsable, AnyCommon, Saw32,
           Saw64;
      var s := contract.snapshot;
      if |data.inputs| != |s.inputs| || |data.outputs| != |s.outputs| {
        Report(V.P05, before, codes);
        return true;
      }
      var usable, common, saw32, saw64 := CheckPorts(s.inputs, data.inputs, before, codes);
      ghost var ins := PortsFindings(s.inputs, data.inputs, |data.inputs|);
      var usable', common', saw32', saw64' := CheckPorts(s.outputs, data.outputs, before, codes + ins);
      ghost var outs := PortsFindings(s.outputs, data.outputs, |data.outputs|);
      EitherSide(s, data);
      if (common || common') && (saw32 || saw32') && (saw64 || saw64') {
        Report(V.P10, before, codes + ins + outs);
        assert codes + ins + outs + [V.P10] == codes + (ins + outs + [V.P10]);
      } else {
        assert codes + ins + outs == codes + (ins + outs + []);
      }
      processable := usable && usable';
    }

    /** One direction of the port scan: reports P05 and P09 and remembers which buffer sizes it saw. */
    method CheckPorts(ports: seq<PortInfo>, buffers: seq<Buffer>, ghost before: V.Registry, ghost codes: seq<V.Code>)
      returns (usable: bool, common: bool, saw32: bool, saw64: bool)
      requires Valid() && V.WellFormed(before) && contract.registry == V.ReportedAll(before, codes)
      requires |ports| == |buffers|
      modifies contract`total, contract`lastCode, contract`log, contract`registry, contract.counters, contract.messages
      ensures Valid()
      ensures contract.registry == V.ReportedAll(before, codes + PortsFindings(ports, buffers, |buffers|))
      ensures usable == AllUsable(ports, buffers) && common == AnyCommon(ports)
      ensures saw32 == Saw32(buffers) && saw64 == Saw64(buffers)
    {
      hide ContractMonitor.Valid, ContractMonitor.State, V.ReportedAll, PortFindings, Usable;
      usable, common, saw32, saw64 := true, false, false, false;
      assert codes + [] == codes;
      for i := 0 to |buffers|
        invariant Valid()
        invariant contract.registry == V.ReportedAll(before, codes + PortsFindings(ports, buffers, i))
        invariant usable <==> forall j | 0 <= j < i :: Usable(ports[j], buffers[j])
        invariant common <==> exists j | 0 <= j < i :: ports[j].requiresCommon
        invariant saw32 <==> exists j | 0 <= j < i :: buffers[j].has32 && !buffers[j].has64
        invariant saw64 <==> exists j | 0 <= j < i :: buffers[j].has64
      {
        ghost var done := codes + PortsFindings(ports, buffers, i);
        CheckPort(ports[i], buffers[i], before, done);
        assert done + PortFindings(ports[i], buffers[i]) == codes + PortsFindings(ports, buffers, i + 1);
        common := common || ports[i].requiresCommon;
        usable := usable && Usable(ports[i], buffers[i]);
        if buffers[i].has64 {
          saw64 := true;
        } else if buffers[i].has32 {
          saw32 := true;
        }
      }
    }

    method CheckPort(port: PortInfo, buffer: Buffer, ghost before: V.Registry, ghost codes: seq<V.Code>)
      requires Valid() && V.WellFormed(before) && contract.registry == V.ReportedAll(before, codes)
      modifies contract`total, contract`lastCode, contract`log, contract`registry, contract.counters, contract.messages
      ensures Valid() && contract.registry == V.ReportedAll(before, codes + PortFindings(port, buffer))
    {
      hide ContractMonitor.Valid, ContractMonitor.State, V.ReportedAll;
      ghost var done := codes;
      if buffer.channels != port.channels {
        Report(V.P05, before, done);
        done := done + [V.P05];
      }
      if !buffer.has32 && !buffer.has64 {
        Report(V.P09, before, done);
        done := done + [V.P09];
      } else if buffer.has64 && !port.supports64 {
        Report(V.P09, before, done);
        done := done + [V.P09];
      }
      assert done == codes + PortFindings(port, buffer);
    }

    method CheckEvents(data: ProcessData, ghost before: V.Registry, ghost codes: seq<V.Code>)
      requires Valid() && V.WellFormed(before) && contract.registry == V.ReportedAll(before, codes)
      modifies contract`total, contract`lastCode, contract`log, contract`registry, contract.counters, contract.messages
      ensures Valid()
      ensures contract.registry == V.ReportedAll(before, codes + EventFindings(contract.snapshot, data))
    {
      hide ContractMonitor.Valid, ContractMonitor.State, V.ReportedAll, TimeFindings, ParamEventFindings;
      assert codes + [] == codes;
      if data.list.NoList? {
        return;
      }
      var events := data.list.events;
      var previousTime := 0;
      for i := 0 to |events|
        invariant Valid() && previousTime == Latest(events, i)
        invariant contract.registry == V.ReportedAll(before, codes + TimesFindings(events, data.frames, i))
      {
        ghost var start := codes + TimesFindings(events, data.frames, i);
        CheckTime(events[i], previousTime, data.frames, before, start);
        assert start + TimeFindings(events[i], previousTime, data.frames) ==
          codes + TimesFindings(events, data.frames, i + 1);
        if events[i].HostEvent? && events[i].size >= HEADER_SIZE && events[i].time >= previousTime {
          previousTime := events[i].time;
        }
      }
      ghost var timed := codes + TimesFindings(events, data.frames, |events|);
      CheckParamEvents(data.list, data.playing, before, timed);
      assert timed + ParamEventFindings(contract.snapshot.params, data.list, data.playing) ==
        codes + EventFindings(contract.snapshot, data);
    }

    method CheckTime(event: HostEvent, previousTime: nat, frames: nat,
                     ghost before: V.Registry, ghost codes: seq<V.Code>)
      requires Valid() && V.WellFormed(before) && contract.registry == V.ReportedAll(before, codes)
      modifies contract`total, contract`lastCode, contract`log, contract`registry, contract.counters, contract.messages
      ensures Valid()
      ensures contract.registry == V.ReportedAll(before, codes + TimeFindings(event, previousTime, frames))
    {
      hide ContractMonitor.Valid, ContractMonitor.State, V.ReportedAll;
      ghost var done := codes;
      if event.NullEvent? {
      } else if event.size < HEADER_SIZE {
        Report(V.P06, before, done);
        done := done + [V.P06];
      } else {
        if event.time < previousTime {
          Report(V.P03, before, done);
          done := done + [V.P03];
        }
        if event.time >= frames {
          Report(V.P04, before, done);
          done := done + [V.P04];
        }
      }
      assert done == codes + TimeFindings(event, previousTime, frames);
    }

    /** Shared by the pre-pass and by flush(), which passes `playing` as false. */
    method CheckParamEvents(list: EventList, playing: bool, ghost before: V.Registry, ghost codes: seq<V.Code>)
      requires Valid() && V.WellFormed(before) && contract.registry == V.ReportedAll(before, codes)
      modifies contract`total, contract`lastCode, contract`log, contract`registry, contract.counters, contract.messages
      ensures Valid()
      ensures contract.registry ==
        V.ReportedAll(before, codes + ParamEventFindings(contract.snapshot.params, list, playing))
    {
      hide ContractMonitor.Valid, ContractMonitor.State, V.ReportedAll, ParamFindings;
      assert codes + [] == codes;
      var params := contract.snapshot.params;
      if list.NoList? || params == [] {
        return;
      }
      for i := 0 to |list.events|
        invariant Valid()
        invariant contract.registry ==
          V.ReportedAll(before, codes + ParamsFindings(params, list.events, playing, i))
      {
        ghost var start := codes + ParamsFindings(params, list.events, playing, i);
        CheckParamEvent(list.events[i], playing, before, start);
        assert start + ParamFindings(params, list.events[i], playing) ==
          codes + ParamsFindings(params, list.events, playing, i + 1);
      }
    }

    method CheckPolicy(param: ParamRecord, event: HostEvent, playing: bool,
                       ghost before: V.Registry, ghost codes: seq<V.Code>)
      requires event.HostEvent?
      requires Valid() && V.WellFormed(before) && contract.registry == V.ReportedAll(before, codes)
      modifies contract`total, contract`lastCode, contract`log, contract`registry, contract.counters, contract.messages
      ensures Valid() && contract.registry == V.ReportedAll(before, codes + PolicyFindings(param, event, playing))
    {
      hide ContractMonitor.Valid, ContractMonitor.State, V.ReportedAll;
      assert codes + [] == codes;
      if event.kind.ValueEvent? && param.readOnly {
        Report(V.P12, before, codes);
        return;
      }
      if event.kind.ModEvent? {
        if !param.modulatable {
          Report(V.P13, before, codes);
        } else if (event.noteId >= 0 && !param.perNote) || (event.key >= 0 && !param.perKey) ||
                  (event.channel >= 0 && !param.perChannel) {
          Report(V.P13, before, codes);
        }
        return;
      }
      if playing && !param.automatable {
        Report(V.P14, before, codes);
      }
    }

    method CheckParamEvent(event: HostEvent, playing: bool, ghost before: V.Registry, ghost codes: seq<V.Code>)
      requires Valid() && V.WellFormed(before) && contract.registry == V.ReportedAll(before, codes)
      modifies contract`total, contract`lastCode, contract`log, contract`registry, contract.counters, contract.messages
      ensures Valid()
      ensures contract.registry ==
        V.ReportedAll(before, codes + ParamFindings(contract.snapshot.params, event, playing))
    {
      hide ContractMonitor.Valid, ContractMonitor.State, V.ReportedAll, PolicyFindings;
      assert codes + [] == codes;
      if event.NullEvent? || !event.coreSpace || event.size < HEADER_SIZE || event.kind.OtherKind? {
        return;
      }
      var k := contract.FindParamRecord(event.paramId);
      if k == |contract.snapshot.params| {
        Report(V.P08, before, codes);
        return;
      }
      var param := contract.snapshot.params[k];
      ghost var done := codes;
      if event.cookie != 0 && event.cookie != param.cookie {
        Report(V.P11, before, done);
        done := done + [V.P11];
      }
      CheckPolicy(param, event, playing, before, done);
      assert done + PolicyFindings(param, event, playing) ==
        codes + ParamFindings(contract.snapshot.params, event, playing);
    }

    method CheckFlush(notAudio: bool, notMain: bool)
      requires Valid()
      modifies contract`total, contract`lastCode, contract`log, contract`registry, contract.counters, contract.messages
      ensures Valid()
      ensures contract.registry ==
        V.ReportedAll(old(contract.registry), FlushFindings(old(contract.State()), notAudio, notMain))
    {
      hide ContractMonitor.Valid, ContractMonitor.State, V.ReportedAll;
      ghost var before, codes := contract.registry, [];
      if contract.inProcess {
        Report(V.P07, before, codes);
        codes := [V.P07];
      }
      if contract.active {
        if notAudio {
          Report(V.T03, before, codes);
          codes := codes + [V.T03];
        }
      } else if notMain {
        Report(V.T03, before, codes);
        codes := codes + [V.T03];
      }
      assert codes == FlushFindings(old(contract.State()), notAudio, notMain);
    }

    /** params.flush(): the parameter scan without a transport, then always the subclass. */
    method SFlush(list: EventList, notAudio: bool, notMain: bool)
      requires Valid()
      modifies this, contract, contract.counters, contract.messages
      ensures Valid() && Now() == Step(old(Now()), Flush(list, notAudio, notMain))
    {
      hide ContractMonitor.Valid, V.ReportedAll, ParamEventFindings, FlushFindings, Step;
      ghost var state, before := Now(), contract.registry;
      CheckFlush(notAudio, notMain);
      CheckParamEvents(list, false, before, FlushFindings(state.monitor, notAudio, notMain));
      virtuals := virtuals + [VFlush];
      StepFlushes(state, list, notAudio, notMain);
    }

    method SGetExtension(id: ExtensionId)
      requires Valid()
      modifies this, contract, contract.counters, contract.messages
      ensures Valid() && Now() == Step(old(Now()), GetExtension(id))
    {
      hide ContractMonitor.Valid, ContractMonitor.State, V.ReportedAll, Findings, Captured, LayoutFor;
      if !contract.initialized && id.OtherId? {
        Report(V.L01, contract.registry, []);
      }
      assert virtuals == virtuals + [];
    }

    method SOnMainThread()
      requires Valid()
      modifies this, contract, contract.counters, contract.messages
      ensures Valid() && Now() == Step(old(Now()), OnMainThread)
    {
      hide ContractMonitor.Valid, ContractMonitor.State, V.ReportedAll, Step;
      ghost var before := Now();
      virtuals := virtuals + [VMain];
      CheckPending();
      StepMain(before);
    }

    /** The monitor's part of on_main_thread(): takes all requests, and reports L11 if there was none. */
    method CheckPending()
      requires Valid()
      modifies contract`total, contract`lastCode, contract`log, contract`registry, contract`pending,
               contract.counters, contract.messages
      ensures Valid()
      ensures var m := old(contract.State());
        contract.State() ==
          m.(registry := V.ReportedAll(m.registry, if m.pending == 0 then [V.L11] else []), pending := 0)
    {
      hide ContractMonitor.Valid, ContractMonitor.State, V.ReportedAll;
      var any := contract.ConsumePendingCallbacks();
      if any {
        NothingReported(contract.registry);
      } else {
        Report(V.L11, contract.registry, []);
      }
    }

    /** The plugin asks the host for on_main_thread(). */
    method RequestCallback()
      requires Valid()
      modifies this, contract
      ensures Valid() && Now() == Step(old(Now()), Call.RequestCallback)
    {
      hide ContractMonitor.Valid, ContractMonitor.State, Findings, Captured, LayoutFor;
      contract.NoteCallbackRequested();
      assert virtuals == virtuals + [];
    }

    /** A finding of the thread checker, which writes its own log line. */
    method NoteThread(code: V.Code)
      requires Valid()
      modifies this, contract, contract.counters, contract.messages
      ensures Valid() && Now() == Step(old(Now()), ThreadFinding(code))
    {
      hide ContractMonitor.Valid, ContractMonitor.State, V.ReportedAll, Findings, Captured, LayoutFor;
      contract.Note(code, 0);
      assert virtuals == virtuals + [];
    }

    /** tail.get(), on a thread the host may have confirmed to be neither main nor audio. */
    method STailGet(elsewhere: bool, tail: nat) returns (frames: nat)
      requires Valid()
      modifies this, contract, contract.counters, contract.messages
      ensures Valid() && Now() == Step(old(Now()), TailGet(elsewhere)) && frames == tail
    {
      hide ContractMonitor.Valid, ContractMonitor.State, V.ReportedAll, Findings, Captured, LayoutFor;
      if elsewhere {
        Report(V.T04, contract.registry, []);
      }
      assert virtuals == virtuals + [];
      frames := tail;
    }

    /** The query extension's clear(). */
    method Clear()
      requires Valid()
      modifies this, contract, contract.counters, contract.messages
      ensures Valid() && Now() == Step(old(Now()), ClearViolations)
    {
      hide ContractMonitor.Valid, ContractMonitor.State, V.ReportedAll, V.Cleared, Findings, Captured, LayoutFor;
      contract.Clear();
      assert virtuals == virtuals + [];
    }

    /** Refuses, with a report, a call that an active plugin must not get. */
    method CheckNotActive(code: V.Code) returns (inactive: bool)
      requires Valid()
      modifies contract`total, contract`lastCode, contract`log, contract`registry, contract.counters, contract.messages
      ensures Valid() && inactive == !contract.active
      ensures var m := old(contract.State());
        contract.State() == m.(registry := V.ReportedAll(m.registry, if m.active then [code] else []))
    {
      hide ContractMonitor.Valid, ContractMonitor.State, V.ReportedAll;
      NothingReported(contract.registry);
      inactive := !contract.active;
      if !inactive {
        Report(code, contract.registry, []);
      }
    }

    /** configurable_audio_ports.can_apply_configuration(): refused while active. */
    method SCanApplyConfiguration(requests: Requests) returns (ok: bool)
      requires Valid()
      modifies this, contract, contract.counters, contract.messages
      ensures Valid() && Now() == Step(old(Now()), CanApplyConfiguration(requests))
      ensures ok <==> !contract.active && provider.SurroundPorts? && exists l :: Agreed(requests, l)
    {
      hide ContractMonitor.Valid, ContractMonitor.State, V.ReportedAll, Step;
      ghost var before := Now();
      ok := CheckNotActive(V.CA01);
      if ok {
        var layout := LayoutFor(requests);
        assert layout >= 0 ==> Agreed(requests, layout);
        ok := layout >= 0 && provider.SurroundPorts?;
      }
      StepAsks(before, requests);
    }

    /** configurable_audio_ports.apply_configuration(): refused while active. */
    method SApplyConfiguration(requests: Requests) returns (ok: bool)
      requires Valid()
      modifies this, contract, contract.counters, contract.messages
      ensures Valid() && Now() == Step(old(Now()), ApplyConfiguration(requests))
      ensures ok <==> !contract.active && provider.SurroundPorts? && exists l :: Agreed(requests, l)
      ensures ok ==> Agreed(requests, provider.layout)
    {
      hide ContractMonitor.Valid, ContractMonitor.State, V.ReportedAll, Step;
      ghost var before := Now();
      ok := CheckNotActive(V.CA01);
      if ok {
        var layout := LayoutFor(requests);
        assert layout >= 0 ==> Agreed(requests, layout);
        ok := layout >= 0 && provider.SurroundPorts?;
        if ok {
          provider := SurroundPorts(layout);
        }
      }
      StepConfigures(before, requests);
    }

    /** audio_ports_config.select(): refused while active. */
    method SSelectConfig(config: nat) returns (ok: bool)
      requires Valid()
      modifies this, contract, contract.counters, contract.messages
      ensures Valid() && Now() == Step(old(Now()), SelectConfig(config))
      ensures ok <==>
        !contract.active && provider.MultiOutPorts? && (config == STEREO_CONFIG || config == MULTI_OUT_CONFIG)
      ensures ok ==> provider == MultiOutPorts(config)
      ensures !ok ==> provider == old(provider)
    {
      hide ContractMonitor.Valid, ContractMonitor.State, V.ReportedAll, Step;
      ghost var before := Now();
      ok := CheckNotActive(V.AC01);
      if ok {
        ok := provider.MultiOutPorts? && (config == STEREO_CONFIG || config == MULTI_OUT_CONFIG);
        if ok {
          provider := MultiOutPorts(config);
        }
      }
      StepSelects(before, config);
    }
  }
}

/**
 The data contracts of one process() call: what the pre-pass of
 src/wrapper/plugin.cpp reports, as a list of codes in reporting order, and what
 each report means for the block.
*/
module PrePass {
  import opened Violations

  const HEADER_SIZE: nat := 16

  datatype PortInfo = PortInfo(channels: nat, supports64: bool, requiresCommon: bool)

  /** A cookie is an opaque pointer; 0 is null. */
  datatype ParamRecord = ParamRecord(
    id: nat, automatable: bool, readOnly: bool, modulatable: bool,
    perNote: bool, perKey: bool, perChannel: bool, cookie: nat)

  datatype Buffer = Buffer(channels: nat, has32: bool, has64: bool)

  datatype EventKind = ValueEvent | ModEvent | OtherKind

  datatype HostEvent =
    | NullEvent
    | HostEvent(size: nat, time: nat, coreSpace: bool, kind: EventKind,
                paramId: nat, cookie: nat, noteId: int, key: int, channel: int)

  datatype EventList = NoList | EventList(events: seq<HostEvent>)

  datatype ProcessData = ProcessData(
    frames: nat, steadyTime: int, inputs: seq<Buffer>, outputs: seq<Buffer>, list: EventList, playing: bool)

  /** What activate() captured for the audio thread. */
  datatype Snapshot = Snapshot(
    minFrames: nat, maxFrames: nat, inputs: seq<PortInfo>, outputs: seq<PortInfo>, params: seq<ParamRecord>)

  // ---- ports ----

  function PortFindings(port: PortInfo, buffer: Buffer): seq<Code> {
    (if buffer.channels != port.channels then [P05] else []) +
    (if !buffer.has32 && !buffer.has64 then [P09]
     else if buffer.has64 && !port.supports64 then [P09] else [])
  }

  function PortsFindings(ports: seq<PortInfo>, buffers: seq<Buffer>, n: nat): seq<Code>
    requires n <= |ports| && n <= |buffers|
  {
    if n == 0 then []
    else PortsFindings(ports, buffers, n - 1) + PortFindings(ports[n - 1], buffers[n - 1])
  }

  predicate Saw64(buffers: seq<Buffer>) { exists i | 0 <= i < |buffers| :: buffers[i].has64 }

  predicate Saw32(buffers: seq<Buffer>) {
    exists i | 0 <= i < |buffers| :: buffers[i].has32 && !buffers[i].has64
  }

  predicate AnyCommon(ports: seq<PortInfo>) { exists i | 0 <= i < |ports| :: ports[i].requiresCommon }

  predicate CountsMatch(s: Snapshot, p: ProcessData) {
    |p.inputs| == |s.inputs| && |p.outputs| == |s.outputs|
  }

  /** The port has a buffer the plugin may legally use. */
  predicate Usable(port: PortInfo, buffer: Buffer) {
    buffer.has32 || (buffer.has64 && port.supports64)
  }

  predicate AllUsable(ports: seq<PortInfo>, buffers: seq<Buffer>)
    requires |ports| <= |buffers|
  {
    forall i | 0 <= i < |ports| :: Usable(ports[i], buffers[i])
  }

  predicate Mixed(s: Snapshot, p: ProcessData) {
    AnyCommon(s.inputs + s.outputs) && Saw32(p.inputs + p.outputs) && Saw64(p.inputs + p.outputs)
  }

  function BufferFindings(s: Snapshot, p: ProcessData): seq<Code> {
    if !CountsMatch(s, p) then [P05] else
    PortsFindings(s.inputs, p.inputs, |p.inputs|) + PortsFindings(s.outputs, p.outputs, |p.outputs|) +
    if Mixed(s, p) then [P10] else []
  }

  predicate Processable(s: Snapshot, p: ProcessData) {
    CountsMatch(s, p) ==> AllUsable(s.inputs, p.inputs) && AllUsable(s.outputs, p.outputs)
  }

  // ---- event order ----

  predicate WellFormedEvent(e: HostEvent) { e.HostEvent? && e.size >= HEADER_SIZE }

  /** The running maximum of the well-formed times before event n. */
  function Latest(events: seq<HostEvent>, n: nat): nat
    requires n <= |events|
  {
    if n == 0 then 0 else
    var before, e := Latest(events, n - 1), events[n - 1];
    if WellFormedEvent(e) && e.time >= before then e.time else before
  }

  function TimeFindings(e: HostEvent, latest: nat, frames: nat): seq<Code> {
    if e.NullEvent? then []
    else if e.size < HEADER_SIZE then [P06]
    else (if e.time < latest then [P03] else []) + (if e.time >= frames then [P04] else [])
  }

  function TimesFindings(events: seq<HostEvent>, frames: nat, n: nat): seq<Code>
    requires n <= |events|
  {
    if n == 0 then []
    else TimesFindings(events, frames, n - 1) + TimeFindings(events[n - 1], Latest(events, n - 1), frames)
  }

  // ---- parameter events ----

  function FindParam(params: seq<ParamRecord>, id: nat): (r: nat)
    ensures r <= |params|
    ensures r < |params| ==> params[r].id == id
    ensures forall i | 0 <= i < r :: params[i].id != id
  {
    if params == [] || params[0].id == id then 0 else 1 + FindParam(params[1..], id)
  }

  predicate IsParamEvent(e: HostEvent) {
    WellFormedEvent(e) && e.coreSpace && !e.kind.OtherKind?
  }

  predicate AddressAllowed(param: ParamRecord, e: HostEvent)
    requires e.HostEvent?
  {
    (e.noteId >= 0 ==> param.perNote) && (e.key >= 0 ==> param.perKey) && (e.channel >= 0 ==> param.perChannel)
  }

  /** Write access, modulation and automation, checked after the cookie. */
  function PolicyFindings(param: ParamRecord, e: HostEvent, playing: bool): seq<Code>
    requires e.HostEvent?
  {
    if e.kind.ValueEvent? && param.readOnly then [P12]
    else if e.kind.ModEvent? then if !param.modulatable || !AddressAllowed(param, e) then [P13] else []
    else if playing && !param.automatable then [P14]
    else []
  }

  function ParamFindings(params: seq<ParamRecord>, e: HostEvent, playing: bool): seq<Code> {
    if !IsParamEvent(e) then [] else
    var k := FindParam(params, e.paramId);
    if k == |params| then [P08] else
    var param := params[k];
    (if e.cookie != 0 && e.cookie != param.cookie then [P11] else []) + PolicyFindings(param, e, playing)
  }

  function ParamsFindings(params: seq<ParamRecord>, events: seq<HostEvent>, playing: bool, n: nat): seq<Code>
    requires n <= |events|
  {
    if n == 0 then []
    else ParamsFindings(params, events, playing, n - 1) + ParamFindings(params, events[n - 1], playing)
  }

  function ParamEventFindings(params: seq<ParamRecord>, list: EventList, playing: bool): seq<Code> {
    if list.NoList? || params == [] then [] else ParamsFindings(params, list.events, playing, |list.events|)
  }

  function EventFindings(s: Snapshot, p: ProcessData): seq<Code> {
    if p.list.NoList? then []
    else TimesFindings(p.list.events, p.frames, |p.list.events|) + ParamEventFindings(s.params, p.list, p.playing)
  }

  // ---- the whole pre-pass ----

  /** Steady time the next block must reach, if there is a baseline. */
  datatype Steady = NoBaseline | Baseline(end: int)

  predicate SteadyBreach(steady: Steady, time: int) {
    time >= 0 && steady.Baseline? && time < steady.end
  }

  function SteadyNext(time: int, frames: nat): Steady {
    if time < 0 then NoBaseline else Baseline(time + frames)
  }

  function Findings(s: Snapshot, steady: Steady, p: ProcessData): seq<Code> {
    (if p.frames < s.minFrames || p.frames > s.maxFrames then [P01] else []) +
    (if SteadyBreach(steady, p.steadyTime) then [P02] else []) +
    BufferFindings(s, p) + EventFindings(s, p)
  }

  // ---- what the findings mean ----

  function Count(code: Code, codes: seq<Code>): nat {
    if codes == [] then 0 else
    Count(code, codes[..|codes| - 1]) + if codes[|codes| - 1] == code then 1 else 0
  }

  lemma {:induction false} CountAppend(code: Code, a: seq<Code>, b: seq<Code>)
    ensures Count(code, a + b) == Count(code, a) + Count(code, b)
  {
    if b == [] {
      assert a + b == a;
    } else {
      assert (a + b)[..|a + b| - 1] == a + b[..|b| - 1];
      CountAppend(code, a, b[..|b| - 1]);
    }
  }

  lemma CountShort(code: Code, a: Code, b: Code)
    ensures Count(code, []) == 0
    ensures Count(code, [a]) == if a == code then 1 else 0
    ensures Count(code, [a, b]) == (if a == code then 1 else 0) + if b == code then 1 else 0
  {
    assert [a][..0] == [] && [a, b][..1] == [a];
  }

  /** How many of the first n indices satisfy p. */
  ghost function HowMany(p: int -> bool, n: nat): nat {
    if n == 0 then 0 else HowMany(p, n - 1) + if p(n - 1) then 1 else 0
  }

  lemma Tally(code: Code, before: seq<Code>, last: seq<Code>, p: int -> bool, n: nat)
    requires n > 0 && Count(code, before) == HowMany(p, n - 1)
    requires Count(code, last) == if p(n - 1) then 1 else 0
    ensures Count(code, before + last) == HowMany(p, n)
  {
    CountAppend(code, before, last);
  }

  lemma {:induction false} HowManyZero(p: int -> bool, n: nat)
    ensures HowMany(p, n) == 0 <==> forall i | 0 <= i < n :: !p(i)
  {
    if n > 0 {
      HowManyZero(p, n - 1);
    }
  }

  // The rules are stated on the host's data alone, apart from the functions that look for breaches.

  /** Event i has a whole header, 16 bytes, and so a time. */
  predicate Timed(events: seq<HostEvent>, i: int) {
    0 <= i < |events| && events[i].HostEvent? && events[i].size >= 16
  }

  /** Some earlier event has a later time. */
  ghost predicate Late(events: seq<HostEvent>, i: int) {
    Timed(events, i) && exists j | 0 <= j < i :: Timed(events, j) && events[j].time > events[i].time
  }

  predicate Malformed(events: seq<HostEvent>, i: int) {
    0 <= i < |events| && events[i].HostEvent? && events[i].size < 16
  }

  predicate BeyondBlock(events: seq<HostEvent>, frames: nat, i: int) {
    Timed(events, i) && events[i].time >= frames
  }

  ghost predicate TimeBreach(code: Code, events: seq<HostEvent>, frames: nat, i: int) {
    (code == P03 && Late(events, i)) || (code == P04 && BeyondBlock(events, frames, i)) ||
    (code == P06 && Malformed(events, i))
  }

  ghost function TimeBreaches(code: Code, events: seq<HostEvent>, frames: nat): int -> bool {
    i => TimeBreach(code, events, frames, i)
  }

  lemma {:induction false} LatestIsMaximum(events: seq<HostEvent>, n: nat)
    requires n <= |events|
    ensures forall j | 0 <= j < n && Timed(events, j) :: events[j].time <= Latest(events, n)
    ensures Latest(events, n) > 0 ==>
      exists j | 0 <= j < n :: Timed(events, j) && events[j].time == Latest(events, n)
  {
    if n > 0 {
      LatestIsMaximum(events, n - 1);
      if Latest(events, n) > 0 && Latest(events, n) != Latest(events, n - 1) {
        assert Timed(events, n - 1);
      }
    }
  }

  lemma OneEvent(code: Code, events: seq<HostEvent>, frames: nat, n: nat)
    requires n < |events|
    ensures Count(code, TimeFindings(events[n], Latest(events, n), frames)) ==
      if TimeBreaches(code, events, frames)(n) then 1 else 0
  {
    LatestIsMaximum(events, n);
    CountShort(code, P03, P04);
    CountShort(code, P06, P04);
    CountShort(code, P04, P04);
    assert [P03] + [P04] == [P03, P04];
    assert [P03] + [] == [P03];
  }

  /**
   P03 counts the well-formed events below the running maximum of the earlier
   well-formed times, P04 those beyond the block, P06 the malformed headers.
  */
  lemma {:induction false} TimeFindingsExact(code: Code, events: seq<HostEvent>, frames: nat, n: nat)
    requires n <= |events|
    ensures Count(code, TimesFindings(events, frames, n)) == HowMany(TimeBreaches(code, events, frames), n)
  {
    hide Count, TimeFindings, Latest, TimeBreaches;
    if n > 0 {
      TimeFindingsExact(code, events, frames, n - 1);
      OneMoreEvent(code, events, frames, n - 1, TimesFindings(events, frames, n - 1));
    } else {
      CountShort(code, P03, P04);
    }
  }

  lemma OneMoreEvent(code: Code, events: seq<HostEvent>, frames: nat, n: nat, before: seq<Code>)
    requires n < |events| && Count(code, before) == HowMany(TimeBreaches(code, events, frames), n)
    ensures Count(code, before + TimeFindings(events[n], Latest(events, n), frames)) ==
      HowMany(TimeBreaches(code, events, frames), n + 1)
  {
    var last := TimeFindings(events[n], Latest(events, n), frames);
    OneEvent(code, events, frames, n);
    CountAppend(code, before, last);
  }

  /** No P03 exactly when the well-formed events are sorted by time. */
  lemma UnreportedIffSorted(events: seq<HostEvent>, frames: nat)
    ensures Count(P03, TimesFindings(events, frames, |events|)) == 0 <==>
      forall i, j | i < j && Timed(events, i) && Timed(events, j) :: events[i].time <= events[j].time
  {
    var breaches := TimeBreaches(P03, events, frames);
    TimeFindingsExact(P03, events, frames, |events|);
    HowManyZero(breaches, |events|);
    if forall i | 0 <= i < |events| :: !breaches(i) {
      forall i, j | i < j && Timed(events, i) && Timed(events, j) ensures events[i].time <= events[j].time {
        assert !breaches(j) && !Late(events, j);
      }
    } else {
      var i :| 0 <= i < |events| && breaches(i);
      assert Late(events, i);
    }
  }

  lemma OnePort(code: Code, port: PortInfo, buffer: Buffer)
    ensures Count(code, PortFindings(port, buffer)) ==
      (if code == P05 && buffer.channels != port.channels then 1 else 0) +
      (if code == P09 && ((!buffer.has32 && !buffer.has64) || (buffer.has64 && !port.supports64)) then 1 else 0)
  {
    CountShort(code, P05, P09);
    CountShort(code, P09, P09);
    assert [P05] + [P09] == [P05, P09];
    assert [P05] + [] == [P05];
  }

  predicate WrongChannels(ports: seq<PortInfo>, buffers: seq<Buffer>, i: int) {
    0 <= i < |ports| && i < |buffers| && buffers[i].channels != ports[i].channels
  }

  /** No buffer at all, or a 64-bit one the port did not declare. */
  predicate WrongFormat(ports: seq<PortInfo>, buffers: seq<Buffer>, i: int) {
    0 <= i < |ports| && i < |buffers| &&
    ((!buffers[i].has32 && !buffers[i].has64) || (buffers[i].has64 && !ports[i].supports64))
  }

  predicate PortBreach(code: Code, ports: seq<PortInfo>, buffers: seq<Buffer>, i: int) {
    (code == P05 && WrongChannels(ports, buffers, i)) || (code == P09 && WrongFormat(ports, buffers, i))
  }

  ghost function PortBreaches(code: Code, ports: seq<PortInfo>, buffers: seq<Buffer>): int -> bool {
    i => PortBreach(code, ports, buffers, i)
  }

  /** P05 counts the ports with a wrong channel count, P09 those with a wrong buffer format. */
  lemma {:induction false} PortFindingsExact(code: Code, ports: seq<PortInfo>, buffers: seq<Buffer>, n: nat)
    requires n <= |ports| && n <= |buffers|
    ensures Count(code, PortsFindings(ports, buffers, n)) == HowMany(PortBreaches(code, ports, buffers), n)
  {
    if n > 0 {
      PortFindingsExact(code, ports, buffers, n - 1);
      OnePort(code, ports[n - 1], buffers[n - 1]);
      var p := PortBreaches(code, ports, buffers);
      assert p(n - 1) <==> PortBreach(code, ports, buffers, n - 1);
      Tally(code, PortsFindings(ports, buffers, n - 1), PortFindings(ports[n - 1], buffers[n - 1]), p, n);
    }
  }

  // ---- parameter events ----

  /** The rule behind each parameter code, read off the first record with the event's id. */
  predicate ParamBreach(code: Code, params: seq<ParamRecord>, e: HostEvent, playing: bool) {
    e.HostEvent? && e.size >= 16 && e.coreSpace && (e.kind.ValueEvent? || e.kind.ModEvent?) &&
    var k := FindParam(params, e.paramId);
    if k == |params| then code == P08 else
      var param := params[k];
      (code == P11 && e.cookie != 0 && e.cookie != param.cookie) ||
      (code == P12 && e.kind.ValueEvent? && param.readOnly) ||
      (code == P13 && e.kind.ModEvent? &&
       (!param.modulatable || (e.noteId >= 0 && !param.perNote) || (e.key >= 0 && !param.perKey) ||
        (e.channel >= 0 && !param.perChannel))) ||
      (code == P14 && e.kind.ValueEvent? && !param.readOnly && playing && !param.automatable)
  }

  ghost function BreachIn(code: Code, params: seq<ParamRecord>, events: seq<HostEvent>, playing: bool): int -> bool {
    i => 0 <= i < |events| && ParamBreach(code, params, events[i], playing)
  }

  predicate ParamCode(code: Code) { code == P08 || code == P11 || code == P12 || code == P13 || code == P14 }

  lemma OneParamEvent(code: Code, params: seq<ParamRecord>, e: HostEvent, playing: bool)
    requires ParamCode(code)
    ensures Count(code, ParamFindings(params, e, playing)) == if ParamBreach(code, params, e, playing) then 1 else 0
  {
    hide Count;
    CountShort(code, P08, P11);
    CountShort(code, P11, P12);
    CountShort(code, P12, P13);
    CountShort(code, P13, P14);
    CountShort(code, P14, P08);
    if IsParamEvent(e) && FindParam(params, e.paramId) < |params| {
      var k := FindParam(params, e.paramId);
      var cookie := if e.cookie != 0 && e.cookie != params[k].cookie then [P11] else [];
      CountAppend(code, cookie, PolicyFindings(params[k], e, playing));
    }
  }

  lemma ParamsUnroll(params: seq<ParamRecord>, events: seq<HostEvent>, playing: bool, n: nat)
    requires 0 < n <= |events|
    ensures ParamsFindings(params, events, playing, n) ==
      ParamsFindings(params, events, playing, n - 1) + ParamFindings(params, events[n - 1], playing)
  {
  }

  lemma BreachAt(code: Code, params: seq<ParamRecord>, events: seq<HostEvent>, playing: bool, i: nat)
    requires i < |events|
    ensures BreachIn(code, params, events, playing)(i) <==> ParamBreach(code, params, events[i], playing)
  {
  }

  lemma ParamsNext(code: Code, params: seq<ParamRecord>, events: seq<HostEvent>, playing: bool, n: nat)
    requires ParamCode(code) && 0 < n <= |events|
    requires Count(code, ParamsFindings(params, events, playing, n - 1)) ==
      HowMany(BreachIn(code, params, events, playing), n - 1)
    ensures Count(code, ParamsFindings(params, events, playing, n)) ==
      HowMany(BreachIn(code, params, events, playing), n)
  {
    hide *;
    OneParamEvent(code, params, events[n - 1], playing);
    BreachAt(code, params, events, playing, n - 1);
    ParamsUnroll(params, events, playing, n);
    Tally(code, ParamsFindings(params, events, playing, n - 1), ParamFindings(params, events[n - 1], playing),
          BreachIn(code, params, events, playing), n);
  }

  /** P08 and P11 to P14 each count the events that break their rule. */
  lemma {:induction false} ParamFindingsExact(
    code: Code, params: seq<ParamRecord>, events: seq<HostEvent>, playing: bool, n: nat)
    requires ParamCode(code) && n <= |events|
    ensures Count(code, ParamsFindings(params, events, playing, n)) ==
      HowMany(BreachIn(code, params, events, playing), n)
  {
    hide *;
    if n > 0 {
      ParamFindingsExact(code, params, events, playing, n - 1);
      ParamsNext(code, params, events, playing, n);
    } else {
      NoEvents(code, params, events, playing, BreachIn(code, params, events, playing));
    }
  }

  lemma NoEvents(code: Code, params: seq<ParamRecord>, events: seq<HostEvent>, playing: bool, p: int -> bool)
    ensures Count(code, ParamsFindings(params, events, playing, 0)) == 0 == HowMany(p, 0)
  {
  }

  // ---- the whole block ----

  ghost predicate SameCounts(s: Snapshot, p: ProcessData) {
    |p.inputs| == |s.inputs| && |p.outputs| == |s.outputs|
  }

  /** Some port of either direction asks for one sample size, and the block has buffers of both. */
  ghost predicate BothSizes(s: Snapshot, p: ProcessData) {
    ((exists i | 0 <= i < |s.inputs| :: s.inputs[i].requiresCommon) ||
     (exists i | 0 <= i < |s.outputs| :: s.outputs[i].requiresCommon)) &&
    ((exists i | 0 <= i < |p.inputs| :: p.inputs[i].has32 && !p.inputs[i].has64) ||
     (exists i | 0 <= i < |p.outputs| :: p.outputs[i].has32 && !p.outputs[i].has64)) &&
    ((exists i | 0 <= i < |p.inputs| :: p.inputs[i].has64) ||
     (exists i | 0 <= i < |p.outputs| :: p.outputs[i].has64))
  }

  lemma MixedMeans(s: Snapshot, p: ProcessData)
    ensures Mixed(s, p) <==> BothSizes(s, p)
  {
    EitherSide(s, p);
  }

  lemma EitherSide(s: Snapshot, p: ProcessData)
    ensures Mixed(s, p) <==>
      (AnyCommon(s.inputs) || AnyCommon(s.outputs)) && (Saw32(p.inputs) || Saw32(p.outputs)) &&
      (Saw64(p.inputs) || Saw64(p.outputs))
  {
    InBoth(s.inputs, s.outputs, (port: PortInfo) => port.requiresCommon);
    InBoth(p.inputs, p.outputs, (buffer: Buffer) => buffer.has32 && !buffer.has64);
    InBoth(p.inputs, p.outputs, (buffer: Buffer) => buffer.has64);
  }

  lemma InBoth<T>(a: seq<T>, b: seq<T>, p: T -> bool)
    ensures (exists i | 0 <= i < |a + b| :: p((a + b)[i])) <==>
      (exists i | 0 <= i < |a| :: p(a[i])) || (exists i | 0 <= i < |b| :: p(b[i]))
  {
    if i :| 0 <= i < |a| && p(a[i]) {
      assert p((a + b)[i]);
    }
    if i :| 0 <= i < |b| && p(b[i]) {
      assert p((a + b)[|a| + i]);
    }
  }

  /** How often one block breaks the rule behind a code, rule by rule. */
  ghost function RuleBreaches(code: Code, s: Snapshot, steady: Steady, p: ProcessData): nat {
    if code == P01 then if s.minFrames <= p.frames <= s.maxFrames then 0 else 1
    else if code == P02 then if SteadyBreach(steady, p.steadyTime) then 1 else 0
    else if code == P05 || code == P09 then PortRuleBreaches(code, s, p)
    else if code == P10 then if SameCounts(s, p) && BothSizes(s, p) then 1 else 0
    else if p.list.NoList? then 0
    else if code in TIME_CODES then HowMany(TimeBreaches(code, p.list.events, p.frames), |p.list.events|)
    else if code in PARAM_CODES && s.params != [] then
      HowMany(BreachIn(code, s.params, p.list.events, p.playing), |p.list.events|)
    else 0
  }

  ghost function PortRuleBreaches(code: Code, s: Snapshot, p: ProcessData): nat {
    if !SameCounts(s, p) then if code == P05 then 1 else 0
    else HowMany(PortBreaches(code, s.inputs, p.inputs), |p.inputs|) +
         HowMany(PortBreaches(code, s.outputs, p.outputs), |p.outputs|)
  }

  const TIME_CODES: set<Code> := {P03, P04, P06}
  const PORT_CODES: set<Code> := {P05, P09}
  const PARAM_CODES: set<Code> := {P08, P11, P12, P13, P14}

  predicate Among(codes: seq<Code>, allowed: set<Code>) { forall i | 0 <= i < |codes| :: codes[i] in allowed }

  lemma {:induction false} CountOutside(code: Code, codes: seq<Code>, allowed: set<Code>)
    requires Among(codes, allowed) && code !in allowed
    ensures Count(code, codes) == 0
  {
    if codes != [] {
      CountOutside(code, codes[..|codes| - 1], allowed);
    }
  }

  lemma {:induction false} PortsAmong(ports: seq<PortInfo>, buffers: seq<Buffer>, n: nat)
    requires n <= |ports| && n <= |buffers|
    ensures Among(PortsFindings(ports, buffers, n), PORT_CODES)
  {
    if n > 0 {
      PortsAmong(ports, buffers, n - 1);
    }
  }

  lemma {:induction false} TimesAmong(events: seq<HostEvent>, frames: nat, n: nat)
    requires n <= |events|
    ensures Among(TimesFindings(events, frames, n), TIME_CODES)
  {
    hide Latest;
    if n > 0 {
      TimesAmong(events, frames, n - 1);
    }
  }

  lemma ParamAmong(params: seq<ParamRecord>, e: HostEvent, playing: bool)
    ensures Among(ParamFindings(params, e, playing), PARAM_CODES)
  {
  }

  lemma {:induction false} ParamsAmong(params: seq<ParamRecord>, events: seq<HostEvent>, playing: bool, n: nat)
    requires n <= |events|
    ensures Among(ParamsFindings(params, events, playing, n), PARAM_CODES)
  {
    hide ParamFindings;
    if n > 0 {
      ParamsAmong(params, events, playing, n - 1);
      ParamAmong(params, events[n - 1], playing);
    }
  }

  lemma BufferFindingsExact(code: Code, s: Snapshot, p: ProcessData)
    ensures Count(code, BufferFindings(s, p)) ==
      if code in PORT_CODES then PortRuleBreaches(code, s, p)
      else if code == P10 && SameCounts(s, p) && BothSizes(s, p) then 1 else 0
  {
    hide Count, HowMany, PortsFindings, Mixed, PortBreaches, BothSizes;
    MixedMeans(s, p);
    CountShort(code, P05, P10);
    CountShort(code, P10, P10);
    if CountsMatch(s, p) {
      var a, b := PortsFindings(s.inputs, p.inputs, |p.inputs|), PortsFindings(s.outputs, p.outputs, |p.outputs|);
      CountAppend(code, a, b);
      CountAppend(code, a + b, if Mixed(s, p) then [P10] else []);
      PortsAmong(s.inputs, p.inputs, |p.inputs|);
      PortsAmong(s.outputs, p.outputs, |p.outputs|);
      if code in PORT_CODES {
        PortFindingsExact(code, s.inputs, p.inputs, |p.inputs|);
        PortFindingsExact(code, s.outputs, p.outputs, |p.outputs|);
      } else {
        CountOutside(code, a, PORT_CODES);
        CountOutside(code, b, PORT_CODES);
      }
    }
  }

  lemma EventFindingsExact(code: Code, s: Snapshot, p: ProcessData)
    ensures Count(code, EventFindings(s, p)) ==
      if p.list.NoList? then 0
      else if code in TIME_CODES then HowMany(TimeBreaches(code, p.list.events, p.frames), |p.list.events|)
      else if code in PARAM_CODES && s.params != [] then
        HowMany(BreachIn(code, s.params, p.list.events, p.playing), |p.list.events|)
      else 0
  {
    hide Count, HowMany, TimesFindings, ParamsFindings, TimeBreaches, BreachIn;
    CountShort(code, P03, P03);
    if p.list.EventList? {
      var events := p.list.events;
      var times, params := TimesFindings(events, p.frames, |events|), ParamEventFindings(s.params, p.list, p.playing);
      CountAppend(code, times, params);
      TimesAmong(events, p.frames, |events|);
      ParamsAmong(s.params, events, p.playing, |events|);
      if code in TIME_CODES {
        TimeFindingsExact(code, events, p.frames, |events|);
      } else {
        CountOutside(code, times, TIME_CODES);
      }
      if code in PARAM_CODES {
        ParamFindingsExact(code, s.params, events, p.playing, |events|);
      } else {
        CountOutside(code, params, PARAM_CODES);
      }
    }
  }

  /** The pre-pass reports every code exactly as often as the block breaks its rule. */
  lemma BlockFindingsExact(code: Code, s: Snapshot, steady: Steady, p: ProcessData)
    ensures Count(code, Findings(s, steady, p)) == RuleBreaches(code, s, steady, p)
  {
    hide Count, HowMany, BufferFindings, EventFindings, PortRuleBreaches, TimeBreaches, BreachIn, Mixed,
         BothSizes;
    CountShort(code, P01, P01);
    CountShort(code, P02, P02);
    var bounds := if p.frames < s.minFrames || p.frames > s.maxFrames then [P01] else [];
    var clock := if SteadyBreach(steady, p.steadyTime) then [P02] else [];
    CountAppend(code, bounds, clock);
    CountAppend(code, bounds + clock, BufferFindings(s, p));
    CountAppend(code, bounds + clock + BufferFindings(s, p), EventFindings(s, p));
    BufferFindingsExact(code, s, p);
    EventFindingsExact(code, s, p);
  }

  // ---- steady time ----

  datatype Block = Block(time: int, frames: nat)

  predicate NoBreach(start: Steady, blocks: seq<Block>) {
    forall i | 0 <= i < |blocks| ::
      !SteadyBreach(if i == 0 then start else SteadyNext(blocks[i - 1].time, blocks[i - 1].frames), blocks[i].time)
  }

  function FramesBetween(blocks: seq<Block>, i: nat, j: nat): nat
    requires i <= j <= |blocks|
  {
    if i == j then 0 else FramesBetween(blocks, i, j - 1) + blocks[j - 1].frames
  }

  /**
   Telescoping. On a stretch of blocks with times, without a reset, restart or
   P02, the steady time advances by at least all frames in between.
  */
  lemma {:induction false} SteadyTelescopes(start: Steady, blocks: seq<Block>, i: nat, j: nat)
    requires NoBreach(start, blocks) && i <= j < |blocks|
    requires forall k | 0 <= k < |blocks| :: blocks[k].time >= 0
    ensures blocks[j].time >= blocks[i].time + FramesBetween(blocks, i, j)
  {
    if i < j {
      SteadyTelescopes(start, blocks, i, j - 1);
      assert !SteadyBreach(SteadyNext(blocks[j - 1].time, blocks[j - 1].frames), blocks[j].time);
    }
  }
}

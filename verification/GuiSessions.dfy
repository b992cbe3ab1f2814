/**
 The GUI calls of a host: the gates of src/wrapper/ext/gui.cpp in front of the
 plugin's view. What the window system answers is a parameter of the call.
*/
module GuiSessions {
  import V = Violations
  import opened PrePass
  import opened Monitors
  import HostRuns

  const PARAM_COUNT: nat := 3
  const DEFAULT_WIDTH: nat := 560
  const MIN_WIDTH: nat := 420
  const ROW_HEIGHT: nat := 26
  const BUTTON_ROW_HEIGHT: nat := 28
  const TRANSPORT_HEIGHT: nat := 38
  const LOG_LINES: nat := 20
  const LOG_LINE_HEIGHT: nat := 15
  const PADDING: nat := 8

  function ParamsTop(): nat { PADDING + TRANSPORT_HEIGHT + PADDING }

  function ButtonRowTop(params: nat): nat { ParamsTop() + params * ROW_HEIGHT + PADDING }

  function LogTop(params: nat): nat { ButtonRowTop(params) + BUTTON_ROW_HEIGHT + PADDING }

  function MinHeightFor(params: nat): nat { LogTop(params) + LOG_LINES * LOG_LINE_HEIGHT + PADDING }

  datatype Size = Size(width: nat, height: nat)

  datatype View = NoView | View(size: Size, scale: real)

  /** A logical length in pixels. */
  function Scaled(length: nat, scale: real): (r: nat)
    requires scale > 0.0
  {
    (length as real * scale).Floor
  }

  function Max(a: nat, b: nat): nat { if a < b then b else a }

  function Minimum(scale: real): Size
    requires scale > 0.0
  {
    Size(Scaled(MIN_WIDTH, scale), Scaled(MinHeightFor(PARAM_COUNT), scale))
  }

  function Adjusted(size: Size, scale: real): Size
    requires scale > 0.0
  {
    Size(Max(size.width, Minimum(scale).width), Max(size.height, Minimum(scale).height))
  }

  /** The calls, with the answers of the window system. */
  datatype Call =
    | Create(knownApi: bool, floating: bool, made: View)
    | Destroy
    | SetScale(scale: real)
    | GetSize
    | CanResize
    | GetResizeHints
    | AdjustSize(size: Size)
    | SetSize(size: Size, accepted: bool)
    | SetParent(attached: bool)
    | SetTransient
    | SuggestTitle
    | Show
    | Hide

  datatype State = State(monitor: Monitor, view: View, scale: real)

  predicate Sound(s: State) {
    V.WellFormed(s.monitor.registry) && s.scale > 0.0
  }

  predicate NeedsGui(call: Call) { !call.Create? && !call.Destroy? }

  predicate EmbeddedOnly(call: Call) {
    call.CanResize? || call.GetResizeHints? || call.AdjustSize? || call.SetSize? || call.SetParent?
  }

  predicate FloatingOnly(call: Call) { call.SetTransient? || call.SuggestTitle? }

  /** The codes a call is reported with. */
  function CallFindings(m: Monitor, call: Call): seq<V.Code> {
    if call.Create? then if m.guiCreated then [V.G02] else []
    else if !m.guiCreated then if call.Destroy? then [V.G03] else [V.G01]
    else if (EmbeddedOnly(call) && m.guiFloating) || (FloatingOnly(call) && !m.guiFloating) then [V.G04]
    else []
  }

  /** The call gets past the gates to the plugin. */
  predicate Delegated(m: Monitor, call: Call) { call.Destroy? || CallFindings(m, call) == [] }

  /** The view a create() makes, if any. */
  function ViewMade(s: State, call: Call): View
    requires call.Create?
  {
    if call.floating || !call.knownApi || s.view.View? || call.made.NoView? then NoView
    else call.made.(scale := s.scale)
  }

  function Rescaled(view: View, scale: real): View { if view.View? then view.(scale := scale) else NoView }

  function Resized(s: State, size: Size): View
    requires s.scale > 0.0
  {
    if s.view.View? then s.view.(size := Adjusted(size, s.scale)) else NoView
  }

  function Step(s: State, call: Call): (t: State)
    requires Sound(s)
    ensures Sound(t)
  {
    var m := s.monitor.(registry := V.ReportedAll(s.monitor.registry, CallFindings(s.monitor, call)));
    if !Delegated(s.monitor, call) then s.(monitor := m) else
    match call
    case Create(_, floating, _) =>
      var view := ViewMade(s, call);
      if view.NoView? then s.(monitor := m)
      else s.(monitor := m.(guiCreated := true, guiFloating := floating), view := view)
    case Destroy => s.(monitor := m.(guiCreated := false, guiFloating := false), view := NoView)
    case SetScale(scale) =>
      var next := if scale > 0.0 then scale else 1.0;
      State(m, Rescaled(s.view, next), next)
    case SetSize(size, accepted) => if accepted then s.(monitor := m, view := Resized(s, size)) else s.(monitor := m)
    case _ => s.(monitor := m)
  }

  lemma StepScales(s: State, factor: real)
    requires Sound(s)
    ensures var codes, scale := CallFindings(s.monitor, SetScale(factor)), if factor > 0.0 then factor else 1.0;
      var m := s.monitor.(registry := V.ReportedAll(s.monitor.registry, codes));
      Step(s, SetScale(factor)) ==
        if !s.monitor.guiCreated then s.(monitor := m)
        else State(m, if s.view.View? then s.view.(scale := scale) else s.view, scale)
  {
    hide V.ReportedAll;
  }

  lemma StepSizes(s: State, size: Size, accepted: bool)
    requires Sound(s)
    ensures var call := SetSize(size, accepted);
      var m := s.monitor.(registry := V.ReportedAll(s.monitor.registry, CallFindings(s.monitor, call)));
      Step(s, call) ==
        if Delegated(s.monitor, call) && accepted && s.view.View?
        then s.(monitor := m, view := s.view.(size := Adjusted(size, s.scale)))
        else s.(monitor := m)
  {
    hide V.ReportedAll, Adjusted, Delegated;
  }

  class GuiSession {
    const contract: ContractMonitor
    var view: View
    var scale: real

    ghost predicate Valid()
      reads `scale, contract`total, contract`lastCode, contract`log, contract`registry,
            contract.counters, contract.messages
      ensures Valid() ==> V.WellFormed(contract.registry) && scale > 0.0
    {
      contract.Valid() && scale > 0.0
    }

    ghost function Now(): State
      reads this, contract
    {
      State(contract.State(), view, scale)
    }

    constructor ()
      ensures Valid() && fresh(contract) && fresh(contract.counters) && fresh(contract.messages)
      ensures Now() == State(Initial(), NoView, 1.0)
    {
      contract := new ContractMonitor();
      view, scale := NoView, 1.0;
    }

    method Report(code: V.Code)
      requires Valid()
      modifies contract`total, contract`lastCode, contract`log, contract`registry, contract.counters, contract.messages
      ensures Valid()
      ensures contract.State() ==
        old(contract.State()).(registry := V.ReportedAll(old(contract.registry), [code]))
    {
      contract.Report(code, 0);
      assert [code][..0] == [];
    }

    /** The checks of every call but create() and destroy(). */
    method Gate(call: Call) returns (open: bool)
      requires Valid() && NeedsGui(call)
      modifies contract`total, contract`lastCode, contract`log, contract`registry, contract.counters, contract.messages
      ensures Valid() && open == Delegated(old(contract.State()), call)
      ensures contract.State() == old(contract.State()).(
        registry := V.ReportedAll(old(contract.registry), CallFindings(old(contract.State()), call)))
    {
      hide ContractMonitor.Valid, ContractMonitor.State, V.ReportedAll;
      open := false;
      if !contract.guiCreated {
        Report(V.G01);
      } else if EmbeddedOnly(call) && contract.guiFloating {
        Report(V.G04);
      } else if FloatingOnly(call) && !contract.guiFloating {
        Report(V.G04);
      } else {
        open := true;
      }
    }

    method SCreate(knownApi: bool, floating: bool, made: View) returns (ok: bool)
      requires Valid()
      modifies this, contract, contract.counters, contract.messages
      ensures Valid() && Now() == Step(old(Now()), Create(knownApi, floating, made))
      ensures ok <==> !old(contract.guiCreated) && contract.guiCreated
    {
      hide ContractMonitor.Valid, ContractMonitor.State, V.ReportedAll;
      if contract.guiCreated {
        Report(V.G02);
        return false;
      }
      ok := GuiCreate(knownApi, floating, made);
      if ok {
        contract.SetGuiCreated(true, floating);
      }
    }

    method GuiCreate(knownApi: bool, floating: bool, made: View) returns (ok: bool)
      requires Valid()
      modifies `view
      ensures var view' := ViewMade(old(Now()), Create(knownApi, floating, made));
        (ok <==> view'.View?) && view == if ok then view' else old(view)
    {
      if floating || !knownApi || view.View? || made.NoView? {
        return false;
      }
      view := made;
      view := view.(scale := scale);
      ok := true;
    }

    method SDestroy()
      requires Valid()
      modifies this, contract, contract.counters, contract.messages
      ensures Valid() && Now() == Step(old(Now()), Destroy)
    {
      hide ContractMonitor.Valid, ContractMonitor.State, V.ReportedAll;
      if !contract.guiCreated {
        Report(V.G03);
      }
      view := NoView;
      contract.SetGuiCreated(false, false);
    }

    method SSetScale(factor: real) returns (ok: bool)
      requires Valid()
      modifies this, contract, contract.counters, contract.messages
      ensures Valid() && Now() == Step(old(Now()), SetScale(factor)) && ok == old(contract.guiCreated)
    {
      hide ContractMonitor.Valid, ContractMonitor.State, V.ReportedAll, Step;
      ghost var before := Now();
      ok := Gate(SetScale(factor));
      if ok {
        scale := if factor > 0.0 then factor else 1.0;
        if view.View? {
          view := view.(scale := scale);
        }
      }
      StepScales(before, factor);
    }

    method SAdjustSize(size: Size) returns (ok: bool, adjusted: Size)
      requires Valid()
      modifies this, contract, contract.counters, contract.messages
      ensures Valid() && Now() == Step(old(Now()), AdjustSize(size))
      ensures ok == Delegated(old(contract.State()), AdjustSize(size))
      ensures adjusted == if ok then Adjusted(size, scale) else size
    {
      hide ContractMonitor.Valid, ContractMonitor.State, V.ReportedAll;
      adjusted := size;
      ok := Gate(AdjustSize(size));
      if ok {
        adjusted := AdjustToMinimum(size);
      }
    }

    method AdjustToMinimum(size: Size) returns (adjusted: Size)
      requires Valid()
      ensures adjusted == Adjusted(size, scale)
    {
      var minimum := Minimum(scale);
      adjusted := size;
      if adjusted.width < minimum.width {
        adjusted := adjusted.(width := minimum.width);
      }
      if adjusted.height < minimum.height {
        adjusted := adjusted.(height := minimum.height);
      }
    }

    method SSetSize(size: Size, accepted: bool) returns (ok: bool)
      requires Valid()
      modifies this, contract, contract.counters, contract.messages
      ensures Valid() && Now() == Step(old(Now()), SetSize(size, accepted))
      ensures ok <==> Delegated(old(contract.State()), SetSize(size, accepted)) && old(view).View? && accepted
    {
      hide ContractMonitor.Valid, ContractMonitor.State, V.ReportedAll, Step, Adjusted;
      ghost var before := Now();
      ok := Gate(SetSize(size, accepted));
      if ok {
        var adjusted := AdjustToMinimum(size);
        ok := view.View? && accepted;
        if ok {
          view := view.(size := adjusted);
        }
      }
      StepSizes(before, size, accepted);
    }

    method SGetSize() returns (ok: bool, size: Size)
      requires Valid()
      modifies this, contract, contract.counters, contract.messages
      ensures Valid() && Now() == Step(old(Now()), GetSize) && ok == old(contract.guiCreated)
      ensures ok && view.View? ==> size == view.size
    {
      hide ContractMonitor.Valid, ContractMonitor.State, V.ReportedAll;
      ok := Gate(GetSize);
      size := Size(Scaled(DEFAULT_WIDTH, scale), Scaled(MinHeightFor(PARAM_COUNT), scale));
      if ok && view.View? {
        size := view.size;
      }
    }

    method SSetParent(attached: bool) returns (ok: bool)
      requires Valid()
      modifies this, contract, contract.counters, contract.messages
      ensures Valid() && Now() == Step(old(Now()), SetParent(attached))
      ensures ok <==> Delegated(old(contract.State()), SetParent(attached)) && old(view).View? && attached
    {
      hide ContractMonitor.Valid, ContractMonitor.State, V.ReportedAll;
      ok := Gate(SetParent(attached));
      ok := ok && view.View? && attached;
    }

    /** show() and hide(). */
    method SShowOrHide(call: Call) returns (ok: bool)
      requires Valid() && (call.Show? || call.Hide?)
      modifies this, contract, contract.counters, contract.messages
      ensures Valid() && Now() == Step(old(Now()), call)
      ensures ok <==> old(contract.guiCreated) && old(view).View?
    {
      hide ContractMonitor.Valid, ContractMonitor.State, V.ReportedAll;
      ok := Gate(call);
      ok := ok && view.View?;
    }

    /** can_resize() and get_resize_hints(). */
    method SResizing(call: Call) returns (ok: bool)
      requires Valid() && (call.CanResize? || call.GetResizeHints?)
      modifies this, contract, contract.counters, contract.messages
      ensures Valid() && Now() == Step(old(Now()), call) && ok == Delegated(old(contract.State()), call)
    {
      hide ContractMonitor.Valid, ContractMonitor.State, V.ReportedAll;
      ok := Gate(call);
    }

    /** set_transient() and suggest_title(): even past the gate the plugin declines. */
    method SFloating(call: Call)
      requires Valid() && FloatingOnly(call)
      modifies this, contract, contract.counters, contract.messages
      ensures Valid() && Now() == Step(old(Now()), call)
    {
      hide ContractMonitor.Valid, ContractMonitor.State, V.ReportedAll;
      var open := Gate(call);
    }
  }

  // ---- any sequence of calls ----

  function Run(h: seq<Call>): (s: State)
    ensures Sound(s)
  {
    if h == [] then State(Initial(), NoView, 1.0) else Step(Run(h[..|h| - 1]), h[|h| - 1])
  }

  /** What the gates rely on. */
  predicate Inv(s: State) {
    (s.monitor.guiCreated <==> s.view.View?) && !s.monitor.guiFloating &&
    (s.view.View? ==> s.view.scale == s.scale)
  }

  /**
   After any calls the monitor and the plugin agree on whether there is a GUI; it
   is embedded and at the plugin's scale.
  */
  lemma {:induction false} SessionInvariant(h: seq<Call>)
    ensures Inv(Run(h))
  {
    hide Step;
    if h != [] {
      SessionInvariant(h[..|h| - 1]);
      InvNext(Run(h[..|h| - 1]), h[|h| - 1]);
    }
  }

  lemma InvNext(s: State, call: Call)
    requires Sound(s) && Inv(s)
    ensures Inv(Step(s, call))
  {
    hide V.ReportedAll, CallFindings, Adjusted;
  }

  /** The plugin's fallbacks for a missing or doubled view are never reached, nor are its floating-only methods. */
  lemma {:induction false} FallbacksUnreachable(h: seq<Call>, call: Call)
    requires Delegated(Run(h).monitor, call)
    ensures NeedsGui(call) ==> Run(h).view.View?
    ensures call.Create? ==> Run(h).view.NoView?
    ensures !FloatingOnly(call)
  {
    hide Run;
    SessionInvariant(h);
  }

  /** The minimum is 420 by 484 at scale 1 and grows with the scale, cut to whole pixels. */
  lemma MinimumIs(scale: real)
    requires scale > 0.0
    ensures var m := Minimum(scale);
      m.width as real <= 420.0 * scale < (m.width + 1) as real &&
      m.height as real <= 484.0 * scale < (m.height + 1) as real
  {
    assert MinHeightFor(PARAM_COUNT) == 484;
  }

  /** adjust_size gives the smallest size that covers the request and the minimum. */
  lemma AdjustedIsLeast(size: Size, scale: real, other: Size)
    requires scale > 0.0
    ensures var a, m := Adjusted(size, scale), Minimum(scale);
      (other.width >= a.width && other.height >= a.height) <==>
        (other.width >= size.width && other.height >= size.height &&
         other.width >= m.width && other.height >= m.height)
  {
  }

  /** Setting the size adjust_size proposed sets exactly that size. */
  lemma {:induction false} ProposedSizeIsKept(h: seq<Call>, size: Size)
    requires Run(h).monitor.guiCreated
    ensures var s := Run(h);
      var proposed := Adjusted(size, s.scale);
      Step(s, AdjustSize(size)) == s && Delegated(s.monitor, AdjustSize(size)) &&
      Step(s, SetSize(proposed, true)).view == View(proposed, s.scale)
  {
    hide Run;
    SessionInvariant(h);
  }

  // ---- the reports are the breaches ----

  /** A create() that succeeds when there is no GUI. */
  predicate Makes(call: Call) { call.Create? && call.knownApi && !call.floating && call.made.View? }

  predicate CreatedAfter(h: seq<Call>) {
    exists i | 0 <= i < |h| :: Makes(h[i]) && forall j | i < j < |h| :: !h[j].Destroy?
  }

  function Breaches(code: V.Code, h: seq<Call>, call: Call): nat {
    if code == V.G01 && !call.Create? && !call.Destroy? && !CreatedAfter(h) then 1
    else if code == V.G02 && call.Create? && CreatedAfter(h) then 1
    else if code == V.G03 && call.Destroy? && !CreatedAfter(h) then 1
    else if code == V.G04 && (call.SetTransient? || call.SuggestTitle?) && CreatedAfter(h) then 1
    else 0
  }

  function AllBreaches(code: V.Code, h: seq<Call>): nat {
    if h == [] then 0
    else AllBreaches(code, h[..|h| - 1]) + Breaches(code, h[..|h| - 1], h[|h| - 1])
  }

  /** Which calls the plugin itself gets: create() without a GUI, destroy() always, the embedded ones with a GUI. */
  lemma DelegatedReadsHistory(h: seq<Call>, call: Call)
    ensures Delegated(Run(h).monitor, call) <==>
      if call.Destroy? then true
      else if call.Create? then !CreatedAfter(h)
      else CreatedAfter(h) && !call.SetTransient? && !call.SuggestTitle?
  {
    hide Run, CreatedAfter;
    SessionInvariant(h);
    CreatedReadsHistory(h);
  }

  lemma CreatedNext(h: seq<Call>, call: Call)
    ensures CreatedAfter(h + [call]) <==> Makes(call) || (CreatedAfter(h) && !call.Destroy?)
  {
    var g := h + [call];
    assert g[|h|] == call;
    if i :| 0 <= i < |h| && Makes(h[i]) && forall j | i < j < |h| :: !h[j].Destroy? {
      assert Makes(g[i]);
    }
    if i :| 0 <= i < |g| && Makes(g[i]) && forall j | i < j < |g| :: !g[j].Destroy? {
      if i < |h| {
        assert Makes(h[i]) && forall j | i < j < |h| :: h[j] == g[j];
      }
    }
  }

  /** What a call does to the registry and to the GUI flag, the session being in order. */
  lemma StepParts(s: State, call: Call)
    requires Sound(s)
    ensures var m, r := s.monitor, Step(s, call).monitor;
      r.registry == V.ReportedAll(m.registry, CallFindings(m, call)) &&
      (!m.guiFloating && (m.guiCreated <==> s.view.View?) ==>
        (r.guiCreated <==> Makes(call) || (m.guiCreated && !call.Destroy?)))
  {
    hide V.ReportedAll, Adjusted;
  }

  lemma {:induction false} CreatedReadsHistory(h: seq<Call>)
    ensures Run(h).monitor.guiCreated <==> CreatedAfter(h)
  {
    hide V.ReportedAll, CreatedAfter, Step, Makes;
    if h != [] {
      var front, call := h[..|h| - 1], h[|h| - 1];
      CreatedReadsHistory(front);
      SessionInvariant(front);
      StepParts(Run(front), call);
      CreatedNext(front, call);
      assert h == front + [call];
    } else {
      NotYet();
    }
  }

  lemma NotYet()
    ensures !CreatedAfter([])
  {
  }

  /** G01 to G04 count exactly the calls that break their rule, modulo 2^32. */
  lemma {:induction false} GuiCountersExact(h: seq<Call>, code: V.Code)
    requires V.G01 <= code <= V.G04
    ensures Run(h).monitor.registry.counters[code] == AllBreaches(code, h) % V.UINT32
  {
    hide V.ReportedAll, CreatedAfter, ViewMade, Step, CallFindings, Breaches;
    if h != [] {
      var front, call := h[..|h| - 1], h[|h| - 1];
      var m := Run(front).monitor;
      StepParts(Run(front), call);
      GuiCountersExact(front, code);
      SessionInvariant(front);
      CreatedReadsHistory(front);
      OneFinding(m, front, call, code);
      HostRuns.ReportsCount(m.registry, CallFindings(m, call), code);
      HostRuns.ModSum(AllBreaches(code, front), Breaches(code, front, call));
    }
  }

  lemma OneFinding(m: Monitor, h: seq<Call>, call: Call, code: V.Code)
    requires (m.guiCreated <==> CreatedAfter(h)) && !m.guiFloating && V.G01 <= code <= V.G04
    ensures Count(code, CallFindings(m, call)) == Breaches(code, h, call)
  {
    hide CreatedAfter;
    CountShort(code, V.G01, V.G02);
    CountShort(code, V.G02, V.G02);
    CountShort(code, V.G03, V.G02);
    CountShort(code, V.G04, V.G02);
  }
}

/**
 Parameter changes from the GUI: each is stored at once and also queued, so that
 the audio side can report it to the host. First the queue as a class, then the
 GUI and the draining thread interleaved one step at a time.
*/
module ParamQueues {

  const PARAM_COUNT: nat := 3

  datatype Kind = GestureBegin | Value | GestureEnd

  datatype Item = Item(kind: Kind, paramId: nat, value: real)

  type Values = v: seq<real> | |v| == PARAM_COUNT witness [0.0, 0.0, 0.0]

  /** Storing to an id without storage does nothing. */
  function Stored(values: Values, id: nat, value: real): Values {
    if id < PARAM_COUNT then values[id := value] else values
  }

  function ApplyItem(values: Values, item: Item): Values {
    if item.kind.Value? then Stored(values, item.paramId, item.value) else values
  }

  function ApplyAll(values: Values, items: seq<Item>): Values
    decreases |items|
  {
    if items == [] then values else ApplyAll(ApplyItem(values, items[0]), items[1..])
  }

  /** Item i is the last one that sets a parameter. */
  predicate SetsLast(items: seq<Item>, i: int, id: nat) {
    0 <= i < |items| && items[i].kind.Value? && items[i].paramId == id &&
    forall j | i < j < |items| :: items[j].kind.Value? ==> items[j].paramId != id
  }

  /** Nothing in the list sets the parameter. */
  predicate Untouched(items: seq<Item>, id: nat) {
    forall i | 0 <= i < |items| :: items[i].kind.Value? ==> items[i].paramId != id
  }

  /** After applying a list, each parameter has the value of its last item, or its old value. */
  lemma {:induction false} LastItemWins(values: Values, items: seq<Item>, id: nat)
    requires id < PARAM_COUNT
    ensures forall i | SetsLast(items, i, id) :: ApplyAll(values, items)[id] == items[i].value
    ensures Untouched(items, id) ==> ApplyAll(values, items)[id] == values[id]
    decreases |items|
  {
    if items != [] {
      var next, rest := ApplyItem(values, items[0]), items[1..];
      LastItemWins(next, rest, id);
      RestSets(items, id);
      hide SetsLast, Untouched;
      forall i | SetsLast(items, i, id) ensures ApplyAll(values, items)[id] == items[i].value {
        assert i > 0 ==> rest[i - 1] == items[i];
      }
    }
  }

  /** Who sets a parameter last, one item further on. */
  lemma RestSets(items: seq<Item>, id: nat)
    requires items != []
    ensures forall i | SetsLast(items, i, id) :: if i > 0 then SetsLast(items[1..], i - 1, id) else
      items[0].kind.Value? && items[0].paramId == id && Untouched(items[1..], id)
    ensures Untouched(items, id) ==> Untouched(items[1..], id) && (items[0].kind.Value? ==> items[0].paramId != id)
  {
    assert forall j | 0 <= j < |items| - 1 :: items[1..][j] == items[j + 1];
  }

  lemma {:induction false} ApplyAppends(values: Values, a: seq<Item>, b: seq<Item>)
    ensures ApplyAll(values, a + b) == ApplyAll(ApplyAll(values, a), b)
    decreases |a|
  {
    if a == [] {
      assert a + b == b;
    } else {
      assert (a + b)[1..] == a[1..] + b;
      ApplyAppends(ApplyItem(values, a[0]), a[1..], b);
    }
  }

  // ---- the class ----

  /** The parameters of GuiPlugin and the queue that feeds the host. */
  class GuiParameters {
    const storage: array<real>
    var items: seq<Item>

    ghost predicate Valid()
    {
      storage.Length == PARAM_COUNT
    }

    constructor ()
      ensures Valid() && fresh(storage) && items == [] && storage[..] == [0.0, 0.0, 0.0]
    {
      storage := new real[PARAM_COUNT](_ => 0.0);
      items := [];
    }

    method Store(id: nat, value: real)
      requires Valid()
      modifies storage
      ensures storage[..] == Stored(old(storage[..]), id, value)
    {
      if id < PARAM_COUNT {
        storage[id] := value;
      }
    }

    method Push(item: Item)
      modifies this
      ensures items == old(items) + [item]
    {
      items := items + [item];
    }

    method SetValue(id: nat, value: real)
      requires Valid()
      modifies this, storage
      ensures storage[..] == Stored(old(storage[..]), id, value)
      ensures items == old(items) + [Item(Value, id, value)]
    {
      Store(id, value);
      Push(Item(Value, id, value));
    }

    /** Takes all items at once, applies the values in order and forwards everything if there is somewhere to. */
    method Drain(out: bool) returns (sent: seq<Item>)
      requires Valid()
      modifies this, storage
      ensures items == [] && storage[..] == ApplyAll(old(storage[..]), old(items))
      ensures sent == if out then old(items) else []
    {
      var taken := items;
      items := [];
      sent := [];
      for i := 0 to |taken|
        invariant items == [] && sent == if out then taken[..i] else []
        invariant ApplyAll(storage[..], taken[i..]) == ApplyAll(old(storage[..]), taken)
      {
        if taken[i].kind.Value? {
          Store(taken[i].paramId, taken[i].value);
        }
        if out {
          sent := sent + [taken[i]];
        }
      }
    }

    /** flush(): the host's own value events first, then the queue. */
    method Flush(events: seq<Item>, out: bool) returns (sent: seq<Item>)
      requires Valid()
      modifies this, storage
      ensures items == [] && storage[..] == ApplyAll(old(storage[..]), events + old(items))
      ensures sent == if out then old(items) else []
    {
      for i := 0 to |events|
        invariant items == old(items)
        invariant ApplyAll(storage[..], events[i..]) == ApplyAll(old(storage[..]), events)
      {
        if events[i].kind.Value? {
          Store(events[i].paramId, events[i].value);
        }
      }
      ApplyAppends(old(storage[..]), events, items);
      sent := Drain(out);
    }

    method Clear()
      modifies this
      ensures items == []
    {
      items := [];
    }
  }

  // ---- interleaved ----

  /** A drain in progress: what it took and has not finished, and whether the first of these is applied. */
  datatype Drainer = Idle | Draining(flight: seq<Item>, applied: bool, out: bool)

  /**
   `pending` is a set value the GUI has stored but not pushed yet. The last four
   fields are history: what the GUI pushed, what drains finished, what was
   forwarded, and the value the GUI last set for each parameter.
  */
  datatype State = State(
    values: Values, queue: seq<Item>, pending: seq<Item>, drainer: Drainer,
    pushed: seq<Item>, finished: seq<Item>, forwarded: seq<Item>, lastSet: Values)

  datatype Step =
    | GuiStore(id: nat, value: real)
    | GuiPush
    | GuiGesture(kind: Kind, id: nat)
    | Swap(out: bool)
    | ApplyHead
    | FinishHead
    | EndDrain
    | HostSet(id: nat, value: real)
    | ClearQueue

  function Start(values: Values): State { State(values, [], [], Idle, [], [], [], values) }

  /** A step that is not enabled leaves everything as it is. */
  function Next(s: State, step: Step): State {
    match step
    case GuiStore(id, value) =>
      if s.pending != [] then s
      else s.(values := Stored(s.values, id, value), pending := [Item(Value, id, value)],
              lastSet := Stored(s.lastSet, id, value))
    case GuiPush => s.(queue := s.queue + s.pending, pushed := s.pushed + s.pending, pending := [])
    case GuiGesture(kind, id) =>
      if s.pending != [] || kind.Value? then s
      else s.(queue := s.queue + [Item(kind, id, 0.0)], pushed := s.pushed + [Item(kind, id, 0.0)])
    case Swap(out) => if s.drainer.Idle? then s.(queue := [], drainer := Draining(s.queue, false, out)) else s
    case ApplyHead =>
      if s.drainer.Idle? || s.drainer.flight == [] || s.drainer.applied then s
      else s.(values := ApplyItem(s.values, s.drainer.flight[0]), drainer := s.drainer.(applied := true))
    case FinishHead =>
      if s.drainer.Idle? || s.drainer.flight == [] || !s.drainer.applied then s
      else
        var head := s.drainer.flight[0];
        s.(drainer := s.drainer.(flight := s.drainer.flight[1..], applied := false),
           finished := s.finished + [head],
           forwarded := if s.drainer.out then s.forwarded + [head] else s.forwarded)
    case EndDrain => if s.drainer.Draining? && s.drainer.flight == [] then s.(drainer := Idle) else s
    case HostSet(id, value) => s.(values := Stored(s.values, id, value))
    case ClearQueue => s.(queue := [])
  }

  function Run(values: Values, steps: seq<Step>): State {
    if steps == [] then Start(values) else Next(Run(values, steps[..|steps| - 1]), steps[|steps| - 1])
  }

  /** The steps of a drain of n items without its swap. */
  function Items(n: nat): seq<Step> { if n == 0 then [] else [ApplyHead, FinishHead] + Items(n - 1) }

  function After(s: State, steps: seq<Step>): State
    decreases |steps|
  {
    if steps == [] then s else After(Next(s, steps[0]), steps[1..])
  }

  /** Uninterrupted, the steps of a drain do what the method Drain promises. */
  lemma {:induction false} DrainInSteps(s: State, items: seq<Item>, out: bool)
    requires s.drainer == Draining(items, false, out)
    ensures After(s, Items(|items|)) ==
      s.(values := ApplyAll(s.values, items), drainer := Draining([], false, out),
         finished := s.finished + items, forwarded := s.forwarded + if out then items else [])
    decreases |items|
  {
    hide ApplyItem, Next;
    if items != [] {
      var n, rest := Next(Next(s, ApplyHead), FinishHead), Items(|items| - 1);
      HeadInSteps(s, items, out);
      AfterTwo(s, ApplyHead, FinishHead, rest);
      DrainInSteps(n, items[1..], out);
      assert s.finished + [items[0]] + items[1..] == s.finished + items;
      assert out ==> s.forwarded + [items[0]] + items[1..] == s.forwarded + items;
    }
  }

  /** One item of a drain. */
  lemma HeadInSteps(s: State, items: seq<Item>, out: bool)
    requires s.drainer == Draining(items, false, out) && items != []
    ensures Next(Next(s, ApplyHead), FinishHead) ==
      s.(values := ApplyItem(s.values, items[0]), drainer := Draining(items[1..], false, out),
         finished := s.finished + [items[0]], forwarded := if out then s.forwarded + [items[0]] else s.forwarded)
  {
    hide ApplyItem;
  }

  lemma AfterTwo(s: State, a: Step, b: Step, rest: seq<Step>)
    ensures After(s, [a, b] + rest) == After(Next(Next(s, a), b), rest)
  {
    hide Next;
    assert ([a, b] + rest)[1..] == [b] + rest && ([b] + rest)[1..] == rest;
  }

  function Flight(s: State): seq<Item> { if s.drainer.Idle? then [] else s.drainer.flight }

  /** What a drain has still to apply. */
  function Unapplied(s: State): seq<Item> {
    if s.drainer.Draining? && s.drainer.applied && s.drainer.flight != [] then s.drainer.flight[1..] else Flight(s)
  }

  predicate NoClear(steps: seq<Step>) { forall i | 0 <= i < |steps| :: !steps[i].ClearQueue? }

  predicate NoHost(steps: seq<Step>) { forall i | 0 <= i < |steps| :: !steps[i].HostSet? }

  predicate AlwaysOut(steps: seq<Step>) { forall i | 0 <= i < |steps| :: steps[i].Swap? ==> steps[i].out }

  // ---- exactly once, in order ----

  ghost predicate Accounted(s: State) {
    s.finished + Flight(s) + s.queue == s.pushed &&
    (s.drainer.Draining? && s.drainer.applied ==> s.drainer.flight != [])
  }

  /** Everything pushed is finished, in flight or queued: once each, in order. */
  lemma {:induction false} ExactlyOnce(values: Values, steps: seq<Step>)
    requires NoClear(steps)
    ensures Accounted(Run(values, steps))
  {
    if steps != [] {
      var front := steps[..|steps| - 1];
      ExactlyOnce(values, front);
      AccountedNext(Run(values, front), steps[|steps| - 1]);
    }
  }

  lemma AccountedNext(s: State, step: Step)
    requires Accounted(s) && !step.ClearQueue?
    ensures Accounted(Next(s, step))
  {
    hide ApplyItem, Stored;
    match step
    case GuiPush => assert s.finished + Flight(s) + (s.queue + s.pending) == s.pushed + s.pending;
    case GuiGesture(kind, id) =>
      assert s.finished + Flight(s) + (s.queue + [Item(kind, id, 0.0)]) == s.pushed + [Item(kind, id, 0.0)];
    case Swap(_) => assert s.drainer.Idle? ==> s.finished + s.queue + [] == s.finished + [] + s.queue;
    case FinishHead => FinishKeepsAll(s);
    case _ =>
  }

  lemma FinishKeepsAll(s: State)
    requires Accounted(s)
    ensures Accounted(Next(s, FinishHead))
  {
    var n := Next(s, FinishHead);
    if n != s {
      var head, rest := s.drainer.flight[0], s.drainer.flight[1..];
      assert s.drainer.flight == [head] + rest;
      assert n.finished + Flight(n) == s.finished + Flight(s);
    }
  }

  /** When every drain has an output, forwarded, in-flight and queued items are what was pushed. */
  lemma {:induction false} AllForwarded(values: Values, steps: seq<Step>)
    requires AlwaysOut(steps)
    ensures var s := Run(values, steps); s.forwarded == s.finished && (s.drainer.Draining? ==> s.drainer.out)
  {
    if steps != [] {
      AllForwarded(values, steps[..|steps| - 1]);
    }
  }

  // ---- convergence ----

  /** What the drain, the queue and the GUI still have to do, in order. */
  function Todo(s: State): seq<Item> { Unapplied(s) + s.queue + s.pending }

  /** Once everything still under way is applied, the parameter is what the GUI last set. */
  predicate Converging(s: State, id: nat)
    requires id < PARAM_COUNT
  {
    ApplyAll(s.values, Todo(s))[id] == s.lastSet[id]
  }

  predicate Quiet(s: State) { s.queue == [] && Flight(s) == [] && s.pending == [] }

  /** Between drains, and with nothing about to be pushed: when the host may deactivate. */
  predicate BetweenDrains(s: State) { s.drainer.Idle? && s.pending == [] }

  /** clear() in this state would drop a value of the parameter other than the stored one. */
  predicate DropsValue(s: State, id: nat)
    requires id < PARAM_COUNT
  {
    exists i | 0 <= i < |s.queue| :: SetsLast(s.queue, i, id) && s.queue[i].value != s.values[id]
  }

  /** Every clear() of the run comes between drains. */
  ghost predicate ClearsBetweenDrains(values: Values, steps: seq<Step>) {
    forall k | 0 <= k < |steps| && steps[k].ClearQueue? :: BetweenDrains(Run(values, steps[..k]))
  }

  /** The k-th step is a clear() that drops a value of the parameter. */
  ghost predicate DropsAt(values: Values, steps: seq<Step>, k: nat, id: nat)
    requires k < |steps| && id < PARAM_COUNT
  {
    steps[k].ClearQueue? && DropsValue(Run(values, steps[..k]), id)
  }

  /** The k-th step is the GUI setting the parameter. */
  ghost predicate SetAt(values: Values, steps: seq<Step>, k: nat, id: nat)
    requires k < |steps|
  {
    steps[k].GuiStore? && steps[k].id == id && Run(values, steps[..k]).pending == []
  }

  /** Some clear() has dropped a value of the parameter, and the GUI has not set it since. */
  ghost predicate Lost(values: Values, steps: seq<Step>, id: nat)
    requires id < PARAM_COUNT
  {
    exists k | 0 <= k < |steps| :: DropsAt(values, steps, k, id) &&
      forall j | k < j < |steps| :: !SetAt(values, steps, j, id)
  }

  lemma LostNext(values: Values, steps: seq<Step>, step: Step, id: nat)
    requires id < PARAM_COUNT
    ensures var s := Run(values, steps);
      Lost(values, steps + [step], id) <==>
        (step.ClearQueue? && DropsValue(s, id)) ||
        (Lost(values, steps, id) && !(step.GuiStore? && step.id == id && s.pending == []))
  {
    hide Run, DropsValue;
    var longer := steps + [step];
    assert longer[..|steps|] == steps;
    assert forall k | 0 <= k < |steps| :: longer[..k] == steps[..k];
    assert forall k | 0 <= k < |steps| :: DropsAt(values, longer, k, id) <==> DropsAt(values, steps, k, id);
    assert forall k | 0 <= k < |steps| :: SetAt(values, longer, k, id) <==> SetAt(values, steps, k, id);
    assert SetAt(values, longer, |steps|, id) <==> step.GuiStore? && step.id == id && Run(values, steps).pending == [];
    assert DropsAt(values, longer, |steps|, id) <==> step.ClearQueue? && DropsValue(Run(values, steps), id);
  }

  /** A parameter is on its way to the value the GUI last set, or it is stuck at another one. */
  predicate OnItsWay(s: State, id: nat, lost: bool)
    requires id < PARAM_COUNT
  {
    |s.pending| <= 1 &&
    if lost then Untouched(Todo(s), id) && s.values[id] != s.lastSet[id] else Converging(s, id)
  }

  lemma {:induction false} AlwaysOnItsWay(values: Values, steps: seq<Step>, id: nat)
    requires id < PARAM_COUNT && NoHost(steps) && ClearsBetweenDrains(values, steps)
    ensures OnItsWay(Run(values, steps), id, Lost(values, steps, id))
  {
    hide OnItsWay, Lost, BetweenDrains, DropsValue, Next;
    if steps != [] {
      var front, last := steps[..|steps| - 1], steps[|steps| - 1];
      assert steps == front + [last];
      assert forall k | 0 <= k < |front| :: front[..k] == steps[..k];
      AlwaysOnItsWay(values, front, id);
      LostNext(values, front, last, id);
      if last.ClearQueue? {
        ClearNext(Run(values, front), id, Lost(values, front, id));
      } else {
        OnItsWayNext(Run(values, front), last, id, Lost(values, front, id));
      }
    } else {
      StartsOnItsWay(values, id);
    }
  }

  lemma StartsOnItsWay(values: Values, id: nat)
    requires id < PARAM_COUNT
    ensures OnItsWay(Start(values), id, false) && !Lost(values, [], id)
  {
    assert Todo(Start(values)) == [];
  }

  /** Between drains the parameter is already what the GUI last set, unless it is lost or the queue says otherwise. */
  lemma ShowsLastSetIff(s: State, id: nat, lost: bool)
    requires id < PARAM_COUNT && OnItsWay(s, id, lost) && BetweenDrains(s)
    ensures s.values[id] == s.lastSet[id] <==> !lost && !DropsValue(s, id)
  {
    hide ApplyAll;
    assert Todo(s) == s.queue;
    LastItemWins(s.values, s.queue, id);
    SetOrNot(s.queue, id);
    if i :| SetsLast(s.queue, i, id) {
      assert !lost;
      assert DropsValue(s, id) <==> s.queue[i].value != s.values[id] by {
        forall j | SetsLast(s.queue, j, id) ensures j == i { }
      }
    }
  }

  lemma ClearNext(s: State, id: nat, lost: bool)
    requires id < PARAM_COUNT && OnItsWay(s, id, lost) && BetweenDrains(s)
    ensures OnItsWay(Next(s, ClearQueue), id, lost || DropsValue(s, id))
  {
    hide DropsValue;
    ShowsLastSetIff(s, id, lost);
    assert Todo(Next(s, ClearQueue)) == [];
  }

  /** What a step other than clear() does to the list of what is still to do. */
  lemma TodoNext(s: State, step: Step)
    requires !step.ClearQueue? && !step.HostSet? && |s.pending| <= 1
    ensures var n, todo := Next(s, step), Todo(s);
      |n.pending| <= 1 &&
      match step
      case GuiStore(id, value) =>
        (s.pending != [] ==> n == s) &&
        (s.pending == [] ==>
          Todo(n) == todo + [Item(Value, id, value)] &&
          n.values == Stored(s.values, id, value) && n.lastSet == Stored(s.lastSet, id, value))
      case GuiGesture(kind, id) =>
        n.values == s.values && n.lastSet == s.lastSet &&
        Todo(n) == if s.pending != [] || kind.Value? then todo else todo + [Item(kind, id, 0.0)]
      case ApplyHead =>
        n.lastSet == s.lastSet &&
        (n == s || (todo != [] && Todo(n) == todo[1..] && n.values == ApplyItem(s.values, todo[0])))
      case _ => n.values == s.values && n.lastSet == s.lastSet && Todo(n) == todo
  {
    hide ApplyItem, Stored;
    var n, todo := Next(s, step), Todo(s);
    match step
    case GuiStore(id, value) => assert s.pending == [] ==> todo == Unapplied(s) + s.queue;
    case GuiPush => assert Unapplied(s) + (s.queue + s.pending) + [] == todo;
    case GuiGesture(kind, id) =>
      assert s.pending == [] && !kind.Value? ==> Todo(n) == todo + [Item(kind, id, 0.0)];
    case Swap(_) => assert s.queue + [] + s.pending == [] + s.queue + s.pending;
    case ApplyHead =>
      if n != s {
        assert todo[0] == s.drainer.flight[0];
        assert Todo(n) == todo[1..];
      }
    case FinishHead => assert Unapplied(n) == Unapplied(s);
    case EndDrain => assert Unapplied(n) == Unapplied(s);
    case HostSet(_, _) =>
    case ClearQueue =>
  }

  lemma OnItsWayNext(s: State, step: Step, id: nat, lost: bool)
    requires id < PARAM_COUNT && OnItsWay(s, id, lost) && !step.ClearQueue? && !step.HostSet?
    ensures OnItsWay(Next(s, step), id, lost && !(step.GuiStore? && step.id == id && s.pending == []))
  {
    hide Next, Todo, ApplyAll;
    TodoNext(s, step);
    var n, todo := Next(s, step), Todo(s);
    match step
    case GuiStore(other, value) =>
      if s.pending == [] {
        StoreConverges(s.values, todo, id, other, value);
        assert lost && other != id ==> Untouched(todo + [Item(Value, other, value)], id);
      }
    case GuiGesture(kind, other) =>
      if s.pending == [] && !kind.Value? {
        GestureConverges(s.values, todo, Item(kind, other, 0.0));
      }
    case ApplyHead =>
      if n != s {
        assert ApplyAll(s.values, todo) == ApplyAll(n.values, Todo(n)) by { Unrolled(s.values, todo); }
        assert Untouched(todo, id) ==> !(todo[0].kind.Value? && todo[0].paramId == id);
      }
    case _ =>
  }

  lemma Unrolled(values: Values, items: seq<Item>)
    requires items != []
    ensures ApplyAll(values, items) == ApplyAll(ApplyItem(values, items[0]), items[1..])
  {
  }

  lemma LastOne(values: Values, items: seq<Item>, item: Item)
    ensures ApplyAll(values, items + [item]) == ApplyItem(ApplyAll(values, items), item)
  {
    ApplyAppends(values, items, [item]);
    Unrolled(ApplyAll(values, items), [item]);
  }

  /** A store that is also queued settles its own parameter and leaves the others as they would have been. */
  lemma StoreConverges(values: Values, todo: seq<Item>, id: nat, other: nat, value: real)
    requires id < PARAM_COUNT
    ensures var r := ApplyAll(Stored(values, other, value), todo + [Item(Value, other, value)]);
      r[id] == if id == other then value else ApplyAll(values, todo)[id]
  {
    hide ApplyAll;
    LastOne(Stored(values, other, value), todo, Item(Value, other, value));
    Overwritten(values, todo, other, value);
  }

  /** A store that is repeated at the end might as well not have happened at the start. */
  lemma {:induction false} Overwritten(values: Values, todo: seq<Item>, id: nat, value: real)
    ensures Stored(ApplyAll(Stored(values, id, value), todo), id, value) == Stored(ApplyAll(values, todo), id, value)
    decreases |todo|
  {
    if todo != [] {
      var head := todo[0];
      if head.kind.Value? && head.paramId == id {
        assert ApplyItem(Stored(values, id, value), head) == ApplyItem(values, head);
      } else {
        assert ApplyItem(Stored(values, id, value), head) == Stored(ApplyItem(values, head), id, value);
        Overwritten(ApplyItem(values, head), todo[1..], id, value);
      }
    }
  }

  lemma GestureConverges(values: Values, todo: seq<Item>, gesture: Item)
    requires !gesture.kind.Value?
    ensures ApplyAll(values, todo + [gesture]) == ApplyAll(values, todo)
  {
    LastOne(values, todo, gesture);
  }

  /**
   In every interleaving without host events whose clear() calls come between drains:
   whenever nothing is queued, in flight or about to be pushed, a parameter is what the
   GUI set last, unless a clear() since then has dropped a value of it.
  */
  lemma GuiWinsIff(values: Values, steps: seq<Step>, id: nat)
    requires id < PARAM_COUNT && NoHost(steps) && ClearsBetweenDrains(values, steps) && Quiet(Run(values, steps))
    ensures Run(values, steps).values[id] == Run(values, steps).lastSet[id] <==> !Lost(values, steps, id)
  {
    hide Run, Lost;
    AlwaysOnItsWay(values, steps, id);
    assert Todo(Run(values, steps)) == [];
  }

  /** Without clear() and host events every parameter of a quiet state is what the GUI set last. */
  lemma GuiWins(values: Values, steps: seq<Step>)
    requires NoClear(steps) && NoHost(steps) && Quiet(Run(values, steps))
    ensures Run(values, steps).values == Run(values, steps).lastSet
  {
    hide Run;
    var s := Run(values, steps);
    forall id: nat | id < PARAM_COUNT ensures s.values[id] == s.lastSet[id] {
      GuiWinsIff(values, steps, id);
    }
  }

  /**
   One more clear() between drains, as deactivate() calls it. Afterwards every
   parameter is what the GUI set last exactly when no earlier clear() has lost one
   for good, and now the last queued value of every parameter is the stored one:
   what the caller can read off the queue and the parameters.
  */
  lemma ClearLosesNothingIff(values: Values, steps: seq<Step>)
    requires NoHost(steps) && ClearsBetweenDrains(values, steps) && BetweenDrains(Run(values, steps))
    ensures var s := Run(values, steps);
      Next(s, ClearQueue).values == s.lastSet <==>
        forall id: nat | id < PARAM_COUNT :: !Lost(values, steps, id) && !DropsValue(s, id)
  {
    hide Run, Lost, DropsValue, OnItsWay, BetweenDrains;
    var s := Run(values, steps);
    forall id: nat | id < PARAM_COUNT
      ensures s.values[id] == s.lastSet[id] <==> !Lost(values, steps, id) && !DropsValue(s, id)
    {
      AlwaysOnItsWay(values, steps, id);
      ShowsLastSetIff(s, id, Lost(values, steps, id));
    }
    assert s.values == s.lastSet <==> forall id: nat | id < PARAM_COUNT :: s.values[id] == s.lastSet[id];
  }

  /** Some item is the last to set a parameter, or none sets it. */
  lemma {:induction false} SetOrNot(items: seq<Item>, id: nat)
    ensures (exists i :: SetsLast(items, i, id)) || Untouched(items, id)
  {
    if items != [] {
      var rest := items[1..];
      SetOrNot(rest, id);
      if i :| SetsLast(rest, i, id) {
        assert items[i + 1] == rest[i];
        assert forall j | i + 1 < j < |items| :: items[j] == rest[j - 1];
        assert SetsLast(items, i + 1, id);
      } else {
        assert forall j | 0 < j < |items| :: items[j] == rest[j - 1];
        if items[0].kind.Value? && items[0].paramId == id {
          assert SetsLast(items, 0, id);
        }
      }
    }
  }

  /** A set value that clear() loses: an older one, drained after the newer was stored, stays. */
  lemma ClearLosesUpdate(values: Values, old_: real, new_: real)
    requires old_ != new_
    ensures var s := Run(values, [GuiStore(0, old_), GuiPush, Swap(true), GuiStore(0, new_), GuiPush, ApplyHead,
                                  FinishHead, EndDrain, ClearQueue]);
      Quiet(s) && s.values[0] == old_ && s.lastSet[0] == new_
  {
    hide Next;
    var a := [GuiStore(0, old_), GuiPush, Swap(true), GuiStore(0, new_), GuiPush];
    RunFive(values, old_, new_);
    RunOne(values, a, ApplyHead);
    RunOne(values, a + [ApplyHead], FinishHead);
    RunOne(values, a + [ApplyHead] + [FinishHead], EndDrain);
    RunOne(values, a + [ApplyHead] + [FinishHead] + [EndDrain], ClearQueue);
    LastFour(Run(values, a), Item(Value, 0, old_));
    assert a + [ApplyHead] + [FinishHead] + [EndDrain] + [ClearQueue] ==
      [GuiStore(0, old_), GuiPush, Swap(true), GuiStore(0, new_), GuiPush, ApplyHead, FinishHead, EndDrain, ClearQueue];
  }

  lemma LastFour(s: State, item: Item)
    requires s.drainer == Draining([item], false, true) && s.pending == [] && item.kind.Value? && item.paramId == 0
    ensures var n := Next(Next(Next(Next(s, ApplyHead), FinishHead), EndDrain), ClearQueue);
      Quiet(n) && n.values[0] == item.value && n.lastSet == s.lastSet
  {
  }

  lemma RunOne(values: Values, steps: seq<Step>, step: Step)
    ensures Run(values, steps + [step]) == Next(Run(values, steps), step)
  {
    assert (steps + [step])[..|steps|] == steps;
  }

  lemma RunFive(values: Values, old_: real, new_: real)
    ensures var item, next := Item(Value, 0, old_), Item(Value, 0, new_);
      Run(values, [GuiStore(0, old_), GuiPush, Swap(true), GuiStore(0, new_), GuiPush]) ==
        State(values[0 := new_], [next], [], Draining([item], false, true), [item, next], [], [], values[0 := new_])
  {
    var item, next, was := Item(Value, 0, old_), Item(Value, 0, new_), values[0 := old_];
    var a, b := [GuiStore(0, old_)], [GuiStore(0, old_)] + [GuiPush];
    RunOne(values, [], GuiStore(0, old_));
    assert [] + a == a;
    assert Run(values, a) == State(was, [], [item], Idle, [], [], [], was);
    RunOne(values, a, GuiPush);
    assert [] + [item] == [item];
    assert Run(values, b) == State(was, [item], [], Idle, [item], [], [], was);
    RunOne(values, b, Swap(true));
    assert Run(values, b + [Swap(true)]) == State(was, [], [], Draining([item], false, true), [item], [], [], was);
    RunOne(values, b + [Swap(true)], GuiStore(0, new_));
    RunOne(values, b + [Swap(true)] + [GuiStore(0, new_)], GuiPush);
    assert was[0 := new_] == values[0 := new_];
    assert [] + [next] == [next] && [item] + [next] == [item, next];
    assert b + [Swap(true)] + [GuiStore(0, new_)] + [GuiPush] ==
      [GuiStore(0, old_), GuiPush, Swap(true), GuiStore(0, new_), GuiPush];
  }
}

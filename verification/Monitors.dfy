/**
 The per-instance host-contract monitor of src/wrapper/contract.h and
 contract.cpp: lifecycle flags, activate-time caches and the violation registry.
*/
module Monitors {
  import V = Violations
  import opened PrePass

  /** Everything the monitor stores. */
  datatype Monitor = Monitor(
    registry: V.Registry, initialized: bool, active: bool, processing: bool, beingActivated: bool, inProcess: bool,
    guiCreated: bool, guiFloating: bool, snapshot: Snapshot, steady: Steady, pending: V.Counter)

  class ContractMonitor {
    const counters: array<V.Counter>
    const messages: array<V.Text>
    var total: V.Counter
    var lastCode: int
    var log: seq<V.Line>

    var initialized: bool
    var active: bool
    var processing: bool
    var beingActivated: bool
    var inProcess: bool
    var guiCreated: bool
    var guiFloating: bool

    var snapshot: Snapshot
    var steady: Steady
    var pending: V.Counter

    /** The registry as a value; `Valid` ties it to the arrays. */
    ghost var registry: V.Registry

    ghost predicate Valid()
      reads `total, `lastCode, `log, `registry, counters, messages
    {
      V.WellFormed(registry) && registry == V.Registry(counters[..], total, lastCode, messages[..], log)
    }

    ghost function State(): (m: Monitor)
      reads this
      ensures m.registry == registry && m.snapshot == snapshot && m.steady == steady && m.pending == pending
      ensures m.initialized == initialized && m.active == active && m.processing == processing
      ensures m.inProcess == inProcess && m.beingActivated == beingActivated
      ensures m.guiCreated == guiCreated && m.guiFloating == guiFloating
    {
      Monitor(registry, initialized, active, processing, beingActivated, inProcess, guiCreated, guiFloating,
              snapshot, steady, pending)
    }

    constructor ()
      ensures Valid() && fresh(counters) && fresh(messages) && State() == Initial()
    {
      counters := new V.Counter[V.CODE_COUNT](_ => 0);
      messages := new V.Text[V.CODE_COUNT](_ => 0);
      total, lastCode, log := 0, -1, [];
      initialized, active, processing, beingActivated, inProcess := false, false, false, false, false;
      guiCreated, guiFloating := false, false;
      snapshot, steady, pending := Snapshot(0, 0, [], [], []), NoBaseline, 0;
      registry := V.Empty();
      new;
      assert counters[..] == V.Zeros() && messages[..] == V.Zeros();
    }

    method SetInitialized()
      modifies `initialized
      ensures State() == old(State()).(initialized := true)
    {
      initialized := true;
    }

    method SetActive(on: bool)
      modifies `active
      ensures State() == old(State()).(active := on)
    {
      active := on;
    }

    method SetProcessing(on: bool)
      modifies `processing
      ensures State() == old(State()).(processing := on)
    {
      processing := on;
    }

    method SetBeingActivated(on: bool)
      modifies `beingActivated
      ensures State() == old(State()).(beingActivated := on)
    {
      beingActivated := on;
    }

    method SetGuiCreated(created: bool, floating: bool)
      modifies `guiCreated, `guiFloating
      ensures State() == old(State()).(guiCreated := created, guiFloating := floating)
    {
      guiFloating := floating;
      guiCreated := created;
    }

    method SetSnapshot(captured: Snapshot)
      modifies `snapshot
      ensures State() == old(State()).(snapshot := captured)
    {
      snapshot := captured;
    }

    method InvalidateSteadyTime()
      modifies `steady
      ensures State() == old(State()).(steady := NoBaseline)
    {
      steady := NoBaseline;
    }

    method Record(code: V.Code, text: V.Text, occurrence: nat)
      modifies `total, `lastCode, messages
      requires code < messages.Length
      ensures total == V.Bumped(old(total)) && lastCode == code
      ensures messages[..] ==
        if occurrence <= V.FULL_REPORTS then old(messages[..])[code := text] else old(messages[..])
    {
      total := (total + 1) % V.UINT32;
      lastCode := code;
      if occurrence <= V.FULL_REPORTS {
        messages[code] := text;
      }
    }

    /** Five full lines, then every hundredth occurrence. */
    method Emit(code: V.Code, n: nat, text: V.Text)
      modifies `log
      ensures log == old(log) + V.Emitted(code, n, text)
    {
      if n <= V.FULL_REPORTS {
        log := log + [V.Full(code, n, text)];
      } else if n % V.REPEAT_EVERY == 0 {
        log := log + [V.Repeated(code, n)];
      } else {
        assert log == log + [];
      }
    }

    method Report(code: V.Code, text: V.Text)
      requires Valid()
      modifies `total, `lastCode, `log, `registry, counters, messages
      ensures Valid() && State() == old(State()).(registry := V.Reported(old(registry), code, text))
    {
      hide V.Emitted;
      var n := (counters[code] + 1) % V.UINT32;
      counters[code] := n;
      Record(code, text, n);
      Emit(code, n, text);
      registry := V.Reported(registry, code, text);
    }

    method Note(code: V.Code, text: V.Text)
      requires Valid()
      modifies `total, `lastCode, `registry, counters, messages
      ensures Valid() && State() == old(State()).(registry := V.Noted(old(registry), code, text))
    {
      var n := (counters[code] + 1) % V.UINT32;
      counters[code] := n;
      Record(code, text, n);
      registry := V.Noted(registry, code, text);
    }

    method Clear()
      requires Valid()
      modifies `total, `lastCode, `registry, counters, messages
      ensures Valid() && State() == old(State()).(registry := V.Cleared(old(registry)))
    {
      for i := 0 to counters.Length
        invariant registry == old(registry) && log == old(log)
        invariant forall j | 0 <= j < i :: counters[j] == 0
      {
        counters[i] := 0;
      }
      total := 0;
      lastCode := -1;
      for i := 0 to messages.Length
        invariant total == 0 && lastCode == -1 && registry == old(registry) && log == old(log)
        invariant forall j | 0 <= j < counters.Length :: counters[j] == 0
        invariant forall j | 0 <= j < i :: messages[j] == 0
      {
        messages[i] := 0;
      }
      assert counters[..] == V.Zeros() && messages[..] == V.Zeros();
      registry := V.Cleared(registry);
    }

    method Distinct() returns (distinct: nat)
      requires Valid()
      ensures distinct == |V.NonZero(counters[..], V.CODE_COUNT)|
    {
      distinct := 0;
      for i := 0 to counters.Length
        invariant distinct == |V.NonZero(counters[..], i)|
      {
        if counters[i] > 0 {
          distinct := distinct + 1;
        }
      }
    }

    /** Succeeds exactly for the indices below `Distinct()`, with the index-th non-zero code in enum order. */
    method GetEntry(index: nat) returns (found: bool, code: V.Code, count: nat, message: V.Text)
      requires Valid()
      ensures found <==> index < |V.NonZero(counters[..], V.CODE_COUNT)|
      ensures found ==> code == V.NonZero(counters[..], V.CODE_COUNT)[index]
      ensures found ==> count == counters[code] && message == messages[code]
    {
      var seen := 0;
      code, count, message := 0, 0, 0;
      for i := 0 to counters.Length
        invariant seen == |V.NonZero(counters[..], i)| && seen <= index
      {
        if counters[i] != 0 {
          if seen == index {
            V.NonZeroPrefix(counters[..], i + 1, V.CODE_COUNT);
            return true, i, counters[i], messages[i];
          }
          seen := seen + 1;
        }
      }
      found := false;
    }

    /** The last code of the registry, if there is one. */
    method LastViolation() returns (found: bool, code: int)
      requires Valid()
      ensures found <==> registry.lastCode >= 0
      ensures found ==> code == registry.lastCode
    {
      code := lastCode;
      found := code >= 0;
    }

    /** The compare-and-swap guard of process(). */
    method TryEnterProcess() returns (entered: bool)
      modifies `inProcess
      ensures entered <==> !old(inProcess)
      ensures State() == old(State()).(inProcess := true)
    {
      entered := !inProcess;
      inProcess := true;
    }

    method LeaveProcess()
      modifies `inProcess
      ensures State() == old(State()).(inProcess := false)
    {
      inProcess := false;
    }

    /** False when the new steady time is below what the previous block promised. */
    method CheckSteadyTime(time: int, frames: nat) returns (ok: bool)
      modifies `steady
      ensures ok <==> !SteadyBreach(old(steady), time)
      ensures State() == old(State()).(steady := SteadyNext(time, frames))
    {
      if time < 0 {
        steady := NoBaseline;
        return true;
      }
      ok := steady.NoBaseline? || time >= steady.end;
      steady := Baseline(time + frames);
    }

    method NoteCallbackRequested()
      modifies `pending
      ensures State() == old(State()).(pending := V.Bumped(old(pending)))
    {
      pending := (pending + 1) % V.UINT32;
    }

    /** Drains all pending requests; false if there was none. */
    method ConsumePendingCallbacks() returns (any: bool)
      modifies `pending
      ensures State() == old(State()).(pending := 0) && (any <==> old(pending) > 0)
    {
      any := pending > 0;
      pending := 0;
    }

    /** The index of the first record with an id, or the number of records. */
    method FindParamRecord(id: nat) returns (k: nat)
      ensures k == FindParam(snapshot.params, id)
    {
      k := 0;
      while k < |snapshot.params| && snapshot.params[k].id != id
        invariant k <= |snapshot.params|
        invariant forall i | 0 <= i < k :: snapshot.params[i].id != id
      {
        k := k + 1;
      }
      var r := FindParam(snapshot.params, id);
      assert !(r < k) && !(k < r);
    }
  }

  function Initial(): Monitor {
    Monitor(V.Empty(), false, false, false, false, false, false, false,
            Snapshot(0, 0, [], [], []), NoBaseline, 0)
  }
}

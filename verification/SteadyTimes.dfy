/**
 Steady time over whole runs: which block a P02 report compares with, and what a
 run without P02 says about the host's clock.
*/
module SteadyTimes {
  import V = Violations
  import opened PrePass
  import opened Monitors
  import opened Plugins
  import opened HostRuns

  /** Call i is a process() call that passes the lifecycle checks. */
  predicate Accepted(h: seq<Call>, i: int) {
    0 <= i < |h| && h[i].Process? && ProcessingAfter(h[..i])
  }

  /** Call i moves or drops the point steady time is measured from. */
  predicate Rebases(h: seq<Call>, i: int) {
    0 <= i < |h| &&
    (Accepted(h, i) || h[i].Reset? ||
     (h[i].StartProcessing? && ActiveAfter(h[..i]) && !ProcessingAfter(h[..i])))
  }

  /** Block i is what the next block is compared with. */
  predicate Baselines(h: seq<Call>, i: int) {
    Accepted(h, i) && h[i].data.steadyTime >= 0 && forall j | i < j < |h| :: !Rebases(h, j)
  }

  function EndOf(data: ProcessData): int { data.steadyTime + data.frames }

  ghost predicate HasBaseline(h: seq<Call>) { exists i :: Baselines(h, i) }

  lemma RebasesKept(h: seq<Call>, call: Call, i: int)
    requires 0 <= i < |h|
    ensures Accepted(h + [call], i) <==> Accepted(h, i)
    ensures Rebases(h + [call], i) <==> Rebases(h, i)
  {
    assert (h + [call])[..i] == h[..i] && (h + [call])[i] == h[i];
  }

  lemma BaselinesNext(h: seq<Call>, call: Call, i: int)
    ensures var g := h + [call];
      Baselines(g, i) <==>
        if Rebases(g, |h|) then i == |h| && Accepted(g, i) && g[i].data.steadyTime >= 0 else Baselines(h, i)
  {
    hide ProcessingAfter, ActiveAfter;
    var g := h + [call];
    forall j | 0 <= j < |h| ensures (Accepted(g, j) <==> Accepted(h, j)) && (Rebases(g, j) <==> Rebases(h, j)) {
      RebasesKept(h, call, j);
    }
    if 0 <= i < |h| {
      assert g[i] == h[i];
    }
  }

  lemma SteadyNextCall(s: State, h: seq<Call>, call: Call)
    requires WellFormed(s) && ReadsAs(s.monitor, h)
    ensures var g := h + [call];
      Step(s, call).monitor.steady ==
        if !Rebases(g, |h|) then s.monitor.steady
        else if call.Process? && call.data.steadyTime >= 0 then Baseline(EndOf(call.data))
        else NoBaseline
  {
    hide RegistryAfter, Reached, ProviderAfter, Captured, V.Bumped, ProcessingAfter, ActiveAfter, InitializedAfter;
    assert (h + [call])[..|h|] == h;
  }

  /** The monitor's baseline is the end of the latest accepted block, if nothing has dropped it. */
  lemma {:induction false} BaselineReadsHistory(host: Host, h: seq<Call>)
    requires ValidProvider(host.provider)
    ensures Run(host, h).monitor.steady.Baseline? <==> HasBaseline(h)
    ensures forall i | Baselines(h, i) :: Run(host, h).monitor.steady == Baseline(EndOf(h[i].data))
  {
    hide Step, Accepted, Rebases, Baselines;
    if h != [] {
      var front, call := h[..|h| - 1], h[|h| - 1];
      assert h == front + [call];
      BaselineReadsHistory(host, front);
      FlagsReadHistory(host, front);
      BaselineKept(Run(host, front), front, call);
    } else {
      NoneYet();
    }
  }

  lemma NoneYet()
    ensures forall i :: !Baselines([], i)
  {
  }

  lemma BaselineKept(s: State, h: seq<Call>, call: Call)
    requires WellFormed(s) && ReadsAs(s.monitor, h)
    requires s.monitor.steady.Baseline? <==> HasBaseline(h)
    requires forall i | Baselines(h, i) :: s.monitor.steady == Baseline(EndOf(h[i].data))
    ensures Step(s, call).monitor.steady.Baseline? <==> HasBaseline(h + [call])
    ensures forall i | Baselines(h + [call], i) ::
      Step(s, call).monitor.steady == Baseline(EndOf((h + [call])[i].data))
  {
    hide Step, ReadsAs, ProcessingAfter, ActiveAfter;
    var g := h + [call];
    SteadyNextCall(s, h, call);
    forall i
      ensures Baselines(g, i) <==>
        if Rebases(g, |h|) then i == |h| && Accepted(g, i) && g[i].data.steadyTime >= 0 else Baselines(h, i)
    {
      BaselinesNext(h, call, i);
    }
    if Rebases(g, |h|) {
      assert Baselines(g, |h|) <==> call.Process? && call.data.steadyTime >= 0;
    } else if HasBaseline(h) {
      var i :| Baselines(h, i);
      assert Baselines(g, i);
    }
  }

  /** The P02 reports of the k-th call of a run. */
  ghost function P02s(host: Host, h: seq<Call>, k: nat): nat
    requires ValidProvider(host.provider) && k < |h|
  {
    Count(V.P02, CallFindings(Run(host, h[..k]).monitor, h[k]))
  }

  lemma P02Counts(m: Monitor, data: ProcessData)
    requires !m.inProcess
    ensures Count(V.P02, CallFindings(m, Process(data))) ==
      if m.active && m.processing && SteadyBreach(m.steady, data.steadyTime) then 1 else 0
  {
    hide Count, Findings;
    CountShort(V.P02, V.L09, V.P01);
    BlockFindingsExact(V.P02, m.snapshot, m.steady, data);
  }

  /**
   A block is reported with P02 exactly when it is accepted, has a time, and
   starts before the end of the block it is compared with.
  */
  lemma P02Exact(host: Host, h: seq<Call>, data: ProcessData)
    requires ValidProvider(host.provider)
    ensures var g := h + [Process(data)];
      P02s(host, g, |h|) <= 1 &&
      (P02s(host, g, |h|) == 1 <==>
        ProcessingAfter(h) && exists i :: Baselines(h, i) && 0 <= data.steadyTime < EndOf(h[i].data))
  {
    hide Count, CallFindings, Accepted, Rebases, Baselines, ProcessingAfter, ActiveAfter, InitializedAfter;
    var g := h + [Process(data)];
    assert g[..|h|] == h && g[|h|] == Process(data);
    FlagsReadHistory(host, h);
    BaselineReadsHistory(host, h);
    P02Counts(Run(host, h).monitor, data);
  }

  /** Frames of the accepted blocks among calls i to k - 1. */
  function FramesOver(h: seq<Call>, i: nat, k: nat): nat
    requires k <= |h|
  {
    if k <= i then 0 else FramesOver(h, i, k - 1) + if Accepted(h, k - 1) then h[k - 1].data.frames else 0
  }

  /** Blocks with times, no P02, and no reset or restart between calls i and k. */
  ghost predicate Stretch(host: Host, h: seq<Call>, i: nat, k: nat)
    requires ValidProvider(host.provider) && i < k <= |h|
  {
    Accepted(h, i) &&
    (forall j | i <= j < k && Rebases(h, j) :: Accepted(h, j) && h[j].data.steadyTime >= 0) &&
    (forall j | i < j < k :: P02s(host, h, j) == 0)
  }

  lemma {:induction false} EndAdvances(host: Host, h: seq<Call>, i: nat, k: nat)
    requires ValidProvider(host.provider) && i < k <= |h| && Stretch(host, h, i, k)
    ensures var steady := Run(host, h[..k]).monitor.steady;
      steady.Baseline? && steady.end >= h[i].data.steadyTime + FramesOver(h, i, k)
  {
    hide Run, CallFindings, Count, ProcessingAfter, ActiveAfter, InitializedAfter;
    SteadyAt(host, h, k);
    FlagsReadHistory(host, h[..k - 1]);
    if i < k - 1 {
      EndAdvances(host, h, i, k - 1);
      if Accepted(h, k - 1) {
        assert h[k - 1] == Process(h[k - 1].data) && P02s(host, h, k - 1) == 0;
        P02Counts(Run(host, h[..k - 1]).monitor, h[k - 1].data);
      }
    }
  }

  /** The baseline before and after call k - 1 of a longer history. */
  lemma SteadyAt(host: Host, h: seq<Call>, k: nat)
    requires ValidProvider(host.provider) && 0 < k <= |h|
    ensures var before, after := Run(host, h[..k - 1]).monitor.steady, Run(host, h[..k]).monitor.steady;
      after ==
        if !Rebases(h, k - 1) then before
        else if h[k - 1].Process? && h[k - 1].data.steadyTime >= 0 then Baseline(EndOf(h[k - 1].data))
        else NoBaseline
  {
    hide Step, Rebases, ReadsAs;
    assert h[..k][..k - 1] == h[..k - 1] && h[..k - 1] + [h[k - 1]] == h[..k];
    FlagsReadHistory(host, h[..k - 1]);
    SteadyNextCall(Run(host, h[..k - 1]), h[..k - 1], h[k - 1]);
    RebasesIn(h, k);
  }

  lemma RebasesIn(h: seq<Call>, k: nat)
    requires 0 < k <= |h|
    ensures Rebases(h[..k], k - 1) <==> Rebases(h, k - 1)
  {
    assert h[..k][..k - 1] == h[..k - 1];
  }

  /**
   On a stretch without P02, -1, reset or restart, a block starts no earlier than
   any previous one plus all the frames accepted in between.
  */
  lemma TimeAdvances(host: Host, h: seq<Call>, i: nat, j: nat)
    requires ValidProvider(host.provider) && i < j < |h| && Stretch(host, h, i, j + 1) && Accepted(h, j)
    ensures h[j].data.steadyTime >= h[i].data.steadyTime + FramesOver(h, i, j)
  {
    hide CallFindings, Count, Run, ProcessingAfter, ActiveAfter, InitializedAfter;
    assert Stretch(host, h, i, j);
    EndAdvances(host, h, i, j);
    FlagsReadHistory(host, h[..j]);
    assert h[j] == Process(h[j].data) && P02s(host, h, j) == 0;
    P02Counts(Run(host, h[..j]).monitor, h[j].data);
    assert Rebases(h, j);
  }
}

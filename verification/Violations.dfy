/**
 The violation registry: one 32-bit counter per code, a total, the last code, a
 message per code, and the throttled log. Log lines are kept as records of code
 and occurrence; the text of a message is an opaque number.
*/
module Violations {

  const CODE_COUNT: nat := 44
  const UINT32: nat := 0x1_0000_0000
  const FULL_REPORTS: nat := 5
  const REPEAT_EVERY: nat := 100

  type Code = c: nat | c < CODE_COUNT
  type Counter = n: nat | n < UINT32
  type Text = nat

  const L01: Code := 0
  const L02: Code := 1
  const L03: Code := 2
  const L04: Code := 3
  const L05: Code := 4
  const L06: Code := 5
  const L07: Code := 6
  const L08: Code := 7
  const L09: Code := 8
  const L10: Code := 9
  const L11: Code := 10
  const L12: Code := 11
  const L13: Code := 12
  const P01: Code := 13
  const P02: Code := 14
  const P03: Code := 15
  const P04: Code := 16
  const P05: Code := 17
  const P06: Code := 18
  const P07: Code := 19
  const P08: Code := 20
  const P09: Code := 21
  const P10: Code := 22
  const P11: Code := 23
  const P12: Code := 24
  const P13: Code := 25
  const P14: Code := 26
  const T01: Code := 27
  const T03: Code := 29
  const T04: Code := 30
  const G01: Code := 31
  const G02: Code := 32
  const G03: Code := 33
  const G04: Code := 34
  const AC01: Code := 37
  const CA01: Code := 38

  datatype Line = Full(code: Code, occurrence: nat, text: Text) | Repeated(code: Code, occurrence: nat)

  datatype Registry = Registry(
    counters: seq<Counter>, total: Counter, lastCode: int, messages: seq<Text>, log: seq<Line>)

  predicate WellFormed(r: Registry) {
    |r.counters| == CODE_COUNT == |r.messages|
  }

  function Zeros(): (r: seq<Counter>)
    ensures |r| == CODE_COUNT && forall i | 0 <= i < CODE_COUNT :: r[i] == 0
  {
    seq(CODE_COUNT, _ => 0)
  }

  function Empty(): (r: Registry)
    ensures WellFormed(r)
  {
    Registry(Zeros(), 0, -1, Zeros(), [])
  }

  function Bumped(n: nat): Counter { (n + 1) % UINT32 }

  /** `note`: counts and records without a log line. */
  function Noted(r: Registry, code: Code, text: Text): (s: Registry)
    requires WellFormed(r)
    ensures WellFormed(s)
  {
    var n := Bumped(r.counters[code]);
    r.(counters := r.counters[code := n], total := Bumped(r.total), lastCode := code,
       messages := if n <= FULL_REPORTS then r.messages[code := text] else r.messages)
  }

  /** The log lines occurrence n of a code causes. */
  function Emitted(code: Code, n: nat, text: Text): seq<Line> {
    if n <= FULL_REPORTS then [Full(code, n, text)]
    else if n % REPEAT_EVERY == 0 then [Repeated(code, n)]
    else []
  }

  function Reported(r: Registry, code: Code, text: Text): (s: Registry)
    requires WellFormed(r)
    ensures WellFormed(s)
  {
    var s := Noted(r, code, text);
    s.(log := r.log + Emitted(code, s.counters[code], text))
  }

  function Cleared(r: Registry): (s: Registry)
    ensures WellFormed(s)
  {
    Empty().(log := r.log)
  }

  /** Several reports in order; their texts are left abstract. */
  function ReportedAll(r: Registry, codes: seq<Code>): (s: Registry)
    requires WellFormed(r)
    ensures WellFormed(s)
    ensures codes == [] ==> s == r
  {
    if codes == [] then r else Reported(ReportedAll(r, codes[..|codes| - 1]), codes[|codes| - 1], 0)
  }

  // ---- enumeration ----

  /** The codes below k with a non-zero counter, in enum order. */
  function NonZero(counters: seq<Counter>, k: nat): (r: seq<Code>)
    requires k <= |counters| == CODE_COUNT
    ensures |r| <= k
    ensures forall i, j | 0 <= i < j < |r| :: r[i] < r[j]
    ensures forall i | 0 <= i < |r| :: r[i] < k
    ensures forall c: Code :: c in r <==> c < k && counters[c] > 0
  {
    if k == 0 then []
    else if counters[k - 1] > 0 then NonZero(counters, k - 1) + [k - 1]
    else NonZero(counters, k - 1)
  }

  lemma {:induction false} NonZeroPrefix(counters: seq<Counter>, k: nat, m: nat)
    requires k <= m <= |counters| == CODE_COUNT
    ensures NonZero(counters, k) <= NonZero(counters, m)
  {
    if k < m {
      NonZeroPrefix(counters, k, m - 1);
    }
  }

  // ---- runs ----

  datatype Op = Report(code: Code, text: Text) | Note(code: Code, text: Text) | Clear

  function Apply(r: Registry, op: Op): (s: Registry)
    requires WellFormed(r)
    ensures WellFormed(s)
  {
    match op
    case Report(code, text) => Reported(r, code, text)
    case Note(code, text) => Noted(r, code, text)
    case Clear => Cleared(r)
  }

  function Run(r: Registry, ops: seq<Op>): (s: Registry)
    requires WellFormed(r)
    ensures WellFormed(s)
  {
    if ops == [] then r else Apply(Run(r, ops[..|ops| - 1]), ops[|ops| - 1])
  }

  function Sum(s: seq<nat>): nat {
    if s == [] then 0 else Sum(s[..|s| - 1]) + s[|s| - 1]
  }

  lemma {:induction false} SumUpdate(s: seq<Counter>, i: nat, x: Counter)
    requires i < |s|
    ensures Sum(s[i := x]) == Sum(s) - s[i] + x
  {
    var front := s[..|s| - 1];
    if i == |s| - 1 {
      assert s[i := x][..|s| - 1] == front;
    } else {
      SumUpdate(front, i, x);
      assert s[i := x][..|s| - 1] == front[i := x];
    }
  }

  lemma {:induction false} SumZero(s: seq<nat>)
    requires forall i | 0 <= i < |s| :: s[i] == 0
    ensures Sum(s) == 0
  {
    if s != [] {
      SumZero(s[..|s| - 1]);
    }
  }

  ghost predicate TotalRight(r: Registry) { r.total == Sum(r.counters) % UINT32 }

  lemma BumpedMod(n: nat)
    ensures Bumped(n % UINT32) == (n + 1) % UINT32
    ensures n < UINT32 ==> n % UINT32 == n
    ensures n + 1 < UINT32 ==> Bumped(n) == n + 1
    ensures n + 1 == UINT32 ==> Bumped(n) == 0
  {
    var q, r := n / UINT32, n % UINT32;
    assert n == q * UINT32 + r;
    if r + 1 == UINT32 {
      assert n + 1 == (q + 1) * UINT32 + 0;
    } else {
      assert n + 1 == q * UINT32 + (r + 1);
    }
  }

  lemma ModAgain(n: nat)
    requires n >= UINT32
    ensures (n - UINT32) % UINT32 == n % UINT32
  {
  }

  lemma NotedTotal(r: Registry, code: Code, text: Text)
    requires WellFormed(r) && TotalRight(r)
    ensures TotalRight(Noted(r, code, text))
  {
    var c, sum := r.counters[code], Sum(r.counters);
    BumpedMod(sum);
    BumpedMod(c);
    SumUpdate(r.counters, code, Bumped(c));
    if c == UINT32 - 1 {
      SumAtLeast(r.counters, code);
      ModAgain(sum + 1);
    }
  }

  lemma {:induction false} SumAtLeast(s: seq<nat>, i: nat)
    requires i < |s|
    ensures Sum(s) >= s[i]
  {
    if i < |s| - 1 {
      SumAtLeast(s[..|s| - 1], i);
    }
  }

  /** The total is the sum of the counters modulo 2^32, whatever wraps. */
  lemma {:induction false} TotalIsSum(r: Registry, ops: seq<Op>)
    requires WellFormed(r) && TotalRight(r)
    ensures TotalRight(Run(r, ops))
  {
    if ops != [] {
      var s, op := Run(r, ops[..|ops| - 1]), ops[|ops| - 1];
      TotalIsSum(r, ops[..|ops| - 1]);
      if op.Clear? {
        SumZero(Zeros());
      } else {
        NotedTotal(s, op.code, op.text);
      }
    }
  }

  predicate Counts(op: Op, code: Code) { !op.Clear? && op.code == code }

  /** How often a code was reported or noted since the last clear. */
  function Occurrences(ops: seq<Op>, code: Code): nat {
    if ops == [] || ops[|ops| - 1].Clear? then 0
    else Occurrences(ops[..|ops| - 1], code) + if Counts(ops[|ops| - 1], code) then 1 else 0
  }

  lemma {:induction false} CountersCount(ops: seq<Op>, code: Code)
    ensures Run(Empty(), ops).counters[code] == Occurrences(ops, code) % UINT32
  {
    if ops != [] {
      CountersCount(ops[..|ops| - 1], code);
      BumpedMod(Occurrences(ops[..|ops| - 1], code));
      OneCounter(Run(Empty(), ops[..|ops| - 1]), ops[|ops| - 1], code);
      RunLast(Empty(), ops);
      hide Run, Apply, Empty;
    }
  }

  /** What one operation does to the counter of a code. */
  lemma OneCounter(r: Registry, op: Op, code: Code)
    requires WellFormed(r)
    ensures Apply(r, op).counters[code] ==
      if op.Clear? then 0 else if Counts(op, code) then Bumped(r.counters[code]) else r.counters[code]
  {
  }

  predicate OnlyReports(ops: seq<Op>, code: Code) {
    forall i | 0 <= i < |ops| :: !ops[i].Clear? && (Counts(ops[i], code) ==> ops[i].Report?)
  }

  function LinesOf(log: seq<Line>, code: Code): seq<Line> {
    if log == [] then [] else
    var rest, last := LinesOf(log[..|log| - 1], code), log[|log| - 1];
    if last.code == code then rest + [last] else rest
  }

  function Min(a: nat, b: nat): nat { if a < b then a else b }

  /** The number of lines n occurrences of a code emit: min(n, 5) full ones and n / 100 repeat notes. */
  function LineCount(n: nat): nat { Min(n, FULL_REPORTS) + n / REPEAT_EVERY }

  lemma LineCountNext(n: nat)
    ensures LineCount(n + 1) == LineCount(n) + if n + 1 <= FULL_REPORTS || (n + 1) % REPEAT_EVERY == 0 then 1 else 0
  {
  }

  /** The throttle: what a code reported n times since a clear has emitted. */
  lemma {:induction false} LinesEmitted(r: Registry, ops: seq<Op>, code: Code)
    requires WellFormed(r) && r.counters[code] == 0
    requires OnlyReports(ops, code) && Occurrences(ops, code) < UINT32
    ensures |LinesOf(Run(r, ops).log, code)| == |LinesOf(r.log, code)| + LineCount(Occurrences(ops, code))
    ensures Run(r, ops).counters[code] == Occurrences(ops, code)
  {
    if ops != [] {
      var front, op := ops[..|ops| - 1], ops[|ops| - 1];
      LinesEmitted(r, front, code);
      OccurrencesNext(ops, code);
      if op.Report? {
        OneReport(Run(r, front), op.code, op.text, code);
        LineCountNext(Occurrences(front, code));
      }
    }
  }

  lemma OccurrencesNext(ops: seq<Op>, code: Code)
    requires ops != [] && !ops[|ops| - 1].Clear? && Occurrences(ops, code) < UINT32
    ensures var n, m := Occurrences(ops[..|ops| - 1], code), Occurrences(ops, code);
      n <= m && m == (if Counts(ops[|ops| - 1], code) then Bumped(n) else n)
  {
    BumpedMod(Occurrences(ops[..|ops| - 1], code));
  }

  lemma OneReport(r: Registry, reported: Code, text: Text, code: Code)
    requires WellFormed(r)
    ensures var n := Bumped(r.counters[reported]);
      |LinesOf(Reported(r, reported, text).log, code)| == |LinesOf(r.log, code)| +
        if reported == code && (n <= FULL_REPORTS || n % REPEAT_EVERY == 0) then 1 else 0
  {
    var lines := Emitted(reported, Bumped(r.counters[reported]), text);
    assert lines == [] ==> r.log + lines == r.log;
    assert lines != [] ==> (r.log + lines)[..|r.log|] == r.log;
  }

  /** The texts of a code's occurrences since the last clear, oldest first. */
  function Texts(ops: seq<Op>, code: Code): (r: seq<Text>)
    ensures |r| == Occurrences(ops, code)
  {
    if ops == [] || ops[|ops| - 1].Clear? then [] else
    var rest := Texts(ops[..|ops| - 1], code);
    if Counts(ops[|ops| - 1], code) then rest + [ops[|ops| - 1].text] else rest
  }

  /** The k-th line of a code: the first five occurrences in full, then a note for each hundredth. */
  function LineAt(texts: seq<Text>, code: Code, k: nat): Line
    requires k < 5 ==> k < |texts|
  {
    if k < 5 then Full(code, k + 1, texts[k]) else Repeated(code, 100 * (k - 4))
  }

  ghost predicate LinesAre(lines: seq<Line>, texts: seq<Text>, code: Code) {
    |lines| == LineCount(|texts|) && forall k | 0 <= k < |lines| :: lines[k] == LineAt(texts, code, k)
  }

  /** Everything a reported code has put into the log, line by line. */
  lemma {:induction false} LogIsExact(ops: seq<Op>, code: Code)
    requires OnlyReports(ops, code) && Occurrences(ops, code) < UINT32
    ensures LinesAre(LinesOf(Run(Empty(), ops).log, code), Texts(ops, code), code)
  {
    if ops != [] {
      var front, op := ops[..|ops| - 1], ops[|ops| - 1];
      OccurrencesNext(ops, code);
      LogIsExact(front, code);
      LinesEmitted(Empty(), front, code);
      RunLast(Empty(), ops);
      OneText(ops, code);
      hide Run, Texts, LinesAre, LinesOf, Occurrences;
      if Counts(op, code) {
        LogGrows(Run(Empty(), front), op.text, code, Texts(front, code));
      } else {
        LogKept(Run(Empty(), front), op, code);
      }
    }
  }

  lemma LogKept(r: Registry, op: Op, code: Code)
    requires WellFormed(r) && !op.Clear? && !Counts(op, code)
    ensures LinesOf(Apply(r, op).log, code) == LinesOf(r.log, code)
  {
    if op.Report? {
      LinesAppend(r.log, Emitted(op.code, Bumped(r.counters[op.code]), op.text), code);
    }
  }

  lemma LinesAppend(log: seq<Line>, lines: seq<Line>, code: Code)
    requires |lines| <= 1
    ensures LinesOf(log + lines, code) ==
      LinesOf(log, code) + if lines != [] && lines[0].code == code then lines else []
  {
    if lines == [] {
      assert log + lines == log;
    } else {
      assert (log + lines)[..|log|] == log && [lines[0]] == lines;
    }
  }

  lemma LogGrows(r: Registry, text: Text, code: Code, texts: seq<Text>)
    requires WellFormed(r) && r.counters[code] == |texts| && |texts| + 1 < UINT32
    requires LinesAre(LinesOf(r.log, code), texts, code)
    ensures LinesAre(LinesOf(Reported(r, code, text).log, code), texts + [text], code)
  {
    hide LinesAre, LinesOf;
    var emitted := Emitted(code, |texts| + 1, text);
    LinesAppend(r.log, emitted, code);
    LinesGrow(LinesOf(r.log, code), text, code, texts);
    assert emitted == [] ==> LinesOf(r.log, code) + emitted == LinesOf(r.log, code);
  }

  lemma LinesGrow(lines: seq<Line>, text: Text, code: Code, texts: seq<Text>)
    requires LinesAre(lines, texts, code)
    ensures LinesAre(lines + Emitted(code, |texts| + 1, text), texts + [text], code)
  {
    var n, more := |texts| + 1, lines + Emitted(code, |texts| + 1, text);
    LineCountNext(|texts|);
    if n <= FULL_REPORTS {
      assert |lines| == |texts| && more[|lines|] == Full(code, n, text);
    } else if n % REPEAT_EVERY == 0 {
      assert |lines| == 4 + n / 100 && 100 * (|lines| - 4) == n;
    } else {
      assert more == lines;
    }
    forall k | 0 <= k < |lines| ensures more[k] == LineAt(texts + [text], code, k) {
    }
  }

  /** The stored message is that of occurrence min(n, 5): later ones do not replace it. */
  lemma {:induction false} MessageKept(ops: seq<Op>, code: Code)
    requires forall k | 0 <= k <= |ops| :: Occurrences(ops[..k], code) < UINT32
    ensures var n := Occurrences(ops, code);
      Run(Empty(), ops).messages[code] == if n == 0 then 0 else Texts(ops, code)[Min(n, FULL_REPORTS) - 1]
  {
    if ops != [] {
      var front := ops[..|ops| - 1];
      forall k | 0 <= k <= |front| ensures Occurrences(front[..k], code) < UINT32 {
        assert front[..k] == ops[..k];
      }
      MessageKept(front, code);
      assert ops[..|ops|] == ops && ops[..|front|] == front;
      MessageNext(ops, code);
    }
  }

  lemma MessageNext(ops: seq<Op>, code: Code)
    requires ops != [] && Occurrences(ops[..|ops| - 1], code) < UINT32 && Occurrences(ops, code) < UINT32
    requires var front := ops[..|ops| - 1];
      var n := Occurrences(front, code);
      Run(Empty(), front).messages[code] == if n == 0 then 0 else Texts(front, code)[Min(n, FULL_REPORTS) - 1]
    ensures var n := Occurrences(ops, code);
      Run(Empty(), ops).messages[code] == if n == 0 then 0 else Texts(ops, code)[Min(n, FULL_REPORTS) - 1]
  {
    hide Run, Apply, Noted, Empty;
    var front, op := ops[..|ops| - 1], ops[|ops| - 1];
    CountersCount(front, code);
    BumpedMod(Occurrences(front, code));
    OneMessage(Run(Empty(), front), op, code);
    RunLast(Empty(), ops);
    hide Occurrences, Texts;
    OneText(ops, code);
  }

  lemma RunLast(r: Registry, ops: seq<Op>)
    requires WellFormed(r) && ops != []
    ensures Run(r, ops) == Apply(Run(r, ops[..|ops| - 1]), ops[|ops| - 1])
  {
  }

  /** What one operation does to the message of a code. */
  lemma OneMessage(r: Registry, op: Op, code: Code)
    requires WellFormed(r)
    ensures Apply(r, op).messages[code] ==
      if op.Clear? then 0
      else if Counts(op, code) && Bumped(r.counters[code]) <= FULL_REPORTS then op.text
      else r.messages[code]
  {
  }

  /** What one operation does to the texts of a code. */
  lemma OneText(ops: seq<Op>, code: Code)
    requires ops != []
    ensures var front, op := ops[..|ops| - 1], ops[|ops| - 1];
      Texts(ops, code) ==
        (if op.Clear? then [] else if Counts(op, code) then Texts(front, code) + [op.text] else Texts(front, code)) &&
      Occurrences(ops, code) ==
        if op.Clear? then 0 else Occurrences(front, code) + if Counts(op, code) then 1 else 0
  {
  }

  /** The code shown in the badge is that of the latest report since the last clear. */
  lemma {:induction false} LastCodeIsLatest(ops: seq<Op>)
    ensures var last := Run(Empty(), ops).lastCode;
      if ops == [] || ops[|ops| - 1].Clear? then last == -1 else last == ops[|ops| - 1].code
  {
  }

  lemma {:induction false} NoEntries(counters: seq<Counter>, k: nat)
    requires k <= |counters| == CODE_COUNT && forall c: Code :: counters[c] == 0
    ensures NonZero(counters, k) == []
  {
    if k > 0 {
      NoEntries(counters, k - 1);
    }
  }

  /** The badge shows a code exactly when the query extension has an entry, and then one of its codes. */
  lemma BadgeIsAnEntry(ops: seq<Op>)
    requires forall code: Code :: Occurrences(ops, code) < UINT32
    ensures var r := Run(Empty(), ops);
      var entries := NonZero(r.counters, CODE_COUNT);
      (r.lastCode >= 0 <==> entries != []) && (r.lastCode >= 0 ==> r.lastCode in entries)
  {
    hide Run;
    var r := Run(Empty(), ops);
    var entries := NonZero(r.counters, CODE_COUNT);
    LastCodeIsLatest(ops);
    forall code: Code ensures r.counters[code] == Occurrences(ops, code) {
      CountersCount(ops, code);
    }
    if ops == [] || ops[|ops| - 1].Clear? {
      assert forall code: Code :: Occurrences(ops, code) == 0;
      NoEntries(r.counters, CODE_COUNT);
    } else {
      var last := ops[|ops| - 1].code;
      assert Occurrences(ops, last) > 0 && last in entries;
    }
  }
}

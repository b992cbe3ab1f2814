/**
 Saving and loading parameters as a table of ids and values. A value is the
 64-bit pattern of its double; numbers are written low byte first.
*/
module PluginStates {
  import opened Streams

  type Bits = nat

  const VERSION: nat := 1
  const U32: nat := 4
  const F64: nat := 8
  const HEADER: nat := 12

  /** What a plugin saves and what it has storage for; `meter` is an id a load must not touch. */
  datatype Table = Table(magic: nat, saved: seq<nat>, stored: set<nat>, meter: set<nat>)

  const EFFECT := Table(0x43565053, [0, 1, 2], {0, 1, 2}, {})
  const GUI := Table(0x43565053, [0, 1, 2], {0, 1, 2}, {})
  const ZOO := Table(0x43565050, [1, 2, 4, 5, 6, 7, 8], {1, 2, 3, 4, 5, 6, 7, 8}, {3})

  predicate Proper(t: Table) {
    t.magic < Pow256(U32) && |t.saved| < Pow256(U32) &&
    (forall i | 0 <= i < |t.saved| :: t.saved[i] in t.stored && t.saved[i] !in t.meter && t.saved[i] < Pow256(U32)) &&
    (forall i, j | 0 <= i < j < |t.saved| :: t.saved[i] != t.saved[j])
  }

  // ---- numbers as bytes ----

  function Pow256(width: nat): (p: nat)
    ensures p > 0
  {
    if width == 0 then 1 else 256 * Pow256(width - 1)
  }

  function Bytes(n: nat, width: nat): (b: seq<Byte>)
    ensures |b| == width
  {
    if width == 0 then [] else [n % 256] + Bytes(n / 256, width - 1)
  }

  function Number(b: seq<Byte>): nat {
    if b == [] then 0 else b[0] + 256 * Number(b[1..])
  }

  lemma {:induction false} NumberOfBytes(n: nat, width: nat)
    requires n < Pow256(width)
    ensures Number(Bytes(n, width)) == n
  {
    if width > 0 {
      NumberOfBytes(n / 256, width - 1);
      assert Bytes(n, width)[1..] == Bytes(n / 256, width - 1);
    }
  }

  /** What bytes are worth: byte k counts 256 to the k. */
  function Worth(b: seq<Byte>): nat {
    if b == [] then 0 else Worth(b[..|b| - 1]) + b[|b| - 1] * Pow256(|b| - 1)
  }

  lemma {:induction false} WorthFromLow(b: seq<Byte>)
    requires b != []
    ensures Worth(b) == b[0] + 256 * Worth(b[1..])
  {
    var front, rest, last := b[..|b| - 1], b[1..], b[|b| - 1];
    if |b| == 1 {
      assert front == [] && rest == [];
    } else {
      WorthFromLow(front);
      assert front[1..] == rest[..|rest| - 1] && front[0] == b[0];
      Shift(last, Pow256(|b| - 2));
    }
  }

  lemma Shift(a: nat, p: nat)
    ensures a * (256 * p) == 256 * (a * p)
  {
  }

  /** Numbers are written low byte first. */
  lemma {:induction false} LowByteFirst(n: nat, width: nat)
    requires n < Pow256(width)
    ensures Worth(Bytes(n, width)) == n
  {
    if width > 0 {
      LowByteFirst(n / 256, width - 1);
      WorthFromLow(Bytes(n, width));
      assert Bytes(n, width)[1..] == Bytes(n / 256, width - 1);
    }
  }

  /** The bytes of a number determine it and are determined by it. */
  lemma {:induction false} BytesOfNumber(b: seq<Byte>)
    ensures Bytes(Number(b), |b|) == b
  {
    if b != [] {
      BytesOfNumber(b[1..]);
      assert Number(b) % 256 == b[0] && Number(b) / 256 == Number(b[1..]);
    }
  }

  lemma Widths()
    ensures Pow256(U32) == 0x1_0000_0000 && Pow256(F64) == 0x1_0000_0000_0000_0000
  {
    assert Pow256(2) == 65536;
    assert Pow256(4) == 0x1_0000_0000;
    assert Pow256(6) == 0x1_0000_0000_0000;
  }

  // ---- the format ----

  datatype Entry = Entry(id: nat, bits: Bits)

  function EntryBytes(e: Entry): (b: seq<Byte>)
    ensures |b| == HEADER
  {
    Bytes(e.id, U32) + Bytes(e.bits, F64)
  }

  function EntriesBytes(es: seq<Entry>): (b: seq<Byte>)
    ensures |b| == HEADER * |es|
  {
    if es == [] then [] else EntriesBytes(es[..|es| - 1]) + EntryBytes(es[|es| - 1])
  }

  function Header(t: Table): (b: seq<Byte>)
    ensures |b| == HEADER
  {
    Bytes(t.magic, U32) + Bytes(VERSION, U32) + Bytes(|t.saved|, U32)
  }

  predicate Covers(values: map<nat, Bits>, t: Table) {
    values.Keys == t.stored && forall id | id in values :: values[id] < Pow256(F64)
  }

  function Saved(t: Table, values: map<nat, Bits>): (es: seq<Entry>)
    requires Proper(t) && Covers(values, t)
    ensures |es| == |t.saved|
  {
    seq(|t.saved|, i requires 0 <= i < |t.saved| => Entry(t.saved[i], values[t.saved[i]]))
  }

  function Encoded(t: Table, values: map<nat, Bits>): seq<Byte>
    requires Proper(t) && Covers(values, t)
  {
    Header(t) + EntriesBytes(Saved(t, values))
  }

  /** The number at an offset. */
  function WordAt(c: seq<Byte>, at: nat, width: nat): nat
    requires at + width <= |c|
  {
    Number(c[at..at + width])
  }

  /** The complete entries from an offset on, at most n. */
  function Leading(c: seq<Byte>, at: nat, n: nat): (es: seq<Entry>)
    ensures |es| <= n
    decreases n
  {
    if n == 0 || |c| < at + HEADER then []
    else [Entry(WordAt(c, at, U32), WordAt(c, at + U32, F64))] + Leading(c, at + HEADER, n - 1)
  }

  predicate GoodHeader(t: Table, c: seq<Byte>) {
    |c| >= HEADER && WordAt(c, 0, U32) == t.magic && WordAt(c, U32, U32) == VERSION
  }

  function Announced(c: seq<Byte>): nat
    requires |c| >= HEADER
  {
    WordAt(c, 2 * U32, U32)
  }

  /** What a load takes from some bytes. */
  function Taken(t: Table, c: seq<Byte>): seq<Entry> {
    if GoodHeader(t, c) then Leading(c, HEADER, Announced(c)) else []
  }

  /** Whether a load of some bytes succeeds. */
  predicate Accepted(t: Table, c: seq<Byte>) {
    GoodHeader(t, c) && |Taken(t, c)| == Announced(c)
  }

  function Restore(t: Table, values: map<nat, Bits>, e: Entry): map<nat, Bits> {
    if e.id in t.stored && e.id !in t.meter then values[e.id := e.bits] else values
  }

  function RestoreAll(t: Table, values: map<nat, Bits>, es: seq<Entry>): map<nat, Bits> {
    if es == [] then values else Restore(t, RestoreAll(t, values, es[..|es| - 1]), es[|es| - 1])
  }

  lemma ProperMagic(t: Table)
    requires Proper(t)
    ensures t.magic < Pow256(U32)
  {
  }

  // ---- the class ----

  class Parameters {
    const table: Table
    var values: map<nat, Bits>

    ghost predicate Valid()
      reads this
    {
      Proper(table) && Covers(values, table)
    }

    constructor (table: Table, values: map<nat, Bits>)
      requires Proper(table) && Covers(values, table)
      ensures Valid() && this.table == table && this.values == values
    {
      this.table, this.values := table, values;
    }

    /** Writes the whole state, or a prefix of it if the host fails. */
    method StateSave(stream: OutStream) returns (ok: bool)
      requires Valid()
      modifies stream
      ensures old(stream.bytes) <= stream.bytes <= old(stream.bytes) + Encoded(table, values)
      ensures ok ==> stream.bytes == old(stream.bytes) + Encoded(table, values)
      ensures Positive(stream.plan) ==> ok
    {
      hide Bytes, EntriesBytes, EntryBytes, Pow256;
      ghost var before, all := stream.bytes, Encoded(table, values);
      ok := Put(stream, Bytes(table.magic, U32), before, all, 0);
      if !ok { return; }
      ok := Put(stream, Bytes(VERSION, U32), before, all, U32);
      if !ok { return; }
      ok := Put(stream, Bytes(|table.saved|, U32), before, all, 2 * U32);
      if !ok { return; }
      ghost var es := Saved(table, values);
      assert all[..HEADER] == Header(table) + EntriesBytes(es[..0]);
      for i := 0 to |table.saved|
        invariant stream.bytes == before + all[..HEADER + HEADER * i]
      {
        EntryAt(table, values, i);
        ok := Put(stream, Bytes(table.saved[i], U32), before, all, HEADER + HEADER * i);
        if !ok { return; }
        ok := Put(stream, Bytes(values[table.saved[i]], F64), before, all, HEADER + HEADER * i + U32);
        if !ok { return; }
      }
      assert all[..|all|] == all;
    }

    /** Writes the part of a whole that comes at an offset. */
    method Put(stream: OutStream, data: seq<Byte>, ghost before: seq<Byte>, ghost all: seq<Byte>, ghost at: nat)
      returns (ok: bool)
      requires at + |data| <= |all| && data == all[at..at + |data|] && stream.bytes == before + all[..at]
      modifies stream
      ensures before <= stream.bytes <= before + all
      ensures ok ==> stream.bytes == before + all[..at + |data|]
      ensures Positive(stream.plan) ==> ok
    {
      ok := StreamWriteAll(stream, data);
      ghost var n :| 0 <= n <= |data| && stream.bytes == before + all[..at] + data[..n];
      assert all[..at] + data[..n] == all[..at + n];
      assert stream.bytes == before + all[..at + n];
      assert all[..at] + data == all[..at + |data|];
    }

    /**
     Stores the complete leading entries, and succeeds when all that were announced
     are complete. A host that stops early only makes that prefix shorter.
    */
    method StateLoad(stream: InStream) returns (ok: bool)
      requires Valid() && stream.Valid()
      modifies this, stream
      ensures Valid() && stream.Valid()
      ensures LoadOutcome(table, old(values), stream.bytes[old(stream.pos)..], Positive(stream.plan), ok, values)
      ensures Foreign(table, stream.bytes[old(stream.pos)..]) ==> !ok && values == old(values)
    {
      hide RestoreAll, Leading, Pow256, Proper, Covers, Foreign;
      ghost var start, c := stream.pos, stream.bytes[stream.pos..];
      ProperMagic(table);
      ForeignHeader(table, c);
      assert Taken(table, c)[..0] == [];
      NothingRestored(table, values);
      var magic, version, count;
      ok, magic := ReadNumber(stream, U32);
      if !ok {
        return;
      }
      WordFrom(stream.bytes, start, 0, U32);
      if magic != table.magic {
        assert !GoodHeader(table, c);
        return false;
      }
      ok, version := ReadNumber(stream, U32);
      if !ok {
        return;
      }
      WordFrom(stream.bytes, start, U32, U32);
      if version != VERSION {
        assert !GoodHeader(table, c);
        return false;
      }
      ok, count := ReadNumber(stream, U32);
      if !ok {
        return;
      }
      WordFrom(stream.bytes, start, 2 * U32, U32);
      ok := LoadEntries(stream, count, start);
    }

    method LoadEntries(stream: InStream, count: nat, ghost start: nat) returns (ok: bool)
      requires Valid() && stream.Valid() && stream.pos == start + HEADER
      modifies this, stream
      ensures Valid() && stream.Valid()
      ensures var es := Leading(stream.bytes[start..], HEADER, count);
        exists k | 0 <= k <= |es| ::
          values == RestoreAll(table, old(values), es[..k]) && (ok ==> k == |es| == count) &&
          (Positive(stream.plan) ==> k == |es| && (ok <==> k == count))
    {
      hide RestoreAll, Leading, Restore, WordAt, Pow256, Proper, Covers;
      ghost var es := Leading(stream.bytes[start..], HEADER, count);
      NothingRestored(table, values);
      assert es[..0] == [];
      for i := 0 to count
        invariant Valid() && stream.Valid() && i <= |es| && stream.pos == start + HEADER + HEADER * i
        invariant values == RestoreAll(table, old(values), es[..i])
      {
        LeadingAt(stream.bytes[start..], HEADER, count, i);
        var id, value;
        ok, id := ReadNumber(stream, U32);
        if !ok {
          return;
        }
        ok, value := ReadNumber(stream, F64);
        if !ok {
          return;
        }
        WordFrom(stream.bytes, start, HEADER + HEADER * i, U32);
        WordFrom(stream.bytes, start, HEADER + HEADER * i + U32, F64);
        RestoreNext(table, old(values), es, i);
        Keep(Entry(id, value));
      }
      ok := true;
    }

    /** Stores one loaded value, unless the id is unknown or the meter's. */
    method Keep(e: Entry)
      requires Valid() && e.bits < Pow256(F64)
      modifies this
      ensures Valid() && values == Restore(table, old(values), e)
    {
      if e.id in table.meter {
        return;
      }
      if e.id in table.stored {
        values := values[e.id := e.bits];
      }
    }
  }

  method ReadNumber(stream: InStream, width: nat) returns (ok: bool, n: nat)
    requires stream.Valid()
    modifies stream
    ensures stream.Valid() && n < Pow256(width)
    ensures ok ==> stream.pos == old(stream.pos) + width && n == WordAt(stream.bytes, old(stream.pos), width)
    ensures Positive(stream.plan) ==> (ok <==> old(stream.pos) + width <= |stream.bytes|)
  {
    var data;
    ok, data := StreamReadAll(stream, width);
    n := 0;
    if ok {
      n := Number(data);
      NumberBound(data);
    }
  }

  lemma {:induction false} NumberBound(b: seq<Byte>)
    ensures Number(b) < Pow256(|b|)
  {
    if b != [] {
      NumberBound(b[1..]);
    }
  }

  lemma WordFrom(b: seq<Byte>, start: nat, at: nat, width: nat)
    requires start + at + width <= |b|
    ensures WordAt(b[start..], at, width) == WordAt(b, start + at, width)
  {
    assert b[start..][at..at + width] == b[start + at..start + at + width];
  }

  /** Entry i is among the leading ones exactly when it is complete. */
  lemma {:induction false} LeadingAt(c: seq<Byte>, at: nat, n: nat, i: nat)
    requires i < n
    ensures i < |Leading(c, at, n)| <==> |c| >= at + HEADER * (i + 1)
    ensures i < |Leading(c, at, n)| ==>
      Leading(c, at, n)[i] == Entry(WordAt(c, at + HEADER * i, U32), WordAt(c, at + HEADER * i + U32, F64))
    decreases n
  {
    if i > 0 && |c| >= at + HEADER {
      LeadingAt(c, at + HEADER, n - 1, i - 1);
    }
  }

  lemma NothingRestored(t: Table, values: map<nat, Bits>)
    ensures RestoreAll(t, values, []) == values
  {
  }

  lemma RestoreNext(t: Table, values: map<nat, Bits>, es: seq<Entry>, i: nat)
    requires i < |es|
    ensures RestoreAll(t, values, es[..i + 1]) == Restore(t, RestoreAll(t, values, es[..i]), es[i])
  {
    assert es[..i + 1][..i] == es[..i];
  }

  /** What a load of bytes c leaves behind; `exact` when the host never stopped early. */
  ghost predicate LoadOutcome(
    t: Table, before: map<nat, Bits>, c: seq<Byte>, exact: bool, ok: bool, after: map<nat, Bits>)
  {
    exists k | 0 <= k <= |Taken(t, c)| ::
      after == RestoreAll(t, before, Taken(t, c)[..k]) &&
      (ok ==> k == |Taken(t, c)| && Accepted(t, c)) &&
      (exact ==> k == |Taken(t, c)| && (ok <==> Accepted(t, c)))
  }

  /** Where the i-th entry stands in the encoding. */
  lemma EntryAt(t: Table, values: map<nat, Bits>, i: nat)
    requires Proper(t) && Covers(values, t) && i < |t.saved|
    ensures var all, at := Encoded(t, values), HEADER + HEADER * i;
      |all| >= at + HEADER && all[at..at + U32] == Bytes(t.saved[i], U32) &&
      all[at + U32..at + HEADER] == Bytes(values[t.saved[i]], F64)
  {
    hide Bytes, EntriesBytes, EntryBytes, Header, Proper, Covers;
    var es := Saved(t, values);
    var b, at, all := EntriesBytes(es), HEADER * i, Encoded(t, values);
    EntriesAt(es, i);
    EntryHalves(es[i]);
    SliceOfTail(Header(t), b, at, at + HEADER);
    SliceOfSlice(all, HEADER + at, HEADER);
  }

  lemma EntryHalves(e: Entry)
    ensures EntryBytes(e)[..U32] == Bytes(e.id, U32) && EntryBytes(e)[U32..] == Bytes(e.bits, F64)
  {
  }

  lemma SliceOfTail(a: seq<Byte>, b: seq<Byte>, lo: nat, hi: nat)
    requires lo <= hi <= |b|
    ensures (a + b)[|a| + lo..|a| + hi] == b[lo..hi]
  {
  }

  lemma SliceOfSlice(s: seq<Byte>, at: nat, n: nat)
    requires U32 <= n && at + n <= |s|
    ensures s[at..at + n][..U32] == s[at..at + U32] && s[at..at + n][U32..] == s[at + U32..at + n]
  {
  }

  lemma {:induction false} EntriesAt(es: seq<Entry>, i: nat)
    requires i < |es|
    ensures EntriesBytes(es)[HEADER * i..HEADER * i + HEADER] == EntryBytes(es[i])
  {
    if i < |es| - 1 {
      EntriesAt(es[..|es| - 1], i);
    }
  }

  // ---- what saving and loading promise together ----

  /** Bytes no load of table t accepts: another magic number, another version, or not even a header. */
  predicate Foreign(t: Table, c: seq<Byte>) {
    |c| < 12 || c[..4] != Bytes(t.magic, 4) || c[4..8] != Bytes(1, 4)
  }

  lemma ForeignHeader(t: Table, c: seq<Byte>)
    requires t.magic < Pow256(U32)
    ensures GoodHeader(t, c) <==> !Foreign(t, c)
  {
    hide Bytes, Number, Pow256;
    if |c| >= 12 {
      Widths();
      assert c[0..U32] == c[..4];
      BytesOfNumber(c[..4]);
      BytesOfNumber(c[4..8]);
      NumberOfBytes(t.magic, 4);
      NumberOfBytes(VERSION, 4);
    }
  }

  /** Whatever the host does, loading such bytes fails and stores nothing. */
  lemma ForeignRejected(
    t: Table, before: map<nat, Bits>, c: seq<Byte>, exact: bool, ok: bool, after: map<nat, Bits>)
    requires Proper(t) && LoadOutcome(t, before, c, exact, ok, after) && Foreign(t, c)
    ensures !ok && after == before
  {
    ForeignHeader(t, c);
    NothingRestored(t, before);
    var k :| 0 <= k <= |Taken(t, c)| && after == RestoreAll(t, before, Taken(t, c)[..k]) &&
      (ok ==> k == |Taken(t, c)| && Accepted(t, c));
    assert Taken(t, c)[..k] == [];
  }

  lemma Tables()
    ensures Proper(EFFECT) && Proper(GUI) && Proper(ZOO)
  {
    Widths();
  }

  lemma {:induction false} LeadingOfEntries(prefix: seq<Byte>, es: seq<Entry>, n: nat, cut: nat)
    requires forall i | 0 <= i < |es| :: es[i].id < Pow256(U32) && es[i].bits < Pow256(F64)
    requires |es| <= n && |prefix| <= cut <= |prefix| + HEADER * |es|
    ensures var c := (prefix + EntriesBytes(es))[..cut];
      Leading(c, |prefix|, n) == es[..(cut - |prefix|) / HEADER]
  {
    var c, k := (prefix + EntriesBytes(es))[..cut], (cut - |prefix|) / HEADER;
    var leading := Leading(c, |prefix|, n);
    LeadingLength(c, |prefix|, n);
    forall i | 0 <= i < k ensures i < |leading| && leading[i] == es[i] {
      LeadingAt(c, |prefix|, n, i);
      EntryReadBack(prefix, es, cut, i);
    }
  }

  lemma LeadingLength(c: seq<Byte>, at: nat, n: nat)
    requires at <= |c|
    ensures |Leading(c, at, n)| == Min(n, (|c| - at) / HEADER)
    decreases n
  {
    if n > 0 && |c| >= at + HEADER {
      LeadingLength(c, at + HEADER, n - 1);
    }
  }

  lemma EntryReadBack(prefix: seq<Byte>, es: seq<Entry>, cut: nat, i: nat)
    requires i < |es| && es[i].id < Pow256(U32) && es[i].bits < Pow256(F64)
    requires |prefix| + HEADER * (i + 1) <= cut <= |prefix| + HEADER * |es|
    ensures var c, at := (prefix + EntriesBytes(es))[..cut], |prefix| + HEADER * i;
      WordAt(c, at, U32) == es[i].id && WordAt(c, at + U32, F64) == es[i].bits
  {
    hide Bytes, EntriesBytes, EntryBytes, Number, Pow256;
    var c, at := (prefix + EntriesBytes(es))[..cut], |prefix| + HEADER * i;
    EntrySlice(prefix, es, cut, i);
    EntryHalves(es[i]);
    SliceOfSlice(c, at, HEADER);
    NumberOfBytes(es[i].id, U32);
    NumberOfBytes(es[i].bits, F64);
  }

  lemma EntrySlice(prefix: seq<Byte>, es: seq<Entry>, cut: nat, i: nat)
    requires i < |es| && |prefix| + HEADER * (i + 1) <= cut <= |prefix| + HEADER * |es|
    ensures var at := |prefix| + HEADER * i;
      (prefix + EntriesBytes(es))[..cut][at..at + HEADER] == EntryBytes(es[i])
  {
    hide EntriesBytes, EntryBytes;
    var whole, at := prefix + EntriesBytes(es), |prefix| + HEADER * i;
    EntriesAt(es, i);
    SliceOfTail(prefix, EntriesBytes(es), HEADER * i, HEADER * i + HEADER);
    SliceOfPrefix(whole, cut, at, at + HEADER);
  }

  lemma SliceOfPrefix(s: seq<Byte>, cut: nat, lo: nat, hi: nat)
    requires lo <= hi <= cut <= |s|
    ensures s[..cut][lo..hi] == s[lo..hi]
  {
  }

  lemma HeaderReadBack(t: Table, rest: seq<Byte>)
    requires Proper(t)
    ensures GoodHeader(t, Header(t) + rest) && Announced(Header(t) + rest) == |t.saved|
  {
    hide Bytes;
    var c := Header(t) + rest;
    Widths();
    NumberOfBytes(t.magic, U32);
    NumberOfBytes(VERSION, U32);
    NumberOfBytes(|t.saved|, U32);
    assert c[0..U32] == Bytes(t.magic, U32);
    assert c[U32..2 * U32] == Bytes(VERSION, U32);
    assert c[2 * U32..3 * U32] == Bytes(|t.saved|, U32);
  }

  /** A truncated state gives back exactly its complete leading entries, and only the whole one is accepted. */
  lemma TruncatedState(t: Table, values: map<nat, Bits>, cut: nat)
    requires Proper(t) && Covers(values, t) && cut <= |Encoded(t, values)|
    ensures var c := Encoded(t, values)[..cut];
      Taken(t, c) == (if cut < HEADER then [] else Saved(t, values)[..(cut - HEADER) / HEADER]) &&
      (Accepted(t, c) <==> cut == |Encoded(t, values)|)
  {
    var es, c := Saved(t, values), Encoded(t, values)[..cut];
    if cut >= HEADER {
      LeadingOfEntries(Header(t), es, |es|, cut);
      assert c == Header(t) + EntriesBytes(es)[..cut - HEADER];
      HeaderReadBack(t, EntriesBytes(es)[..cut - HEADER]);
    }
  }

  /** After restoring a list, a parameter has the value of its entry; a parameter without one keeps its own. */
  lemma {:induction false} RestoredValue(t: Table, values: map<nat, Bits>, es: seq<Entry>, id: nat)
    requires values.Keys == t.stored && id in t.stored
    requires forall i, j | 0 <= i < j < |es| :: es[i].id != es[j].id
    ensures RestoreAll(t, values, es).Keys == t.stored
    ensures forall i | 0 <= i < |es| && es[i].id == id && id !in t.meter :: RestoreAll(t, values, es)[id] == es[i].bits
    ensures (id in t.meter || forall i | 0 <= i < |es| :: es[i].id != id) ==>
      RestoreAll(t, values, es)[id] == values[id]
  {
    if es != [] {
      RestoredValue(t, values, es[..|es| - 1], id);
    }
  }

  /**
   The round trip: for every schedule of short writes and reads that makes
   progress, loading what was saved brings back every saved parameter and leaves
   all others alone.
  */
  lemma RoundTrip(t: Table, values: map<nat, Bits>, before: map<nat, Bits>, after: map<nat, Bits>, ok: bool)
    requires Proper(t) && Covers(values, t) && Covers(before, t)
    requires LoadOutcome(t, before, Encoded(t, values), true, ok, after)
    ensures ok && after.Keys == t.stored
    ensures forall id | id in t.saved :: after[id] == values[id]
    ensures forall id | id in t.stored && id !in t.saved :: after[id] == before[id]
  {
    hide RestoreAll, Accepted, Taken, Encoded;
    var es := Saved(t, values);
    WholeTaken(t, values);
    assert es[..|es|] == es;
    assert after == RestoreAll(t, before, es);
    forall id | id in t.stored
      ensures after.Keys == t.stored && after[id] == if id in t.saved then values[id] else before[id]
    {
      RestoredValue(t, before, es, id);
      if id in t.saved {
        var i :| 0 <= i < |t.saved| && t.saved[i] == id;
        assert es[i].id == id;
      }
    }
    RestoredKeys(t, before, es);
  }

  lemma WholeTaken(t: Table, values: map<nat, Bits>)
    requires Proper(t) && Covers(values, t)
    ensures Taken(t, Encoded(t, values)) == Saved(t, values) && Accepted(t, Encoded(t, values))
  {
    hide Taken, Accepted;
    var all, es := Encoded(t, values), Saved(t, values);
    TruncatedState(t, values, |all|);
    assert all[..|all|] == all && es[..|es|] == es;
  }

  lemma {:induction false} RestoredKeys(t: Table, values: map<nat, Bits>, es: seq<Entry>)
    requires values.Keys == t.stored
    ensures RestoreAll(t, values, es).Keys == t.stored
    ensures forall id | id in t.meter && id in values :: RestoreAll(t, values, es)[id] == values[id]
  {
    if es != [] {
      RestoredKeys(t, values, es[..|es| - 1]);
    }
  }

  /** A saved state is accepted by exactly the plugins that have its magic number. */
  lemma AcceptedIff(t: Table, u: Table, values: map<nat, Bits>)
    requires Proper(t) && Proper(u) && Covers(values, u)
    ensures Accepted(t, Encoded(u, values)) <==> t.magic == u.magic
  {
    hide Bytes, EntriesBytes, Leading, Number, Pow256, Proper, Covers;
    var c := Encoded(u, values);
    HeaderReadBack(u, EntriesBytes(Saved(u, values)));
    WholeTaken(u, values);
    assert GoodHeader(t, c) <==> t.magic == u.magic;
  }

  /** The zoo and the other two reject each other's states; the effect and the GUI plugin do not. */
  lemma ZooIsForeign(e: map<nat, Bits>, g: map<nat, Bits>, z: map<nat, Bits>)
    requires Covers(e, EFFECT) && Covers(g, GUI) && Covers(z, ZOO)
    ensures Proper(EFFECT) && Proper(GUI) && Proper(ZOO)
    ensures !Accepted(ZOO, Encoded(EFFECT, e)) && !Accepted(ZOO, Encoded(GUI, g))
    ensures !Accepted(EFFECT, Encoded(ZOO, z)) && !Accepted(GUI, Encoded(ZOO, z))
    ensures Accepted(EFFECT, Encoded(GUI, g)) && Accepted(GUI, Encoded(EFFECT, e))
  {
    hide Accepted, Encoded;
    Tables();
    AcceptedIff(ZOO, EFFECT, e);
    AcceptedIff(ZOO, GUI, g);
    AcceptedIff(EFFECT, ZOO, z);
    AcceptedIff(GUI, ZOO, z);
    AcceptedIff(EFFECT, GUI, g);
    AcceptedIff(GUI, EFFECT, e);
  }

  /** No load, of any bytes from any host, changes the meter. */
  lemma MeterNeverLoaded(
    t: Table, before: map<nat, Bits>, c: seq<Byte>, exact: bool, ok: bool, after: map<nat, Bits>, id: nat)
    requires LoadOutcome(t, before, c, exact, ok, after) && before.Keys == t.stored
    requires id in t.meter && id in t.stored
    ensures id in after && after[id] == before[id]
  {
    var k :| 0 <= k <= |Taken(t, c)| && after == RestoreAll(t, before, Taken(t, c)[..k]);
    RestoredKeys(t, before, Taken(t, c)[..k]);
  }

  /** Entries with unknown ids are skipped: the rest of the state loads as if they were not there. */
  lemma {:induction false} UnknownSkipped(t: Table, values: map<nat, Bits>, es: seq<Entry>, extra: Entry, k: nat)
    requires k <= |es| && extra.id !in t.stored
    ensures RestoreAll(t, values, es[..k] + [extra] + es[k..]) == RestoreAll(t, values, es)
    decreases |es| - k
  {
    var longer := es[..k] + [extra] + es[k..];
    if k == |es| {
      assert longer[..|longer| - 1] == es;
    } else {
      var front := es[..|es| - 1];
      assert longer[..|longer| - 1] == front[..k] + [extra] + front[k..];
      UnknownSkipped(t, values, front, extra, k);
    }
  }

  /** Save, then load into another instance, over any hosts that make progress. */
  method Transfer(source: Parameters, target: Parameters, sending: Plan, receiving: Plan) returns (ok: bool)
    requires source.Valid() && target.Valid() && source.table == target.table && source != target
    requires Positive(sending) && Positive(receiving)
    modifies target
    ensures ok && target.Valid()
    ensures forall id | id in source.table.saved :: target.values[id] == source.values[id]
    ensures forall id | id in source.table.stored && id !in source.table.saved ::
      target.values[id] == old(target.values)[id]
  {
    var out := new OutStream(sending);
    var saved := source.StateSave(out);
    assert [] + Encoded(source.table, source.values) == Encoded(source.table, source.values);
    var in_ := new InStream(receiving, out.bytes);
    ok := target.StateLoad(in_);
    assert in_.bytes[0..] == in_.bytes;
    RoundTrip(target.table, source.values, old(target.values), target.values, ok);
  }
}

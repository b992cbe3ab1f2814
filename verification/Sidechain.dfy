/**
 The envelope follower of src/plugins/sidechain_synth/sidechain_synth.cpp: the
 rendered synth is scaled in place by the smoothed level of the sidechain input.
*/
module Sidechain {

  const FOLLOWER_COEFF: real := 0.01

  datatype Input = Disconnected | Connected(left: array<real>, right: array<real>)

  function Abs(x: real): real { if x < 0.0 then -x else x }

  function InputLevel(l: real, r: real): real { 0.5 * (Abs(l) + Abs(r)) }

  /** The envelope after n frames of the sidechain signals l and r. */
  function Envelope(start: real, l: seq<real>, r: seq<real>, n: nat): real
    requires n <= |l| && n <= |r|
  {
    if n == 0 then start else
    var before := Envelope(start, l, r, n - 1);
    before + FOLLOWER_COEFF * (InputLevel(l[n - 1], r[n - 1]) - before)
  }

  function Product(x: real, y: real): real { x * y }

  function Limited(x: real): real { if x > 1.0 then 1.0 else x }

  function Multiplier(amount: real, envelope: real): real {
    (1.0 - amount) + amount * Limited(envelope)
  }

  /** The multipliers of the first n frames. */
  function Gains(amount: real, start: real, l: seq<real>, r: seq<real>, n: nat): (g: seq<real>)
    requires n <= |l| && n <= |r|
    ensures |g| == n
    ensures forall i | 0 <= i < n :: g[i] == Multiplier(amount, Envelope(start, l, r, i + 1))
  {
    if n == 0 then [] else Gains(amount, start, l, r, n - 1) + [Multiplier(amount, Envelope(start, l, r, n))]
  }

  class SidechainSynth {
    var amount: real
    var envelope: real

    constructor ()
      ensures amount == 1.0 && envelope == 0.0
    {
      amount, envelope := 1.0, 0.0;
    }

    /** Scales the first `frames` rendered samples; a missing input or a zero amount changes nothing. */
    method Follow(sidechain: Input, left: array<real>, right: array?<real>, frames: nat)
      requires frames <= left.Length && (right != null ==> right != left && frames <= right.Length)
      requires sidechain.Connected? ==>
        frames <= sidechain.left.Length && frames <= sidechain.right.Length &&
        left != sidechain.left && left != sidechain.right && right != sidechain.left && right != sidechain.right
      modifies this`envelope, left, right
      ensures sidechain.Connected? && amount > 0.0 ==>
        var l, r := sidechain.left[..], sidechain.right[..];
        envelope == Envelope(old(envelope), l, r, frames) &&
        Scaled(left[..], old(left[..]), Gains(amount, old(envelope), l, r, frames)) &&
        (right != null ==> Scaled(right[..], old(right[..]), Gains(amount, old(envelope), l, r, frames)))
      ensures !(sidechain.Connected? && amount > 0.0) ==>
        envelope == old(envelope) && left[..] == old(left[..]) && (right != null ==> right[..] == old(right[..]))
    {
      if sidechain.Disconnected? || amount <= 0.0 {
        return;
      }
      var scLeft, scRight := sidechain.left, sidechain.right;
      ghost var l, r, gains := scLeft[..], scRight[..], [];
      ghost var before, before' := left[..], if right != null then right[..] else [];
      for i := 0 to frames
        invariant envelope == Envelope(old(envelope), l, r, i)
        invariant scLeft[..] == l && scRight[..] == r
        invariant gains == Gains(amount, old(envelope), l, r, i)
        invariant Scaled(left[..], before, gains)
        invariant right != null ==> Scaled(right[..], before', gains)
      {
        var mod := Track(scLeft[i], scRight[i]);
        ghost var was, was' := left[..], if right != null then right[..] else [];
        Attenuate(left, i, mod);
        ScaledNext(left[..], was, before, gains, i, mod);
        if right != null {
          assert right[..] == was';
          Attenuate(right, i, mod);
          ScaledNext(right[..], was', before', gains, i, mod);
        }
        gains := gains + [mod];
      }
    }

    /** One frame of the follower: updates the envelope and gives the multiplier. */
    method Track(l: real, r: real) returns (mod: real)
      modifies this`envelope
      ensures envelope == old(envelope) + FOLLOWER_COEFF * (InputLevel(l, r) - old(envelope))
      ensures mod == Multiplier(amount, envelope)
    {
      var level := 0.5 * (Abs(l) + Abs(r));
      envelope := envelope + FOLLOWER_COEFF * (level - envelope);
      mod := (1.0 - amount) + amount * Limited(envelope);
    }
  }

  method Attenuate(buffer: array<real>, i: nat, mod: real)
    requires i < buffer.Length
    modifies buffer
    ensures buffer[..] == old(buffer[..])[i := Product(old(buffer[i]), mod)]
  {
    buffer[i] := buffer[i] * mod;
  }

  lemma ScaledNext(now: seq<real>, was: seq<real>, before: seq<real>, gains: seq<real>, i: nat, mod: real)
    requires Scaled(was, before, gains) && i == |gains| < |was| && now == was[i := Product(was[i], mod)]
    ensures Scaled(now, before, gains + [mod])
  {
    assert was[i] == before[i] && (gains + [mod])[i] == mod;
  }

  ghost predicate Scaled(now: seq<real>, before: seq<real>, gains: seq<real>) {
    |gains| <= |now| == |before| &&
    forall i | 0 <= i < |now| :: now[i] == if i < |gains| then Product(before[i], gains[i]) else before[i]
  }

  /** Following a + b frames is following a frames and then b: block sizes do not matter. */
  lemma {:induction false} EnvelopeAdds(start: real, l: seq<real>, r: seq<real>, a: nat, b: nat)
    requires a + b <= |l| && a + b <= |r|
    ensures Envelope(start, l, r, a + b) == Envelope(Envelope(start, l, r, a), l[a..], r[a..], b)
  {
    if b > 0 {
      EnvelopeAdds(start, l, r, a, b - 1);
    }
  }

  /** 0.99 to the n. */
  function Decay(n: nat): real { if n == 0 then 1.0 else 0.99 * Decay(n - 1) }

  function Size(x: real): real { if x >= 0.0 then x else 0.0 - x }

  /** A level counts for a hundredth when it is new, and less with age. */
  function Share(level: real, age: nat): real { 0.01 * Decay(age) * level }

  /** The first m levels of n, each with what its age has left of it. */
  function Past(l: seq<real>, r: seq<real>, n: nat, m: nat): real
    requires m <= n <= |l| && n <= |r|
  {
    if m == 0 then 0.0
    else Past(l, r, n, m - 1) + Share((Size(l[m - 1]) + Size(r[m - 1])) / 2.0, n - m)
  }

  lemma {:induction false} PastDecays(l: seq<real>, r: seq<real>, n: nat, m: nat)
    requires m <= n < |l| && n < |r|
    ensures Past(l, r, n + 1, m) == 0.99 * Past(l, r, n, m)
  {
    hide Share, Size;
    if m > 0 {
      PastDecays(l, r, n, m - 1);
      ShareDecays((Size(l[m - 1]) + Size(r[m - 1])) / 2.0, n - m);
    }
  }

  lemma ShareDecays(level: real, age: nat)
    ensures Share(level, age + 1) == 0.99 * Share(level, age)
  {
    var d := Decay(age);
    assert 0.01 * (0.99 * d) * level == 0.99 * (0.01 * d * level);
  }

  lemma NewShare(level: real)
    ensures Share(level, 0) == 0.01 * level
  {
  }

  lemma EnvelopeNext(start: real, l: seq<real>, r: seq<real>, n: nat)
    requires 0 < n <= |l| && n <= |r|
    ensures Envelope(start, l, r, n) ==
      0.99 * Envelope(start, l, r, n - 1) + 0.01 * ((Size(l[n - 1]) + Size(r[n - 1])) / 2.0)
  {
    assert InputLevel(l[n - 1], r[n - 1]) == (Size(l[n - 1]) + Size(r[n - 1])) / 2.0;
  }

  lemma PastNext(l: seq<real>, r: seq<real>, n: nat)
    requires 0 < n <= |l| && n <= |r|
    ensures Past(l, r, n, n) == 0.99 * Past(l, r, n - 1, n - 1) + 0.01 * ((Size(l[n - 1]) + Size(r[n - 1])) / 2.0)
  {
    hide Size, Share;
    NewShare((Size(l[n - 1]) + Size(r[n - 1])) / 2.0);
    PastDecays(l, r, n - 1, n - 1);
  }

  /** What is left of the start after n frames. */
  function Left(start: real, n: nat): real { Decay(n) * start }

  lemma LeftNext(start: real, n: nat)
    requires n > 0
    ensures Left(start, n) == 0.99 * Left(start, n - 1)
  {
    assert 0.99 * Decay(n - 1) * start == 0.99 * (Decay(n - 1) * start);
  }

  lemma {:induction false} EnvelopeInParts(start: real, l: seq<real>, r: seq<real>, n: nat)
    requires n <= |l| && n <= |r|
    ensures Envelope(start, l, r, n) == Left(start, n) + Past(l, r, n, n)
  {
    if n > 0 {
      hide *;
      EnvelopeInParts(start, l, r, n - 1);
      EnvelopeNext(start, l, r, n);
      PastNext(l, r, n);
      LeftNext(start, n);
    }
  }

  /** The envelope as a weighted sum: the start and every level so far, each 1 % less per frame since. */
  lemma EnvelopeIsWeighted(start: real, l: seq<real>, r: seq<real>, n: nat)
    requires n <= |l| && n <= |r|
    ensures Envelope(start, l, r, n) == Decay(n) * start + Past(l, r, n, n)
  {
    EnvelopeInParts(start, l, r, n);
  }

  /** The dry share 1 - amount, and of the rest as much as the envelope, at most all. */
  function Blend(x: real, amount: real, e: real): real {
    x * (1.0 - amount) + x * amount * (if e < 1.0 then e else 1.0)
  }

  lemma BlendIs(x: real, amount: real, e: real)
    ensures Product(x, Multiplier(amount, e)) == Blend(x, amount, e)
  {
    Shares(x, amount, Limited(e));
  }

  /** What the follower does, sample by sample; later samples stay as they are. */
  lemma ScaledMeans(now: seq<real>, before: seq<real>, amount: real, start: real, l: seq<real>, r: seq<real>, n: nat)
    requires n <= |l| && n <= |r| && n <= |before|
    ensures Scaled(now, before, Gains(amount, start, l, r, n)) <==>
      |now| == |before| && forall i | 0 <= i < |now| ::
        now[i] == if i < n then Blend(before[i], amount, Envelope(start, l, r, i + 1)) else before[i]
  {
    hide Envelope, Blend, Product, Multiplier;
    var gains := Gains(amount, start, l, r, n);
    forall i | 0 <= i < n
      ensures Product(before[i], gains[i]) == Blend(before[i], amount, Envelope(start, l, r, i + 1))
    {
      BlendIs(before[i], amount, Envelope(start, l, r, i + 1));
    }
  }

  lemma Shares(x: real, amount: real, e: real)
    ensures x * ((1.0 - amount) + amount * e) == x * (1.0 - amount) + x * amount * e
  {
  }

  /** The envelope never leaves [0, max], max being the loudest sidechain level so far. */
  lemma {:induction false} EnvelopeBounded(start: real, l: seq<real>, r: seq<real>, n: nat, max: real)
    requires n <= |l| && n <= |r| && 0.0 <= start <= max
    requires forall i | 0 <= i < n :: InputLevel(l[i], r[i]) <= max
    ensures 0.0 <= Envelope(start, l, r, n) <= max
  {
    if n > 0 {
      EnvelopeBounded(start, l, r, n - 1, max);
    }
  }

  lemma NonNegative(x: real, y: real)
    requires 0.0 <= x && 0.0 <= y
    ensures 0.0 <= x * y
  {
  }

  lemma MultiplierBounded(amount: real, envelope: real)
    requires 0.0 <= amount <= 1.0 && 0.0 <= envelope
    ensures 0.0 <= Multiplier(amount, envelope) <= 1.0
  {
    var e := Limited(envelope);
    NonNegative(amount, e);
    NonNegative(amount, 1.0 - e);
    assert amount * (1.0 - e) == amount - amount * e;
  }

  lemma GainsBounded(amount: real, start: real, l: seq<real>, r: seq<real>, n: nat, max: real)
    requires 0.0 <= amount <= 1.0 && 0.0 <= start <= max && n <= |l| && n <= |r|
    requires forall i | 0 <= i < n :: InputLevel(l[i], r[i]) <= max
    ensures forall i | 0 <= i < n :: 0.0 <= Gains(amount, start, l, r, n)[i] <= 1.0
  {
    forall i | 0 <= i < n ensures 0.0 <= Gains(amount, start, l, r, n)[i] <= 1.0 {
      EnvelopeBounded(start, l, r, i + 1, max);
      MultiplierBounded(amount, Envelope(start, l, r, i + 1));
    }
  }

  /** The follower can only make the synth quieter, sample by sample. */
  lemma FollowQuietens(now: seq<real>, before: seq<real>, gains: seq<real>)
    requires Scaled(now, before, gains) && forall i | 0 <= i < |gains| :: 0.0 <= gains[i] <= 1.0
    ensures forall i | 0 <= i < |now| :: Abs(now[i]) <= Abs(before[i])
  {
    forall i | 0 <= i < |now| ensures Abs(now[i]) <= Abs(before[i]) {
      if i < |gains| {
        Quieter(before[i], gains[i]);
      }
    }
  }

  lemma Quieter(x: real, m: real)
    requires 0.0 <= m <= 1.0
    ensures Abs(Product(x, m)) <= Abs(x)
  {
    var rest := 1.0 - m;
    assert x * rest == x - x * m;
    if x >= 0.0 {
      NonNegative(x, rest);
      NonNegative(x, m);
    } else {
      NonNegative(-x, rest);
      NonNegative(-x, m);
    }
  }
}

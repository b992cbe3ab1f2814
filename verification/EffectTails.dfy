/**
 The effect's gain pass, which also looks for silence, and the status it returns:
 the host may stop processing once the tail after the last live block has passed.
*/
module EffectTails {

  datatype Status = Continue | Tail | Sleep

  /** One block: its length, whether every input sample was zero, and the tail length in force. */
  datatype Block = Block(frames: nat, silent: bool, tail: nat)

  /** Frames of input silence after some blocks. */
  function Silence(blocks: seq<Block>): nat {
    if blocks == [] || !blocks[|blocks| - 1].silent then 0
    else Silence(blocks[..|blocks| - 1]) + blocks[|blocks| - 1].frames
  }

  function StatusOf(blocks: seq<Block>): Status
    requires blocks != []
  {
    var last := blocks[|blocks| - 1];
    if !last.silent then Continue else if Silence(blocks) <= last.tail then Tail else Sleep
  }

  predicate IsZero(samples: seq<real>) { forall i | 0 <= i < |samples| :: samples[i] == 0.0 }

  function Amplified(samples: seq<real>, gain: real): (r: seq<real>)
    ensures |r| == |samples|
  {
    seq(|samples|, i requires 0 <= i < |samples| => samples[i] * gain)
  }

  /** What these two mean, sample by sample. */
  lemma SampleBySample(now: seq<real>, before: seq<real>, gain: real)
    ensures IsZero(before) <==> forall i | 0 <= i < |before| :: before[i] == 0.0
    ensures now == Amplified(before, gain) <==>
      |now| == |before| && forall i | 0 <= i < |now| :: now[i] == before[i] * gain
  {
    var amplified := Amplified(before, gain);
    assert forall i | 0 <= i < |before| :: amplified[i] == before[i] * gain;
    if |now| == |before| && forall i | 0 <= i < |now| :: now[i] == before[i] * gain {
      assert now == amplified;
    }
  }

  class Effect {
    var silentFrames: nat

    /** The blocks processed so far; `Valid` ties the counter to them. */
    ghost var blocks: seq<Block>

    ghost predicate Valid()
      reads this
    {
      silentFrames == Silence(blocks)
    }

    constructor ()
      ensures Valid() && blocks == []
    {
      silentFrames, blocks := 0, [];
    }

    /** One channel; the host may pass the same buffer as input and output. */
    method ApplyGain(src: array<real>, dst: array<real>, frames: nat, gain: real) returns (silent: bool)
      requires frames <= src.Length && frames <= dst.Length
      modifies dst
      ensures dst[..frames] == Amplified(old(src[..frames]), gain) && dst[frames..] == old(dst[frames..])
      ensures silent <==> IsZero(old(src[..frames]))
    {
      silent := true;
      for i := 0 to frames
        invariant forall j | 0 <= j < i :: dst[j] == old(src[j]) * gain
        invariant forall j | i <= j < src.Length :: src[j] == old(src[j])
        invariant dst[frames..] == old(dst[frames..])
        invariant silent <==> forall j | 0 <= j < i :: old(src[j]) == 0.0
      {
        if src[i] != 0.0 {
          silent := false;
        }
        dst[i] := src[i] * gain;
      }
      ghost var was := old(src[..frames]);
      assert forall j | 0 <= j < frames :: was[j] == old(src[j]);
      assert forall j | 0 <= j < frames :: dst[..frames][j] == Amplified(was, gain)[j];
    }

    /** The channels both sides have. Buffers of different channels are different. */
    method Process(ins: seq<array<real>>, outs: seq<array<real>>, frames: nat, gain: real, tail: nat)
      returns (status: Status)
      requires Valid() && forall c | 0 <= c < |ins| :: frames <= ins[c].Length
      requires forall c | 0 <= c < |outs| :: frames <= outs[c].Length
      requires forall c, d | 0 <= c < |outs| && 0 <= d < |outs| && c != d :: outs[c] != outs[d]
      requires forall c, d | 0 <= c < |ins| && 0 <= d < |outs| && c != d :: ins[c] != outs[d]
      modifies this, set a | a in outs
      ensures Valid() && blocks != [] && status == StatusOf(blocks)
      ensures var used := if |ins| < |outs| then |ins| else |outs|;
        blocks == old(blocks) + [Block(frames, forall c | 0 <= c < used :: IsZero(old(ins[c][..frames])), tail)] &&
        forall c | 0 <= c < used :: outs[c][..frames] == Amplified(old(ins[c][..frames]), gain)
    {
      var used := if |ins| < |outs| then |ins| else |outs|;
      var silent := true;
      for c := 0 to used
        invariant silentFrames == old(silentFrames) && blocks == old(blocks)
        invariant silent <==> forall d | 0 <= d < c :: IsZero(old(ins[d][..frames]))
        invariant forall d | 0 <= d < c :: outs[d][..frames] == Amplified(old(ins[d][..frames]), gain)
        invariant forall d | c <= d < |ins| :: ins[d][..frames] == old(ins[d][..frames])
      {
        var quiet := ApplyGain(ins[c], outs[c], frames, gain);
        silent := silent && quiet;
      }
      status := Finish(frames, silent, tail);
    }

    /** The silence counter and the status after the channels are done. */
    method Finish(frames: nat, silent: bool, tail: nat) returns (status: Status)
      requires Valid()
      modifies this
      ensures Valid() && blocks == old(blocks) + [Block(frames, silent, tail)] && status == StatusOf(blocks)
    {
      blocks := blocks + [Block(frames, silent, tail)];
      assert blocks[..|blocks| - 1] == old(blocks);
      if !silent {
        silentFrames := 0;
        return Continue;
      }
      silentFrames := silentFrames + frames;
      status := if silentFrames <= tail then Tail else Sleep;
    }
  }

  /** Frames of blocks k and later. */
  function FramesFrom(blocks: seq<Block>, k: nat): nat
    requires k <= |blocks|
    decreases |blocks| - k
  {
    if k == |blocks| then 0 else blocks[k].frames + FramesFrom(blocks, k + 1)
  }

  lemma {:induction false} FramesFromNext(blocks: seq<Block>, k: nat, last: Block)
    requires k <= |blocks|
    ensures FramesFrom(blocks + [last], k) == FramesFrom(blocks, k) + last.frames
    decreases |blocks| - k
  {
    if k < |blocks| {
      FramesFromNext(blocks, k + 1, last);
    } else {
      assert FramesFrom(blocks + [last], k + 1) == 0;
    }
  }

  /** The blocks from k on are silent, and the one before k, if any, is live. */
  predicate SilentFrom(blocks: seq<Block>, k: nat) {
    k <= |blocks| && (forall i | k <= i < |blocks| :: blocks[i].silent) && (k > 0 ==> !blocks[k - 1].silent)
  }

  /** The counter holds the frames since the last live block. */
  lemma {:induction false} SilenceSinceLive(blocks: seq<Block>, k: nat)
    requires SilentFrom(blocks, k)
    ensures Silence(blocks) == FramesFrom(blocks, k)
    decreases |blocks|
  {
    if k < |blocks| {
      var front, last := blocks[..|blocks| - 1], blocks[|blocks| - 1];
      SilenceSinceLive(front, k);
      FramesFromNext(front, k, last);
      assert front + [last] == blocks;
    }
  }

  /** SLEEP is returned exactly when the silence since the last live block is longer than the tail. */
  lemma SleepExact(blocks: seq<Block>, k: nat)
    requires SilentFrom(blocks, k) && blocks != []
    ensures StatusOf(blocks) == Sleep <==> k < |blocks| && FramesFrom(blocks, k) > blocks[|blocks| - 1].tail
    ensures StatusOf(blocks) == Continue <==> k == |blocks|
  {
    SilenceSinceLive(blocks, k);
  }

  /** Asleep, the plugin stays asleep until the input is live again or the tail is lengthened. */
  lemma SleepStays(blocks: seq<Block>, next: Block)
    requires blocks != [] && StatusOf(blocks) == Sleep && next.silent && next.tail <= blocks[|blocks| - 1].tail
    ensures StatusOf(blocks + [next]) == Sleep
  {
    assert (blocks + [next])[..|blocks|] == blocks;
  }
}

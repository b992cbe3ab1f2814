/**
 Byte streams of a host that may transfer fewer bytes than asked, and the loops of
 src/wrapper/stream.cpp that go on until everything is through.
*/
module Streams {

  type Byte = b: nat | b < 256

  /** What the host is willing to transfer at its n-th call; zero or less is an error. */
  type Plan = nat -> int

  ghost predicate Positive(plan: Plan) { forall n :: plan(n) > 0 }

  function Min(a: int, b: int): int { if a < b then a else b }

  class OutStream {
    const plan: Plan
    var bytes: seq<Byte>
    var calls: nat

    constructor (plan: Plan)
      ensures this.plan == plan && bytes == [] && calls == 0
    {
      this.plan, bytes, calls := plan, [], 0;
    }

    /** The host's write(): takes a prefix of the data, or fails and takes nothing. */
    method Write(data: seq<Byte>) returns (written: int)
      modifies this
      ensures written == Min(plan(old(calls)), |data|) && calls == old(calls) + 1
      ensures bytes == if written > 0 then old(bytes) + data[..written] else old(bytes)
    {
      written := Min(plan(calls), |data|);
      calls := calls + 1;
      if written > 0 {
        bytes := bytes + data[..written];
      }
    }
  }

  class InStream {
    const plan: Plan
    const bytes: seq<Byte>
    var pos: nat
    var calls: nat

    ghost predicate Valid()
      reads this
    {
      pos <= |bytes|
    }

    constructor (plan: Plan, bytes: seq<Byte>)
      ensures Valid() && this.plan == plan && this.bytes == bytes && pos == 0 && calls == 0
    {
      this.plan, this.bytes, pos, calls := plan, bytes, 0, 0;
    }

    /** The host's read(): gives the next bytes, or zero at the end, or fails. */
    method Read(size: nat) returns (read: int, data: seq<Byte>)
      requires Valid()
      modifies this
      ensures Valid() && read == Min(Min(plan(old(calls)), size), |bytes| - old(pos)) && calls == old(calls) + 1
      ensures read > 0 ==> pos == old(pos) + read && data == bytes[old(pos)..pos]
      ensures read <= 0 ==> pos == old(pos) && data == []
    {
      read := Min(Min(plan(calls), size), |bytes| - pos);
      calls := calls + 1;
      data := [];
      if read > 0 {
        data := bytes[pos..pos + read];
        pos := pos + read;
      }
    }
  }

  /** Goes on until everything is written or the host fails; what got through is a prefix of the data. */
  method StreamWriteAll(stream: OutStream, data: seq<Byte>) returns (ok: bool)
    modifies stream
    ensures exists n | 0 <= n <= |data| :: stream.bytes == old(stream.bytes) + data[..n]
    ensures ok ==> stream.bytes == old(stream.bytes) + data
    ensures Positive(stream.plan) ==> ok
    ensures stream.calls - old(stream.calls) <= |data|
  {
    var sent := 0;
    assert old(stream.bytes) + data[..0] == old(stream.bytes);
    while sent < |data|
      invariant sent <= |data| && stream.bytes == old(stream.bytes) + data[..sent]
      invariant stream.calls - old(stream.calls) <= sent
    {
      var written := stream.Write(data[sent..]);
      if written <= 0 {
        return false;
      }
      assert data[..sent] + data[sent..][..written] == data[..sent + written];
      sent := sent + written;
    }
    assert data[..sent] == data;
    ok := true;
  }

  /** Goes on until everything asked for is read; with a host that always makes progress it fails only at the end. */
  method StreamReadAll(stream: InStream, size: nat) returns (ok: bool, data: seq<Byte>)
    requires stream.Valid()
    modifies stream
    ensures stream.Valid() && stream.pos >= old(stream.pos)
    ensures ok ==> stream.pos == old(stream.pos) + size && data == stream.bytes[old(stream.pos)..stream.pos]
    ensures Positive(stream.plan) ==> (ok <==> old(stream.pos) + size <= |stream.bytes|)
    ensures stream.calls - old(stream.calls) <= size
  {
    data := [];
    while |data| < size
      invariant stream.Valid() && |data| <= size
      invariant stream.pos == old(stream.pos) + |data| && data == stream.bytes[old(stream.pos)..stream.pos]
      invariant stream.calls - old(stream.calls) <= |data|
    {
      var read, more := stream.Read(size - |data|);
      if read <= 0 {
        return false, data;
      }
      data := data + more;
    }
    ok := true;
  }
}

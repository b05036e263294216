/** The two-index byte buffer with in-place compaction (link/src/simple_buf.rs). */
module SimpleBuffers {
  import opened Bits

  /**
   * What a buffer is worth to its user: `head` bytes already consumed at the front, the occupied bytes, and the
   * tail room up to `capacity`. The push and compaction rules depend on `head`, so it is part of the value.
   */
  datatype Buf = Buf(capacity: nat, head: nat, bytes: seq<u8>) {
    ghost predicate Valid() { head + |bytes| <= capacity }

    function Tail(): int { capacity - head - |bytes| }
    function MaxLen(): int { capacity - |bytes| }

    function Push(b: seq<u8>): (r: Buf)
      ensures Valid() ==> r.Valid()
    {
      if Tail() < |b| then this else this.(bytes := bytes + b)
    }

    function Free(n: nat): (r: Buf)
      ensures Valid() ==> r.Valid()
    {
      if n > |bytes| then this else this.(head := head + n, bytes := bytes[n..])
    }

    function Reuse(): (r: Buf)
      ensures Valid() ==> r.Valid()
    {
      this.(head := 0)
    }

    function ReuseIf(): (r: Buf)
      ensures Valid() ==> r.Valid()
    {
      if Tail() == 0 then Reuse() else this
    }
  }

  function EmptyBuf(capacity: nat): Buf { Buf(capacity, 0, []) }

  // ----- every operation sequence -----

  datatype Op = OpPush(b: seq<u8>) | OpFree(n: nat) | OpReuse | OpReuseIf

  /**
   * A buffer with its history: all bytes it ever accepted, how many of them were freed, and how many had been freed
   * when the bytes last moved to the front.
   */
  datatype Logged = Logged(buf: Buf, accepted: seq<u8>, freed: nat, moved: nat)

  function Do(l: Logged, op: Op): Logged {
    match op
    case OpPush(b) =>
      if |l.accepted| - l.moved + |b| > l.buf.capacity then l.(buf := l.buf.Push(b))
      else l.(buf := l.buf.Push(b), accepted := l.accepted + b)
    case OpFree(n) => if n > |l.accepted| - l.freed then l.(buf := l.buf.Free(n))
      else l.(buf := l.buf.Free(n), freed := l.freed + n)
    case OpReuse => l.(buf := l.buf.Reuse(), moved := l.freed)
    case OpReuseIf =>
      l.(buf := l.buf.ReuseIf(), moved := if |l.accepted| - l.moved == l.buf.capacity then l.freed else l.moved)
  }

  function DoAll(l: Logged, ops: seq<Op>): Logged {
    if ops == [] then l else Do(DoAll(l, ops[..|ops| - 1]), ops[|ops| - 1])
  }

  /** The buffer holds the accepted bytes not yet freed, as far from the front as was freed since they moved there. */
  ghost predicate LogTells(l: Logged) {
    && l.buf.Valid() && l.moved <= l.freed <= |l.accepted|
    && l.buf == Buf(l.buf.capacity, l.freed - l.moved, l.accepted[l.freed..])
  }

  /**
   * Over any operation sequence the buffer is a bounded FIFO: its bytes are the accepted ones not yet freed, and they
   * lie where the freed ones since the last move leave them. A push is refused exactly when it would run over the end.
   */
  lemma {:induction false} BufferIsBoundedFifo(capacity: nat, ops: seq<Op>)
    ensures var l := DoAll(Logged(EmptyBuf(capacity), [], 0, 0), ops); LogTells(l) && l.buf.capacity == capacity
  {
    hide LogTells, Do;
    if ops == [] {
      EmptyTells(capacity);
    } else {
      BufferIsBoundedFifo(capacity, ops[..|ops| - 1]);
      OpTells(DoAll(Logged(EmptyBuf(capacity), [], 0, 0), ops[..|ops| - 1]), ops[|ops| - 1]);
    }
  }

  lemma {:induction false} EmptyTells(capacity: nat)
    ensures LogTells(Logged(EmptyBuf(capacity), [], 0, 0))
  {
  }

  lemma {:induction false} OpTells(l: Logged, op: Op)
    requires LogTells(l)
    ensures LogTells(Do(l, op)) && Do(l, op).buf.capacity == l.buf.capacity
  {
    match op
    case OpPush(b) => assert (l.accepted + b)[l.freed..] == l.accepted[l.freed..] + b;
    case OpFree(n) =>
      if n <= |l.accepted| - l.freed { assert l.accepted[l.freed..][n..] == l.accepted[l.freed + n..]; }
    case _ =>
  }

  class SimpleBuf {
    const data: array<u8>
    const capacity: nat
    var vacantIdx: nat
    var occupiedIdx: nat

    ghost predicate Valid()
      reads this
    {
      data.Length == capacity && occupiedIdx <= vacantIdx <= capacity
    }

    ghost function View(): (v: Buf)
      requires Valid()
      reads this, data
      ensures v.Valid()
    {
      Buf(capacity, occupiedIdx, data[occupiedIdx..vacantIdx])
    }

    constructor (capacity: nat)
      ensures Valid() && fresh(data)
      ensures View() == EmptyBuf(capacity)
    {
      this.data := new u8[capacity](_ => 0);
      this.capacity := capacity;
      vacantIdx, occupiedIdx := 0, 0;
    }

    method Len() returns (n: nat)
      requires Valid()
      ensures n == |View().bytes|
    {
      n := vacantIdx - occupiedIdx;
    }

    method MaxLen() returns (n: nat)
      requires Valid()
      ensures n == View().MaxLen()
    {
      n := capacity - (vacantIdx - occupiedIdx);
    }

    method OccupiedSlice() returns (b: seq<u8>)
      requires Valid()
      ensures b == View().bytes
    {
      b := data[occupiedIdx..vacantIdx];
    }

    /** Appends all of `b`, or refuses and changes nothing when the tail is too short. */
    method PushSlice(b: seq<u8>) returns (ok: bool)
      requires Valid()
      modifies this`vacantIdx, data
      ensures Valid()
      ensures ok <==> |b| <= old(View()).Tail()
      ensures View() == old(View()).Push(b)
    {
      var usable := data.Length - vacantIdx;
      if usable < |b| {
        return false;
      }
      var i := 0;
      while i < |b|
        modifies data
        invariant 0 <= i <= |b|
        invariant data[occupiedIdx..vacantIdx] == old(data[occupiedIdx..vacantIdx])
        invariant data[vacantIdx..vacantIdx + i] == b[..i]
      {
        data[vacantIdx + i] := b[i];
        i := i + 1;
      }
      assert data[occupiedIdx..vacantIdx + |b|] == data[occupiedIdx..vacantIdx] + data[vacantIdx..vacantIdx + |b|];
      vacantIdx := vacantIdx + |b|;
      return true;
    }

    /** Moves the occupied bytes to the front, ascending, so that overlapping ranges are safe. */
    method Reuse()
      requires Valid()
      modifies this, data
      ensures Valid()
      ensures View() == old(View()).Reuse()
    {
      var n, i := vacantIdx - occupiedIdx, 0;
      while i < n
        modifies data
        invariant 0 <= i <= n
        invariant data[..i] == old(data[occupiedIdx..occupiedIdx + i])
        invariant forall k :: occupiedIdx + i <= k < vacantIdx ==> data[k] == old(data[k])
      {
        data[i] := data[occupiedIdx + i];
        i := i + 1;
      }
      vacantIdx := vacantIdx - occupiedIdx;
      occupiedIdx := 0;
      assert data[0..vacantIdx] == data[..n];
    }

    method ReuseIf() returns (reused: bool)
      requires Valid()
      modifies this, data
      ensures Valid()
      ensures reused <==> old(View()).Tail() == 0
      ensures View() == old(View()).ReuseIf()
    {
      if vacantIdx == capacity {
        Reuse();
        return true;
      }
      return false;
    }

    /** Drops exactly the first `consumed` occupied bytes, or refuses and changes nothing. */
    method Free(consumed: nat) returns (ok: bool)
      requires Valid()
      modifies this`occupiedIdx
      ensures Valid()
      ensures ok <==> consumed <= |old(View()).bytes|
      ensures View() == old(View()).Free(consumed)
    {
      var newOccupiedIdx := occupiedIdx + consumed;
      if newOccupiedIdx > vacantIdx {
        return false;
      }
      assert data[newOccupiedIdx..vacantIdx] == data[occupiedIdx..vacantIdx][consumed..];
      occupiedIdx := newOccupiedIdx;
      return true;
    }
  }
}

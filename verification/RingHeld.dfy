/** What the consumer holds stays as it is, whatever the producer does. */
module RingHeld {
  import opened Bits
  import opened Wrappers
  import opened Regions
  import opened PacketRing
  import opened RingSafety
  import opened RingQueue
  import opened RingRun

  predicate IsProducers(op: Op) {
    op.OpPutStart? || op.OpFill? || op.OpPutEnd? || op.OpInvalidate?
  }

  /** All packets queued in `r` are queued in `s`, in the same places and with the same bytes, and
      the consumer holds what it held. */
  predicate Undisturbed(r: Ring, s: Ring)
    requires Shape(r) && Shape(s)
  {
    && s.rp == r.rp && s.posRead == r.posRead && s.posReadNum == r.posReadNum
    && |s.pos| == |r.pos| && |s.data| == |r.data| && Count(s) >= Count(r)
    && (forall i :: 0 <= i < Count(r) ==> Queued(s, i) == Queued(r, i) && SameBytes(r.data, s.data, Queued(r, i)))
  }

  predicate SameBytes(a: seq<byte>, b: seq<byte>, p: Pos) {
    InData(p, |a|) && InData(p, |b|) && a[p.offset..p.offset + p.realSize] == b[p.offset..p.offset + p.realSize]
  }

  lemma PutStartLeaves(r: Ring, least: nat, size: nat)
    requires Inv(r, least) && !r.locked && size >= least && !GapOverrun(r, size)
    ensures Shape(PutStart(r, size).r) && Undisturbed(r, PutStart(r, size).r)
  {
  }

  lemma FillLeaves(r: Ring, least: nat, at: nat, bytes: seq<byte>)
    requires Inv(r, least) && r.locked && at + |bytes| <= r.pos[r.wp].realSize
    ensures Shape(Fill(r, at, bytes)) && Undisturbed(r, Fill(r, at, bytes))
  {
    FillKeepsShape(r, at, bytes);
    SlotOfCount(r);
    NeverFull(r, least);
    forall i | 0 <= i < Count(r)
      ensures SameBytes(r.data, Fill(r, at, bytes).data, Queued(r, i))
    {
      LaidOutApart(Live(r), least, |r.data|, i, Count(r));
      assert Live(r)[i] == RegionOf(Queued(r, i)) && Live(r)[Count(r)] == RegionOf(r.pos[r.wp]);
      SameElsewhere(r.data, r.pos[r.wp].offset + at, bytes, Queued(r, i).offset, Queued(r, i).realSize);
    }
  }

  lemma PutEndLeaves(r: Ring, least: nat, size: nat, flags: int, timestamp: int)
    requires Inv(r, least) && r.locked
    ensures Shape(PutEnd(r, size, flags, timestamp)) && Undisturbed(r, PutEnd(r, size, flags, timestamp))
  {
    PutEndKeepsInv(r, least, size, flags, timestamp);
    forall i | 0 <= i < Count(r)
      ensures SameBytes(r.data, r.data, Queued(r, i))
    {
      assert InData(Queued(r, i), |r.data|);
    }
  }

  /** No step of the producer, and no Invalidate, moves or changes a queued packet. */
  lemma StepLeaves(r: Ring, op: Op, least: nat)
    requires Inv(r, least) && InProtocol(r, op) && Safe(r, op, least) && IsProducers(op)
    ensures Undisturbed(r, Next(r, op))
  {
    match op {
      case OpPutStart(size) => PutStartLeaves(r, least, size);
      case OpFill(at, bytes) => FillLeaves(r, least, at, bytes);
      case OpPutEnd(stored, flags, timestamp) => PutEndLeaves(r, least, stored, flags, timestamp);
      case OpInvalidate =>
        forall i | 0 <= i < Count(r)
          ensures SameBytes(r.data, r.data, Queued(r, i))
        {
          assert InData(Queued(r, i), |r.data|);
        }
    }
  }

  lemma UndisturbedThen(r: Ring, s: Ring, e: Ring)
    requires Shape(r) && Shape(s) && Shape(e) && Undisturbed(r, s) && Undisturbed(s, e)
    ensures Undisturbed(r, e)
  {
  }

  /** An undisturbed consumer that asks again is given the same. */
  lemma GivenAgain(r: Ring, e: Ring, least: nat)
    requires Inv(r, least) && Shape(e) && Undisturbed(r, e)
    ensures r.posRead.Some? ==> GetStart(e).out == GetStart(r).out
  {
    if r.posRead.Some? {
      assert Queued(e, Cursor(r)) == Queued(r, Cursor(r));
    }
  }

  /** After a coalesced read a further GetStart gives one of the held packets if and only if the whole
      queue is held; otherwise it gives the packet behind them. */
  lemma GivenAfterMultiple(r: Ring, least: nat, maxsize: int)
    requires Inv(r, least) && r.posRead.None? && !r.invalidate && r.rp != r.wp
    ensures var h := GetStartMultiple(r, maxsize).r;
            && Inv(h, least)
            && var f := Abs(h);
               && 1 <= f.held <= |f.queue| && f.queue == Packets(r)
               && f.cursor == (if f.held == |f.queue| then f.held - 1 else f.held)
               && Abs(GetStart(h).r) == f && Gives(h, GetStart(h).out, f.queue[f.cursor], None)
  {
    TakeMultipleRefines(r, least, maxsize);
    GetStartRefines(GetStartMultiple(r, maxsize).r, least);
  }

  /** Between GetStart and GetEnd the producer may do what it likes: the packets the consumer has
      been given stay where they are, byte for byte. */
  lemma {:induction false} HeldStays(r: Ring, ops: seq<Op>, least: nat)
    requires Inv(r, least) && Follows(r, ops) && AllSafe(r, ops, least)
    requires forall i :: 0 <= i < |ops| ==> IsProducers(ops[i])
    ensures Undisturbed(r, RunRing(r, ops))
    ensures r.posRead.Some? ==> GetStart(RunRing(r, ops)).out == GetStart(r).out
    decreases |ops|
  {
    var e := RunRing(r, ops);
    if ops == [] {
      forall i | 0 <= i < Count(r)
        ensures SameBytes(r.data, r.data, Queued(r, i))
      {
        assert InData(Queued(r, i), |r.data|);
      }
    } else {
      var s := Next(r, ops[0]);
      StepLeaves(r, ops[0], least);
      StepRefines(r, ops[0], least);
      HeldStays(s, ops[1..], least);
      UndisturbedThen(r, s, e);
    }
    GivenAgain(r, e, least);
  }
}

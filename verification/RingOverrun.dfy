/** What goes wrong when a wrapped producer meets a lagging reader, in the buffer that the plugin
    builds. */
module RingOverrun {
  import opened Bits
  import opened Wrappers
  import opened PacketRing
  import opened RingSafety
  import opened RingQueue
  import opened RingRun

  /** If the gap is overrun, the bytes of the oldest packet can be overwritten while it is queued:
      the producer's first-run offset lies in the region of that packet. */
  lemma OverrunOverwrites(r: Ring, least: nat, size: nat)
    requires Inv(r, least) && !r.locked && size >= 1 && GapOverrun(r, size)
    ensures var s := PutStart(r, size);
            var oldest := r.pos[r.rp];
            && s.out.Granted?
            && s.out.offset <= oldest.offset < s.out.offset + size
  {
    FindSpaceByRegions(r, least, size);
  }

  // --- Runs of the plugin's buffer -----------------------------------------

  const PACKET: nat := 188

  /** The buffer for 10000 transport packets. */
  function NewBuffer(): Ring {
    Fresh(10000 * PACKET, 10000)
  }

  predicate OfPackets(ops: seq<Op>) {
    forall i :: 0 <= i < |ops| && ops[i].OpPutStart? ==> ops[i].size == PACKET
  }

  /** The plugin's buffer can get into state `r` while only transport packets are put, and so far no
      gap has been overrun. */
  ghost predicate Reached(r: Ring) {
    && Shape(NewBuffer())
    && exists ops :: Follows(NewBuffer(), ops) && AllSafe(NewBuffer(), ops, PACKET) && OfPackets(ops)
                     && r == RunRing(NewBuffer(), ops)
  }

  lemma {:induction false} RunSnoc(r: Ring, ops: seq<Op>, op: Op, least: nat)
    requires Shape(r) && Follows(r, ops) && AllSafe(r, ops, least)
    requires InProtocol(RunRing(r, ops), op) && Safe(RunRing(r, ops), op, least)
    ensures Follows(r, ops + [op]) && AllSafe(r, ops + [op], least)
    ensures RunRing(r, ops + [op]) == Next(RunRing(r, ops), op)
    decreases |ops|
  {
    if ops == [] {
      assert ops + [op] == [op] && [op][1..] == [];
    } else {
      assert (ops + [op])[0] == ops[0] && (ops + [op])[1..] == ops[1..] + [op];
      RunSnoc(Next(r, ops[0]), ops[1..], op, least);
    }
  }

  lemma ReachedThen(r: Ring, op: Op)
    requires Reached(r) && Shape(r) && InProtocol(r, op) && Safe(r, op, PACKET)
    requires op.OpPutStart? ==> op.size == PACKET
    ensures Reached(Take(r, op).r)
  {
    var ops :| Follows(NewBuffer(), ops) && AllSafe(NewBuffer(), ops, PACKET) && OfPackets(ops)
               && r == RunRing(NewBuffer(), ops);
    RunSnoc(NewBuffer(), ops, op, PACKET);
    assert OfPackets(ops + [op]);
  }

  lemma NewReached()
    ensures Reached(NewBuffer()) && Inv(NewBuffer(), PACKET) && |NewBuffer().pos| == 16384
    ensures Packets(NewBuffer()) == []
  {
    TransportBufferInv();
    FreshInv(10000 * PACKET, 10000, PACKET);
    assert Follows(NewBuffer(), []) && NewBuffer() == RunRing(NewBuffer(), []);
  }

  lemma ShapeOf(r: Ring)
    requires Inv(r, PACKET)
    ensures Shape(r)
  {
  }

  // --- One packet put, one packet read -------------------------------------

  function PutOps(bytes: seq<byte>): seq<Op> {
    [OpPutStart(|bytes|), OpFill(0, bytes), OpPutEnd(|bytes|, 0, 0)]
  }

  /** The state after PutStart, Fill and PutEnd of one packet. */
  function Put(r: Ring, bytes: seq<byte>): Ring
    requires Shape(r) && !r.locked && FindSpace(r, |bytes|) != -1
  {
    PutStartKeepsShape(r, |bytes|);
    var s := PutStart(r, |bytes|).r;
    FillKeepsShape(s, 0, bytes);
    PutEnd(Fill(s, 0, bytes), |bytes|, 0, 0)
  }

  lemma PutResult(r: Ring, bytes: seq<byte>, o: nat)
    requires Shape(r) && !r.locked && FindSpace(r, |bytes|) == o
    ensures o + |bytes| <= |r.data|
    ensures Put(r, bytes) ==
      r.(data := r.data[..o] + bytes + r.data[o + |bytes|..],
         pos := r.pos[r.wp := Pos(o, |bytes|, |bytes|, 0, 0)],
         posWrite := Some(r.wp), wp := Wrap(r.wp + 1, |r.pos|))
  {
  }

  lemma RunCons(r: Ring, op: Op, ops: seq<Op>)
    requires Shape(r) && InProtocol(r, op) && Follows(Next(r, op), ops)
    ensures Follows(r, [op] + ops) && RunRing(r, [op] + ops) == RunRing(Next(r, op), ops)
  {
    assert ([op] + ops)[1..] == ops;
  }

  lemma PutIsRun(r: Ring, bytes: seq<byte>)
    requires Shape(r) && !r.locked && FindSpace(r, |bytes|) != -1
    ensures Follows(r, PutOps(bytes)) && RunRing(r, PutOps(bytes)) == Put(r, bytes)
  {
    var ops := PutOps(bytes);
    var a := Next(r, ops[0]);
    var b := Next(a, ops[1]);
    RunCons(b, ops[2], []);
    RunCons(a, ops[1], [ops[2]]);
    RunCons(r, ops[0], [ops[1], ops[2]]);
  }

  /** A packet that is put safely is queued as it was given. */
  lemma PutQueues(r: Ring, bytes: seq<byte>)
    requires Reached(r) && Inv(r, PACKET) && !r.locked && |bytes| == PACKET
    requires FindSpace(r, PACKET) != -1 && !GapOverrun(r, PACKET)
    ensures var e := Put(r, bytes);
            && Reached(e) && Inv(e, PACKET)
            && Packets(e) == Packets(r) + [Packet(bytes, 0, 0, true)]
  {
    hide Inv, Abs, Shape, FindSpace, GapOverrun, Reached;
    ShapeOf(r);
    PutStartRefines(r, PACKET, PACKET);
    ReachedThen(r, OpPutStart(PACKET));
    PutReserved(PutStart(r, PACKET).r, bytes);
  }

  lemma PutReserved(s: Ring, bytes: seq<byte>)
    requires Reached(s) && Inv(s, PACKET) && s.locked && s.pos[s.wp].realSize == PACKET == |bytes|
    ensures var f := Fill(s, 0, bytes);
            && Inv(f, PACKET) && f.locked
            && var e := PutEnd(f, PACKET, 0, 0);
               && Reached(e) && Inv(e, PACKET)
               && Packets(e) == Packets(s) + [Packet(bytes, 0, 0, true)]
  {
    hide Reached;
    var f := Fill(s, 0, bytes);
    FillRefines(s, PACKET, 0, bytes);
    ReachedThen(s, OpFill(0, bytes));
    assert |Reserved(s).value| == PACKET;
    assert Reserved(f).value == bytes;
    PutEndRefines(f, PACKET, PACKET, 0, 0);
    ReachedThen(f, OpPutEnd(PACKET, 0, 0));
  }

  /** The state after one packet has been read. */
  function Read(r: Ring): Ring
    requires Shape(r)
  {
    r.(rp := Wrap(r.rp + 1, |r.pos|), posRead := None, posReadNum := 0)
  }

  lemma ReadRemoves(r: Ring)
    requires Reached(r) && Inv(r, PACKET) && r.posRead.None? && !r.invalidate && r.rp != r.wp
    ensures Reached(Read(r)) && Inv(Read(r), PACKET) && Packets(Read(r)) == Packets(r)[1..]
  {
    hide Reached, Live, InData;
    var h := GetStart(r).r;
    GetStartRefines(r, PACKET);
    ReachedThen(r, OpGetStart);
    GetEndRefines(h, PACKET);
    ReachedThen(h, OpGetEnd);
  }

  // --- The lagging reader --------------------------------------------------

  predicate AllPackets(bs: seq<seq<byte>>) {
    forall i :: 0 <= i < |bs| ==> |bs[i]| == PACKET
  }

  function Queue(bs: seq<seq<byte>>): (q: seq<Packet>)
    ensures |q| == |bs| && forall i :: 0 <= i < |bs| ==> q[i] == Packet(bs[i], 0, 0, true)
  {
    seq(|bs|, i requires 0 <= i < |bs| => Packet(bs[i], 0, 0, true))
  }

  /** Nothing is held, and the descriptors from `from` to before `to` lie one behind the other from the
      start of the data area. */
  predicate InRow(r: Ring, from: nat, to: nat) {
    && |r.data| == 10000 * PACKET && |r.pos| == 16384 && from <= to < 10000
    && r.rp == from && !r.locked && r.posRead.None? && !r.invalidate
    && forall i :: from <= i < to ==> r.pos[i].offset == PACKET * i && r.pos[i].size == PACKET == r.pos[i].realSize
  }

  /** The buffer has room for 9999 packets in one run. */
  lemma {:induction false} FilledUp(bs: seq<seq<byte>>) returns (r: Ring)
    requires |bs| <= 9999 && AllPackets(bs)
    ensures Reached(r) && Inv(r, PACKET) && Packets(r) == Queue(bs) && InRow(r, 0, |bs|) && r.wp == |bs|
    decreases |bs|
  {
    if bs == [] {
      NewReached();
      r := NewBuffer();
    } else {
      hide Inv, Reached;
      var k := |bs| - 1;
      var a := FilledUp(bs[..k]);
      assert FindSpace(a, PACKET) == PACKET * k && !GapOverrun(a, PACKET);
      PutQueues(a, bs[k]);
      PutResult(a, bs[k], PACKET * k);
      r := Put(a, bs[k]);
      assert Queue(bs) == Queue(bs[..k]) + [Packet(bs[k], 0, 0, true)];
    }
  }

  /** The buffer is full in one run, and two packets have been read. */
  lemma TwoRead(bs: seq<seq<byte>>) returns (r: Ring)
    requires |bs| == 9999 && AllPackets(bs)
    ensures Reached(r) && Inv(r, PACKET) && Packets(r) == Queue(bs)[2..] && InRow(r, 2, 9999) && r.wp == 9999
  {
    hide Inv, Reached;
    var a := FilledUp(bs);
    ShapeOf(a);
    ReadRemoves(a);
    var b := Read(a);
    ShapeOf(b);
    ReadRemoves(b);
    r := Read(b);
    assert Queue(bs)[1..][1..] == Queue(bs)[2..];
  }

  /** Two more packets have been put, at the start of the data area. The gap is used up. */
  predicate Lagging(r: Ring)
    requires Shape(r)
  {
    && r.rp == 2 && r.wp == 10001 && |r.pos| == 16384 && !r.locked && r.posRead.None? && !r.invalidate
    && r.pos[r.rp].offset == 2 * PACKET && r.pos[r.rp].size == PACKET
    && GapOverrun(r, PACKET) && FindSpace(r, PACKET) == 2 * PACKET
  }

  lemma LaggingReached(bs: seq<seq<byte>>, x: seq<byte>, y: seq<byte>) returns (r: Ring)
    requires |bs| == 9999 && AllPackets(bs) && |x| == PACKET == |y|
    ensures Reached(r) && Inv(r, PACKET) && Lagging(r)
    ensures Packets(r) == Queue(bs)[2..] + [Packet(x, 0, 0, true)] + [Packet(y, 0, 0, true)]
  {
    hide Inv, Reached;
    var a := TwoRead(bs);
    assert Shape(a) && FindSpace(a, PACKET) == 0 && !GapOverrun(a, PACKET) by {
      ShapeOf(a);
    }
    PutQueues(a, x);
    PutResult(a, x, 0);
    var b := Put(a, x);
    ShapeOf(b);
    assert FindSpace(b, PACKET) == PACKET && !GapOverrun(b, PACKET);
    PutQueues(b, y);
    PutResult(b, y, PACKET);
    r := Put(b, y);
    ShapeOf(r);
  }

  /** A lagging reader is overwritten. The layout is in order and no gap has been overrun so far; yet the
      next packet is put where the oldest queued packet lies, and the reader gets the newest packet in
      place of the oldest. */
  lemma LaggingReaderOverwritten(bs: seq<seq<byte>>, x: seq<byte>, y: seq<byte>, next: seq<byte>) returns (r: Ring)
    requires |bs| == 9999 && AllPackets(bs) && |x| == PACKET == |y| && |next| == PACKET
    ensures Reached(r) && Inv(r, PACKET) && Packets(r) != [] && Packets(r)[0].bytes == bs[2]
    ensures Follows(r, PutOps(next))
    ensures var e := RunRing(r, PutOps(next));
            && GetStart(e).out == Got(2 * PACKET, PACKET, 0, Some(0)) && 3 * PACKET <= |e.data|
            && e.data[2 * PACKET..3 * PACKET] == next
  {
    r := LaggingReached(bs, x, y);
    PutIsRun(r, next);
    PutResult(r, next, 2 * PACKET);
    assert Packets(r)[0] == Queue(bs)[2] && Packets(r)[0] == PacketOf(Queued(r, 0), r.data);
    assert Queued(r, 0) == r.pos[r.rp] && r.pos[r.rp].flags == 0 == r.pos[r.rp].timestamp;
    var e := Put(r, next);
    assert e.data[2 * PACKET..3 * PACKET] == next;
  }
}

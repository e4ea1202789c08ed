/** The packet buffer behaves as a first-in first-out queue of byte strings. */
module RingQueue {
  import opened Bits
  import opened Wrappers
  import opened Regions
  import opened PacketRing
  import opened RingSafety

  /** `whole`: the packet was stored with the size that was reserved for it. */
  datatype Packet = Packet(bytes: seq<byte>, flags: int, timestamp: int, whole: bool)

  /** The specification: a queue, a region that the producer is filling, and how many packets at the
      head of the queue the consumer holds (`cursor` is the one posRead points to). */
  datatype Fifo = Fifo(queue: seq<Packet>, reserved: Option<seq<byte>>, held: nat, cursor: nat, invalidate: bool)

  function PacketOf(p: Pos, data: seq<byte>): Packet
    requires InData(p, |data|) && 0 <= p.size <= p.realSize
  {
    Packet(data[p.offset..p.offset + p.size], p.flags, p.timestamp, p.size == p.realSize)
  }

  function Packets(r: Ring): (q: seq<Packet>)
    requires Shape(r) && SizesFit(r)
    ensures |q| == Count(r)
    ensures forall i :: 0 <= i < Count(r) ==> q[i] == PacketOf(Queued(r, i), r.data)
  {
    seq(Count(r), i requires 0 <= i < Count(r) => PacketOf(Queued(r, i), r.data))
  }

  function Reserved(r: Ring): Option<seq<byte>>
    requires Shape(r)
  {
    if r.locked then
      var p := r.pos[r.wp];
      assert InData(p, |r.data|);
      Some(r.data[p.offset..p.offset + p.realSize])
    else None
  }

  function Abs(r: Ring): Fifo
    requires Shape(r) && SizesFit(r)
  {
    Fifo(Packets(r), Reserved(r),
         if r.posRead.Some? then r.posReadNum else 0,
         if r.posRead.Some? then Cursor(r) else 0,
         r.invalidate)
  }

  // --- The producer ------------------------------------------------------

  /** A granted PutStart adds the reserved region to the layout and changes nothing in the queue. */
  lemma PutStartRefines(r: Ring, least: nat, size: nat)
    requires Inv(r, least) && !r.locked && size >= least && !GapOverrun(r, size)
    ensures var s := PutStart(r, size);
            && Inv(s.r, least)
            && if s.out == Refused then s.r == r
               else s.r.locked && s.r.pos[r.wp].realSize == size
                    && Packets(s.r) == Packets(r)
                    && Abs(s.r) == Abs(r).(reserved := Reserved(s.r))
  {
    var s := PutStart(r, size);
    PutStartKeepsShape(r, size);
    if s.out != Refused {
      PlacedLaidOut(r, least, size);
      SlotOfCount(r);
      forall i: nat | i < Count(r)
        ensures Queued(s.r, i) == Queued(r, i)
      {
        SlotsDiffer(r, i, Count(r));
      }
      assert Live(s.r) == Live(r) + [Region(FindSpace(r, size), size)];
    }
  }

  lemma FillKeepsInv(r: Ring, least: nat, at: nat, bytes: seq<byte>)
    requires Inv(r, least) && r.locked && at + |bytes| <= r.pos[r.wp].realSize
    ensures Inv(Fill(r, at, bytes), least)
  {
    FillKeepsShape(r, at, bytes);
    assert Live(Fill(r, at, bytes)) == Live(r);
  }

  lemma FillKeepsPacket(r: Ring, least: nat, at: nat, bytes: seq<byte>, i: nat)
    requires Inv(r, least) && r.locked && at + |bytes| <= r.pos[r.wp].realSize && i < Count(r)
    ensures var data := Fill(r, at, bytes).data;
            |data| == |r.data| && PacketOf(Queued(r, i), data) == PacketOf(Queued(r, i), r.data)
  {
    SlotOfCount(r);
    NeverFull(r, least);
    LaidOutApart(Live(r), least, |r.data|, i, Count(r));
    assert Live(r)[i] == RegionOf(Queued(r, i)) && Live(r)[Count(r)] == RegionOf(r.pos[r.wp]);
    SameElsewhere(r.data, r.pos[r.wp].offset + at, bytes, Queued(r, i).offset, Queued(r, i).size);
  }

  lemma SameElsewhere(a: seq<byte>, at: nat, bytes: seq<byte>, o: nat, len: nat)
    requires at + |bytes| <= |a| && o + len <= |a|
    requires o + len <= at || at + |bytes| <= o
    ensures (a[..at] + bytes + a[at + |bytes|..])[o..o + len] == a[o..o + len]
  {
  }

  /** Writing into the reserved region changes no queued packet. */
  lemma FillRefines(r: Ring, least: nat, at: nat, bytes: seq<byte>)
    requires Inv(r, least) && r.locked && at + |bytes| <= r.pos[r.wp].realSize
    ensures var f := Fill(r, at, bytes);
            && Inv(f, least) && Packets(f) == Packets(r)
            && Reserved(f) == Some(Overwrite(Reserved(r).value, at, bytes))
            && Abs(f) == Abs(r).(reserved := Reserved(f))
  {
    var f := Fill(r, at, bytes);
    FillKeepsInv(r, least, at, bytes);
    forall i: nat | i < Count(r)
      ensures PacketOf(Queued(f, i), f.data) == PacketOf(Queued(r, i), r.data)
    {
      FillKeepsPacket(r, least, at, bytes, i);
    }
    assert Packets(f) == Packets(r);
    var p := r.pos[r.wp];
    assert InData(p, |r.data|);
    OverwriteWithin(r.data, p.offset, p.realSize, at, bytes);
  }

  function Overwrite(s: seq<byte>, at: nat, bytes: seq<byte>): seq<byte>
    requires at + |bytes| <= |s|
  {
    s[..at] + bytes + s[at + |bytes|..]
  }

  lemma OverwriteWithin(a: seq<byte>, o: nat, len: nat, at: nat, bytes: seq<byte>)
    requires o + len <= |a| && at + |bytes| <= len
    ensures (a[..o + at] + bytes + a[o + at + |bytes|..])[o..o + len] == Overwrite(a[o..o + len], at, bytes)
  {
  }

  function Stored(reserved: seq<byte>, size: nat): seq<byte> {
    if size > |reserved| then reserved else reserved[..size]
  }

  function PutPacket(reserved: seq<byte>, size: nat, flags: int, timestamp: int): Packet {
    Packet(Stored(reserved, size), flags, timestamp, size >= |reserved|)
  }

  lemma PutEndKeepsInv(r: Ring, least: nat, size: nat, flags: int, timestamp: int)
    requires Inv(r, least) && r.locked
    ensures var e := PutEnd(r, size, flags, timestamp);
            && Inv(e, least) && Count(e) == Count(r) + 1
            && (forall i: nat :: i < Count(r) ==> Queued(e, i) == Queued(r, i))
            && Queued(e, Count(r)) == e.pos[r.wp]
  {
    hide LaidOut, Sized;
    var e := PutEnd(r, size, flags, timestamp);
    NeverFull(r, least);
    SlotOfCount(r);
    assert Count(e) == Count(r) + 1;
    assert InData(r.pos[r.wp], |r.data|);
    forall i: nat | i < Count(r)
      ensures Queued(e, i) == Queued(r, i)
    {
      SlotsDiffer(r, i, Count(r));
    }
    assert Queued(e, Count(r)) == e.pos[r.wp];
    assert Live(e) == Live(r);
  }

  lemma PutEndAppends(r: Ring, least: nat, size: nat, flags: int, timestamp: int)
    requires Inv(r, least) && r.locked
    ensures var e := PutEnd(r, size, flags, timestamp);
            && Inv(e, least) && Reserved(r).Some?
            && Packets(e) == Packets(r) + [PutPacket(Reserved(r).value, size, flags, timestamp)]
  {
    var e := PutEnd(r, size, flags, timestamp);
    PutEndKeepsInv(r, least, size, flags, timestamp);
    assert InData(r.pos[r.wp], |r.data|);
    var p := e.pos[r.wp];
    assert r.data[p.offset..p.offset + p.size] == Stored(Reserved(r).value, size);
    assert PacketOf(p, r.data) == PutPacket(Reserved(r).value, size, flags, timestamp);
  }

  /** PutEnd appends the first `size` reserved bytes to the queue. */
  lemma PutEndRefines(r: Ring, least: nat, size: nat, flags: int, timestamp: int)
    requires Inv(r, least) && r.locked
    ensures var e := PutEnd(r, size, flags, timestamp);
            && Inv(e, least) && Reserved(r).Some?
            && Abs(e) == Abs(r).(queue := Packets(r) + [PutPacket(Reserved(r).value, size, flags, timestamp)],
                                 reserved := None)
  {
    PutEndAppends(r, least, size, flags, timestamp);
  }

  // --- The consumer ------------------------------------------------------

  /** Moving the read index over `n` packets removes them from the front. */
  lemma AdvanceRefines(r: Ring, least: nat, n: nat, a: Ring)
    requires Inv(r, least) && n <= Count(r)
    requires a == r.(rp := Wrap(r.rp + n, |r.pos|), posRead := None, posReadNum := a.posReadNum, invalidate := a.invalidate)
    requires a.posReadNum <= |r.pos|
    ensures Inv(a, least) && Packets(a) == Packets(r)[n..] && Reserved(a) == Reserved(r)
  {
    assert Count(a) == Count(r) - n;
    forall i: nat | i + n < |r.pos|
      ensures Slot(a, i) == Slot(r, i + n)
    {
    }
    NeverFull(r, least);
    assert Live(a) == Live(r)[n..];
    LaidOutDrop(Live(r), n, least, |r.data|);
  }

  lemma GetEndRefines(r: Ring, least: nat)
    requires Inv(r, least)
    ensures var e := GetEnd(r);
            && Inv(e, least)
            && Abs(e) == if Abs(r).held == 0 then Abs(r)
                         else Abs(r).(queue := Packets(r)[Abs(r).held..], held := 0, cursor := 0)
  {
    if r.posRead.Some? {
      AdvanceRefines(r, least, r.posReadNum, GetEnd(r));
    }
  }

  /** A pending Invalidate empties the queue. */
  lemma DropAllRefines(r: Ring, least: nat)
    requires Inv(r, least) && r.posRead.None?
    ensures var d := r.(rp := r.wp, invalidate := false);
            Inv(d, least) && Abs(d) == Abs(r).(queue := [], invalidate := false)
  {
    SlotOfCount(r);
    AdvanceRefines(r, least, Count(r), r.(rp := r.wp, invalidate := false));
  }

  /** Holding packets changes nothing in the queue. */
  lemma HoldRefines(r: Ring, least: nat, n: nat, cursor: nat)
    requires Inv(r, least) && r.posRead.None? && 1 <= n <= Count(r) && cursor < Count(r)
    ensures var h := r.(posRead := Some(Slot(r, cursor)), posReadNum := n);
            Inv(h, least) && Abs(h) == Abs(r).(held := n, cursor := cursor)
  {
    hide LaidOut, Sized;
    var h := r.(posRead := Some(Slot(r, cursor)), posReadNum := n);
    assert forall i: nat :: i < |r.pos| ==> Queued(h, i) == Queued(r, i);
    assert Live(h) == Live(r);
    assert Packets(h) == Packets(r);
  }

  /** GetStart gives the packet that is held, or takes the one at the head of the queue. A pending
      Invalidate empties the queue instead, unless a packet is held. */
  lemma GetStartRefines(r: Ring, least: nat)
    requires Inv(r, least)
    ensures var s := GetStart(r);
            var f := Abs(r);
            && Inv(s.r, least)
            && (if f.held > 0 then
                  Abs(s.r) == f && Gives(r, s.out, f.queue[f.cursor], None)
                else if f.invalidate then
                  Abs(s.r) == f.(queue := [], invalidate := false) && s.out == Null
                else if f.queue == [] then
                  Abs(s.r) == f && s.out == Null
                else
                  Abs(s.r) == f.(held := 1, cursor := 0) && Gives(r, s.out, f.queue[0], Some(f.queue[0].timestamp)))
  {
    var s := GetStart(r);
    if r.posRead.Some? {
    } else if r.invalidate {
      DropAllRefines(r, least);
    } else if r.rp == r.wp {
      EmptyQueueRefines(r, least);
    } else {
      HoldRefines(r, least, 1, 0);
    }
  }

  lemma EmptyQueueRefines(r: Ring, least: nat)
    requires Inv(r, least) && r.posRead.None? && r.rp == r.wp
    ensures var e := r.(posReadNum := 1);
            Inv(e, least) && Abs(e) == Abs(r) && Abs(r).queue == []
  {
    var e := r.(posReadNum := 1);
    assert Live(e) == Live(r);
    assert Packets(e) == Packets(r);
  }

  /** `out` is a region of the data area that holds the packet. */
  predicate Gives(r: Ring, out: Out, p: Packet, timestamp: Option<int>) {
    && out.Got? && 0 <= out.offset && 0 <= out.size && out.offset + out.size <= |r.data|
    && r.data[out.offset..out.offset + out.size] == p.bytes && out.flags == p.flags && out.timestamp == timestamp
  }
}

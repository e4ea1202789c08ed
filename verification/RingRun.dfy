/** Whole runs of the packet buffer: every interleaving of producer and consumer steps. */
module RingRun {
  import opened Bits
  import opened Wrappers
  import opened Regions
  import opened PacketRing
  import opened RingSafety
  import opened RingQueue

  datatype Op =
    | OpPutStart(size: nat)
    | OpFill(at: nat, bytes: seq<byte>)
    | OpPutEnd(stored: nat, flags: int, timestamp: int)
    | OpGetStart
    | OpGetStartMultiple(maxsize: int)
    | OpGetEnd
    | OpInvalidate

  /** When a step can be taken. The producer alternates PutStart and PutEnd and writes only in
      between and only into its region; GetStartMultiple follows a GetEnd. */
  predicate InProtocol(r: Ring, op: Op)
    requires Shape(r)
  {
    match op
    case OpPutStart(size) => !r.locked
    case OpFill(at, bytes) => r.locked && at + |bytes| <= r.pos[r.wp].realSize
    case OpPutEnd(_, _, _) => r.locked
    case OpGetStartMultiple(_) => r.posRead.None?
    case _ => true
  }

  /** The packets are not too small, and a wrapped producer finds a big enough gap. */
  predicate Safe(r: Ring, op: Op, least: nat)
    requires Shape(r)
  {
    op.OpPutStart? ==> op.size >= least && !GapOverrun(r, op.size)
  }

  function Take(r: Ring, op: Op): Step
    requires Shape(r) && InProtocol(r, op)
  {
    match op
    case OpPutStart(size) => PutStart(r, size)
    case OpFill(at, bytes) => Step(Fill(r, at, bytes), Done)
    case OpPutEnd(stored, flags, timestamp) => Step(PutEnd(r, stored, flags, timestamp), Done)
    case OpGetStart => GetStart(r)
    case OpGetStartMultiple(maxsize) => GetStartMultiple(r, maxsize)
    case OpGetEnd => Step(GetEnd(r), Done)
    case OpInvalidate => Step(Invalidate(r), Done)
  }

  /** What the caller sees: the bytes in the region he is given. */
  datatype Seen = SeenDone | SeenRefused | SeenGranted | SeenNull | SeenGarbage
    | SeenBytes(bytes: seq<byte>, flags: int, timestamp: Option<int>)

  function See(r: Ring, out: Out): Seen {
    match out
    case Done => SeenDone
    case Refused => SeenRefused
    case Granted(_) => SeenGranted
    case Null => SeenNull
    case Got(offset, size, flags, timestamp) =>
      if 0 <= offset && 0 <= size && offset + size <= |r.data|
      then SeenBytes(r.data[offset..offset + size], flags, timestamp)
      else SeenGarbage
  }

  function AllBytes(q: seq<Packet>): seq<byte> {
    if q == [] then [] else AllBytes(q[..|q| - 1]) + q[|q| - 1].bytes
  }

  /** GetStartMultiple takes the first `k` packets of the queue together. */
  predicate Coalesced(q: seq<Packet>, maxsize: int, k: nat, seen: Seen) {
    && 1 <= k <= |q| && seen.SeenBytes? && seen.flags == q[0].flags && seen.timestamp == Some(q[0].timestamp)
    && (forall i :: 1 <= i < k ==> q[i].flags == 0)
    && ((forall i :: 0 <= i < k ==> q[i].whole) ==>
        seen.bytes == AllBytes(q[..k]) && (k == 1 || |seen.bytes| <= maxsize))
  }

  /** The specification of every step on the queue. */
  ghost predicate FifoStep(f: Fifo, op: Op, seen: Seen, g: Fifo) {
    match op
    case OpPutStart(size) =>
      || (seen == SeenRefused && g == f)
      || (seen == SeenGranted && g.reserved.Some? && |g.reserved.value| == size && g == f.(reserved := g.reserved))
    case OpFill(at, bytes) =>
      && f.reserved.Some? && at + |bytes| <= |f.reserved.value|
      && seen == SeenDone && g == f.(reserved := Some(Overwrite(f.reserved.value, at, bytes)))
    case OpPutEnd(stored, flags, timestamp) =>
      && f.reserved.Some? && seen == SeenDone
      && g == f.(queue := f.queue + [PutPacket(f.reserved.value, stored, flags, timestamp)], reserved := None)
    case OpGetStart =>
      if f.held > 0 then
        g == f && f.cursor < |f.queue| && seen == SeenBytes(f.queue[f.cursor].bytes, f.queue[f.cursor].flags, None)
      else if f.invalidate then g == f.(queue := [], invalidate := false) && seen == SeenNull
      else if f.queue == [] then g == f && seen == SeenNull
      else
        && g == f.(held := 1, cursor := 0)
        && seen == SeenBytes(f.queue[0].bytes, f.queue[0].flags, Some(f.queue[0].timestamp))
    case OpGetStartMultiple(maxsize) =>
      && f.held == 0
      && if f.invalidate then g == f.(queue := [], invalidate := false) && seen == SeenNull
         else if f.queue == [] then g == f && seen == SeenNull
         else exists k: nat :: Coalesced(f.queue, maxsize, k, seen)
                          && g == f.(held := k, cursor := if k < |f.queue| then k else k - 1)
    case OpGetEnd =>
      && seen == SeenDone && f.held <= |f.queue|
      && g == if f.held == 0 then f else f.(queue := f.queue[f.held..], held := 0, cursor := 0)
    case OpInvalidate => seen == SeenDone && g == f.(invalidate := true)
  }

  // --- Coalesced reading -------------------------------------------------

  /** A region begins where the one before it ends, or at the start of the data area. */
  lemma NextRegion(rs: seq<Region>, i: nat)
    requires LaidOut(rs) && 0 < i < |rs|
    ensures rs[i].off == rs[i - 1].off + rs[i - 1].len || rs[i].off == 0
  {
  }

  /** A packet that seems to follow the one before it does so without a gap. */
  predicate Tight(r: Ring)
    requires Shape(r)
  {
    forall k: nat :: 0 < k < Count(r) && Queued(r, k - 1).offset + Queued(r, k).size == Queued(r, k).offset ==>
      Queued(r, k).offset == Queued(r, k - 1).offset + Queued(r, k - 1).realSize
  }

  lemma InvTight(r: Ring, least: nat)
    requires Inv(r, least)
    ensures Tight(r) && SizesFit(r)
  {
    var rs := Live(r);
    forall k: nat | 0 < k < Count(r) && Queued(r, k - 1).offset + Queued(r, k).size == Queued(r, k).offset
      ensures Queued(r, k).offset == Queued(r, k - 1).offset + Queued(r, k - 1).realSize
    {
      NextRegion(rs, k);
      LaidOutApart(rs, least, |r.data|, k - 1, k);
      assert rs[k] == RegionOf(Queued(r, k)) && rs[k - 1] == RegionOf(Queued(r, k - 1));
    }
  }

  /** The first `k` packets, `total` bytes, stay inside the data area and below `maxsize`. */
  predicate Bounded(r: Ring, k: nat, total: int, maxsize: int)
    requires Shape(r)
  {
    && 1 <= k <= Count(r)
    && 0 <= total && Queued(r, 0).offset + total <= Queued(r, k - 1).offset + Queued(r, k - 1).realSize
    && (k > 1 ==> total <= maxsize)
    && (forall i: nat :: 1 <= i < k ==> Queued(r, i).flags == 0)
  }

  lemma {:induction false} ScanBounded(r: Ring, k: nat, total: int, maxsize: int)
    requires Shape(r) && SizesFit(r) && Tight(r) && Bounded(r, k, total, maxsize)
    ensures var s := ScanFrom(r, k, total, maxsize);
            && Bounded(r, s.packets, s.total, maxsize)
            && (s.packets == Count(r) || !Joins(r, s.packets, s.total, maxsize))
    decreases Count(r) - k
  {
    assert 1 <= k <= Count(r);
    hide Shape;
    if k < Count(r) && Joins(r, k, total, maxsize) {
      ScanBounded(r, k + 1, total + Queued(r, k).size, maxsize);
    }
  }

  /** The first `k` packets were stored whole. */
  predicate AllWhole(r: Ring, k: nat)
    requires Shape(r) && k <= Count(r)
  {
    forall i: nat :: i < k ==> Queued(r, i).size == Queued(r, i).realSize
  }

  /** The bytes of the first `k` packets, read one by one. */
  function QueuedBytes(r: Ring, k: nat): seq<byte>
    requires Shape(r) && SizesFit(r) && k <= Count(r)
  {
    if k == 0 then []
    else
      var p := Queued(r, k - 1);
      assert InData(p, |r.data|);
      QueuedBytes(r, k - 1) + r.data[p.offset..p.offset + p.size]
  }

  lemma AllBytesNext(q: seq<Packet>, k: nat)
    requires 0 < k <= |q|
    ensures AllBytes(q[..k]) == AllBytes(q[..k - 1]) + q[k - 1].bytes
  {
    assert q[..k][..k - 1] == q[..k - 1];
  }

  lemma {:induction false} QueuedBytesAll(r: Ring, k: nat)
    requires Shape(r) && SizesFit(r) && k <= Count(r)
    ensures AllBytes(Packets(r)[..k]) == QueuedBytes(r, k)
  {
    if k > 0 {
      hide AllBytes, Shape, SizesFit;
      QueuedBytesAll(r, k - 1);
      AllBytesNext(Packets(r), k);
      assert Packets(r)[k - 1] == PacketOf(Queued(r, k - 1), r.data);
    }
  }

  /** The first `k` packets lie one behind the other, `total` bytes in all. */
  predicate Adjacent(r: Ring, k: nat, total: int)
    requires Shape(r) && SizesFit(r)
  {
    && 1 <= k <= Count(r)
    && Queued(r, 0).offset + total == Queued(r, k - 1).offset + Queued(r, k - 1).size
    && 0 <= Queued(r, 0).offset && 0 <= total && Queued(r, 0).offset + total <= |r.data|
    && r.data[Queued(r, 0).offset..Queued(r, 0).offset + total] == QueuedBytes(r, k)
  }

  lemma JoinAdjacent(r: Ring, k: nat, total: int, maxsize: int)
    requires Shape(r) && SizesFit(r) && Tight(r) && k < Count(r)
    requires Adjacent(r, k, total) && Joins(r, k, total, maxsize) && AllWhole(r, k + 1)
    ensures Adjacent(r, k + 1, total + Queued(r, k).size)
  {
  }

  /** The scanned region holds the bytes of the packets, if they were stored whole. */
  lemma {:induction false} ScanAdjacent(r: Ring, k: nat, total: int, maxsize: int)
    requires Shape(r) && SizesFit(r) && Tight(r) && Adjacent(r, k, total)
    ensures var s := ScanFrom(r, k, total, maxsize);
            AllWhole(r, s.packets) ==> Adjacent(r, s.packets, s.total)
    decreases Count(r) - k
  {
    assert 1 <= k <= Count(r);
    hide Shape, SizesFit, Tight, Adjacent, Joins;
    var s := ScanFrom(r, k, total, maxsize);
    if k < Count(r) && Joins(r, k, total, maxsize) && AllWhole(r, s.packets) {
      assert AllWhole(r, k + 1);
      JoinAdjacent(r, k, total, maxsize);
      ScanAdjacent(r, k + 1, total + Queued(r, k).size, maxsize);
    }
  }

  /** The result of a scan: how many packets, and what the region holds. */
  lemma ScanResult(r: Ring, maxsize: int)
    requires Shape(r) && SizesFit(r) && Tight(r) && Count(r) > 0
    ensures var s := ScanFrom(r, 1, Queued(r, 0).size, maxsize);
            && Bounded(r, s.packets, s.total, maxsize)
            && (s.packets == Count(r) || !Joins(r, s.packets, s.total, maxsize))
            && (AllWhole(r, s.packets) ==> Adjacent(r, s.packets, s.total))
  {
    var p := Queued(r, 0);
    assert InData(p, |r.data|);
    assert QueuedBytes(r, 1) == [] + r.data[p.offset..p.offset + p.size];
    ScanBounded(r, 1, p.size, maxsize);
    ScanAdjacent(r, 1, p.size, maxsize);
  }

  /** The region that begins with the oldest packet. */
  function First(r: Ring, total: int): Out
    requires Shape(r)
  {
    Got(Queued(r, 0).offset, total, Queued(r, 0).flags, Some(Queued(r, 0).timestamp))
  }

  lemma ScanCoalesced(r: Ring, maxsize: int)
    requires Shape(r) && SizesFit(r) && Tight(r) && Count(r) > 0
    ensures var s := ScanFrom(r, 1, Queued(r, 0).size, maxsize);
            Coalesced(Packets(r), maxsize, s.packets, See(r, First(r, s.total)))
  {
    var s := ScanFrom(r, 1, Queued(r, 0).size, maxsize);
    ScanResult(r, maxsize);
    RegionCoalesced(r, s.packets, s.total, maxsize);
  }

  lemma RegionCoalesced(r: Ring, k: nat, total: int, maxsize: int)
    requires Shape(r) && SizesFit(r) && Bounded(r, k, total, maxsize)
    requires AllWhole(r, k) ==> Adjacent(r, k, total)
    ensures Coalesced(Packets(r), maxsize, k, See(r, First(r, total)))
  {
    assert InData(Queued(r, 0), |r.data|) && InData(Queued(r, k - 1), |r.data|);
    QueuedBytesAll(r, k);
    PacketFacts(r, k);
  }

  lemma PacketFacts(r: Ring, k: nat)
    requires Shape(r) && SizesFit(r) && 1 <= k <= Count(r)
    ensures Packets(r)[0].flags == Queued(r, 0).flags && Packets(r)[0].timestamp == Queued(r, 0).timestamp
    ensures (forall i: nat :: 1 <= i < k ==> Queued(r, i).flags == 0) ==>
            forall i :: 1 <= i < k ==> Packets(r)[i].flags == 0
    ensures (forall i :: 0 <= i < k ==> Packets(r)[i].whole) ==> AllWhole(r, k)
  {
  }

  // --- How many packets are read together ----------------------------------

  /** The bytes of the first `k` packets. */
  function SizeOfFirst(r: Ring, k: nat): int
    requires Shape(r) && k <= Count(r)
  {
    if k == 0 then 0 else SizeOfFirst(r, k - 1) + Queued(r, k - 1).size
  }

  /** Packet `k` can be read with those before it: it has no flags, there is room for it, and it begins as far
      behind the one before it as it is long. */
  predicate ReadOn(r: Ring, k: nat, maxsize: int)
    requires Shape(r) && 0 < k < Count(r)
  {
    && Queued(r, k).flags == 0 && SizeOfFirst(r, k + 1) <= maxsize
    && Queued(r, k).offset == Queued(r, k - 1).offset + Queued(r, k).size
  }

  lemma {:induction false} ScanReadsOn(r: Ring, k: nat, maxsize: int)
    requires Shape(r) && 0 < k <= Count(r)
    ensures var s := ScanFrom(r, k, SizeOfFirst(r, k), maxsize);
            && s.total == SizeOfFirst(r, s.packets)
            && (forall i :: k <= i < s.packets ==> ReadOn(r, i, maxsize))
            && (s.packets < Count(r) ==> !ReadOn(r, s.packets, maxsize))
    decreases Count(r) - k
  {
    hide Shape;
    if k < Count(r) && ReadOn(r, k, maxsize) {
      ScanReadsOn(r, k + 1, maxsize);
    }
  }

  /** GetStartMultiple reads the oldest packet and all that can be read with it, and no more. */
  lemma MultipleReadsOn(r: Ring, maxsize: int)
    requires Shape(r) && r.posRead.None? && !r.invalidate && r.rp != r.wp
    ensures var s := GetStartMultiple(r, maxsize);
            var n := s.r.posReadNum;
            && 1 <= n <= Count(r) && s.out.Got? && s.out.size == SizeOfFirst(r, n)
            && (forall i :: 1 <= i < n ==> ReadOn(r, i, maxsize))
            && (n < Count(r) ==> !ReadOn(r, n, maxsize))
  {
    assert SizeOfFirst(r, 1) == Queued(r, 0).size;
    ScanReadsOn(r, 1, maxsize);
  }

  /** With packets of one size, stored whole, it stops only at the end of the queue, before a packet with flags,
      when there is no more room, or where the data area begins anew. */
  lemma MultipleStops(r: Ring, least: nat, maxsize: int, size: nat)
    requires Inv(r, least) && r.posRead.None? && !r.invalidate && r.rp != r.wp
    requires forall i: nat :: i < Count(r) ==> Queued(r, i).size == size == Queued(r, i).realSize
    ensures var n := GetStartMultiple(r, maxsize).r.posReadNum;
            && 1 <= n <= Count(r)
            && (n == Count(r) || Queued(r, n).flags != 0 || (n + 1) * size > maxsize || Queued(r, n).offset == 0)
  {
    var n := GetStartMultiple(r, maxsize).r.posReadNum;
    MultipleReadsOn(r, maxsize);
    if n < Count(r) {
      SizeOfSame(r, n + 1, size);
      NextRegion(Live(r), n);
      assert Live(r)[n] == RegionOf(Queued(r, n)) && Live(r)[n - 1] == RegionOf(Queued(r, n - 1));
    }
  }

  lemma OneMore(n: nat, size: nat)
    ensures (n + 1) * size == n * size + size
  {
  }

  lemma {:induction false} SizeOfSame(r: Ring, k: nat, size: nat)
    requires Shape(r) && k <= Count(r) && forall i: nat :: i < Count(r) ==> Queued(r, i).size == size
    ensures SizeOfFirst(r, k) == k * size
  {
    if k > 0 {
      hide Shape;
      SizeOfSame(r, k - 1, size);
      OneMore(k - 1, size);
    }
  }

  lemma TakeMultipleRefines(r: Ring, least: nat, maxsize: int)
    requires Inv(r, least) && r.posRead.None? && !r.invalidate && r.rp != r.wp
    ensures var s := GetStartMultiple(r, maxsize);
            var scan := ScanFrom(r, 1, Queued(r, 0).size, maxsize);
            var last := if scan.packets < Count(r) then scan.packets else scan.packets - 1;
            && Inv(s.r, least) && Abs(s.r) == Abs(r).(held := scan.packets, cursor := last)
            && s.out == First(r, scan.total)
  {
    var k := ScanFrom(r, 1, Queued(r, 0).size, maxsize).packets;
    HoldRefines(r, least, k, if k < Count(r) then k else k - 1);
  }

  lemma GetStartMultipleRefines(r: Ring, least: nat, maxsize: int)
    requires Inv(r, least) && r.posRead.None?
    ensures var s := GetStartMultiple(r, maxsize);
            Inv(s.r, least) && FifoStep(Abs(r), OpGetStartMultiple(maxsize), See(r, s.out), Abs(s.r))
  {
    if r.invalidate {
      DropAllRefines(r, least);
    } else if r.rp != r.wp {
      TakeMultipleRefines(r, least, maxsize);
      InvTight(r, least);
      ScanCoalesced(r, maxsize);
    }
  }

  // --- One step, any step ------------------------------------------------

  /** The step `op` of the ring is a step of the queue. */
  ghost predicate Refines(r: Ring, op: Op, least: nat)
    requires Shape(r) && SizesFit(r) && InProtocol(r, op)
  {
    var s := Take(r, op);
    Inv(s.r, least) && FifoStep(Abs(r), op, See(r, s.out), Abs(s.r))
  }

  lemma PutStartStep(r: Ring, op: Op, least: nat)
    requires Inv(r, least) && op.OpPutStart? && InProtocol(r, op) && Safe(r, op, least)
    ensures Refines(r, op, least)
  {
    PutStartRefines(r, least, op.size);
    PutStartSeen(r, least, op.size);
  }

  lemma FillStep(r: Ring, op: Op, least: nat)
    requires Inv(r, least) && op.OpFill? && InProtocol(r, op) && Safe(r, op, least)
    ensures Refines(r, op, least)
  {
    FillRefines(r, least, op.at, op.bytes);
  }

  lemma PutEndStep(r: Ring, op: Op, least: nat)
    requires Inv(r, least) && op.OpPutEnd? && InProtocol(r, op) && Safe(r, op, least)
    ensures Refines(r, op, least)
  {
    PutEndRefines(r, least, op.stored, op.flags, op.timestamp);
  }

  lemma GetStartStep(r: Ring, op: Op, least: nat)
    requires Inv(r, least) && op.OpGetStart? && InProtocol(r, op) && Safe(r, op, least)
    ensures Refines(r, op, least)
  {
    hide LaidOut, Sized, InData, SizesFit;
    GetStartRefines(r, least);
  }

  lemma GetEndStep(r: Ring, op: Op, least: nat)
    requires Inv(r, least) && op.OpGetEnd? && InProtocol(r, op) && Safe(r, op, least)
    ensures Refines(r, op, least)
  {
    GetEndRefines(r, least);
  }

  lemma InvalidateStep(r: Ring, op: Op, least: nat)
    requires Inv(r, least) && op.OpInvalidate? && InProtocol(r, op) && Safe(r, op, least)
    ensures Refines(r, op, least)
  {
    InvalidateRefines(r, least);
  }

  /** Every step of either side is the corresponding step of the queue. */
  lemma StepRefines(r: Ring, op: Op, least: nat)
    requires Inv(r, least) && InProtocol(r, op) && Safe(r, op, least)
    ensures Refines(r, op, least)
  {
    match op
    case OpPutStart(_) => PutStartStep(r, op, least);
    case OpFill(_, _) => FillStep(r, op, least);
    case OpPutEnd(_, _, _) => PutEndStep(r, op, least);
    case OpGetStart => GetStartStep(r, op, least);
    case OpGetStartMultiple(maxsize) => GetStartMultipleRefines(r, least, maxsize);
    case OpGetEnd => GetEndStep(r, op, least);
    case OpInvalidate => InvalidateStep(r, op, least);
  }

  lemma PutStartSeen(r: Ring, least: nat, size: nat)
    requires Inv(r, least) && !r.locked && size >= least && !GapOverrun(r, size)
    ensures var s := PutStart(r, size);
            && (s.out == Refused || s.out.Granted?)
            && (s.out.Granted? ==> Inv(s.r, least) && Reserved(s.r).Some? && |Reserved(s.r).value| == size)
  {
    PutStartRefines(r, least, size);
    var s := PutStart(r, size);
    if s.out != Refused {
      assert InData(s.r.pos[s.r.wp], |s.r.data|);
    }
  }

  lemma InvalidateRefines(r: Ring, least: nat)
    requires Inv(r, least)
    ensures Inv(Invalidate(r), least) && Abs(Invalidate(r)) == Abs(r).(invalidate := true)
  {
    hide LaidOut, Sized;
    var i := Invalidate(r);
    assert forall k: nat :: k < |r.pos| ==> Queued(i, k) == Queued(r, k);
    assert Live(i) == Live(r);
    assert Packets(i) == Packets(r);
  }

  // --- Runs --------------------------------------------------------------

  /** Every step keeps every descriptor inside the data area, with or without a big enough gap. */
  lemma AnyStepInBounds(r: Ring, op: Op)
    requires Shape(r) && InProtocol(r, op)
    ensures Shape(Take(r, op).r)
  {
  }

  function Next(r: Ring, op: Op): (s: Ring)
    requires Shape(r) && InProtocol(r, op)
    ensures Shape(s)
  {
    AnyStepInBounds(r, op);
    Take(r, op).r
  }

  /** The steps follow the protocol. */
  predicate Follows(r: Ring, ops: seq<Op>)
    requires Shape(r)
    decreases |ops|
  {
    ops != [] ==> InProtocol(r, ops[0]) && Follows(Next(r, ops[0]), ops[1..])
  }

  /** The state after a run. Whatever the gaps, every descriptor lies inside the data area. */
  function RunRing(r: Ring, ops: seq<Op>): (e: Ring)
    requires Shape(r) && Follows(r, ops)
    ensures Shape(e)
    decreases |ops|
  {
    if ops == [] then r else RunRing(Next(r, ops[0]), ops[1..])
  }

  predicate AllSafe(r: Ring, ops: seq<Op>, least: nat)
    requires Shape(r) && Follows(r, ops)
    decreases |ops|
  {
    ops != [] ==> Safe(r, ops[0], least) && AllSafe(Next(r, ops[0]), ops[1..], least)
  }

  /** What the callers see during a run. */
  function SeenInRun(r: Ring, ops: seq<Op>): seq<Seen>
    requires Shape(r) && Follows(r, ops)
    decreases |ops|
  {
    if ops == [] then []
    else [See(r, Take(r, ops[0]).out)] + SeenInRun(Next(r, ops[0]), ops[1..])
  }

  /** The queue can take these steps, showing the callers `seen`, and end as `g`. */
  ghost predicate FifoRun(f: Fifo, ops: seq<Op>, seen: seq<Seen>, g: Fifo)
    decreases |ops|
  {
    if ops == [] then seen == [] && g == f
    else seen != [] && exists h :: FifoStep(f, ops[0], seen[0], h) && FifoRun(h, ops[1..], seen[1..], g)
  }

  lemma FifoRunCons(f: Fifo, ops: seq<Op>, first: Seen, h: Fifo, rest: seq<Seen>, g: Fifo)
    requires ops != [] && FifoStep(f, ops[0], first, h) && FifoRun(h, ops[1..], rest, g)
    ensures FifoRun(f, ops, [first] + rest, g)
  {
    assert ([first] + rest)[1..] == rest;
  }

  /** First in, first out: over every run in which wrapped producers find a big enough gap, in every
      interleaving, the callers see exactly what a queue of byte strings would show them. */
  lemma {:induction false} RunRefines(r: Ring, ops: seq<Op>, least: nat)
    requires Inv(r, least) && Follows(r, ops) && AllSafe(r, ops, least)
    ensures var e := RunRing(r, ops);
            Inv(e, least) && FifoRun(Abs(r), ops, SeenInRun(r, ops), Abs(e))
    decreases |ops|
  {
    if ops != [] {
      var s := Take(r, ops[0]);
      StepRefines(r, ops[0], least);
      RunRefines(s.r, ops[1..], least);
      FifoRunCons(Abs(r), ops, See(r, s.out), Abs(s.r), SeenInRun(s.r, ops[1..]), Abs(RunRing(r, ops)));
    }
  }

  /** So it is in every state of a run: PutStart is refused exactly when there is no room, and only when the
      queue leaves less than twice the size. */
  lemma RefusedInRun(r: Ring, ops: seq<Op>, least: nat, size: nat)
    requires Inv(r, least) && Follows(r, ops) && AllSafe(r, ops, least) && !RunRing(r, ops).locked
    ensures var e := RunRing(r, ops);
            var rs := Live(e);
            && (PutStart(e, size).out.Refused? <==>
                  if rs == [] then size > |e.data|
                  else End(rs) + size >= |e.data| && (OneRun(rs) ==> size >= rs[0].off))
            && (PutStart(e, size).out.Refused? ==> Total(rs) + 2 * size >= |e.data|)
  {
    RunRefines(r, ops, least);
    var e := RunRing(r, ops);
    RefusedIff(e, least, size);
    if PutStart(e, size).out.Refused? {
      RefusedOnlyWhenFull(e, least, size);
    }
  }

  /** In every reachable state the indices are equal exactly when the queue is empty. */
  lemma IndicesTellEmpty(r: Ring, ops: seq<Op>, least: nat)
    requires Inv(r, least) && Follows(r, ops) && AllSafe(r, ops, least)
    ensures var e := RunRing(r, ops);
            && Inv(e, least)
            && (e.rp == e.wp <==> Abs(e).queue == [])
            && |Abs(e).queue| + (if e.locked then 1 else 0) < |e.pos|
  {
    RunRefines(r, ops, least);
    NeverFull(RunRing(r, ops), least);
  }

  lemma FreshInv(size: nat, packets: nat, least: nat)
    requires least >= 1 && Slots(size, packets) >= 1 && size < least * Slots(size, packets)
    ensures Inv(Fresh(size, packets), least)
    ensures Abs(Fresh(size, packets)) == Fifo([], None, 0, 0, false)
  {
  }

  /** The buffers of the plugin: 10000 transport packets of 188 bytes, in 16384 slots. */
  lemma TransportBufferInv()
    ensures Slots(10000 * 188, 10000) == 16384
    ensures Inv(Fresh(10000 * 188, 10000), 188)
  {
    assert RoundUp(1024, 10000, 6) == 16384;
    assert RoundUp(64, 10000, 10) == RoundUp(1024, 10000, 6);
    assert RoundUp(1, 10000, 16) == RoundUp(64, 10000, 10);
    FreshInv(10000 * 188, 10000, 188);
  }
}

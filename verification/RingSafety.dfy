/** When the packet buffer is safe: the invariant of its layout, and the exact condition under which
    the placement that FindSpace chooses keeps it. */
module RingSafety {
  import opened Bits
  import opened Regions
  import opened PacketRing

  function RegionOf(p: Pos): Region {
    Region(p.offset, p.realSize)
  }

  /** The regions that must not overlap: the queued packets, and the one the producer is writing. */
  function Live(r: Ring): (rs: seq<Region>)
    requires Shape(r)
    ensures |rs| == Count(r) + if r.locked then 1 else 0
    ensures forall i :: 0 <= i < |rs| ==> i < |r.pos| && rs[i] == RegionOf(Queued(r, i))
  {
    seq(Count(r) + if r.locked then 1 else 0, i requires 0 <= i < |r.pos| => RegionOf(Queued(r, i)))
  }

  /** Queued packets are not longer than their regions. */
  predicate SizesFit(r: Ring)
    requires Shape(r)
  {
    forall i :: 0 <= i < Count(r) ==> 0 <= Queued(r, i).size <= Queued(r, i).realSize
  }

  /** The invariant: at most two runs of regions; packets of at least `least` bytes, so that there
      are always fewer of them than slots; stored sizes that fit; and a consumer that holds only
      packets of the queue. */
  ghost predicate Inv(r: Ring, least: nat) {
    && Shape(r)
    && least >= 1 && |r.data| < least * |r.pos|
    && Sized(Live(r), least, |r.data|) && LaidOut(Live(r))
    && SizesFit(r)
    && (r.posRead.Some? ==> Cursor(r) < Count(r) && 1 <= r.posReadNum <= Count(r))
  }

  /** Which packet of the queue posRead points to. */
  function Cursor(r: Ring): (n: nat)
    requires Shape(r) && r.posRead.Some?
    ensures n < |r.pos| && Slot(r, n) == r.posRead.value
  {
    if r.posRead.value >= r.rp then r.posRead.value - r.rp else r.posRead.value + |r.pos| - r.rp
  }

  /** The wrapped branch of FindSpace accepts a region that runs into the oldest packet: the queue is
      in two runs, and the gap before the oldest packet is too small although the data area is not
      exhausted. A caller can check this before PutStart. */
  predicate GapOverrun(r: Ring, size: nat)
    requires Shape(r)
  {
    r.rp != r.wp &&
    var pr := r.pos[r.rp];
    var pw := r.pos[Before(r.wp, |r.pos|)];
    && pr.offset > pw.offset
    && pr.offset < pw.offset + pw.realSize + size < |r.data|
  }

  lemma SlotOfLast(r: Ring)
    requires Shape(r) && r.rp != r.wp
    ensures Slot(r, Count(r) - 1) == Before(r.wp, |r.pos|)
  {
  }

  lemma SlotOfCount(r: Ring)
    requires Shape(r)
    ensures Slot(r, Count(r)) == r.wp
  {
  }

  lemma SlotsDiffer(r: Ring, i: nat, j: nat)
    requires Shape(r) && i < j < |r.pos|
    ensures Slot(r, i) != Slot(r, j)
  {
  }

  /** Disjoint regions of a minimum size bound the number of packets: the queue, with the reserved
      packet, never fills all slots, so equal indices mean an empty queue. */
  lemma NeverFull(r: Ring, least: nat)
    requires Inv(r, least)
    ensures |Live(r)| < |r.pos|
  {
    LaidOutFits(Live(r), least, |r.data|);
    if |Live(r)| >= |r.pos| {
      MulMonotone(|r.pos|, |Live(r)|, least);
    }
  }

  lemma MulMonotone(a: nat, b: nat, c: nat)
    requires a <= b
    ensures a * c <= b * c
  {
  }

  /** FindSpace in terms of the regions. */
  lemma FindSpaceByRegions(r: Ring, least: nat, size: nat)
    requires Inv(r, least) && !r.locked && r.rp != r.wp
    ensures var rs := Live(r);
            && rs != [] && rs[0] == RegionOf(r.pos[r.rp])
            && rs[|rs| - 1] == RegionOf(r.pos[Before(r.wp, |r.pos|)])
            && (OneRun(rs) <==> r.pos[r.rp].offset <= r.pos[Before(r.wp, |r.pos|)].offset)
            && (!OneRun(rs) ==> End(rs) <= rs[0].off)
            && FindSpace(r, size) == (if End(rs) + size < |r.data| then End(rs)
                                      else if OneRun(rs) && size < rs[0].off then 0
                                      else -1)
            && (GapOverrun(r, size) <==> !OneRun(rs) && rs[0].off < End(rs) + size < |r.data|)
  {
    var rs := Live(r);
    SlotOfLast(r);
    assert rs[0] == RegionOf(Queued(r, 0)) && Slot(r, 0) == r.rp;
    assert rs[|rs| - 1] == RegionOf(Queued(r, Count(r) - 1));
    ShapeByOffsets(rs, least, |r.data|);
  }

  /** The exact condition. A region that FindSpace hands out overlaps no queued packet if and only
      if the gap is not overrun. */
  lemma PlacementSafeIff(r: Ring, least: nat, size: nat)
    requires Inv(r, least) && !r.locked && size >= 1 && FindSpace(r, size) != -1
    ensures (forall i :: 0 <= i < Count(r) ==> Apart(Live(r)[i], Region(FindSpace(r, size), size)))
            <==> !GapOverrun(r, size)
  {
    var rs := Live(r);
    if r.rp != r.wp {
      FindSpaceByRegions(r, least, size);
      var new_ := Region(FindSpace(r, size), size);
      if GapOverrun(r, size) {
        assert !Apart(rs[0], new_);
      } else {
        PlacedLaidOut(r, least, size);
        forall i | 0 <= i < Count(r)
          ensures Apart(rs[i], new_)
        {
          var all := rs + [new_];
          LaidOutApart(all, 1, |r.data|, i, |rs|);
          assert all[i] == rs[i];
        }
      }
    }
  }

  /** Where the gap is not overrun, the new region continues the layout. */
  lemma PlacedLaidOut(r: Ring, least: nat, size: nat)
    requires Inv(r, least) && !r.locked && size >= 1 && FindSpace(r, size) != -1 && !GapOverrun(r, size)
    ensures var new_ := Region(FindSpace(r, size), size);
            && LaidOut(Live(r) + [new_])
            && Sized(Live(r) + [new_], if size < least then size else least, |r.data|)
  {
    var rs := Live(r);
    var new_ := Region(FindSpace(r, size), size);
    if r.rp == r.wp {
      assert OneRun(rs + [new_]);
    } else {
      FindSpaceByRegions(r, least, size);
      if End(rs) + size < |r.data| {
        LaidOutExtend(rs, new_);
      } else {
        LaidOutWrap(rs, new_);
      }
    }
  }

  /** When PutStart is refused, exactly: there is no room behind the newest region, nor, if the regions are
      in one run, before the oldest. */
  lemma RefusedIff(r: Ring, least: nat, size: nat)
    requires Inv(r, least) && !r.locked
    ensures var rs := Live(r);
            PutStart(r, size).out.Refused? <==>
              if rs == [] then size > |r.data|
              else End(rs) + size >= |r.data| && (OneRun(rs) ==> size >= rs[0].off)
  {
    if r.rp != r.wp {
      FindSpaceByRegions(r, least, size);
    }
  }

  /** It is refused only when the queued packets leave less than twice the size. */
  lemma RefusedOnlyWhenFull(r: Ring, least: nat, size: nat)
    requires Inv(r, least) && !r.locked && PutStart(r, size).out.Refused?
    ensures Total(Live(r)) + 2 * size >= |r.data|
  {
    hide Total;
    var rs := Live(r);
    RefusedIff(r, least, size);
    TotalNat(rs, least, |r.data|);
    if rs != [] {
      if OneRun(rs) {
        LinearTotal(rs);
      } else {
        var k :| TwoRuns(rs, k);
        TwoRunsTotal(rs, k, least, |r.data|);
      }
    }
  }

  /** With packets of one size, no more than two are missing. */
  lemma RefusedOnlyWhenFullOf(r: Ring, least: nat, size: nat)
    requires Inv(r, least) && !r.locked && PutStart(r, size).out.Refused?
    requires forall i :: 0 <= i < Count(r) ==> Queued(r, i).realSize == size
    ensures (Count(r) + 2) * size >= |r.data|
  {
    RefusedOnlyWhenFull(r, least, size);
    TotalOfSame(Live(r), size);
    Distribute(Count(r), size);
  }

  lemma Distribute(n: nat, size: nat)
    ensures (n + 2) * size == n * size + 2 * size
  {
  }

  /** In-bounds placement needs no condition: every step of either side keeps every descriptor
      inside the data area. */
  lemma PutStartKeepsShape(r: Ring, size: nat)
    requires Shape(r) && !r.locked
    ensures Shape(PutStart(r, size).r)
  {
  }

  lemma FillKeepsShape(r: Ring, at: nat, bytes: seq<byte>)
    requires Shape(r) && r.locked && at + |bytes| <= r.pos[r.wp].realSize
    ensures Shape(Fill(r, at, bytes)) && |Fill(r, at, bytes).data| == |r.data|
  {
  }
}

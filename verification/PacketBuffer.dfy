/** packetbuffer.c as it is written: cMyPacketBuffer with its two arrays, changed in place. Every
    method is proved to be the step of module PacketRing with the same name. */
module PacketBuffers {
  import opened Bits
  import opened Wrappers
  import opened PacketRing

  class PacketBuffer {
    const dataBuffer: array<byte>
    const posBuffer: array<Pos>
    var rp: nat
    var wp: nat
    var posRead: Option<nat>
    var posWrite: Option<nat>
    var posReadNum: nat
    var invalidate: bool
    /** The mutex is held by the producer. */
    var locked: bool

    ghost function State(): Ring
      reads this, dataBuffer, posBuffer
    {
      Ring(dataBuffer[..], posBuffer[..], rp, wp, posRead, posWrite, posReadNum, invalidate, locked)
    }

    constructor (size: nat, packets: nat)
      ensures fresh(dataBuffer) && fresh(posBuffer)
      ensures State() == Fresh(size, packets) && Shape(State())
    {
      hide Shape;
      var slots := if packets == 0 then size / 2048 else packets;
      ghost var wanted := slots;
      var n := 1;
      for i := 0 to 16
        invariant n >= 1 && slots == wanted
        invariant RoundUp(1, wanted, 16) == RoundUp(n, wanted, 16 - i)
      {
        if n >= slots {
          slots := n;
          break;
        }
        n := 2 * n;
      }
      assert slots == Slots(size, packets);
      dataBuffer := new byte[size](_ => 0);
      posBuffer := new Pos[slots](_ => Pos(0, 0, 0, 0, 0));
      rp, wp, posRead, posWrite, posReadNum, invalidate, locked := 0, 0, None, None, 0, false, false;
      new;
      FreshShape(size, packets);
      assert dataBuffer[..] == Fresh(size, packets).data;
      assert posBuffer[..] == Fresh(size, packets).pos;
    }

    method FindSpace(size: nat) returns (offset: int)
      requires Shape(State())
      ensures offset == PacketRing.FindSpace(State(), size)
    {
      var wpm := if wp == 0 then posBuffer.Length - 1 else wp - 1;
      if rp == wp {
        return if size > dataBuffer.Length then -1 else 0;
      }
      var pr := posBuffer[rp];
      var pw := posBuffer[wpm];
      if pr.offset <= pw.offset {
        if pw.offset + pw.realSize + size < dataBuffer.Length {
          return pw.offset + pw.realSize;
        }
        if size < pr.offset {
          return 0;
        }
        return -1;
      } else {
        if pw.offset + pw.realSize + size < dataBuffer.Length {
          return pw.offset + pw.realSize;
        }
        return -1;
      }
    }

    /** The offset of the reserved region, or -1 instead of a null pointer. */
    method PutStart(size: nat) returns (offset: int)
      requires Shape(State()) && !locked
      modifies this`posWrite, this`locked, posBuffer
      ensures Step(State(), if offset == -1 then Refused else Granted(offset)) == PacketRing.PutStart(old(State()), size)
    {
      offset := FindSpace(size);
      if offset == -1 {
        return;
      }
      locked := true;
      posWrite := Some(wp);
      posBuffer[wp] := posBuffer[wp].(offset := offset, realSize := size);
    }

    /** The producer copies bytes into the region it was given. */
    method Fill(at: nat, bytes: seq<byte>)
      requires Shape(State()) && locked && at + |bytes| <= posBuffer[wp].realSize
      modifies dataBuffer
      ensures State() == PacketRing.Fill(old(State()), at, bytes)
    {
      var p := posBuffer[wp];
      assert State().pos[wp] == p && InData(p, dataBuffer.Length);
      var o := p.offset + at;
      forall i | 0 <= i < |bytes| {
        dataBuffer[o + i] := bytes[i];
      }
      assert dataBuffer[..] == old(dataBuffer[..])[..o] + bytes + old(dataBuffer[..])[o + |bytes|..];
    }

    method PutEnd(size: nat, flags: int, timestamp: int)
      requires Shape(State())
      modifies this`wp, this`locked, posBuffer
      ensures State() == PacketRing.PutEnd(old(State()), size, flags, timestamp)
    {
      if posWrite.None? {
        return;
      }
      var w := posWrite.value;
      var stored := size;
      if stored > posBuffer[w].realSize {
        assert InData(State().pos[w], dataBuffer.Length);
        stored := posBuffer[w].realSize;
      }
      posBuffer[w] := posBuffer[w].(size := stored, flags := flags, timestamp := timestamp);
      wp := Wrap(wp + 1, posBuffer.Length);
      locked := false;
    }

    /** Null if `readp` has reached the write index; otherwise posRead is set to its slot. */
    method GetStartSub(readp: nat) returns (found: bool, p: Pos)
      requires readp < posBuffer.Length
      modifies this`posRead
      ensures found == (readp != wp)
      ensures p == posBuffer[readp]
      ensures posRead == if found then Some(readp) else old(posRead)
    {
      p := posBuffer[readp];
      found := readp != wp;
      if found {
        posRead := Some(readp);
      }
    }

    method GetStart() returns (out: Out)
      requires Shape(State())
      modifies this`rp, this`invalidate, this`posReadNum, this`posRead
      ensures Step(State(), out) == PacketRing.GetStart(old(State()))
    {
      if posRead.Some? {
        var q := posBuffer[posRead.value];
        return Got(q.offset, q.size, q.flags, None);
      }
      if invalidate {
        rp := wp;
        invalidate := false;
        return Null;
      }
      posReadNum := 1;
      var found, p := GetStartSub(rp);
      out := if found then Got(p.offset, p.size, p.flags, Some(p.timestamp)) else Null;
    }

    method GetEnd()
      requires Shape(State())
      modifies this`rp, this`posReadNum, this`posRead
      ensures State() == PacketRing.GetEnd(old(State()))
    {
      if posRead.None? {
        return;
      }
      rp := Wrap(rp + posReadNum, posBuffer.Length);
      posRead := None;
      posReadNum := 0;
    }

    /** Takes as many packets as lie one behind the other. The loop looks one packet ahead, and
        leaves posRead on the last packet it has looked at. */
    method GetStartMultiple(maxsize: int) returns (out: Out)
      requires Shape(State())
      modifies this`rp, this`invalidate, this`posReadNum, this`posRead
      ensures Step(State(), out) == PacketRing.GetStartMultiple(old(State()), maxsize)
    {
      if invalidate {
        rp := wp;
        invalidate := false;
        return Null;
      }
      ghost var r := State();
      var found, first := GetStartSub(rp);
      if !found {
        return Null;
      }
      ScanStart(r);
      var totalsize := Coalesce(r, first, maxsize);
      out := Got(first.offset, totalsize, first.flags, Some(first.timestamp));
    }

    /** The loop of GetStartMultiple, after the first packet. */
    method Coalesce(ghost r: Ring, first: Pos, maxsize: int) returns (totalsize: int)
      requires posBuffer[..] == r.pos && rp == r.rp && wp == r.wp && Shape(r) && rp != wp
      requires first == r.pos[rp] && posRead == Some(rp)
      modifies this`posReadNum, this`posRead
      ensures var s := ScanFrom(r, 1, first.size, maxsize);
              && totalsize == s.total && posReadNum == s.packets
              && posRead == Some(Slot(r, if s.packets < Count(r) then s.packets else s.packets - 1))
    {
      ScanStart(r);
      var last, packets := first.offset, 1;
      totalsize := first.size;
      var readp := Wrap(rp + 1, posBuffer.Length);
      while true
        invariant 1 <= packets <= Count(r) && readp == Slot(r, packets)
        invariant posRead == Some(Slot(r, packets - 1)) && last == Queued(r, packets - 1).offset
        invariant ScanFrom(r, 1, first.size, maxsize) == ScanFrom(r, packets, totalsize, maxsize)
        decreases Count(r) - packets
      {
        var more, p := GetStartSub(readp);
        ScanUnfold(r, packets, totalsize, maxsize, last, p);
        if !more || last + p.size != p.offset || totalsize + p.size > maxsize || p.flags != 0 {
          posReadNum := packets;
          return;
        }
        readp := Wrap(readp + 1, posBuffer.Length);
        packets := packets + 1;
        totalsize := totalsize + p.size;
        last := p.offset;
      }
    }

    method Invalidate()
      modifies this`invalidate
      ensures State() == PacketRing.Invalidate(old(State()))
    {
      invalidate := true;
    }
  }

  lemma ScanStart(r: Ring)
    requires Shape(r) && r.rp != r.wp
    ensures Slot(r, 0) == r.rp && Slot(r, 1) == Wrap(r.rp + 1, |r.pos|) && Count(r) >= 1
  {
  }

  /** One round of the scan, and where its index stands. */
  lemma ScanUnfold(r: Ring, k: nat, total: int, maxsize: int, last: int, p: Pos)
    requires Shape(r) && 0 < k <= Count(r)
    requires last == Queued(r, k - 1).offset && p == r.pos[Slot(r, k)]
    ensures Slot(r, k) == r.wp <==> k == Count(r)
    ensures k < Count(r) ==> Slot(r, k + 1) == Wrap(Slot(r, k) + 1, |r.pos|)
    ensures var stop := k == Count(r) || last + p.size != p.offset || total + p.size > maxsize || p.flags != 0;
            ScanFrom(r, k, total, maxsize)
            == if stop then Scan(k, total) else ScanFrom(r, k + 1, total + p.size, maxsize)
  {
  }
}

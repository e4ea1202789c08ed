/** The packet buffer of packetbuffer.c as a state machine. A ring of descriptors says where in a
    byte array the queued packets lie. The steps of the producer (PutStart, writing into the
    region it was given, PutEnd) and of the consumer (GetStart, GetStartMultiple, GetEnd) can come
    in any interleaving. */
module PacketRing {
  import opened Bits
  import opened Wrappers

  datatype Pos = Pos(offset: int, size: int, realSize: int, flags: int, timestamp: int)

  /** `posRead` and `posWrite` are pointers into `pos`. `locked` holds from a successful PutStart to
      the PutEnd that follows it, while the producer owns the mutex. */
  datatype Ring = Ring(
    data: seq<byte>,
    pos: seq<Pos>,
    rp: nat,
    wp: nat,
    posRead: Option<nat>,
    posWrite: Option<nat>,
    posReadNum: nat,
    invalidate: bool,
    locked: bool)

  /** An index that may have run past the end of a ring of `n` slots. */
  function Wrap(x: nat, n: nat): (r: nat)
    requires x < 2 * n
    ensures r < n
  {
    if x >= n then x - n else x
  }

  /** With a power-of-two ring this is what masking with the ring size minus one does. */
  lemma WrapIsMask(x: nat, k: nat)
    requires x < 2 * Pow2(k)
    ensures BitAnd(x, Pow2(k) - 1) == Wrap(x, Pow2(k))
  {
    var n := Pow2(k);
    MaskIsMod(x, k);
    if x >= n {
      ModUnique(x, n, 1, x - n);
    } else {
      ModUnique(x, n, 0, x);
    }
  }

  /** The slot before `wp`: `(wp - 1) & (posSize - 1)`, where -1 has all bits set. */
  function Before(wp: nat, n: nat): (r: nat)
    requires wp < n
    ensures r < n
  {
    if wp == 0 then n - 1 else wp - 1
  }

  predicate InData(p: Pos, size: nat) {
    0 <= p.offset && 0 <= p.realSize && p.offset + p.realSize <= size
  }

  /** What holds in every state, whatever the callers do: the indices are in range and every
      descriptor, used or not, describes a region inside the data area. */
  predicate Shape(r: Ring) {
    && r.rp < |r.pos| && r.wp < |r.pos| && r.posReadNum <= |r.pos|
    && (r.posRead.Some? ==> r.posRead.value < |r.pos|)
    && (r.posWrite.Some? ==> r.posWrite.value < |r.pos|)
    && (r.locked ==> r.posWrite == Some(r.wp))
    && (forall i :: 0 <= i < |r.pos| ==> InData(r.pos[i], |r.data|))
  }

  /** The offset of a free region of `size` bytes, or -1. The second comparison with the size of the
      data area is the one the source makes; see RingSafety for when it is enough. */
  function FindSpace(r: Ring, size: nat): int
    requires Shape(r)
  {
    if r.rp == r.wp then
      if size > |r.data| then -1 else 0
    else
      var pr := r.pos[r.rp];
      var pw := r.pos[Before(r.wp, |r.pos|)];
      if pr.offset <= pw.offset then
        if pw.offset + pw.realSize + size < |r.data| then pw.offset + pw.realSize
        else if size < pr.offset then 0
        else -1
      else if pw.offset + pw.realSize + size < |r.data| then pw.offset + pw.realSize
      else -1
  }

  /** `timestamp` is None where the source leaves the caller's variable as it was. */
  datatype Out =
    | Done
    | Refused
    | Granted(offset: int)
    | Null
    | Got(offset: int, size: int, flags: int, timestamp: Option<int>)

  datatype Step = Step(r: Ring, out: Out)

  function PutStart(r: Ring, size: nat): Step
    requires Shape(r) && !r.locked
  {
    var offset := FindSpace(r, size);
    if offset == -1 then Step(r, Refused)
    else
      var pos := r.pos[r.wp := r.pos[r.wp].(offset := offset, realSize := size)];
      Step(r.(pos := pos, posWrite := Some(r.wp), locked := true), Granted(offset))
  }

  /** The producer writes `bytes` into the region it was given, from its `at`-th byte on. */
  function Fill(r: Ring, at: nat, bytes: seq<byte>): Ring
    requires Shape(r) && r.locked && at + |bytes| <= r.pos[r.wp].realSize
  {
    var o := r.pos[r.wp].offset + at;
    r.(data := r.data[..o] + bytes + r.data[o + |bytes|..])
  }

  function PutEnd(r: Ring, size: nat, flags: int, timestamp: int): Ring
    requires Shape(r)
  {
    if r.posWrite.None? then r
    else
      var w := r.posWrite.value;
      var stored := if size > r.pos[w].realSize then r.pos[w].realSize else size;
      r.(pos := r.pos[w := r.pos[w].(size := stored, flags := flags, timestamp := timestamp)],
         wp := Wrap(r.wp + 1, |r.pos|), locked := false)
  }

  function GetStart(r: Ring): Step
    requires Shape(r)
  {
    if r.posRead.Some? then
      var p := r.pos[r.posRead.value];
      Step(r, Got(p.offset, p.size, p.flags, None))
    else if r.invalidate then Step(r.(rp := r.wp, invalidate := false), Null)
    else if r.rp == r.wp then Step(r.(posReadNum := 1), Null)
    else
      var p := r.pos[r.rp];
      Step(r.(posReadNum := 1, posRead := Some(r.rp)),
           Got(p.offset, p.size, p.flags, Some(p.timestamp)))
  }

  function GetEnd(r: Ring): Ring
    requires Shape(r)
  {
    if r.posRead.None? then r
    else r.(rp := Wrap(r.rp + r.posReadNum, |r.pos|), posRead := None, posReadNum := 0)
  }

  /** How many packets lie between the read and the write index. */
  function Count(r: Ring): (n: nat)
    requires Shape(r)
    ensures n < |r.pos|
    ensures n == 0 <==> r.rp == r.wp
  {
    if r.wp >= r.rp then r.wp - r.rp else r.wp + |r.pos| - r.rp
  }

  function Slot(r: Ring, i: nat): (s: nat)
    requires Shape(r) && i < |r.pos|
    ensures s < |r.pos|
  {
    Wrap(r.rp + i, |r.pos|)
  }

  /** The i-th queued descriptor. */
  function Queued(r: Ring, i: nat): Pos
    requires Shape(r) && i < |r.pos|
  {
    r.pos[Slot(r, i)]
  }

  /** GetStartMultiple also takes the k-th packet when it seems to follow the one before it, the
      total stays within `maxsize`, and it has no flags. */
  predicate Joins(r: Ring, k: nat, total: int, maxsize: int)
    requires Shape(r) && 0 < k < |r.pos|
  {
    var p := Queued(r, k);
    Queued(r, k - 1).offset + p.size == p.offset && total + p.size <= maxsize && p.flags == 0
  }

  datatype Scan = Scan(packets: nat, total: int)

  function ScanFrom(r: Ring, k: nat, total: int, maxsize: int): (s: Scan)
    requires Shape(r) && 0 < k <= Count(r)
    ensures k <= s.packets <= Count(r)
    decreases Count(r) - k
  {
    if k < Count(r) && Joins(r, k, total, maxsize)
    then ScanFrom(r, k + 1, total + Queued(r, k).size, maxsize)
    else Scan(k, total)
  }

  function GetStartMultiple(r: Ring, maxsize: int): Step
    requires Shape(r)
  {
    if r.invalidate then Step(r.(rp := r.wp, invalidate := false), Null)
    else if r.rp == r.wp then Step(r, Null)
    else
      var p := Queued(r, 0);
      var s := ScanFrom(r, 1, p.size, maxsize);
      var last := if s.packets < Count(r) then s.packets else s.packets - 1;
      Step(r.(posRead := Some(Slot(r, last)), posReadNum := s.packets),
           Got(p.offset, s.total, p.flags, Some(p.timestamp)))
  }

  function Invalidate(r: Ring): Ring {
    r.(invalidate := true)
  }

  // --- Construction ------------------------------------------------------

  /** The smallest power of two from `n` on that is at least `packets`, after at most `i` doublings. */
  function RoundUp(n: nat, packets: nat, i: nat): nat
    decreases i
  {
    if i == 0 then packets
    else if n >= packets then n
    else RoundUp(2 * n, packets, i - 1)
  }

  function Slots(size: nat, packets: nat): nat {
    RoundUp(1, if packets == 0 then size / 2048 else packets, 16)
  }

  lemma {:induction false} RoundUpIsPow2(n: nat, e: nat, packets: nat, i: nat) returns (k: nat)
    requires n == Pow2(e) && i > 0 && packets <= Pow2(e + i - 1)
    ensures RoundUp(n, packets, i) == Pow2(k) >= packets
    decreases i
  {
    if n >= packets {
      k := e;
    } else {
      k := RoundUpIsPow2(2 * n, e + 1, packets, i - 1);
    }
  }

  /** For up to 32768 packets the number of slots is a power of two, at least the number asked for. */
  lemma SlotsIsPow2(size: nat, packets: nat) returns (k: nat)
    requires 0 < packets <= 32768
    ensures Slots(size, packets) == Pow2(k) >= packets
  {
    assert Pow2(5) == 32;
    assert Pow2(10) == 1024;
    assert Pow2(15) == 32768;
    k := RoundUpIsPow2(1, 0, packets, 16);
  }

  function Fresh(size: nat, packets: nat): Ring {
    Ring(seq(size, i => 0), seq(Slots(size, packets), i => Pos(0, 0, 0, 0, 0)), 0, 0, None, None, 0, false, false)
  }

  lemma {:induction false} RoundUpPositive(n: nat, packets: nat, i: nat)
    requires n > 0 && i > 0
    ensures RoundUp(n, packets, i) > 0
    decreases i
  {
    if n < packets && i > 1 {
      RoundUpPositive(2 * n, packets, i - 1);
    }
  }

  lemma FreshShape(size: nat, packets: nat)
    ensures Shape(Fresh(size, packets))
  {
    RoundUpPositive(1, if packets == 0 then size / 2048 else packets, 16);
  }
}

/** One section filter: what cMcliFilter::PutSection does with the chunks it is given.
    The filter is described by the bytes it has collected (`acc`, the first m_Used bytes of
    m_Buffer) and by the sections it has handed to write(), in order (`sent`). */
module Sections {
  import opened Bits

  /** What the reader's end of the socket does with a write: take it, drop it because its
      queue is full (EAGAIN), or fail it because the reader is gone. */
  datatype WriteOutcome = Delivered | Dropped | Broken

  /** `reader(k)` is the outcome of the k-th section written. */
  datatype FilterState = FilterState(
    handle: int,
    pid: int,
    tid: byte,
    mask: byte,
    closed: bool,
    acc: seq<byte>,
    sent: seq<seq<byte>>,
    reader: nat -> WriteOutcome)

  const BUFFER_SIZE: nat := 65536

  /** The total length a section header declares: the 12-bit section_length plus 3. */
  function Declared(b: seq<byte>): (n: nat)
    requires |b| >= 3
    ensures 3 <= n <= 4098
  {
    (b[1] as int % 16) * 256 + b[2] as int + 3
  }

  predicate Matches(f: FilterState, pid: int, tid: byte) {
    f.pid == pid && f.tid == BitAnd(tid, f.mask)
  }

  /** The filter asks for sections with this table id: it agrees with the filter's in every bit under the
      mask, and the filter's has no bit outside the mask. */
  predicate Asks(f: FilterState, tid: byte) {
    && (forall k :: 0 <= k < 8 && BitAt(f.mask, k) ==> (BitAt(tid, k) <==> BitAt(f.tid, k)))
    && (forall k :: 0 <= k < 8 && !BitAt(f.mask, k) ==> !BitAt(f.tid, k))
  }

  lemma MatchesIff(f: FilterState, pid: int, tid: byte)
    ensures Matches(f, pid, tid) <==> f.pid == pid && Asks(f, tid)
  {
    forall k: nat
      ensures BitAt(BitAnd(tid, f.mask), k) <==> BitAt(tid, k) && BitAt(f.mask, k)
    {
      BitAndBits(tid, f.mask, k);
    }
    if Asks(f, tid) {
      assert Pow2(4) == 16 && Pow2(8) == 256;
      EqualByBits(f.tid, BitAnd(tid, f.mask), 8);
    }
  }

  datatype PutResult = PutResult(f: FilterState, ok: bool)

  /** write() of one section. */
  function Write(f: FilterState, section: seq<byte>): PutResult {
    var broken := f.reader(|f.sent|).Broken?;
    PutResult(f.(sent := f.sent + [section], closed := f.closed || broken), !broken)
  }

  function PutSection(f: FilterState, data: seq<byte>, start: bool): PutResult {
    if f.acc == [] && !start then PutResult(f, true)
    else
      var kept := if start then [] else f.acc;
      if |kept| + |data| >= BUFFER_SIZE then PutResult(f.(acc := []), true)
      else
        var acc := kept + data;
        if |acc| > 3 && |acc| >= Declared(acc) then Write(f.(acc := []), acc[..Declared(acc)])
        else PutResult(f.(acc := acc), true)
  }

  /** No complete section is waiting in the buffer. */
  predicate Quiet(acc: seq<byte>) {
    |acc| <= 3 || |acc| < Declared(acc)
  }

  ghost predicate SameFilter(f: FilterState, g: FilterState) {
    && g.handle == f.handle && g.pid == f.pid && g.tid == f.tid && g.mask == f.mask
    && g.reader == f.reader
  }

  /** What reached the reader: the sections whose write was neither dropped nor failed. */
  function Received(sent: seq<seq<byte>>, reader: nat -> WriteOutcome): seq<seq<byte>> {
    if sent == [] then []
    else
      var k := |sent| - 1;
      Received(sent[..k], reader) + (if reader(k).Delivered? then [sent[k]] else [])
  }

  lemma {:induction false} ReceivedAll(sent: seq<seq<byte>>, reader: nat -> WriteOutcome)
    requires forall k :: 0 <= k < |sent| ==> reader(k).Delivered?
    ensures Received(sent, reader) == sent
  {
    if sent != [] {
      var k := |sent| - 1;
      ReceivedAll(sent[..k], reader);
      assert sent == sent[..k] + [sent[k]];
    }
  }

  /** Between two calls the buffer never holds a complete section, so it never holds more than
      4097 bytes; with chunks that fit in a packet the overflow branch is never taken. */
  lemma BufferBound(f: FilterState, data: seq<byte>, start: bool)
    requires Quiet(f.acc) && |data| <= 184
    ensures |f.acc| <= 4097 && |f.acc| + |data| < BUFFER_SIZE
    ensures Quiet(PutSection(f, data, start).f.acc)
    ensures SameFilter(f, PutSection(f, data, start).f)
  {
  }

  /** A chunk that holds one whole section and nothing else is written out if and only if the
      declared total is at least 4 bytes: a section with section_length 0 is swallowed. */
  lemma WholeSectionWrittenIff(f: FilterState, section: seq<byte>)
    requires |section| >= 3 && |section| == Declared(section)
    ensures PutSection(f, section, true).f.sent
            == if |section| >= 4 then f.sent + [section] else f.sent
  {
    assert section[..|section|] == section;
    assert [] + section == section;
  }

  /** Whatever the length of the chunk: if it does not fit in the 65536 bytes of the buffer everything is dropped,
      and otherwise nothing is, unless a section is written. */
  lemma OverflowDrops(f: FilterState, data: seq<byte>, start: bool)
    requires start || f.acc != []
    ensures var whole := if start then data else f.acc + data;
            var r := PutSection(f, data, start);
            if |whole| >= 65536 then r == PutResult(f.(acc := []), true)
            else || r == PutResult(f.(acc := whole), true)
                 || (r.f.acc == [] && |r.f.sent| == |f.sent| + 1 && r.f.sent[|f.sent|] <= whole)
  {
    assert [] + data == data;
  }

  /** A filter is closed by a failed write, and by nothing else. */
  lemma ClosedByFailure(f: FilterState, data: seq<byte>, start: bool)
    ensures var r := PutSection(f, data, start);
            && (r.f.closed <==> f.closed || !r.ok)
            && (!r.ok <==> |r.f.sent| > |f.sent| && f.reader(|f.sent|).Broken?)
  {
  }

  /** The writes that were delivered. */
  ghost function DeliveredAmong(n: nat, reader: nat -> WriteOutcome): set<nat> {
    set k: nat | k < n && reader(k).Delivered?
  }

  /** What was received are the sections whose write was delivered, each once. */
  lemma {:induction false} ReceivedIff(sent: seq<seq<byte>>, reader: nat -> WriteOutcome)
    ensures |Received(sent, reader)| == |DeliveredAmong(|sent|, reader)|
    ensures forall x :: x in Received(sent, reader) ==>
              exists k :: 0 <= k < |sent| && reader(k).Delivered? && sent[k] == x
    decreases |sent|
  {
    if sent == [] {
      assert DeliveredAmong(0, reader) == {};
    } else {
      var k := |sent| - 1;
      ReceivedIff(sent[..k], reader);
      assert DeliveredAmong(k + 1, reader) == DeliveredAmong(k, reader) + if reader(k).Delivered? then {k} else {};
      forall x | x in Received(sent[..k], reader)
        ensures exists n :: 0 <= n < |sent| && reader(n).Delivered? && sent[n] == x
      {
        var n :| 0 <= n < |sent[..k]| && reader(n).Delivered? && sent[..k][n] == x;
        assert sent[n] == x;
      }
    }
  }
}

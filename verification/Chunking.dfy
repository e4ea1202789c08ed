/** How cMcliFilters::Action cuts one transport packet into chunks. */
module Chunking {
  import opened Bits
  import opened Sections

  const TS_SIZE: nat := 188

  type Packet = p: seq<byte> | |p| == TS_SIZE witness seq(TS_SIZE, i => 0)

  /** A run of bytes for the filters of one PID; `start` tells that a section begins here. */
  datatype AnyChunk = Chunk(pid: int, data: seq<byte>, start: bool)

  /** A chunk that begins a section is not empty: its first byte is the table id. */
  type Chunk = c: AnyChunk | c.start ==> c.data != [] witness Chunk(0, [], false)

  function Pid(p: Packet): (pid: int)
    ensures 0 <= pid < 8192
  {
    (p[1] as int % 32) * 256 + p[2] as int
  }

  predicate UnitStart(p: Packet)
  {
    (p[1] as int / 64) % 2 == 1
  }

  /** Where the payload begins: after the header and the adaptation field, which may declare
      more bytes than the packet has. */
  function PayloadOffset(p: Packet): (n: nat)
    ensures 4 <= n <= 260
  {
    if (p[3] as int / 32) % 2 == 1 then 4 + p[4] as int + 1 else 4
  }

  /** The payload; empty when the adaptation field overruns the packet. */
  function Payload(p: Packet): (pay: seq<byte>)
    ensures |pay| <= 184
  {
    if PayloadOffset(p) <= TS_SIZE then p[PayloadOffset(p)..] else []
  }

  /** How much of `b`, which starts with a section header, belongs to that section. */
  function SectionLength(b: seq<byte>): (n: nat)
    requires b != []
    ensures 1 <= n <= |b|
  {
    if |b| < 3 || Declared(b) > |b| then |b| else Declared(b)
  }

  /** Cuts bytes that begin with a section header at the declared section ends. */
  function SectionChunks(pid: int, b: seq<byte>): seq<Chunk>
  {
    if b == [] then []
    else
      var n := SectionLength(b);
      [Chunk(pid, b[..n], true)] + SectionChunks(pid, b[n..])
  }

  /** The chunks of one packet, in the order in which Action hands them on. */
  function Chunks(p: Packet): seq<Chunk>
  {
    var pay := Payload(p);
    if UnitStart(p) then
      if pay == [] || pay[0] as int >= |pay| then []
      else
        var n: nat := 1 + pay[0] as int;
        [Chunk(Pid(p), pay[1..n], false)] + SectionChunks(Pid(p), pay[n..])
    else if pay == [] then []
    else [Chunk(Pid(p), pay, false)]
  }

  /** The bytes of a list of chunks, one after the other. */
  function Bytes(cs: seq<Chunk>): seq<byte> {
    if cs == [] then [] else cs[0].data + Bytes(cs[1..])
  }

  predicate AllOn(cs: seq<Chunk>, pid: int) {
    forall c :: c in cs ==> c.pid == pid
  }

  predicate Short(cs: seq<Chunk>) {
    forall c :: c in cs ==> |c.data| <= 184
  }

  lemma {:induction false} SectionChunksPartition(pid: int, b: seq<byte>)
    ensures Bytes(SectionChunks(pid, b)) == b
    ensures forall c :: c in SectionChunks(pid, b) ==> c.start && c.pid == pid && |c.data| <= |b|
  {
    if b != [] {
      var n := SectionLength(b);
      SectionChunksPartition(pid, b[n..]);
      var cs := SectionChunks(pid, b);
      assert cs[1..] == SectionChunks(pid, b[n..]);
      assert b == b[..n] + b[n..];
    }
  }

  /** The chunks of a packet are exactly its payload after the pointer byte, or nothing when the
      adaptation field or the pointer overruns the packet. Only the first chunk of a packet can
      lack the start mark, and it does; all chunks are on the packet's PID and fit in a packet. */
  lemma ChunksPartition(p: Packet)
    ensures Bytes(Chunks(p)) ==
      if UnitStart(p)
      then (if Payload(p) == [] || Payload(p)[0] as int >= |Payload(p)| then [] else Payload(p)[1..])
      else Payload(p)
    ensures forall i :: 0 <= i < |Chunks(p)| ==> Chunks(p)[i].start == (i > 0)
    ensures AllOn(Chunks(p), Pid(p)) && Short(Chunks(p))
  {
    hide Payload, UnitStart, Pid, SectionLength, SectionChunks;
    var pay := Payload(p);
    var cs := Chunks(p);
    if UnitStart(p) && pay != [] && (pay[0] as int) < |pay| {
      var n: nat := 1 + pay[0] as int;
      SectionChunksPartition(Pid(p), pay[n..]);
      assert cs[1..] == SectionChunks(Pid(p), pay[n..]);
      assert pay[1..] == pay[1..n] + pay[n..];
      forall i | 0 <= i < |cs|
        ensures cs[i].start == (i > 0)
      {
        if i > 0 {
          assert cs[i] in cs[1..];
        }
      }
    } else if cs != [] {
      assert cs[1..] == [];
    }
  }
}

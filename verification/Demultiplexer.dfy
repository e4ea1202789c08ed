/** The section demultiplexer of one device: the list of known PIDs with the table id that was
    last seen on each, and the list of open section filters. */
module Demultiplexer {
  import opened Bits
  import opened Sections
  import opened Chunking

  datatype PidEntry = PidEntry(pid: int, tid: int)

  datatype Demux = Demux(pids: seq<PidEntry>, filters: seq<FilterState>)

  /** The table id given to a PID for which no section has been seen. */
  const NO_TID: int := 0xffff

  /** cMcliPidList::GetTidFromPid */
  function GetTid(pids: seq<PidEntry>, pid: int): int {
    if pids == [] then -1
    else if pids[0].pid == pid then pids[0].tid
    else GetTid(pids[1..], pid)
  }

  /** cMcliPidList::SetPid with a table id: change the entry of `pid`, or add one. */
  function SetTid(pids: seq<PidEntry>, pid: int, tid: int): seq<PidEntry> {
    if pids == [] then [PidEntry(pid, tid)]
    else if pids[0].pid == pid then [if tid != NO_TID then PidEntry(pid, tid) else pids[0]] + pids[1..]
    else [pids[0]] + SetTid(pids[1..], pid, tid)
  }

  /** cMcliPidList::SetPid with table id -1: delete the entry of `pid`. */
  function DropPid(pids: seq<PidEntry>, pid: int): seq<PidEntry> {
    if pids == [] then []
    else if pids[0].pid == pid then pids[1..]
    else [pids[0]] + DropPid(pids[1..], pid)
  }

  /** Matches takes the table id as an unsigned char, so NO_TID arrives as 0xFF. */
  function LowByte(tid: int): byte {
    tid % 256
  }

  /** The loop of ProcessChunk over the filters: the chunk goes to every filter that matches, and
      a filter whose write fails is deleted. */
  function StepFilters(fs: seq<FilterState>, tid: byte, c: Chunk): seq<FilterState> {
    if fs == [] then []
    else
      var rest := StepFilters(fs[1..], tid, c);
      if Matches(fs[0], c.pid, tid) then
        var r := PutSection(fs[0], c.data, c.start);
        (if r.ok then [r.f] else []) + rest
      else [fs[0]] + rest
  }

  /** cMcliFilters::ProcessChunk */
  function ProcessChunk(d: Demux, c: Chunk): Demux
  {
    var pids := if c.start then SetTid(d.pids, c.pid, c.data[0] as int) else d.pids;
    var tid := if c.start then c.data[0] as int else GetTid(d.pids, c.pid);
    Demux(pids, if tid == -1 then d.filters else StepFilters(d.filters, LowByte(tid), c))
  }

  function RunChunks(d: Demux, cs: seq<Chunk>): Demux
    decreases |cs|
  {
    if cs == [] then d
    else
      RunChunks(ProcessChunk(d, cs[0]), cs[1..])
  }

  /** Action over a list of packets. */
  function Run(d: Demux, ps: seq<Packet>): Demux
    decreases |ps|
  {
    if ps == [] then d
    else
      Run(RunChunks(d, Chunks(ps[0])), ps[1..])
  }

  /** All chunks of a list of packets. */
  function Stream(ps: seq<Packet>): seq<Chunk>
  {
    if ps == [] then []
    else
      Chunks(ps[0]) + Stream(ps[1..])
  }

  lemma {:induction false} RunChunksSplit(d: Demux, a: seq<Chunk>, b: seq<Chunk>)
    ensures RunChunks(d, a + b) == RunChunks(RunChunks(d, a), b)
    decreases |a|
  {
    if a == [] {
      assert a + b == b;
    } else {
      assert (a + b)[1..] == a[1..] + b;
      RunChunksSplit(ProcessChunk(d, a[0]), a[1..], b);
    }
  }

  lemma {:induction false} RunIsRunChunks(d: Demux, ps: seq<Packet>)
    ensures Run(d, ps) == RunChunks(d, Stream(ps))
    decreases |ps|
  {
    if ps != [] {
      var cs := Chunks(ps[0]);
      RunIsRunChunks(RunChunks(d, cs), ps[1..]);
      RunChunksSplit(d, cs, Stream(ps[1..]));
    }
  }

  lemma {:induction false} GetAfterSet(pids: seq<PidEntry>, pid: int, tid: int, q: int)
    requires 0 <= tid < NO_TID
    ensures GetTid(SetTid(pids, pid, tid), q) == if q == pid then tid else GetTid(pids, q)
  {
    if pids != [] && pids[0].pid != pid {
      GetAfterSet(pids[1..], pid, tid, q);
    }
  }

  /** Without a table id SetPid adds an entry if there is none, and changes nothing otherwise. */
  lemma {:induction false} GetAfterAdd(pids: seq<PidEntry>, pid: int, q: int)
    ensures GetTid(SetTid(pids, pid, NO_TID), q)
            == if q == pid && (forall i :: 0 <= i < |pids| ==> pids[i].pid != pid) then 0xffff else GetTid(pids, q)
  {
    if pids != [] && pids[0].pid != pid {
      GetAfterAdd(pids[1..], pid, q);
      assert forall i :: 1 <= i < |pids| ==> pids[i] == pids[1..][i - 1];
    }
  }

  /** A table id reaches the filters as it is, and none as 0xFF. */
  lemma LowByteOf(tid: int)
    ensures 0 <= tid < 256 ==> LowByte(tid) == tid
    ensures LowByte(NO_TID) == 0xFF
  {
  }
}

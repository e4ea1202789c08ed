/** What one filter experiences, and the proof that nothing else matters to it: not the other
    filters, not the packets of other PIDs. */
module Isolation {
  import opened Wrappers
  import opened Bits
  import opened Sections
  import opened Chunking
  import opened Demultiplexer

  /** The table id of a PID after a chunk on that PID. */
  function NextTid(tid: int, c: Chunk): int
  {
    if c.start then c.data[0] as int else tid
  }

  /** A chunk of the filter's PID reaches the filter. None: the filter has been deleted. */
  function StepOne(f: FilterState, tid: int, c: Chunk): Option<FilterState>
  {
    var t := NextTid(tid, c);
    if t == -1 || !Matches(f, c.pid, LowByte(t)) then Some(f)
    else
      var r := PutSection(f, c.data, c.start);
      if r.ok then Some(r.f) else None
  }

  /** The fate of a filter alone, given the table id of its PID. */
  function Fate(f: FilterState, tid: int, cs: seq<Chunk>): Option<FilterState>
    decreases |cs|
  {
    if cs == [] then Some(f)
    else if cs[0].pid != f.pid then Fate(f, tid, cs[1..])
      else
        var o := StepOne(f, tid, cs[0]);
        if o.None? then None else Fate(o.value, NextTid(tid, cs[0]), cs[1..])
  }

  /** The table id of PID `pid` after some chunks. */
  function FinalTid(tid: int, pid: int, cs: seq<Chunk>): int
    decreases |cs|
  {
    if cs == [] then tid
    else
      FinalTid(if cs[0].pid == pid then NextTid(tid, cs[0]) else tid, pid, cs[1..])
  }

  function Survivor(o: Option<FilterState>): seq<FilterState> {
    if o.Some? then [o.value] else []
  }

  /** Every filter meets its fate on its own. */
  function Fates(fs: seq<FilterState>, pids: seq<PidEntry>, cs: seq<Chunk>): seq<FilterState>
  {
    if fs == [] then []
    else Survivor(Fate(fs[0], GetTid(pids, fs[0].pid), cs)) + Fates(fs[1..], pids, cs)
  }

  /** The whole demultiplexer is the sum of its filters, each run alone. */
  lemma {:induction false} FiltersAreIndependent(d: Demux, cs: seq<Chunk>)
    ensures RunChunks(d, cs).filters == Fates(d.filters, d.pids, cs)
    decreases |cs|
  {
    if cs == [] {
      FatesOfNothing(d.filters, d.pids);
    } else {
      FiltersAreIndependent(ProcessChunk(d, cs[0]), cs[1..]);
      FatesStep(d.filters, d.pids, cs);
    }
  }

  lemma {:induction false} FatesOfNothing(fs: seq<FilterState>, pids: seq<PidEntry>)
    ensures Fates(fs, pids, []) == fs
  {
    if fs != [] {
      FatesOfNothing(fs[1..], pids);
    }
  }

  /** What the chunk leaves of the filter at the head of the list. */
  function Mine(f: FilterState, tid: int, c: Chunk): Option<FilterState> {
    if c.pid != f.pid then Some(f) else StepOne(f, tid, c)
  }

  lemma MineHead(f: FilterState, fs: seq<FilterState>, pids: seq<PidEntry>, c: Chunk)
    ensures ProcessChunk(Demux(pids, [f] + fs), c).filters
            == Survivor(Mine(f, GetTid(pids, f.pid), c)) + ProcessChunk(Demux(pids, fs), c).filters
    ensures Mine(f, GetTid(pids, f.pid), c).Some? ==> Mine(f, GetTid(pids, f.pid), c).value.pid == f.pid
  {
    hide PutSection, BitAnd, SetTid;
    assert ([f] + fs)[1..] == fs;
    assert PutSection(f, c.data, c.start).f.pid == f.pid by {
      PutSectionPid(f, c.data, c.start);
    }
  }

  lemma PutSectionPid(f: FilterState, data: seq<byte>, start: bool)
    ensures PutSection(f, data, start).f.pid == f.pid
  {
  }

  /** The table id of the filter's PID after the chunk is the one its fate goes on with. */
  lemma NextTidFound(pids: seq<PidEntry>, c: Chunk, pid: int)
    ensures GetTid(ProcessChunk(Demux(pids, []), c).pids, pid)
            == if c.pid == pid then NextTid(GetTid(pids, pid), c) else GetTid(pids, pid)
  {
    if c.start {
      GetAfterSet(pids, c.pid, c.data[0] as int, pid);
    }
  }

  lemma FateUnfold(f: FilterState, tid: int, cs: seq<Chunk>)
    requires cs != []
    ensures var o := Mine(f, tid, cs[0]);
            Fate(f, tid, cs) ==
              if o.None? then None
              else Fate(o.value, if cs[0].pid == f.pid then NextTid(tid, cs[0]) else tid, cs[1..])
  {
  }

  lemma {:induction false} FatesStep(fs: seq<FilterState>, pids: seq<PidEntry>, cs: seq<Chunk>)
    requires cs != []
    ensures var d := ProcessChunk(Demux(pids, fs), cs[0]);
            Fates(fs, pids, cs) == Fates(d.filters, d.pids, cs[1..])
    decreases |fs|
  {
    var c := cs[0];
    var d := ProcessChunk(Demux(pids, fs), c);
    if fs == [] {
      assert d.filters == [];
    } else {
      hide StepOne, NextTid, SetTid, GetTid, StepFilters, Fate, LowByte;
      var f, rest := fs[0], ProcessChunk(Demux(pids, fs[1..]), c);
      assert fs == [f] + fs[1..];
      FatesStep(fs[1..], pids, cs);
      MineHead(f, fs[1..], pids, c);
      NextTidFound(pids, c, f.pid);
      FateUnfold(f, GetTid(pids, f.pid), cs);
      FatesSplit(Survivor(Mine(f, GetTid(pids, f.pid), c)), rest.filters, d.pids, cs[1..]);
    }
  }

  lemma FatesSplit(head: seq<FilterState>, fs: seq<FilterState>, pids: seq<PidEntry>, cs: seq<Chunk>)
    requires |head| <= 1
    ensures Fates(head + fs, pids, cs) ==
      (if head == [] then [] else Survivor(Fate(head[0], GetTid(pids, head[0].pid), cs))) + Fates(fs, pids, cs)
  {
    if head == [] {
      assert head + fs == fs;
    } else {
      assert (head + fs)[1..] == fs;
    }
  }

  function ChunksOn(cs: seq<Chunk>, pid: int): seq<Chunk>
  {
    if cs == [] then []
    else (if cs[0].pid == pid then [cs[0]] else []) + ChunksOn(cs[1..], pid)
  }

  function PacketsOn(ps: seq<Packet>, pid: int): seq<Packet>
  {
    if ps == [] then []
    else
      (if Pid(ps[0]) == pid then [ps[0]] else []) + PacketsOn(ps[1..], pid)
  }

  lemma {:induction false} ChunksOnSplit(a: seq<Chunk>, b: seq<Chunk>, pid: int)
    ensures ChunksOn(a + b, pid) == ChunksOn(a, pid) + ChunksOn(b, pid)
    decreases |a|
  {
    if a == [] {
      assert a + b == b;
    } else {
      assert (a + b)[1..] == a[1..] + b;
      ChunksOnSplit(a[1..], b, pid);
      SeqAssoc(if a[0].pid == pid then [a[0]] else [], ChunksOn(a[1..], pid), ChunksOn(b, pid));
    }
  }

  lemma {:induction false} ChunksOnOnePid(cs: seq<Chunk>, pid: int, q: int)
    requires AllOn(cs, q)
    ensures ChunksOn(cs, pid) == if pid == q then cs else []
    decreases |cs|
  {
    if cs != [] {
      ChunksOnOnePid(cs[1..], pid, q);
    }
  }

  lemma {:induction false} StreamOn(ps: seq<Packet>, pid: int)
    ensures ChunksOn(Stream(ps), pid) == Stream(PacketsOn(ps, pid))
  {
    if ps != [] {
      StreamOn(ps[1..], pid);
      ChunksPartition(ps[0]);
      ChunksOnOnePacket(Chunks(ps[0]), Pid(ps[0]), Stream(ps[1..]), pid);
      if Pid(ps[0]) == pid {
        StreamCons(ps[0], PacketsOn(ps[1..], pid));
      } else {
        assert PacketsOn(ps, pid) == PacketsOn(ps[1..], pid);
      }
    }
  }

  lemma ChunksOnOnePacket(cs: seq<Chunk>, q: int, rest: seq<Chunk>, pid: int)
    requires AllOn(cs, q)
    ensures ChunksOn(cs + rest, pid) == (if pid == q then cs + ChunksOn(rest, pid) else ChunksOn(rest, pid))
  {
    ChunksOnSplit(cs, rest, pid);
    ChunksOnOnePid(cs, pid, q);
  }

  lemma StreamCons(p: Packet, ps: seq<Packet>)
    ensures Stream([p] + ps) == Chunks(p) + Stream(ps)
  {
  }

  lemma FateCons(f: FilterState, tid: int, c: Chunk, cs: seq<Chunk>)
    ensures Fate(f, tid, [c] + cs) ==
      if c.pid != f.pid then Fate(f, tid, cs)
      else if StepOne(f, tid, c).None? then None
      else Fate(StepOne(f, tid, c).value, NextTid(tid, c), cs)
  {
  }

  lemma {:induction false} FateOn(f: FilterState, tid: int, cs: seq<Chunk>)
    ensures Fate(f, tid, cs) == Fate(f, tid, ChunksOn(cs, f.pid))
    decreases |cs|
  {
    if cs != [] {
      var c := cs[0];
      assert cs == [c] + cs[1..];
      FateCons(f, tid, c, cs[1..]);
      if c.pid == f.pid {
        FateCons(f, tid, c, ChunksOn(cs[1..], f.pid));
        var o := StepOne(f, tid, c);
        if o.Some? {
          assert o.value.pid == f.pid;
          FateOn(o.value, NextTid(tid, c), cs[1..]);
        }
      } else {
        assert ChunksOn(cs, f.pid) == ChunksOn(cs[1..], f.pid);
        FateOn(f, tid, cs[1..]);
      }
    }
  }

  /** The filters on one PID. */
  function FiltersOn(fs: seq<FilterState>, pid: int): seq<FilterState> {
    if fs == [] then []
    else (if fs[0].pid == pid then [fs[0]] else []) + FiltersOn(fs[1..], pid)
  }

  lemma {:induction false} FateKeepsIdentity(f: FilterState, tid: int, cs: seq<Chunk>)
    ensures Fate(f, tid, cs).Some? ==> SameFilter(f, Fate(f, tid, cs).value)
    decreases |cs|
  {
    if cs != [] {
      if cs[0].pid == f.pid {
        var o := StepOne(f, tid, cs[0]);
        if o.Some? {
          FateKeepsIdentity(o.value, NextTid(tid, cs[0]), cs[1..]);
        }
      } else {
        FateKeepsIdentity(f, tid, cs[1..]);
      }
    }
  }

  lemma {:induction false} FatesOn(fs: seq<FilterState>, pids: seq<PidEntry>, cs: seq<Chunk>, pid: int)
    ensures FiltersOn(Fates(fs, pids, cs), pid)
            == FiltersOn(Fates(fs, pids, ChunksOn(cs, pid)), pid)
    decreases |fs|
  {
    if fs != [] {
      FatesOn(fs[1..], pids, cs, pid);
      var f := fs[0];
      var tid := GetTid(pids, f.pid);
      var on := ChunksOn(cs, pid);
      FateKeepsIdentity(f, tid, cs);
      FateKeepsIdentity(f, tid, on);
      FiltersOnSplit(Survivor(Fate(f, tid, cs)), Fates(fs[1..], pids, cs), pid);
      FiltersOnSplit(Survivor(Fate(f, tid, on)), Fates(fs[1..], pids, on), pid);
      if f.pid == pid {
        FateOn(f, tid, cs);
      } else {
        FiltersOnOther(Survivor(Fate(f, tid, cs)), pid);
        FiltersOnOther(Survivor(Fate(f, tid, on)), pid);
      }
    }
  }

  lemma {:induction false} FiltersOnSplit(a: seq<FilterState>, b: seq<FilterState>, pid: int)
    ensures FiltersOn(a + b, pid) == FiltersOn(a, pid) + FiltersOn(b, pid)
    decreases |a|
  {
    if a == [] {
      assert a + b == b;
    } else {
      assert (a + b)[1..] == a[1..] + b;
      FiltersOnSplit(a[1..], b, pid);
      SeqAssoc(if a[0].pid == pid then [a[0]] else [], FiltersOn(a[1..], pid), FiltersOn(b, pid));
    }
  }

  lemma FiltersOnOther(fs: seq<FilterState>, pid: int)
    requires |fs| <= 1 && forall f :: f in fs ==> f.pid != pid
    ensures FiltersOn(fs, pid) == []
  {
  }

  /** PID non-interference: whatever packets of other PIDs come in between, the filters on a PID
      end in the state in which the packets of that PID alone would have left them. */
  lemma PidsDoNotInterfere(d: Demux, ps: seq<Packet>, pid: int)
    ensures FiltersOn(Run(d, ps).filters, pid) == FiltersOn(Run(d, PacketsOn(ps, pid)).filters, pid)
  {
    var on := PacketsOn(ps, pid);
    RunIsRunChunks(d, ps);
    RunIsRunChunks(d, on);
    FiltersAreIndependent(d, Stream(ps));
    FiltersAreIndependent(d, Stream(on));
    FatesOn(d.filters, d.pids, Stream(ps), pid);
    StreamOn(ps, pid);
  }
}

/** filter.c as it is written: filter objects with a buffer that is filled in place, lists that
    are walked and changed by loops. Every method is proved to do what the functions of Sections,
    Chunking, Demultiplexer and Registry say. */
module FilterObjects {
  import opened Bits
  import opened Sections
  import opened Chunking
  import opened Demultiplexer
  import opened Registry

  /** cMcliFilter. The reader's end of the socket is `reader`; `sent` is what was written. */
  class Filter {
    const handle: int
    const pid: int
    const tid: byte
    const mask: byte
    const reader: nat -> WriteOutcome
    const buffer: array<byte>
    var used: nat
    var closed: bool
    var sent: seq<seq<byte>>

    ghost predicate Valid()
      reads this
    {
      buffer.Length == BUFFER_SIZE && used <= buffer.Length
    }

    ghost function State(): (f: FilterState)
      reads this, buffer
      requires Valid()
    {
      FilterState(handle, pid, tid, mask, closed, buffer[..used], sent, reader)
    }

    constructor (handle: int, pid: int, tid: byte, mask: byte, reader: nat -> WriteOutcome)
      ensures Valid() && fresh(buffer)
      ensures State() == FilterState(handle, pid, tid, mask, false, [], [], reader)
    {
      this.handle, this.pid, this.tid, this.mask, this.reader := handle, pid, tid, mask, reader;
      buffer := new byte[BUFFER_SIZE];
      used, closed, sent := 0, false, [];
    }

    method IsMatch(pid: int, tid: byte) returns (b: bool)
      requires Valid()
      ensures b == Matches(State(), pid, tid)
    {
      b := this.pid == pid && this.tid == BitAnd(tid, mask);
    }

    method Reset()
      requires Valid()
      modifies this`used
      ensures Valid() && State() == old(State()).(acc := [])
    {
      used := 0;
    }

    /** write() on the socket; false if it failed for good. */
    method Write(section: seq<byte>) returns (ok: bool)
      modifies this`sent
      ensures sent == old(sent) + [section]
      ensures ok == !reader(old(|sent|)).Broken?
    {
      ok := !reader(|sent|).Broken?;
      sent := sent + [section];
    }

    method Append(data: seq<byte>)
      requires Valid() && used + |data| <= buffer.Length
      modifies this`used, buffer
      ensures Valid() && State() == old(State()).(acc := old(State()).acc + data)
    {
      forall i | 0 <= i < |data| {
        buffer[used + i] := data[i];
      }
      used := used + |data|;
      assert buffer[..used] == old(buffer[..used]) + data;
    }

    method PutSection(data: seq<byte>, start: bool) returns (ok: bool)
      requires Valid()
      modifies this, buffer
      ensures Valid()
      ensures PutResult(State(), ok) == Sections.PutSection(old(State()), data, start)
    {
      if used == 0 && !start {
        return true;
      }
      if used != 0 && start {
        Reset();
      }
      if used + |data| >= BUFFER_SIZE {
        Reset();
        return true;
      }
      ghost var kept := State().acc;
      Append(data);
      assert buffer[..used] == kept + data;
      if used > 3 {
        var length := (buffer[1] as int % 16) * 256 + buffer[2] as int + 3;
        assert length == Declared(buffer[..used]);
        if used >= length {
          assert buffer[..length] == buffer[..used][..length];
          used := 0;
          ok := Write(buffer[..length]);
          if !ok {
            closed := true;
          }
          return ok;
        }
      }
      ok := true;
    }

    /** The chunk is put if the filter matches; false if the filter has to be deleted. */
    method Offer(pid: int, data: seq<byte>, start: bool, tid: byte) returns (ok: bool)
      requires Valid() && (start ==> data != [])
      modifies this, buffer
      ensures Valid()
      ensures (if ok then [State()] else []) == Passed(old(State()), tid, Chunk(pid, data, start))
    {
      ok := true;
      var m := IsMatch(pid, tid);
      if m {
        ok := PutSection(data, start);
      }
    }
  }

  /** cMcliPidList::SetPid */
  function SetOrDrop(pids: seq<PidEntry>, pid: int, tid: int): seq<PidEntry> {
    if tid >= 0 then SetTid(pids, pid, tid) else DropPid(pids, pid)
  }

  /** The walk over the PIDs: the entry is found, or it is further on. */
  lemma WalkStep(was: seq<PidEntry>, i: nat, pid: int, tid: int)
    requires i < |was|
    ensures was[..i] + SetOrDrop(was[i..], pid, tid) ==
      if was[i].pid != pid then was[..i + 1] + SetOrDrop(was[i + 1..], pid, tid)
      else if tid < 0 then was[..i] + was[i + 1..]
      else if tid != NO_TID then was[i := PidEntry(pid, tid)]
      else was
  {
    var rest := was[i..];
    assert rest[0] == was[i] && rest[1..] == was[i + 1..];
    OneMore(was, i);
    if was[i].pid != pid {
      assert SetOrDrop(rest, pid, tid) == [was[i]] + SetOrDrop(was[i + 1..], pid, tid);
    }
  }

  lemma WalkEnd(was: seq<PidEntry>, pid: int, tid: int)
    ensures was[..|was|] + SetOrDrop(was[|was|..], pid, tid) == if tid >= 0 then was + [PidEntry(pid, tid)] else was
  {
  }

  /** What is left of a filter in the list once a chunk has passed it. */
  function Passed(f: FilterState, tid: byte, c: Chunk): seq<FilterState> {
    if Matches(f, c.pid, tid) then
      var r := Sections.PutSection(f, c.data, c.start);
      if r.ok then [r.f] else []
    else [f]
  }

  /** One more filter has been passed. */
  lemma PassedSplit(was: seq<FilterState>, now: seq<FilterState>, i: nat, tid: byte, c: Chunk)
    requires i < |was|
    requires now == was[..i] + Passed(was[i], tid, c) + was[i + 1..]
    ensures var k := i + |Passed(was[i], tid, c)|;
            && k <= |now|
            && was[..i] + StepFilters(was[i..], tid, c) == now[..k] + StepFilters(now[k..], tid, c)
  {
    var p := Passed(was[i], tid, c);
    var k := i + |p|;
    PassedHead(was, i, tid, c);
    assert now[..k] == was[..i] + p && now[k..] == was[i + 1..];
  }

  lemma PassedHead(fs: seq<FilterState>, n: nat, tid: byte, c: Chunk)
    requires n < |fs|
    ensures StepFilters(fs[n..], tid, c) == Passed(fs[n], tid, c) + StepFilters(fs[n + 1..], tid, c)
  {
    assert fs[n..][0] == fs[n] && fs[n..][1..] == fs[n + 1..];
  }

  /** cMcliFilters with its cMcliPidList. `model` is the state as a value. */
  class Filters {
    var pids: seq<PidEntry>
    var filters: seq<Filter>
    ghost var model: Demux
    ghost var Repr: set<object>

    ghost predicate Valid()
      reads this, Repr
    {
      ValidBut(-1)
    }

    /** Every filter but the k-th is as the model says. */
    ghost predicate ValidBut(k: int)
      reads this, Repr
    {
      && this !in Repr
      && pids == model.pids && |filters| == |model.filters|
      && (forall i :: 0 <= i < |filters| ==> filters[i] in Repr && filters[i].buffer in Repr)
      && (forall i :: 0 <= i < |filters| && i != k ==> filters[i].Valid() && filters[i].State() == model.filters[i])
      && (forall i, j :: 0 <= i < j < |filters| ==> filters[i] != filters[j] && filters[i].buffer != filters[j].buffer)
    }

    constructor ()
      ensures Valid() && fresh(Repr) && model == Demux([], [])
    {
      pids, filters := [], [];
      model, Repr := Demux([], []), {};
    }

    method LookupTid(pid: int) returns (tid: int)
      ensures tid == GetTid(pids, pid)
    {
      var i := 0;
      while i < |pids|
        invariant 0 <= i <= |pids|
        invariant GetTid(pids[i..], pid) == GetTid(pids, pid)
      {
        if pids[i].pid == pid {
          return pids[i].tid;
        }
        i := i + 1;
      }
      tid := -1;
    }

    /** cMcliPidList::SetPid: a negative table id deletes the entry. */
    method SetPid(pid: int, tid: int)
      requires Valid()
      modifies this`pids, this`model
      ensures Valid() && Repr == old(Repr) && filters == old(filters)
      ensures model == Demux(SetOrDrop(old(model.pids), pid, tid), old(model.filters))
    {
      WalkPids(pid, tid);
      model := model.(pids := pids);
    }

    method WalkPids(pid: int, tid: int)
      modifies this`pids
      ensures pids == SetOrDrop(old(pids), pid, tid)
    {
      hide SetOrDrop;
      ghost var was := pids;
      var i := 0;
      assert was[..0] == [] && was[0..] == was;
      while i < |pids|
        invariant 0 <= i <= |pids| && pids == was
        invariant SetOrDrop(was, pid, tid) == was[..i] + SetOrDrop(was[i..], pid, tid)
      {
        WalkStep(was, i, pid, tid);
        if pids[i].pid == pid {
          if tid < 0 {
            pids := pids[..i] + pids[i + 1..];
          } else if tid != NO_TID {
            pids := pids[i := PidEntry(pid, tid)];
          }
          return;
        }
        i := i + 1;
      }
      WalkEnd(was, pid, tid);
      if tid >= 0 {
        pids := pids + [PidEntry(pid, tid)];
      }
    }

    /** Offers the chunk to the i-th filter, and deletes the filter if its write fails. */
    method OfferTo(i: nat, pid: int, data: seq<byte>, start: bool, tid: byte) returns (ok: bool)
      requires Valid() && i < |filters| && (start ==> data != [])
      modifies this`filters, this`model, Repr
      ensures Valid() && Repr == old(Repr)
      ensures model.pids == old(model.pids)
      ensures var passed := Passed(old(model.filters)[i], tid, Chunk(pid, data, start));
              && model.filters == old(model.filters)[..i] + passed + old(model.filters)[i + 1..]
              && |passed| == if ok then 1 else 0
    {
      hide Passed;
      var f := filters[i];
      ok := f.Offer(pid, data, start, tid);
      assert ValidBut(i);
      if ok {
        model := model.(filters := model.filters[i := f.State()]);
      } else {
        DeleteAt(i);
      }
    }

    method DeleteAt(i: nat)
      requires ValidBut(i) && i < |filters|
      modifies this`filters, this`model
      ensures Valid() && Repr == old(Repr)
      ensures model == Demux(old(model.pids), old(model.filters)[..i] + old(model.filters)[i + 1..])
    {
      filters := filters[..i] + filters[i + 1..];
      model := model.(filters := model.filters[..i] + model.filters[i + 1..]);
    }

    /** The chunk goes to every filter that matches; a filter whose write fails is deleted from
        the list while the list is walked. */
    method Distribute(pid: int, data: seq<byte>, start: bool, tid: byte)
      requires Valid() && (start ==> data != [])
      modifies this`filters, this`model, Repr
      ensures Valid() && Repr == old(Repr)
      ensures model == Demux(old(model.pids), StepFilters(old(model.filters), tid, Chunk(pid, data, start)))
    {
      ghost var c: Chunk := Chunk(pid, data, start);
      ghost var target := StepFilters(model.filters, tid, c);
      var i := 0;
      while i < |filters|
        invariant Valid() && Repr == old(Repr) && model.pids == old(model.pids)
        invariant 0 <= i <= |filters|
        invariant target == model.filters[..i] + StepFilters(model.filters[i..], tid, c)
        decreases |filters| - i
      {
        ghost var was := model.filters;
        var ok := OfferTo(i, pid, data, start, tid);
        PassedSplit(was, model.filters, i, tid, c);
        if ok {
          i := i + 1;
        }
      }
    }

    method ProcessChunk(pid: int, data: seq<byte>, start: bool)
      requires Valid() && (start ==> data != [])
      modifies this, Repr
      ensures Valid() && Repr == old(Repr)
      ensures model == Demultiplexer.ProcessChunk(old(model), Chunk(pid, data, start))
    {
      var tid := -1;
      if start {
        tid := data[0] as int;
        SetPid(pid, tid);
      } else {
        tid := LookupTid(pid);
      }
      if tid != -1 {
        Distribute(pid, data, start, LowByte(tid));
      }
    }

    method WantPid(pid: int) returns (wanted: bool)
      requires Valid()
      ensures wanted == Registry.WantPid(model, pid)
    {
      var i := 0;
      while i < |filters|
        invariant 0 <= i <= |filters|
        invariant forall j :: 0 <= j < i ==> model.filters[j].pid != pid
      {
        assert filters[i].State() == model.filters[i];
        if filters[i].pid == pid {
          return true;
        }
        i := i + 1;
      }
      wanted := false;
    }

    /** The index of the first filter with this handle, or the number of filters. */
    method Find(handle: int) returns (i: nat)
      requires Valid()
      ensures i <= |filters|
      ensures i < |filters| ==> model.filters[i].handle == handle
      ensures forall j :: 0 <= j < i ==> model.filters[j].handle != handle
    {
      i := 0;
      while i < |filters|
        invariant i <= |filters|
        invariant forall j :: 0 <= j < i ==> model.filters[j].handle != handle
      {
        assert filters[i].State() == model.filters[i];
        if filters[i].handle == handle {
          return;
        }
        i := i + 1;
      }
    }

    method GetPid(handle: int) returns (pid: int)
      requires Valid()
      ensures pid == Registry.GetPid(model.filters, handle)
    {
      var at := Find(handle);
      FirstWithHandle(model.filters, handle, at);
      pid := -1;
      var uses := 0;
      if at < |filters| {
        assert filters[at].State() == model.filters[at];
        pid := filters[at].pid;
      }
      if pid != -1 {
        var i := 0;
        assert model.filters[..0] == [];
        while i < |filters|
          invariant 0 <= i <= |filters|
          invariant uses == CountPid(model.filters[..i], pid)
        {
          CountSplit(model.filters, i, pid);
          assert filters[i].State() == model.filters[i];
          if filters[i].pid == pid {
            uses := uses + 1;
          }
          i := i + 1;
        }
        assert model.filters[..i] == model.filters;
      }
      if uses != 1 {
        pid := -1;
      }
    }

    method GarbageCollect(gone: set<int>)
      requires Valid()
      modifies this`filters, this`model
      ensures Valid() && Repr == old(Repr)
      ensures model == Demux(old(model.pids), Collect(old(model.filters), gone))
    {
      hide Collecting;
      ghost var target := Collect(model.filters, gone);
      CollectingEnds(model.filters, gone);
      var i := 0;
      while i < |filters|
        invariant Valid() && Repr == old(Repr) && model.pids == old(model.pids)
        invariant 0 <= i <= |filters|
        invariant target == Collecting(model.filters, i, gone)
        decreases |filters| - i
      {
        ghost var was := model.filters;
        var deleted := CollectAt(i, gone);
        CollectSplit(was, model.filters, i, if deleted then i else i + 1, gone);
        if !deleted {
          i := i + 1;
        }
      }
      CollectingEnds(model.filters, gone);
    }

    method CollectAt(i: nat, gone: set<int>) returns (deleted: bool)
      requires Valid() && i < |filters|
      modifies this`filters, this`model
      ensures Valid() && Repr == old(Repr) && model.pids == old(model.pids)
      ensures deleted == (old(model.filters)[i].handle in gone)
      ensures model.filters == if deleted then old(model.filters)[..i] + old(model.filters)[i + 1..]
                               else old(model.filters)
    {
      assert filters[i].State() == model.filters[i];
      deleted := filters[i].handle in gone;
      if deleted {
        DeleteAt(i);
      }
    }

    /** A new filter at the end of the list; `handle` is the read end of its new socket. */
    method OpenFilter(handle: int, pid: int, tid: byte, mask: byte, reader: nat -> WriteOutcome, gone: set<int>)
      requires Valid() && pid >= 0
      modifies this
      ensures Valid() && fresh(Repr - old(Repr))
      ensures model == Registry.OpenFilter(old(model), FilterState(handle, pid, tid, mask, false, [], [], reader), gone)
    {
      GarbageCollect(gone);
      var wanted := WantPid(pid);
      if !wanted {
        SetPid(pid, NO_TID);
      }
      AddNew(handle, pid, tid, mask, reader);
    }

    method AddNew(handle: int, pid: int, tid: byte, mask: byte, reader: nat -> WriteOutcome)
      requires Valid()
      modifies this`filters, this`model, this`Repr
      ensures Valid() && fresh(Repr - old(Repr))
      ensures model == Demux(old(model.pids),
                             old(model.filters) + [FilterState(handle, pid, tid, mask, false, [], [], reader)])
    {
      var f := new Filter(handle, pid, tid, mask, reader);
      AddLast(f);
    }

    method AddLast(f: Filter)
      requires Valid() && f.Valid() && f !in Repr && f.buffer !in Repr
      requires f as object != this && f.buffer as object != this
      modifies this`filters, this`model, this`Repr
      ensures Valid() && Repr == old(Repr) + {f, f.buffer}
      ensures model == Demux(old(model.pids), old(model.filters) + [f.State()])
    {
      filters := filters + [f];
      model := model.(filters := model.filters + [f.State()]);
      Repr := Repr + {f, f.buffer};
    }

    /** Returns the PID if the filter was the last one on it, -1 otherwise. */
    method CloseFilter(handle: int, gone: set<int>) returns (pid: int)
      requires Valid()
      modifies this
      ensures Valid() && Repr == old(Repr)
      ensures Closed(model, pid) == Registry.CloseFilter(old(model), handle, gone)
    {
      GarbageCollect(gone);
      pid := GetPid(handle);
      if pid != -1 {
        SetPid(pid, -1);
      }
      Delete(handle);
    }

    /** Close() and Del() of the filter with this handle, if there is one. */
    method Delete(handle: int)
      requires Valid()
      modifies this`filters, this`model
      ensures Valid() && Repr == old(Repr)
      ensures model == Demux(old(model.pids), Remove(old(model.filters), handle))
    {
      var at := Find(handle);
      FirstWithHandle(model.filters, handle, at);
      if at < |filters| {
        DeleteAt(at);
      }
    }

    /** The while loop of Action: sections begin at `start` and follow one another. */
    method HandleSections(pid: int, p: Packet, beyond: nat -> byte, start: nat)
      requires Valid() && start <= TS_SIZE
      modifies this, Repr
      ensures Valid() && Repr == old(Repr)
      ensures model == RunChunks(old(model), SectionChunks(pid, p[start..]))
    {
      hide SectionChunks, SectionLength, Demultiplexer.ProcessChunk;
      NoMoreChunks(pid, p);
      var block := start;
      var len: int := 188 - block;
      ghost var target := RunChunks(model, SectionChunks(pid, p[start..]));
      while len > 0
        invariant 0 <= len && block + len == 188
        invariant Valid() && Repr == old(Repr)
        invariant RunChunks(model, SectionChunks(pid, p[block..])) == target
      {
        var chunklen := (ByteAt(p, beyond, block + 1) as int % 16) * 256 + ByteAt(p, beyond, block + 2) as int + 3;
        if chunklen > len {
          chunklen := len;
        }
        ChunkLength(p, beyond, block);
        SectionChunksHead(model, pid, p, block, chunklen);
        ProcessChunk(pid, p[block..block + chunklen], true);
        block := block + chunklen;
        len := len - chunklen;
      }
    }

    /** One round of Action: a packet is taken apart. The reads at `block` may lie past the packet;
        `beyond` gives the bytes found there. They have no influence on the result. */
    method HandlePacket(p: Packet, beyond: nat -> byte)
      requires Valid()
      modifies this, Repr
      ensures Valid() && Repr == old(Repr)
      ensures model == RunChunks(old(model), Chunks(p))
    {
      hide RunChunks, Chunks, SectionChunks, Demultiplexer.ProcessChunk;
      var pid := (p[1] as int % 32) * 256 + p[2] as int;
      var offset: int := if (p[3] as int / 32) % 2 == 1 then p[4] as int + 1 else 0;
      var unitStart := (p[1] as int / 64) % 2 == 1;
      var len: int := 188 - 4 - offset;
      var block: nat := 4 + offset;
      if unitStart {
        var pointer := ByteAt(p, beyond, block) as int;
        if len > pointer {
          StartChunksAt(model, p, block, pointer);
          ProcessChunk(pid, p[block + 1..block + 1 + pointer], false);
          HandleSections(pid, p, beyond, block + pointer + 1);
        } else {
          NoChunksAt(model, p, block);
        }
      } else if len > 0 {
        PlainChunkAt(model, p, block);
        ProcessChunk(pid, p[block..block + len], false);
      } else {
        NoChunksAt(model, p, block);
      }
    }
  }

  lemma NoMoreChunks(pid: int, p: Packet)
    ensures SectionChunks(pid, p[TS_SIZE..]) == []
  {
  }

  /** Where the two length bytes lie behind the packet, the chunk is what is left of it. */
  lemma ChunkLength(p: Packet, beyond: nat -> byte, block: nat)
    requires block < TS_SIZE
    ensures var n := (ByteAt(p, beyond, block + 1) as int % 16) * 256 + ByteAt(p, beyond, block + 2) as int + 3;
            SectionLength(p[block..]) == if n > TS_SIZE - block then TS_SIZE - block else n
  {
  }

  lemma OneMore<T>(s: seq<T>, i: nat)
    requires i < |s|
    ensures s[i..] == [s[i]] + s[i + 1..] && s[..i + 1] == s[..i] + [s[i]]
  {
  }

  lemma SectionChunksHead(d: Demux, pid: int, p: Packet, block: nat, n: nat)
    requires block < TS_SIZE && n == SectionLength(p[block..])
    ensures RunChunks(d, SectionChunks(pid, p[block..]))
            == RunChunks(Demultiplexer.ProcessChunk(d, Chunk(pid, p[block..block + n], true)),
                         SectionChunks(pid, p[block + n..]))
  {
    var rest := p[block..];
    assert rest[..n] == p[block..block + n] && rest[n..] == p[block + n..];
    RunChunksCons(d, Chunk(pid, p[block..block + n], true), SectionChunks(pid, p[block + n..]));
  }

  /** Nothing is processed when the adaptation field or the pointer overruns the packet. */
  lemma NoChunksAt(d: Demux, p: Packet, block: nat)
    requires block == PayloadOffset(p)
    requires block >= TS_SIZE || (UnitStart(p) && block + p[block] as int >= TS_SIZE)
    ensures RunChunks(d, Chunks(p)) == d
  {
    assert block < TS_SIZE ==> Payload(p)[0] == p[block];
  }

  lemma PlainChunkAt(d: Demux, p: Packet, block: nat)
    requires !UnitStart(p) && block == PayloadOffset(p) && block < TS_SIZE
    ensures RunChunks(d, Chunks(p)) == Demultiplexer.ProcessChunk(d, Chunk(Pid(p), p[block..TS_SIZE], false))
  {
    assert Payload(p) == p[block..TS_SIZE];
    RunChunksCons(d, Chunk(Pid(p), p[block..TS_SIZE], false), []);
  }

  lemma StartChunksAt(d: Demux, p: Packet, block: nat, pointer: nat)
    requires UnitStart(p) && block == PayloadOffset(p) && block < TS_SIZE && p[block] as int == pointer
    requires block + pointer < TS_SIZE
    ensures RunChunks(d, Chunks(p))
            == RunChunks(Demultiplexer.ProcessChunk(d, Chunk(Pid(p), p[block + 1..block + 1 + pointer], false)),
                         SectionChunks(Pid(p), p[block + 1 + pointer..]))
  {
    hide SectionChunks, SectionLength, Demultiplexer.ProcessChunk, RunChunks;
    var pay := Payload(p);
    assert pay[1..1 + pointer] == p[block + 1..block + 1 + pointer];
    assert pay[1 + pointer..] == p[block + 1 + pointer..];
    RunChunksCons(d, Chunk(Pid(p), p[block + 1..block + 1 + pointer], false),
                  SectionChunks(Pid(p), p[block + 1 + pointer..]));
  }

  /** What is left when the filters from the i-th on have been collected. */
  function Collecting(fs: seq<FilterState>, i: nat, gone: set<int>): seq<FilterState>
    requires i <= |fs|
  {
    fs[..i] + Collect(fs[i..], gone)
  }

  lemma CollectingEnds(fs: seq<FilterState>, gone: set<int>)
    ensures Collecting(fs, 0, gone) == Collect(fs, gone) && Collecting(fs, |fs|, gone) == fs
  {
    assert fs[0..] == fs && fs[|fs|..] == [];
  }

  lemma CollectSplit(was: seq<FilterState>, now: seq<FilterState>, i: nat, k: nat, gone: set<int>)
    requires i < |was|
    requires now == if was[i].handle in gone then was[..i] + was[i + 1..] else was
    requires k == if was[i].handle in gone then i else i + 1
    ensures k <= |now| && Collecting(was, i, gone) == Collecting(now, k, gone)
  {
    assert was[i..][0] == was[i] && was[i..][1..] == was[i + 1..];
    assert now[k..] == was[i + 1..];
    if was[i].handle in gone {
      assert now[..k] == was[..i];
    } else {
      assert now[..k] == was[..i] + [was[i]];
    }
  }

  lemma {:induction false} CountSplit(fs: seq<FilterState>, i: nat, pid: int)
    requires i < |fs|
    ensures CountPid(fs[..i + 1], pid) == CountPid(fs[..i], pid) + (if fs[i].pid == pid then 1 else 0)
    decreases i
  {
    if i == 0 {
      assert fs[..1] == [fs[0]] && fs[..1][1..] == [];
    } else {
      CountSplit(fs[1..], i - 1, pid);
      assert fs[..i + 1][1..] == fs[1..][..i] && fs[..i][1..] == fs[1..][..i - 1];
    }
  }

  lemma {:induction false} FirstWithHandle(fs: seq<FilterState>, handle: int, i: nat)
    requires i <= |fs| && forall j :: 0 <= j < i ==> fs[j].handle != handle
    ensures i == |fs| ==> PidOf(fs, handle) == -1 && Remove(fs, handle) == fs
    ensures i < |fs| && fs[i].handle == handle ==>
            PidOf(fs, handle) == fs[i].pid && Remove(fs, handle) == fs[..i] + fs[i + 1..]
    decreases i
  {
    if i == 0 {
      if fs != [] && fs[0].handle == handle {
        assert fs[..0] + fs[1..] == fs[1..];
      }
    } else {
      FirstWithHandle(fs[1..], handle, i - 1);
      if i < |fs| && fs[i].handle == handle {
        assert [fs[0]] + (fs[1..][..i - 1] + fs[1..][i..]) == fs[..i] + fs[i + 1..];
      }
    }
  }

  function ByteAt(p: Packet, beyond: nat -> byte, i: nat): byte {
    if i < TS_SIZE then p[i] else beyond(i)
  }

  lemma RunChunksCons(d: Demux, c: Chunk, cs: seq<Chunk>)
    ensures RunChunks(d, [c] + cs) == RunChunks(Demultiplexer.ProcessChunk(d, c), cs)
  {
    assert ([c] + cs)[1..] == cs;
  }
}

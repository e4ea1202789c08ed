/** Opening and closing section filters: which PIDs the demultiplexer keeps an entry for. */
module Registry {
  import opened Bits
  import opened Sections
  import opened Chunking
  import opened Demultiplexer

  predicate WantPid(d: Demux, pid: int) {
    exists i :: 0 <= i < |d.filters| && d.filters[i].pid == pid
  }

  predicate HasHandle(fs: seq<FilterState>, handle: int) {
    exists i :: 0 <= i < |fs| && fs[i].handle == handle
  }

  function CountPid(fs: seq<FilterState>, pid: int): nat {
    if fs == [] then 0 else (if fs[0].pid == pid then 1 else 0) + CountPid(fs[1..], pid)
  }

  /** GarbageCollect deletes the filters whose reader is gone; `gone` are their handles. */
  function Collect(fs: seq<FilterState>, gone: set<int>): seq<FilterState> {
    if fs == [] then []
    else (if fs[0].handle in gone then [] else [fs[0]]) + Collect(fs[1..], gone)
  }

  /** The PID of the filter with this handle, -1 if there is none. */
  function PidOf(fs: seq<FilterState>, handle: int): int {
    if fs == [] then -1
    else if fs[0].handle == handle then fs[0].pid
    else PidOf(fs[1..], handle)
  }

  /** cMcliFilters::GetPid: the PID of the filter with this handle if no other filter is on it,
      otherwise -1. */
  function GetPid(fs: seq<FilterState>, handle: int): int {
    var pid := PidOf(fs, handle);
    if pid != -1 && CountPid(fs, pid) == 1 then pid else -1
  }

  /** Delete the first filter with this handle. */
  function Remove(fs: seq<FilterState>, handle: int): seq<FilterState> {
    if fs == [] then []
    else if fs[0].handle == handle then fs[1..]
    else [fs[0]] + Remove(fs[1..], handle)
  }

  function OpenFilter(d: Demux, f: FilterState, gone: set<int>): Demux {
    var fs := Collect(d.filters, gone);
    var pids := if WantPid(Demux(d.pids, fs), f.pid) then d.pids else SetTid(d.pids, f.pid, NO_TID);
    Demux(pids, fs + [f])
  }

  datatype Closed = Closed(d: Demux, pid: int)

  function CloseFilter(d: Demux, handle: int, gone: set<int>): Closed {
    var fs := Collect(d.filters, gone);
    var pid := GetPid(fs, handle);
    var pids := if pid != -1 then DropPid(d.pids, pid) else d.pids;
    Closed(Demux(pids, Remove(fs, handle)), pid)
  }

  // --- The invariant -----------------------------------------------------

  predicate DistinctPids(pids: seq<PidEntry>) {
    forall i, j :: 0 <= i < j < |pids| ==> pids[i].pid != pids[j].pid
  }

  predicate DistinctHandles(fs: seq<FilterState>) {
    forall i, j :: 0 <= i < j < |fs| ==> fs[i].handle != fs[j].handle
  }

  predicate HasEntry(pids: seq<PidEntry>, pid: int) {
    exists i :: 0 <= i < |pids| && pids[i].pid == pid
  }

  predicate Registered(d: Demux) {
    && DistinctPids(d.pids) && DistinctHandles(d.filters)
    && (forall i :: 0 <= i < |d.filters| ==> HasEntry(d.pids, d.filters[i].pid) && d.filters[i].pid >= 0)
  }

  /** `after` lists some of the filters of `before` (by handle and PID), in the same order. */
  predicate Thinned(before: seq<FilterState>, after: seq<FilterState>) {
    if before == [] then after == []
    else
      || (after != [] && after[0].handle == before[0].handle && after[0].pid == before[0].pid
          && Thinned(before[1..], after[1..]))
      || Thinned(before[1..], after)
  }

  lemma {:induction false} ThinnedMember(before: seq<FilterState>, after: seq<FilterState>, i: nat)
    returns (j: nat)
    requires Thinned(before, after) && i < |after|
    ensures j < |before| && before[j].handle == after[i].handle && before[j].pid == after[i].pid
    decreases |before|
  {
    if after[0].handle == before[0].handle && after[0].pid == before[0].pid && Thinned(before[1..], after[1..]) {
      if i == 0 {
        j := 0;
      } else {
        var k := ThinnedMember(before[1..], after[1..], i - 1);
        j := k + 1;
      }
    } else {
      var k := ThinnedMember(before[1..], after, i);
      j := k + 1;
    }
  }

  lemma {:induction false} ThinnedDistinct(before: seq<FilterState>, after: seq<FilterState>)
    requires Thinned(before, after) && DistinctHandles(before)
    ensures DistinctHandles(after)
    decreases |before|
  {
    if before != [] {
      if after != [] && after[0].handle == before[0].handle && Thinned(before[1..], after[1..]) {
        ThinnedDistinct(before[1..], after[1..]);
        forall j | 1 <= j < |after|
          ensures after[0].handle != after[j].handle
        {
          var k := ThinnedMember(before[1..], after[1..], j - 1);
        }
      } else {
        ThinnedDistinct(before[1..], after);
      }
    }
  }

  /** Deleting filters keeps the registry in order. */
  lemma ThinnedRegistered(d: Demux, fs: seq<FilterState>)
    requires Registered(d) && Thinned(d.filters, fs)
    ensures Registered(Demux(d.pids, fs))
  {
    ThinnedDistinct(d.filters, fs);
    forall i | 0 <= i < |fs|
      ensures HasEntry(d.pids, fs[i].pid) && fs[i].pid >= 0
    {
      var j := ThinnedMember(d.filters, fs, i);
    }
  }

  lemma {:induction false} CollectThins(fs: seq<FilterState>, gone: set<int>)
    ensures Thinned(fs, Collect(fs, gone))
  {
    if fs != [] {
      CollectThins(fs[1..], gone);
      var after, rest := Collect(fs, gone), Collect(fs[1..], gone);
      assert after == rest || (after[0] == fs[0] && after[1..] == rest);
    }
  }

  lemma {:induction false} RemoveThins(fs: seq<FilterState>, handle: int)
    ensures Thinned(fs, Remove(fs, handle))
  {
    if fs != [] {
      if fs[0].handle == handle {
        ThinnedSelf(fs[1..]);
      } else {
        RemoveThins(fs[1..], handle);
      }
    }
  }

  lemma {:induction false} ThinnedSelf(fs: seq<FilterState>)
    ensures Thinned(fs, fs)
  {
    if fs != [] {
      ThinnedSelf(fs[1..]);
    }
  }

  lemma {:induction false} StepThins(fs: seq<FilterState>, tid: byte, c: Chunk)
    ensures Thinned(fs, StepFilters(fs, tid, c))
  {
    if fs != [] {
      StepThins(fs[1..], tid, c);
      var after := StepFilters(fs, tid, c);
      var rest := StepFilters(fs[1..], tid, c);
      assert after == rest || (after[0].handle == fs[0].handle && after[0].pid == fs[0].pid && after[1..] == rest);
    }
  }

  lemma {:induction false} SetTidEntries(pids: seq<PidEntry>, pid: int, tid: int)
    requires DistinctPids(pids)
    ensures var after := SetTid(pids, pid, tid);
            && DistinctPids(after)
            && (forall q :: HasEntry(after, q) <==> HasEntry(pids, q) || q == pid)
  {
    var after := SetTid(pids, pid, tid);
    if pids == [] {
      assert after[0].pid == pid;
    } else if pids[0].pid == pid {
      assert |after| == |pids| && forall i :: 0 <= i < |pids| ==> after[i].pid == pids[i].pid;
    } else {
      var rest := SetTid(pids[1..], pid, tid);
      SetTidEntries(pids[1..], pid, tid);
      assert after == [pids[0]] + rest;
      EntriesCons(pids[0], rest);
      EntriesCons(pids[0], pids[1..]);
      assert pids == [pids[0]] + pids[1..];
      assert !HasEntry(pids[1..], pids[0].pid);
    }
  }

  lemma EntriesCons(e: PidEntry, rest: seq<PidEntry>)
    ensures forall q :: HasEntry([e] + rest, q) <==> e.pid == q || HasEntry(rest, q)
    ensures DistinctPids(rest) && !HasEntry(rest, e.pid) ==> DistinctPids([e] + rest)
  {
    var all := [e] + rest;
    forall q
      ensures HasEntry(all, q) <==> e.pid == q || HasEntry(rest, q)
    {
      if e.pid == q {
        assert all[0].pid == q;
      }
      if HasEntry(rest, q) {
        var i :| 0 <= i < |rest| && rest[i].pid == q;
        assert all[i + 1].pid == q;
      }
    }
  }

  lemma {:induction false} DropPidEntries(pids: seq<PidEntry>, pid: int)
    requires DistinctPids(pids)
    ensures var after := DropPid(pids, pid);
            && DistinctPids(after)
            && (forall q :: HasEntry(after, q) <==> HasEntry(pids, q) && q != pid)
  {
    var after := DropPid(pids, pid);
    if pids != [] {
      assert pids == [pids[0]] + pids[1..];
      EntriesCons(pids[0], pids[1..]);
      assert !HasEntry(pids[1..], pids[0].pid);
      if pids[0].pid != pid {
        DropPidEntries(pids[1..], pid);
        EntriesCons(pids[0], DropPid(pids[1..], pid));
      }
    }
  }

  lemma {:induction false} NoEntryNoTid(pids: seq<PidEntry>, pid: int)
    requires !HasEntry(pids, pid)
    ensures GetTid(pids, pid) == -1
  {
    if pids != [] {
      assert pids[0].pid != pid;
      assert !HasEntry(pids[1..], pid) by {
        EntriesCons(pids[0], pids[1..]);
        assert pids == [pids[0]] + pids[1..];
      }
      NoEntryNoTid(pids[1..], pid);
    }
  }

  // --- The operations keep it --------------------------------------------

  lemma ChunkKeepsRegistered(d: Demux, c: Chunk)
    requires Registered(d)
    ensures Registered(ProcessChunk(d, c))
  {
    var after := ProcessChunk(d, c);
    var tid := if c.start then c.data[0] as int else GetTid(d.pids, c.pid);
    StepThins(d.filters, LowByte(tid), c);
    ThinnedSelf(d.filters);
    ThinnedRegistered(d, after.filters);
    if c.start {
      SetTidEntries(d.pids, c.pid, c.data[0] as int);
    }
  }

  lemma OpenKeepsRegistered(d: Demux, f: FilterState, gone: set<int>)
    requires Registered(d) && f.pid >= 0 && !HasHandle(Collect(d.filters, gone), f.handle)
    ensures Registered(OpenFilter(d, f, gone))
    ensures WantPid(OpenFilter(d, f, gone), f.pid)
  {
    var fs := Collect(d.filters, gone);
    CollectThins(d.filters, gone);
    ThinnedRegistered(d, fs);
    var after := OpenFilter(d, f, gone);
    assert after.filters[|fs|] == f;
    if !WantPid(Demux(d.pids, fs), f.pid) {
      SetTidEntries(d.pids, f.pid, NO_TID);
    } else {
      var i :| 0 <= i < |fs| && fs[i].pid == f.pid;
      assert HasEntry(d.pids, fs[i].pid);
    }
    forall i | 0 <= i < |fs|
      ensures fs[i].handle != f.handle && HasEntry(after.pids, fs[i].pid)
    {
      var j := ThinnedMember(d.filters, fs, i);
      assert HasEntry(d.pids, fs[i].pid);
    }
  }

  lemma {:induction false} CountZero(fs: seq<FilterState>, pid: int)
    ensures CountPid(fs, pid) == 0 <==> !WantPid(Demux([], fs), pid)
  {
    if fs != [] {
      CountZero(fs[1..], pid);
      if WantPid(Demux([], fs[1..]), pid) {
        var i :| 0 <= i < |fs[1..]| && fs[1..][i].pid == pid;
        assert fs[i + 1].pid == pid;
      }
      if WantPid(Demux([], fs), pid) && fs[0].pid != pid {
        var i :| 0 <= i < |fs| && fs[i].pid == pid;
        assert fs[1..][i - 1].pid == pid;
      }
    }
  }

  lemma {:induction false} CountAfterRemove(fs: seq<FilterState>, handle: int, pid: int)
    ensures CountPid(Remove(fs, handle), pid)
            == CountPid(fs, pid) - (if HasHandle(fs, handle) && PidOf(fs, handle) == pid then 1 else 0)
    ensures DistinctHandles(fs) ==> !HasHandle(Remove(fs, handle), handle)
    ensures !HasHandle(fs, handle) ==> PidOf(fs, handle) == -1
  {
    if fs != [] {
      if fs[0].handle == handle {
        assert HasHandle(fs, handle);
      } else {
        CountAfterRemove(fs[1..], handle, pid);
        HandleCons(fs, handle);
        var rest := Remove(fs[1..], handle);
        assert ([fs[0]] + rest)[1..] == rest;
        HandleCons([fs[0]] + rest, handle);
      }
    }
  }

  lemma HandleCons(fs: seq<FilterState>, handle: int)
    requires fs != []
    ensures HasHandle(fs, handle) <==> fs[0].handle == handle || HasHandle(fs[1..], handle)
  {
  }

  /** Closing a filter returns its PID exactly when it was the last filter on it, and then no
      filter and no table-id entry for that PID is left; otherwise no entry changes. */
  lemma CloseReturnsLastPid(d: Demux, handle: int, gone: set<int>)
    requires Registered(d)
    ensures var r := CloseFilter(d, handle, gone);
            var fs := Collect(d.filters, gone);
            && Registered(r.d) && !HasHandle(r.d.filters, handle)
            && (r.pid != -1 <==> HasHandle(fs, handle) && !WantPid(r.d, PidOf(fs, handle)))
            && (r.pid != -1 ==> r.pid == PidOf(fs, handle) && !WantPid(r.d, r.pid) && GetTid(r.d.pids, r.pid) == -1)
            && (r.pid == -1 ==> r.d.pids == d.pids)
            && (forall q :: q != r.pid ==> (HasEntry(r.d.pids, q) <==> HasEntry(d.pids, q)))
  {
    var fs := Collect(d.filters, gone);
    var r := CloseFilter(d, handle, gone);
    CollectThins(d.filters, gone);
    ThinnedRegistered(d, fs);
    RemoveThins(fs, handle);
    ThinnedRegistered(Demux(d.pids, fs), r.d.filters);
    var pid := PidOf(fs, handle);
    CountAfterRemove(fs, handle, pid);
    CountZero(r.d.filters, pid);
    if HasHandle(fs, handle) {
      PidOfHandle(fs, handle);
    }
    if r.pid != -1 {
      DropPidEntries(d.pids, r.pid);
      NoEntryNoTid(r.d.pids, r.pid);
    }
  }

  lemma {:induction false} PidOfHandle(fs: seq<FilterState>, handle: int)
    requires HasHandle(fs, handle)
    requires forall i :: 0 <= i < |fs| ==> fs[i].pid >= 0
    ensures PidOf(fs, handle) >= 0
    ensures CountPid(fs, PidOf(fs, handle)) >= 1
  {
    HandleCons(fs, handle);
    if fs[0].handle != handle {
      PidOfHandle(fs[1..], handle);
    }
  }

  // --- What they leave alone ---------------------------------------------

  /** The collection keeps the filters whose reader is not gone, each as it was and in order. */
  lemma {:induction false} CollectIff(fs: seq<FilterState>, gone: set<int>)
    ensures forall f :: f in Collect(fs, gone) <==> f in fs && f.handle !in gone
    ensures |Collect(fs, gone)| <= |fs|
  {
    if fs != [] {
      CollectIff(fs[1..], gone);
    }
  }

  lemma {:induction false} CollectConcat(a: seq<FilterState>, b: seq<FilterState>, gone: set<int>)
    ensures Collect(a + b, gone) == Collect(a, gone) + Collect(b, gone)
    decreases |a|
  {
    if a == [] {
      assert a + b == b;
    } else {
      assert (a + b)[1..] == a[1..] + b;
      CollectConcat(a[1..], b, gone);
    }
  }

  /** Opening a filter leaves all table ids as they are; a PID that has no entry gets one without table id. */
  lemma OpeningKeepsTids(d: Demux, f: FilterState, gone: set<int>, q: int)
    requires Registered(d)
    ensures GetTid(OpenFilter(d, f, gone).pids, q)
            == if q == f.pid && !HasEntry(d.pids, q) then 0xffff else GetTid(d.pids, q)
  {
    GetAfterAdd(d.pids, f.pid, q);
    var fs := Collect(d.filters, gone);
    if i :| 0 <= i < |fs| && fs[i].pid == f.pid {
      CollectIff(d.filters, gone);
      assert fs[i] in d.filters;
      assert HasEntry(d.pids, f.pid);
    }
  }

  lemma {:induction false} GetAfterDrop(pids: seq<PidEntry>, pid: int, q: int)
    requires DistinctPids(pids)
    ensures GetTid(DropPid(pids, pid), q) == if q == pid then -1 else GetTid(pids, q)
  {
    if pids != [] {
      if pids[0].pid == pid {
        EntriesCons(pids[0], pids[1..]);
        assert pids == [pids[0]] + pids[1..];
        NoEntryNoTid(pids[1..], pid);
      } else {
        GetAfterDrop(pids[1..], pid, q);
      }
    }
  }

  /** Closing a filter takes the table id of the PID that it returns, and leaves all others. */
  lemma ClosingKeepsTids(d: Demux, handle: int, gone: set<int>, q: int)
    requires Registered(d)
    ensures var r := CloseFilter(d, handle, gone);
            GetTid(r.d.pids, q) == if r.pid != -1 && q == r.pid then -1 else GetTid(d.pids, q)
  {
    GetAfterDrop(d.pids, CloseFilter(d, handle, gone).pid, q);
  }

  // --- Over whole runs ---------------------------------------------------

  datatype Event =
    | Opening(f: FilterState, gone: set<int>)
    | Closing(handle: int, gone: set<int>)
    | Arrival(p: Packet)

  /** A new filter gets a non-negative PID, and a handle that no filter left by the collection has. */
  predicate Possible(d: Demux, e: Event) {
    e.Opening? ==> e.f.pid >= 0 && !HasHandle(Collect(d.filters, e.gone), e.f.handle)
  }

  function Handle(d: Demux, e: Event): Demux {
    match e
    case Opening(f, gone) => OpenFilter(d, f, gone)
    case Closing(handle, gone) => CloseFilter(d, handle, gone).d
    case Arrival(p) => RunChunks(d, Chunks(p))
  }

  function HandleAll(d: Demux, es: seq<Event>): Demux
    decreases |es|
  {
    if es == [] then d else HandleAll(Handle(d, es[0]), es[1..])
  }

  predicate AllPossible(d: Demux, es: seq<Event>)
    decreases |es|
  {
    es != [] ==> Possible(d, es[0]) && AllPossible(Handle(d, es[0]), es[1..])
  }

  lemma {:induction false} ChunksKeepRegistered(d: Demux, cs: seq<Chunk>)
    requires Registered(d)
    ensures Registered(RunChunks(d, cs))
    decreases |cs|
  {
    if cs != [] {
      ChunkKeepsRegistered(d, cs[0]);
      ChunksKeepRegistered(ProcessChunk(d, cs[0]), cs[1..]);
    }
  }

  lemma EventKeepsRegistered(d: Demux, e: Event)
    requires Registered(d) && Possible(d, e)
    ensures Registered(Handle(d, e))
  {
    match e
    case Opening(f, gone) => OpenKeepsRegistered(d, f, gone);
    case Closing(handle, gone) => CloseReturnsLastPid(d, handle, gone);
    case Arrival(p) => ChunksKeepRegistered(d, Chunks(p));
  }

  /** Over any run of openings, closings, collections and packets, each PID has at most one entry
      and the PID of every open filter has one. */
  lemma {:induction false} RegistryHolds(d: Demux, es: seq<Event>)
    requires Registered(d) && AllPossible(d, es)
    ensures Registered(HandleAll(d, es))
    decreases |es|
  {
    if es != [] {
      EventKeepsRegistered(d, es[0]);
      RegistryHolds(Handle(d, es[0]), es[1..]);
    }
  }
}

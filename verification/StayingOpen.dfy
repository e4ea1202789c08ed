/** A filter that stays open while other filters are opened, closed and collected around it. */
module StayingOpen {
  import opened Wrappers
  import opened Bits
  import opened Sections
  import opened Chunking
  import opened Demultiplexer
  import opened Isolation
  import opened Packetiser
  import opened RoundTrip
  import opened Registry
  import opened Writing
  import opened Reassembly

  /** The event neither closes nor collects the filter with this handle. */
  predicate LeavesOpen(e: Event, handle: int) {
    match e
    case Opening(_, gone) => handle !in gone
    case Closing(h, gone) => h != handle && handle !in gone
    case Arrival(_) => true
  }

  predicate AllLeaveOpen(es: seq<Event>, handle: int) {
    forall i :: 0 <= i < |es| ==> LeavesOpen(es[i], handle)
  }

  /** The packets that arrive. */
  function Arrivals(es: seq<Event>): seq<Packet> {
    if es == [] then [] else (if es[0].Arrival? then [es[0].p] else []) + Arrivals(es[1..])
  }

  // --- One event -----------------------------------------------------------

  lemma {:induction false} TidAfterChunks(d: Demux, cs: seq<Chunk>, pid: int)
    ensures GetTid(RunChunks(d, cs).pids, pid) == FinalTid(GetTid(d.pids, pid), pid, cs)
    decreases |cs|
  {
    if cs != [] {
      NextTidFound(d.pids, cs[0], pid);
      TidAfterChunks(ProcessChunk(d, cs[0]), cs[1..], pid);
    }
  }

  lemma {:induction false} CollectSpares(fs: seq<FilterState>, gone: set<int>, f: FilterState)
    requires f in fs && f.handle !in gone
    ensures f in Collect(fs, gone)
  {
    if fs[0] != f {
      CollectSpares(fs[1..], gone, f);
    }
  }

  lemma {:induction false} RemoveSpares(fs: seq<FilterState>, handle: int, f: FilterState)
    requires f in fs && f.handle != handle
    ensures f in Remove(fs, handle)
  {
    if fs[0] != f && fs[0].handle != handle {
      RemoveSpares(fs[1..], handle, f);
    }
  }

  lemma {:induction false} SetTidElsewhere(pids: seq<PidEntry>, pid: int, tid: int, q: int)
    requires q != pid
    ensures GetTid(SetTid(pids, pid, tid), q) == GetTid(pids, q)
  {
    if pids != [] && pids[0].pid != pid {
      SetTidElsewhere(pids[1..], pid, tid, q);
    }
  }

  lemma {:induction false} DropPidElsewhere(pids: seq<PidEntry>, pid: int, q: int)
    requires q != pid
    ensures GetTid(DropPid(pids, pid), q) == GetTid(pids, q)
  {
    if pids != [] && pids[0].pid != pid {
      DropPidElsewhere(pids[1..], pid, q);
    }
  }

  lemma {:induction false} CountMember(fs: seq<FilterState>, f: FilterState)
    requires f in fs
    ensures CountPid(fs, f.pid) >= 1
  {
    if fs[0] != f {
      CountMember(fs[1..], f);
    }
  }

  /** A filter and another one, found by its handle, on the same PID. */
  lemma {:induction false} CountTwo(fs: seq<FilterState>, handle: int, f: FilterState)
    requires f in fs && f.handle != handle && PidOf(fs, handle) == f.pid && f.pid != -1
    ensures CountPid(fs, f.pid) >= 2
  {
    if fs[0].handle == handle {
      CountMember(fs[1..], f);
    } else if fs[0] == f {
      FoundCounts(fs[1..], handle);
    } else {
      CountTwo(fs[1..], handle, f);
    }
  }

  lemma {:induction false} FoundCounts(fs: seq<FilterState>, handle: int)
    requires PidOf(fs, handle) != -1
    ensures CountPid(fs, PidOf(fs, handle)) >= 1
  {
    if fs[0].handle != handle {
      FoundCounts(fs[1..], handle);
    }
  }

  lemma OpeningLeaves(d: Demux, g: FilterState, gone: set<int>, f: FilterState)
    requires f in d.filters && f.handle !in gone
    ensures var r := OpenFilter(d, g, gone);
            f in r.filters && GetTid(r.pids, f.pid) == GetTid(d.pids, f.pid)
  {
    var fs := Collect(d.filters, gone);
    CollectSpares(d.filters, gone, f);
    if !WantPid(Demux(d.pids, fs), g.pid) {
      var i :| 0 <= i < |fs| && fs[i] == f;
      assert g.pid != f.pid;
      SetTidElsewhere(d.pids, g.pid, NO_TID, f.pid);
    }
  }

  lemma ClosingLeaves(d: Demux, handle: int, gone: set<int>, f: FilterState)
    requires f in d.filters && f.handle !in gone && f.handle != handle
    ensures var r := CloseFilter(d, handle, gone).d;
            f in r.filters && GetTid(r.pids, f.pid) == GetTid(d.pids, f.pid)
  {
    var fs := Collect(d.filters, gone);
    CollectSpares(d.filters, gone, f);
    RemoveSpares(fs, handle, f);
    var pid := GetPid(fs, handle);
    if pid != -1 {
      if pid == f.pid {
        CountTwo(fs, handle, f);
        assert false;
      }
      DropPidElsewhere(d.pids, pid, f.pid);
    }
  }

  lemma ArrivalReaches(d: Demux, p: Packet, f: FilterState)
    requires f in d.filters
    ensures var o := Fate(f, GetTid(d.pids, f.pid), Chunks(p));
            o.Some? ==> o.value in RunChunks(d, Chunks(p)).filters && SameFilter(f, o.value)
  {
    FiltersAreIndependent(d, Chunks(p));
    FateKeepsIdentity(f, GetTid(d.pids, f.pid), Chunks(p));
    if Fate(f, GetTid(d.pids, f.pid), Chunks(p)).Some? {
      FateInFates(d.filters, d.pids, Chunks(p), f);
    }
  }

  lemma {:induction false} FatesWithout(fs: seq<FilterState>, pids: seq<PidEntry>, cs: seq<Chunk>, handle: int)
    requires forall i :: 0 <= i < |fs| && fs[i].handle == handle ==> Fate(fs[i], GetTid(pids, fs[i].pid), cs).None?
    ensures !HasHandle(Fates(fs, pids, cs), handle)
  {
    if fs != [] {
      FatesWithout(fs[1..], pids, cs, handle);
      FateKeepsIdentity(fs[0], GetTid(pids, fs[0].pid), cs);
      var all := Fates(fs, pids, cs);
      if Fate(fs[0], GetTid(pids, fs[0].pid), cs).Some? {
        HandleCons(all, handle);
        assert all[1..] == Fates(fs[1..], pids, cs);
      } else {
        assert all == Fates(fs[1..], pids, cs);
      }
    }
  }

  /** A filter whose write fails is no longer there. */
  lemma ArrivalDeletes(d: Demux, p: Packet, f: FilterState)
    requires f in d.filters && DistinctHandles(d.filters)
    requires Fate(f, GetTid(d.pids, f.pid), Chunks(p)).None?
    ensures !HasHandle(RunChunks(d, Chunks(p)).filters, f.handle)
  {
    FiltersAreIndependent(d, Chunks(p));
    forall i | 0 <= i < |d.filters| && d.filters[i].handle == f.handle
      ensures d.filters[i] == f
    {
      var j :| 0 <= j < |d.filters| && d.filters[j] == f;
      assert i == j;
    }
    FatesWithout(d.filters, d.pids, Chunks(p), f.handle);
  }

  // --- Runs ----------------------------------------------------------------

  /** What an event leaves of the filter, and of the packets to come. */
  lemma EventFate(d: Demux, es: seq<Event>, f: FilterState) returns (o: Option<FilterState>)
    requires es != [] && f in d.filters && LeavesOpen(es[0], f.handle)
    ensures o.Some? ==> o.value in Handle(d, es[0]).filters && SameFilter(f, o.value)
    ensures Outcome(d, f, Arrivals(es)) ==
      if o.None? then None else Outcome(Handle(d, es[0]), o.value, Arrivals(es[1..]))
    ensures o.None? ==> es[0].Arrival? && Fate(f, GetTid(d.pids, f.pid), Chunks(es[0].p)).None?
  {
    hide OpenFilter, CloseFilter, Chunks, Fate, Stream;
    var rest := Arrivals(es[1..]);
    match es[0] {
      case Opening(g, gone) =>
        OpeningLeaves(d, g, gone, f);
        assert Arrivals(es) == rest;
        o := Some(f);
      case Closing(h, gone) =>
        ClosingLeaves(d, h, gone, f);
        assert Arrivals(es) == rest;
        o := Some(f);
      case Arrival(p) =>
        o := Fate(f, GetTid(d.pids, f.pid), Chunks(p));
        ArrivalReaches(d, p, f);
        OutcomeAfter(d, f, p, rest);
        assert Arrivals(es) == [p] + rest;
    }
  }

  lemma OutcomeAfter(d: Demux, f: FilterState, p: Packet, rest: seq<Packet>)
    ensures var o := Fate(f, GetTid(d.pids, f.pid), Chunks(p));
            Outcome(d, f, [p] + rest) ==
              if o.None? then None else Outcome(RunChunks(d, Chunks(p)), o.value, rest)
  {
    var tid := GetTid(d.pids, f.pid);
    FateKeepsIdentity(f, tid, Chunks(p));
    TidAfterChunks(d, Chunks(p), f.pid);
    StreamCons(p, rest);
    FateSplit(f, tid, Chunks(p), Stream(rest));
  }

  /** A filter that nobody closes or collects is in the end what the packets alone have made of it. */
  lemma {:induction false} StaysThrough(d: Demux, es: seq<Event>, f: FilterState)
    requires f in d.filters && AllLeaveOpen(es, f.handle)
    ensures var o := Outcome(d, f, Arrivals(es));
            o.Some? ==> o.value in HandleAll(d, es).filters && SameFilter(f, o.value)
    decreases |es|
  {
    if es != [] {
      var o := EventFate(d, es, f);
      if o.Some? {
        StaysThrough(Handle(d, es[0]), es[1..], o.value);
      }
    } else {
      assert Outcome(d, f, []) == Some(f);
    }
  }

  /** If the packets have it deleted, there is a time in the run at which no filter has its handle. */
  lemma {:induction false} GoneAt(d: Demux, es: seq<Event>, f: FilterState) returns (n: nat)
    requires f in d.filters && AllLeaveOpen(es, f.handle) && Registered(d) && AllPossible(d, es)
    requires Outcome(d, f, Arrivals(es)).None?
    ensures n <= |es| && !HasHandle(HandleAll(d, es[..n]).filters, f.handle)
    decreases |es|
  {
    hide Outcome, HasHandle;
    OutcomeOfNothing(d, f);
    var o := EventFate(d, es, f);
    if o.None? {
      ArrivalDeletes(d, es[0].p, f);
      n := 0;
      assert HandleAll(Handle(d, es[0]), []) == Handle(d, es[0]);
    } else {
      EventKeepsRegistered(d, es[0]);
      hide Registered, Handle;
      n := GoneAt(Handle(d, es[0]), es[1..], o.value);
    }
    HandleFirst(d, es, n);
    n := n + 1;
  }

  lemma OutcomeOfNothing(d: Demux, f: FilterState)
    ensures Outcome(d, f, []) == Some(f)
  {
  }

  lemma HandleFirst(d: Demux, es: seq<Event>, n: nat)
    requires n < |es|
    ensures HandleAll(d, es[..n + 1]) == HandleAll(Handle(d, es[0]), es[1..][..n])
  {
    assert es[..n + 1][1..] == es[1..][..n];
  }

  /** Reassembly round trip, for a filter that nobody closes or collects, whatever other filters are opened
      and closed in the meantime. */
  lemma SectionsArriveThroughout(d: Demux, es: seq<Event>, pid: int, secs: seq<Section>, f: FilterState)
    requires AllQuiet(d) && Packetised(PacketsOn(Arrivals(es), pid), pid, [], secs)
    requires f in d.filters && f.pid == pid && AllLeaveOpen(es, f.handle)
    ensures var o := Outcome(d, f, Arrivals(es));
            && Fed(f, Matching(f, secs), o)
            && Handed(d, f, Arrivals(es)) == UpToFailure(f.reader, |f.sent|, Matching(f, secs))
            && (o.Some? ==> o.value in HandleAll(d, es).filters)
            && (o.None? && Registered(d) && AllPossible(d, es) ==>
                exists n :: 0 <= n <= |es| && !HasHandle(HandleAll(d, es[..n]).filters, f.handle))
  {
    SectionsArrive(d, Arrivals(es), pid, secs, f);
    StaysThrough(d, es, f);
    if Outcome(d, f, Arrivals(es)).None? && Registered(d) && AllPossible(d, es) {
      var n := GoneAt(d, es, f);
    }
  }

  /** Self-synchronisation, likewise. */
  lemma ResynchronisesThroughout(d: Demux, es: seq<Event>, pid: int, pend: seq<byte>, secs: seq<Section>,
                                 f: FilterState)
    returns (junk: seq<seq<byte>>)
    requires AllQuiet(d) && Packetised(PacketsOn(Arrivals(es), pid), pid, pend, secs)
    requires PacketsOn(Arrivals(es), pid) != [] && UnitStart(PacketsOn(Arrivals(es), pid)[0])
    requires f in d.filters && f.pid == pid && AllLeaveOpen(es, f.handle)
    ensures |junk| <= 1 && Fed(f, junk + Matching(f, secs), Outcome(d, f, Arrivals(es)))
    ensures Handed(d, f, Arrivals(es)) == UpToFailure(f.reader, |f.sent|, junk + Matching(f, secs))
    ensures Outcome(d, f, Arrivals(es)).Some? ==> Outcome(d, f, Arrivals(es)).value in HandleAll(d, es).filters
  {
    junk := Resynchronises(d, Arrivals(es), pid, pend, secs, f);
    StaysThrough(d, es, f);
  }
}

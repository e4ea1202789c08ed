/** The main results about the demultiplexer as a whole. */
module Reassembly {
  import opened Wrappers
  import opened Bits
  import opened Sections
  import opened Chunking
  import opened Demultiplexer
  import opened Isolation
  import opened Packetiser
  import opened RoundTrip
  import opened Registry
  import opened Writing

  ghost predicate AllQuiet(d: Demux) {
    forall f :: f in d.filters ==> Quiet(f.acc)
  }

  lemma {:induction false} QuietStep(fs: seq<FilterState>, tid: byte, c: Chunk)
    requires forall f :: f in fs ==> Quiet(f.acc)
    requires |c.data| <= 184
    ensures forall f :: f in StepFilters(fs, tid, c) ==> Quiet(f.acc)
  {
    if fs != [] {
      QuietStep(fs[1..], tid, c);
      assert fs[0] in fs;
      BufferBound(fs[0], c.data, c.start);
    }
  }

  lemma {:induction false} QuietChunks(d: Demux, cs: seq<Chunk>)
    requires AllQuiet(d) && Short(cs)
    ensures AllQuiet(RunChunks(d, cs))
    decreases |cs|
  {
    if cs != [] {
      var c := cs[0];
      var tid := if c.start then c.data[0] as int else GetTid(d.pids, c.pid);
      QuietStep(d.filters, LowByte(tid), c);
      QuietChunks(ProcessChunk(d, c), cs[1..]);
    }
  }

  /** Whatever packets arrive, no filter ever holds a complete section between two packets. */
  lemma {:induction false} QuietRun(d: Demux, ps: seq<Packet>)
    requires AllQuiet(d)
    ensures AllQuiet(Run(d, ps))
    decreases |ps|
  {
    if ps != [] {
      ChunksPartition(ps[0]);
      QuietChunks(d, Chunks(ps[0]));
      QuietRun(RunChunks(d, Chunks(ps[0])), ps[1..]);
    }
  }

  lemma {:induction false} CollectQuiet(fs: seq<FilterState>, gone: set<int>)
    requires forall f :: f in fs ==> Quiet(f.acc)
    ensures forall f :: f in Collect(fs, gone) ==> Quiet(f.acc)
  {
    if fs != [] {
      assert fs[0] in fs;
      CollectQuiet(fs[1..], gone);
    }
  }

  lemma {:induction false} RemoveQuiet(fs: seq<FilterState>, handle: int)
    requires forall f :: f in fs ==> Quiet(f.acc)
    ensures forall f :: f in Remove(fs, handle) ==> Quiet(f.acc)
  {
    if fs != [] {
      assert fs[0] in fs;
      RemoveQuiet(fs[1..], handle);
    }
  }

  /** The same over any run of openings, closings and packets, when new filters start out empty: what
      the results below ask of the demultiplexer holds in every reachable state. */
  lemma {:induction false} QuietAlways(d: Demux, es: seq<Event>)
    requires AllQuiet(d)
    requires forall i :: 0 <= i < |es| && es[i].Opening? ==> es[i].f.acc == []
    ensures AllQuiet(HandleAll(d, es))
    decreases |es|
  {
    if es != [] {
      match es[0] {
        case Opening(f, gone) => CollectQuiet(d.filters, gone);
        case Closing(handle, gone) =>
          CollectQuiet(d.filters, gone);
          RemoveQuiet(Collect(d.filters, gone), handle);
        case Arrival(p) =>
          ChunksPartition(p);
          QuietChunks(d, Chunks(p));
      }
      assert forall i :: 0 <= i < |es[1..]| ==> es[1..][i] == es[i + 1];
      QuietAlways(Handle(d, es[0]), es[1..]);
    }
  }

  lemma {:induction false} FateInFates(fs: seq<FilterState>, pids: seq<PidEntry>, cs: seq<Chunk>, f: FilterState)
    requires f in fs && Fate(f, GetTid(pids, f.pid), cs).Some?
    ensures Fate(f, GetTid(pids, f.pid), cs).value in Fates(fs, pids, cs)
  {
    if fs[0] != f {
      FateInFates(fs[1..], pids, cs, f);
    }
  }

  /** What the filter `f` of `d` has become after the packets; None if it was deleted. */
  function Outcome(d: Demux, f: FilterState, ps: seq<Packet>): Option<FilterState> {
    Fate(f, GetTid(d.pids, f.pid), Stream(ps))
  }

  /** The filters after a run are the outcomes of the filters before it. */
  lemma OutcomeInRun(d: Demux, f: FilterState, ps: seq<Packet>)
    requires f in d.filters
    ensures Run(d, ps).filters == Fates(d.filters, d.pids, Stream(ps))
    ensures Outcome(d, f, ps).Some? ==>
            Outcome(d, f, ps).value in Run(d, ps).filters && SameFilter(f, Outcome(d, f, ps).value)
  {
    RunIsRunChunks(d, ps);
    FiltersAreIndependent(d, Stream(ps));
    FateKeepsIdentity(f, GetTid(d.pids, f.pid), Stream(ps));
    if Outcome(d, f, ps).Some? {
      FateInFates(d.filters, d.pids, Stream(ps), f);
    }
  }

  /** Every section that the filter `f` of `d` hands to write() while the packets are handled. */
  function Handed(d: Demux, f: FilterState, ps: seq<Packet>): seq<seq<byte>> {
    Written(f, GetTid(d.pids, f.pid), Stream(ps))
  }

  lemma OutcomeOn(d: Demux, f: FilterState, ps: seq<Packet>)
    ensures Outcome(d, f, ps) == Outcome(d, f, PacketsOn(ps, f.pid))
    ensures Handed(d, f, ps) == Handed(d, f, PacketsOn(ps, f.pid))
  {
    WrittenOn(f, GetTid(d.pids, f.pid), Stream(ps));
    FateOn(f, GetTid(d.pids, f.pid), Stream(ps));
    StreamOn(ps, f.pid);
  }

  lemma {:induction false} PacketsOnAll(ps: seq<Packet>, pid: int)
    ensures AllPackets(PacketsOn(ps, pid), pid)
  {
    if ps != [] {
      PacketsOnAll(ps[1..], pid);
    }
  }

  /** Reassembly round trip. Whatever the demultiplexer has seen before, and whatever packets of
      other PIDs come in between: when the packets of PID `pid` packetise `secs`, every open
      filter on it writes out exactly the sections it asks for, byte for byte and in order. It
      is deleted if and only if the reader fails one of those writes, and that one is its last. */
  lemma SectionsArrive(d: Demux, ps: seq<Packet>, pid: int, secs: seq<Section>, f: FilterState)
    requires AllQuiet(d) && Packetised(PacketsOn(ps, pid), pid, [], secs)
    requires f in d.filters && f.pid == pid
    ensures Fed(f, Matching(f, secs), Outcome(d, f, ps))
    ensures Handed(d, f, ps) == UpToFailure(f.reader, |f.sent|, Matching(f, secs))
    ensures Outcome(d, f, ps).Some? ==> Outcome(d, f, ps).value in Run(d, ps).filters
  {
    var tid, on := GetTid(d.pids, pid), PacketsOn(ps, pid);
    OutcomeInRun(d, f, ps);
    OutcomeOn(d, f, ps);
    PacketsOnAll(ps, pid);
    PacketisedShown(on, pid, [], secs);
    ReassembledIdle(Willing(f), tid, on, secs);
    MatchingSame(f, Willing(f), secs);
    FedAsWilling(f, tid, Stream(on), Matching(f, secs));
  }

  lemma Unbroken(f: FilterState, ms: seq<seq<byte>>, o: Option<FilterState>)
    requires Fed(f, ms, o) && forall k: nat :: f.reader(k).Delivered?
    ensures o.Some?
  {
  }

  /** The same for a reader that takes every write: it receives exactly the matching sections. */
  lemma ReaderReceives(d: Demux, ps: seq<Packet>, pid: int, secs: seq<Section>, f: FilterState)
    requires AllQuiet(d) && Packetised(PacketsOn(ps, pid), pid, [], secs)
    requires f in d.filters && f.pid == pid
    requires forall k: nat :: f.reader(k).Delivered?
    ensures var o := Outcome(d, f, ps);
            && o.Some? && o.value in Run(d, ps).filters && SameFilter(f, o.value)
            && Received(o.value.sent, f.reader) == Received(f.sent, f.reader) + Matching(f, secs)
  {
    SectionsArrive(d, ps, pid, secs, f);
    var o := Outcome(d, f, ps);
    Unbroken(f, Matching(f, secs), o);
    ReceivedAll(f.sent, f.reader);
    ReceivedAll(o.value.sent, f.reader);
  }

  /** A filter that masks every table id away gets back the very sections that were packetised, whatever the
      adaptation fields. */
  lemma PacketiseThenReassemble(d: Demux, pid: int, secs: seq<Section>, fields: nat -> Option<seq<byte>>,
                                f: FilterState)
    requires AllQuiet(d) && 0 <= pid < 8192 && Modest(fields)
    requires f in d.filters && f.pid == pid && f.tid == 0 && f.mask == 0
    requires forall k: nat :: f.reader(k).Delivered?
    ensures var o := Outcome(d, f, Packetise(pid, secs, fields, 0));
            o.Some? && o.value.sent == f.sent + secs
  {
    var ps := Packetise(pid, secs, fields, 0);
    PacketiseObeysRule(pid, secs, fields, 0);
    PacketisedOnPid(ps, pid, [], secs);
    PacketsOnSame(ps, pid);
    SectionsArrive(d, ps, pid, secs, f);
    MatchesAll(f, secs);
    Unbroken(f, secs, Outcome(d, f, ps));
  }

  lemma {:induction false} PacketsOnSame(ps: seq<Packet>, pid: int)
    requires AllPackets(ps, pid)
    ensures PacketsOn(ps, pid) == ps
  {
    if ps != [] {
      assert Pid(ps[0]) == pid;
      PacketsOnSame(ps[1..], pid);
    }
  }

  lemma {:induction false} MatchesAll(f: FilterState, secs: seq<Section>)
    requires f.tid == 0 && f.mask == 0
    ensures Matching(f, secs) == secs
  {
    if secs != [] {
      MatchesAll(f, secs[1..]);
      assert BitAnd(secs[0][0], f.mask) == 0;
    }
  }

  /** A chunk without start mark makes a filter write at most one section. */
  lemma AtMostOneWrite(f: FilterState, tid: int, data: seq<byte>) returns (junk: seq<seq<byte>>)
    requires Quiet(f.acc) && |data| <= 184
    ensures |junk| <= 1 && Fed(f, junk, StepOne(f, tid, Chunk(f.pid, data, false)))
  {
    var acc := f.acc + data;
    assert BreaksAt(f, 0) == f.reader(|f.sent|).Broken?;
    if tid == -1 || !Matches(f, f.pid, LowByte(tid)) || f.acc == [] || Quiet(acc) {
      junk := [];
    } else {
      junk := [acc[..Declared(acc)]];
    }
  }

  /** Self-synchronisation. After any packets at all (lost, damaged or foreign), let the packets
      of a PID from one with a unit start on be well formed; `pend` is the rest of a section whose
      beginning may have been lost. Then every filter on that PID writes at most one junk section
      and after that exactly the matching sections that begin in the run. */
  lemma Resynchronises(d: Demux, ps: seq<Packet>, pid: int, pend: seq<byte>, secs: seq<Section>, f: FilterState)
    returns (junk: seq<seq<byte>>)
    requires AllQuiet(d) && Packetised(PacketsOn(ps, pid), pid, pend, secs)
    requires PacketsOn(ps, pid) != [] && UnitStart(PacketsOn(ps, pid)[0])
    requires f in d.filters && f.pid == pid
    ensures |junk| <= 1 && Fed(f, junk + Matching(f, secs), Outcome(d, f, ps))
    ensures Handed(d, f, ps) == UpToFailure(f.reader, |f.sent|, junk + Matching(f, secs))
  {
    var tid, on := GetTid(d.pids, pid), PacketsOn(ps, pid);
    OutcomeOn(d, f, ps);
    PacketsOnAll(ps, pid);
    PacketisedShown(on, pid, pend, secs);
    junk := ResynchronisesOn(Willing(f), tid, on, pend, secs);
    MatchingSame(f, Willing(f), secs);
    FedAsWilling(f, tid, Stream(on), junk + Matching(f, secs));
  }

  lemma ResynchronisesOn(f: FilterState, tid: int, ps: seq<Packet>, pend: seq<byte>, secs: seq<Section>)
    returns (junk: seq<seq<byte>>)
    requires Quiet(f.acc) && AllPackets(ps, f.pid) && Shown(ps, pend, secs)
    requires ps != [] && UnitStart(ps[0])
    ensures |junk| <= 1 && Fed(f, junk + Matching(f, secs), Fate(f, tid, Stream(ps)))
  {
    var n: nat :| n <= |secs| && ShownAfter(ps, pend, secs, n);
    assert Pid(ps[0]) == f.pid;
    assert secs[..n] + secs[n..] == secs;
    junk := ResynchronisesFrom(f, tid, ps[0], pend, secs[..n], ps[1..], secs[n..]);
  }

  lemma ResynchronisesFrom(f: FilterState, tid: int, p: Packet, pend: seq<byte>, begun: seq<Section>,
                           ps: seq<Packet>, secs: seq<Section>)
    returns (junk: seq<seq<byte>>)
    requires Quiet(f.acc) && Pid(p) == f.pid && UnitStart(p) && Shows(p, pend, begun)
    requires AllPackets(ps, f.pid) && Shown(ps, Unsent(p, pend, begun), secs)
    ensures |junk| <= 1 && Fed(f, junk + Matching(f, begun + secs), Fate(f, tid, Chunks(p) + Stream(ps)))
  {
    StartChunks(p, pend, begun);
    var body := Payload(p)[1 + |pend|..];
    junk := AtMostOneWrite(f, tid, pend);
    AfterJunk(f, tid, pend, junk, body, begun, Unsent(p, pend, begun), ps, secs);
    SeqAssoc([Chunk(f.pid, pend, false)], SectionChunks(f.pid, body), Stream(ps));
  }

  lemma AfterJunk(f: FilterState, tid: int, pend: seq<byte>, junk: seq<seq<byte>>, body: seq<byte>,
                  begun: seq<Section>, left: seq<byte>, ps: seq<Packet>, secs: seq<Section>)
    requires Fed(f, junk, StepOne(f, tid, Chunk(f.pid, pend, false)))
    requires begun != [] && |body| <= 184 && Laid(body, Concat(begun))
    requires |body| > |Concat(begun[..|begun| - 1])| && left == After(Concat(begun), |body|)
    requires AllPackets(ps, f.pid) && Shown(ps, left, secs)
    ensures var cs := [Chunk(f.pid, pend, false)] + (SectionChunks(f.pid, body) + Stream(ps));
            Fed(f, junk + Matching(f, begun + secs), Fate(f, tid, cs))
  {
    var c: Chunk := Chunk(f.pid, pend, false);
    var tail := SectionChunks(f.pid, body);
    FateCons(f, tid, c, tail + Stream(ps));
    var o := StepOne(f, tid, c);
    if o.None? {
      FedBroken(f, junk, Matching(f, begun + secs));
    } else {
      var g := o.value;
      SectionsServed(g, tid, body, begun);
      ServedThenRest(g, tid, tail, begun, left, ps, secs);
      MatchingSame(f, g, begun + secs);
      FedThen(f, junk, g, Matching(f, begun + secs), Fate(g, tid, tail + Stream(ps)));
    }
  }
}

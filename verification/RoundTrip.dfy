/** The demultiplexer inverts the packetiser. */
module RoundTrip {
  import opened Wrappers
  import opened Bits
  import opened Sections
  import opened Chunking
  import opened Demultiplexer
  import opened Isolation
  import opened Packetiser

  /** The sections a filter asks for, in order. */
  function Matching(f: FilterState, secs: seq<Section>): seq<seq<byte>> {
    if secs == [] then []
    else (if Asks(f, secs[0][0]) then [secs[0]] else []) + Matching(f, secs[1..])
  }

  /** The reader fails the k-th of the filter's next writes. */
  predicate BreaksAt(f: FilterState, k: nat) {
    f.reader(|f.sent| + k).Broken?
  }

  /** The filter's next writes were exactly `ms`. It survived if none of them failed, and was
      deleted if one did. */
  ghost predicate Fed(f: FilterState, ms: seq<seq<byte>>, o: Option<FilterState>) {
    match o
    case None => exists k :: 0 <= k < |ms| && BreaksAt(f, k)
    case Some(g) =>
      && (forall k :: 0 <= k < |ms| ==> !BreaksAt(f, k))
      && SameFilter(f, g) && g.sent == f.sent + ms && Quiet(g.acc)
  }

  /** The first `k` bytes of section `s` have been sent on the PID and `s` is not complete. */
  ghost predicate InProgress(f: FilterState, tid: int, s: Section, k: nat) {
    && 1 <= k < |s|
    && tid == s[0] as int
    && Quiet(f.acc)
    && (Matches(f, f.pid, s[0]) ==> f.acc == s[..k])
  }

  lemma FedThen(f: FilterState, a: seq<seq<byte>>, g: FilterState, b: seq<seq<byte>>, o: Option<FilterState>)
    requires Fed(f, a, Some(g)) && Fed(g, b, o)
    ensures Fed(f, a + b, o)
  {
    if o.None? {
      var k :| 0 <= k < |b| && BreaksAt(g, k);
      assert BreaksAt(f, |a| + k);
    } else {
      forall k | 0 <= k < |a + b|
        ensures !BreaksAt(f, k)
      {
        if k >= |a| {
          assert !BreaksAt(g, k - |a|);
        }
      }
    }
  }

  lemma FedBroken(f: FilterState, a: seq<seq<byte>>, b: seq<seq<byte>>)
    requires Fed(f, a, None)
    ensures Fed(f, a + b, None)
  {
  }

  lemma {:induction false} MatchingSplit(f: FilterState, a: seq<Section>, b: seq<Section>)
    ensures Matching(f, a + b) == Matching(f, a) + Matching(f, b)
    decreases |a|
  {
    if a == [] {
      assert a + b == b;
    } else {
      assert (a + b)[1..] == a[1..] + b;
      MatchingSplit(f, a[1..], b);
    }
  }

  lemma {:induction false} MatchingSame(f: FilterState, g: FilterState, secs: seq<Section>)
    requires g.pid == f.pid && g.tid == f.tid && g.mask == f.mask
    ensures Matching(f, secs) == Matching(g, secs)
  {
    if secs != [] {
      MatchingSame(f, g, secs[1..]);
    }
  }

  /** Running a filter over one list of chunks and then over another. */
  function Resume(o: Option<FilterState>, tid: int, cs: seq<Chunk>): Option<FilterState> {
    if o.None? then None else Fate(o.value, tid, cs)
  }

  lemma {:induction false} FateSplit(f: FilterState, tid: int, a: seq<Chunk>, b: seq<Chunk>)
    ensures Fate(f, tid, a + b) == Resume(Fate(f, tid, a), FinalTid(tid, f.pid, a), b)
    ensures FinalTid(tid, f.pid, a + b) == FinalTid(FinalTid(tid, f.pid, a), f.pid, b)
    decreases |a|
  {
    if a == [] {
      assert a + b == b;
    } else {
      var c := a[0];
      assert a + b == [c] + (a[1..] + b);
      FateCons(f, tid, c, a[1..] + b);
      assert a == [c] + a[1..];
      FateCons(f, tid, c, a[1..]);
      if c.pid == f.pid {
        var o := StepOne(f, tid, c);
        var g := if o.Some? then o.value else f;
        assert g.pid == f.pid;
        FateSplit(g, NextTid(tid, c), a[1..], b);
      } else {
        FateSplit(f, tid, a[1..], b);
      }
    }
  }

  lemma FateOfOne(f: FilterState, tid: int, c: Chunk)
    requires c.pid == f.pid
    ensures Fate(f, tid, [c]) == StepOne(f, tid, c)
    ensures FinalTid(tid, f.pid, [c]) == NextTid(tid, c)
  {
  }

  // --- What the receiver sees of packetised sections ------------------------

  /** The receiver sees a packet that carries `pend` and `begun`. */
  predicate Shows(p: Packet, pend: seq<byte>, begun: seq<Section>) {
    PayloadOffset(p) <= TS_SIZE && Carries(UnitStart(p), Payload(p), pend, begun)
  }

  function Unsent(p: Packet, pend: seq<byte>, begun: seq<Section>): seq<byte> {
    Leftover(UnitStart(p), Payload(p), pend, begun)
  }

  ghost predicate Shown(ps: seq<Packet>, pend: seq<byte>, secs: seq<Section>)
    decreases |ps|
  {
    if ps == [] then pend == [] && secs == []
    else exists n: nat | n <= |secs| :: ShownAfter(ps, pend, secs, n)
  }

  ghost predicate ShownAfter(ps: seq<Packet>, pend: seq<byte>, secs: seq<Section>, n: nat)
    requires ps != [] && n <= |secs|
    decreases |ps|, 0
  {
    && Shows(ps[0], pend, secs[..n])
    && Shown(ps[1..], Unsent(ps[0], pend, secs[..n]), secs[n..])
  }

  lemma WireShows(t: Ts, pend: seq<byte>, begun: seq<Section>)
    requires Carries(t.start, t.pay, pend, begun)
    ensures Shows(Wire(t), pend, begun)
    ensures Unsent(Wire(t), pend, begun) == Leftover(t.start, t.pay, pend, begun)
  {
    hide Carries;
    WireRead(t);
  }

  /** What the sender has packetised is what the receiver sees. */
  lemma {:induction false} PacketisedShown(ps: seq<Packet>, pid: int, pend: seq<byte>, secs: seq<Section>)
    requires Packetised(ps, pid, pend, secs)
    ensures Shown(ps, pend, secs)
    decreases |ps|
  {
    if ps != [] {
      hide Carries, Leftover, Shows, Unsent, Wire;
      var t: Ts, n: nat :| n <= |secs| && PacketisedAfter(ps, pid, pend, secs, t, n);
      WireShows(t, pend, secs[..n]);
      PacketisedShown(ps[1..], pid, Leftover(t.start, t.pay, pend, secs[..n]), secs[n..]);
      assert ShownAfter(ps, pend, secs, n);
    }
  }

  // --- One chunk ---------------------------------------------------------

  lemma WholeSection(f: FilterState, tid: int, s: Section)
    requires Quiet(f.acc) && |s| <= 184
    ensures Fed(f, Matching(f, [s]), StepOne(f, tid, Chunk(f.pid, s, true)))
  {
    hide Matching, Matches;
    MatchingOne(f, s);
    assert BreaksAt(f, 0) == f.reader(|f.sent|).Broken?;
    assert [] + s == s && s[..|s|] == s;
  }

  lemma PartOfSection(f: FilterState, tid: int, part: seq<byte>)
    requires Quiet(f.acc) && Quiet(part) && 1 <= |part| <= 184
    ensures var o := StepOne(f, tid, Chunk(f.pid, part, true));
            && Fed(f, [], o)
            && (Matches(f, f.pid, part[0]) ==> o.value.acc == part)
  {
  }

  /** A continuation chunk: `data` goes on with section `s` after its first `k` bytes. */
  lemma Continuation(f: FilterState, tid: int, s: Section, k: nat, data: seq<byte>)
    requires InProgress(f, tid, s, k) && Laid(data, s[k..]) && |data| <= 184
    ensures var o := StepOne(f, tid, Chunk(f.pid, data, false));
            if k + |data| < |s|
            then Fed(f, [], o) && InProgress(o.value, tid, s, k + |data|)
            else Fed(f, Matching(f, [s]), o)
  {
    hide Matching, Matches;
    if Matches(f, f.pid, s[0]) {
      if k + |data| < |s| {
        SectionGoesOn(s, k, data);
      } else {
        SectionEnds(s, k, data);
        MatchingOne(f, s);
        assert BreaksAt(f, 0) == f.reader(|f.sent|).Broken?;
      }
    } else {
      MatchingOne(f, s);
    }
  }

  lemma MatchingOne(f: FilterState, s: Section)
    ensures Matching(f, [s]) == if Matches(f, f.pid, s[0]) then [s] else []
  {
    assert [s][1..] == [];
    MatchesIff(f, f.pid, s[0]);
  }

  lemma SectionGoesOn(s: Section, k: nat, data: seq<byte>)
    requires k + |data| < |s| && Laid(data, s[k..])
    ensures s[..k] + data == s[..k + |data|] && Quiet(s[..k + |data|])
  {
  }

  lemma SectionEnds(s: Section, k: nat, data: seq<byte>)
    requires k < |s| <= k + |data| && Laid(data, s[k..])
    ensures var acc := s[..k] + data; |acc| >= |s| && Declared(acc) == |s| && acc[..|s|] == s
  {
  }

  // --- One packet --------------------------------------------------------

  lemma {:induction false} ConcatSplit(a: seq<Section>, b: seq<Section>)
    ensures Concat(a + b) == Concat(a) + Concat(b)
    decreases |a|
  {
    if a == [] {
      assert a + b == b;
    } else {
      assert (a + b)[1..] == a[1..] + b;
      ConcatSplit(a[1..], b);
    }
  }

  /** The sections of `us` that are complete when the bytes `left` remain to be sent. */
  function Complete(us: seq<Section>, left: seq<byte>): seq<Section> {
    if left == [] || us == [] then us else us[..|us| - 1]
  }

  /** The filter after some packets: it was given the complete sections of `us`, and if `left`
      remains to be sent, then of the last section of `us`. */
  ghost predicate Served(f: FilterState, us: seq<Section>, left: seq<byte>, o: Option<FilterState>, tid: int) {
    && Fed(f, Matching(f, Complete(us, left)), o)
    && (o.Some? && left != [] ==>
        us != [] && IsRest(left, us[|us| - 1]) && InProgress(o.value, tid, us[|us| - 1], |us[|us| - 1]| - |left|))
  }

  predicate IsRest(left: seq<byte>, s: Section) {
    |left| < |s| && left == s[|s| - |left|..]
  }

  lemma ServedThen(f: FilterState, a: seq<Section>, g: FilterState, b: seq<Section>, left: seq<byte>,
                   o: Option<FilterState>, tid: int)
    requires Fed(f, Matching(f, a), Some(g)) && Served(g, b, left, o, tid)
    requires left != [] ==> b != []
    ensures Served(f, a + b, left, o, tid)
  {
    MatchingSame(f, g, Complete(b, left));
    MatchingSplit(f, a, Complete(b, left));
    assert Complete(a + b, left) == a + Complete(b, left);
    FedThen(f, Matching(f, a), g, Matching(f, Complete(b, left)), o);
  }

  lemma ServedBroken(f: FilterState, a: seq<Section>, b: seq<Section>, left: seq<byte>, tid: int)
    requires Fed(f, Matching(f, a), None)
    requires left != [] ==> b != []
    ensures Served(f, a + b, left, None, tid)
  {
    MatchingSplit(f, a, Complete(b, left));
    assert Complete(a + b, left) == a + Complete(b, left);
    FedBroken(f, Matching(f, a), Matching(f, Complete(b, left)));
  }

  /** Stuffing is taken for the head of a section, which no filter will ever see completed. */
  lemma StuffingOnly(f: FilterState, tid: int, body: seq<byte>)
    requires Quiet(f.acc) && body != [] && |body| <= 184 && Laid(body, [])
    ensures var cs := SectionChunks(f.pid, body);
            Served(f, [], [], Fate(f, tid, cs), FinalTid(tid, f.pid, cs))
  {
  }

  /** A body that ends inside its only section, or at its end. */
  lemma LastSection(f: FilterState, tid: int, body: seq<byte>, s: Section)
    requires Quiet(f.acc) && body != [] && |body| <= 184 && |body| <= |s| && Laid(body, s)
    ensures var cs := SectionChunks(f.pid, body);
            Served(f, [s], After(s, |body|), Fate(f, tid, cs), FinalTid(tid, f.pid, cs))
  {
    var cs := SectionChunks(f.pid, body);
    var n := |body|;
    assert body == s[..n];
    assert SectionLength(body) == n;
    assert body[..n] == body && body[n..] == [];
    assert SectionChunks(f.pid, []) == [];
    assert cs == [Chunk(f.pid, body, true)];
    FateOfOne(f, tid, Chunk(f.pid, body, true));
    if n == |s| {
      assert body == s;
      WholeSection(f, tid, s);
    } else {
      PartOfSection(f, tid, body);
    }
  }

  /** The bytes that follow the pointer field's region: whole sections, a cut one, stuffing. */
  lemma {:induction false} SectionsServed(f: FilterState, tid: int, body: seq<byte>, begun: seq<Section>)
    requires Quiet(f.acc) && begun != [] && |body| <= 184
    requires Laid(body, Concat(begun)) && |body| > |Concat(begun[..|begun| - 1])|
    ensures var cs := SectionChunks(f.pid, body);
            Served(f, begun, After(Concat(begun), |body|), Fate(f, tid, cs), FinalTid(tid, f.pid, cs))
    decreases |begun|, 0
  {
    var s := begun[0];
    ConcatHead(begun);
    if |body| <= |s| {
      assert begun == [s];
      LastSection(f, tid, body, s);
    } else {
      SectionCut(f, tid, body, s);
      WholeThenRest(f, tid, body, s, begun[1..]);
    }
  }

  lemma ConcatHead(begun: seq<Section>)
    requires begun != []
    ensures begun == [begun[0]] + begun[1..]
    ensures Concat(begun) == begun[0] + Concat(begun[1..])
    ensures |begun| == 1 ==> Concat(begun) == begun[0]
    ensures |begun| > 1 ==>
            Concat(begun[..|begun| - 1]) == begun[0] + Concat(begun[1..][..|begun[1..]| - 1])
  {
    if |begun| > 1 {
      assert begun[..|begun| - 1][1..] == begun[1..][..|begun| - 2];
    }
  }

  /** A section that is followed by more bytes is cut off at its declared end. */
  lemma SectionCut(f: FilterState, tid: int, body: seq<byte>, s: Section)
    requires |s| < |body| && forall i :: 0 <= i < |s| ==> body[i] == s[i]
    ensures SectionChunks(f.pid, body) == [Chunk(f.pid, s, true)] + SectionChunks(f.pid, body[|s|..])
  {
    assert body[..|s|] == s;
    assert SectionLength(body) == |s|;
  }

  lemma WholeThenRest(f: FilterState, tid: int, body: seq<byte>, s: Section, more: seq<Section>)
    requires Quiet(f.acc) && |s| < |body| <= 184
    requires Laid(body, s + Concat(more))
    requires more != [] ==> |body| > |s| + |Concat(more[..|more| - 1])|
    ensures var cs := [Chunk(f.pid, s, true)] + SectionChunks(f.pid, body[|s|..]);
            Served(f, [s] + more, After(s + Concat(more), |body|), Fate(f, tid, cs), FinalTid(tid, f.pid, cs))
    decreases |more|, 1
  {
    var head: seq<Chunk> := [Chunk(f.pid, s, true)];
    var rest := body[|s|..];
    var tail := SectionChunks(f.pid, rest);
    FateSplit(f, tid, head, tail);
    FateOfOne(f, tid, Chunk(f.pid, s, true));
    WholeSection(f, tid, s);
    var left := After(s + Concat(more), |body|);
    assert left == After(Concat(more), |rest|);
    var o := StepOne(f, tid, Chunk(f.pid, s, true));
    if o.None? {
      ServedBroken(f, [s], more, left, FinalTid(tid, f.pid, head + tail));
    } else {
      var g := o.value;
      var t := NextTid(tid, Chunk(f.pid, s, true));
      assert g.pid == f.pid;
      if more == [] {
        StuffingOnly(g, t, rest);
      } else {
        SectionsServed(g, t, rest, more);
      }
      ServedThen(f, [s], g, more, left, Fate(g, t, tail), FinalTid(t, f.pid, tail));
    }
  }

  /** The section in progress, if there is one. */
  function Current(cur: Section, pend: seq<byte>): seq<Section> {
    if pend == [] then [] else [cur]
  }

  /** The filter is ready for packets that carry `pend`, the rest of `cur`, and then new sections. */
  ghost predicate Ready(f: FilterState, tid: int, cur: Section, pend: seq<byte>) {
    if pend == [] then Quiet(f.acc) else IsRest(pend, cur) && InProgress(f, tid, cur, |cur| - |pend|)
  }

  /** The first chunk of a packet that starts a unit ends the section in progress. */
  lemma PointerChunk(f: FilterState, tid: int, cur: Section, pend: seq<byte>)
    requires Ready(f, tid, cur, pend) && |pend| <= 184
    ensures Fed(f, Matching(f, Current(cur, pend)), StepOne(f, tid, Chunk(f.pid, pend, false)))
  {
    if pend == [] {
      assert f.acc + [] == f.acc;
    } else {
      Continuation(f, tid, cur, |cur| - |pend|, pend);
    }
  }

  /** The chunks of a packet that starts a unit: the rest of the old section, then new ones. */
  lemma StartChunks(p: Packet, pend: seq<byte>, begun: seq<Section>)
    requires Shows(p, pend, begun) && UnitStart(p)
    ensures |pend| <= 184
    ensures var body := Payload(p)[1 + |pend|..];
            && Chunks(p) == [Chunk(Pid(p), pend, false)] + SectionChunks(Pid(p), body)
            && |body| <= 184 && Laid(body, Concat(begun)) && |body| > |Concat(begun[..|begun| - 1])|
            && Unsent(p, pend, begun) == After(Concat(begun), |body|)
  {
    hide Payload, PayloadOffset, UnitStart, Pid, Concat, SectionChunks, SectionLength;
    var pay := Payload(p);
    var n := 1 + |pend|;
    assert pay[1..n] == pend;
    var body := pay[n..];
    forall i | 0 <= i < |body|
      ensures body[i] == if i < |Concat(begun)| then Concat(begun)[i] else STUFFING
    {
      assert pay[1..][|pend| + i] == body[i];
    }
  }

  /** Once the first chunk has been dealt with, a packet that starts a unit serves the sections
      that begin in it. */
  lemma AfterPointer(f: FilterState, tid: int, p: Packet, pend: seq<byte>, begun: seq<Section>)
    requires Pid(p) == f.pid && Shows(p, pend, begun) && UnitStart(p)
    requires var o := StepOne(f, tid, Chunk(f.pid, pend, false));
             o.Some? ==> SameFilter(f, o.value) && Quiet(o.value.acc)
    ensures var o := StepOne(f, tid, Chunk(f.pid, pend, false));
            var r := Fate(f, tid, Chunks(p));
            if o.None? then r == None
            else Served(o.value, begun, Unsent(p, pend, begun), r, FinalTid(tid, f.pid, Chunks(p)))
  {
    StartChunks(p, pend, begun);
    var c := Chunk(f.pid, pend, false);
    var body := Payload(p)[1 + |pend|..];
    var tail := SectionChunks(f.pid, body);
    FateSplit(f, tid, [c], tail);
    FateOfOne(f, tid, c);
    var o := StepOne(f, tid, c);
    if o.Some? {
      SectionsServed(o.value, tid, body, begun);
    }
  }

  lemma StartServed(f: FilterState, tid: int, p: Packet, pend: seq<byte>, begun: seq<Section>, cur: Section)
    requires Pid(p) == f.pid && Shows(p, pend, begun) && Ready(f, tid, cur, pend) && UnitStart(p)
    ensures Served(f, Current(cur, pend) + begun, Unsent(p, pend, begun),
                   Fate(f, tid, Chunks(p)), FinalTid(tid, f.pid, Chunks(p)))
  {
    var left := Unsent(p, pend, begun);
    var cs := Chunks(p);
    var t := FinalTid(tid, f.pid, cs);
    StartChunks(p, pend, begun);
    PointerChunk(f, tid, cur, pend);
    AfterPointer(f, tid, p, pend, begun);
    var o := StepOne(f, tid, Chunk(f.pid, pend, false));
    if o.None? {
      ServedBroken(f, Current(cur, pend), begun, left, t);
    } else {
      ServedThen(f, Current(cur, pend), o.value, begun, left, Fate(f, tid, cs), t);
    }
  }

  lemma ContinueServed(f: FilterState, tid: int, p: Packet, pend: seq<byte>, cur: Section)
    requires Pid(p) == f.pid && Shows(p, pend, []) && Ready(f, tid, cur, pend) && !UnitStart(p)
    ensures Served(f, Current(cur, pend), Unsent(p, pend, []),
                   Fate(f, tid, Chunks(p)), FinalTid(tid, f.pid, Chunks(p)))
  {
    var pay := Payload(p);
    if pay == [] {
      assert After(pend, 0) == pend;
    } else {
      var c := Chunk(f.pid, pay, false);
      FateOfOne(f, tid, c);
      Continuation(f, tid, cur, |cur| - |pend|, pay);
    }
  }

  lemma PacketServed(f: FilterState, tid: int, p: Packet, pend: seq<byte>, begun: seq<Section>, cur: Section)
    requires Pid(p) == f.pid && Shows(p, pend, begun) && Ready(f, tid, cur, pend)
    ensures Served(f, Current(cur, pend) + begun, Unsent(p, pend, begun),
                   Fate(f, tid, Chunks(p)), FinalTid(tid, f.pid, Chunks(p)))
    ensures Unsent(p, pend, begun) != [] ==> Current(cur, pend) + begun != []
  {
    if UnitStart(p) {
      StartServed(f, tid, p, pend, begun, cur);
    } else {
      assert Current(cur, pend) + begun == Current(cur, pend);
      ContinueServed(f, tid, p, pend, cur);
    }
  }

  // --- Runs of packets ---------------------------------------------------

  /** The first packet of a run, and what it leaves for the others. */
  lemma FirstPacketServed(f: FilterState, tid: int, ps: seq<Packet>, pend: seq<byte>,
                          secs: seq<Section>, cur: Section)
    returns (us: seq<Section>, left: seq<byte>, later: seq<Section>)
    requires AllPackets(ps, f.pid) && Shown(ps, pend, secs) && Ready(f, tid, cur, pend) && ps != []
    ensures var cs := Chunks(ps[0]);
            Served(f, us, left, Fate(f, tid, cs), FinalTid(tid, f.pid, cs))
    ensures left != [] ==> us != []
    ensures Shown(ps[1..], left, later)
    ensures us + later == Current(cur, pend) + secs
  {
    hide Served, Ready, Unsent, Shows;
    var n: nat :| n <= |secs| && ShownAfter(ps, pend, secs, n);
    var begun := secs[..n];
    later := secs[n..];
    us := Current(cur, pend) + begun;
    left := Unsent(ps[0], pend, begun);
    PacketServed(f, tid, ps[0], pend, begun, cur);
    SeqAssoc(Current(cur, pend), begun, later);
  }

  /** From a filter that is ready: exactly the matching sections. */
  lemma {:induction false} Reassembled(f: FilterState, tid: int, ps: seq<Packet>, pend: seq<byte>,
                                       secs: seq<Section>, cur: Section)
    requires AllPackets(ps, f.pid) && Shown(ps, pend, secs) && Ready(f, tid, cur, pend)
    ensures Fed(f, Matching(f, Current(cur, pend) + secs), Fate(f, tid, Stream(ps)))
    decreases |ps|, 0
  {
    if ps != [] {
      var us, left, later := FirstPacketServed(f, tid, ps, pend, secs, cur);
      ServedThenRest(f, tid, Chunks(ps[0]), us, left, ps[1..], later);
    }
  }

  /** The same when no section is in progress. */
  lemma ReassembledIdle(f: FilterState, tid: int, ps: seq<Packet>, secs: seq<Section>)
    requires AllPackets(ps, f.pid) && Shown(ps, [], secs) && Quiet(f.acc)
    ensures Fed(f, Matching(f, secs), Fate(f, tid, Stream(ps)))
  {
    hide Fed, Shown;
    var any: Section := [0, 0, 1, 0];
    Reassembled(f, tid, ps, [], secs, any);
    assert Current(any, []) + secs == secs;
  }

  lemma ServedThenRest(f: FilterState, tid: int, cs: seq<Chunk>, us: seq<Section>, left: seq<byte>,
                       ps: seq<Packet>, secs: seq<Section>)
    requires Served(f, us, left, Fate(f, tid, cs), FinalTid(tid, f.pid, cs))
    requires AllPackets(ps, f.pid) && Shown(ps, left, secs)
    requires left != [] ==> us != []
    ensures Fed(f, Matching(f, us + secs), Fate(f, tid, cs + Stream(ps)))
    decreases |ps|, 1
  {
    hide Stream, Shown, Fate, Matching, FinalTid;
    FateSplit(f, tid, cs, Stream(ps));
    FateKeepsIdentity(f, tid, cs);
    var o := Fate(f, tid, cs);
    var t := FinalTid(tid, f.pid, cs);
    var done := Complete(us, left);
    var cur: Section := if left == [] then [0, 0, 1, 0] else us[|us| - 1];
    var next := Current(cur, left) + secs;
    CompleteThenCurrent(us, left, secs, cur);
    MatchingSplit(f, done, next);
    if o.None? {
      FedBroken(f, Matching(f, done), Matching(f, next));
    } else {
      Reassembled(o.value, t, ps, left, secs, cur);
      MatchingSame(f, o.value, next);
      FedThen(f, Matching(f, done), o.value, Matching(f, next), Fate(o.value, t, Stream(ps)));
    }
  }

  lemma CompleteThenCurrent(us: seq<Section>, left: seq<byte>, secs: seq<Section>, cur: Section)
    requires left != [] ==> us != [] && cur == us[|us| - 1]
    ensures us + secs == Complete(us, left) + (Current(cur, left) + secs)
  {
  }
}

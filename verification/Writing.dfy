/** Every section that a filter hands to write(), the last one of a filter that is deleted included. */
module Writing {
  import opened Wrappers
  import opened Bits
  import opened Sections
  import opened Chunking
  import opened Demultiplexer
  import opened Isolation
  import opened RoundTrip

  /** What one chunk makes the filter hand to write(). */
  function WrittenByOne(f: FilterState, tid: int, c: Chunk): seq<seq<byte>> {
    var t := NextTid(tid, c);
    if t == -1 || !Matches(f, c.pid, LowByte(t)) then []
    else PutSection(f, c.data, c.start).f.sent[|f.sent|..]
  }

  function Written(f: FilterState, tid: int, cs: seq<Chunk>): seq<seq<byte>>
    decreases |cs|
  {
    if cs == [] then []
    else if cs[0].pid != f.pid then Written(f, tid, cs[1..])
    else
      var o := StepOne(f, tid, cs[0]);
      WrittenByOne(f, tid, cs[0]) + if o.None? then [] else Written(o.value, NextTid(tid, cs[0]), cs[1..])
  }

  /** The sections `ms` up to the first whose write fails, when `n` have been written before. */
  function UpToFailure(reader: nat -> WriteOutcome, n: nat, ms: seq<seq<byte>>): seq<seq<byte>>
    decreases |ms|
  {
    if ms == [] then []
    else [ms[0]] + if reader(n).Broken? then [] else UpToFailure(reader, n + 1, ms[1..])
  }

  /** A surviving filter has sent what was written, and nothing else. */
  lemma {:induction false} WrittenIsSent(f: FilterState, tid: int, cs: seq<Chunk>)
    ensures Fate(f, tid, cs).Some? ==> Fate(f, tid, cs).value.sent == f.sent + Written(f, tid, cs)
    decreases |cs|
  {
    if cs != [] {
      if cs[0].pid != f.pid {
        WrittenIsSent(f, tid, cs[1..]);
      } else {
        var o := StepOne(f, tid, cs[0]);
        if o.Some? {
          WrittenIsSent(o.value, NextTid(tid, cs[0]), cs[1..]);
          assert o.value.sent == f.sent + WrittenByOne(f, tid, cs[0]);
        }
      }
    }
  }

  const WILLING: nat -> WriteOutcome := k => Delivered

  /** The same filter with a reader that takes every write. */
  function Willing(f: FilterState): FilterState {
    f.(reader := WILLING)
  }

  /** One chunk: the filter writes what it would write for a willing reader, and goes on like that one
      unless the write fails. */
  lemma StepLikeWilling(f: FilterState, tid: int, c: Chunk)
    requires c.pid == f.pid
    ensures var x := WrittenByOne(Willing(f), tid, c);
            && |x| <= 1 && WrittenByOne(f, tid, c) == x
            && var o := StepOne(f, tid, c);
               && StepOne(Willing(f), tid, c).Some?
               && (o.None? <==> x != [] && f.reader(|f.sent|).Broken?)
               && (o.Some? ==> StepOne(Willing(f), tid, c).value == Willing(o.value)
                               && o.value.reader == f.reader && o.value.pid == f.pid
                               && |o.value.sent| == |f.sent| + |x|)
  {
    hide BitAnd;
  }

  /** What a filter writes is what it would write for a willing reader, up to the first failure. */
  lemma {:induction false} WrittenUpToFailure(f: FilterState, tid: int, cs: seq<Chunk>)
    ensures var ms := Written(Willing(f), tid, cs);
            && Written(f, tid, cs) == UpToFailure(f.reader, |f.sent|, ms)
            && Fate(Willing(f), tid, cs).Some?
            && (if FailsWithin(f, |ms|) then Fate(f, tid, cs) == None
                else Fate(f, tid, cs) == Some(Fate(Willing(f), tid, cs).value.(reader := f.reader)))
    decreases |cs|
  {
    if cs == [] {
      assert f == Willing(f).(reader := f.reader);
    } else if cs[0].pid != f.pid {
      WrittenUpToFailure(f, tid, cs[1..]);
    } else {
      hide StepOne, WrittenByOne, NextTid;
      var c := cs[0];
      var x := WrittenByOne(Willing(f), tid, c);
      StepLikeWilling(f, tid, c);
      var o := StepOne(f, tid, c);
      var ms := Written(Willing(f), tid, cs);
      if o.None? {
        assert BreaksAt(f, 0) && FailsWithin(f, |ms|);
        FateOfWilling(f, tid, cs);
      } else {
        var g, t := o.value, NextTid(tid, c);
        WrittenUpToFailure(g, t, cs[1..]);
        var rest := Written(Willing(g), t, cs[1..]);
        assert ms == x + rest;
        UpToFailureCons(f.reader, |f.sent|, x, rest);
        LaterFailures(f, g, |x|, |rest|);
      }
    }
  }

  /** A willing reader's filter is never deleted. */
  lemma {:induction false} FateOfWilling(f: FilterState, tid: int, cs: seq<Chunk>)
    ensures Fate(Willing(f), tid, cs).Some?
    decreases |cs|
  {
    if cs != [] {
      if cs[0].pid != f.pid {
        FateOfWilling(f, tid, cs[1..]);
      } else {
        StepLikeWilling(Willing(f), tid, cs[0]);
        FateOfWilling(StepOne(Willing(f), tid, cs[0]).value, NextTid(tid, cs[0]), cs[1..]);
      }
    }
  }

  /** A write among the next `n` of the filter fails. */
  ghost predicate FailsWithin(f: FilterState, n: nat) {
    exists k :: 0 <= k < n && BreaksAt(f, k)
  }

  /** The failures among the later writes, when the first `m` (one or none) have gone well. */
  lemma LaterFailures(f: FilterState, g: FilterState, m: nat, n: nat)
    requires g.reader == f.reader && |g.sent| == |f.sent| + m && m <= 1
    requires m == 1 ==> !f.reader(|f.sent|).Broken?
    ensures FailsWithin(f, m + n) <==> FailsWithin(g, n)
  {
    if FailsWithin(f, m + n) {
      var k: nat :| k < m + n && BreaksAt(f, k);
      assert k >= m && BreaksAt(g, k - m);
    }
    if FailsWithin(g, n) {
      var k: nat :| k < n && BreaksAt(g, k);
      assert BreaksAt(f, k + m);
    }
  }

  lemma UpToFailureCons(reader: nat -> WriteOutcome, n: nat, x: seq<seq<byte>>, rest: seq<seq<byte>>)
    requires |x| <= 1 && (x != [] ==> !reader(n).Broken?)
    ensures UpToFailure(reader, n, x + rest) == x + UpToFailure(reader, n + |x|, rest)
  {
    if x == [] {
      assert x + rest == rest;
    } else {
      assert (x + rest)[1..] == rest;
    }
  }

  /** What a filter would be fed if its reader took every write decides what it is fed and writes. */
  lemma FedAsWilling(f: FilterState, tid: int, cs: seq<Chunk>, ms: seq<seq<byte>>)
    requires Fed(Willing(f), ms, Fate(Willing(f), tid, cs))
    ensures Fed(f, ms, Fate(f, tid, cs))
    ensures Written(f, tid, cs) == UpToFailure(f.reader, |f.sent|, ms)
  {
    var w := Willing(f);
    WrittenUpToFailure(f, tid, cs);
    WrittenIsSent(w, tid, cs);
    assert Written(w, tid, cs) == ms by {
      assert f.sent + Written(w, tid, cs) == f.sent + ms;
      assert (f.sent + ms)[|f.sent|..] == ms;
      assert (f.sent + Written(w, tid, cs))[|f.sent|..] == Written(w, tid, cs);
    }
  }

  lemma {:induction false} WrittenOn(f: FilterState, tid: int, cs: seq<Chunk>)
    ensures Written(f, tid, cs) == Written(f, tid, ChunksOn(cs, f.pid))
    decreases |cs|
  {
    if cs != [] {
      if cs[0].pid == f.pid {
        assert ChunksOn(cs, f.pid)[1..] == ChunksOn(cs[1..], f.pid);
        var o := StepOne(f, tid, cs[0]);
        if o.Some? {
          FateKeepsIdentity(f, tid, [cs[0]]);
          FateOfOne(f, tid, cs[0]);
          WrittenOn(o.value, NextTid(tid, cs[0]), cs[1..]);
        }
      } else {
        assert ChunksOn(cs, f.pid) == ChunksOn(cs[1..], f.pid);
        WrittenOn(f, tid, cs[1..]);
      }
    }
  }
}

/** The comparison that would make the packet buffer safe without a condition: the wrapped branch of
    FindSpace would have to stop at the offset of the oldest packet. With it, every run is first in,
    first out. */
module RingRepair {
  import opened Regions
  import opened PacketRing
  import opened RingSafety
  import opened RingQueue
  import opened RingRun
  import opened RingHeld

  /** FindSpace, with the reader's offset as the limit of the wrapped branch. A region may end where the
      oldest one begins, so this comparison has to be `<=`; the source's `<` with the reader's offset would
      be safe as well, but would also refuse an exact fit. */
  function FindSpaceRepaired(r: Ring, size: nat): int
    requires Shape(r)
  {
    if r.rp == r.wp then
      if size > |r.data| then -1 else 0
    else
      var pr := r.pos[r.rp];
      var pw := r.pos[Before(r.wp, |r.pos|)];
      if pr.offset <= pw.offset then
        if pw.offset + pw.realSize + size < |r.data| then pw.offset + pw.realSize
        else if size < pr.offset then 0
        else -1
      else if pw.offset + pw.realSize + size <= pr.offset then pw.offset + pw.realSize
      else -1
  }

  /** The repair refuses exactly the placements that would overrun the gap, and changes no other. */
  lemma RepairedIff(r: Ring, least: nat, size: nat)
    requires Inv(r, least) && !r.locked
    ensures FindSpaceRepaired(r, size) == if GapOverrun(r, size) then -1 else FindSpace(r, size)
  {
    if r.rp != r.wp {
      FindSpaceByRegions(r, least, size);
      var oldest := Live(r)[0];
      assert oldest.len >= 1 && oldest.off + oldest.len <= |r.data|;
    }
  }

  /** With `<` the placements that end exactly where the oldest packet begins would be refused too. */
  lemma StrictRefusesExactFit(r: Ring, least: nat, size: nat)
    requires Inv(r, least) && !r.locked && r.rp != r.wp && !OneRun(Live(r))
    ensures End(Live(r)) + size < Live(r)[0].off <==>
            FindSpaceRepaired(r, size) != -1 && End(Live(r)) + size != Live(r)[0].off
  {
    FindSpaceByRegions(r, least, size);
  }

  function TakeRepaired(r: Ring, op: Op): Step
    requires Shape(r) && InProtocol(r, op)
  {
    if op.OpPutStart? && FindSpaceRepaired(r, op.size) == -1 then Step(r, Refused) else Take(r, op)
  }

  /** All that is asked of the callers: the protocol, and packets that are not too small. */
  predicate Legal(r: Ring, op: Op, least: nat)
    requires Shape(r)
  {
    InProtocol(r, op) && (op.OpPutStart? ==> op.size >= least)
  }

  lemma RepairedStepRefines(r: Ring, op: Op, least: nat)
    requires Inv(r, least) && Legal(r, op, least)
    ensures var s := TakeRepaired(r, op);
            Inv(s.r, least) && FifoStep(Abs(r), op, See(r, s.out), Abs(s.r))
  {
    if op.OpPutStart? {
      RepairedIff(r, least, op.size);
    }
    if op.OpPutStart? && GapOverrun(r, op.size) {
      assert TakeRepaired(r, op) == Step(r, Refused);
    } else {
      StepRefines(r, op, least);
    }
  }

  function NextRepaired(r: Ring, op: Op): (s: Ring)
    requires Shape(r) && InProtocol(r, op)
    ensures Shape(s)
  {
    AnyStepInBounds(r, op);
    TakeRepaired(r, op).r
  }

  predicate AllLegal(r: Ring, ops: seq<Op>, least: nat)
    requires Shape(r)
    decreases |ops|
  {
    ops != [] ==> Legal(r, ops[0], least) && AllLegal(NextRepaired(r, ops[0]), ops[1..], least)
  }

  function RunRepaired(r: Ring, ops: seq<Op>, least: nat): (e: Ring)
    requires Shape(r) && AllLegal(r, ops, least)
    ensures Shape(e)
    decreases |ops|
  {
    if ops == [] then r else RunRepaired(NextRepaired(r, ops[0]), ops[1..], least)
  }

  function SeenRepaired(r: Ring, ops: seq<Op>, least: nat): seq<Seen>
    requires Shape(r) && AllLegal(r, ops, least)
    decreases |ops|
  {
    if ops == [] then []
    else [See(r, TakeRepaired(r, ops[0]).out)] + SeenRepaired(NextRepaired(r, ops[0]), ops[1..], least)
  }

  /** With the repair every run, in every interleaving, is a run of the queue. */
  lemma {:induction false} RepairedRunRefines(r: Ring, ops: seq<Op>, least: nat)
    requires Inv(r, least) && AllLegal(r, ops, least)
    ensures var e := RunRepaired(r, ops, least);
            Inv(e, least) && FifoRun(Abs(r), ops, SeenRepaired(r, ops, least), Abs(e))
    decreases |ops|
  {
    if ops != [] {
      var s := TakeRepaired(r, ops[0]);
      RepairedStepRefines(r, ops[0], least);
      RepairedRunRefines(s.r, ops[1..], least);
      FifoRunCons(Abs(r), ops, See(r, s.out), Abs(s.r), SeenRepaired(s.r, ops[1..], least),
                  Abs(RunRepaired(r, ops, least)));
    }
  }

  /** The consumer's packets stay as they are under the repaired producer as well. */
  lemma {:induction false} RepairedHeldStays(r: Ring, ops: seq<Op>, least: nat)
    requires Inv(r, least) && AllLegal(r, ops, least)
    requires forall i :: 0 <= i < |ops| ==> IsProducers(ops[i])
    ensures Undisturbed(r, RunRepaired(r, ops, least))
    ensures r.posRead.Some? ==> GetStart(RunRepaired(r, ops, least)).out == GetStart(r).out
    decreases |ops|
  {
    if ops == [] {
      HeldStays(r, [], least);
    } else {
      var s := NextRepaired(r, ops[0]);
      RepairedStepLeaves(r, ops[0], least);
      RepairedStepRefines(r, ops[0], least);
      RepairedHeldStays(s, ops[1..], least);
      UndisturbedThen(r, s, RunRepaired(r, ops, least));
      GivenAgain(r, RunRepaired(r, ops, least), least);
    }
  }

  lemma RepairedStepLeaves(r: Ring, op: Op, least: nat)
    requires Inv(r, least) && Legal(r, op, least) && IsProducers(op)
    ensures Undisturbed(r, NextRepaired(r, op))
  {
    if op.OpPutStart? {
      RepairedIff(r, least, op.size);
    }
    if op.OpPutStart? && GapOverrun(r, op.size) {
      HeldStays(r, [], least);
    } else {
      StepLeaves(r, op, least);
    }
  }
}

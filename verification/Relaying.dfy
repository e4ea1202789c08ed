/** The way of the packets from the network to the filters: PutTS puts them into the packet buffer, the loop
    of Action takes them out and handles them. The two threads interleave in any way; PutStart, copying
    and PutEnd are separate steps of the first, a round of the loop is a step of the second. */
module Relaying {
  import opened Wrappers
  import opened Bits
  import opened Sections
  import opened Chunking
  import opened Demultiplexer
  import opened Isolation
  import opened Packetiser
  import opened RoundTrip
  import opened Writing
  import opened Reassembly
  import opened PacketRing
  import RingSafety
  import RingQueue
  import RingRun
  import RingOverrun

  const SIZE: nat := RingOverrun.PACKET

  /** Where PutTS stands with the packet at the head of `todo`. */
  datatype Stage = Idle | Reserving | Copied

  /** `todo` are the packets that PutTS still has to put; the others are recorded in `put`, or counted in
      `refused` if PutStart gave no room. `taken` are the packets that Action has handled. */
  datatype Relay = Relay(
    ring: Ring,
    demux: Demux,
    todo: seq<Packet>,
    stage: Stage,
    put: seq<Packet>,
    taken: seq<Packet>,
    refused: nat)

  /** The buffer seen as a queue. */
  ghost function AsQueue(r: Ring): RingQueue.Fifo
    requires RingSafety.Inv(r, SIZE)
  {
    RingQueue.Abs(r)
  }

  /** The region that is being written is as long as a packet. */
  ghost predicate HasRoom(r: Ring)
    requires RingSafety.Inv(r, SIZE)
  {
    r.locked && r.pos[r.wp].realSize == SIZE
  }

  /** The buffer holds the packets that were put and not taken, the one in Action's hands at its head. */
  ghost predicate Holding(x: Relay) {
    && RingSafety.Inv(x.ring, SIZE)
    && var f := AsQueue(x.ring);
       && !f.invalidate && f.held <= 1 && (f.held == 1 ==> f.cursor == 0)
       && f.held <= |x.taken| <= |x.put| && x.taken == x.put[..|x.taken|]
       && f.queue == RingOverrun.Queue(x.put[|x.taken| - f.held..])
  }

  /** PutTS has reserved room for the packet it is at, and then copied it there. */
  ghost predicate Putting(x: Relay) {
    && RingSafety.Inv(x.ring, SIZE)
    && (x.stage == Idle <==> !x.ring.locked)
    && (x.stage != Idle ==> x.todo != [] && HasRoom(x.ring))
    && (x.stage == Copied ==> AsQueue(x.ring).reserved == Some(x.todo[0]))
  }

  ghost predicate Linked(d: Demux, ps: seq<Packet>, x: Relay) {
    && Holding(x) && Putting(x)
    && x.demux == Run(d, x.taken)
    && (x.refused == 0 ==> x.put + x.todo == ps)
  }

  // --- What the steps do to the queue --------------------------------------

  lemma Reserves(r: Ring)
    requires RingSafety.Inv(r, SIZE) && !r.locked && !RingSafety.GapOverrun(r, SIZE)
    ensures var s := PutStart(r, SIZE);
            if s.out == Refused then s.r == r
            else
              && RingSafety.Inv(s.r, SIZE) && HasRoom(s.r) && s.r.locked
              && AsQueue(s.r) == AsQueue(r).(reserved := AsQueue(s.r).reserved)
  {
    RingQueue.PutStartRefines(r, SIZE, SIZE);
  }

  lemma Copies(r: Ring, p: Packet)
    requires RingSafety.Inv(r, SIZE) && HasRoom(r)
    ensures var c := Fill(r, 0, p);
            && RingSafety.Inv(c, SIZE) && HasRoom(c) && c.locked && AsQueue(c) == AsQueue(r).(reserved := Some(p))
  {
    RingQueue.FillRefines(r, SIZE, 0, p);
    assert |RingQueue.Reserved(r).value| == SIZE;
    assert RingQueue.Overwrite(RingQueue.Reserved(r).value, 0, p) == p;
  }

  lemma Commits(r: Ring, p: Packet)
    requires RingSafety.Inv(r, SIZE) && HasRoom(r) && AsQueue(r).reserved == Some(p)
    ensures var e := PutEnd(r, SIZE, 0, 0);
            && RingSafety.Inv(e, SIZE) && !e.locked
            && AsQueue(e) == AsQueue(r).(queue := AsQueue(r).queue + [RingQueue.Packet(p, 0, 0, true)], reserved := None)
  {
    RingQueue.PutEndRefines(r, SIZE, SIZE, 0, 0);
  }

  /** GetEnd, and then GetStart. */
  function Turn(r: Ring): Step
    requires RingSafety.Inv(r, SIZE)
  {
    RingQueue.GetEndRefines(r, SIZE);
    GetStart(GetEnd(r))
  }

  lemma Turns(r: Ring)
    requires RingSafety.Inv(r, SIZE) && !AsQueue(r).invalidate && AsQueue(r).held <= |AsQueue(r).queue|
    ensures var s := Turn(r);
            var rest := AsQueue(r).queue[AsQueue(r).held..];
            && RingSafety.Inv(s.r, SIZE) && s.r.locked == r.locked && (HasRoom(r) ==> HasRoom(s.r))
            && s.r.data == r.data
            && AsQueue(s.r) == AsQueue(r).(queue := rest, held := if rest == [] then 0 else 1, cursor := 0)
            && (if rest == [] then !s.out.Got? else RingQueue.Gives(s.r, s.out, rest[0], Some(rest[0].timestamp)))
  {
    RingQueue.GetEndRefines(r, SIZE);
    var e := GetEnd(r);
    RingQueue.GetStartRefines(e, SIZE);
  }

  // --- The steps -----------------------------------------------------------

  /** The next step of PutTS. */
  ghost function Produce(x: Relay): Relay
    requires Putting(x)
  {
    match x.stage
    case Idle =>
      if x.todo == [] then x
      else
        var s := PutStart(x.ring, SIZE);
        if s.out == Refused then x.(todo := x.todo[1..], refused := x.refused + 1)
        else x.(ring := s.r, stage := Reserving)
    case Reserving => x.(ring := Fill(x.ring, 0, x.todo[0]), stage := Copied)
    case Copied =>
      x.(ring := PutEnd(x.ring, SIZE, 0, 0), stage := Idle, put := x.put + [x.todo[0]], todo := x.todo[1..])
  }

  /** The packet in the region that GetStart has given, None for a null pointer. (That a region holds
      exactly a packet is part of TurnedGives.) */
  function Block(s: Step): Option<Packet> {
    if s.out.Got? && 0 <= s.out.offset && s.out.size == SIZE && s.out.offset + SIZE <= |s.r.data|
    then Some(s.r.data[s.out.offset..s.out.offset + SIZE])
    else None
  }

  /** One round of the loop of Action. */
  ghost function Consume(x: Relay): Relay
    requires Holding(x)
  {
    var s := Turn(x.ring);
    match Block(s)
    case None => x.(ring := s.r)
    case Some(block) =>
      x.(ring := s.r, demux := RunChunks(x.demux, Chunks(block)), taken := x.taken + [block])
  }

  /** What a round of the loop finds: the next packet that was put and not taken, if there is one. */
  lemma TurnedGives(x: Relay)
    requires Holding(x)
    ensures var s := Turn(x.ring);
            var n := |x.taken|;
            && RingSafety.Inv(s.r, SIZE) && s.r.locked == x.ring.locked && (HasRoom(x.ring) ==> HasRoom(s.r))
            && s.r.data == x.ring.data
            && AsQueue(s.r) == AsQueue(x.ring).(queue := RingOverrun.Queue(x.put[n..]),
                                              held := if n == |x.put| then 0 else 1, cursor := 0)
            && (s.out.Got? <==> n < |x.put|)
            && Block(s) == if n < |x.put| then Some(x.put[n]) else None
  {
    hide RingSafety.Inv, AsQueue, Turn, HasRoom, RingOverrun.Queue;
    Turns(x.ring);
    DropHeld(x, AsQueue(x.ring).held);
    QueueHead(x.put, |x.taken|);
  }

  lemma QueueHead(put: seq<Packet>, n: nat)
    requires n <= |put|
    ensures RingOverrun.Queue(put[n..]) == [] <==> n == |put|
    ensures n < |put| ==> RingOverrun.Queue(put[n..])[0] == RingQueue.Packet(put[n], 0, 0, true)
  {
  }

  lemma DropHeld(x: Relay, h: nat)
    requires h <= |x.taken| <= |x.put|
    ensures RingOverrun.Queue(x.put[|x.taken| - h..])[h..] == RingOverrun.Queue(x.put[|x.taken|..])
  {
  }

  lemma {:induction false} RunOneMore(d: Demux, ps: seq<Packet>, p: Packet)
    ensures Run(d, ps + [p]) == RunChunks(Run(d, ps), Chunks(p))
    decreases |ps|
  {
    if ps == [] {
      assert [] + [p] == [p] && [p][1..] == [];
      assert Run(RunChunks(d, Chunks(p)), []) == RunChunks(d, Chunks(p));
    } else {
      assert (ps + [p])[0] == ps[0] && (ps + [p])[1..] == ps[1..] + [p];
      RunOneMore(RunChunks(d, Chunks(ps[0])), ps[1..], p);
    }
  }

  lemma ConsumeHolds(x: Relay)
    requires Holding(x)
    ensures Holding(Consume(x))
  {
    hide RingSafety.Inv, AsQueue, Turn, HasRoom, RunChunks, Block, RingOverrun.Queue;
    TurnedGives(x);
    var n := |x.taken|;
    if n < |x.put| {
      PrefixOneMore(x.put, n);
      assert Consume(x).taken == x.put[..n + 1];
    }
  }

  lemma PrefixOneMore(put: seq<Packet>, n: nat)
    requires n < |put|
    ensures put[..n + 1] == put[..n] + [put[n]]
  {
  }

  lemma LastTaken(put: seq<Packet>)
    requires put != []
    ensures put[..|put| - 1] + [put[|put| - 1]] == put
  {
  }

  lemma ConsumePuts(x: Relay)
    requires Holding(x) && Putting(x)
    ensures Putting(Consume(x))
  {
    hide RingSafety.Inv, AsQueue, Turn, HasRoom, RunChunks, Block, Holding, RingOverrun.Queue;
    TurnedGives(x);
  }

  lemma ConsumeLinks(d: Demux, ps: seq<Packet>, x: Relay)
    requires Linked(d, ps, x)
    ensures Linked(d, ps, Consume(x))
  {
    assert RingSafety.Inv(x.ring, SIZE);
    hide RingSafety.Inv, AsQueue, Turn, HasRoom, Run, RunChunks, Holding, Putting, Block;
    TurnedGives(x);
    ConsumeHolds(x);
    ConsumePuts(x);
    if Block(Turn(x.ring)).Some? {
      RunOneMore(d, x.taken, Block(Turn(x.ring)).value);
    }
  }

  /** A wrapped producer finds a big enough gap. */
  predicate Roomy(x: Relay)
    requires RingSafety.Inv(x.ring, SIZE)
  {
    x.stage == Idle && x.todo != [] ==> !RingSafety.GapOverrun(x.ring, SIZE)
  }

  /** What PutTS does to its region is nothing to the queue. */
  lemma StillHolding(x: Relay, y: Relay)
    requires Holding(x) && RingSafety.Inv(y.ring, SIZE) && y.put == x.put && y.taken == x.taken
    requires AsQueue(y.ring) == AsQueue(x.ring).(reserved := AsQueue(y.ring).reserved)
    ensures Holding(y)
  {
    hide RingSafety.Inv, AsQueue;
  }

  lemma ReserveLinks(d: Demux, ps: seq<Packet>, x: Relay)
    requires Linked(d, ps, x) && x.stage == Idle && Roomy(x)
    ensures Linked(d, ps, Produce(x))
  {
    hide RingSafety.Inv, AsQueue, HasRoom, PutStart, Run, Holding;
    if x.todo != [] {
      Reserves(x.ring);
      StillHolding(x, Produce(x));
    }
  }

  lemma CopyLinks(d: Demux, ps: seq<Packet>, x: Relay)
    requires Linked(d, ps, x) && x.stage == Reserving
    ensures Linked(d, ps, Produce(x))
  {
    hide RingSafety.Inv, AsQueue, HasRoom, Fill, Run, Holding;
    Copies(x.ring, x.todo[0]);
    StillHolding(x, Produce(x));
  }

  lemma CommitLinks(d: Demux, ps: seq<Packet>, x: Relay)
    requires Linked(d, ps, x) && x.stage == Copied
    ensures Linked(d, ps, Produce(x))
  {
    hide RingSafety.Inv, AsQueue, HasRoom, PutEnd, Run;
    Commits(x.ring, x.todo[0]);
    var y := Produce(x);
    QueueOneMore(x.put, |x.taken| - AsQueue(x.ring).held, x.todo[0]);
    assert x.put + x.todo == y.put + y.todo;
  }

  lemma QueueOneMore(put: seq<Packet>, k: nat, p: Packet)
    requires k <= |put|
    ensures RingOverrun.Queue((put + [p])[k..])
            == RingOverrun.Queue(put[k..]) + [RingQueue.Packet(p, 0, 0, true)]
  {
    assert (put + [p])[k..] == put[k..] + [p];
  }

  lemma ProduceLinks(d: Demux, ps: seq<Packet>, x: Relay)
    requires Linked(d, ps, x) && Roomy(x)
    ensures Linked(d, ps, Produce(x))
  {
    hide Linked, Roomy;
    match x.stage
    case Idle => ReserveLinks(d, ps, x);
    case Reserving => CopyLinks(d, ps, x);
    case Copied => CommitLinks(d, ps, x);
  }

  /** A step of the one thread or of the other. */
  ghost function Next(d: Demux, ps: seq<Packet>, x: Relay, producer: bool): (y: Relay)
    requires Linked(d, ps, x) && (producer ==> Roomy(x))
    ensures Linked(d, ps, y)
  {
    if producer then
      ProduceLinks(d, ps, x);
      Produce(x)
    else
      ConsumeLinks(d, ps, x);
      Consume(x)
  }

  // --- Runs ----------------------------------------------------------------

  /** Over the whole schedule (true for a step of PutTS) no gap is overrun. */
  ghost predicate AllRoomy(d: Demux, ps: seq<Packet>, x: Relay, schedule: seq<bool>)
    requires Linked(d, ps, x)
    decreases |schedule|
  {
    schedule != [] ==>
      && (schedule[0] ==> Roomy(x))
      && AllRoomy(d, ps, Next(d, ps, x, schedule[0]), schedule[1..])
  }

  ghost function RunRelay(d: Demux, ps: seq<Packet>, x: Relay, schedule: seq<bool>): (y: Relay)
    requires Linked(d, ps, x) && AllRoomy(d, ps, x, schedule)
    ensures Linked(d, ps, y)
    decreases |schedule|
  {
    if schedule == [] then x else RunRelay(d, ps, Next(d, ps, x, schedule[0]), schedule[1..])
  }

  /** A new buffer, and `ps` to be put. */
  function Start(d: Demux, ps: seq<Packet>): (x: Relay)
    ensures Linked(d, ps, x)
  {
    StartLinked(d, ps);
    Relay(RingOverrun.NewBuffer(), d, ps, Idle, [], [], 0)
  }

  lemma StartLinked(d: Demux, ps: seq<Packet>)
    ensures Linked(d, ps, Relay(RingOverrun.NewBuffer(), d, ps, Idle, [], [], 0))
  {
    RingRun.TransportBufferInv();
    RingRun.FreshInv(10000 * SIZE, 10000, SIZE);
    assert Run(d, []) == d;
  }

  /** At any time Action has handled the first packets, in order and unchanged, of those for which there was
      room; and if there always was, the first of those that came. */
  lemma PacketsRelayed(d: Demux, ps: seq<Packet>, schedule: seq<bool>)
    requires AllRoomy(d, ps, Start(d, ps), schedule)
    ensures var x := RunRelay(d, ps, Start(d, ps), schedule);
            && x.demux == Run(d, x.taken) && x.taken <= x.put
            && (x.refused == 0 ==> x.taken <= ps)
            && (x.refused == 0 && x.todo == [] && x.taken == x.put ==> x.demux == Run(d, ps))
  {
    var x := RunRelay(d, ps, Start(d, ps), schedule);
    if x.refused == 0 && x.todo == [] {
      assert x.put + x.todo == x.put;
    }
  }

  /** Sections from the network to the filters: when all packets have been put without refusal and taken,
      every filter has written out exactly the sections it asks for. */
  lemma SectionsRelayed(d: Demux, ps: seq<Packet>, schedule: seq<bool>, pid: int, secs: seq<Section>, f: FilterState)
    requires AllRoomy(d, ps, Start(d, ps), schedule)
    requires var x := RunRelay(d, ps, Start(d, ps), schedule); x.refused == 0 && x.todo == [] && x.taken == x.put
    requires AllQuiet(d) && Packetised(PacketsOn(ps, pid), pid, [], secs) && f in d.filters && f.pid == pid
    ensures var x := RunRelay(d, ps, Start(d, ps), schedule);
            && Fed(f, Matching(f, secs), Outcome(d, f, ps))
            && Handed(d, f, ps) == UpToFailure(f.reader, |f.sent|, Matching(f, secs))
            && (Outcome(d, f, ps).Some? ==> Outcome(d, f, ps).value in x.demux.filters)
  {
    PacketsRelayed(d, ps, schedule);
    SectionsArrive(d, ps, pid, secs, f);
  }

  // --- An attentive reader -------------------------------------------------

  /** After every packet that is put, a round of the loop. */
  function Attentive(n: nat): seq<bool> {
    if n == 0 then [] else [true, true, true, false] + Attentive(n - 1)
  }

  /** Nothing is under way, and everything that was put has been taken. */
  ghost predicate CaughtUp(d: Demux, ps: seq<Packet>, x: Relay) {
    && Linked(d, ps, x) && |x.ring.data| == 10000 * SIZE
    && x.stage == Idle && x.refused == 0 && x.taken == x.put
  }

  /** Where at most one packet is queued there is room, and no wrapped run to overrun. */
  lemma RoomBesideOne(r: Ring)
    requires RingSafety.Inv(r, SIZE) && !r.locked && |r.data| == 10000 * SIZE
    requires |AsQueue(r).queue| <= 1
    requires AsQueue(r).queue != [] ==> AsQueue(r).queue[0].whole && |AsQueue(r).queue[0].bytes| == SIZE
    ensures !RingSafety.GapOverrun(r, SIZE) && PutStart(r, SIZE).out != Refused
  {
    if r.rp != r.wp {
      assert Count(r) == 1 && Before(r.wp, |r.pos|) == r.rp;
      var p := PacketRing.Queued(r, 0);
      assert p == r.pos[r.rp] && InData(p, |r.data|) && 0 <= p.size <= p.realSize;
      assert RingQueue.Packets(r)[0] == RingQueue.PacketOf(p, r.data);
      assert p.realSize == SIZE;
    }
  }

  lemma RoomForOne(d: Demux, ps: seq<Packet>, x: Relay)
    requires CaughtUp(d, ps, x)
    ensures Roomy(x) && PutStart(x.ring, SIZE).out != Refused
  {
    hide RingSafety.Inv, AsQueue, PutStart;
    RoomBesideOne(x.ring);
  }

  lemma PutThrough(d: Demux, ps: seq<Packet>, x: Relay) returns (a: Relay, b: Relay, c: Relay)
    requires CaughtUp(d, ps, x) && x.todo != []
    ensures Roomy(x) && a == Next(d, ps, x, true)
    ensures Roomy(a) && b == Next(d, ps, a, true)
    ensures Roomy(b) && c == Next(d, ps, b, true)
    ensures Linked(d, ps, c) && |c.ring.data| == 10000 * SIZE
    ensures c.stage == Idle && c.refused == 0 && c.taken == x.taken && c.put == x.put + [x.todo[0]] && c.todo == x.todo[1..]
  {
    RoomForOne(d, ps, x);
    hide Holding, AsQueue, RingSafety.GapOverrun, Run;
    a := Next(d, ps, x, true);
    b := Next(d, ps, a, true);
    assert b.stage == Copied;
    c := Next(d, ps, b, true);
  }

  lemma TakeThrough(d: Demux, ps: seq<Packet>, c: Relay)
    requires Linked(d, ps, c) && |c.ring.data| == 10000 * SIZE
    requires c.stage == Idle && c.refused == 0 && c.put != [] && c.taken == c.put[..|c.put| - 1]
    ensures var e := Next(d, ps, c, false); CaughtUp(d, ps, e) && e.todo == c.todo
  {
    assert Holding(c) && RingSafety.Inv(c.ring, SIZE);
    hide RingSafety.Inv, AsQueue, Turn, HasRoom, Run, RunChunks, Holding, Block;
    TurnedGives(c);
    LastTaken(c.put);
  }

  lemma OnePacketThrough(d: Demux, ps: seq<Packet>, x: Relay) returns (a: Relay, b: Relay, c: Relay, e: Relay)
    requires CaughtUp(d, ps, x) && x.todo != []
    ensures Roomy(x) && a == Next(d, ps, x, true)
    ensures Roomy(a) && b == Next(d, ps, a, true)
    ensures Roomy(b) && c == Next(d, ps, b, true)
    ensures e == Next(d, ps, c, false) && CaughtUp(d, ps, e) && e.todo == x.todo[1..]
  {
    assert x.taken == x.put;
    hide Linked, Roomy, Next, CaughtUp;
    a, b, c := PutThrough(d, ps, x);
    assert c.put[..|c.put| - 1] == x.put;
    TakeThrough(d, ps, c);
    e := Next(d, ps, c, false);
  }

  /** With an attentive reader no gap is overrun and nothing is refused: all packets are handled. */
  lemma {:induction false} AttentiveSuffices(d: Demux, ps: seq<Packet>, x: Relay)
    requires CaughtUp(d, ps, x)
    ensures AllRoomy(d, ps, x, Attentive(|x.todo|))
    ensures var y := RunRelay(d, ps, x, Attentive(|x.todo|)); CaughtUp(d, ps, y) && y.todo == []
    decreases |x.todo|
  {
    hide Linked, Roomy, AllRoomy, RunRelay, Next;
    if x.todo == [] {
      NoSteps(d, ps, x);
    } else {
      var a, b, c, e := OnePacketThrough(d, ps, x);
      var rest := Attentive(|e.todo|);
      AttentiveSuffices(d, ps, e);
      FirstStep(d, ps, c, false, rest);
      FirstStep(d, ps, b, true, [false] + rest);
      FirstStep(d, ps, a, true, [true] + ([false] + rest));
      FirstStep(d, ps, x, true, [true] + ([true] + ([false] + rest)));
      assert Attentive(|x.todo|) == [true] + ([true] + ([true] + ([false] + rest)));
    }
  }

  lemma NoSteps(d: Demux, ps: seq<Packet>, x: Relay)
    requires Linked(d, ps, x)
    ensures AllRoomy(d, ps, x, []) && RunRelay(d, ps, x, []) == x
  {
  }

  lemma FirstStep(d: Demux, ps: seq<Packet>, x: Relay, producer: bool, rest: seq<bool>)
    requires Linked(d, ps, x) && (producer ==> Roomy(x)) && AllRoomy(d, ps, Next(d, ps, x, producer), rest)
    ensures AllRoomy(d, ps, x, [producer] + rest)
    ensures RunRelay(d, ps, x, [producer] + rest) == RunRelay(d, ps, Next(d, ps, x, producer), rest)
  {
    assert ([producer] + rest)[1..] == rest;
  }

  /** So from a new buffer every packet is handled, whatever the packets. */
  lemma EveryPacketRelayed(d: Demux, ps: seq<Packet>)
    ensures CaughtUp(d, ps, Start(d, ps))
    ensures AllRoomy(d, ps, Start(d, ps), Attentive(|ps|))
    ensures RunRelay(d, ps, Start(d, ps), Attentive(|ps|)).demux == Run(d, ps)
  {
    AttentiveSuffices(d, ps, Start(d, ps));
    PacketsRelayed(d, ps, Attentive(|ps|));
  }
}

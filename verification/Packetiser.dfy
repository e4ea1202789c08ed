/** The sending side, in bytes: a transport packet with its header and adaptation field as section 2.4.3
    of ISO/IEC 13818-1 lays them out, and how section 2.4.4 lets sections be laid out in the payloads of one
    PID. `Packetised` is the rule, stated as a relation so that it covers every choice of adaptation
    fields, of how many sections start in a packet, and of where a section is cut; `Packetise` is one
    concrete packetiser, which shows that the rule can be met for every list of sections. Nothing here
    uses what the receiver computes. */
module Packetiser {
  import opened Wrappers
  import opened Bits
  import opened Sections
  import opened Chunking

  /** A whole section, header included: the low four bits of the second byte and the third byte give the
      number of bytes after the third, which is at least 1. */
  predicate IsSection(s: seq<byte>) {
    && 4 <= |s| <= 4098
    && s[1] as int % 16 == (|s| - 3) / 256 && s[2] as int == (|s| - 3) % 256
  }

  type Section = s: seq<byte> | IsSection(s) witness [0, 0, 1, 0]

  /** PutSection reads the length of a section as it was meant. */
  lemma SectionDeclares(s: seq<byte>)
    ensures IsSection(s) <==> |s| >= 4 && |s| == Declared(s)
  {
  }

  // --- Transport packets ---------------------------------------------------

  /** The fields of a transport packet. `field` are the bytes of the adaptation field after its length byte,
      None if there is no adaptation field; `payload` is the mark that there is a payload, to which the
      receiver pays no attention. */
  datatype Fields = Fields(
    sync: byte,
    error: bool,
    start: bool,
    priority: bool,
    pid: nat,
    scrambling: nat,
    payload: bool,
    counter: nat,
    field: Option<seq<byte>>,
    pay: seq<byte>)

  function FieldBytes(field: Option<seq<byte>>): seq<byte>
    requires field.Some? ==> |field.value| < 256
  {
    if field.Some? then [|field.value|] + field.value else []
  }

  predicate FitsPacket(t: Fields) {
    && t.pid < 8192 && t.scrambling < 4 && t.counter < 16
    && (t.field.Some? ==> |t.field.value| <= 183)
    && |FieldBytes(t.field)| + |t.pay| == 184
  }

  type Ts = t: Fields | FitsPacket(t)
    witness Fields(0x47, false, false, false, 0, 0, true, 0, None, seq(184, i => 0))

  function Bit(b: bool): nat {
    if b then 1 else 0
  }

  /** The packet in bytes. */
  function Wire(t: Ts): Packet {
    [ t.sync,
      128 * Bit(t.error) + 64 * Bit(t.start) + 32 * Bit(t.priority) + t.pid / 256,
      t.pid % 256,
      64 * t.scrambling + 32 * Bit(t.field.Some?) + 16 * Bit(t.payload) + t.counter ]
    + FieldBytes(t.field) + t.pay
  }

  /** Action finds PID, unit start mark and payload where they are, whatever the adaptation field. */
  lemma WireRead(t: Ts)
    ensures Pid(Wire(t)) == t.pid && UnitStart(Wire(t)) == t.start
    ensures PayloadOffset(Wire(t)) == 188 - |t.pay| && Payload(Wire(t)) == t.pay
  {
    var p := Wire(t);
    assert p[3] as int / 32 % 2 == Bit(t.field.Some?);
    if t.field.Some? {
      assert p[4] as int == |t.field.value|;
    }
  }

  /** What is handed on of a packet is cut from its payload: all of it without the unit start mark, all
      after the pointer byte with it, and nothing if the pointer leads out of the packet. */
  lemma WireChunks(t: Ts)
    ensures var cs := Chunks(Wire(t));
            && Bytes(cs) == (if !t.start then t.pay
                             else if t.pay == [] || t.pay[0] as int >= |t.pay| then []
                             else t.pay[1..])
            && (forall i :: 0 <= i < |cs| ==> cs[i].start == (i > 0))
            && AllOn(cs, t.pid)
            && (t.start && t.pay != [] && (t.pay[0] as int) < |t.pay| ==>
                cs != [] && cs[0].data == t.pay[1..1 + t.pay[0] as int])
  {
    WireRead(t);
    ChunksPartition(Wire(t));
  }

  /** The packets with an adaptation field that leads out of the packet. */
  predicate Overruns(p: Packet) {
    p[3] as int / 32 % 2 == 1 && p[4] as int > 183
  }

  lemma SecondByte(a: byte, b: byte)
    ensures var pid := a as int % 32 * 256 + b as int;
            && a as int == 128 * Bit(a as int / 128 == 1) + 64 * Bit(a as int / 64 % 2 == 1)
                           + 32 * Bit(a as int / 32 % 2 == 1) + pid / 256
            && b as int == pid % 256
  {
  }

  lemma FourthByte(c: byte)
    ensures c as int == 64 * (c as int / 64) + 32 * Bit(c as int / 32 % 2 == 1) + 16 * Bit(c as int / 16 % 2 == 1)
                        + c as int % 16
  {
  }

  /** The fields of a packet whose adaptation field stays inside it. */
  function Read(p: Packet): (t: Ts)
    requires !Overruns(p)
  {
    var a, b, c := p[1] as int, p[2] as int, p[3] as int;
    Fields(p[0], a / 128 == 1, a / 64 % 2 == 1, a / 32 % 2 == 1, a % 32 * 256 + b, c / 64, c / 16 % 2 == 1, c % 16,
           if c / 32 % 2 == 1 then Some(p[5..5 + p[4] as int]) else None,
           if c / 32 % 2 == 1 then p[5 + p[4] as int..] else p[4..])
  }

  lemma ReadBody(p: Packet)
    requires !Overruns(p)
    ensures FieldBytes(Read(p).field) + Read(p).pay == p[4..]
  {
    if p[3] as int / 32 % 2 == 1 {
      var n := p[4] as int;
      assert p[4..] == [p[4]] + p[5..5 + n] + p[5 + n..];
    }
  }

  /** Of a packet whose adaptation field leads out of it nothing is handed on; every other packet is one in
      fields. */
  lemma OverrunOrWire(p: Packet)
    ensures Overruns(p) ==> Chunks(p) == []
    ensures !Overruns(p) ==> p == Wire(Read(p))
  {
    if !Overruns(p) {
      var t := Read(p);
      ReadBody(p);
      SecondByte(p[1], p[2]);
      FourthByte(p[3]);
      HeaderAndBody(p, t);
    }
  }

  lemma HeaderAndBody(p: Packet, t: Ts)
    requires p[0] == t.sync && p[2] as int == t.pid % 256
    requires p[1] as int == 128 * Bit(t.error) + 64 * Bit(t.start) + 32 * Bit(t.priority) + t.pid / 256
    requires p[3] as int == 64 * t.scrambling + 32 * Bit(t.field.Some?) + 16 * Bit(t.payload) + t.counter
    requires FieldBytes(t.field) + t.pay == p[4..]
    ensures p == Wire(t)
  {
    hide FieldBytes;
    assert p == [p[0], p[1], p[2], p[3]] + p[4..];
    SeqAssoc([p[0], p[1], p[2], p[3]], FieldBytes(t.field), t.pay);
  }

  // --- Sections in payloads ------------------------------------------------

  const STUFFING: byte := 0xFF

  function Concat(secs: seq<Section>): seq<byte> {
    if secs == [] then [] else secs[0] + Concat(secs[1..])
  }

  /** `body` is a prefix of `whole` followed by stuffing without end. */
  predicate Laid(body: seq<byte>, whole: seq<byte>) {
    forall i :: 0 <= i < |body| ==> body[i] == if i < |whole| then whole[i] else STUFFING
  }

  /** What is left of `whole` after `n` bytes have been laid out. */
  function After(whole: seq<byte>, n: nat): seq<byte> {
    if n <= |whole| then whole[n..] else []
  }

  /** The rule for one packet. `pend` is the rest of a section that began in an earlier packet,
      `begun` are the sections that begin in this one.
      - Without the unit start mark no section begins, and a non-empty payload goes on with `pend`.
      - With it, the pointer byte gives the length of `pend`, which ends in this packet; then come
        the sections that begin, of which the last does begin before the packet ends.
      Stuffing follows only where there is nothing left to carry. */
  predicate Carries(start: bool, pay: seq<byte>, pend: seq<byte>, begun: seq<Section>) {
    if start then
      && begun != []
      && pay != [] && pay[0] as int == |pend|
      && |pay| - 1 > |pend| + |Concat(begun[..|begun| - 1])|
      && Laid(pay[1..], pend + Concat(begun))
    else
      && begun == []
      && (pay != [] ==> pend != [])
      && Laid(pay, pend)
  }

  /** What a payload that carries `pend` and `begun` leaves for the packets after it. */
  function Leftover(start: bool, pay: seq<byte>, pend: seq<byte>, begun: seq<Section>): seq<byte> {
    if start && pay != [] then After(pend + Concat(begun), |pay| - 1) else After(pend, |pay|)
  }

  /** The packets `ps` of one PID carry the rest `pend` of a section and then the sections `secs`, whole. */
  ghost predicate Packetised(ps: seq<Packet>, pid: int, pend: seq<byte>, secs: seq<Section>)
    decreases |ps|
  {
    if ps == [] then pend == [] && secs == []
    else exists t: Ts, n: nat | n <= |secs| :: PacketisedAfter(ps, pid, pend, secs, t, n)
  }

  /** The same, when the first packet is `t` and `n` sections begin in it. */
  ghost predicate PacketisedAfter(ps: seq<Packet>, pid: int, pend: seq<byte>, secs: seq<Section>, t: Ts, n: nat)
    requires ps != [] && n <= |secs|
    decreases |ps|, 0
  {
    && ps[0] == Wire(t) && t.pid == pid
    && Carries(t.start, t.pay, pend, secs[..n])
    && Packetised(ps[1..], pid, Leftover(t.start, t.pay, pend, secs[..n]), secs[n..])
  }

  // --- A concrete packetiser ----------------------------------------------

  function Padded(b: seq<byte>, n: nat): (r: seq<byte>)
    requires |b| <= n
    ensures |r| == n && Laid(r, b)
  {
    b + seq(n - |b|, i => STUFFING)
  }

  /** The adaptation fields of successive packets; each leaves room for a pointer and a byte of a section. */
  ghost predicate Modest(fields: nat -> Option<seq<byte>>) {
    forall k :: fields(k).Some? ==> |fields(k).value| <= 181
  }

  /** How many bytes of payload the k-th packet has. */
  function Room(fields: nat -> Option<seq<byte>>, k: nat): (n: nat)
    requires Modest(fields)
    ensures 2 <= n <= 184
  {
    if fields(k).Some? then 183 - |fields(k).value| else 184
  }

  /** The k-th packet, with its adaptation field and a payload that is stuffed to the end. */
  function MakePacket(pid: int, start: bool, body: seq<byte>, fields: nat -> Option<seq<byte>>, k: nat): Ts
    requires 0 <= pid < 8192 && Modest(fields) && |body| <= if start then Room(fields, k) - 1 else Room(fields, k)
  {
    Fields(0x47, false, start, false, pid, 0, true, k % 16, fields(k),
           if start then [0] + Padded(body, Room(fields, k) - 1) else Padded(body, Room(fields, k)))
  }

  function Min(a: nat, b: nat): nat {
    if a <= b then a else b
  }

  /** Packets, from the k-th on, that carry the rest of a section. */
  function ContinueSection(pid: int, pend: seq<byte>, fields: nat -> Option<seq<byte>>, k: nat): seq<Packet>
    requires 0 <= pid < 8192 && Modest(fields)
    decreases |pend|
  {
    if pend == [] then []
    else
      var n := Min(|pend|, Room(fields, k));
      [Wire(MakePacket(pid, false, pend[..n], fields, k))] + ContinueSection(pid, pend[n..], fields, k + 1)
  }

  /** The packets of one section, which begins a packet of its own. */
  function PacketiseOne(pid: int, s: Section, fields: nat -> Option<seq<byte>>, k: nat): seq<Packet>
    requires 0 <= pid < 8192 && Modest(fields)
  {
    var n := Min(|s|, Room(fields, k) - 1);
    [Wire(MakePacket(pid, true, s[..n], fields, k))] + ContinueSection(pid, s[n..], fields, k + 1)
  }

  /** The packets of a list of sections, the k-th packet with adaptation field `fields(k)`. */
  function Packetise(pid: int, secs: seq<Section>, fields: nat -> Option<seq<byte>>, k: nat): seq<Packet>
    requires 0 <= pid < 8192 && Modest(fields)
  {
    if secs == [] then []
    else
      var first := PacketiseOne(pid, secs[0], fields, k);
      first + Packetise(pid, secs[1..], fields, k + |first|)
  }

  lemma ContinueCarries(pid: int, pend: seq<byte>, fields: nat -> Option<seq<byte>>, k: nat)
    requires 0 <= pid < 8192 && Modest(fields) && pend != []
    ensures var n := Min(|pend|, Room(fields, k));
            var t := MakePacket(pid, false, pend[..n], fields, k);
            Carries(false, t.pay, pend, []) && Leftover(false, t.pay, pend, []) == pend[n..]
  {
  }

  lemma StartCarries(pid: int, s: Section, fields: nat -> Option<seq<byte>>, k: nat)
    requires 0 <= pid < 8192 && Modest(fields)
    ensures var n := Min(|s|, Room(fields, k) - 1);
            var t := MakePacket(pid, true, s[..n], fields, k);
            Carries(true, t.pay, [], [s]) && Leftover(true, t.pay, [], [s]) == s[n..]
  {
    var room := Room(fields, k) - 1;
    var n := Min(|s|, room);
    var body := Padded(s[..n], room);
    assert ([0] + body)[1..] == body;
    assert [s][..0] == [] && [s][1..] == [];
    assert Concat([s]) == s + [];
    assert [] + Concat([s]) == s;
  }

  lemma PacketisedCons(t: Ts, ps: seq<Packet>, pend: seq<byte>, begun: seq<Section>, secs: seq<Section>)
    requires Carries(t.start, t.pay, pend, begun)
    requires Packetised(ps, t.pid, Leftover(t.start, t.pay, pend, begun), secs)
    ensures Packetised([Wire(t)] + ps, t.pid, pend, begun + secs)
  {
    var n := |begun|;
    assert (begun + secs)[..n] == begun && (begun + secs)[n..] == secs;
    assert ([Wire(t)] + ps)[1..] == ps;
    assert PacketisedAfter([Wire(t)] + ps, t.pid, pend, begun + secs, t, n);
  }

  lemma {:induction false} ContinuedPacketised(pid: int, pend: seq<byte>, fields: nat -> Option<seq<byte>>, k: nat,
                                               rest: seq<Packet>, secs: seq<Section>)
    requires 0 <= pid < 8192 && Modest(fields) && Packetised(rest, pid, [], secs)
    ensures Packetised(ContinueSection(pid, pend, fields, k) + rest, pid, pend, secs)
    decreases |pend|
  {
    if pend == [] {
      assert ContinueSection(pid, pend, fields, k) + rest == rest;
    } else {
      hide Carries, Leftover, Wire;
      var n := Min(|pend|, Room(fields, k));
      var t := MakePacket(pid, false, pend[..n], fields, k);
      var more := ContinueSection(pid, pend[n..], fields, k + 1);
      ContinueCarries(pid, pend, fields, k);
      ContinuedPacketised(pid, pend[n..], fields, k + 1, rest, secs);
      PacketisedCons(t, more + rest, pend, [], secs);
      assert [] + secs == secs;
      SeqAssoc([Wire(t)], more, rest);
    }
  }

  lemma OnePacketised(pid: int, s: Section, fields: nat -> Option<seq<byte>>, k: nat, rest: seq<Packet>,
                      secs: seq<Section>)
    requires 0 <= pid < 8192 && Modest(fields) && Packetised(rest, pid, [], secs)
    ensures Packetised(PacketiseOne(pid, s, fields, k) + rest, pid, [], [s] + secs)
  {
    hide Carries, Leftover, Wire;
    var n := Min(|s|, Room(fields, k) - 1);
    var t := MakePacket(pid, true, s[..n], fields, k);
    var tail := ContinueSection(pid, s[n..], fields, k + 1);
    StartCarries(pid, s, fields, k);
    ContinuedPacketised(pid, s[n..], fields, k + 1, rest, secs);
    PacketisedCons(t, tail + rest, [], [s], secs);
    SeqAssoc([Wire(t)], tail, rest);
  }

  /** Every list of sections can be packetised on every PID, with any adaptation fields that leave room. */
  lemma {:induction false} PacketiseObeysRule(pid: int, secs: seq<Section>, fields: nat -> Option<seq<byte>>, k: nat)
    requires 0 <= pid < 8192 && Modest(fields)
    ensures Packetised(Packetise(pid, secs, fields, k), pid, [], secs)
    decreases |secs|
  {
    if secs != [] {
      var n := k + |PacketiseOne(pid, secs[0], fields, k)|;
      PacketiseObeysRule(pid, secs[1..], fields, n);
      FirstPacketised(pid, secs, fields, k, Packetise(pid, secs[1..], fields, n));
    }
  }

  lemma FirstPacketised(pid: int, secs: seq<Section>, fields: nat -> Option<seq<byte>>, k: nat, rest: seq<Packet>)
    requires 0 <= pid < 8192 && Modest(fields) && secs != [] && Packetised(rest, pid, [], secs[1..])
    ensures Packetised(PacketiseOne(pid, secs[0], fields, k) + rest, pid, [], secs)
  {
    hide Packetised;
    OnePacketised(pid, secs[0], fields, k, rest, secs[1..]);
    assert [secs[0]] + secs[1..] == secs;
  }

  predicate AllPackets(ps: seq<Packet>, pid: int) {
    forall i :: 0 <= i < |ps| ==> Pid(ps[i]) == pid
  }

  /** What is packetised on a PID is taken for packets of that PID. */
  lemma {:induction false} PacketisedOnPid(ps: seq<Packet>, pid: int, pend: seq<byte>, secs: seq<Section>)
    requires Packetised(ps, pid, pend, secs)
    ensures AllPackets(ps, pid)
    decreases |ps|
  {
    if ps != [] {
      var t: Ts, n: nat :| n <= |secs| && PacketisedAfter(ps, pid, pend, secs, t, n);
      WireRead(t);
      PacketisedOnPid(ps[1..], pid, Leftover(t.start, t.pay, pend, secs[..n]), secs[n..]);
      assert forall i :: 1 <= i < |ps| ==> ps[i] == ps[1..][i - 1];
    }
  }
}

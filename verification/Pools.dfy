/** The resource pools of mcli.c and the devices of device.c that hold references into them, as one
    state. A reference is the index of a pool slot. */
module Pools {
  import opened Wrappers

  datatype FeType = QPSK | QAM | OFDM | ATSC | DVBS2

  /** A slot of m_tuner_pool; `kind` is None (-1 in the source) when it describes no tuner. */
  datatype TunerSlot = TunerSlot(kind: Option<FeType>, uuid: string, satList: string, inuse: bool)

  /** A slot of m_cam_pool; `max` is -1 when it describes no CAM. */
  datatype CamSlot = CamSlot(uuid: string, slot: int, use: int, max: int)

  datatype Source = Sat | Cable | Terr | OtherSource

  /** `pos` is None for NO_SAT_POS; `s2` tells that the parameters name the second DVB system. */
  datatype Channel = Channel(source: Source, pos: Option<int>, s2: bool, ca: nat, scan: bool)

  /** `priority` and `receiving` are VDR's answers for this device. */
  datatype Device = Device(
    enable: bool,
    tuned: bool,
    fetype: Option<FeType>,
    tuner: Option<nat>,
    cam: Option<nat>,
    caEnable: bool,
    caOverride: bool,
    chan: Channel,
    priority: int,
    receiving: bool)

  /** `limit(t)` is tuner_type_limit of type `t`; for None it is whatever lies before that array.
      `covers` stands for the satellite lists that the netceivers announce. */
  datatype Sys = Sys(
    tuners: seq<TunerSlot>,
    cams: seq<CamSlot>,
    devs: seq<Device>,
    limit: Option<FeType> -> int,
    covers: (string, string, int) -> bool,
    camPresent: bool,
    triggerCam: bool)

  // --- Tuners ------------------------------------------------------------

  function Bit(b: bool): nat {
    if b then 1 else 0
  }

  /** TunerCountByType */
  function CountInUse(ts: seq<TunerSlot>, t: Option<FeType>): nat {
    if ts == [] then 0 else Bit(ts[0].inuse && ts[0].kind == t) + CountInUse(ts[1..], t)
  }

  /** TunerSatelitePositionLookup */
  predicate Reaches(s: Sys, tp: TunerSlot, pos: Option<int>) {
    || (tp.kind != Some(QPSK) && tp.kind != Some(DVBS2))
    || pos == None
    || s.covers(tp.uuid, tp.satList, pos.value)
  }

  predicate Fits(s: Sys, tp: TunerSlot, t: Option<FeType>, pos: Option<int>) {
    !tp.inuse && tp.kind == t && Reaches(s, tp, pos)
  }

  function FirstFit(s: Sys, t: Option<FeType>, pos: Option<int>, i: nat): (r: Option<nat>)
    requires i <= |s.tuners|
    ensures r.Some? ==> i <= r.value < |s.tuners| && Fits(s, s.tuners[r.value], t, pos)
    ensures r.None? ==> forall k :: i <= k < |s.tuners| ==> !Fits(s, s.tuners[k], t, pos)
    decreases |s.tuners| - i
  {
    if i == |s.tuners| then None
    else if Fits(s, s.tuners[i], t, pos) then Some(i)
    else FirstFit(s, t, pos, i + 1)
  }

  function TunerAvailable(s: Sys, t: Option<FeType>, pos: Option<int>): (r: Option<nat>)
    ensures r.Some? ==> r.value < |s.tuners| && Fits(s, s.tuners[r.value], t, pos)
    ensures r.Some? ==> CountInUse(s.tuners, t) != s.limit(t)
  {
    if CountInUse(s.tuners, t) == s.limit(t) then None else FirstFit(s, t, pos, 0)
  }

  // --- CAMs --------------------------------------------------------------

  predicate CamFits(c: CamSlot, slot: int) {
    c.max > 0 && (slot == -1 || c.slot == slot) && c.max - c.use > 0
  }

  /** CAMAvailable, for a CAM of one netceiver or of any. */
  function FirstCam(cams: seq<CamSlot>, uuid: Option<string>, slot: int, i: nat): (r: Option<nat>)
    requires i <= |cams|
    ensures r.Some? ==> i <= r.value < |cams| && IsOf(cams[r.value], uuid) && CamFits(cams[r.value], slot)
    ensures r.None? ==> forall k :: i <= k < |cams| ==> !(IsOf(cams[k], uuid) && CamFits(cams[k], slot))
    decreases |cams| - i
  {
    if i == |cams| then None
    else if IsOf(cams[i], uuid) && CamFits(cams[i], slot) then Some(i)
    else FirstCam(cams, uuid, slot, i + 1)
  }

  predicate IsOf(c: CamSlot, uuid: Option<string>) {
    uuid.None? || c.uuid == uuid.value
  }

  /** All callers of CAMAvailable leave the UUID open. */
  function CamAvailable(s: Sys, slot: int): (r: Option<nat>)
    ensures r.Some? ==> r.value < |s.cams| && CamFits(s.cams[r.value], slot)
    ensures r.None? ==> forall k :: 0 <= k < |s.cams| ==> !CamFits(s.cams[k], slot)
  {
    FirstCam(s.cams, None, slot, 0)
  }

  // --- References --------------------------------------------------------

  /** The references of every device are in range, and it is enabled for CA exactly while it holds
      a CAM. */
  predicate WellFormed(s: Sys) {
    forall i :: 0 <= i < |s.devs| ==>
      && (s.devs[i].caEnable <==> s.devs[i].cam.Some?)
      && (s.devs[i].cam.Some? ==> s.devs[i].cam.value < |s.cams|)
      && (s.devs[i].tuner.Some? ==> s.devs[i].tuner.value < |s.tuners|)
  }

  function WithDev(s: Sys, i: nat, d: Device): Sys
    requires i < |s.devs|
  {
    s.(devs := s.devs[i := d])
  }

  /** CAMAlloc of slot `k` for device `i`. */
  function TakeCam(s: Sys, i: nat, k: nat): Sys
    requires i < |s.devs| && k < |s.cams|
  {
    WithDev(s.(cams := s.cams[k := s.cams[k].(use := s.cams[k].use + 1)]), i,
            s.devs[i].(cam := Some(k), caEnable := true))
  }

  /** CAMFree, if the device holds a CAM. */
  function ReleaseCam(s: Sys, i: nat): (r: Sys)
    requires WellFormed(s) && i < |s.devs|
    ensures |r.devs| == |s.devs| && |r.cams| == |s.cams| && |r.tuners| == |s.tuners|
    ensures WellFormed(r)
  {
    if !s.devs[i].caEnable then s
    else
      var k := s.devs[i].cam.value;
      var c := s.cams[k];
      WithDev(s.(cams := s.cams[k := c.(use := if c.use > 0 then c.use - 1 else c.use)]), i,
              s.devs[i].(cam := None, caEnable := false))
  }

  function TakeTuner(s: Sys, i: nat, k: nat, t: Option<FeType>): Sys
    requires i < |s.devs| && k < |s.tuners|
  {
    WithDev(s.(tuners := s.tuners[k := s.tuners[k].(inuse := true)]), i,
            s.devs[i].(tuner := Some(k), fetype := t))
  }

  /** TunerFree, if the device holds a tuner. */
  function ReleaseTuner(s: Sys, i: nat): (r: Sys)
    requires WellFormed(s) && i < |s.devs|
    ensures |r.devs| == |s.devs| && |r.cams| == |s.cams| && |r.tuners| == |s.tuners|
    ensures WellFormed(r)
  {
    if s.devs[i].tuner.None? then s
    else
      var k := s.devs[i].tuner.value;
      WithDev(s.(tuners := s.tuners[k := s.tuners[k].(inuse := false)]), i, s.devs[i].(tuner := None))
  }

  // --- Devices -----------------------------------------------------------

  /** TranslateTypePos; None where the source has -1. */
  function TypeOf(source: Source): Option<FeType> {
    match source
    case Sat => Some(QPSK)
    case Cable => Some(QAM)
    case Terr => Some(OFDM)
    case OtherSource => None
  }

  function ChannelType(ch: Channel): Option<FeType> {
    if ch.s2 then Some(DVBS2) else TypeOf(ch.source)
  }

  /** The CAM slot that a CA number asks for, -1 for any. */
  function SlotOf(ca: nat): int {
    if ca > 0xff then -1
    else if ca % 4 > 0 then ca % 4 - 1
    else 0
  }

  /** What SetEnable(false) and SetTempDisable give back. */
  function Release(s: Sys, i: nat): (r: Sys)
    requires WellFormed(s) && i < |s.devs|
    ensures |r.devs| == |s.devs| && |r.cams| == |s.cams| && |r.tuners| == |s.tuners|
    ensures WellFormed(r)
  {
    var b := ReleaseTuner(ReleaseCam(s, i), i);
    WithDev(b, i, b.devs[i].(tuned := false, fetype := if s.devs[i].tuner.Some? then None else s.devs[i].fetype))
  }

  /** The type with which a channel's transponder can be had from the pool now. */
  function Obtainable(s: Sys, t: Option<FeType>, pos: Option<int>): Option<FeType> {
    if TunerAvailable(s, t, pos).Some? then t
    else if t == Some(QPSK) && TunerAvailable(s, Some(DVBS2), pos).Some? then Some(DVBS2)
    else None
  }

  predicate CanObtain(s: Sys, t: Option<FeType>, pos: Option<int>) {
    TunerAvailable(s, t, pos).Some? || (t == Some(QPSK) && TunerAvailable(s, Some(DVBS2), pos).Some?)
  }

  /** SetEnable(true) on a device without tuner: it tunes to its last channel if a tuner could be had,
      and takes a CAM, but no tuner. */
  function Retune(s: Sys, i: nat): (r: Sys)
    requires WellFormed(s) && i < |s.devs|
    ensures |r.devs| == |s.devs| && |r.cams| == |s.cams| && |r.tuners| == |s.tuners|
    ensures WellFormed(r)
  {
    var d := s.devs[i];
    var t := ChannelType(d.chan);
    if !CanObtain(s, t, d.chan.pos) then s
    else
      var f := WithDev(s, i, d.(fetype := Obtainable(s, t, d.chan.pos), tuned := true));
      var c := CamAvailable(f, SlotOf(d.chan.ca));
      if (d.chan.ca != 0 || s.triggerCam) && !d.caEnable && c.Some? then TakeCam(f, i, c.value) else f
  }

  function SetEnable(s: Sys, i: nat, val: bool): (r: Sys)
    requires WellFormed(s) && i < |s.devs|
    ensures |r.devs| == |s.devs| && |r.cams| == |s.cams| && |r.tuners| == |s.tuners|
    ensures WellFormed(r)
  {
    var e := WithDev(s, i, s.devs[i].(enable := val));
    var d := e.devs[i];
    if !val then Release(e, i)
    else if d.tuner.Some? then e
    else Retune(e, i)
  }

  /** `idle`: the device receives nothing and its disable timeout has passed. */
  function SetTempDisable(s: Sys, i: nat, idle: bool, now: bool): (r: Sys)
    requires WellFormed(s) && i < |s.devs|
    ensures |r.devs| == |s.devs| && |r.cams| == |s.cams| && |r.tuners| == |s.tuners|
    ensures WellFormed(r)
  {
    if idle || now then Release(s, i) else s
  }

  predicate CanRob(s: Sys, j: nat, slot: int)
    requires WellFormed(s) && j < |s.devs|
  {
    var d := s.devs[j];
    d.priority < 0 && d.caEnable && (slot == -1 || s.cams[d.cam.value].slot == slot)
  }

  /** The first device from which a CAM in this slot can be stolen. */
  function FirstVictim(s: Sys, slot: int, i: nat): (r: Option<nat>)
    requires WellFormed(s) && i <= |s.devs|
    ensures r.Some? ==> i <= r.value < |s.devs| && CanRob(s, r.value, slot)
    ensures r.None? ==> forall j :: i <= j < |s.devs| ==> !CanRob(s, j, slot)
    decreases |s.devs| - i
  {
    if i == |s.devs| then None
    else if CanRob(s, i, slot) then Some(i)
    else FirstVictim(s, slot, i + 1)
  }

  datatype Checked = Checked(s: Sys, ok: bool)

  /** CAMSteal */
  function CamSteal(s: Sys, slot: int, force: bool): (r: Checked)
    requires WellFormed(s)
    ensures |r.s.devs| == |s.devs| && |r.s.cams| == |s.cams| && |r.s.tuners| == |s.tuners|
    ensures WellFormed(r.s)
  {
    var v := FirstVictim(s, slot, 0);
    if v.None? then Checked(s, false)
    else if force then Checked(SetTempDisable(s, v.value, false, true), true)
    else Checked(s, true)
  }

  /** CheckCAM */
  function CheckCam(s: Sys, i: nat, ch: Channel, steal: bool): (r: Checked)
    requires WellFormed(s) && i < |s.devs|
    ensures |r.s.devs| == |s.devs| && |r.s.cams| == |s.cams| && |r.s.tuners| == |s.tuners|
    ensures WellFormed(r.s)
  {
    var d := s.devs[i];
    var slot := SlotOf(ch.ca);
    if d.caOverride || ch.ca == 0 then Checked(s, true)
    else if d.cam.Some? && (s.cams[d.cam.value].slot == slot || slot == -1) then Checked(s, true)
    else if CamAvailable(s, slot).Some? then Checked(s, true)
    else CamSteal(s, slot, steal)
  }

  /** The CAM part of SetChannelDevice; not ok: the tuning is refused. */
  function CamPart(s: Sys, i: nat, ch: Channel, live: bool): (r: Checked)
    requires WellFormed(s) && i < |s.devs|
    ensures |r.s.devs| == |s.devs| && |r.s.cams| == |s.cams| && |r.s.tuners| == |s.tuners|
    ensures WellFormed(r.s)
  {
    var force := s.camPresent && live;
    var checked := if force then CheckCam(s, i, ch, true) else Checked(s, true);
    if !checked.ok then checked
    else
      var a := checked.s;
      var d := a.devs[i];
      if d.caOverride || (ch.ca == 0 && !a.triggerCam) || d.caEnable then checked
      else
        var c := CamAvailable(a, SlotOf(ch.ca));
        if c.Some? then Checked(TakeCam(a, i, c.value), true)
        else Checked(a, ch.ca == 0 || !force)
  }

  /** The type the tuner part goes for: a device with a DVB-S2 tuner serves DVB-S with it. */
  function SoughtType(d: Device, ch: Channel): Option<FeType> {
    var t := ChannelType(ch);
    if d.tuner.Some? && t == Some(QPSK) && d.fetype == Some(DVBS2) then Some(DVBS2) else t
  }

  /** The device's tuner does not serve the channel. */
  predicate Unsuited(s: Sys, i: nat, ch: Channel)
    requires WellFormed(s) && i < |s.devs|
  {
    var d := s.devs[i];
    d.tuner.Some? && (d.fetype != SoughtType(d, ch) || !Reaches(s, s.tuners[d.tuner.value], ch.pos))
  }

  /** TunerAlloc of type `t`, or of DVB-S2 when DVB-S is not to be had. */
  function Acquire(s: Sys, i: nat, t: Option<FeType>, pos: Option<int>): (r: Sys)
    requires WellFormed(s) && i < |s.devs|
    ensures |r.devs| == |s.devs| && |r.cams| == |s.cams| && |r.tuners| == |s.tuners|
    ensures WellFormed(r)
  {
    var k := TunerAvailable(s, t, pos);
    if k.Some? then TakeTuner(s, i, k.value, t)
    else if t == Some(QPSK) then
      var k2 := TunerAvailable(s, Some(DVBS2), pos);
      if k2.Some? then TakeTuner(s, i, k2.value, Some(DVBS2)) else s
    else s
  }

  /** The tuner part of SetChannelDevice: keep the tuner if it serves the channel, otherwise give it
      back and take another one. (The second release in the source, for a DVB-S2 channel on a device
      of another type, finds nothing left to release.) */
  function TunerPart(s: Sys, i: nat, ch: Channel): (r: Sys)
    requires WellFormed(s) && i < |s.devs|
    ensures |r.devs| == |s.devs| && |r.cams| == |s.cams| && |r.tuners| == |s.tuners|
    ensures WellFormed(r)
  {
    var a := if Unsuited(s, i, ch) then ReleaseTuner(s, i) else s;
    if a.devs[i].tuner.Some? then a
    else Acquire(WithDev(a, i, a.devs[i].(tuned := false)), i, SoughtType(s.devs[i], ch), ch.pos)
  }

  /** The end of SetChannelDevice. `sameTransponder`: the device has a lock on the channel's
      transponder. */
  function Finish(t: Sys, i: nat, ch: Channel, sameTransponder: bool): (r: Checked)
    requires WellFormed(t) && i < |t.devs|
    ensures |r.s.devs| == |t.devs| && r.s.cams == t.cams && r.s.tuners == t.tuners
    ensures WellFormed(r.s)
  {
    var d := t.devs[i];
    if d.tuner.None? then Checked(t, false)
    else if d.tuned && sameTransponder && !ch.scan then Checked(WithDev(t, i, d.(chan := ch)), true)
    else
      var known := d.fetype == Some(DVBS2) || d.fetype == Some(QPSK) || d.fetype == Some(QAM) || d.fetype == Some(OFDM);
      Checked(WithDev(t, i, d.(chan := ch, tuned := d.tuned || known)), known)
  }

  function TuneIn(s: Sys, i: nat, ch: Channel, sameTransponder: bool): (r: Checked)
    requires WellFormed(s) && i < |s.devs|
    ensures |r.s.devs| == |s.devs| && |r.s.cams| == |s.cams| && |r.s.tuners| == |s.tuners|
    ensures WellFormed(r.s)
  {
    Finish(TunerPart(s, i, ch), i, ch, sameTransponder)
  }

  /** SetChannelDevice */
  function SetChannel(s: Sys, i: nat, ch: Channel, live: bool, sameTransponder: bool): (r: Checked)
    requires WellFormed(s) && i < |s.devs|
    ensures |r.s.devs| == |s.devs| && |r.s.cams| == |s.cams| && |r.s.tuners| == |s.tuners|
    ensures WellFormed(r.s)
  {
    if !s.devs[i].enable then Checked(s, false)
    else
      var c := CamPart(s, i, ch, live);
      if c.ok then TuneIn(c.s, i, ch, sameTransponder) else c
  }

  predicate ProvidesSource(s: Sys, i: nat, ch: Channel)
    requires WellFormed(s) && i < |s.devs|
  {
    var d := s.devs[i];
    var t := TypeOf(ch.source);
    d.enable &&
    ( || (d.tuner.Some? && (t == d.fetype || (t == Some(QPSK) && d.fetype == Some(DVBS2)))
          && Reaches(s, s.tuners[d.tuner.value], ch.pos))
      || CanObtain(s, t, ch.pos))
  }

  predicate ProvidesTransponder(s: Sys, i: nat, ch: Channel)
    requires WellFormed(s) && i < |s.devs|
  {
    var d := s.devs[i];
    var t := ChannelType(ch);
    && d.enable && ProvidesSource(s, i, ch)
    && ( || (d.tuner.Some? && (d.fetype == t || (t == Some(QPSK) && d.fetype == Some(DVBS2))))
         || CanObtain(s, t, ch.pos))
  }
}

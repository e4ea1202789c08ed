/** mcli.c and device.c as they are written: the plugin with its two pools, arrays that are searched
    by loops and changed in place, and the devices with their fields. The methods take the state as
    a value along, as a ghost; each is proved to lead to the state that the functions of Pools,
    PoolSteps and Sweep give. */
module Plugins {
  import opened Wrappers
  import opened Pools
  import opened PoolSteps
  import opened Sweep
  import Counting

  class Plugin {
    const tunerPool: array<TunerSlot>
    const camPool: array<CamSlot>
    const triggerCam: bool
    var devs: seq<McliDevice>
    var limit: Option<FeType> -> int
    var covers: (string, string, int) -> bool
    var camPresent: bool

    /** Pools and settings are as `s` says. */
    ghost predicate Mirrors(s: Sys)
      reads this, tunerPool, camPool
    {
      && tunerPool[..] == s.tuners && camPool[..] == s.cams
      && limit == s.limit && covers == s.covers && camPresent == s.camPresent && triggerCam == s.triggerCam
    }

    /** All devices are as `s` says, except perhaps the k-th. */
    ghost predicate DevsBut(s: Sys, k: int)
      reads this, devs
    {
      && |s.devs| == |devs|
      && (forall i :: 0 <= i < |devs| ==> devs[i].mcli == this)
      && (forall i :: 0 <= i < |devs| && i != k ==> devs[i].State() == s.devs[i])
      && (forall i, j :: 0 <= i < j < |devs| ==> devs[i] != devs[j])
    }

    /** The whole state is `s`. */
    ghost predicate Is(s: Sys)
      reads this, tunerPool, camPool, devs
    {
      Mirrors(s) && DevsBut(s, -1) && WellFormed(s) && tunerPool as object != camPool
    }

    constructor (tuners: nat, cams: nat, limit: Option<FeType> -> int, covers: (string, string, int) -> bool,
                 triggerCam: bool)
      ensures fresh(tunerPool) && fresh(camPool) && devs == []
      ensures Is(Sys(seq(tuners, k => TunerSlot(None, "", "", false)), seq(cams, k => CamSlot("", 0, 0, -1)), [],
                     limit, covers, false, triggerCam))
    {
      tunerPool := new TunerSlot[tuners](_ => TunerSlot(None, "", "", false));
      camPool := new CamSlot[cams](_ => CamSlot("", 0, 0, -1));
      this.triggerCam, this.limit, this.covers := triggerCam, limit, covers;
      devs, camPresent := [], false;
      new;
      assert tunerPool[..] == seq(tuners, k => TunerSlot(None, "", "", false));
      assert camPool[..] == seq(cams, k => CamSlot("", 0, 0, -1));
    }

    // --- Tuners ----------------------------------------------------------

    method TunerCountByType(t: Option<FeType>) returns (n: nat)
      ensures n == CountInUse(tunerPool[..], t)
    {
      n := 0;
      ghost var ts := tunerPool[..];
      for i := 0 to tunerPool.Length
        invariant n + CountInUse(ts[i..], t) == CountInUse(ts, t)
      {
        assert ts[i..][1..] == ts[i + 1..];
        if tunerPool[i].inuse && tunerPool[i].kind == t {
          n := n + 1;
        }
      }
    }

    method TunerSatellitePositionLookup(tp: TunerSlot, pos: Option<int>, ghost s: Sys) returns (b: bool)
      requires Mirrors(s)
      ensures b == Reaches(s, tp, pos)
    {
      if tp.kind != Some(QPSK) && tp.kind != Some(DVBS2) {
        return true;
      }
      if pos == None {
        return true;
      }
      b := covers(tp.uuid, tp.satList, pos.value);
    }

    method TunerAvailable(t: Option<FeType>, pos: Option<int>, ghost s: Sys) returns (r: Option<nat>)
      requires Mirrors(s)
      ensures r == Pools.TunerAvailable(s, t, pos)
    {
      var used := TunerCountByType(t);
      if used == limit(t) {
        return None;
      }
      for i := 0 to tunerPool.Length
        invariant FirstFit(s, t, pos, 0) == FirstFit(s, t, pos, i)
      {
        var tp := tunerPool[i];
        assert tp == s.tuners[i];
        if !tp.inuse && tp.kind == t {
          var reached := TunerSatellitePositionLookup(tp, pos, s);
          if reached {
            return Some(i);
          }
        }
      }
      r := None;
    }

    method TunerAlloc(t: Option<FeType>, pos: Option<int>, ghost s: Sys) returns (r: Option<nat>)
      requires Mirrors(s)
      modifies tunerPool
      ensures r == Pools.TunerAvailable(s, t, pos)
      ensures tunerPool[..] == if r.None? then s.tuners else s.tuners[r.value := s.tuners[r.value].(inuse := true)]
    {
      r := TunerAvailable(t, pos, s);
      if r.Some? {
        tunerPool[r.value] := tunerPool[r.value].(inuse := true);
      }
    }

    method TunerFree(k: nat) returns (freed: bool)
      requires k < tunerPool.Length
      modifies tunerPool
      ensures freed == old(tunerPool[k].inuse)
      ensures tunerPool[..] == old(tunerPool[..])[k := old(tunerPool[k]).(inuse := false)]
    {
      freed := tunerPool[k].inuse;
      if freed {
        tunerPool[k] := tunerPool[k].(inuse := false);
      }
    }

    // --- CAMs ------------------------------------------------------------

    method CamAvailable(uuid: Option<string>, slot: int) returns (r: Option<nat>)
      ensures r == FirstCam(camPool[..], uuid, slot, 0)
    {
      ghost var cams := camPool[..];
      for i := 0 to camPool.Length
        invariant FirstCam(cams, uuid, slot, 0) == FirstCam(cams, uuid, slot, i)
      {
        var cp := camPool[i];
        assert cp == cams[i];
        if cp.max > 0 && (uuid.None? || cp.uuid == uuid.value) && (slot == -1 || cp.slot == slot) {
          if cp.max - cp.use > 0 {
            return Some(i);
          }
        }
      }
      r := None;
    }

    method CamAlloc(uuid: Option<string>, slot: int) returns (r: Option<nat>)
      modifies camPool
      ensures r == FirstCam(old(camPool[..]), uuid, slot, 0)
      ensures camPool[..] == if r.None? then old(camPool[..])
                             else old(camPool[..])[r.value := old(camPool[r.value]).(use := old(camPool[r.value]).use + 1)]
    {
      r := CamAvailable(uuid, slot);
      if r.Some? {
        camPool[r.value] := camPool[r.value].(use := camPool[r.value].use + 1);
      }
    }

    method CamFree(k: nat) returns (use: int)
      requires k < camPool.Length
      modifies camPool
      ensures var c := old(camPool[k]);
              && use == (if c.use > 0 then c.use - 1 else c.use)
              && camPool[..] == old(camPool[..])[k := c.(use := use)]
    {
      if camPool[k].use > 0 {
        camPool[k] := camPool[k].(use := camPool[k].use - 1);
      }
      use := camPool[k].use;
    }

    /** A step of device `i` alone has led to `r`. */
    lemma Updated(s: Sys, r: Sys, i: nat)
      requires i < |devs| && DevsBut(s, i) && devs[i].At(r, i)
      requires r.devs == s.devs[i := r.devs[i]] && tunerPool as object != camPool
      ensures Is(r)
    {
    }

    /** Looks for a device to take a CAM from; with `force` the device is disabled. */
    method CamSteal(slot: int, force: bool, ghost s: Sys) returns (ok: bool)
      requires Is(s)
      modifies tunerPool, camPool, devs
      ensures Is(Pools.CamSteal(s, slot, force).s) && ok == Pools.CamSteal(s, slot, force).ok
    {
      hide Pools.Release;
      var i := 0;
      while i < |devs|
        invariant 0 <= i <= |devs| && Is(s)
        invariant FirstVictim(s, slot, 0) == FirstVictim(s, slot, i)
      {
        var d := devs[i];
        assert d.At(s, i);
        if d.priority < 0 && d.caEnable && (slot == -1 || slot == camPool[d.cam.value].slot) {
          if force {
            var r := d.SetTempDisable(false, true, s, i);
            ReleaseOnly(s, i);
            Updated(s, Pools.Release(s, i), i);
          }
          return true;
        }
        i := i + 1;
      }
      ok := false;
    }

    // --- Devices ---------------------------------------------------------

    /** The loop of InitMcli adds devices like this one. */
    method AddDevice(ghost s: Sys) returns (d: McliDevice)
      requires Is(s)
      modifies this`devs
      ensures Is(s.(devs := s.devs + [d.State()])) && fresh(d) && devs == old(devs) + [d]
    {
      d := new McliDevice(this);
      devs := devs + [d];
    }

    /** Counts the tuners of each type, each up to its limit. */
    method CountTypes() returns (tct: array<nat>)
      ensures fresh(tct) && tct.Length == 5
      ensures forall t: FeType :: tct[Index(t)] == Capped(CountKind(tunerPool[..], t), limit(Some(t)))
    {
      tct := new nat[5](_ => 0);
      ghost var ts := tunerPool[..];
      assert ts[..0] == [];
      for i := 0 to tunerPool.Length
        invariant forall t: FeType :: tct[Index(t)] == Capped(CountKind(ts[..i], t), limit(Some(t)))
      {
        var kind := tunerPool[i].kind;
        CountKindNext(ts, i);
        if kind.Some? {
          var at := Index(kind.value);
          if tct[at] < limit(kind) {
            tct[at] := tct[at] + 1;
          }
        }
      }
      assert ts[..|ts|] == ts;
    }

    /** How many tuners may be used. */
    method TunerCount(ghost s: Sys) returns (tc: nat)
      requires Mirrors(s)
      ensures tc == PoolSteps.TunerCount(s)
    {
      var tct := CountTypes();
      assert tct[Index(QPSK)] == Usable(s, QPSK) && tct[Index(QAM)] == Usable(s, QAM);
      assert tct[Index(OFDM)] == Usable(s, OFDM) && tct[Index(ATSC)] == Usable(s, ATSC);
      assert tct[Index(DVBS2)] == Usable(s, DVBS2);
      tc := tct[0] + tct[1] + tct[2] + tct[3] + tct[4];
    }

    method EnableDevice(i: nat, val: bool, ghost s: Sys)
      requires Is(s) && i < |devs|
      modifies tunerPool, camPool, devs
      ensures Is(Pools.SetEnable(s, i, val))
    {
      assert devs[i].At(s, i);
      devs[i].SetEnable(val, s, i);
      SetEnableOnly(s, i, val);
      Updated(s, Pools.SetEnable(s, i, val), i);
    }

    method UpdateDevices(ghost s: Sys)
      requires Is(s)
      modifies tunerPool, camPool, devs
      ensures Is(PoolSteps.UpdateDevices(s))
    {
      hide UpdateOne;
      var tc := TunerCount(s);
      var c := if tc < |devs| then tc else |devs|;
      ghost var target := UpdateFrom(s, 0, c);
      ghost var now := s;
      var i := 0;
      while i < |devs|
        invariant 0 <= i <= |devs| && c >= 0
        invariant Is(now) && UpdateFrom(now, i, c) == target
      {
        UpdateDevice(i, c > 0, now);
        now := UpdateOne(now, i, c > 0);
        if c > 0 {
          c := c - 1;
        }
        i := i + 1;
      }
    }

    method UpdateDevice(i: nat, wanted: bool, ghost s: Sys)
      requires Is(s) && i < |devs|
      modifies tunerPool, camPool, devs
      ensures Is(UpdateOne(s, i, wanted))
    {
      assert devs[i].State() == s.devs[i];
      if wanted {
        if !devs[i].enable {
          EnableDevice(i, true, s);
        }
      } else if devs[i].enable && !devs[i].receiving {
        EnableDevice(i, false, s);
      }
    }

    /** reconfigure(), up to the call of UpdateDevices. */
    method Reconfigure(ghost s: Sys)
      requires Is(s)
      modifies tunerPool, camPool, devs
      ensures Is(PoolSteps.Reconfigure(s))
    {
      DisableAll(s);
      ClearPools(DisableFrom(s, 0));
    }

    method DisableAll(ghost s: Sys)
      requires Is(s)
      modifies tunerPool, camPool, devs
      ensures Is(DisableFrom(s, 0))
    {
      hide Pools.SetEnable;
      ghost var now := s;
      var i := 0;
      while i < |devs|
        invariant 0 <= i <= |devs|
        invariant Is(now) && DisableFrom(now, i) == DisableFrom(s, 0)
      {
        EnableDevice(i, false, now);
        now := Pools.SetEnable(now, i, false);
        i := i + 1;
      }
    }

    method ClearPools(ghost s: Sys)
      requires Is(s)
      modifies tunerPool, camPool
      ensures Is(Cleared(s))
    {
      forall k | 0 <= k < tunerPool.Length {
        tunerPool[k] := TunerSlot(None, "", "", false);
      }
      forall k | 0 <= k < camPool.Length {
        camPool[k] := camPool[k].(max := -1);
      }
      assert tunerPool[..] == Cleared(s).tuners;
      assert camPool[..] == Cleared(s).cams;
    }

    // --- Hot-plug --------------------------------------------------------

    method CamFindByUUID(uuid: string, slot: int) returns (r: Option<nat>)
      ensures r == FindCam(camPool[..], uuid, slot, 0)
    {
      ghost var cams := camPool[..];
      for i := 0 to camPool.Length
        invariant FindCam(cams, uuid, slot, 0) == FindCam(cams, uuid, slot, i)
      {
        var cp := camPool[i];
        assert cp == cams[i];
        if cp.max >= 0 && cp.uuid == uuid && (slot == -1 || slot == cp.slot) {
          return Some(i);
        }
      }
      r := None;
    }

    method CamPoolFindFree() returns (r: Option<nat>)
      ensures r == FreeCam(camPool[..], 0)
    {
      ghost var cams := camPool[..];
      for i := 0 to camPool.Length
        invariant FreeCam(cams, 0) == FreeCam(cams, i)
      {
        assert camPool[i] == cams[i];
        if camPool[i].max == -1 {
          return Some(i);
        }
      }
      r := None;
    }

    /** One round of CAMPoolAdd; false if there is no slot left. */
    method CamPoolAddOne(uuid: string, info: CamInfo) returns (ok: bool)
      modifies camPool, this`camPresent
      ensures var a := AddCam(old(camPool[..]), uuid, info);
              && ok == a.Some?
              && camPool[..] == (if ok then a.value else old(camPool[..]))
              && camPresent == (old(camPresent) || (ok && info.present && info.flags != CaOther))
    {
      var update := true;
      var at := CamFindByUUID(uuid, info.slot);
      if at == None {
        at := CamPoolFindFree();
        update := false;
      }
      if at == None {
        return false;
      }
      var cp := camPool[at.value];
      if info.present {
        match info.flags {
          case CaSingle => camPresent := true; cp := cp.(max := 1);
          case CaMultiSid => camPresent := true; cp := cp.(max := 1);
          case CaMultiTransponder => camPresent := true; cp := cp.(max := info.maxSids);
          case CaOther =>
        }
      } else {
        cp := cp.(max := 0);
      }
      if !update {
        cp := cp.(slot := info.slot, uuid := uuid, use := 0);
      }
      camPool[at.value] := cp;
      ok := true;
    }

    method CamPoolAdd(uuid: string, infos: seq<CamInfo>)
      modifies camPool, this`camPresent
      ensures camPool[..] == AddCams(old(camPool[..]), uuid, infos)
      ensures camPresent == (old(camPresent) || SeesCam(old(camPool[..]), uuid, infos))
    {
      ghost var was, saw := camPool[..], camPresent;
      for j := 0 to |infos|
        invariant AddCams(camPool[..], uuid, infos[j..]) == AddCams(was, uuid, infos)
        invariant (camPresent || SeesCam(camPool[..], uuid, infos[j..])) == (saw || SeesCam(was, uuid, infos))
      {
        assert infos[j..][0] == infos[j] && infos[j..][1..] == infos[j + 1..];
        var ok := CamPoolAddOne(uuid, infos[j]);
        if !ok {
          return;
        }
      }
      assert infos[|infos|..] == [];
    }

    method CamPoolDel(uuid: string) returns (any: bool)
      modifies camPool
      ensures camPool[..] == DelCams(old(camPool[..]), uuid)
      ensures any <==> exists k :: 0 <= k < camPool.Length && old(camPool[k].max) >= 0 && old(camPool[k].uuid) == uuid
    {
      any := false;
      ghost var was := camPool[..];
      for i := 0 to camPool.Length
        invariant forall k :: 0 <= k < i ==> camPool[k] == DelCams(was, uuid)[k]
        invariant forall k :: i <= k < camPool.Length ==> camPool[k] == was[k]
        invariant any <==> exists k :: 0 <= k < i && was[k].max >= 0 && was[k].uuid == uuid
      {
        if camPool[i].max >= 0 && camPool[i].uuid == uuid {
          camPool[i] := camPool[i].(max := -1);
          any := true;
        }
      }
      assert camPool[..] == DelCams(was, uuid);
    }

    method TunerFindByUUID(uuid: string) returns (r: Option<nat>)
      ensures r == FindTuner(tunerPool[..], uuid, 0)
    {
      ghost var ts := tunerPool[..];
      for i := 0 to tunerPool.Length
        invariant FindTuner(ts, uuid, 0) == FindTuner(ts, uuid, i)
      {
        assert tunerPool[i] == ts[i];
        if tunerPool[i].kind != None && tunerPool[i].uuid == uuid {
          return Some(i);
        }
      }
      r := None;
    }

    /** The first slot without a tuner takes the new one; it may still be marked in use. */
    method TunerPoolAdd(info: TunerInfo) returns (ok: bool)
      modifies tunerPool
      ensures var free := FreeTuner(old(tunerPool[..]), 0);
              && ok == free.Some?
              && tunerPool[..] == (if ok then old(tunerPool[..])[free.value := old(tunerPool[free.value]).(kind := Some(info.kind), uuid := info.uuid, satList := info.satList)]
                                   else old(tunerPool[..]))
    {
      ghost var ts := tunerPool[..];
      for i := 0 to tunerPool.Length
        invariant tunerPool[..] == ts && FreeTuner(ts, 0) == FreeTuner(ts, i)
      {
        assert tunerPool[i] == ts[i];
        if tunerPool[i].kind == None {
          tunerPool[i] := tunerPool[i].(kind := Some(info.kind), uuid := info.uuid, satList := info.satList);
          return true;
        }
      }
      ok := false;
    }

    /** One round of the tuner loop of Action. */
    method SweepOneTuner(stale: bool, info: TunerInfo)
      modifies tunerPool
      ensures tunerPool[..] == SweepTuner(old(tunerPool[..]), stale, info)
    {
      var t := TunerFindByUUID(info.uuid);
      if stale || info.preference < 0 || info.uuid == "" {
        if t != None {
          tunerPool[t.value] := tunerPool[t.value].(kind := None);
        }
        return;
      }
      if t == None {
        var ok := TunerPoolAdd(info);
      }
    }

    method SweepTunerList(stale: bool, infos: seq<TunerInfo>)
      modifies tunerPool
      ensures tunerPool[..] == SweepTuners(old(tunerPool[..]), stale, infos)
    {
      ghost var was := tunerPool[..];
      for j := 0 to |infos|
        invariant SweepTuners(tunerPool[..], stale, infos[j..]) == SweepTuners(was, stale, infos)
      {
        assert infos[j..][0] == infos[j] && infos[j..][1..] == infos[j + 1..];
        SweepOneTuner(stale, infos[j]);
      }
      assert infos[|infos|..] == [];
    }

    /** What Action does for one netceiver. */
    method SweepNetceiver(n: Netceiver, ghost s: Sys)
      requires Is(s)
      modifies tunerPool, camPool, this`camPresent
      ensures Is(SweepOne(s, n))
    {
      if n.stale {
        var any := CamPoolDel(n.uuid);
      } else {
        CamPoolAdd(n.uuid, n.cams);
      }
      SweepTunerList(n.stale, n.tuners);
    }

    /** One sweep of Action over the list of netceivers. */
    method SweepNetceivers(list: seq<Netceiver>, ghost s: Sys)
      requires Is(s)
      modifies tunerPool, camPool, this`camPresent
      ensures Is(SweepAll(s, list))
    {
      ghost var now := s;
      for j := 0 to |list|
        invariant Is(now) && SweepAll(now, list[j..]) == SweepAll(s, list)
      {
        assert list[j..][0] == list[j] && list[j..][1..] == list[j + 1..];
        SweepNetceiver(list[j], now);
        now := SweepOne(now, list[j]);
      }
      assert list[|list|..] == [];
    }
  }

  /** The index of a type in tuner_type_limit. */
  function Index(t: FeType): nat {
    match t
    case QPSK => 0
    case QAM => 1
    case OFDM => 2
    case ATSC => 3
    case DVBS2 => 4
  }

  lemma CountKindNext(ts: seq<TunerSlot>, i: nat)
    requires i < |ts|
    ensures forall t: FeType :: CountKind(ts[..i + 1], t) == CountKind(ts[..i], t) + Bit(ts[i].kind == Some(t))
  {
    forall t: FeType
      ensures CountKind(ts[..i + 1], t) == CountKind(ts[..i], t) + Bit(ts[i].kind == Some(t))
    {
      Counting.CountKindAppend(ts[..i], ts[i], t);
      assert ts[..i + 1] == ts[..i] + [ts[i]];
    }
  }

  class McliDevice {
    const mcli: Plugin
    var enable: bool
    var tuned: bool
    var fetype: Option<FeType>
    var tuner: Option<nat>
    var cam: Option<nat>
    var caEnable: bool
    var caOverride: bool
    var chan: Channel
    var priority: int
    var receiving: bool

    ghost function State(): Device
      reads this
    {
      Device(enable, tuned, fetype, tuner, cam, caEnable, caOverride, chan, priority, receiving)
    }

    /** This is the i-th device, and with the pools it is as `s` says. */
    ghost predicate At(s: Sys, i: nat)
      reads this, mcli, mcli.tunerPool, mcli.camPool
    {
      WellFormed(s) && i < |s.devs| && State() == s.devs[i] && mcli.Mirrors(s)
    }

    constructor (mcli: Plugin)
      ensures this.mcli == mcli
      ensures State() == Device(false, false, None, None, None, false, false,
                                Channel(OtherSource, None, false, 0, true), -1, false)
    {
      this.mcli := mcli;
      enable, tuned, fetype, tuner, cam := false, false, None, None, None;
      caEnable, caOverride, priority, receiving := false, false, -1, false;
      chan := Channel(OtherSource, None, false, 0, true);
    }

    /** Gives the CAM back, if there is one. */
    method ReleaseCam(ghost s: Sys, ghost i: nat)
      requires At(s, i)
      modifies this`cam, this`caEnable, mcli.camPool
      ensures At(Pools.ReleaseCam(s, i), i)
    {
      if caEnable {
        caEnable := false;
        var uses := mcli.CamFree(cam.value);
        cam := None;
      }
    }

    /** Gives the tuner back, if there is one. */
    method ReleaseTuner(ghost s: Sys, ghost i: nat)
      requires At(s, i)
      modifies this`tuner, mcli.tunerPool
      ensures At(Pools.ReleaseTuner(s, i), i)
    {
      if tuner.Some? {
        var freed := mcli.TunerFree(tuner.value);
        tuner := None;
      }
    }

    /** What disabling does to the references. */
    method Release(ghost s: Sys, ghost i: nat)
      requires At(s, i) && mcli.tunerPool as object != mcli.camPool
      modifies this`cam, this`caEnable, this`tuner, this`tuned, this`fetype, mcli.tunerPool, mcli.camPool
      ensures At(Pools.Release(s, i), i)
    {
      hide Pools.ReleaseCam, Pools.ReleaseTuner;
      var held := tuner.Some?;
      ReleaseCam(s, i);
      ReleaseTuner(Pools.ReleaseCam(s, i), i);
      tuned := false;
      if held {
        fetype := None;
      }
    }

    method SetTempDisable(idle: bool, now: bool, ghost s: Sys, ghost i: nat) returns (r: bool)
      requires At(s, i) && mcli.tunerPool as object != mcli.camPool
      modifies this`cam, this`caEnable, this`tuner, this`tuned, this`fetype, mcli.tunerPool, mcli.camPool
      ensures At(Pools.SetTempDisable(s, i, idle, now), i) && r == (idle || now)
    {
      if idle || now {
        Release(s, i);
        return true;
      }
      r := false;
    }

    /** CAMAlloc for this device, which holds none. */
    method TakeCam(slot: int, ghost s: Sys, ghost i: nat) returns (ok: bool)
      requires At(s, i) && !caEnable
      modifies this`cam, this`caEnable, mcli.camPool
      ensures var k := Pools.CamAvailable(s, slot);
              ok == k.Some? && At(if ok then Pools.TakeCam(s, i, k.value) else s, i)
    {
      cam := mcli.CamAlloc(None, slot);
      ok := cam.Some?;
      if ok {
        caEnable := true;
      }
    }

    method SetEnable(val: bool, ghost s: Sys, ghost i: nat)
      requires At(s, i) && mcli.tunerPool as object != mcli.camPool
      modifies this, mcli.tunerPool, mcli.camPool
      ensures At(Pools.SetEnable(s, i, val), i)
    {
      ghost var e := WithDev(s, i, s.devs[i].(enable := val));
      enable := val;
      if !enable {
        Release(e, i);
      } else if tuner == None {
        Retune(e, i);
      }
    }

    /** Tunes to the last channel again. No tuner is allocated: that it could be is enough. */
    method Retune(ghost s: Sys, ghost i: nat)
      requires At(s, i)
      modifies this`fetype, this`tuned, this`cam, this`caEnable, mcli.camPool
      ensures At(Pools.Retune(s, i), i)
    {
      hide CanObtain, Obtainable, Pools.CamAvailable, SlotOf;
      var kind := if chan.s2 then Some(DVBS2) else TypeOf(chan.source);
      var ok, found := Obtain(kind, chan.pos, s);
      if !ok {
        return;
      }
      fetype := found;
      tuned := true;
      if (chan.ca != 0 || mcli.triggerCam) && !caEnable {
        var took := TakeCam(SlotOf(chan.ca), WithDev(s, i, s.devs[i].(fetype := found, tuned := true)), i);
      }
    }

    /** TunerAvailable for a type, and then for DVB-S2 in place of DVB-S. */
    method Obtain(t: Option<FeType>, pos: Option<int>, ghost s: Sys) returns (ok: bool, kind: Option<FeType>)
      requires mcli.Mirrors(s)
      ensures ok == CanObtain(s, t, pos) && (ok ==> kind == Obtainable(s, t, pos))
    {
      kind := t;
      var found := mcli.TunerAvailable(kind, pos, s);
      if found.None? && kind == Some(QPSK) {
        kind := Some(DVBS2);
        found := mcli.TunerAvailable(kind, pos, s);
      }
      ok := found.Some?;
    }

    method ProvidesSource(ch: Channel, ghost s: Sys, ghost i: nat) returns (ret: bool)
      requires At(s, i)
      ensures ret == Pools.ProvidesSource(s, i, ch)
    {
      if !enable {
        return false;
      }
      ret := false;
      var t := TypeOf(ch.source);
      if tuner.Some? {
        ret := t == fetype || (t == Some(QPSK) && fetype == Some(DVBS2));
        if ret {
          ret := mcli.TunerSatellitePositionLookup(mcli.tunerPool[tuner.value], ch.pos, s);
        }
      }
      if !ret {
        var kind;
        ret, kind := Obtain(t, ch.pos, s);
      }
    }

    method ProvidesTransponder(ch: Channel, ghost s: Sys, ghost i: nat) returns (ret: bool)
      requires At(s, i)
      ensures ret == Pools.ProvidesTransponder(s, i, ch)
    {
      if !enable {
        return false;
      }
      ret := ProvidesSource(ch, s, i);
      if ret {
        var t := if ch.s2 then Some(DVBS2) else TypeOf(ch.source);
        if tuner.Some? {
          ret := fetype == t || (t == Some(QPSK) && fetype == Some(DVBS2));
        } else {
          ret := false;
        }
        if !ret {
          var kind;
          ret, kind := Obtain(t, ch.pos, s);
        }
      }
    }

    /** The tuner part of SetChannelDevice. */
    method TunerPart(ch: Channel, ghost s: Sys, ghost i: nat)
      requires At(s, i)
      modifies this`tuner, this`fetype, this`tuned, mcli.tunerPool
      ensures At(Pools.TunerPart(s, i, ch), i)
    {
      var kind := if ch.s2 then Some(DVBS2) else TypeOf(ch.source);
      if tuner.Some? && kind == Some(QPSK) && fetype == Some(DVBS2) {
        kind := Some(DVBS2);
      }
      DropUnsuited(ch, kind, s, i);
      if ch.s2 && fetype != Some(DVBS2) {
        // What the source releases here has been released already.
        assert tuner == None;
        kind := Some(DVBS2);
      }
      if tuner == None {
        AcquireAnew(kind, ch, s, if Unsuited(s, i, ch) then Pools.ReleaseTuner(s, i) else s, i);
      }
    }

    method AcquireAnew(kind: Option<FeType>, ch: Channel, ghost s: Sys, ghost a: Sys, ghost i: nat)
      requires WellFormed(s) && i < |s.devs| && a == (if Unsuited(s, i, ch) then Pools.ReleaseTuner(s, i) else s)
      requires At(a, i) && tuner == None && kind == SoughtType(s.devs[i], ch)
      modifies this`tuner, this`fetype, this`tuned, mcli.tunerPool
      ensures At(Pools.TunerPart(s, i, ch), i)
    {
      tuned := false;
      Acquire(kind, ch.pos, WithDev(a, i, a.devs[i].(tuned := false)), i);
    }

    /** Gives the tuner back if it is of another type or does not reach the position. */
    method DropUnsuited(ch: Channel, kind: Option<FeType>, ghost s: Sys, ghost i: nat)
      requires At(s, i) && kind == SoughtType(s.devs[i], ch)
      modifies this`tuner, mcli.tunerPool
      ensures At(if Unsuited(s, i, ch) then Pools.ReleaseTuner(s, i) else s, i)
      ensures !Unsuited(s, i, ch) && tuner.Some? ==> fetype == kind
    {
      if tuner.Some? {
        var reached := mcli.TunerSatellitePositionLookup(mcli.tunerPool[tuner.value], ch.pos, s);
        if fetype != kind || !reached {
          ReleaseTuner(s, i);
        }
      }
    }

    /** TunerAlloc of a type, and then of DVB-S2 in place of DVB-S. */
    method Acquire(t: Option<FeType>, pos: Option<int>, ghost s: Sys, ghost i: nat)
      requires At(s, i) && tuner == None
      modifies this`tuner, this`fetype, mcli.tunerPool
      ensures At(Pools.Acquire(s, i, t, pos), i)
    {
      var kind := t;
      tuner := mcli.TunerAlloc(kind, pos, s);
      if tuner == None && kind == Some(QPSK) {
        kind := Some(DVBS2);
        tuner := mcli.TunerAlloc(kind, pos, s);
      }
      if tuner == None {
        return;
      }
      fetype := kind;
    }

    /** This is the i-th device of a plugin in state `s`. */
    ghost predicate In(s: Sys, i: nat)
      reads mcli, mcli.tunerPool, mcli.camPool, mcli.devs
    {
      mcli.Is(s) && i < |mcli.devs| && mcli.devs[i] == this
    }

    method CheckCam(ch: Channel, steal: bool, ghost s: Sys, ghost i: nat) returns (ok: bool)
      requires In(s, i)
      modifies mcli.tunerPool, mcli.camPool, mcli.devs
      ensures In(Pools.CheckCam(s, i, ch, steal).s, i) && ok == Pools.CheckCam(s, i, ch, steal).ok
    {
      hide Pools.CamSteal, FirstCam;
      assert At(s, i);
      if caOverride || ch.ca == 0 {
        return true;
      }
      var slot := SlotOf(ch.ca);
      if cam.Some? && (mcli.camPool[cam.value].slot == slot || slot == -1) {
        return true;
      }
      var available := mcli.CamAvailable(None, slot);
      if available.None? {
        ok := mcli.CamSteal(slot, steal, s);
        return ok;
      }
      ok := true;
    }

    /** The CAM part of SetChannelDevice; false if it has to refuse. */
    method CamPart(ch: Channel, live: bool, ghost s: Sys, ghost i: nat) returns (ok: bool)
      requires In(s, i)
      modifies mcli.tunerPool, mcli.camPool, mcli.devs
      ensures In(Pools.CamPart(s, i, ch, live).s, i) && ok == Pools.CamPart(s, i, ch, live).ok
    {
      var force := mcli.camPresent && live;
      ghost var a := s;
      if force {
        ok := CheckCam(ch, true, s, i);
        a := Pools.CheckCam(s, i, ch, true).s;
        if !ok {
          return false;
        }
      }
      assert At(a, i);
      ok := true;
      if !caOverride && (ch.ca != 0 || mcli.triggerCam) && !caEnable {
        ok := TakeCamIn(SlotOf(ch.ca), a, i);
        if !ok {
          ok := ch.ca == 0 || !force;
        }
      }
    }

    method TakeCamIn(slot: int, ghost s: Sys, ghost i: nat) returns (ok: bool)
      requires In(s, i) && !caEnable
      modifies this`cam, this`caEnable, mcli.camPool
      ensures var k := Pools.CamAvailable(s, slot);
              ok == k.Some? && In(if ok then Pools.TakeCam(s, i, k.value) else s, i)
    {
      assert At(s, i);
      ok := TakeCam(slot, s, i);
      var k := Pools.CamAvailable(s, slot);
      mcli.Updated(s, if ok then Pools.TakeCam(s, i, k.value) else s, i);
    }

    /** `sameTransponder`: the device has a lock on the channel's transponder. */
    method SetChannelDevice(ch: Channel, live: bool, sameTransponder: bool, ghost s: Sys, ghost i: nat) returns (ok: bool)
      requires In(s, i)
      modifies mcli.tunerPool, mcli.camPool, mcli.devs
      ensures var r := SetChannel(s, i, ch, live, sameTransponder);
              In(r.s, i) && ok == r.ok
    {
      assert At(s, i);
      if !enable {
        return false;
      }
      var go := CamPart(ch, live, s, i);
      ghost var a := Pools.CamPart(s, i, ch, live).s;
      if !go {
        return false;
      }
      ok := TuneIn(ch, sameTransponder, a, i);
    }

    /** SetChannelDevice from the tuner part on. */
    method TuneIn(ch: Channel, sameTransponder: bool, ghost s: Sys, ghost i: nat) returns (ok: bool)
      requires In(s, i)
      modifies this, mcli.tunerPool
      ensures In(Pools.TuneIn(s, i, ch, sameTransponder).s, i) && ok == Pools.TuneIn(s, i, ch, sameTransponder).ok
    {
      assert At(s, i);
      TunerPart(ch, s, i);
      TunerPartOnly(s, i, ch);
      ok := FinishTuning(ch, sameTransponder, Pools.TunerPart(s, i, ch), i);
      mcli.Updated(s, Pools.TuneIn(s, i, ch, sameTransponder).s, i);
    }

    method FinishTuning(ch: Channel, sameTransponder: bool, ghost t: Sys, ghost i: nat) returns (ok: bool)
      requires At(t, i)
      modifies this`chan, this`tuned
      ensures At(Finish(t, i, ch, sameTransponder).s, i) && ok == Finish(t, i, ch, sameTransponder).ok
    {
      if tuner == None {
        return false;
      }
      if tuned && sameTransponder && !ch.scan {
        chan := ch;
        return true;
      }
      chan := ch;
      match fetype {
        case Some(DVBS2) => tuned := true;
        case Some(QPSK) => tuned := true;
        case Some(QAM) => tuned := true;
        case Some(OFDM) => tuned := true;
        case _ => return false;
      }
      ok := true;
    }
  }
}

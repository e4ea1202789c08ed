/** The sweep of cPluginMcli::Action over the list of netceivers: hot-plugged tuners and CAMs are
    entered into the pools, silent ones are removed. */
module Sweep {
  import opened Wrappers
  import opened Pools
  import opened PoolInvariants

  datatype CaFlags = CaSingle | CaMultiSid | CaMultiTransponder | CaOther

  datatype CamInfo = CamInfo(slot: nat, present: bool, flags: CaFlags, maxSids: nat)

  datatype TunerInfo = TunerInfo(uuid: string, satList: string, kind: FeType, preference: int)

  /** One netceiver; `stale`: it has not been seen for longer than the device timeout. */
  datatype Netceiver = Netceiver(uuid: string, stale: bool, cams: seq<CamInfo>, tuners: seq<TunerInfo>)

  // --- CAMs --------------------------------------------------------------

  /** CAMFindByUUID; -1 stands for any slot. */
  function FindCam(cams: seq<CamSlot>, uuid: string, slot: int, i: nat): (r: Option<nat>)
    requires i <= |cams|
    ensures r.Some? ==> i <= r.value < |cams| && IsCam(cams[r.value], uuid, slot)
    ensures r.None? ==> forall k :: i <= k < |cams| ==> !IsCam(cams[k], uuid, slot)
    decreases |cams| - i
  {
    if i == |cams| then None
    else if IsCam(cams[i], uuid, slot) then Some(i)
    else FindCam(cams, uuid, slot, i + 1)
  }

  predicate IsCam(c: CamSlot, uuid: string, slot: int) {
    c.max >= 0 && c.uuid == uuid && (slot == -1 || c.slot == slot)
  }

  /** CAMPoolFindFree */
  function FreeCam(cams: seq<CamSlot>, i: nat): (r: Option<nat>)
    requires i <= |cams|
    ensures r.Some? ==> i <= r.value < |cams| && cams[r.value].max == -1
    ensures r.None? ==> forall k :: i <= k < |cams| ==> cams[k].max != -1
    decreases |cams| - i
  {
    if i == |cams| then None
    else if cams[i].max == -1 then Some(i)
    else FreeCam(cams, i + 1)
  }

  /** How many users a CAM can have; unknown flags leave it as it was. */
  function NewMax(info: CamInfo, old_: int): int {
    if !info.present then 0
    else match info.flags
      case CaSingle => 1
      case CaMultiSid => 1
      case CaMultiTransponder => info.maxSids
      case CaOther => old_
  }

  /** One round of CAMPoolAdd. None: no slot is free, and the rest of the list is not looked at. */
  function AddCam(cams: seq<CamSlot>, uuid: string, info: CamInfo): (r: Option<seq<CamSlot>>)
    ensures r.Some? ==> |r.value| == |cams|
  {
    var found := FindCam(cams, uuid, info.slot, 0);
    if found.Some? then
      var c := cams[found.value];
      Some(cams[found.value := c.(max := NewMax(info, c.max))])
    else
      var free := FreeCam(cams, 0);
      if free.None? then None
      else Some(cams[free.value := CamSlot(uuid, info.slot, 0, NewMax(info, -1))])
  }

  function AddCams(cams: seq<CamSlot>, uuid: string, infos: seq<CamInfo>): (r: seq<CamSlot>)
    ensures |r| == |cams|
    decreases |infos|
  {
    if infos == [] then cams
    else
      var a := AddCam(cams, uuid, infos[0]);
      if a.None? then cams else AddCams(a.value, uuid, infos[1..])
  }

  /** CAMPoolAdd notes that there is a CAM when it has entered one of a known kind. */
  predicate SeesCam(cams: seq<CamSlot>, uuid: string, infos: seq<CamInfo>)
    decreases |infos|
  {
    infos != [] &&
    var a := AddCam(cams, uuid, infos[0]);
    a.Some? && ((infos[0].present && infos[0].flags != CaOther) || SeesCam(a.value, uuid, infos[1..]))
  }

  /** CAMPoolDel */
  function DelCams(cams: seq<CamSlot>, uuid: string): (r: seq<CamSlot>)
    ensures |r| == |cams|
    ensures forall k :: 0 <= k < |cams| ==>
              r[k] == if cams[k].max >= 0 && cams[k].uuid == uuid then cams[k].(max := -1) else cams[k]
  {
    seq(|cams|, k requires 0 <= k < |cams| =>
      if cams[k].max >= 0 && cams[k].uuid == uuid then cams[k].(max := -1) else cams[k])
  }

  // --- Tuners ------------------------------------------------------------

  predicate IsTuner(t: TunerSlot, uuid: string) {
    t.kind.Some? && t.uuid == uuid
  }

  /** TunerFindByUUID */
  function FindTuner(ts: seq<TunerSlot>, uuid: string, i: nat): (r: Option<nat>)
    requires i <= |ts|
    ensures r.Some? ==> i <= r.value < |ts| && IsTuner(ts[r.value], uuid)
    ensures r.None? ==> forall k :: i <= k < |ts| ==> !IsTuner(ts[k], uuid)
    decreases |ts| - i
  {
    if i == |ts| then None
    else if IsTuner(ts[i], uuid) then Some(i)
    else FindTuner(ts, uuid, i + 1)
  }

  function FreeTuner(ts: seq<TunerSlot>, i: nat): (r: Option<nat>)
    requires i <= |ts|
    ensures r.Some? ==> i <= r.value < |ts| && ts[r.value].kind.None?
    ensures r.None? ==> forall k :: i <= k < |ts| ==> ts[k].kind.Some?
    decreases |ts| - i
  {
    if i == |ts| then None
    else if ts[i].kind.None? then Some(i)
    else FreeTuner(ts, i + 1)
  }

  /** A listed tuner that has to go. */
  predicate Dropped(stale: bool, info: TunerInfo) {
    stale || info.preference < 0 || info.uuid == ""
  }

  /** A tuner that has to go is removed if it is there, another one is entered if it is not. */
  function Settle(ts: seq<TunerSlot>, drop: bool, info: TunerInfo): (r: seq<TunerSlot>)
    ensures |r| == |ts|
  {
    var found := FindTuner(ts, info.uuid, 0);
    if drop then
      if found.Some? then ts[found.value := ts[found.value].(kind := None)] else ts
    else if found.Some? then ts
    else
      var free := FreeTuner(ts, 0);
      if free.None? then ts
      else ts[free.value := ts[free.value].(kind := Some(info.kind), uuid := info.uuid, satList := info.satList)]
  }

  function SweepTuner(ts: seq<TunerSlot>, stale: bool, info: TunerInfo): (r: seq<TunerSlot>)
    ensures |r| == |ts|
  {
    Settle(ts, Dropped(stale, info), info)
  }

  function SweepTuners(ts: seq<TunerSlot>, stale: bool, infos: seq<TunerInfo>): (r: seq<TunerSlot>)
    ensures |r| == |ts|
    decreases |infos|
  {
    if infos == [] then ts else SweepTuners(SweepTuner(ts, stale, infos[0]), stale, infos[1..])
  }

  // --- The searches find the first ----------------------------------------

  /** An entry is live if it describes a CAM, present or not; slot -1 asks for any CAM of the netceiver. */
  lemma {:induction false} FindCamFirst(cams: seq<CamSlot>, uuid: string, slot: int, i: nat)
    requires i <= |cams|
    ensures var r := FindCam(cams, uuid, slot, i);
            var n := if r.Some? then r.value else |cams|;
            && i <= n <= |cams|
            && (forall k :: i <= k < n ==> cams[k].max < 0 || cams[k].uuid != uuid || (slot != -1 && cams[k].slot != slot))
            && (n < |cams| ==> cams[n].max >= 0 && cams[n].uuid == uuid && (slot != -1 ==> cams[n].slot == slot))
            && (r.Some? <==> n < |cams|)
    decreases |cams| - i
  {
    if i < |cams| && !IsCam(cams[i], uuid, slot) {
      FindCamFirst(cams, uuid, slot, i + 1);
    }
  }

  lemma {:induction false} FreeCamFirst(cams: seq<CamSlot>, i: nat)
    requires i <= |cams|
    ensures var r := FreeCam(cams, i);
            var n := if r.Some? then r.value else |cams|;
            && i <= n <= |cams| && (forall k :: i <= k < n ==> cams[k].max != -1)
            && (n < |cams| ==> cams[n].max == -1) && (r.Some? <==> n < |cams|)
    decreases |cams| - i
  {
    if i < |cams| && cams[i].max != -1 {
      FreeCamFirst(cams, i + 1);
    }
  }

  lemma {:induction false} FindTunerFirst(ts: seq<TunerSlot>, uuid: string, i: nat)
    requires i <= |ts|
    ensures var r := FindTuner(ts, uuid, i);
            var n := if r.Some? then r.value else |ts|;
            && i <= n <= |ts| && (forall k :: i <= k < n ==> ts[k].kind.None? || ts[k].uuid != uuid)
            && (n < |ts| ==> ts[n].kind.Some? && ts[n].uuid == uuid) && (r.Some? <==> n < |ts|)
    decreases |ts| - i
  {
    if i < |ts| && !IsTuner(ts[i], uuid) {
      FindTunerFirst(ts, uuid, i + 1);
    }
  }

  lemma {:induction false} FreeTunerFirst(ts: seq<TunerSlot>, i: nat)
    requires i <= |ts|
    ensures var r := FreeTuner(ts, i);
            var n := if r.Some? then r.value else |ts|;
            && i <= n <= |ts| && (forall k :: i <= k < n ==> ts[k].kind.Some?)
            && (n < |ts| ==> ts[n].kind.None?) && (r.Some? <==> n < |ts|)
    decreases |ts| - i
  {
    if i < |ts| && ts[i].kind.Some? {
      FreeTunerFirst(ts, i + 1);
    }
  }

  // --- The sweep ---------------------------------------------------------

  function SweepOne(s: Sys, n: Netceiver): Sys {
    s.(cams := if n.stale then DelCams(s.cams, n.uuid) else AddCams(s.cams, n.uuid, n.cams),
       camPresent := s.camPresent || (!n.stale && SeesCam(s.cams, n.uuid, n.cams)),
       tuners := SweepTuners(s.tuners, n.stale, n.tuners))
  }

  function SweepAll(s: Sys, list: seq<Netceiver>): (r: Sys)
    ensures r.devs == s.devs && |r.cams| == |s.cams| && |r.tuners| == |s.tuners|
    ensures WellFormed(s) ==> WellFormed(r)
    decreases |list|
  {
    if list == [] then s else SweepAll(SweepOne(s, list[0]), list[1..])
  }

  // --- What a sweep keeps ------------------------------------------------

  /** No two tuner entries have the same UUID. */
  predicate DistinctTuners(ts: seq<TunerSlot>) {
    && (forall i, j :: 0 <= i < j < |ts| && ts[i].kind.Some? && ts[j].kind.Some? ==> ts[i].uuid != ts[j].uuid)
    && (forall i :: 0 <= i < |ts| && ts[i].kind.Some? ==> ts[i].uuid != "")
  }

  /** No two CAM entries have the same UUID and slot. */
  predicate DistinctCams(cams: seq<CamSlot>) {
    forall i, j :: 0 <= i < j < |cams| && cams[i].max >= 0 && cams[j].max >= 0 ==>
      cams[i].uuid != cams[j].uuid || cams[i].slot != cams[j].slot
  }

  lemma SweepTunerDistinct(ts: seq<TunerSlot>, stale: bool, info: TunerInfo)
    requires DistinctTuners(ts)
    ensures DistinctTuners(SweepTuner(ts, stale, info))
    ensures forall k :: 0 <= k < |ts| ==> SweepTuner(ts, stale, info)[k].inuse == ts[k].inuse
  {
  }

  lemma AddCamDistinct(cams: seq<CamSlot>, uuid: string, info: CamInfo)
    requires DistinctCams(cams) && (forall k :: 0 <= k < |cams| ==> cams[k].max >= -1)
    requires AddCam(cams, uuid, info).Some?
    ensures var r := AddCam(cams, uuid, info).value;
            && DistinctCams(r)
            && (forall k :: 0 <= k < |r| ==> r[k].max >= -1)
            && (forall k :: 0 <= k < |r| ==> r[k].use == cams[k].use || r[k].use == 0)
  {
  }

  lemma {:induction false} AddCamsDistinct(cams: seq<CamSlot>, uuid: string, infos: seq<CamInfo>)
    requires DistinctCams(cams) && (forall k :: 0 <= k < |cams| ==> cams[k].max >= -1)
    ensures var r := AddCams(cams, uuid, infos);
            && DistinctCams(r)
            && (forall k :: 0 <= k < |r| ==> r[k].max >= -1)
            && (forall k :: 0 <= k < |r| ==> r[k].use == cams[k].use || r[k].use == 0)
    decreases |infos|
  {
    if infos != [] {
      var a := AddCam(cams, uuid, infos[0]);
      if a.Some? {
        AddCamDistinct(cams, uuid, infos[0]);
        AddCamsDistinct(a.value, uuid, infos[1..]);
      }
    }
  }

  lemma {:induction false} SweepTunersDistinct(ts: seq<TunerSlot>, stale: bool, infos: seq<TunerInfo>)
    requires DistinctTuners(ts)
    ensures var r := SweepTuners(ts, stale, infos);
            DistinctTuners(r) && forall k :: 0 <= k < |ts| ==> r[k].inuse == ts[k].inuse
    decreases |infos|
  {
    if infos != [] {
      SweepTunerDistinct(ts, stale, infos[0]);
      SweepTunersDistinct(SweepTuner(ts, stale, infos[0]), stale, infos[1..]);
    }
  }

  predicate Distinct(s: Sys) {
    && DistinctTuners(s.tuners) && DistinctCams(s.cams)
    && (forall k :: 0 <= k < |s.cams| ==> s.cams[k].max >= -1)
  }

  /** A sweep, whatever it removes, keeps the entries distinct and the references in order. */
  lemma SweepOneKeeps(s: Sys, n: Netceiver)
    requires Distinct(s) && Inv(s)
    ensures Distinct(SweepOne(s, n)) && Inv(SweepOne(s, n))
  {
    var r := SweepOne(s, n);
    SweepTunersDistinct(s.tuners, n.stale, n.tuners);
    AddCamsDistinct(s.cams, n.uuid, n.cams);
    assert forall i: nat, k: nat :: i < |s.devs| ==> (Holds(r, i, k) <==> Holds(s, i, k));
  }

  lemma {:induction false} SweepKeeps(s: Sys, list: seq<Netceiver>)
    requires Distinct(s) && Inv(s)
    ensures Distinct(SweepAll(s, list)) && Inv(SweepAll(s, list))
    decreases |list|
  {
    if list != [] {
      SweepOneKeeps(s, list[0]);
      SweepKeeps(SweepOne(s, list[0]), list[1..]);
    }
  }

  // --- Sweeps that remove no tuner in use ---------------------------------

  /** The netceiver does not ask for the removal of a tuner that a device uses. */
  predicate SparesInUse(ts: seq<TunerSlot>, stale: bool, infos: seq<TunerInfo>) {
    forall j, k :: 0 <= j < |infos| && 0 <= k < |ts| && Dropped(stale, infos[j]) && ts[k].inuse ==>
      !IsTuner(ts[k], infos[j].uuid)
  }

  /** Slots in use are the same, and the others are still not in use. */
  predicate SameInUse(ts: seq<TunerSlot>, us: seq<TunerSlot>) {
    && |us| == |ts|
    && forall k :: 0 <= k < |ts| ==> us[k].inuse == ts[k].inuse && (ts[k].inuse ==> us[k] == ts[k])
  }

  predicate InUseKnown(ts: seq<TunerSlot>) {
    forall k :: 0 <= k < |ts| && ts[k].inuse ==> ts[k].kind.Some?
  }

  lemma {:induction false} SweepTunersSpare(ts: seq<TunerSlot>, stale: bool, infos: seq<TunerInfo>)
    requires SparesInUse(ts, stale, infos) && InUseKnown(ts)
    ensures SameInUse(ts, SweepTuners(ts, stale, infos))
    decreases |infos|
  {
    if infos != [] {
      var us := SweepTuner(ts, stale, infos[0]);
      assert SameInUse(ts, us);
      assert SparesInUse(us, stale, infos[1..]) by {
        forall j, k | 0 <= j < |infos[1..]| && 0 <= k < |us| && Dropped(stale, infos[1..][j]) && us[k].inuse
          ensures !IsTuner(us[k], infos[1..][j].uuid)
        {
          assert infos[1..][j] == infos[j + 1];
        }
      }
      SweepTunersSpare(us, stale, infos[1..]);
    }
  }

  lemma {:induction false} CountSameInUse(ts: seq<TunerSlot>, us: seq<TunerSlot>, t: Option<FeType>)
    requires SameInUse(ts, us)
    ensures CountInUse(us, t) == CountInUse(ts, t)
  {
    if ts != [] {
      assert us[0].inuse == ts[0].inuse;
      CountSameInUse(ts[1..], us[1..], t);
    }
  }

  predicate AllSpare(ts: seq<TunerSlot>, list: seq<Netceiver>) {
    forall n :: 0 <= n < |list| ==> SparesInUse(ts, list[n].stale, list[n].tuners)
  }

  lemma {:induction false} SweepSpares(s: Sys, list: seq<Netceiver>)
    requires AllSpare(s.tuners, list) && InUseKnown(s.tuners)
    ensures SameInUse(s.tuners, SweepAll(s, list).tuners)
    ensures SweepAll(s, list).devs == s.devs && SweepAll(s, list).limit == s.limit
    decreases |list|
  {
    if list != [] {
      var a := SweepOne(s, list[0]);
      SweepTunersSpare(s.tuners, list[0].stale, list[0].tuners);
      forall n | 0 <= n < |list[1..]|
        ensures SparesInUse(a.tuners, list[1..][n].stale, list[1..][n].tuners)
      {
        assert list[1..][n] == list[n + 1];
        assert SparesInUse(s.tuners, list[n + 1].stale, list[n + 1].tuners);
      }
      SweepSpares(a, list[1..]);
    }
  }

  /** While no tuner in use is removed, types and limits stay in order. */
  lemma SweepKeepsStrict(s: Sys, list: seq<Netceiver>)
    requires Distinct(s) && Inv(s) && Strict(s) && AllSpare(s.tuners, list)
    ensures Inv(SweepAll(s, list)) && Strict(SweepAll(s, list))
  {
    var r := SweepAll(s, list);
    forall k: nat | k < |s.tuners| && s.tuners[k].inuse
      ensures s.tuners[k].kind.Some?
    {
      var i: nat :| i < |s.devs| && Holds(s, i, k);
    }
    SweepSpares(s, list);
    SweepKeeps(s, list);
    forall t: FeType
      ensures CountInUse(r.tuners, Some(t)) <= s.limit(Some(t))
    {
      CountSameInUse(s.tuners, r.tuners, Some(t));
    }
    forall i: nat | i < |r.devs| && r.devs[i].tuner.Some?
      ensures r.tuners[r.devs[i].tuner.value] == s.tuners[s.devs[i].tuner.value]
    {
      assert Holds(s, i, s.devs[i].tuner.value);
    }
  }

  // --- Sweeps and the users of CAMs -----------------------------------------

  /** No CAM is entered into a slot that still has users. */
  predicate EnterClean(cams: seq<CamSlot>, uuid: string, infos: seq<CamInfo>)
    decreases |infos|
  {
    infos != [] && AddCam(cams, uuid, infos[0]).Some? ==>
      && (FindCam(cams, uuid, infos[0].slot, 0).None? ==> cams[FreeCam(cams, 0).value].use == 0)
      && EnterClean(AddCam(cams, uuid, infos[0]).value, uuid, infos[1..])
  }

  predicate AllEnterClean(s: Sys, list: seq<Netceiver>)
    decreases |list|
  {
    list != [] ==>
      && (!list[0].stale ==> EnterClean(s.cams, list[0].uuid, list[0].cams))
      && AllEnterClean(SweepOne(s, list[0]), list[1..])
  }

  /** No use count has grown, and one has fallen. */
  predicate LostCount(cams: seq<CamSlot>, r: seq<CamSlot>) {
    && |r| == |cams| && (forall k :: 0 <= k < |cams| ==> r[k].use <= cams[k].use)
    && exists k :: 0 <= k < |cams| && r[k].use < cams[k].use
  }

  /** All use counts are the same. */
  predicate SameCounts(cams: seq<CamSlot>, r: seq<CamSlot>) {
    |r| == |cams| && forall k :: 0 <= k < |cams| ==> r[k].use == cams[k].use
  }

  predicate NoneNegative(cams: seq<CamSlot>) {
    forall k :: 0 <= k < |cams| ==> cams[k].use >= 0
  }

  lemma LostThen(a: seq<CamSlot>, b: seq<CamSlot>, c: seq<CamSlot>)
    requires SameCounts(a, b) || LostCount(a, b)
    requires SameCounts(b, c) || LostCount(b, c)
    ensures SameCounts(a, c) || LostCount(a, c)
    ensures SameCounts(a, c) <==> SameCounts(a, b) && SameCounts(b, c)
  {
    if LostCount(a, b) {
      var k :| 0 <= k < |a| && b[k].use < a[k].use;
      assert c[k].use < a[k].use;
    } else if LostCount(b, c) {
      var k :| 0 <= k < |b| && c[k].use < b[k].use;
      assert c[k].use < a[k].use;
    }
  }

  lemma AddCamCounts(cams: seq<CamSlot>, uuid: string, info: CamInfo)
    requires NoneNegative(cams) && AddCam(cams, uuid, info).Some?
    ensures var r := AddCam(cams, uuid, info).value;
            && NoneNegative(r) && (SameCounts(cams, r) || LostCount(cams, r))
            && (SameCounts(cams, r)
                <==> (FindCam(cams, uuid, info.slot, 0).None? ==> cams[FreeCam(cams, 0).value].use == 0))
  {
    var r := AddCam(cams, uuid, info).value;
    var f := FindCam(cams, uuid, info.slot, 0);
    if f.None? {
      var k := FreeCam(cams, 0).value;
      assert r[k].use == 0;
    }
  }

  lemma {:induction false} AddCamsCounts(cams: seq<CamSlot>, uuid: string, infos: seq<CamInfo>)
    requires NoneNegative(cams)
    ensures var r := AddCams(cams, uuid, infos);
            && NoneNegative(r) && (SameCounts(cams, r) || LostCount(cams, r))
            && (SameCounts(cams, r) <==> EnterClean(cams, uuid, infos))
    decreases |infos|
  {
    if infos != [] {
      var a := AddCam(cams, uuid, infos[0]);
      if a.Some? {
        AddCamCounts(cams, uuid, infos[0]);
        AddCamsCounts(a.value, uuid, infos[1..]);
        LostThen(cams, a.value, AddCams(cams, uuid, infos));
      }
    }
  }

  lemma {:induction false} SweepCounts(s: Sys, list: seq<Netceiver>)
    requires NoneNegative(s.cams)
    ensures var r := SweepAll(s, list).cams;
            && (SameCounts(s.cams, r) || LostCount(s.cams, r))
            && (SameCounts(s.cams, r) <==> AllEnterClean(s, list))
    decreases |list|
  {
    if list != [] {
      var n := list[0];
      AddCamsCounts(s.cams, n.uuid, n.cams);
      SweepCounts(SweepOne(s, n), list[1..]);
      LostThen(s.cams, SweepOne(s, n).cams, SweepAll(s, list).cams);
    }
  }

  /** A sweep keeps every count the number of holders if and only if it enters no CAM into a slot that
      still has users, whatever it removes. */
  lemma CountedAfterSweepIff(s: Sys, list: seq<Netceiver>)
    requires Counted(s)
    ensures Counted(SweepAll(s, list)) <==> AllEnterClean(s, list)
  {
    SweepCounts(s, list);
  }

  /** The netceiver is not silent while a CAM of it is used. */
  predicate SparesCams(s: Sys, n: Netceiver) {
    n.stale ==> forall k :: 0 <= k < |s.cams| && s.cams[k].max >= 0 && s.cams[k].uuid == n.uuid ==> s.cams[k].use == 0
  }

  predicate AllSpareCams(s: Sys, list: seq<Netceiver>)
    decreases |list|
  {
    list != [] ==> SparesCams(s, list[0]) && AllSpareCams(SweepOne(s, list[0]), list[1..])
  }

  lemma {:induction false} AddCamsUnused(s: Sys, uuid: string, infos: seq<CamInfo>)
    requires EmptyUnused(s) && forall k :: 0 <= k < |s.cams| ==> s.cams[k].max >= -1
    ensures EmptyUnused(s.(cams := AddCams(s.cams, uuid, infos))) && EnterClean(s.cams, uuid, infos)
    decreases |infos|
  {
    if infos != [] {
      var a := AddCam(s.cams, uuid, infos[0]);
      if a.Some? {
        AddCamsUnused(s.(cams := a.value), uuid, infos[1..]);
      }
    }
  }

  /** While no used CAM is removed, slots without a CAM have no users, so that CAMs are entered cleanly. */
  lemma {:induction false} SweepKeepsUnused(s: Sys, list: seq<Netceiver>)
    requires Distinct(s) && Inv(s) && EmptyUnused(s) && AllSpareCams(s, list)
    ensures EmptyUnused(SweepAll(s, list)) && AllEnterClean(s, list)
    decreases |list|
  {
    if list != [] {
      var n := list[0];
      SweepOneKeeps(s, n);
      if !n.stale {
        AddCamsUnused(s, n.uuid, n.cams);
      }
      SweepKeepsUnused(SweepOne(s, n), list[1..]);
    }
  }

  /** While no used CAM is removed, the use counts stay exact, also when a CAM is pulled and its
      maximum falls below its users. */
  lemma SweepKeepsExact(s: Sys, list: seq<Netceiver>)
    requires Distinct(s) && Inv(s) && CamsExact(s) && AllSpareCams(s, list)
    ensures CamsExact(SweepAll(s, list))
  {
    SweepKeepsUnused(s, list);
    CountedAfterSweepIff(s, list);
  }

  /** Every CAM that is listed again still has room for its users. This is so in particular when no
      maximum shrinks. */
  predicate NoOvercommit(cams: seq<CamSlot>, uuid: string, infos: seq<CamInfo>)
    decreases |infos|
  {
    infos != [] && AddCam(cams, uuid, infos[0]).Some? ==>
      && (var f := FindCam(cams, uuid, infos[0].slot, 0);
          f.Some? ==> cams[f.value].use <= NewMax(infos[0], cams[f.value].max))
      && NoOvercommit(AddCam(cams, uuid, infos[0]).value, uuid, infos[1..])
  }

  predicate AllLeaveRoom(s: Sys, list: seq<Netceiver>)
    decreases |list|
  {
    list != [] ==>
      && (!list[0].stale ==> NoOvercommit(s.cams, list[0].uuid, list[0].cams))
      && AllLeaveRoom(SweepOne(s, list[0]), list[1..])
  }

  lemma {:induction false} AddCamsWithin(s: Sys, uuid: string, infos: seq<CamInfo>)
    requires CamsWithin(s) && NoOvercommit(s.cams, uuid, infos)
    ensures CamsWithin(s.(cams := AddCams(s.cams, uuid, infos)))
    decreases |infos|
  {
    if infos != [] {
      var a := AddCam(s.cams, uuid, infos[0]);
      if a.Some? {
        AddCamsWithin(s.(cams := a.value), uuid, infos[1..]);
      }
    }
  }

  /** While no CAM shrinks below its users, no CAM has more users than it takes, whatever is removed. */
  lemma {:induction false} SweepKeepsWithin(s: Sys, list: seq<Netceiver>)
    requires CamsWithin(s) && AllLeaveRoom(s, list)
    ensures CamsWithin(SweepAll(s, list))
    decreases |list|
  {
    if list != [] {
      var n := list[0];
      if !n.stale {
        AddCamsWithin(s, n.uuid, n.cams);
      }
      SweepKeepsWithin(SweepOne(s, n), list[1..]);
    }
  }
}

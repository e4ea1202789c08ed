/** A sweep brings the pools into agreement with the list of netceivers, and doing it again changes
    nothing. */
module Reconcile {
  import opened Wrappers
  import opened Pools
  import opened Sweep

  // --- Tuners ------------------------------------------------------------

  /** One listed tuner, and whether it has to go. */
  datatype Item = Item(drop: bool, info: TunerInfo)

  function ItemsOf(stale: bool, infos: seq<TunerInfo>): seq<Item> {
    if infos == [] then [] else [Item(Dropped(stale, infos[0]), infos[0])] + ItemsOf(stale, infos[1..])
  }

  function Items(list: seq<Netceiver>): seq<Item> {
    if list == [] then [] else ItemsOf(list[0].stale, list[0].tuners) + Items(list[1..])
  }

  function SettleAll(ts: seq<TunerSlot>, items: seq<Item>): (r: seq<TunerSlot>)
    ensures |r| == |ts|
    decreases |items|
  {
    if items == [] then ts else SettleAll(Settle(ts, items[0].drop, items[0].info), items[1..])
  }

  lemma {:induction false} SettleAllSplit(ts: seq<TunerSlot>, a: seq<Item>, b: seq<Item>)
    ensures SettleAll(ts, a + b) == SettleAll(SettleAll(ts, a), b)
    decreases |a|
  {
    if a == [] {
      assert a + b == b;
    } else {
      assert (a + b)[1..] == a[1..] + b;
      SettleAllSplit(Settle(ts, a[0].drop, a[0].info), a[1..], b);
    }
  }

  lemma {:induction false} SweepTunersSettle(ts: seq<TunerSlot>, stale: bool, infos: seq<TunerInfo>)
    ensures SweepTuners(ts, stale, infos) == SettleAll(ts, ItemsOf(stale, infos))
    decreases |infos|
  {
    if infos != [] {
      var items := ItemsOf(stale, infos);
      assert items[0] == Item(Dropped(stale, infos[0]), infos[0]) && items[1..] == ItemsOf(stale, infos[1..]);
      SweepTunersSettle(SweepTuner(ts, stale, infos[0]), stale, infos[1..]);
    }
  }

  lemma {:induction false} SweepAllSettles(s: Sys, list: seq<Netceiver>)
    ensures SweepAll(s, list).tuners == SettleAll(s.tuners, Items(list))
    decreases |list|
  {
    if list != [] {
      var a := SweepOne(s, list[0]);
      SweepTunersSettle(s.tuners, list[0].stale, list[0].tuners);
      SweepAllSettles(a, list[1..]);
      SettleAllSplit(s.tuners, ItemsOf(list[0].stale, list[0].tuners), Items(list[1..]));
    }
  }

  /** The pool has an entry for this tuner. */
  predicate Present(ts: seq<TunerSlot>, uuid: string) {
    exists k :: 0 <= k < |ts| && IsTuner(ts[k], uuid)
  }

  predicate DistinctItems(items: seq<Item>) {
    forall i, j :: 0 <= i < j < |items| && items[i].info.uuid != "" ==> items[i].info.uuid != items[j].info.uuid
  }

  /** Tuners without a UUID are always dropped. */
  predicate Named(items: seq<Item>) {
    forall i :: 0 <= i < |items| && items[i].info.uuid == "" ==> items[i].drop
  }

  function CountFree(ts: seq<TunerSlot>): nat {
    if ts == [] then 0 else Bit(ts[0].kind.None?) + CountFree(ts[1..])
  }

  /** How many listed tuners still have to be entered. */
  function Missing(ts: seq<TunerSlot>, items: seq<Item>): nat
    decreases |items|
  {
    if items == [] then 0
    else Bit(!items[0].drop && FindTuner(ts, items[0].info.uuid, 0).None?) + Missing(ts, items[1..])
  }

  lemma {:induction false} CountFreeUpdate(ts: seq<TunerSlot>, k: nat, x: TunerSlot)
    requires k < |ts|
    ensures CountFree(ts[k := x]) + Bit(ts[k].kind.None?) == CountFree(ts) + Bit(x.kind.None?)
  {
    if k == 0 {
      assert ts[k := x][1..] == ts[1..];
    } else {
      assert ts[k := x][1..] == ts[1..][k - 1 := x];
      CountFreeUpdate(ts[1..], k - 1, x);
    }
  }

  lemma {:induction false} SomeFree(ts: seq<TunerSlot>)
    requires CountFree(ts) > 0
    ensures exists k :: 0 <= k < |ts| && ts[k].kind.None?
  {
    assert ts != [];
    if ts[0].kind.Some? {
      SomeFree(ts[1..]);
      var k :| 0 <= k < |ts[1..]| && ts[1..][k].kind.None?;
      assert ts[k + 1].kind.None?;
    }
  }

  lemma FindIffPresent(ts: seq<TunerSlot>, uuid: string)
    ensures FindTuner(ts, uuid, 0).Some? <==> Present(ts, uuid)
  {
  }

  /** Settling one item does what it says, and leaves all other UUIDs alone. */
  lemma SettleOne(ts: seq<TunerSlot>, it: Item)
    requires DistinctTuners(ts) && (it.info.uuid == "" ==> it.drop)
    requires !it.drop && FindTuner(ts, it.info.uuid, 0).None? ==> CountFree(ts) > 0
    ensures var r := Settle(ts, it.drop, it.info);
            && DistinctTuners(r)
            && (Present(r, it.info.uuid) <==> !it.drop)
            && (forall u :: u != it.info.uuid ==> (Present(r, u) <==> Present(ts, u)))
            && CountFree(r) + Bit(!it.drop && FindTuner(ts, it.info.uuid, 0).None?) >= CountFree(ts)
  {
    var r := Settle(ts, it.drop, it.info);
    var found := FindTuner(ts, it.info.uuid, 0);
    FindIffPresent(ts, it.info.uuid);
    if it.drop && found.Some? {
      CountFreeUpdate(ts, found.value, r[found.value]);
      OthersKept(ts, r, found.value, it.info.uuid);
    } else if !it.drop && found.None? {
      SomeFree(ts);
      var free := FreeTuner(ts, 0).value;
      CountFreeUpdate(ts, free, r[free]);
      OthersKept(ts, r, free, it.info.uuid);
      assert IsTuner(r[free], it.info.uuid);
    }
  }

  lemma OthersKept(ts: seq<TunerSlot>, r: seq<TunerSlot>, k: nat, uuid: string)
    requires k < |ts| == |r| && r == ts[k := r[k]]
    requires ts[k].kind.Some? ==> ts[k].uuid == uuid
    requires r[k].kind.Some? ==> r[k].uuid == uuid
    ensures forall u :: u != uuid ==> (Present(r, u) <==> Present(ts, u))
  {
    forall u | u != uuid
      ensures Present(r, u) <==> Present(ts, u)
    {
      if Present(ts, u) {
        var j :| 0 <= j < |ts| && IsTuner(ts[j], u);
        assert IsTuner(r[j], u);
      }
      if Present(r, u) {
        var j :| 0 <= j < |r| && IsTuner(r[j], u);
        assert IsTuner(ts[j], u);
      }
    }
  }

  lemma {:induction false} MissingSame(ts: seq<TunerSlot>, r: seq<TunerSlot>, items: seq<Item>, uuid: string)
    requires forall u :: u != uuid ==> (Present(r, u) <==> Present(ts, u))
    requires Named(items) && (forall i :: 0 <= i < |items| ==> items[i].info.uuid != uuid || items[i].drop)
    ensures Missing(r, items) == Missing(ts, items)
    decreases |items|
  {
    if items != [] {
      FindIffPresent(ts, items[0].info.uuid);
      FindIffPresent(r, items[0].info.uuid);
      MissingSame(ts, r, items[1..], uuid);
    }
  }

  /** The pool has exactly this entry. */
  predicate Entered(ts: seq<TunerSlot>, info: TunerInfo) {
    exists k :: 0 <= k < |ts| && IsTuner(ts[k], info.uuid) && ts[k].kind == Some(info.kind) && ts[k].satList == info.satList
  }

  lemma EnteredByOne(ts: seq<TunerSlot>, it: Item)
    requires !it.drop && FindTuner(ts, it.info.uuid, 0).None? && CountFree(ts) > 0
    ensures Entered(Settle(ts, it.drop, it.info), it.info)
  {
    SomeFree(ts);
    var free := FreeTuner(ts, 0).value;
    assert IsTuner(Settle(ts, it.drop, it.info)[free], it.info.uuid);
  }

  lemma {:induction false} EnteredStays(ts: seq<TunerSlot>, items: seq<Item>, info: TunerInfo)
    requires Entered(ts, info) && forall i :: 0 <= i < |items| ==> items[i].info.uuid != info.uuid
    ensures Entered(SettleAll(ts, items), info)
    decreases |items|
  {
    if items != [] {
      var a := Settle(ts, items[0].drop, items[0].info);
      var k :| 0 <= k < |ts| && IsTuner(ts[k], info.uuid) && ts[k].kind == Some(info.kind) && ts[k].satList == info.satList;
      assert a[k] == ts[k];
      EnteredStays(a, items[1..], info);
    }
  }

  /** A tuner that is listed as fresh and is new to the pool is entered as it is listed. */
  lemma {:induction false} NewOnesEntered(ts: seq<TunerSlot>, items: seq<Item>, i: nat)
    requires DistinctTuners(ts) && DistinctItems(items) && Named(items) && Missing(ts, items) <= CountFree(ts)
    requires i < |items| && !items[i].drop && !Present(ts, items[i].info.uuid)
    ensures Entered(SettleAll(ts, items), items[i].info)
    decreases |items|
  {
    hide Entered, Settle, CountFree;
    var it, rest := items[0], items[1..];
    var a := Settle(ts, it.drop, it.info);
    FindIffPresent(ts, it.info.uuid);
    SettleOne(ts, it);
    if i == 0 {
      EnteredByOne(ts, it);
      assert forall j :: 0 <= j < |rest| ==> rest[j].info.uuid == items[j + 1].info.uuid != it.info.uuid;
      EnteredStays(a, rest, it.info);
    } else {
      MissingSame(ts, a, rest, it.info.uuid);
      assert rest[i - 1] == items[i];
      assert it.info.uuid != "" ==> it.info.uuid != items[i].info.uuid;
      NewOnesEntered(a, rest, i - 1);
    }
  }

  /** Every listed tuner is present unless it had to go, and the others are as before. */
  ghost predicate Settled(ts: seq<TunerSlot>, r: seq<TunerSlot>, items: seq<Item>) {
    && (forall i :: 0 <= i < |items| ==> (Present(r, items[i].info.uuid) <==> !items[i].drop))
    && (forall u :: (forall i :: 0 <= i < |items| ==> items[i].info.uuid != u) ==>
         (Present(r, u) <==> Present(ts, u)))
  }

  lemma RestOfItems(items: seq<Item>)
    requires items != [] && DistinctItems(items) && Named(items)
    ensures DistinctItems(items[1..]) && Named(items[1..])
    ensures forall i :: 0 <= i < |items[1..]| ==>
              items[1..][i].info.uuid != items[0].info.uuid || (items[0].info.uuid == "" && items[1..][i].drop)
  {
  }

  lemma SettledCons(ts: seq<TunerSlot>, a: seq<TunerSlot>, r: seq<TunerSlot>, items: seq<Item>)
    requires items != [] && DistinctItems(items) && Named(items) && DistinctTuners(r)
    requires var u := items[0].info.uuid;
             && (Present(a, u) <==> !items[0].drop)
             && (forall v :: v != u ==> (Present(a, v) <==> Present(ts, v)))
    requires Settled(a, r, items[1..])
    ensures Settled(ts, r, items)
  {
    hide Present;
    var rest := items[1..];
    RestOfItems(items);
    NoneUnnamed(r);
    forall i | 0 <= i < |items|
      ensures Present(r, items[i].info.uuid) <==> !items[i].drop
    {
      if i > 0 {
        assert rest[i - 1] == items[i];
      }
    }
    forall u | forall i :: 0 <= i < |items| ==> items[i].info.uuid != u
      ensures Present(r, u) <==> Present(ts, u)
    {
      assert items[0].info.uuid != u;
      assert forall i :: 0 <= i < |rest| ==> rest[i].info.uuid == items[i + 1].info.uuid != u;
    }
  }

  /** After a sweep with enough free slots every fresh tuner of the list is present, every other one
      is absent, and tuners that are not listed are as before. */
  lemma {:induction false} SettledAll(ts: seq<TunerSlot>, items: seq<Item>)
    requires DistinctTuners(ts) && DistinctItems(items) && Named(items) && Missing(ts, items) <= CountFree(ts)
    ensures DistinctTuners(SettleAll(ts, items)) && Settled(ts, SettleAll(ts, items), items)
    decreases |items|
  {
    if items != [] {
      hide Settle, Settled, CountFree, Present, DistinctTuners, DistinctItems;
      var it, rest := items[0], items[1..];
      var a := Settle(ts, it.drop, it.info);
      RestOfItems(items);
      SettleOne(ts, it);
      MissingSame(ts, a, rest, it.info.uuid);
      SettledAll(a, rest);
      SettledCons(ts, a, SettleAll(ts, items), items);
    }
  }

  lemma NoneUnnamed(ts: seq<TunerSlot>)
    requires DistinctTuners(ts)
    ensures !Present(ts, "")
  {
  }

  /** Where everything is settled, a sweep changes nothing. */
  lemma {:induction false} SettledStays(ts: seq<TunerSlot>, items: seq<Item>)
    requires forall i :: 0 <= i < |items| ==> (Present(ts, items[i].info.uuid) <==> !items[i].drop)
    ensures SettleAll(ts, items) == ts
    decreases |items|
  {
    if items != [] {
      FindIffPresent(ts, items[0].info.uuid);
      forall i | 0 <= i < |items[1..]|
        ensures Present(ts, items[1..][i].info.uuid) <==> !items[1..][i].drop
      {
        assert items[1..][i] == items[i + 1];
      }
      SettledStays(ts, items[1..]);
    }
  }

  lemma {:induction false} ItemsNamed(list: seq<Netceiver>)
    ensures Named(Items(list))
  {
    if list != [] {
      ItemsOfNamed(list[0].stale, list[0].tuners);
      ItemsNamed(list[1..]);
    }
  }

  lemma {:induction false} ItemsOfNamed(stale: bool, infos: seq<TunerInfo>)
    ensures Named(ItemsOf(stale, infos))
  {
    if infos != [] {
      ItemsOfNamed(stale, infos[1..]);
    }
  }

  /** An entry that the list does not drop stays in its slot as it is, listed or not. */
  lemma {:induction false} UndroppedStays(ts: seq<TunerSlot>, items: seq<Item>, k: nat)
    requires k < |ts| && ts[k].kind.Some?
    requires forall i :: 0 <= i < |items| && items[i].drop ==> items[i].info.uuid != ts[k].uuid
    ensures SettleAll(ts, items)[k] == ts[k]
    decreases |items|
  {
    if items != [] {
      var a := Settle(ts, items[0].drop, items[0].info);
      assert a[k] == ts[k];
      UndroppedStays(a, items[1..], k);
    }
  }

  /** The sweep reconciles the tuner pool with the list, and a second sweep leaves it as it is. New tuners
      are entered as they are listed; known ones, and those that are not listed, keep the entries they had. */
  lemma TunersReconciled(s: Sys, list: seq<Netceiver>)
    requires DistinctTuners(s.tuners) && DistinctItems(Items(list))
    requires Missing(s.tuners, Items(list)) <= CountFree(s.tuners)
    ensures var r := SweepAll(s, list);
            var items := Items(list);
            && (forall i :: 0 <= i < |items| ==> (Present(r.tuners, items[i].info.uuid) <==> !items[i].drop))
            && (forall u :: (forall i :: 0 <= i < |items| ==> items[i].info.uuid != u) ==>
                 (Present(r.tuners, u) <==> Present(s.tuners, u)))
            && (forall i :: 0 <= i < |items| && !items[i].drop && !Present(s.tuners, items[i].info.uuid) ==>
                 Entered(r.tuners, items[i].info))
            && (forall k :: 0 <= k < |s.tuners| && s.tuners[k].kind.Some?
                            && (forall i :: 0 <= i < |items| && items[i].drop ==> items[i].info.uuid != s.tuners[k].uuid) ==>
                 r.tuners[k] == s.tuners[k])
            && SweepAll(r, list).tuners == r.tuners
  {
    var r := SweepAll(s, list);
    SweepAllSettles(s, list);
    SweepAllSettles(r, list);
    ItemsNamed(list);
    SettledAll(s.tuners, Items(list));
    forall i | 0 <= i < |Items(list)| && !Items(list)[i].drop && !Present(s.tuners, Items(list)[i].info.uuid)
      ensures Entered(r.tuners, Items(list)[i].info)
    {
      NewOnesEntered(s.tuners, Items(list), i);
    }
    forall k | 0 <= k < |s.tuners| && s.tuners[k].kind.Some?
               && forall i :: 0 <= i < |Items(list)| && Items(list)[i].drop ==> Items(list)[i].info.uuid != s.tuners[k].uuid
      ensures r.tuners[k] == s.tuners[k]
    {
      UndroppedStays(s.tuners, Items(list), k);
    }
    SettledStays(r.tuners, Items(list));
  }

  // --- CAMs --------------------------------------------------------------

  /** One listed CAM, or the removal of all CAMs of a silent netceiver. */
  datatype CamOp = DropAll(uuid: string) | Enter(uuid: string, info: CamInfo)

  function EnterAll(uuid: string, infos: seq<CamInfo>): seq<CamOp> {
    if infos == [] then [] else [Enter(uuid, infos[0])] + EnterAll(uuid, infos[1..])
  }

  function CamOpsOf(n: Netceiver): seq<CamOp> {
    if n.stale then [DropAll(n.uuid)] else EnterAll(n.uuid, n.cams)
  }

  function CamOps(list: seq<Netceiver>): seq<CamOp> {
    if list == [] then [] else CamOpsOf(list[0]) + CamOps(list[1..])
  }

  function Do(cams: seq<CamSlot>, op: CamOp): (r: seq<CamSlot>)
    ensures |r| == |cams|
  {
    match op
    case DropAll(uuid) => DelCams(cams, uuid)
    case Enter(uuid, info) =>
      var a := AddCam(cams, uuid, info);
      if a.Some? then a.value else cams
  }

  function DoAll(cams: seq<CamSlot>, ops: seq<CamOp>): (r: seq<CamSlot>)
    ensures |r| == |cams|
    decreases |ops|
  {
    if ops == [] then cams else DoAll(Do(cams, ops[0]), ops[1..])
  }

  lemma {:induction false} DoAllSplit(cams: seq<CamSlot>, a: seq<CamOp>, b: seq<CamOp>)
    ensures DoAll(cams, a + b) == DoAll(DoAll(cams, a), b)
    decreases |a|
  {
    if a == [] {
      assert a + b == b;
    } else {
      assert (a + b)[1..] == a[1..] + b;
      DoAllSplit(Do(cams, a[0]), a[1..], b);
    }
  }

  predicate HasCam(cams: seq<CamSlot>, uuid: string, slot: int) {
    exists k :: 0 <= k < |cams| && IsCam(cams[k], uuid, slot)
  }

  function CountFreeCams(cams: seq<CamSlot>): nat {
    if cams == [] then 0 else Bit(cams[0].max == -1) + CountFreeCams(cams[1..])
  }

  /** How many listed CAMs are not in the pool. */
  function MissingCams(cams: seq<CamSlot>, ops: seq<CamOp>): nat
    decreases |ops|
  {
    if ops == [] then 0
    else Bit(ops[0].Enter? && !HasCam(cams, ops[0].uuid, ops[0].info.slot)) + MissingCams(cams, ops[1..])
  }

  /** A listed CAM that is not in the pool and will take up a slot: its flags are known. */
  predicate IsFirm(cams: seq<CamSlot>, op: CamOp) {
    op.Enter? && !HasCam(cams, op.uuid, op.info.slot) && !Vague(op.info)
  }

  function Firm(cams: seq<CamSlot>, ops: seq<CamOp>): nat
    decreases |ops|
  {
    if ops == [] then 0 else Bit(IsFirm(cams, ops[0])) + Firm(cams, ops[1..])
  }

  /** The operations concern different CAMs. */
  predicate Independent(a: CamOp, b: CamOp) {
    a.uuid != b.uuid || (a.Enter? && b.Enter? && a.info.slot != b.info.slot)
  }

  predicate DistinctOps(ops: seq<CamOp>) {
    forall i, j :: 0 <= i < j < |ops| ==> Independent(ops[i], ops[j])
  }

  /** The CAMs of which operation `op` speaks. */
  predicate Concerns(op: CamOp, uuid: string, slot: int) {
    op.uuid == uuid && (op.Enter? ==> op.info.slot == slot)
  }

  /** Unknown flags say nothing about a CAM. */
  predicate Vague(info: CamInfo) {
    info.present && info.flags == CaOther
  }

  /** The CAM takes as many users as the list says: none if the module is missing, one for a module that
      descrambles one channel or one transponder, and the announced number for the others. Unknown flags say
      nothing. */
  predicate AsListed(info: CamInfo, max: int) {
    if !info.present then max == 0
    else match info.flags
      case CaSingle => max == 1
      case CaMultiSid => max == 1
      case CaMultiTransponder => max == info.maxSids
      case CaOther => true
  }

  /** What the list says about the CAMs of `op` is what the pool has. */
  predicate Agrees(cams: seq<CamSlot>, op: CamOp) {
    match op
    case DropAll(uuid) => forall k :: 0 <= k < |cams| && cams[k].max >= 0 ==> cams[k].uuid != uuid
    case Enter(uuid, info) =>
      !Vague(info) ==> exists k :: 0 <= k < |cams| && IsCam(cams[k], uuid, info.slot) && AsListed(info, cams[k].max)
  }

  /** The live entries are the same, slot by slot. */
  predicate SameLive(cams: seq<CamSlot>, r: seq<CamSlot>) {
    |r| == |cams| && forall k :: 0 <= k < |cams| && (cams[k].max >= 0 || r[k].max >= 0) ==> r[k] == cams[k]
  }

  /** Operation `op` touches no live entry of which it does not speak. */
  predicate Touches(cams: seq<CamSlot>, r: seq<CamSlot>, op: CamOp) {
    |r| == |cams| && forall k :: 0 <= k < |cams| ==>
      || r[k] == cams[k]
      || ((cams[k].max >= 0 ==> Concerns(op, cams[k].uuid, cams[k].slot))
          && (r[k].max >= 0 ==> Concerns(op, r[k].uuid, r[k].slot)))
  }

  predicate Bounded(cams: seq<CamSlot>) {
    forall k :: 0 <= k < |cams| ==> cams[k].max >= -1
  }

  lemma {:induction false} CountFreeCamsUpdate(cams: seq<CamSlot>, k: nat, x: CamSlot)
    requires k < |cams|
    ensures CountFreeCams(cams[k := x]) + Bit(cams[k].max == -1) == CountFreeCams(cams) + Bit(x.max == -1)
  {
    if k == 0 {
      assert cams[k := x][1..] == cams[1..];
    } else {
      assert cams[k := x][1..] == cams[1..][k - 1 := x];
      CountFreeCamsUpdate(cams[1..], k - 1, x);
    }
  }

  lemma {:induction false} SomeCamFree(cams: seq<CamSlot>)
    requires CountFreeCams(cams) > 0
    ensures exists k :: 0 <= k < |cams| && cams[k].max == -1
  {
    assert cams != [];
    if cams[0].max != -1 {
      SomeCamFree(cams[1..]);
      var k :| 0 <= k < |cams[1..]| && cams[1..][k].max == -1;
      assert cams[k + 1].max == -1;
    }
  }

  lemma {:induction false} DroppingFrees(cams: seq<CamSlot>, r: seq<CamSlot>)
    requires |r| == |cams| && forall k :: 0 <= k < |cams| ==> (cams[k].max == -1 ==> r[k].max == -1)
    ensures CountFreeCams(r) >= CountFreeCams(cams)
  {
    if cams != [] {
      DroppingFrees(cams[1..], r[1..]);
    }
  }

  /** Doing one operation makes the pool agree with it, and touches nothing else. */
  lemma DoOne(cams: seq<CamSlot>, op: CamOp)
    requires DistinctCams(cams) && Bounded(cams)
    requires op.Enter? && !HasCam(cams, op.uuid, op.info.slot) ==> CountFreeCams(cams) > 0
    ensures var r := Do(cams, op);
            && DistinctCams(r) && Bounded(r) && Agrees(r, op) && Touches(cams, r, op)
            && CountFreeCams(r) + Bit(IsFirm(cams, op)) >= CountFreeCams(cams)
            && (op.Enter? ==> AddCam(cams, op.uuid, op.info) == Some(r))
            && (op.Enter? && HasCam(cams, op.uuid, op.info.slot) ==> HasCam(r, op.uuid, op.info.slot))
  {
    var r := Do(cams, op);
    match op
    case DropAll(uuid) => DroppingFrees(cams, r);
    case Enter(uuid, info) =>
      assert HasCam(cams, uuid, info.slot) || CountFreeCams(cams) > 0;
      EnterOne(cams, uuid, info);
  }

  /** What entering a listed CAM does. */
  predicate EnteredOne(cams: seq<CamSlot>, r: seq<CamSlot>, uuid: string, info: CamInfo) {
    var op := Enter(uuid, info);
    && DistinctCams(r) && Bounded(r) && Agrees(r, op) && Touches(cams, r, op)
    && CountFreeCams(r) + Bit(IsFirm(cams, op)) >= CountFreeCams(cams)
    && AddCam(cams, uuid, info) == Some(r)
    && (HasCam(cams, uuid, info.slot) ==> HasCam(r, uuid, info.slot))
  }

  lemma EnterOne(cams: seq<CamSlot>, uuid: string, info: CamInfo)
    requires DistinctCams(cams) && Bounded(cams)
    requires !HasCam(cams, uuid, info.slot) ==> CountFreeCams(cams) > 0
    ensures EnteredOne(cams, Do(cams, Enter(uuid, info)), uuid, info)
  {
    if FindCam(cams, uuid, info.slot, 0).Some? {
      EnterKnown(cams, uuid, info);
    } else {
      EnterNew(cams, uuid, info);
    }
  }

  lemma EnterKnown(cams: seq<CamSlot>, uuid: string, info: CamInfo)
    requires DistinctCams(cams) && Bounded(cams) && FindCam(cams, uuid, info.slot, 0).Some?
    ensures EnteredOne(cams, Do(cams, Enter(uuid, info)), uuid, info)
  {
    hide CountFreeCams, DistinctCams;
    var found := FindCam(cams, uuid, info.slot, 0).value;
    var c := cams[found];
    assert IsCam(c, uuid, info.slot);
    var x := c.(max := NewMax(info, c.max));
    CountFreeCamsUpdate(cams, found, x);
    AddCamDistinct(cams, uuid, info);
    assert IsCam(Do(cams, Enter(uuid, info))[found], uuid, info.slot);
    assert !Vague(info) ==> IsCam(x, uuid, info.slot) && AsListed(info, x.max);
  }

  lemma EnterNew(cams: seq<CamSlot>, uuid: string, info: CamInfo)
    requires DistinctCams(cams) && Bounded(cams) && FindCam(cams, uuid, info.slot, 0).None? && CountFreeCams(cams) > 0
    ensures EnteredOne(cams, Do(cams, Enter(uuid, info)), uuid, info)
  {
    hide CountFreeCams, DistinctCams;
    assert !HasCam(cams, uuid, info.slot);
    SomeCamFree(cams);
    var free := FreeCam(cams, 0).value;
    var x := CamSlot(uuid, info.slot, 0, NewMax(info, -1));
    CountFreeCamsUpdate(cams, free, x);
    AddCamDistinct(cams, uuid, info);
    assert Do(cams, Enter(uuid, info))[free] == x;
  }

  /** What the pool agrees with, it still agrees with after an independent operation. */
  lemma AgreesStays(cams: seq<CamSlot>, r: seq<CamSlot>, op: CamOp, other: CamOp)
    requires Touches(cams, r, op) && Independent(op, other) && Agrees(cams, other)
    ensures Agrees(r, other)
  {
  }

  lemma HasCamStays(cams: seq<CamSlot>, r: seq<CamSlot>, op: CamOp, other: CamOp)
    requires Touches(cams, r, op) && Independent(op, other) && other.Enter?
    ensures HasCam(r, other.uuid, other.info.slot) <==> HasCam(cams, other.uuid, other.info.slot)
  {
  }

  lemma {:induction false} MissingCamsSame(cams: seq<CamSlot>, r: seq<CamSlot>, op: CamOp, ops: seq<CamOp>)
    requires Touches(cams, r, op) && forall i :: 0 <= i < |ops| ==> Independent(op, ops[i])
    ensures MissingCams(r, ops) == MissingCams(cams, ops)
    ensures Firm(r, ops) == Firm(cams, ops)
    decreases |ops|
  {
    if ops != [] {
      if ops[0].Enter? {
        HasCamStays(cams, r, op, ops[0]);
      }
      MissingCamsSame(cams, r, op, ops[1..]);
    }
  }

  lemma {:induction false} AgreesThrough(cams: seq<CamSlot>, ops: seq<CamOp>, other: CamOp)
    requires DistinctCams(cams) && Bounded(cams) && DistinctOps(ops) && MissingCams(cams, ops) <= CountFreeCams(cams)
    requires Agrees(cams, other) && forall i :: 0 <= i < |ops| ==> Independent(ops[i], other)
    ensures Agrees(DoAll(cams, ops), other)
    decreases |ops|
  {
    if ops != [] {
      var a := Do(cams, ops[0]);
      DoOne(cams, ops[0]);
      AgreesStays(cams, a, ops[0], other);
      MissingCamsSame(cams, a, ops[0], ops[1..]);
      AgreesThrough(a, ops[1..], other);
    }
  }

  /** After a sweep with enough free slots the CAM pool agrees with the whole list. */
  lemma {:induction false} AgreesAll(cams: seq<CamSlot>, ops: seq<CamOp>)
    requires DistinctCams(cams) && Bounded(cams) && DistinctOps(ops) && MissingCams(cams, ops) <= CountFreeCams(cams)
    ensures var r := DoAll(cams, ops);
            && DistinctCams(r) && Bounded(r)
            && forall i :: 0 <= i < |ops| ==> Agrees(r, ops[i])
    decreases |ops|
  {
    if ops != [] {
      var a, rest := Do(cams, ops[0]), ops[1..];
      DoOne(cams, ops[0]);
      MissingCamsSame(cams, a, ops[0], rest);
      AgreesAll(a, rest);
      IndependentSymmetric(ops);
      AgreesThrough(a, rest, ops[0]);
      forall i | 0 <= i < |ops|
        ensures Agrees(DoAll(cams, ops), ops[i])
      {
        if i > 0 {
          assert ops[i] == rest[i - 1];
        }
      }
    }
  }

  lemma IndependentSymmetric(ops: seq<CamOp>)
    requires ops != [] && DistinctOps(ops)
    ensures forall i :: 0 <= i < |ops[1..]| ==> Independent(ops[1..][i], ops[0]) && Independent(ops[0], ops[1..][i])
  {
  }

  /** Where the pool agrees with an operation, doing it changes no live entry. */
  lemma AgreedNoChange(cams: seq<CamSlot>, op: CamOp)
    requires DistinctCams(cams) && Bounded(cams) && Agrees(cams, op)
    ensures SameLive(cams, Do(cams, op))
  {
  }

  lemma AgreesLive(cams: seq<CamSlot>, r: seq<CamSlot>, op: CamOp)
    requires SameLive(cams, r) && Agrees(cams, op)
    ensures Agrees(r, op)
  {
  }

  /** Where the pool agrees with the whole list, a sweep changes no live entry. */
  lemma {:induction false} AgreedAllNoChange(cams: seq<CamSlot>, ops: seq<CamOp>)
    requires DistinctCams(cams) && Bounded(cams) && forall i :: 0 <= i < |ops| ==> Agrees(cams, ops[i])
    ensures SameLive(cams, DoAll(cams, ops))
    decreases |ops|
  {
    if ops != [] {
      var a := Do(cams, ops[0]);
      AgreedNoChange(cams, ops[0]);
      forall i | 0 <= i < |ops[1..]|
        ensures Agrees(a, ops[1..][i])
      {
        assert ops[1..][i] == ops[i + 1];
        AgreesLive(cams, a, ops[i + 1]);
      }
      assert DistinctCams(a);
      AgreedAllNoChange(a, ops[1..]);
    }
  }

  // --- The sweep as a list of operations -----------------------------------

  lemma {:induction false} MissingCamsSplit(cams: seq<CamSlot>, a: seq<CamOp>, b: seq<CamOp>)
    ensures MissingCams(cams, a + b) == MissingCams(cams, a) + MissingCams(cams, b)
    decreases |a|
  {
    if a == [] {
      assert a + b == b;
    } else {
      assert (a + b)[1..] == a[1..] + b;
      MissingCamsSplit(cams, a[1..], b);
    }
  }

  lemma DistinctOpsParts(a: seq<CamOp>, b: seq<CamOp>)
    requires DistinctOps(a + b)
    ensures DistinctOps(a) && DistinctOps(b)
    ensures a != [] ==> DistinctOps(a[1..] + b)
  {
    var all := a + b;
    forall i, j | 0 <= i < j < |a|
      ensures Independent(a[i], a[j])
    {
      assert Independent(all[i], all[j]);
    }
    forall i, j | 0 <= i < j < |b|
      ensures Independent(b[i], b[j])
    {
      assert Independent(all[|a| + i], all[|a| + j]);
    }
    if a != [] {
      assert a[1..] + b == all[1..];
    }
  }

  /** There is room left for the operations still to come. */
  lemma {:induction false} RoomLeft(cams: seq<CamSlot>, a: seq<CamOp>, b: seq<CamOp>)
    requires DistinctCams(cams) && Bounded(cams) && DistinctOps(a + b)
    requires MissingCams(cams, a + b) <= CountFreeCams(cams)
    ensures var r := DoAll(cams, a);
            DistinctCams(r) && Bounded(r) && MissingCams(r, b) <= CountFreeCams(r)
    decreases |a|
  {
    if a == [] {
      assert a + b == b;
    } else {
      var rest := a[1..] + b;
      assert (a + b)[0] == a[0] && (a + b)[1..] == rest;
      DoOne(cams, a[0]);
      IndependentSymmetric(a + b);
      MissingCamsSame(cams, Do(cams, a[0]), a[0], rest);
      DistinctOpsParts(a, b);
      RoomLeft(Do(cams, a[0]), a[1..], b);
    }
  }

  lemma {:induction false} AddCamsDoes(cams: seq<CamSlot>, uuid: string, infos: seq<CamInfo>)
    requires DistinctCams(cams) && Bounded(cams) && DistinctOps(EnterAll(uuid, infos))
    requires MissingCams(cams, EnterAll(uuid, infos)) <= CountFreeCams(cams)
    ensures AddCams(cams, uuid, infos) == DoAll(cams, EnterAll(uuid, infos))
    decreases |infos|
  {
    if infos != [] {
      var ops := EnterAll(uuid, infos);
      assert ops[0] == Enter(uuid, infos[0]) && ops[1..] == EnterAll(uuid, infos[1..]);
      DoOne(cams, ops[0]);
      IndependentSymmetric(ops);
      MissingCamsSame(cams, Do(cams, ops[0]), ops[0], ops[1..]);
      AddCamsDoes(Do(cams, ops[0]), uuid, infos[1..]);
    }
  }

  lemma {:induction false} SweepDoes(s: Sys, list: seq<Netceiver>)
    requires DistinctCams(s.cams) && Bounded(s.cams) && DistinctOps(CamOps(list))
    requires MissingCams(s.cams, CamOps(list)) <= CountFreeCams(s.cams)
    ensures SweepAll(s, list).cams == DoAll(s.cams, CamOps(list))
    decreases |list|
  {
    if list != [] {
      hide SweepOne, DistinctCams, DistinctOps, MissingCams, CountFreeCams, Bounded;
      SweepOneDoes(s, list[0], CamOps(list[1..]));
      SweepDoes(SweepOne(s, list[0]), list[1..]);
      DoAllSplit(s.cams, CamOpsOf(list[0]), CamOps(list[1..]));
    }
  }

  /** A module of a known kind is listed. */
  predicate ListsModule(infos: seq<CamInfo>) {
    exists j :: 0 <= j < |infos| && infos[j].present
                && (infos[j].flags == CaSingle || infos[j].flags == CaMultiSid || infos[j].flags == CaMultiTransponder)
  }

  lemma {:induction false} AddCamsSees(cams: seq<CamSlot>, uuid: string, infos: seq<CamInfo>)
    requires DistinctCams(cams) && Bounded(cams) && DistinctOps(EnterAll(uuid, infos))
    requires MissingCams(cams, EnterAll(uuid, infos)) <= CountFreeCams(cams)
    ensures SeesCam(cams, uuid, infos) <==> ListsModule(infos)
    decreases |infos|
  {
    if infos != [] {
      var ops := EnterAll(uuid, infos);
      assert ops[0] == Enter(uuid, infos[0]) && ops[1..] == EnterAll(uuid, infos[1..]);
      DoOne(cams, ops[0]);
      IndependentSymmetric(ops);
      MissingCamsSame(cams, Do(cams, ops[0]), ops[0], ops[1..]);
      AddCamsSees(Do(cams, ops[0]), uuid, infos[1..]);
      ListsModuleCons(infos);
    }
  }

  lemma ListsModuleCons(infos: seq<CamInfo>)
    requires infos != []
    ensures ListsModule(infos) <==> (infos[0].present && infos[0].flags != CaOther) || ListsModule(infos[1..])
  {
    if ListsModule(infos[1..]) {
      var j :| 0 <= j < |infos[1..]| && infos[1..][j].present && infos[1..][j].flags != CaOther;
      assert infos[j + 1] == infos[1..][j];
    }
    assert forall j :: 1 <= j < |infos| ==> infos[j] == infos[1..][j - 1];
  }

  /** One netceiver of the list, and what is left for the others. */
  lemma SweepOneDoes(s: Sys, n: Netceiver, rest: seq<CamOp>)
    requires DistinctCams(s.cams) && Bounded(s.cams) && DistinctOps(CamOpsOf(n) + rest)
    requires MissingCams(s.cams, CamOpsOf(n) + rest) <= CountFreeCams(s.cams)
    ensures var r := SweepOne(s, n);
            && DistinctCams(r.cams) && Bounded(r.cams) && DistinctOps(rest)
            && MissingCams(r.cams, rest) <= CountFreeCams(r.cams)
            && r.cams == DoAll(s.cams, CamOpsOf(n))
            && (r.camPresent <==> s.camPresent || (!n.stale && ListsModule(n.cams)))
  {
    hide ListsModule, SweepTuners, SeesCam, DistinctCams, DistinctOps, MissingCams, CountFreeCams, AddCams, Bounded;
    var ops := CamOpsOf(n);
    DistinctOpsParts(ops, rest);
    MissingCamsSplit(s.cams, ops, rest);
    if n.stale {
      assert DoAll(s.cams, ops) == Do(s.cams, ops[0]);
    } else {
      AddCamsDoes(s.cams, n.uuid, n.cams);
      AddCamsSees(s.cams, n.uuid, n.cams);
    }
    RoomLeft(s.cams, ops, rest);
  }

  predicate ModuleListed(list: seq<Netceiver>) {
    exists n :: 0 <= n < |list| && !list[n].stale && ListsModule(list[n].cams)
  }

  lemma ModuleListedCons(list: seq<Netceiver>)
    requires list != []
    ensures ModuleListed(list) <==> (!list[0].stale && ListsModule(list[0].cams)) || ModuleListed(list[1..])
  {
    hide ListsModule;
    assert forall k :: 1 <= k < |list| ==> list[k] == list[1..][k - 1];
    if ModuleListed(list[1..]) {
      var n :| 0 <= n < |list[1..]| && !list[1..][n].stale && ListsModule(list[1..][n].cams);
      assert list[n + 1] == list[1..][n];
    }
  }

  /** From a sweep on there is a CAM, for CheckCAM, if there was one before or a netceiver that is not silent lists
      a module of a known kind. */
  lemma {:induction false} CamPresentIff(s: Sys, list: seq<Netceiver>)
    requires DistinctCams(s.cams) && Bounded(s.cams) && DistinctOps(CamOps(list))
    requires MissingCams(s.cams, CamOps(list)) <= CountFreeCams(s.cams)
    ensures SweepAll(s, list).camPresent <==> s.camPresent || ModuleListed(list)
    decreases |list|
  {
    if list != [] {
      hide SweepOne, ListsModule, ModuleListed, DistinctCams, DistinctOps, MissingCams, CountFreeCams, Bounded;
      SweepOneDoes(s, list[0], CamOps(list[1..]));
      CamPresentIff(SweepOne(s, list[0]), list[1..]);
      ModuleListedCons(list);
    }
  }

  lemma {:induction false} HasCamThrough(cams: seq<CamSlot>, ops: seq<CamOp>, other: CamOp)
    requires DistinctCams(cams) && Bounded(cams) && DistinctOps(ops) && MissingCams(cams, ops) <= CountFreeCams(cams)
    requires other.Enter? && forall i :: 0 <= i < |ops| ==> Independent(ops[i], other)
    ensures HasCam(DoAll(cams, ops), other.uuid, other.info.slot) <==> HasCam(cams, other.uuid, other.info.slot)
    decreases |ops|
  {
    if ops != [] {
      var a := Do(cams, ops[0]);
      DoOne(cams, ops[0]);
      HasCamStays(cams, a, ops[0], other);
      MissingCamsSame(cams, a, ops[0], ops[1..]);
      HasCamThrough(a, ops[1..], other);
    }
  }

  /** After a sweep there is room for another one: only CAMs of unknown flags are still missing. */
  lemma {:induction false} RoomAgain(cams: seq<CamSlot>, ops: seq<CamOp>)
    requires DistinctCams(cams) && Bounded(cams) && DistinctOps(ops) && MissingCams(cams, ops) <= CountFreeCams(cams)
    ensures var r := DoAll(cams, ops);
            && CountFreeCams(r) + Firm(cams, ops) >= CountFreeCams(cams)
            && MissingCams(r, ops) + Firm(cams, ops) <= MissingCams(cams, ops)
    decreases |ops|
  {
    if ops != [] {
      var a, op, rest := Do(cams, ops[0]), ops[0], ops[1..];
      DoOne(cams, op);
      IndependentSymmetric(ops);
      MissingCamsSame(cams, a, op, rest);
      RoomAgain(a, rest);
      if op.Enter? {
        HasCamThrough(a, rest, op);
        if !Vague(op.info) {
          assert HasCam(a, op.uuid, op.info.slot);
        }
      }
    }
  }

  /** The list removes the CAMs of this netceiver. */
  predicate Silenced(ops: seq<CamOp>, uuid: string) {
    exists i :: 0 <= i < |ops| && ops[i] == DropAll(uuid)
  }

  /** Some operation speaks of this CAM. */
  predicate Listed(ops: seq<CamOp>, uuid: string, slot: int) {
    exists i :: 0 <= i < |ops| && Concerns(ops[i], uuid, slot)
  }

  /** A known CAM whose netceiver is not silent stays in its slot with its users; one of which the list does
      not speak stays wholly as it is. */
  lemma {:induction false} KnownCamStays(cams: seq<CamSlot>, ops: seq<CamOp>, k: nat)
    requires k < |cams| && cams[k].max >= 0 && !Silenced(ops, cams[k].uuid)
    ensures var r := DoAll(cams, ops)[k];
            && r.max >= 0 && r == cams[k].(max := r.max)
            && (!Listed(ops, cams[k].uuid, cams[k].slot) ==> r == cams[k])
    decreases |ops|
  {
    if ops != [] {
      var a, rest := Do(cams, ops[0]), ops[1..];
      assert ops[0] != DropAll(cams[k].uuid);
      assert a[k].max >= 0 && a[k] == cams[k].(max := a[k].max);
      assert forall i :: 0 <= i < |rest| ==> rest[i] == ops[i + 1];
      KnownCamStays(a, rest, k);
      if !Listed(ops, cams[k].uuid, cams[k].slot) {
        assert !Concerns(ops[0], cams[k].uuid, cams[k].slot);
      }
    }
  }

  /** The sweep brings the CAM pool into agreement with the list: every CAM of a fresh netceiver is
      entered with its number of users, every silent netceiver has none left. Known CAMs keep their slots
      and their users, and those that are not listed stay wholly as they are. A second sweep with the
      same list changes no live entry. */
  lemma CamsReconciled(s: Sys, list: seq<Netceiver>)
    requires DistinctCams(s.cams) && Bounded(s.cams) && DistinctOps(CamOps(list))
    requires MissingCams(s.cams, CamOps(list)) <= CountFreeCams(s.cams)
    ensures var r := SweepAll(s, list);
            && (forall i :: 0 <= i < |CamOps(list)| ==> Agrees(r.cams, CamOps(list)[i]))
            && (forall k :: 0 <= k < |s.cams| && s.cams[k].max >= 0 && !Silenced(CamOps(list), s.cams[k].uuid) ==>
                 && r.cams[k].max >= 0 && r.cams[k] == s.cams[k].(max := r.cams[k].max)
                 && (!Listed(CamOps(list), s.cams[k].uuid, s.cams[k].slot) ==> r.cams[k] == s.cams[k]))
            && SameLive(r.cams, SweepAll(r, list).cams)
  {
    var r := SweepAll(s, list);
    var ops := CamOps(list);
    SweepDoes(s, list);
    AgreesAll(s.cams, ops);
    forall k | 0 <= k < |s.cams| && s.cams[k].max >= 0 && !Silenced(ops, s.cams[k].uuid)
      ensures r.cams[k].max >= 0 && r.cams[k] == s.cams[k].(max := r.cams[k].max)
      ensures !Listed(ops, s.cams[k].uuid, s.cams[k].slot) ==> r.cams[k] == s.cams[k]
    {
      KnownCamStays(s.cams, ops, k);
    }
    RoomAgain(s.cams, ops);
    SweepDoes(r, list);
    AgreedAllNoChange(r.cams, ops);
  }
}

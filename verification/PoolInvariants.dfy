/** What the pools and the devices keep among themselves, over the four elementary changes from which
    all steps are made: taking and giving back a tuner, taking and giving back a CAM. */
module PoolInvariants {
  import opened Wrappers
  import opened Pools

  predicate Holds(s: Sys, i: nat, k: nat)
    requires i < |s.devs|
  {
    s.devs[i].tuner == Some(k)
  }

  /** A tuner slot is in use if and only if exactly one device refers to it. */
  ghost predicate Exclusive(s: Sys) {
    && (forall i: nat, j: nat, k: nat :: i < j < |s.devs| && k < |s.tuners| && Holds(s, i, k) ==> !Holds(s, j, k))
    && (forall k: nat :: k < |s.tuners| ==> (s.tuners[k].inuse <==> exists i: nat :: i < |s.devs| && Holds(s, i, k)))
  }

  /** How many devices refer to CAM slot `k`. */
  function Refs(devs: seq<Device>, k: nat): nat {
    if devs == [] then 0 else Bit(devs[0].cam == Some(k)) + Refs(devs[1..], k)
  }

  /** A CAM is never counted as used more often than devices refer to it. */
  predicate CamsCounted(s: Sys) {
    forall k :: 0 <= k < |s.cams| ==> 0 <= s.cams[k].use <= Refs(s.devs, k)
  }

  /** What holds in every reachable state, hot-plug and reconfiguration included. */
  ghost predicate Inv(s: Sys) {
    WellFormed(s) && Exclusive(s) && CamsCounted(s)
  }

  /** A tuner in use is of the type its device believes. */
  predicate TypesAgree(s: Sys)
    requires WellFormed(s)
  {
    forall i :: 0 <= i < |s.devs| && s.devs[i].tuner.Some? ==>
      s.devs[i].fetype.Some? && s.tuners[s.devs[i].tuner.value].kind == s.devs[i].fetype
  }

  ghost predicate WithinLimits(s: Sys) {
    forall t: FeType :: CountInUse(s.tuners, Some(t)) <= s.limit(Some(t))
  }

  /** What holds as long as no tuner in use is removed from the pool and the limits are constant. */
  ghost predicate Strict(s: Sys)
    requires WellFormed(s)
  {
    TypesAgree(s) && WithinLimits(s)
  }

  /** Every use count is the number of devices that refer to the CAM. Only entering a CAM into a slot that
      still has users can break this. */
  predicate Counted(s: Sys) {
    forall k :: 0 <= k < |s.cams| ==> s.cams[k].use == Refs(s.devs, k)
  }

  /** No slot that describes no CAM has users. Only removing a CAM under its users can break this. */
  predicate EmptyUnused(s: Sys) {
    forall k :: 0 <= k < |s.cams| && s.cams[k].max < 0 ==> s.cams[k].use == 0
  }

  /** What holds as long as no CAM is removed under its users: no slot that could be given to another CAM
      has users, so the counts stay the numbers of devices. */
  predicate CamsExact(s: Sys) {
    Counted(s) && EmptyUnused(s)
  }

  /** What holds as long as no CAM shrinks below its users. */
  predicate CamsWithin(s: Sys) {
    forall k :: 0 <= k < |s.cams| && s.cams[k].max >= 0 ==> s.cams[k].use <= s.cams[k].max
  }

  // --- Counting ----------------------------------------------------------

  lemma {:induction false} RefsUpdate(devs: seq<Device>, i: nat, d: Device, k: nat)
    requires i < |devs|
    ensures Refs(devs[i := d], k) + Bit(devs[i].cam == Some(k)) == Refs(devs, k) + Bit(d.cam == Some(k))
  {
    if i == 0 {
      assert devs[i := d][1..] == devs[1..];
    } else {
      assert devs[i := d][1..] == devs[1..][i - 1 := d];
      RefsUpdate(devs[1..], i - 1, d, k);
    }
  }

  lemma {:induction false} RefsPositive(devs: seq<Device>, i: nat, k: nat)
    requires i < |devs| && devs[i].cam == Some(k)
    ensures Refs(devs, k) >= 1
  {
    if i > 0 {
      RefsPositive(devs[1..], i - 1, k);
    }
  }

  lemma {:induction false} RefsZero(devs: seq<Device>, k: nat)
    requires forall i :: 0 <= i < |devs| ==> devs[i].cam != Some(k)
    ensures Refs(devs, k) == 0
  {
    if devs != [] {
      RefsZero(devs[1..], k);
    }
  }

  lemma {:induction false} CountUpdate(ts: seq<TunerSlot>, k: nat, x: TunerSlot, t: Option<FeType>)
    requires k < |ts|
    ensures CountInUse(ts[k := x], t) + Bit(ts[k].inuse && ts[k].kind == t)
            == CountInUse(ts, t) + Bit(x.inuse && x.kind == t)
  {
    if k == 0 {
      assert ts[k := x][1..] == ts[1..];
    } else {
      assert ts[k := x][1..] == ts[1..][k - 1 := x];
      CountUpdate(ts[1..], k - 1, x, t);
    }
  }

  // --- Changes that touch no reference -----------------------------------

  /** The fields that hold the references are the same. */
  predicate SameRefs(d: Device, e: Device) {
    && e.tuner == d.tuner && e.cam == d.cam && e.caEnable == d.caEnable
    && (d.tuner.Some? ==> e.fetype == d.fetype)
  }

  /** What the pools describe is the same, whoever uses it. */
  ghost predicate SameEntries(s: Sys, r: Sys) {
    && |r.devs| == |s.devs| && |r.cams| == |s.cams| && |r.tuners| == |s.tuners|
    && r.limit == s.limit && r.covers == s.covers
    && (forall k :: 0 <= k < |s.tuners| ==>
         r.tuners[k].kind == s.tuners[k].kind && r.tuners[k].uuid == s.tuners[k].uuid
         && r.tuners[k].satList == s.tuners[k].satList)
    && (forall k :: 0 <= k < |s.cams| ==>
         r.cams[k].uuid == s.cams[k].uuid && r.cams[k].slot == s.cams[k].slot && r.cams[k].max == s.cams[k].max)
  }

  /** `s` becomes `r`, and what held of `s` holds of `r`; types and limits only if `known`. */
  ghost predicate KeepsIf(s: Sys, r: Sys, known: bool)
    requires WellFormed(s)
  {
    && WellFormed(r) && SameEntries(s, r)
    && (Exclusive(s) ==> Exclusive(r))
    && (CamsCounted(s) ==> CamsCounted(r))
    && (Counted(s) ==> Counted(r))
    && (EmptyUnused(s) ==> EmptyUnused(r))
    && (CamsWithin(s) ==> CamsWithin(r))
    && (known && Strict(s) ==> Strict(r))
  }

  ghost predicate Keeps(s: Sys, r: Sys)
    requires WellFormed(s)
  {
    KeepsIf(s, r, true)
  }

  lemma KeepsIfThen(s: Sys, a: Sys, r: Sys, known: bool)
    requires WellFormed(s) && KeepsIf(s, a, known) && KeepsIf(a, r, known)
    ensures KeepsIf(s, r, known)
  {
  }

  lemma KeepsThen(s: Sys, a: Sys, r: Sys)
    requires WellFormed(s) && Keeps(s, a) && Keeps(a, r)
    ensures Keeps(s, r)
  {
  }

  lemma KeepsSelf(s: Sys)
    requires WellFormed(s)
    ensures Keeps(s, s)
  {
  }

  lemma {:induction false} RefsSame(devs: seq<Device>, i: nat, d: Device, k: nat)
    requires i < |devs| && d.cam == devs[i].cam
    ensures Refs(devs[i := d], k) == Refs(devs, k)
  {
    RefsUpdate(devs, i, d, k);
  }

  lemma TouchKeeps(s: Sys, i: nat, d: Device)
    requires WellFormed(s) && i < |s.devs| && SameRefs(s.devs[i], d)
    ensures Keeps(s, WithDev(s, i, d))
  {
    var r := WithDev(s, i, d);
    forall k | 0 <= k < |s.cams|
      ensures Refs(r.devs, k) == Refs(s.devs, k)
    {
      RefsSame(s.devs, i, d, k);
    }
    TouchExclusive(s, i, d);
  }

  lemma TouchExclusive(s: Sys, i: nat, d: Device)
    requires i < |s.devs| && d.tuner == s.devs[i].tuner
    ensures Exclusive(s) ==> Exclusive(WithDev(s, i, d))
  {
    var r := WithDev(s, i, d);
    assert forall j: nat, k: nat :: j < |s.devs| ==> (Holds(r, j, k) <==> Holds(s, j, k));
  }

  // --- CAMs --------------------------------------------------------------

  lemma TakeCamKeeps(s: Sys, i: nat, k: nat, slot: int)
    requires WellFormed(s) && i < |s.devs| && !s.devs[i].caEnable && k < |s.cams| && CamFits(s.cams[k], slot)
    ensures Keeps(s, TakeCam(s, i, k))
  {
    var r := TakeCam(s, i, k);
    forall j: nat | j < |s.cams|
      ensures Refs(r.devs, j) == Refs(s.devs, j) + Bit(j == k)
    {
      RefsUpdate(s.devs, i, r.devs[i], j);
    }
    SameTuners(s, r, i);
  }

  /** A change of CAM references says nothing about tuners. */
  lemma SameTuners(s: Sys, r: Sys, i: nat)
    requires WellFormed(s) && WellFormed(r) && i < |s.devs| == |r.devs|
    requires r.tuners == s.tuners && r.limit == s.limit
    requires r.devs == s.devs[i := r.devs[i]]
    requires r.devs[i].tuner == s.devs[i].tuner && r.devs[i].fetype == s.devs[i].fetype
    ensures Exclusive(s) ==> Exclusive(r)
    ensures Strict(s) ==> Strict(r)
  {
    assert forall j: nat, k: nat :: j < |s.devs| ==> (Holds(r, j, k) <==> Holds(s, j, k));
  }

  lemma ReleaseCamKeeps(s: Sys, i: nat)
    requires WellFormed(s) && i < |s.devs|
    ensures Keeps(s, ReleaseCam(s, i))
  {
    if s.devs[i].caEnable {
      var r := ReleaseCam(s, i);
      var k := s.devs[i].cam.value;
      forall j: nat | j < |s.cams|
        ensures Refs(r.devs, j) + Bit(j == k) == Refs(s.devs, j)
      {
        RefsUpdate(s.devs, i, r.devs[i], j);
      }
      RefsPositive(s.devs, i, k);
      SameTuners(s, r, i);
    }
  }

  // --- Tuners ------------------------------------------------------------

  lemma SameCams(s: Sys, r: Sys, i: nat)
    requires i < |s.devs| == |r.devs|
    requires r.cams == s.cams && r.devs == s.devs[i := r.devs[i]] && r.devs[i].cam == s.devs[i].cam
    ensures CamsCounted(s) ==> CamsCounted(r)
    ensures Counted(s) ==> Counted(r)
  {
    forall k: nat | k < |s.cams|
      ensures Refs(r.devs, k) == Refs(s.devs, k)
    {
      RefsSame(s.devs, i, r.devs[i], k);
    }
  }

  lemma ReleaseTunerExclusive(s: Sys, i: nat)
    requires WellFormed(s) && i < |s.devs| && s.devs[i].tuner.Some? && Exclusive(s)
    ensures Exclusive(ReleaseTuner(s, i))
  {
    var r := ReleaseTuner(s, i);
    var k := s.devs[i].tuner.value;
    assert Holds(s, i, k);
    forall j: nat, n: nat | j < |s.devs| && n < |s.tuners|
      ensures Holds(r, j, n) <==> j != i && Holds(s, j, n)
    {
    }
    forall n: nat | n < |s.tuners|
      ensures r.tuners[n].inuse <==> exists j: nat :: j < |r.devs| && Holds(r, j, n)
    {
      if n == k {
        assert forall j: nat :: j < |s.devs| && j != i ==> !Holds(s, j, k);
      } else if s.tuners[n].inuse {
        var j: nat :| j < |s.devs| && Holds(s, j, n);
        assert j != i;
        assert Holds(r, j, n);
      }
    }
  }

  lemma ReleaseTunerKeeps(s: Sys, i: nat)
    requires WellFormed(s) && i < |s.devs|
    ensures Keeps(s, ReleaseTuner(s, i))
  {
    if s.devs[i].tuner.Some? {
      var r := ReleaseTuner(s, i);
      SameCams(s, r, i);
      if Exclusive(s) {
        ReleaseTunerExclusive(s, i);
      }
      var k := s.devs[i].tuner.value;
      forall t: FeType
        ensures CountInUse(r.tuners, Some(t)) <= CountInUse(s.tuners, Some(t))
      {
        CountUpdate(s.tuners, k, r.tuners[k], Some(t));
      }
    }
  }

  lemma TakeTunerExclusive(s: Sys, i: nat, k: nat, t: Option<FeType>)
    requires WellFormed(s) && i < |s.devs| && s.devs[i].tuner.None? && Exclusive(s)
    requires k < |s.tuners| && !s.tuners[k].inuse
    ensures Exclusive(TakeTuner(s, i, k, t))
  {
    var r := TakeTuner(s, i, k, t);
    assert forall j: nat :: j < |s.devs| ==> !Holds(s, j, k);
    forall j: nat, n: nat | j < |s.devs| && n < |s.tuners|
      ensures Holds(r, j, n) <==> (j == i && n == k) || (j != i && Holds(s, j, n))
    {
    }
    forall n: nat | n < |s.tuners|
      ensures r.tuners[n].inuse <==> exists j: nat :: j < |r.devs| && Holds(r, j, n)
    {
      if n == k {
        assert Holds(r, i, k);
      } else if s.tuners[n].inuse {
        var j: nat :| j < |s.devs| && Holds(s, j, n);
        assert j != i;
        assert Holds(r, j, n);
      }
    }
  }

  /** Taking a tuner that TunerAvailable offers. */
  lemma TakeTunerKeeps(s: Sys, i: nat, k: nat, t: Option<FeType>, pos: Option<int>)
    requires WellFormed(s) && i < |s.devs| && s.devs[i].tuner.None?
    requires TunerAvailable(s, t, pos) == Some(k)
    ensures KeepsIf(s, TakeTuner(s, i, k, t), t.Some?)
  {
    var r := TakeTuner(s, i, k, t);
    SameCams(s, r, i);
    if Exclusive(s) {
      TakeTunerExclusive(s, i, k, t);
    }
    if t.Some? && Strict(s) {
      forall u: FeType
        ensures CountInUse(r.tuners, Some(u)) <= s.limit(Some(u))
      {
        CountUpdate(s.tuners, k, r.tuners[k], Some(u));
      }
    }
  }
}

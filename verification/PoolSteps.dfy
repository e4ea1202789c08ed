/** Everything that devices do keeps the invariants. */
module PoolSteps {
  import opened Wrappers
  import opened Pools
  import opened PoolInvariants

  lemma ReleaseKeeps(s: Sys, i: nat)
    requires WellFormed(s) && i < |s.devs|
    ensures Keeps(s, Release(s, i))
  {
    var a := ReleaseCam(s, i);
    var b := ReleaseTuner(a, i);
    ReleaseCamKeeps(s, i);
    ReleaseTunerKeeps(a, i);
    KeepsThen(s, a, b);
    var d := b.devs[i].(tuned := false, fetype := if s.devs[i].tuner.Some? then None else s.devs[i].fetype);
    TouchKeeps(b, i, d);
    KeepsThen(s, b, WithDev(b, i, d));
  }

  lemma SetEnableKeeps(s: Sys, i: nat, val: bool)
    requires WellFormed(s) && i < |s.devs|
    ensures Keeps(s, SetEnable(s, i, val))
  {
    var e := WithDev(s, i, s.devs[i].(enable := val));
    TouchKeeps(s, i, e.devs[i]);
    var d := e.devs[i];
    if !val {
      ReleaseKeeps(e, i);
      KeepsThen(s, e, Release(e, i));
    } else if d.tuner.None? {
      var t := ChannelType(d.chan);
      if CanObtain(e, t, d.chan.pos) {
        var f := WithDev(e, i, d.(fetype := Obtainable(e, t, d.chan.pos), tuned := true));
        TouchKeeps(e, i, f.devs[i]);
        KeepsThen(s, e, f);
        var slot := SlotOf(d.chan.ca);
        var c := CamAvailable(f, slot);
        if (d.chan.ca != 0 || s.triggerCam) && !d.caEnable && c.Some? {
          TakeCamKeeps(f, i, c.value, slot);
          KeepsThen(s, f, TakeCam(f, i, c.value));
        }
      }
    }
  }

  lemma CheckCamKeeps(s: Sys, i: nat, ch: Channel, steal: bool)
    requires WellFormed(s) && i < |s.devs|
    ensures Keeps(s, CheckCam(s, i, ch, steal).s)
  {
    KeepsSelf(s);
    var v := FirstVictim(s, SlotOf(ch.ca), 0);
    if v.Some? {
      ReleaseKeeps(s, v.value);
    }
  }

  lemma CamPartKeeps(s: Sys, i: nat, ch: Channel, live: bool)
    requires WellFormed(s) && i < |s.devs|
    ensures Keeps(s, CamPart(s, i, ch, live).s)
  {
    KeepsSelf(s);
    CheckCamKeeps(s, i, ch, true);
    var force := s.camPresent && live;
    var checked := if force then CheckCam(s, i, ch, true) else Checked(s, true);
    if checked.ok {
      var a := checked.s;
      var slot := SlotOf(ch.ca);
      var c := CamAvailable(a, slot);
      if !a.devs[i].caEnable && c.Some? {
        TakeCamKeeps(a, i, c.value, slot);
        KeepsThen(s, a, TakeCam(a, i, c.value));
      }
    }
  }

  lemma AcquireKeeps(s: Sys, i: nat, t: Option<FeType>, pos: Option<int>)
    requires WellFormed(s) && i < |s.devs| && s.devs[i].tuner.None?
    ensures KeepsIf(s, Acquire(s, i, t, pos), t.Some?)
  {
    var k := TunerAvailable(s, t, pos);
    if k.Some? {
      TakeTunerKeeps(s, i, k.value, t, pos);
    } else {
      var k2 := TunerAvailable(s, Some(DVBS2), pos);
      if k2.Some? {
        TakeTunerKeeps(s, i, k2.value, Some(DVBS2), pos);
      }
    }
  }

  lemma TunerPartKeeps(s: Sys, i: nat, ch: Channel)
    requires WellFormed(s) && i < |s.devs|
    ensures KeepsIf(s, TunerPart(s, i, ch), ch.s2 || ch.source != OtherSource)
  {
    hide Acquire, ReleaseTuner, Unsuited, Exclusive, CamsCounted, Counted, EmptyUnused, CamsWithin, Strict;
    var known := ch.s2 || ch.source != OtherSource;
    var a := if Unsuited(s, i, ch) then ReleaseTuner(s, i) else s;
    KeepsSelf(s);
    ReleaseTunerKeeps(s, i);
    if a.devs[i].tuner.None? {
      var b := WithDev(a, i, a.devs[i].(tuned := false));
      TouchKeeps(a, i, b.devs[i]);
      KeepsThen(s, a, b);
      var t := SoughtType(s.devs[i], ch);
      AcquireKeeps(b, i, t, ch.pos);
      KeepsIfThen(s, b, Acquire(b, i, t, ch.pos), known);
    }
  }

  lemma TuneInKeeps(s: Sys, i: nat, ch: Channel, sameTransponder: bool)
    requires WellFormed(s) && i < |s.devs|
    ensures KeepsIf(s, TuneIn(s, i, ch, sameTransponder).s, ch.s2 || ch.source != OtherSource)
  {
    var t := TunerPart(s, i, ch);
    TunerPartKeeps(s, i, ch);
    FinishKeeps(t, i, ch, sameTransponder);
    KeepsIfThen(s, t, Finish(t, i, ch, sameTransponder).s, ch.s2 || ch.source != OtherSource);
  }

  lemma FinishKeeps(t: Sys, i: nat, ch: Channel, sameTransponder: bool)
    requires WellFormed(t) && i < |t.devs|
    ensures Keeps(t, Finish(t, i, ch, sameTransponder).s)
  {
    var r := Finish(t, i, ch, sameTransponder).s;
    KeepsSelf(t);
    TouchKeeps(t, i, r.devs[i]);
  }

  lemma SetChannelKeeps(s: Sys, i: nat, ch: Channel, live: bool, sameTransponder: bool)
    requires WellFormed(s) && i < |s.devs|
    ensures KeepsIf(s, SetChannel(s, i, ch, live, sameTransponder).s, ch.s2 || ch.source != OtherSource)
  {
    KeepsSelf(s);
    if s.devs[i].enable {
      var c := CamPart(s, i, ch, live);
      CamPartKeeps(s, i, ch, live);
      if c.ok {
        TuneInKeeps(c.s, i, ch, sameTransponder);
        KeepsIfThen(s, c.s, TuneIn(c.s, i, ch, sameTransponder).s, ch.s2 || ch.source != OtherSource);
      }
    }
  }

  // --- Only the device itself changes --------------------------------------

  lemma ReleaseOnly(s: Sys, i: nat)
    requires WellFormed(s) && i < |s.devs|
    ensures var r := Release(s, i); r.devs == s.devs[i := r.devs[i]]
  {
    hide Release;
    ReleaseGivesBack(s, i);
  }

  lemma SetEnableOnly(s: Sys, i: nat, val: bool)
    requires WellFormed(s) && i < |s.devs|
    ensures var r := SetEnable(s, i, val); r.devs == s.devs[i := r.devs[i]]
  {
    ReleaseOnly(WithDev(s, i, s.devs[i].(enable := val)), i);
  }

  lemma TunerPartOnly(s: Sys, i: nat, ch: Channel)
    requires WellFormed(s) && i < |s.devs|
    ensures var r := TunerPart(s, i, ch); r.devs == s.devs[i := r.devs[i]]
  {
  }

  /** CheckCAM leaves the device itself as it is: it robs it of no CAM that would do. */
  lemma CheckCamSpares(s: Sys, i: nat, ch: Channel)
    requires WellFormed(s) && i < |s.devs|
    ensures var r := CheckCam(s, i, ch, true);
            |r.s.devs| == |s.devs| && r.s.devs[i] == s.devs[i]
  {
    hide CamAvailable, FirstVictim;
    var v := FirstVictim(s, SlotOf(ch.ca), 0);
    if v.Some? {
      ReleaseOnly(s, v.value);
    }
  }

  /** Of the device itself the CAM part changes what it says about its CAM. */
  lemma CamPartFields(s: Sys, i: nat, ch: Channel, live: bool)
    requires WellFormed(s) && i < |s.devs|
    ensures var e := CamPart(s, i, ch, live).s.devs[i];
            e == s.devs[i].(cam := e.cam, caEnable := e.caEnable)
  {
    hide CamAvailable, CheckCam;
    CheckCamSpares(s, i, ch);
  }

  lemma TakenFields(s: Sys, i: nat, k: nat, t: Option<FeType>)
    requires i < |s.devs| && k < |s.tuners|
    ensures TakeTuner(s, i, k, t).devs[i] == s.devs[i].(tuner := Some(k), fetype := t)
    ensures TakeTuner(s, i, k, t).tuners == s.tuners[k := s.tuners[k].(inuse := true)]
  {
  }

  lemma AcquireFields(s: Sys, i: nat, t: Option<FeType>, pos: Option<int>)
    requires WellFormed(s) && i < |s.devs|
    ensures var e := Acquire(s, i, t, pos).devs[i];
            e == s.devs[i].(tuner := e.tuner, fetype := e.fetype)
  {
    hide TunerAvailable, TakeTuner;
    var k, k2 := TunerAvailable(s, t, pos), TunerAvailable(s, Some(DVBS2), pos);
    if k.Some? {
      TakenFields(s, i, k.value, t);
    } else if t == Some(QPSK) && k2.Some? {
      TakenFields(s, i, k2.value, Some(DVBS2));
    }
  }

  lemma ReleaseTunerFields(s: Sys, i: nat)
    requires WellFormed(s) && i < |s.devs|
    ensures ReleaseTuner(s, i).devs[i] == s.devs[i].(tuner := None)
  {
  }

  /** The tuner part changes what it says about its tuner; without one it is not tuned. */
  lemma TunerPartFields(s: Sys, i: nat, ch: Channel)
    requires WellFormed(s) && i < |s.devs|
    ensures var e := TunerPart(s, i, ch).devs[i];
            && e == s.devs[i].(tuner := e.tuner, fetype := e.fetype, tuned := e.tuned)
            && (e.tuner.None? ==> !e.tuned)
  {
    hide Acquire, Unsuited, SoughtType, ReleaseTuner;
    var a := if Unsuited(s, i, ch) then ReleaseTuner(s, i) else s;
    ReleaseTunerFields(s, i);
    AcquireFields(WithDev(a, i, a.devs[i].(tuned := false)), i, SoughtType(s.devs[i], ch), ch.pos);
  }

  // --- Giving back ---------------------------------------------------------

  /** Device `i` has given its tuner and its CAM back and is not tuned; nothing else has changed. */
  ghost predicate GaveBack(s: Sys, r: Sys, i: nat)
    requires WellFormed(s) && i < |s.devs|
  {
    var d := s.devs[i];
    && r == s.(tuners := r.tuners, cams := r.cams, devs := r.devs)
    && r.devs == s.devs[i := d.(tuner := None, cam := None, caEnable := false, tuned := false,
                                fetype := if d.tuner.Some? then None else d.fetype)]
    && |r.tuners| == |s.tuners| && |r.cams| == |s.cams|
    && (forall k :: 0 <= k < |s.tuners| ==>
         r.tuners[k] == if d.tuner == Some(k) then s.tuners[k].(inuse := false) else s.tuners[k])
    && (forall k :: 0 <= k < |s.cams| ==>
         && r.cams[k] == s.cams[k].(use := r.cams[k].use)
         && (d.cam != Some(k) || s.cams[k].use <= 0 ==> r.cams[k].use == s.cams[k].use)
         && (d.cam == Some(k) && s.cams[k].use > 0 ==> r.cams[k].use == s.cams[k].use - 1))
  }

  /** SetTempDisable takes tuner and CAM from a device that is idle or has to give them back, and leaves a busy
      one alone. */
  lemma TempDisableGivesBack(s: Sys, i: nat, idle: bool, now: bool)
    requires WellFormed(s) && i < |s.devs|
    ensures var r := SetTempDisable(s, i, idle, now);
            if idle || now then GaveBack(s, r, i) else r == s
  {
    ReleaseGivesBack(s, i);
  }

  lemma ReleaseGivesBack(s: Sys, i: nat)
    requires WellFormed(s) && i < |s.devs|
    ensures GaveBack(s, Release(s, i), i)
  {
    hide ReleaseCam, ReleaseTuner, WellFormed;
    ReleaseCamGivesBack(s, i);
    ReleaseTunerGivesBack(ReleaseCam(s, i), i);
  }

  lemma ReleaseTunerGivesBack(s: Sys, i: nat)
    requires WellFormed(s) && i < |s.devs|
    ensures var d, r := s.devs[i], ReleaseTuner(s, i);
            && r == s.(tuners := r.tuners, devs := s.devs[i := d.(tuner := None)])
            && (forall k :: 0 <= k < |s.tuners| ==>
                 r.tuners[k] == if d.tuner == Some(k) then s.tuners[k].(inuse := false) else s.tuners[k])
  {
  }

  lemma ReleaseCamGivesBack(s: Sys, i: nat)
    requires WellFormed(s) && i < |s.devs|
    ensures var d, r := s.devs[i], ReleaseCam(s, i);
            && r == s.(cams := r.cams, devs := s.devs[i := d.(cam := None, caEnable := false)])
            && (forall k :: 0 <= k < |s.cams| ==>
                 && r.cams[k] == s.cams[k].(use := r.cams[k].use)
                 && (d.cam != Some(k) || s.cams[k].use <= 0 ==> r.cams[k].use == s.cams[k].use)
                 && (d.cam == Some(k) && s.cams[k].use > 0 ==> r.cams[k].use == s.cams[k].use - 1))
  {
  }

  /** So does disabling. */
  lemma DisableGivesBack(s: Sys, i: nat)
    requires WellFormed(s) && i < |s.devs|
    ensures GaveBack(WithDev(s, i, s.devs[i].(enable := false)), SetEnable(s, i, false), i)
  {
    ReleaseGivesBack(WithDev(s, i, s.devs[i].(enable := false)), i);
  }

  // --- UpdateDevices -----------------------------------------------------

  function CountKind(ts: seq<TunerSlot>, t: FeType): nat {
    if ts == [] then 0 else Bit(ts[0].kind == Some(t)) + CountKind(ts[1..], t)
  }

  /** How many of `n` tuners of one type may be used. */
  function Capped(n: nat, limit: int): nat {
    if limit <= 0 then 0 else if n < limit then n else limit
  }

  function Usable(s: Sys, t: FeType): nat {
    Capped(CountKind(s.tuners, t), s.limit(Some(t)))
  }

  function TunerCount(s: Sys): nat {
    Usable(s, QPSK) + Usable(s, QAM) + Usable(s, OFDM) + Usable(s, ATSC) + Usable(s, DVBS2)
  }

  function UpdateOne(s: Sys, i: nat, wanted: bool): (r: Sys)
    requires WellFormed(s) && i < |s.devs|
    ensures |r.devs| == |s.devs| && WellFormed(r)
  {
    if wanted then (if s.devs[i].enable then s else SetEnable(s, i, true))
    else if s.devs[i].enable && !s.devs[i].receiving then SetEnable(s, i, false)
    else s
  }

  /** The loop of UpdateDevices from device `i` on, with `c` devices still to be enabled. */
  function UpdateFrom(s: Sys, i: nat, c: nat): (r: Sys)
    requires WellFormed(s) && i <= |s.devs|
    ensures WellFormed(r)
    decreases |s.devs| - i
  {
    if i == |s.devs| then s
    else UpdateFrom(UpdateOne(s, i, c > 0), i + 1, if c > 0 then c - 1 else c)
  }

  /** UpdateDevices: as many devices as there are usable tuners are enabled, from the first one on;
      the others are disabled unless they are receiving. */
  function UpdateDevices(s: Sys): (r: Sys)
    requires WellFormed(s)
    ensures WellFormed(r)
  {
    var tc := TunerCount(s);
    UpdateFrom(s, 0, if tc < |s.devs| then tc else |s.devs|)
  }

  lemma {:induction false} UpdateKeeps(s: Sys, i: nat, c: nat)
    requires WellFormed(s) && i <= |s.devs|
    ensures Keeps(s, UpdateFrom(s, i, c))
    decreases |s.devs| - i
  {
    KeepsSelf(s);
    if i < |s.devs| {
      SetEnableKeeps(s, i, c > 0);
      var a := UpdateOne(s, i, c > 0);
      UpdateKeeps(a, i + 1, if c > 0 then c - 1 else c);
      KeepsThen(s, a, UpdateFrom(s, i, c));
    }
  }

  lemma SetEnableSets(s: Sys, i: nat, val: bool)
    requires WellFormed(s) && i < |s.devs|
    ensures var r := SetEnable(s, i, val);
            && r.devs[i].enable == val
            && (forall j :: 0 <= j < |s.devs| && j != i ==> r.devs[j] == s.devs[j])
  {
    hide TunerAvailable, CamAvailable;
  }

  /** After UpdateDevices the first devices are enabled, as many as were asked for, and of the others
      only those that are receiving can still be. */
  lemma {:induction false} UpdateEnables(s: Sys, i: nat, c: nat)
    requires WellFormed(s) && i <= |s.devs|
    ensures var r := UpdateFrom(s, i, c);
            && |r.devs| == |s.devs|
            && (forall j :: 0 <= j < i ==> r.devs[j] == s.devs[j])
            && (forall j :: i <= j < |s.devs| && j < i + c ==> r.devs[j].enable)
            && (forall j :: i + c <= j < |s.devs| ==> r.devs[j].enable == (s.devs[j].enable && s.devs[j].receiving))
            && (forall j :: i <= j < |s.devs| && r.devs[j].enable == s.devs[j].enable ==> r.devs[j] == s.devs[j])
    decreases |s.devs| - i
  {
    hide SetEnable, WellFormed;
    if i < |s.devs| {
      SetEnableSets(s, i, c > 0);
      UpdateEnables(UpdateOne(s, i, c > 0), i + 1, if c > 0 then c - 1 else c);
    }
  }

  // --- Reconfiguration ---------------------------------------------------

  function DisableFrom(s: Sys, i: nat): (r: Sys)
    requires WellFormed(s) && i <= |s.devs|
    ensures WellFormed(r)
    decreases |s.devs| - i
  {
    if i == |s.devs| then s else DisableFrom(SetEnable(s, i, false), i + 1)
  }

  /** Both pools are cleared. */
  function Cleared(s: Sys): Sys {
    s.(tuners := seq(|s.tuners|, k => TunerSlot(None, "", "", false)),
       cams := seq(|s.cams|, k requires 0 <= k < |s.cams| => s.cams[k].(max := -1)))
  }

  /** reconfigure(), up to the call of UpdateDevices: all devices are disabled, then both pools are
      cleared. */
  function Reconfigure(s: Sys): (r: Sys)
    requires WellFormed(s)
    ensures WellFormed(r)
  {
    Cleared(DisableFrom(s, 0))
  }

  lemma ReleasedAt(s: Sys, i: nat)
    requires WellFormed(s) && i < |s.devs|
    ensures var r := Release(s, i);
            && r.devs[i].tuner.None? && r.devs[i].cam.None? && r.devs[i].enable == s.devs[i].enable
            && r.devs == s.devs[i := r.devs[i]]
  {
    hide Release;
    ReleaseGivesBack(s, i);
  }

  lemma ReleaseFrees(s: Sys, i: nat)
    requires WellFormed(s) && i < |s.devs|
    ensures var r := SetEnable(s, i, false);
            && r.devs[i].tuner.None? && r.devs[i].cam.None? && !r.devs[i].enable
            && (forall j :: 0 <= j < |s.devs| && j != i ==> r.devs[j] == s.devs[j])
  {
    ReleasedAt(WithDev(s, i, s.devs[i].(enable := false)), i);
  }

  lemma {:induction false} DisableFromFrees(s: Sys, i: nat)
    requires WellFormed(s) && i <= |s.devs|
    requires forall j :: 0 <= j < i ==> s.devs[j].tuner.None? && s.devs[j].cam.None? && !s.devs[j].enable
    ensures var r := DisableFrom(s, i);
            && Keeps(s, r)
            && forall j :: 0 <= j < |s.devs| ==> r.devs[j].tuner.None? && r.devs[j].cam.None? && !r.devs[j].enable
    decreases |s.devs| - i
  {
    hide SetEnable, KeepsIf, WellFormed;
    KeepsSelf(s);
    if i < |s.devs| {
      var a := SetEnable(s, i, false);
      SetEnableKeeps(s, i, false);
      ReleaseFrees(s, i);
      DisableFromFrees(a, i + 1);
      KeepsThen(s, a, DisableFrom(s, i));
    }
  }

  lemma {:induction false} CountNone(ts: seq<TunerSlot>, t: Option<FeType>)
    requires forall k :: 0 <= k < |ts| ==> !ts[k].inuse
    ensures CountInUse(ts, t) == 0
  {
    if ts != [] {
      CountNone(ts[1..], t);
    }
  }

  /** Reconfiguration frees everything before it clears the pools, so it keeps all invariants. */
  lemma ReconfigureKeeps(s: Sys)
    requires Inv(s)
    ensures var r := Reconfigure(s);
            && Inv(r) && |r.devs| == |s.devs| && r.limit == s.limit
            && (Strict(s) ==> Strict(r))
            && (Counted(s) ==> Counted(r)) && (EmptyUnused(s) ==> EmptyUnused(r)) && (CamsWithin(s) ==> CamsWithin(r))
            && (forall k :: 0 <= k < |r.tuners| ==> r.tuners[k].kind.None?)
            && (forall k :: 0 <= k < |r.cams| ==> r.cams[k].max == -1 && r.cams[k].use == 0)
  {
    hide DisableFrom, Refs, CountInUse;
    var a := DisableFrom(s, 0);
    var r := Reconfigure(s);
    DisableFromFrees(s, 0);
    forall k: nat | k < |r.cams|
      ensures Refs(r.devs, k) == 0
    {
      RefsZero(r.devs, k);
    }
    forall t: FeType
      ensures CountInUse(r.tuners, Some(t)) == 0
    {
      CountNone(r.tuners, Some(t));
    }
  }
}

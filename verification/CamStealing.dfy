/** Stealing a CAM for live view: after CheckCAM has said yes, the allocation succeeds. */
module CamStealing {
  import opened Wrappers
  import opened Pools
  import opened PoolInvariants
  import opened PoolSteps
  import PoolRuns

  lemma CamAvailableIff(s: Sys, slot: int)
    ensures CamAvailable(s, slot).Some? <==> exists k :: 0 <= k < |s.cams| && CamFits(s.cams[k], slot)
  {
  }

  /** What a theft changes in the CAM pool: one use less of the victim's CAM. */
  lemma TheftFrees(s: Sys, v: nat)
    requires WellFormed(s) && v < |s.devs| && s.devs[v].caEnable
    ensures var r := SetTempDisable(s, v, false, true);
            var k := s.devs[v].cam.value;
            && r.cams == s.cams[k := s.cams[k].(use := if s.cams[k].use > 0 then s.cams[k].use - 1 else s.cams[k].use)]
            && r.devs[v].cam.None?
            && (forall j :: 0 <= j < |s.devs| && j != v ==> r.devs[j] == s.devs[j])
  {
  }

  /** The exact condition under which a theft makes a CAM available: the victim's CAM is counted as
      used, and not by more users than it takes. */
  lemma TheftHelpsIff(s: Sys, slot: int)
    requires WellFormed(s) && CamAvailable(s, slot).None? && FirstVictim(s, slot, 0).Some?
    ensures var k := s.devs[FirstVictim(s, slot, 0).value].cam.value;
            CamAvailable(CamSteal(s, slot, true).s, slot).Some?
            <==> s.cams[k].max > 0 && 0 < s.cams[k].use <= s.cams[k].max
  {
    var v := FirstVictim(s, slot, 0).value;
    var k := s.devs[v].cam.value;
    var r := CamSteal(s, slot, true).s;
    TheftFrees(s, v);
    CamAvailableIff(s, slot);
    CamAvailableIff(r, slot);
    assert slot == -1 || s.cams[k].slot == slot;
    forall n | 0 <= n < |s.cams| && n != k
      ensures !CamFits(r.cams[n], slot)
    {
      assert !CamFits(s.cams[n], slot);
    }
    assert !CamFits(s.cams[k], slot);
    if s.cams[k].max > 0 && 0 < s.cams[k].use <= s.cams[k].max {
      assert CamFits(r.cams[k], slot);
    }
  }

  /** With exact counts every theft helps. */
  lemma VictimsCamCounts(s: Sys, slot: int)
    requires WellFormed(s) && CamsExact(s) && CamsWithin(s) && FirstVictim(s, slot, 0).Some?
    ensures var k := s.devs[FirstVictim(s, slot, 0).value].cam.value;
            s.cams[k].max > 0 && 0 < s.cams[k].use <= s.cams[k].max
  {
    var v := FirstVictim(s, slot, 0).value;
    RefsPositive(s.devs, v, s.devs[v].cam.value);
  }

  /** If an encrypted channel passes CheckCAM with stealing allowed, on a device that holds no CAM,
      then a CAM for its slot is available. */
  lemma CheckedMeansAvailable(s: Sys, i: nat, ch: Channel)
    requires WellFormed(s) && CamsExact(s) && CamsWithin(s) && i < |s.devs|
    requires ch.ca != 0 && !s.devs[i].caOverride && s.devs[i].cam.None?
    requires CheckCam(s, i, ch, true).ok
    ensures CamAvailable(CheckCam(s, i, ch, true).s, SlotOf(ch.ca)).Some?
    ensures CheckCam(s, i, ch, true).s.devs[i] == s.devs[i]
  {
    var slot := SlotOf(ch.ca);
    if CamAvailable(s, slot).None? {
      var v := FirstVictim(s, slot, 0).value;
      assert v != i;
      TheftFrees(s, v);
      VictimsCamCounts(s, slot);
      TheftHelpsIff(s, slot);
    }
  }

  /** A steal pays off: a live-view tune to an encrypted channel that gets past CheckCAM goes on with
      a CAM of the right slot, and the counts stay exact. Conversely, where no CAM is free and none
      can be stolen, the tune is refused and nothing has changed. */
  lemma StealPaysOff(s: Sys, i: nat, ch: Channel)
    requires WellFormed(s) && CamsExact(s) && CamsWithin(s) && i < |s.devs| && s.camPresent
    requires ch.ca != 0 && !s.devs[i].caOverride && s.devs[i].cam.None?
    ensures var r := CamPart(s, i, ch, true);
            var slot := SlotOf(ch.ca);
            && CamsExact(r.s) && CamsWithin(r.s)
            && (r.ok <==> CamAvailable(s, slot).Some? || FirstVictim(s, slot, 0).Some?)
            && (r.ok ==> r.s.devs[i].cam.Some?
                         && (slot == -1 || r.s.cams[r.s.devs[i].cam.value].slot == slot))
            && (!r.ok ==> r.s == s)
  {
    CamPartKeeps(s, i, ch, true);
    if CheckCam(s, i, ch, true).ok {
      CheckedMeansAvailable(s, i, ch);
    }
  }

  /** The device holds a CAM in the slot that the channel asks for. */
  predicate HoldsRight(s: Sys, i: nat, slot: int)
    requires WellFormed(s) && i < |s.devs|
  {
    s.devs[i].cam.Some? && (slot == -1 || s.cams[s.devs[i].cam.value].slot == slot)
  }

  /** When a live-view tune to an encrypted channel passes, for every device, and when it then has a CAM of the
      right slot: a device that holds a CAM of another slot keeps that one, although another device may
      have been robbed for it. */
  lemma RightCamIff(s: Sys, i: nat, ch: Channel)
    requires WellFormed(s) && CamsExact(s) && CamsWithin(s) && i < |s.devs| && s.camPresent
    requires ch.ca != 0 && !s.devs[i].caOverride
    ensures var r := CamPart(s, i, ch, true);
            var slot := SlotOf(ch.ca);
            && (r.ok <==> HoldsRight(s, i, slot) || CamAvailable(s, slot).Some? || FirstVictim(s, slot, 0).Some?)
            && (r.ok ==> (HoldsRight(r.s, i, slot) <==> HoldsRight(s, i, slot) || s.devs[i].cam.None?))
            && (!r.ok ==> r.s == s)
  {
    var slot := SlotOf(ch.ca);
    if s.devs[i].cam.None? {
      StealPaysOff(s, i, ch);
    } else if !HoldsRight(s, i, slot) {
      HeldCamStays(s, i, ch);
    }
  }

  /** A device that holds a CAM of another slot takes none, and robs the first device that has one of the
      right slot if none is free. */
  lemma HeldCamStays(s: Sys, i: nat, ch: Channel)
    requires WellFormed(s) && i < |s.devs| && s.camPresent && ch.ca != 0 && !s.devs[i].caOverride
    requires s.devs[i].cam.Some? && !HoldsRight(s, i, SlotOf(ch.ca))
    ensures var r := CamPart(s, i, ch, true);
            var slot := SlotOf(ch.ca);
            var v := FirstVictim(s, slot, 0);
            && r.s.devs[i] == s.devs[i] && !HoldsRight(r.s, i, slot)
            && (r.ok <==> CamAvailable(s, slot).Some? || v.Some?)
            && (!r.ok ==> r.s == s)
            && (CamAvailable(s, slot).Some? ==> r.s == s)
            && (CamAvailable(s, slot).None? && v.Some? ==> v.value != i && r.s.devs[v.value].cam.None?)
  {
    var slot := SlotOf(ch.ca);
    var v := FirstVictim(s, slot, 0);
    if CamAvailable(s, slot).None? && v.Some? {
      assert v.value != i;
      TheftFrees(s, v.value);
    }
  }

  /** So it is in every state that a new plugin can reach while no CAM is removed, or shrinks, under its users. */
  lemma StealPaysOffOnRuns(s: Sys, es: seq<PoolRuns.Step>, i: nat, ch: Channel)
    requires PoolRuns.Sound(s) && CamsExact(s) && CamsWithin(s) && PoolRuns.Possible(s, es)
    requires PoolRuns.AllSpareUsed(s, es) && PoolRuns.AllRoomLeft(s, es)
    requires var r := PoolRuns.Run(s, es); i < |r.devs| && r.camPresent && ch.ca != 0 && !r.devs[i].caOverride
    ensures var r := PoolRuns.Run(s, es);
            var c := CamPart(r, i, ch, true);
            var slot := SlotOf(ch.ca);
            && (c.ok <==> HoldsRight(r, i, slot) || CamAvailable(r, slot).Some? || FirstVictim(r, slot, 0).Some?)
            && (c.ok ==> (HoldsRight(c.s, i, slot) <==> HoldsRight(r, i, slot) || r.devs[i].cam.None?))
  {
    PoolRuns.RunKeeps(s, es);
    RightCamIff(PoolRuns.Run(s, es), i, ch);
  }

  // --- Who is robbed -------------------------------------------------------

  /** The slot that a CA number asks for: any for the numbers of CA systems; for those up to 255, which name a
      CAM, the first for multiples of four and one less than the remainder for the others. */
  lemma SlotNamed(ca: nat)
    ensures ca > 255 ==> SlotOf(ca) == -1
    ensures ca <= 255 ==> SlotOf(ca) == [0, 0, 1, 2][ca % 4]
  {
  }

  /** The device is not in use by VDR and has a CAM of this slot. */
  predicate AtMercy(s: Sys, j: nat, slot: int)
    requires WellFormed(s)
  {
    && j < |s.devs| && s.devs[j].priority < 0
    && s.devs[j].cam.Some? && (slot == -1 || s.cams[s.devs[j].cam.value].slot == slot)
  }

  /** A theft succeeds if and only if some device is at its mercy; the first of them then loses tuner and CAM, if
      it is carried out, and nothing else changes. */
  lemma TheftIff(s: Sys, slot: int, force: bool)
    requires WellFormed(s)
    ensures var r := CamSteal(s, slot, force);
            && (r.ok <==> exists j: nat :: AtMercy(s, j, slot))
            && (!r.ok || !force ==> r.s == s)
            && (r.ok && force ==> exists v: nat :: Robbed(s, r.s, v, slot))
  {
    var v := FirstVictim(s, slot, 0);
    if v.Some? {
      ReleaseGivesBack(s, v.value);
      FirstVictimIsFirst(s, slot, 0);
      assert AtMercy(s, v.value, slot);
      assert force ==> Robbed(s, CamSteal(s, slot, force).s, v.value, slot);
    } else if j: nat :| AtMercy(s, j, slot) {
      assert CanRob(s, j, slot);
    }
  }

  ghost predicate Robbed(s: Sys, r: Sys, v: nat, slot: int)
    requires WellFormed(s)
  {
    AtMercy(s, v, slot) && GaveBack(s, r, v) && forall j :: 0 <= j < v ==> !AtMercy(s, j, slot)
  }

  lemma {:induction false} FirstVictimIsFirst(s: Sys, slot: int, i: nat)
    requires WellFormed(s) && i <= |s.devs|
    ensures var v := FirstVictim(s, slot, i);
            v.Some? ==> forall j :: i <= j < v.value ==> !AtMercy(s, j, slot)
    decreases |s.devs| - i
  {
    if i < |s.devs| && !CanRob(s, i, slot) {
      FirstVictimIsFirst(s, slot, i + 1);
    }
  }

  /** One more user can have this CAM. */
  predicate TakesAnother(c: CamSlot, slot: int) {
    (slot == -1 || c.slot == slot) && c.use < c.max
  }

  predicate SomeCam(s: Sys, slot: int) {
    exists k :: 0 <= k < |s.cams| && TakesAnother(s.cams[k], slot)
  }

  ghost predicate SomeVictim(s: Sys, slot: int)
    requires WellFormed(s)
  {
    exists j: nat :: AtMercy(s, j, slot)
  }

  lemma CamAvailableIsFirst(s: Sys, slot: int)
    requires forall k :: 0 <= k < |s.cams| ==> s.cams[k].use >= 0
    ensures var r := CamAvailable(s, slot);
            && (r.Some? <==> SomeCam(s, slot))
            && (r.Some? ==> TakesAnother(s.cams[r.value], slot)
                            && forall k :: 0 <= k < r.value ==> !TakesAnother(s.cams[k], slot))
  {
    assert forall k :: 0 <= k < |s.cams| ==> (CamFits(s.cams[k], slot) <==> TakesAnother(s.cams[k], slot));
    FirstCamIsFirst(s.cams, None, slot, 0);
  }

  /** CAMAvailable finds the first CAM of the netceiver, if one is named, that fits. */
  lemma {:induction false} FirstCamIsFirst(cams: seq<CamSlot>, uuid: Option<string>, slot: int, i: nat)
    requires i <= |cams|
    ensures var r := FirstCam(cams, uuid, slot, i);
            && (r.Some? <==>
                exists k :: i <= k < |cams| && (uuid.None? || uuid == Some(cams[k].uuid)) && CamFits(cams[k], slot))
            && (r.Some? ==> && i <= r.value < |cams| && (uuid.None? || uuid == Some(cams[r.value].uuid))
                            && forall k :: i <= k < r.value ==>
                                 !((uuid.None? || uuid == Some(cams[k].uuid)) && CamFits(cams[k], slot)))
    decreases |cams| - i
  {
    if i < |cams| && !(IsOf(cams[i], uuid) && CamFits(cams[i], slot)) {
      FirstCamIsFirst(cams, uuid, slot, i + 1);
    }
  }

  /** The tune depends on a CAM that the device does not hold. */
  predicate Needs(s: Sys, i: nat, ch: Channel, live: bool)
    requires WellFormed(s) && i < |s.devs|
  {
    live && s.camPresent && ch.ca != 0 && !s.devs[i].caOverride && !HoldsRight(s, i, SlotOf(ch.ca))
  }

  /** CheckCAM in live view: it passes if and only if no CAM is needed, one is free, or one can be stolen; only in
      the last case does it change anything. */
  lemma CheckCamIff(s: Sys, i: nat, ch: Channel)
    requires WellFormed(s) && CamsExact(s) && i < |s.devs| && s.camPresent
    ensures var r := CheckCam(s, i, ch, true);
            var slot, needs := SlotOf(ch.ca), Needs(s, i, ch, true);
            && (r.ok <==> !needs || SomeCam(s, slot) || SomeVictim(s, slot))
            && (!needs || SomeCam(s, slot) || !r.ok ==> r.s == s)
            && (needs && !SomeCam(s, slot) && r.ok ==> exists v: nat :: v != i && Robbed(s, r.s, v, slot))
  {
    hide CamAvailable, CamSteal;
    var slot := SlotOf(ch.ca);
    CamAvailableIsFirst(s, slot);
    TheftIff(s, slot, true);
    if Needs(s, i, ch, true) {
      assert forall v: nat, r: Sys :: Robbed(s, r, v, slot) ==> v != i;
    }
  }

  /** Device `i` has a CAM, the one it had or the first that takes another user, and no other device or CAM has
      changed. */
  ghost predicate GotCam(s: Sys, r: Sys, i: nat, slot: int)
    requires i < |s.devs|
  {
    if s.devs[i].cam.Some? then r == s
    else
      && |r.devs| == |s.devs| && |r.cams| == |s.cams| && r.devs[i].cam.Some?
      && var k := r.devs[i].cam.value;
         && k < |s.cams| && TakesAnother(s.cams[k], slot) && (forall n :: 0 <= n < k ==> !TakesAnother(s.cams[n], slot))
         && r == s.(devs := s.devs[i := s.devs[i].(cam := Some(k), caEnable := true)],
                    cams := s.cams[k := s.cams[k].(use := s.cams[k].use + 1)])
  }

  /** A CAM is taken for a channel that is encrypted, or to be on the safe side, unless that is overridden. */
  predicate Wants(s: Sys, i: nat, ch: Channel)
    requires i < |s.devs|
  {
    !s.devs[i].caOverride && (ch.ca != 0 || s.triggerCam)
  }

  /** What the CAM part does when it does not refuse: where a CAM is needed and none is free, the first device at
      mercy is robbed; and then the device has a CAM if one is wanted and there is one. */
  ghost predicate Passed(s: Sys, a: Sys, r: Sys, i: nat, ch: Channel, live: bool)
    requires WellFormed(s) && i < |s.devs|
  {
    var slot, needs := SlotOf(ch.ca), Needs(s, i, ch, live);
    && (if needs && !SomeCam(s, slot) then exists v: nat :: v != i && Robbed(s, a, v, slot) else a == s)
    && |a.devs| == |s.devs| && a.devs[i] == s.devs[i]
    && (if Wants(a, i, ch) && (a.devs[i].cam.Some? || SomeCam(a, slot)) then GotCam(a, r, i, slot) else r == a)
    && (needs ==> a.devs[i].cam.Some? || SomeCam(a, slot))
  }

  /** The CAM part of SetChannelDevice, in full. It refuses if and only if a CAM is needed, none is free and none
      can be stolen; and then it changes nothing. */
  lemma CamPartIff(s: Sys, i: nat, ch: Channel, live: bool)
    requires WellFormed(s) && CamsExact(s) && CamsWithin(s) && i < |s.devs|
    ensures var r := CamPart(s, i, ch, live);
            && (r.ok <==> !Needs(s, i, ch, live) || SomeCam(s, SlotOf(ch.ca)) || SomeVictim(s, SlotOf(ch.ca)))
            && (if r.ok then exists a: Sys :: Passed(s, a, r.s, i, ch, live) else r.s == s)
  {
    hide CamAvailable, CheckCam, SlotOf, SomeCam, SomeVictim, GotCam, Robbed;
    var slot := SlotOf(ch.ca);
    var force := s.camPresent && live;
    var a := if force then CheckCam(s, i, ch, true).s else s;
    CheckCamKeeps(s, i, ch, true);
    if force {
      CheckCamIff(s, i, ch);
      CheckCamSpares(s, i, ch);
    }
    var r := CamPart(s, i, ch, live);
    if r.ok || !force || CheckCam(s, i, ch, true).ok {
      if Needs(s, i, ch, live) && s.devs[i].cam.None? {
        CheckedMeansAvailable(s, i, ch);
      }
      CamAvailableIsFirst(a, slot);
      if a.devs[i].cam.None? && Wants(a, i, ch) {
        TakenFirst(a, i, slot);
      } else if a.devs[i].cam.Some? {
        KeptCam(a, i, slot);
      }
      assert Passed(s, a, r.s, i, ch, live);
    }
  }

  /** In any state, whatever the counts are worth: a live-view tune to an encrypted channel passes only with a
      CAM. */
  lemma LiveHasCam(s: Sys, i: nat, ch: Channel)
    requires WellFormed(s) && i < |s.devs| && s.camPresent && ch.ca != 0 && !s.devs[i].caOverride
    ensures CamPart(s, i, ch, true).ok ==> CamPart(s, i, ch, true).s.devs[i].cam.Some?
  {
    hide CheckCam;
    CheckCamSpares(s, i, ch);
  }

  lemma KeptCam(s: Sys, i: nat, slot: int)
    requires i < |s.devs| && s.devs[i].cam.Some?
    ensures GotCam(s, s, i, slot)
  {
  }

  lemma TakenFirst(s: Sys, i: nat, slot: int)
    requires WellFormed(s) && i < |s.devs| && s.devs[i].cam.None?
    requires forall k :: 0 <= k < |s.cams| ==> s.cams[k].use >= 0
    ensures var k := CamAvailable(s, slot);
            k.Some? ==> GotCam(s, TakeCam(s, i, k.value), i, slot)
  {
    CamAvailableIsFirst(s, slot);
  }

  /** Whoever is robbed, it is no device that VDR uses. */
  lemma CamPartSpares(s: Sys, i: nat, j: nat, ch: Channel, live: bool)
    requires WellFormed(s) && i < |s.devs| && j < |s.devs| && j != i && s.devs[j].priority >= 0
    ensures CamPart(s, i, ch, live).s.devs[j] == s.devs[j]
  {
    hide CamAvailable, CheckCam;
    CheckCamSparesOthers(s, i, j, ch);
  }

  lemma CheckCamSparesOthers(s: Sys, i: nat, j: nat, ch: Channel)
    requires WellFormed(s) && i < |s.devs| && j < |s.devs| && s.devs[j].priority >= 0
    ensures CheckCam(s, i, ch, true).s.devs[j] == s.devs[j]
  {
    hide CamAvailable, FirstVictim, Release;
    var v := FirstVictim(s, SlotOf(ch.ca), 0);
    if v.Some? {
      ReleaseOnly(s, v.value);
    }
  }

  lemma TuneInSpares(s: Sys, i: nat, j: nat, ch: Channel, sameTransponder: bool)
    requires WellFormed(s) && i < |s.devs| && j < |s.devs| && j != i
    ensures TuneIn(s, i, ch, sameTransponder).s.devs[j] == s.devs[j]
  {
    hide TunerPart;
    TunerPartOnly(s, i, ch);
  }

  /** A device that VDR uses is not touched when another one is tuned: it keeps its tuner and its CAM, and their
      slots keep what they describe. */
  lemma InUseUndisturbed(s: Sys, i: nat, j: nat, ch: Channel, live: bool, sameTransponder: bool)
    requires Inv(s) && i < |s.devs| && j < |s.devs| && j != i && s.devs[j].priority >= 0
    ensures var r := SetChannel(s, i, ch, live, sameTransponder).s;
            && r.devs[j] == s.devs[j]
            && (s.devs[j].tuner.Some? ==> r.tuners[s.devs[j].tuner.value] == s.tuners[s.devs[j].tuner.value])
            && (s.devs[j].cam.Some? ==>
                var k := s.devs[j].cam.value;
                r.cams[k] == s.cams[k].(use := r.cams[k].use) && (Counted(s) ==> r.cams[k].use >= 1))
  {
    hide CamPart, TuneIn, Refs;
    var known := ch.s2 || ch.source != OtherSource;
    var r := SetChannel(s, i, ch, live, sameTransponder).s;
    CamPartSpares(s, i, j, ch, live);
    TuneInSpares(CamPart(s, i, ch, live).s, i, j, ch, sameTransponder);
    SetChannelKeeps(s, i, ch, live, sameTransponder);
    StillHeld(s, r, j, known);
  }

  lemma StillHeld(s: Sys, r: Sys, j: nat, known: bool)
    requires Inv(s) && KeepsIf(s, r, known) && j < |s.devs| && r.devs[j] == s.devs[j]
    ensures s.devs[j].tuner.Some? ==> r.tuners[s.devs[j].tuner.value] == s.tuners[s.devs[j].tuner.value]
    ensures s.devs[j].cam.Some? ==>
              var k := s.devs[j].cam.value;
              r.cams[k] == s.cams[k].(use := r.cams[k].use) && (Counted(s) ==> r.cams[k].use >= 1)
  {
    if s.devs[j].tuner.Some? {
      var k := s.devs[j].tuner.value;
      assert Holds(s, j, k) && Holds(r, j, k);
    }
    if s.devs[j].cam.Some? {
      RefsPositive(r.devs, j, s.devs[j].cam.value);
    }
  }
}

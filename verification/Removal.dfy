/** Where hot-plug breaks what calm runs keep: the exact conditions, for one listed tuner or CAM. */
module Removal {
  import opened Wrappers
  import opened Pools
  import opened PoolInvariants
  import opened PoolSteps
  import opened Sweep
  import opened PoolRuns
  import opened StartUp

  function WithTuners(s: Sys, ts: seq<TunerSlot>): Sys {
    s.(tuners := ts)
  }

  function WithCams(s: Sys, cams: seq<CamSlot>): Sys {
    s.(cams := cams)
  }

  /** The tuner that is listed for removal is the tuner of some device. */
  predicate RemovesInUse(s: Sys, drop: bool, info: TunerInfo) {
    drop && exists k :: 0 <= k < |s.tuners| && s.tuners[k].inuse && IsTuner(s.tuners[k], info.uuid)
  }

  /** Entering or removing one listed tuner leaves every device with a tuner of the type it believes
      to have, if and only if it does not remove a tuner in use. */
  lemma TypesAgreeIff(s: Sys, drop: bool, info: TunerInfo)
    requires Inv(s) && TypesAgree(s) && DistinctTuners(s.tuners)
    ensures WellFormed(WithTuners(s, Settle(s.tuners, drop, info)))
    ensures TypesAgree(WithTuners(s, Settle(s.tuners, drop, info))) <==> !RemovesInUse(s, drop, info)
  {
    var r := WithTuners(s, Settle(s.tuners, drop, info));
    var found := FindTuner(s.tuners, info.uuid, 0);
    if RemovesInUse(s, drop, info) {
      var k: nat :| k < |s.tuners| && s.tuners[k].inuse && IsTuner(s.tuners[k], info.uuid);
      var i: nat :| i < |s.devs| && Holds(s, i, k);
      assert found == Some(k);
      assert r.devs[i].tuner == Some(k) && r.tuners[k].kind == None;
    } else {
      forall i: nat | i < |s.devs| && s.devs[i].tuner.Some?
        ensures r.tuners[s.devs[i].tuner.value] == s.tuners[s.devs[i].tuner.value]
      {
        assert Holds(s, i, s.devs[i].tuner.value);
      }
    }
  }

  /** Removing CAMs keeps every count the number of holders, in use or not, and lets no count exceed its
      maximum; but a CAM removed in use leaves a slot with users to be given to another CAM. */
  lemma CountedAfterRemoval(s: Sys, uuid: string)
    ensures Counted(s) ==> Counted(WithCams(s, DelCams(s.cams, uuid)))
    ensures CamsWithin(s) ==> CamsWithin(WithCams(s, DelCams(s.cams, uuid)))
    ensures EmptyUnused(s) ==>
            (EmptyUnused(WithCams(s, DelCams(s.cams, uuid)))
             <==> forall k :: 0 <= k < |s.cams| && s.cams[k].max >= 0 && s.cams[k].uuid == uuid ==> s.cams[k].use == 0)
  {
  }

  /** Entering a listed CAM keeps every count the number of holders if and only if the CAM is known, or the
      slot it is given has no users. */
  lemma CountedAfterEntryIff(s: Sys, uuid: string, info: CamInfo)
    requires Counted(s) && AddCam(s.cams, uuid, info).Some?
    ensures Counted(WithCams(s, AddCam(s.cams, uuid, info).value))
            <==> (FindCam(s.cams, uuid, info.slot, 0).None? ==> s.cams[FreeCam(s.cams, 0).value].use == 0)
    ensures EmptyUnused(s) ==> EmptyUnused(WithCams(s, AddCam(s.cams, uuid, info).value))
  {
    AddCamCounts(s.cams, uuid, info);
  }

  /** It keeps the counts within bounds if and only if a CAM that is already there still takes its users. */
  lemma WithinAfterEntryIff(s: Sys, uuid: string, info: CamInfo)
    requires CamsWithin(s) && AddCam(s.cams, uuid, info).Some?
    ensures var f := FindCam(s.cams, uuid, info.slot, 0);
            CamsWithin(WithCams(s, AddCam(s.cams, uuid, info).value))
            <==> (f.Some? ==> s.cams[f.value].use <= NewMax(info, s.cams[f.value].max))
  {
    var f := FindCam(s.cams, uuid, info.slot, 0);
    if f.Some? {
      assert AddCam(s.cams, uuid, info).value[f.value].use == s.cams[f.value].use;
    }
  }

  // --- Failures that are reached, for every size of the pools --------------

  const CAM: CamInfo := CamInfo(0, true, CaSingle, 0)
  const PULLED: CamInfo := CamInfo(0, false, CaSingle, 0)
  const TUNER: TunerInfo := TunerInfo("a", "", QAM, 0)
  const GONE: TunerInfo := TunerInfo("a", "", QAM, -1)
  const OTHER: TunerInfo := TunerInfo("b", "", OFDM, 0)

  const NOWHERE: (string, string, int) -> bool := (uuid, list, pos) => false

  const ENCRYPTED: Channel := Channel(Cable, None, false, 1000, false)

  function One(stale: bool, cam: CamInfo, tuners: seq<TunerInfo>): seq<Netceiver> {
    [Netceiver("n", stale, [cam], tuners)]
  }

  lemma SweepOfOne(s: Sys, stale: bool, cam: CamInfo, tuners: seq<TunerInfo>)
    ensures var r := SweepAll(s, One(stale, cam, tuners));
            && r == SweepOne(s, One(stale, cam, tuners)[0])
            && r.tuners == SweepTuners(s.tuners, stale, tuners)
            && r.cams == if stale then DelCams(s.cams, "n")
                         else var a := AddCam(s.cams, "n", cam); if a.Some? then a.value else s.cams
  {
    var n := One(stale, cam, tuners)[0];
    assert One(stale, cam, tuners)[1..] == [] && n.cams[1..] == [];
    assert SweepAll(SweepOne(s, n), []) == SweepOne(s, n);
    var a := AddCam(s.cams, "n", cam);
    if !stale && a.Some? {
      assert AddCams(a.value, "n", []) == a.value;
      assert AddCams(s.cams, "n", [cam]) == a.value;
    }
  }

  /** The first slots of the pools, and what device 0 holds. */
  predicate Stands(s: Sys, n: nat, m: nat, tuner: TunerSlot, cam: CamSlot) {
    && n >= 1 && m >= 1 && |s.devs| == 1
    && s.tuners == NoTuners(n)[0 := tuner] && s.cams == NoCams(m)[0 := cam]
    && s.devs[0].enable && s.devs[0].receiving
    && s.devs[0].tuner == Some(0) && s.devs[0].fetype == Some(QAM)
    && s.devs[0].cam == Some(0) && s.devs[0].caEnable
  }

  lemma CountsOfHolder(s: Sys, n: nat, m: nat, tuner: TunerSlot, cam: CamSlot)
    requires Stands(s, n, m, tuner, cam) && cam.max >= 0
    ensures Refs(s.devs, 0) == 1
    ensures Counted(s) <==> cam.use == 1
    ensures CamsWithin(s) <==> cam.use <= cam.max
  {
    assert s.devs[1..] == [];
    forall k: nat
      ensures Refs(s.devs, k) == Bit(k == 0)
    {
      assert Refs(s.devs[1..], k) == 0;
    }
    assert s.cams[0] == cam;
  }

  const HELD: TunerSlot := TunerSlot(Some(QAM), "a", "", true)

  lemma TunerAndCamPlugged(n: nat, m: nat) returns (s: Sys)
    requires n >= 1 && m >= 1
    ensures Reached(n, m, true, s) && s.devs == [NEW_DEVICE] && s.limit == LIMITS && !s.triggerCam
    ensures s.tuners == NoTuners(n)[0 := TunerSlot(Some(QAM), "a", "", false)]
    ensures s.cams == NoCams(m)[0 := CamSlot("n", 0, 0, 1)]
  {
    var list := One(false, CAM, [TUNER]);
    s := Plugged(n, m, LIMITS, NOWHERE, list);
    var a := Sys(NoTuners(n), NoCams(m), [NEW_DEVICE], LIMITS, NOWHERE, false, false);
    SweepOfOne(a, false, CAM, [TUNER]);
    assert [TUNER][1..] == [];
    assert SweepTuner(a.tuners, false, TUNER) == a.tuners[0 := TunerSlot(Some(QAM), "a", "", false)];
  }

  lemma EncryptedTuned(s: Sys)
    requires WellFormed(s) && |s.devs| == 1 && s.devs[0].enable && s.devs[0].tuner.None? && !s.devs[0].caEnable
    requires s.tuners != [] && s.tuners[0] == HELD.(inuse := false) && s.cams != [] && s.cams[0] == CamSlot("n", 0, 0, 1)
    requires CountInUse(s.tuners, Some(QAM)) != s.limit(Some(QAM)) && !s.devs[0].caOverride
    ensures var r := SetChannel(s, 0, ENCRYPTED, false, false).s;
            && |r.devs| == 1 && r.tuners == s.tuners[0 := HELD] && r.cams == s.cams[0 := CamSlot("n", 0, 1, 1)]
            && r.devs[0].enable && r.devs[0].tuner == Some(0) && r.devs[0].fetype == Some(QAM)
            && r.devs[0].cam == Some(0) && r.devs[0].caEnable
  {
    assert CamAvailable(s, -1) == Some(0);
    var a := TakeCam(s, 0, 0);
    assert CamPart(s, 0, ENCRYPTED, false) == Checked(a, true);
    var b := WithDev(a, 0, a.devs[0].(tuned := false));
    assert TunerAvailable(b, Some(QAM), None) == Some(0);
    assert TunerPart(a, 0, ENCRYPTED) == TakeTuner(b, 0, 0, Some(QAM));
  }

  /** The device records an encrypted cable channel, with the first tuner and the first CAM. */
  lemma Recording(n: nat, m: nat) returns (s: Sys)
    requires n >= 1 && m >= 1
    ensures Reached(n, m, true, s) && WellFormed(s) && Stands(s, n, m, HELD, CamSlot("n", 0, 1, 1))
  {
    hide SetChannel, CountInUse;
    var a := TunerAndCamPlugged(n, m);
    ReachedSound(n, m, true, a);
    var b := Woken(n, m, a);
    CountNone(b.tuners, Some(QAM));
    EncryptedTuned(b);
    ReachedThen(n, m, true, b, Tune(0, ENCRYPTED, false, false));
    var c := Take(b, Tune(0, ENCRYPTED, false, false));
    ReachedThen(n, m, true, c, VdrAnswers(0, 0, true));
    s := Take(c, VdrAnswers(0, 0, true));
  }

  /** One round of Action while the device is recording: a sweep, then UpdateDevices. */
  lemma Round(n: nat, m: nat, s: Sys, list: seq<Netceiver>)
    requires Reached(n, m, false, s) && |s.devs| == 1 && s.devs[0].enable && s.devs[0].receiving
    ensures Reached(n, m, false, SweepAll(s, list)) && WellFormed(s) && WellFormed(SweepAll(s, list))
    ensures Reached(n, m, false, UpdateDevices(SweepAll(s, list))) && UpdateDevices(SweepAll(s, list)) == SweepAll(s, list)
  {
    ReachedSound(n, m, false, s);
    ReachedThen(n, m, false, s, SweepList(list));
    UpdateIdles(SweepAll(s, list));
  }

  /** A tuner in use is removed, and then its slot is given to a tuner of another type: the slot is still
      in use, and the device holds a tuner of a type it knows nothing of. */
  lemma TypeChangesUnderDevice(n: nat, m: nat)
    requires n >= 1 && m >= 1
    ensures exists s: Sys ::
              && Reached(n, m, false, s) && WellFormed(s) && !TypesAgree(s)
              && Stands(s, n, m, TunerSlot(Some(OFDM), "b", "", true), CamSlot("n", 0, 1, 1))
  {
    hide UpdateDevices, Inv, CountInUse;
    var s := Recording(n, m);
    ReachedHurriedly(n, m, s);
    Round(n, m, s, One(false, CAM, [GONE]));
    SweepOfOne(s, false, CAM, [GONE]);
    var a := SweepAll(s, One(false, CAM, [GONE]));
    assert [GONE][1..] == [];
    assert SweepTuner(s.tuners, false, GONE) == s.tuners[0 := HELD.(kind := None)];
    assert AddCam(s.cams, "n", CAM).value == s.cams;
    assert Stands(a, n, m, HELD.(kind := None), CamSlot("n", 0, 1, 1));
    Round(n, m, a, One(false, CAM, [OTHER]));
    SweepOfOne(a, false, CAM, [OTHER]);
    var b := SweepAll(a, One(false, CAM, [OTHER]));
    assert [OTHER][1..] == [];
    assert SweepTuner(a.tuners, false, OTHER) == a.tuners[0 := TunerSlot(Some(OFDM), "b", "", true)];
    assert AddCam(a.cams, "n", CAM).value == a.cams;
    assert Stands(b, n, m, TunerSlot(Some(OFDM), "b", "", true), CamSlot("n", 0, 1, 1));
  }

  /** The netceiver falls silent. */
  lemma CamLost(n: nat, m: nat) returns (a: Sys)
    requires n >= 1 && m >= 1
    ensures Reached(n, m, false, a) && Stands(a, n, m, HELD.(kind := None), CamSlot("n", 0, 1, -1))
  {
    hide UpdateDevices, WellFormed;
    var s := Recording(n, m);
    ReachedHurriedly(n, m, s);
    Round(n, m, s, One(true, CAM, [TUNER]));
    SweepOfOne(s, true, CAM, [TUNER]);
    a := SweepAll(s, One(true, CAM, [TUNER]));
    assert [TUNER][1..] == [];
    assert SweepTuner(s.tuners, true, TUNER) == s.tuners[0 := HELD.(kind := None)];
    assert DelCams(s.cams, "n") == s.cams[0 := CamSlot("n", 0, 1, -1)];
  }

  /** A CAM in use is removed and comes back: it is counted as unused, although a device holds it. */
  lemma CountForgetsHolder(n: nat, m: nat)
    requires n >= 1 && m >= 1
    ensures exists s: Sys ::
              && Reached(n, m, false, s) && WellFormed(s) && !Counted(s) && Refs(s.devs, 0) == 1
              && Stands(s, n, m, HELD, CamSlot("n", 0, 0, 1))
  {
    hide UpdateDevices, WellFormed, Counted, Refs;
    var a := CamLost(n, m);
    Round(n, m, a, One(false, CAM, [TUNER]));
    SweepOfOne(a, false, CAM, [TUNER]);
    var b := SweepAll(a, One(false, CAM, [TUNER]));
    assert [TUNER][1..] == [];
    assert SweepTuner(a.tuners, false, TUNER) == a.tuners[0 := HELD];
    assert AddCam(a.cams, "n", CAM).value == a.cams[0 := CamSlot("n", 0, 0, 1)];
    assert Stands(b, n, m, HELD, CamSlot("n", 0, 0, 1));
    CountsOfHolder(b, n, m, HELD, CamSlot("n", 0, 0, 1));
  }

  /** A CAM module is pulled while it is used: the CAM takes no users any more, yet it has one, and the
      count is still exact. */
  lemma CamPulledUnderUser(n: nat, m: nat)
    requires n >= 1 && m >= 1
    ensures exists s: Sys ::
              && Reached(n, m, false, s) && WellFormed(s) && Counted(s) && !CamsWithin(s)
              && Stands(s, n, m, HELD, CamSlot("n", 0, 1, 0))
  {
    hide UpdateDevices, WellFormed, Counted, CamsWithin;
    var s := Recording(n, m);
    ReachedHurriedly(n, m, s);
    Round(n, m, s, One(false, PULLED, [TUNER]));
    SweepOfOne(s, false, PULLED, [TUNER]);
    var a := SweepAll(s, One(false, PULLED, [TUNER]));
    assert [TUNER][1..] == [];
    assert SweepTuner(s.tuners, false, TUNER) == s.tuners;
    assert AddCam(s.cams, "n", PULLED).value == s.cams[0 := CamSlot("n", 0, 1, 0)];
    assert Stands(a, n, m, HELD, CamSlot("n", 0, 1, 0));
    CountsOfHolder(a, n, m, HELD, CamSlot("n", 0, 1, 0));
  }
}

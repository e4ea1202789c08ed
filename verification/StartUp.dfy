/** How a new plugin comes to tune its first device, for any size of the pools: the runs from which the
    failures of Promise and Removal are reached. */
module StartUp {
  import opened Wrappers
  import opened Pools
  import opened PoolSteps
  import opened Sweep
  import opened PoolRuns

  /** The limits that a plugin starts with. */
  const LIMITS: Option<FeType> -> int := t => 8

  function NoTuners(n: nat): seq<TunerSlot> {
    seq(n, k => TunerSlot(None, "", "", false))
  }

  function NoCams(m: nat): seq<CamSlot> {
    seq(m, k => CamSlot("", 0, 0, -1))
  }

  /** One device and the netceivers `list`, before anything is tuned. */
  lemma Plugged(n: nat, m: nat, limit: Option<FeType> -> int, covers: (string, string, int) -> bool,
                list: seq<Netceiver>)
    returns (s: Sys)
    requires forall t: FeType :: limit(Some(t)) >= 0
    ensures Reached(n, m, true, s) && WellFormed(s)
    ensures s == SweepAll(Sys(NoTuners(n), NoCams(m), [NEW_DEVICE], limit, covers, false, false), list)
  {
    var a := NewPlugin(n, m, limit, covers, false);
    NewReached(n, m, limit, covers);
    ReachedThen(n, m, true, a, AddDevice);
    var b := Take(a, AddDevice);
    assert b == Sys(NoTuners(n), NoCams(m), [NEW_DEVICE], limit, covers, false, false);
    ReachedSound(n, m, true, b);
    AllSpareNone(b, list);
    ReachedThen(n, m, true, b, SweepList(list));
    s := Take(b, SweepList(list));
  }

  lemma AllSpareNone(s: Sys, list: seq<Netceiver>)
    requires forall k :: 0 <= k < |s.tuners| ==> !s.tuners[k].inuse
    ensures AllSpare(s.tuners, list)
  {
  }

  lemma {:induction false} CountKindPositive(ts: seq<TunerSlot>, k: nat, t: FeType)
    requires k < |ts| && ts[k].kind == Some(t)
    ensures CountKind(ts, t) > 0
  {
    if k > 0 {
      CountKindPositive(ts[1..], k - 1, t);
    }
  }

  /** With a tuner in the first slot, UpdateDevices enables the first device. It may believe that it is
      tuned, but it holds nothing. */
  lemma Woken(n: nat, m: nat, s: Sys) returns (r: Sys)
    requires Reached(n, m, true, s) && WellFormed(s)
    requires s.devs == [NEW_DEVICE] && !s.triggerCam
    requires s.tuners != [] && s.tuners[0].kind.Some? && s.limit(s.tuners[0].kind) > 0
    ensures Reached(n, m, true, r) && WellFormed(r) && |r.devs| == 1
    ensures r == WithDev(s, 0, r.devs[0])
    ensures r.devs[0].enable && r.devs[0].tuner.None? && r.devs[0].cam.None? && !r.devs[0].caEnable
    ensures !r.devs[0].caOverride
  {
    var kind := s.tuners[0].kind.value;
    CountKindPositive(s.tuners, 0, kind);
    ReachedThen(n, m, true, s, Update);
    UpdateEnablesOne(s, kind);
    r := SetEnable(s, 0, true);
    RetunedEmpty(s);
  }

  lemma OneDevice(s: Sys, c: nat)
    requires WellFormed(s) && |s.devs| == 1
    ensures UpdateFrom(s, 0, c) == UpdateOne(s, 0, c > 0)
  {
    var a := UpdateOne(s, 0, c > 0);
    assert UpdateFrom(a, 1, if c > 0 then c - 1 else c) == a;
  }

  lemma UpdateEnablesOne(s: Sys, t: FeType)
    requires WellFormed(s) && |s.devs| == 1 && !s.devs[0].enable
    requires CountKind(s.tuners, t) > 0 && s.limit(Some(t)) > 0
    ensures UpdateDevices(s) == SetEnable(s, 0, true)
  {
    assert Usable(s, t) > 0;
    assert TunerCount(s) >= Usable(s, t);
    OneDevice(s, 1);
  }

  lemma RetunedEmpty(s: Sys)
    requires WellFormed(s) && s.devs == [NEW_DEVICE] && !s.triggerCam
    ensures var r := SetEnable(s, 0, true);
            && r == WithDev(s, 0, r.devs[0]) && r.devs[0].enable
            && r.devs[0].tuner.None? && r.devs[0].cam.None? && !r.devs[0].caEnable && !r.devs[0].caOverride
  {
  }

  /** A device without tuner is tuned to a free channel with the first tuner. */
  lemma FirstTuned(s: Sys, ch: Channel, t: FeType)
    requires WellFormed(s) && |s.devs| == 1 && s.devs[0].enable && s.devs[0].tuner.None? && !s.triggerCam
    requires s.tuners != [] && Fits(s, s.tuners[0], Some(t), ch.pos) && ChannelType(ch) == Some(t) && ch.ca == 0
    requires CountInUse(s.tuners, Some(t)) != s.limit(Some(t))
    ensures var r := SetChannel(s, 0, ch, false, false).s;
            && r == WithDev(s.(tuners := s.tuners[0 := s.tuners[0].(inuse := true)]), 0, r.devs[0])
            && r.devs[0].enable && r.devs[0].tuner == Some(0) && r.devs[0].fetype == Some(t)
  {
    var b := WithDev(s, 0, s.devs[0].(tuned := false));
    assert TunerAvailable(b, Some(t), ch.pos) == Some(0);
    assert TunerPart(s, 0, ch) == TakeTuner(b, 0, 0, Some(t));
  }

  /** A device that is enabled and receiving is left alone by UpdateDevices. */
  lemma UpdateIdles(s: Sys)
    requires WellFormed(s) && |s.devs| == 1 && s.devs[0].enable && s.devs[0].receiving
    ensures UpdateDevices(s) == s
  {
    var tc := TunerCount(s);
    OneDevice(s, if tc < 1 then tc else 1);
  }
}

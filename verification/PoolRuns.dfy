/** Whole runs of the plugin: devices are tuned, enabled and disabled, tuners and CAMs come and go,
    the plugin is reconfigured, in any order. */
module PoolRuns {
  import opened Wrappers
  import opened Pools
  import opened PoolInvariants
  import opened PoolSteps
  import opened Sweep
  import Counting

  datatype Step =
    | Enable(i: nat, val: bool)
    | TempDisable(i: nat, idle: bool, now: bool)
    | Tune(i: nat, ch: Channel, live: bool, sameTransponder: bool)
    | Override(i: nat, val: bool)
    | VdrAnswers(i: nat, priority: int, receiving: bool)
    | SweepList(list: seq<Netceiver>)
    | Update
    | Reconf
    | SetLimit(t: FeType, n: int)
    | SatLists(covers: (string, string, int) -> bool)
    | AddDevice

  /** A step concerns a device that exists. */
  predicate Enabled(s: Sys, e: Step) {
    match e
    case Enable(i, _) => i < |s.devs|
    case TempDisable(i, _, _) => i < |s.devs|
    case Tune(i, _, _, _) => i < |s.devs|
    case Override(i, _) => i < |s.devs|
    case VdrAnswers(i, _, _) => i < |s.devs|
    case _ => true
  }

  const NO_CHANNEL: Channel := Channel(OtherSource, None, false, 0, true)

  const NEW_DEVICE: Device := Device(false, false, None, None, None, false, false, NO_CHANNEL, -1, false)

  function Take(s: Sys, e: Step): (r: Sys)
    requires WellFormed(s) && Enabled(s, e)
    ensures WellFormed(r)
  {
    match e
    case Enable(i, val) => SetEnable(s, i, val)
    case TempDisable(i, idle, now) => SetTempDisable(s, i, idle, now)
    case Tune(i, ch, live, same) => SetChannel(s, i, ch, live, same).s
    case Override(i, val) => WithDev(s, i, s.devs[i].(caOverride := val))
    case VdrAnswers(i, priority, receiving) => WithDev(s, i, s.devs[i].(priority := priority, receiving := receiving))
    case SweepList(list) => SweepAll(s, list)
    case Update => UpdateDevices(s)
    case Reconf => Reconfigure(s)
    case SetLimit(t, n) => s.(limit := u => if u == Some(t) then n else s.limit(u))
    case SatLists(covers) => s.(covers := covers)
    case AddDevice => s.(devs := s.devs + [NEW_DEVICE])
  }

  /** The invariants of every reachable state. */
  ghost predicate Sound(s: Sys) {
    Inv(s) && Distinct(s)
  }

  /** The step removes no tuner in use, changes no limit, and tunes to a channel of a known source. */
  predicate Calm(s: Sys, e: Step) {
    match e
    case SweepList(list) => AllSpare(s.tuners, list)
    case SetLimit(_, _) => false
    case Tune(_, ch, _, _) => ch.s2 || ch.source != OtherSource
    case _ => true
  }

  /** The step removes no CAM in use. (Reconfiguration frees all CAMs before it clears the pool.) */
  predicate SparesUsed(s: Sys, e: Step) {
    e.SweepList? ==> AllSpareCams(s, e.list)
  }

  /** The step enters no CAM into a slot that still has users. */
  predicate EntersClean(s: Sys, e: Step) {
    e.SweepList? ==> AllEnterClean(s, e.list)
  }

  /** The step lets no CAM shrink below its users. */
  predicate LeavesRoom(s: Sys, e: Step) {
    e.SweepList? ==> AllLeaveRoom(s, e.list)
  }

  lemma SameEntriesDistinct(s: Sys, r: Sys)
    requires SameEntries(s, r) && Distinct(s)
    ensures Distinct(r)
  {
  }

  /** The steps of devices, as one: they keep the pools' entries and all invariants. */
  lemma DeviceStepKeeps(s: Sys, e: Step)
    requires Sound(s) && Enabled(s, e)
    requires e.Enable? || e.TempDisable? || e.Tune? || e.Override? || e.VdrAnswers? || e.Update?
    ensures KeepsIf(s, Take(s, e), Calm(s, e)) && Sound(Take(s, e))
  {
    match e {
      case Enable(i, val) => SetEnableKeeps(s, i, val);
      case TempDisable(i, idle, now) => KeepsSelf(s); ReleaseKeeps(s, i);
      case Tune(i, ch, live, same) => SetChannelKeeps(s, i, ch, live, same);
      case Override(i, val) => TouchKeeps(s, i, s.devs[i].(caOverride := val));
      case VdrAnswers(i, p, r) => TouchKeeps(s, i, s.devs[i].(priority := p, receiving := r));
      case Update =>
        var tc := TunerCount(s);
        UpdateKeeps(s, 0, if tc < |s.devs| then tc else |s.devs|);
    }
    SameEntriesDistinct(s, Take(s, e));
  }

  lemma AddDeviceKeeps(s: Sys)
    requires Sound(s)
    ensures var r := Take(s, AddDevice);
            && Sound(r) && (Strict(s) ==> Strict(r))
            && (Counted(s) ==> Counted(r)) && (EmptyUnused(s) ==> EmptyUnused(r))
            && (CamsWithin(s) ==> CamsWithin(r))
  {
    var r := Take(s, AddDevice);
    forall k: nat
      ensures Refs(r.devs, k) == Refs(s.devs, k)
    {
      Counting.RefsAppend(s.devs, NEW_DEVICE, k);
    }
    assert forall i: nat, k: nat :: i < |r.devs| ==> (Holds(r, i, k) <==> i < |s.devs| && Holds(s, i, k));
  }

  lemma LimitKeeps(s: Sys, e: Step)
    requires Sound(s) && (e.SetLimit? || e.SatLists?)
    ensures var r := Take(s, e);
            && Sound(r) && (e.SatLists? && Strict(s) ==> Strict(r))
            && (Counted(s) ==> Counted(r)) && (EmptyUnused(s) ==> EmptyUnused(r))
            && (CamsWithin(s) ==> CamsWithin(r))
  {
    var r := Take(s, e);
    assert forall i: nat, k: nat :: i < |s.devs| ==> (Holds(r, i, k) <==> Holds(s, i, k));
  }

  lemma SweepStepKeeps(s: Sys, list: seq<Netceiver>)
    requires Sound(s)
    ensures var r := SweepAll(s, list);
            && Sound(r)
            && (AllSpare(s.tuners, list) && Strict(s) ==> Strict(r))
            && (AllEnterClean(s, list) && Counted(s) ==> Counted(r))
            && (AllSpareCams(s, list) && CamsExact(s) ==> CamsExact(r))
            && (AllLeaveRoom(s, list) && CamsWithin(s) ==> CamsWithin(r))
  {
    SweepKeeps(s, list);
    if AllSpare(s.tuners, list) && Strict(s) {
      SweepKeepsStrict(s, list);
    }
    if Counted(s) {
      CountedAfterSweepIff(s, list);
    }
    if AllSpareCams(s, list) && CamsExact(s) {
      SweepKeepsExact(s, list);
    }
    if AllLeaveRoom(s, list) && CamsWithin(s) {
      SweepKeepsWithin(s, list);
    }
  }

  /** Every step keeps the invariants of all runs; a calm one keeps types and limits, one that
      enters no CAM into a slot with users keeps the counts equal to the numbers of holders, one that
      removes no CAM in use keeps slots without a CAM free of users as well, and one that leaves room keeps
      the counts within bounds. */
  lemma StepKeeps(s: Sys, e: Step)
    requires Sound(s) && Enabled(s, e)
    ensures Sound(Take(s, e))
    ensures Calm(s, e) && Strict(s) ==> Strict(Take(s, e))
    ensures EntersClean(s, e) && Counted(s) ==> Counted(Take(s, e))
    ensures SparesUsed(s, e) && CamsExact(s) ==> CamsExact(Take(s, e))
    ensures LeavesRoom(s, e) && CamsWithin(s) ==> CamsWithin(Take(s, e))
  {
    hide Counted, EmptyUnused, CamsWithin, Strict;
    match e
    case SweepList(list) => SweepStepKeeps(s, list);
    case Reconf => ReconfigureKeeps(s);
    case AddDevice => AddDeviceKeeps(s);
    case SetLimit(_, _) => LimitKeeps(s, e);
    case SatLists(_) => LimitKeeps(s, e);
    case _ => DeviceStepKeeps(s, e);
  }

  // --- Runs --------------------------------------------------------------

  predicate Possible(s: Sys, es: seq<Step>)
    requires WellFormed(s)
    decreases |es|
  {
    es != [] ==> Enabled(s, es[0]) && Possible(Take(s, es[0]), es[1..])
  }

  function Run(s: Sys, es: seq<Step>): (r: Sys)
    requires WellFormed(s) && Possible(s, es)
    ensures WellFormed(r)
    decreases |es|
  {
    if es == [] then s else Run(Take(s, es[0]), es[1..])
  }

  predicate AllCalm(s: Sys, es: seq<Step>)
    requires WellFormed(s) && Possible(s, es)
    decreases |es|
  {
    es != [] ==> Calm(s, es[0]) && AllCalm(Take(s, es[0]), es[1..])
  }

  predicate AllSpareUsed(s: Sys, es: seq<Step>)
    requires WellFormed(s) && Possible(s, es)
    decreases |es|
  {
    es != [] ==> SparesUsed(s, es[0]) && AllSpareUsed(Take(s, es[0]), es[1..])
  }

  predicate AllClean(s: Sys, es: seq<Step>)
    requires WellFormed(s) && Possible(s, es)
    decreases |es|
  {
    es != [] ==> EntersClean(s, es[0]) && AllClean(Take(s, es[0]), es[1..])
  }

  predicate AllRoomLeft(s: Sys, es: seq<Step>)
    requires WellFormed(s) && Possible(s, es)
    decreases |es|
  {
    es != [] ==> LeavesRoom(s, es[0]) && AllRoomLeft(Take(s, es[0]), es[1..])
  }

  /** Tuner exclusivity, CAM accounting and distinct entries over every run; exact types and limits
      over every calm run; exact CAM counts over every run that enters no CAM into a slot with users, as
      any run is that removes no CAM in use; and counts within bounds over every run in which no CAM shrinks
      below its users. */
  lemma {:induction false} RunKeeps(s: Sys, es: seq<Step>)
    requires Sound(s) && Possible(s, es)
    ensures Sound(Run(s, es))
    ensures AllCalm(s, es) && Strict(s) ==> Strict(Run(s, es))
    ensures AllClean(s, es) && Counted(s) ==> Counted(Run(s, es))
    ensures AllSpareUsed(s, es) && CamsExact(s) ==> CamsExact(Run(s, es))
    ensures AllRoomLeft(s, es) && CamsWithin(s) ==> CamsWithin(Run(s, es))
    decreases |es|
  {
    if es != [] {
      StepKeeps(s, es[0]);
      RunKeeps(Take(s, es[0]), es[1..]);
    }
  }

  // --- Disabled devices --------------------------------------------------

  /** The device holds nothing and is not tuned. */
  predicate Bare(d: Device) {
    d.tuner.None? && d.cam.None? && !d.tuned
  }

  predicate DisabledBare(s: Sys) {
    forall i :: 0 <= i < |s.devs| && !s.devs[i].enable ==> Bare(s.devs[i])
  }

  /** No device but the i-th has changed, except that some have become bare. */
  predicate OthersOrBare(s: Sys, r: Sys, i: nat) {
    && |r.devs| == |s.devs|
    && (forall j :: 0 <= j < |s.devs| ==> r.devs[j].enable == s.devs[j].enable)
    && (forall j :: 0 <= j < |s.devs| && j != i ==> r.devs[j] == s.devs[j] || Bare(r.devs[j]))
  }

  lemma CheckCamBares(s: Sys, i: nat, ch: Channel)
    requires WellFormed(s) && i < |s.devs|
    ensures OthersOrBare(s, CheckCam(s, i, ch, true).s, i)
  {
    hide CamAvailable, FirstVictim, Release;
    var v := FirstVictim(s, SlotOf(ch.ca), 0);
    if v.Some? {
      ReleaseGivesBack(s, v.value);
    }
  }

  lemma CamPartBares(s: Sys, i: nat, ch: Channel, live: bool)
    requires WellFormed(s) && i < |s.devs|
    ensures OthersOrBare(s, CamPart(s, i, ch, live).s, i)
  {
    hide CamAvailable, CheckCam;
    CheckCamBares(s, i, ch);
  }

  lemma TuneInBares(s: Sys, i: nat, ch: Channel, sameTransponder: bool)
    requires WellFormed(s) && i < |s.devs|
    ensures OthersOrBare(s, TuneIn(s, i, ch, sameTransponder).s, i)
  {
    hide TunerPart;
    TunerPartOnly(s, i, ch);
    TunerPartFields(s, i, ch);
  }

  lemma SetEnableBares(s: Sys, i: nat, val: bool)
    requires WellFormed(s) && i < |s.devs| && DisabledBare(s)
    ensures DisabledBare(SetEnable(s, i, val))
  {
    hide SetEnable;
    SetEnableSets(s, i, val);
    if !val {
      DisableGivesBack(s, i);
    }
  }

  lemma {:induction false} UpdateBares(s: Sys, i: nat, c: nat)
    requires WellFormed(s) && i <= |s.devs| && DisabledBare(s)
    ensures DisabledBare(UpdateFrom(s, i, c))
    decreases |s.devs| - i
  {
    hide SetEnable, WellFormed, DisabledBare;
    if i < |s.devs| {
      SetEnableBares(s, i, c > 0);
      UpdateBares(UpdateOne(s, i, c > 0), i + 1, if c > 0 then c - 1 else c);
    }
  }

  lemma {:induction false} DisableBares(s: Sys, i: nat)
    requires WellFormed(s) && i <= |s.devs| && DisabledBare(s)
    ensures DisabledBare(DisableFrom(s, i))
    decreases |s.devs| - i
  {
    hide SetEnable, WellFormed, DisabledBare;
    if i < |s.devs| {
      SetEnableBares(s, i, false);
      DisableBares(SetEnable(s, i, false), i + 1);
    }
  }

  lemma StepBares(s: Sys, e: Step)
    requires WellFormed(s) && Enabled(s, e) && DisabledBare(s)
    ensures DisabledBare(Take(s, e))
  {
    hide SetEnable, Release, CamPart, TuneIn, UpdateFrom, DisableFrom, WellFormed, SweepOne;
    match e
    case Enable(i, val) => SetEnableBares(s, i, val);
    case TempDisable(i, idle, now) => TempDisableGivesBack(s, i, idle, now);
    case Tune(i, ch, live, same) =>
      CamPartBares(s, i, ch, live);
      TuneInBares(CamPart(s, i, ch, live).s, i, ch, same);
    case Update =>
      var tc := TunerCount(s);
      UpdateBares(s, 0, if tc < |s.devs| then tc else |s.devs|);
    case Reconf => DisableBares(s, 0);
    case _ =>
  }

  /** Over every run a disabled device holds nothing and is not tuned. */
  lemma {:induction false} DisabledHoldNothing(s: Sys, es: seq<Step>)
    requires WellFormed(s) && Possible(s, es) && DisabledBare(s)
    ensures DisabledBare(Run(s, es))
    decreases |es|
  {
    if es != [] {
      hide Take, DisabledBare, Enabled;
      StepBares(s, es[0]);
      DisabledHoldNothing(Take(s, es[0]), es[1..]);
    }
  }

  /** The state of a new plugin: empty pools, no devices yet. */
  function NewPlugin(tuners: nat, cams: nat, limit: Option<FeType> -> int,
                     covers: (string, string, int) -> bool, triggerCam: bool): Sys
  {
    Sys(seq(tuners, k => TunerSlot(None, "", "", false)), seq(cams, k => CamSlot("", 0, 0, -1)), [],
        limit, covers, false, triggerCam)
  }

  lemma NewPluginSound(tuners: nat, cams: nat, limit: Option<FeType> -> int,
                       covers: (string, string, int) -> bool, triggerCam: bool)
    requires forall t: FeType :: limit(Some(t)) >= 0
    ensures var s := NewPlugin(tuners, cams, limit, covers, triggerCam);
            Sound(s) && Strict(s) && CamsExact(s) && CamsWithin(s)
  {
    var s := NewPlugin(tuners, cams, limit, covers, triggerCam);
    forall t: FeType
      ensures CountInUse(s.tuners, Some(t)) == 0
    {
      CountNone(s.tuners, Some(t));
    }
  }

  /** A new plugin with pools of `n` tuners and `m` CAMs can get into state `s`; if `calm`, by calm steps
      alone. */
  ghost predicate Reached(n: nat, m: nat, calm: bool, s: Sys) {
    exists limit: Option<FeType> -> int, covers: (string, string, int) -> bool, es: seq<Step> ::
      && (forall t: FeType :: limit(Some(t)) >= 0)
      && Possible(NewPlugin(n, m, limit, covers, false), es)
      && (calm ==> AllCalm(NewPlugin(n, m, limit, covers, false), es))
      && s == Run(NewPlugin(n, m, limit, covers, false), es)
  }

  lemma {:induction false} RunSnoc(s: Sys, es: seq<Step>, e: Step)
    requires WellFormed(s) && Possible(s, es) && Enabled(Run(s, es), e)
    ensures Possible(s, es + [e]) && Run(s, es + [e]) == Take(Run(s, es), e)
    ensures AllCalm(s, es) && Calm(Run(s, es), e) ==> AllCalm(s, es + [e])
    decreases |es|
  {
    if es == [] {
      assert es + [e] == [e] && [e][1..] == [];
    } else {
      assert (es + [e])[0] == es[0] && (es + [e])[1..] == es[1..] + [e];
      RunSnoc(Take(s, es[0]), es[1..], e);
    }
  }

  lemma NewReached(n: nat, m: nat, limit: Option<FeType> -> int, covers: (string, string, int) -> bool)
    requires forall t: FeType :: limit(Some(t)) >= 0
    ensures Reached(n, m, true, NewPlugin(n, m, limit, covers, false))
  {
    assert NewPlugin(n, m, limit, covers, false) == Run(NewPlugin(n, m, limit, covers, false), []);
  }

  lemma ReachedSound(n: nat, m: nat, calm: bool, s: Sys)
    requires Reached(n, m, calm, s)
    ensures Sound(s) && (calm ==> Strict(s))
  {
    var limit: Option<FeType> -> int, covers: (string, string, int) -> bool, es: seq<Step> :|
      && (forall t: FeType :: limit(Some(t)) >= 0)
      && Possible(NewPlugin(n, m, limit, covers, false), es)
      && (calm ==> AllCalm(NewPlugin(n, m, limit, covers, false), es))
      && s == Run(NewPlugin(n, m, limit, covers, false), es);
    NewPluginSound(n, m, limit, covers, false);
    RunKeeps(NewPlugin(n, m, limit, covers, false), es);
  }

  lemma ReachedThen(n: nat, m: nat, calm: bool, s: Sys, e: Step)
    requires Reached(n, m, calm, s) && WellFormed(s) && Enabled(s, e) && (calm ==> Calm(s, e))
    ensures Reached(n, m, calm, Take(s, e))
  {
    var limit: Option<FeType> -> int, covers: (string, string, int) -> bool, es: seq<Step> :|
      && (forall t: FeType :: limit(Some(t)) >= 0)
      && Possible(NewPlugin(n, m, limit, covers, false), es)
      && (calm ==> AllCalm(NewPlugin(n, m, limit, covers, false), es))
      && s == Run(NewPlugin(n, m, limit, covers, false), es);
    RunSnoc(NewPlugin(n, m, limit, covers, false), es, e);
    assert Take(s, e) == Run(NewPlugin(n, m, limit, covers, false), es + [e]);
  }

  lemma ReachedHurriedly(n: nat, m: nat, s: Sys)
    requires Reached(n, m, true, s)
    ensures Reached(n, m, false, s)
  {
  }

  /** Read off for one device in any reachable state: its tuner is marked in use and is nobody
      else's, and it is enabled for CA exactly while it has a CAM. */
  lemma HolderIsAlone(s: Sys, es: seq<Step>, i: nat, j: nat)
    requires Sound(s) && Possible(s, es)
    requires var r := Run(s, es); i < |r.devs| && j < |r.devs| && i != j && r.devs[i].tuner.Some?
    ensures var r := Run(s, es);
            && r.tuners[r.devs[i].tuner.value].inuse
            && r.devs[j].tuner != r.devs[i].tuner
            && (r.devs[i].caEnable <==> r.devs[i].cam.Some?)
  {
    RunKeeps(s, es);
    var r := Run(s, es);
    var k := r.devs[i].tuner.value;
    assert Holds(r, i, k);
    assert r.devs[j].tuner == Some(k) ==> Holds(r, j, k);
  }
}

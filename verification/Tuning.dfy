/** When SetChannelDevice succeeds and what it then has, in terms of the slots of the pool. */
module Tuning {
  import opened Wrappers
  import opened Pools
  import opened PoolInvariants
  import opened PoolSteps
  import opened Counting
  import opened CamStealing
  import opened Promise

  // --- Types and tuners, slot by slot --------------------------------------

  /** A tuner of this type can receive the channel. */
  predicate Serves(kind: FeType, ch: Channel) {
    if ch.s2 then kind == DVBS2
    else match ch.source
      case Sat => kind == QPSK || kind == DVBS2
      case Cable => kind == QAM
      case Terr => kind == OFDM
      case OtherSource => false
  }

  /** The channel's type is one that a tuner can have. */
  predicate Known(ch: Channel) {
    ch.s2 || ch.source != OtherSource
  }

  /** The dish, if this is a tuner with a dish, can be turned to the position. */
  predicate Turns(s: Sys, k: nat, pos: Option<int>)
    requires k < |s.tuners|
  {
    var tp := s.tuners[k];
    (tp.kind == Some(QPSK) || tp.kind == Some(DVBS2)) && pos.Some? ==> s.covers(tp.uuid, tp.satList, pos.value)
  }

  /** Slot `k` has a tuner of this type for the position that nobody uses. */
  predicate Free(s: Sys, k: nat, kind: FeType, pos: Option<int>) {
    k < |s.tuners| && s.tuners[k].kind == Some(kind) && !s.tuners[k].inuse && Turns(s, k, pos)
  }

  /** The limit of the type is not reached. */
  ghost predicate Allowed(s: Sys, kind: FeType) {
    |InUse(s.tuners, Some(kind))| != s.limit(Some(kind))
  }

  /** Tuner `k` can be had. */
  ghost predicate CanHave(s: Sys, k: nat, kind: FeType, pos: Option<int>) {
    Free(s, k, kind, pos) && Allowed(s, kind)
  }

  /** TunerAvailable finds the first tuner that can be had, if there is one. */
  lemma AvailableIsFirst(s: Sys, kind: FeType, pos: Option<int>)
    ensures var r := TunerAvailable(s, Some(kind), pos);
            && (r.Some? <==> exists k :: CanHave(s, k, kind, pos))
            && (r.Some? ==> CanHave(s, r.value, kind, pos) && forall k :: 0 <= k < r.value ==> !CanHave(s, k, kind, pos))
  {
    InUseCounted(s.tuners, Some(kind));
    forall k: nat | k < |s.tuners|
      ensures Free(s, k, kind, pos) <==> Fits(s, s.tuners[k], Some(kind), pos)
    {
    }
    FirstFitIsFirst(s, Some(kind), pos, 0);
    var r := TunerAvailable(s, Some(kind), pos);
    if r.Some? {
      assert CanHave(s, r.value, kind, pos);
    } else {
      forall k: nat
        ensures !CanHave(s, k, kind, pos)
      {
        if k < |s.tuners| && Allowed(s, kind) {
          assert !Fits(s, s.tuners[k], Some(kind), pos);
        }
      }
    }
  }

  lemma {:induction false} FirstFitIsFirst(s: Sys, t: Option<FeType>, pos: Option<int>, i: nat)
    requires i <= |s.tuners|
    ensures var r := FirstFit(s, t, pos, i);
            r.Some? ==> forall k :: i <= k < r.value ==> !Fits(s, s.tuners[k], t, pos)
    decreases |s.tuners| - i
  {
    if i < |s.tuners| && !Fits(s, s.tuners[i], t, pos) {
      FirstFitIsFirst(s, t, pos, i + 1);
    }
  }

  /** What could be had for a channel. */
  lemma ObtainIff(s: Sys, ch: Channel)
    requires Known(ch)
    ensures CanObtain(s, ChannelType(ch), ch.pos) <==>
            exists kind: FeType, k: nat :: Serves(kind, ch) && CanHave(s, k, kind, ch.pos)
  {
    hide CanHave, TunerAvailable;
    forall kind: FeType
      ensures TunerAvailable(s, Some(kind), ch.pos).Some? <==> exists k :: CanHave(s, k, kind, ch.pos)
    {
      AvailableIsFirst(s, kind, ch.pos);
    }
  }

  // --- Success -------------------------------------------------------------

  /** The end of a tuning with a tuner of a known type succeeds. */
  lemma FinishIff(t: Sys, i: nat, ch: Channel, sameTransponder: bool)
    requires WellFormed(t) && i < |t.devs|
    requires var d := t.devs[i]; d.tuner.Some? ==> d.fetype.Some? && Serves(d.fetype.value, ch)
    ensures var r := Finish(t, i, ch, sameTransponder);
            && (r.ok <==> HasTuner(t, i))
            && (if r.ok then r.s == WithDev(t, i, t.devs[i].(chan := ch, tuned := true)) else r.s == t)
  {
  }

  lemma TunerPartServes(s: Sys, i: nat, ch: Channel)
    requires WellFormed(s) && TypesAgree(s) && i < |s.devs| && Known(ch)
    ensures var t := TunerPart(s, i, ch);
            var d := t.devs[i];
            && d.chan == s.devs[i].chan && (d.tuner.None? ==> !d.tuned)
            && (d.tuner.Some? ==> && d.fetype.Some? && Serves(d.fetype.value, ch)
                                  && t.tuners[d.tuner.value].kind == d.fetype && Turns(t, d.tuner.value, ch.pos))
  {
    hide TunerPart;
    TunerPartFields(s, i, ch);
    if HasTuner(TunerPart(s, i, ch), i) {
      DeliversWhatWasAsked(s, i, ch);
    }
  }

  /** SetChannelDevice succeeds if and only if the device is enabled, the CAM part passes and the device ends
      with a tuner. It is then tuned to the channel, with a tuner that serves it; otherwise it stays with the
      channel it had, and is not tuned if it was a tuner that was missing. */
  lemma SuccessIff(s: Sys, i: nat, ch: Channel, live: bool, sameTransponder: bool)
    requires WellFormed(s) && Strict(s) && i < |s.devs| && Known(ch)
    ensures var r, passed := SetChannel(s, i, ch, live, sameTransponder), CamPart(s, i, ch, live).ok;
            var d := r.s.devs[i];
            && (r.ok <==> s.devs[i].enable && passed && d.tuner.Some?)
            && (r.ok ==> && d.tuned && d.chan == ch && d.fetype.Some? && Serves(d.fetype.value, ch)
                         && r.s.tuners[d.tuner.value].kind == d.fetype && Turns(r.s, d.tuner.value, ch.pos))
            && (!r.ok ==> d.chan == s.devs[i].chan)
            && (s.devs[i].enable && passed && !r.ok ==> !d.tuned)
  {
    hide CamPart, TunerPart, Finish, Serves, Exclusive, Counted, EmptyUnused, CamsWithin, CamsCounted;
    var a := CamPart(s, i, ch, live).s;
    CamPartKeeps(s, i, ch, live);
    CamPartFields(s, i, ch, live);
    TunerPartServes(a, i, ch);
    FinishIff(TunerPart(a, i, ch), i, ch, sameTransponder);
  }

  /** What a tuning needs: the device's own tuner, if it serves the channel in the right place; a tuner that can
      be had; or, in place of an own tuner in the wrong place, one of the same type, whose limit leaves room once
      the own one has been given back. */
  ghost predicate Deliverable(s: Sys, i: nat, ch: Channel)
    requires WellFormed(s) && i < |s.devs|
  {
    var d := s.devs[i];
    if d.tuner.Some? && d.fetype.Some? && Serves(d.fetype.value, ch) then
      || Turns(s, d.tuner.value, ch.pos)
      || (exists k :: Free(s, k, d.fetype.value, ch.pos))
      || (d.fetype == Some(QPSK) && exists k :: CanHave(s, k, DVBS2, ch.pos))
    else
      exists kind: FeType, k: nat :: Serves(kind, ch) && CanHave(s, k, kind, ch.pos)
  }

  lemma DeliverableIff(s: Sys, i: nat, ch: Channel)
    requires Inv(s) && Strict(s) && i < |s.devs| && Known(ch)
    ensures HasTuner(TunerPart(s, i, ch), i) <==> Deliverable(s, i, ch)
  {
    hide TunerPart, Exclusive, CamsCounted, CanHave, CanObtain, TunerAvailable;
    var d := s.devs[i];
    assert HasTuner(s, i) ==> (Acceptable(d, ch) <==> Serves(d.fetype.value, ch));
    assert HasTuner(s, i) ==> (Reaches(s, s.tuners[d.tuner.value], ch.pos) <==> Turns(s, d.tuner.value, ch.pos));
    if WrongPosition(s, i, ch) {
      RegainsIff(s, i, ch);
      AvailableIsFirst(s, DVBS2, ch.pos);
      FitsIffFree(s, d.fetype.value, ch.pos);
    } else {
      DeliveryIff(s, i, ch);
      ObtainIff(s, ch);
    }
  }

  lemma FitsIffFree(s: Sys, kind: FeType, pos: Option<int>)
    ensures AnyFits(s, Some(kind), pos) <==> exists k :: Free(s, k, kind, pos)
  {
    forall k: nat | k < |s.tuners|
      ensures Free(s, k, kind, pos) <==> Fits(s, s.tuners[k], Some(kind), pos)
    {
    }
  }

  /** When SetChannelDevice succeeds, from the pool as the CAM part has left it. */
  lemma SuccessFromPool(s: Sys, i: nat, ch: Channel, live: bool, sameTransponder: bool)
    requires Inv(s) && Strict(s) && i < |s.devs| && Known(ch)
    ensures var c := CamPart(s, i, ch, live);
            SetChannel(s, i, ch, live, sameTransponder).ok
            <==> s.devs[i].enable && c.ok && Deliverable(c.s, i, ch)
  {
    hide CamPart, TunerPart, Finish, Serves, Deliverable, Counted, EmptyUnused, CamsWithin;
    var a := CamPart(s, i, ch, live).s;
    CamPartKeeps(s, i, ch, live);
    TunerPartServes(a, i, ch);
    FinishIff(TunerPart(a, i, ch), i, ch, sameTransponder);
    DeliverableIff(a, i, ch);
  }

  /** A suitable tuner is kept. */
  lemma SuitableKept(s: Sys, i: nat, ch: Channel)
    requires WellFormed(s) && Strict(s) && i < |s.devs|
    requires var d := s.devs[i]; d.tuner.Some? && Serves(d.fetype.value, ch) && Turns(s, d.tuner.value, ch.pos)
    ensures TunerPart(s, i, ch) == s
  {
  }

  /** The device has taken tuner `k`, the first that can be had, and a DVB-S2 tuner for a DVB-S channel only
      where no DVB-S tuner can be had. */
  ghost predicate TookFirst(s: Sys, ch: Channel, k: nat, kind: FeType) {
    && Serves(kind, ch) && CanHave(s, k, kind, ch.pos)
    && (forall n :: 0 <= n < k ==> !CanHave(s, n, kind, ch.pos))
    && (kind == DVBS2 && !ch.s2 ==> forall n: nat :: !CanHave(s, n, QPSK, ch.pos))
  }

  lemma AcquireFirst(s: Sys, i: nat, ch: Channel)
    requires WellFormed(s) && i < |s.devs| && s.devs[i].tuner.None? && Known(ch)
    ensures var r := Acquire(s, i, ChannelType(ch), ch.pos);
            if r.devs[i].tuner.None? then r.tuners == s.tuners
            else
              && r.devs[i].fetype.Some?
              && var k, kind := r.devs[i].tuner.value, r.devs[i].fetype.value;
                 TookFirst(s, ch, k, kind) && r.tuners == s.tuners[k := s.tuners[k].(inuse := true)]
  {
    hide CanHave, TunerAvailable, TakeTuner, WellFormed, InUse;
    var t := ChannelType(ch).value;
    var k, k2 := TunerAvailable(s, Some(t), ch.pos), TunerAvailable(s, Some(DVBS2), ch.pos);
    AvailableIsFirst(s, t, ch.pos);
    AvailableIsFirst(s, DVBS2, ch.pos);
    if k.Some? {
      TakenFields(s, i, k.value, Some(t));
    } else if t == QPSK && k2.Some? {
      TakenFields(s, i, k2.value, Some(DVBS2));
    }
  }

  /** A device without tuner takes the first that can be had. */
  lemma FirstTaken(s: Sys, i: nat, ch: Channel)
    requires WellFormed(s) && i < |s.devs| && s.devs[i].tuner.None? && Known(ch)
    ensures var r := TunerPart(s, i, ch);
            if r.devs[i].tuner.None? then r.tuners == s.tuners
            else
              && r.devs[i].fetype.Some?
              && var k, kind := r.devs[i].tuner.value, r.devs[i].fetype.value;
                 TookFirst(s, ch, k, kind) && r.tuners == s.tuners[k := s.tuners[k].(inuse := true)]
  {
    hide Acquire, TookFirst, CanHave;
    var b := WithDev(s, i, s.devs[i].(tuned := false));
    AcquireFirst(b, i, ch);
    SameTaken(s, b, ch);
  }

  lemma SameTaken(s: Sys, r: Sys, ch: Channel)
    requires r == s.(devs := r.devs)
    ensures forall k: nat, kind: FeType :: TookFirst(r, ch, k, kind) <==> TookFirst(s, ch, k, kind)
  {
    hide CanHave;
    SameHave(s, r);
  }

  /** What can be had does not depend on the devices. */
  lemma SameHave(s: Sys, r: Sys)
    requires r == s.(devs := r.devs)
    ensures forall k: nat, kind: FeType, pos: Option<int> :: CanHave(r, k, kind, pos) <==> CanHave(s, k, kind, pos)
  {
    hide InUse;
  }

  /** For a channel of unknown source a device takes no tuner, at most a slot that describes none. */
  lemma UnknownTakesNone(s: Sys, i: nat, ch: Channel)
    requires WellFormed(s) && i < |s.devs| && s.devs[i].tuner.None? && !Known(ch)
    ensures var r := TunerPart(s, i, ch);
            forall k :: 0 <= k < |s.tuners| && s.tuners[k].kind.Some? ==> r.tuners[k] == s.tuners[k]
  {
  }

  /** A tuning to an unknown source fails, unless the device has tuned to the same transponder already, and then
      not in a scan. */
  lemma UnknownFails(s: Sys, i: nat, ch: Channel, live: bool, sameTransponder: bool)
    requires WellFormed(s) && i < |s.devs| && !Known(ch)
    ensures var a := CamPart(s, i, ch, live);
            var d := a.s.devs[i];
            SetChannel(s, i, ch, live, sameTransponder).ok <==>
            && s.devs[i].enable && a.ok
            && d.tuner.Some? && d.fetype == None && Turns(a.s, d.tuner.value, ch.pos)
            && d.tuned && sameTransponder && !ch.scan
  {
    hide CamPart;
    UnknownTunerPart(CamPart(s, i, ch, live).s, i, ch);
  }

  lemma UnknownTunerPart(s: Sys, i: nat, ch: Channel)
    requires WellFormed(s) && i < |s.devs| && !Known(ch)
    ensures var d, t := s.devs[i], TunerPart(s, i, ch);
            if d.tuner.Some? && d.fetype == None && Turns(s, d.tuner.value, ch.pos) then t == s
            else !t.devs[i].tuned && (t.devs[i].tuner.Some? ==> t.devs[i].fetype == None)
  {
    hide TunerAvailable;
  }

  // --- Disabled devices ----------------------------------------------------

  /** A disabled device promises nothing, and a request to tune it changes nothing. */
  lemma DisabledRefuses(s: Sys, i: nat, ch: Channel, live: bool, sameTransponder: bool)
    requires WellFormed(s) && i < |s.devs| && !s.devs[i].enable
    ensures !ProvidesSource(s, i, ch) && !ProvidesTransponder(s, i, ch)
    ensures SetChannel(s, i, ch, live, sameTransponder) == Checked(s, false)
  {
  }

  // --- Enabling ------------------------------------------------------------

  /** Enabling a device changes its mark alone if it holds a tuner, or if none could be had for its last channel.
      Otherwise it tunes to that channel, but without taking a tuner; a CAM it does take, if it has none and one is
      wanted and free. */
  lemma EnablingTunes(s: Sys, i: nat)
    requires WellFormed(s) && i < |s.devs| && Known(s.devs[i].chan)
    requires forall k :: 0 <= k < |s.cams| ==> s.cams[k].use >= 0
    ensures var d, r := s.devs[i], SetEnable(s, i, true);
            var e, ch := r.devs[i], d.chan;
            var could := exists kind: FeType, k: nat :: Serves(kind, ch) && CanHave(s, k, kind, ch.pos);
            var f := WithDev(s, i, d.(enable := true, fetype := e.fetype, tuned := true));
            if d.tuner.Some? || !could then r == WithDev(s, i, d.(enable := true))
            else
              && e.fetype.Some? && Serves(e.fetype.value, ch)
              && (exists k: nat :: CanHave(s, k, e.fetype.value, ch.pos))
              && (e.fetype == Some(DVBS2) && !ch.s2 ==> forall k: nat :: !CanHave(s, k, QPSK, ch.pos))
              && if (ch.ca != 0 || s.triggerCam) && (d.cam.Some? || SomeCam(s, SlotOf(ch.ca)))
                 then GotCam(f, r, i, SlotOf(ch.ca)) else r == f
  {
    hide CanObtain, Obtainable, CamAvailable, CanHave, SomeCam, GotCam, TakeCam, ChannelType, Serves, SlotOf, Known;
    var d := s.devs[i];
    var b := WithDev(s, i, d.(enable := true));
    if d.tuner.None? {
      ObtainIff(b, d.chan);
      SameHave(s, b);
      if CanObtain(b, ChannelType(d.chan), d.chan.pos) {
        ObtainableServes(b, d.chan);
        var f := WithDev(b, i, b.devs[i].(fetype := Obtainable(b, ChannelType(d.chan), d.chan.pos), tuned := true));
        assert f.devs == s.devs[i := f.devs[i]];
        SameCamChoice(s, f, SlotOf(d.chan.ca));
        CamWithoutTuner(f, i, d.chan.ca != 0 || s.triggerCam, SlotOf(d.chan.ca));
      }
    }
  }

  lemma CamWithoutTuner(s: Sys, i: nat, wanted: bool, slot: int)
    requires WellFormed(s) && i < |s.devs| && forall k :: 0 <= k < |s.cams| ==> s.cams[k].use >= 0
    ensures var c := CamAvailable(s, slot);
            var r := if wanted && !s.devs[i].caEnable && c.Some? then TakeCam(s, i, c.value) else s;
            && r.devs[i].fetype == s.devs[i].fetype
            && if wanted && (s.devs[i].cam.Some? || SomeCam(s, slot)) then GotCam(s, r, i, slot) else r == s
  {
    CamAvailableIsFirst(s, slot);
    if s.devs[i].cam.Some? {
      KeptCam(s, i, slot);
    } else {
      TakenFirst(s, i, slot);
    }
  }

  lemma SameCamChoice(s: Sys, r: Sys, slot: int)
    requires r.cams == s.cams
    ensures SomeCam(r, slot) <==> SomeCam(s, slot)
  {
  }

  lemma ObtainableServes(s: Sys, ch: Channel)
    requires Known(ch) && CanObtain(s, ChannelType(ch), ch.pos)
    ensures var t := Obtainable(s, ChannelType(ch), ch.pos);
            && t.Some? && Serves(t.value, ch) && (exists k: nat :: CanHave(s, k, t.value, ch.pos))
            && (t == Some(DVBS2) && !ch.s2 ==> forall k: nat :: !CanHave(s, k, QPSK, ch.pos))
  {
    hide CanHave, TunerAvailable;
    AvailableIsFirst(s, ChannelType(ch).value, ch.pos);
    AvailableIsFirst(s, DVBS2, ch.pos);
  }
}

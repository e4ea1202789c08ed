/** What a device promises with ProvidesTransponder against what SetChannelDevice delivers. */
module Promise {
  import opened Wrappers
  import opened Pools
  import opened PoolInvariants
  import opened PoolSteps
  import opened Sweep
  import opened PoolRuns
  import opened StartUp

  predicate HasTuner(s: Sys, i: nat)
    requires i < |s.devs|
  {
    s.devs[i].tuner.Some?
  }

  /** The device's tuner is of a type that serves the channel. */
  predicate Acceptable(d: Device, ch: Channel) {
    d.fetype == ChannelType(ch) || (ChannelType(ch) == Some(QPSK) && d.fetype == Some(DVBS2))
  }

  /** The device's tuner is of the right type, but its satellite list lacks the position. */
  predicate WrongPosition(s: Sys, i: nat, ch: Channel)
    requires WellFormed(s) && i < |s.devs|
  {
    HasTuner(s, i) && Acceptable(s.devs[i], ch) && !Reaches(s, s.tuners[s.devs[i].tuner.value], ch.pos)
  }

  lemma AvailableIff(s: Sys, t: Option<FeType>, pos: Option<int>)
    ensures TunerAvailable(s, t, pos).Some? <==>
            CountInUse(s.tuners, t) != s.limit(t) && exists k :: 0 <= k < |s.tuners| && Fits(s, s.tuners[k], t, pos)
  {
  }

  /** Giving back a tuner of another type makes no tuner of type `t` available. */
  lemma OtherTypeUnaffected(s: Sys, i: nat, t: Option<FeType>, pos: Option<int>)
    requires WellFormed(s) && TypesAgree(s) && i < |s.devs| && HasTuner(s, i) && s.devs[i].fetype != t
    ensures TunerAvailable(ReleaseTuner(s, i), t, pos).Some? <==> TunerAvailable(s, t, pos).Some?
  {
    var r := ReleaseTuner(s, i);
    var k := s.devs[i].tuner.value;
    CountUpdate(s.tuners, k, r.tuners[k], t);
    AvailableIff(s, t, pos);
    AvailableIff(r, t, pos);
    assert forall n :: 0 <= n < |s.tuners| ==> (Fits(r, r.tuners[n], t, pos) <==> Fits(s, s.tuners[n], t, pos));
  }

  /** Acquire succeeds exactly when the type, or for DVB-S the better type, is available. */
  lemma AcquireIff(s: Sys, i: nat, t: Option<FeType>, pos: Option<int>)
    requires WellFormed(s) && i < |s.devs| && !HasTuner(s, i)
    ensures HasTuner(Acquire(s, i, t, pos), i) <==> CanObtain(s, t, pos)
  {
  }

  lemma TunedFlagIrrelevant(s: Sys, i: nat, d: Device, t: Option<FeType>, pos: Option<int>)
    requires i < |s.devs|
    ensures CanObtain(WithDev(s, i, d), t, pos) <==> CanObtain(s, t, pos)
  {
  }

  /** What the tuner part does, seen from outside: a suitable tuner is kept, and otherwise the
      outcome depends on what the pool has. */
  lemma DeliveryIff(s: Sys, i: nat, ch: Channel)
    requires WellFormed(s) && TypesAgree(s) && i < |s.devs|
    requires !WrongPosition(s, i, ch)
    ensures HasTuner(TunerPart(s, i, ch), i) <==>
            (HasTuner(s, i) && Acceptable(s.devs[i], ch)) || CanObtain(s, ChannelType(ch), ch.pos)
  {
    var d := s.devs[i];
    var t := ChannelType(ch);
    if HasTuner(s, i) && Acceptable(d, ch) {
      assert !Unsuited(s, i, ch);
    } else {
      var a := if HasTuner(s, i) then ReleaseTuner(s, i) else s;
      var b := WithDev(a, i, a.devs[i].(tuned := false));
      assert TunerPart(s, i, ch) == Acquire(b, i, t, ch.pos);
      AcquireIff(b, i, t, ch.pos);
      TunedFlagIrrelevant(a, i, b.devs[i], t, ch.pos);
      if HasTuner(s, i) {
        OtherTypeUnaffected(s, i, t, ch.pos);
        if t == Some(QPSK) {
          OtherTypeUnaffected(s, i, Some(DVBS2), ch.pos);
        }
      }
    }
  }

  /** Promise and delivery. Unless the device holds a tuner of the right type in the wrong place,
      ProvidesTransponder says yes exactly when SetChannelDevice will end with a tuner and the source
      is provided as well; and the source always is, unless a channel of the second system is not on
      a satellite. */
  lemma PromiseMatchesDelivery(s: Sys, i: nat, ch: Channel)
    requires WellFormed(s) && TypesAgree(s) && i < |s.devs|
    requires s.devs[i].enable && ch.source != OtherSource && !WrongPosition(s, i, ch)
    ensures ProvidesTransponder(s, i, ch) <==> HasTuner(TunerPart(s, i, ch), i) && ProvidesSource(s, i, ch)
    ensures (ch.s2 ==> ch.source == Sat) ==>
            (ProvidesTransponder(s, i, ch) <==> HasTuner(TunerPart(s, i, ch), i))
  {
    DeliveryIff(s, i, ch);
  }

  /** Some tuner of type `t` is free and reaches the position, whatever the limit says. */
  predicate AnyFits(s: Sys, t: Option<FeType>, pos: Option<int>) {
    exists k :: 0 <= k < |s.tuners| && Fits(s, s.tuners[k], t, pos)
  }

  /** Giving back a tuner that does not reach the position makes room below the limit. */
  lemma OwnTypeAfterRelease(s: Sys, i: nat, pos: Option<int>)
    requires Inv(s) && Strict(s) && i < |s.devs| && HasTuner(s, i)
    requires !Reaches(s, s.tuners[s.devs[i].tuner.value], pos)
    ensures TunerAvailable(ReleaseTuner(s, i), s.devs[i].fetype, pos).Some? <==> AnyFits(s, s.devs[i].fetype, pos)
  {
    var t := s.devs[i].fetype;
    var k := s.devs[i].tuner.value;
    var r := ReleaseTuner(s, i);
    assert Holds(s, i, k);
    CountUpdate(s.tuners, k, r.tuners[k], t);
    assert CountInUse(s.tuners, Some(t.value)) <= s.limit(Some(t.value));
    AvailableIff(r, t, pos);
    forall n | 0 <= n < |s.tuners|
      ensures Fits(r, r.tuners[n], t, pos) <==> Fits(s, s.tuners[n], t, pos)
    {
    }
  }

  /** A device with the right type in the wrong place will get a tuner for its own. */
  predicate Regains(s: Sys, i: nat, ch: Channel)
    requires i < |s.devs|
  {
    var t := s.devs[i].fetype;
    AnyFits(s, t, ch.pos) || (t == Some(QPSK) && TunerAvailable(s, Some(DVBS2), ch.pos).Some?)
  }

  /** With the right type in the wrong place: delivery gives the tuner back first, and then looks for the type
      it had, its own tuner no longer counting. */
  lemma RegainsIff(s: Sys, i: nat, ch: Channel)
    requires Inv(s) && Strict(s) && i < |s.devs| && WrongPosition(s, i, ch)
    ensures HasTuner(TunerPart(s, i, ch), i) <==> Regains(s, i, ch)
  {
    var t := s.devs[i].fetype;
    var a := ReleaseTuner(s, i);
    var b := WithDev(a, i, a.devs[i].(tuned := false));
    assert TunerPart(s, i, ch) == Acquire(b, i, t, ch.pos);
    AcquireIff(b, i, t, ch.pos);
    TunedFlagIrrelevant(a, i, b.devs[i], t, ch.pos);
    OwnTypeAfterRelease(s, i, ch.pos);
    if t == Some(QPSK) {
      OtherTypeUnaffected(s, i, Some(DVBS2), ch.pos);
    }
  }

  /** What promise and delivery then depend on, in terms of the pool before the call. The promise looks for any
      type that serves the source. */
  lemma WrongPositionDelivery(s: Sys, i: nat, ch: Channel)
    requires Inv(s) && Strict(s) && i < |s.devs| && s.devs[i].enable && WrongPosition(s, i, ch)
    ensures var t := s.devs[i].fetype;
            && (ProvidesTransponder(s, i, ch) <==> CanObtain(s, TypeOf(ch.source), ch.pos))
            && (HasTuner(TunerPart(s, i, ch), i) <==>
                AnyFits(s, t, ch.pos) || (t == Some(QPSK) && TunerAvailable(s, Some(DVBS2), ch.pos).Some?))
  {
    RegainsIff(s, i, ch);
  }

  /** The device holds a tuner of type `t`, or could have one. */
  predicate HasOrObtains(s: Sys, i: nat, t: Option<FeType>, pos: Option<int>)
    requires i < |s.devs|
  {
    (HasTuner(s, i) && s.devs[i].fetype == t) || TunerAvailable(s, t, pos).Some?
  }

  /** The promise will be broken: the device has the right type in the wrong place, and a tuner that serves
      the source could be had, but none that delivery will look for. */
  predicate Overpromises(s: Sys, i: nat, ch: Channel)
    requires WellFormed(s) && i < |s.devs|
  {
    WrongPosition(s, i, ch) && CanObtain(s, TypeOf(ch.source), ch.pos) && !Regains(s, i, ch)
  }

  /** More will be delivered than promised: the device will give its tuner back for one that fits, where no
      tuner could be had before; or the channel is of the second system without being on a satellite, so
      that a DVB-S2 tuner will do, but a promise would also take one of the source's type. */
  predicate Underpromises(s: Sys, i: nat, ch: Channel)
    requires WellFormed(s) && i < |s.devs|
  {
    if WrongPosition(s, i, ch) then !CanObtain(s, TypeOf(ch.source), ch.pos) && Regains(s, i, ch)
    else
      && ch.s2 && ch.source != Sat
      && HasOrObtains(s, i, Some(DVBS2), ch.pos) && !HasOrObtains(s, i, TypeOf(ch.source), ch.pos)
  }

  /** When promise and delivery part, exactly, for every channel of a known source. */
  lemma PromiseKeptIff(s: Sys, i: nat, ch: Channel)
    requires Inv(s) && Strict(s) && i < |s.devs| && s.devs[i].enable && ch.source != OtherSource
    ensures var promised, delivered := ProvidesTransponder(s, i, ch), HasTuner(TunerPart(s, i, ch), i);
            && (promised && !delivered <==> Overpromises(s, i, ch))
            && (delivered && !promised <==> Underpromises(s, i, ch))
  {
    if WrongPosition(s, i, ch) {
      WrongPositionDelivery(s, i, ch);
    } else {
      PromiseMatchesDelivery(s, i, ch);
      DeliveryIff(s, i, ch);
    }
  }

  /** The same for a satellite channel, in terms of types and limits: a broken promise takes a DVB-S2 tuner
      in the wrong place and a DVB-S tuner elsewhere; an unpromised delivery takes a limit that is reached
      with the device's own tuner. */
  lemma SatellitePromises(s: Sys, i: nat, ch: Channel)
    requires Inv(s) && Strict(s) && i < |s.devs| && ch.source == Sat
    ensures Overpromises(s, i, ch) <==>
            && WrongPosition(s, i, ch) && s.devs[i].fetype == Some(DVBS2)
            && TunerAvailable(s, Some(QPSK), ch.pos).Some? && !AnyFits(s, Some(DVBS2), ch.pos)
    ensures var t := s.devs[i].fetype;
            Underpromises(s, i, ch) <==>
            && WrongPosition(s, i, ch) && AnyFits(s, t, ch.pos)
            && CountInUse(s.tuners, t) == s.limit(t) && !CanObtain(s, Some(QPSK), ch.pos)
  {
    AvailableIff(s, Some(QPSK), ch.pos);
    AvailableIff(s, Some(DVBS2), ch.pos);
  }

  /** So it is in every state that a new plugin can reach while limits are constant, no tuner in use is
      removed, and channels are of known sources. */
  lemma PromiseHoldsOnCalmRuns(s: Sys, es: seq<Step>, i: nat, ch: Channel)
    requires Sound(s) && Strict(s) && Possible(s, es) && AllCalm(s, es)
    requires var r := Run(s, es); i < |r.devs| && r.devs[i].enable && ch.source != OtherSource
    ensures var r := Run(s, es);
            var promised, delivered := ProvidesTransponder(r, i, ch), HasTuner(TunerPart(r, i, ch), i);
            && (promised && !delivered <==> Overpromises(r, i, ch))
            && (delivered && !promised <==> Underpromises(r, i, ch))
  {
    RunKeeps(s, es);
    PromiseKeptIff(Run(s, es), i, ch);
  }

  lemma AcquireDelivers(s: Sys, i: nat, t: Option<FeType>, pos: Option<int>)
    requires WellFormed(s) && i < |s.devs| && !HasTuner(s, i)
    ensures var r := Acquire(s, i, t, pos);
            var d := r.devs[i];
            HasTuner(r, i) ==>
              && (d.fetype == t || (t == Some(QPSK) && d.fetype == Some(DVBS2)))
              && r.tuners[d.tuner.value].kind == d.fetype
              && Reaches(r, r.tuners[d.tuner.value], pos)
  {
  }

  /** A device that ends with a tuner has one of an acceptable type that reaches the position. */
  lemma DeliversWhatWasAsked(s: Sys, i: nat, ch: Channel)
    requires WellFormed(s) && TypesAgree(s) && i < |s.devs|
    requires HasTuner(TunerPart(s, i, ch), i)
    ensures var r := TunerPart(s, i, ch);
            var d := r.devs[i];
            && Acceptable(d, ch)
            && r.tuners[d.tuner.value].kind == d.fetype
            && Reaches(r, r.tuners[d.tuner.value], ch.pos)
  {
    var a := if Unsuited(s, i, ch) then ReleaseTuner(s, i) else s;
    if !HasTuner(a, i) {
      var b := WithDev(a, i, a.devs[i].(tuned := false));
      AcquireDelivers(b, i, SoughtType(s.devs[i], ch), ch.pos);
    }
  }

  /** The end of a tuning needs a tuner and leaves it as it is. Nothing is done for a lock on the transponder
      except in a scan; otherwise the tuner has to be of a known type, and ATSC is none. */
  lemma FinishOk(t: Sys, i: nat, ch: Channel, sameTransponder: bool)
    requires WellFormed(t) && i < |t.devs|
    ensures var d := t.devs[i];
            Finish(t, i, ch, sameTransponder).ok <==>
            && d.tuner.Some?
            && ((d.tuned && sameTransponder && !ch.scan) || (d.fetype.Some? && d.fetype != Some(ATSC)))
    ensures var r := Finish(t, i, ch, sameTransponder);
            r.ok ==> && HasTuner(t, i) && r.s.tuners == t.tuners && r.s.covers == t.covers
                     && r.s.devs[i].tuner == t.devs[i].tuner && r.s.devs[i].fetype == t.devs[i].fetype
                     && r.s.devs[i].chan == ch
  {
    var kind := t.devs[i].fetype;
    if kind.Some? {
      var k := kind.value;
      assert k == QPSK || k == QAM || k == OFDM || k == ATSC || k == DVBS2;
    }
  }

  /** A whole tuning, CAM part included, that returns with success. */
  lemma TuningDelivers(s: Sys, i: nat, ch: Channel, live: bool, sameTransponder: bool)
    requires WellFormed(s) && Strict(s) && i < |s.devs| && SetChannel(s, i, ch, live, sameTransponder).ok
    ensures var r := SetChannel(s, i, ch, live, sameTransponder).s;
            && HasTuner(r, i)
            && var d := r.devs[i];
               && Acceptable(d, ch) && d.chan == ch
               && r.tuners[d.tuner.value].kind == d.fetype
               && Reaches(r, r.tuners[d.tuner.value], ch.pos)
  {
    hide CamPart, TunerPart, Finish, Exclusive, Counted, EmptyUnused, CamsWithin, CamsCounted;
    var a := CamPart(s, i, ch, live).s;
    CamPartKeeps(s, i, ch, live);
    FinishOk(TunerPart(a, i, ch), i, ch, sameTransponder);
    DeliversWhatWasAsked(a, i, ch);
  }

  lemma TuningDeliversOnCalmRuns(s: Sys, es: seq<Step>, i: nat, ch: Channel, live: bool,
                                 sameTransponder: bool)
    requires Sound(s) && Strict(s) && Possible(s, es) && AllCalm(s, es)
    requires i < |Run(s, es).devs| && SetChannel(Run(s, es), i, ch, live, sameTransponder).ok
    ensures var r := SetChannel(Run(s, es), i, ch, live, sameTransponder).s;
            && HasTuner(r, i)
            && var d := r.devs[i];
               && Acceptable(d, ch)
               && r.tuners[d.tuner.value].kind == d.fetype
               && Reaches(r, r.tuners[d.tuner.value], ch.pos)
  {
    RunKeeps(s, es);
    TuningDelivers(Run(s, es), i, ch, live, sameTransponder);
  }

  // --- Promises that are not kept ------------------------------------------

  const TWO_DISHES: (string, string, int) -> bool :=
    (uuid, list, pos) => (uuid == "a" && pos == 1992) || (uuid == "b" && pos == 1930)

  /** Tuner "a" of type `x` and tuner "b" of type `y`, on different dishes. */
  function TwoTuners(x: FeType, y: FeType): seq<Netceiver> {
    [Netceiver("n", false, [], [TunerInfo("a", "", x, 0), TunerInfo("b", "", y, 0)])]
  }

  function SatChannel(pos: int, s2: bool): Channel {
    Channel(Sat, Some(pos), s2, 0, false)
  }

  function SatTuner(kind: FeType, uuid: string, inuse: bool): TunerSlot {
    TunerSlot(Some(kind), uuid, "", inuse)
  }

  lemma TwoTunersEntered(s: Sys, x: FeType, y: FeType)
    requires s.tuners == NoTuners(|s.tuners|) && |s.tuners| >= 2
    ensures SweepAll(s, TwoTuners(x, y))
            == s.(tuners := s.tuners[0 := SatTuner(x, "a", false)][1 := SatTuner(y, "b", false)])
  {
    var a, b := TunerInfo("a", "", x, 0), TunerInfo("b", "", y, 0);
    var one := s.tuners[0 := SatTuner(x, "a", false)];
    assert SweepTuner(s.tuners, false, a) == one;
    assert FindTuner(one, "b", 0).None? && FreeTuner(one, 1) == Some(1) == FreeTuner(one, 0);
    assert SweepTuner(one, false, b) == one[1 := SatTuner(y, "b", false)];
    var two := one[1 := SatTuner(y, "b", false)];
    assert [a, b][1..] == [b] && [b][1..] == [];
    assert SweepTuners(two, false, []) == two;
    assert SweepTuners(one, false, [b]) == two;
    assert SweepTuners(s.tuners, false, [a, b]) == two;
    assert SweepOne(s, TwoTuners(x, y)[0]) == s.(tuners := two);
    assert TwoTuners(x, y)[1..] == [];
  }

  /** The device is tuned to a channel on the first dish. */
  lemma OnFirstDish(n: nat, m: nat, limit: Option<FeType> -> int, x: FeType, y: FeType) returns (s: Sys)
    requires n >= 2 && (x == QPSK || x == DVBS2) && forall t: FeType :: limit(Some(t)) > 0
    ensures Reached(n, m, true, s) && |s.devs| == 1 && s.devs[0].enable
    ensures s.devs[0].tuner == Some(0) && s.devs[0].fetype == Some(x)
    ensures s.tuners == NoTuners(n)[0 := SatTuner(x, "a", true)][1 := SatTuner(y, "b", false)]
    ensures s.limit == limit && s.covers == TWO_DISHES
  {
    hide SweepAll, SetChannel, CountInUse, WellFormed;
    var a := Plugged(n, m, limit, TWO_DISHES, TwoTuners(x, y));
    TwoTunersEntered(Sys(NoTuners(n), NoCams(m), [NEW_DEVICE], limit, TWO_DISHES, false, false), x, y);
    var b := Woken(n, m, a);
    var ch := SatChannel(1992, x == DVBS2);
    CountNone(b.tuners, Some(x));
    assert Fits(b, b.tuners[0], Some(x), ch.pos);
    FirstTuned(b, ch, x);
    ReachedThen(n, m, true, b, Tune(0, ch, false, false));
    s := Take(b, Tune(0, ch, false, false));
  }

  lemma CountFirst(ts: seq<TunerSlot>, x: FeType, y: FeType, t: FeType)
    requires |ts| >= 2 && ts == NoTuners(|ts|)[0 := SatTuner(x, "a", true)][1 := SatTuner(y, "b", false)]
    ensures CountInUse(ts, Some(t)) == Bit(t == x)
  {
    assert forall k :: 0 <= k < |ts[1..]| ==> !ts[1..][k].inuse;
    CountNone(ts[1..], Some(t));
  }

  /** Promises can be broken in calm runs, for every size of the pools: a device with a DVB-S2 tuner on
      one dish, while a DVB-S tuner on another dish is free, promises a DVB-S channel on that dish, and
      then ends without any tuner. */
  lemma BrokenPromise(n: nat, m: nat)
    requires n >= 2
    ensures exists s: Sys, ch: Channel ::
              && Reached(n, m, true, s) && WellFormed(s) && |s.devs| == 1 && s.devs[0].enable && ch.source == Sat
              && ProvidesTransponder(s, 0, ch) && !HasTuner(TunerPart(s, 0, ch), 0)
  {
    var s := OnFirstDish(n, m, LIMITS, DVBS2, QPSK);
    var ch := SatChannel(1930, false);
    ReachedSound(n, m, true, s);
    CountFirst(s.tuners, DVBS2, QPSK, QPSK);
    assert Fits(s, s.tuners[1], Some(QPSK), ch.pos);
    AvailableIff(s, Some(QPSK), ch.pos);
    PromiseKeptIff(s, 0, ch);
    assert Overpromises(s, 0, ch);
  }

  const ONE_OF_A_TYPE: Option<FeType> -> int := t => 1

  /** Delivery without promise, at a limit: with one tuner of a type allowed, a device with a DVB-S tuner on
      one dish promises nothing on the other dish, and then changes to the tuner there. */
  lemma UnpromisedAtLimit(n: nat, m: nat)
    requires n >= 2
    ensures exists s: Sys, ch: Channel ::
              && Reached(n, m, true, s) && WellFormed(s) && |s.devs| == 1 && s.devs[0].enable && ch.source == Sat
              && !ProvidesTransponder(s, 0, ch) && HasTuner(TunerPart(s, 0, ch), 0)
  {
    var s := OnFirstDish(n, m, ONE_OF_A_TYPE, QPSK, QPSK);
    var ch := SatChannel(1930, false);
    ReachedSound(n, m, true, s);
    CountFirst(s.tuners, QPSK, QPSK, QPSK);
    assert Fits(s, s.tuners[1], Some(QPSK), ch.pos);
    AvailableIff(s, Some(DVBS2), ch.pos);
    PromiseKeptIff(s, 0, ch);
    assert Underpromises(s, 0, ch);
  }

  /** Delivery without promise, off the satellite: with DVB-S2 tuners alone a device promises no terrestrial
      channel of the second system, and yet serves it with the tuner it holds. */
  lemma UnpromisedTerrestrial(n: nat, m: nat)
    requires n >= 2
    ensures exists s: Sys, ch: Channel ::
              && Reached(n, m, true, s) && WellFormed(s) && |s.devs| == 1 && s.devs[0].enable && ch.source == Terr
              && !ProvidesTransponder(s, 0, ch) && HasTuner(TunerPart(s, 0, ch), 0)
  {
    var s := OnFirstDish(n, m, LIMITS, DVBS2, DVBS2);
    var ch := Channel(Terr, None, true, 0, false);
    ReachedSound(n, m, true, s);
    AvailableIff(s, Some(OFDM), ch.pos);
    PromiseKeptIff(s, 0, ch);
    assert Underpromises(s, 0, ch);
  }
}

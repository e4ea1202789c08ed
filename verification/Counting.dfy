/** The counts of the pools as sizes of sets of slots and devices, and with them how many devices UpdateDevices
    enables. */
module Counting {
  import opened Wrappers
  import opened Pools
  import opened PoolInvariants
  import opened PoolSteps

  // --- Counts are sizes of sets --------------------------------------------

  /** The slots with a tuner of this type. */
  ghost function OfKind(ts: seq<TunerSlot>, t: FeType): set<nat> {
    set k: nat | k < |ts| && ts[k].kind == Some(t)
  }

  /** The slots of this type that are in use. */
  ghost function InUse(ts: seq<TunerSlot>, t: Option<FeType>): set<nat> {
    set k: nat | k < |ts| && ts[k].inuse && ts[k].kind == t
  }

  /** The devices that refer to CAM slot `k`. */
  ghost function Users(devs: seq<Device>, k: nat): set<nat> {
    set i: nat | i < |devs| && devs[i].cam == Some(k)
  }

  lemma {:induction false} CountKindAppend(ts: seq<TunerSlot>, x: TunerSlot, t: FeType)
    ensures CountKind(ts + [x], t) == CountKind(ts, t) + Bit(x.kind == Some(t))
  {
    if ts == [] {
      assert (ts + [x])[1..] == [];
    } else {
      assert (ts + [x])[1..] == ts[1..] + [x];
      CountKindAppend(ts[1..], x, t);
    }
  }

  lemma {:induction false} CountInUseAppend(ts: seq<TunerSlot>, x: TunerSlot, t: Option<FeType>)
    ensures CountInUse(ts + [x], t) == CountInUse(ts, t) + Bit(x.inuse && x.kind == t)
  {
    if ts == [] {
      assert (ts + [x])[1..] == [];
    } else {
      assert (ts + [x])[1..] == ts[1..] + [x];
      CountInUseAppend(ts[1..], x, t);
    }
  }

  lemma {:induction false} RefsAppend(devs: seq<Device>, d: Device, k: nat)
    ensures Refs(devs + [d], k) == Refs(devs, k) + Bit(d.cam == Some(k))
  {
    if devs == [] {
      assert (devs + [d])[1..] == [];
    } else {
      assert (devs + [d])[1..] == devs[1..] + [d];
      RefsAppend(devs[1..], d, k);
    }
  }

  lemma OfKindNext(ts: seq<TunerSlot>, x: TunerSlot, t: FeType)
    ensures |OfKind(ts + [x], t)| == |OfKind(ts, t)| + Bit(x.kind == Some(t))
  {
    assert OfKind(ts + [x], t) == OfKind(ts, t) + if x.kind == Some(t) then {|ts|} else {};
  }

  /** How many tuners of a type there are. */
  lemma {:induction false} KindsCounted(ts: seq<TunerSlot>, t: FeType)
    ensures CountKind(ts, t) == |OfKind(ts, t)|
    decreases |ts|
  {
    if ts == [] {
      assert OfKind(ts, t) == {};
    } else {
      hide CountKind, OfKind;
      var n := |ts| - 1;
      KindsCounted(ts[..n], t);
      CountKindAppend(ts[..n], ts[n], t);
      OfKindNext(ts[..n], ts[n], t);
      assert ts == ts[..n] + [ts[n]];
    }
  }

  lemma InUseNext(ts: seq<TunerSlot>, x: TunerSlot, t: Option<FeType>)
    ensures |InUse(ts + [x], t)| == |InUse(ts, t)| + Bit(x.inuse && x.kind == t)
  {
    assert InUse(ts + [x], t) == InUse(ts, t) + if x.inuse && x.kind == t then {|ts|} else {};
  }

  /** How many tuners of a type are in use. */
  lemma {:induction false} InUseCounted(ts: seq<TunerSlot>, t: Option<FeType>)
    ensures CountInUse(ts, t) == |InUse(ts, t)|
    decreases |ts|
  {
    if ts == [] {
      assert InUse(ts, t) == {};
    } else {
      hide CountInUse, InUse;
      var n := |ts| - 1;
      InUseCounted(ts[..n], t);
      CountInUseAppend(ts[..n], ts[n], t);
      InUseNext(ts[..n], ts[n], t);
      assert ts == ts[..n] + [ts[n]];
    }
  }

  lemma UsersNext(devs: seq<Device>, d: Device, k: nat)
    ensures |Users(devs + [d], k)| == |Users(devs, k)| + Bit(d.cam == Some(k))
  {
    assert Users(devs + [d], k) == Users(devs, k) + if d.cam == Some(k) then {|devs|} else {};
  }

  /** How many devices refer to a CAM. */
  lemma {:induction false} UsersCounted(devs: seq<Device>, k: nat)
    ensures Refs(devs, k) == |Users(devs, k)|
    decreases |devs|
  {
    if devs == [] {
      assert Users(devs, k) == {};
    } else {
      hide Refs, Users;
      var n := |devs| - 1;
      UsersCounted(devs[..n], k);
      RefsAppend(devs[..n], devs[n], k);
      UsersNext(devs[..n], devs[n], k);
      assert devs == devs[..n] + [devs[n]];
    }
  }

  // --- How many tuners may be used -----------------------------------------

  /** The slots of `c` hold tuners, of no type more than its limit. */
  ghost predicate MayBeUsed(s: Sys, c: set<nat>) {
    && (forall k :: k in c ==> k < |s.tuners| && s.tuners[k].kind.Some?)
    && (forall t: FeType :: c * OfKind(s.tuners, t) == {} || |c * OfKind(s.tuners, t)| <= s.limit(Some(t)))
  }

  /** So many tuners may be used at the same time, and no more. */
  ghost predicate MostUsable(s: Sys, n: nat) {
    && (exists c: set<nat> :: MayBeUsed(s, c) && |c| == n)
    && (forall c: set<nat> :: MayBeUsed(s, c) ==> |c| <= n)
  }

  /** Of one type: no more than there are and no more than the limit, and one of the two is reached; none
      when the limit is negative. */
  lemma UsableBounds(s: Sys, t: FeType)
    ensures var n, limit := Usable(s, t), s.limit(Some(t));
            && n <= |OfKind(s.tuners, t)| && (0 <= limit ==> n <= limit) && (limit < 0 ==> n == 0)
            && (n == |OfKind(s.tuners, t)| || n == limit || limit < 0)
  {
    KindsCounted(s.tuners, t);
  }

  lemma {:induction false} SubsetBound(a: set<nat>, b: set<nat>)
    requires a <= b
    ensures |a| <= |b|
    decreases |a|
  {
    if a != {} {
      var x :| x in a;
      SubsetBound(a - {x}, b - {x});
    }
  }

  lemma {:induction false} SubsetOfSize(b: set<nat>, n: nat) returns (a: set<nat>)
    requires n <= |b|
    ensures a <= b && |a| == n
    decreases |b|
  {
    if n == |b| {
      a := b;
    } else {
      var x :| x in b;
      a := SubsetOfSize(b - {x}, n);
    }
  }

  lemma MayBeUsedBound(s: Sys, c: set<nat>, t: FeType)
    requires MayBeUsed(s, c)
    ensures |c * OfKind(s.tuners, t)| <= Usable(s, t)
  {
    UsableBounds(s, t);
    SubsetBound(c * OfKind(s.tuners, t), OfKind(s.tuners, t));
  }

  ghost function Together(part: FeType -> set<nat>): set<nat> {
    part(QPSK) + part(QAM) + part(OFDM) + part(ATSC) + part(DVBS2)
  }

  ghost function Sizes(part: FeType -> set<nat>): nat {
    |part(QPSK)| + |part(QAM)| + |part(OFDM)| + |part(ATSC)| + |part(DVBS2)|
  }

  lemma InTogether(part: FeType -> set<nat>, k: nat)
    ensures k in Together(part) <==> exists t: FeType :: k in part(t)
  {
    if t: FeType :| k in part(t) {
      match t {
        case QPSK =>
        case QAM =>
        case OFDM =>
        case ATSC =>
        case DVBS2 =>
      }
    }
  }

  lemma DisjointSizes(a: set<nat>, b: set<nat>)
    requires a !! b
    ensures |a + b| == |a| + |b|
  {
  }

  lemma TogetherSize(part: FeType -> set<nat>)
    requires forall t: FeType, u: FeType :: t != u ==> part(t) !! part(u)
    ensures |Together(part)| == Sizes(part)
  {
    DisjointSizes(part(QPSK), part(QAM));
    DisjointSizes(part(QPSK) + part(QAM), part(OFDM));
    DisjointSizes(part(QPSK) + part(QAM) + part(OFDM), part(ATSC));
    DisjointSizes(part(QPSK) + part(QAM) + part(OFDM) + part(ATSC), part(DVBS2));
  }

  /** The part of `c` that is of type `t`. */
  ghost function Part(ts: seq<TunerSlot>, c: set<nat>): FeType -> set<nat> {
    t => c * OfKind(ts, t)
  }

  /** A set of tuners splits into its types. */
  lemma SplitByKind(ts: seq<TunerSlot>, c: set<nat>)
    requires forall k :: k in c ==> k < |ts| && ts[k].kind.Some?
    ensures |c| == Sizes(Part(ts, c))
  {
    hide Together, Sizes;
    var part := Part(ts, c);
    forall k: nat
      ensures k in Together(part) <==> k in c
    {
      InTogether(part, k);
      if k in c {
        assert k in part(ts[k].kind.value);
      }
    }
    assert Together(part) == c;
    TogetherSize(part);
  }

  lemma NoMoreUsable(s: Sys, c: set<nat>)
    requires MayBeUsed(s, c)
    ensures |c| <= TunerCount(s)
  {
    hide Usable, OfKind;
    MayBeUsedBound(s, c, QPSK);
    MayBeUsedBound(s, c, QAM);
    MayBeUsedBound(s, c, OFDM);
    MayBeUsedBound(s, c, ATSC);
    MayBeUsedBound(s, c, DVBS2);
    SplitByKind(s.tuners, c);
  }

  /** Some tuners of one type that may be used, as many as there can be. */
  lemma ChosenOf(s: Sys, t: FeType)
    ensures exists c: set<nat> :: Chosen(s, t, c)
  {
    UsableBounds(s, t);
    var c := SubsetOfSize(OfKind(s.tuners, t), Usable(s, t));
    assert Chosen(s, t, c);
  }

  ghost predicate Chosen(s: Sys, t: FeType, c: set<nat>) {
    c <= OfKind(s.tuners, t) && |c| == Usable(s, t) && (c == {} || |c| <= s.limit(Some(t)))
  }

  ghost function Choice(s: Sys): FeType -> set<nat> {
    t => ChosenOf(s, t); var c: set<nat> :| Chosen(s, t, c); c
  }

  lemma PartOfChoice(s: Sys, t: FeType)
    ensures Together(Choice(s)) * OfKind(s.tuners, t) == Choice(s)(t)
  {
    hide Together, Choice;
    var part := Choice(s);
    forall k: nat
      ensures k in Together(part) && k in OfKind(s.tuners, t) <==> k in part(t)
    {
      InTogether(part, k);
      ChoiceChosen(s);
    }
  }

  lemma ChoiceChosen(s: Sys)
    ensures forall t: FeType :: Chosen(s, t, Choice(s)(t))
  {
  }

  lemma SomeUsable(s: Sys)
    ensures MayBeUsed(s, Together(Choice(s))) && |Together(Choice(s))| == TunerCount(s)
  {
    hide Together, Choice, Usable;
    var c := Together(Choice(s));
    ChoiceChosen(s);
    forall t: FeType
      ensures c * OfKind(s.tuners, t) == Choice(s)(t)
    {
      PartOfChoice(s, t);
    }
    forall k: nat | k in c
      ensures k < |s.tuners| && s.tuners[k].kind.Some?
    {
      InTogether(Choice(s), k);
    }
    TogetherSize(Choice(s));
  }

  /** TunerCount is the size of a largest set of tuners that may be used at the same time. */
  lemma TunerCountIsMost(s: Sys)
    ensures MostUsable(s, TunerCount(s))
  {
    hide TunerCount, MayBeUsed;
    forall c: set<nat> | MayBeUsed(s, c)
      ensures |c| <= TunerCount(s)
    {
      NoMoreUsable(s, c);
    }
    SomeUsable(s);
  }

  /** UpdateDevices enables the first devices, as many as there are tuners that may be used at the same time;
      of the others only those that were enabled and are receiving stay so. Devices that are neither enabled nor
      disabled by it are left alone. */
  lemma UpdateDevicesEnables(s: Sys, n: nat)
    requires WellFormed(s) && MostUsable(s, n)
    ensures var r := UpdateDevices(s);
            && |r.devs| == |s.devs|
            && forall j :: 0 <= j < |s.devs| ==>
                 && (r.devs[j].enable <==> j < n || (s.devs[j].enable && s.devs[j].receiving))
                 && (r.devs[j].enable == s.devs[j].enable ==> r.devs[j] == s.devs[j])
  {
    var tc := TunerCount(s);
    TunerCountIsMost(s);
    UpdateEnables(s, 0, if tc < |s.devs| then tc else |s.devs|);
  }
}

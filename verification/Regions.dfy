/** How packets lie in the data area of the packet buffer: a list of regions, oldest first. */
module Regions {

  datatype Region = Region(off: int, len: int)

  /** Every region lies in the data area and has at least `least` bytes. */
  predicate Sized(rs: seq<Region>, least: nat, size: nat) {
    forall i :: 0 <= i < |rs| ==> rs[i].len >= least && 0 <= rs[i].off && rs[i].off + rs[i].len <= size
  }

  /** The regions from `a` to before `b` follow one another without gap. */
  predicate Linear(rs: seq<Region>, a: int, b: int)
    requires 0 <= a <= b <= |rs|
  {
    forall i :: a < i < b ==> rs[i].off == rs[i - 1].off + rs[i - 1].len
  }

  function End(rs: seq<Region>): int
    requires rs != []
  {
    rs[|rs| - 1].off + rs[|rs| - 1].len
  }

  predicate OneRun(rs: seq<Region>) {
    Linear(rs, 0, |rs|)
  }

  /** Two runs: the second begins with region `k`, at offset 0, and ends at or before the oldest. */
  predicate TwoRuns(rs: seq<Region>, k: int) {
    && 0 < k < |rs|
    && Linear(rs, 0, k) && Linear(rs, k, |rs|)
    && rs[k].off == 0 && End(rs) <= rs[0].off
  }

  ghost predicate LaidOut(rs: seq<Region>) {
    OneRun(rs) || exists k :: TwoRuns(rs, k)
  }

  predicate Apart(a: Region, b: Region) {
    a.off + a.len <= b.off || b.off + b.len <= a.off
  }

  /** A run of regions goes upwards. */
  lemma {:induction false} RunGoesUp(rs: seq<Region>, least: nat, size: nat, a: int, b: int, i: int, j: int)
    requires Sized(rs, least, size) && 0 <= a <= b <= |rs| && Linear(rs, a, b)
    requires a <= i < j < b
    ensures rs[i].off + rs[i].len <= rs[j].off
    decreases j - i
  {
    if i + 1 < j {
      RunGoesUp(rs, least, size, a, b, i + 1, j);
    }
  }

  /** Regions that are laid out do not overlap. */
  lemma LaidOutApart(rs: seq<Region>, least: nat, size: nat, i: int, j: int)
    requires Sized(rs, least, size) && LaidOut(rs) && 0 <= i < j < |rs|
    ensures Apart(rs[i], rs[j])
  {
    if OneRun(rs) {
      RunGoesUp(rs, least, size, 0, |rs|, i, j);
    } else {
      var k :| TwoRuns(rs, k);
      if j < k {
        RunGoesUp(rs, least, size, 0, k, i, j);
      } else if k <= i {
        RunGoesUp(rs, least, size, k, |rs|, i, j);
      } else {
        BelowTop(rs, least, size, k, j);
        AboveFirst(rs, least, size, k, i);
      }
    }
  }

  lemma BelowTop(rs: seq<Region>, least: nat, size: nat, k: int, j: int)
    requires Sized(rs, least, size) && 0 <= k <= j < |rs| && Linear(rs, k, |rs|)
    ensures rs[j].off + rs[j].len <= End(rs)
  {
    if j < |rs| - 1 {
      RunGoesUp(rs, least, size, k, |rs|, j, |rs| - 1);
    }
  }

  lemma AboveFirst(rs: seq<Region>, least: nat, size: nat, k: int, i: int)
    requires Sized(rs, least, size) && 0 <= i < k <= |rs| && Linear(rs, 0, k)
    ensures rs[0].off <= rs[i].off
  {
    if i > 0 {
      RunGoesUp(rs, least, size, 0, k, 0, i);
    }
  }

  /** Comparing the oldest offset with the newest one tells the two shapes apart. */
  lemma ShapeByOffsets(rs: seq<Region>, least: nat, size: nat)
    requires Sized(rs, least, size) && LaidOut(rs) && rs != [] && least >= 1
    ensures OneRun(rs) <==> rs[0].off <= rs[|rs| - 1].off
    ensures !OneRun(rs) ==> End(rs) <= rs[0].off
  {
    if OneRun(rs) {
      AboveFirst(rs, least, size, |rs|, |rs| - 1);
    }
  }

  /** Dropping the oldest regions keeps the layout. */
  lemma LaidOutDrop(rs: seq<Region>, n: nat, least: nat, size: nat)
    requires Sized(rs, least, size) && LaidOut(rs) && n <= |rs|
    ensures LaidOut(rs[n..]) && Sized(rs[n..], least, size)
  {
    var rest := rs[n..];
    if OneRun(rs) {
      assert OneRun(rest);
    } else {
      var k :| TwoRuns(rs, k);
      if n >= k {
        assert OneRun(rest);
      } else {
        AboveFirst(rs, least, size, k, n);
        assert TwoRuns(rest, k - n);
      }
    }
  }

  /** A region put right after the newest one. */
  lemma LaidOutExtend(rs: seq<Region>, r: Region)
    requires LaidOut(rs) && rs != [] && r.off == End(rs)
    requires OneRun(rs) || r.off + r.len <= rs[0].off
    ensures LaidOut(rs + [r])
  {
    hide Linear;
    if OneRun(rs) {
      LinearExtend(rs, r, 0);
    } else {
      var k :| TwoRuns(rs, k);
      LinearExtend(rs, r, k);
      LinearPrefix(rs, r, k);
      assert TwoRuns(rs + [r], k);
    }
  }

  lemma LinearExtend(rs: seq<Region>, r: Region, a: nat)
    requires a < |rs| && Linear(rs, a, |rs|) && r.off == End(rs)
    ensures Linear(rs + [r], a, |rs| + 1)
  {
  }

  lemma LinearPrefix(rs: seq<Region>, r: Region, k: nat)
    requires k <= |rs| && Linear(rs, 0, k)
    ensures Linear(rs + [r], 0, k)
  {
  }

  /** A region put at the start of the data area, in front of the oldest one. */
  lemma LaidOutWrap(rs: seq<Region>, r: Region)
    requires OneRun(rs) && rs != [] && r.off == 0 && r.len <= rs[0].off
    ensures LaidOut(rs + [r])
  {
    assert TwoRuns(rs + [r], |rs|);
  }

  /** Regions that are laid out cannot be more than the data area has room for. */
  lemma LaidOutFits(rs: seq<Region>, least: nat, size: nat)
    requires Sized(rs, least, size) && LaidOut(rs)
    ensures |rs| * least <= size
  {
    if rs == [] {
    } else if OneRun(rs) {
      RunLength(rs, least, size, 0, |rs|);
    } else {
      var k :| TwoRuns(rs, k);
      RunLength(rs, least, size, 0, k);
      RunLength(rs, least, size, k, |rs|);
      assert |rs| * least == k * least + (|rs| - k) * least;
    }
  }

  lemma {:induction false} RunLength(rs: seq<Region>, least: nat, size: nat, a: int, b: int)
    requires Sized(rs, least, size) && 0 <= a < b <= |rs| && Linear(rs, a, b)
    ensures rs[b - 1].off + rs[b - 1].len - rs[a].off >= (b - a) * least
    decreases b - a
  {
    if a + 1 < b {
      RunLength(rs, least, size, a, b - 1);
      assert (b - a) * least == (b - 1 - a) * least + least;
    }
  }

  /** The bytes that the regions take up. */
  function Total(rs: seq<Region>): int {
    if rs == [] then 0 else Total(rs[..|rs| - 1]) + rs[|rs| - 1].len
  }

  lemma {:induction false} LinearTotal(rs: seq<Region>)
    requires OneRun(rs) && rs != []
    ensures Total(rs) == End(rs) - rs[0].off
  {
    if |rs| == 1 {
      assert rs[..0] == [];
    } else {
      LinearTotal(rs[..|rs| - 1]);
    }
  }

  lemma {:induction false} TotalSplit(a: seq<Region>, b: seq<Region>)
    ensures Total(a + b) == Total(a) + Total(b)
    decreases |b|
  {
    if b == [] {
      assert a + b == a;
    } else {
      assert (a + b)[..|a + b| - 1] == a + b[..|b| - 1];
      TotalSplit(a, b[..|b| - 1]);
    }
  }

  lemma {:induction false} TotalOfSame(rs: seq<Region>, len: int)
    requires forall i :: 0 <= i < |rs| ==> rs[i].len == len
    ensures Total(rs) == |rs| * len
  {
    if rs != [] {
      TotalOfSame(rs[..|rs| - 1], len);
    }
  }

  lemma {:induction false} TotalNat(rs: seq<Region>, least: nat, size: nat)
    requires Sized(rs, least, size)
    ensures Total(rs) >= 0
  {
    if rs != [] {
      TotalNat(rs[..|rs| - 1], least, size);
    }
  }

  lemma SecondRun(rs: seq<Region>, k: int)
    requires TwoRuns(rs, k)
    ensures 0 < k < |rs| && OneRun(rs[k..]) && End(rs[k..]) == End(rs) && rs[k..][0].off == 0
  {
  }

  /** The second run begins at offset 0, so its end is what it takes up. */
  lemma TwoRunsTotal(rs: seq<Region>, k: int, least: nat, size: nat)
    requires Sized(rs, least, size) && TwoRuns(rs, k)
    ensures Total(rs) >= End(rs)
  {
    hide Total, Linear, TwoRuns;
    SecondRun(rs, k);
    var a, b := rs[..k], rs[k..];
    assert rs == a + b;
    TotalSplit(a, b);
    LinearTotal(b);
    TotalNat(a, least, size);
  }
}

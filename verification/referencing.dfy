/** What one block of virtual referencing computes, stated over the block as
    it was before the call: every channel with an active reference set loses
    `gain` times the uniform mean of the channels in that set. */
module Referencing {
  import opened Weights

  /** A block `[channel][sample]` in which every channel holds `n` samples. */
  ghost predicate IsBlock(block: seq<seq<real>>, n: nat)
  {
    forall c :: 0 <= c < |block| ==> |block[c]| == n
  }

  /** Sample `s` of every channel of the block. */
  function Column(block: seq<seq<real>>, n: nat, s: nat): (col: seq<real>)
    requires IsBlock(block, n) && s < n
    ensures |col| == |block| && forall c :: 0 <= c < |block| ==> col[c] == block[c][s]
  {
    seq(|block|, c requires 0 <= c < |block| => block[c][s])
  }

  /** Sum of `col[j]` over the active columns `j` of `row`. */
  function ActiveSum(row: seq<real>, col: seq<real>): real
    requires |row| <= |col|
  {
    if row == [] then 0.0
    else
      var last := |row| - 1;
      ActiveSum(row[..last], col) + (if row[last] > 0.0 then col[last] else 0.0)
  }

  /** The same sum with every term scaled by `w` before it is added, in the
      order in which the average buffer accumulates it. */
  function WeightedActiveSum(row: seq<real>, col: seq<real>, w: real): real
    requires |row| <= |col|
  {
    if row == [] then 0.0
    else
      var last := |row| - 1;
      WeightedActiveSum(row[..last], col, w) + (if row[last] > 0.0 then w * col[last] else 0.0)
  }

  /** Extending a prefix of the row by one column adds that column's scaled
      sample when it is active. */
  lemma WeightedActiveSumStep(row: seq<real>, col: seq<real>, w: real, j: nat)
    requires j < |row| <= |col|
    ensures WeightedActiveSum(row[..j + 1], col, w) ==
      WeightedActiveSum(row[..j], col, w) + (if row[j] > 0.0 then w * col[j] else 0.0)
  {
    assert row[..j + 1][..j] == row[..j];
  }

  /** One step of the accumulation: a buffer sample holding the weighted sum
      over the first `j` columns, to which sample `x == col[j]` is added with
      weight `w` when column `j` is active, holds the sum over `j + 1`. */
  lemma AccumulateSample(row: seq<real>, col: seq<real>, w: real, j: nat, before: real, after: real, x: real)
    requires j < |row| <= |col| && x == col[j]
    requires before == WeightedActiveSum(row[..j], col, w)
    requires after == if row[j] > 0.0 then before + w * x else before
    ensures after == WeightedActiveSum(row[..j + 1], col, w)
  {
    WeightedActiveSumStep(row, col, w, j);
  }

  /** Adding the scaled terms one by one gives the scaled sum. */
  lemma {:induction false} WeightedActiveSumFactors(row: seq<real>, col: seq<real>, w: real)
    requires |row| <= |col|
    ensures WeightedActiveSum(row, col, w) == w * ActiveSum(row, col)
  {
    if row != [] {
      WeightedActiveSumFactors(row[..|row| - 1], col, w);
    }
  }

  /** The uniform mean of `k > 0` values that add up to `sum`. */
  function Mean(sum: real, k: nat): real
    requires k > 0
  {
    sum / k as real
  }

  /** Sample `x` of a channel whose weight row is `row`, given the samples
      `col` of all channels at the same instant. */
  function Rereferenced(row: seq<real>, x: real, col: seq<real>, gain: real): (r: real)
    requires |row| <= |col|
    ensures ActiveCount(row) == 0 || gain == 0.0 ==> r == x
  {
    if ActiveCount(row) == 0 then x else x - gain * Mean(ActiveSum(row, col), ActiveCount(row))
  }

  /** The whole block of `n` samples per channel after referencing with
      matrix `m`: channels `0..|m|-1` are re-referenced, the remaining
      channels pass through. */
  function Transform(m: seq<seq<real>>, block: seq<seq<real>>, n: nat, gain: real): (out: seq<seq<real>>)
    requires IsSquare(m) && IsBlock(block, n) && |m| <= |block|
    ensures |out| == |block| && IsBlock(out, n)
  {
    seq(|block|, i requires 0 <= i < |block| =>
      if i < |m| then
        seq(n, s requires 0 <= s < n => Rereferenced(m[i], block[i][s], Column(block, n, s), gain))
      else block[i])
  }

  /** Two blocks of the same shape that agree sample by sample are equal. */
  lemma SameBlock(a: seq<seq<real>>, b: seq<seq<real>>, n: nat)
    requires IsBlock(a, n) && IsBlock(b, n) && |a| == |b|
    requires forall c, s :: 0 <= c < |a| && 0 <= s < n ==> a[c][s] == b[c][s]
    ensures a == b
  {
    forall c | 0 <= c < |a| ensures a[c] == b[c] {
    }
  }

  /** Sample `s` of channel `i` of the transformed block. */
  lemma TransformAt(m: seq<seq<real>>, block: seq<seq<real>>, n: nat, gain: real, i: nat, s: nat)
    requires IsSquare(m) && IsBlock(block, n) && |m| <= |block|
    requires i < |block| && s < n
    ensures Transform(m, block, n, gain)[i][s] ==
      if i < |m| then Rereferenced(m[i], block[i][s], Column(block, n, s), gain) else block[i][s]
  {
  }

  /** A channel outside the matrix, or one whose row has no active entry,
      comes out sample for sample as it went in. */
  lemma TransformIdentity(m: seq<seq<real>>, block: seq<seq<real>>, n: nat, gain: real, i: nat)
    requires IsSquare(m) && IsBlock(block, n) && |m| <= |block| && i < |block|
    requires i >= |m| || forall j :: 0 <= j < |m| ==> m[i][j] <= 0.0
    ensures Transform(m, block, n, gain)[i] == block[i]
  {
    if i < |m| {
      ActiveCountNone(m[i]);
    }
  }

  /** The averaging law: with reference set `S` of size `k > 0`, every output
      sample is the input sample minus `gain` times the mean, over the
      channels of `S`, of their input samples. */
  lemma AveragingLaw(m: seq<seq<real>>, block: seq<seq<real>>, n: nat, gain: real, i: nat, s: nat)
    requires IsSquare(m) && IsBlock(block, n) && |m| <= |block|
    requires i < |m| && s < n && |ActiveSet(m[i])| > 0
    ensures Transform(m, block, n, gain)[i][s] ==
      block[i][s] - gain * Mean(ActiveSum(m[i], Column(block, n, s)), |ActiveSet(m[i])|)
  {
    ActiveCountIsSetSize(m[i]);
    TransformAt(m, block, n, gain, i, s);
  }

  /** Accumulating the active samples each scaled by `1/k` and adding the
      result with factor `-gain` subtracts `gain` times their mean. */
  lemma ScaledAverage(row: seq<real>, x: real, col: seq<real>, gain: real, k: nat)
    requires |row| <= |col| && k > 0
    ensures x + (-1.0 * gain) * WeightedActiveSum(row, col, 1.0 / k as real)
         == x - gain * Mean(ActiveSum(row, col), k)
  {
    WeightedActiveSumFactors(row, col, 1.0 / k as real);
  }

  /** The same with `k` the number of active entries: a sample `x` to which
      the average buffer's sample `avg` is added with factor `-gain` becomes
      the re-referenced sample. */
  lemma AccumulatedAverage(row: seq<real>, x: real, col: seq<real>, gain: real, k: nat, avg: real, out: real)
    requires |row| <= |col| && k == ActiveCount(row) && k > 0
    requires avg == WeightedActiveSum(row, col, 1.0 / k as real)
    requires out == x + (-1.0 * gain) * avg
    ensures out == Rereferenced(row, x, col, gain)
  {
    ScaledAverage(row, x, col, gain, k);
  }

  /** Rows with the same active columns have the same count and sum. */
  lemma {:induction false} SameGateSameSum(r1: seq<real>, r2: seq<real>, col: seq<real>)
    requires |r1| == |r2| <= |col|
    requires forall j :: 0 <= j < |r1| ==> (r1[j] > 0.0 <==> r2[j] > 0.0)
    ensures ActiveCount(r1) == ActiveCount(r2)
    ensures ActiveSum(r1, col) == ActiveSum(r2, col)
  {
    if r1 != [] {
      var last := |r1| - 1;
      SameGateSameSum(r1[..last], r2[..last], col);
    }
  }

  /** Two matrices whose row `i` has the same active entries give channel
      `i` the same output sample. */
  lemma SameGateSameOutput(m1: seq<seq<real>>, m2: seq<seq<real>>, block: seq<seq<real>>, n: nat, gain: real, i: nat, s: nat)
    requires IsSquare(m1) && IsSquare(m2) && |m1| == |m2|
    requires IsBlock(block, n) && |m1| <= |block| && i < |block| && s < n
    requires i < |m1| ==> forall j :: 0 <= j < |m1| ==> (m1[i][j] > 0.0 <==> m2[i][j] > 0.0)
    ensures Transform(m1, block, n, gain)[i][s] == Transform(m2, block, n, gain)[i][s]
  {
    TransformAt(m1, block, n, gain, i, s);
    TransformAt(m2, block, n, gain, i, s);
    if i < |m1| {
      SameGateSameSum(m1[i], m2[i], Column(block, n, s));
    }
  }

  /** Only whether a weight is active matters, never its magnitude: two
      matrices with the same active entries give the same output. */
  lemma MagnitudeIgnored(m1: seq<seq<real>>, m2: seq<seq<real>>, block: seq<seq<real>>, n: nat, gain: real)
    requires IsSquare(m1) && IsSquare(m2) && |m1| == |m2|
    requires forall i, j :: 0 <= i < |m1| && 0 <= j < |m1| ==> (m1[i][j] > 0.0 <==> m2[i][j] > 0.0)
    requires IsBlock(block, n) && |m1| <= |block|
    ensures Transform(m1, block, n, gain) == Transform(m2, block, n, gain)
  {
    var o1, o2 := Transform(m1, block, n, gain), Transform(m2, block, n, gain);
    forall i | 0 <= i < |block| ensures o1[i] == o2[i] {
      forall s | 0 <= s < n ensures o1[i][s] == o2[i][s] {
        SameGateSameOutput(m1, m2, block, n, gain, i, s);
      }
    }
  }

  /** `k` copies of `c` added one by one. */
  function Repeat(k: nat, c: real): real
  {
    if k == 0 then 0.0 else Repeat(k - 1, c) + c
  }

  /** `k` copies of `c` add up to `k * c`. */
  lemma {:induction false} RepeatIsProduct(k: nat, c: real)
    ensures Repeat(k, c) == k as real * c
  {
    if k > 0 {
      RepeatIsProduct(k - 1, c);
      var r := (k - 1) as real;
      assert k as real == r + 1.0;
      assert (r + 1.0) * c == r * c + c;
    }
  }

  /** The mean of `k > 0` copies of `c` is `c`. */
  lemma MeanOfRepeat(k: nat, c: real)
    requires k > 0
    ensures Mean(Repeat(k, c), k) == c
  {
    RepeatIsProduct(k, c);
  }

  /** When every referenced channel carries the same value `c`, the active
      sum is `k` copies of `c`. */
  lemma {:induction false} CommonModeSum(row: seq<real>, col: seq<real>, c: real)
    requires |row| <= |col|
    requires forall j :: 0 <= j < |row| && row[j] > 0.0 ==> col[j] == c
    ensures ActiveSum(row, col) == Repeat(ActiveCount(row), c)
  {
    if row != [] {
      CommonModeSum(row[..|row| - 1], col, c);
    }
  }

  /** A signal common to all referenced channels is removed scaled by the
      gain: with gain 1 and the channel in its own reference set, that
      common signal is cancelled. */
  lemma CommonModeRemoved(m: seq<seq<real>>, block: seq<seq<real>>, n: nat, gain: real, i: nat, s: nat, c: real)
    requires IsSquare(m) && IsBlock(block, n) && |m| <= |block|
    requires i < |m| && s < n && ActiveCount(m[i]) > 0
    requires forall j :: 0 <= j < |m| && m[i][j] > 0.0 ==> block[j][s] == c
    ensures Transform(m, block, n, gain)[i][s] == block[i][s] - gain * c
  {
    TransformAt(m, block, n, gain, i, s);
    CommonModeSum(m[i], Column(block, n, s), c);
    MeanOfRepeat(ActiveCount(m[i]), c);
  }

  /** The active counts and sums of the example's rows. */
  lemma ExampleSums()
    ensures ActiveCount([0.0, 1.0, 1.0]) == 2 && ActiveSum([0.0, 1.0, 1.0], [10.0, 20.0, 30.0]) == 50.0
    ensures ActiveCount([1.0, 0.0, 0.0]) == 1 && ActiveSum([1.0, 0.0, 0.0], [10.0, 20.0, 30.0]) == 10.0
    ensures ActiveCount([0.0, 0.0, 0.0]) == 0
  {
    var col := [10.0, 20.0, 30.0];
    assert [0.0, 1.0, 1.0][..2] == [0.0, 1.0] && [0.0, 1.0][..1] == [0.0] && [0.0][..0] == [];
    assert [1.0, 0.0, 0.0][..2] == [1.0, 0.0] && [1.0, 0.0][..1] == [1.0] && [1.0][..0] == [];
    assert [0.0, 0.0, 0.0][..2] == [0.0, 0.0] && [0.0, 0.0][..1] == [0.0];
    assert ActiveCount([0.0, 1.0]) == 1 && ActiveSum([0.0, 1.0], col) == 20.0;
    assert ActiveCount([1.0, 0.0]) == 1 && ActiveSum([1.0, 0.0], col) == 10.0;
    assert ActiveCount([0.0, 0.0]) == 0;
  }

  /** Three channels with rows [0,1,1], [0,0,0], [1,0,0], gain 1 and one
      sample [10, 20, 30]: channel 0 loses the mean of 20 and 30, channel 1
      has no reference, channel 2 loses 10. */
  lemma ThreeChannelExample()
    ensures Transform([[0.0, 1.0, 1.0], [0.0, 0.0, 0.0], [1.0, 0.0, 0.0]],
                      [[10.0], [20.0], [30.0]], 1, 1.0)
         == [[-15.0], [20.0], [20.0]]
  {
    var m := [[0.0, 1.0, 1.0], [0.0, 0.0, 0.0], [1.0, 0.0, 0.0]];
    var block := [[10.0], [20.0], [30.0]];
    assert Column(block, 1, 0) == [10.0, 20.0, 30.0];
    ExampleSums();
    assert ActiveCount(m[0]) == 2 && ActiveCount(m[1]) == 0 && ActiveCount(m[2]) == 1;
    var out := Transform(m, block, 1, 1.0);
    TransformAt(m, block, 1, 1.0, 0, 0);
    TransformAt(m, block, 1, 1.0, 1, 0);
    TransformAt(m, block, 1, 1.0, 2, 0);
    assert out[0] == [-15.0];
    assert out[1] == [20.0];
    assert out[2] == [20.0];
  }
}

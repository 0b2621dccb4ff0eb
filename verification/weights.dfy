/** Pure definitions about the reference weights, viewed as a square grid of
    rows: `m[i][j]` is the weight of channel `j` in the reference of channel
    `i`. An entry is active when it is `> 0`; nothing else about its value is
    used by the averaging. */
module Weights {

  /** The number of rows and columns that a channel count `n` yields: every
      loop `for (i = 0; i < n; i++)` runs zero times for a negative `n`. */
  function Dim(n: int): nat
  {
    if n < 0 then 0 else n
  }

  /** Every row of `m` is as long as `m` has rows. */
  ghost predicate IsSquare(m: seq<seq<real>>)
  {
    forall i :: 0 <= i < |m| ==> |m[i]| == |m|
  }

  lemma MulMonotone(x: int, y: int, n: int)
    requires 0 <= x <= y && 0 <= n
    ensures x * n <= y * n
  {
    assert y * n - x * n == (y - x) * n;
  }

  /** Row-major position of entry `(i, j)` in a flat `n*n` buffer; it always
      lies inside the buffer. */
  function Offset(n: int, i: int, j: int): (k: nat)
    requires 0 <= i < n && 0 <= j < n
    ensures k < n * n
  {
    MulMonotone(i + 1, n, n);
    i * n + j
  }

  /** Row `i` of a flat `n*n` buffer is the slice starting at `i * n`. */
  lemma RowStart(n: int, i: int)
    requires 0 <= i < n
    ensures i * n + n <= n * n
    ensures forall j :: 0 <= j < n ==> Offset(n, i, j) == i * n + j
  {
    MulMonotone(i + 1, n, n);
    assert (i + 1) * n == i * n + n;
  }

  /** Entries in different rows, or in the same row and different columns,
      occupy different positions of the flat buffer. */
  lemma OffsetDistinct(n: int, a: int, b: int, i: int, j: int)
    requires 0 <= a < n && 0 <= b < n && 0 <= i < n && 0 <= j < n && (a != i || b != j)
    ensures Offset(n, a, b) != Offset(n, i, j)
  {
    if a < i {
      MulMonotone(a + 1, i, n);
      assert (a + 1) * n == a * n + n;
    } else if i < a {
      MulMonotone(i + 1, a, n);
      assert (i + 1) * n == i * n + n;
    }
  }

  /** Distinct entries occupy distinct positions of the flat buffer, so a
      write to one entry leaves every other entry alone. */
  lemma OffsetsDistinct(n: int, i: int, j: int)
    requires 0 <= i < n && 0 <= j < n
    ensures forall a, b :: 0 <= a < n && 0 <= b < n && (a != i || b != j) ==>
              Offset(n, a, b) != Offset(n, i, j)
  {
    forall a, b | 0 <= a < n && 0 <= b < n && (a != i || b != j)
      ensures Offset(n, a, b) != Offset(n, i, j)
    {
      OffsetDistinct(n, a, b, i, j);
    }
  }

  /** A row of `k` copies of `v`. */
  function Constant(k: nat, v: real): (r: seq<real>)
    ensures |r| == k && forall j :: 0 <= j < k ==> r[j] == v
  {
    seq(k, _ => v)
  }

  /** The `d` by `d` grid whose entries are all `v`. */
  function Filled(d: nat, v: real): (m: seq<seq<real>>)
    ensures |m| == d && IsSquare(m)
    ensures forall i, j :: 0 <= i < d && 0 <= j < d ==> m[i][j] == v
  {
    seq(d, _ => Constant(d, v))
  }

  /** The all-zero grid of a freshly allocated matrix. */
  function Zeros(d: nat): (m: seq<seq<real>>)
    ensures |m| == d && IsSquare(m)
    ensures forall i, j :: 0 <= i < d && 0 <= j < d ==> m[i][j] == 0.0
  {
    Filled(d, 0.0)
  }

  /** The grid after a bounds-checked write of `v` at `(r, c)`: an
      out-of-range position leaves the grid as it was. */
  function Store(m: seq<seq<real>>, r: int, c: int, v: real): (m': seq<seq<real>>)
    requires IsSquare(m)
    ensures |m'| == |m| && IsSquare(m')
    ensures 0 <= r < |m| && 0 <= c < |m| ==> m'[r][c] == v
    ensures forall i, j :: 0 <= i < |m| && 0 <= j < |m| && (i != r || j != c) ==> m'[i][j] == m[i][j]
  {
    if 0 <= r < |m| && 0 <= c < |m| then m[r := m[r][c := v]] else m
  }

  /** The grid after writing `v` into the top-left `min(|m|, k)` square:
      entry `(i, j)` changes exactly when both `i` and `j` are below `k`. */
  function FillTopLeft(m: seq<seq<real>>, k: int, v: real): (m': seq<seq<real>>)
    requires IsSquare(m)
    ensures |m'| == |m| && IsSquare(m')
    ensures forall i, j :: 0 <= i < |m| && 0 <= j < |m| && i < k && j < k ==> m'[i][j] == v
    ensures forall i, j :: 0 <= i < |m| && 0 <= j < |m| && !(i < k && j < k) ==> m'[i][j] == m[i][j]
  {
    seq(|m|, i requires 0 <= i < |m| =>
      seq(|m|, j requires 0 <= j < |m| => if i < k && j < k then v else m[i][j]))
  }

  /** A non-positive bound writes nothing. */
  lemma FillTopLeftNothing(m: seq<seq<real>>, k: int, v: real)
    requires IsSquare(m) && k <= 0
    ensures FillTopLeft(m, k, v) == m
  {
    var m' := FillTopLeft(m, k, v);
    forall i | 0 <= i < |m| ensures m'[i] == m[i] {
      assert |m'[i]| == |m[i]|;
    }
  }

  /** A bound of at least the dimension writes the whole grid. */
  lemma FillTopLeftEverything(m: seq<seq<real>>, k: int, v: real)
    requires IsSquare(m) && |m| <= k
    ensures FillTopLeft(m, k, v) == Filled(|m|, v)
  {
    var m' := FillTopLeft(m, k, v);
    forall i | 0 <= i < |m| ensures m'[i] == Filled(|m|, v)[i] {
      assert |m'[i]| == |m|;
    }
  }

  /** Number of active (`> 0`) entries of a row. */
  function ActiveCount(row: seq<real>): (k: nat)
    ensures k <= |row|
  {
    if row == [] then 0
    else ActiveCount(row[..|row| - 1]) + (if row[|row| - 1] > 0.0 then 1 else 0)
  }

  /** No entry is active exactly when the count is 0. */
  lemma {:induction false} ActiveCountNone(row: seq<real>)
    ensures ActiveCount(row) == 0 <==> forall j :: 0 <= j < |row| ==> row[j] <= 0.0
  {
    if row != [] {
      var front := row[..|row| - 1];
      ActiveCountNone(front);
      assert forall j :: 0 <= j < |front| ==> front[j] == row[j];
    }
  }

  /** Every entry is active exactly when the count is the row length. */
  lemma {:induction false} ActiveCountAll(row: seq<real>)
    ensures ActiveCount(row) == |row| <==> forall j :: 0 <= j < |row| ==> row[j] > 0.0
  {
    if row != [] {
      var front := row[..|row| - 1];
      ActiveCountAll(front);
      assert forall j :: 0 <= j < |front| ==> front[j] == row[j];
    }
  }

  /** The reference set of a row: the columns whose entry is active. */
  function ActiveSet(row: seq<real>): set<nat>
  {
    set j: nat | j < |row| && row[j] > 0.0
  }

  /** The active count is the size of the reference set. */
  lemma {:induction false} ActiveCountIsSetSize(row: seq<real>)
    ensures ActiveCount(row) == |ActiveSet(row)|
  {
    if row != [] {
      var last := |row| - 1;
      var front := row[..last];
      ActiveCountIsSetSize(front);
      if row[last] > 0.0 {
        assert ActiveSet(row) == ActiveSet(front) + {last};
      } else {
        assert ActiveSet(row) == ActiveSet(front);
      }
    }
  }

  /** The grid with every non-active entry replaced by 0: what survives a
      save and a load into a zeroed matrix. */
  function Positive(m: seq<seq<real>>): (p: seq<seq<real>>)
    requires IsSquare(m)
    ensures |p| == |m| && IsSquare(p)
    ensures forall i, j :: 0 <= i < |m| && 0 <= j < |m| ==> (p[i][j] > 0.0 <==> m[i][j] > 0.0)
    ensures forall i, j :: 0 <= i < |m| && 0 <= j < |m| && m[i][j] > 0.0 ==> p[i][j] == m[i][j]
    ensures forall i, j :: 0 <= i < |m| && 0 <= j < |m| && m[i][j] <= 0.0 ==> p[i][j] == 0.0
  {
    seq(|m|, i requires 0 <= i < |m| =>
      seq(|m|, j requires 0 <= j < |m| => if m[i][j] > 0.0 then m[i][j] else 0.0))
  }
}

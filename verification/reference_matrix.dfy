/** The reference-weight matrix: an owned, row-major `n*n` buffer that is
    reallocated and zero-filled whenever the channel count changes. */
module ReferenceMatrices {
  import opened Weights

  /** A row view (a `float*`) into a matrix buffer: null, or the position in
      `buf` where the row starts. It reads the live buffer, so it sees later
      writes and is left dangling by a reallocation. */
  datatype RowView = Null | Row(buf: array<real>, start: nat)

  class ReferenceMatrix {
    var nChannels: int
    /** The count the buffer was last allocated for; -1 before the first allocation. */
    var nChannelsBefore: int
    /** Null until the first allocation. */
    var values: array?<real>
    /** The abstract value: `Rows[i][j]` is the weight of channel `j` in the
        reference of channel `i`. */
    ghost var Rows: seq<seq<real>>

    /** The buffer was allocated for the current count and holds `Rows` row by row. */
    ghost predicate Valid()
      reads this, values
    {
      nChannelsBefore == nChannels &&
      |Rows| == Dim(nChannels) && IsSquare(Rows) &&
      (values == null ==> nChannels == -1) &&
      (values != null ==>
        values.Length == nChannels * nChannels &&
        forall i, j :: 0 <= i < |Rows| && 0 <= j < |Rows| ==>
          values[Offset(nChannels, i, j)] == Rows[i][j])
    }

    /** Allocates a zeroed matrix for `nChan` channels. A count of -1 equals
        the initial `nChannelsBefore`, so nothing is allocated then. */
    constructor (nChan: int)
      ensures Valid() && nChannels == nChan
      ensures Rows == Zeros(Dim(nChan))
      ensures values != null ==> fresh(values)
    {
      nChannels := nChan;
      nChannelsBefore := -1;
      values := null;
      Rows := [];
      new;
      Update();
    }

    /** Reallocates and zero-fills the buffer when the count differs from the
        one it was allocated for; otherwise changes nothing. */
    method Update()
      requires nChannels == nChannelsBefore ==> Valid()
      modifies this
      ensures Valid() && nChannels == old(nChannels)
      ensures old(nChannels) == old(nChannelsBefore) ==> values == old(values) && Rows == old(Rows)
      ensures old(nChannels) != old(nChannelsBefore) ==> fresh(values) && Rows == Zeros(Dim(nChannels))
    {
      if nChannels != nChannelsBefore {
        var n := nChannels;
        assert n * n >= 0 by {
          if n < 0 { assert n * n == (-n) * (-n); }
        }
        var buf := new real[n * n];
        var k := 0;
        while k < n * n
          modifies buf
          invariant 0 <= k <= n * n
          invariant forall p :: 0 <= p < k ==> buf[p] == 0.0
        {
          buf[k] := 0.0;
          k := k + 1;
        }
        values := buf;
        nChannelsBefore := nChannels;
        Rows := Zeros(Dim(nChannels));
      }
    }

    /** Sets the channel count: a different count discards every weight and
        leaves an all-zero matrix of the new size; the same count changes
        nothing. */
    method SetNumberOfChannels(n: int)
      requires Valid()
      modifies this
      ensures Valid() && nChannels == n
      ensures n == old(nChannels) ==> values == old(values) && Rows == old(Rows)
      ensures n != old(nChannels) ==> fresh(values) && Rows == Zeros(Dim(n))
    {
      nChannels := n;
      Update();
    }

    /** The channel count; the matrix has that many rows and columns when it
        is not negative, and none otherwise. */
    function GetNumberOfChannels(): (n: int)
      reads this, values
      requires Valid()
      ensures |Rows| == Dim(n)
    {
      nChannels
    }

    /** Stores `value` at `(rowIndex, colIndex)` when both lie in `[0, n)`;
        an out-of-range write is dropped (the source only logs it). */
    method SetValue(rowIndex: int, colIndex: int, value: real)
      requires Valid()
      modifies this, values
      ensures Valid() && nChannels == old(nChannels) && values == old(values)
      ensures Rows == Store(old(Rows), rowIndex, colIndex, value)
    {
      if 0 <= rowIndex < nChannels && 0 <= colIndex < nChannels {
        OffsetsDistinct(nChannels, rowIndex, colIndex);
        values[Offset(nChannels, rowIndex, colIndex)] := value;
        Rows := Rows[rowIndex := Rows[rowIndex][colIndex := value]];
      }
    }

    /** The weight at `(rowIndex, colIndex)`, or the sentinel -1 when either
        index is out of range. */
    function GetValue(rowIndex: int, colIndex: int): (v: real)
      reads this, values
      requires Valid()
      ensures 0 <= rowIndex < |Rows| && 0 <= colIndex < |Rows| ==> v == Rows[rowIndex][colIndex]
      ensures !(0 <= rowIndex < nChannels && 0 <= colIndex < nChannels) ==> v == -1.0
    {
      if 0 <= rowIndex < nChannels && 0 <= colIndex < nChannels then
        values[Offset(nChannels, rowIndex, colIndex)]
      else
        -1.0
    }

    /** A view of row `index` of the live buffer, or null when `index` is
        out of range. */
    function GetChannel(index: int): (view: RowView)
      reads this, values
      requires Valid()
      ensures view.Row? <==> 0 <= index < nChannels
      ensures view.Row? ==>
        view.buf == values && view.start + |Rows| <= view.buf.Length &&
        forall j :: 0 <= j < |Rows| ==> view.buf[view.start + j] == Rows[index][j]
    {
      if 0 <= index < nChannels then
        RowStart(nChannels, index);
        Row(values, index * nChannels)
      else
        Null
    }

    /** Whether every weight of row `index` is active. Out of range the count
        of active entries stays 0, so the answer is whether the matrix has no
        channels at all. */
    method AllChannelReferencesActive(index: int) returns (active: bool)
      requires Valid()
      ensures 0 <= index < nChannels ==>
        (active <==> forall j :: 0 <= j < |Rows| ==> Rows[index][j] > 0.0)
      ensures !(0 <= index < nChannels) ==> (active <==> nChannels == 0)
    {
      var chan := GetChannel(index);
      var nActive := 0;
      if chan.Row? {
        var i := 0;
        while i < nChannels
          invariant 0 <= i <= nChannels
          invariant nActive == ActiveCount(Rows[index][..i])
        {
          assert Rows[index][..i + 1][..i] == Rows[index][..i];
          assert chan.buf[chan.start + i] == Rows[index][i];
          if chan.buf[chan.start + i] > 0.0 {
            nActive := nActive + 1;
          }
          i := i + 1;
        }
        assert Rows[index][..nChannels] == Rows[index];
        ActiveCountAll(Rows[index]);
      }
      active := nActive == nChannels;
    }

    /** Sets every weight to `value`. */
    method SetAll(value: real)
      requires Valid()
      modifies this, values
      ensures Valid() && nChannels == old(nChannels) && values == old(values)
      ensures Rows == Filled(|old(Rows)|, value)
    {
      if values != null {
        var n := nChannels;
        var i := 0;
        while i < n
          modifies values
          invariant 0 <= i <= Dim(n)
          invariant forall a, b :: 0 <= a < n && 0 <= b < n ==>
            values[Offset(n, a, b)] == if a < i then value else old(values[Offset(n, a, b)])
        {
          var j := 0;
          while j < n
            modifies values
            invariant 0 <= j <= n
            invariant forall a, b :: 0 <= a < n && 0 <= b < n ==>
              values[Offset(n, a, b)] ==
                if a < i || (a == i && b < j) then value else old(values[Offset(n, a, b)])
          {
            OffsetsDistinct(n, i, j);
            values[Offset(n, i, j)] := value;
            j := j + 1;
          }
          i := i + 1;
        }
        Rows := Filled(|Rows|, value);
      }
    }

    /** Sets the weights of the top-left `min(n, maxChan)` square to `value`
        and leaves the others; a non-positive `maxChan` changes nothing. */
    method SetAllUpTo(value: real, maxChan: int)
      requires Valid()
      modifies this, values
      ensures Valid() && nChannels == old(nChannels) && values == old(values)
      ensures Rows == FillTopLeft(old(Rows), maxChan, value)
    {
      if values != null {
        var n := nChannels;
        var k := if n < maxChan then n else maxChan;
        var i := 0;
        while i < k
          modifies values
          invariant 0 <= i <= Dim(k)
          invariant forall a, b :: 0 <= a < n && 0 <= b < n ==>
            values[Offset(n, a, b)] == if a < i && b < k then value else old(values[Offset(n, a, b)])
        {
          var j := 0;
          while j < k
            modifies values
            invariant 0 <= j <= k
            invariant forall a, b :: 0 <= a < n && 0 <= b < n ==>
              values[Offset(n, a, b)] ==
                if (a < i && b < k) || (a == i && b < j) then value else old(values[Offset(n, a, b)])
          {
            OffsetsDistinct(n, i, j);
            values[Offset(n, i, j)] := value;
            j := j + 1;
          }
          i := i + 1;
        }
        Rows := FillTopLeft(Rows, maxChan, value);
      }
    }

    /** Sets every weight to 0. */
    method Clear()
      requires Valid()
      modifies this, values
      ensures Valid() && nChannels == old(nChannels) && values == old(values)
      ensures Rows == Zeros(|old(Rows)|)
    {
      if values != null {
        var n := nChannels;
        var i := 0;
        while i < n
          modifies values
          invariant 0 <= i <= Dim(n)
          invariant forall a, b :: 0 <= a < n && 0 <= b < n ==>
            values[Offset(n, a, b)] == if a < i then 0.0 else old(values[Offset(n, a, b)])
        {
          var j := 0;
          while j < n
            modifies values
            invariant 0 <= j <= n
            invariant forall a, b :: 0 <= a < n && 0 <= b < n ==>
              values[Offset(n, a, b)] ==
                if a < i || (a == i && b < j) then 0.0 else old(values[Offset(n, a, b)])
          {
            OffsetsDistinct(n, i, j);
            values[Offset(n, i, j)] := 0.0;
            j := j + 1;
          }
          i := i + 1;
        }
        Rows := Zeros(|Rows|);
      }
    }
  }
}

/** The virtual-reference processor: a reference matrix, a global gain and
    two scratch buffers, with the per-block processing and the saving and
    loading of its settings. */
module VirtualRefs {
  import opened Weights
  import opened ReferenceMatrices
  import opened Referencing
  import opened Persistence

  /** The samples of a buffer, `[channel][sample]`. */
  ghost function Snapshot(a: array2<real>): (block: seq<seq<real>>)
    reads a
    ensures |block| == a.Length0 && IsBlock(block, a.Length1)
    ensures forall c, s :: 0 <= c < a.Length0 && 0 <= s < a.Length1 ==> block[c][s] == a[c, s]
  {
    seq(a.Length0, c requires 0 <= c < a.Length0 reads a =>
      seq(a.Length1, s requires 0 <= s < a.Length1 reads a => a[c, s]))
  }

  /** Assigning one sample buffer to another: a new buffer of the same shape
      holding the same samples. */
  method CopyBuffer(source: array2<real>) returns (copy: array2<real>)
    ensures fresh(copy) && copy.Length0 == source.Length0 && copy.Length1 == source.Length1
    ensures forall c, s :: 0 <= c < source.Length0 && 0 <= s < source.Length1 ==> copy[c, s] == source[c, s]
  {
    copy := new real[source.Length0, source.Length1];
    var c := 0;
    while c < source.Length0
      modifies copy
      invariant 0 <= c <= source.Length0
      invariant forall a, s :: 0 <= a < c && 0 <= s < source.Length1 ==> copy[a, s] == source[a, s]
    {
      var s := 0;
      while s < source.Length1
        modifies copy
        invariant 0 <= s <= source.Length1
        invariant forall a, t :: 0 <= a < c && 0 <= t < source.Length1 ==> copy[a, t] == source[a, t]
        invariant forall t :: 0 <= t < s ==> copy[c, t] == source[c, t]
      {
        copy[c, s] := source[c, s];
        s := s + 1;
      }
      c := c + 1;
    }
  }

  /** Clearing a one-channel buffer: every sample becomes 0. */
  method ClearSamples(a: array<real>)
    modifies a
    ensures forall s :: 0 <= s < a.Length ==> a[s] == 0.0
  {
    var s := 0;
    while s < a.Length
      invariant 0 <= s <= a.Length
      invariant forall t :: 0 <= t < s ==> a[t] == 0.0
    {
      a[s] := 0.0;
      s := s + 1;
    }
  }

  /** Adding the first `numSamples` samples of channel `channel` of `source`,
      scaled by `gain`, onto a one-channel buffer. */
  method AddFromChannel(dest: array<real>, source: array2<real>, channel: nat, numSamples: nat, gain: real)
    requires channel < source.Length0 && numSamples <= source.Length1 && numSamples <= dest.Length
    modifies dest
    ensures forall s :: 0 <= s < dest.Length ==>
      dest[s] == if s < numSamples then old(dest[s]) + gain * source[channel, s] else old(dest[s])
  {
    var s := 0;
    while s < numSamples
      invariant 0 <= s <= numSamples
      invariant forall t :: 0 <= t < dest.Length ==>
        dest[t] == if t < s then old(dest[t]) + gain * source[channel, t] else old(dest[t])
    {
      dest[s] := dest[s] + gain * source[channel, s];
      s := s + 1;
    }
  }

  /** Adding the first `numSamples` samples of a one-channel buffer, scaled
      by `gain`, onto channel `channel` of `dest`. */
  method AddToChannel(dest: array2<real>, channel: nat, source: array<real>, numSamples: nat, gain: real)
    requires channel < dest.Length0 && numSamples <= dest.Length1 && numSamples <= source.Length
    modifies dest
    ensures forall c, s :: 0 <= c < dest.Length0 && 0 <= s < dest.Length1 ==>
      dest[c, s] == if c == channel && s < numSamples then old(dest[c, s]) + gain * source[s] else old(dest[c, s])
  {
    var s := 0;
    while s < numSamples
      invariant 0 <= s <= numSamples
      invariant forall c, t :: 0 <= c < dest.Length0 && 0 <= t < dest.Length1 ==>
        dest[c, t] == if c == channel && t < s then old(dest[c, t]) + gain * source[t] else old(dest[c, t])
    {
      dest[channel, s] := dest[channel, s] + gain * source[s];
      s := s + 1;
    }
  }

  /** `ref` points at a stretch of its buffer holding `row`. */
  ghost predicate PointsTo(ref: RowView, row: seq<real>)
    reads if ref.Row? then {ref.buf} else {}
  {
    ref.Row? && ref.start + |row| <= ref.buf.Length &&
    forall j :: 0 <= j < |row| ==> ref.buf[ref.start + j] == row[j]
  }

  /** The first loop over a row in `process`: the number of active entries
      of the `numChan` weights that `ref` points at. */
  method CountReferences(ref: RowView, numChan: int, ghost row: seq<real>) returns (numRefs: nat)
    requires PointsTo(ref, row) && numChan == |row|
    ensures numRefs == ActiveCount(row)
  {
    var j := 0;
    numRefs := 0;
    while j < numChan
      invariant 0 <= j <= numChan
      invariant numRefs == ActiveCount(row[..j])
    {
      assert row[..j + 1][..j] == row[..j];
      if ref.buf[ref.start + j] > 0.0 {
        numRefs := numRefs + 1;
      }
      j := j + 1;
    }
    assert row[..numChan] == row;
  }

  /** The second loop over a row in `process`: adds every channel `j` of
      `source` whose weight is active onto the cleared buffer `avg`, each
      scaled by `1/numRefs` as it is added. */
  method AverageReferences(avg: array<real>, source: array2<real>, ref: RowView, numChan: int, numRefs: nat,
                           ghost row: seq<real>, ghost input: seq<seq<real>>)
    requires PointsTo(ref, row) && numChan == |row| && numRefs == ActiveCount(row)
    requires ref.buf != avg && numChan <= source.Length0 && source.Length1 <= avg.Length
    requires |input| == source.Length0 && IsBlock(input, source.Length1)
    requires forall c, s :: 0 <= c < source.Length0 && 0 <= s < source.Length1 ==> source[c, s] == input[c][s]
    requires forall s :: 0 <= s < avg.Length ==> avg[s] == 0.0
    modifies avg
    ensures forall s :: 0 <= s < source.Length1 ==>
      avg[s] == WeightedActiveSum(row, Column(input, source.Length1, s),
                                  if numRefs > 0 then 1.0 / numRefs as real else 0.0)
  {
    ghost var w := if numRefs > 0 then 1.0 / numRefs as real else 0.0;
    ActiveCountNone(row);
    var numSamples := source.Length1;
    var j := 0;
    while j < numChan
      invariant 0 <= j <= numChan
      invariant forall s :: 0 <= s < numSamples ==>
        avg[s] == WeightedActiveSum(row[..j], Column(input, numSamples, s), w)
    {
      assert ref.buf[ref.start + j] == row[j];
      ghost var before := avg[..];
      if ref.buf[ref.start + j] > 0.0 {
        assert numRefs > 0;
        var refGain := 1.0 / numRefs as real;
        assert refGain == w;
        AddFromChannel(avg, source, j, numSamples, refGain);
      }
      forall s | 0 <= s < numSamples
        ensures avg[s] == WeightedActiveSum(row[..j + 1], Column(input, numSamples, s), w)
      {
        AccumulateSample(row, Column(input, numSamples, s), w, j, before[s], avg[s], source[j, s]);
      }
      j := j + 1;
    }
    assert row[..numChan] == row;
  }

  /** The last step for a channel with `numRefs > 0` active weights: adds
      the average, scaled by `-gain`, onto channel `i`, which then holds the
      re-referenced samples. */
  method SubtractAverage(buffer: array2<real>, i: nat, avg: array<real>, gain: real, numRefs: nat,
                         ghost row: seq<real>, ghost input: seq<seq<real>>)
    requires i < buffer.Length0 && buffer.Length1 <= avg.Length
    requires numRefs == ActiveCount(row) > 0 && |row| <= |input|
    requires |input| == buffer.Length0 && IsBlock(input, buffer.Length1)
    requires forall s :: 0 <= s < buffer.Length1 ==> buffer[i, s] == input[i][s]
    requires forall s :: 0 <= s < buffer.Length1 ==>
      avg[s] == WeightedActiveSum(row, Column(input, buffer.Length1, s), 1.0 / numRefs as real)
    modifies buffer
    ensures forall c, s :: 0 <= c < buffer.Length0 && 0 <= s < buffer.Length1 ==>
      buffer[c, s] == if c == i then Rereferenced(row, input[i][s], Column(input, buffer.Length1, s), gain)
                      else old(buffer[c, s])
  {
    var numSamples := buffer.Length1;
    AddToChannel(buffer, i, avg, numSamples, -1.0 * gain);
    forall s | 0 <= s < numSamples
      ensures buffer[i, s] == Rereferenced(row, input[i][s], Column(input, numSamples, s), gain)
    {
      AccumulatedAverage(row, input[i][s], Column(input, numSamples, s), gain, numRefs, avg[s], buffer[i, s]);
    }
  }

  class VirtualRef {
    var refMat: ReferenceMatrix
    var globalGain: real
    /** Scratch copy of the block being processed. */
    var channelBuffer: array2<real>
    /** One channel of scratch samples that holds a reference average. */
    var avgBuffer: array<real>

    ghost predicate Valid()
      reads this, refMat, refMat.values
    {
      refMat.Valid() && refMat.values != avgBuffer
    }

    /** A processor for `numInputs` input channels with scratch buffers of
        `bufferSize` samples: an all-zero matrix and a global gain of 1. */
    constructor (numInputs: int, bufferSize: nat)
      ensures Valid() && fresh(refMat)
      ensures globalGain == 1.0
      ensures refMat.nChannels == numInputs && refMat.Rows == Zeros(Dim(numInputs))
      ensures avgBuffer.Length == bufferSize
      ensures channelBuffer.Length0 == 1 && channelBuffer.Length1 == bufferSize
      ensures fresh(avgBuffer) && fresh(channelBuffer)
      ensures refMat.values != null ==> fresh(refMat.values)
    {
      channelBuffer := new real[1, bufferSize];
      avgBuffer := new real[bufferSize];
      globalGain := 1.0;
      refMat := new ReferenceMatrix(numInputs);
    }

    /** Follows the host's input count: a different count leaves an all-zero
        matrix of the new size, the same count keeps every weight. */
    method UpdateSettings(numInputs: int)
      requires Valid()
      modifies refMat
      ensures Valid() && refMat.nChannels == numInputs
      ensures numInputs == old(refMat.nChannels) ==>
        refMat.values == old(refMat.values) && refMat.Rows == old(refMat.Rows)
      ensures numInputs != old(refMat.nChannels) ==>
        fresh(refMat.values) && refMat.Rows == Zeros(Dim(numInputs))
    {
      refMat.SetNumberOfChannels(numInputs);
    }

    method SetGlobalGain(value: real)
      modifies this`globalGain
      ensures GetGlobalGain() == value
    {
      globalGain := value;
    }

    function GetGlobalGain(): real
      reads this
    {
      globalGain
    }

    /** Re-references one block in place. Every channel `i` of the matrix
        whose row has `k > 0` active entries loses `globalGain` times the
        mean of the active channels' samples as they were before the call;
        every other channel is left as it was. The matrix and the gain do
        not change. */
    method Process(buffer: array2<real>)
      requires Valid()
      requires Dim(refMat.nChannels) <= buffer.Length0
      requires buffer.Length1 <= avgBuffer.Length
      modifies this`channelBuffer, avgBuffer, buffer
      ensures Valid()
      ensures Snapshot(buffer) == Transform(refMat.Rows, old(Snapshot(buffer)), buffer.Length1, globalGain)
    {
      ghost var input := Snapshot(buffer);
      ghost var m := refMat.Rows;
      var numChan := refMat.GetNumberOfChannels();
      channelBuffer := CopyBuffer(buffer);
      var i := 0;
      while i < numChan
        modifies buffer, avgBuffer
        invariant 0 <= i <= Dim(numChan)
        invariant forall c, s :: 0 <= c < buffer.Length0 && 0 <= s < buffer.Length1 ==>
          buffer[c, s] == if c < i then Rereferenced(m[c], input[c][s], Column(input, buffer.Length1, s), globalGain)
                          else input[c][s]
      {
        ReferenceChannel(buffer, i, input);
        i := i + 1;
      }
      forall c, s | 0 <= c < buffer.Length0 && 0 <= s < buffer.Length1
        ensures Snapshot(buffer)[c][s] == Transform(m, input, buffer.Length1, globalGain)[c][s]
      {
        TransformAt(m, input, buffer.Length1, globalGain, c, s);
      }
      SameBlock(Snapshot(buffer), Transform(m, input, buffer.Length1, globalGain), buffer.Length1);
    }

    /** One pass of the channel loop of `Process`: re-references channel `i`
        of `buffer` from the saved copy of the block in `channelBuffer`. */
    method ReferenceChannel(buffer: array2<real>, i: int, ghost input: seq<seq<real>>)
      requires Valid() && 0 <= i < refMat.nChannels <= buffer.Length0
      requires buffer.Length1 <= avgBuffer.Length && buffer != channelBuffer
      requires channelBuffer.Length0 == buffer.Length0 && channelBuffer.Length1 == buffer.Length1
      requires |input| == buffer.Length0 && IsBlock(input, buffer.Length1)
      requires forall c, s :: 0 <= c < buffer.Length0 && 0 <= s < buffer.Length1 ==> channelBuffer[c, s] == input[c][s]
      requires forall s :: 0 <= s < buffer.Length1 ==> buffer[i, s] == input[i][s]
      modifies buffer, avgBuffer
      ensures forall c, s :: 0 <= c < buffer.Length0 && 0 <= s < buffer.Length1 ==>
        buffer[c, s] == if c == i then Rereferenced(refMat.Rows[i], input[i][s], Column(input, buffer.Length1, s), globalGain)
                        else old(buffer[c, s])
    {
      var numSamples := channelBuffer.Length1;
      ClearSamples(avgBuffer);
      var ref := refMat.GetChannel(i);
      ghost var row := refMat.Rows[i];
      assert PointsTo(ref, row);
      var numRefs := CountReferences(ref, refMat.nChannels, row);
      AverageReferences(avgBuffer, channelBuffer, ref, refMat.nChannels, numRefs, row, input);
      if numRefs > 0 {
        SubtractAverage(buffer, i, avgBuffer, globalGain, numRefs, row, input);
      }
    }

    /** The settings document: the gain and channel count, then one CHANNEL
        per matrix row listing that row's active weights. */
    method SaveCustomParameters() returns (doc: Settings)
      requires Valid()
      ensures doc == Encode(refMat.Rows, refMat.nChannels, globalGain)
    {
      var numChannels := refMat.GetNumberOfChannels();
      var channels: seq<Channel> := [];
      var i := 0;
      while i < numChannels
        invariant 0 <= i <= Dim(numChannels)
        invariant channels == EncodeRows(refMat.Rows)[..i]
      {
        var ref := refMat.GetChannel(i);
        var refs: seq<Reference> := [];
        var j := 0;
        while j < numChannels
          invariant 0 <= j <= numChannels
          invariant refs == RowReferences(refMat.Rows[i][..j])
        {
          assert refMat.Rows[i][..j + 1][..j] == refMat.Rows[i][..j];
          if ref.buf[ref.start + j] > 0.0 {
            refs := refs + [Reference(j + 1, ref.buf[ref.start + j])];
          }
          j := j + 1;
        }
        assert refMat.Rows[i][..numChannels] == refMat.Rows[i];
        channels := channels + [Channel(i + 1, refs)];
        i := i + 1;
      }
      assert EncodeRows(refMat.Rows)[..Dim(numChannels)] == EncodeRows(refMat.Rows);
      doc := Settings([Parameters(globalGain, numChannels)], [channels]);
    }

    /** Applies a settings document: the gain of the last PARAMETERS element,
        then every REFERENCE written into the matrix as it stands (1-based
        indices, out-of-range entries dropped), then the host's input count,
        which wipes the matrix when it differs from the current size. */
    method LoadCustomParameters(doc: Settings, numInputs: int)
      requires Valid()
      modifies this`globalGain, refMat, refMat.values
      ensures Valid() && refMat.nChannels == numInputs
      ensures GetGlobalGain() == LoadedGain(doc.parameters, old(globalGain))
      ensures numInputs == old(refMat.nChannels) ==>
        refMat.values == old(refMat.values) && refMat.Rows == ApplyGroups(old(refMat.Rows), doc.references)
      ensures numInputs != old(refMat.nChannels) ==>
        fresh(refMat.values) && refMat.Rows == Zeros(Dim(numInputs))
    {
      var p := 0;
      while p < |doc.parameters|
        modifies this`globalGain
        invariant 0 <= p <= |doc.parameters| && Valid()
        invariant LoadedGain(doc.parameters[p..], globalGain) == LoadedGain(doc.parameters, old(globalGain))
      {
        assert doc.parameters[p..][1..] == doc.parameters[p + 1..];
        SetGlobalGain(doc.parameters[p].globalGain);
        p := p + 1;
      }
      ghost var m0 := refMat.Rows;
      var groups := doc.references;
      var g := 0;
      while g < |groups|
        modifies refMat, refMat.values
        invariant 0 <= g <= |groups| && Valid()
        invariant refMat.nChannels == old(refMat.nChannels) && refMat.values == old(refMat.values)
        invariant refMat.Rows == ApplyGroups(m0, groups[..g])
      {
        assert groups[..g + 1][..g] == groups[..g];
        LoadChannels(groups[g]);
        g := g + 1;
      }
      assert groups[..|groups|] == groups;
      UpdateSettings(numInputs);
    }

    /** Writes every REFERENCE of every CHANNEL of one REFERENCES element. */
    method LoadChannels(chans: seq<Channel>)
      requires Valid()
      modifies refMat, refMat.values
      ensures Valid() && refMat.nChannels == old(refMat.nChannels) && refMat.values == old(refMat.values)
      ensures refMat.Rows == ApplyChannels(old(refMat.Rows), chans)
    {
      ghost var m0 := refMat.Rows;
      var c := 0;
      while c < |chans|
        modifies refMat, refMat.values
        invariant 0 <= c <= |chans| && Valid()
        invariant refMat.nChannels == old(refMat.nChannels) && refMat.values == old(refMat.values)
        invariant refMat.Rows == ApplyChannels(m0, chans[..c])
      {
        assert chans[..c + 1][..c] == chans[..c];
        var channelIndex := chans[c].index;
        var refs := chans[c].references;
        ghost var before := refMat.Rows;
        var r := 0;
        while r < |refs|
          modifies refMat, refMat.values
          invariant 0 <= r <= |refs| && Valid()
          invariant refMat.nChannels == old(refMat.nChannels) && refMat.values == old(refMat.values)
          invariant refMat.Rows == ApplyReferences(before, channelIndex, refs[..r])
        {
          assert refs[..r + 1][..r] == refs[..r];
          refMat.SetValue(channelIndex - 1, refs[r].index - 1, refs[r].value);
          r := r + 1;
        }
        assert refs[..|refs|] == refs;
        c := c + 1;
      }
      assert chans[..|chans|] == chans;
    }
  }
}

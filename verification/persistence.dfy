/** The saved form of the plugin's settings and what loading it does to the
    reference matrix. A document holds any number of PARAMETERS elements
    (global gain and channel count) and any number of REFERENCES elements,
    each a list of CHANNEL elements (a 1-based channel index and its
    REFERENCE elements, each a 1-based reference index and a weight). */
module Persistence {
  import opened Weights

  datatype Reference = Reference(index: int, value: real)
  datatype Channel = Channel(index: int, references: seq<Reference>)
  datatype Parameters = Parameters(globalGain: real, numChannels: int)
  datatype Settings = Settings(parameters: seq<Parameters>, references: seq<seq<Channel>>)

  /** The REFERENCE elements written for one matrix row: one per active
      weight, in column order, with the 1-based column index. */
  function RowReferences(row: seq<real>): (refs: seq<Reference>)
    ensures |refs| <= |row|
  {
    if row == [] then []
    else
      var last := |row| - 1;
      RowReferences(row[..last]) + (if row[last] > 0.0 then [Reference(|row|, row[last])] else [])
  }

  /** A row saves one reference per active weight. */
  lemma {:induction false} RowReferencesCount(row: seq<real>)
    ensures |RowReferences(row)| == ActiveCount(row)
  {
    if row != [] {
      RowReferencesCount(row[..|row| - 1]);
    }
  }

  /** Every saved reference names an in-range column by its 1-based index
      and carries that column's weight, which is active. */
  lemma {:induction false} RowReferencesEntries(row: seq<real>)
    ensures forall k :: 0 <= k < |RowReferences(row)| ==>
      var r := RowReferences(row)[k];
      1 <= r.index <= |row| && r.value == row[r.index - 1] && r.value > 0.0
  {
    if row != [] {
      var last := |row| - 1;
      var front := row[..last];
      RowReferencesEntries(front);
      assert forall j :: 0 <= j < last ==> front[j] == row[j];
    }
  }

  /** The saved references are in strictly increasing column order. */
  lemma {:induction false} RowReferencesOrdered(row: seq<real>)
    ensures forall a, b :: 0 <= a < b < |RowReferences(row)| ==>
      RowReferences(row)[a].index < RowReferences(row)[b].index
  {
    if row != [] {
      var last := |row| - 1;
      var front := row[..last];
      RowReferencesOrdered(front);
      RowReferencesEntries(front);
    }
  }

  /** One CHANNEL element per matrix row, with the 1-based row index, whether
      or not the row has any active weight. */
  function EncodeRows(m: seq<seq<real>>): (chans: seq<Channel>)
    ensures |chans| == |m|
    ensures forall i :: 0 <= i < |m| ==> chans[i].index == i + 1 && |chans[i].references| <= |m[i]|
  {
    seq(|m|, i requires 0 <= i < |m| => Channel(i + 1, RowReferences(m[i])))
  }

  /** The document saved for matrix `m` (declared with `numChannels`
      channels) and global gain `gain`. */
  function Encode(m: seq<seq<real>>, numChannels: int, gain: real): (doc: Settings)
    ensures |doc.parameters| == 1 && doc.parameters[0].globalGain == gain
    ensures doc.parameters[0].numChannels == numChannels
    ensures |doc.references| == 1 && |doc.references[0]| == |m|
  {
    Settings([Parameters(gain, numChannels)], [EncodeRows(m)])
  }

  /** The gain after reading every PARAMETERS element in order, each one
      setting the gain from its own attribute. */
  function LoadedGain(params: seq<Parameters>, gain: real): (g: real)
    ensures params == [] ==> g == gain
  {
    if params == [] then gain
    else LoadedGain(params[1..], params[0].globalGain)
  }

  /** The last PARAMETERS element wins. */
  lemma {:induction false} LastGainWins(params: seq<Parameters>, gain: real)
    requires params != []
    ensures LoadedGain(params, gain) == params[|params| - 1].globalGain
  {
    if |params| > 1 {
      LastGainWins(params[1..], params[0].globalGain);
    }
  }

  /** The matrix after writing the weights of one CHANNEL element in order;
      indices are shifted to 0-based and out-of-range writes are dropped. */
  function ApplyReferences(m: seq<seq<real>>, channel: int, refs: seq<Reference>): (m': seq<seq<real>>)
    requires IsSquare(m)
    ensures |m'| == |m| && IsSquare(m')
  {
    if refs == [] then m
    else
      var last := |refs| - 1;
      Store(ApplyReferences(m, channel, refs[..last]), channel - 1, refs[last].index - 1, refs[last].value)
  }

  /** The matrix after every CHANNEL element of one REFERENCES element. */
  function ApplyChannels(m: seq<seq<real>>, chans: seq<Channel>): (m': seq<seq<real>>)
    requires IsSquare(m)
    ensures |m'| == |m| && IsSquare(m')
  {
    if chans == [] then m
    else
      var last := |chans| - 1;
      ApplyReferences(ApplyChannels(m, chans[..last]), chans[last].index, chans[last].references)
  }

  /** The matrix after every REFERENCES element of a document. */
  function ApplyGroups(m: seq<seq<real>>, groups: seq<seq<Channel>>): (m': seq<seq<real>>)
    requires IsSquare(m)
    ensures |m'| == |m| && IsSquare(m')
  {
    if groups == [] then m
    else
      var last := |groups| - 1;
      ApplyChannels(ApplyGroups(m, groups[..last]), groups[last])
  }

  /** Loading the references of a row is loading those of the row without
      its last column, then that column's weight when it is active. */
  lemma ApplyRowReferencesStep(m: seq<seq<real>>, channel: int, row: seq<real>)
    requires IsSquare(m) && row != []
    ensures var last := |row| - 1;
      var before := ApplyReferences(m, channel, RowReferences(row[..last]));
      ApplyReferences(m, channel, RowReferences(row)) ==
        if row[last] > 0.0 then Store(before, channel - 1, last, row[last]) else before
  {
    var last := |row| - 1;
    var refs := RowReferences(row[..last]);
    if row[last] > 0.0 {
      var r := Reference(|row|, row[last]);
      assert RowReferences(row) == refs + [r];
      assert (refs + [r])[..|refs|] == refs;
    } else {
      assert RowReferences(row) == refs + [];
      assert refs + [] == refs;
    }
  }

  /** Loading the references saved for `row` as channel `i + 1` overwrites
      exactly the active entries of row `i` with their saved weights. */
  lemma {:induction false} ApplyRowReferences(m: seq<seq<real>>, i: nat, row: seq<real>, a: nat, b: nat)
    requires IsSquare(m) && i < |m| && |row| <= |m| && a < |m| && b < |m|
    ensures ApplyReferences(m, i + 1, RowReferences(row))[a][b] ==
      if a == i && b < |row| && row[b] > 0.0 then row[b] else m[a][b]
  {
    if row != [] {
      var last := |row| - 1;
      var front := row[..last];
      ApplyRowReferences(m, i, front, a, b);
      ApplyRowReferencesStep(m, i + 1, row);
      if b < last {
        assert front[b] == row[b];
      }
    }
  }

  /** Loading the first `k` saved CHANNEL elements of `src` overwrites the
      active entries of its first `k` rows and nothing else. */
  lemma {:induction false} ApplyEncodedPrefix(m: seq<seq<real>>, src: seq<seq<real>>, k: nat)
    requires IsSquare(m) && IsSquare(src) && |src| == |m| && k <= |m|
    ensures forall a, b :: 0 <= a < |m| && 0 <= b < |m| ==>
      ApplyChannels(m, EncodeRows(src)[..k])[a][b] ==
        if a < k && src[a][b] > 0.0 then src[a][b] else m[a][b]
  {
    if k > 0 {
      var chans := EncodeRows(src)[..k];
      assert chans[..k - 1] == EncodeRows(src)[..k - 1];
      ApplyEncodedPrefix(m, src, k - 1);
      var before := ApplyChannels(m, chans[..k - 1]);
      forall a, b | 0 <= a < |m| && 0 <= b < |m|
        ensures ApplyChannels(m, chans)[a][b] == if a < k && src[a][b] > 0.0 then src[a][b] else m[a][b]
      {
        ApplyRowReferences(before, k - 1, src[k - 1], a, b);
      }
    }
  }

  /** Loading a saved document into a matrix of the same size overwrites
      every entry that was active when it was saved and keeps every other
      entry of the matrix it is loaded into. */
  lemma Overlay(m: seq<seq<real>>, src: seq<seq<real>>, n: int, gain: real)
    requires IsSquare(m) && IsSquare(src) && |src| == |m|
    ensures forall a, b :: 0 <= a < |m| && 0 <= b < |m| ==>
      ApplyGroups(m, Encode(src, n, gain).references)[a][b] ==
        if src[a][b] > 0.0 then src[a][b] else m[a][b]
  {
    var groups := Encode(src, n, gain).references;
    assert groups[..0] == [];
    ApplyEncodedPrefix(m, src, |m|);
    assert EncodeRows(src)[..|m|] == EncodeRows(src);
  }

  /** Save then load into a freshly zeroed matrix of the same size restores
      every active weight, leaves every other entry 0 and restores the
      global gain. */
  lemma RoundTrip(m: seq<seq<real>>, n: int, gain: real, oldGain: real)
    requires IsSquare(m)
    ensures ApplyGroups(Zeros(|m|), Encode(m, n, gain).references) == Positive(m)
    ensures LoadedGain(Encode(m, n, gain).parameters, oldGain) == gain
  {
    LastGainWins(Encode(m, n, gain).parameters, oldGain);
    var z := Zeros(|m|);
    var loaded := ApplyGroups(z, Encode(m, n, gain).references);
    var p := Positive(m);
    Overlay(z, m, n, gain);
    forall a | 0 <= a < |m| ensures loaded[a] == p[a] {
      assert |loaded[a]| == |p[a]|;
    }
  }

  /** Reloading a matrix's own saved document into it changes nothing. */
  lemma ReloadUnchanged(m: seq<seq<real>>, n: int, gain: real)
    requires IsSquare(m)
    ensures ApplyGroups(m, Encode(m, n, gain).references) == m
  {
    var loaded := ApplyGroups(m, Encode(m, n, gain).references);
    Overlay(m, m, n, gain);
    forall a | 0 <= a < |m| ensures loaded[a] == m[a] {
      assert |loaded[a]| == |m[a]|;
    }
  }

  /** The saved channel count is never read back: PARAMETERS elements that
      carry the same gains load the same gain, whatever counts they hold. */
  lemma {:induction false} NumChannelsIgnored(ps: seq<Parameters>, qs: seq<Parameters>, gain: real)
    requires |ps| == |qs|
    requires forall k :: 0 <= k < |ps| ==> ps[k].globalGain == qs[k].globalGain
    ensures LoadedGain(ps, gain) == LoadedGain(qs, gain)
  {
    if ps != [] {
      NumChannelsIgnored(ps[1..], qs[1..], ps[0].globalGain);
    }
  }
}

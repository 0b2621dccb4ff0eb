# Virtual reference plugin, modelled in Dafny

The Open Ephys "Virtual Ref" processor re-references neural recordings. It
keeps a square matrix of reference weights, one row per input channel. For
every block of samples, each channel whose row has active entries (weights
`> 0`) has the mean of those referenced channels subtracted from it, scaled
by a global gain. The mean is taken over the block as it arrived. Only
whether a weight is positive matters, not its size. The processor saves its
matrix and gain as a settings document and loads them back.

The project has five modules:

- `weights.dfy` (`Weights`): the matrix as a grid of rows, its row-major
  layout, the grids that the matrix operations produce, and active counts.
- `reference_matrix.dfy` (`ReferenceMatrices`): the `ReferenceMatrix` class
  over an owned `array?<real>` buffer, with a ghost `Rows` view. The buffer is
  reallocated and zero-filled whenever the channel count changes.
- `referencing.dfy` (`Referencing`): what one block of processing computes
  (`Transform`), with the averaging law and its consequences.
- `persistence.dfy` (`Persistence`): the settings document, the document that
  save writes (`Encode`), what load does to a matrix, and the round trip.
- `virtual_ref.dfy` (`VirtualRefs`): the `VirtualRef` class. `Process` works in
  place on an `array2<real>` sample buffer and is proved equal to
  `Transform` of the block as it arrived. Save and load are proved against
  `Encode` and the load functions.

The channel count is an `int`, as in the source. A negative count gives an
empty matrix, because every loop over channels runs zero times
(`Weights.Dim`). A matrix constructed with count -1 never allocates its buffer,
because -1 equals the initial "count before". The `float*` row that
`getChannel` returns is a `RowView`: null, or a start position in the live
buffer.

`Process` requires what the sample-buffer operations of the source demand.
The buffer needs at least as many channels as the matrix. It needs no more
samples than the scratch buffers hold, whose size the source fixes when the
processor is constructed.

## Model

| member | source | states |
|---|---|---|
| ReferenceMatrices.ReferenceMatrix.constructor | Source/Plugins/VirtualRef/VirtualRef.cpp:202-208 | the matrix has the given count and an all-zero grid of that size |
| ReferenceMatrices.ReferenceMatrix.Update | Source/Plugins/VirtualRef/VirtualRef.cpp:227-240 | a changed count gives a fresh all-zero buffer of the new size; an unchanged count keeps buffer and weights |
| ReferenceMatrices.ReferenceMatrix.SetNumberOfChannels | Source/Plugins/VirtualRef/VirtualRef.cpp:216-220 | setting the same count changes nothing; a different count discards every weight and leaves zeros of the new size |
| ReferenceMatrices.ReferenceMatrix.GetNumberOfChannels | Source/Plugins/VirtualRef/VirtualRef.cpp:222-225 | the grid has as many rows and columns as the returned count, or none when it is negative |
| ReferenceMatrices.ReferenceMatrix.SetValue | Source/Plugins/VirtualRef/VirtualRef.cpp:242-252 | an in-range write changes exactly that entry; an out-of-range write changes nothing |
| ReferenceMatrices.ReferenceMatrix.GetValue | Source/Plugins/VirtualRef/VirtualRef.cpp:254-263 | returns the stored weight in range and -1 otherwise |
| ReferenceMatrices.ReferenceMatrix.GetChannel | Source/Plugins/VirtualRef/VirtualRef.cpp:265-271 | non-null exactly for an index in range; then it points into the live buffer at that row's weights |
| ReferenceMatrices.ReferenceMatrix.AllChannelReferencesActive | Source/Plugins/VirtualRef/VirtualRef.cpp:273-291 | in range: true iff every weight of the row is positive; out of range: true iff the matrix has no channels |
| ReferenceMatrices.ReferenceMatrix.SetAll | Source/Plugins/VirtualRef/VirtualRef.cpp:293-305 | every weight becomes the value; count and buffer unchanged |
| ReferenceMatrices.ReferenceMatrix.SetAllUpTo | Source/Plugins/VirtualRef/VirtualRef.cpp:307-320 | exactly the entries of the top-left square bounded by the given maximum are set |
| ReferenceMatrices.ReferenceMatrix.Clear | Source/Plugins/VirtualRef/VirtualRef.cpp:322-334 | every weight becomes 0 |
| Weights.Offset | Source/Plugins/VirtualRef/VirtualRef.cpp:246 | the row-major position of an in-range entry lies inside the `n*n` buffer |
| Weights.OffsetsDistinct | Source/Plugins/VirtualRef/VirtualRef.cpp:246 | distinct entries have distinct buffer positions, so one write leaves all others alone |
| Weights.RowStart | Source/Plugins/VirtualRef/VirtualRef.cpp:268 | a row view starting at `index * n` covers exactly that row's `n` entries inside the buffer |
| Weights.Store | Source/Plugins/VirtualRef/VirtualRef.cpp:244-247 | the written entry holds the value and every other entry is unchanged |
| Weights.Zeros | Source/Plugins/VirtualRef/VirtualRef.cpp:234-236 | a freshly allocated matrix is square and all zero |
| Weights.Filled | Source/Plugins/VirtualRef/VirtualRef.cpp:297-303 | the grid is square and every entry is the value |
| Weights.FillTopLeft | Source/Plugins/VirtualRef/VirtualRef.cpp:311-318 | entry `(i, j)` becomes the value exactly when both indices are below the bound; the others are kept |
| Weights.FillTopLeftNothing | Source/Plugins/VirtualRef/VirtualRef.cpp:311-312 | a maximum of 0 or less writes nothing |
| Weights.FillTopLeftEverything | Source/Plugins/VirtualRef/VirtualRef.cpp:311 | a maximum of at least the count writes the whole grid, as the unbounded setter does |
| Weights.Positive | Source/Plugins/VirtualRef/VirtualRef.cpp:159-167 | what a save keeps: every active weight, with every other entry 0 and so inactive |
| Weights.ActiveCount | Source/Plugins/VirtualRef/VirtualRef.cpp:94-100 | the number of active entries never exceeds the row length |
| Weights.ActiveCountNone | Source/Plugins/VirtualRef/VirtualRef.cpp:94-100 | the count is 0 iff no entry is positive |
| Weights.ActiveCountAll | Source/Plugins/VirtualRef/VirtualRef.cpp:281-290 | the count equals the row length iff every entry is positive |
| Weights.ActiveCountIsSetSize | Source/Plugins/VirtualRef/VirtualRef.cpp:94-100 | the count is the size of the row's reference set |
| Referencing.Transform | Source/Plugins/VirtualRef/VirtualRef.cpp:78-124 | the processed block has the shape of the input block |
| Referencing.Rereferenced | Source/Plugins/VirtualRef/VirtualRef.cpp:113-122 | one output sample: unchanged when its row has no active weight or the gain is 0; its value in general is given by `AveragingLaw` |
| Referencing.TransformIdentity | Source/Plugins/VirtualRef/VirtualRef.cpp:113-122 | a channel outside the matrix, or with no active weight, passes through unchanged |
| Referencing.AveragingLaw | Source/Plugins/VirtualRef/VirtualRef.cpp:88-124 | output = input minus gain times the mean, over the reference set, of the input samples |
| Referencing.WeightedActiveSumStep | Source/Plugins/VirtualRef/VirtualRef.cpp:102-110 | one more column adds its scaled sample exactly when it is active |
| Referencing.AccumulateSample | Source/Plugins/VirtualRef/VirtualRef.cpp:104-109 | one accumulation step turns the sum over `j` columns into the sum over `j + 1` |
| Referencing.WeightedActiveSumFactors | Source/Plugins/VirtualRef/VirtualRef.cpp:102-110 | adding each active sample scaled by `w` gives `w` times their sum |
| Referencing.ScaledAverage | Source/Plugins/VirtualRef/VirtualRef.cpp:106-121 | adding the `1/k`-scaled sum with factor `-gain` subtracts gain times the mean |
| Referencing.AccumulatedAverage | Source/Plugins/VirtualRef/VirtualRef.cpp:113-122 | the average buffer added with `-gain` yields the re-referenced sample |
| Referencing.SameGateSameSum | Source/Plugins/VirtualRef/VirtualRef.cpp:94-110 | rows with the same active columns have the same count and sum |
| Referencing.SameGateSameOutput | Source/Plugins/VirtualRef/VirtualRef.cpp:94-122 | a channel's output depends only on which weights of its row are active |
| Referencing.MagnitudeIgnored | Source/Plugins/VirtualRef/VirtualRef.cpp:94-110 | matrices with the same active entries process every block identically |
| Referencing.CommonModeSum | Source/Plugins/VirtualRef/VirtualRef.cpp:102-110 | if all referenced channels carry `c`, the active sum is `k` copies of `c` |
| Referencing.CommonModeRemoved | Source/Plugins/VirtualRef/VirtualRef.cpp:102-122 | a signal common to the reference set is subtracted scaled by the gain |
| Referencing.ExampleSums | Source/Plugins/VirtualRef/VirtualRef.cpp:94-110 | counts and sums of the rows of a three-channel example |
| Referencing.ThreeChannelExample | Source/Plugins/VirtualRef/VirtualRef.cpp:78-124 | a concrete three-channel block comes out as computed by hand |
| Persistence.RowReferences | Source/Plugins/VirtualRef/VirtualRef.cpp:159-167 | the REFERENCE elements saved for one row: never more than the row has columns |
| Persistence.EncodeRows | Source/Plugins/VirtualRef/VirtualRef.cpp:153-168 | one CHANNEL element per matrix row, with 1-based index `i + 1`, each with at most as many references as the row has columns |
| Persistence.Encode | Source/Plugins/VirtualRef/VirtualRef.cpp:141-169 | a saved document holds one PARAMETERS element with the gain and the channel count, and one REFERENCES element with a CHANNEL per row |
| Persistence.RowReferencesCount | Source/Plugins/VirtualRef/VirtualRef.cpp:159-167 | one REFERENCE is written per active weight |
| Persistence.RowReferencesEntries | Source/Plugins/VirtualRef/VirtualRef.cpp:159-167 | every REFERENCE carries an in-range 1-based column and that column's positive weight |
| Persistence.RowReferencesOrdered | Source/Plugins/VirtualRef/VirtualRef.cpp:159-167 | the REFERENCE elements are in strictly increasing column order |
| Persistence.LoadedGain | Source/Plugins/VirtualRef/VirtualRef.cpp:173-177 | the PARAMETERS elements are read in order, each setting the gain; with none the gain is kept |
| Persistence.LastGainWins | Source/Plugins/VirtualRef/VirtualRef.cpp:173-177 | with at least one PARAMETERS element, the last one's gain is the loaded gain |
| Persistence.ApplyReferences | Source/Plugins/VirtualRef/VirtualRef.cpp:185-190 | loading one CHANNEL element keeps the matrix square and of the same size |
| Persistence.ApplyChannels | Source/Plugins/VirtualRef/VirtualRef.cpp:181-191 | loading one REFERENCES element keeps the matrix square and of the same size |
| Persistence.ApplyGroups | Source/Plugins/VirtualRef/VirtualRef.cpp:179-192 | loading all REFERENCES elements keeps the matrix square and of the same size |
| Persistence.ApplyRowReferencesStep | Source/Plugins/VirtualRef/VirtualRef.cpp:185-190 | loading a row's references is loading its prefix, then its last active weight |
| Persistence.ApplyRowReferences | Source/Plugins/VirtualRef/VirtualRef.cpp:159-167 | loading one saved row overwrites exactly that row's active entries with their weights |
| Persistence.ApplyEncodedPrefix | Source/Plugins/VirtualRef/VirtualRef.cpp:181-191 | loading the first `k` saved channels overwrites exactly the active entries of the first `k` rows |
| Persistence.Overlay | Source/Plugins/VirtualRef/VirtualRef.cpp:141-195 | loading a saved document overwrites every saved-active entry and keeps every other entry |
| Persistence.RoundTrip | Source/Plugins/VirtualRef/VirtualRef.cpp:141-195 | save then load into a zeroed matrix restores every active weight, zeros the rest, and restores the gain |
| Persistence.ReloadUnchanged | Source/Plugins/VirtualRef/VirtualRef.cpp:141-195 | loading a matrix's own saved document into it changes nothing |
| Persistence.NumChannelsIgnored | Source/Plugins/VirtualRef/VirtualRef.cpp:173-177 | PARAMETERS elements with the same gains load the same gain whatever channel counts they hold, so the count saved at line 149 is never read back |
| VirtualRefs.CopyBuffer | Source/Plugins/VirtualRef/VirtualRef.cpp:86 | the scratch copy has the block's shape and samples |
| VirtualRefs.ClearSamples | Source/Plugins/VirtualRef/VirtualRef.cpp:90 | the average buffer is all zero |
| VirtualRefs.AddFromChannel | Source/Plugins/VirtualRef/VirtualRef.cpp:107-108 | the first `numSamples` samples gain `gain` times the source channel; the rest are unchanged |
| VirtualRefs.AddToChannel | Source/Plugins/VirtualRef/VirtualRef.cpp:115-121 | only the target channel's first `numSamples` samples change, by `gain` times the average |
| VirtualRefs.CountReferences | Source/Plugins/VirtualRef/VirtualRef.cpp:93-100 | the count of positive weights read through the row view is the row's active count |
| VirtualRefs.AverageReferences | Source/Plugins/VirtualRef/VirtualRef.cpp:102-110 | each average sample is the `1/numRefs`-weighted sum of the referenced input samples |
| VirtualRefs.SubtractAverage | Source/Plugins/VirtualRef/VirtualRef.cpp:113-122 | a channel with active weights ends up holding its re-referenced samples; no other channel changes |
| VirtualRefs.VirtualRef.constructor | Source/Plugins/VirtualRef/VirtualRef.cpp:32-38 | gain 1, an all-zero matrix for the input count, and newly allocated scratch buffers of the given size and matrix buffer |
| VirtualRefs.VirtualRef.UpdateSettings | Source/Plugins/VirtualRef/VirtualRef.cpp:53-70 | the matrix follows the input count: an unchanged count keeps the buffer and every weight, a different one gives a newly allocated all-zero buffer |
| VirtualRefs.VirtualRef.SetGlobalGain | Source/Plugins/VirtualRef/VirtualRef.cpp:131-139 | the gain read back is the one set, and nothing else changes |
| VirtualRefs.VirtualRef.Process | Source/Plugins/VirtualRef/VirtualRef.cpp:78-124 | the buffer afterwards equals `Transform` of the block as it arrived; matrix and gain unchanged |
| VirtualRefs.VirtualRef.ReferenceChannel | Source/Plugins/VirtualRef/VirtualRef.cpp:88-123 | one channel-loop pass re-references channel `i` and leaves every other channel alone |
| VirtualRefs.VirtualRef.SaveCustomParameters | Source/Plugins/VirtualRef/VirtualRef.cpp:141-169 | the document written is `Encode` of the matrix, its count and the gain |
| VirtualRefs.VirtualRef.LoadCustomParameters | Source/Plugins/VirtualRef/VirtualRef.cpp:171-195 | the gain is read from every PARAMETERS element in order; at an unchanged input count the weights are written into the same buffer, otherwise a newly allocated all-zero buffer replaces it |
| VirtualRefs.VirtualRef.LoadChannels | Source/Plugins/VirtualRef/VirtualRef.cpp:179-192 | every REFERENCE of one REFERENCES element is written into the matrix in order |

## Left out

- Console output: the out-of-range message of `setValue` and `print` (VirtualRef.cpp:250, 336 onward). An out-of-range write is modelled as dropped.
- Floating point: weights, gain and samples are `real`. The model keeps the order in which the source adds terms, but not the rounding of `1/numRefs` or of the sums. It also leaves out the `float`/`double` conversions of save and load.
- Integer width: `nChannels * nChannels` and `index * nChannels` are unbounded integers. Their 32-bit overflow is not modelled.
- The scratch-buffer size comes from a constant defined in `VirtualRef.h`. That file is not part of this model, so the size is a constructor parameter.
- The input count is a parameter of the constructor, `UpdateSettings` and `LoadCustomParameters`. The host framework supplies it in the source.
- The MIDI buffer that `process` receives is not used by the source and is not modelled.
- `channelBuffer = buffer` is modelled as a fresh copy. The framework may reuse the old storage. The samples are the same either way.
- The settings document's XML mechanics are not modelled: tag lookup, the `Type` attribute, element creation. The document is a datatype holding the elements that load reads. A missing `Index` or `Value` attribute reads as 0, so it is written as index 0 or weight 0.0.
- The `refMat == nullptr` branch of `updateSettings` (VirtualRef.cpp:57-60) cannot be taken once the constructor has run, so the matrix field is never null.
- The editor: `createEditor` and the editor refresh in `updateSettings`. Also left out are the destructors, the empty `setParameter` (73-76) and the accessor `getReferenceMatrix` (126-129); the model's field is public instead.
- `Resources/Python/untitled0.py` is a live video-acquisition script. It reads camera frames and requests timestamps over ZeroMQ in an endless loop. It runs outside the plugin and is not modelled.
- VirtualRefs.VirtualRef.GetGlobalGain: has no contract of its own. The contracts of `SetGlobalGain` and `LoadCustomParameters` are stated through it.

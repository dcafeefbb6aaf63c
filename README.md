# lslbuffer core, modelled in Dafny

lslbuffer is a desktop EEG viewer. It pulls multi-channel chunks from Lab Streaming Layer (LSL)
inlets on a timer and shows them as scrolling time series. Filtered copies of the signal can be
shown alongside. This project models the viewer's sequential buffer and state logic, with the
Qt/pyqtgraph widgets stripped away. It proves what each routine does to its state.

The project has one module per source file, plus three shared modules.

| module | file | source |
|---|---|---|
| `Wrappers` | wrappers.dfy | `Option`, `Result` and the Python exceptions the model raises (`ValueError`, `IndexError`, `TypeError`, `AttributeError`, `NameError`) |
| `Arith` | arith.dfy | shared facts about multiplication and remainders |
| `WindowSpec` | window_spec.dfy | specification functions of the display window `y_raw_buffer`: channel selection, the wrapping chunk write, the connect mask and the scaling statistics |
| `SignalViewer` | signal_viewer.dfy | SignalViewer.py: `RawSignalViewer` as a class over an `array` of rows, and the `runSignal` timer driver |
| `SignalViewerCopy` | signal_viewer_copy.dfy | application/Widgets/SignalViewer_copy.py |
| `SignalFilters` | filters.dfy | application/Widgets/SignalFilters.py: `NotchFilter` and `ButterFilter`, with `lfilter` as the direct-form II transposed recurrence |
| `Controls` | controls.dfy | the band-edge edits and the Butterworth band choice the three controllers share |
| `FilterPanel` | filter_panel.dfy | the filtered-view side of `applyFilter` in TimeSeriesViewer.py and LSLViewer.py |
| `TimeSeriesViewer` | time_series_viewer.dfy | TimeSeriesViewer.py `TimeSeriesSignal` |
| `LslViewer` | lsl_viewer.dfy | LSLViewer.py `runSignal`, including the four-second chunk queue |
| `AppTimeSeriesViewer` | app_time_series_viewer.dfy | application/Widgets/TimeSeriesViewer.py `TimeSeriesSignal` |
| `LslVisualization` | lsl_visualization.dfy | application/LSL_visualization.py channel and filter selection |
| `EpochVisual` | epoch_visual.dfy | application/Widgets/EpochVisual.py five-slot epoch overlay |
| `EpochVisualV2` | epoch_visual_v2.dfy | application/Widgets/EpochVisualV2.py per-marker, per-channel overlays |
| `Flicker` | flicker.dfy | SSVEP/SSVEP_8_flickers.py, section 2: the ON/OFF frame schedule |
| `RtTimeseries` | rt_timeseries.dfy | viz/rt_timeseries.py `Grapher` and `XYGrapher` |

Conventions used throughout:
- Sample values are `real`.
- The NaN sentinel of the display window is `None` in an `Option<real>`.
- Python exceptions are the `Err` side of a `Result`.
- What the outside world supplies is passed in as a parameter:
  - the chunk a pull returns;
  - the elapsed time;
  - the timer's `isActive` flag;
  - the parsed text of a band box;
  - the curve handle `plot` returns;
  - the coefficients `butter` and `cos` compute.
- State the source mutates lives in classes whose methods carry `modifies` clauses. Each such
  method is proved equal to a pure specification function of the old state, and the lemmas are
  stated about those functions.

## Model

| member | source | states |
|---|---|---|
| WindowSpec.SelectRows | SignalViewer.py:83-87 | `chunk[:, indices]` has one row per sample, each as wide as the selection, and entry k of row j is the finite value of channel `indices[k]` of sample j |
| WindowSpec.FilterNames | SignalViewer.py:30-35 | the constructor's loop over `enumerate(names)` returns exactly the names the selection keeps |
| WindowSpec.KeptIndicesExact | SignalViewer.py:33-35 | the kept positions are exactly the positions below `len(names)` that occur in `view_channels`, in strictly increasing order |
| WindowSpec.SelectedNamesInOrder | SignalViewer.py:33-35 | the k-th kept name is the name at the k-th kept position, so names keep their original order |
| WindowSpec.SelectedNamesLength | SignalViewer.py:33-37 | for a selection without repeats, one name is kept per selected position below `len(names)` |
| WindowSpec.NamesMatchIndices | SignalViewer.py:31-37 | for a selection without repeats and within the names, `n_signals` equals the number of selected channels, so the buffer is as wide as `chunk[:, indices]` |
| WindowSpec.NoNameKept | SignalViewer.py:152-154 | the name filter keeps no name exactly when no selected position is a channel |
| WindowSpec.InitSignals | SignalViewer.py:149-161 | the constructor raises `IndexError` at `self.indexes_to_plot[0]` exactly when no selected position is a channel (an empty selection among them), and raises nothing else |
| WindowSpec.EmptySelectionRaises | SignalViewer.py:159-161 | an empty selection makes the constructor raise `IndexError` |
| WindowSpec.SelectionAccepted | SignalViewer.py:149-161 | a non-empty selection without repeats inside the channel range raises nothing and gives `len(view_channels)` signals |
| WindowSpec.KeptSortedPrefix | SignalViewer.py:33-35 | for an increasing selection, the kept positions below n are a prefix of the selection, split at n |
| WindowSpec.LabelsMatchSortedSelection | SignalViewer.py:33-35 | for an increasing selection, name k is the name of channel `view_channels[k]`, the channel column k holds |
| WindowSpec.UnsortedSelectionMislabels | SignalViewer.py:33-35 | for the selection [2, 0] of three channels, the names are ["a", "c"] while column 0 holds channel 2 ("c"): labels follow channel order, columns follow selection order |
| WindowSpec.WriteAtLands | SignalViewer.py:74-87 | for 1 <= len(chunk) <= n_samples, both branches succeed. The slot at forward offset d < len from the cursor gets chunk row d; every other slot keeps its row |
| WindowSpec.WriteAt | SignalViewer.py:74-87 | the slice assignments of `update` as one function: the window keeps its length; where each chunk row lands and when numpy raises are stated by `WriteAtLands`, `WriteAtRowSlot`, `WriteAtRejectsEmpty` and `WriteAtOversized` |
| WindowSpec.ConnectMask | SignalViewer.py:91-94 | one flag per slot; what it means is stated by `WrittenSlotsConnected` and `NaNAfterCursorNotConnected` |
| WindowSpec.WriteAtLandsStraight | SignalViewer.py:82-83 | the same, for the branch without wrap-around |
| WindowSpec.WriteAtLandsWrapped | SignalViewer.py:84-87 | the same, for the wrap-around branch |
| WindowSpec.WriteAtRowSlot | SignalViewer.py:74-87 | chunk row j lands at slot `(previous_pos + j) mod n_samples` |
| WindowSpec.WriteAtKeepsWidth | SignalViewer.py:82-87 | every row after the write is an old row or a chunk row, so all rows keep a common width |
| WindowSpec.WriteAtCursorRow | SignalViewer.py:82-87 | a successful write puts the first chunk row at the old cursor |
| WindowSpec.WriteAtRejectsEmpty | SignalViewer.py:84-85 | an empty chunk always fails the wrap-branch assignment `y[prev:] = chunk[:n-prev]` and leaves the window unchanged |
| WindowSpec.WriteAtOversized | SignalViewer.py:82-87 | a chunk longer than the window succeeds exactly when `(previous_pos + len) mod n_samples == 0`. Then only its first `n_samples - previous_pos` rows are written, after the old first `previous_pos` rows |
| WindowSpec.AssignWindow | SignalViewer.py:82-87 | the array after the slice assignments equals the `WriteAt` window, and `ok` reports whether numpy accepted every assignment |
| WindowSpec.WrittenSlotsConnected | SignalViewer.py:91-94 | every slot the update has just written is drawn connected, in every viewed channel |
| WindowSpec.NaNAfterCursorNotConnected | SignalViewer.py:91-94 | a NaN slot at or past the cursor is never connected, so gaps stay visible |
| WindowSpec.NanMaxAtLeastMin | SignalViewer.py:180 | the maximum and the minimum of the finite entries exist together, and the maximum is never below the minimum |
| WindowSpec.NanMean | SignalViewer.py:179 | the mean exists exactly when the extremes do; it lies between them (`NanMeanWithinRange`) and is the value of a constant channel (`ConstantChannelStats`) |
| WindowSpec.NanMax | SignalViewer.py:180 | the largest finite entry; it exists exactly when some entry is finite and bounds every finite entry (`EntryWithinRange`) |
| WindowSpec.NanMin | SignalViewer.py:180 | the smallest finite entry; it exists exactly when some entry is finite and bounds every finite entry (`EntryWithinRange`) |
| WindowSpec.NanRangeNonNegative | SignalViewer.py:180-181 | the full-range IQR is NaN or non-negative, so the clamp `iqr[iqr <= 0] = 1` only ever meets zero |
| WindowSpec.ClampIqr | SignalViewer.py:181 | the clamped spread is positive or NaN; it is NaN exactly when the input is; a positive spread is kept |
| WindowSpec.ConstantChannelStats | SignalViewer.py:179-181 | a channel whose finite samples all equal v has mean v, minimum and maximum v, and clamped IQR 1 |
| WindowSpec.Scale | SignalViewer.py:185 | `(y - mean) / iqr` is finite exactly when all three are finite and the spread is non-zero |
| WindowSpec.EntryWithinRange | SignalViewer.py:180 | every finite entry lies between the minimum and the maximum |
| WindowSpec.NanMeanWithinRange | SignalViewer.py:179 | `np.nanmean` lies between the smallest and the largest finite entry |
| WindowSpec.ScaledWithinLane | SignalViewer.py:179-185 | right after a statistics refresh, every finite scaled sample of a channel lies in [-1, 1] |
| WindowSpec.NSamples | SignalViewer.py:39 | `int(fs * seconds_to_plot)` is the largest whole number not above the product |
| WindowSpec.XMesh | SignalViewer.py:42 | every x position of `np.linspace(0, seconds, n)` lies in [0, seconds] |
| WindowSpec.NaNRows | SignalViewer.py:43 | the initial window has n_samples rows, each of width n_signals, all NaN |
| WindowSpec.NextGroup | SignalViewer.py:166 | the next group, taken with Python's floored modulo, is always a valid group index |
| WindowSpec.NextGroupInverse | SignalViewer.py:166 | moving one group forward and then one back restores the group, for any direction and group count |
| WindowSpec.Ticks | SignalViewer.py:172 | there are `len(names) - group` ticks, and tick k is `(k + 1, names[group + k])` |
| WindowSpec.TicksNameDrawnChannels | SignalViewer.py:171-185 | for an increasing selection, tick k of group g names the channel whose samples fill column g + k, the one curve k draws |
| SignalViewer.RefreshedStatsFinite | SignalViewer.py:179-181 | after a refresh on a window with a fully finite row, every channel has a finite mean and a finite, positive spread |
| SignalViewer.UpdateKeepsConsistent | SignalViewer.py:70-98 | every update, whether it succeeds or raises, keeps the viewer invariant: the cursor is inside the window, rows and statistics are as wide as the names, spreads are positive, the counter is at most `n_samples // 3`, and the group is valid |
| SignalViewer.UpdateSpec | SignalViewer.py:70-98 | an exception changes nothing but the rows already assigned; a drawn update leaves the cursor inside the window, the refresh counter at most a third of it, and the `group` setting as it was. `UpdateKeepsConsistent`, `UpdateRaisesExactly`, `UpdateWritesChunk`, `UpdateDropsOverflow` and `DrawnCurvesMatchData` state the rest |
| SignalViewer.UpdateRaisesExactly | SignalViewer.py:70-98 | `update` raises ZeroDivisionError exactly for an empty window, and IndexError exactly for a viewed index outside the chunk. It raises ValueError exactly for an empty chunk, or for one longer than the window that does not end on the window's end. A raising update leaves cursor, counter, statistics and group as they were |
| SignalViewer.UpdateWritesChunk | SignalViewer.py:74-98 | a chunk of 1 to n_samples samples is drawn. The slot at offset d < len(chunk) holds the viewed channels of sample d, other slots are kept, and the cursor moves on by len(chunk) around the window |
| SignalViewer.UpdateDropsOverflow | SignalViewer.py:82-87 | an oversized chunk that ends on a multiple of the window writes only its first `n_samples - previous_pos` samples, and the cursor returns to 0 |
| SignalViewer.RefreshedCurvesWithinLanes | SignalViewer.py:175-185 | right after a statistics refresh, every finite point of every curve lies in [-1, 1] |
| SignalViewer.DrawnCurvesMatchData | SignalViewer.py:89-94 | point r of curve i is finite exactly when slot r holds a finite value of channel `group + i`, and then it is connected. Curves past the last channel are all NaN |
| SignalViewer.RawSignalViewer.constructor | SignalViewer.py:133-162 | the new viewer has window length `int(fs * seconds)` and keeps the selected names and the indices. Its window is all NaN, with cursor 0, counter 0, means 0, spreads 1 and group 0 |
| SignalViewer.RawSignalViewer.Update | SignalViewer.py:70-98 | the new state and the drawing are those of `UpdateSpec` on the old state |
| SignalViewer.RawSignalViewer.ResetBuffer | SignalViewer.py:103-104 | every slot becomes NaN; everything else is kept |
| SignalViewer.RawSignalViewer.NextChannelsGroup | SignalViewer.py:164-168 | the window is cleared and the group moves by `direction` with floored modulo; everything else is kept |
| SignalViewer.RawSignalViewer.Labels | SignalViewer.py:171-173 | the y axis carries one tick per name from the current group on |
| SignalViewer.RunSignal.constructor | SignalViewer.py:198-236 | the driver holds a fresh 5-second raw viewer of the selected names, with the timer inactive, time 0, no chunk and a chunk length of 8 |
| SignalViewer.RunSignal.SetTimer | SignalViewer.py:239-243 | the timer is active; viewer, time and chunk are unchanged |
| SignalViewer.RunSignal.Start | SignalViewer.py:245-251 | the timer is active afterwards, whichever branch ran; nothing else changes |
| SignalViewer.RunSignal.Stop | SignalViewer.py:253-259 | the timer is inactive afterwards, whichever branch ran; nothing else changes |
| SignalViewer.RunSignal.ResetViewer | SignalViewer.py:222-233 | a fresh viewer of the new selection replaces the old one and time restarts at 0; the timer state is kept |
| SignalViewer.RunSignal.Update | SignalViewer.py:277-283 | time advances by the chunk length and the pull becomes `chunk`. A `None` pull leaves the viewer unchanged; a real chunk updates it as `UpdateSpec` says |
| SignalViewerCopy.RawCurves | application/Widgets/SignalViewer_copy.py:104-108 | the copy draws one unscaled curve per signal, each as long as the window |
| SignalViewerCopy.UpdateKeepsConsistent | application/Widgets/SignalViewer_copy.py:82-112 | every update of the copy, whether it succeeds or raises, keeps the viewer invariant |
| SignalViewerCopy.UpdateSpec | application/Widgets/SignalViewer_copy.py:82-112 | an exception leaves the write cursor `previous_pos` where it was; a drawn update moves it inside the window and `current_pos` marks the same place. `UpdateKeepsConsistent`, `UpdateRaisesExactly`, `UpdateWritesChunk` and `DrawnCurvesAreRawColumns` state the rest |
| SignalViewerCopy.UpdateRaisesExactly | application/Widgets/SignalViewer_copy.py:82-112 | the copy raises exactly the errors SignalViewer.py raises, under the same conditions. Once past the modulo, `current_pos` is `(previous_pos + len(chunk)) mod n_samples`; `previous_pos` moves only on success |
| SignalViewerCopy.UpdateWritesChunk | application/Widgets/SignalViewer_copy.py:94-101 | for 1 to n_samples samples, chunk sample d lands at forward offset d from the old cursor, and every other slot keeps its row |
| SignalViewerCopy.DrawnCurvesAreRawColumns | application/Widgets/SignalViewer_copy.py:103-109 | point r of curve i is slot r of column i, unscaled. It is connected exactly when it is finite or lies before the new cursor |
| SignalViewerCopy.RawSignalViewer.constructor | application/Widgets/SignalViewer_copy.py:126-148 | the window length is `int(fs * seconds)` and the selected names are kept. The window is all NaN, the cursors are 0 and the cursor attributes are not yet set |
| SignalViewerCopy.RawSignalViewer.Update | application/Widgets/SignalViewer_copy.py:82-112 | since `pos` is never non-zero, the override branch never runs: for any `setX` and `setPos`, the state and drawing are those of `update(chunk)` |
| SignalViewerCopy.RawSignalViewer.ResetBuffer | application/Widgets/SignalViewer_copy.py:118-119 | every slot becomes NaN and nothing else changes |
| SignalViewerCopy.RawSignalViewer.NextChannelsGroup | application/Widgets/SignalViewer_copy.py:150-155 | the window is cleared and the group index moves with floored modulo; the curves still draw columns 0, 1, ... |
| SignalViewerCopy.RawSignalViewer.Labels | application/Widgets/SignalViewer_copy.py:157-159 | the y axis carries one tick per name from the current group on |
| SignalFilters.StateRows | application/Widgets/SignalFilters.py:18 | the delay line has `max(len(b), len(a)) - 1` rows: one fewer than the longer coefficient vector |
| SignalFilters.NotchCoeffs | application/Widgets/SignalFilters.py:15-17 | the notch coefficients are monic, three of each, with a two-row delay line; `b[0] == b[2] == 1 - mu` and `a[2] == 1 - 2 mu` |
| SignalFilters.RunConcat | application/Widgets/SignalFilters.py:21 | filtering `xs ++ ys` from a delay line equals filtering `xs`, then `ys` from the delay line `xs` left behind |
| SignalFilters.StepState | application/Widgets/SignalFilters.py:21 | one sample of the direct-form II transposed recurrence keeps the delay line's length |
| SignalFilters.Run | application/Widgets/SignalFilters.py:21 | `lfilter` over one channel gives one output per input and a delay line of the same length; chunking does not matter (`RunConcat`) and silence stays silent (`RunSilence`) |
| SignalFilters.LFilter | application/Widgets/SignalFilters.py:21 | `lfilter` raises ValueError exactly when the chunk's channel count differs from `zi`'s. Otherwise the output has the chunk's shape and the final delay line keeps `zi`'s shape |
| SignalFilters.LFilterConcat | application/Widgets/SignalFilters.py:20-22 | filtering chunk c1 and then c2 from the delay line the first call left gives the outputs and final delay line of filtering `c1 ++ c2` at once |
| SignalFilters.RunSilence | application/Widgets/SignalFilters.py:18-21 | from a zero delay line, a silent input gives silent output and a zero delay line |
| SignalFilters.NotchFilter.constructor | application/Widgets/SignalFilters.py:13-18 | the filter holds the notch coefficients for `mu` and `cos(w0)` and a zero delay line of 2 rows by `n_channels` |
| SignalFilters.NotchFilter.Apply | application/Widgets/SignalFilters.py:20-22 | the result is `lfilter`'s output. On success `zi` becomes the final delay line; on a ValueError it is unchanged |
| SignalFilters.NotchFilter.Reset | application/Widgets/SignalFilters.py:24-25 | the delay line becomes zeros of the same shape; the coefficients stay |
| SignalFilters.ChooseDesign | application/Widgets/SignalFilters.py:30-38 | both edges missing raises ValueError. A missing low edge gives a low-pass at `high/fs*2`, a missing high edge a high-pass at `low/fs*2`, and two edges a band-pass at both. A zero rate raises ZeroDivisionError |
| SignalFilters.ButterFilter.constructor | application/Widgets/SignalFilters.py:28-39 | the filter holds the design, the designer's coefficients and a zero delay line of `StateRows` rows by `n_channels` |
| SignalFilters.ButterFilter.Apply | application/Widgets/SignalFilters.py:41-43 | the result is `lfilter`'s output. On success `zi` becomes the final delay line; on an error it is unchanged |
| SignalFilters.ButterFilter.Reset | application/Widgets/SignalFilters.py:45-46 | the delay line becomes zeros of the same shape; the coefficients stay |
| SignalFilters.NewButterFilter | application/Widgets/SignalFilters.py:28-39 | a band `ChooseDesign` rejects raises that error. A design the designer rejects raises the designer's error. Otherwise a fresh filter with that design and zero state is returned |
| Controls.LowEdge | TimeSeriesViewer.py:121-126 | only unparsable text raises, and then ValueError. An empty box clears the edge; a number of at least 0.1 becomes the edge and a smaller one is ignored. An acceptable edge stays acceptable |
| Controls.HighEdge | TimeSeriesViewer.py:129-134 | only unparsable text raises, and then ValueError. An empty box clears the edge; a number below `fs/2` becomes the edge and any other is ignored. An acceptable edge stays acceptable |
| Controls.EdgeEditsIdempotent | TimeSeriesViewer.py:121-134 | submitting the same text twice leaves the edges where one submission put them |
| Controls.DefaultBand | TimeSeriesViewer.py:184 | the default band starts at 0.1 and ends below the Nyquist rate |
| Controls.ButterBand | TimeSeriesViewer.py:181-184 | `applyFilter` rebuilds for `(low, high)` when either edge is truthy, and for the default band when both are `None`. It keeps the old filter exactly when neither edge is truthy but one is present |
| Controls.KeepOnlyForZeroHigh | TimeSeriesViewer.py:121-184 | with edges that the edits accepted, the old Butterworth filter is kept exactly when the low edge is absent and the high edge is 0 |
| FilterPanel.ShowFiltered | TimeSeriesViewer.py:166 | `w.update(f.apply(chunk))`: a missing chunk raises ValueError and an `lfilter` error raises ValueError, both changing nothing. Otherwise the delay line becomes the final one and the viewer is updated with the filtered chunk. The side invariant is kept |
| FilterPanel.NotchSpec | TimeSeriesViewer.py:154-166 | the notch branch switches filtering on. It holds a new notch filter with the 60 Hz coefficients and leaves the Butterworth filter and its viewer alone |
| FilterPanel.PreparedButter | TimeSeriesViewer.py:181-184 | the edges asking to keep the filter give the held one. A rebuild gives a new filter for the chosen band with a zero delay line, or the constructor's or the designer's error |
| FilterPanel.SideOkWithButter | TimeSeriesViewer.py:168-182 | switching filtering on and holding a well-shaped Butterworth filter keeps the side invariant |
| FilterPanel.UseSpec | TimeSeriesViewer.py:186 | with no Butterworth filter at all, `None.apply` raises AttributeError. Otherwise the held filter's output is shown; the notch side is untouched |
| FilterPanel.FinishSpec | TimeSeriesViewer.py:167-186 | an error while making the filter only switches filtering on; the notch side is untouched either way |
| FilterPanel.ButterSpec | TimeSeriesViewer.py:167-186 | the Butterworth branch keeps the invariant, switches filtering on and leaves the notch filter and its viewer alone |
| FilterPanel.ApplySpec | TimeSeriesViewer.py:139-186 | one `applyFilter` over the filter boxes: filtering is on afterwards exactly when it was or a box is checked. An unchecked box leaves its filter and viewer as they were |
| FilterPanel.NotchForgets | TimeSeriesViewer.py:165-166 | the notch output has no memory: whatever notch filter was held before, the notch filter and viewer after a call are the same |
| FilterPanel.KeptButterCarriesState | TimeSeriesViewer.py:181-186 | a kept Butterworth filter carries its delay line, so two calls filter two chunks as one continuous signal |
| FilterPanel.RebuiltButterStartsFromZero | TimeSeriesViewer.py:181-184 | a rebuilt Butterworth filter filters each chunk from a zero delay line of the designed order |
| FilterPanel.ShowNotchFiltered | TimeSeriesViewer.py:166 | the notch filter's delay line, the viewer's state and the result are those `ShowFiltered` gives |
| FilterPanel.ShowButterFiltered | TimeSeriesViewer.py:186 | the Butterworth filter's delay line, the viewer's state and the result are those `ShowFiltered` gives |
| FilterPanel.FilteredViews.constructor | TimeSeriesViewer.py:46-53 | two fresh 5-second viewers of the selected names are made for the two filter outputs, with filtering off and no filter yet |
| FilterPanel.FilteredViews.SwitchOff | TimeSeriesViewer.py:149-150 | filtering is switched off and nothing else changes |
| FilterPanel.FilteredViews.SwitchOn | TimeSeriesViewer.py:155-156 | filtering is switched on and nothing else changes |
| FilterPanel.FilteredViews.NotchBranch | TimeSeriesViewer.py:154-166 | the new state and result are those of `NotchSpec`; the Butterworth filter object is untouched |
| FilterPanel.FilteredViews.MakeButter | TimeSeriesViewer.py:181-184 | the filter made, or the error, is what `PreparedButter` says; a filter other than the held one is fresh |
| FilterPanel.FilteredViews.Install | TimeSeriesViewer.py:167-184 | filtering is on and the Butterworth filter is the one given; nothing else changes |
| FilterPanel.FilteredViews.ShowButter | TimeSeriesViewer.py:186 | the held filter is applied and its output shown, as `ShowFiltered` says |
| FilterPanel.FilteredViews.UseButter | TimeSeriesViewer.py:182-186 | the new state and result are those of `UseSpec` for the filter given |
| FilterPanel.FilteredViews.Finish | TimeSeriesViewer.py:167-186 | the new state and result are those of `FinishSpec` |
| FilterPanel.FilteredViews.ButterBranch | TimeSeriesViewer.py:167-186 | the new state and result are those of `ButterSpec` |
| FilterPanel.FilteredViews.Apply | TimeSeriesViewer.py:153-186 | the new state and result are those of `ApplySpec` |
| TimeSeriesViewer.CheckedApply | TimeSeriesViewer.py:139-186 | with "noFilter" checked, `applyFilter` only switches filtering off and builds nothing. Otherwise a checked notch or Butterworth box leaves filtering on |
| TimeSeriesViewer.TickSpec | TimeSeriesViewer.py:194-197 | while filtering is off, the tick's filter part changes nothing |
| TimeSeriesViewer.TimeSeriesSignal.constructor | TimeSeriesViewer.py:13-53 | three fresh 5-second viewers over the same channels. There are no band edges, filtering is off and there are no filters yet; the 30 ms timer runs |
| TimeSeriesViewer.TimeSeriesSignal.Start | TimeSeriesViewer.py:82-88 | the timer is active afterwards, whichever branch ran; chunk and edges are unchanged |
| TimeSeriesViewer.TimeSeriesSignal.Stop | TimeSeriesViewer.py:91-97 | the timer is inactive afterwards, whichever branch ran; chunk and edges are unchanged |
| TimeSeriesViewer.TimeSeriesSignal.LowPass | TimeSeriesViewer.py:121-126 | the low edge becomes what `LowEdge` gives. Unparsable text raises ValueError and keeps the edge. The high edge, the chunk and the timer are unchanged |
| TimeSeriesViewer.TimeSeriesSignal.HighPass | TimeSeriesViewer.py:129-134 | the high edge becomes what `HighEdge` gives. Unparsable text raises ValueError and keeps the edge. The low edge, the chunk and the timer are unchanged |
| TimeSeriesViewer.TimeSeriesSignal.ApplyFilter | TimeSeriesViewer.py:139-186 | the filter side and result are those of `CheckedApply` for the boxes and edges as they are |
| TimeSeriesViewer.TimeSeriesSignal.FilterTick | TimeSeriesViewer.py:194-197 | the filter side and result are those of `TickSpec`: `applyFilter` runs only while filtering is on |
| TimeSeriesViewer.TimeSeriesSignal.Update | TimeSeriesViewer.py:188-198 | the pull becomes `chunk`. A `None` pull changes no view. A real chunk updates the main view first and runs the filter tick only if that update did not raise |
| LslViewer.QueueStepAsWritten | LSLViewer.py:100-109 | the queue step as written blocks exactly when more than four seconds have passed and the queue is empty |
| LslViewer.QueueAsWrittenBlocks | LSLViewer.py:105-109 | the first chunk that reaches `updateData` after four seconds finds an empty queue, so `q.get()` blocks |
| LslViewer.QueueStep | LSLViewer.py:105-109 | the corrected step always ends with the new chunk. Within four seconds it appends; after that, a non-empty queue keeps its length |
| LslViewer.QueueStepAgrees | LSLViewer.py:105-109 | wherever the step as written returns, the corrected step gives the same queue |
| LslViewer.Arrived | LSLViewer.py:196-202 | one chunk per tick |
| LslViewer.PushesKeepNewest | LSLViewer.py:105-109 | first in, first out: after any run of ticks the queue is a suffix of everything it held or received, in arrival order, and is non-empty after a tick |
| LslViewer.Pushes | LSLViewer.py:105-109 | after a run of ticks the queue holds at most one more chunk per tick, and the last chunk received is at its back; `PushesKeepNewest` and `PushesKeepLength` state the rest |
| LslViewer.StepKeepsNewest | LSLViewer.py:105-109 | one step keeps the queue a suffix of everything seen, now including the new chunk |
| LslViewer.PushesKeepLength | LSLViewer.py:107-109 | after four seconds, a non-empty queue keeps its length on every tick |
| LslViewer.TickSpec | LSLViewer.py:198-201 | while filtering is off, the tick's filter part changes nothing; while it is on, filtering stays on |
| LslViewer.RunSignal.constructor | LSLViewer.py:9-80 | three fresh 5-second viewers with no band edges and filtering off. The queue is empty, `time` is 0 and the 30 ms timer runs |
| LslViewer.RunSignal.Start | LSLViewer.py:83-89 | the timer is active afterwards, whichever branch ran; time, chunk, edges and queue are unchanged |
| LslViewer.RunSignal.Stop | LSLViewer.py:92-98 | the timer is inactive afterwards, whichever branch ran; time, chunk, edges and queue are unchanged |
| LslViewer.RunSignal.LowPass | LSLViewer.py:125-131 | the low edge becomes what `LowEdge` gives. Unparsable text raises ValueError and keeps the edge; nothing else changes |
| LslViewer.RunSignal.HighPass | LSLViewer.py:134-139 | the high edge becomes what `HighEdge` gives. Unparsable text raises ValueError and keeps the edge; nothing else changes |
| LslViewer.RunSignal.RemoveFilter | LSLViewer.py:146-153 | filtering is switched off; the filters and the filtered views are kept |
| LslViewer.RunSignal.ApplyFilter | LSLViewer.py:155-189 | the filter side and result are those of `ApplySpec` for the boxes and edges as they are |
| LslViewer.RunSignal.FilterTick | LSLViewer.py:198-201 | the filter side and result are those of `TickSpec` |
| LslViewer.RunSignal.UpdateData | LSLViewer.py:100-109 | the queue takes the corrected step with the current chunk; nothing else changes |
| LslViewer.RunSignal.AfterDraw | LSLViewer.py:198-202 | the filter tick runs as `TickSpec` says; the queue steps only if the tick did not raise |
| LslViewer.RunSignal.Show | LSLViewer.py:196-202 | `w` is updated as `UpdateSpec` says. An exception there ends the tick; otherwise the filters and the queue follow |
| LslViewer.RunSignal.Update | LSLViewer.py:192-202 | `time` advances by `chunk_len` on every tick and the pull becomes `chunk`. A `None` pull skips all view work and leaves the queue alone |
| AppTimeSeriesViewer.FilterKeysAlwaysAny | application/Widgets/TimeSeriesViewer.py:141 | `any(self.Filters)` tests the non-empty key strings, so it holds whatever the flags are |
| AppTimeSeriesViewer.FreshScreen | application/Widgets/TimeSeriesViewer.py:58-65 | a newly made graph is consistent, all NaN, with cursor 0 and no cursor attributes yet |
| AppTimeSeriesViewer.DefaultButter | application/Widgets/TimeSeriesViewer.py:67 | the default Butterworth filter is the band-pass for `(0.1, fs/2 - 0.001)` with a zero delay line. A zero rate raises ZeroDivisionError |
| AppTimeSeriesViewer.AddSpec | application/Widgets/TimeSeriesViewer.py:55-68 | "Notch" sets its flag, opens a new graph and makes a new notch filter with zero state. "Butter" sets its flag and opens a graph first, so a failing constructor keeps flag, graph and the old filter. Any other name changes nothing |
| AppTimeSeriesViewer.RemoveSpec | application/Widgets/TimeSeriesViewer.py:76-87 | a known name clears its flag and its graph but keeps the filter object; any other name changes nothing |
| AppTimeSeriesViewer.RemoveUndoesAdd | application/Widgets/TimeSeriesViewer.py:55-87 | removing a filter right after adding it leaves what removing it alone leaves, except that the new filter object is still held |
| AppTimeSeriesViewer.RemoveTwice | application/Widgets/TimeSeriesViewer.py:76-87 | removing is idempotent |
| AppTimeSeriesViewer.ChangeAsWritten | application/Widgets/TimeSeriesViewer.py:71-73 | as written, `changeFilter` raises exactly for "Butter" with a live graph: TypeError from `reset(band)`, or AttributeError when no filter was ever made |
| AppTimeSeriesViewer.ChangeAsWrittenNeverChangesBand | application/Widgets/TimeSeriesViewer.py:71-73 | with the graph open and a filter made, `changeFilter("Butter", band)` raises TypeError whatever the band |
| AppTimeSeriesViewer.ChangeSpec | application/Widgets/TimeSeriesViewer.py:71-73 | as intended, only "Butter" with a live graph acts: the filter is rebuilt for `band` from a zero delay line. A rejected band raises and keeps everything; nothing but the filter changes |
| AppTimeSeriesViewer.ShowCopy | application/Widgets/TimeSeriesViewer.py:144-147 | `graph.update(f.apply(chunk))`: an `lfilter` error raises ValueError and changes nothing. Otherwise the delay line becomes the final one and the graph is updated with the output |
| AppTimeSeriesViewer.NotchStage | application/Widgets/TimeSeriesViewer.py:143-144 | only while the notch flag is set, the held notch filter (same coefficients) is applied and its graph updated; only the notch filter and graph change |
| AppTimeSeriesViewer.ButterStage | application/Widgets/TimeSeriesViewer.py:146-147 | only while the Butterworth flag is set. With a graph but no filter the lookup raises AttributeError; only the Butterworth filter and graph change |
| AppTimeSeriesViewer.TickSpec | application/Widgets/TimeSeriesViewer.py:141-147 | a tick keeps the flags; with both flags off it changes nothing |
| AppTimeSeriesViewer.NotchCarriesAcrossTicks | application/Widgets/TimeSeriesViewer.py:60-144 | the notch filter is reused: over two ticks its delay line ends where filtering both chunks as one signal ends |
| AppTimeSeriesViewer.ButterCarriesAcrossTicks | application/Widgets/TimeSeriesViewer.py:67-147 | the Butterworth filter is reused: over two ticks without an exception, it ends where filtering both chunks as one signal ends |
| AppTimeSeriesViewer.FilterGraphs.constructor | application/Widgets/TimeSeriesViewer.py:25-28 | no graphs, both flags off, no filters |
| AppTimeSeriesViewer.FilterGraphs.InstallButter | application/Widgets/TimeSeriesViewer.py:67 | the new Butterworth filter replaces the held one; nothing else changes |
| AppTimeSeriesViewer.FilterGraphs.AddNotch | application/Widgets/TimeSeriesViewer.py:56-61 | the state is what `AddSpec` gives for "Notch" |
| AppTimeSeriesViewer.FilterGraphs.SetNotch | application/Widgets/TimeSeriesViewer.py:57-60 | the notch flag is set and the new graph and filter are held; nothing else changes |
| AppTimeSeriesViewer.FilterGraphs.OpenButterGraph | application/Widgets/TimeSeriesViewer.py:64-65 | the Butterworth flag is set and a fresh graph is held; nothing else changes |
| AppTimeSeriesViewer.FilterGraphs.AddButter | application/Widgets/TimeSeriesViewer.py:63-68 | the state and result are what `AddSpec` gives for "Butter" |
| AppTimeSeriesViewer.FilterGraphs.MakeDefaultButter | application/Widgets/TimeSeriesViewer.py:67 | the filter or the error is what `DefaultButter` says |
| AppTimeSeriesViewer.FilterGraphs.AddFilter | application/Widgets/TimeSeriesViewer.py:55-68 | the state and result are what `AddSpec` gives |
| AppTimeSeriesViewer.FilterGraphs.CloseNotch | application/Widgets/TimeSeriesViewer.py:77-81 | the notch flag is cleared and the graph dropped; nothing else changes |
| AppTimeSeriesViewer.FilterGraphs.CloseButter | application/Widgets/TimeSeriesViewer.py:83-87 | the Butterworth flag is cleared and the graph dropped; nothing else changes |
| AppTimeSeriesViewer.FilterGraphs.RemoveFilter | application/Widgets/TimeSeriesViewer.py:76-87 | the state is what `RemoveSpec` gives |
| AppTimeSeriesViewer.FilterGraphs.ChangeFilter | application/Widgets/TimeSeriesViewer.py:71-73 | the state and result are what the corrected `ChangeSpec` gives |
| AppTimeSeriesViewer.FilterGraphs.NotchTick | application/Widgets/TimeSeriesViewer.py:143-144 | the state and result are what `NotchStage` gives |
| AppTimeSeriesViewer.FilterGraphs.ButterTick | application/Widgets/TimeSeriesViewer.py:146-147 | the state and result are what `ButterStage` gives |
| AppTimeSeriesViewer.FilterGraphs.FilterTick | application/Widgets/TimeSeriesViewer.py:141-147 | the state and result are what `TickSpec` gives |
| AppTimeSeriesViewer.TimeSeriesSignal.constructor | application/Widgets/TimeSeriesViewer.py:16-37 | the controller is a fresh 5-second raw viewer with both flags off and no graphs; the 30 ms timer runs |
| AppTimeSeriesViewer.TimeSeriesSignal.Start | application/Widgets/TimeSeriesViewer.py:90-96 | the timer is active afterwards, whichever branch ran; the chunk is unchanged |
| AppTimeSeriesViewer.TimeSeriesSignal.Stop | application/Widgets/TimeSeriesViewer.py:99-105 | the timer is inactive afterwards, whichever branch ran; the chunk is unchanged |
| AppTimeSeriesViewer.TimeSeriesSignal.MainLoop | application/Widgets/TimeSeriesViewer.py:134-147 | the pull becomes `chunk`. A `None` pull changes nothing. A real chunk updates the controller's viewer, then the filter graphs, and an exception ends the tick |
| AppTimeSeriesViewer.TimeSeriesSignal.Show | application/Widgets/TimeSeriesViewer.py:137-147 | the viewer is updated as `UpdateSpec` says, then, unless that raised, the filter tick runs |
| LslVisualization.RemoveFirst | application/LSL_visualization.py:163 | `list.remove(x)` removes one occurrence of x: the length drops by one and the multiset loses one x; a list without x is unchanged |
| LslVisualization.RemoveFirstDistinct | application/LSL_visualization.py:163 | in a list without repeats, removing x keeps no repeats and removes exactly x |
| LslVisualization.RemoveAppended | application/LSL_visualization.py:162-165 | removing a value just appended to a list that lacked it gives the list back |
| LslVisualization.Toggle | application/LSL_visualization.py:151-165 | id 0 changes nothing. Button k > 0 toggles channel k - 1: it is selected afterwards exactly when it was not before, and no repeats appear |
| LslVisualization.ToggleInRange | application/LSL_visualization.py:136-165 | toggling a button of the group keeps the selection within the stream's channels |
| LslVisualization.ToggleTwice | application/LSL_visualization.py:159-165 | clicking the same channel twice restores which channels are selected; for a channel that was not selected, the list itself comes back |
| LslVisualization.Range | application/LSL_visualization.py:177 | the full selection lists every one of the n channels exactly once (no repeats, all in range, every channel present), in button order |
| LslVisualization.SetKey | application/LSL_visualization.py:238-240 | `d[k] = v` makes k map to v and leaves every other key alone. An existing key keeps its place and a new key goes last |
| LslVisualization.ApplyOne | application/LSL_visualization.py:247-251 | a checked entry calls `addFilter` and an unchecked one `removeFilter`; the controller invariant is kept |
| LslVisualization.ApplyAll | application/LSL_visualization.py:243-251 | the entries run in key order and the controller invariant is kept |
| LslVisualization.ApplyAllSnoc | application/LSL_visualization.py:246-251 | running one more entry after a prefix that did not raise is one more `ApplyOne` |
| LslVisualization.ApplyAllStops | application/LSL_visualization.py:246-251 | once an entry raises, the entries after it do not run |
| LslVisualization.ApplyMatchesBoxes | application/LSL_visualization.py:243-251 | with the two boxes, each flag of the viewer ends as its box says. The only exception is the Butterworth constructor's, for a checked Butterworth box |
| LslVisualization.Gui.constructor | application/LSL_visualization.py:27-32 | nothing is selected and both filter boxes are unchecked, in the order Notch, Butter |
| LslVisualization.Gui.LoadChannels | application/LSL_visualization.py:113-145 | the selection is cleared and n channel buttons appear; the filters are kept |
| LslVisualization.Gui.SelectChannel | application/LSL_visualization.py:151-165 | the selection becomes `Toggle` of the old one; the invariant and everything else are kept |
| LslVisualization.Gui.SelectAllChannels | application/LSL_visualization.py:168-184 | checked gives every channel 0 to n - 1, unchecked gives none; everything else is kept |
| LslVisualization.Gui.SelectFilters | application/LSL_visualization.py:235-240 | the box's text becomes a key holding its checked state; the selection is kept |
| LslVisualization.Gui.ApplyFilters | application/LSL_visualization.py:243-251 | the viewer's filter state and the result are those of `ApplyAll` over the boxes in key order |
| LslVisualization.Gui.ApplyEntry | application/LSL_visualization.py:247-251 | one pass of the loop is `ApplyOne` |
| LslVisualization.Gui.ShowTSStream | application/LSL_visualization.py:256-284 | no stream gives the stream error and no selection the channel error. Otherwise the selection is passed on: non-empty, without repeats and within the channels |
| LslVisualization.Gui.ShowTFStream | application/LSL_visualization.py:290-320 | no stream gives the stream error. A selection of other than one channel gives the channel error. Otherwise the one selected channel is passed on |
| EpochVisual.CountUnfilled | application/Widgets/EpochVisual.py:65 | `epoch.count(0)` is at most the slot count, and 0 exactly when every slot holds a curve |
| EpochVisual.FilledBelowCount | application/Widgets/EpochVisual.py:65-75 | when exactly the slots below k hold a curve, `count(0)` is `5 - k` |
| EpochVisual.Roll | application/Widgets/EpochVisual.py:85 | `np.roll(alphas, 1)` moves every alpha one place on and the last one to the front |
| EpochVisual.Next | application/Widgets/EpochVisual.py:90-93 | the `lineIndex` step is `(i + 1) mod 5` |
| EpochVisual.Fade | application/Widgets/EpochVisual.py:78-83 | slot i below n gets alpha `alphas[i]` and keeps its curve; the other slots are unchanged |
| EpochVisual.Start | application/Widgets/EpochVisual.py:30-34 | the initial state keeps the invariant, with all five slots of both lists unfilled |
| EpochVisual.Written | application/Widgets/EpochVisual.py:72-73 | writing both lists at `lineIndex` leaves exactly the slots below `Reach` filled |
| EpochVisual.Opened | application/Widgets/EpochVisual.py:65-72 | `epochOne` gets the new curve at `lineIndex`, `epochTwo` and `lineIndex` are unchanged, and the plot gains only the new handle; `EpochViewer.Open` is proved to reach this state and `RemovalOnlyWhenFull` states which curve leaves |
| EpochVisual.Drawn | application/Widgets/EpochVisual.py:73-93 | after a drawn epoch the latch is set, `lineIndex` moves on by one modulo the bank, and the plot gains only the two new handles; `DrawnEpochAdvances` and `AlphasFollowLatch` state the rest |
| EpochVisual.Step | application/Widgets/EpochVisual.py:57-93 | every tick keeps the invariant: five slots and five alphas each, filled slots a prefix below `lineIndex` or all of them, and no slot of `epochTwo` filled before the first epoch |
| EpochVisual.EmptyChunkChangesNothing | application/Widgets/EpochVisual.py:58-64 | an empty pull changes nothing. A pull that raised IOError also changes nothing, then raises NameError at the unbound `chunk` |
| EpochVisual.DrawnEpochAdvances | application/Widgets/EpochVisual.py:64-93 | a drawn epoch writes both lists at `lineIndex` and keeps every other slot's curve. `lineIndex` moves on modulo 5 and `linesPlotted` latches |
| EpochVisual.ShortChunkRaises | application/Widgets/EpochVisual.py:72-73 | a one-sample chunk writes only `epochOne` at `lineIndex`, then raises IndexError at `chunk[1]`, and `lineIndex` stays |
| EpochVisual.RemovalOnlyWhenFull | application/Widgets/EpochVisual.py:65-73 | curves leave the plot only once both lists are full, and then exactly the two at `lineIndex`; the new curves are always on it |
| EpochVisual.AlphasFollowLatch | application/Widgets/EpochVisual.py:77-88 | the first drawn epoch only sets `linesPlotted`. Every later one gives the curves in slot i alpha `alphas[i]`, then rotates the alphas by one |
| EpochVisual.LineChangeLength | application/Widgets/EpochVisual.py:75 | `lineChange` has one entry per filled slot: five once full, `lineIndex + 1` before |
| EpochVisual.EpochViewer.constructor | application/Widgets/EpochVisual.py:27-34 | empty slots, `lineIndex` 0, the start alphas and nothing plotted: the state `Start` |
| EpochVisual.EpochViewer.MainLoop | application/Widgets/EpochVisual.py:57-93 | the new state and the result are those of `Step` on the old state |
| EpochVisual.EpochViewer.Open | application/Widgets/EpochVisual.py:65-72 | the state is `Opened`: the old curves are removed when full and `epochOne` gets its new curve |
| EpochVisual.EpochViewer.Complete | application/Widgets/EpochVisual.py:73-93 | the state is `Drawn`: `epochTwo` is written, the alphas are set and rotated or the latch is set, and `lineIndex` moves on |
| EpochVisual.EpochViewer.FadeLines | application/Widgets/EpochVisual.py:78-83 | both lists become `Fade` of the old ones with the current alphas; nothing else changes |
| EpochVisualV2.StartBank | application/Widgets/EpochVisualV2.py:35-41 | a new bank keeps the bank invariant, with all five slots of every channel unfilled |
| EpochVisualV2.Initial | application/Widgets/EpochVisualV2.py:35-41 | the initial viewer keeps the viewer invariant |
| EpochVisualV2.Without | application/Widgets/EpochVisualV2.py:78-85 | `removeItem(slot)` takes the slot's curve off the plot and nothing else; the 0 of an empty slot is not on it |
| EpochVisualV2.Cleared | application/Widgets/EpochVisualV2.py:75-85 | curves are removed only once channel 0's list has no empty slot, and then at most each channel's curve at the index |
| EpochVisualV2.DrawnSlots | application/Widgets/EpochVisualV2.py:88-92 | for each of the first m channels only the slot at the bank's index changes, and it holds the channel's new curve with no alpha; every other slot and every later channel is unchanged |
| EpochVisualV2.Added | application/Widgets/EpochVisualV2.py:88-92 | each of the first m plots gains its new curve and nothing else, and loses nothing; the later plots are unchanged |
| EpochVisualV2.FadeAll | application/Widgets/EpochVisualV2.py:99-109 | every slot keeps its curve handle and whether it is filled; slot i below n of every channel gets alpha `a[i]`, and the slots from n on are unchanged |
| EpochVisualV2.AllDrawn | application/Widgets/EpochVisualV2.py:88-97 | a write loop that reached every channel leaves exactly the slots below `BankReach` filled, as channel 0's count says |
| EpochVisualV2.PartlyDrawn | application/Widgets/EpochVisualV2.py:88-92 | a write loop cut short after m channels keeps the bank's shape |
| EpochVisualV2.Finished | application/Widgets/EpochVisualV2.py:95-128 | the bank after a complete write keeps the bank invariant |
| EpochVisualV2.MarkWith | application/Widgets/EpochVisualV2.py:71-128 | a chunk with this bank's marker keeps the bank invariant and the number of plots |
| EpochVisualV2.TickWith | application/Widgets/EpochVisualV2.py:64-128 | every tick keeps the viewer invariant, with or without the rotation |
| EpochVisualV2.TickAsWritten | application/Widgets/EpochVisualV2.py:64-128 | the tick as written keeps the viewer invariant |
| EpochVisualV2.Tick | application/Widgets/EpochVisualV2.py:64-128 | the corrected tick keeps the viewer invariant |
| EpochVisualV2.AsWrittenAlphasNeverMove | application/Widgets/EpochVisualV2.py:111-114 | as written, no tick ever changes either bank's alphas, because the roll goes to misspelled attributes |
| EpochVisualV2.CorrectedAlphasRotate | application/Widgets/EpochVisualV2.py:99-114 | with the roll stored back, every later drawn epoch of a bank rotates its alphas by one, and the start alphas do move |
| EpochVisualV2.EmptyChunkIgnored | application/Widgets/EpochVisualV2.py:65-71 | an empty chunk changes nothing. A failed pull changes nothing and raises NameError at the unbound `chunk` |
| EpochVisualV2.MarkerPicksBank | application/Widgets/EpochVisualV2.py:88-128 | a marker of 1 over enough samples writes every channel's slot of the first bank, moves its index on modulo 5 and leaves the second bank alone. A marker of -1 does the reverse |
| EpochVisualV2.OtherMarkerDrawsNothing | application/Widgets/EpochVisualV2.py:88-128 | any other marker writes no slot, moves no index and removes no curve; it only sets `linesPlotted` |
| EpochVisualV2.RemovalOnlyWhenChannelZeroFull | application/Widgets/EpochVisualV2.py:75-85 | curves leave a plot only once channel 0's list of the marked bank has no empty slot, and then only the one at the index |
| EpochVisualV2.EveryCurveFaded | application/Widgets/EpochVisualV2.py:99-109 | after a later drawn epoch, every curve of the marked bank carries the alpha of its slot |
| EpochVisualV2.EpochBank.constructor | application/Widgets/EpochVisualV2.py:35-41 | the bank starts as `StartBank` |
| EpochVisualV2.EpochBank.Clear | application/Widgets/EpochVisualV2.py:75-85 | the removal loop gives `Cleared` |
| EpochVisualV2.EpochBank.Draw | application/Widgets/EpochVisualV2.py:88-92 | the write loop reaches every channel exactly when the chunk has enough rows. Otherwise it stops at `chunk[c, :]` with c equal to the row count; index and alphas stay |
| EpochVisualV2.EpochBank.FadeSlots | application/Widgets/EpochVisualV2.py:99-109 | the slots become `FadeAll` of the old ones; index and alphas stay |
| EpochVisualV2.EpochBank.Finish | application/Widgets/EpochVisualV2.py:94-128 | the bank becomes `Finished` with the rotation |
| EpochVisualV2.EpochBank.RollAlphas | application/Widgets/EpochVisualV2.py:111-114 | the alphas become `np.roll(alphas, 1)`; slots and index stay |
| EpochVisualV2.EpochBank.Advance | application/Widgets/EpochVisualV2.py:119-128 | the index moves on modulo 5; slots and alphas stay |
| EpochVisualV2.EpochViewer.constructor | application/Widgets/EpochVisualV2.py:17-41 | the viewer starts as `Initial`, with two fresh banks |
| EpochVisualV2.EpochViewer.MainLoop | application/Widgets/EpochVisualV2.py:64-128 | the new state and the result are those of the corrected `Tick` |
| EpochVisualV2.EpochViewer.Mark | application/Widgets/EpochVisualV2.py:71-128 | the marked bank, the plots and the latch follow `MarkWith`; the other bank is unchanged |
| Flicker.PhaseClosedForm | SSVEP/SSVEP_8_flickers.py:55-88 | with positive ON and OFF counts, the switch and counter before frame f depend only on `r = f mod (on + off)`: ON with counter r when `r < on`, else OFF with counter `r - on`. So the counter stays below the phase length and is 0 after every switch |
| Flicker.StepPhase | SSVEP/SSVEP_8_flickers.py:61-88 | one frame: the switch flips exactly when the counter reaches the current phase's frame count, and the counter then restarts at 0; otherwise it counts the frame |
| Flicker.PhaseAt | SSVEP/SSVEP_8_flickers.py:55-88 | the switch and counter before frame f; with both counts positive the counter stays below the length of the current phase |
| Flicker.NoOnFramesStaysOn | SSVEP/SSVEP_8_flickers.py:61-75 | with no ON frames configured, the counter only grows and the switch stays on |
| Flicker.NoOffFramesStaysOff | SSVEP/SSVEP_8_flickers.py:77-88 | with no OFF frames configured, the stimulus is ON for its first `on` frames and OFF ever after |
| Flicker.ScheduleIsLit | SSVEP/SSVEP_8_flickers.py:55-88 | the switch before frame f is exactly the closed form `Lit`, for any activation pair |
| Flicker.FirstFrames | SSVEP/SSVEP_8_flickers.py:55-75 | frame 0 is ON, the first `on` frames are ON, and frame `on` is the first OFF frame |
| Flicker.ConfiguredPeriods | SSVEP/SSVEP_8_flickers.py:27 | every configured stimulus has positive counts, and frames f and `f + on + off` agree |
| Flicker.BuildSchedule | SSVEP/SSVEP_8_flickers.py:47-88 | fresh matrices of shape 8×60 and 8×3×60. Every frame cell is 1 or 0 and every colour cell 1 or -1, as the switch before that frame says |
| Flicker.FillStimulus | SSVEP/SSVEP_8_flickers.py:55-88 | the inner loop writes exactly the row of its stimulus, as the switch says; every other row is unchanged |
| Flicker.ScriptSchedule | SSVEP/SSVEP_8_flickers.py:27-88 | frame f of stimulus s is ON exactly when `f mod (on_s + off_s) < on_s`. The frame value is then 1, else 0, and all three colour components are 1, else -1 |
| RtTimeseries.FirstEmpty | viz/rt_timeseries.py:77-80 | the position where `while c:` stops: every pull before it has samples, and the pull there (if any) has none |
| RtTimeseries.FirstEmptyIs | viz/rt_timeseries.py:77-80 | any position with non-empty pulls before it and an empty pull, or the end, at it is `FirstEmpty` (uniqueness of the stopping point) |
| RtTimeseries.SamplesAppend | viz/rt_timeseries.py:78-79 | collecting `new_c += c` and `new_t += t` over two runs of chunks is the concatenation of collecting each |
| RtTimeseries.DrainStopsAtFirstEmpty | viz/rt_timeseries.py:77-80 | everything up to the first empty pull is collected, in order, and nothing after it |
| RtTimeseries.Drain | viz/rt_timeseries.py:74-80 | the drain loop returns exactly the samples and timestamps of the chunks before the first empty pull |
| RtTimeseries.Drained | viz/rt_timeseries.py:74-80 | what the drain loop collects; `DrainStopsAtFirstEmpty` and `SamplesAppend` state it |
| RtTimeseries.FlattenEmpty | viz/rt_timeseries.py:83-85 | the flattened sample list is non-empty exactly when `any(new_c)` holds |
| RtTimeseries.Flatten | viz/rt_timeseries.py:85 | the flattened samples; `FlattenEmpty` and `FlattenRowMajor` state what they are |
| RtTimeseries.FlattenRowMajor | viz/rt_timeseries.py:85 | for samples of `width` values each, the flattening has `|new_c| * width` values and value c of sample j sits at `j * width + c` |
| RtTimeseries.RollLeft | viz/rt_timeseries.py:86 | `np.roll(g, -k)` keeps the length of the buffer |
| RtTimeseries.RollWithin | viz/rt_timeseries.py:86 | for `0 < k <= len(g)`, rolling left by k moves the first k values to the back (the identity when `k == len(g)`) |
| RtTimeseries.SetTail | viz/rt_timeseries.py:87 | `g[-len(data):] = data` keeps the length, puts `data` at the end and leaves the front unchanged |
| RtTimeseries.ShiftIn | viz/rt_timeseries.py:86-87 | rolling by `len(data)` and then overwriting the tail drops the oldest `len(data)` values and appends `data` |
| RtTimeseries.Absorb | viz/rt_timeseries.py:83-91 | the "add samples" block keeps the lengths of both buffers, on every path including the raising ones |
| RtTimeseries.NoSamplesNoChange | viz/rt_timeseries.py:83 | without a non-empty sample both buffers stay as they are and nothing raises |
| RtTimeseries.BuffersSlide | viz/rt_timeseries.py:83-91 | when what arrived fits, `gbuffer` becomes its values past the first k followed by the k new ones, and `gtimes` likewise with the new timestamps when there are any |
| RtTimeseries.OverfullRaises | viz/rt_timeseries.py:86-87 | more values than `gbuffer` holds make the tail assignment raise `ValueError` |
| RtTimeseries.StrideFrom | viz/rt_timeseries.py:97 | `g[start::step]` has t entries when t steps reach just past the end, and entry j is `g[start + j * step]` |
| RtTimeseries.Stride | viz/rt_timeseries.py:97 | `g[k::step]` is empty exactly when `k` is past the end, starts with `g[k]` otherwise, and holds only values of `g`; `StrideFrom`, `StrideLength` and `StrideEntry` state its length and entries |
| RtTimeseries.Shown | viz/rt_timeseries.py:94-97 | the plots are updated exactly when some value of `gbuffer` is non-zero (`gbuffer.any()`), and then channel k gets `gtimes` and `gbuffer[k::channel_count]`, for every one of the `channel_count` channels |
| RtTimeseries.ShiftedStride | viz/rt_timeseries.py:85-97 | after the shift by m uniform samples, channel c's strided slice of `buffer_size` rows ends with channel c of the m new samples, in arrival order |
| RtTimeseries.NewestSamplesPerChannel | viz/rt_timeseries.py:83-97 | after a tick bringing `m <= buffer_size` samples of `channel_count` values, channel c's plotted slice has `buffer_size` entries and its last m are channel c of the new samples, in arrival order |
| RtTimeseries.FlattenLength | viz/rt_timeseries.py:85 | the flattening of samples of `width` values has `|new_c| * width` values |
| RtTimeseries.FlattenEntry | viz/rt_timeseries.py:85 | value c of sample j is at index `j * width + c` of the flattening |
| RtTimeseries.StrideLength | viz/rt_timeseries.py:97 | a buffer of t rows of `step` values gives each channel a slice of t entries |
| RtTimeseries.StrideEntry | viz/rt_timeseries.py:97 | entry j of channel `start`'s slice is `g[start + j * step]` |
| RtTimeseries.TailPosition | viz/rt_timeseries.py:87-97 | row `size - m + j` of the buffer is row j of its last m rows |
| RtTimeseries.Fill | viz/rt_timeseries.py:47-70 | `fill_buffer`'s rounds keep the lengths of both buffers |
| RtTimeseries.FillExitsWhenFull | viz/rt_timeseries.py:49-62 | without an exception, the loop reports full exactly when the samples it counted (`len(new_c)` of every round with a non-empty sample) reach `buffer_size` |
| RtTimeseries.NamesAsWritten | viz/rt_timeseries.py:33-39 | as written, a non-empty name list of the wrong length leaves the `chnames` attribute unset |
| RtTimeseries.NamesChecked | viz/rt_timeseries.py:33-39 | with the mismatch skipping the names, the attribute is always set, holds the names exactly when they are non-empty and match `channel_count`, and then holds them unchanged |
| RtTimeseries.MismatchedNamesBreakStartAsWritten | viz/rt_timeseries.py:108-112 | as written, a non-empty name list of the wrong length makes `start_graph` raise `AttributeError` at `if self.chnames:` |
| RtTimeseries.CheckedNamesGiveTitles | viz/rt_timeseries.py:108-112 | with the intended check every plot gets a title: the names when their count matches the channels, `ch0`, `ch1`, ... otherwise |
| RtTimeseries.Titles | viz/rt_timeseries.py:108-112 | one title per channel; building them raises exactly when the attribute is absent (`AttributeError`) or holds a non-empty list shorter than the channels (`IndexError`) |
| RtTimeseries.Grapher.constructor | viz/rt_timeseries.py:28-39 | zero `gbuffer` of `buffer_size * channel_count` values, `gtimes` all at the clock reading, and the checked `chnames` |
| RtTimeseries.Grapher.AddSamples | viz/rt_timeseries.py:83-91 | the buffers and the result are those of `Absorb` on the old buffers; the names and sizes are unchanged |
| RtTimeseries.Grapher.Update | viz/rt_timeseries.py:71-97 | `update` leaves the buffers that `Absorb` gives on the drained samples, and hands the channels the strided slices exactly when nothing raised |
| RtTimeseries.Grapher.FillBuffer | viz/rt_timeseries.py:47-70 | `fill_buffer` leaves the buffers and the result that `Fill` gives from a count of 0 |
| RtTimeseries.AbsorbXY | viz/rt_timeseries.py:168-177 | the block of `XYGrapher.update` keeps the lengths of both windows on every path |
| RtTimeseries.XYWindowsSlide | viz/rt_timeseries.py:168-177 | when the samples fit and each has two values, both windows drop their oldest `len(new_c)` values and append the first and second values of the new samples |
| RtTimeseries.XYGrapher.constructor | viz/rt_timeseries.py:148-151 | both windows are `buffer_size` zeros |
| RtTimeseries.XYGrapher.Coordinates | viz/rt_timeseries.py:169-173 | the loop raises `IndexError` exactly when some sample has fewer than two values; otherwise it returns the first and second values of the samples, in order |
| RtTimeseries.XYGrapher.Update | viz/rt_timeseries.py:156-180 | the windows and the result are those of `AbsorbXY` on the drained samples, and both windows go to the plot exactly when nothing raised |

## Left out

- Qt/pyqtgraph widgets are not modelled: windows, buttons, layouts, styling, axis ranges and drawing. Plot items and curve handles are opaque values, and a plot is the set of handles on it.
- LSL I/O is not modelled. `resolve_*`, `StreamInlet` and `pull_chunk` become the chunks the caller passes in, and `pylsl.local_clock()` and the elapsed times are parameters.
- Threads, `os._exit` and the event loop are not modelled. Nothing in the core runs concurrently once the widgets are gone.
- Messages printed to the console and the text of the elapsed-time labels in `updateData`/`updateMetaData` are not modelled. They are output only.
- Floating-point rounding is not modelled: values are exact reals.
- The coefficient values of `scipy.signal.butter` and the notch's `cos` are supplied by the caller, because they are floating-point numerics. Only their shapes are checked: three notch coefficients, and monic designs.
- The notch coefficient formula's division by `fs` is not modelled, because the cosine value is passed in already computed. An `fs` of 0 therefore does not raise in the model.
- `np.nanmean` and `stats.iqr` are computed over exact reals. The full-range IQR is the maximum minus the minimum of the finite entries.
- `resetViewer` of TimeSeriesViewer.py and LSLViewer.py is not modelled, because it only rebuilds widgets. That includes LSLViewer's logic for showing and hiding `w2` and `w3`.
- Showing and closing the windows of the filtered viewers `w2`/`w3` is not modelled, because it is UI state.
- In SignalViewer.py, `RawSignalViewer`'s `notch_filter` option is modelled as absent. `NotchFilter` is not imported in that file, so the option could only raise `NameError`.
- application/Widgets/SignalViewer.py, the base class of the application's `TimeSeriesSignal`, is not part of this model. The viewer of application/Widgets/SignalViewer_copy.py stands in for it.
- The application `TimeSeriesSignal`'s `lsl_inlet` and its label are not modelled. The pulled chunk is a parameter of `main_loop`.
- `showTSStream` and `showTFStream` are modelled only as far as their guards. Opening the viewers is UI.
- `Grapher.__init__` is modelled without its calls to `fill_buffer` and `start_graph`, which are separate methods here. `start_graph` is modelled only through the titles it gives the plots, because the rest creates plots and the timer.
- SignalViewer.RawSignalViewer.constructor: requires a non-empty selection without repeats, inside the channel range. An empty selection, or one with no position that is a channel, makes `__init__` raise `IndexError` at `self.indexes_to_plot[0]`; that case is stated by `WindowSpec.InitSignals` and `WindowSpec.EmptySelectionRaises`, and no viewer is built for it. A selection with repeats or with some out-of-range entries is accepted by `__init__` and then makes every `update` raise; that viewer is not modelled. `WindowSpec.SelectionAccepted` shows that the selections admitted are exactly ones on which `__init__` raises nothing.
- SignalViewer.RunSignal.constructor: builds the `RawSignalViewer` of `setViewer`, so it has the same selection requirement as `SignalViewer.RawSignalViewer.constructor`, for the same reason.
- SignalViewer.RunSignal.ResetViewer: rebuilds the viewer, so it has the same selection requirement as `SignalViewer.RawSignalViewer.constructor`.
- FilterPanel.FilteredViews.constructor: builds the raw viewers `w2` and `w3`, so it has the same selection requirement as `SignalViewer.RawSignalViewer.constructor`.
- TimeSeriesViewer.TimeSeriesSignal.constructor: builds its viewers from the selection, so it has the same selection requirement as `SignalViewer.RawSignalViewer.constructor`.
- LslViewer.RunSignal.constructor: builds its viewers from the selection, so it has the same selection requirement as `SignalViewer.RawSignalViewer.constructor`.
- SignalViewerCopy.RawSignalViewer.constructor: models the viewer as the application's `TimeSeriesSignal` builds it. Built on its own, the copy's `createTimer` uses `QTimer`, which the file does not import (it imports only `from PyQt5.QtWidgets import *`), and connects `self.main_loop`, which the copy never defines. Either one makes construction raise an exception. That standalone failure is not modelled.
- RtTimeseries.Absorb and RtTimeseries.AbsorbXY: return `ValueError` whenever more values arrived than the buffer holds. numpy broadcasts a single value into the empty slice of a zero-length buffer without raising; that case (`buffer_size` of 0 with one value) is not modelled.
- SignalFilters.LFilter: returns `ValueError` whenever the chunk's channel count differs from the width of `zi`. scipy's `lfilter` broadcasts a `zi` of width 1 across channels; that case is not modelled, and neither filter builds such a `zi`.
- RtTimeseries.Fill: `fill_buffer`'s loop is modelled over a finite list of rounds of pulls. `Ok(false)` stands for a stream that has not yet delivered `buffer_size` samples, where the source would go on looping.
- RtTimeseries.NewestSamplesPerChannel: assumes every sample has `channel_count` values, as LSL guarantees for a stream. For ragged samples only `BuffersSlide` applies.
- EpochVisualV2.EpochViewer.MainLoop: a pulled chunk is modelled by its sample count and marker. A chunk whose last sample is empty, where `chunk[-1][0]` would raise `IndexError`, is not representable.
- SignalViewer.RawSignalViewer.Labels and SignalViewerCopy.RawSignalViewer.Labels: the contract states only the number of ticks. Their content is stated by `WindowSpec.Ticks` and `WindowSpec.TicksNameDrawnChannels`.
- LslViewer.Arrived: the contract states only that there is one chunk per tick. The order is stated by the lemmas about the queue.
- The other viewers are not modelled: frequency, time-frequency and spectrogram, the root LSL_visualization.py, lslbuffer.py and the multithreaded ring buffer. Their content is Welch/FFT numerics, threads or I/O.
- SSVEP sections 3-5, the psychopy window and frame flipping, are not modelled.

## Findings

| source | as written | input that shows it | evidently intended | confidence | as-written member | corrected member |
|---|---|---|---|---|---|---|
| LSLViewer.py:105-109 | once more than 4 s have elapsed, `updateData` calls the blocking `q.get()` before `q.put(chunk)`, so an empty queue blocks the timer callback forever | a first chunk arriving when `elapsed > 4` with the queue empty | drop the oldest chunk only when there is one, then append | not executed | LslViewer.QueueStepAsWritten, LslViewer.QueueAsWrittenBlocks | LslViewer.QueueStep, LslViewer.QueueStepAgrees, LslViewer.RunSignal.UpdateData |
| application/Widgets/TimeSeriesViewer.py:71-73 | `changeFilter` calls `self.butter_filter.reset(band)`, but `reset` takes no band, so the call raises `TypeError` and the band never changes | `addFilter("Butter")` followed by `changeFilter("Butter", (1.0, 30.0))` | rebuild the Butterworth filter on the new band | not executed | AppTimeSeriesViewer.ChangeAsWritten, AppTimeSeriesViewer.ChangeAsWrittenNeverChangesBand | AppTimeSeriesViewer.ChangeSpec, AppTimeSeriesViewer.FilterGraphs.ChangeFilter |
| application/Widgets/EpochVisualV2.py:111-114 | the rolled alphas are assigned to misspelled attributes, so `epochOneAlphas`/`epochTwoAlphas` never rotate | a third epoch with marker 1 | rotate the bank's alphas by one place after each drawn epoch, as EpochVisual.py does | not executed | EpochVisualV2.TickAsWritten, EpochVisualV2.AsWrittenAlphasNeverMove | EpochVisualV2.Tick, EpochVisualV2.CorrectedAlphasRotate, EpochVisualV2.EpochViewer.MainLoop |
| viz/rt_timeseries.py:33-39 | a name list whose length differs from `channel_count` is reported, but `self.chnames` is then never set, so `start_graph` raises `AttributeError` at `if self.chnames:` | `chnames=["a"]` on a two-channel stream | skip the names, as the message says, and fall back to `ch0`, `ch1`, ... | not executed | RtTimeseries.NamesAsWritten, RtTimeseries.MismatchedNamesBreakStartAsWritten | RtTimeseries.NamesChecked, RtTimeseries.CheckedNamesGiveTitles, RtTimeseries.Grapher.constructor |
